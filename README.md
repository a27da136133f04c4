# pos-rfid-auth in Dafny

A model of the RFID authentication add-on for the Odoo 12 point of sale,
with proofs about it. The add-on lets a cashier unlock a locked terminal, or
switch the current cashier, by presenting an RFID card. A PIN may be needed
as well. The model covers five parts:

- **RfidReader** (`rfid_reader.dfy`, class `Reader`): the card-input driver.
  It decodes HID input reports. It frames keyboard-wedge input into a buffer
  that Enter submits and a 1000 ms flush timer clears. It drops a repeat of
  the last accepted card id within 2000 ms. It records the `card_scanned`
  signals it triggers in the log `scans`, and the `device_connected` and
  `device_disconnected` signals in the log `signals`.
- **ScreenLocker** (`screen_locker.dfy`, class `Locker`): the lock state
  machine. Its state is `is_locked`, the overlay with its z-index and pointer
  mode, and the single inactivity timer. It also holds the rules that decide
  which DOM events pass while the terminal is locked.
- **PosRfidAuth** (`pos_rfid_auth.dfy`, class `PosSession`): the coordinator.
  It covers start-up, routing a scanned card to the unlock path or the
  cashier-switch path, the popup's method, the popup's confirm callback,
  manual and start-up locking, and the Ctrl+Alt+L shortcut.
- **RfidAuthPopup** (`rfid_auth_popup.dfy`, class `AuthPopup`): the
  authentication popup.
  - The card path sends the card id with the PIN the popup holds.
  - On the PIN path, the PIN is matched against the cached users first. If
    no cached user has it, it is sent to the server without a card.
  - The server's replies are classified into success or failure. The success
    and reset callbacks run after a delay.
- **ResUsers** (`res_users.dfy`): the server side.
  - The field defaults.
  - The card-id uniqueness constraint.
  - The card+PIN rule of `authenticate_rfid`.
  - The list of users the terminal may authenticate by card.

`Records` holds the shared records (user, identity, configuration and
authentication method) and the first-match lookups. `Wrappers` holds `Option`
and `Result`.

Several things are parameters rather than effects:

- The time is a parameter `now`.
- Every `setTimeout` handle is an `Option<TimerId>` field, kept just as the
  code keeps it, so it goes stale after `clearTimeout` or after firing. Next
  to it the model keeps the set (or map) of live timers and a counter for
  fresh handles, and a `Fire…` method runs the callback of a live handle.
- The server's reply to each call is an input of the method that handles it.
- The password prompt's answer is a boolean input.
- What `should_process_keyboard_input` reads from the document (the focused
  element, whether the popup and the lock overlay are present) is an input
  of the keydown handler.

Three behaviours of the code are worth stating plainly:

- **Debounce.** `process_card_scan` compares a scan only with the last
  accepted card id (static/src/js/rfid_reader.js:212-215). A, B, A within two
  seconds therefore emits three `card_scanned` signals
  (`RfidReader.DebounceRemembersOnlyLastId`). What does hold is that two
  consecutive accepted scans of the same card are at least 2000 ms apart.
  `RfidReader.Reader.Valid` keeps that as an invariant.
- **No fallback after a scan.** A scanned card goes through one server call,
  whose failure ends in `authentication_failed`
  (static/src/js/rfid_auth_popup.js:150-184). Only a submitted PIN goes from
  the local match to the alternate server call
  (static/src/js/rfid_auth_popup.js:371-396).
- **Timeout of 0.** `update_lock_timeout(0)` sets a timeout of 0 ms
  (static/src/js/screen_locker.js:309-310), while at start-up a 0 setting
  keeps the 5-minute default (static/src/js/screen_locker.js:21, 33-35).

`ScreenLocker.Locker.Destroy` removes the overlay and the event block but
leaves `is_locked` as it was. The invariant "overlay present exactly while
locked" (`OverlayMatchesLock`) therefore survives `destroy` only when the
screen was unlocked. The timer invariant (`Valid`) survives every operation.

## Model

| member | source | states |
|---|---|---|
| Records.FirstIndexWithCard | static/src/js/pos_rfid_auth.js:183-190 | the index found holds exactly the card; every earlier user, or every user when none is found, does not |
| Records.FirstIndexWithPin | static/src/js/rfid_auth_popup.js:380-386 | the index found has exactly this PIN; every earlier user, or every user when none is found, does not |
| ResUsers.NewUser | models/res_users.py:16-26 | a new user gets pos_require_rfid false and pos_rfid_pin_combination true |
| ResUsers.PinGated | models/res_users.py:65 | a user is PIN-gated exactly when it has the PIN combination and a PIN |
| ResUsers.PinAccepted | models/res_users.py:65-68 | a PIN-gated user needs a non-empty PIN equal to its own; any other user passes |
| ResUsers.AuthenticateRfid | models/res_users.py:52-77 | if no user holds the card, the result is False; a success is the five-field identity of a holder of exactly that card whose PIN check passed |
| ResUsers.GatedUserNeedsPin | models/res_users.py:65-68 | when the matched user has the PIN combination and a PIN, access is granted if and only if a non-empty PIN equal to it is supplied |
| ResUsers.CardAloneSuffices | models/res_users.py:64-77 | when the matched user lacks either condition, the card alone grants that user's identity, whatever the PIN |
| ResUsers.DefaultUserRefusesCardWithoutPin | models/res_users.py:22-26 | with the defaults, a user with a card and a PIN is refused a missing or wrong PIN |
| ResUsers.OtherHolders | models/res_users.py:33-36 | the search returns exactly the users other than this one (by id) that hold the same card id |
| ResUsers.CheckRfidCardUnique | models/res_users.py:28-39 | the constraint passes if and only if no written record has a non-empty card id held by another user; an empty id is never checked |
| ResUsers.ConstraintGivesUniqueCards | models/res_users.py:28-39 | a directory that passes the constraint has at most one user id per non-empty card id |
| ResUsers.CardLookupDeterministic | models/res_users.py:53 | under the constraint, with distinct ids, the limit=1 search returns the one holder of a non-empty card |
| ResUsers.GetRfidUsersForPos | models/res_users.py:79-87 | the list is no longer than the directory; every user with a card and pos_require_rfid appears in it, projected to its four fields, and every entry is the projection of such a user |
| ResUsers.NullCardGrantsCardlessUser | models/res_users.py:53-77 | a request whose card id is null is granted, with any PIN, to the first user without a card when that user is not PIN-gated |
| ResUsers.NullCardExample | models/res_users.py:53-77 | a concrete directory where a card-less request with PIN "0000" is granted to Administrator |
| ResUsers.AuthenticateRfidIntended | models/res_users.py:42-77 | corrected rule: a request without a card succeeds only with a non-empty PIN equal to the identity's own; with a card it decides as authenticate_rfid does |
| ResUsers.IntendedRefusesForeignPin | models/res_users.py:42-77 | under the corrected rule, a PIN that no user has never passes without a card |
| RfidReader.KeepAscii | static/src/js/rfid_reader.js:123-129 | the decoding loop keeps only characters 1..126, and no more characters than there are bytes |
| RfidReader.RemoveLineBreaks | static/src/js/rfid_reader.js:132 | the result has no CR or LF, and every character of it comes from the input |
| RfidReader.CleanCardId | static/src/js/rfid_reader.js:121-135 | a result is non-empty, has characters 1..126 only, no CR/LF and no surrounding whitespace; the result is null exactly when every kept byte is whitespace |
| RfidReader.ParseRfidData | static/src/js/rfid_reader.js:121-135 | the index loop over the report computes CleanCardId of the report's bytes |
| RfidReader.ParseRoundTrip | static/src/js/rfid_reader.js:121-135 | a well-formed card id, encoded as bytes and padded with blank bytes, decodes to itself |
| RfidReader.DebounceKeepsSpacing | static/src/js/rfid_reader.js:213-225 | a scan the debounce accepts keeps consecutive scans of the same card at least 2000 ms apart |
| RfidReader.DebounceRemembersOnlyLastId | static/src/js/rfid_reader.js:213-216 | A, B, A within 200 ms all pass: only the last accepted id is compared |
| RfidReader.Accepts | static/src/js/rfid_reader.js:212-215 | the debounce test: a scan is dropped exactly when it repeats the last accepted card id less than 2000 ms after it |
| RfidReader.ShouldProcessKeyboardInput | static/src/js/rfid_reader.js:188-204 | keyboard input is captured exactly when no input, textarea or content-editable element has the focus and the popup or the lock overlay is present |
| RfidReader.TestCardId | static/src/js/rfid_reader.js:252 | a test id is "TEST_CARD_" followed by decimal digits only |
| RfidReader.DecimalString | static/src/js/rfid_reader.js:252 | the decimal form of a number (the string conversion of Date.now()) is non-empty, made of digits, and one digit long exactly below 10 |
| RfidReader.DecimalStringInjective | static/src/js/rfid_reader.js:252 | different numbers have different decimal forms |
| RfidReader.TestCardIdInjective | static/src/js/rfid_reader.js:252 | test scans taken at different milliseconds carry different card ids |
| RfidReader.LaterTestScanPasses | static/src/js/rfid_reader.js:251-254 | after a test scan, a test scan whose id comes from another millisecond always passes the debounce |
| RfidReader.AtMostOneFlushTimer | static/src/js/rfid_reader.js:162-181 | when every live flush timer is the one scan_timeout names, at most one is live |
| RfidReader.Reader.constructor | static/src/js/rfid_reader.js:14-104 | after start-up the driver is connected, has reported device_connected once and no scan; it listens to the keyboard exactly when the device did not open; buffer, debounce state and timers are initial |
| RfidReader.Reader.SetupKeyboardInput | static/src/js/rfid_reader.js:140-151 | the driver listens to the keyboard, is connected and appends device_connected to the signals; nothing else changes |
| RfidReader.Reader.ProcessCardScan | static/src/js/rfid_reader.js:209-228 | an accepted scan appends exactly card_scanned(id, now) to the scans and sets last_card_id and last_scan_time; a rejected one changes nothing; the class invariant keeps consecutive scans of one card 2000 ms apart |
| RfidReader.Reader.HandleHidInput | static/src/js/rfid_reader.js:109-116 | a blank report changes nothing; otherwise the decoded id goes through the debounce, and an accepted one is appended as card_scanned and becomes the last scan; the buffer, the flush timer, the device and the connection state stay |
| RfidReader.Reader.HandleKeyboardInput | static/src/js/rfid_reader.js:156-183 | the keydown is handled exactly when ShouldProcessKeyboardInput holds for the document; an unhandled key changes nothing; Enter submits a non-empty buffer through the debounce and empties it; one character is appended and arms exactly one fresh timer; a longer key keeps the buffer and leaves no live timer; the device and connection state stay |
| RfidReader.Reader.ClearFlushTimer | static/src/js/rfid_reader.js:163-165 | clearing scan_timeout leaves no live flush timer and changes nothing else |
| RfidReader.Reader.SubmitBuffer | static/src/js/rfid_reader.js:167-172 | the buffer ends empty; a non-empty buffer is appended as card_scanned exactly when the debounce accepts it |
| RfidReader.Reader.BufferCharacter | static/src/js/rfid_reader.js:173-180 | the key is appended to the buffer and scan_timeout names a fresh, sole live timer |
| RfidReader.Reader.FireFlushTimer | static/src/js/rfid_reader.js:178-180 | a live flush timer empties the buffer and is no longer live; a cleared one does nothing; the logs, the debounce state, the device and the connection state stay |
| RfidReader.Reader.Disconnect | static/src/js/rfid_reader.js:233-239 | the driver ends disconnected and appends device_disconnected to the signals; a HID device is closed only when the driver was connected; a live flush timer survives, and the buffer and debounce state stay |
| RfidReader.Reader.TestScan | static/src/js/rfid_reader.js:251-254 | the id "TEST_CARD_" + the time goes through the same debounce, at the second reading of the clock; an accepted one is appended and becomes the last scan; a rejected one changes nothing; buffer, timers, device and connection state stay |
| RfidReader.Reader.HandleKeyboardInputIntended | static/src/js/rfid_reader.js:162-181 | corrected handler: a non-empty buffer always has a live flush timer; Enter and one-character keys behave as in HandleKeyboardInput, and any other key leaves buffer and timer alone |
| RfidReader.StrandedBufferExample | static/src/js/rfid_reader.js:162-181 | as written, "A" then "Shift" leaves "A" in the buffer with no live timer, and the next scan "7" is reported as "A7" |
| ScreenLocker.LockTimeoutFor | static/src/js/screen_locker.js:21-36 | a positive configured timeout gives a positive timeout in ms |
| ScreenLocker.TimeoutInWholeMinutes | static/src/js/screen_locker.js:21-36 | the timeout is the configured number of minutes in ms, or 5 minutes when the setting is 0 |
| ScreenLocker.AtMostOneTimer | static/src/js/screen_locker.js:68-80 | at most one inactivity timer is pending, and none while locked |
| ScreenLocker.CancelNamedClearsAll | static/src/js/screen_locker.js:72-74 | cancelling the timer inactivity_timer names leaves no timer pending |
| ScreenLocker.ModalDialogClauseSubsumed | static/src/js/screen_locker.js:239-241 | the .modal-dialog.rfid-auth-popup test is implied by the .rfid-auth-popup test |
| ScreenLocker.AuthPopupEventsPass | static/src/js/screen_locker.js:214-269 | while locked, the document-level handler lets every key, pointer and context-menu event inside the authentication popup through |
| ScreenLocker.ReservedKeysAndPinInputPass | static/src/js/screen_locker.js:214-227 | while locked, the keydown handler lets F5, Ctrl+Shift+I and keys in the PIN input through |
| ScreenLocker.OutsideEventsBlocked | static/src/js/screen_locker.js:209-270 | while locked, the document-level handlers cancel every event outside the popup, the PIN input, the overlay and its button, except the F5 and Ctrl+Shift+I keydowns |
| ScreenLocker.OverlayTakesOnlyPointer | static/src/js/screen_locker.js:235-269 | on the overlay or its button, outside the popup, the handlers let pointer events through but cancel the context menu and every key other than F5 and I |
| ScreenLocker.UnlockedPassesAll | static/src/js/screen_locker.js:275-283 | without the pos-lock handlers no event is cancelled |
| ScreenLocker.KeydownAllowed | static/src/js/screen_locker.js:213-231 | keydown.pos-lock lets F5, Ctrl+Shift+I and keys inside the popup or the PIN input through |
| ScreenLocker.PointerAllowed | static/src/js/screen_locker.js:234-254 | click, mousedown and mouseup pass inside the popup, the overlay or its unlock button |
| ScreenLocker.ContextMenuAllowed | static/src/js/screen_locker.js:257-268 | contextmenu passes only inside the popup |
| ScreenLocker.EventPasses | static/src/js/screen_locker.js:208-269 | which rule applies to each kind of event, and that no rule applies while the handlers are not installed |
| ScreenLocker.Locker.constructor | static/src/js/screen_locker.js:15-51 | starts unlocked with no overlay and timeout LockTimeoutFor(config); exactly one timer is pending exactly when auto-lock is on |
| ScreenLocker.Locker.StartInactivityTimer | static/src/js/screen_locker.js:68-80 | the old timer is cancelled and exactly one fresh timer with lock_timeout is pending |
| ScreenLocker.Locker.UpdateActivity | static/src/js/screen_locker.js:56-63 | records now; re-arms only when unlocked with auto-lock; never changes is_locked; keeps the overlay invariant |
| ScreenLocker.Locker.LockScreen | static/src/js/screen_locker.js:85-109 | a locked screen is unchanged; otherwise afterwards it is locked, has an overlay and an event block, no timer, and has emitted one screen_locked; timeout, last activity and handle counter stay (LockEffect) |
| ScreenLocker.Locker.UnlockScreen | static/src/js/screen_locker.js:114-139 | an unlocked screen is unchanged, handle counter included; otherwise afterwards it is unlocked with no overlay or block, last_activity is now, one screen_unlocked is emitted, and with auto-lock the second of two fresh handles is the one live timer, without it no timer is live (UnlockEffect) |
| ScreenLocker.Locker.FireTimer | static/src/js/screen_locker.js:77-79 | a pending timer locks the screen (overlay, event block, no timer, one screen_locked); a cancelled handle changes nothing; the timeout, last activity and handle counter stay |
| ScreenLocker.Locker.ShowAuthentication | static/src/js/screen_locker.js:195-204 | an overlay gets z 9000 with pointer-events none; an absent one stays absent; authentication_requested is emitted; lock state, timers, timeout, last activity and block stay |
| ScreenLocker.Locker.RestoreLockOverlayZIndex | static/src/js/screen_locker.js:183-190 | an overlay gets z 9999 with pointer-events auto; an absent one stays absent; lock state, timers, timeout, last activity, block and signals stay |
| ScreenLocker.Locker.UpdateLockTimeout | static/src/js/screen_locker.js:309-316 | the timeout becomes minutes*60000 (0 stays 0); exactly one fresh timer is armed only when unlocked with auto-lock, otherwise the timers stay; last activity, overlay and block stay |
| ScreenLocker.Locker.Destroy | static/src/js/screen_locker.js:321-332 | no timer is pending, no overlay and no block remain; is_locked, the timeout, last activity and handle counter stay |
| RfidAuthPopup.ShownMethod | static/src/js/rfid_auth_popup.js:40 | options.method, or 'both' when none is given |
| RfidAuthPopup.ScanPin | static/src/js/rfid_auth_popup.js:122-125 | no PIN exactly in 'rfid' mode; otherwise pin_value, or the input's value when pin_value is empty |
| RfidAuthPopup.ResetMessage | static/src/js/rfid_auth_popup.js:231-237 | reset_authentication's prompt for 'rfid', 'pin' and 'both' |
| RfidAuthPopup.WaitMessage | static/src/js/rfid_auth_popup.js:248-252 | start_rfid_wait's card line for 'rfid' and for the other methods |
| RfidAuthPopup.ClassifyPrimary | static/src/js/rfid_auth_popup.js:150-184 | a promise's truthy user succeeds with that user; a non-promise object succeeds exactly when it has result or id, with payload result or the object itself; all else fails |
| RfidAuthPopup.ClassifyAlternate | static/src/js/rfid_auth_popup.js:412-430 | succeeds exactly on a resolved, truthy result with a truthy id, and then with that result |
| RfidAuthPopup.ReplyPathsAgree | static/src/js/rfid_auth_popup.js:154-156 | the two paths classify a resolved server answer alike, except an identity with id 0, which only the primary path accepts |
| RfidAuthPopup.DirectObjectWithIdSucceeds | static/src/js/rfid_auth_popup.js:170-171 | a non-promise object with an id succeeds even with no result in it |
| RfidAuthPopup.FindUserByPin | static/src/js/rfid_auth_popup.js:380-386 | the search loop returns the first cached user whose pos_security_pin is exactly the PIN |
| RfidAuthPopup.UnknownPinAdmitsCardlessUser | static/src/js/rfid_auth_popup.js:394 | a PIN that no cached user has goes out without a card; the server's answer then confirms the first card-less user, whatever the PIN, when that user is not PIN-gated and has a non-zero id |
| RfidAuthPopup.AuthPopup.constructor | static/src/js/rfid_auth_popup.js:17-23 | method 'both', empty pin_value, not waiting, not shown |
| RfidAuthPopup.AuthPopup.Show | static/src/js/rfid_auth_popup.js:35-75 | the method is ShownMethod(options); the popup is rendered fresh, waiting for a card, subscribed when a reader exists, and shows the method's prompt in 'rfid' and 'pin' mode; pin_value is kept |
| RfidAuthPopup.AuthPopup.StartRfidWait | static/src/js/rfid_auth_popup.js:246-254 | waiting_for_rfid is set and the card line shows the method's waiting message |
| RfidAuthPopup.AuthPopup.AuthenticationSuccess | static/src/js/rfid_auth_popup.js:190-206 | success messages, and a close-and-confirm with this principal is scheduled |
| RfidAuthPopup.AuthPopup.AuthenticationFailed | static/src/js/rfid_auth_popup.js:211-222 | failure messages, and a reset is scheduled |
| RfidAuthPopup.AuthPopup.ResetAuthentication | static/src/js/rfid_auth_popup.js:227-241 | pin_value and the input are cleared, waiting_for_rfid is set, and the status comes from the method ('rfid' / 'pin' / other) |
| RfidAuthPopup.AuthPopup.AuthenticateUser | static/src/js/rfid_auth_popup.js:134-185 | exactly one primary call with (card, pin); on success a confirm of the classified identity is scheduled and both status lines show success and access granted; on failure a reset is scheduled and both lines show failure and access denied |
| RfidAuthPopup.AuthPopup.OnCardScanned | static/src/js/rfid_auth_popup.js:107-129 | while subscribed, the card goes out with ScanPin(method, pin_value, input), and the classified outcome is scheduled with the matching status lines; otherwise nothing happens |
| RfidAuthPopup.AuthPopup.InputPin | static/src/js/rfid_auth_popup.js:301-305 | pin_value becomes the input's value |
| RfidAuthPopup.AuthPopup.AuthenticateUserAlternative | static/src/js/rfid_auth_popup.js:401-431 | exactly one alternate call; a confirm of the classified identity is scheduled, or a reset on failure |
| RfidAuthPopup.AuthPopup.ValidatePinSimple | static/src/js/rfid_auth_popup.js:371-396 | the first cached user with the PIN is confirmed with no call; otherwise one alternate call with no card and this PIN, whose classified outcome is scheduled; the status lines show success or failure accordingly |
| RfidAuthPopup.AuthPopup.SubmitPin | static/src/js/rfid_auth_popup.js:340-366 | an empty input asks for a PIN and attempts nothing; otherwise the PIN is stored; in 'pin'/'both' mode a local match is confirmed, else the card-less alternate call's classified outcome is scheduled, with the matching status lines; 'rfid' mode only asks for the card |
| RfidAuthPopup.AuthPopup.Close | static/src/js/rfid_auth_popup.js:454-464 | the overlay is restored and nothing else of the locker changes; the reader subscription is dropped and the popup is hidden; the PIN, status lines, schedule and requests stay |
| RfidAuthPopup.AuthPopup.ClickCancel | static/src/js/rfid_auth_popup.js:438-449 | the overlay is restored and nothing else of the locker changes; the popup is closed; method, PIN, input, status lines, reader and schedule stay |
| RfidAuthPopup.AuthPopup.FireDeferred | static/src/js/rfid_auth_popup.js:198-221 | a confirm closes a shown popup (only the overlay of the locker moves) and always hands the principal to confirm, keeping PIN, input and status lines; a reset runs reset_authentication, shown or not, and leaves the locker unchanged |
| PosRfidAuth.UserWithCard | static/src/js/pos_rfid_auth.js:183-190 | a user found holds exactly the card; none is found exactly when no user holds it |
| PosRfidAuth.FindUserByRfid | static/src/js/pos_rfid_auth.js:183-190 | the loop with its early return computes UserWithCard |
| PosRfidAuth.PopupMethod | static/src/js/pos_rfid_auth.js:200-203 | 'rfid' in RFID-only mode; otherwise options.method, or 'both' |
| PosRfidAuth.UnlockMethod | static/src/js/pos_rfid_auth.js:132-144 | the unlock path asks for 'rfid' in RFID-only mode and 'both' otherwise |
| PosRfidAuth.IsLockShortcut | static/src/js/pos_rfid_auth.js:333 | the lock shortcut is Ctrl+Alt with key code 76 (L) |
| PosRfidAuth.RouteScan | static/src/js/pos_rfid_auth.js:107-178 | the unlock path is taken if and only if the screen is locked; an authentication request carries the unlock method |
| PosRfidAuth.DirectUnlockNeedsNoPinRule | static/src/js/pos_rfid_auth.js:128-141 | a card unlocks directly if and only if the screen is locked and the card's first holder has neither the PIN combination nor a terminal-level PIN requirement |
| PosRfidAuth.SwitchRespectsPinCombination | static/src/js/pos_rfid_auth.js:159-170 | the password prompt is used if and only if the holder has the PIN combination and a PIN; an immediate switch never skips it |
| PosRfidAuth.UnknownCardNamesNobody | static/src/js/pos_rfid_auth.js:142-148 | an unknown card asks for authentication with no user while locked, and reports an unknown card while unlocked |
| PosRfidAuth.UnlockPopupMethod | static/src/js/pos_rfid_auth.js:132 | the unlock popup's method is 'rfid' exactly in RFID-only mode, and show_rfid_authentication keeps it |
| PosRfidAuth.PosSession.constructor | static/src/js/pos_rfid_auth.js:39-76 | with RFID auth enabled, a fresh connected reader with no scans and one device_connected, and a fresh unlocked locker with no overlay, no block, no signals, the configured timeout and one timer exactly under auto-lock; the start-up lock is due; otherwise neither exists |
| PosRfidAuth.PosSession.FireStartupLock | static/src/js/pos_rfid_auth.js:72-75 | a due start-up lock runs lock_screen once (the locker ends locked with an overlay) and is no longer due; otherwise the locker is unchanged; cashier, popups and password prompts stay |
| PosRfidAuth.PosSession.LockScreen | static/src/js/pos_rfid_auth.js:242-246 | the locker ends locked, as lock_screen leaves it: unchanged if it was locked, otherwise overlay, block, no timer and one screen_locked |
| PosRfidAuth.PosSession.HandleShortcut | static/src/js/pos_rfid_auth.js:331-346 | Ctrl+Alt+L with RFID auth enabled has exactly lock_screen's effect on the locker; any other key leaves the locker unchanged |
| PosRfidAuth.PosSession.UnlockWithUser | static/src/js/pos_rfid_auth.js:228-237 | the user becomes cashier and the locker undergoes exactly unlock_screen's effect: unchanged if already unlocked, otherwise no overlay or block, activity recorded, one screen_unlocked and one timer exactly under auto-lock; popups, prompts and the start-up flag stay |
| PosRfidAuth.PosSession.ShowRfidAuthentication | static/src/js/pos_rfid_auth.js:195-223 | one popup request with PopupMethod(options.method, rfid_only_mode) |
| PosRfidAuth.PosSession.OnAuthConfirmed | static/src/js/pos_rfid_auth.js:210-218 | the user becomes cashier in both cases; a locked screen undergoes unlock_screen's effect, an unlocked one is untouched; popups, prompts and the start-up flag stay |
| PosRfidAuth.PosSession.ClickUnlockButton | static/src/js/pos_rfid_auth.js:90-92 | the overlay is lowered and authentication_requested is emitted with nothing else of the locker changing, and the popup is requested without options; cashier, prompts and the start-up flag stay |
| PosRfidAuth.PosSession.AuthenticateRfidUnlock | static/src/js/pos_rfid_auth.js:122-150 | a direct unlock sets the cashier and has unlock_screen's effect; otherwise one popup request with the unlock method and card, with the locker unchanged; prompts and the start-up flag stay |
| PosRfidAuth.PosSession.AuthenticateRfidUser | static/src/js/pos_rfid_auth.js:155-178 | an immediate switch; a password-gated switch that happens only if the prompt accepts; or an unknown-card error popup that leaves the cashier unchanged |
| PosRfidAuth.PosSession.HandleRfidScan | static/src/js/pos_rfid_auth.js:107-117 | the effect is the one RouteScan chooses for the locker's state before the scan: a direct unlock has unlock_screen's effect, a popup request or a card-less route leaves the locker unchanged, and every route states cashier, popups and password prompts; the start-up flag stays |

## Left out

- WebHID acquisition and opening (static/src/js/rfid_reader.js:36-104) is browser device I/O. Only its outcome is modelled, as the `HidProbe` parameter of the reader's constructor. Report data arrives as a byte array.
- DOM, jQuery, QWeb and CSS are not modelled. This covers the overlay markup, the `pos-locked` class, the 10 ms `visible` animation, the popup's inline css, the 300 ms focus timer, `click_pin_input` and the `stopPropagation` wiring. An event target is reduced to the class lists of its ancestors.
- The overlay's own context-menu handler (static/src/js/screen_locker.js:156-159) is not modelled separately. The document-level rule already blocks that event.
- The capture-phase activity listeners (static/src/js/screen_locker.js:39-45) are calls of `UpdateActivity` with the time of the event.
- Asynchrony is not modelled. Each server reply and each password-prompt answer is delivered as an input of the call that starts it. Events of the real program could interleave while a request is pending.
- The `card_scanned` signal reaches both the coordinator and an open popup. They are modelled as separate methods (`PosSession.HandleRfidScan` and `AuthPopup.OnCardScanned`), without the joint dispatch and its ordering.
- An Enter keystroke in the PIN input fires both keydown and keypress, and each calls `submit_pin`. The model treats a submission as one `SubmitPin` call.
- The intermediate status texts "Error de autenticación: …", "Autenticación fallida" and "Autenticación fallida - PIN inválido" are not modelled. `authentication_failed` replaces them at once, so the model keeps only the final status. The model also does not cover `error.data.message` throwing inside the rejection handler.
- `gui.close_popup` and `gui.show_popup` are modelled only for this popup: `visible` says whether it is the popup shown. The model does not cover another popup being current. The no-op `options.cancel` is left out.
- The accessors `is_device_connected`, `is_screen_locked`, `is_rfid_enabled`, `get_rfid_reader` and `get_screen_locker` are field reads in the model. `force_lock` and `force_unlock` are aliases of `LockScreen` and `UnlockScreen`.
- The Chrome status indicator and `window.rfid_lock_screen_handler` (static/src/js/pos_rfid_auth.js:271-327, 351-362) only display state or forward to `lock_screen`.
- RfidReader.Reader.HandleKeyboardInput: JavaScript's `event.key.length` counts UTF-16 code units, while the model counts characters (`|key| == 1`). The two differ only for characters outside the Basic Multilingual Plane.
- The reader keeps `card_scanned` and the connection signals in two separate logs, so the model does not record their relative order. No property of the core depends on that order.
- The pos-lock handlers are bound on the document in the bubble phase, so listeners on the target and its ancestors run before an event is cancelled. `EventPasses` says only what the document-level handler does.
- ScreenLocker.Locker.UpdateLockTimeout: the parameter is an integer number of minutes. The code accepts any number, so a fractional value would give a fractional number of ms; it has no caller in the modelled files.
- RfidReader.Reader.Disconnect: the keyboard listener is never removed in the code either, so the flag stays set.
- ResUsers.AuthenticateRfid: logging is left out. So is the ORM's implicit filter that hides inactive users from `search`: the directory is taken as the users the search can see.
- ResUsers.CheckRfidCardUnique: the Char field's `size=64` is not enforced. When several other holders exist, `existing_user.name` fails with a singleton error; this is modelled as `ExpectedSingleton`, without its message.
- `models/pos_config.py` and `__manifest__.py` hold declarations only. `rfid_only_mode` is a field of `Config`.

## Findings

| source | as written | input that shows it | evidently intended | confidence | as-written member | corrected member |
|---|---|---|---|---|---|---|
| models/res_users.py:53 | The PIN fallback of the popup (static/src/js/rfid_auth_popup.js:394) calls authenticate_rfid with card id null. The ORM turns `('rfid_card_id', '=', None)` into an IS NULL test, so the search matches the first user without a card. When that user is not PIN-gated, any PIN is accepted. | A directory holding only Administrator (id 2) with no card and no PIN; the request (null, "0000") | a request without a card succeeds only for a user whose own non-empty PIN was given | medium, not executed | ResUsers.NullCardExample | ResUsers.AuthenticateRfidIntended |
| static/src/js/rfid_reader.js:162-181 | Every processed keydown clears the flush timer, but only a one-character key arms a new one. A key such as "Shift" therefore leaves the buffer without a flush timer, and the leftover characters prefix the next scan. | keys "A", "Shift", then (after the old timer's delay) "7", "Enter" report "A7" | the buffer is emptied 1000 ms after its last character, whatever other keys arrive | medium, not executed | RfidReader.StrandedBufferExample | RfidReader.Reader.HandleKeyboardInputIntended |
