/**
 * The screen-lock state machine (ScreenLocker): lock and unlock, the single
 * inactivity timer with cancel-then-arm handling, activity ticks, the runtime
 * timeout update, the authentication-request overlay lowering and restoring,
 * teardown, and the rules that decide which DOM events pass while the terminal
 * is locked. Time is the parameter `now`; the inactivity timer is a handle plus
 * a map of live timers with their delays, fired by FireTimer.
 */
module ScreenLocker {
  import opened Wrappers
  import opened Records

  /** lock_timeout before configuration: 5 minutes. */
  const DEFAULT_LOCK_TIMEOUT: int := 5 * 60 * 1000

  /** Milliseconds per configured minute. */
  const MINUTE: int := 60 * 1000

  /**
   * The lock timeout setup_inactivity_tracking derives from rfid_lock_timeout:
   * minutes converted to ms, the default when the setting is 0 (unset).
   */
  function LockTimeoutFor(config_minutes: int): (ms: int)
    ensures config_minutes > 0 ==> ms > 0
  {
    if config_minutes != 0 then config_minutes * MINUTE else DEFAULT_LOCK_TIMEOUT
  }

  /** The timeout is a whole number of minutes: the configured one, or 5 when unset. */
  lemma TimeoutInWholeMinutes(config_minutes: int)
    ensures LockTimeoutFor(config_minutes) % MINUTE == 0
    ensures LockTimeoutFor(config_minutes) / MINUTE == if config_minutes == 0 then 5 else config_minutes
  {
    if config_minutes != 0 {
      assert LockTimeoutFor(config_minutes) == config_minutes * MINUTE;
    }
  }

  datatype PointerEvents = PointerAuto | PointerNone

  /** The inline css the locker puts on the overlay. */
  datatype InlineStyle = InlineStyle(z_index: int, pointer_events: PointerEvents)

  /** The lock overlay element; style None: no inline css yet, the stylesheet decides. */
  datatype Overlay = Overlay(style: Option<InlineStyle>)

  /** show_authentication's css: below the popup, clicks pass through. */
  const LOWERED: InlineStyle := InlineStyle(9000, PointerNone)

  /** restore_lock_overlay_z_index's css: on top, blocking. */
  const RAISED: InlineStyle := InlineStyle(9999, PointerAuto)

  datatype LockerEvent = ScreenLocked | ScreenUnlocked | AuthenticationRequested

  /**
   * Timer bookkeeping: every live timer is the one inactivity_timer names, all
   * handles were issued by the counter, and no timer is live while locked.
   */
  ghost predicate TimerInv(is_locked: bool, timer: Option<TimerId>, pending: map<TimerId, int>, next_timer: TimerId)
  {
    0 < next_timer
    && (forall h :: h in pending ==> timer == Some(h))
    && (timer.Some? ==> 0 < timer.value < next_timer)
    && (is_locked ==> pending == map[])
  }

  /** At most one inactivity timer is ever pending. */
  lemma AtMostOneTimer(is_locked: bool, timer: Option<TimerId>, pending: map<TimerId, int>, next_timer: TimerId)
    requires TimerInv(is_locked, timer, pending, next_timer)
    ensures |pending| <= 1
    ensures is_locked ==> |pending| == 0
  {
    if timer.Some? && timer.value in pending {
      assert pending.Keys == {timer.value};
    } else {
      assert pending.Keys == {};
    }
  }

  /** Cancelling the handle inactivity_timer names leaves no live timer. */
  lemma CancelNamedClearsAll(is_locked: bool, timer: Option<TimerId>, pending: map<TimerId, int>, next_timer: TimerId)
    requires TimerInv(is_locked, timer, pending, next_timer)
    ensures timer.Some? ==> pending - {timer.value} == map[]
    ensures timer.None? ==> pending == map[]
  {
  }

  // ----- The event rules of disable_pos_interactions ---------------------------

  /** An event target: the class lists of the element and its ancestors, innermost first. */
  type Target = seq<set<string>>

  /** $(target).closest('.cls').length > 0 */
  predicate Closest(t: Target, cls: string)
  {
    exists k :: 0 <= k < |t| && cls in t[k]
  }

  /** $(target).closest('.a.b').length > 0: one element carrying both classes. */
  predicate ClosestBoth(t: Target, a: string, b: string)
  {
    exists k :: 0 <= k < |t| && a in t[k] && b in t[k]
  }

  /** $(target).hasClass('cls') */
  predicate HasClass(t: Target, cls: string)
  {
    |t| > 0 && cls in t[0]
  }

  predicate InsideAuthPopup(t: Target)
  {
    Closest(t, "popup-rfid-auth") || Closest(t, "rfid-auth-popup")
  }

  /** keydown.pos-lock: F5, Ctrl+Shift+I, the authentication popup and the PIN input pass. */
  predicate KeydownAllowed(key: string, ctrl: bool, shift: bool, t: Target)
  {
    key == "F5" || (ctrl && shift && key == "I")
    || Closest(t, "popup-rfid-auth") || Closest(t, "rfid-auth-popup")
    || HasClass(t, "pin-input") || Closest(t, "pin-input")
  }

  /** click/mousedown/mouseup.pos-lock: the popup, the overlay and its unlock button pass. */
  predicate PointerAllowed(t: Target)
  {
    Closest(t, "popup-rfid-auth") || Closest(t, "rfid-auth-popup")
    || ClosestBoth(t, "modal-dialog", "rfid-auth-popup")
    || Closest(t, "unlock-btn") || Closest(t, "screen-lock-overlay")
  }

  /** contextmenu.pos-lock: only the popup passes. */
  predicate ContextMenuAllowed(t: Target)
  {
    Closest(t, "popup-rfid-auth") || Closest(t, "rfid-auth-popup")
    || ClosestBoth(t, "modal-dialog", "rfid-auth-popup")
  }

  datatype DomEvent =
    | KeyDown(key: string, ctrl: bool, shift: bool, target: Target)
    | Click(target: Target)
    | MouseDown(target: Target)
    | MouseUp(target: Target)
    | ContextMenu(target: Target)

  /**
   * Whether the document-level pos-lock handler lets the event through rather
   * than cancelling it (preventDefault, and stopPropagation for keys and pointer
   * events); the rules apply only
   * while those handlers are installed. They run in the bubble phase, so
   * listeners on the target and its ancestors have already seen the event.
   */
  predicate EventPasses(blocked: bool, e: DomEvent)
  {
    !blocked ||
    match e
    case KeyDown(key, ctrl, shift, t) => KeydownAllowed(key, ctrl, shift, t)
    case Click(t) => PointerAllowed(t)
    case MouseDown(t) => PointerAllowed(t)
    case MouseUp(t) => PointerAllowed(t)
    case ContextMenu(t) => ContextMenuAllowed(t)
  }

  /** The '.modal-dialog.rfid-auth-popup' test adds nothing to the '.rfid-auth-popup' one. */
  lemma ModalDialogClauseSubsumed(t: Target)
    ensures ClosestBoth(t, "modal-dialog", "rfid-auth-popup") ==> Closest(t, "rfid-auth-popup")
  {
    if ClosestBoth(t, "modal-dialog", "rfid-auth-popup") {
      var k :| 0 <= k < |t| && "modal-dialog" in t[k] && "rfid-auth-popup" in t[k];
      assert "rfid-auth-popup" in t[k];
    }
  }

  /** Every kind of event inside the authentication popup passes while locked. */
  lemma AuthPopupEventsPass(e: DomEvent)
    requires InsideAuthPopup(e.target)
    ensures EventPasses(true, e)
  {
  }

  /** While locked, F5, Ctrl+Shift+I and any key typed into the PIN input still pass. */
  lemma ReservedKeysAndPinInputPass(key: string, ctrl: bool, shift: bool, t: Target)
    requires key == "F5" || (ctrl && shift && key == "I") || Closest(t, "pin-input")
    ensures EventPasses(true, KeyDown(key, ctrl, shift, t))
  {
  }

  /**
   * While locked, the document-level handler cancels every event outside the
   * popup, the PIN input, the overlay and its button, except the F5 and
   * Ctrl+Shift+I keydowns.
   */
  lemma OutsideEventsBlocked(e: DomEvent)
    requires !InsideAuthPopup(e.target) && !Closest(e.target, "pin-input")
    requires !Closest(e.target, "unlock-btn") && !Closest(e.target, "screen-lock-overlay")
    requires e.KeyDown? ==> e.key != "F5" && !(e.ctrl && e.shift && e.key == "I")
    ensures !EventPasses(true, e)
  {
    ModalDialogClauseSubsumed(e.target);
  }

  /** The overlay and its unlock button take pointer events but neither keys nor the context menu. */
  lemma OverlayTakesOnlyPointer(t: Target)
    requires !InsideAuthPopup(t) && !Closest(t, "pin-input")
    requires Closest(t, "screen-lock-overlay") || Closest(t, "unlock-btn")
    ensures PointerAllowed(t)
    ensures !ContextMenuAllowed(t)
    ensures forall key: string, ctrl: bool, shift: bool :: key != "F5" && key != "I" ==> !KeydownAllowed(key, ctrl, shift, t)
  {
    ModalDialogClauseSubsumed(t);
  }

  /** Without the pos-lock handlers every event passes. */
  lemma UnlockedPassesAll(e: DomEvent)
    ensures EventPasses(false, e)
  {
  }

  // ----- The locker ------------------------------------------------------------

  class Locker {
    /** pos.config.rfid_auto_lock */
    const auto_lock: bool
    var is_locked: bool
    var lock_overlay: Option<Overlay>
    var inactivity_timer: Option<TimerId>
    /** live timers and their delays in ms */
    var pending: map<TimerId, int>
    var next_timer: TimerId
    var lock_timeout: int
    var last_activity: int
    /** the .pos-lock handlers of disable_pos_interactions are installed */
    var interactions_blocked: bool
    var events: seq<LockerEvent>

    ghost predicate Valid()
      reads this
    {
      TimerInv(is_locked, inactivity_timer, pending, next_timer)
    }

    /** The overlay and the event block exist exactly while the screen is locked. */
    ghost predicate OverlayMatchesLock()
      reads this
    {
      (lock_overlay.Some? <==> is_locked) && (interactions_blocked <==> is_locked)
    }

    /** Between two states, only the overlay (and its inline css) may differ. */
    twostate predicate OnlyOverlayMoved()
      reads this
    {
      is_locked == old(is_locked) && inactivity_timer == old(inactivity_timer) && pending == old(pending)
      && next_timer == old(next_timer) && lock_timeout == old(lock_timeout) && last_activity == old(last_activity)
      && interactions_blocked == old(interactions_blocked) && events == old(events)
    }

    /** What lock_screen does: nothing when locked; otherwise overlay, event block, no timer, one screen_locked. */
    twostate predicate LockEffect()
      reads this
    {
      if old(is_locked) then OnlyOverlayMoved() && lock_overlay == old(lock_overlay)
      else
        is_locked && lock_overlay == Some(Overlay(None)) && interactions_blocked
        && inactivity_timer == None && pending == map[] && events == old(events) + [ScreenLocked]
        && next_timer == old(next_timer) && lock_timeout == old(lock_timeout) && last_activity == old(last_activity)
    }

    /**
     * What unlock_screen at time `now` does: nothing when unlocked; otherwise no
     * overlay and no event block, activity recorded, one screen_unlocked, and
     * with auto-lock the timer armed twice (start_inactivity_timer, then
     * update_activity), so the second fresh handle is the live one.
     */
    twostate predicate UnlockEffect(now: int)
      reads this
    {
      if !old(is_locked) then OnlyOverlayMoved() && lock_overlay == old(lock_overlay)
      else
        !is_locked && lock_overlay == None && !interactions_blocked && last_activity == now
        && events == old(events) + [ScreenUnlocked] && lock_timeout == old(lock_timeout)
        && (auto_lock ==>
              inactivity_timer == Some(old(next_timer) + 1) && pending == map[old(next_timer) + 1 := lock_timeout]
              && next_timer == old(next_timer) + 2)
        && (!auto_lock ==> inactivity_timer == old(inactivity_timer) && pending == map[] && next_timer == old(next_timer))
    }

    /** What show_authentication does: an existing overlay is lowered and authentication_requested is triggered. */
    twostate predicate AuthRequestEffect()
      reads this
    {
      lock_overlay == (if old(lock_overlay).Some? then Some(Overlay(Some(LOWERED))) else None)
      && events == old(events) + [AuthenticationRequested]
      && is_locked == old(is_locked) && inactivity_timer == old(inactivity_timer) && pending == old(pending)
      && next_timer == old(next_timer) && lock_timeout == old(lock_timeout) && last_activity == old(last_activity)
      && interactions_blocked == old(interactions_blocked)
    }

    /** init and setup_inactivity_tracking. */
    constructor (config: Config, now: int)
      ensures Valid() && OverlayMatchesLock()
      ensures auto_lock == config.rfid_auto_lock && !is_locked && lock_overlay == None
      ensures lock_timeout == LockTimeoutFor(config.rfid_lock_timeout) && last_activity == now
      ensures auto_lock ==> inactivity_timer == Some(1) && pending == map[1 := lock_timeout]
      ensures !auto_lock ==> inactivity_timer == None && pending == map[]
      ensures events == []
    {
      auto_lock := config.rfid_auto_lock;
      is_locked := false;
      lock_overlay := None;
      inactivity_timer := None;
      pending := map[];
      next_timer := 1;
      lock_timeout := DEFAULT_LOCK_TIMEOUT;
      last_activity := now;
      interactions_blocked := false;
      events := [];
      new;
      if config.rfid_lock_timeout != 0 {
        lock_timeout := config.rfid_lock_timeout * MINUTE;
      }
      if auto_lock {
        StartInactivityTimer();
      }
    }

    /** start_inactivity_timer: cancel the named timer, arm a fresh one for lock_timeout. */
    method StartInactivityTimer()
      requires Valid() && !is_locked
      modifies this
      ensures Valid()
      ensures inactivity_timer == Some(old(next_timer)) && pending == map[old(next_timer) := lock_timeout]
      ensures next_timer == old(next_timer) + 1
      ensures is_locked == old(is_locked) && lock_overlay == old(lock_overlay)
      ensures lock_timeout == old(lock_timeout) && last_activity == old(last_activity)
      ensures interactions_blocked == old(interactions_blocked) && events == old(events)
    {
      CancelNamedClearsAll(is_locked, inactivity_timer, pending, next_timer);
      if inactivity_timer.Some? {
        pending := pending - {inactivity_timer.value};
      }
      var h := next_timer;
      next_timer := next_timer + 1;
      pending := pending[h := lock_timeout];
      inactivity_timer := Some(h);
    }

    /** update_activity: record the time, re-arm the timer while unlocked with auto-lock on. */
    method UpdateActivity(now: int)
      requires Valid()
      modifies this
      ensures Valid()
      ensures last_activity == now && is_locked == old(is_locked) && lock_overlay == old(lock_overlay)
      ensures !old(is_locked) && auto_lock ==>
                inactivity_timer == Some(old(next_timer)) && pending == map[old(next_timer) := lock_timeout]
                && next_timer == old(next_timer) + 1
      ensures !(!old(is_locked) && auto_lock) ==>
                inactivity_timer == old(inactivity_timer) && pending == old(pending) && next_timer == old(next_timer)
      ensures lock_timeout == old(lock_timeout) && interactions_blocked == old(interactions_blocked)
      ensures events == old(events)
      ensures old(OverlayMatchesLock()) ==> OverlayMatchesLock()
    {
      last_activity := now;
      if !is_locked && auto_lock {
        StartInactivityTimer();
      }
    }

    /** lock_screen: nothing when locked; otherwise overlay, event block, no timer, one screen_locked. */
    method LockScreen()
      requires Valid()
      modifies this
      ensures Valid()
      ensures old(is_locked) ==> is_locked == old(is_locked) && lock_overlay == old(lock_overlay)
                                 && inactivity_timer == old(inactivity_timer) && pending == old(pending)
                                 && interactions_blocked == old(interactions_blocked) && events == old(events)
      ensures !old(is_locked) ==> is_locked && lock_overlay == Some(Overlay(None)) && interactions_blocked
                                  && inactivity_timer == None && pending == map[]
                                  && events == old(events) + [ScreenLocked]
      ensures old(OverlayMatchesLock()) ==> OverlayMatchesLock()
      ensures next_timer == old(next_timer) && lock_timeout == old(lock_timeout) && last_activity == old(last_activity)
      ensures LockEffect()
    {
      if is_locked {
        return;
      }
      is_locked := true;
      lock_overlay := Some(Overlay(None));
      interactions_blocked := true;
      CancelNamedClearsAll(false, inactivity_timer, pending, next_timer);
      if inactivity_timer.Some? {
        pending := pending - {inactivity_timer.value};
        inactivity_timer := None;
      }
      events := events + [ScreenLocked];
    }

    /**
     * unlock_screen: nothing when unlocked; otherwise overlay and event block gone,
     * activity recorded, one live timer exactly when auto-lock is on, one screen_unlocked.
     */
    method UnlockScreen(now: int)
      requires Valid()
      modifies this
      ensures Valid()
      ensures !old(is_locked) ==> lock_overlay == old(lock_overlay) && inactivity_timer == old(inactivity_timer)
                                  && pending == old(pending) && last_activity == old(last_activity)
                                  && interactions_blocked == old(interactions_blocked) && events == old(events)
                                  && next_timer == old(next_timer)
      ensures !is_locked
      ensures old(is_locked) ==> lock_overlay == None && !interactions_blocked && last_activity == now
                                 && events == old(events) + [ScreenUnlocked]
      ensures old(is_locked) && auto_lock ==>
                inactivity_timer == Some(old(next_timer) + 1) && pending == map[old(next_timer) + 1 := lock_timeout]
                && next_timer == old(next_timer) + 2
      ensures old(is_locked) && !auto_lock ==>
                inactivity_timer == old(inactivity_timer) && pending == map[] && next_timer == old(next_timer)
      ensures old(is_locked) ==> OverlayMatchesLock()
      ensures old(OverlayMatchesLock()) ==> OverlayMatchesLock()
      ensures lock_timeout == old(lock_timeout)
      ensures UnlockEffect(now)
    {
      if !is_locked {
        return;
      }
      is_locked := false;
      lock_overlay := None;
      interactions_blocked := false;
      if auto_lock {
        StartInactivityTimer();
      }
      UpdateActivity(now);
      events := events + [ScreenUnlocked];
    }

    /** The inactivity timer `h` fires: a live one calls lock_screen, a cancelled one does nothing. */
    method FireTimer(h: TimerId)
      requires Valid()
      modifies this
      ensures Valid()
      ensures h !in old(pending) ==> is_locked == old(is_locked) && pending == old(pending) && events == old(events)
                                     && lock_overlay == old(lock_overlay) && inactivity_timer == old(inactivity_timer)
                                     && interactions_blocked == old(interactions_blocked)
      ensures h in old(pending) ==> is_locked && lock_overlay == Some(Overlay(None)) && inactivity_timer == None
                                    && pending == map[] && interactions_blocked && events == old(events) + [ScreenLocked]
      ensures lock_timeout == old(lock_timeout) && last_activity == old(last_activity) && next_timer == old(next_timer)
      ensures old(OverlayMatchesLock()) ==> OverlayMatchesLock()
    {
      if h in pending {
        pending := pending - {h};
        LockScreen();
      }
    }

    /** show_authentication: lower an existing overlay and ask for the popup. */
    method ShowAuthentication()
      requires Valid()
      modifies this
      ensures Valid()
      ensures lock_overlay == if old(lock_overlay).Some? then Some(Overlay(Some(LOWERED))) else None
      ensures events == old(events) + [AuthenticationRequested]
      ensures AuthRequestEffect()
      ensures is_locked == old(is_locked) && pending == old(pending) && inactivity_timer == old(inactivity_timer)
      ensures interactions_blocked == old(interactions_blocked)
      ensures lock_timeout == old(lock_timeout) && last_activity == old(last_activity) && next_timer == old(next_timer)
      ensures old(OverlayMatchesLock()) ==> OverlayMatchesLock()
    {
      if lock_overlay.Some? {
        lock_overlay := Some(Overlay(Some(LOWERED)));
      }
      events := events + [AuthenticationRequested];
    }

    /** restore_lock_overlay_z_index: raise an existing overlay back to blocking. */
    method RestoreLockOverlayZIndex()
      requires Valid()
      modifies this
      ensures Valid()
      ensures lock_overlay == if old(lock_overlay).Some? then Some(Overlay(Some(RAISED))) else None
      ensures is_locked == old(is_locked) && pending == old(pending) && inactivity_timer == old(inactivity_timer)
      ensures interactions_blocked == old(interactions_blocked) && events == old(events)
      ensures lock_timeout == old(lock_timeout) && last_activity == old(last_activity) && next_timer == old(next_timer)
      ensures old(OverlayMatchesLock()) ==> OverlayMatchesLock()
    {
      if lock_overlay.Some? {
        lock_overlay := Some(Overlay(Some(RAISED)));
      }
    }

    /** update_lock_timeout: minutes to ms (0 stays 0), re-arm while unlocked with auto-lock on. */
    method UpdateLockTimeout(timeout_minutes: int)
      requires Valid()
      modifies this
      ensures Valid()
      ensures lock_timeout == timeout_minutes * MINUTE
      ensures !old(is_locked) && auto_lock ==>
                inactivity_timer == Some(old(next_timer)) && pending == map[old(next_timer) := lock_timeout]
                && next_timer == old(next_timer) + 1
      ensures !(!old(is_locked) && auto_lock) ==>
                inactivity_timer == old(inactivity_timer) && pending == old(pending) && next_timer == old(next_timer)
      ensures is_locked == old(is_locked) && lock_overlay == old(lock_overlay) && events == old(events)
      ensures last_activity == old(last_activity) && interactions_blocked == old(interactions_blocked)
      ensures old(OverlayMatchesLock()) ==> OverlayMatchesLock()
    {
      lock_timeout := timeout_minutes * MINUTE;
      if !is_locked && auto_lock {
        StartInactivityTimer();
      }
    }

    /** destroy: cancel the timer, remove the overlay and the event block; is_locked stays. */
    method Destroy()
      requires Valid()
      modifies this
      ensures Valid()
      ensures pending == map[] && lock_overlay == None && !interactions_blocked
      ensures is_locked == old(is_locked) && events == old(events) && inactivity_timer == old(inactivity_timer)
      ensures lock_timeout == old(lock_timeout) && last_activity == old(last_activity) && next_timer == old(next_timer)
      ensures !old(is_locked) && old(OverlayMatchesLock()) ==> OverlayMatchesLock()
    {
      CancelNamedClearsAll(is_locked, inactivity_timer, pending, next_timer);
      if inactivity_timer.Some? {
        pending := pending - {inactivity_timer.value};
      }
      lock_overlay := None;
      interactions_blocked := false;
    }
  }
}
