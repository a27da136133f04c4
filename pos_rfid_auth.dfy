/**
 * The point-of-sale coordinator (the PosModel extension): start-up of the card
 * reader and the screen locker, the routing of a scanned card to the unlock
 * path or the cashier-switch path, the choice of the popup's method, the
 * popup's confirm callback, unlocking with a user, manual and start-up
 * locking, and the Ctrl+Alt+L shortcut. Popups opened are logged as requests;
 * the password prompt's answer is an input.
 */
module PosRfidAuth {
  import opened Wrappers
  import opened Records
  import opened ScreenLocker
  import RfidReader

  const UNKNOWN_CARD_TITLE := "Tarjeta Desconocida"
  const UNKNOWN_CARD_BODY := "La tarjeta escaneada no está registrada a ningún usuario."

  /** keyCode of the L key. */
  const KEY_L: int := 76

  /** The cached user find_user_by_rfid returns: the first holding exactly this card. */
  function UserWithCard(users: seq<User>, card_id: string): (u: Option<User>)
    ensures u.Some? ==> u.value in users && u.value.rfid_card_id == Some(card_id)
    ensures u.None? <==> forall j :: 0 <= j < |users| ==> users[j].rfid_card_id != Some(card_id)
  {
    match FirstIndexWithCard(users, Some(card_id))
    case None => None
    case Some(i) => Some(users[i])
  }

  /** find_user_by_rfid: the loop with its early return. */
  method FindUserByRfid(users: seq<User>, card_id: string) returns (u: Option<User>)
    ensures u == UserWithCard(users, card_id)
  {
    var i := 0;
    while i < |users|
      invariant 0 <= i <= |users|
      invariant forall j :: 0 <= j < i ==> users[j].rfid_card_id != Some(card_id)
    {
      if users[i].rfid_card_id == Some(card_id) {
        return Some(users[i]);
      }
      i := i + 1;
    }
    return None;
  }

  /** show_rfid_authentication's method: options.method or 'both', but 'rfid' in RFID-only mode. */
  function PopupMethod(requested: Option<AuthMethod>, rfid_only_mode: bool): (m: AuthMethod)
    ensures rfid_only_mode ==> m == Rfid
    ensures !rfid_only_mode && requested.Some? ==> m == requested.value
    ensures !rfid_only_mode && requested.None? ==> m == Both
  {
    if rfid_only_mode then Rfid
    else if requested.Some? then requested.value
    else Both
  }

  /** The method authenticate_rfid_unlock asks for. */
  function UnlockMethod(config: Config): AuthMethod
  {
    if config.rfid_only_mode then Rfid else Both
  }

  /** What a scanned card leads to. */
  datatype ScanRoute =
    | DirectUnlock(user: User)
    | RequestAuth(requested: AuthMethod, holder: Option<User>)
    | SwitchCashier(user: User)
    | AskPassword(user: User)
    | UnknownCard

  /**
   * handle_rfid_scan with authenticate_rfid_unlock and authenticate_rfid_user:
   * while locked, a known card whose user needs no PIN unlocks directly and any
   * other card asks for authentication; while unlocked, a known card switches
   * the cashier (behind the password prompt for a PIN-combination user with a
   * PIN) and an unknown card is reported.
   */
  function RouteScan(users: seq<User>, config: Config, locked: bool, card_id: string): (r: ScanRoute)
    ensures locked <==> r.DirectUnlock? || r.RequestAuth?
    ensures r.RequestAuth? ==> r.requested == UnlockMethod(config)
  {
    match UserWithCard(users, card_id)
    case Some(u) =>
      if locked then
        if u.pos_rfid_pin_combination || config.rfid_require_pin then RequestAuth(UnlockMethod(config), Some(u))
        else DirectUnlock(u)
      else if u.pos_rfid_pin_combination && HasSecurityPin(u) then AskPassword(u)
      else SwitchCashier(u)
    case None =>
      if locked then RequestAuth(UnlockMethod(config), None) else UnknownCard
  }

  /**
   * A card unlocks the screen without a popup exactly when the screen is locked,
   * the card's first holder has no PIN combination and the terminal does not
   * require a PIN.
   */
  lemma DirectUnlockNeedsNoPinRule(users: seq<User>, config: Config, locked: bool, card_id: string)
    ensures RouteScan(users, config, locked, card_id).DirectUnlock? <==>
              locked && UserWithCard(users, card_id).Some?
              && !UserWithCard(users, card_id).value.pos_rfid_pin_combination && !config.rfid_require_pin
    ensures RouteScan(users, config, locked, card_id).DirectUnlock? ==>
              RouteScan(users, config, locked, card_id).user == UserWithCard(users, card_id).value
  {
  }

  /** Switching cashier without the password prompt never happens for a PIN-combination user with a PIN. */
  lemma SwitchRespectsPinCombination(users: seq<User>, config: Config, card_id: string)
    ensures RouteScan(users, config, false, card_id).SwitchCashier? ==>
              !(RouteScan(users, config, false, card_id).user.pos_rfid_pin_combination
                && HasSecurityPin(RouteScan(users, config, false, card_id).user))
    ensures RouteScan(users, config, false, card_id).AskPassword? <==>
              UserWithCard(users, card_id).Some? && UserWithCard(users, card_id).value.pos_rfid_pin_combination
              && HasSecurityPin(UserWithCard(users, card_id).value)
  {
  }

  /** An unknown card never changes who the cashier is. */
  lemma UnknownCardNamesNobody(users: seq<User>, config: Config, locked: bool, card_id: string)
    requires forall j :: 0 <= j < |users| ==> users[j].rfid_card_id != Some(card_id)
    ensures RouteScan(users, config, locked, card_id) == if locked then RequestAuth(UnlockMethod(config), None) else UnknownCard
  {
  }

  /** Every authentication popup an unlock attempt opens has the unlock method, 'rfid' in RFID-only mode. */
  lemma UnlockPopupMethod(config: Config)
    ensures PopupMethod(Some(UnlockMethod(config)), config.rfid_only_mode) == UnlockMethod(config)
    ensures UnlockMethod(config) == Rfid <==> config.rfid_only_mode
  {
  }

  /** The Ctrl+Alt+L test of the document keydown handler. */
  predicate IsLockShortcut(ctrl: bool, alt: bool, key_code: int)
  {
    ctrl && alt && key_code == KEY_L
  }

  /** A popup the coordinator asks the gui for. */
  datatype PopupRequest =
    | AuthPopupRequest(auth_method: AuthMethod, card_id: Option<string>, user: Option<User>)
    | ErrorPopup(title: string, body: string)

  class PosSession {
    const config: Config
    /** pos.users */
    const users: seq<User>
    /** pos.screen_locker, set by init_rfid_system */
    const locker: Locker?
    /** pos.rfid_reader, set by init_rfid_system */
    const reader: RfidReader.Reader?
    /** the current cashier */
    var cashier: Principal
    var popups: seq<PopupRequest>
    /** the PINs gui.ask_password was asked to check */
    var password_prompts: seq<string>
    /** the start-up lock of init_rfid_system is still to come */
    var startup_lock_pending: bool

    ghost predicate Valid()
      reads this, locker
    {
      (locker != null ==> locker.Valid() && locker.OverlayMatchesLock())
      && (locker != null <==> config.enable_rfid_auth)
      && (reader != null <==> config.enable_rfid_auth)
      && (startup_lock_pending ==> locker != null)
    }

    /** initialize, and init_rfid_system once the POS is ready when RFID auth is enabled. */
    constructor (config: Config, users: seq<User>, session_user: User, probe: RfidReader.HidProbe, now: int)
      ensures Valid()
      ensures this.config == config && this.users == users && cashier == Local(session_user)
      ensures config.enable_rfid_auth ==> fresh(locker) && fresh(reader) && startup_lock_pending
      ensures config.enable_rfid_auth ==> !locker.is_locked && locker.auto_lock == config.rfid_auto_lock
                                          && locker.lock_timeout == LockTimeoutFor(config.rfid_lock_timeout)
                                          && locker.lock_overlay == None && !locker.interactions_blocked
                                          && locker.last_activity == now && locker.events == []
      ensures config.enable_rfid_auth && config.rfid_auto_lock ==>
                locker.inactivity_timer == Some(1) && locker.pending == map[1 := locker.lock_timeout]
      ensures config.enable_rfid_auth && !config.rfid_auto_lock ==>
                locker.inactivity_timer == None && locker.pending == map[]
      ensures config.enable_rfid_auth ==> reader.Valid() && reader.is_connected
                                          && reader.scans == [] && reader.signals == [RfidReader.DeviceConnected]
      ensures !config.enable_rfid_auth ==> locker == null && reader == null && !startup_lock_pending
      ensures popups == [] && password_prompts == []
    {
      this.config := config;
      this.users := users;
      if config.enable_rfid_auth {
        reader := new RfidReader.Reader(probe);
        locker := new Locker(config, now);
      } else {
        reader := null;
        locker := null;
      }
      cashier := Local(session_user);
      popups := [];
      password_prompts := [];
      startup_lock_pending := config.enable_rfid_auth;
    }

    /** The start-up lock's timer fires: lock once. */
    method FireStartupLock()
      requires Valid()
      modifies this, locker
      ensures Valid()
      ensures !startup_lock_pending
      ensures old(startup_lock_pending) ==> locker.LockEffect() && locker.is_locked && locker.lock_overlay.Some?
      ensures !old(startup_lock_pending) && locker != null ==> unchanged(locker)
      ensures cashier == old(cashier) && popups == old(popups) && password_prompts == old(password_prompts)
    {
      if startup_lock_pending {
        startup_lock_pending := false;
        locker.LockScreen();
      }
    }

    /** lock_screen: lock through the locker when there is one. */
    method LockScreen()
      requires Valid()
      modifies locker
      ensures Valid()
      ensures locker != null ==> locker.is_locked && locker.LockEffect()
    {
      if locker != null {
        locker.LockScreen();
      }
    }

    /** The document keydown handler: Ctrl+Alt+L locks when RFID auth is enabled. */
    method HandleShortcut(ctrl: bool, alt: bool, key_code: int)
      requires Valid()
      modifies locker
      ensures Valid()
      ensures IsLockShortcut(ctrl, alt, key_code) && config.enable_rfid_auth ==> locker.is_locked && locker.LockEffect()
      ensures !(IsLockShortcut(ctrl, alt, key_code) && config.enable_rfid_auth) && locker != null ==>
                unchanged(locker)
    {
      if IsLockShortcut(ctrl, alt, key_code) && config.enable_rfid_auth {
        LockScreen();
      }
    }

    /** unlock_with_user: the user becomes cashier, then the locker unlocks. */
    method UnlockWithUser(p: Principal, now: int)
      requires Valid()
      modifies this, locker
      ensures Valid()
      ensures cashier == p && popups == old(popups) && password_prompts == old(password_prompts)
      ensures startup_lock_pending == old(startup_lock_pending)
      ensures locker != null ==> !locker.is_locked && locker.UnlockEffect(now)
    {
      cashier := p;
      if locker != null {
        locker.UnlockScreen(now);
      }
    }

    /** show_rfid_authentication: open the popup with the chosen method and the confirm callback below. */
    method ShowRfidAuthentication(requested: Option<AuthMethod>, card_id: Option<string>, user: Option<User>)
      modifies this
      ensures popups == old(popups) + [AuthPopupRequest(PopupMethod(requested, config.rfid_only_mode), card_id, user)]
      ensures cashier == old(cashier) && password_prompts == old(password_prompts)
      ensures startup_lock_pending == old(startup_lock_pending)
    {
      popups := popups + [AuthPopupRequest(PopupMethod(requested, config.rfid_only_mode), card_id, user)];
    }

    /** The popup's confirm callback: unlock with the user while locked, otherwise only set the cashier. */
    method OnAuthConfirmed(p: Principal, now: int)
      requires Valid()
      modifies this, locker
      ensures Valid()
      ensures cashier == p && popups == old(popups) && password_prompts == old(password_prompts)
      ensures startup_lock_pending == old(startup_lock_pending)
      ensures locker != null && old(locker.is_locked) ==> !locker.is_locked && locker.UnlockEffect(now)
      ensures locker != null && !old(locker.is_locked) ==> unchanged(locker)
    {
      if locker != null && locker.is_locked {
        UnlockWithUser(p, now);
      } else {
        cashier := p;
      }
    }

    /** The overlay's unlock button: lower the overlay, then open the popup with no options. */
    method ClickUnlockButton()
      requires Valid()
      modifies this, locker
      ensures Valid()
      ensures locker != null ==>
                locker.AuthRequestEffect()
                && popups == old(popups) + [AuthPopupRequest(PopupMethod(None, config.rfid_only_mode), None, None)]
      ensures locker == null ==> popups == old(popups)
      ensures cashier == old(cashier) && password_prompts == old(password_prompts)
      ensures startup_lock_pending == old(startup_lock_pending)
    {
      if locker != null {
        locker.ShowAuthentication();
        ShowRfidAuthentication(None, None, None);
      }
    }

    /** authenticate_rfid_unlock */
    method AuthenticateRfidUnlock(card_id: string, now: int)
      requires Valid()
      modifies this, locker
      ensures Valid()
      ensures RouteScan(users, config, true, card_id).DirectUnlock? ==>
                cashier == Local(RouteScan(users, config, true, card_id).user) && popups == old(popups)
                && (locker != null ==> !locker.is_locked && locker.UnlockEffect(now))
      ensures RouteScan(users, config, true, card_id).RequestAuth? ==>
                cashier == old(cashier)
                && popups == old(popups) + [AuthPopupRequest(UnlockMethod(config), Some(card_id),
                                                            RouteScan(users, config, true, card_id).holder)]
                && (locker != null ==> unchanged(locker))
      ensures password_prompts == old(password_prompts) && startup_lock_pending == old(startup_lock_pending)
    {
      var user := FindUserByRfid(users, card_id);
      if user.Some? {
        if user.value.pos_rfid_pin_combination || config.rfid_require_pin {
          ShowRfidAuthentication(Some(UnlockMethod(config)), Some(card_id), user);
        } else {
          UnlockWithUser(Local(user.value), now);
        }
      } else {
        ShowRfidAuthentication(Some(UnlockMethod(config)), Some(card_id), None);
      }
    }

    /** authenticate_rfid_user; `password_accepted` is the answer of gui.ask_password. */
    method AuthenticateRfidUser(card_id: string, password_accepted: bool)
      requires Valid()
      modifies this
      ensures Valid()
      ensures RouteScan(users, config, false, card_id).SwitchCashier? ==>
                cashier == Local(RouteScan(users, config, false, card_id).user)
                && popups == old(popups) && password_prompts == old(password_prompts)
      ensures RouteScan(users, config, false, card_id).AskPassword? ==>
                password_prompts == old(password_prompts)
                                    + [RouteScan(users, config, false, card_id).user.pos_security_pin.value]
                && cashier == (if password_accepted then Local(RouteScan(users, config, false, card_id).user)
                               else old(cashier))
                && popups == old(popups)
      ensures RouteScan(users, config, false, card_id).UnknownCard? ==>
                cashier == old(cashier) && password_prompts == old(password_prompts)
                && popups == old(popups) + [ErrorPopup(UNKNOWN_CARD_TITLE, UNKNOWN_CARD_BODY)]
      ensures startup_lock_pending == old(startup_lock_pending)
    {
      var user := FindUserByRfid(users, card_id);
      if user.Some? {
        if user.value.pos_rfid_pin_combination && HasSecurityPin(user.value) {
          password_prompts := password_prompts + [user.value.pos_security_pin.value];
          if password_accepted {
            cashier := Local(user.value);
          }
        } else {
          cashier := Local(user.value);
        }
      } else {
        popups := popups + [ErrorPopup(UNKNOWN_CARD_TITLE, UNKNOWN_CARD_BODY)];
      }
    }

    /** handle_rfid_scan: the unlock path exactly while the locker reports locked. */
    method HandleRfidScan(card_id: string, password_accepted: bool, now: int)
      requires Valid()
      modifies this, locker
      ensures Valid()
      ensures var route := RouteScan(users, config, old(locker != null && locker.is_locked), card_id);
              (route.DirectUnlock? ==>
                    cashier == Local(route.user) && popups == old(popups)
                    && !locker.is_locked && locker.UnlockEffect(now))
              && (route.RequestAuth? ==>
                    cashier == old(cashier) && unchanged(locker)
                    && popups == old(popups) + [AuthPopupRequest(route.requested, Some(card_id), route.holder)])
              && (route.SwitchCashier? ==> cashier == Local(route.user) && popups == old(popups))
              && (route.AskPassword? ==>
                    cashier == (if password_accepted then Local(route.user) else old(cashier))
                    && popups == old(popups)
                    && password_prompts == old(password_prompts) + [route.user.pos_security_pin.value])
              && (route.UnknownCard? ==>
                    cashier == old(cashier) && popups == old(popups) + [ErrorPopup(UNKNOWN_CARD_TITLE, UNKNOWN_CARD_BODY)])
              && (!route.AskPassword? ==> password_prompts == old(password_prompts))
      ensures startup_lock_pending == old(startup_lock_pending)
      ensures !old(locker != null && locker.is_locked) && locker != null ==> unchanged(locker)
    {
      if locker != null && locker.is_locked {
        AuthenticateRfidUnlock(card_id, now);
      } else {
        AuthenticateRfidUser(card_id, password_accepted);
      }
    }
  }
}
