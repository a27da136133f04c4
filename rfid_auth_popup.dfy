/**
 * The authentication popup (RfidAuthPopupWidget): method selection on show,
 * the card-scan path with its PIN pick-up, the PIN submission path with the
 * local PIN match and the alternate server call, the classification of both
 * kinds of server reply, the delayed success and reset callbacks, cancel and
 * close. Rendering is reduced to the two status lines and the PIN input's
 * value; the server's reply to each call is an input; the 1000 ms and 2000 ms
 * callbacks are entries of `scheduled` fired by FireDeferred.
 */
module RfidAuthPopup {
  import opened Wrappers
  import opened Records
  import opened ScreenLocker
  import ResUsers

  const MSG_ENTER_PIN := "Por favor ingrese su PIN"
  const MSG_AUTHENTICATING := "Autenticando..."
  const MSG_NOW_SCAN := "Ahora escanee su tarjeta RFID"
  const MSG_SUCCESS := "¡Autenticación exitosa!"
  const MSG_FAILED := "¡Autenticación fallida!"
  const MSG_GRANTED := "Acceso concedido"
  const MSG_DENIED := "Acceso denegado"
  const MSG_CARD_DETECTED := "¡Tarjeta detectada!"
  const MSG_SCAN_TO_ACCESS := "Escanee su tarjeta RFID para acceder"
  const MSG_PIN_TO_ACCESS := "Ingrese su PIN para acceder"
  const MSG_SCAN_OR_PIN := "Por favor escanee su tarjeta RFID o ingrese PIN"
  const MSG_WAITING_CARD_RFID := "Esperando tarjeta RFID..."
  const MSG_WAITING_CARD := "Esperando tarjeta..."

  /** The state class set_rfid_status puts on the card status line. */
  datatype RfidState = Waiting | Success | Error

  datatype RfidStatus = RfidStatus(state: RfidState, message: string)

  /** show: options.method, or 'both' when none is given. */
  function ShownMethod(requested: Option<AuthMethod>): (m: AuthMethod)
    ensures requested.Some? ==> m == requested.value
    ensures requested.None? ==> m == Both
  {
    if requested.Some? then requested.value else Both
  }

  /**
   * The PIN a card scan sends along: none in 'rfid' mode, otherwise pin_value,
   * or the input's current value when pin_value is empty.
   */
  function ScanPin(auth_method: AuthMethod, pin_value: string, pin_input: string): (pin: Option<string>)
    ensures pin.None? <==> auth_method == Rfid
    ensures pin.Some? && pin_value != "" ==> pin.value == pin_value
    ensures pin.Some? && pin_value == "" ==> pin.value == pin_input
  {
    if auth_method == Rfid then None
    else if pin_value != "" then Some(pin_value)
    else Some(pin_input)
  }

  /** reset_authentication's status line, by method. */
  function ResetMessage(auth_method: AuthMethod): string
  {
    match auth_method
    case Rfid => MSG_SCAN_TO_ACCESS
    case Pin => MSG_PIN_TO_ACCESS
    case Both => MSG_SCAN_OR_PIN
  }

  /** start_rfid_wait's card status line, by method. */
  function WaitMessage(auth_method: AuthMethod): string
  {
    if auth_method == Rfid then MSG_WAITING_CARD_RFID else MSG_WAITING_CARD
  }

  // ----- Server replies -------------------------------------------------------

  /**
   * What this._rpc hands back for authenticate_rfid: a promise-like value that
   * resolves with the server's answer (False or the identity) or is rejected,
   * or a non-promise value: falsy, an object with its own `result` and `id`
   * (id 0 standing for a missing or falsy id), or one whose inspection throws.
   */
  datatype PrimaryReply =
    | Resolved(user: Option<Identity>)
    | Rejected
    | DirectFalsy
    | DirectObject(result: Option<Identity>, self: Identity)
    | DirectThrows

  /** authenticate_user's classification: the identity to confirm, or None for a failure. */
  function ClassifyPrimary(reply: PrimaryReply): (o: Option<Identity>)
    ensures reply.Resolved? ==> o == reply.user
    ensures reply.DirectObject? ==>
              (o.Some? <==> reply.result.Some? || reply.self.id != 0)
              && (o.Some? ==> o.value == if reply.result.Some? then reply.result.value else reply.self)
    ensures reply.Rejected? || reply.DirectFalsy? || reply.DirectThrows? ==> o.None?
  {
    match reply
    case Resolved(user) => user
    case Rejected => None
    case DirectFalsy => None
    case DirectObject(result, self) =>
      if result.Some? then result
      else if self.id != 0 then Some(self)
      else None
    case DirectThrows => None
  }

  /** What session.rpc('/web/dataset/call_kw', ...) does: resolves, is rejected, or throws at once. */
  datatype AlternateReply =
    | AltResolved(result: Option<Identity>)
    | AltRejected
    | AltThrows

  /** authenticate_user_alternative's classification: a truthy result with a truthy id. */
  function ClassifyAlternate(reply: AlternateReply): (o: Option<Identity>)
    ensures o.Some? <==> reply.AltResolved? && reply.result.Some? && reply.result.value.id != 0
    ensures o.Some? ==> o == reply.result
  {
    match reply
    case AltResolved(result) => if result.Some? && result.value.id != 0 then result else None
    case AltRejected => None
    case AltThrows => None
  }

  /**
   * The two paths agree on a resolved server answer except for an identity
   * whose id is 0, which only the primary path accepts.
   */
  lemma ReplyPathsAgree(answer: Option<Identity>)
    ensures ClassifyAlternate(AltResolved(answer)).Some? ==>
              ClassifyPrimary(Resolved(answer)) == ClassifyAlternate(AltResolved(answer))
    ensures ClassifyPrimary(Resolved(answer)) != ClassifyAlternate(AltResolved(answer)) <==>
              answer.Some? && answer.value.id == 0
  {
  }

  /** A non-promise reply can succeed without carrying a server answer: any object with an id. */
  lemma DirectObjectWithIdSucceeds(self: Identity)
    requires self.id != 0
    ensures ClassifyPrimary(DirectObject(None, self)) == Some(self)
  {
  }

  // ----- The local PIN match --------------------------------------------------

  /** validate_pin_simple's loop: the first cached user whose pos_security_pin === pin. */
  method FindUserByPin(users: seq<User>, pin: string) returns (r: Option<nat>)
    ensures r == FirstIndexWithPin(users, pin)
  {
    var i := 0;
    while i < |users|
      invariant 0 <= i <= |users|
      invariant forall j :: 0 <= j < i ==> users[j].pos_security_pin != Some(pin)
    {
      if users[i].pos_security_pin == Some(pin) {
        return Some(i);
      }
      i := i + 1;
    }
    return None;
  }

  // ----- The popup ------------------------------------------------------------

  /** Which server call an authentication attempt went through. */
  datatype Transport = Primary | Alternate

  /** The arguments of one authenticate_rfid call. */
  datatype RpcRequest = RpcRequest(transport: Transport, rfid_card_id: Option<string>, pin: Option<string>)

  /** A pending setTimeout callback: close and confirm after 1000 ms, or reset after 2000 ms. */
  datatype Deferred = ConfirmLater(principal: Principal) | ResetLater

  class AuthPopup {
    /** pos.users */
    const users: seq<User>
    /** pos.screen_locker */
    const locker: Locker?
    var authentication_method: AuthMethod
    var pin_value: string
    /** the value of the rendered .pin-input */
    var pin_input: string
    var waiting_for_rfid: bool
    /** .status-text; None while it shows the template's own text */
    var auth_status: Option<string>
    /** .rfid-status; None while it shows the template's own text */
    var rfid_status: Option<RfidStatus>
    /** this popup is the one the gui shows */
    var visible: bool
    /** this.rfid_reader has been set */
    var has_reader: bool
    /** subscribed to the reader's card_scanned */
    var listening: bool
    var scheduled: seq<Deferred>
    var requests: seq<RpcRequest>
    /** the principals handed to options.confirm */
    var confirmed: seq<Principal>

    ghost predicate Valid()
      reads this, locker
    {
      (locker != null ==> locker.Valid())
      && (listening ==> visible && has_reader)
    }

    /** init */
    constructor (users: seq<User>, locker: Locker?)
      requires locker != null ==> locker.Valid()
      ensures Valid()
      ensures this.users == users && this.locker == locker
      ensures authentication_method == Both && pin_value == "" && pin_input == "" && !waiting_for_rfid
      ensures !visible && !has_reader && !listening
      ensures scheduled == [] && requests == [] && confirmed == []
    {
      this.users := users;
      this.locker := locker;
      authentication_method := Both;
      pin_value := "";
      pin_input := "";
      waiting_for_rfid := false;
      auth_status := None;
      rfid_status := None;
      visible := false;
      has_reader := false;
      listening := false;
      scheduled := [];
      requests := [];
      confirmed := [];
    }

    /**
     * show: render afresh (empty input, template texts), take the method,
     * subscribe to the reader when there is one, wait for a card, and put the
     * method's prompt on the status line in 'rfid' and 'pin' mode.
     */
    method Show(requested: Option<AuthMethod>, reader_present: bool)
      requires Valid()
      modifies this
      ensures Valid()
      ensures authentication_method == ShownMethod(requested)
      ensures visible && pin_input == "" && waiting_for_rfid
      ensures rfid_status == Some(RfidStatus(Waiting, WaitMessage(authentication_method)))
      ensures auth_status == if authentication_method == Both then None else Some(ResetMessage(authentication_method))
      ensures reader_present ==> has_reader && listening
      ensures !reader_present ==> has_reader == old(has_reader) && listening == old(listening)
      ensures pin_value == old(pin_value) && scheduled == old(scheduled)
      ensures requests == old(requests) && confirmed == old(confirmed)
    {
      visible := true;
      pin_input := "";
      auth_status := None;
      rfid_status := None;
      authentication_method := ShownMethod(requested);
      if reader_present {
        has_reader := true;
        listening := true;
      }
      StartRfidWait();
      if authentication_method == Rfid {
        auth_status := Some(MSG_SCAN_TO_ACCESS);
      } else if authentication_method == Pin {
        auth_status := Some(MSG_PIN_TO_ACCESS);
      }
    }

    /** start_rfid_wait */
    method StartRfidWait()
      requires Valid()
      modifies this
      ensures Valid()
      ensures waiting_for_rfid && rfid_status == Some(RfidStatus(Waiting, WaitMessage(authentication_method)))
      ensures authentication_method == old(authentication_method) && pin_value == old(pin_value)
      ensures pin_input == old(pin_input) && auth_status == old(auth_status)
      ensures visible == old(visible) && has_reader == old(has_reader) && listening == old(listening)
      ensures scheduled == old(scheduled) && requests == old(requests) && confirmed == old(confirmed)
    {
      waiting_for_rfid := true;
      rfid_status := Some(RfidStatus(Waiting, WaitMessage(authentication_method)));
    }

    /** authentication_success: report success and schedule close-and-confirm. */
    method AuthenticationSuccess(p: Principal)
      requires Valid()
      modifies this
      ensures Valid()
      ensures auth_status == Some(MSG_SUCCESS) && rfid_status == Some(RfidStatus(Success, MSG_GRANTED))
      ensures scheduled == old(scheduled) + [ConfirmLater(p)]
      ensures authentication_method == old(authentication_method) && pin_value == old(pin_value)
      ensures pin_input == old(pin_input) && waiting_for_rfid == old(waiting_for_rfid)
      ensures visible == old(visible) && has_reader == old(has_reader) && listening == old(listening)
      ensures requests == old(requests) && confirmed == old(confirmed)
    {
      auth_status := Some(MSG_SUCCESS);
      rfid_status := Some(RfidStatus(Success, MSG_GRANTED));
      scheduled := scheduled + [ConfirmLater(p)];
    }

    /** authentication_failed: report failure and schedule the reset. */
    method AuthenticationFailed()
      requires Valid()
      modifies this
      ensures Valid()
      ensures auth_status == Some(MSG_FAILED) && rfid_status == Some(RfidStatus(Error, MSG_DENIED))
      ensures scheduled == old(scheduled) + [ResetLater]
      ensures authentication_method == old(authentication_method) && pin_value == old(pin_value)
      ensures pin_input == old(pin_input) && waiting_for_rfid == old(waiting_for_rfid)
      ensures visible == old(visible) && has_reader == old(has_reader) && listening == old(listening)
      ensures requests == old(requests) && confirmed == old(confirmed)
    {
      auth_status := Some(MSG_FAILED);
      rfid_status := Some(RfidStatus(Error, MSG_DENIED));
      scheduled := scheduled + [ResetLater];
    }

    /** reset_authentication: forget the PIN, show the method's prompt, wait for a card. */
    method ResetAuthentication()
      requires Valid()
      modifies this
      ensures Valid()
      ensures pin_value == "" && pin_input == "" && waiting_for_rfid
      ensures auth_status == Some(ResetMessage(authentication_method))
      ensures rfid_status == Some(RfidStatus(Waiting, WaitMessage(authentication_method)))
      ensures authentication_method == old(authentication_method)
      ensures visible == old(visible) && has_reader == old(has_reader) && listening == old(listening)
      ensures scheduled == old(scheduled) && requests == old(requests) && confirmed == old(confirmed)
    {
      pin_value := "";
      pin_input := "";
      auth_status := Some(ResetMessage(authentication_method));
      StartRfidWait();
    }

    /**
     * authenticate_user: one primary call with (card, pin), then success with
     * the identity its reply classifies as, or failure.
     */
    method AuthenticateUser(rfid_card_id: Option<string>, pin: Option<string>, reply: PrimaryReply)
      requires Valid()
      modifies this
      ensures Valid()
      ensures requests == old(requests) + [RpcRequest(Primary, rfid_card_id, pin)]
      ensures ClassifyPrimary(reply).Some? ==>
                scheduled == old(scheduled) + [ConfirmLater(Remote(ClassifyPrimary(reply).value))]
                && auth_status == Some(MSG_SUCCESS) && rfid_status == Some(RfidStatus(Success, MSG_GRANTED))
      ensures ClassifyPrimary(reply).None? ==>
                scheduled == old(scheduled) + [ResetLater]
                && auth_status == Some(MSG_FAILED) && rfid_status == Some(RfidStatus(Error, MSG_DENIED))
      ensures authentication_method == old(authentication_method) && pin_value == old(pin_value)
      ensures pin_input == old(pin_input) && waiting_for_rfid == old(waiting_for_rfid)
      ensures visible == old(visible) && has_reader == old(has_reader) && listening == old(listening)
      ensures confirmed == old(confirmed)
    {
      auth_status := Some(MSG_AUTHENTICATING);
      requests := requests + [RpcRequest(Primary, rfid_card_id, pin)];
      match ClassifyPrimary(reply) {
        case Some(identity) => AuthenticationSuccess(Remote(identity));
        case None => AuthenticationFailed();
      }
    }

    /** on_card_scanned and process_rfid_authentication: only while subscribed. */
    method OnCardScanned(card_id: string, reply: PrimaryReply)
      requires Valid()
      modifies this
      ensures Valid()
      ensures !old(listening) ==>
                requests == old(requests) && scheduled == old(scheduled) && auth_status == old(auth_status)
                && rfid_status == old(rfid_status)
      ensures old(listening) ==>
                requests == old(requests) + [RpcRequest(Primary, Some(card_id),
                                                        ScanPin(authentication_method, pin_value, pin_input))]
      ensures old(listening) && ClassifyPrimary(reply).Some? ==>
                scheduled == old(scheduled) + [ConfirmLater(Remote(ClassifyPrimary(reply).value))]
                && auth_status == Some(MSG_SUCCESS) && rfid_status == Some(RfidStatus(Success, MSG_GRANTED))
      ensures old(listening) && ClassifyPrimary(reply).None? ==>
                scheduled == old(scheduled) + [ResetLater]
                && auth_status == Some(MSG_FAILED) && rfid_status == Some(RfidStatus(Error, MSG_DENIED))
      ensures authentication_method == old(authentication_method) && pin_value == old(pin_value)
      ensures pin_input == old(pin_input) && waiting_for_rfid == old(waiting_for_rfid)
      ensures visible == old(visible) && has_reader == old(has_reader) && listening == old(listening)
      ensures confirmed == old(confirmed)
    {
      if !listening {
        return;
      }
      rfid_status := Some(RfidStatus(Success, MSG_CARD_DETECTED));
      var pin := ScanPin(authentication_method, pin_value, pin_input);
      AuthenticateUser(Some(card_id), pin, reply);
    }

    /** input_pin: the field's new value becomes pin_value. */
    method InputPin(value: string)
      requires Valid()
      modifies this
      ensures Valid()
      ensures pin_input == value && pin_value == value
      ensures authentication_method == old(authentication_method) && waiting_for_rfid == old(waiting_for_rfid)
      ensures auth_status == old(auth_status) && rfid_status == old(rfid_status)
      ensures visible == old(visible) && has_reader == old(has_reader) && listening == old(listening)
      ensures scheduled == old(scheduled) && requests == old(requests) && confirmed == old(confirmed)
    {
      pin_input := value;
      pin_value := value;
    }

    /** authenticate_user_alternative: one alternate call, then success or failure. */
    method AuthenticateUserAlternative(rfid_card_id: Option<string>, pin: Option<string>, reply: AlternateReply)
      requires Valid()
      modifies this
      ensures Valid()
      ensures requests == old(requests) + [RpcRequest(Alternate, rfid_card_id, pin)]
      ensures ClassifyAlternate(reply).Some? ==>
                scheduled == old(scheduled) + [ConfirmLater(Remote(ClassifyAlternate(reply).value))]
                && auth_status == Some(MSG_SUCCESS) && rfid_status == Some(RfidStatus(Success, MSG_GRANTED))
      ensures ClassifyAlternate(reply).None? ==>
                scheduled == old(scheduled) + [ResetLater]
                && auth_status == Some(MSG_FAILED) && rfid_status == Some(RfidStatus(Error, MSG_DENIED))
      ensures authentication_method == old(authentication_method) && pin_value == old(pin_value)
      ensures pin_input == old(pin_input) && waiting_for_rfid == old(waiting_for_rfid)
      ensures visible == old(visible) && has_reader == old(has_reader) && listening == old(listening)
      ensures confirmed == old(confirmed)
    {
      requests := requests + [RpcRequest(Alternate, rfid_card_id, pin)];
      match ClassifyAlternate(reply) {
        case Some(identity) => AuthenticationSuccess(Remote(identity));
        case None => AuthenticationFailed();
      }
    }

    /**
     * validate_pin_simple: the first cached user with exactly this PIN succeeds
     * without a server call; otherwise the alternate call goes out with no card.
     */
    method ValidatePinSimple(pin: string, reply: AlternateReply)
      requires Valid()
      modifies this
      ensures Valid()
      ensures FirstIndexWithPin(users, pin).Some? ==>
                requests == old(requests)
                && scheduled == old(scheduled) + [ConfirmLater(Local(users[FirstIndexWithPin(users, pin).value]))]
      ensures FirstIndexWithPin(users, pin).None? ==>
                requests == old(requests) + [RpcRequest(Alternate, None, Some(pin))]
                && scheduled == old(scheduled) + [if ClassifyAlternate(reply).Some?
                                                  then ConfirmLater(Remote(ClassifyAlternate(reply).value))
                                                  else ResetLater]
      ensures FirstIndexWithPin(users, pin).Some? || ClassifyAlternate(reply).Some? ==>
                auth_status == Some(MSG_SUCCESS) && rfid_status == Some(RfidStatus(Success, MSG_GRANTED))
      ensures FirstIndexWithPin(users, pin).None? && ClassifyAlternate(reply).None? ==>
                auth_status == Some(MSG_FAILED) && rfid_status == Some(RfidStatus(Error, MSG_DENIED))
      ensures authentication_method == old(authentication_method) && pin_value == old(pin_value)
      ensures pin_input == old(pin_input) && waiting_for_rfid == old(waiting_for_rfid)
      ensures visible == old(visible) && has_reader == old(has_reader) && listening == old(listening)
      ensures confirmed == old(confirmed)
    {
      var found := FindUserByPin(users, pin);
      if found.Some? {
        AuthenticationSuccess(Local(users[found.value]));
      } else {
        AuthenticateUserAlternative(None, Some(pin), reply);
      }
    }

    /**
     * submit_pin: an empty input only asks for a PIN; otherwise the PIN is
     * stored, and in 'pin' and 'both' mode validated, while 'rfid' mode waits
     * for the card.
     */
    method SubmitPin(reply: AlternateReply)
      requires Valid()
      modifies this
      ensures Valid()
      ensures old(pin_input) == "" ==>
                auth_status == Some(MSG_ENTER_PIN) && pin_value == old(pin_value) && rfid_status == old(rfid_status)
                && requests == old(requests) && scheduled == old(scheduled)
      ensures old(pin_input) != "" ==> pin_value == old(pin_input)
      ensures old(pin_input) != "" && authentication_method == Rfid ==>
                auth_status == Some(MSG_NOW_SCAN) && rfid_status == old(rfid_status)
                && requests == old(requests) && scheduled == old(scheduled)
      ensures old(pin_input) != "" && authentication_method != Rfid
              && FirstIndexWithPin(users, old(pin_input)).Some? ==>
                requests == old(requests)
                && scheduled == old(scheduled) + [ConfirmLater(Local(users[FirstIndexWithPin(users, old(pin_input)).value]))]
                && auth_status == Some(MSG_SUCCESS) && rfid_status == Some(RfidStatus(Success, MSG_GRANTED))
      ensures old(pin_input) != "" && authentication_method != Rfid
              && FirstIndexWithPin(users, old(pin_input)).None? ==>
                requests == old(requests) + [RpcRequest(Alternate, None, Some(old(pin_input)))]
                && scheduled == old(scheduled) + [if ClassifyAlternate(reply).Some?
                                                  then ConfirmLater(Remote(ClassifyAlternate(reply).value))
                                                  else ResetLater]
                && auth_status == Some(if ClassifyAlternate(reply).Some? then MSG_SUCCESS else MSG_FAILED)
                && rfid_status == Some(if ClassifyAlternate(reply).Some? then RfidStatus(Success, MSG_GRANTED)
                                       else RfidStatus(Error, MSG_DENIED))
      ensures authentication_method == old(authentication_method) && pin_input == old(pin_input)
      ensures waiting_for_rfid == old(waiting_for_rfid)
      ensures visible == old(visible) && has_reader == old(has_reader) && listening == old(listening)
      ensures confirmed == old(confirmed)
    {
      var pin := pin_input;
      if pin == "" {
        auth_status := Some(MSG_ENTER_PIN);
        return;
      }
      pin_value := pin;
      if authentication_method == Pin || authentication_method == Both {
        auth_status := Some(MSG_AUTHENTICATING);
        ValidatePinSimple(pin, reply);
      } else {
        auth_status := Some(MSG_NOW_SCAN);
      }
    }

    /** close (with the hide of gui.close_popup): restore the overlay, unsubscribe, hide. */
    method Close()
      requires Valid()
      modifies this, locker
      ensures Valid()
      ensures !visible && !listening
      ensures locker != null ==>
                locker.lock_overlay == (if old(locker.lock_overlay).Some? then Some(Overlay(Some(RAISED))) else None)
                && locker.OnlyOverlayMoved()
      ensures authentication_method == old(authentication_method) && pin_value == old(pin_value)
      ensures pin_input == old(pin_input) && waiting_for_rfid == old(waiting_for_rfid) && has_reader == old(has_reader)
      ensures auth_status == old(auth_status) && rfid_status == old(rfid_status)
      ensures scheduled == old(scheduled) && requests == old(requests) && confirmed == old(confirmed)
    {
      if locker != null {
        locker.RestoreLockOverlayZIndex();
      }
      if has_reader {
        listening := false;
      }
      visible := false;
    }

    /** click_cancel: restore the overlay, then close the popup if it is the one shown. */
    method ClickCancel()
      requires Valid()
      modifies this, locker
      ensures Valid()
      ensures !visible && !listening
      ensures locker != null ==>
                locker.lock_overlay == (if old(locker.lock_overlay).Some? then Some(Overlay(Some(RAISED))) else None)
                && locker.OnlyOverlayMoved()
      ensures scheduled == old(scheduled) && requests == old(requests) && confirmed == old(confirmed)
      ensures authentication_method == old(authentication_method) && pin_value == old(pin_value)
      ensures pin_input == old(pin_input) && waiting_for_rfid == old(waiting_for_rfid) && has_reader == old(has_reader)
      ensures auth_status == old(auth_status) && rfid_status == old(rfid_status)
    {
      if locker != null {
        locker.RestoreLockOverlayZIndex();
      }
      if visible {
        Close();
      }
    }

    /**
     * The scheduled callback at index k runs: a confirmation closes the popup
     * if it is still shown and hands the principal to options.confirm either
     * way; a reset runs reset_authentication, shown or not.
     */
    method FireDeferred(k: nat)
      requires Valid() && k < |scheduled|
      modifies this, locker
      ensures Valid()
      ensures scheduled == old(scheduled[..k] + scheduled[k + 1..])
      ensures old(scheduled[k]).ConfirmLater? ==>
                confirmed == old(confirmed) + [old(scheduled[k]).principal]
                && !visible && !listening && pin_value == old(pin_value) && pin_input == old(pin_input)
                && waiting_for_rfid == old(waiting_for_rfid) && has_reader == old(has_reader)
                && auth_status == old(auth_status) && rfid_status == old(rfid_status)
      ensures old(scheduled[k]).ConfirmLater? && old(visible) && locker != null ==>
                locker.lock_overlay == (if old(locker.lock_overlay).Some? then Some(Overlay(Some(RAISED))) else None)
                && locker.OnlyOverlayMoved()
      ensures old(scheduled[k]).ResetLater? ==>
                confirmed == old(confirmed) && pin_value == "" && pin_input == "" && waiting_for_rfid
                && auth_status == Some(ResetMessage(authentication_method))
                && rfid_status == Some(RfidStatus(Waiting, WaitMessage(authentication_method)))
                && visible == old(visible) && has_reader == old(has_reader) && listening == old(listening)
      ensures !(old(scheduled[k]).ConfirmLater? && old(visible)) && locker != null ==> unchanged(locker)
      ensures authentication_method == old(authentication_method) && requests == old(requests)
    {
      var d := scheduled[k];
      scheduled := scheduled[..k] + scheduled[k + 1..];
      match d {
        case ConfirmLater(p) =>
          if visible {
            Close();
          }
          confirmed := confirmed + [p];
        case ResetLater =>
          ResetAuthentication();
      }
    }
  }

  /**
   * A PIN that no cached user has goes to the server without a card; when the
   * server answers as authenticate_rfid does, the first user without a card is
   * confirmed whatever the PIN, provided that user is not PIN-gated and has an
   * id (see the findings in the README).
   */
  lemma UnknownPinAdmitsCardlessUser(cached: seq<User>, directory: seq<User>, pin: string, i: nat)
    requires FirstIndexWithPin(cached, pin).None?
    requires FirstIndexWithCard(directory, None) == Some(i)
    requires !ResUsers.PinGated(directory[i]) && directory[i].id != 0
    ensures ClassifyAlternate(AltResolved(ResUsers.AuthenticateRfid(directory, None, Some(pin))))
         == Some(IdentityOf(directory[i]))
  {
    ResUsers.NullCardGrantsCardlessUser(directory, Some(pin), i);
  }
}
