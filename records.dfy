/**
 * The records the point-of-sale client and the server share: operator records of
 * res.users, what a successful authentication returns, the terminal configuration
 * and the enum of authentication methods.
 */
module Records {
  import opened Wrappers

  /**
   * A res.users record as the server searches it and as the client caches it in
   * pos.users. Char fields that Odoo leaves unset (False) are None.
   */
  datatype User = User(
    id: int,
    name: string,
    login: string,
    pos_security_pin: Option<string>,
    rfid_card_id: Option<string>,
    pos_require_rfid: bool,
    pos_rfid_pin_combination: bool)

  /** Truthiness of a Char value in both Python and JavaScript: set and non-empty. */
  predicate Truthy(s: Option<string>)
  {
    s.Some? && s.value != ""
  }

  predicate HasSecurityPin(u: User)
  {
    Truthy(u.pos_security_pin)
  }

  /** The dictionary authenticate_rfid returns on success: five fields of the user. */
  datatype Identity = Identity(
    id: int,
    name: string,
    login: string,
    pos_security_pin: Option<string>,
    rfid_card_id: Option<string>)

  function IdentityOf(u: User): Identity
  {
    Identity(u.id, u.name, u.login, u.pos_security_pin, u.rfid_card_id)
  }

  /**
   * Whom a successful authentication names: a cached POS user (local PIN match)
   * or the identity object a remote call returned.
   */
  datatype Principal = Local(user: User) | Remote(identity: Identity)

  /** The popup's authentication_method: 'pin', 'rfid' or 'both'. */
  datatype AuthMethod = Pin | Rfid | Both

  /** The pos.config fields the client loads (rfid_lock_timeout in minutes, 0 when unset). */
  datatype Config = Config(
    enable_rfid_auth: bool,
    rfid_auto_lock: bool,
    rfid_lock_timeout: int,
    rfid_require_pin: bool,
    rfid_only_mode: bool)

  /** A setTimeout handle; browsers hand out positive integers. */
  type TimerId = nat

  /**
   * Index of the first user, in directory order, whose rfid_card_id equals `card`
   * exactly. The client's find_user_by_rfid and the server's limit=1 search both
   * take the first match in the order they see.
   */
  function FirstIndexWithCard(users: seq<User>, card: Option<string>): (r: Option<nat>)
    ensures r.Some? ==> r.value < |users| && users[r.value].rfid_card_id == card
    ensures r.Some? ==> forall j :: 0 <= j < r.value ==> users[j].rfid_card_id != card
    ensures r.None? ==> forall j :: 0 <= j < |users| ==> users[j].rfid_card_id != card
  {
    if |users| == 0 then None
    else if users[0].rfid_card_id == card then Some(0)
    else match FirstIndexWithCard(users[1..], card)
      case None => None
      case Some(i) => Some(i + 1)
  }

  /**
   * Index of the first user, in order, whose security PIN is exactly `pin`
   * (a user without a PIN never matches).
   */
  function FirstIndexWithPin(users: seq<User>, pin: string): (r: Option<nat>)
    ensures r.Some? ==> r.value < |users| && users[r.value].pos_security_pin == Some(pin)
    ensures r.Some? ==> forall j :: 0 <= j < r.value ==> users[j].pos_security_pin != Some(pin)
    ensures r.None? ==> forall j :: 0 <= j < |users| ==> users[j].pos_security_pin != Some(pin)
  {
    if |users| == 0 then None
    else if users[0].pos_security_pin == Some(pin) then Some(0)
    else match FirstIndexWithPin(users[1..], pin)
      case None => None
      case Some(i) => Some(i + 1)
  }
}
