/**
 * Server side of the add-on (the res.users extension): field defaults, the
 * uniqueness constraint on card ids, card+PIN verification and the list of
 * users the terminal may authenticate by card. The ORM is reduced to the
 * directory: the sequence of user records in the order search returns them.
 */
module ResUsers {
  import opened Wrappers
  import opened Records

  /** Field defaults of the extension. */
  const DEFAULT_POS_REQUIRE_RFID: bool := false
  const DEFAULT_POS_RFID_PIN_COMBINATION: bool := true

  /** A user created without values for the extension's fields. */
  function NewUser(id: int, name: string, login: string, pin: Option<string>, card: Option<string>): (u: User)
    ensures !u.pos_require_rfid && u.pos_rfid_pin_combination
    ensures u.id == id && u.pos_security_pin == pin && u.rfid_card_id == card
  {
    User(id, name, login, pin, card, DEFAULT_POS_REQUIRE_RFID, DEFAULT_POS_RFID_PIN_COMBINATION)
  }

  /** The card alone is not enough for this user: a PIN must accompany it. */
  predicate PinGated(u: User)
  {
    u.pos_rfid_pin_combination && HasSecurityPin(u)
  }

  /** The PIN check of authenticate_rfid for the matched user. */
  predicate PinAccepted(u: User, pin: Option<string>)
  {
    !PinGated(u) || (Truthy(pin) && pin == u.pos_security_pin)
  }

  /**
   * authenticate_rfid(rfid_card_id, pin): search the first user holding the card
   * (a null card id is the SQL IS NULL test, so it matches users without a card),
   * return False (None) when there is none or when the PIN check fails, otherwise
   * the five-field identity of that user.
   */
  function AuthenticateRfid(users: seq<User>, rfid_card_id: Option<string>, pin: Option<string>): (r: Option<Identity>)
    ensures (forall j :: 0 <= j < |users| ==> users[j].rfid_card_id != rfid_card_id) ==> r.None?
    ensures r.Some? ==> r.value.rfid_card_id == rfid_card_id
    ensures r.Some? ==> exists i :: 0 <= i < |users| && users[i].rfid_card_id == rfid_card_id
                                  && r.value == IdentityOf(users[i]) && PinAccepted(users[i], pin)
  {
    match FirstIndexWithCard(users, rfid_card_id)
    case None => None
    case Some(i) =>
      if PinAccepted(users[i], pin) then Some(IdentityOf(users[i])) else None
  }

  /** A PIN-gated user is granted exactly when the matching non-empty PIN is supplied. */
  lemma GatedUserNeedsPin(users: seq<User>, card: Option<string>, pin: Option<string>, i: nat)
    requires FirstIndexWithCard(users, card) == Some(i)
    requires PinGated(users[i])
    ensures AuthenticateRfid(users, card, pin).Some? <==> Truthy(pin) && pin == users[i].pos_security_pin
  {
  }

  /** A user without the PIN requirement is granted on the card alone, whatever PIN is passed. */
  lemma CardAloneSuffices(users: seq<User>, card: Option<string>, pin: Option<string>, i: nat)
    requires FirstIndexWithCard(users, card) == Some(i)
    requires !PinGated(users[i])
    ensures AuthenticateRfid(users, card, pin) == Some(IdentityOf(users[i]))
  {
  }

  /**
   * With the defaults a new user that has both a card and a PIN is PIN-gated:
   * presenting the card with a wrong or missing PIN is refused.
   */
  lemma DefaultUserRefusesCardWithoutPin(id: int, name: string, login: string, pin: string, card: string, given: Option<string>)
    requires pin != "" && given != Some(pin)
    ensures AuthenticateRfid([NewUser(id, name, login, Some(pin), Some(card))], Some(card), given).None?
  {
    var u := NewUser(id, name, login, Some(pin), Some(card));
    assert FirstIndexWithCard([u], Some(card)) == Some(0);
  }

  // ----- The uniqueness constraint -----------------------------------------

  datatype ConstraintError =
    | CardAlreadyAssigned(card: string, holder_name: string)
    /** existing_user.name on a recordset of several users raises instead */
    | ExpectedSingleton(card: string)

  /** The directory users other than `w` (by id) holding w's card id. */
  function OtherHolders(directory: seq<User>, w: User): (r: seq<User>)
    ensures forall v :: v in r <==> v in directory && v.rfid_card_id == w.rfid_card_id && v.id != w.id
  {
    if |directory| == 0 then []
    else
      var rest := OtherHolders(directory[1..], w);
      var v := directory[0];
      assert forall x :: x in directory <==> x == v || x in directory[1..];
      if v.rfid_card_id == w.rfid_card_id && v.id != w.id then [v] + rest else rest
  }

  predicate Clashes(directory: seq<User>, w: User)
  {
    Truthy(w.rfid_card_id) && OtherHolders(directory, w) != []
  }

  /**
   * _check_rfid_card_unique over the written records `written`, searching the
   * directory as it is after the write: the first written record with a non-empty
   * card id that another user already holds raises; empty ids are never checked.
   */
  function CheckRfidCardUnique(directory: seq<User>, written: seq<User>): (r: Result<(), ConstraintError>)
    ensures r.Ok? <==> forall k :: 0 <= k < |written| ==> !Clashes(directory, written[k])
  {
    if |written| == 0 then Ok(())
    else
      var w := written[0];
      if Clashes(directory, w) then
        var holders := OtherHolders(directory, w);
        if |holders| == 1 then Err(CardAlreadyAssigned(w.rfid_card_id.value, holders[0].name))
        else Err(ExpectedSingleton(w.rfid_card_id.value))
      else
        var rest := CheckRfidCardUnique(directory, written[1..]);
        assert forall k :: 1 <= k < |written| ==> written[k] == written[1..][k - 1];
        rest
  }

  /** Non-empty card ids identify users: no two users with different ids share one. */
  ghost predicate CardsUnique(directory: seq<User>)
  {
    forall i, j ::
      (0 <= i < |directory| && 0 <= j < |directory| && Truthy(directory[i].rfid_card_id)
       && directory[i].rfid_card_id == directory[j].rfid_card_id)
      ==> directory[i].id == directory[j].id
  }

  /** Passing the constraint for every record leaves non-empty card ids unique. */
  lemma ConstraintGivesUniqueCards(directory: seq<User>)
    requires CheckRfidCardUnique(directory, directory).Ok?
    ensures CardsUnique(directory)
  {
    forall i, j | 0 <= i < |directory| && 0 <= j < |directory| && Truthy(directory[i].rfid_card_id)
      && directory[i].rfid_card_id == directory[j].rfid_card_id
      ensures directory[i].id == directory[j].id
    {
      assert !Clashes(directory, directory[i]);
      assert directory[j] !in OtherHolders(directory, directory[i]);
    }
  }

  /**
   * Under the constraint the limit=1 lookup is deterministic: with ids distinct,
   * the user holding a non-empty card is the one the search returns, whatever
   * order the directory has.
   */
  lemma CardLookupDeterministic(directory: seq<User>, i: nat)
    requires CheckRfidCardUnique(directory, directory).Ok?
    requires forall a, b :: 0 <= a < |directory| && 0 <= b < |directory| && directory[a].id == directory[b].id ==> a == b
    requires i < |directory| && Truthy(directory[i].rfid_card_id)
    ensures FirstIndexWithCard(directory, directory[i].rfid_card_id) == Some(i)
  {
    ConstraintGivesUniqueCards(directory);
    var r := FirstIndexWithCard(directory, directory[i].rfid_card_id);
    assert r.Some?;
    assert directory[r.value].id == directory[i].id;
  }

  // ----- get_rfid_users_for_pos ---------------------------------------------

  /** One dictionary of the read(['id', 'name', 'rfid_card_id', 'pos_rfid_pin_combination']). */
  datatype RfidUserEntry = RfidUserEntry(id: int, name: string, rfid_card_id: string, pos_rfid_pin_combination: bool)

  /** Domain [('rfid_card_id', '!=', False), ('pos_require_rfid', '=', True)]. */
  predicate ListedForPos(u: User)
  {
    u.rfid_card_id.Some? && u.pos_require_rfid
  }

  function EntryOf(u: User): RfidUserEntry
    requires u.rfid_card_id.Some?
  {
    RfidUserEntry(u.id, u.name, u.rfid_card_id.value, u.pos_rfid_pin_combination)
  }

  /**
   * get_rfid_users_for_pos: the listed users, in search order, projected to four
   * fields. Every user with a card and pos_require_rfid appears, and every entry
   * is the projection of such a user.
   */
  function GetRfidUsersForPos(users: seq<User>): (r: seq<RfidUserEntry>)
    ensures |r| <= |users|
    ensures forall u :: u in users && ListedForPos(u) ==> EntryOf(u) in r
    ensures forall e :: e in r ==> exists u :: u in users && ListedForPos(u) && EntryOf(u) == e
  {
    if |users| == 0 then []
    else
      var rest := GetRfidUsersForPos(users[1..]);
      if ListedForPos(users[0]) then [EntryOf(users[0])] + rest else rest
  }

  // ----- A card-less request (see README, Findings) ----------------------------

  /**
   * As written, a request with a null card id matches the first user that has
   * no card at all; when that user is not PIN-gated the request is granted
   * whatever PIN accompanies it.
   */
  lemma NullCardGrantsCardlessUser(users: seq<User>, pin: Option<string>, i: nat)
    requires FirstIndexWithCard(users, None) == Some(i)
    requires !PinGated(users[i])
    ensures AuthenticateRfid(users, None, pin) == Some(IdentityOf(users[i]))
  {
  }

  /** The first user without a card, in directory order, when one exists. */
  lemma NullCardExample()
    ensures AuthenticateRfid([NewUser(2, "Administrator", "admin", None, None)], None, Some("0000"))
         == Some(Identity(2, "Administrator", "admin", None, None))
  {
    assert FirstIndexWithCard([NewUser(2, "Administrator", "admin", None, None)], None) == Some(0);
  }

  /**
   * The evidently intended rule: a request without a card id is a PIN-only
   * request, granted only to a user whose non-empty PIN is the one given; a
   * request with a card id is decided as authenticate_rfid decides it.
   */
  function AuthenticateRfidIntended(users: seq<User>, rfid_card_id: Option<string>, pin: Option<string>): (r: Option<Identity>)
    ensures r.Some? && !Truthy(rfid_card_id) ==> Truthy(pin) && r.value.pos_security_pin == pin
    ensures Truthy(rfid_card_id) ==> r == AuthenticateRfid(users, rfid_card_id, pin)
  {
    if Truthy(rfid_card_id) then AuthenticateRfid(users, rfid_card_id, pin)
    else if !Truthy(pin) then None
    else match FirstIndexWithPin(users, pin.value)
      case None => None
      case Some(i) => Some(IdentityOf(users[i]))
  }

  /** Under the intended rule no PIN other than a user's own can pass without a card. */
  lemma IntendedRefusesForeignPin(users: seq<User>, pin: string)
    requires forall j :: 0 <= j < |users| ==> users[j].pos_security_pin != Some(pin)
    ensures AuthenticateRfidIntended(users, None, Some(pin)).None?
  {
  }
}
