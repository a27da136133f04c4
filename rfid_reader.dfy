/**
 * The card-input driver (RfidReader): decoding of HID input reports, the
 * keyboard-wedge framer with its 1000 ms flush timer, the 2000 ms duplicate-scan
 * debounce and the connected/disconnected signals. Time is the parameter `now`
 * (milliseconds), timers are handles with a fire method, and the signals the
 * driver triggers are appended to two logs: `scans` for card_scanned and
 * `signals` for device_connected and device_disconnected.
 */
module RfidReader {
  import opened Wrappers
  import opened Records

  newtype byte = x: int | 0 <= x < 256

  /** scan_cooldown: minimum spacing of two accepted scans of one card id. */
  const SCAN_COOLDOWN: int := 2000

  /** Delay of the keyboard buffer's flush timer. */
  const FLUSH_DELAY: int := 1000

  // ----- Decoding an input report ---------------------------------------------

  /** The bytes parse_rfid_data keeps: values 1..126. */
  predicate InAsciiRange(b: byte)
  {
    0 < b < 127
  }

  /** The characters JavaScript's String.prototype.trim removes. */
  predicate IsJsWhitespace(c: char)
  {
    c as int in {9, 10, 11, 12, 13, 32, 0xA0, 0x1680, 0x2028, 0x2029, 0x202F, 0x205F, 0x3000, 0xFEFF}
    || 0x2000 <= c as int <= 0x200A
  }

  predicate IsLineBreak(c: char)
  {
    c == '\r' || c == '\n'
  }

  /** The string the decoding loop builds: the kept bytes, in input order, as characters. */
  function KeepAscii(data: seq<byte>): (s: string)
    ensures |s| <= |data|
    ensures forall k :: 0 <= k < |s| ==> 0 < s[k] as int < 127
  {
    if |data| == 0 then ""
    else
      var b := data[|data| - 1];
      KeepAscii(data[..|data| - 1]) + (if InAsciiRange(b) then [b as int as char] else "")
  }

  function TrimStart(s: string): string
  {
    if s != "" && IsJsWhitespace(s[0]) then TrimStart(s[1..]) else s
  }

  function TrimEnd(s: string): string
  {
    if s != "" && IsJsWhitespace(s[|s| - 1]) then TrimEnd(s[..|s| - 1]) else s
  }

  /** String.prototype.trim. */
  function Trim(s: string): string
  {
    TrimEnd(TrimStart(s))
  }

  /** replace(/[\r\n]/g, ''). */
  function RemoveLineBreaks(s: string): (r: string)
    ensures forall k :: 0 <= k < |r| ==> !IsLineBreak(r[k])
    ensures forall k :: 0 <= k < |r| ==> r[k] in s
  {
    if s == "" then ""
    else (if IsLineBreak(s[0]) then "" else [s[0]]) + RemoveLineBreaks(s[1..])
  }

  /** A string that can be a card id: non-empty, characters 1..126, no CR/LF, no surrounding whitespace. */
  predicate IsCardIdString(s: string)
  {
    s != "" && !IsJsWhitespace(s[0]) && !IsJsWhitespace(s[|s| - 1])
    && forall k :: 0 <= k < |s| ==> 0 < s[k] as int < 127 && !IsLineBreak(s[k])
  }

  /** A report is blank when every byte it keeps is whitespace. */
  predicate Blank(data: seq<byte>)
  {
    forall k :: 0 <= k < |data| && InAsciiRange(data[k]) ==> IsJsWhitespace(data[k] as int as char)
  }

  /**
   * What parse_rfid_data computes: the kept characters, trimmed, with CR/LF
   * removed; null (None) when nothing is left. The result is a well-formed card
   * id, and it is null exactly for a blank report.
   */
  function CleanCardId(data: seq<byte>): (r: Option<string>)
    ensures r.Some? ==> IsCardIdString(r.value)
    ensures r.None? <==> Blank(data)
  {
    var kept := KeepAscii(data);
    var cleaned := RemoveLineBreaks(Trim(kept));
    TrimShape(kept);
    TrimEmptyIffBlank(kept);
    KeepAsciiBlank(data);
    LineBreaksKeepEnds(Trim(kept));
    if |cleaned| > 0 then Some(cleaned) else None
  }

  /** parse_rfid_data: the index loop over the report, then trim and replace. */
  method ParseRfidData(data: array<byte>) returns (card_id: Option<string>)
    ensures card_id == CleanCardId(data[..])
  {
    var s: string := "";
    var i := 0;
    while i < data.Length
      invariant 0 <= i <= data.Length
      invariant s == KeepAscii(data[..i])
    {
      assert data[..i + 1][..i] == data[..i];
      if data[i] > 0 && data[i] < 127 {
        s := s + [data[i] as int as char];
      }
      i := i + 1;
    }
    assert data[..data.Length] == data[..];
    var cleaned := RemoveLineBreaks(Trim(s));
    card_id := if |cleaned| > 0 then Some(cleaned) else None;
  }

  // Lemmas about trimming and decoding.

  lemma {:induction false} TrimStartShape(s: string)
    ensures TrimStart(s) == "" || !IsJsWhitespace(TrimStart(s)[0])
    ensures TrimStart(s) == "" <==> forall k :: 0 <= k < |s| ==> IsJsWhitespace(s[k])
    ensures forall k :: 0 <= k < |TrimStart(s)| ==> TrimStart(s)[k] in s
  {
    if s != "" && IsJsWhitespace(s[0]) {
      TrimStartShape(s[1..]);
      assert forall k :: 1 <= k < |s| ==> s[k] == s[1..][k - 1];
    }
  }

  lemma {:induction false} TrimEndShape(s: string)
    ensures TrimEnd(s) == "" || !IsJsWhitespace(TrimEnd(s)[|TrimEnd(s)| - 1])
    ensures TrimEnd(s) == "" <==> forall k :: 0 <= k < |s| ==> IsJsWhitespace(s[k])
    ensures TrimEnd(s) != "" ==> TrimEnd(s)[0] == s[0]
    ensures forall k :: 0 <= k < |TrimEnd(s)| ==> TrimEnd(s)[k] in s
  {
    if s != "" && IsJsWhitespace(s[|s| - 1]) {
      var p := s[..|s| - 1];
      TrimEndShape(p);
      assert forall k :: 0 <= k < |p| ==> p[k] == s[k];
    }
  }

  lemma TrimShape(s: string)
    ensures Trim(s) == "" || (!IsJsWhitespace(Trim(s)[0]) && !IsJsWhitespace(Trim(s)[|Trim(s)| - 1]))
    ensures forall k :: 0 <= k < |Trim(s)| ==> Trim(s)[k] in s
  {
    TrimStartShape(s);
    TrimEndShape(TrimStart(s));
  }

  lemma TrimEmptyIffBlank(s: string)
    ensures Trim(s) == "" <==> forall k :: 0 <= k < |s| ==> IsJsWhitespace(s[k])
  {
    TrimStartShape(s);
    TrimEndShape(TrimStart(s));
    if TrimStart(s) != "" {
      assert !IsJsWhitespace(TrimStart(s)[0]);
    }
  }

  /** Removing CR/LF from a string that starts and ends with a non-whitespace character keeps both ends. */
  lemma {:induction false} LineBreaksKeepEnds(s: string)
    requires s != "" ==> !IsJsWhitespace(s[0]) && !IsJsWhitespace(s[|s| - 1])
    ensures s != "" ==> RemoveLineBreaks(s) != "" && RemoveLineBreaks(s)[0] == s[0]
    ensures s != "" ==> RemoveLineBreaks(s)[|RemoveLineBreaks(s)| - 1] == s[|s| - 1]
  {
    if s != "" {
      LastSurvives(s);
    }
  }

  lemma {:induction false} LastSurvives(s: string)
    requires s != "" && !IsLineBreak(s[|s| - 1])
    ensures RemoveLineBreaks(s) != "" && RemoveLineBreaks(s)[|RemoveLineBreaks(s)| - 1] == s[|s| - 1]
  {
    if |s| > 1 {
      LastSurvives(s[1..]);
    }
  }

  predicate AllWhitespace(s: string)
  {
    forall k :: 0 <= k < |s| ==> IsJsWhitespace(s[k])
  }

  lemma {:induction false} KeepAsciiBlank(data: seq<byte>)
    ensures AllWhitespace(KeepAscii(data)) <==> Blank(data)
  {
    if |data| > 0 {
      var p := data[..|data| - 1];
      var b := data[|data| - 1];
      KeepAsciiBlank(p);
      assert forall k :: 0 <= k < |p| ==> p[k] == data[k];
      assert Blank(data) <==> Blank(p) && (InAsciiRange(b) ==> IsJsWhitespace(b as int as char));
      var ext: string := if InAsciiRange(b) then [b as int as char] else "";
      assert KeepAscii(data) == KeepAscii(p) + ext;
      AllWhitespaceConcat(KeepAscii(p), ext);
      if InAsciiRange(b) {
        assert ext[0] == b as int as char;
      }
      assert AllWhitespace(ext) <==> (InAsciiRange(b) ==> IsJsWhitespace(b as int as char));
    }
  }

  lemma AllWhitespaceConcat(a: string, b: string)
    ensures AllWhitespace(a + b) <==> AllWhitespace(a) && AllWhitespace(b)
  {
    assert forall k :: 0 <= k < |a| ==> (a + b)[k] == a[k];
    assert forall k :: 0 <= k < |b| ==> (a + b)[|a| + k] == b[k];
  }

  lemma {:induction false} KeepAsciiAppend(a: seq<byte>, b: seq<byte>)
    ensures KeepAscii(a + b) == KeepAscii(a) + KeepAscii(b)
  {
    if |b| > 0 {
      var b' := b[..|b| - 1];
      assert (a + b)[..|a + b| - 1] == a + b';
      KeepAsciiAppend(a, b');
    } else {
      assert a + b == a;
    }
  }

  /** The bytes a reader sends for a card id. */
  function Encode(s: string): (data: seq<byte>)
    requires forall k :: 0 <= k < |s| ==> s[k] as int < 256
    ensures |data| == |s|
  {
    if s == "" then [] else Encode(s[..|s| - 1]) + [s[|s| - 1] as int as byte]
  }

  lemma {:induction false} KeepAsciiEncode(s: string)
    requires forall k :: 0 <= k < |s| ==> 0 < s[k] as int < 127
    ensures KeepAscii(Encode(s)) == s
  {
    if s != "" {
      var p := s[..|s| - 1];
      KeepAsciiEncode(p);
      assert Encode(s)[..|s| - 1] == Encode(p);
      assert p + [s[|s| - 1]] == s;
    }
  }

  lemma {:induction false} TrimEndDropsWhitespaceTail(s: string, w: string)
    requires s != "" && !IsJsWhitespace(s[|s| - 1])
    requires forall k :: 0 <= k < |w| ==> IsJsWhitespace(w[k])
    ensures TrimEnd(s + w) == s
  {
    if w == "" {
      assert s + w == s;
    } else {
      var w' := w[..|w| - 1];
      assert (s + w)[..|s + w| - 1] == s + w';
      TrimEndDropsWhitespaceTail(s, w');
    }
  }

  lemma {:induction false} NoLineBreaksUnchanged(s: string)
    requires forall k :: 0 <= k < |s| ==> !IsLineBreak(s[k])
    ensures RemoveLineBreaks(s) == s
  {
    if s != "" {
      NoLineBreaksUnchanged(s[1..]);
    }
  }

  /**
   * Round trip: the report carrying a card id, followed by any padding of zero,
   * out-of-range or whitespace bytes (a CR/LF terminator, say), decodes to that id.
   */
  lemma ParseRoundTrip(s: string, padding: seq<byte>)
    requires IsCardIdString(s)
    requires Blank(padding)
    ensures CleanCardId(Encode(s) + padding) == Some(s)
  {
    KeepAsciiAppend(Encode(s), padding);
    KeepAsciiEncode(s);
    KeepAsciiBlank(padding);
    var w := KeepAscii(padding);
    assert TrimStart(s + w) == s + w;
    TrimEndDropsWhitespaceTail(s, w);
    NoLineBreaksUnchanged(s);
  }

  // ----- The debounce ----------------------------------------------------------

  /** The payload of one card_scanned signal. */
  datatype CardScan = CardScan(card_id: string, timestamp: int)

  /** The connection signals the driver triggers. */
  datatype StatusSignal = DeviceConnected | DeviceDisconnected

  /**
   * process_card_scan lets a scan through unless it repeats the last accepted
   * card id less than SCAN_COOLDOWN ms after it.
   */
  predicate Accepts(last_card_id: Option<string>, last_scan_time: int, card_id: string, now: int)
  {
    !(last_card_id == Some(card_id) && now - last_scan_time < SCAN_COOLDOWN)
  }

  /** Two consecutive card_scanned signals for one card id are at least SCAN_COOLDOWN ms apart. */
  ghost predicate Spaced(scans: seq<CardScan>)
  {
    forall k, m :: 0 <= k && m == k + 1 && m < |scans| && scans[k].card_id == scans[m].card_id
      ==> scans[m].timestamp - scans[k].timestamp >= SCAN_COOLDOWN
  }

  /** last_card_id and last_scan_time describe the last accepted scan (or are the initial null and 0). */
  ghost predicate LastScanIs(scans: seq<CardScan>, last_card_id: Option<string>, last_scan_time: int)
  {
    if scans == [] then last_card_id == None && last_scan_time == 0
    else last_card_id == Some(scans[|scans| - 1].card_id) && last_scan_time == scans[|scans| - 1].timestamp
  }

  /** Accepting a scan the debounce lets through keeps the spacing of the log. */
  lemma DebounceKeepsSpacing(scans: seq<CardScan>, last_card_id: Option<string>, last_scan_time: int, card_id: string, now: int)
    requires Spaced(scans) && LastScanIs(scans, last_card_id, last_scan_time)
    requires Accepts(last_card_id, last_scan_time, card_id, now)
    ensures Spaced(scans + [CardScan(card_id, now)])
  {
    var s := scans + [CardScan(card_id, now)];
    forall k, m | 0 <= k && m == k + 1 && m < |s| && s[k].card_id == s[m].card_id
      ensures s[m].timestamp - s[k].timestamp >= SCAN_COOLDOWN
    {
      if k == |scans| - 1 {
        assert s[k] == scans[|scans| - 1];
      } else {
        assert s[k] == scans[k] && s[m] == scans[m];
      }
    }
  }

  /**
   * The debounce remembers only the last accepted id: a scan of A, then B, then
   * A again 200 ms after the first passes all three times.
   */
  lemma DebounceRemembersOnlyLastId()
    ensures Accepts(None, 0, "A", 0)
    ensures Accepts(Some("A"), 0, "B", 100)
    ensures Accepts(Some("B"), 100, "A", 200)
  {
  }

  // ----- Keyboard-wedge capture ----------------------------------------------

  /** The element that has the focus, as should_process_keyboard_input sees it. */
  datatype Focus = NoFocus | InputElement | TextAreaElement | ContentEditable | OtherElement

  /** What should_process_keyboard_input reads from the document. */
  datatype Page = Page(focus: Focus, auth_popup_present: bool, lock_overlay_present: bool)

  /**
   * should_process_keyboard_input: no text field has the focus and either the
   * authentication popup or the lock overlay is in the document.
   */
  predicate ShouldProcessKeyboardInput(page: Page)
  {
    page.focus !in {InputElement, TextAreaElement, ContentEditable}
    && (page.auth_popup_present || page.lock_overlay_present)
  }

  /** Outcome of the WebHID probe and device opening, which the model does not perform. */
  datatype HidProbe =
    | NoWebHid          // 'hid' not in navigator
    | NoDeviceChosen    // requestDevice resolved with no device
    | RequestFailed     // requestDevice rejected
    | OpenFailed        // device.open() rejected
    | Opened            // device.open() resolved

  datatype Device = NoDevice | HidDevice(open: bool)

  /** The id test_scan builds from `Date.now()` (never negative): "TEST_CARD_" and the decimal time. */
  function TestCardId(time: nat): (r: string)
    ensures |r| > 10 && r[..10] == "TEST_CARD_"
    ensures forall k :: 10 <= k < |r| ==> '0' <= r[k] <= '9'
  {
    "TEST_CARD_" + DecimalString(time)
  }

  /** `n` written in decimal, with no leading zero. */
  function DecimalString(n: nat): (s: string)
    ensures s != "" && (|s| == 1 <==> n < 10)
    ensures forall k :: 0 <= k < |s| ==> '0' <= s[k] <= '9'
  {
    var d := (('0' as int) + n % 10) as char;
    if n < 10 then [d] else DecimalString(n / 10) + [d]
  }

  /** Different numbers have different decimal strings. */
  lemma {:induction false} DecimalStringInjective(a: nat, b: nat)
    requires DecimalString(a) == DecimalString(b)
    ensures a == b
  {
    var sa, sb := DecimalString(a), DecimalString(b);
    assert sa[|sa| - 1] == sb[|sb| - 1];
    assert a % 10 == b % 10;
    if 10 <= a {
      assert sa[..|sa| - 1] == DecimalString(a / 10);
      assert sb[..|sb| - 1] == DecimalString(b / 10);
      DecimalStringInjective(a / 10, b / 10);
    }
  }

  /** Test scans taken at different milliseconds carry different card ids. */
  lemma TestCardIdInjective(a: nat, b: nat)
    requires TestCardId(a) == TestCardId(b)
    ensures a == b
  {
    assert TestCardId(a)[10..] == DecimalString(a);
    assert TestCardId(b)[10..] == DecimalString(b);
    DecimalStringInjective(a, b);
  }

  /** After a test scan, a test scan with an id from another millisecond always passes the debounce. */
  lemma LaterTestScanPasses(last_time: nat, last_scan_time: int, time: nat, now: int)
    requires last_time != time
    ensures Accepts(Some(TestCardId(last_time)), last_scan_time, TestCardId(time), now)
  {
    if TestCardId(last_time) == TestCardId(time) {
      TestCardIdInjective(last_time, time);
    }
  }

  /** The flush-timer bookkeeping: every live timer is the one scan_timeout names, all handles were issued. */
  ghost predicate FlushTimerInv(scan_timeout: Option<TimerId>, pending: set<TimerId>, next_timer: TimerId)
  {
    0 < next_timer
    && (forall h :: h in pending ==> scan_timeout == Some(h))
    && (scan_timeout.Some? ==> 0 < scan_timeout.value < next_timer)
  }

  /** Clearing the timer scan_timeout names leaves no flush timer live. */
  lemma ClearNamedFlushTimer(scan_timeout: Option<TimerId>, pending: set<TimerId>, next_timer: TimerId)
    requires FlushTimerInv(scan_timeout, pending, next_timer)
    ensures scan_timeout.Some? ==> pending - {scan_timeout.value} == {}
    ensures scan_timeout.None? ==> pending == {}
    ensures FlushTimerInv(scan_timeout, {}, next_timer)
  {
  }

  /** At most one flush timer is ever live. */
  lemma AtMostOneFlushTimer(scan_timeout: Option<TimerId>, pending: set<TimerId>, next_timer: TimerId)
    requires FlushTimerInv(scan_timeout, pending, next_timer)
    ensures |pending| <= 1
  {
    if scan_timeout.Some? && scan_timeout.value in pending {
      assert pending == {scan_timeout.value};
    } else {
      assert pending == {};
    }
  }

  class Reader {
    var device: Device
    var is_connected: bool
    var keyboard_listener: bool   // the document keydown listener of setup_keyboard_input
    var last_card_id: Option<string>
    var last_scan_time: int
    var input_buffer: string
    var scan_timeout: Option<TimerId>
    var flush_pending: set<TimerId>   // live flush timers
    var next_timer: TimerId
    /** the card_scanned signals triggered, in order */
    var scans: seq<CardScan>
    /** the device_connected and device_disconnected signals triggered, in order */
    var signals: seq<StatusSignal>

    ghost predicate Valid()
      reads this
    {
      FlushTimerInv(scan_timeout, flush_pending, next_timer)
      && Spaced(scans) && LastScanIs(scans, last_card_id, last_scan_time)
    }

    /** A non-empty buffer always has a live flush timer (see README, Findings). */
    ghost predicate FlushArmed()
      reads this
    {
      input_buffer != "" ==> scan_timeout.Some? && scan_timeout.value in flush_pending
    }

    /** init followed by initialize, once the device probe has settled as `probe` says. */
    constructor (probe: HidProbe)
      ensures Valid() && FlushArmed()
      ensures is_connected && scans == [] && signals == [DeviceConnected]
      ensures keyboard_listener <==> probe != Opened
      ensures probe == Opened ==> device == HidDevice(true)
      ensures probe == OpenFailed ==> device == HidDevice(false)
      ensures probe != Opened && probe != OpenFailed ==> device == NoDevice
      ensures last_card_id == None && last_scan_time == 0 && input_buffer == ""
      ensures scan_timeout == None && flush_pending == {} && next_timer == 1
    {
      // connect_device on an opened device, setup_keyboard_input on every other
      // outcome: either way the driver ends connected with one device_connected.
      device := if probe == Opened then HidDevice(true)
                else if probe == OpenFailed then HidDevice(false)
                else NoDevice;
      is_connected := true;
      keyboard_listener := probe != Opened;
      last_card_id := None;
      last_scan_time := 0;
      input_buffer := "";
      scan_timeout := None;
      flush_pending := {};
      next_timer := 1;
      scans := [];
      signals := [DeviceConnected];
    }

    /** setup_keyboard_input: listen for keydown, report connected. */
    method SetupKeyboardInput()
      requires Valid()
      modifies this
      ensures Valid()
      ensures keyboard_listener && is_connected && signals == old(signals) + [DeviceConnected] && scans == old(scans)
      ensures device == old(device) && last_card_id == old(last_card_id) && last_scan_time == old(last_scan_time)
      ensures input_buffer == old(input_buffer) && scan_timeout == old(scan_timeout)
      ensures flush_pending == old(flush_pending) && next_timer == old(next_timer)
    {
      keyboard_listener := true;
      is_connected := true;
      signals := signals + [DeviceConnected];
    }

    /** process_card_scan(card_id) at time `now`. */
    method ProcessCardScan(card_id: string, now: int)
      requires Valid()
      modifies this
      ensures Valid()
      ensures Accepts(old(last_card_id), old(last_scan_time), card_id, now) ==>
                last_card_id == Some(card_id) && last_scan_time == now
                && scans == old(scans) + [CardScan(card_id, now)]
      ensures !Accepts(old(last_card_id), old(last_scan_time), card_id, now) ==>
                last_card_id == old(last_card_id) && last_scan_time == old(last_scan_time) && scans == old(scans)
      ensures device == old(device) && is_connected == old(is_connected) && keyboard_listener == old(keyboard_listener)
      ensures signals == old(signals)
      ensures input_buffer == old(input_buffer) && scan_timeout == old(scan_timeout)
      ensures flush_pending == old(flush_pending) && next_timer == old(next_timer)
    {
      if last_card_id == Some(card_id) && now - last_scan_time < SCAN_COOLDOWN {
        return;
      }
      DebounceKeepsSpacing(scans, last_card_id, last_scan_time, card_id, now);
      last_card_id := Some(card_id);
      last_scan_time := now;
      scans := scans + [CardScan(card_id, now)];
    }

    /** handle_hid_input: decode the report and pass a non-null card id on. */
    method HandleHidInput(data: array<byte>, now: int)
      requires Valid()
      modifies this
      ensures Valid()
      ensures CleanCardId(data[..]).Some? && Accepts(old(last_card_id), old(last_scan_time), CleanCardId(data[..]).value, now) ==>
                scans == old(scans) + [CardScan(CleanCardId(data[..]).value, now)]
                && last_card_id == CleanCardId(data[..]) && last_scan_time == now
      ensures CleanCardId(data[..]).None? || !Accepts(old(last_card_id), old(last_scan_time), CleanCardId(data[..]).value, now) ==>
                scans == old(scans) && last_card_id == old(last_card_id) && last_scan_time == old(last_scan_time)
      ensures input_buffer == old(input_buffer) && flush_pending == old(flush_pending) && signals == old(signals)
      ensures device == old(device) && is_connected == old(is_connected) && keyboard_listener == old(keyboard_listener)
      ensures scan_timeout == old(scan_timeout) && next_timer == old(next_timer)
    {
      var card_id := ParseRfidData(data);
      if card_id.Some? {
        ProcessCardScan(card_id.value, now);
      }
    }

    /**
     * handle_keyboard_input for a keydown whose event.key is `key`, on a document
     * in the state `page`.
     */
    method HandleKeyboardInput(key: string, page: Page, now: int)
      requires Valid()
      modifies this
      ensures Valid()
      ensures !ShouldProcessKeyboardInput(page) ==>
                input_buffer == old(input_buffer) && flush_pending == old(flush_pending)
                && scan_timeout == old(scan_timeout) && next_timer == old(next_timer) && scans == old(scans)
      ensures ShouldProcessKeyboardInput(page) && key == "Enter" ==>
                input_buffer == "" && flush_pending == {}
                && scan_timeout == old(scan_timeout) && next_timer == old(next_timer)
                && scans == old(scans) + (if old(input_buffer) != "" && Accepts(old(last_card_id), old(last_scan_time), old(input_buffer), now)
                                          then [CardScan(old(input_buffer), now)] else [])
      ensures ShouldProcessKeyboardInput(page) && key != "Enter" && |key| == 1 ==>
                input_buffer == old(input_buffer) + key && scan_timeout == Some(old(next_timer))
                && flush_pending == {old(next_timer)} && next_timer == old(next_timer) + 1 && scans == old(scans)
      ensures ShouldProcessKeyboardInput(page) && key != "Enter" && |key| != 1 ==>
                input_buffer == old(input_buffer) && flush_pending == {}
                && scan_timeout == old(scan_timeout) && next_timer == old(next_timer) && scans == old(scans)
      ensures !(ShouldProcessKeyboardInput(page) && key == "Enter") ==> last_card_id == old(last_card_id) && last_scan_time == old(last_scan_time)
      ensures device == old(device) && is_connected == old(is_connected) && keyboard_listener == old(keyboard_listener)
      ensures signals == old(signals)
    {
      if ShouldProcessKeyboardInput(page) {
        ClearFlushTimer();
        if key == "Enter" {
          SubmitBuffer(now);
        } else if |key| == 1 {
          BufferCharacter(key);
        }
      }
    }

    /** clearTimeout(scan_timeout): the timer it names, the only live one, is cancelled. */
    method ClearFlushTimer()
      requires Valid()
      modifies this
      ensures Valid()
      ensures flush_pending == {}
      ensures scan_timeout == old(scan_timeout) && next_timer == old(next_timer)
      ensures input_buffer == old(input_buffer) && scans == old(scans)
      ensures last_card_id == old(last_card_id) && last_scan_time == old(last_scan_time)
      ensures device == old(device) && is_connected == old(is_connected) && keyboard_listener == old(keyboard_listener)
      ensures signals == old(signals)
    {
      ClearNamedFlushTimer(scan_timeout, flush_pending, next_timer);
      if scan_timeout.Some? {
        flush_pending := flush_pending - {scan_timeout.value};
      }
    }

    /** The Enter branch: a non-empty buffer goes through the debounce and is emptied. */
    method SubmitBuffer(now: int)
      requires Valid()
      modifies this
      ensures Valid()
      ensures input_buffer == ""
      ensures old(input_buffer) == "" ==> scans == old(scans)
      ensures old(input_buffer) != "" && Accepts(old(last_card_id), old(last_scan_time), old(input_buffer), now) ==>
                scans == old(scans) + [CardScan(old(input_buffer), now)]
      ensures old(input_buffer) != "" && !Accepts(old(last_card_id), old(last_scan_time), old(input_buffer), now) ==>
                scans == old(scans)
      ensures flush_pending == old(flush_pending) && scan_timeout == old(scan_timeout) && next_timer == old(next_timer)
      ensures device == old(device) && is_connected == old(is_connected) && keyboard_listener == old(keyboard_listener)
      ensures signals == old(signals)
    {
      if |input_buffer| > 0 {
        ghost var submitted := old(input_buffer);
        ProcessCardScan(input_buffer, now);
        assert submitted != "";
        input_buffer := "";
      }
    }

    /** The one-character branch, once no flush timer is live: append, arm a fresh 1000 ms timer. */
    method BufferCharacter(key: string)
      requires Valid() && flush_pending == {}
      modifies this
      ensures Valid()
      ensures input_buffer == old(input_buffer) + key
      ensures scan_timeout == Some(old(next_timer)) && flush_pending == {old(next_timer)} && next_timer == old(next_timer) + 1
      ensures scans == old(scans) && last_card_id == old(last_card_id) && last_scan_time == old(last_scan_time)
      ensures device == old(device) && is_connected == old(is_connected) && keyboard_listener == old(keyboard_listener)
      ensures signals == old(signals)
    {
      input_buffer := input_buffer + key;
      var h := next_timer;
      next_timer := next_timer + 1;
      flush_pending := flush_pending + {h};
      scan_timeout := Some(h);
    }

    /** The flush timer `h` fires: a live one empties the buffer, a cleared one does nothing. */
    method FireFlushTimer(h: TimerId)
      requires Valid()
      modifies this
      ensures Valid()
      ensures h in old(flush_pending) ==> input_buffer == "" && flush_pending == old(flush_pending) - {h}
      ensures h !in old(flush_pending) ==> input_buffer == old(input_buffer) && flush_pending == old(flush_pending)
      ensures scans == old(scans) && signals == old(signals) && scan_timeout == old(scan_timeout) && next_timer == old(next_timer)
      ensures device == old(device) && is_connected == old(is_connected) && keyboard_listener == old(keyboard_listener)
      ensures last_card_id == old(last_card_id) && last_scan_time == old(last_scan_time)
      ensures old(FlushArmed()) ==> FlushArmed()
    {
      if h in flush_pending {
        flush_pending := flush_pending - {h};
        input_buffer := "";
      }
    }

    /** disconnect: close an open device, report disconnected. */
    method Disconnect()
      requires Valid()
      modifies this
      ensures Valid()
      ensures !is_connected && signals == old(signals) + [DeviceDisconnected] && scans == old(scans)
      ensures device == if old(device).HidDevice? && old(is_connected) then HidDevice(false) else old(device)
      ensures keyboard_listener == old(keyboard_listener) && input_buffer == old(input_buffer)
      ensures last_card_id == old(last_card_id) && last_scan_time == old(last_scan_time)
      ensures scan_timeout == old(scan_timeout) && flush_pending == old(flush_pending) && next_timer == old(next_timer)
    {
      if device.HidDevice? && is_connected {
        device := HidDevice(false);
      }
      is_connected := false;
      signals := signals + [DeviceDisconnected];
    }

    /**
     * test_scan: a synthetic card id through the same debounce. The code reads
     * Date.now() twice, once for the id (`id_time`) and once inside
     * process_card_scan (`now`).
     */
    method TestScan(id_time: nat, now: int)
      requires Valid()
      modifies this
      ensures Valid()
      ensures Accepts(old(last_card_id), old(last_scan_time), TestCardId(id_time), now) ==>
                scans == old(scans) + [CardScan(TestCardId(id_time), now)]
                && last_card_id == Some(TestCardId(id_time)) && last_scan_time == now
      ensures !Accepts(old(last_card_id), old(last_scan_time), TestCardId(id_time), now) ==>
                scans == old(scans) && last_card_id == old(last_card_id) && last_scan_time == old(last_scan_time)
      ensures input_buffer == old(input_buffer) && flush_pending == old(flush_pending) && signals == old(signals)
      ensures device == old(device) && is_connected == old(is_connected) && keyboard_listener == old(keyboard_listener)
      ensures scan_timeout == old(scan_timeout) && next_timer == old(next_timer)
    {
      ProcessCardScan(TestCardId(id_time), now);
    }

    /**
     * The keydown handler as evidently intended: the flush timer is cancelled only
     * when Enter consumes the buffer or a new character re-arms it, so a key such
     * as "Shift" leaves a live timer in place.
     */
    method HandleKeyboardInputIntended(key: string, page: Page, now: int)
      requires Valid() && FlushArmed()
      modifies this
      ensures Valid() && FlushArmed()
      ensures ShouldProcessKeyboardInput(page) && key == "Enter" ==>
                input_buffer == "" && flush_pending == {}
                && scans == old(scans) + (if old(input_buffer) != "" && Accepts(old(last_card_id), old(last_scan_time), old(input_buffer), now)
                                          then [CardScan(old(input_buffer), now)] else [])
      ensures ShouldProcessKeyboardInput(page) && key != "Enter" && |key| == 1 ==>
                input_buffer == old(input_buffer) + key && scan_timeout == Some(old(next_timer))
                && flush_pending == {old(next_timer)} && scans == old(scans)
      ensures !(ShouldProcessKeyboardInput(page) && (key == "Enter" || |key| == 1)) ==>
                input_buffer == old(input_buffer) && flush_pending == old(flush_pending)
                && scan_timeout == old(scan_timeout) && scans == old(scans)
      ensures device == old(device) && is_connected == old(is_connected) && keyboard_listener == old(keyboard_listener)
      ensures signals == old(signals)
    {
      if ShouldProcessKeyboardInput(page) {
        if key == "Enter" {
          ClearFlushTimer();
          SubmitBuffer(now);
        } else if |key| == 1 {
          ClearFlushTimer();
          BufferCharacter(key);
        }
      }
    }
  }

  /**
   * As written, a stray "A" followed by "Shift" leaves "A" in the buffer with no
   * live flush timer; the timer armed for "A" is gone, and the next scan, "7"
   * then Enter, is reported as "A7".
   */
  method StrandedBufferExample() returns (stranded: string, flush_live: bool, reported: string)
    ensures stranded == "A" && !flush_live
    ensures reported == "A7"
  {
    var r := new Reader(NoWebHid);
    var page := Page(NoFocus, false, true);
    r.HandleKeyboardInput("A", page, 0);
    assert r.input_buffer == "A" && r.scan_timeout == Some(1);
    var armed := r.scan_timeout.value;
    r.HandleKeyboardInput("Shift", page, 10);
    assert r.input_buffer == "A" && r.flush_pending == {};
    r.FireFlushTimer(armed);
    stranded, flush_live := r.input_buffer, r.flush_pending != {};
    r.HandleKeyboardInput("7", page, 5000);
    assert r.input_buffer == "A7" && r.last_card_id == None;
    r.HandleKeyboardInput("Enter", page, 5010);
    assert r.scans[|r.scans| - 1] == CardScan("A7", 5010);
    reported := r.scans[|r.scans| - 1].card_id;
  }
}
