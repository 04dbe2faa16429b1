/**
 * The clearance request form: the entry fix derived before validation and
 * the cross-field checks run after the field rules, including the
 * submission window around the aircraft's oceanic entry time.
 */
module RclRequests {
  import opened Wrappers
  import opened Text
  import opened Clock

  /** A request input as PHP sees it: missing, null, `false`, or a string. */
  datatype Input = Absent | Null | False | Str(s: string)

  /** `$request->has(key)`: the key is present, whatever its value. */
  predicate Has(v: Input) {
    !v.Absent?
  }

  /** `$this->key == null` under PHP's loose comparison: missing, null, false or "". */
  predicate LooseNull(v: Input) {
    v.Absent? || v.Null? || v.False? || v == Str("")
  }

  /** PHP truthiness of an input: a string other than "" and "0". */
  predicate Truthy(v: Input) {
    v.Str? && v.s != "" && v.s != "0"
  }

  /** What `strtok` returns, as a request input: PHP's `false` when there is no token. */
  function FromToken(t: Option<string>): Input {
    if t.Some? then Str(t.value) else False
  }

  /**
   * The request attributes the checks read. Flight levels are numbers (the
   * field rules ask for three digits); a null `mach` or `entry_time` reads
   * as "".
   */
  datatype Submission = Submission(
    callsign: string,
    trackId: Input,
    randomRouteing: Input,
    isConcorde: Input,
    flightLevel: int,
    maxFlightLevel: Option<int>,
    mach: string,
    entryFix: Input,
    entryTime: string)

  /** The `config()` values the checks read. */
  datatype Config = Config(
    timeConstraintsEnabled: bool,
    autoAcknowledgementEnabled: bool,
    lowerLimit: int,
    upperLimit: int)

  type Second = s: int | 0 <= s < 60
  type Micro = u: int | 0 <= u < 1_000_000

  /** The current instant, `now()`: a minute of today, its second and microsecond. */
  datatype Now = Now(minute: Minute, second: Second, micro: Micro)

  /** How far into its minute now is, in microseconds. */
  function Offset(now: Now): nat {
    now.second * 1_000_000 + now.micro
  }

  // ---------------------------------------------------------------- error bag

  /** The validator's message bag: the messages added under each key, in order. */
  type Errors = map<Key, seq<string>>

  /** The messages under `key`; none when the key was never added. */
  function Messages(errors: Errors, key: Key): seq<string> {
    if key in errors then errors[key] else []
  }

  /**
   * `$validator->errors()->add(key, message)`: `message` joins the list under
   * `key` unless that list already holds it; the other keys are untouched.
   */
  function Add(errors: Errors, key: Key, message: string): (r: Errors)
    ensures Messages(r, key) == Messages(errors, key) + if message in Messages(errors, key) then [] else [message]
    ensures forall k :: k != key ==> Messages(r, k) == Messages(errors, k)
  {
    if message in Messages(errors, key) then errors else errors[key := Messages(errors, key) + [message]]
  }

  /** Adding the same message twice leaves the bag as one addition does. */
  lemma AddIdempotent(errors: Errors, key: Key, message: string)
    ensures Add(Add(errors, key, message), key, message) == Add(errors, key, message)
  {
  }

  /** The error bag keys the checks use. */
  datatype Key = SelectOneRouteing | MaxFl | Rvsm | FlightLevelMax | MachRegex | EntryTimeRange

  /** The key as the bag spells it. */
  function KeyName(k: Key): (name: string)
    ensures |name| > 0
  {
    match k
    case SelectOneRouteing => "select_one_routeing"
    case MaxFl => "max_fl"
    case Rvsm => "rvsm"
    case FlightLevelMax => "flight_level.max"
    case MachRegex => "mach.regex"
    case EntryTimeRange => "entry_time.range"
  }

  /** Distinct keys are distinct strings in the bag. */
  lemma KeyNameInjective(a: Key, b: Key)
    ensures KeyName(a) == KeyName(b) ==> a == b
  {
  }

  const BothRouteingsMessage :=
    "You can only request either a NAT track or a random routeing. Check which one you are allocated in your CTP booking. (NAT Tracks are identified by a letter.)"
  const NoRouteingMessage :=
    "You need to request either a NAT track or a random routeing. Check which one you are allocated in your CTP booking. (NAT Tracks are identified by a letter.)"
  const MaxFlMessage := "Your maximum flight level must be equal to or higher than your requested flight level."
  const RvsmMessage := "Your flight levels must be valid (420 and 440 are not valid)."
  const CeilingMessage := "You must file a valid flight level."
  const MachMessage := "Mach must be in format 0xx (e.g. .74 = 074)"

  const RangeMessageOpening :=
    "You are either too early or too late to submit oceanic clearance. If you are entering the oceanic more than "
  const RangeMessageComeBack := " minutes from now, come back when within "
  const RangeMessageVoice := " minutes. If your entry is within "
  const RangeMessageClosing := " minutes, or you have already entered, request clearance via voice."

  /** The window error's text, quoting the narrowed bounds. */
  function RangeMessage(lower: int, upper: int): string {
    RangeMessageOpening + IntToString(upper) + RangeMessageComeBack + IntToString(upper)
    + RangeMessageVoice + IntToString(lower) + RangeMessageClosing
  }

  // ---------------------------------------------------------------- the rules

  /** Both a track and a random routeing, or neither. */
  predicate RouteingAmbiguous(r: Submission) {
    LooseNull(r.trackId) == LooseNull(r.randomRouteing)
  }

  /** The checks that apply unless the request is flagged as Concorde. */
  predicate Standard(r: Submission) {
    !Truthy(r.isConcorde)
  }

  /**
   * `flight_level > max_flight_level`. The levels arrive as numeric strings;
   * against null PHP compares the string with "", so a missing maximum is
   * below every filed level.
   */
  predicate MaxFlTooLow(fl: int, maxFl: Option<int>) {
    if maxFl.None? then true else fl > maxFl.value
  }

  /** Levels outside RVSM: 420 and 440, for either the filed or the maximum level. */
  predicate RvsmExcluded(fl: int, maxFl: Option<int>) {
    fl == 420 || fl == 440 || maxFl == Some(420) || maxFl == Some(440)
  }

  predicate AboveCeiling(fl: int) {
    fl > 450
  }

  /** A word character for PCRE's `\b`. */
  predicate IsWordChar(c: char) {
    'a' <= c <= 'z' || 'A' <= c <= 'Z' || '0' <= c <= '9' || c == '_'
  }

  /** `\b0[1-9][0-9]\b` matches at position `i`. */
  predicate MachAt(s: string, i: int)
    requires 0 <= i && i + 3 <= |s|
  {
    && s[i] == '0' && '1' <= s[i + 1] <= '9' && IsDigit(s[i + 2])
    && (i == 0 || !IsWordChar(s[i - 1]))
    && (i + 3 == |s| || !IsWordChar(s[i + 3]))
  }

  /** `preg_match("/\b[0][1-9][0-9]\b/", mach) != 0`: the pattern is tried at each position from the left. */
  predicate MachMatches(s: string) {
    MachMatchesFrom(s, 0)
  }

  predicate MachMatchesFrom(s: string, i: nat)
    decreases |s| - i
  {
    i + 3 <= |s| && (MachAt(s, i) || MachMatchesFrom(s, i + 1))
  }

  /** The scan finds a match exactly when the pattern matches somewhere at or after `i`. */
  lemma {:induction false} MachMatchesFromSpec(s: string, i: nat)
    ensures MachMatchesFrom(s, i) <==> exists j :: i <= j && j + 3 <= |s| && MachAt(s, j)
    decreases |s| - i
  {
    if i + 3 <= |s| {
      MachMatchesFromSpec(s, i + 1);
      if !MachAt(s, i) {
        assert (exists j :: i <= j && j + 3 <= |s| && MachAt(s, j)) ==> exists j :: i + 1 <= j && j + 3 <= |s| && MachAt(s, j);
      }
    }
  }

  /** The mach rule passes exactly when the pattern matches at some position. */
  lemma MachMatchesSpec(s: string)
    ensures MachMatches(s) <==> exists i :: 0 <= i && i + 3 <= |s| && MachAt(s, i)
  {
    MachMatchesFromSpec(s, 0);
  }

  /** "074" and ".074" match; "74", "0745", "M074", "009" and "0.74" do not. */
  lemma MachExamples()
    ensures MachMatches("074") && MachMatches(".074")
    ensures !MachMatches("74") && !MachMatches("0745") && !MachMatches("M074")
    ensures !MachMatches("009") && !MachMatches("0.74")
  {
    assert MachAt("074", 0);
    assert MachAt(".074", 1);
  }

  // ---------------------------------------------------------------- entryTimeWithinRange

  /**
   * `Carbon::createFromFormat('Hi', s)`: minutes after today's midnight.
   * Four digits are read as hours and minutes, values past 23 or 59 rolling
   * forward; anything else makes Carbon throw (None).
   */
  function CreateFromHi(s: string): (r: Option<nat>)
    ensures r.Some? <==> |s| == 4 && forall i :: 0 <= i < |s| ==> IsDigit(s[i])
    ensures r.Some? && ParseLabel(s).Some? ==> r.value == ParseLabel(s).value
  {
    if |s| == 4 && IsDigit(s[0]) && IsDigit(s[1]) && IsDigit(s[2]) && IsDigit(s[3]) then
      Some(60 * (10 * DigitValue(s[0]) + DigitValue(s[1])) + 10 * DigitValue(s[2]) + DigitValue(s[3]))
    else
      None
  }

  /*
   * The window arithmetic in whole minutes. The entry parsed from "Hi" has
   * zero seconds and microseconds, while now is `Offset(now)` into its
   * minute; each Carbon difference is truncated.
   */

  /** The entry's minute, counted from today's midnight, after an entry earlier than now has moved to the next day. */
  function ResolvedEntry(entry: nat, now: Now): nat {
    if entry < now.minute || (entry == now.minute && Offset(now) > 0) then entry + MinutesPerDay else entry
  }

  /** Whole minutes from now until the resolved entry. */
  function LeadMinutes(entry: nat, now: Now): nat {
    var r := ResolvedEntry(entry, now);
    if Offset(now) == 0 then r - now.minute else r - now.minute - 1
  }

  /** Whole minutes from now until the coming midnight. */
  function MinutesToMidnight(now: Now): nat {
    if Offset(now) == 0 then MinutesPerDay - now.minute else MinutesPerDay - now.minute - 1
  }

  /** Minutes between the resolved entry and the coming midnight, on either side of it. */
  function MinutesFromMidnight(entry: nat, now: Now): nat {
    Abs(ResolvedEntry(entry, now) - MinutesPerDay)
  }

  predicate PrimaryAccepts(entry: nat, now: Now, lower: int, upper: int) {
    lower <= LeadMinutes(entry, now) <= upper
  }

  predicate SecondaryAccepts(entry: nat, now: Now, lower: int, upper: int) {
    MinutesToMidnight(now) >= lower && MinutesFromMidnight(entry, now) <= upper
  }

  /** The window test: either branch is enough. */
  predicate WithinWindow(entry: nat, now: Now, lower: int, upper: int) {
    PrimaryAccepts(entry, now, lower, upper) || SecondaryAccepts(entry, now, lower, upper)
  }

  /**
   * A time of day is at most 1439 minutes ahead, and 0 only when it is less
   * than a minute ahead: now itself at the very start of its minute, or the
   * next minute when now is part-way through one. Later in the current
   * minute it is a day away. Adding the lead (and the partial minute) to now
   * lands on the entry.
   */
  lemma LeadMinutesRange(entry: Minute, now: Now)
    ensures 0 <= LeadMinutes(entry, now) <= 1439
    ensures LeadMinutes(entry, now) == 0 <==>
              if Offset(now) == 0 then entry == now.minute else entry == Wrap(now.minute + 1)
    ensures entry == now.minute && Offset(now) > 0 ==> LeadMinutes(entry, now) == 1439
    ensures (now.minute + LeadMinutes(entry, now) + (if Offset(now) == 0 then 0 else 1)) % MinutesPerDay == entry
  {
    var r := ResolvedEntry(entry, now);
    var lead := LeadMinutes(entry, now);
    var step := if Offset(now) == 0 then 0 else 1;
    assert now.minute + lead + step == r;
    if r >= MinutesPerDay {
      assert r == entry + MinutesPerDay;
    }
  }

  /** For an entry on the next day, the two distances the midnight branch reads add up to the lead time. */
  lemma MidnightSplit(entry: Minute, now: Now)
    requires ResolvedEntry(entry, now) >= MinutesPerDay
    ensures MinutesToMidnight(now) + MinutesFromMidnight(entry, now) == LeadMinutes(entry, now)
  {
  }

  /** At 23:50:00 with [15, 90]: 0005 (15 ahead, next day) is accepted and 0145 (115 ahead) is rejected. */
  lemma WindowLateEveningExamples()
    ensures LeadMinutes(5, Now(1430, 0, 0)) == 15 && WithinWindow(5, Now(1430, 0, 0), 15, 90)
    ensures LeadMinutes(105, Now(1430, 0, 0)) == 115 && !WithinWindow(105, Now(1430, 0, 0), 15, 90)
  {
    assert Offset(Now(1430, 0, 0)) == 0;
    assert ResolvedEntry(5, Now(1430, 0, 0)) == 1445;
    assert ResolvedEntry(105, Now(1430, 0, 0)) == 1545;
  }

  /** Half a minute later, at 23:50:30, 0005 is 14 whole minutes ahead and rejected. */
  lemma WindowPartialMinuteRejects()
    ensures LeadMinutes(5, Now(1430, 30, 0)) == 14 && MinutesToMidnight(Now(1430, 30, 0)) == 9
    ensures !WithinWindow(5, Now(1430, 30, 0), 15, 90)
  {
    assert Offset(Now(1430, 30, 0)) == 30_000_000;
    assert ResolvedEntry(5, Now(1430, 30, 0)) == 1445;
  }

  /** At 22:00:00 with [15, 90]: 0030 is 150 ahead, but the midnight branch accepts it. */
  lemma WindowMidnightBranchExample()
    ensures LeadMinutes(30, Now(1320, 0, 0)) == 150
    ensures !PrimaryAccepts(30, Now(1320, 0, 0), 15, 90) && SecondaryAccepts(30, Now(1320, 0, 0), 15, 90)
  {
    assert Offset(Now(1320, 0, 0)) == 0;
    assert ResolvedEntry(30, Now(1320, 0, 0)) == 1470;
  }

  /**
   * The entry-to-midnight distance is absolute, so the midnight branch also
   * accepts an entry late the same evening: at 10:00:00 with [15, 90], 2300
   * is 780 minutes ahead and accepted.
   */
  lemma WindowSameEveningAccepted()
    ensures LeadMinutes(1380, Now(600, 0, 0)) == 780
    ensures !PrimaryAccepts(1380, Now(600, 0, 0), 15, 90) && WithinWindow(1380, Now(600, 0, 0), 15, 90)
  {
    assert Offset(Now(600, 0, 0)) == 0;
    assert ResolvedEntry(1380, Now(600, 0, 0)) == 1380;
  }

  /** Seconds matter at midnight: at 23:45:00 the entry 0130 is accepted, at 23:45:30 it is not. */
  lemma WindowSecondsMatter()
    ensures WithinWindow(90, Now(1425, 0, 0), 15, 90)
    ensures !WithinWindow(90, Now(1425, 30, 0), 15, 90)
  {
    assert Offset(Now(1425, 0, 0)) == 0;
    assert Offset(Now(1425, 30, 0)) == 30_000_000;
    assert ResolvedEntry(90, Now(1425, 0, 0)) == 1530;
    assert ResolvedEntry(90, Now(1425, 30, 0)) == 1530;
  }

  /** The outcome of the time-window part of the checks. */
  datatype WindowCheck = NotChecked | InWindow | OutOfWindow | Unparsable

  /** The window check runs only when enabled and the entry time is four bytes long (`strlen`). */
  function WindowCheckOf(cfg: Config, entryTime: string, now: Now): WindowCheck {
    if !(cfg.timeConstraintsEnabled && Utf8Length(entryTime) == 4) then NotChecked
    else
      match CreateFromHi(entryTime)
      case None => Unparsable
      case Some(e) => if WithinWindow(e, now, cfg.lowerLimit, cfg.upperLimit) then InWindow else OutOfWindow
  }

  /** The message each key is added with. */
  function MessageFor(key: Key, r: Submission, cfg: Config): string {
    match key
    case SelectOneRouteing => if LooseNull(r.trackId) then NoRouteingMessage else BothRouteingsMessage
    case MaxFl => MaxFlMessage
    case Rvsm => RvsmMessage
    case FlightLevelMax => CeilingMessage
    case MachRegex => MachMessage
    case EntryTimeRange => RangeMessage(cfg.lowerLimit + 1, cfg.upperLimit - 1)
  }

  // ---------------------------------------------------------------- the form request

  /** `RclMessageRequest`: the submitted input, which `prepareForValidation` may extend. */
  class RclMessageRequest {
    var input: Submission

    constructor (input: Submission)
      ensures this.input == input
    {
      this.input := input;
    }

    /**
     * `prepareForValidation`: with no `entry_fix` but a `track_id`, the entry
     * fix becomes the first token of the track's last routeing
     * (`lastRouteing`, the looked-up track's).
     */
    method PrepareForValidation(lastRouteing: string)
      modifies this
      ensures input == if !Has(old(input).entryFix) && Has(old(input).trackId)
                       then old(input).(entryFix := FromToken(FirstToken(lastRouteing)))
                       else old(input)
      ensures Has(old(input).trackId) ==> Has(input.entryFix)
    {
      if !Has(input.entryFix) && Has(input.trackId) {
        input := input.(entryFix := FromToken(FirstToken(lastRouteing)));
      }
    }

    /**
     * `entryTimeWithinRange`: `entry` is the parsed entry time in minutes
     * after today's midnight. Instants are in microseconds; the parsed entry
     * has no seconds, now has its own.
     */
    method EntryTimeWithinRange(entry: nat, now: Now, lower: int, upper: int) returns (ok: bool)
      ensures ok == WithinWindow(entry, now, lower, upper)
    {
      var currentDateTime := (now.minute * 60 + now.second) * MicrosPerSecond + now.micro;
      var entryTime := entry * MicrosPerMinute;
      if entryTime < currentDateTime {
        entryTime := entryTime + MicrosPerDay;
      }
      var r := ResolvedEntry(entry, now);
      var off := Offset(now);
      assert currentDateTime == now.minute * MicrosPerMinute + off;
      assert entryTime == r * MicrosPerMinute;
      var minutesDifference := InstantDiffMinutes(currentDateTime, entryTime);
      if off == 0 {
        InstantDiffOfMinutes(currentDateTime, entryTime, r - now.minute, 0);
      } else {
        InstantDiffOfMinutes(currentDateTime, entryTime, r - now.minute - 1, MicrosPerMinute - off);
      }
      if minutesDifference >= lower && minutesDifference <= upper {
        return true;
      }
      var midnight := MicrosPerDay;
      var minutesToMidnight := InstantDiffMinutes(currentDateTime, midnight);
      var minutesFromMidnight := InstantDiffMinutes(entryTime, midnight);
      if off == 0 {
        InstantDiffOfMinutes(currentDateTime, midnight, MinutesPerDay - now.minute, 0);
      } else {
        InstantDiffOfMinutes(currentDateTime, midnight, MinutesPerDay - now.minute - 1, MicrosPerMinute - off);
      }
      InstantDiffOfMinutes(entryTime, midnight, Abs(r - MinutesPerDay), 0);
      ok := minutesToMidnight >= lower && minutesFromMidnight >= 0 && minutesFromMidnight <= upper;
    }

    /** The flight level and mach part of the after-hook. */
    method LevelAndMachRules(errors: Errors) returns (r: Errors)
      ensures Messages(r, MaxFl) == Messages(errors, MaxFl)
        + if MaxFlTooLow(input.flightLevel, input.maxFlightLevel) && MaxFlMessage !in Messages(errors, MaxFl) then [MaxFlMessage] else []
      ensures Messages(r, Rvsm) == Messages(errors, Rvsm)
        + if RvsmExcluded(input.flightLevel, input.maxFlightLevel) && RvsmMessage !in Messages(errors, Rvsm) then [RvsmMessage] else []
      ensures Messages(r, FlightLevelMax) == Messages(errors, FlightLevelMax)
        + if AboveCeiling(input.flightLevel) && CeilingMessage !in Messages(errors, FlightLevelMax) then [CeilingMessage] else []
      ensures Messages(r, MachRegex) == Messages(errors, MachRegex)
        + if !MachMatches(input.mach) && MachMessage !in Messages(errors, MachRegex) then [MachMessage] else []
      ensures Messages(r, SelectOneRouteing) == Messages(errors, SelectOneRouteing)
      ensures Messages(r, EntryTimeRange) == Messages(errors, EntryTimeRange)
    {
      r := errors;
      if MaxFlTooLow(input.flightLevel, input.maxFlightLevel) {
        r := Add(r, MaxFl, MaxFlMessage);
      }
      if RvsmExcluded(input.flightLevel, input.maxFlightLevel) {
        r := Add(r, Rvsm, RvsmMessage);
      }
      if AboveCeiling(input.flightLevel) {
        r := Add(r, FlightLevelMax, CeilingMessage);
      }
      if !MachMatches(input.mach) {
        r := Add(r, MachRegex, MachMessage);
      }
    }

    /**
     * The entry-time part of the after-hook, run when time constraints are
     * enabled and the entry time is four bytes long.
     */
    method EntryTimeRule(errors: Errors, cfg: Config, now: Now, authorityAutoAck: bool)
      returns (r: Errors, contactSent: bool, raised: bool)
      ensures Messages(r, EntryTimeRange) == Messages(errors, EntryTimeRange)
        + if WindowCheckOf(cfg, input.entryTime, now) == OutOfWindow
             && MessageFor(EntryTimeRange, input, cfg) !in Messages(errors, EntryTimeRange)
          then [MessageFor(EntryTimeRange, input, cfg)] else []
      ensures forall k :: k != EntryTimeRange ==> Messages(r, k) == Messages(errors, k)
      ensures raised == (WindowCheckOf(cfg, input.entryTime, now) == Unparsable)
      ensures contactSent == (WindowCheckOf(cfg, input.entryTime, now) == OutOfWindow
                              && cfg.autoAcknowledgementEnabled && authorityAutoAck)
    {
      r, contactSent, raised := errors, false, false;
      if cfg.timeConstraintsEnabled && Utf8Length(input.entryTime) == 4 {
        var entry := CreateFromHi(input.entryTime);
        if entry.None? {
          raised := true;
          return;
        }
        var ok := EntryTimeWithinRange(entry.value, now, cfg.lowerLimit, cfg.upperLimit);
        if !ok {
          if cfg.autoAcknowledgementEnabled && authorityAutoAck {
            contactSent := true;
          }
          var lower := cfg.lowerLimit + 1;
          var upper := cfg.upperLimit - 1;
          r := Add(r, EntryTimeRange, RangeMessage(lower, upper));
        }
      }
    }

    /**
     * The `withValidator` after-hook: each rule adds its own error, none
     * stops the others. `authorityAutoAck` is whether the target datalink
     * authority auto-acknowledges; `contactSent` is the CPDLC "contact by
     * voice" message; `raised` is Carbon throwing on an entry time that is
     * not four digits.
     */
    method WithValidator(cfg: Config, now: Now, authorityAutoAck: bool)
      returns (errors: Errors, contactSent: bool, raised: bool)
      ensures Messages(errors, SelectOneRouteing) == if RouteingAmbiguous(input) then [MessageFor(SelectOneRouteing, input, cfg)] else []
      ensures Messages(errors, MaxFl) == if Standard(input) && MaxFlTooLow(input.flightLevel, input.maxFlightLevel) then [MaxFlMessage] else []
      ensures Messages(errors, Rvsm) == if Standard(input) && RvsmExcluded(input.flightLevel, input.maxFlightLevel) then [RvsmMessage] else []
      ensures Messages(errors, FlightLevelMax) == if Standard(input) && AboveCeiling(input.flightLevel) then [CeilingMessage] else []
      ensures Messages(errors, MachRegex) == if Standard(input) && !MachMatches(input.mach) then [MachMessage] else []
      ensures Messages(errors, EntryTimeRange) == if Standard(input) && WindowCheckOf(cfg, input.entryTime, now) == OutOfWindow then [MessageFor(EntryTimeRange, input, cfg)] else []
      ensures raised == (Standard(input) && WindowCheckOf(cfg, input.entryTime, now) == Unparsable)
      ensures contactSent == (Standard(input) && WindowCheckOf(cfg, input.entryTime, now) == OutOfWindow
                              && cfg.autoAcknowledgementEnabled && authorityAutoAck)
    {
      var r := input;
      errors, contactSent, raised := map[], false, false;
      if !LooseNull(r.trackId) && !LooseNull(r.randomRouteing) {
        errors := Add(errors, SelectOneRouteing, BothRouteingsMessage);
      } else if LooseNull(r.trackId) && LooseNull(r.randomRouteing) {
        errors := Add(errors, SelectOneRouteing, NoRouteingMessage);
      }
      assert Messages(errors, SelectOneRouteing) == if RouteingAmbiguous(r) then [MessageFor(SelectOneRouteing, r, cfg)] else [];
      assert forall k :: k != SelectOneRouteing ==> Messages(errors, k) == [];
      if !Truthy(r.isConcorde) {
        errors := LevelAndMachRules(errors);
        errors, contactSent, raised := EntryTimeRule(errors, cfg, now, authorityAutoAck);
      }
    }
  }

  /** Filed 420 under a 430 maximum: the RVSM rule fires although the maximum-level rule does not. */
  lemma RvsmIndependentOfMaxFl()
    ensures RvsmExcluded(420, Some(430)) && !MaxFlTooLow(420, Some(430))
  {
  }
}
