/**
 * The conflict checker shown beside a clearance request: it looks up other
 * aircraft at the same entry fix and flight level whose entry time lies
 * within ten minutes of the request's, and classifies the cleared ones.
 */
module Conflicts {
  import opened Wrappers
  import opened Seqs
  import opened Text
  import opened Clock
  import RclMessages

  /** `ConflictLevelEnum`; its `None` case is called `NoConflict` here. */
  datatype ConflictLevel = NoConflict | Potential | Warning

  /** `formatDiff`'s output: "Same", or Carbon's long relative phrase, kept here as its minute count. */
  datatype DiffVisual = Same | Relative(minutes: nat)

  /** One mapped row of `conflicts` or `pendingConflicts`. */
  datatype Conflict = Conflict(
    id: nat,
    callsign: string,
    level: string,
    time: string,
    diffVisual: DiffVisual,
    diffMinutes: nat)

  /** The columns of a clearance (CLX) row that the checker reads; `callsign` comes from its RCL. */
  datatype ClxMessage = ClxMessage(
    callsign: string,
    entryFix: string,
    flightLevel: string,
    rawEntryTimeRestriction: Option<string>)

  /** What `check()` leaves in `conflictLevel`, `conflicts` and `pendingConflicts`. */
  datatype ScanResult = ScanResult(level: ConflictLevel, cleared: seq<Conflict>, pending: seq<Conflict>)

  /** The span `check()` asks for. */
  const Span: nat := 10

  // ---------------------------------------------------------------- getTimeRange

  /** The labels of the minutes from `center - span` to `center + span`, wrapped at midnight. */
  function TimeRange(center: Minute, span: nat): seq<string> {
    seq(2 * span + 1, i => Label(Wrap(center - span + i)))
  }

  /** `getTimeRange`: one label per minute of the period, appended in order. */
  method GetTimeRange(center: Minute, span: nat) returns (times: seq<string>)
    ensures times == TimeRange(center, span)
  {
    times := [];
    var t := center - span;
    while t <= center + span
      invariant center - span <= t <= center + span + 1
      invariant times == TimeRange(center, span)[..t - (center - span)]
    {
      times := times + [Label(Wrap(t))];
      t := t + 1;
    }
  }

  /** The i-th label reads back as the i-th minute of the period. */
  lemma TimeRangeAt(center: Minute, span: nat, i: nat)
    requires i < 2 * span + 1
    ensures ParseLabel(TimeRange(center, span)[i]) == Some(Wrap(center - span + i))
  {
    LabelRoundTrip(Wrap(center - span + i));
  }

  /** Wrapping commutes with stepping one minute. */
  lemma WrapSucc(x: int)
    ensures Wrap(Wrap(x) + 1) == Wrap(x + 1)
  {
    var q := x / MinutesPerDay;
    assert x == MinutesPerDay * q + Wrap(x);
    if Wrap(x) + 1 == MinutesPerDay {
      assert x + 1 == MinutesPerDay * (q + 1);
    } else {
      assert x + 1 == MinutesPerDay * q + (Wrap(x) + 1);
    }
  }

  /** The window has 2n+1 labels, each a valid time of day, one minute apart round the clock. */
  lemma TimeRangeShape(center: Minute, span: nat)
    ensures |TimeRange(center, span)| == 2 * span + 1
    ensures forall i :: 0 <= i < |TimeRange(center, span)| ==>
              ParseLabel(TimeRange(center, span)[i]) == Some(Wrap(center - span + i))
    ensures forall i :: 0 <= i < 2 * span ==>
              ParseLabel(TimeRange(center, span)[i + 1]).value
              == Wrap(ParseLabel(TimeRange(center, span)[i]).value + 1)
  {
    var r := TimeRange(center, span);
    forall i | 0 <= i < |r| ensures ParseLabel(r[i]) == Some(Wrap(center - span + i)) {
      TimeRangeAt(center, span, i);
    }
    forall i | 0 <= i < 2 * span
      ensures ParseLabel(r[i + 1]).value == Wrap(ParseLabel(r[i]).value + 1)
    {
      TimeRangeAt(center, span, i);
      TimeRangeAt(center, span, i + 1);
      WrapSucc(center - span + i);
    }
  }

  /** Every label in a window reads back as a time of day. */
  lemma TimeRangeLabelsParse(center: Minute, span: nat, s: string)
    requires s in TimeRange(center, span)
    ensures ParseLabel(s).Some?
  {
    var i :| 0 <= i < |TimeRange(center, span)| && TimeRange(center, span)[i] == s;
    TimeRangeAt(center, span, i);
  }

  /** A minute `j` steps from the centre, with |j| <= span < 720, is within `span` round the clock. */
  lemma StepIsClose(center: Minute, span: nat, j: int)
    requires span < 720 && 0 <= j + span && j <= span
    ensures CircularDistance(Wrap(center + j), center) <= span
  {
    var m := Wrap(center + j);
    var q := (center + j) / MinutesPerDay;
    assert center + j == MinutesPerDay * q + m;
    assert -1 <= q <= 1;
    if j >= 0 {
      assert m - center == j - MinutesPerDay * q;
      assert (m - center) % MinutesPerDay == j;
    } else {
      assert m - center == j - MinutesPerDay * q;
      assert (m - center) % MinutesPerDay == j + MinutesPerDay;
    }
  }

  /** A time within `span` round the clock is `j` steps from the centre for some |j| <= span. */
  lemma CloseIsStep(center: Minute, span: nat, m: Minute) returns (j: int)
    requires CircularDistance(m, center) <= span
    ensures 0 <= j + span && j <= span && Wrap(center + j) == m
  {
    var k := (m - center) % MinutesPerDay;
    var q := (m - center) / MinutesPerDay;
    assert m - center == MinutesPerDay * q + k;
    assert -1 <= q <= 0;
    if k <= 720 {
      j := k;
      assert center + j == m - MinutesPerDay * q;
    } else {
      j := k - MinutesPerDay;
      assert center + j == m - MinutesPerDay * (q + 1);
    }
  }

  /** A time's label is in the window exactly when the time is within `span` minutes of the centre round the clock. */
  lemma TimeRangeMembership(center: Minute, span: nat, m: Minute)
    requires span < 720
    ensures Label(m) in TimeRange(center, span) <==> CircularDistance(m, center) <= span
  {
    var r := TimeRange(center, span);
    if CircularDistance(m, center) <= span {
      var j := CloseIsStep(center, span, m);
      var i := j + span;
      assert center - span + i == center + j;
      assert r[i] == Label(m);
    } else {
      forall i | 0 <= i < |r| ensures r[i] != Label(m) {
        var w := Wrap(center - span + i);
        if r[i] == Label(m) {
          LabelInjective(w, m);
          assert center + (i - span) == center - span + i;
          StepIsClose(center, span, i - span);
          assert false;
        }
      }
    }
  }

  /** The window wraps at midnight: around 0005 it holds 2355 and 0015, and 21 labels in all. */
  lemma TimeRangeWrapsAtMidnight()
    ensures |TimeRange(5, 10)| == 21
    ensures "2355" in TimeRange(5, 10) && "0015" in TimeRange(5, 10)
  {
    var r := TimeRange(5, 10);
    assert Label(1435) == "2355";
    assert Label(15) == "0015";
    assert r[0] == Label(1435);
    assert r[20] == Label(15);
  }

  // ---------------------------------------------------------------- formatDiff, diffMinutes

  /** `formatDiff`: "Same" under two minutes apart, otherwise a relative phrase. */
  function FormatDiff(a: Minute, b: Minute): DiffVisual {
    if DiffMinutes(a, b) < 2 then Same else Relative(DiffMinutes(a, b))
  }

  /** "Same" is shown exactly when the two times are less than two minutes apart. */
  lemma FormatDiffSame(a: Minute, b: Minute)
    ensures FormatDiff(a, b) == Same <==> DiffMinutes(a, b) < 2
    ensures FormatDiff(a, b) == FormatDiff(b, a)
  {
  }

  // ---------------------------------------------------------------- determineConflictLevel

  /** The level one difference sets, or NoConflict when it sets none (more than ten minutes). */
  function Tier(diff: int): ConflictLevel {
    if diff < 5 then Warning else if diff <= 10 then Potential else NoConflict
  }

  /** The level after the loop over `diffs`: each difference of ten minutes or less overwrites it. */
  function LevelOf(diffs: seq<int>): (level: ConflictLevel)
    ensures level == NoConflict <==> forall i :: 0 <= i < |diffs| ==> diffs[i] > 10
  {
    if diffs == [] then NoConflict
    else
      var init, last := diffs[..|diffs| - 1], diffs[|diffs| - 1];
      assert forall i :: 0 <= i < |init| ==> init[i] == diffs[i];
      if Tier(last) == NoConflict then LevelOf(init) else Tier(last)
  }

  /** The `diffMinutes` column of a list of rows. */
  function Diffs(rows: seq<Conflict>): (ds: seq<int>)
    ensures |ds| == |rows|
    ensures forall i :: 0 <= i < |rows| ==> ds[i] == rows[i].diffMinutes
  {
    seq(|rows|, i requires 0 <= i < |rows| => rows[i].diffMinutes)
  }

  /** `determineConflictLevel`: a loop that overwrites the level row by row. */
  method DetermineConflictLevel(aircraft: seq<Conflict>) returns (level: ConflictLevel)
    ensures level == LevelOf(Diffs(aircraft))
  {
    ghost var ds := Diffs(aircraft);
    level := NoConflict;
    var i := 0;
    while i < |aircraft|
      invariant 0 <= i <= |aircraft|
      invariant level == LevelOf(ds[..i])
    {
      var d := aircraft[i].diffMinutes;
      if d < 5 {
        level := Warning;
      }
      if d >= 5 && d <= 10 {
        level := Potential;
      }
      assert ds[..i + 1][..i] == ds[..i];
      i := i + 1;
    }
    assert ds[..|aircraft|] == ds;
  }

  /** `j` is the last position whose difference sets a level (ten minutes or less). */
  predicate LastMatchAt(diffs: seq<int>, j: int) {
    && 0 <= j < |diffs|
    && diffs[j] <= 10
    && forall k :: j < k < |diffs| ==> diffs[k] > 10
  }

  /** With no difference of ten minutes or less the level stays NoConflict. */
  lemma {:induction false} NoMatchIsNoConflict(diffs: seq<int>)
    requires forall i :: 0 <= i < |diffs| ==> diffs[i] > 10
    ensures LevelOf(diffs) == NoConflict
  {
    if diffs != [] {
      var init := diffs[..|diffs| - 1];
      assert forall i :: 0 <= i < |init| ==> init[i] == diffs[i];
      NoMatchIsNoConflict(init);
    }
  }

  /** The last difference of ten minutes or less decides the level, whatever came before it. */
  lemma {:induction false} LastMatchDecides(diffs: seq<int>, j: int)
    requires LastMatchAt(diffs, j)
    ensures LevelOf(diffs) == Tier(diffs[j]) && Tier(diffs[j]) != NoConflict
  {
    var n := |diffs|;
    if j < n - 1 {
      var init := diffs[..n - 1];
      assert forall i :: 0 <= i < |init| ==> init[i] == diffs[i];
      assert LastMatchAt(init, j);
      LastMatchDecides(init, j);
    }
  }

  /** A difference above ten minutes leaves the level as it was. */
  lemma FarTrafficKeepsLevel(diffs: seq<int>, d: int)
    requires d > 10
    ensures LevelOf(diffs + [d]) == LevelOf(diffs)
  {
    assert (diffs + [d])[..|diffs|] == diffs;
  }

  /** One difference: under 5 is Warning, 5 to 10 inclusive is Potential, above 10 is NoConflict. */
  lemma LevelOfBoundaries()
    ensures LevelOf([]) == NoConflict
    ensures LevelOf([4]) == Warning && LevelOf([5]) == Potential
    ensures LevelOf([10]) == Potential && LevelOf([11]) == NoConflict
  {
  }

  /** Order matters, not severity: [3,7] is Potential, [7,3] is Warning, [3,20] stays Warning. */
  lemma LevelOfOrderExamples()
    ensures LevelOf([3, 7]) == Potential
    ensures LevelOf([7, 3]) == Warning
    ensures LevelOf([3, 20]) == Warning
  {
    assert [3, 7][..1] == [3];
    assert [7, 3][..1] == [7];
    assert [3, 20][..1] == [3];
  }

  // ---------------------------------------------------------------- fetches and maps

  /** `fetchClearedConflicts`' filter: same entry fix and level, restriction label in the window. */
  predicate ClearedMatch(c: ClxMessage, entry: Option<string>, level: string, window: seq<string>) {
    && entry == Some(c.entryFix)
    && c.flightLevel == level
    && c.rawEntryTimeRestriction.Some?
    && c.rawEntryTimeRestriction.value in window
  }

  /** `fetchPendingConflicts`' filter: a pending RCL at the same fix and level, entry label in the window. */
  predicate PendingMatch(m: RclMessages.RclMessage, entry: Option<string>, level: string, window: seq<string>) {
    && RclMessages.Pending(m)
    && entry == Some(m.entryFix)
    && m.entryTime in window
    && m.flightLevel == level
  }

  function FetchCleared(table: seq<ClxMessage>, entry: Option<string>, level: string, window: seq<string>): seq<ClxMessage> {
    Filter(table, c => ClearedMatch(c, entry, level, window))
  }

  function FetchPending(table: seq<RclMessages.RclMessage>, entry: Option<string>, level: string, window: seq<string>)
    : seq<RclMessages.RclMessage>
  {
    Filter(table, m => PendingMatch(m, entry, level, window))
  }

  predicate ClxTimeParses(c: ClxMessage) {
    c.rawEntryTimeRestriction.Some? && ParseLabel(c.rawEntryTimeRestriction.value).Some?
  }

  /** `mapClxMessages`: one row per clearance, keyed by position, with the same-day minute difference. */
  function MapClxMessages(messages: seq<ClxMessage>, time: Minute): (rows: seq<Conflict>)
    requires forall c :: c in messages ==> ClxTimeParses(c)
    ensures |rows| == |messages|
  {
    seq(|messages|, k requires 0 <= k < |messages| =>
      var c := messages[k];
      assert c in messages && ClxTimeParses(c);
      var t := ParseLabel(c.rawEntryTimeRestriction.value).value;
      Conflict(k, c.callsign, c.flightLevel, c.rawEntryTimeRestriction.value, FormatDiff(time, t), DiffMinutes(time, t)))
  }

  /** `mapRclMessages`: the same for pending requests. */
  function MapRclMessages(messages: seq<RclMessages.RclMessage>, time: Minute): (rows: seq<Conflict>)
    requires forall m :: m in messages ==> ParseLabel(m.entryTime).Some?
    ensures |rows| == |messages|
  {
    seq(|messages|, k requires 0 <= k < |messages| =>
      var m := messages[k];
      assert m in messages;
      var t := ParseLabel(m.entryTime).value;
      Conflict(k, m.callsign, m.flightLevel, m.entryTime, FormatDiff(time, t), DiffMinutes(time, t)))
  }

  /** Every fetched clearance has a restriction label that reads as a time of day. */
  lemma FetchedClearedParse(table: seq<ClxMessage>, entry: Option<string>, level: string, time: Minute)
    ensures forall c :: c in FetchCleared(table, entry, level, TimeRange(time, Span)) ==> ClxTimeParses(c)
  {
    forall c | c in FetchCleared(table, entry, level, TimeRange(time, Span)) ensures ClxTimeParses(c) {
      TimeRangeLabelsParse(time, Span, c.rawEntryTimeRestriction.value);
    }
  }

  /** Every fetched pending request has an entry label that reads as a time of day. */
  lemma FetchedPendingParse(table: seq<RclMessages.RclMessage>, entry: Option<string>, level: string, time: Minute)
    ensures forall m :: m in FetchPending(table, entry, level, TimeRange(time, Span)) ==> ParseLabel(m.entryTime).Some?
  {
    forall m | m in FetchPending(table, entry, level, TimeRange(time, Span)) ensures ParseLabel(m.entryTime).Some? {
      TimeRangeLabelsParse(time, Span, m.entryTime);
    }
  }

  // ---------------------------------------------------------------- check

  /** What `check()` computes from the tables, the entry fix, the level and the time. */
  function Scan(clx: seq<ClxMessage>, rcl: seq<RclMessages.RclMessage>, entry: Option<string>, level: string, time: Minute)
    : ScanResult
  {
    var window := TimeRange(time, Span);
    FetchedClearedParse(clx, entry, level, time);
    FetchedPendingParse(rcl, entry, level, time);
    var cleared := MapClxMessages(FetchCleared(clx, entry, level, window), time);
    var pending := MapRclMessages(FetchPending(rcl, entry, level, window), time);
    ScanResult(LevelOf(Diffs(cleared)), cleared, pending)
  }

  /** Pending requests are listed but never change the level or the cleared list. */
  lemma ScanLevelIgnoresPending(clx: seq<ClxMessage>, rcl1: seq<RclMessages.RclMessage>, rcl2: seq<RclMessages.RclMessage>,
                                entry: Option<string>, level: string, time: Minute)
    ensures Scan(clx, rcl1, entry, level, time).level == Scan(clx, rcl2, entry, level, time).level
    ensures Scan(clx, rcl1, entry, level, time).cleared == Scan(clx, rcl2, entry, level, time).cleared
  {
  }

  /** Every listed conflict is within ten minutes of the time round the clock face. */
  lemma ScanRowsInWindow(clx: seq<ClxMessage>, rcl: seq<RclMessages.RclMessage>, entry: Option<string>, level: string, time: Minute)
    ensures var r := Scan(clx, rcl, entry, level, time);
      && (forall row :: row in r.cleared ==> ParseLabel(row.time).Some? && CircularDistance(ParseLabel(row.time).value, time) <= Span)
      && (forall row :: row in r.pending ==> ParseLabel(row.time).Some? && CircularDistance(ParseLabel(row.time).value, time) <= Span)
  {
    var r := Scan(clx, rcl, entry, level, time);
    var window := TimeRange(time, Span);
    forall row | row in r.cleared
      ensures ParseLabel(row.time).Some? && CircularDistance(ParseLabel(row.time).value, time) <= Span
    {
      var k :| 0 <= k < |r.cleared| && r.cleared[k] == row;
      var fetched := FetchCleared(clx, entry, level, window);
      assert fetched[k] in fetched;
      InWindowClose(time, row.time);
    }
    forall row | row in r.pending
      ensures ParseLabel(row.time).Some? && CircularDistance(ParseLabel(row.time).value, time) <= Span
    {
      var k :| 0 <= k < |r.pending| && r.pending[k] == row;
      var fetched := FetchPending(rcl, entry, level, window);
      assert fetched[k] in fetched;
      InWindowClose(time, row.time);
    }
  }

  lemma InWindowClose(time: Minute, s: string)
    requires s in TimeRange(time, Span)
    ensures ParseLabel(s).Some? && CircularDistance(ParseLabel(s).value, time) <= Span
  {
    TimeRangeLabelsParse(time, Span, s);
    ParseLabelInverse(s);
    TimeRangeMembership(time, Span, ParseLabel(s).value);
  }

  /**
   * Away from midnight every cleared conflict is at most ten minutes off, so
   * any cleared traffic sets the level, to the tier of the last row.
   */
  lemma ScanClassifiesTrafficAwayFromMidnight(clx: seq<ClxMessage>, rcl: seq<RclMessages.RclMessage>,
                                              entry: Option<string>, level: string, time: Minute)
    requires Span <= time < MinutesPerDay - Span
    ensures var r := Scan(clx, rcl, entry, level, time);
      r.cleared != [] ==> r.level == Tier(r.cleared[|r.cleared| - 1].diffMinutes) && r.level != NoConflict
  {
    var r := Scan(clx, rcl, entry, level, time);
    ScanRowsInWindow(clx, rcl, entry, level, time);
    if r.cleared != [] {
      var n := |r.cleared|;
      var last := r.cleared[n - 1];
      assert last in r.cleared;
      var t := ParseLabel(last.time).value;
      var fetched := FetchCleared(clx, entry, level, TimeRange(time, Span));
      assert last.diffMinutes == DiffMinutes(time, t);
      assert last.diffMinutes <= 10;
      assert LastMatchAt(Diffs(r.cleared), n - 1);
      LastMatchDecides(Diffs(r.cleared), n - 1);
    }
  }

  /**
   * Near midnight the window wraps but the difference does not: at 0005 a
   * cleared aircraft at 2358 is listed, 1433 minutes "away", and the level
   * stays NoConflict.
   */
  lemma ScanAcrossMidnightIsNotClassified()
    ensures var r := Scan([ClxMessage("BAW1", "GOMUP", "350", Some("2358"))], [], Some("GOMUP"), "350", 5);
      && |r.cleared| == 1
      && r.cleared[0].diffMinutes == 1433
      && r.level == NoConflict
  {
    var c := ClxMessage("BAW1", "GOMUP", "350", Some("2358"));
    var window := TimeRange(5, Span);
    assert Label(1438) == "2358";
    assert window[3] == Label(1438);
    assert ClearedMatch(c, Some("GOMUP"), "350", window);
    assert FetchCleared([c], Some("GOMUP"), "350", window) == [c];
    var r := Scan([c], [], Some("GOMUP"), "350", 5);
    assert ParseLabel("2358") == Some(1438);
    assert r.cleared[0].diffMinutes == 1433;
    assert Diffs(r.cleared) == [1433];
    assert [1433][..0] == [];
  }

  // ---------------------------------------------------------------- the component

  /** `ConflictChecker`, the Livewire component. */
  class ConflictChecker {
    var originalLevel: string
    var level: string
    var originalEntry: Option<string>
    var entry: Option<string>
    var originalTime: string
    var time: string
    var conflicts: seq<Conflict>
    var conflictLevel: ConflictLevel
    var pendingConflicts: seq<Conflict>

    /** The level shown always agrees with the cleared conflicts shown. */
    predicate Valid()
      reads this
    {
      conflictLevel == LevelOf(Diffs(conflicts))
    }

    /** The three lists are the scan of the current level, entry fix and time over the given tables. */
    ghost predicate Shows(clx: seq<ClxMessage>, rcl: seq<RclMessages.RclMessage>)
      reads this
    {
      && ParseLabel(time).Some?
      && Scan(clx, rcl, entry, level, ParseLabel(time).value) == ScanResult(conflictLevel, conflicts, pendingConflicts)
    }

    /** The component with its properties set, after `mount` has kept their first values. */
    constructor Mount(level: string, entry: Option<string>, time: string)
      ensures this.level == level && this.entry == entry && this.time == time
      ensures originalLevel == level && originalEntry == entry && originalTime == time
      ensures conflicts == [] && conflictLevel == NoConflict && pendingConflicts == []
      ensures Valid()
    {
      this.level, this.entry, this.time := level, entry, time;
      originalLevel, originalEntry, originalTime := level, entry, time;
      conflicts, conflictLevel, pendingConflicts := [], NoConflict, [];
    }

    /** `check()`: fetch and map the cleared conflicts, set the level from them, then the pending ones. */
    method Check(clx: seq<ClxMessage>, rcl: seq<RclMessages.RclMessage>)
      requires ParseLabel(time).Some?
      modifies this
      ensures Shows(clx, rcl) && Valid()
      ensures level == old(level) && entry == old(entry) && time == old(time)
      ensures originalLevel == old(originalLevel) && originalEntry == old(originalEntry) && originalTime == old(originalTime)
    {
      var t := ParseLabel(time).value;
      conflicts := [];
      var clearedWindow := GetTimeRange(t, Span);
      FetchedClearedParse(clx, entry, level, t);
      var cleared := MapClxMessages(FetchCleared(clx, entry, level, clearedWindow), t);
      conflictLevel := DetermineConflictLevel(cleared);
      conflicts := cleared;
      pendingConflicts := [];
      var pendingWindow := GetTimeRange(t, Span);
      FetchedPendingParse(rcl, entry, level, t);
      pendingConflicts := MapRclMessages(FetchPending(rcl, entry, level, pendingWindow), t);
    }

    /**
     * `levelChanged`: an empty value restores the level given at mount, any
     * other value replaces it, then the conflicts are checked again. When the
     * time does not read as "HHMM", `check()` throws and the component keeps
     * its previous state (`ok` is false).
     */
    method LevelChanged(newLevel: string, clx: seq<ClxMessage>, rcl: seq<RclMessages.RclMessage>) returns (ok: bool)
      requires Valid()
      modifies this
      ensures Valid()
      ensures ok == ParseLabel(old(time)).Some?
      ensures ok ==> level == (if IsEmpty(newLevel) then old(originalLevel) else newLevel) && Shows(clx, rcl)
      ensures !ok ==> level == old(level) && conflicts == old(conflicts)
                      && conflictLevel == old(conflictLevel) && pendingConflicts == old(pendingConflicts)
      ensures entry == old(entry) && time == old(time)
      ensures originalLevel == old(originalLevel) && originalEntry == old(originalEntry) && originalTime == old(originalTime)
    {
      ok := ParseLabel(time).Some?;
      if ok {
        if IsEmpty(newLevel) {
          level := originalLevel;
        } else {
          level := newLevel;
        }
        Check(clx, rcl);
      }
    }

    /** `timeChanged`: the same for the entry time. */
    method TimeChanged(newTime: string, clx: seq<ClxMessage>, rcl: seq<RclMessages.RclMessage>) returns (ok: bool)
      requires Valid()
      modifies this
      ensures Valid()
      ensures var t := if IsEmpty(newTime) then old(originalTime) else newTime;
        && ok == ParseLabel(t).Some?
        && (ok ==> time == t && Shows(clx, rcl))
      ensures !ok ==> time == old(time) && conflicts == old(conflicts)
                      && conflictLevel == old(conflictLevel) && pendingConflicts == old(pendingConflicts)
      ensures level == old(level) && entry == old(entry)
      ensures originalLevel == old(originalLevel) && originalEntry == old(originalEntry) && originalTime == old(originalTime)
    {
      var next := if IsEmpty(newTime) then originalTime else newTime;
      ok := ParseLabel(next).Some?;
      if ok {
        time := next;
        Check(clx, rcl);
      }
    }

    /** `rrChanged`: the entry fix becomes the first token of the new random routeing (or the mount value when empty), then a check. */
    method RrChanged(newRouteing: string, clx: seq<ClxMessage>, rcl: seq<RclMessages.RclMessage>) returns (ok: bool)
      requires Valid()
      modifies this
      ensures Valid()
      ensures ok == ParseLabel(old(time)).Some?
      ensures ok ==> entry == (if IsEmpty(newRouteing) then old(originalEntry) else FirstToken(newRouteing)) && Shows(clx, rcl)
      ensures !ok ==> entry == old(entry) && conflicts == old(conflicts)
                      && conflictLevel == old(conflictLevel) && pendingConflicts == old(pendingConflicts)
      ensures level == old(level) && time == old(time)
      ensures originalLevel == old(originalLevel) && originalEntry == old(originalEntry) && originalTime == old(originalTime)
    {
      ok := ParseLabel(time).Some?;
      if ok {
        if IsEmpty(newRouteing) {
          entry := originalEntry;
        } else {
          entry := FirstToken(newRouteing);
        }
        Check(clx, rcl);
      }
    }

    /**
     * `trackChanged`: the entry fix becomes the first token of the track's
     * last routeing (`lastRouteing`, the looked-up track's), or the mount
     * value when empty. It does not check again, so the lists and the level
     * stay as they were.
     */
    method TrackChanged(newTrackId: string, lastRouteing: string)
      requires Valid()
      modifies this
      ensures Valid()
      ensures entry == (if IsEmpty(newTrackId) then old(originalEntry) else FirstToken(lastRouteing))
      ensures conflicts == old(conflicts) && conflictLevel == old(conflictLevel) && pendingConflicts == old(pendingConflicts)
      ensures level == old(level) && time == old(time)
      ensures originalLevel == old(originalLevel) && originalEntry == old(originalEntry) && originalTime == old(originalTime)
    {
      if IsEmpty(newTrackId) {
        entry := originalEntry;
      } else {
        entry := FirstToken(lastRouteing);
      }
    }
  }
}
