/** Peak concurrency from run history (autosys/analysis/workload_profile.py).

    Instants are integers.  The query's `ORDER BY at, d` leaves ties open; tied
    events are equal, so every sorted arrangement is covered. */
module WorkloadProfile {
  import opened Counting
  import opened Options
  import opened Permutations
  import opened RunHistory

  /** A finished run. */
  datatype Run = Run(start: int, end: int)

  /** +1 at a start, -1 at an end. */
  datatype Event = Event(at: int, d: int)

  /** A row of the windowed query: the instant and the running sum. */
  datatype Row = Row(at: int, inFlight: int)

  // ------------------------------------------------------------------
  // What is measured
  // ------------------------------------------------------------------

  /** Runs in flight at `t`, each taken as the half-open interval [start, end). */
  function Covering(runs: seq<Run>, t: int): nat {
    if runs == [] then 0 else (if runs[0].start <= t < runs[0].end then 1 else 0) + Covering(runs[1..], t)
  }

  /** Runs recorded as ending before they start, with `t` in the gap. */
  function Inverted(runs: seq<Run>, t: int): nat {
    if runs == [] then 0 else (if runs[0].end <= t < runs[0].start then 1 else 0) + Inverted(runs[1..], t)
  }

  ghost predicate IsEventInstant(runs: seq<Run>, t: int) {
    exists r :: r in runs && (t == r.start || t == r.end)
  }

  /** The instants at which a run starts or ends. */
  ghost function Instants(runs: seq<Run>): iset<int> {
    iset t | IsEventInstant(runs, t)
  }

  /** `peak` is the largest of `level` over all instants, first reached at `at`.  A
      zero level is there before any event, so it is first among `instants`. */
  ghost predicate IsPeak(instants: iset<int>, level: int -> int, at: int, peak: int) {
    && level(at) == peak >= 0
    && at in instants
    && (forall t :: level(t) <= peak)
    && (forall t :: t < at && (peak > 0 || t in instants) ==> level(t) < peak)
  }

  // ------------------------------------------------------------------
  // The query
  // ------------------------------------------------------------------

  function Starts(runs: seq<Run>): (events: seq<Event>) {
    if runs == [] then [] else [Event(runs[0].start, 1)] + Starts(runs[1..])
  }

  function Ends(runs: seq<Run>): (events: seq<Event>) {
    if runs == [] then [] else [Event(runs[0].end, -1)] + Ends(runs[1..])
  }

  predicate InOrder(a: Event, b: Event) {
    a.at < b.at || (a.at == b.at && a.d <= b.d)
  }

  ghost predicate Sorted(events: seq<Event>) {
    forall i, j :: 0 <= i < j < |events| ==> InOrder(events[i], events[j])
  }

  function Insert(x: Event, events: seq<Event>): (r: seq<Event>)
    requires Sorted(events)
    ensures forall y :: y in r <==> y == x || y in events
    ensures Sorted(r)
    ensures multiset(r) == multiset(events) + multiset{x}
  {
    if events == [] || InOrder(x, events[0]) then
      assert forall y :: y in events ==> events != [] && (y == events[0] || InOrder(events[0], y));
      [x] + events
    else
      assert events == [events[0]] + events[1..];
      var rest := Insert(x, events[1..]);
      assert forall y :: y in rest ==> InOrder(events[0], y);
      [events[0]] + rest
  }

  function OrderByAtAndD(events: seq<Event>): (r: seq<Event>)
    ensures Sorted(r) && multiset(r) == multiset(events)
  {
    if events == [] then []
    else
      assert events == [events[0]] + events[1..];
      Insert(events[0], OrderByAtAndD(events[1..]))
  }

  function Sum(events: seq<Event>): int {
    if events == [] then 0 else Sum(events[..|events| - 1]) + events[|events| - 1].d
  }

  function InFlight(events: seq<Event>, i: nat): int
    requires i < |events|
  {
    Sum(events[..i + 1])
  }

  /** `sum(d) over (order by at, d rows unbounded preceding)` */
  function Running(events: seq<Event>): (rows: seq<Row>)
    ensures |rows| == |events|
    ensures forall i :: 0 <= i < |rows| ==> rows[i] == Row(events[i].at, InFlight(events, i))
  {
    if events == [] then []
    else
      var init := events[..|events| - 1];
      assert forall i :: 0 <= i < |init| ==> InFlight(events, i) == InFlight(init, i) by {
        forall i | 0 <= i < |init| ensures InFlight(events, i) == InFlight(init, i) {
          assert events[..i + 1] == init[..i + 1];
        }
      }
      assert events[..|events|] == events;
      Running(init) + [Row(events[|events| - 1].at, Sum(events))]
  }

  /** `order by in_flight desc, at limit 1` */
  function First(rows: seq<Row>): (r: Row)
    requires rows != []
    ensures r in rows
    ensures forall x :: x in rows ==> x.inFlight <= r.inFlight && (x.inFlight == r.inFlight ==> r.at <= x.at)
  {
    assert rows == [rows[0]] + rows[1..];
    if |rows| == 1 then rows[0]
    else
      var r := First(rows[1..]);
      if rows[0].inFlight > r.inFlight || (rows[0].inFlight == r.inFlight && rows[0].at <= r.at) then rows[0] else r
  }

  // ------------------------------------------------------------------
  // Prefix sums are interval coverage
  // ------------------------------------------------------------------

  /** The sum of the events up to and including instant `t`. */
  function SumUpTo(events: seq<Event>, t: int): int {
    if events == [] then 0 else (if events[0].at <= t then events[0].d else 0) + SumUpTo(events[1..], t)
  }

  lemma {:induction false} SumUpToConcat(a: seq<Event>, b: seq<Event>, t: int)
    ensures SumUpTo(a + b, t) == SumUpTo(a, t) + SumUpTo(b, t)
  {
    if a == [] {
      assert a + b == b;
    } else {
      assert (a + b)[1..] == a[1..] + b;
      SumUpToConcat(a[1..], b, t);
    }
  }

  lemma {:induction false} SumUpToPermutation(a: seq<Event>, b: seq<Event>, t: int)
    requires multiset(a) == multiset(b)
    ensures SumUpTo(a, t) == SumUpTo(b, t)
  {
    if a == [] {
      SameMembers(a, b);
    } else {
      var k := TakeOut(a, b);
      SumUpToPermutation(a[1..], b[..k] + b[k + 1..], t);
      SumUpToConcat(b[..k], b[k + 1..], t);
      SumUpToConcat(b[..k], [b[k]] + b[k + 1..], t);
    }
  }

  lemma {:induction false} SumUpToAll(events: seq<Event>, t: int)
    requires forall x :: x in events ==> x.at <= t
    ensures SumUpTo(events, t) == Sum(events)
  {
    if events != [] {
      var init, last := events[..|events| - 1], events[|events| - 1];
      assert events == init + [last];
      SumUpToAll(init, t);
      SumUpToConcat(init, [last], t);
      assert SumUpTo([last], t) == last.d;
    }
  }

  lemma {:induction false} SumUpToNone(events: seq<Event>, t: int)
    requires forall x :: x in events ==> x.at > t
    ensures SumUpTo(events, t) == 0
  {
    if events != [] {
      SumUpToNone(events[1..], t);
    }
  }

  /** Up to `t`, starts minus ends is what covers `t` less what is inverted there. */
  lemma {:induction false} SumUpToIsCoverage(runs: seq<Run>, t: int)
    ensures SumUpTo(Starts(runs) + Ends(runs), t) == Covering(runs, t) - Inverted(runs, t)
  {
    SumUpToConcat(Starts(runs), Ends(runs), t);
    if runs != [] {
      SumUpToIsCoverage(runs[1..], t);
      SumUpToConcat(Starts(runs[1..]), Ends(runs[1..]), t);
    }
  }

  lemma {:induction false} EventInstants(runs: seq<Run>, x: Event)
    ensures x in Starts(runs) + Ends(runs) ==> (x.d == 1 || x.d == -1) && IsEventInstant(runs, x.at)
    ensures forall t :: IsEventInstant(runs, t) ==> exists y :: y in Starts(runs) + Ends(runs) && y.at == t
  {
    if runs != [] {
      EventInstants(runs[1..], x);
      assert runs == [runs[0]] + runs[1..];
      assert runs[0] in runs;
      forall t | IsEventInstant(runs, t) ensures exists y :: y in Starts(runs) + Ends(runs) && y.at == t {
        if t == runs[0].start {
          assert Event(t, 1) in Starts(runs);
        } else if t == runs[0].end {
          assert Event(t, -1) in Ends(runs);
        } else {
          assert IsEventInstant(runs[1..], t);
          var y :| y in Starts(runs[1..]) + Ends(runs[1..]) && y.at == t;
          assert y in Starts(runs) + Ends(runs);
        }
      }
    }
  }

  /** The last event at an instant carries the level there. */
  lemma PrefixIsLevel(events: seq<Event>, i: nat)
    requires Sorted(events) && i < |events|
    requires i + 1 < |events| ==> events[i].at < events[i + 1].at
    ensures InFlight(events, i) == SumUpTo(events, events[i].at)
  {
    var t := events[i].at;
    assert events == events[..i + 1] + events[i + 1..];
    SumUpToConcat(events[..i + 1], events[i + 1..], t);
    SumUpToAll(events[..i + 1], t);
    SumUpToNone(events[i + 1..], t);
  }

  /** Every level is carried by the last event not after `t`. */
  lemma {:induction false} LevelIsPrefix(events: seq<Event>, t: int) returns (i: nat)
    requires Sorted(events)
    requires exists x :: x in events && x.at <= t
    ensures i < |events| && events[i].at <= t && (i + 1 < |events| ==> t < events[i + 1].at)
    ensures InFlight(events, i) == SumUpTo(events, t)
  {
    i := 0;
    var x :| x in events && x.at <= t;
    while i + 1 < |events| && events[i + 1].at <= t
      invariant i < |events| && events[i].at <= t
    {
      i := i + 1;
    }
    assert events == events[..i + 1] + events[i + 1..];
    SumUpToConcat(events[..i + 1], events[i + 1..], t);
    SumUpToAll(events[..i + 1], t);
    SumUpToNone(events[i + 1..], t);
  }

  ghost function Net(runs: seq<Run>): int -> int {
    t => Covering(runs, t) - Inverted(runs, t)
  }

  ghost predicate EventsOf(events: seq<Event>, runs: seq<Run>) {
    Sorted(events) && multiset(events) == multiset(Starts(runs) + Ends(runs))
  }

  lemma EventsOfFacts(runs: seq<Run>, events: seq<Event>)
    requires EventsOf(events, runs)
    ensures forall x :: x in events ==> (x.d == 1 || x.d == -1) && IsEventInstant(runs, x.at)
    ensures forall t :: IsEventInstant(runs, t) ==> exists x :: x in events && x.at == t
    ensures forall t :: SumUpTo(events, t) == Net(runs)(t)
    ensures runs != [] ==> events != []
  {
    var all := Starts(runs) + Ends(runs);
    SameMembers(events, all);
    forall x | x in events ensures (x.d == 1 || x.d == -1) && IsEventInstant(runs, x.at) {
      EventInstants(runs, x);
    }
    EventInstants(runs, Event(0, 0));
    forall t ensures SumUpTo(events, t) == Net(runs)(t) {
      SumUpToPermutation(events, all, t);
      SumUpToIsCoverage(runs, t);
    }
    if runs != [] {
      assert Event(runs[0].start, 1) in all;
    }
  }

  /** No row of the query is above `r`, and none as high comes before it. */
  ghost predicate IsFirstRow(events: seq<Event>, r: Row) {
    forall j :: 0 <= j < |events| ==>
      InFlight(events, j) <= r.inFlight && (InFlight(events, j) == r.inFlight ==> r.at <= events[j].at)
  }

  lemma LevelBelow(events: seq<Event>, r: Row, t: int)
    requires Sorted(events) && IsFirstRow(events, r) && r.inFlight >= 0
    ensures SumUpTo(events, t) <= r.inFlight
    ensures t < r.at && (r.inFlight > 0 || exists x :: x in events && x.at == t) ==> SumUpTo(events, t) < r.inFlight
  {
    if exists x :: x in events && x.at <= t {
      var j := LevelIsPrefix(events, t);
    } else {
      SumUpToNone(events, t);
    }
  }

  lemma FirstIsFirstRow(events: seq<Event>) returns (i: nat)
    requires events != []
    ensures i < |events| && First(Running(events)) == Row(events[i].at, InFlight(events, i))
    ensures IsFirstRow(events, First(Running(events)))
  {
    var rows := Running(events);
    i :| 0 <= i < |rows| && rows[i] == First(rows);
    forall j | 0 <= j < |events|
      ensures InFlight(events, j) <= First(rows).inFlight
      ensures InFlight(events, j) == First(rows).inFlight ==> First(rows).at <= events[j].at
    {
      assert rows[j] in rows;
    }
  }

  /** The first row of the query is the peak of coverage less inversions, however
      ties were ordered. */
  lemma QueryFindsPeak(runs: seq<Run>, events: seq<Event>)
    requires runs != [] && EventsOf(events, runs)
    ensures events != []
    ensures var r := First(Running(events)); IsPeak(Instants(runs), Net(runs), r.at, r.inFlight)
  {
    EventsOfFacts(runs, events);
    var r := First(Running(events));
    var i := FirstIsFirstRow(events);
    LastRowIsZero(runs, events);
    PeakRowIsLastOfItsInstant(events, i);
    PrefixIsLevel(events, i);
    assert events[i] in events;
    forall t ensures Net(runs)(t) <= r.inFlight
             ensures t < r.at && (r.inFlight > 0 || IsEventInstant(runs, t)) ==> Net(runs)(t) < r.inFlight {
      LevelBelow(events, r, t);
    }
  }

  lemma LastRowIsZero(runs: seq<Run>, events: seq<Event>)
    requires events != [] && multiset(events) == multiset(Starts(runs) + Ends(runs))
    ensures Row(events[|events| - 1].at, 0) in Running(events)
  {
    var rows := Running(events);
    assert rows[|rows| - 1].inFlight == Sum(events) by {
      assert events[..|events|] == events;
    }
    var t := Latest(events);
    SumUpToAll(events, t);
    SumUpToPermutation(events, Starts(runs) + Ends(runs), t);
    SameMembers(events, Starts(runs) + Ends(runs));
    BalancedAfterAll(runs, t);
    assert rows[|rows| - 1] in rows;
  }

  ghost function Latest(events: seq<Event>): (t: int)
    ensures forall x :: x in events ==> x.at <= t
  {
    if events == [] then 0
    else
      assert events == [events[0]] + events[1..];
      var t := Latest(events[1..]); if events[0].at < t then t else events[0].at
  }

  lemma {:induction false} BalancedAfterAll(runs: seq<Run>, t: int)
    requires forall x :: x in Starts(runs) + Ends(runs) ==> x.at <= t
    ensures SumUpTo(Starts(runs) + Ends(runs), t) == 0
  {
    SumUpToConcat(Starts(runs), Ends(runs), t);
    if runs != [] {
      assert Event(runs[0].start, 1) in Starts(runs) && Event(runs[0].end, -1) in Ends(runs);
      forall x | x in Starts(runs[1..]) + Ends(runs[1..]) ensures x.at <= t {
        assert x in Starts(runs) + Ends(runs);
      }
      BalancedAfterAll(runs[1..], t);
      SumUpToConcat(Starts(runs[1..]), Ends(runs[1..]), t);
    }
  }

  /** A maximal row is a start, and no start follows it at the same instant. */
  lemma PeakRowIsLastOfItsInstant(events: seq<Event>, i: nat)
    requires Sorted(events) && i < |events|
    requires forall x :: x in events ==> x.d == 1 || x.d == -1
    requires forall j :: 0 <= j < |events| ==> InFlight(events, j) <= InFlight(events, i)
    requires InFlight(events, i) >= 0
    ensures i + 1 < |events| ==> events[i].at < events[i + 1].at
  {
    assert events[..i + 1][..i] == events[..i];
    assert InFlight(events, i) == Sum(events[..i]) + events[i].d && events[i] in events;
    assert events[i].d == 1 by {
      if i > 0 {
        assert InFlight(events, i - 1) <= InFlight(events, i);
      }
    }
    if i + 1 < |events| {
      assert events[..i + 2][..i + 1] == events[..i + 1];
      assert InFlight(events, i + 1) <= InFlight(events, i);
    }
  }

  // ------------------------------------------------------------------
  // When the measured peak is the true peak of coverage
  // ------------------------------------------------------------------

  lemma {:induction false} NoInversions(runs: seq<Run>, t: int)
    requires forall r :: r in runs ==> r.start <= r.end
    ensures Inverted(runs, t) == 0
  {
    if runs != [] {
      NoInversions(runs[1..], t);
    }
  }

  ghost function Coverage(runs: seq<Run>): int -> int {
    t => Covering(runs, t)
  }

  /** With start <= end throughout, the query returns the most runs in flight at any
      instant and the earliest such instant. */
  lemma PeakIsCoverage(runs: seq<Run>, at: int, peak: int)
    requires IsPeak(Instants(runs), Net(runs), at, peak)
    requires forall r :: r in runs ==> r.start <= r.end
    ensures IsPeak(Instants(runs), Coverage(runs), at, peak)
  {
    forall t ensures Net(runs)(t) == Coverage(runs)(t) {
      NoInversions(runs, t);
    }
  }

  /** In general the reported number is the true maximum exactly when some busiest
      instant lies in no inverted run. */
  lemma PeakIsTrueMaximumIff(runs: seq<Run>, at: int, peak: int, busiest: int)
    requires IsPeak(Instants(runs), Net(runs), at, peak)
    requires forall t :: Covering(runs, t) <= Covering(runs, busiest)
    ensures peak == Covering(runs, busiest) <==>
      exists t :: Covering(runs, t) == Covering(runs, busiest) && Inverted(runs, t) == 0
  {
    if t :| Covering(runs, t) == Covering(runs, busiest) && Inverted(runs, t) == 0 {
      assert Net(runs)(t) <= peak;
    }
    assert Net(runs)(at) == peak && Covering(runs, at) <= Covering(runs, busiest);
  }

  /** One inverted record hides a genuine run: (2, 3) with (4, 1) peaks at 0. */
  lemma InvertedRunHidesPeak()
    ensures var runs := [Run(2, 3), Run(4, 1)];
      Covering(runs, 2) == 1 && forall at, peak :: IsPeak(Instants(runs), Net(runs), at, peak) ==> peak == 0
  {
    var runs := [Run(2, 3), Run(4, 1)];
    assert runs[1..] == [Run(4, 1)];
    forall t ensures Net(runs)(t) <= 0 && Net(runs)(5) == 0 {
      assert Covering(runs, t) == (if 2 <= t < 3 then 1 else 0) + Covering(runs[1..], t);
      assert Inverted(runs, t) == Inverted(runs[1..], t);
    }
  }

  /** Zero-length runs change no level. */
  lemma {:induction false} ZeroLengthRunsAddNothing(runs: seq<Run>, t: int)
    ensures var rest := DropZeroLength(runs);
      Covering(rest, t) == Covering(runs, t) && Inverted(rest, t) == Inverted(runs, t)
  {
    if runs != [] {
      ZeroLengthRunsAddNothing(runs[1..], t);
      var tail := DropZeroLength(runs[1..]);
      if runs[0].start == runs[0].end {
        assert DropZeroLength(runs) == tail;
      } else {
        assert DropZeroLength(runs) == [runs[0]] + tail && ([runs[0]] + tail)[1..] == tail;
      }
    }
  }

  function DropZeroLength(runs: seq<Run>): seq<Run> {
    if runs == [] then []
    else (if runs[0].start == runs[0].end then [] else [runs[0]]) + DropZeroLength(runs[1..])
  }

  // ------------------------------------------------------------------
  // compute_workload_profile: which rows are measured
  // ------------------------------------------------------------------

  const REAL_SOURCES := ["imported", "live"]

  predicate Scoped(row: RunRow, jobNames: Option<set<string>>, source: string) {
    row.source == source && (jobNames.Some? ==> row.jobName in jobNames.value)
  }

  predicate HasRows(rows: seq<RunRow>, jobNames: Option<set<string>>, source: string) {
    exists row :: row in rows && Scoped(row, jobNames, source)
  }

  /** The finished runs of one source and scope. */
  function Finished(rows: seq<RunRow>, jobNames: Option<set<string>>, source: string): seq<Run> {
    if rows == [] then []
    else
      var row := rows[0];
      (if Scoped(row, jobNames, source) && row.startTime.Some? && row.endTime.Some?
       then [Run(row.startTime.value, row.endTime.value)] else [])
      + Finished(rows[1..], jobNames, source)
  }

  /** `count(*)`: the rows in scope, finished or not. */
  function CountScoped(rows: seq<RunRow>, jobNames: Option<set<string>>, source: string): nat {
    if rows == [] then 0
    else (if Scoped(rows[0], jobNames, source) then 1 else 0) + CountScoped(rows[1..], jobNames, source)
  }

  /** A run from this source, of one of the jobs, or of any job if none are named. */
  ghost function InScope(jobNames: Option<set<string>>, source: string): RunRow -> bool {
    (row: RunRow) => row.source == source && (jobNames == None || row.jobName in jobNames.value)
  }

  lemma HasRowsIff(rows: seq<RunRow>, jobNames: Option<set<string>>, source: string)
    ensures HasRows(rows, jobNames, source) <==> Positions(rows, InScope(jobNames, source)) != {}
  {
    if HasRows(rows, jobNames, source) {
      var i :| 0 <= i < |rows| && Scoped(rows[i], jobNames, source);
      assert i in Positions(rows, InScope(jobNames, source));
    }
    if i :| i in Positions(rows, InScope(jobNames, source)) {
      assert rows[i] in rows && Scoped(rows[i], jobNames, source);
    }
  }

  lemma {:induction false} ScopedAreCounted(rows: seq<RunRow>, jobNames: Option<set<string>>, source: string)
    ensures CountScoped(rows, jobNames, source) == |Positions(rows, InScope(jobNames, source))|
  {
    PositionsStep(rows, InScope(jobNames, source));
    if rows != [] {
      ScopedAreCounted(rows[1..], jobNames, source);
    }
  }

  // ------------------------------------------------------------------
  // The measure in terms of the rows
  // ------------------------------------------------------------------

  /** In scope, with both times known. */
  ghost function IsFinished(jobNames: Option<set<string>>, source: string): RunRow -> bool {
    row => InScope(jobNames, source)(row) && row.startTime.Some? && row.endTime.Some?
  }

  /** In flight at `t`. */
  ghost function CoversAt(jobNames: Option<set<string>>, source: string, t: int): RunRow -> bool {
    row => IsFinished(jobNames, source)(row) && row.startTime.value <= t < row.endTime.value
  }

  /** Recorded as ending before it starts, with `t` in the gap. */
  ghost function InvertedAt(jobNames: Option<set<string>>, source: string, t: int): RunRow -> bool {
    row => IsFinished(jobNames, source)(row) && row.endTime.value <= t < row.startTime.value
  }

  ghost function RowCoverage(rows: seq<RunRow>, jobNames: Option<set<string>>, source: string): int -> int {
    t => |Positions(rows, CoversAt(jobNames, source, t))|
  }

  ghost function RowLevel(rows: seq<RunRow>, jobNames: Option<set<string>>, source: string): int -> int {
    t => |Positions(rows, CoversAt(jobNames, source, t))| - |Positions(rows, InvertedAt(jobNames, source, t))|
  }

  /** The instants at which a finished row starts or ends. */
  ghost function RowInstants(rows: seq<RunRow>, jobNames: Option<set<string>>, source: string): iset<int> {
    iset t | exists i :: 0 <= i < |rows| && IsFinished(jobNames, source)(rows[i]) &&
                         (rows[i].startTime == Some(t) || rows[i].endTime == Some(t))
  }

  /** Every finished row ends no earlier than it starts. */
  ghost predicate NoneInverted(rows: seq<RunRow>, jobNames: Option<set<string>>, source: string) {
    forall i :: 0 <= i < |rows| && IsFinished(jobNames, source)(rows[i]) ==>
      rows[i].startTime.value <= rows[i].endTime.value
  }

  /** What the query measures, as the rows have it: those in flight at an instant, less
      the inverted ones around it. */
  lemma {:induction false} LevelCountsRows(rows: seq<RunRow>, jobNames: Option<set<string>>, source: string, t: int)
    ensures var runs := Finished(rows, jobNames, source);
      && Covering(runs, t) == |Positions(rows, CoversAt(jobNames, source, t))|
      && Inverted(runs, t) == |Positions(rows, InvertedAt(jobNames, source, t))|
  {
    PositionsStep(rows, CoversAt(jobNames, source, t));
    PositionsStep(rows, InvertedAt(jobNames, source, t));
    if rows != [] {
      LevelCountsRows(rows[1..], jobNames, source, t);
      FinishedFirst(rows, jobNames, source);
    }
  }

  lemma FinishedFirst(rows: seq<RunRow>, jobNames: Option<set<string>>, source: string)
    requires rows != []
    ensures var runs, rest := Finished(rows, jobNames, source), Finished(rows[1..], jobNames, source);
      if IsFinished(jobNames, source)(rows[0])
      then runs != [] && runs[0] == Run(rows[0].startTime.value, rows[0].endTime.value) && runs[1..] == rest
      else runs == rest
  {
    var row, rest := rows[0], Finished(rows[1..], jobNames, source);
    assert InScope(jobNames, source)(row) == Scoped(row, jobNames, source);
    assert IsFinished(jobNames, source)(row) ==>
      Finished(rows, jobNames, source) == [Run(row.startTime.value, row.endTime.value)] + rest;
  }

  lemma {:induction false} FinishedMembers(rows: seq<RunRow>, jobNames: Option<set<string>>, source: string, r: Run)
    ensures r in Finished(rows, jobNames, source) <==>
      exists i :: 0 <= i < |rows| && IsFinished(jobNames, source)(rows[i]) &&
                  r == Run(rows[i].startTime.value, rows[i].endTime.value)
  {
    if rows != [] {
      FinishedMembers(rows[1..], jobNames, source, r);
      FinishedFirst(rows, jobNames, source);
      var runs, rest := Finished(rows, jobNames, source), Finished(rows[1..], jobNames, source);
      assert runs != [] ==> runs == [runs[0]] + runs[1..];
      if r in rest {
        var i :| 0 <= i < |rows[1..]| && IsFinished(jobNames, source)(rows[1..][i]) &&
                 r == Run(rows[1..][i].startTime.value, rows[1..][i].endTime.value);
        assert rows[i + 1] == rows[1..][i];
      }
      if i :| 0 < i < |rows| && IsFinished(jobNames, source)(rows[i]) &&
              r == Run(rows[i].startTime.value, rows[i].endTime.value) {
        assert rows[1..][i - 1] == rows[i];
      }
    }
  }

  lemma SameInstants(rows: seq<RunRow>, jobNames: Option<set<string>>, source: string)
    ensures Instants(Finished(rows, jobNames, source)) == RowInstants(rows, jobNames, source)
  {
    var runs := Finished(rows, jobNames, source);
    forall t ensures t in Instants(runs) <==> t in RowInstants(rows, jobNames, source) {
      if t in Instants(runs) {
        var r :| r in runs && (t == r.start || t == r.end);
        FinishedMembers(rows, jobNames, source, r);
      }
      if i :| 0 <= i < |rows| && IsFinished(jobNames, source)(rows[i]) &&
              (rows[i].startTime == Some(t) || rows[i].endTime == Some(t)) {
        var r := Run(rows[i].startTime.value, rows[i].endTime.value);
        FinishedMembers(rows, jobNames, source, r);
        assert r in runs;
      }
    }
  }

  lemma SameLevels(instants: iset<int>, a: int -> int, b: int -> int, at: int, peak: int)
    requires IsPeak(instants, a, at, peak) && forall t :: a(t) == b(t)
    ensures IsPeak(instants, b, at, peak)
  {
    forall t ensures b(t) <= peak && (t < at && (peak > 0 || t in instants) ==> b(t) < peak) {
      assert a(t) == b(t);
    }
  }

  /** The peak over the runs is the peak over the rows. */
  lemma PeakOverRows(rows: seq<RunRow>, jobNames: Option<set<string>>, source: string, at: int, peak: int)
    requires var runs := Finished(rows, jobNames, source);
      && IsPeak(Instants(runs), Net(runs), at, peak)
      && ((forall r :: r in runs ==> r.start <= r.end) ==> IsPeak(Instants(runs), Coverage(runs), at, peak))
    ensures var instants := RowInstants(rows, jobNames, source);
      && IsPeak(instants, RowLevel(rows, jobNames, source), at, peak)
      && (NoneInverted(rows, jobNames, source) ==> IsPeak(instants, RowCoverage(rows, jobNames, source), at, peak))
  {
    var runs, instants := Finished(rows, jobNames, source), RowInstants(rows, jobNames, source);
    SameInstants(rows, jobNames, source);
    forall t ensures Net(runs)(t) == RowLevel(rows, jobNames, source)(t)
             ensures Coverage(runs)(t) == RowCoverage(rows, jobNames, source)(t) {
      LevelCountsRows(rows, jobNames, source, t);
    }
    SameLevels(instants, Net(runs), RowLevel(rows, jobNames, source), at, peak);
    if NoneInverted(rows, jobNames, source) {
      forall r | r in runs ensures r.start <= r.end {
        FinishedMembers(rows, jobNames, source, r);
      }
      SameLevels(instants, Coverage(runs), RowCoverage(rows, jobNames, source), at, peak);
    }
  }

  lemma NothingFinished(rows: seq<RunRow>, jobNames: Option<set<string>>, source: string)
    ensures Finished(rows, jobNames, source) == [] <==> Positions(rows, IsFinished(jobNames, source)) == {}
  {
    var runs := Finished(rows, jobNames, source);
    if runs != [] {
      FinishedMembers(rows, jobNames, source, runs[0]);
      var i :| 0 <= i < |rows| && IsFinished(jobNames, source)(rows[i]);
      assert i in Positions(rows, IsFinished(jobNames, source));
    }
    if i :| i in Positions(rows, IsFinished(jobNames, source)) {
      FinishedMembers(rows, jobNames, source, Run(rows[i].startTime.value, rows[i].endTime.value));
    }
  }

  /** At most as many runs are measured as rows are counted. */
  lemma {:induction false} FinishedAreScoped(rows: seq<RunRow>, jobNames: Option<set<string>>, source: string)
    ensures |Finished(rows, jobNames, source)| <= CountScoped(rows, jobNames, source)
  {
    if rows != [] {
      FinishedAreScoped(rows[1..], jobNames, source);
    }
  }

  lemma {:induction false} CoverageIsBounded(runs: seq<Run>, t: int)
    ensures Covering(runs, t) <= |runs|
  {
    if runs != [] {
      CoverageIsBounded(runs[1..], t);
    }
  }

  datatype Profile = Profile(source: Option<string>, totalRuns: nat, peak: Option<Row>)

  /** The first real source, in order of preference, that has rows in scope. */
  method ChooseSource(rows: seq<RunRow>, jobNames: Option<set<string>>, sources: set<string>)
    returns (source: Option<string>)
    ensures source == None ==> forall s :: s in REAL_SOURCES && s in sources ==> !HasRows(rows, jobNames, s)
    ensures source.Some? ==>
      && source.value in REAL_SOURCES && source.value in sources && HasRows(rows, jobNames, source.value)
      && (source.value == "live" && "imported" in sources ==> !HasRows(rows, jobNames, "imported"))
  {
    assert REAL_SOURCES[0] == "imported" && REAL_SOURCES[1] == "live";
    for i := 0 to |REAL_SOURCES|
      invariant forall j :: 0 <= j < i && REAL_SOURCES[j] in sources ==> !HasRows(rows, jobNames, REAL_SOURCES[j])
    {
      if REAL_SOURCES[i] in sources && HasRows(rows, jobNames, REAL_SOURCES[i]) {
        return Some(REAL_SOURCES[i]);
      }
    }
    return None;
  }

  lemma ChosenByPositions(rows: seq<RunRow>, jobNames: Option<set<string>>, sources: set<string>, source: Option<string>)
    requires source == None ==> forall s :: s in REAL_SOURCES && s in sources ==> !HasRows(rows, jobNames, s)
    requires source.Some? ==>
      && source.value in REAL_SOURCES && source.value in sources && HasRows(rows, jobNames, source.value)
      && (source.value == "live" && "imported" in sources ==> !HasRows(rows, jobNames, "imported"))
    ensures source == None <==> forall s :: s in REAL_SOURCES && s in sources ==> Positions(rows, InScope(jobNames, s)) == {}
    ensures source.Some? ==>
      && (source.value == "imported" || source.value == "live") && Positions(rows, InScope(jobNames, source.value)) != {}
      && (source.value == "live" && "imported" in sources ==> Positions(rows, InScope(jobNames, "imported")) == {})
  {
    forall s: string ensures HasRows(rows, jobNames, s) <==> Positions(rows, InScope(jobNames, s)) != {} {
      HasRowsIff(rows, jobNames, s);
    }
  }

  /** The source, the run count and the concurrency figures of the profile. */
  method ComputeWorkloadProfile(rows: seq<RunRow>, jobNames: Option<set<string>>, sources: set<string>)
    returns (profile: Profile)
    ensures profile.source == None <==>
      jobNames == Some({})
      || forall s :: s in REAL_SOURCES && s in sources ==> Positions(rows, InScope(jobNames, s)) == {}
    ensures profile.source.Some? ==> var s := profile.source.value;
      && s in sources && (s == "imported" || s == "live") && Positions(rows, InScope(jobNames, s)) != {}
      && (s == "live" && "imported" in sources ==> Positions(rows, InScope(jobNames, "imported")) == {})
      && (profile.peak == None <==> Positions(rows, IsFinished(jobNames, s)) == {})
    ensures profile.source == None ==> profile.totalRuns == 0 && profile.peak == None
    ensures profile.source.Some? ==>
      profile.totalRuns == |Positions(rows, InScope(jobNames, profile.source.value))| > 0
    ensures profile.peak.Some? ==> profile.peak.value.inFlight <= profile.totalRuns
    ensures profile.peak.Some? ==>
      var s, Row(at, peak) := profile.source.value, profile.peak.value;
      && IsPeak(RowInstants(rows, jobNames, s), RowLevel(rows, jobNames, s), at, peak)
      && (NoneInverted(rows, jobNames, s) ==>
          IsPeak(RowInstants(rows, jobNames, s), RowCoverage(rows, jobNames, s), at, peak))
  {
    if jobNames == Some({}) {
      return Profile(None, 0, None);
    }
    var source := ChooseSource(rows, jobNames, sources);
    ChosenByPositions(rows, jobNames, sources, source);
    if source == None {
      return Profile(None, 0, None);
    }
    var totalRuns := CountScoped(rows, jobNames, source.value);
    var runs := Finished(rows, jobNames, source.value);
    var peak := PeakConcurrency(runs);
    ScopedAreCounted(rows, jobNames, source.value);
    FinishedAreScoped(rows, jobNames, source.value);
    NothingFinished(rows, jobNames, source.value);
    if peak.Some? {
      CoverageIsBounded(runs, peak.value.at);
      PeakOverRows(rows, jobNames, source.value, peak.value.at, peak.value.inFlight);
    }
    return Profile(source, totalRuns, peak);
  }

  /** The concurrency query over the finished runs. */
  method PeakConcurrency(runs: seq<Run>) returns (peak: Option<Row>)
    ensures peak == None <==> runs == []
    ensures peak.Some? ==>
      && IsPeak(Instants(runs), Net(runs), peak.value.at, peak.value.inFlight)
      && ((forall r :: r in runs ==> r.start <= r.end)
          ==> IsPeak(Instants(runs), Coverage(runs), peak.value.at, peak.value.inFlight))
  {
    var events := OrderByAtAndD(Starts(runs) + Ends(runs));
    if events == [] {
      SameMembers(events, Starts(runs) + Ends(runs));
      return None;
    }
    SameMembers(events, Starts(runs) + Ends(runs));
    QueryFindsPeak(runs, events);
    var first := First(Running(events));
    if forall r :: r in runs ==> r.start <= r.end {
      PeakIsCoverage(runs, first.at, first.inFlight);
    }
    return Some(first);
  }
}
