/** The assessment report from selection to roll-up
    (autosys/analysis/complexity.py, `build_report`). */
module Report {
  import opened OperationalRisk
  import opened Options
  import opened Permutations
  import opened ReportOrder
  import opened RiskRollup
  import opened Sorting

  /** What is known about one job's operation: its live status, its run history and
      where that history came from. */
  datatype Evidence = Evidence(status: string, stats: Option<RunStats>, origin: Option<string>)

  const NO_EVIDENCE := Evidence("INACTIVE", None, None)

  function EvidenceOf(evidence: map<string, Evidence>, name: string): Evidence {
    if name in evidence then evidence[name] else NO_EVIDENCE
  }

  /** `risk_sources.get(name) or ("observed" if name in run_stats else "none")` */
  function RiskSource(e: Evidence): string {
    if e.origin.Some? && e.origin.value != "" then e.origin.value
    else if e.stats.Some? then "observed" else "none"
  }

  /** The row as scored on its own, before the roll-up.  Simulated history carries no
      calendar window. */
  function Assess(r: JobRow, evidence: map<string, Evidence>): Assessment {
    var e := EvidenceOf(evidence, r.jobName);
    Assessment(r, Score(e.status, e.stats, MIN_OBSERVED_RUNS, MIN_OBSERVED_WINDOW_DAYS, e.origin != Some("simulated")),
               RiskSource(e))
  }

  /** When a row is HIGH on its own, and when there is too little to judge it by: ten
      runs over seven days, or only ten runs if the history is simulated, unless all of
      two or more failed. */
  lemma AssessMeans(r: JobRow, evidence: map<string, Evidence>)
    ensures Assess(r, evidence).row == r
    ensures var e := EvidenceOf(evidence, r.jobName);
      && (Assess(r, evidence).risk == NO_DATA <==>
            e.stats == None || !EnoughToJudge(e.stats.value, 10, 7, e.origin != Some("simulated")))
      && (Assess(r, evidence).riskSource == "observed" <==>
            e.origin == Some("observed") || (e.stats.Some? && (e.origin == None || e.origin == Some(""))))
      && (Assess(r, evidence).riskSource == "none" <==>
            e.origin == Some("none") || (e.stats == None && (e.origin == None || e.origin == Some(""))))
      && (Assess(r, evidence).risk == HIGH <==>
            && e.stats.Some? && EnoughToJudge(e.stats.value, 10, 7, e.origin != Some("simulated"))
            && IsHigh(e.status, e.stats.value))
  {
    var e := EvidenceOf(evidence, r.jobName);
    ScoreMeans(e.status, e.stats, 10, 7, e.origin != Some("simulated"));
  }

  function AssessAll(rows: seq<JobRow>, evidence: map<string, Evidence>): (results: seq<Assessment>)
    ensures |results| == |rows| && forall i :: 0 <= i < |rows| ==> results[i] == Assess(rows[i], evidence)
  {
    if rows == [] then [] else [Assess(rows[0], evidence)] + AssessAll(rows[1..], evidence)
  }

  /** The rows kept by a box pattern: the matching boxes and their children. */
  function Select(rows: seq<JobRow>, boxNames: set<string>): (kept: seq<JobRow>)
    ensures forall r :: r in kept <==> r in rows && (r.jobName in boxNames || r.boxName in boxNames)
  {
    if rows == [] then []
    else
      assert rows == [rows[0]] + rows[1..];
      var kept := Select(rows[1..], boxNames);
      if rows[0].jobName in boxNames || rows[0].boxName in boxNames then [rows[0]] + kept else kept
  }

  lemma {:induction false} SelectIsUnique(rows: seq<JobRow>, boxNames: set<string>)
    requires UniqueNames(rows)
    ensures UniqueNames(Select(rows, boxNames))
  {
    if rows != [] {
      var kept := Select(rows[1..], boxNames);
      SelectIsUnique(rows[1..], boxNames);
      forall i | 0 <= i < |kept| ensures kept[i].jobName != rows[0].jobName {
        OtherNames(rows, kept[i]);
      }
    }
  }

  lemma OtherNames(rows: seq<JobRow>, r: JobRow)
    requires UniqueNames(rows) && rows != [] && r in rows[1..]
    ensures r.jobName != rows[0].jobName
  {
    var j :| 0 <= j < |rows[1..]| && rows[1..][j] == r;
    assert ByName(rows[0]) != ByName(rows[j + 1]);
  }

  /** Rows reached from a top-level row come first, each before its children. */
  lemma ReachedRowsAreParentsFirst(rows: seq<JobRow>, ordered: seq<JobRow>, reached: nat, results: seq<Assessment>)
    requires UniqueNames(rows) && multiset(ordered) == multiset(rows) && reached <= |ordered|
    requires forall r :: r in ordered[..reached] <==> r in rows && Reached(rows, r)
    requires BoxesFirst(ordered[..reached])
    requires |results| == |ordered| && forall i :: 0 <= i < |ordered| ==> results[i].row == ordered[i]
    ensures ParentsFirst(results, reached)
  {
    SameMembers(ordered, rows);
    UniqueOrdered(rows, ordered);
    forall i, j | i < reached && IsChild(results, i, j) ensures i < j < reached {
      ChildIsLater(rows, ordered, reached, i, j);
    }
  }

  lemma UniqueOrdered(rows: seq<JobRow>, ordered: seq<JobRow>)
    requires UniqueNames(rows) && multiset(ordered) == multiset(rows)
    ensures UniqueNames(ordered)
  {
    SameMembers(ordered, rows);
    NoDupCarriesOver(rows, ordered);
    forall i, j | 0 <= i < j < |ordered| ensures ByName(ordered[i]) != ByName(ordered[j]) {
      if ordered[i].jobName == ordered[j].jobName {
        assert ordered[i] in ordered && ordered[j] in ordered;
        SameNameSameRow(rows, ordered[i], ordered[j]);
      }
    }
  }

  lemma ChildIsLater(rows: seq<JobRow>, ordered: seq<JobRow>, reached: nat, i: int, j: int)
    requires UniqueNames(rows) && UniqueNames(ordered) && reached <= |ordered| && forall r :: r in ordered ==> r in rows
    requires forall r :: r in ordered[..reached] <==> r in rows && Reached(rows, r)
    requires BoxesFirst(ordered[..reached])
    requires 0 <= i < reached && 0 <= j < |ordered| && ordered[j].boxName == ordered[i].jobName &&
        ordered[j].boxName != ""
    ensures i < j < reached
  {
    var walk := ordered[..reached];
    assert walk[i] in walk && ordered[j] in ordered;
    var depth: nat :| ReachedIn(rows, ordered[i], depth);
    ReachedVia(rows, ordered[j], ordered[i], depth + 1);
    var k := IndexIn(ordered, reached, ordered[j]);
    SameNameSameIndex(ordered, k, j);
    assert walk[j].boxName != "";
    PositionFacts(walk, walk[j].boxName, []);
    var p := Position(walk, walk[j].boxName);
    SameNameSameIndex(ordered, p, i);
  }

  /** A box pattern, in which '%' stands for any text within a line and every other
      character for itself. */
  predicate Like(pattern: string, text: string)
    decreases |pattern|, |text|
  {
    if pattern == "" then text == ""
    else if pattern[0] == '%' then
      Like(pattern[1..], text) || (text != "" && text[0] != '\n' && Like(pattern, text[1..]))
    else text != "" && text[0] == pattern[0] && Like(pattern[1..], text[1..])
  }

  predicate OneLine(text: string) {
    '\n' !in text
  }

  /** Without '%' a pattern matches itself only. */
  lemma {:induction false} LikeItself(pattern: string, text: string)
    requires '%' !in pattern
    ensures Like(pattern, text) <==> pattern == text
  {
    if pattern != "" && text != "" {
      assert pattern == [pattern[0]] + pattern[1..] && text == [text[0]] + text[1..];
      LikeItself(pattern[1..], text[1..]);
    }
  }

  /** Any other character in front matches itself in front. */
  lemma LikeLetter(c: char, rest: string, text: string)
    requires c != '%'
    ensures Like([c] + rest, text) <==> text != "" && text[0] == c && Like(rest, text[1..])
  {
    assert ([c] + rest)[1..] == rest;
  }

  /** A '%' takes nothing, or one more character. */
  lemma LikeStep(rest: string, text: string)
    ensures Like(['%'] + rest, text) <==>
      Like(rest, text) || (text != "" && text[0] != '\n' && Like(['%'] + rest, text[1..]))
  {
    assert (['%'] + rest)[1..] == rest;
  }

  lemma {:induction false} LikeTakes(rest: string, text: string) returns (j: nat)
    requires Like(['%'] + rest, text)
    ensures j <= |text| && OneLine(text[..j]) && Like(rest, text[j..])
  {
    LikeStep(rest, text);
    j := 0;
    if Like(rest, text) {
      TakeAndDrop(text, 0);
    } else {
      var i := LikeTakes(rest, text[1..]);
      Shifted(text, i);
      j := i + 1;
    }
  }

  lemma {:induction false} LikeGives(rest: string, text: string, j: nat)
    requires j <= |text| && OneLine(text[..j]) && Like(rest, text[j..])
    ensures Like(['%'] + rest, text)
  {
    LikeStep(rest, text);
    if j == 0 {
      assert text[0..] == text;
    } else {
      Shifted(text, j - 1);
      assert text[0] in text[..j];
      LikeGives(rest, text[1..], j - 1);
    }
  }

  lemma Shifted(text: string, i: nat)
    requires i < |text|
    ensures text[..i + 1] == [text[0]] + text[1..][..i] && text[i + 1..] == text[1..][i..]
  {
  }

  /** A '%' stands for any text within a line, the empty one included. */
  lemma LikeAnything(rest: string, text: string)
    ensures Like(['%'] + rest, text) <==>
      exists j :: 0 <= j <= |text| && OneLine(text[..j]) && Like(rest, text[j..])
  {
    if Like(['%'] + rest, text) {
      var j := LikeTakes(rest, text);
    } else if j :| 0 <= j <= |text| && OneLine(text[..j]) && Like(rest, text[j..]) {
      LikeGives(rest, text, j);
    }
  }

  /** The names of the boxes a pattern matches, both in lower case. */
  function BoxNames(rows: seq<JobRow>, pattern: string, lower: string -> string): (names: set<string>)
    ensures forall n :: n in names <==>
      exists r :: r in rows && r.jobName == n && r.jobType == "BOX" && Like(lower(pattern), lower(n))
  {
    set r | r in rows && r.jobType == "BOX" && Like(lower(pattern), lower(r.jobName)) :: r.jobName
  }

  /** The row is a box whose name is like the pattern, or in a box of such a name. */
  ghost predicate InBoxLike(rows: seq<JobRow>, r: JobRow, pattern: string, lower: string -> string) {
    exists b :: b in rows && b.jobType == "BOX" && Like(lower(pattern), lower(b.jobName)) &&
                (r.jobName == b.jobName || r.boxName == b.jobName)
  }

  /** The rows of the report: all of them without a pattern or with an empty one. */
  function Kept(allRows: seq<JobRow>, pattern: Option<string>, lower: string -> string): (kept: seq<JobRow>)
    ensures pattern == None || pattern.value == "" ==> kept == allRows
    ensures pattern.Some? && pattern.value != "" ==>
      forall r :: r in kept <==> r in allRows && InBoxLike(allRows, r, pattern.value, lower)
  {
    if pattern.Some? && pattern.value != "" then Select(allRows, BoxNames(allRows, pattern.value, lower)) else allRows
  }

  /** `ordered` is the report order of `rows`, the first `reached` in depth-first order. */
  ghost predicate InReportOrder(rows: seq<JobRow>, ordered: seq<JobRow>, reached: nat) {
    && multiset(ordered) == multiset(rows) && reached <= |ordered|
    && ordered[..reached] == Forest(rows, SortBy(Tops(rows), ByName), Names(rows))
    && SiblingsByName(ordered[..reached]) && SortedBy(ordered[reached..], ByName)
  }

  /** `results` are the assessed rows of `ordered`, rolled up by the reverse walk. */
  ghost predicate RolledOver(ordered: seq<JobRow>, evidence: map<string, Evidence>, allRows: seq<JobRow>,
                             byName: map<string, nat>, results: seq<Assessment>) {
    && Given(AssessAll(ordered, evidence), allRows, byName)
    && Walked(AssessAll(ordered, evidence), results, 0, allRows, byName)
  }

  /** `results` are the assessed rows in report order, rolled up by the reverse walk. */
  ghost predicate ReportVia(allRows: seq<JobRow>, pattern: Option<string>, lower: string -> string,
                            evidence: map<string, Evidence>, results: seq<Assessment>,
                            ordered: seq<JobRow>, reached: nat, byName: map<string, nat>) {
    InReportOrder(Kept(allRows, pattern, lower), ordered, reached) &&
        RolledOver(ordered, evidence, allRows, byName, results)
  }

  ghost predicate IsReport(allRows: seq<JobRow>, pattern: Option<string>, lower: string -> string,
                           evidence: map<string, Evidence>, results: seq<Assessment>) {
    exists ordered, reached, byName :: ReportVia(allRows, pattern, lower, evidence, results, ordered, reached, byName)
  }

  /** The report over the rows a pattern keeps (all rows without one). */
  method BuildReport(allRows: seq<JobRow>, pattern: Option<string>, lower: string -> string,
                     evidence: map<string, Evidence>)
    returns (results: array<Assessment>, ghost ordered: seq<JobRow>, ghost reached: nat)
    requires UniqueNames(allRows)
    ensures fresh(results) && IsReport(allRows, pattern, lower, evidence, results[..])
    ensures var rows := Kept(allRows, pattern, lower);
      && InReportOrder(rows, ordered, reached) && |ordered| == results.Length
      && (forall r :: r in ordered[..reached] <==> r in rows && Reached(rows, r))
    ensures var start := AssessAll(ordered, evidence);
      && SameRows(start, results[..]) && ParentsFirst(start, reached)
      && (forall i :: 0 <= i < results.Length && (i < reached || Settled(start, i)) ==> RolledUp(start, i, results[i]))
    ensures forall i :: 0 <= i < results.Length && !IsBox(results[i]) ==> results[i] == Assess(ordered[i], evidence)
  {
    var rows := Kept(allRows, pattern, lower);
    KeptIsUnique(allRows, pattern, lower);
    var order, n := OrderRows(rows);
    ordered, reached := order, n;
    OrderedFacts(allRows, rows, order, n, AssessAll(order, evidence));
    results := AssessInto(order, evidence);
    var byName := Index(order);
    IndexesResults(order, byName, results[..]);
    RollUp(results, allRows, byName);
    ReachedAreSettled(AssessAll(order, evidence), n);
    assert ReportVia(allRows, pattern, lower, evidence, results[..], order, n, byName);
  }

  lemma ReachedAreSettled(start: seq<Assessment>, reached: nat)
    requires ParentsFirst(start, reached)
    ensures forall i :: 0 <= i < reached ==> Settled(start, i)
  {
    forall i | 0 <= i < reached ensures Settled(start, i) {
      ParentsFirstSettles(start, reached, i);
    }
  }

  /** The loop that assesses the rows one by one. */
  method AssessInto(order: seq<JobRow>, evidence: map<string, Evidence>) returns (results: array<Assessment>)
    ensures fresh(results) && results[..] == AssessAll(order, evidence)
  {
    results := new Assessment[|order|](i requires 0 <= i < |order| => Assess(order[i], evidence));
  }

  lemma OrderedFacts(allRows: seq<JobRow>, rows: seq<JobRow>, ordered: seq<JobRow>, reached: nat,
                     start: seq<Assessment>)
    requires UniqueNames(rows) && multiset(ordered) == multiset(rows) && reached <= |ordered|
    requires forall r :: r in rows ==> r in allRows
    requires forall r :: r in ordered[..reached] <==> r in rows && Reached(rows, r)
    requires BoxesFirst(ordered[..reached])
    requires |start| == |ordered| && forall i :: 0 <= i < |ordered| ==> start[i].row == ordered[i]
    ensures UniqueNames(ordered) && ParentsFirst(start, reached)
    ensures forall i :: 0 <= i < |start| ==> start[i].row in allRows
  {
    SameMembers(ordered, rows);
    UniqueOrdered(rows, ordered);
    ReachedRowsAreParentsFirst(rows, ordered, reached, start);
    forall i | 0 <= i < |start| ensures start[i].row in allRows {
      assert ordered[i] in ordered;
    }
  }

  /** `{a.job_name: a for a in results}` */
  method Index(ordered: seq<JobRow>) returns (byName: map<string, nat>)
    requires UniqueNames(ordered)
    ensures forall i :: 0 <= i < |ordered| ==> ordered[i].jobName in byName && byName[ordered[i].jobName] == i
    ensures forall n :: n in byName ==> byName[n] < |ordered| && ordered[byName[n]].jobName == n
  {
    byName := map[];
    for i := 0 to |ordered|
      invariant forall j :: 0 <= j < i ==> ordered[j].jobName in byName && byName[ordered[j].jobName] == j
      invariant forall n :: n in byName ==> byName[n] < i && ordered[byName[n]].jobName == n
    {
      forall j | 0 <= j < i ensures ordered[j].jobName != ordered[i].jobName {
        assert ByName(ordered[j]) != ByName(ordered[i]);
      }
      byName := byName[ordered[i].jobName := i];
    }
  }

  lemma IndexesResults(ordered: seq<JobRow>, byName: map<string, nat>, results: seq<Assessment>)
    requires |results| == |ordered| && forall i :: 0 <= i < |ordered| ==> results[i].row == ordered[i]
    requires forall i :: 0 <= i < |ordered| ==> ordered[i].jobName in byName && byName[ordered[i].jobName] == i
    requires forall n :: n in byName ==> byName[n] < |ordered| && ordered[byName[n]].jobName == n
    ensures Indexes(byName, results)
  {
  }

  /** `worse` differs from `evidence` in one job's history, which got worse. */
  ghost predicate OneJobWorse(evidence: map<string, Evidence>, worse: map<string, Evidence>, job: string) {
    && job in evidence && job in worse
    && (forall n :: n != job ==> EvidenceOf(evidence, n) == EvidenceOf(worse, n))
    && evidence[job].stats.Some? && worse[job].stats.Some?
    && worse[job] == evidence[job].(stats := worse[job].stats)
    && Worse(evidence[job].stats.value, worse[job].stats.value)
  }

  /** The report order is determined by the rows, in whatever order the table has them. */
  lemma ReportOrderIsUnique(rows: seq<JobRow>, others: seq<JobRow>, a: seq<JobRow>, reachedA: nat,
                            b: seq<JobRow>, reachedB: nat)
    requires UniqueNames(rows) && multiset(rows) == multiset(others)
    requires InReportOrder(rows, a, reachedA) && InReportOrder(others, b, reachedB)
    ensures reachedA == reachedB && a == b
  {
    WalkIgnoresTableOrder(rows, others);
    TakeAndDrop(a, reachedA);
    TakeAndDrop(b, reachedB);
    SameRest(a[..reachedA], a[reachedA..], b[reachedB..]);
    UniqueOrdered(rows, a);
    assert forall i :: 0 <= i < |a| - reachedA ==> a[reachedA..][i] == a[reachedA + i];
    DistinctTellApart(a[reachedA..], ByName);
    SortedIsUnique(a[reachedA..], b[reachedB..], ByName);
  }

  lemma SameRest<T>(front: seq<T>, a: seq<T>, b: seq<T>)
    requires multiset(front + a) == multiset(front + b)
    ensures multiset(a) == multiset(b)
  {
    assert multiset(front + a) == multiset(front) + multiset(a);
    assert multiset(front + b) == multiset(front) + multiset(b);
    forall x ensures multiset(a)[x] == multiset(b)[x] {
      assert multiset(front + a)[x] == multiset(front + b)[x];
    }
  }

  /** Worse evidence for one job never lowers the final risk of any row, reached or not,
      through the sample gate and the roll-up. */
  lemma WorseEvidenceNeverLowersRisk(allRows: seq<JobRow>, pattern: Option<string>, lower: string -> string,
                                     evidence: map<string, Evidence>, worse: map<string, Evidence>, job: string,
                                     before: seq<Assessment>, after: seq<Assessment>, i: int)
    requires UniqueNames(allRows) && OneJobWorse(evidence, worse, job)
    requires IsReport(allRows, pattern, lower, evidence, before) && IsReport(allRows, pattern, lower, worse, after)
    requires 0 <= i < |before|
    ensures |before| == |after| && before[i].row == after[i].row
    ensures RiskOrder(before[i].risk) <= RiskOrder(after[i].risk)
  {
    var ordered, reached, byName :| ReportVia(allRows, pattern, lower, evidence, before, ordered, reached, byName);
    var orderedW, reachedW, byNameW :| ReportVia(allRows, pattern, lower, worse, after, orderedW, reachedW, byNameW);
    KeptIsUnique(allRows, pattern, lower);
    var rows := Kept(allRows, pattern, lower);
    ReportOrderIsUnique(rows, rows, ordered, reached, orderedW, reachedW);
    WorseInSameOrder(ordered, evidence, worse, job, before, byName, after, byNameW, allRows, i);
  }

  lemma WorseInSameOrder(ordered: seq<JobRow>, evidence: map<string, Evidence>, worse: map<string, Evidence>,
      job: string,
                         before: seq<Assessment>, byName: map<string, nat>,
                         after: seq<Assessment>, byNameW: map<string, nat>, allRows: seq<JobRow>, i: int)
    requires OneJobWorse(evidence, worse, job) && 0 <= i < |before|
    requires RolledOver(ordered, evidence, allRows, byName, before) &&
        RolledOver(ordered, worse, allRows, byNameW, after)
    ensures |before| == |after| && before[i].row == after[i].row
    ensures RiskOrder(before[i].risk) <= RiskOrder(after[i].risk)
  {
    OrderedWorse(ordered, evidence, worse, job);
    WalksCompare(AssessAll(ordered, evidence), before, byName, AssessAll(ordered, worse), after, byNameW, allRows, i);
  }

  lemma WalksCompare(low: seq<Assessment>, before: seq<Assessment>, byName: map<string, nat>,
                     high: seq<Assessment>, after: seq<Assessment>, byNameW: map<string, nat>,
                     allRows: seq<JobRow>, i: int)
    requires SameRows(low, high) && 0 <= i < |before|
    requires forall x :: 0 <= x < |low| ==> RiskOrder(low[x].risk) <= RiskOrder(high[x].risk)
    requires Given(low, allRows, byName) && Walked(low, before, 0, allRows, byName)
    requires Given(high, allRows, byNameW) && Walked(high, after, 0, allRows, byNameW)
    ensures |before| == |after| && before[i].row == after[i].row
    ensures RiskOrder(before[i].risk) <= RiskOrder(after[i].risk)
  {
    WalkTakes(low, before, allRows, byName);
    WalkTakes(high, after, allRows, byNameW);
    WalkIsMonotone(low, before, high, after, i);
    assert Takes(low, before, i) && Takes(high, after, i);
  }

  lemma KeptIsUnique(allRows: seq<JobRow>, pattern: Option<string>, lower: string -> string)
    requires UniqueNames(allRows)
    ensures UniqueNames(Kept(allRows, pattern, lower))
  {
    if pattern.Some? && pattern.value != "" {
      SelectIsUnique(allRows, BoxNames(allRows, pattern.value, lower));
    }
  }

  lemma OrderedWorse(ordered: seq<JobRow>, evidence: map<string, Evidence>, worse: map<string, Evidence>, job: string)
    requires OneJobWorse(evidence, worse, job)
    ensures SameRows(AssessAll(ordered, evidence), AssessAll(ordered, worse))
    ensures forall x :: 0 <= x < |ordered| ==>
      RiskOrder(AssessAll(ordered, evidence)[x].risk) <= RiskOrder(AssessAll(ordered, worse)[x].risk)
  {
    forall x | 0 <= x < |ordered|
      ensures RiskOrder(AssessAll(ordered, evidence)[x].risk) <= RiskOrder(AssessAll(ordered, worse)[x].risk)
    {
      AssessedWorse(ordered[x], evidence, worse, job);
    }
  }

  lemma AssessedWorse(r: JobRow, evidence: map<string, Evidence>, worse: map<string, Evidence>, job: string)
    requires OneJobWorse(evidence, worse, job)
    ensures RiskOrder(Assess(r, evidence).risk) <= RiskOrder(Assess(r, worse).risk)
  {
    if r.jobName == job {
      var e := evidence[job];
      ScoreIsMonotone(e.status, e.stats.value, worse[job].stats.value,
                      MIN_OBSERVED_RUNS, MIN_OBSERVED_WINDOW_DAYS, e.origin != Some("simulated"));
    }
  }

  // ----- an orphan box that is not rolled up

  /** Box `a` and its job `j` come before box `z` by name, although `a` is in `z`; the
      box of `z` has a name of its own. */
  ghost predicate Backwards(top: JobRow, z: JobRow, a: JobRow, j: JobRow) {
    && top.jobType == z.jobType == a.jobType == "BOX" != j.jobType
    && top.boxName == "" && z.boxName == top.jobName != ""
    && a.boxName == z.jobName != "" && j.boxName == a.jobName != ""
    && UniqueNames([top, z, a, j]) && SortedBy([a, j, z], ByName)
  }

  predicate KeptBy(names: set<string>, r: JobRow) {
    r.jobName in names || r.boxName in names
  }

  lemma SelectOne(r: JobRow, rest: seq<JobRow>, names: set<string>)
    ensures Select([r] + rest, names) == (if KeptBy(names, r) then [r] else []) + Select(rest, names)
  {
    assert ([r] + rest)[1..] == rest;
  }

  lemma SelectLastThree(top: JobRow, z: JobRow, a: JobRow, j: JobRow, names: set<string>)
    requires !KeptBy(names, top) && KeptBy(names, z) && KeptBy(names, a) && KeptBy(names, j)
    ensures Select([top] + ([z] + ([a] + ([j] + []))), names) == [z, a, j]
  {
    SelectOne(top, [z] + ([a] + ([j] + [])), names);
    SelectOne(z, [a] + ([j] + []), names);
    SelectOne(a, [j] + [], names);
    SelectOne(j, [], names);
  }

  /** The pattern matches the names of `z` and `a` but not that of `top`. */
  predicate Picks(pattern: string, lower: string -> string, top: JobRow, z: JobRow, a: JobRow) {
    && pattern != "" && !Like(lower(pattern), lower(top.jobName))
    && Like(lower(pattern), lower(z.jobName)) && Like(lower(pattern), lower(a.jobName))
  }

  lemma PickedNames(top: JobRow, z: JobRow, a: JobRow, j: JobRow, pattern: string, lower: string -> string)
    requires Backwards(top, z, a, j) && Picks(pattern, lower, top, z, a)
    ensures BoxNames([top, z, a, j], pattern, lower) == {z.jobName, a.jobName}
  {
    var rows := [top, z, a, j];
    assert z in rows && a in rows;
  }

  lemma OrphansAreKept(top: JobRow, z: JobRow, a: JobRow, j: JobRow, names: set<string>)
    requires Backwards(top, z, a, j) && names == {z.jobName, a.jobName}
    ensures Select([top, z, a, j], names) == [z, a, j]
  {
    OrphansMatch(top, z, a, j, names);
    SelectLastThree(top, z, a, j, names);
    OneByOne(top, z, a, j);
  }

  lemma OneByOne<T>(a: T, b: T, c: T, d: T)
    ensures [a] + ([b] + ([c] + ([d] + []))) == [a, b, c, d]
  {
  }

  lemma OrphansMatch(top: JobRow, z: JobRow, a: JobRow, j: JobRow, names: set<string>)
    requires Backwards(top, z, a, j) && names == {z.jobName, a.jobName}
    ensures !KeptBy(names, top) && KeptBy(names, z) && KeptBy(names, a) && KeptBy(names, j)
  {
    var rows := [top, z, a, j];
    assert ByName(rows[0]) != ByName(rows[1]) && ByName(rows[0]) != ByName(rows[2]);
  }

  lemma NoTops(rows: seq<JobRow>)
    requires forall r :: r in rows ==> r.boxName != ""
    ensures Forest(rows, SortBy(Tops(rows), ByName), Names(rows)) == []
  {
    if Tops(rows) != [] {
      assert Tops(rows)[0] in Tops(rows);
    }
  }

  lemma OrphanOrder(rows: seq<JobRow>, sorted: seq<JobRow>, ordered: seq<JobRow>, reached: nat)
    requires InReportOrder(rows, ordered, reached) && multiset(sorted) == multiset(rows)
    requires UniqueNames(rows) && SortedBy(sorted, ByName) && forall r :: r in rows ==> r.boxName != ""
    ensures ordered == sorted && reached == 0
  {
    NoTops(rows);
    assert ordered[0..] == ordered;
    UniqueOrdered(rows, sorted);
    DistinctTellApart(sorted, ByName);
    SortedIsUnique(sorted, ordered, ByName);
  }

  /** A pattern keeps `z` and `a` but not the box of `z`, which makes `z` an orphan: it
      is listed after `a`, reads `a` before `a` has inherited from `j`, and stays
      NO_DATA. */
  lemma OrphanBoxMissesItsRisk(top: JobRow, z: JobRow, a: JobRow, j: JobRow, pattern: string,
                               lower: string -> string, evidence: map<string, Evidence>, results: seq<Assessment>)
    requires Backwards(top, z, a, j) && Picks(pattern, lower, top, z, a)
    requires IsReport([top, z, a, j], Some(pattern), lower, evidence, results)
    requires Assess(j, evidence).risk == HIGH && Assess(a, evidence).risk == Assess(z, evidence).risk == NO_DATA
    ensures |results| == 3 && results[1] == Assess(j, evidence) && IsChild(results, 0, 1) && IsChild(results, 2, 0)
    ensures results[2] == Assess(z, evidence)
  {
    var ordered, byName := OrphansReported(top, z, a, j, pattern, lower, evidence, results);
    OrphansLinked(top, z, a, j);
    OrphanWalk(z, a, j, evidence, ordered, results, [top, z, a, j], byName);
  }

  lemma OrphansReported(top: JobRow, z: JobRow, a: JobRow, j: JobRow, pattern: string, lower: string -> string,
                        evidence: map<string, Evidence>, results: seq<Assessment>)
    returns (ordered: seq<JobRow>, byName: map<string, nat>)
    requires Backwards(top, z, a, j) && Picks(pattern, lower, top, z, a)
    requires IsReport([top, z, a, j], Some(pattern), lower, evidence, results)
    ensures ordered == [a, j, z] && RolledOver(ordered, evidence, [top, z, a, j], byName, results)
  {
    var reached: nat;
    ordered, reached, byName :|
      ReportVia([top, z, a, j], Some(pattern), lower, evidence, results, ordered, reached, byName);
    OrphansInOrder(top, z, a, j, pattern, lower, ordered, reached);
  }

  lemma OrphanWalk(z: JobRow, a: JobRow, j: JobRow, evidence: map<string, Evidence>, ordered: seq<JobRow>,
                   results: seq<Assessment>, allRows: seq<JobRow>, byName: map<string, nat>)
    requires Linked(z, a, j) && |ordered| == 3 && ordered[0] == a && ordered[1] == j && ordered[2] == z
    requires RolledOver(ordered, evidence, allRows, byName, results)
    requires Assess(a, evidence).risk == Assess(z, evidence).risk == NO_DATA
    ensures |results| == 3 && results[1] == Assess(j, evidence) && IsChild(results, 0, 1) && IsChild(results, 2, 0)
    ensures results[2] == Assess(z, evidence)
  {
    OrphanStart(z, a, j, evidence, ordered);
    WalkTakes(AssessAll(ordered, evidence), results, allRows, byName);
    OrphanMisses(AssessAll(ordered, evidence), results);
  }

  /** The links between the three orphans. */
  ghost predicate Linked(z: JobRow, a: JobRow, j: JobRow) {
    && z.jobType == a.jobType == "BOX" != j.jobType
    && a.boxName == z.jobName != "" && j.boxName == a.jobName != "" && z.boxName != z.jobName
    && a.jobName != z.jobName && a.jobName != j.jobName && j.jobName != z.jobName
  }

  lemma OrphansLinked(top: JobRow, z: JobRow, a: JobRow, j: JobRow)
    requires Backwards(top, z, a, j)
    ensures Linked(z, a, j)
  {
    var rows := [top, z, a, j];
    assert ByName(rows[0]) != ByName(rows[1]) && ByName(rows[1]) != ByName(rows[2]) && ByName(rows[1]) != ByName(rows[3])
        && ByName(rows[2]) != ByName(rows[3]);
  }

  lemma OrphanStart(z: JobRow, a: JobRow, j: JobRow, evidence: map<string, Evidence>, ordered: seq<JobRow>)
    requires Linked(z, a, j) && |ordered| == 3 && ordered[0] == a && ordered[1] == j && ordered[2] == z
    ensures var start := AssessAll(ordered, evidence);
      && IsBox(start[0]) && !IsBox(start[1]) && IsBox(start[2]) && IsChild(start, 0, 1) && IsChild(start, 2, 0)
      && DistinctRows(start) && start[2].row.boxName != start[2].row.jobName
      && start[0] == Assess(a, evidence) && start[1] == Assess(j, evidence) && start[2] == Assess(z, evidence)
  {
    OrphanShape(z, a, j, AssessAll(ordered, evidence));
  }

  lemma OrphanShape(z: JobRow, a: JobRow, j: JobRow, start: seq<Assessment>)
    requires Linked(z, a, j) && |start| == 3 && start[0].row == a && start[1].row == j && start[2].row == z
    ensures IsBox(start[0]) && !IsBox(start[1]) && IsBox(start[2]) && IsChild(start, 0, 1) && IsChild(start, 2, 0)
    ensures DistinctRows(start) && start[2].row.boxName != start[2].row.jobName
  {
  }

  lemma OrphansInOrder(top: JobRow, z: JobRow, a: JobRow, j: JobRow, pattern: string, lower: string -> string,
                       ordered: seq<JobRow>, reached: nat)
    requires Backwards(top, z, a, j)
    requires Picks(pattern, lower, top, z, a)
    requires InReportOrder(Kept([top, z, a, j], Some(pattern), lower), ordered, reached)
    ensures ordered == [a, j, z] && reached == 0
  {
    PickedNames(top, z, a, j, pattern, lower);
    OrphansAreKept(top, z, a, j, {z.jobName, a.jobName});
    OrphansAreUnique(top, z, a, j);
    ThreeOrphans(z, a, j);
    OrphanOrder([z, a, j], [a, j, z], ordered, reached);
  }

  lemma OrphansAreUnique(top: JobRow, z: JobRow, a: JobRow, j: JobRow)
    requires Backwards(top, z, a, j)
    ensures UniqueNames([z, a, j]) && SortedBy([a, j, z], ByName) && forall r :: r in [z, a, j] ==> r.boxName != ""
  {
    var rows := [top, z, a, j];
    assert ByName(rows[1]) != ByName(rows[2]) && ByName(rows[1]) != ByName(rows[3]) &&
        ByName(rows[2]) != ByName(rows[3]);
  }

  lemma ThreeOrphans(z: JobRow, a: JobRow, j: JobRow)
    ensures multiset([a, j, z]) == multiset([z, a, j])
  {
  }

  lemma OrphanMisses(start: seq<Assessment>, final: seq<Assessment>)
    requires |start| == |final| == 3 && IsBox(start[0]) && !IsBox(start[1]) && IsBox(start[2])
    requires IsChild(start, 0, 1) && IsChild(start, 2, 0) && DistinctRows(start)
    requires start[2].row.boxName != start[2].row.jobName && start[0].risk == start[2].risk == NO_DATA
    requires forall i :: 0 <= i < 3 ==> Takes(start, final, i)
    ensures final[1] == start[1] && final[2] == start[2] && IsChild(final, 0, 1) && IsChild(final, 2, 0)
  {
    assert Takes(start, final, 0) && Takes(start, final, 1) && Takes(start, final, 2);
    forall c | IsChild(start, 2, c) ensures c == 0 {
    }
  }

  /** Such rows, a pattern that picks them, and evidence for which it happens. */
  lemma BackwardsRows(lower: string -> string)
    requires forall n :: n in {"x%", "xa", "xz", "top"} ==> lower(n) == n
    ensures var top, z := JobRow("top", "", "BOX"), JobRow("xz", "top", "BOX");
      var a, j := JobRow("xa", "xz", "BOX"), JobRow("xj", "xa", "CMD");
      var evidence := map["xj" := Evidence("SUCCESS", Some(NO_STATS.(totalRuns := 2, failures := 2)), None)];
      && Backwards(top, z, a, j) && Picks("x%", lower, top, z, a)
      && Assess(j, evidence).risk == HIGH && Assess(a, evidence).risk == Assess(z, evidence).risk == NO_DATA
  {
    assert LexLe("xa"[1..], "xj"[1..]) && LexLe("xj"[1..], "xz"[1..]) && LexLe("xa"[1..], "xz"[1..]);
    LikeAfterX("xa");
    LikeAfterX("xz");
  }

  lemma LikeAfterX(text: string)
    requires |text| == 2 && text[0] == 'x' && text[1] != '\n'
    ensures Like("x%", text)
  {
    assert "x%"[1..] == "%" && "%"[1..] == "" && text[1..][1..] == "";
    assert Like("%", "") && Like("%", text[1..]);
  }
}
