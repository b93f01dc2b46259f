/** Run history, alarms and the risk level they give a job
    (autosys/analysis/operational_risk.py).

    Rates are compared by cross-multiplication; instants are in seconds. */
module OperationalRisk {
  import opened Counting
  import opened Options
  import opened RunHistory

  datatype Risk = NO_DATA | NONE | LOW | MEDIUM | HIGH

  /** The order of severity. */
  function RiskOrder(r: Risk): nat {
    match r
    case NO_DATA => 0
    case NONE => 1
    case LOW => 2
    case MEDIUM => 3
    case HIGH => 4
  }

  /** Every level has a place of its own, unknown below clean and HIGH on top. */
  lemma LevelsInOrder(a: Risk, b: Risk)
    ensures RiskOrder(a) == RiskOrder(b) <==> a == b
    ensures RiskOrder(NO_DATA) < RiskOrder(NONE) < RiskOrder(LOW) < RiskOrder(MEDIUM) < RiskOrder(HIGH)
  {
  }

  const MIN_OBSERVED_RUNS := 10
  const MIN_OBSERVED_WINDOW_DAYS := 7
  const HIGH_FAILURE_PERCENT := 30
  const MEDIUM_FAILURE_PERCENT := 10
  const MEDIUM_RETRY_PERCENT := 20
  const HIGH_ACTIVE_ALARMS := 2
  const MEDIUM_ACTIVE_ALARMS := 1
  const SECONDS_PER_DAY := 86400
  const IN_CHUNK := 900

  const AT_RISK_STATUSES := {"ON_HOLD", "SUSPENDED"}
  const ELEVATED_STATUSES := {"ON_ICE", "RESTART"}

  datatype RunStats = RunStats(totalRuns: nat, failures: nat, terminations: nat, retriedRuns: nat,
                               activeAlarms: nat, clearedAlarms: nat,
                               firstRun: Option<int>, lastRun: Option<int>, alarmsObserved: bool)

  const NO_STATS := RunStats(0, 0, 0, 0, 0, 0, None, None, false)

  /** `has_sufficient_sample` */
  predicate HasSufficientSample(s: RunStats, minRuns: int, minWindowDays: int, requireWindow: bool) {
    if s.totalRuns >= 2 && s.failures == s.totalRuns then true
    else if s.totalRuns < minRuns then false
    else if !requireWindow then true
    else if s.firstRun == None || s.lastRun == None then true
    else s.lastRun.value - s.firstRun.value >= minWindowDays * SECONDS_PER_DAY
  }

  /** `count / total >= percent%`, where the rate over no runs is zero. */
  predicate RateAtLeast(count: nat, total: nat, percent: nat) {
    total != 0 && 100 * count >= percent * total
  }

  /** `score_operational_risk`, without the driver strings. */
  function Score(status: string, stats: Option<RunStats>, minRuns: int, minWindowDays: int, requireWindow: bool): Risk {
    if stats == None || !HasSufficientSample(stats.value, minRuns, minWindowDays, requireWindow) then NO_DATA
    else
      var s := stats.value;
      if || RateAtLeast(s.failures, s.totalRuns, HIGH_FAILURE_PERCENT)
         || s.activeAlarms >= HIGH_ACTIVE_ALARMS
         || s.terminations >= 1
         || status in AT_RISK_STATUSES
      then HIGH
      else if || RateAtLeast(s.failures, s.totalRuns, MEDIUM_FAILURE_PERCENT)
              || RateAtLeast(s.retriedRuns, s.totalRuns, MEDIUM_RETRY_PERCENT)
              || s.activeAlarms == MEDIUM_ACTIVE_ALARMS
              || status in ELEVATED_STATUSES
      then MEDIUM
      else if s.clearedAlarms > 0 || s.retriedRuns > 0 then LOW
      else NONE
  }

  /** The share of the runs; none of no runs. */
  ghost function Rate(count: nat, total: nat): real {
    if total == 0 then 0.0 else count as real / total as real
  }

  lemma RateIsAtLeast(count: nat, total: nat, percent: nat)
    requires percent > 0
    ensures RateAtLeast(count, total, percent) <==> Rate(count, total) >= percent as real / 100.0
  {
    if total > 0 {
      var r := Rate(count, total);
      assert r * total as real == count as real;
      ScaleBoth(r, percent as real / 100.0, total as real);
      assert (percent as real / 100.0) * total as real == (percent * total) as real / 100.0;
    }
  }

  lemma ScaleBoth(a: real, b: real, n: real)
    requires n > 0.0
    ensures a >= b <==> a * n >= b * n
  {
  }

  /** Every run, of two or more, has failed, or there are enough runs over enough days;
      the days count only where they are asked for and both ends are known. */
  ghost predicate EnoughToJudge(s: RunStats, minRuns: int, minWindowDays: int, requireWindow: bool) {
    || (s.totalRuns >= 2 && s.failures == s.totalRuns)
    || (s.totalRuns >= minRuns
        && (requireWindow && s.firstRun.Some? && s.lastRun.Some? ==>
              (s.lastRun.value - s.firstRun.value) as real / 86400.0 >= minWindowDays as real))
  }

  ghost predicate IsHigh(status: string, s: RunStats) {
    || Rate(s.failures, s.totalRuns) >= 0.3 || s.activeAlarms >= 2 || s.terminations > 0
    || status == "ON_HOLD" || status == "SUSPENDED"
  }

  ghost predicate IsMedium(status: string, s: RunStats) {
    || Rate(s.failures, s.totalRuns) >= 0.1 || Rate(s.retriedRuns, s.totalRuns) >= 0.2 || s.activeAlarms == 1
    || status == "ON_ICE" || status == "RESTART"
  }

  lemma EnoughIsSufficient(s: RunStats, minRuns: int, minWindowDays: int, requireWindow: bool)
    ensures EnoughToJudge(s, minRuns, minWindowDays, requireWindow)
       <==> HasSufficientSample(s, minRuns, minWindowDays, requireWindow)
  {
  }

  /** What each level stands for, in terms of rates, counts and days. */
  lemma ScoreMeans(status: string, stats: Option<RunStats>, minRuns: int, minWindowDays: int, requireWindow: bool)
    ensures var level := Score(status, stats, minRuns, minWindowDays, requireWindow);
      && (level == NO_DATA <==> stats == None || !EnoughToJudge(stats.value, minRuns, minWindowDays, requireWindow))
      && (level == HIGH <==> level != NO_DATA && IsHigh(status, stats.value))
      && (level == MEDIUM <==> level != NO_DATA && !IsHigh(status, stats.value) && IsMedium(status, stats.value))
      && (level == LOW <==> level != NO_DATA && !IsHigh(status, stats.value) && !IsMedium(status, stats.value)
                            && (stats.value.clearedAlarms > 0 || stats.value.retriedRuns > 0))
  {
    if stats.Some? {
      var s := stats.value;
      EnoughIsSufficient(s, minRuns, minWindowDays, requireWindow);
      RateIsAtLeast(s.failures, s.totalRuns, HIGH_FAILURE_PERCENT);
      RateIsAtLeast(s.failures, s.totalRuns, MEDIUM_FAILURE_PERCENT);
      RateIsAtLeast(s.retriedRuns, s.totalRuns, MEDIUM_RETRY_PERCENT);
    }
  }

  /** More failures (at most one per run), terminations, retried runs or active
      alarms; everything else as before. */
  ghost predicate Worse(s: RunStats, t: RunStats) {
    && t == s.(failures := t.failures, terminations := t.terminations, retriedRuns := t.retriedRuns,
               activeAlarms := t.activeAlarms)
    && s.failures <= t.failures <= t.totalRuns
    && s.terminations <= t.terminations
    && s.retriedRuns <= t.retriedRuns
    && s.activeAlarms <= t.activeAlarms
  }

  /** Worse evidence never lowers the level, not even through the sample gate. */
  lemma ScoreIsMonotone(status: string, s: RunStats, t: RunStats, minRuns: int, minWindowDays: int, requireWindow: bool)
    requires Worse(s, t)
    ensures RiskOrder(Score(status, Some(s), minRuns, minWindowDays, requireWindow))
         <= RiskOrder(Score(status, Some(t), minRuns, minWindowDays, requireWindow))
  {
    RateIsMonotone(s.failures, t.failures, s.totalRuns, HIGH_FAILURE_PERCENT);
    RateIsMonotone(s.failures, t.failures, s.totalRuns, MEDIUM_FAILURE_PERCENT);
    RateIsMonotone(s.retriedRuns, t.retriedRuns, s.totalRuns, MEDIUM_RETRY_PERCENT);
  }

  lemma RateIsMonotone(a: nat, b: nat, total: nat, percent: nat)
    requires a <= b
    ensures RateAtLeast(a, total, percent) ==> RateAtLeast(b, total, percent)
  {
  }

  /** The sample gate by its other clauses: too few runs, or too short a window. */
  predicate TooThin(s: RunStats, minRuns: int, minWindowDays: int, requireWindow: bool) {
    || s.totalRuns < minRuns
    || (requireWindow && s.firstRun.Some? && s.lastRun.Some?
        && s.lastRun.value - s.firstRun.value < minWindowDays * SECONDS_PER_DAY)
  }

  /** Without the bound by the runs, more failures lower the level in one case
      exactly: every run had failed, which passes the gate, one more failure than
      runs does not, and the sample passes it in no other way. */
  lemma MoreFailuresLowerTheScoreIff(status: string, s: RunStats, failures: nat,
                                     minRuns: int, minWindowDays: int, requireWindow: bool)
    requires s.failures <= failures
    ensures RiskOrder(Score(status, Some(s.(failures := failures)), minRuns, minWindowDays, requireWindow))
          < RiskOrder(Score(status, Some(s), minRuns, minWindowDays, requireWindow))
        <==> s.totalRuns >= 2 && s.failures == s.totalRuns < failures
             && TooThin(s, minRuns, minWindowDays, requireWindow)
  {
    RateIsMonotone(s.failures, failures, s.totalRuns, HIGH_FAILURE_PERCENT);
    RateIsMonotone(s.failures, failures, s.totalRuns, MEDIUM_FAILURE_PERCENT);
  }

  /** Such an input: two failures in two runs are HIGH, three are no data. */
  lemma FailuresBeyondRunsLowerTheScore(s: RunStats)
    requires s.totalRuns == 2 && s.failures == 2
    ensures Score("SUCCESS", Some(s), MIN_OBSERVED_RUNS, MIN_OBSERVED_WINDOW_DAYS, true) == HIGH
    ensures Score("SUCCESS", Some(s.(failures := 3)), MIN_OBSERVED_RUNS, MIN_OBSERVED_WINDOW_DAYS, true) == NO_DATA
  {
  }

  /** No history that was counted is such an input. */
  lemma CountedFailuresStayWithinRuns(runs: seq<RunRow>, alarms: seq<AlarmRow>, sources: Option<set<string>>,
      job: string)
    ensures var stats := JobStats(job, runs, alarms, sources); stats.Some? ==>
        stats.value.failures <= stats.value.totalRuns
  {
    AggregateCounts(RunsOf(runs, job, sources));
  }

  // ------------------------------------------------------------------
  // fetch_run_stats: grouped queries, chunk by chunk
  // ------------------------------------------------------------------

  datatype AlarmRow = AlarmRow(jobName: string, cleared: bool)

  /** The run rows the query groups under `job`. */
  function RunsOf(runs: seq<RunRow>, job: string, sources: Option<set<string>>): seq<RunRow> {
    if runs == [] then []
    else (if runs[0].jobName == job && (sources.Some? ==> runs[0].source in sources.value) then [runs[0]] else [])
         + RunsOf(runs[1..], job, sources)
  }

  function AlarmsOf(alarms: seq<AlarmRow>, job: string): seq<AlarmRow> {
    if alarms == [] then []
    else (if alarms[0].jobName == job then [alarms[0]] else []) + AlarmsOf(alarms[1..], job)
  }

  function Earlier(a: Option<int>, b: Option<int>): Option<int> {
    if a == None then b else if b == None then a else if a.value <= b.value then a else b
  }

  function Later(a: Option<int>, b: Option<int>): Option<int> {
    if a == None then b else if b == None then a else if a.value >= b.value then a else b
  }

  /** The aggregate columns over one group of runs. */
  function Aggregate(runs: seq<RunRow>): RunStats {
    if runs == [] then NO_STATS
    else
      var r, s := runs[0], Aggregate(runs[1..]);
      s.(totalRuns := s.totalRuns + 1,
         failures := s.failures + (if r.status == "FAILURE" then 1 else 0),
         terminations := s.terminations + (if r.status == "TERMINATED" then 1 else 0),
         retriedRuns := s.retriedRuns + (if r.retryCount > 0 then 1 else 0),
         firstRun := Earlier(r.startTime, s.firstRun),
         lastRun := Later(r.startTime, s.lastRun))
  }

  /** Every group has at most one failure per run, so it is open to `Worse`. */
  lemma {:induction false} AggregateCounts(runs: seq<RunRow>)
    ensures var s := Aggregate(runs);
      s.totalRuns == |runs| && s.failures + s.terminations <= s.totalRuns && s.retriedRuns <= s.totalRuns
  {
    if runs != [] {
      AggregateCounts(runs[1..]);
    }
  }

  function WithAlarms(s: RunStats, alarms: seq<AlarmRow>): RunStats {
    s.(activeAlarms := Count(alarms, false), clearedAlarms := Count(alarms, true), alarmsObserved := true)
  }

  function Count(alarms: seq<AlarmRow>, cleared: bool): nat {
    if alarms == [] then 0 else (if alarms[0].cleared == cleared then 1 else 0) + Count(alarms[1..], cleared)
  }

  /** The history of one job on its own: its runs, if any, and its alarms, which on
      their own count only when no source was asked for. */
  function JobStats(job: string, runs: seq<RunRow>, alarms: seq<AlarmRow>,
                    sources: Option<set<string>>): Option<RunStats> {
    var rs, als := RunsOf(runs, job, sources), AlarmsOf(alarms, job);
    if rs == [] && (als == [] || sources.Some?) then None
    else if als == [] then Some(Aggregate(rs))
    else Some(WithAlarms(Aggregate(rs), als))
  }

  // ----- what the statistics of a job count

  /** The runs of `job` from the sources asked for. */
  ghost function IsRunOf(job: string, sources: Option<set<string>>): RunRow -> bool {
    (r: RunRow) => r.jobName == job && (sources.Some? ==> r.source in sources.value)
  }

  ghost function EndedAs(job: string, sources: Option<set<string>>, status: string): RunRow -> bool {
    r => IsRunOf(job, sources)(r) && r.status == status
  }

  ghost function WasRetried(job: string, sources: Option<set<string>>): RunRow -> bool {
    r => IsRunOf(job, sources)(r) && r.retryCount > 0
  }

  ghost function IsAlarmOf(job: string, cleared: bool): AlarmRow -> bool {
    (a: AlarmRow) => a.jobName == job && a.cleared == cleared
  }

  /** The counts are those of the rows of the run table. */
  ghost predicate CountsRuns(s: RunStats, job: string, runs: seq<RunRow>, sources: Option<set<string>>) {
    && s.totalRuns == |Positions(runs, IsRunOf(job, sources))|
    && s.failures == |Positions(runs, EndedAs(job, sources, "FAILURE"))|
    && s.terminations == |Positions(runs, EndedAs(job, sources, "TERMINATED"))|
    && s.retriedRuns == |Positions(runs, WasRetried(job, sources))|
  }

  /** The known starts of the job's runs. */
  ghost function StartsOf(job: string, runs: seq<RunRow>, sources: Option<set<string>>): iset<int> {
    iset t | exists i :: 0 <= i < |runs| && IsRunOf(job, sources)(runs[i]) && runs[i].startTime == Some(t)
  }

  /** The first and the last of them, if there are any. */
  ghost predicate Spans(first: Option<int>, last: Option<int>, starts: iset<int>) {
    && (first.Some? ==> first.value in starts)
    && (last.Some? ==> last.value in starts)
    && (forall t :: t in starts ==> first.Some? && last.Some? && first.value <= t <= last.value)
  }

  lemma {:induction false} RunsAreCounted(job: string, runs: seq<RunRow>, sources: Option<set<string>>)
    ensures CountsRuns(Aggregate(RunsOf(runs, job, sources)), job, runs, sources)
  {
    PositionsStep(runs, IsRunOf(job, sources));
    PositionsStep(runs, EndedAs(job, sources, "FAILURE"));
    PositionsStep(runs, EndedAs(job, sources, "TERMINATED"));
    PositionsStep(runs, WasRetried(job, sources));
    if runs != [] {
      RunsAreCounted(job, runs[1..], sources);
      AggregateFirst(job, runs, sources);
    }
  }

  lemma AggregateFirst(job: string, runs: seq<RunRow>, sources: Option<set<string>>)
    requires runs != []
    ensures var all, rest := RunsOf(runs, job, sources), RunsOf(runs[1..], job, sources);
      if IsRunOf(job, sources)(runs[0]) then all != [] && all[0] == runs[0] && all[1..] == rest else all == rest
  {
  }

  lemma {:induction false} RunsAreSpanned(job: string, runs: seq<RunRow>, sources: Option<set<string>>)
    ensures var s := Aggregate(RunsOf(runs, job, sources)); Spans(s.firstRun, s.lastRun, StartsOf(job, runs, sources))
  {
    if runs != [] {
      var rest := Aggregate(RunsOf(runs[1..], job, sources));
      RunsAreSpanned(job, runs[1..], sources);
      AggregateFirst(job, runs, sources);
      StartsStep(job, runs, sources);
      if IsRunOf(job, sources)(runs[0]) {
        SpanStep(rest.firstRun, rest.lastRun, StartsOf(job, runs[1..], sources), runs[0].startTime);
      }
    }
  }

  lemma SpanStep(first: Option<int>, last: Option<int>, starts: iset<int>, t: Option<int>)
    requires Spans(first, last, starts)
    ensures Spans(Earlier(t, first), Later(t, last), if t.Some? then starts + iset{t.value} else starts)
  {
  }

  lemma StartsStep(job: string, runs: seq<RunRow>, sources: Option<set<string>>)
    requires runs != []
    ensures var rest := StartsOf(job, runs[1..], sources);
      StartsOf(job, runs, sources)
        == if IsRunOf(job, sources)(runs[0]) &&
            runs[0].startTime.Some? then rest + iset{runs[0].startTime.value} else rest
  {
    var rest := StartsOf(job, runs[1..], sources);
    forall t ensures t in StartsOf(job, runs, sources) <==>
      t in rest || (IsRunOf(job, sources)(runs[0]) && runs[0].startTime == Some(t))
    {
      if i :| 0 < i < |runs| && IsRunOf(job, sources)(runs[i]) && runs[i].startTime == Some(t) {
        assert runs[1..][i - 1] == runs[i];
      }
      if i :| 0 <= i < |runs[1..]| && IsRunOf(job, sources)(runs[1..][i]) && runs[1..][i].startTime == Some(t) {
        assert runs[i + 1] == runs[1..][i];
      }
    }
  }

  lemma {:induction false} AlarmsAreCounted(job: string, alarms: seq<AlarmRow>, cleared: bool)
    ensures Count(AlarmsOf(alarms, job), cleared) == |Positions(alarms, IsAlarmOf(job, cleared))|
  {
    PositionsStep(alarms, IsAlarmOf(job, cleared));
    if alarms != [] {
      AlarmsAreCounted(job, alarms[1..], cleared);
      var all, rest := AlarmsOf(alarms, job), AlarmsOf(alarms[1..], job);
      assert if alarms[0].jobName == job then all[0] == alarms[0] && all[1..] == rest else all == rest;
    }
  }

  lemma {:induction false} CountSplits(alarms: seq<AlarmRow>)
    ensures Count(alarms, true) + Count(alarms, false) == |alarms|
  {
    if alarms != [] {
      CountSplits(alarms[1..]);
    }
  }

  /** What the statistics of a job say about the two tables: each count is the number of
      rows in question, the window reaches from the first known start to the last, and
      there are none exactly without a run, and without an alarm unless sources were
      asked for. */
  lemma StatsCountRows(job: string, runs: seq<RunRow>, alarms: seq<AlarmRow>, sources: Option<set<string>>)
    ensures var stats := JobStats(job, runs, alarms, sources);
      var active, cleared := |Positions(alarms, IsAlarmOf(job, false))|, |Positions(alarms, IsAlarmOf(job, true))|;
      && (stats == None <==> |Positions(runs, IsRunOf(job, sources))| == 0 && (active + cleared == 0 || sources.Some?))
      && (stats.Some? ==> var s := stats.value;
            && CountsRuns(s, job, runs, sources) && Spans(s.firstRun, s.lastRun, StartsOf(job, runs, sources))
            && s.activeAlarms == active && s.clearedAlarms == cleared
            && (s.alarmsObserved <==> active + cleared > 0))
  {
    var rs, als := RunsOf(runs, job, sources), AlarmsOf(alarms, job);
    RunsAreCounted(job, runs, sources);
    RunsAreSpanned(job, runs, sources);
    AlarmsAreCounted(job, alarms, false);
    AlarmsAreCounted(job, alarms, true);
    AggregateCounts(rs);
    CountSplits(als);
    AggregateHasNoAlarms(rs);
  }

  lemma {:induction false} AggregateHasNoAlarms(runs: seq<RunRow>)
    ensures var s := Aggregate(runs); s.activeAlarms == 0 && s.clearedAlarms == 0 && !s.alarmsObserved
  {
    if runs != [] {
      AggregateHasNoAlarms(runs[1..]);
    }
  }

  /** `stats` holds exactly the histories of `names`. */
  ghost predicate Covers(stats: map<string, RunStats>, names: set<string>,
                         runs: seq<RunRow>, alarms: seq<AlarmRow>, sources: Option<set<string>>) {
    && (forall job :: job in stats <==> job in names && JobStats(job, runs, alarms, sources).Some?)
    && (forall job :: job in stats ==> JobStats(job, runs, alarms, sources) == Some(stats[job]))
  }

  /** The two grouped queries for one chunk, merged into `stats`. */
  function AddChunk(stats: map<string, RunStats>, chunk: set<string>,
                    runs: seq<RunRow>, alarms: seq<AlarmRow>, sources: Option<set<string>>): map<string, RunStats> {
    var counted := Counted(stats, chunk, runs, sources);
    counted + map job | job in chunk && AlarmsOf(alarms, job) != [] && (sources.Some? ==> job in counted) ::
      WithAlarms(if job in counted then counted[job] else NO_STATS, AlarmsOf(alarms, job))
  }

  lemma AddChunkCovers(stats: map<string, RunStats>, names: set<string>, chunk: set<string>,
                       runs: seq<RunRow>, alarms: seq<AlarmRow>, sources: Option<set<string>>)
    requires Covers(stats, names, runs, alarms, sources)
    ensures Covers(AddChunk(stats, chunk, runs, alarms, sources), names + chunk, runs, alarms, sources)
  {
    var after := AddChunk(stats, chunk, runs, alarms, sources);
    forall job
      ensures job in after <==> job in names + chunk && JobStats(job, runs, alarms, sources).Some?
      ensures job in after ==> JobStats(job, runs, alarms, sources) == Some(after[job])
    {
      AddChunkAt(stats, names, chunk, runs, alarms, sources, job);
    }
  }

  lemma AddChunkAt(stats: map<string, RunStats>, names: set<string>, chunk: set<string>,
                   runs: seq<RunRow>, alarms: seq<AlarmRow>, sources: Option<set<string>>, job: string)
    requires Covers(stats, names, runs, alarms, sources)
    ensures var after := AddChunk(stats, chunk, runs, alarms, sources);
      && (job in after <==> job in names + chunk && JobStats(job, runs, alarms, sources).Some?)
      && (job in after ==> JobStats(job, runs, alarms, sources) == Some(after[job]))
  {
    CountedAt(stats, names, chunk, runs, alarms, sources, job);
    assert Aggregate([]) == NO_STATS;
  }

  /** The map after the first of the two queries. */
  function Counted(stats: map<string, RunStats>, chunk: set<string>, runs: seq<RunRow>, sources: Option<set<string>>)
    : map<string, RunStats>
  {
    stats + map job | job in chunk && RunsOf(runs, job, sources) != [] :: Aggregate(RunsOf(runs, job, sources))
  }

  lemma CountedAt(stats: map<string, RunStats>, names: set<string>, chunk: set<string>,
                  runs: seq<RunRow>, alarms: seq<AlarmRow>, sources: Option<set<string>>, job: string)
    requires Covers(stats, names, runs, alarms, sources)
    ensures var counted, rs := Counted(stats, chunk, runs, sources), RunsOf(runs, job, sources);
      && (job in counted <==> (job in chunk && rs != []) || job in stats)
      && (job in chunk && rs != [] ==> counted[job] == Aggregate(rs))
      && (job in stats && !(job in chunk && rs != []) ==> counted[job] == stats[job])
      && (job in stats ==> JobStats(job, runs, alarms, sources) == Some(stats[job]))
  {
  }

  /** Chunking is invisible: the result is job by job what `JobStats` says, for any
      list of names, repeated ones included. */
  method FetchRunStats(names: seq<string>, runs: seq<RunRow>, alarms: seq<AlarmRow>, sources: Option<set<string>>)
    returns (stats: map<string, RunStats>)
    ensures forall job :: job in stats <==> job in names && JobStats(job, runs, alarms, sources).Some?
    ensures forall job :: job in stats ==> JobStats(job, runs, alarms, sources) == Some(stats[job])
  {
    stats := map[];
    ghost var done: set<string> := {};
    for i := 0 to (|names| + IN_CHUNK - 1) / IN_CHUNK
      invariant done == Members(names, 0, if i * IN_CHUNK <= |names| then i * IN_CHUNK else |names|)
      invariant Covers(stats, done, runs, alarms, sources)
    {
      var from, to := i * IN_CHUNK, if (i + 1) * IN_CHUNK <= |names| then (i + 1) * IN_CHUNK else |names|;
      var chunk := Members(names, from, to);
      AddChunkCovers(stats, done, chunk, runs, alarms, sources);
      stats := AddChunk(stats, chunk, runs, alarms, sources);
      done := done + chunk;
    }
    assert forall job :: job in done <==> job in names;
  }

  function Members(names: seq<string>, from: int, to: int): (members: set<string>)
    requires 0 <= from <= to <= |names|
    ensures forall job :: job in members <==> exists k :: from <= k < to && names[k] == job
  {
    set k | from <= k < to :: names[k]
  }
}
