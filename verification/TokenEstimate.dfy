/** The indicative token budget: routes, patterns designed once and adapted many times,
    and the totals (autosys/analysis/ai_token_estimate.py). */
module TokenEstimate {
  import opened Counting
  import opened OperationalRisk
  import opened Options
  import opened Permutations
  import opened Sorting
  import ChainCharging

  datatype Size = XS | S | M | L | XL

  datatype Route = OrbiterFirst | OrbiterWithOttoReview | OttoAssistedRedesign | ArchitectureWithOtto

  datatype Role = Review | PatternDesign | PatternAdaptation

  /** The fields of an assessed job that the estimate reads; `gapTags` is split at ", ". */
  datatype Job = Job(name: string, jobType: string, size: Size, gapTags: seq<string>, waveDepth: int,
                     risk: Risk, blastRadius: int)

  datatype Band = Band(min: int, max: int)

  function Plus(a: Band, b: Band): Band {
    Band(a.min + b.min, a.max + b.max)
  }

  function Times(n: int, b: Band): Band {
    Band(n * b.min, n * b.max)
  }

  const NO_TOKENS := Band(0, 0)
  const ORBITER_FIRST_REVIEW_BAND := Band(1000, 3000)
  const ORBITER_OTTO_REVIEW_BAND := Band(8000, 20000)
  const VALIDATION_RISK_INCREMENT := Band(2000, 8000)
  const VALIDATION_BLAST_RADIUS_INCREMENT := Band(1000, 4000)
  const BLAST_RADIUS_VALIDATION_THRESHOLD := 5
  const RED_GAP_TAGS: set<string> := {"cross-instance-event", "ftp-db-jobtype"}

  predicate Clustered(r: Route) {
    r == OttoAssistedRedesign || r == ArchitectureWithOtto
  }

  /** `PATTERN_DESIGN_BAND` */
  function DesignBand(r: Route): Band {
    if r == ArchitectureWithOtto then Band(60000, 200000) else Band(20000, 60000)
  }

  /** `PATTERN_ADAPTATION_BAND` */
  function AdaptationBand(r: Route): Band {
    if r == ArchitectureWithOtto then Band(8000, 25000) else Band(3000, 10000)
  }

  predicate HasRedTag(tags: seq<string>) {
    exists i :: 0 <= i < |tags| && tags[i] in RED_GAP_TAGS
  }

  function RouteFor(size: Size, tags: seq<string>): Route {
    if size == XL || HasRedTag(tags) then ArchitectureWithOtto
    else if size == L then OttoAssistedRedesign
    else if size == M then OrbiterWithOttoReview
    else OrbiterFirst
  }

  function RouteOf(a: Job): Route {
    RouteFor(a.size, a.gapTags)
  }

  /** `pattern_key`, before its parts are joined to one string. */
  datatype Pattern = Pattern(jobType: string, size: Size, tags: seq<string>, deepChain: bool)

  function Self(t: string): string {
    t
  }

  function PatternOf(a: Job): Pattern {
    Pattern(a.jobType, a.size, SortBy(a.gapTags, Self), a.waveDepth >= ChainCharging.WAVE_DEPTH_L_THRESHOLD)
  }

  function PatternRoute(p: Pattern): Route {
    RouteFor(p.size, p.tags)
  }

  /** A job's pattern fixes its route, so jobs of one pattern share a route. */
  lemma PatternFixesRoute(a: Job)
    ensures PatternRoute(PatternOf(a)) == RouteOf(a)
  {
    var tags, sorted := a.gapTags, SortBy(a.gapTags, Self);
    SameMembers(tags, sorted);
    if HasRedTag(tags) {
      var i :| 0 <= i < |tags| && tags[i] in RED_GAP_TAGS;
      assert tags[i] in sorted;
    }
    if HasRedTag(sorted) {
      var i :| 0 <= i < |sorted| && sorted[i] in RED_GAP_TAGS;
      assert sorted[i] in tags;
    }
  }

  /** Two jobs share a pattern exactly if they agree in type, size and tags, in whatever
      order, and both or neither are at depth four or more. */
  lemma SamePatternIff(a: Job, b: Job)
    ensures PatternOf(a) == PatternOf(b) <==>
      && a.jobType == b.jobType && a.size == b.size && multiset(a.gapTags) == multiset(b.gapTags)
      && (a.waveDepth >= 4 <==> b.waveDepth >= 4)
  {
    SameSortedIff(a.gapTags, b.gapTags);
  }

  lemma SameSortedIff(a: seq<string>, b: seq<string>)
    ensures SortBy(a, Self) == SortBy(b, Self) <==> multiset(a) == multiset(b)
  {
    if multiset(a) == multiset(b) {
      SortByIsSorted(a, Self);
      SortByIsSorted(b, Self);
      SortedIsUnique(SortBy(a, Self), SortBy(b, Self), Self);
    }
  }

  /** What a job's route says about it: an architecture job is XL or has a red tag, other
      clustered jobs are L, and without a red tag M jobs are reviewed after Orbiter. */
  lemma RouteMeans(a: Job)
    ensures var red := "cross-instance-event" in a.gapTags || "ftp-db-jobtype" in a.gapTags;
      && (RouteOf(a) == ArchitectureWithOtto <==> a.size == XL || red)
      && (Clustered(RouteOf(a)) <==> a.size == L || a.size == XL || red)
      && (RouteOf(a) == OrbiterWithOttoReview <==> a.size == M && !red)
      && (RouteOf(a) == OrbiterFirst <==> (a.size == XS || a.size == S) && !red)
  {
    RedTags(a.gapTags);
  }

  lemma RedTags(tags: seq<string>)
    ensures HasRedTag(tags) <==> "cross-instance-event" in tags || "ftp-db-jobtype" in tags
  {
    if HasRedTag(tags) {
      var i :| 0 <= i < |tags| && tags[i] in RED_GAP_TAGS;
    }
  }

  function ValidationIncrement(a: Job): Band {
    var risk := if a.risk == MEDIUM || a.risk == HIGH then VALIDATION_RISK_INCREMENT else NO_TOKENS;
    var radius := if a.blastRadius >= BLAST_RADIUS_VALIDATION_THRESHOLD then VALIDATION_BLAST_RADIUS_INCREMENT else
        NO_TOKENS;
    Band(risk.min + radius.min, risk.max + radius.max)
  }

  datatype Estimate = Estimate(name: string, route: Route, role: Role, pattern: Option<Pattern>, tokens: Band)

  /** `_estimate_clustered`, without the update of the seen patterns. */
  function EstimateClustered(a: Job, seen: set<Pattern>): Estimate {
    var p, r := PatternOf(a), RouteOf(a);
    var role := if p !in seen then PatternDesign else PatternAdaptation;
    var base := if role == PatternDesign then DesignBand(r) else AdaptationBand(r);
    Estimate(a.name, r, role, Some(p), Plus(base, ValidationIncrement(a)))
  }

  function EstimateJob(a: Job, seen: set<Pattern>, reviewed: set<string>): Estimate {
    var r := RouteOf(a);
    if Clustered(r) then EstimateClustered(a, seen)
    else if r == OrbiterWithOttoReview then
      Estimate(a.name, r, Review, None,
               if a.name in reviewed then Plus(ORBITER_OTTO_REVIEW_BAND, ValidationIncrement(a)) else NO_TOKENS)
    else Estimate(a.name, r, Review, None, ORBITER_FIRST_REVIEW_BAND)
  }

  /** Adapting a known pattern costs less than designing it: the upper end of the one is
      below the lower end of the other, whatever validation the job needs. */
  lemma AdaptingIsCheaper(a: Job, seen: set<Pattern>, others: set<Pattern>, reviewed: set<string>)
    requires Clustered(RouteOf(a)) && PatternOf(a) in seen && PatternOf(a) !in others
    ensures EstimateJob(a, seen, reviewed).tokens.max < EstimateJob(a, others, reviewed).tokens.min
  {
  }

  /** The cost of a job but for its validation. */
  function Base(a: Job, known: bool): Band {
    var r := RouteOf(a);
    if Clustered(r) then (if known then AdaptationBand(r) else DesignBand(r)) else ORBITER_OTTO_REVIEW_BAND
  }

  /** The job costs validation tokens too. */
  predicate Validates(a: Job, reviewed: set<string>) {
    Clustered(RouteOf(a)) || (RouteOf(a) == OrbiterWithOttoReview && a.name in reviewed)
  }

  lemma CostOf(a: Job, seen: set<Pattern>, reviewed: set<string>)
    ensures EstimateJob(a, seen, reviewed).tokens ==
      if Validates(a, reviewed) then Plus(Base(a, PatternOf(a) in seen), ValidationIncrement(a))
      else if RouteOf(a) == OrbiterFirst then ORBITER_FIRST_REVIEW_BAND else NO_TOKENS
  {
  }

  /** `b` is like `a` but needs at least as much validation. */
  predicate NeedsMore(a: Job, b: Job) {
    && b == a.(risk := b.risk, blastRadius := b.blastRadius)
    && RiskOrder(a.risk) <= RiskOrder(b.risk) && a.blastRadius <= b.blastRadius
  }

  lemma IncrementGrows(a: Job, b: Job)
    requires NeedsMore(a, b)
    ensures var x, y := ValidationIncrement(a), ValidationIncrement(b);
      && x.min <= y.min && x.max <= y.max
      && (x != y <==> (RiskOrder(a.risk) < RiskOrder(MEDIUM) <= RiskOrder(b.risk)) || a.blastRadius < 5 <= b.blastRadius)
  {
    IncrementIs(a);
    IncrementIs(b);
  }

  /** One for a risk of MEDIUM or HIGH. */
  function AtRisk(r: Risk): int {
    if RiskOrder(r) >= RiskOrder(MEDIUM) then 1 else 0
  }

  /** One for a blast radius of five or more. */
  function FarReaching(radius: int): int {
    if radius >= 5 then 1 else 0
  }

  lemma IncrementIs(a: Job)
    ensures ValidationIncrement(a).min == 2000 * AtRisk(a.risk) + 1000 * FarReaching(a.blastRadius)
    ensures ValidationIncrement(a).max == 8000 * AtRisk(a.risk) + 4000 * FarReaching(a.blastRadius)
  {
  }

  /** Higher risk or a larger blast radius never makes a job cheaper, and adds tokens
      exactly where the risk becomes MEDIUM or the radius five, unless the job gets by
      without a pattern and without a review by Otto. */
  lemma ValidationAddsTokens(a: Job, b: Job, seen: set<Pattern>, reviewed: set<string>)
    requires NeedsMore(a, b)
    ensures var before, after := EstimateJob(a, seen, reviewed).tokens, EstimateJob(b, seen, reviewed).tokens;
      && before.min <= after.min && before.max <= after.max
      && (before != after <==>
            && (Clustered(RouteOf(a)) || (RouteOf(a) == OrbiterWithOttoReview && a.name in reviewed))
            && ((RiskOrder(a.risk) < RiskOrder(MEDIUM) <= RiskOrder(b.risk)) || a.blastRadius < 5 <= b.blastRadius))
  {
    CostOf(a, seen, reviewed);
    CostOf(b, seen, reviewed);
    IncrementGrows(a, b);
    var known := PatternOf(a) in seen;
    BothCosts(Base(a, known), ValidationIncrement(a), ValidationIncrement(b));
    assert Validates(a, reviewed) == Validates(b, reviewed) && Base(b, known) == Base(a, known);
  }

  lemma BothCosts(base: Band, x: Band, y: Band)
    ensures Plus(base, x) == Plus(base, y) <==> x == y
  {
  }

  function Mark(a: Job, seen: set<Pattern>): set<Pattern> {
    if Clustered(RouteOf(a)) then seen + {PatternOf(a)} else seen
  }

  /** The estimates of `jobs` in order, when the patterns in `seen` have been designed. */
  function Estimates(jobs: seq<Job>, seen: set<Pattern>, reviewed: set<string>): (ests: seq<Estimate>)
    ensures |ests| == |jobs| && forall i :: 0 <= i < |jobs| ==>
        ests[i].name == jobs[i].name && ests[i].route == RouteOf(jobs[i])
  {
    if jobs == [] then []
    else [EstimateJob(jobs[0], seen, reviewed)] + Estimates(jobs[1..], Mark(jobs[0], seen), reviewed)
  }

  // ----- one design per pattern

  /** `jobs[i]` is a clustered job of pattern `p`. */
  predicate HasPattern(jobs: seq<Job>, i: int, p: Pattern) {
    0 <= i < |jobs| && Clustered(RouteOf(jobs[i])) && PatternOf(jobs[i]) == p
  }

  /** No job before position `i` has the pattern. */
  predicate NoneBefore(jobs: seq<Job>, i: int, p: Pattern) {
    forall j :: 0 <= j < i ==> !HasPattern(jobs, j, p)
  }

  /** The estimate of clustered job `i` carries its pattern, and designs it exactly if
      the pattern is neither in `seen` nor that of an earlier job. */
  ghost predicate DesignAt(jobs: seq<Job>, seen: set<Pattern>, e: Estimate, i: nat)
    requires i < |jobs|
  {
    var p := PatternOf(jobs[i]);
    && e.pattern == Some(p)
    && e.role == if p !in seen && NoneBefore(jobs, i, p) then PatternDesign else PatternAdaptation
  }

  lemma DesignIsFirst(jobs: seq<Job>, seen: set<Pattern>, reviewed: set<string>, i: nat)
    requires i < |jobs| && Clustered(RouteOf(jobs[i]))
    ensures DesignAt(jobs, seen, Estimates(jobs, seen, reviewed)[i], i)
  {
    EstimateAt(jobs, seen, reviewed, i);
    SeenBeforeIff(jobs, seen, i, PatternOf(jobs[i]));
    RoleOfFirst(jobs[i], SeenBefore(jobs, seen, i), reviewed);
  }

  lemma {:induction false} SeenBeforeIff(jobs: seq<Job>, seen: set<Pattern>, i: nat, p: Pattern)
    requires i <= |jobs|
    ensures p in SeenBefore(jobs, seen, i) <==> p in seen || !NoneBefore(jobs, i, p)
  {
    if i > 0 {
      SeenBeforeIff(jobs[1..], Mark(jobs[0], seen), i - 1, p);
      Marked(jobs[0], seen, p);
      NoneBeforeNext(jobs, i, p);
    }
  }

  lemma RoleOfFirst(a: Job, seen: set<Pattern>, reviewed: set<string>)
    requires Clustered(RouteOf(a))
    ensures var e := EstimateJob(a, seen, reviewed);
      && e.pattern == Some(PatternOf(a))
      && e.role == if PatternOf(a) !in seen then PatternDesign else PatternAdaptation
  {
  }

  lemma Marked(a: Job, seen: set<Pattern>, p: Pattern)
    ensures p in Mark(a, seen) <==> p in seen || (Clustered(RouteOf(a)) && PatternOf(a) == p)
  {
  }

  lemma NoneBeforeNext(jobs: seq<Job>, i: nat, p: Pattern)
    requires 0 < i <= |jobs|
    ensures NoneBefore(jobs, i, p) <==>
      !(Clustered(RouteOf(jobs[0])) && PatternOf(jobs[0]) == p) && NoneBefore(jobs[1..], i - 1, p)
  {
    if NoneBefore(jobs, i, p) {
      assert !HasPattern(jobs, 0, p);
      forall j | 0 <= j < i - 1 ensures !HasPattern(jobs[1..], j, p) {
        assert !HasPattern(jobs, j + 1, p);
      }
    } else {
      var j :| 0 <= j < i && HasPattern(jobs, j, p);
      assert j > 0 ==> HasPattern(jobs[1..], j - 1, p);
    }
  }

  lemma FirstWith(jobs: seq<Job>, p: Pattern, i: nat) returns (d: nat)
    requires HasPattern(jobs, i, p)
    ensures d <= i && HasPattern(jobs, d, p) && forall j :: 0 <= j < d ==> !HasPattern(jobs, j, p)
  {
    d := i;
    if j: nat :| j < i && HasPattern(jobs, j, p) {
      d := FirstWith(jobs, p, j);
    }
  }

  /** Every pattern in use has exactly one PATTERN_DESIGN job, the first in the list. */
  lemma OneDesignPerPattern(jobs: seq<Job>, reviewed: set<string>, p: Pattern, i: nat) returns (d: nat)
    requires HasPattern(jobs, i, p)
    ensures HasPattern(jobs, d, p)
    ensures var ests := Estimates(jobs, {}, reviewed);
      forall k :: HasPattern(jobs, k, p) ==>
        d <= k && ests[k].role == if k == d then PatternDesign else PatternAdaptation
  {
    d := FirstWith(jobs, p, i);
    forall k | HasPattern(jobs, k, p)
      ensures d <= k && Estimates(jobs, {}, reviewed)[k].role == if k == d then PatternDesign else PatternAdaptation
    {
      DesignIsFirst(jobs, {}, reviewed, k);
      assert k == d ==> NoneBefore(jobs, k, p);
    }
  }

  // ----- the clustered total

  function Sum<T>(xs: seq<T>, f: T -> Band): Band {
    if |xs| == 0 then NO_TOKENS
    else
      var rest := Sum(xs[1..], f);
      Band(f(xs[0]).min + rest.min, f(xs[0]).max + rest.max)
  }

  lemma {:induction false} SumConcat<T>(a: seq<T>, b: seq<T>, f: T -> Band)
    ensures Sum(a + b, f).min == Sum(a, f).min + Sum(b, f).min
    ensures Sum(a + b, f).max == Sum(a, f).max + Sum(b, f).max
  {
    if a == [] {
      assert a + b == b;
    } else {
      assert (a + b)[1..] == a[1..] + b;
      SumConcat(a[1..], b, f);
    }
  }

  /** A sum does not depend on the order. */
  lemma {:induction false} SumPermutes<T>(a: seq<T>, b: seq<T>, f: T -> Band)
    requires multiset(a) == multiset(b)
    ensures Sum(a, f) == Sum(b, f)
  {
    SameMembers(a, b);
    if a != [] {
      var k := TakeOut(a, b);
      SumPermutes(a[1..], b[..k] + b[k + 1..], f);
      SumConcat(b[..k], b[k + 1..], f);
      SumConcat(b[..k], [b[k]] + b[k + 1..], f);
      assert ([b[k]] + b[k + 1..])[1..] == b[k + 1..];
    }
  }

  lemma {:induction false} SumPointwise<T>(xs: seq<T>, f: T -> Band, g: T -> Band)
    requires forall i :: 0 <= i < |xs| ==> f(xs[i]) == g(xs[i])
    ensures Sum(xs, f) == Sum(xs, g)
  {
    if xs != [] {
      SumPointwise(xs[1..], f, g);
    }
  }

  lemma {:induction false} SumPlus<T>(xs: seq<T>, f: T -> Band, g: T -> Band, h: T -> Band)
    requires forall i :: 0 <= i < |xs| ==> h(xs[i]) == Plus(f(xs[i]), g(xs[i]))
    ensures Sum(xs, h).min == Sum(xs, f).min + Sum(xs, g).min
    ensures Sum(xs, h).max == Sum(xs, f).max + Sum(xs, g).max
  {
    if xs != [] {
      SumPlus(xs[1..], f, g, h);
    }
  }

  function ClusteredTokens(e: Estimate): Band {
    if Clustered(e.route) then e.tokens else NO_TOKENS
  }

  /** The part of a clustered job's cost that is there in either role. */
  function Adapting(a: Job): Band {
    if Clustered(RouteOf(a)) then AdaptationBand(RouteOf(a)) else NO_TOKENS
  }

  function Validating(a: Job): Band {
    if Clustered(RouteOf(a)) then ValidationIncrement(a) else NO_TOKENS
  }

  /** What designing a pattern costs on top of adapting it. */
  function DesignExtra(p: Pattern): Band {
    var d, a := DesignBand(PatternRoute(p)), AdaptationBand(PatternRoute(p));
    Band(d.min - a.min, d.max - a.max)
  }

  /** The patterns of the clustered jobs that are not in `seen`, in order of appearance. */
  function NewPatterns(jobs: seq<Job>, seen: set<Pattern>): (patterns: seq<Pattern>)
    ensures forall p :: p in patterns ==> p !in seen
  {
    if jobs == [] then []
    else
      var a := jobs[0];
      (if Clustered(RouteOf(a)) && PatternOf(a) !in seen then [PatternOf(a)] else []) +
          NewPatterns(jobs[1..], Mark(a, seen))
  }

  lemma PatternInFront(jobs: seq<Job>, p: Pattern)
    requires |jobs| > 0
    ensures (exists i :: HasPattern(jobs, i, p)) <==> HasPattern(jobs, 0, p) || exists i :: HasPattern(jobs[1..], i, p)
  {
    if i :| HasPattern(jobs, i, p) {
      assert i == 0 || HasPattern(jobs[1..], i - 1, p);
    }
    if i :| HasPattern(jobs[1..], i, p) {
      assert HasPattern(jobs, i + 1, p);
    }
  }

  lemma {:induction false} NewPatternsAre(jobs: seq<Job>, seen: set<Pattern>, p: Pattern)
    ensures p in NewPatterns(jobs, seen) <==> p !in seen && exists i :: HasPattern(jobs, i, p)
  {
    if |jobs| > 0 {
      NewPatternsAre(jobs[1..], Mark(jobs[0], seen), p);
      PatternInFront(jobs, p);
      assert HasPattern(jobs, 0, p) <==> Clustered(RouteOf(jobs[0])) && PatternOf(jobs[0]) == p;
    }
  }

  lemma {:induction false} NewPatternsDistinct(jobs: seq<Job>, seen: set<Pattern>)
    ensures NoDup(NewPatterns(jobs, seen))
  {
    if |jobs| > 0 {
      NewPatternsDistinct(jobs[1..], Mark(jobs[0], seen));
    }
  }

  lemma NewPatternsFacts(jobs: seq<Job>, seen: set<Pattern>)
    ensures NoDup(NewPatterns(jobs, seen))
    ensures forall p :: p in NewPatterns(jobs, seen) <==> p !in seen && exists i :: HasPattern(jobs, i, p)
  {
    NewPatternsDistinct(jobs, seen);
    forall p ensures p in NewPatterns(jobs, seen) <==> p !in seen && exists i :: HasPattern(jobs, i, p) {
      NewPatternsAre(jobs, seen, p);
    }
  }

  /** The clustered cost is the adaptation and validation of every job, plus the extra
      of one design for every new pattern. */
  lemma {:induction false} CostSplits(jobs: seq<Job>, seen: set<Pattern>, reviewed: set<string>)
    ensures var cost := Sum(Estimates(jobs, seen, reviewed), ClusteredTokens);
      && cost.min == Sum(jobs, Adapting).min + Sum(jobs, Validating).min + Sum(NewPatterns(jobs, seen), DesignExtra).min
      && cost.max == Sum(jobs, Adapting).max + Sum(jobs, Validating).max + Sum(NewPatterns(jobs, seen), DesignExtra).max
  {
    if jobs != [] {
      var a := jobs[0];
      CostSplits(jobs[1..], Mark(a, seen), reviewed);
      PatternFixesRoute(a);
      assert Estimates(jobs, seen, reviewed)[1..] == Estimates(jobs[1..], Mark(a, seen), reviewed);
      SumConcat(if Clustered(RouteOf(a)) &&
          PatternOf(a) !in seen then [PatternOf(a)] else [], NewPatterns(jobs[1..], Mark(a, seen)), DesignExtra);
    }
  }

  /** How many clustered jobs have the pattern. */
  function Count(jobs: seq<Job>, p: Pattern): nat {
    if |jobs| == 0 then 0 else (if HasPattern(jobs, 0, p) then 1 else 0) + Count(jobs[1..], p)
  }

  lemma {:induction false} CountPositive(jobs: seq<Job>, p: Pattern, i: nat)
    requires HasPattern(jobs, i, p)
    ensures Count(jobs, p) > 0
  {
    if i > 0 {
      assert HasPattern(jobs[1..], i - 1, p);
      CountPositive(jobs[1..], p, i - 1);
    }
  }

  /** Changing a function at one member of a list without repetitions. */
  lemma {:induction false} SumBump<T(!new)>(xs: seq<T>, f: T -> Band, g: T -> Band, k: T, c: Band)
    requires NoDup(xs) && f(k) == Plus(g(k), c)
    requires forall i :: 0 <= i < |xs| && xs[i] != k ==> f(xs[i]) == g(xs[i])
    ensures Sum(xs, f).min == Sum(xs, g).min + if k in xs then c.min else 0
    ensures Sum(xs, f).max == Sum(xs, g).max + if k in xs then c.max else 0
  {
    if xs != [] {
      assert xs == [xs[0]] + xs[1..];
      SumBump(xs[1..], f, g, k, c);
    }
  }

  function AdaptAll(jobs: seq<Job>): Pattern -> Band {
    p => Times(Count(jobs, p), AdaptationBand(PatternRoute(p)))
  }

  /** The cost of a pattern: one design, and an adaptation for each further job. */
  function PatternCost(jobs: seq<Job>): Pattern -> Band {
    p => Plus(DesignBand(PatternRoute(p)), Times(Count(jobs, p) - 1, AdaptationBand(PatternRoute(p))))
  }

  lemma AdaptNext(jobs: seq<Job>, p: Pattern)
    requires jobs != []
    ensures AdaptAll(jobs)(p) == if HasPattern(jobs, 0, p) then Plus(AdaptAll(jobs[1..])(p),
        AdaptationBand(PatternRoute(p)))
                                 else AdaptAll(jobs[1..])(p)
  {
    TimesNext(Count(jobs[1..], p), AdaptationBand(PatternRoute(p)));
  }

  lemma TimesNext(n: int, b: Band)
    ensures Times(n + 1, b) == Plus(Times(n, b), b)
  {
  }

  lemma AdaptNone(jobs: seq<Job>, p: Pattern)
    requires |jobs| == 0
    ensures AdaptAll(jobs)(p) == NO_TOKENS
  {
    assert Count(jobs, p) == 0;
  }

  lemma {:induction false} SumZero<T>(xs: seq<T>, f: T -> Band)
    requires forall i :: 0 <= i < |xs| ==> f(xs[i]) == NO_TOKENS
    ensures Sum(xs, f) == NO_TOKENS
  {
    if |xs| > 0 {
      SumZero(xs[1..], f);
    }
  }

  lemma {:induction false} AdaptingByPattern(jobs: seq<Job>, patterns: seq<Pattern>)
    requires NoDup(patterns) && forall i :: 0 <= i < |jobs| && Clustered(RouteOf(jobs[i])) ==>
        PatternOf(jobs[i]) in patterns
    ensures Sum(jobs, Adapting).min == Sum(patterns, AdaptAll(jobs)).min
    ensures Sum(jobs, Adapting).max == Sum(patterns, AdaptAll(jobs)).max
  {
    if |jobs| == 0 {
      forall i | 0 <= i < |patterns| ensures AdaptAll(jobs)(patterns[i]) == NO_TOKENS {
        AdaptNone(jobs, patterns[i]);
      }
      SumZero(patterns, AdaptAll(jobs));
    } else {
      AdaptingByPattern(jobs[1..], patterns);
      AddJob(jobs, patterns);
    }
  }

  lemma AddJob(jobs: seq<Job>, patterns: seq<Pattern>)
    requires jobs != [] && NoDup(patterns) && (Clustered(RouteOf(jobs[0])) ==> PatternOf(jobs[0]) in patterns)
    ensures Sum(patterns, AdaptAll(jobs)).min == Sum(patterns, AdaptAll(jobs[1..])).min + Adapting(jobs[0]).min
    ensures Sum(patterns, AdaptAll(jobs)).max == Sum(patterns, AdaptAll(jobs[1..])).max + Adapting(jobs[0]).max
  {
    var a := jobs[0];
    var f, g := AdaptAll(jobs), AdaptAll(jobs[1..]);
    PatternFixesRoute(a);
    forall p ensures f(p) == if HasPattern(jobs, 0, p) then Plus(g(p), AdaptationBand(PatternRoute(p))) else g(p) {
      AdaptNext(jobs, p);
    }
    if Clustered(RouteOf(a)) {
      assert HasPattern(jobs, 0, PatternOf(a));
      SumBump(patterns, f, g, PatternOf(a), Adapting(a));
    } else {
      SumPointwise(patterns, f, g);
    }
  }

  lemma DesignedOnce(jobs: seq<Job>, p: Pattern)
    ensures PatternCost(jobs)(p).min == DesignExtra(p).min + AdaptAll(jobs)(p).min
    ensures PatternCost(jobs)(p).max == DesignExtra(p).max + AdaptAll(jobs)(p).max
  {
  }

  /** The clustered total: for every pattern one design and an adaptation for each
      further job of it, and for every clustered job its validation increment. */
  lemma ClusteredTotal(jobs: seq<Job>, reviewed: set<string>)
    ensures var cost, patterns := Sum(Estimates(jobs, {}, reviewed), ClusteredTokens), NewPatterns(jobs, {});
      && cost.min == Sum(patterns, PatternCost(jobs)).min + Sum(jobs, Validating).min
      && cost.max == Sum(patterns, PatternCost(jobs)).max + Sum(jobs, Validating).max
      && NoDup(patterns) && forall p :: p in patterns <==> exists i :: HasPattern(jobs, i, p)
  {
    var patterns := NewPatterns(jobs, {});
    CostSplits(jobs, {}, reviewed);
    NewPatternsFacts(jobs, {});
    forall i | 0 <= i < |jobs| && Clustered(RouteOf(jobs[i])) ensures PatternOf(jobs[i]) in patterns {
      assert HasPattern(jobs, i, PatternOf(jobs[i]));
    }
    AdaptingByPattern(jobs, patterns);
    PatternCosts(jobs, patterns);
  }

  lemma PatternCosts(jobs: seq<Job>, patterns: seq<Pattern>)
    ensures Sum(patterns, PatternCost(jobs)).min == Sum(patterns, DesignExtra).min + Sum(patterns, AdaptAll(jobs)).min
    ensures Sum(patterns, PatternCost(jobs)).max == Sum(patterns, DesignExtra).max + Sum(patterns, AdaptAll(jobs)).max
  {
    forall p ensures PatternCost(jobs)(p) == Plus(DesignExtra(p), AdaptAll(jobs)(p)) {
      DesignedOnce(jobs, p);
    }
    SumPlus(patterns, DesignExtra, AdaptAll(jobs), PatternCost(jobs));
  }

  lemma SamePatterns(a: seq<Job>, b: seq<Job>)
    requires multiset(a) == multiset(b)
    ensures multiset(NewPatterns(a, {})) == multiset(NewPatterns(b, {}))
  {
    NewPatternsFacts(a, {});
    NewPatternsFacts(b, {});
    SameMembers(a, b);
    forall p ensures p in NewPatterns(a, {}) <==> p in NewPatterns(b, {}) {
      if i :| HasPattern(a, i, p) {
        assert a[i] in b;
        var j :| 0 <= j < |b| && b[j] == a[i];
        assert HasPattern(b, j, p);
      }
      if i :| HasPattern(b, i, p) {
        assert b[i] in a;
        var j :| 0 <= j < |a| && a[j] == b[i];
        assert HasPattern(a, j, p);
      }
    }
    NoDupSameMembers(NewPatterns(a, {}), NewPatterns(b, {}));
  }

  /** Which job of a pattern pays for the design depends on the order of the jobs; the
      clustered total does not. */
  lemma ClusteredTotalIgnoresOrder(a: seq<Job>, b: seq<Job>, reviewedA: set<string>, reviewedB: set<string>)
    requires multiset(a) == multiset(b)
    ensures Sum(Estimates(a, {}, reviewedA), ClusteredTokens) == Sum(Estimates(b, {}, reviewedB), ClusteredTokens)
  {
    CostSplits(a, {}, reviewedA);
    CostSplits(b, {}, reviewedB);
    SumPermutes(a, b, Adapting);
    SumPermutes(a, b, Validating);
    SamePatterns(a, b);
    SumPermutes(NewPatterns(a, {}), NewPatterns(b, {}), DesignExtra);
  }

  // ----- the sample of M jobs

  function MJobs(jobs: seq<Job>): seq<Job> {
    if jobs == [] then []
    else (if RouteOf(jobs[0]) == OrbiterWithOttoReview then [jobs[0]] else []) + MJobs(jobs[1..])
  }

  /** Rounds `q` and `r` tenths to the nearest integer, halves to even. */
  function HalfEven(q: nat, r: nat): (k: nat)
    requires r < 10
    ensures -5 <= 10 * k - (10 * q + r) <= 5
    ensures 10 * k - (10 * q + r) == 5 || 10 * k - (10 * q + r) == -5 ==> k % 2 == 0
  {
    if r < 5 || (r == 5 && q % 2 == 0) then q else q + 1
  }

  lemma Tenths(m: nat)
    ensures m == 10 * (m / 10) + m % 10 && m % 10 < 10
  {
  }

  /** `round(n * 0.3)`, which rounds halves to even. */
  function Sampled(n: nat): (k: nat)
    ensures k <= n
    ensures -5 <= 10 * k - 3 * n <= 5 && (10 * k - 3 * n == 5 || 10 * k - 3 * n == -5 ==> k % 2 == 0)
  {
    Tenths(3 * n);
    HalfEven(3 * n / 10, 3 * n % 10)
  }

  function Reviewed(jobs: seq<Job>): set<string> {
    var ms := MJobs(jobs);
    set i | 0 <= i < Sampled(|ms|) :: ms[i].name
  }

  /** All estimates of a run, in the order of the jobs. */
  function Budget(jobs: seq<Job>): seq<Estimate> {
    Estimates(jobs, {}, Reviewed(jobs))
  }

  /** How many M jobs come before job `i`. */
  function RankOf(jobs: seq<Job>, i: nat): nat
    requires i <= |jobs|
  {
    if i == 0 then 0 else (if RouteOf(jobs[0]) == OrbiterWithOttoReview then 1 else 0) + RankOf(jobs[1..], i - 1)
  }

  lemma {:induction false} RankedJob(jobs: seq<Job>, i: nat)
    requires i < |jobs| && RouteOf(jobs[i]) == OrbiterWithOttoReview
    ensures RankOf(jobs, i) < |MJobs(jobs)| && MJobs(jobs)[RankOf(jobs, i)] == jobs[i]
  {
    if i > 0 {
      RankedJob(jobs[1..], i - 1);
    }
  }

  lemma {:induction false} MJobsAreJobs(jobs: seq<Job>, k: nat) returns (i: nat)
    requires k < |MJobs(jobs)|
    ensures i < |jobs| && MJobs(jobs)[k] == jobs[i] && RouteOf(jobs[i]) == OrbiterWithOttoReview && RankOf(jobs, i) == k
  {
    if RouteOf(jobs[0]) == OrbiterWithOttoReview && k == 0 {
      i := 0;
    } else {
      var first := if RouteOf(jobs[0]) == OrbiterWithOttoReview then 1 else 0;
      i := MJobsAreJobs(jobs[1..], k - first);
      i := i + 1;
    }
  }

  /** With unique names the M jobs that cost tokens are the first ones of the list, as
      many as the sample; the others cost nothing. */
  lemma ReviewedAreTheFirst(jobs: seq<Job>, i: nat)
    requires UniqueJobs(jobs) && i < |jobs| && RouteOf(jobs[i]) == OrbiterWithOttoReview
    ensures Budget(jobs)[i].tokens == if RankOf(jobs, i) < Sampled(|MJobs(jobs)|)
                                      then Plus(ORBITER_OTTO_REVIEW_BAND, ValidationIncrement(jobs[i])) else NO_TOKENS
  {
    EstimateAt(jobs, {}, Reviewed(jobs), i);
    ReviewedIff(jobs, i);
  }

  lemma ReviewedIff(jobs: seq<Job>, i: nat)
    requires UniqueJobs(jobs) && i < |jobs| && RouteOf(jobs[i]) == OrbiterWithOttoReview
    ensures jobs[i].name in Reviewed(jobs) <==> RankOf(jobs, i) < Sampled(|MJobs(jobs)|)
  {
    RankedJob(jobs, i);
    if RankOf(jobs, i) < Sampled(|MJobs(jobs)|) {
      SampledIsReviewed(jobs, RankOf(jobs, i));
    } else if jobs[i].name in Reviewed(jobs) {
      var m := ReviewedIsSampled(jobs, jobs[i].name);
      var x := MJobsAreJobs(jobs, m);
      UniqueIndex(jobs, x, i);
    }
  }

  lemma UniqueIndex(jobs: seq<Job>, x: nat, i: nat)
    requires UniqueJobs(jobs) && x < |jobs| && i < |jobs| && jobs[x].name == jobs[i].name
    ensures x == i
  {
  }

  lemma SampledIsReviewed(jobs: seq<Job>, m: nat)
    requires m < Sampled(|MJobs(jobs)|)
    ensures MJobs(jobs)[m].name in Reviewed(jobs)
  {
  }

  lemma ReviewedIsSampled(jobs: seq<Job>, name: string) returns (m: nat)
    requires name in Reviewed(jobs)
    ensures m < Sampled(|MJobs(jobs)|) && MJobs(jobs)[m].name == name
  {
    m :| m < Sampled(|MJobs(jobs)|) && MJobs(jobs)[m].name == name;
  }

  function Tokens(e: Estimate): Band {
    e.tokens
  }

  // ----- the total, and what it owes to the order of the jobs

  function ReviewTokens(e: Estimate): Band {
    if Clustered(e.route) then NO_TOKENS else e.tokens
  }

  function FirstReview(a: Job): Band {
    if RouteOf(a) == OrbiterFirst then ORBITER_FIRST_REVIEW_BAND else NO_TOKENS
  }

  function OttoReview(a: Job): Band {
    Plus(ORBITER_OTTO_REVIEW_BAND, ValidationIncrement(a))
  }

  function ReviewIn(reviewed: set<string>): Job -> Band {
    a => if RouteOf(a) == OrbiterWithOttoReview && a.name in reviewed then OttoReview(a) else NO_TOKENS
  }

  /** The cost outside the clusters, job by job. */
  lemma {:induction false} ReviewSplits(jobs: seq<Job>, seen: set<Pattern>, reviewed: set<string>)
    ensures var cost := Sum(Estimates(jobs, seen, reviewed), ReviewTokens);
      && cost.min == Sum(jobs, FirstReview).min + Sum(jobs, ReviewIn(reviewed)).min
      && cost.max == Sum(jobs, FirstReview).max + Sum(jobs, ReviewIn(reviewed)).max
  {
    if jobs != [] {
      var a := jobs[0];
      ReviewSplits(jobs[1..], Mark(a, seen), reviewed);
      assert Estimates(jobs, seen, reviewed)[1..] == Estimates(jobs[1..], Mark(a, seen), reviewed);
    }
  }

  /** Only M jobs are reviewed in the sample. */
  lemma {:induction false} SumOverMJobs(jobs: seq<Job>, reviewed: set<string>)
    ensures Sum(jobs, ReviewIn(reviewed)).min == Sum(MJobs(jobs), ReviewIn(reviewed)).min
    ensures Sum(jobs, ReviewIn(reviewed)).max == Sum(MJobs(jobs), ReviewIn(reviewed)).max
  {
    if |jobs| > 0 {
      SumOverMJobs(jobs[1..], reviewed);
      SumConcat(if RouteOf(jobs[0]) == OrbiterWithOttoReview then [jobs[0]] else
          [], MJobs(jobs[1..]), ReviewIn(reviewed));
    }
  }

  lemma MJobIsReviewedIff(jobs: seq<Job>, m: nat)
    requires UniqueJobs(jobs) && m < |MJobs(jobs)|
    ensures RouteOf(MJobs(jobs)[m]) == OrbiterWithOttoReview
    ensures MJobs(jobs)[m].name in Reviewed(jobs) <==> m < Sampled(|MJobs(jobs)|)
  {
    var i := MJobsAreJobs(jobs, m);
    ReviewedIff(jobs, i);
  }

  /** The M jobs that are reviewed. */
  function Sample(jobs: seq<Job>): seq<Job> {
    MJobs(jobs)[..Sampled(|MJobs(jobs)|)]
  }

  /** A sum that ends where the function gives nothing. */
  lemma SumOfFront<T>(xs: seq<T>, k: nat, f: T -> Band, g: T -> Band)
    requires k <= |xs|
    requires forall m :: 0 <= m < k ==> f(xs[m]) == g(xs[m])
    requires forall m :: k <= m < |xs| ==> f(xs[m]) == NO_TOKENS
    ensures Sum(xs, f).min == Sum(xs[..k], g).min
    ensures Sum(xs, f).max == Sum(xs[..k], g).max
  {
    var front, back := xs[..k], xs[k..];
    assert forall m :: 0 <= m < |front| ==> front[m] == xs[m];
    assert forall m :: 0 <= m < |back| ==> back[m] == xs[k + m];
    SumPointwise(front, f, g);
    SumZero(back, f);
    TakeAndDrop(xs, k);
    SumConcat(front, back, f);
  }

  lemma SampleAt(jobs: seq<Job>, m: nat)
    requires UniqueJobs(jobs) && m < |MJobs(jobs)|
    ensures ReviewIn(Reviewed(jobs))(MJobs(jobs)[m])
         == if m < |Sample(jobs)| then OttoReview(MJobs(jobs)[m]) else NO_TOKENS
  {
    MJobIsReviewedIff(jobs, m);
  }

  /** The sample costs the review of its members, and nothing else does. */
  lemma SampleCost(jobs: seq<Job>)
    requires UniqueJobs(jobs)
    ensures Sum(jobs, ReviewIn(Reviewed(jobs))).min == Sum(Sample(jobs), OttoReview).min
    ensures Sum(jobs, ReviewIn(Reviewed(jobs))).max == Sum(Sample(jobs), OttoReview).max
  {
    var ms, k, f := MJobs(jobs), |Sample(jobs)|, ReviewIn(Reviewed(jobs));
    SumOverMJobs(jobs, Reviewed(jobs));
    forall m | 0 <= m < |ms| ensures f(ms[m]) == if m < k then OttoReview(ms[m]) else NO_TOKENS {
      SampleAt(jobs, m);
    }
    SumOfFront(ms, k, f, OttoReview);
  }

  function EachReview(a: Job): Band {
    ORBITER_OTTO_REVIEW_BAND
  }

  lemma {:induction false} SumEach(a: seq<Job>, b: seq<Job>)
    requires |a| == |b|
    ensures Sum(a, EachReview) == Sum(b, EachReview)
  {
    if |a| > 0 {
      SumEach(a[1..], b[1..]);
    }
  }

  function One(a: Job): Band {
    if RouteOf(a) == OrbiterWithOttoReview then Band(1, 1) else NO_TOKENS
  }

  lemma {:induction false} MJobsCounted(jobs: seq<Job>)
    ensures |MJobs(jobs)| == Sum(jobs, One).min
  {
    if |jobs| > 0 {
      MJobsCounted(jobs[1..]);
    }
  }

  lemma UniqueInAnyOrder(a: seq<Job>, b: seq<Job>)
    requires multiset(a) == multiset(b) && UniqueJobs(a)
    ensures UniqueJobs(b)
  {
    SameMembers(a, b);
    NoDupCarriesOver(a, b);
    forall i, j | 0 <= i < j < |b| ensures b[i].name != b[j].name {
      assert b[i] in a && b[j] in a;
    }
  }

  /** The total of a run in its parts: all but the last depend on the jobs alone. */
  lemma TotalSplits(jobs: seq<Job>)
    requires UniqueJobs(jobs)
    ensures var total, clustered := Sum(Budget(jobs), Tokens), Sum(Budget(jobs), ClusteredTokens);
      && total.min == clustered.min + Sum(jobs, FirstReview).min + Sum(Sample(jobs), EachReview).min
                      + Sum(Sample(jobs), ValidationIncrement).min
      && total.max == clustered.max + Sum(jobs, FirstReview).max + Sum(Sample(jobs), EachReview).max
                      + Sum(Sample(jobs), ValidationIncrement).max
  {
    TokensSplit(Budget(jobs));
    ReviewSplits(jobs, {}, Reviewed(jobs));
    SampleCost(jobs);
    ReviewsSplit(Sample(jobs));
  }

  lemma TokensSplit(ests: seq<Estimate>)
    ensures Sum(ests, Tokens).min == Sum(ests, ClusteredTokens).min + Sum(ests, ReviewTokens).min
    ensures Sum(ests, Tokens).max == Sum(ests, ClusteredTokens).max + Sum(ests, ReviewTokens).max
  {
    SumPlus(ests, ClusteredTokens, ReviewTokens, Tokens);
  }

  lemma ReviewsSplit(ms: seq<Job>)
    ensures Sum(ms, OttoReview).min == Sum(ms, EachReview).min + Sum(ms, ValidationIncrement).min
    ensures Sum(ms, OttoReview).max == Sum(ms, EachReview).max + Sum(ms, ValidationIncrement).max
  {
    SumPlus(ms, EachReview, ValidationIncrement, OttoReview);
  }

  /** The sample is the first M jobs of the list, so the total depends on the order, and
      by nothing else than the validation increments of the sample. */
  lemma TotalIgnoresOrderIff(a: seq<Job>, b: seq<Job>)
    requires multiset(a) == multiset(b) && UniqueJobs(a)
    ensures |Sample(a)| == |Sample(b)| == Sampled(|MJobs(a)|)
    ensures Sum(Budget(a), Tokens) == Sum(Budget(b), Tokens) <==>
              Sum(Sample(a), ValidationIncrement) == Sum(Sample(b), ValidationIncrement)
    ensures Sum(Budget(a), Tokens).min - Sum(Budget(b), Tokens).min
         == Sum(Sample(a), ValidationIncrement).min - Sum(Sample(b), ValidationIncrement).min
    ensures Sum(Budget(a), Tokens).max - Sum(Budget(b), Tokens).max
         == Sum(Sample(a), ValidationIncrement).max - Sum(Sample(b), ValidationIncrement).max
  {
    SameSampleSize(a, b);
    UniqueInAnyOrder(a, b);
    TotalSplits(a);
    TotalSplits(b);
    ClusteredTotalIgnoresOrder(a, b, Reviewed(a), Reviewed(b));
    SumPermutes(a, b, FirstReview);
    SumEach(Sample(a), Sample(b));
  }

  lemma SameSampleSize(a: seq<Job>, b: seq<Job>)
    requires multiset(a) == multiset(b)
    ensures |Sample(a)| == |Sample(b)| == Sampled(|MJobs(a)|)
  {
    MJobsCounted(a);
    MJobsCounted(b);
    SumPermutes(a, b, One);
  }

  /** The smallest case: of two M jobs the first is reviewed. */
  lemma SampleDependsOnOrder(x: Job, y: Job)
    requires RouteOf(x) == RouteOf(y) == OrbiterWithOttoReview && x.name != y.name
    ensures Sum(Budget([x, y]), Tokens) == Sum(Budget([y, x]), Tokens) <==>
              ValidationIncrement(x) == ValidationIncrement(y)
  {
    MJobsOfTwo(x, y);
    MJobsOfTwo(y, x);
    assert Sampled(2) == 1;
    TotalIgnoresOrderIff([x, y], [y, x]);
    SumOfOne(x);
    SumOfOne(y);
  }

  lemma MJobsOfTwo(x: Job, y: Job)
    requires RouteOf(x) == RouteOf(y) == OrbiterWithOttoReview
    ensures MJobs([x, y]) == [x, y] && MJobs([x, y])[..1] == [x]
  {
    assert [x, y][1..] == [y] && [y][1..] == [];
    assert MJobs([y]) == [y] + MJobs([]);
    assert MJobs([x, y]) == [x] + MJobs([y]);
  }

  lemma SumOfOne(x: Job)
    ensures Sum([x], ValidationIncrement) == ValidationIncrement(x)
  {
    assert |[x][1..]| == 0;
  }

  // ----- the totals

  datatype Tally = Tally(jobs: nat, tokens: Band)

  /** What the estimates with key `k` add up to. */
  function TallyOf<K(==)>(keys: seq<K>, ests: seq<Estimate>, k: K): Tally
    requires |keys| == |ests|
  {
    if |keys| == 0 then Tally(0, NO_TOKENS)
    else
      var n := |keys| - 1;
      var rest := TallyOf(keys[..n], ests[..n], k);
      if keys[n] == k then Added(rest, ests[n]) else rest
  }

  /** The key is `k`. */
  ghost function IsKey<K(!new)>(k: K): K -> bool {
    x => x == k
  }

  /** A tally counts exactly the jobs of its key. */
  lemma {:induction false} TallyCounts<K(!new)>(keys: seq<K>, ests: seq<Estimate>, k: K)
    requires |keys| == |ests|
    ensures TallyOf(keys, ests, k).jobs == |Positions(keys, IsKey(k))|
  {
    if |keys| == 0 {
      PositionsStep(keys, IsKey(k));
    } else {
      var n := |keys| - 1;
      TallyCounts(keys[..n], ests[..n], k);
      PositionsLast(keys, IsKey(k));
    }
  }

  function Added(t: Tally, e: Estimate): Tally {
    Tally(t.jobs + 1, Band(t.tokens.min + e.tokens.min, t.tokens.max + e.tokens.max))
  }

  /** `m.setdefault(k, zero)`, then add the estimate. */
  function Bump<K>(m: map<K, Tally>, k: K, e: Estimate): map<K, Tally> {
    m[k := Added(if k in m then m[k] else Tally(0, NO_TOKENS), e)]
  }

  function TallyIn<K>(m: map<K, Tally>, k: K): Tally {
    if k in m then m[k] else Tally(0, NO_TOKENS)
  }

  ghost predicate Tallied<K(!new)>(m: map<K, Tally>, keys: seq<K>, ests: seq<Estimate>)
    requires |keys| == |ests|
  {
    && (forall k :: k in m <==> k in keys)
    && (forall k :: TallyIn(m, k) == TallyOf(keys, ests, k))
  }

  lemma BumpTallies<K(!new)>(m: map<K, Tally>, keys: seq<K>, ests: seq<Estimate>, n: nat)
    requires |keys| == |ests| && n < |keys| && Tallied(m, keys[..n], ests[..n])
    ensures Tallied(Bump(m, keys[n], ests[n]), keys[..n + 1], ests[..n + 1])
  {
    assert keys[..n + 1][..n] == keys[..n] && ests[..n + 1][..n] == ests[..n];
    assert keys[..n + 1] == keys[..n] + [keys[n]];
    forall k ensures TallyIn(Bump(m, keys[n], ests[n]), k) == TallyOf(keys[..n + 1], ests[..n + 1], k) {
      assert TallyIn(m, k) == TallyOf(keys[..n], ests[..n], k);
    }
  }

  function TalliesOf<K(==, !new)>(keys: seq<K>, ests: seq<Estimate>): K -> Band
    requires |keys| == |ests|
  {
    k => TallyOf(keys, ests, k).tokens
  }

  /** The tallies over any list of keys that covers all the estimates add up to the
      total. */
  lemma {:induction false} TalliesAddUp<K(!new)>(all: seq<K>, keys: seq<K>, ests: seq<Estimate>)
    requires |keys| == |ests| && NoDup(all) && forall k :: k in keys ==> k in all
    ensures Sum(all, TalliesOf(keys, ests)) == Sum(ests, Tokens)
  {
    if |keys| == 0 {
      SumZero(all, TalliesOf(keys, ests));
    } else {
      var n := |keys| - 1;
      SplitLast(ests);
      TalliesAddUp(all, keys[..n], ests[..n]);
      SumConcat(ests[..n], [ests[n]], Tokens);
      SumBump(all, TalliesOf(keys, ests), TalliesOf(keys[..n], ests[..n]), keys[n], ests[n].tokens);
    }
  }

  /** The names in the order in which they enter `by_job`. */
  function DistinctNames(ests: seq<Estimate>): seq<string> {
    if |ests| == 0 then []
    else
      var n := |ests| - 1;
      var before := DistinctNames(ests[..n]);
      if ests[n].name in before then before else before + [ests[n].name]
  }

  /** What `by_job` holds for a name: the last estimate with it. */
  function Latest(ests: seq<Estimate>, name: string): Option<Estimate> {
    if |ests| == 0 then None
    else if ests[|ests| - 1].name == name then Some(ests[|ests| - 1])
    else Latest(ests[..|ests| - 1], name)
  }

  ghost predicate Stored(byJob: map<string, Estimate>, names: seq<string>, ests: seq<Estimate>) {
    && names == DistinctNames(ests)
    && (forall n :: n in byJob <==> n in names)
    && (forall n :: Latest(ests, n) == if n in byJob then Some(byJob[n]) else None)
  }

  lemma StoreStep(byJob: map<string, Estimate>, names: seq<string>, ests: seq<Estimate>, i: nat)
    requires i < |ests| && Stored(byJob, names, ests[..i])
    ensures var name := ests[i].name;
      Stored(byJob[name := ests[i]], if name in byJob then names else names + [name], ests[..i + 1])
  {
    assert ests[..i + 1][..i] == ests[..i];
  }

  ghost predicate UniqueEstimates(ests: seq<Estimate>) {
    forall i, j :: 0 <= i < j < |ests| ==> ests[i].name != ests[j].name
  }

  lemma {:induction false} LatestOfUnique(ests: seq<Estimate>, i: nat)
    requires UniqueEstimates(ests) && i < |ests|
    ensures Latest(ests, ests[i].name) == Some(ests[i])
  {
    if i < |ests| - 1 {
      LatestOfUnique(ests[..|ests| - 1], i);
    }
  }

  lemma {:induction false} NamesOfUnique(ests: seq<Estimate>)
    requires UniqueEstimates(ests)
    ensures |DistinctNames(ests)| == |ests| && forall i :: 0 <= i < |ests| ==> DistinctNames(ests)[i] == ests[i].name
  {
    if |ests| > 0 {
      NamesOfUnique(ests[..|ests| - 1]);
    }
  }

  datatype Summary = Summary(tokens: Band, patternCount: nat, architecturePatternCount: nat,
                             byRoute: map<Route, Tally>, byTier: map<Size, Tally>, byJob: map<string, Estimate>)

  function RoutesIn(ests: seq<Estimate>): (r: seq<Route>)
    ensures |r| == |ests| && forall i :: 0 <= i < |ests| ==> r[i] == ests[i].route
  {
    if |ests| == 0 then [] else [ests[0].route] + RoutesIn(ests[1..])
  }

  function TiersOf(jobs: seq<Job>): (r: seq<Size>)
    ensures |r| == |jobs| && forall i :: 0 <= i < |jobs| ==> r[i] == jobs[i].size
  {
    if |jobs| == 0 then [] else [jobs[0].size] + TiersOf(jobs[1..])
  }

  /** `by_job[a.job_name]` for every job. */
  function Looked(byJob: map<string, Estimate>, jobs: seq<Job>): (ests: seq<Estimate>)
    requires forall i :: 0 <= i < |jobs| ==> jobs[i].name in byJob
    ensures |ests| == |jobs| && forall i :: 0 <= i < |jobs| ==> ests[i] == byJob[jobs[i].name]
  {
    if |jobs| == 0 then [] else [byJob[jobs[0].name]] + Looked(byJob, jobs[1..])
  }

  function TokensIn(byJob: map<string, Estimate>): string -> Band {
    n => if n in byJob then byJob[n].tokens else NO_TOKENS
  }

  ghost predicate UniqueJobs(jobs: seq<Job>) {
    forall i, j :: 0 <= i < j < |jobs| ==> jobs[i].name != jobs[j].name
  }

  /** The patterns seen before job `i`. */
  function SeenBefore(jobs: seq<Job>, seen: set<Pattern>, i: nat): set<Pattern>
    requires i <= |jobs|
  {
    if i == 0 then seen else SeenBefore(jobs[1..], Mark(jobs[0], seen), i - 1)
  }

  lemma {:induction false} SeenNext(jobs: seq<Job>, seen: set<Pattern>, i: nat)
    requires i < |jobs|
    ensures SeenBefore(jobs, seen, i + 1) == Mark(jobs[i], SeenBefore(jobs, seen, i))
  {
    if i > 0 {
      SeenNext(jobs[1..], Mark(jobs[0], seen), i - 1);
    }
  }

  lemma EstimateLater(jobs: seq<Job>, seen: set<Pattern>, reviewed: set<string>, i: nat)
    requires 0 < i < |jobs|
    ensures Estimates(jobs, seen, reviewed)[i] == Estimates(jobs[1..], Mark(jobs[0], seen), reviewed)[i - 1]
  {
  }

  lemma EstimateFirst(jobs: seq<Job>, seen: set<Pattern>, reviewed: set<string>)
    requires 0 < |jobs|
    ensures Estimates(jobs, seen, reviewed)[0] == EstimateJob(jobs[0], seen, reviewed)
  {
  }

  lemma {:induction false} EstimateAt(jobs: seq<Job>, seen: set<Pattern>, reviewed: set<string>, i: nat)
    requires i < |jobs|
    ensures Estimates(jobs, seen, reviewed)[i] == EstimateJob(jobs[i], SeenBefore(jobs, seen, i), reviewed)
  {
    if i == 0 {
      EstimateFirst(jobs, seen, reviewed);
    } else {
      EstimateLater(jobs, seen, reviewed, i);
      EstimateAt(jobs[1..], Mark(jobs[0], seen), reviewed, i - 1);
      assert jobs[1..][i - 1] == jobs[i];
    }
  }

  /** After all jobs, the patterns that were new are exactly those seen. */
  lemma {:induction false} AllSeen(jobs: seq<Job>, seen: set<Pattern>)
    ensures forall p :: p in SeenBefore(jobs, seen, |jobs|) <==> p in seen || p in NewPatterns(jobs, seen)
  {
    if |jobs| > 0 {
      AllSeen(jobs[1..], Mark(jobs[0], seen));
    }
  }

  /** `seen_patterns`, one set per clustered route. */
  ghost predicate SplitByRoute(seen: set<Pattern>, redesign: set<Pattern>, architecture: set<Pattern>) {
    && seen == redesign + architecture
    && (forall p :: p in redesign ==> PatternRoute(p) == OttoAssistedRedesign)
    && (forall p :: p in architecture ==> PatternRoute(p) == ArchitectureWithOtto)
  }

  /** A pattern has one route, so looking for it among the patterns of the job's own
      route is looking for it among all. */
  lemma SeenOnItsRoute(a: Job, seen: set<Pattern>, redesign: set<Pattern>, architecture: set<Pattern>)
    requires SplitByRoute(seen, redesign, architecture)
    ensures RouteOf(a) == OttoAssistedRedesign ==> (PatternOf(a) in seen <==> PatternOf(a) in redesign)
    ensures RouteOf(a) == ArchitectureWithOtto ==> (PatternOf(a) in seen <==> PatternOf(a) in architecture)
  {
    PatternFixesRoute(a);
  }

  lemma MarkedOnItsRoute(a: Job, seen: set<Pattern>, redesign: set<Pattern>, architecture: set<Pattern>)
    requires SplitByRoute(seen, redesign, architecture)
    ensures RouteOf(a) == OttoAssistedRedesign ==>
      SplitByRoute(Mark(a, seen), redesign + {PatternOf(a)}, architecture)
    ensures RouteOf(a) == ArchitectureWithOtto ==>
      SplitByRoute(Mark(a, seen), redesign, architecture + {PatternOf(a)})
    ensures !Clustered(RouteOf(a)) ==> SplitByRoute(Mark(a, seen), redesign, architecture)
  {
    PatternFixesRoute(a);
  }

  lemma SameEstimate(a: Job, seen: set<Pattern>, others: set<Pattern>, reviewed: set<string>)
    requires Clustered(RouteOf(a)) ==> (PatternOf(a) in seen <==> PatternOf(a) in others)
    ensures EstimateJob(a, others, reviewed) == EstimateJob(a, seen, reviewed)
    ensures Clustered(RouteOf(a)) ==> EstimateClustered(a, others) == EstimateJob(a, seen, reviewed)
  {
  }

  /** One turn of the first loop: the estimate, and the pattern marked as seen on its
      own route. */
  method EstimateOne(a: Job, reviewed: set<string>, redesign: set<Pattern>, architecture: set<Pattern>,
                     ghost seen: set<Pattern>)
    returns (e: Estimate, redesign': set<Pattern>, architecture': set<Pattern>)
    requires SplitByRoute(seen, redesign, architecture)
    ensures e == EstimateJob(a, seen, reviewed) && SplitByRoute(Mark(a, seen), redesign', architecture')
  {
    redesign', architecture' := redesign, architecture;
    SeenOnItsRoute(a, seen, redesign, architecture);
    MarkedOnItsRoute(a, seen, redesign, architecture);
    if RouteOf(a) == OttoAssistedRedesign {
      SameEstimate(a, seen, redesign, reviewed);
      e := EstimateClustered(a, redesign);
      redesign' := redesign + {PatternOf(a)};
    } else if RouteOf(a) == ArchitectureWithOtto {
      SameEstimate(a, seen, architecture, reviewed);
      e := EstimateClustered(a, architecture);
      architecture' := architecture + {PatternOf(a)};
    } else {
      SameEstimate(a, seen, redesign, reviewed);
      e := EstimateJob(a, redesign, reviewed);
    }
  }

  lemma PatternsCounted(jobs: seq<Job>, redesign: set<Pattern>, architecture: set<Pattern>)
    requires SplitByRoute(SeenBefore(jobs, {}, |jobs|), redesign, architecture)
    ensures |redesign| + |architecture| == |NewPatterns(jobs, {})|
    ensures forall p :: p in architecture <==> p in NewPatterns(jobs, {}) && PatternRoute(p) == ArchitectureWithOtto
  {
    AllSeen(jobs, {});
    NewPatternsFacts(jobs, {});
    var patterns := NewPatterns(jobs, {});
    SetOfDistinct(patterns, redesign + architecture);
    assert redesign !! architecture;
  }

  lemma {:induction false} SetOfDistinct<T(!new)>(xs: seq<T>, s: set<T>)
    requires NoDup(xs) && forall x :: x in xs <==> x in s
    ensures |s| == |xs|
  {
    if |xs| == 0 {
      assert s == {};
    } else {
      assert xs == [xs[0]] + xs[1..];
      SetOfDistinct(xs[1..], s - {xs[0]});
    }
  }

  /** The first loop: one estimate per job, stored under the job's name. */
  method EstimateAll(jobs: seq<Job>)
    returns (byJob: map<string, Estimate>, names: seq<string>, patterns: nat, architecture: set<Pattern>)
    ensures Stored(byJob, names, Budget(jobs)) && patterns == |NewPatterns(jobs, {})|
    ensures forall p :: p in architecture <==> p in NewPatterns(jobs, {}) && PatternRoute(p) == ArchitectureWithOtto
  {
    var reviewed := Reviewed(jobs);
    var redesign: set<Pattern> := {};
    architecture := {};
    ghost var ests := Budget(jobs);
    byJob, names := map[], [];
    for i := 0 to |jobs|
      invariant SplitByRoute(SeenBefore(jobs, {}, i), redesign, architecture)
      invariant Stored(byJob, names, ests[..i])
    {
      var e: Estimate;
      e, redesign, architecture := EstimateOne(jobs[i], reviewed, redesign, architecture, SeenBefore(jobs, {}, i));
      EstimateAt(jobs, {}, reviewed, i);
      SeenNext(jobs, {}, i);
      StoreStep(byJob, names, ests, i);
      if e.name !in byJob {
        names := names + [e.name];
      }
      byJob := byJob[e.name := e];
    }
    assert ests[..|jobs|] == ests;
    PatternsCounted(jobs, redesign, architecture);
    patterns := |redesign| + |architecture|;
  }

  /** The second loop: the tallies per route and per tier. */
  method TallyAll(jobs: seq<Job>, byJob: map<string, Estimate>) returns (byRoute: map<Route, Tally>,
                  byTier: map<Size, Tally>)
    requires forall i :: 0 <= i < |jobs| ==> jobs[i].name in byJob
    ensures var ests := Looked(byJob, jobs); Tallied(byRoute, RoutesIn(ests), ests) && Tallied(byTier, TiersOf(jobs), ests)
  {
    ghost var ests := Looked(byJob, jobs);
    ghost var routes, tiers := RoutesIn(ests), TiersOf(jobs);
    byRoute, byTier := map[], map[];
    for i := 0 to |jobs|
      invariant Tallied(byRoute, routes[..i], ests[..i]) && Tallied(byTier, tiers[..i], ests[..i])
    {
      var e := byJob[jobs[i].name];
      BumpTallies(byRoute, routes, ests, i);
      BumpTallies(byTier, tiers, ests, i);
      byRoute := Bump(byRoute, e.route, e);
      byTier := Bump(byTier, jobs[i].size, e);
    }
    assert routes[..|jobs|] == routes && tiers[..|jobs|] == tiers && ests[..|jobs|] == ests;
  }

  /** `sum(e.min_tokens for e in by_job.values())`, and the same for the maximum. */
  method AddUp(names: seq<string>, byJob: map<string, Estimate>) returns (total: Band)
    requires forall i :: 0 <= i < |names| ==> names[i] in byJob
    ensures total == Sum(names, TokensIn(byJob))
  {
    total := NO_TOKENS;
    for i := 0 to |names|
      invariant total == Sum(names[..i], TokensIn(byJob))
    {
      var t := byJob[names[i]].tokens;
      assert names[..i + 1] == names[..i] + [names[i]];
      SumConcat(names[..i], [names[i]], TokensIn(byJob));
      total := Band(total.min + t.min, total.max + t.max);
    }
    assert names[..|names|] == names;
  }

  lemma UniqueLooked(jobs: seq<Job>, byJob: map<string, Estimate>, names: seq<string>)
    requires UniqueJobs(jobs) && Stored(byJob, names, Budget(jobs))
    ensures (forall i :: 0 <= i < |jobs| ==> jobs[i].name in byJob)
    ensures Looked(byJob, jobs) == Budget(jobs) && RoutesIn(Budget(jobs)) == RoutesIn(Looked(byJob, jobs))
    ensures Sum(names, TokensIn(byJob)) == Sum(Budget(jobs), Tokens)
  {
    var ests := Budget(jobs);
    assert UniqueEstimates(ests);
    forall i | 0 <= i < |jobs| ensures jobs[i].name in byJob && byJob[jobs[i].name] == ests[i] {
      LatestOfUnique(ests, i);
    }
    NamesOfUnique(ests);
    SameSum(names, ests, TokensIn(byJob), Tokens);
  }

  lemma {:induction false} SameSum<S, T>(xs: seq<S>, ys: seq<T>, f: S -> Band, g: T -> Band)
    requires |xs| == |ys| && forall i :: 0 <= i < |xs| ==> f(xs[i]) == g(ys[i])
    ensures Sum(xs, f) == Sum(ys, g)
  {
    if |xs| > 0 {
      SameSum(xs[1..], ys[1..], f, g);
    }
  }

  const ALL_ROUTES := [OrbiterFirst, OrbiterWithOttoReview, OttoAssistedRedesign, ArchitectureWithOtto]
  const ALL_TIERS := [XS, S, M, L, XL]

  function TokensOf<K(==, !new)>(m: map<K, Tally>): K -> Band {
    k => TallyIn(m, k).tokens
  }

  /** Tallies by a key that runs through `all` add up to the total. */
  lemma TalliesSum<K(!new)>(all: seq<K>, m: map<K, Tally>, keys: seq<K>, ests: seq<Estimate>)
    requires |keys| == |ests| && Tallied(m, keys, ests) && NoDup(all) && forall k :: k in keys ==> k in all
    ensures Sum(all, TokensOf(m)) == Sum(ests, Tokens)
  {
    TalliesAddUp(all, keys, ests);
    SumPointwise(all, TokensOf(m), TalliesOf(keys, ests));
  }

  lemma EveryRouteListed(r: Route)
    ensures r in ALL_ROUTES && NoDup(ALL_ROUTES)
  {
    assert ALL_ROUTES[match r case OrbiterFirst => 0 case OrbiterWithOttoReview => 1 case OttoAssistedRedesign => 2 case ArchitectureWithOtto => 3] == r;
  }

  lemma EveryTierListed(t: Size)
    ensures t in ALL_TIERS && NoDup(ALL_TIERS)
  {
    assert ALL_TIERS[match t case XS => 0 case S => 1 case M => 2 case L => 3 case XL => 4] == t;
  }

  /** The budget of a run.  With unique job names the total is the sum of all the
      estimates, and of the tallies per route, and of the tallies per tier. */
  method ComputeTokenBudget(jobs: seq<Job>) returns (s: Summary)
    ensures Stored(s.byJob, DistinctNames(Budget(jobs)), Budget(jobs))
    ensures s.tokens == Sum(DistinctNames(Budget(jobs)), TokensIn(s.byJob))
    ensures s.patternCount == |NewPatterns(jobs, {})|
    ensures s.architecturePatternCount == |set p | p in NewPatterns(jobs, {}) && PatternRoute(p) == ArchitectureWithOtto|
    ensures forall i :: 0 <= i < |jobs| ==> jobs[i].name in s.byJob
    ensures var ests := Looked(s.byJob, jobs);
      Tallied(s.byRoute, RoutesIn(ests), ests) && Tallied(s.byTier, TiersOf(jobs), ests)
    ensures UniqueJobs(jobs) ==>
              && Looked(s.byJob, jobs) == Budget(jobs)
              && s.tokens == Sum(Budget(jobs), Tokens)
              && s.tokens == Sum(ALL_ROUTES, TokensOf(s.byRoute))
              && s.tokens == Sum(ALL_TIERS, TokensOf(s.byTier))
  {
    var byJob, names, patterns, architecture := EstimateAll(jobs);
    NamesStored(jobs, byJob, names);
    var byRoute, byTier := TallyAll(jobs, byJob);
    var tokens := AddUp(names, byJob);
    s := Summary(tokens, patterns, |architecture|, byRoute, byTier, byJob);
    assert architecture == set p | p in NewPatterns(jobs, {}) && PatternRoute(p) == ArchitectureWithOtto;
    if UniqueJobs(jobs) {
      TotalsAgree(jobs, s, names);
    }
  }

  lemma NamesStored(jobs: seq<Job>, byJob: map<string, Estimate>, names: seq<string>)
    requires Stored(byJob, names, Budget(jobs))
    ensures forall i :: 0 <= i < |jobs| ==> jobs[i].name in byJob
    ensures forall i :: 0 <= i < |names| ==> names[i] in byJob
  {
    forall i | 0 <= i < |jobs| ensures jobs[i].name in byJob {
      LatestExists(Budget(jobs), i);
    }
  }

  lemma {:induction false} LatestExists(ests: seq<Estimate>, i: nat)
    requires i < |ests|
    ensures Latest(ests, ests[i].name).Some?
  {
    if ests[|ests| - 1].name != ests[i].name {
      LatestExists(ests[..|ests| - 1], i);
    }
  }

  lemma TotalsAgree(jobs: seq<Job>, s: Summary, names: seq<string>)
    requires UniqueJobs(jobs) && Stored(s.byJob, names, Budget(jobs)) && s.tokens == Sum(names, TokensIn(s.byJob))
    requires forall i :: 0 <= i < |jobs| ==> jobs[i].name in s.byJob
    requires var ests := Looked(s.byJob, jobs);
      Tallied(s.byRoute, RoutesIn(ests), ests) && Tallied(s.byTier, TiersOf(jobs), ests)
    ensures Looked(s.byJob, jobs) == Budget(jobs) && s.tokens == Sum(Budget(jobs), Tokens)
    ensures s.tokens == Sum(ALL_ROUTES, TokensOf(s.byRoute))
    ensures s.tokens == Sum(ALL_TIERS, TokensOf(s.byTier))
  {
    var ests := Looked(s.byJob, jobs);
    UniqueLooked(jobs, s.byJob, names);
    forall r ensures r in ALL_ROUTES && NoDup(ALL_ROUTES) {
      EveryRouteListed(r);
    }
    forall t ensures t in ALL_TIERS && NoDup(ALL_TIERS) {
      EveryTierListed(t);
    }
    EveryTierListed(XS);
    EveryRouteListed(OrbiterFirst);
    TalliesSum(ALL_ROUTES, s.byRoute, RoutesIn(ests), ests);
    TalliesSum(ALL_TIERS, s.byTier, TiersOf(jobs), ests);
  }
}
