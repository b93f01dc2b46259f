/** Which jobs a condition refers to (autosys/analysis/condition_refs.py), over the tree
    the condition parser builds (autosys/parser/condition_parser.py). */
module ConditionRefs {
  import opened Options
  import opened Permutations

  /** The predicates on a job's status, in either spelling. */
  datatype Func = IsSuccess | IsFailure | IsDone | IsNotRunning | IsTerminated | IsActivated

  datatype Cmp = Equal | Differs | Less | Greater | AtMost | AtLeast

  /** A condition.  `ref` is the name as written; "job^INS" names a job of another
      instance in a job predicate.  A look-back is in hours. */
  datatype Node =
    | JobCond(func: Func, ref: string, lookBack: Option<real>)
    | ExitCodeCond(ref: string, op: Cmp, expected: int)
    | ValueCond(globalName: string, op: Cmp, text: string)
    | AndNode(left: Node, right: Node)
    | OrNode(left: Node, right: Node)
    | NotNode(operand: Node)

  predicate HasCaret(s: string) {
    exists i :: 0 <= i < |s| && s[i] == '^'
  }

  /** `job_name.split("^", 1)` */
  function BeforeCaret(s: string): string {
    if |s| == 0 || s[0] == '^' then "" else [s[0]] + BeforeCaret(s[1..])
  }

  function AfterCaret(s: string): string {
    if |s| == 0 then "" else if s[0] == '^' then s[1..] else AfterCaret(s[1..])
  }

  /** `instance`: empty both when there is no caret and when nothing follows it. */
  predicate HasInstance(ref: string) {
    HasCaret(ref) && AfterCaret(ref) != ""
  }

  /** The references of a condition from left to right, as a recursive definition. */
  function Refs(n: Node): seq<string> {
    match n
    case JobCond(_, ref, _) => if HasInstance(ref) then [] else [BeforeCaret(ref)]
    case ExitCodeCond(ref, _, _) => [ref]
    case ValueCond(_, _, _) => []
    case AndNode(l, r) => Refs(l) + Refs(r)
    case OrNode(l, r) => Refs(l) + Refs(r)
    case NotNode(x) => Refs(x)
  }

  function Size(n: Node): nat {
    match n
    case AndNode(l, r) => 1 + Size(l) + Size(r)
    case OrNode(l, r) => 1 + Size(l) + Size(r)
    case NotNode(x) => 1 + Size(x)
    case _ => 1
  }

  /** What is still to come: the stack is read from its top, its last element. */
  function Pending(stack: seq<Node>): seq<string> {
    if |stack| == 0 then [] else Refs(stack[|stack| - 1]) + Pending(stack[..|stack| - 1])
  }

  function TotalSize(stack: seq<Node>): nat {
    if |stack| == 0 then 0 else Size(stack[|stack| - 1]) + TotalSize(stack[..|stack| - 1])
  }

  lemma PushOne(stack: seq<Node>, n: Node)
    ensures Pending(stack + [n]) == Refs(n) + Pending(stack) && TotalSize(stack + [n]) == Size(n) + TotalSize(stack)
  {
    assert (stack + [n])[..|stack|] == stack;
  }

  lemma PushTwo(stack: seq<Node>, l: Node, r: Node)
    ensures Pending(stack + [r] + [l]) == Refs(l) + Refs(r) + Pending(stack)
    ensures TotalSize(stack + [r] + [l]) == Size(l) + Size(r) + TotalSize(stack)
  {
    PushOne(stack, r);
    PushOne(stack + [r], l);
  }

  /** What one turn of the walk finds at `n`, and what it leaves on the stack. */
  function Found(n: Node): seq<string> {
    match n
    case JobCond(_, ref, _) => if HasInstance(ref) then [] else [BeforeCaret(ref)]
    case ExitCodeCond(ref, _, _) => [ref]
    case _ => []
  }

  function Pushed(rest: seq<Node>, n: Node): seq<Node> {
    match n
    case AndNode(l, r) => rest + [r] + [l]
    case OrNode(l, r) => rest + [r] + [l]
    case NotNode(x) => rest + [x]
    case _ => rest
  }

  lemma StepKeepsRefs(found: seq<string>, rest: seq<Node>, n: Node)
    ensures found + Found(n) + Pending(Pushed(rest, n)) == found + (Refs(n) + Pending(rest))
    ensures TotalSize(Pushed(rest, n)) < Size(n) + TotalSize(rest)
  {
    match n
    case AndNode(l, r) => PushTwo(rest, l, r); ConcatEmpty(found);
    case OrNode(l, r) => PushTwo(rest, l, r); ConcatEmpty(found);
    case NotNode(x) => PushOne(rest, x); ConcatEmpty(found);
    case _ => ConcatAssociates(found, Refs(n), Pending(rest)); ConcatEmpty(Pending(rest));
  }

  /** One turn: what is found at the top node is recorded, its operands are pushed, the
      left one on top. */
  method Turn(found: seq<string>, rest: seq<Node>, n: Node) returns (found': seq<string>, stack: seq<Node>)
    ensures found' == found + Found(n) && stack == Pushed(rest, n)
  {
    found', stack := found, rest;
    match n {
      case AndNode(l, r) =>
        stack := stack + [r];
        stack := stack + [l];
      case OrNode(l, r) =>
        stack := stack + [r];
        stack := stack + [l];
      case NotNode(x) =>
        stack := stack + [x];
      case JobCond(_, ref, _) =>
        if !HasInstance(ref) {
          found' := found' + [BeforeCaret(ref)];
        }
      case ExitCodeCond(ref, _, _) =>
        found' := found' + [ref];
      case ValueCond(_, _, _) =>
    }
  }

  /** The walk with an explicit stack finds the references in the recursive order, and
      the names without a caret are returned as a set. */
  method ConditionJobRefs(node: Node) returns (refs: set<string>, ghost names: seq<string>)
    ensures names == Refs(node)
    ensures forall x :: x in refs <==> x in Refs(node) && !HasCaret(x)
    ensures forall x :: x in refs <==> !HasCaret(x) && (Mentions(node, x) || MentionsBare(node, x))
  {
    var found: seq<string> := [];
    var stack := [node];
    StartWalk(node);
    while |stack| > 0
      invariant found + Pending(stack) == Refs(node)
      decreases TotalSize(stack)
    {
      var n, rest := stack[|stack| - 1], stack[..|stack| - 1];
      StepKeepsRefs(found, rest, n);
      found, stack := Turn(found, rest, n);
    }
    ConcatEmpty(found);
    names := found;
    forall x | !HasCaret(x) ensures x in Refs(node) <==> Mentions(node, x) || MentionsBare(node, x) {
      RefsAreMentions(node, x);
    }
    refs := set x | x in found && !HasCaret(x);
  }

  lemma StartWalk(node: Node)
    ensures [] + Pending([node]) == Refs(node)
  {
    assert Pending([node]) == Refs(node) + Pending([node][..0]);
    ConcatEmpty(Refs(node));
  }

  // ----- renaming a job in a condition

  function RenameRef(ref: string, oldName: string, newName: string): string {
    if ref == oldName then newName else ref
  }

  function Rename(n: Node, oldName: string, newName: string): Node {
    match n
    case JobCond(f, ref, b) => JobCond(f, RenameRef(ref, oldName, newName), b)
    case ExitCodeCond(ref, op, e) => ExitCodeCond(RenameRef(ref, oldName, newName), op, e)
    case ValueCond(_, _, _) => n
    case AndNode(l, r) => AndNode(Rename(l, oldName, newName), Rename(r, oldName, newName))
    case OrNode(l, r) => OrNode(Rename(l, oldName, newName), Rename(r, oldName, newName))
    case NotNode(x) => NotNode(Rename(x, oldName, newName))
  }

  lemma {:induction false} NoCaretBefore(s: string)
    requires !HasCaret(s)
    ensures BeforeCaret(s) == s
  {
    if |s| > 0 {
      assert forall i :: 0 <= i < |s[1..]| ==> s[1..][i] == s[i + 1];
      NoCaretBefore(s[1..]);
    }
  }

  // ----- evaluation

  /** `Other` stands for every status that no predicate tests. */
  datatype Status =
    | Inactive | Starting | Running | Restart | Success | Failure | Terminated | OnIce | Activated | Other

  /** What `evaluate` reads: statuses, last completions and exit codes of jobs, the time,
      and how the comparisons with global variables come out.  Instants are in hours. */
  datatype World = World(statuses: map<string, Status>, lastTimes: map<string, real>, exitCodes: map<string, int>,
                         now: Option<real>, globals: (string, Cmp, string) -> bool)

  function Lookup<V>(m: map<string, V>, name: string): Option<V> {
    if name in m then Some(m[name]) else None
  }

  /** `job_statuses.get(name, "INACTIVE")` */
  function StatusOf(w: World, name: string): Status {
    if name in w.statuses then w.statuses[name] else Inactive
  }

  /** `_FUNC_CHECKS` */
  predicate Check(f: Func, s: Status) {
    match f
    case IsSuccess => s == Success || s == OnIce
    case IsFailure => s == Failure
    case IsDone => s == Success || s == Failure || s == Terminated || s == OnIce
    case IsNotRunning => s != Starting && s != Running && s != Restart
    case IsTerminated => s == Terminated
    case IsActivated => s == Activated
  }

  /** The job completed within the look-back; none, and zero, restrict nothing. */
  predicate InWindow(w: World, name: string, lookBack: Option<real>) {
    || lookBack == None || lookBack.value == 0.0
    || (w.now.Some? && name in w.lastTimes && 0.0 <= w.now.value - w.lastTimes[name] <= lookBack.value)
  }

  predicate Compare(actual: int, op: Cmp, expected: int) {
    match op
    case Equal => actual == expected
    case Differs => actual != expected
    case Less => actual < expected
    case Greater => actual > expected
    case AtMost => actual <= expected
    case AtLeast => actual >= expected
  }

  /** `evaluate`.  A job predicate looks up the name without its instance. */
  predicate Holds(n: Node, w: World) {
    match n
    case JobCond(f, ref, b) => Check(f, StatusOf(w, BeforeCaret(ref))) && InWindow(w, BeforeCaret(ref), b)
    case ExitCodeCond(ref, op, e) => ref in w.exitCodes && Compare(w.exitCodes[ref], op, e)
    case ValueCond(g, op, e) => w.globals(g, op, e)
    case AndNode(l, r) => Holds(l, w) && Holds(r, w)
    case OrNode(l, r) => Holds(l, w) || Holds(r, w)
    case NotNode(x) => !Holds(x, w)
  }

  /** Everything that can be looked up about `here` is the same about `there`. */
  ghost predicate SameJob(before: World, here: string, after: World, there: string) {
    && StatusOf(after, there) == StatusOf(before, here)
    && Lookup(after.lastTimes, there) == Lookup(before.lastTimes, here)
    && Lookup(after.exitCodes, there) == Lookup(before.exitCodes, here)
  }

  /** In `after`, the job `newName` is what `oldName` was, and all other jobs, the time
      and the globals are as before. */
  ghost predicate Renamed(before: World, after: World, oldName: string, newName: string) {
    && SameJob(before, oldName, after, newName)
    && (forall name :: name != oldName && name != newName ==> SameJob(before, name, after, name))
    && after.now == before.now && after.globals == before.globals
  }

  predicate Absent(w: World, name: string) {
    name !in w.statuses && name !in w.lastTimes && name !in w.exitCodes
  }

  /** What the rename of a job does: the new name was free, the old one is free now. */
  ghost predicate Moved(before: World, after: World, oldName: string, newName: string) {
    Renamed(before, after, oldName, newName) && Absent(before, newName) && Absent(after, oldName)
  }

  /** The look-back leaves the predicate open; a negative one makes it false. */
  predicate Decides(lookBack: Option<real>) {
    lookBack.Some? ==> lookBack.value >= 0.0
  }

  lemma NegativeLookBackIsFalse(f: Func, ref: string, lookBack: Option<real>, w: World)
    requires !Decides(lookBack)
    ensures !Holds(JobCond(f, ref, lookBack), w)
  {
  }

  /** A predicate looks up this job name. */
  predicate LooksUp(n: Node, name: string) {
    match n
    case JobCond(_, r, b) => BeforeCaret(r) == name && Decides(b)
    case ExitCodeCond(r, _, _) => r == name
    case ValueCond(_, _, _) => false
    case AndNode(l, r) => LooksUp(l, name) || LooksUp(r, name)
    case OrNode(l, r) => LooksUp(l, name) || LooksUp(r, name)
    case NotNode(x) => LooksUp(x, name)
  }

  /** A job predicate names a job of another instance that is called `name` too. */
  predicate HasNamesake(n: Node, name: string) {
    match n
    case JobCond(_, r, b) => r != name && BeforeCaret(r) == name && Decides(b)
    case ExitCodeCond(_, _, _) => false
    case ValueCond(_, _, _) => false
    case AndNode(l, r) => HasNamesake(l, name) || HasNamesake(r, name)
    case OrNode(l, r) => HasNamesake(l, name) || HasNamesake(r, name)
    case NotNode(x) => HasNamesake(x, name)
  }

  predicate Mentions(n: Node, ref: string) {
    match n
    case JobCond(_, r, _) => r == ref
    case ExitCodeCond(r, _, _) => r == ref
    case ValueCond(_, _, _) => false
    case AndNode(l, r) => Mentions(l, ref) || Mentions(r, ref)
    case OrNode(l, r) => Mentions(l, ref) || Mentions(r, ref)
    case NotNode(x) => Mentions(x, ref)
  }

  /** A job predicate names the job with a caret and no instance behind it. */
  predicate MentionsBare(n: Node, name: string) {
    match n
    case JobCond(_, r, _) => r == name + "^"
    case ExitCodeCond(_, _, _) => false
    case ValueCond(_, _, _) => false
    case AndNode(l, r) => MentionsBare(l, name) || MentionsBare(r, name)
    case OrNode(l, r) => MentionsBare(l, name) || MentionsBare(r, name)
    case NotNode(x) => MentionsBare(x, name)
  }

  /** A name without a caret is among the references exactly if the condition mentions it,
      as it is or with an empty instance. */
  lemma {:induction false} RefsAreMentions(n: Node, name: string)
    requires !HasCaret(name)
    ensures name in Refs(n) <==> Mentions(n, name) || MentionsBare(n, name)
  {
    match n
    case JobCond(_, r, _) => LocalRef(r, name);
    case ExitCodeCond(_, _, _) =>
    case ValueCond(_, _, _) =>
    case AndNode(l, r) => RefsAreMentions(l, name); RefsAreMentions(r, name);
    case OrNode(l, r) => RefsAreMentions(l, name); RefsAreMentions(r, name);
    case NotNode(x) => RefsAreMentions(x, name);
  }

  lemma LocalRef(ref: string, name: string)
    requires !HasCaret(name)
    ensures !HasInstance(ref) && BeforeCaret(ref) == name <==> ref == name || ref == name + "^"
  {
    CutAtCaret(ref);
    ConcatEmpty(BeforeCaret(ref) + "^");
    ConcatEmpty("^");
    if ref == name {
      NoCaretBefore(name);
    } else if ref == name + "^" {
      CaretBehind(name, "");
    }
  }

  lemma {:induction false} CutAtCaret(ref: string)
    ensures ref == if HasCaret(ref) then BeforeCaret(ref) + "^" + AfterCaret(ref) else BeforeCaret(ref)
  {
    if |ref| > 0 && ref[0] != '^' {
      CutAtCaret(ref[1..]);
      CaretInFront(ref);
      assert ref == [ref[0]] + ref[1..];
      ConcatAssociates([ref[0]], BeforeCaret(ref[1..]), "^");
      ConcatAssociates([ref[0]], BeforeCaret(ref[1..]) + "^", AfterCaret(ref[1..]));
    } else if |ref| > 0 {
      assert ref == "^" + ref[1..] && "" + "^" == "^";
    }
  }

  lemma CaretInFront(ref: string)
    requires |ref| > 0 && ref[0] != '^'
    ensures HasCaret(ref) <==> HasCaret(ref[1..])
  {
    if HasCaret(ref) {
      var i :| 0 <= i < |ref| && ref[i] == '^';
      assert ref[1..][i - 1] == '^';
    }
  }

  lemma {:induction false} CaretBehind(name: string, rest: string)
    requires !HasCaret(name)
    ensures HasCaret(name + ("^" + rest)) && BeforeCaret(name + ("^" + rest)) == name
    ensures AfterCaret(name + ("^" + rest)) == rest
  {
    var ref := name + ("^" + rest);
    assert ref[|name|] == '^';
    if |name| > 0 {
      CaretInFront(name);
      CaretBehind(name[1..], rest);
      assert name[0] != '^' && ref[0] == name[0] && ref[1..] == name[1..] + ("^" + rest);
      assert name == [name[0]] + name[1..];
    } else {
      assert ref == "^" + rest && ref[1..] == rest;
    }
  }

  /** Wherever the one holds, so does the other. */
  ghost predicate Implies(n: Node, m: Node) {
    forall w :: Holds(n, w) ==> Holds(m, w)
  }

  /** They never hold together. */
  ghost predicate Excludes(n: Node, m: Node) {
    forall w :: Holds(n, w) ==> !Holds(m, w)
  }

  /** "&" is the weakest condition stronger than both of its operands, "|" the strongest
      weaker than both, and "!" the weakest that excludes its operand. */
  lemma ConnectivesMean(n: Node, l: Node, r: Node)
    ensures Implies(n, AndNode(l, r)) <==> Implies(n, l) && Implies(n, r)
    ensures Implies(OrNode(l, r), n) <==> Implies(l, n) && Implies(r, n)
    ensures Implies(n, NotNode(l)) <==> Excludes(n, l)
  {
    AndMeans(n, l, r);
    OrMeans(n, l, r);
    if Implies(n, NotNode(l)) {
      forall w | Holds(n, w) ensures !Holds(l, w) {
        assert Holds(NotNode(l), w);
      }
    }
  }

  lemma AndMeans(n: Node, l: Node, r: Node)
    ensures Implies(n, AndNode(l, r)) <==> Implies(n, l) && Implies(n, r)
  {
    if Implies(n, AndNode(l, r)) {
      forall w | Holds(n, w) ensures Holds(l, w) && Holds(r, w) {
        assert Holds(AndNode(l, r), w);
      }
    }
  }

  lemma OrMeans(n: Node, l: Node, r: Node)
    ensures Implies(OrNode(l, r), n) <==> Implies(l, n) && Implies(r, n)
  {
    if Implies(OrNode(l, r), n) {
      forall w ensures (Holds(l, w) ==> Holds(n, w)) && (Holds(r, w) ==> Holds(n, w)) {
        assert Holds(OrNode(l, r), w) ==> Holds(n, w);
      }
    }
  }

  /** The predicates on one job: it is done exactly if it succeeded, failed or was
      terminated, at most one of these is so, and then it is not running; a job on ice
      counts as succeeded, and one without a status as not running and not done. */
  lemma StatusPredicates(ref: string, w: World)
    ensures var holds := (f: Func) => Holds(JobCond(f, ref, None), w);
      && (holds(IsDone) <==> holds(IsSuccess) || holds(IsFailure) || holds(IsTerminated))
      && !(holds(IsSuccess) && holds(IsFailure)) && !(holds(IsSuccess) && holds(IsTerminated))
      && !(holds(IsFailure) && holds(IsTerminated)) && (holds(IsDone) ==> holds(IsNotRunning))
      && (holds(IsActivated) ==> holds(IsNotRunning) && !holds(IsDone))
      && (StatusOf(w, BeforeCaret(ref)) == OnIce ==> holds(IsSuccess))
      && (BeforeCaret(ref) !in w.statuses ==> holds(IsNotRunning) && !holds(IsDone))
  {
  }

  /** A wider look-back never makes a predicate false, and none is the widest; a job whose
      completion is not known, or lies ahead, meets none but the empty one. */
  lemma WiderLookBack(f: Func, ref: string, narrow: real, wide: real, w: World)
    requires 0.0 < narrow <= wide
    ensures Holds(JobCond(f, ref, Some(narrow)), w) ==> Holds(JobCond(f, ref, Some(wide)), w)
    ensures Holds(JobCond(f, ref, Some(wide)), w) ==> Holds(JobCond(f, ref, None), w)
    ensures Holds(JobCond(f, ref, Some(0.0)), w) <==> Holds(JobCond(f, ref, None), w)
    ensures Holds(JobCond(f, ref, Some(wide)), w) ==>
      w.now.Some? && BeforeCaret(ref) in w.lastTimes && w.lastTimes[BeforeCaret(ref)] <= w.now.value
  {
  }

  /** Renaming a job to a name the condition does not look up keeps its meaning, if the
      condition names no job of another instance that has the old name. */
  lemma {:induction false} RenameKeepsMeaning(n: Node, oldName: string, newName: string, before: World, after: World)
    requires Renamed(before, after, oldName, newName) && !HasCaret(oldName) && !HasCaret(newName)
    requires !LooksUp(n, newName) && !HasNamesake(n, oldName)
    ensures Holds(Rename(n, oldName, newName), after) == Holds(n, before)
  {
    match n
    case JobCond(f, ref, b) => JobCondKept(f, ref, b, oldName, newName, before, after);
    case ExitCodeCond(ref, _, _) =>
      assert SameJob(before, ref, after, RenameRef(ref, oldName, newName));
    case ValueCond(_, _, _) =>
    case AndNode(l, r) =>
      RenameKeepsMeaning(l, oldName, newName, before, after);
      RenameKeepsMeaning(r, oldName, newName, before, after);
    case OrNode(l, r) =>
      RenameKeepsMeaning(l, oldName, newName, before, after);
      RenameKeepsMeaning(r, oldName, newName, before, after);
    case NotNode(x) => RenameKeepsMeaning(x, oldName, newName, before, after);
  }

  lemma JobCondKept(f: Func, ref: string, lookBack: Option<real>, oldName: string, newName: string,
                    before: World, after: World)
    requires Renamed(before, after, oldName, newName) && !HasCaret(oldName) && !HasCaret(newName)
    requires !LooksUp(JobCond(f, ref, lookBack), newName) && !HasNamesake(JobCond(f, ref, lookBack), oldName)
    ensures Holds(JobCond(f, RenameRef(ref, oldName, newName), lookBack), after) ==
        Holds(JobCond(f, ref, lookBack), before)
  {
    NoCaretBefore(oldName);
    NoCaretBefore(newName);
    if Decides(lookBack) {
      SameJobSameTruth(f, ref, RenameRef(ref, oldName, newName), lookBack, before, after);
    } else {
      NegativeLookBackIsFalse(f, ref, lookBack, before);
      NegativeLookBackIsFalse(f, RenameRef(ref, oldName, newName), lookBack, after);
    }
  }

  lemma SameJobSameTruth(f: Func, ref: string, renamed: string, lookBack: Option<real>, before: World, after: World)
    requires SameJob(before, BeforeCaret(ref), after, BeforeCaret(renamed)) && after.now == before.now
    ensures Holds(JobCond(f, renamed, lookBack), after) == Holds(JobCond(f, ref, lookBack), before)
  {
  }

  /** Every single predicate, wherever it stands, keeps its truth value. */
  ghost predicate EveryPredicateKept(n: Node, oldName: string, newName: string, before: World, after: World) {
    match n
    case AndNode(l, r) =>
      EveryPredicateKept(l, oldName, newName, before, after) && EveryPredicateKept(r, oldName, newName, before, after)
    case OrNode(l, r) =>
      EveryPredicateKept(l, oldName, newName, before, after) && EveryPredicateKept(r, oldName, newName, before, after)
    case NotNode(x) => EveryPredicateKept(x, oldName, newName, before, after)
    case _ => Holds(Rename(n, oldName, newName), after) == Holds(n, before)
  }

  lemma {:induction false} PredicatesKept(n: Node, oldName: string, newName: string, before: World, after: World)
    requires Renamed(before, after, oldName, newName) && !HasCaret(oldName) && !HasCaret(newName)
    requires !LooksUp(n, newName) && !HasNamesake(n, oldName)
    ensures EveryPredicateKept(n, oldName, newName, before, after)
  {
    match n
    case AndNode(l, r) =>
      PredicatesKept(l, oldName, newName, before, after);
      PredicatesKept(r, oldName, newName, before, after);
    case OrNode(l, r) =>
      PredicatesKept(l, oldName, newName, before, after);
      PredicatesKept(r, oldName, newName, before, after);
    case NotNode(x) => PredicatesKept(x, oldName, newName, before, after);
    case _ => RenameKeepsMeaning(n, oldName, newName, before, after);
  }

  // ----- states of the world that tell the names apart

  /** The only job is `name`; it has just ended. */
  function OnlyJob(name: string, status: Status, code: int): World {
    World(map[name := status], map[name := 0.0], map[name := code], Some(0.0), (g, op, e) => false)
  }

  lemma OnlyJobMoves(oldName: string, newName: string, status: Status, code: int)
    requires oldName != newName
    ensures Moved(OnlyJob(oldName, status, code), OnlyJob(newName, status, code), oldName, newName)
  {
  }

  /** A status for which the predicate differs from what it is about no job at all. */
  function TellingStatus(f: Func, lookBack: Option<real>): Status {
    match f
    case IsSuccess => Success
    case IsFailure => Failure
    case IsDone => Success
    case IsNotRunning => if lookBack == None || lookBack.value == 0.0 then Running else Success
    case IsTerminated => Terminated
    case IsActivated => Activated
  }

  function TellingCode(op: Cmp, expected: int): int {
    match op
    case Less => expected - 1
    case Greater => expected + 1
    case Differs => expected + 1
    case _ => expected
  }

  lemma StatusTells(f: Func, ref: string, lookBack: Option<real>, here: string, there: string, code: int)
    requires Decides(lookBack) && here != there && (BeforeCaret(ref) == here || BeforeCaret(ref) == there)
    ensures var s := TellingStatus(f, lookBack);
      Holds(JobCond(f, ref, lookBack), OnlyJob(here, s, code)) != Holds(JobCond(f, ref, lookBack), OnlyJob(there, s,
          code))
  {
  }

  lemma {:induction false} PredicateChanges(n: Node, oldName: string, newName: string)
    returns (status: Status, code: int)
    requires oldName != newName && !HasCaret(oldName) && !HasCaret(newName)
    requires LooksUp(n, newName) || HasNamesake(n, oldName)
    ensures !EveryPredicateKept(n, oldName, newName, OnlyJob(oldName, status, code), OnlyJob(newName, status, code))
  {
    NoCaretBefore(oldName);
    NoCaretBefore(newName);
    status, code := Inactive, 0;
    match n
    case JobCond(f, ref, b) =>
      status := TellingStatus(f, b);
      StatusTells(f, ref, b, oldName, newName, code);
    case ExitCodeCond(ref, op, e) => code := TellingCode(op, e);
    case AndNode(l, r) =>
      if LooksUp(l, newName) || HasNamesake(l, oldName) {
        status, code := PredicateChanges(l, oldName, newName);
      } else {
        status, code := PredicateChanges(r, oldName, newName);
      }
    case OrNode(l, r) =>
      if LooksUp(l, newName) || HasNamesake(l, oldName) {
        status, code := PredicateChanges(l, oldName, newName);
      } else {
        status, code := PredicateChanges(r, oldName, newName);
      }
    case NotNode(x) => status, code := PredicateChanges(x, oldName, newName);
    case ValueCond(_, _, _) =>
  }

  /** Renaming keeps the truth of every predicate of a condition, whatever is true of the
      jobs, if and only if no predicate with a look-back that is not negative looks up the
      new name or names a job of another instance that has the old one.  That is so for
      the renames that can happen, and for the wider relation `Renamed`. */
  lemma RenameKeepsEveryPredicateIff(n: Node, oldName: string, newName: string)
    requires oldName != newName && !HasCaret(oldName) && !HasCaret(newName)
    ensures (forall before, after :: Moved(before, after, oldName, newName)
                                     ==> EveryPredicateKept(n, oldName, newName, before, after))
        <==> !LooksUp(n, newName) && !HasNamesake(n, oldName)
    ensures (forall before, after :: Renamed(before, after, oldName, newName)
                                     ==> EveryPredicateKept(n, oldName, newName, before, after))
        <==> !LooksUp(n, newName) && !HasNamesake(n, oldName)
  {
    if !LooksUp(n, newName) && !HasNamesake(n, oldName) {
      forall before, after | Renamed(before, after, oldName, newName)
        ensures EveryPredicateKept(n, oldName, newName, before, after)
      {
        PredicatesKept(n, oldName, newName, before, after);
      }
    } else {
      var status, code := PredicateChanges(n, oldName, newName);
      OnlyJobMoves(oldName, newName, status, code);
    }
  }

  /** Such a namesake is left alone by the renaming, but evaluation looks up the local
      job of that name: its predicate can change, exactly if its look-back is not
      negative. */
  lemma NamesakeChangesMeaning(f: Func, ref: string, lookBack: Option<real>, oldName: string, newName: string)
    requires HasCaret(ref) && BeforeCaret(ref) == oldName && oldName != newName && !HasCaret(oldName)
    ensures var n := JobCond(f, ref, lookBack);
      && Rename(n, oldName, newName) == n
      && ((exists before, after :: Moved(before, after, oldName, newName) && Holds(n, before) != Holds(n, after))
          <==> Decides(lookBack))
  {
    var n := JobCond(f, ref, lookBack);
    if Decides(lookBack) {
      var s := TellingStatus(f, lookBack);
      OnlyJobMoves(oldName, newName, s, 0);
      StatusTells(f, ref, lookBack, oldName, newName, 0);
      assert Holds(n, OnlyJob(oldName, s, 0)) != Holds(n, OnlyJob(newName, s, 0));
    } else {
      forall w ensures !Holds(n, w) {
        NegativeLookBackIsFalse(f, ref, lookBack, w);
      }
    }
  }

  /** Renaming back restores the condition. */
  lemma {:induction false} RenameBack(n: Node, oldName: string, newName: string)
    requires !Mentions(n, newName)
    ensures Rename(Rename(n, oldName, newName), newName, oldName) == n
  {
    match n
    case AndNode(l, r) =>
      RenameBack(l, oldName, newName);
      RenameBack(r, oldName, newName);
    case OrNode(l, r) =>
      RenameBack(l, oldName, newName);
      RenameBack(r, oldName, newName);
    case NotNode(x) => RenameBack(x, oldName, newName);
    case _ =>
  }

  /** The reference list of the renamed condition is the reference list, renamed. */
  lemma {:induction false} RenamedRefs(n: Node, oldName: string, newName: string, k: nat)
    requires !HasCaret(oldName) && !HasCaret(newName)
    ensures |Refs(Rename(n, oldName, newName))| == |Refs(n)|
    ensures k < |Refs(n)| && !HasCaretRef(n) ==>
        Refs(Rename(n, oldName, newName))[k] == RenameRef(Refs(n)[k], oldName, newName)
  {
    NoCaretBefore(oldName);
    NoCaretBefore(newName);
    match n
    case JobCond(_, ref, _) =>
      if !HasCaret(ref) {
        NoCaretBefore(ref);
      }
    case AndNode(l, r) =>
      RenamedRefs(l, oldName, newName, k);
      RenamedRefs(r, oldName, newName, if k < |Refs(l)| then 0 else k - |Refs(l)|);
    case OrNode(l, r) =>
      RenamedRefs(l, oldName, newName, k);
      RenamedRefs(r, oldName, newName, if k < |Refs(l)| then 0 else k - |Refs(l)|);
    case NotNode(x) => RenamedRefs(x, oldName, newName, k);
    case _ =>
  }

  predicate HasCaretRef(n: Node) {
    match n
    case JobCond(_, r, _) => HasCaret(r)
    case ExitCodeCond(r, _, _) => HasCaret(r)
    case ValueCond(_, _, _) => false
    case AndNode(l, r) => HasCaretRef(l) || HasCaretRef(r)
    case OrNode(l, r) => HasCaretRef(l) || HasCaretRef(r)
    case NotNode(x) => HasCaretRef(x)
  }
}
