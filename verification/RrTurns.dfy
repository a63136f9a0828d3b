/** Whose turn it is: the order in which the round-robin worker of RrWorker runs the CPUs. */
module RrTurns {
  import opened Prelude
  import opened RrWorker

  // The CPU after `c` in the list of n, if there is one.
  predicate Follows(x: Option<Cpu>, c: Cpu, n: nat) {
    if c + 1 < n then x == Some(c + 1) else x == None
  }

  // How a turn goes on: as it may, with the guest ended normally, or with the guest to be resumed.
  datatype Way = Any | Passes | Resumes

  // The worker is busy with CPU c, or has just been.
  predicate InTurn(pc: Pc, c: Cpu, n: nat, way: Way) {
    match pc
    case ReadRequest(d) => d == c && way.Any?
    case CanRun(d) => d == c && way.Any?
    case Exec(d) => d == c && way.Any?
    case Atomic(d) => d == c && !way.Passes?
    case AtomicRelock(d) => d == c && !way.Passes?
    case ExecRelock(d, exit) => d == c && (way.Passes? ==> exit.Normal?) && (way.Resumes? ==> !exit.Normal?)
    case Inner(x) => Follows(x, c, n) && !way.Resumes?
    case Store(d) => d == c + 1 < n && !way.Resumes?
    case Forget(x) => (Follows(x, c, n) && !way.Resumes?) || (x == Some(c) && !way.Passes?)
    case _ => false
  }

  // The next turn, or the head of the outer loop.
  predicate NextTurn(s: State, c: Cpu, way: Way) {
    match s.worker
    case ReadRequest(d) => d == c + 1 < s.n && s.current == Some(d) && !way.Resumes?
    case Head(x) => (Follows(x, c, s.n) && !way.Resumes?) || (x == Some(c) && !way.Passes?)
    case _ => false
  }

  lemma TurnStep(s: State, l: Label, c: Cpu, way: Way)
    requires Inv(s) && Enabled(s, l) && InTurn(s.worker, c, s.n, way)
    ensures Apply(s, l).n == s.n
    ensures InTurn(Apply(s, l).worker, c, s.n, way) || NextTurn(Apply(s, l), c, way)
  {
    if l.Work? { WorkTurnStep(s, l.choice, c, way); }
  }

  lemma WorkTurnStep(s: State, choice: nat, c: Cpu, way: Way)
    requires Inv(s) && CanWork(s) && InTurn(s.worker, c, s.n, way)
    ensures WorkStep(s, choice).n == s.n
    ensures InTurn(WorkStep(s, choice).worker, c, s.n, way) || NextTurn(WorkStep(s, choice), c, way)
  {
    match s.worker {
      case ReadRequest(d) =>
      case CanRun(d) =>
      case Exec(d) =>
      case Atomic(d) =>
      case AtomicRelock(d) =>
      case ExecRelock(d, exit) =>
      case Inner(x) =>
      case Store(d) =>
      case Forget(x) =>
    }
  }

  // The first position at which the turn of CPU c has ended.
  ghost predicate TurnEnds(tr: seq<State>, i: nat, k: nat, c: Cpu) {
    && i < k < |tr|
    && (forall j :: i < j < k ==> !tr[j].worker.Head? && (tr[j].worker.ReadRequest? ==> tr[j].worker.c == c))
    && (tr[k].worker.Head? || (tr[k].worker.ReadRequest? && tr[k].worker.c != c))
  }

  lemma {:induction false} TurnGoesOn(tr: seq<State>, i: nat, j: nat, k: nat, c: Cpu, way: Way)
    requires Trace(tr) && TurnEnds(tr, i, k, c) && i <= j < k && InTurn(tr[i].worker, c, tr[i].n, way)
    ensures tr[j].n == tr[i].n && InTurn(tr[j].worker, c, tr[i].n, way)
    decreases j
  {
    if i < j {
      TurnGoesOn(tr, i, j - 1, k, c, way);
      var l := StepOf(tr, j);
      TurnStep(tr[j - 1], l, c, way);
    }
  }

  lemma StepOf(tr: seq<State>, j: nat) returns (l: Label)
    requires Trace(tr) && 0 < j < |tr|
    ensures Inv(tr[j - 1]) && Enabled(tr[j - 1], l) && tr[j] == Apply(tr[j - 1], l)
  {
    TraceKeepsInv(tr, j - 1);
    assert NextAt(tr, j - 1);
    l :| Enabled(tr[j - 1], l) && tr[j] == Apply(tr[j - 1], l);
  }

  lemma TurnLeads(tr: seq<State>, i: nat, k: nat, c: Cpu, way: Way)
    requires Trace(tr) && TurnEnds(tr, i, k, c) && InTurn(tr[i].worker, c, tr[i].n, way)
    ensures tr[k].n == tr[i].n && NextTurn(tr[k], c, way)
  {
    TurnGoesOn(tr, i, k - 1, k, c, way);
    var l := StepOf(tr, k);
    TurnStep(tr[k - 1], l, c, way);
  }

  /** Turns go round in order: when the worker has looked at CPU c, the next CPU that it stores in rr_current_cpu is
      c + 1, unless it goes back to the outer loop, to resume with c or c + 1, or from the start behind the last. */
  lemma TurnsInOrder(tr: seq<State>, i: nat, k: nat, c: Cpu)
    requires Trace(tr) && TurnEnds(tr, i, k, c) && tr[i].worker == ReadRequest(c)
    ensures match tr[k].worker
      case ReadRequest(d) => d == c + 1 < tr[k].n && tr[k].current == Some(c + 1)
      case Head(x) => x == Some(c) || (if c + 1 < tr[k].n then x == Some(c + 1) else x == None)
      case _ => false
  {
    TurnLeads(tr, i, k, c, Any);
  }

  /** A guest that ends normally passes the turn on: CPU c is not run again before the others. */
  lemma NormalExitPassesOn(tr: seq<State>, i: nat, k: nat, c: Cpu)
    requires Trace(tr) && TurnEnds(tr, i, k, c) && tr[i].worker == ExecRelock(c, Normal)
    ensures match tr[k].worker
      case ReadRequest(d) => d == c + 1 < tr[k].n && tr[k].current == Some(c + 1)
      case Head(x) => if c + 1 < tr[k].n then x == Some(c + 1) else x == None
      case _ => false
  {
    TurnLeads(tr, i, k, c, Passes);
  }

  /** A guest that stopped for the debugger or an atomic step is resumed: the loop goes on with CPU c. */
  lemma OtherExitResumes(tr: seq<State>, i: nat, k: nat, c: Cpu, exit: Exit)
    requires Trace(tr) && TurnEnds(tr, i, k, c) && tr[i].worker == ExecRelock(c, exit) && !exit.Normal?
    ensures tr[k].worker == Head(Some(c))
  {
    TurnLeads(tr, i, k, c, Resumes);
  }

  // ---------- One pass ----------

  // The worker alone goes on: no queued work, no unplugging, every guest ends normally.
  ghost predicate WorksOn(tr: seq<State>, longer: seq<State>) {
    && Trace(longer) && tr <= longer
    && forall i: nat :: |tr| <= i < |longer| ==> i > 0 && WorksAt(longer, i)
  }

  ghost predicate WorksAt(tr: seq<State>, i: nat)
    requires 0 < i < |tr|
  {
    || (Enabled(tr[i - 1], Work(0)) && tr[i] == Apply(tr[i - 1], Work(0)))
    || (Enabled(tr[i - 1], Spurious) && tr[i] == Apply(tr[i - 1], Spurious))
  }

  lemma GoOn(tr: seq<State>, l: Label) returns (longer: seq<State>)
    requires Trace(tr) && Enabled(tr[|tr| - 1], l) && (l == Work(0) || l == Spurious)
    ensures WorksOn(tr, longer) && longer == tr + [Apply(tr[|tr| - 1], l)]
  {
    Extend(tr, l);
    longer := tr + [Apply(tr[|tr| - 1], l)];
    assert WorksAt(longer, |tr|);
  }

  lemma Joined(tr: seq<State>, next: seq<State>, longer: seq<State>)
    requires tr != [] && WorksOn(tr, next) && WorksOn(next, longer)
    ensures WorksOn(tr, longer)
  {
    forall i: nat | |tr| <= i < |longer| ensures i > 0 && WorksAt(longer, i) {
      if i < |next| {
        assert i > 0 && WorksAt(next, i) && longer[i] == next[i] && longer[i - 1] == next[i - 1];
      } else {
        assert i > 0 && WorksAt(longer, i);
      }
    }
  }

  // The CPUs whose guests are executed in these states, in order.
  function Executed(tr: seq<State>): seq<Cpu> {
    if tr == [] then []
    else Executed(tr[..|tr| - 1]) + if tr[|tr| - 1].worker.Exec? then [tr[|tr| - 1].worker.c] else []
  }

  lemma {:induction false} ExecutedAppends(a: seq<State>, b: seq<State>)
    ensures Executed(a + b) == Executed(a) + Executed(b)
    decreases |b|
  {
    if b == [] {
      assert a + b == a;
    } else {
      var front := b[..|b| - 1];
      assert (a + b)[..|a + b| - 1] == a + front && (a + b)[|a + b| - 1] == b[|b| - 1];
      ExecutedAppends(a, front);
    }
  }

  // Every CPU can run, and nobody has asked one to exit.
  predicate AllRun(s: State) {
    s.requests == {} && forall c | 0 <= c < s.n :: c in s.runnable
  }

  lemma OneStepMore(tr: seq<State>) returns (longer: seq<State>)
    requires Trace(tr) && CanWork(tr[|tr| - 1])
    ensures WorksOn(tr, longer) && |longer| == |tr| + 1 && longer[|tr|] == WorkStep(tr[|tr| - 1], 0)
    ensures Executed(longer) == Executed(tr) + if longer[|tr|].worker.Exec? then [longer[|tr|].worker.c] else []
  {
    longer := GoOn(tr, Work(0));
    assert longer[..|tr|] == tr;
  }

  // The worker is at `pc` in a list of n CPUs that can all run.
  predicate Ready(s: State, n: nat, pc: Pc) {
    s.n == n && AllRun(s) && s.worker == pc
  }

  // From the test of the loop to the guest.
  lemma TurnBegins(tr: seq<State>, c: Cpu) returns (longer: seq<State>)
    requires Trace(tr) && c < tr[|tr| - 1].n && Ready(tr[|tr| - 1], tr[|tr| - 1].n, Inner(Some(c)))
    ensures WorksOn(tr, longer) && Executed(longer) == Executed(tr)
            && Ready(longer[|longer| - 1], tr[|tr| - 1].n, CanRun(c))
  {
    var a := OneStepMore(tr);
    var b := OneStepMore(a);
    Joined(tr, a, b);
    longer := OneStepMore(b);
    Joined(tr, b, longer);
  }

  // From the guest to the next test.
  lemma TurnRuns(tr: seq<State>, c: Cpu) returns (longer: seq<State>)
    requires Trace(tr) && c < tr[|tr| - 1].n && Ready(tr[|tr| - 1], tr[|tr| - 1].n, CanRun(c))
    ensures WorksOn(tr, longer) && Executed(longer) == Executed(tr) + [c]
    ensures var n := tr[|tr| - 1].n; Ready(longer[|longer| - 1], n, Inner(if c + 1 < n then Some(c + 1) else None))
  {
    TraceKeepsInv(tr, |tr| - 1);
    var a := OneStepMore(tr);
    var b := OneStepMore(a);
    Joined(tr, a, b);
    longer := OneStepMore(b);
    Joined(tr, b, longer);
  }

  // One turn, from the test of the loop to the next.
  lemma OneTurn(tr: seq<State>, c: Cpu) returns (longer: seq<State>)
    requires Trace(tr) && c < tr[|tr| - 1].n && Ready(tr[|tr| - 1], tr[|tr| - 1].n, Inner(Some(c)))
    ensures WorksOn(tr, longer) && Executed(longer) == Executed(tr) + [c]
    ensures var n := tr[|tr| - 1].n; Ready(longer[|longer| - 1], n, Inner(if c + 1 < n then Some(c + 1) else None))
  {
    var half := TurnBegins(tr, c);
    longer := TurnRuns(half, c);
    Joined(tr, half, longer);
  }

  function From(c: Cpu, n: nat): seq<Cpu>
    requires c <= n
  {
    seq(n - c, i requires 0 <= i < n - c => c + i)
  }

  /** One pass: when every CPU can run, nobody asks for an exit, no work is queued and the guests end normally, the
      worker executes the CPUs c, c + 1, .. up to the last, each once and in that order. */
  lemma {:induction false} OnePass(tr: seq<State>, c: Cpu) returns (longer: seq<State>)
    requires Trace(tr) && tr[|tr| - 1].worker == Inner(Some(c)) && c < tr[|tr| - 1].n && AllRun(tr[|tr| - 1])
    ensures WorksOn(tr, longer) && longer[|longer| - 1].worker == Inner(None)
    ensures Executed(longer) == Executed(tr) + From(c, tr[|tr| - 1].n)
    decreases tr[|tr| - 1].n - c
  {
    var n := tr[|tr| - 1].n;
    longer := OneTurn(tr, c);
    if c + 1 < n {
      var next := longer;
      longer := OnePass(next, c + 1);
      Joined(tr, next, longer);
      assert [c] + From(c + 1, n) == From(c, n);
    } else {
      assert [c] == From(c, n);
    }
  }

  // ---------- Every CPU gets its turn ----------

  // The worker leaves its loop only to stop.
  ghost predicate QuitsToStop(s: State) {
    Quitting(s.worker) || s.worker.Returned? ==> s.stopping
  }

  lemma StepQuits(s: State, l: Label)
    requires Inv(s) && Enabled(s, l) && QuitsToStop(s)
    ensures QuitsToStop(Apply(s, l))
  {
    if l.Work? { WorkQuits(s, l.choice); }
  }

  lemma WorkQuits(s: State, choice: nat)
    requires CanWork(s) && QuitsToStop(s)
    ensures QuitsToStop(WorkStep(s, choice))
  {
    if Setup(s.worker) {
    } else if Running(s.worker) {
      RunsOn(s, choice);
    }
  }

  lemma RunsOn(s: State, choice: nat)
    requires Running(s.worker)
    ensures RunStep(s, choice).stopping == s.stopping
    ensures !Quitting(RunStep(s, choice).worker) && !RunStep(s, choice).worker.Returned?
  {
  }

  lemma {:induction false} TraceQuits(tr: seq<State>, i: nat)
    requires Trace(tr) && i < |tr|
    ensures QuitsToStop(tr[i])
  {
    if i > 0 {
      TraceQuits(tr, i - 1);
      var l := StepOf(tr, i);
      StepQuits(tr[i - 1], l);
    }
  }

  // No stop has been requested, and no other thread holds a lock.
  predicate Unhindered(s: State) {
    && !s.stopping && (s.bql.None? || s.bql == Some(WORKER)) && (s.replay.None? || s.replay == Some(WORKER))
    && !Quitting(s.worker) && !s.worker.Returned?
  }

  // A request that is about to be cleared.
  function Pending(pc: Pc): set<Cpu> {
    match pc
    case Forget(x) => if x.Some? then {x.value} else {}
    case Head(x) => if x.Some? then {x.value} else {}
    case Clear(x) => if x.Some? then {x.value} else {}
    case _ => {}
  }

  // How far the test of the inner loop, with CPU x, is from running c.
  function InnerRank(n: nat, c: Cpu, x: Option<Cpu>): nat
    requires c < n && (x.Some? ==> x.value < n)
  {
    if x.None? then 10 * c + 19
    else if x.value <= c then 10 * (c - x.value) + 9
    else 10 * (n - x.value) + 10 * c + 19
  }

  // The same for the end of the inner loop.
  function ForgetRank(n: nat, c: Cpu, x: Option<Cpu>): nat
    requires c < n && (x.Some? ==> x.value < n)
  {
    9 + InnerRank(n, c, if x.None? then Some(0) else x)
  }

  // The positions in `pc` are in the list.
  predicate Listed(n: nat, pc: Pc) {
    match pc
    case Head(x) => x.Some? ==> x.value < n
    case Clear(x) => x.Some? ==> x.value < n
    case WaitCheck(x) => x.Some? ==> x.value < n
    case Sleep(x) => x.Some? ==> x.value < n
    case Wake(x) => x.Some? ==> x.value < n
    case Unlock(x) => x.Some? ==> x.value < n
    case TakeReplay(x) => x.Some? ==> x.value < n
    case Relock(x) => x.Some? ==> x.value < n
    case DropReplay(x) => x.Some? ==> x.value < n
    case Inner(x) => x.Some? ==> x.value < n
    case Forget(x) => x.Some? ==> x.value < n
    case Store(p) => p < n
    case ReadRequest(p) => p < n
    case CanRun(p) => p < n
    case Exec(p) => p < n
    case ExecRelock(p, _) => p < n
    case Atomic(p) => p < n
    case AtomicRelock(p) => p < n
    case _ => true
  }

  function TurnRank(n: nat, c: Cpu, pc: Pc): nat
    requires c < n && Listed(n, pc)
  {
    match pc
    case Begin => ForgetRank(n, c, None) + 1
    case InitCheck => ForgetRank(n, c, None)
    case InitSleep => ForgetRank(n, c, None) + 2
    case InitWake => ForgetRank(n, c, None) + 1
    case Head(x) => ForgetRank(n, c, x) - 1
    case Clear(x) => ForgetRank(n, c, x) - 2
    case WaitCheck(x) => ForgetRank(n, c, x) - 3
    case Sleep(x) => ForgetRank(n, c, x) - 1
    case Wake(x) => ForgetRank(n, c, x) - 2
    case Unlock(x) => ForgetRank(n, c, x) - 4
    case TakeReplay(x) => ForgetRank(n, c, x) - 5
    case Relock(x) => ForgetRank(n, c, x) - 6
    case DropReplay(x) => ForgetRank(n, c, x) - 7
    case Inner(x) => InnerRank(n, c, x)
    case Store(p) => InnerRank(n, c, Some(p)) - 1
    case ReadRequest(p) => InnerRank(n, c, Some(p)) - 2
    case CanRun(p) => InnerRank(n, c, Some(p)) - 3
    case Exec(p) => if p == c then 0 else InnerRank(n, c, Some(p)) - 4
    case ExecRelock(p, exit) =>
      if !exit.Normal? then ForgetRank(n, c, Some(p)) + 3
      else if p == c then 10 * (n - c) + 10 * c + 19
      else InnerRank(n, c, Some(p)) - 5
    case Atomic(p) => ForgetRank(n, c, Some(p)) + 2
    case AtomicRelock(p) => ForgetRank(n, c, Some(p)) + 1
    case Forget(x) => ForgetRank(n, c, x)
    case _ => 0
  }

  ghost function Requests(s: State): nat {
    |s.requests - Pending(s.worker)|
  }

  // Between two states of the worker nothing has got in its way.
  ghost predicate Alone(s: State, s': State) {
    s'.n == s.n && s'.runnable == s.runnable && Listed(s.n, s'.worker) && Unhindered(s')
  }

  ghost predicate Closer(s: State, s': State, c: Cpu)
    requires c < s.n && Listed(s.n, s.worker)
  {
    && Alone(s, s')
    && (Requests(s') < Requests(s)
        || (Requests(s') == Requests(s) && TurnRank(s.n, c, s'.worker) < TurnRank(s.n, c, s.worker)))
  }

  lemma SmallerSet(a: set<Cpu>, b: set<Cpu>)
    requires a <= b
    ensures |a| < |b| || a == b
  {
    if a != b {
      var x :| x in b && x !in a;
      SubsetSize(a, b - {x});
    }
  }

  lemma {:induction false} SubsetSize(a: set<Cpu>, b: set<Cpu>)
    requires a <= b
    ensures |a| <= |b|
    decreases a
  {
    if a != {} {
      var x :| x in a;
      SubsetSize(a - {x}, b - {x});
    }
  }

  lemma SetupRank(s: State, c: Cpu)
    requires Setup(s.worker) && !s.stopping && c < s.n && Listed(s.n, s.worker)
    ensures Listed(s.n, SetupStep(s, 0).worker)
    ensures TurnRank(s.n, c, SetupStep(s, 0).worker) < TurnRank(s.n, c, s.worker)
  {
    match s.worker {
      case Begin =>
      case InitCheck =>
      case InitWake =>
      case Head(_) =>
      case Clear(_) =>
      case WaitCheck(_) =>
      case Wake(_) =>
    }
  }

  lemma SetupRequests(s: State)
    requires Setup(s.worker) && !s.stopping
    ensures SetupStep(s, 0).requests - Pending(SetupStep(s, 0).worker) <= s.requests - Pending(s.worker)
  {
    match s.worker {
      case Begin =>
      case InitCheck =>
      case InitWake =>
      case Head(_) =>
      case Clear(_) =>
      case WaitCheck(_) =>
      case Wake(_) =>
    }
  }

  lemma SetupAlone(s: State)
    requires Setup(s.worker) && Unhindered(s)
    ensures SetupStep(s, 0).n == s.n && SetupStep(s, 0).runnable == s.runnable && Unhindered(SetupStep(s, 0))
  {
    match s.worker {
      case Begin =>
      case InitCheck =>
      case InitWake =>
      case Head(_) =>
      case Clear(_) =>
      case WaitCheck(_) =>
      case Wake(_) =>
    }
  }

  lemma SetupCloser(s: State, c: Cpu)
    requires Unhindered(s) && Setup(s.worker) && c < s.n && Listed(s.n, s.worker)
    ensures Closer(s, SetupStep(s, 0), c)
  {
    SetupRank(s, c);
    SetupRequests(s);
    SetupAlone(s);
    SmallerSet(SetupStep(s, 0).requests - Pending(SetupStep(s, 0).worker), s.requests - Pending(s.worker));
  }

  lemma WindowRank(s: State, c: Cpu)
    requires Window(s.worker) && c < s.n && Listed(s.n, s.worker)
    ensures Listed(s.n, WindowStep(s).worker)
    ensures TurnRank(s.n, c, WindowStep(s).worker) < TurnRank(s.n, c, s.worker)
  {
    match s.worker {
      case Unlock(_) =>
      case TakeReplay(_) =>
      case Relock(_) =>
      case DropReplay(x) =>
    }
  }

  lemma WindowAlone(s: State)
    requires Window(s.worker) && Unhindered(s)
    ensures WindowStep(s).n == s.n && WindowStep(s).runnable == s.runnable && Unhindered(WindowStep(s))
    ensures WindowStep(s).requests - Pending(WindowStep(s).worker) == s.requests - Pending(s.worker)
  {
    match s.worker {
      case Unlock(_) =>
      case TakeReplay(_) =>
      case Relock(_) =>
      case DropReplay(_) =>
    }
  }

  lemma WindowCloser(s: State, c: Cpu)
    requires Unhindered(s) && Window(s.worker) && c < s.n && Listed(s.n, s.worker)
    ensures Closer(s, WindowStep(s), c)
  {
    WindowRank(s, c);
    WindowAlone(s);
  }

  // The worker finds a request, goes back, and clears it.
  predicate FindsRequest(s: State) {
    s.worker.ReadRequest? && s.worker.c in s.requests
  }

  lemma NextRank(s: State, c: Cpu, p: Cpu)
    requires c < s.n && p < s.n
    ensures NextCpu(s, p).Some? ==> NextCpu(s, p).value < s.n
    ensures if p == c then InnerRank(s.n, c, NextCpu(s, p)) < 10 * (s.n - c) + 10 * c + 19
            else InnerRank(s.n, c, NextCpu(s, p)) < InnerRank(s.n, c, Some(p)) - 5
  {
  }

  lemma LoopRank(s: State, c: Cpu)
    requires s.worker.Inner? || s.worker.Store? || s.worker.ReadRequest? || s.worker.Forget?
    requires c < s.n && Listed(s.n, s.worker)
    ensures Listed(s.n, RunStep(s, 0).worker)
    ensures !FindsRequest(s) ==> TurnRank(s.n, c, RunStep(s, 0).worker) < TurnRank(s.n, c, s.worker)
  {
    match s.worker {
      case Inner(_) =>
      case Store(_) =>
      case ReadRequest(_) =>
      case Forget(_) =>
    }
  }

  lemma GuestRank(s: State, c: Cpu)
    requires s.worker.CanRun? || s.worker.Exec? || s.worker.ExecRelock? || s.worker.Atomic? || s.worker.AtomicRelock?
    requires c < s.n && c in s.runnable && s.worker != Exec(c) && Listed(s.n, s.worker)
    ensures Listed(s.n, RunStep(s, 0).worker)
    ensures TurnRank(s.n, c, RunStep(s, 0).worker) < TurnRank(s.n, c, s.worker)
  {
    NextRank(s, c, s.worker.c);
    match s.worker {
      case CanRun(_) =>
      case Exec(_) =>
      case ExecRelock(_, _) =>
      case Atomic(_) =>
      case AtomicRelock(_) =>
    }
  }

  lemma RunRank(s: State, c: Cpu)
    requires Running(s.worker) && c < s.n && c in s.runnable && s.worker != Exec(c) && Listed(s.n, s.worker)
    ensures Listed(s.n, RunStep(s, 0).worker)
    ensures !FindsRequest(s) ==> TurnRank(s.n, c, RunStep(s, 0).worker) < TurnRank(s.n, c, s.worker)
  {
    if s.worker.Inner? || s.worker.Store? || s.worker.ReadRequest? || s.worker.Forget? {
      LoopRank(s, c);
    } else {
      GuestRank(s, c);
    }
  }

  lemma RunRequests(s: State)
    requires Running(s.worker)
    ensures RunStep(s, 0).requests - Pending(RunStep(s, 0).worker) <= s.requests - Pending(s.worker)
    ensures FindsRequest(s) ==> s.worker.c !in RunStep(s, 0).requests - Pending(RunStep(s, 0).worker)
  {
    match s.worker {
      case Inner(_) =>
      case Store(_) =>
      case ReadRequest(_) =>
      case CanRun(_) =>
      case Exec(_) =>
      case ExecRelock(_, _) =>
      case Atomic(_) =>
      case AtomicRelock(_) =>
      case Forget(_) =>
    }
  }

  lemma RunAlone(s: State)
    requires Running(s.worker) && Unhindered(s)
    ensures RunStep(s, 0).n == s.n && RunStep(s, 0).runnable == s.runnable && Unhindered(RunStep(s, 0))
  {
    match s.worker {
      case Inner(_) =>
      case Store(_) =>
      case ReadRequest(_) =>
      case CanRun(_) =>
      case Exec(_) =>
      case ExecRelock(_, _) =>
      case Atomic(_) =>
      case AtomicRelock(_) =>
      case Forget(_) =>
    }
  }

  lemma RunCloser(s: State, c: Cpu)
    requires Unhindered(s) && Running(s.worker) && c < s.n && c in s.runnable && s.worker != Exec(c)
    requires Listed(s.n, s.worker)
    ensures Closer(s, RunStep(s, 0), c)
  {
    RunRank(s, c);
    RunRequests(s);
    RunAlone(s);
    var before, after := s.requests - Pending(s.worker), RunStep(s, 0).requests - Pending(RunStep(s, 0).worker);
    SmallerSet(after, before);
    if FindsRequest(s) { assert s.worker.c in before; }
  }

  lemma WakeCloser(s: State, c: Cpu)
    requires Unhindered(s) && Asleep(s.worker) && c < s.n && Listed(s.n, s.worker)
    ensures Closer(s, Apply(s, Spurious), c)
  {
  }

  lemma ListedIff(s: State)
    requires InList(s, s.worker)
    ensures Listed(s.n, s.worker)
  {
  }

  // With the locks free, the worker can go on.
  lemma WorkerGoesOn(s: State)
    requires Inv(s) && Unhindered(s)
    ensures if Asleep(s.worker) then Enabled(s, Spurious) else CanWork(s)
  {
  }

  lemma StepCloser(s: State, c: Cpu) returns (l: Label)
    requires Inv(s) && Unhindered(s) && c < s.n && c in s.runnable && s.worker != Exec(c) && Listed(s.n, s.worker)
    ensures (l == Work(0) || l == Spurious) && Enabled(s, l) && Closer(s, Apply(s, l), c)
  {
    WorkerGoesOn(s);
    l := if Asleep(s.worker) then Spurious else Work(0);
    if Asleep(s.worker) {
      WakeCloser(s, c);
    } else if Setup(s.worker) {
      SetupCloser(s, c);
    } else if Window(s.worker) {
      WindowCloser(s, c);
    } else {
      RunCloser(s, c);
    }
  }

  lemma {:induction false} RunsSoon(tr: seq<State>, c: Cpu) returns (longer: seq<State>)
    requires Trace(tr) && Unhindered(tr[|tr| - 1]) && c < tr[|tr| - 1].n && c in tr[|tr| - 1].runnable
    requires Listed(tr[|tr| - 1].n, tr[|tr| - 1].worker)
    ensures WorksOn(tr, longer) && longer[|longer| - 1].worker == Exec(c)
    decreases Requests(tr[|tr| - 1]), TurnRank(tr[|tr| - 1].n, c, tr[|tr| - 1].worker)
  {
    var s := tr[|tr| - 1];
    if s.worker == Exec(c) {
      longer := tr;
    } else {
      var next := OneCloser(tr, c);
      longer := RunsSoon(next, c);
      Joined(tr, next, longer);
    }
  }

  lemma OneCloser(tr: seq<State>, c: Cpu) returns (next: seq<State>)
    requires Trace(tr) && Unhindered(tr[|tr| - 1]) && c < tr[|tr| - 1].n && c in tr[|tr| - 1].runnable
    requires Listed(tr[|tr| - 1].n, tr[|tr| - 1].worker) && tr[|tr| - 1].worker != Exec(c)
    ensures WorksOn(tr, next) && Closer(tr[|tr| - 1], next[|next| - 1], c)
  {
    TraceKeepsInv(tr, |tr| - 1);
    var l := StepCloser(tr[|tr| - 1], c);
    next := GoOn(tr, l);
  }

  /** Every CPU gets its turn: from every reachable state without a stop, with the locks free, the worker comes by
      itself to execute any given runnable CPU, whatever exit requests are set, and however it is asleep. */
  lemma EveryCpuRuns(tr: seq<State>, c: Cpu) returns (longer: seq<State>)
    requires Trace(tr) && c < tr[|tr| - 1].n && c in tr[|tr| - 1].runnable && !tr[|tr| - 1].stopping
    requires tr[|tr| - 1].bql.None? || tr[|tr| - 1].bql == Some(WORKER)
    requires tr[|tr| - 1].replay.None? || tr[|tr| - 1].replay == Some(WORKER)
    ensures WorksOn(tr, longer) && longer[|longer| - 1].worker == Exec(c)
  {
    TraceKeepsInv(tr, |tr| - 1);
    TraceQuits(tr, |tr| - 1);
    ListedIff(tr[|tr| - 1]);
    longer := RunsSoon(tr, c);
  }

  // ---------- Exit requests ----------

  // The worker clears the request of CPU c in step k.
  predicate ClearsRequest(tr: seq<State>, k: nat, c: Cpu) {
    k < |tr| && tr[k].worker == Clear(Some(c))
  }

  lemma RequestStep(s: State, l: Label, c: Cpu)
    requires Enabled(s, l) && c in s.requests && s.worker != Clear(Some(c))
    ensures c in Apply(s, l).requests
  {
    if l.Work? { WorkKeepsRequest(s, l.choice, c); }
  }

  lemma WorkKeepsRequest(s: State, choice: nat, c: Cpu)
    requires CanWork(s) && c in s.requests && s.worker != Clear(Some(c))
    ensures c in WorkStep(s, choice).requests
  {
    if Setup(s.worker) {
      SetupKeepsRequest(s, choice, c);
    } else if Running(s.worker) {
      RunKeepsRequest(s, choice, c);
    }
  }

  lemma SetupKeepsRequest(s: State, choice: nat, c: Cpu)
    requires Setup(s.worker) && c in s.requests && s.worker != Clear(Some(c))
    ensures c in SetupStep(s, choice).requests
  {
  }

  lemma RunKeepsRequest(s: State, choice: nat, c: Cpu)
    requires Running(s.worker) && c in s.requests
    ensures c in RunStep(s, choice).requests
  {
  }

  lemma {:induction false} RequestStays(tr: seq<State>, i: nat, j: nat, c: Cpu)
    requires Trace(tr) && i <= j < |tr| && c in tr[i].requests && forall k :: i <= k < j ==> !ClearsRequest(tr, k, c)
    ensures c in tr[j].requests
    decreases j
  {
    if i < j {
      RequestStays(tr, i, j - 1, c);
      var l := StepOf(tr, j);
      assert !ClearsRequest(tr, j - 1, c);
      RequestStep(tr[j - 1], l, c);
    }
  }

  /** A CPU that another thread has asked to exit does not begin to run before the worker has cleared that request,
      which it does only when it resumes with that very CPU. */
  lemma AskedCpuDoesNotRun(tr: seq<State>, i: nat, j: nat, c: Cpu)
    requires Trace(tr) && i + 1 < j < |tr| && tr[i + 1] == Apply(tr[i], Request(c))
    requires tr[j - 1].worker == ReadRequest(c) && tr[j].worker == CanRun(c)
    ensures exists k :: i < k < j && ClearsRequest(tr, k, c)
  {
    if forall k :: i + 1 <= k < j - 1 ==> !ClearsRequest(tr, k, c) {
      RequestStays(tr, i + 1, j - 1, c);
      var l := StepOf(tr, j);
    } else {
      var k :| i + 1 <= k < j - 1 && ClearsRequest(tr, k, c);
    }
  }

  // ---------- Sleeping, waking, and where the loop starts ----------

  /** A broadcast of the halt condition wakes the sleeping worker, which goes on with the CPU it was at. */
  lemma BroadcastWakes(tr: seq<State>, t: Tid) returns (longer: seq<State>)
    requires Trace(tr) && Asleep(tr[|tr| - 1].worker) && t > STOPPER
    ensures Trace(longer) && tr <= longer && |longer| == |tr| + 1
    ensures match tr[|tr| - 1].worker
      case InitSleep => longer[|tr|].worker == InitWake
      case Sleep(cpu) => longer[|tr|].worker == Wake(cpu)
      case _ => false
  {
    Extend(tr, Signal(t));
    longer := tr + [Apply(tr[|tr| - 1], Signal(t))];
  }

  /** When all CPUs are idle the worker goes to sleep and gives the BQL back; nothing but a stop keeps it from that. */
  lemma IdleWorkerSleeps(tr: seq<State>, cpu: Option<Cpu>) returns (longer: seq<State>)
    requires Trace(tr) && tr[|tr| - 1].worker == Head(cpu) && !tr[|tr| - 1].stopping
    ensures Trace(longer) && tr <= longer && |longer| == |tr| + 3
    ensures longer[|tr| + 2].worker == Sleep(cpu) && longer[|tr| + 2].bql.None?
  {
    TraceKeepsInv(tr, |tr| - 1);
    var a := OneIdleStep(tr);
    var b := OneIdleStep(a);
    TraceKeepsInv(b, |b| - 1);
    longer := OneIdleStep(b);
  }

  lemma OneIdleStep(tr: seq<State>) returns (longer: seq<State>)
    requires Trace(tr) && Setup(tr[|tr| - 1].worker) && CanWork(tr[|tr| - 1])
    ensures Trace(longer) && longer == tr + [SetupStep(tr[|tr| - 1], 1)]
  {
    Extend(tr, Work(1));
    longer := tr + [Apply(tr[|tr| - 1], Work(1))];
  }

  // The worker has not come to its loop yet.
  predicate StartingUp(pc: Pc) {
    pc.Begin? || pc.InitCheck? || pc.InitSleep? || pc.InitWake?
  }

  lemma StartStep(s: State, l: Label)
    requires Inv(s) && Enabled(s, l) && StartingUp(s.worker)
    ensures StartingUp(Apply(s, l).worker) || Apply(s, l).worker == Head(Some(0))
  {
  }

  lemma {:induction false} StartsUp(tr: seq<State>, i: nat)
    requires Trace(tr) && i < |tr| && forall k :: 0 <= k < i ==> !tr[k].worker.Head?
    ensures StartingUp(tr[i].worker) || tr[i].worker == Head(Some(0))
    decreases i
  {
    if i > 0 {
      StartsUp(tr, i - 1);
      var l := StepOf(tr, i);
      StartStep(tr[i - 1], l);
    }
  }

  /** The loop starts with the first CPU. */
  lemma FirstCpuFirst(tr: seq<State>, i: nat)
    requires Trace(tr) && i < |tr| && tr[i].worker.Head? && forall k :: 0 <= k < i ==> !tr[k].worker.Head?
    ensures tr[i].worker == Head(Some(0))
  {
    StartsUp(tr, i);
  }

  /** A CPU that cannot run is left for the next one: at once if it is only halted; if it has been stopped, by way
      of the outer loop, which comes back to it unless it is being unplugged. */
  lemma StoppedCpuIsPassed(tr: seq<State>, c: Cpu, stop: bool, unplug: bool) returns (longer: seq<State>)
    requires Trace(tr) && tr[|tr| - 1].worker == CanRun(c) && c !in tr[|tr| - 1].runnable
    ensures Trace(longer) && tr <= longer
    ensures var n := tr[|tr| - 1].n;
      var next: Option<Cpu> := if c + 1 < n then Some(c + 1) else None;
      longer[|longer| - 1].worker ==
        if !stop then Inner(next) else Head(if unplug then next else Some(c))
    ensures stop ==> longer[|longer| - 1].current.None?
  {
    var choice := if !stop then 0 else if unplug then 2 else 1;
    Extend(tr, Work(choice));
    longer := tr + [Apply(tr[|tr| - 1], Work(choice))];
    if stop {
      Extend(longer, Work(0));
      longer := longer + [Apply(longer[|longer| - 1], Work(0))];
    }
  }
}
