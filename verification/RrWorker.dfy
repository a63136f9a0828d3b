/**
  tcg-accel-ops-rr.c: the round-robin vCPU worker, the threads that kick it, and the thread that
  stops it.  Every atomic access, lock operation and loop test is a step; the worker's other inputs
  (idle CPUs, queued work, the result of guest execution) are free choices.  Any number of further
  threads take and release the BQL and the replay mutex.
 */
module RrWorker {
  import opened Prelude

  type Tid = nat
  type Cpu = nat               // position in the CPU list

  const WORKER: Tid := 0
  const STOPPER: Tid := 1

  datatype Exit = Normal | Debug | AtomicStep

  /** Program point of rr_cpu_thread_fn. */
  datatype Pc =
    | Begin
    | InitCheck | InitSleep | InitWake
    | Head(cpu: Option<Cpu>)
    | Clear(cpu: Option<Cpu>)
    | WaitCheck(cpu: Option<Cpu>) | Sleep(cpu: Option<Cpu>) | Wake(cpu: Option<Cpu>)
    | Unlock(cpu: Option<Cpu>) | TakeReplay(cpu: Option<Cpu>) | Relock(cpu: Option<Cpu>) | DropReplay(cpu: Option<Cpu>)
    | Inner(cpu: Option<Cpu>)
    | Store(c: Cpu) | ReadRequest(c: Cpu) | CanRun(c: Cpu)
    | Exec(c: Cpu) | ExecRelock(c: Cpu, exit: Exit)
    | Atomic(c: Cpu) | AtomicRelock(c: Cpu)
    | Forget(cpu: Option<Cpu>)
    | Quit | QuitClear | QuitUnlock | Returned

  /** Program point of rr_kick_next_cpu; `since` is the number of clears when the kick began. */
  datatype Kick =
    | Off
    | Read(since: nat)
    | Mark(seen: Option<Cpu>, since: nat)
    | Reread(seen: Option<Cpu>, since: nat)

  /** Program point of hmos_rr_stop_vcpu_thread. */
  datatype Stop = Out | Kicking | Broadcast | UnlockReplay | UnlockBql | Joining | RetakeReplay | RetakeBql | Done

  datatype State = State(
    n: nat,                    // number of CPUs
    bql: Option<Tid>,
    replay: Option<Tid>,
    waits: set<Tid>,           // other threads waiting for the BQL
    current: Option<Cpu>,      // rr_current_cpu
    requests: set<Cpu>,        // CPUs whose exit_request is set
    runnable: set<Cpu>,        // cpu_can_run
    stopping: bool,            // rr_thread_stopping
    worker: Pc,
    stopper: Stop,
    kicks: map<Tid, Kick>,
    clears: nat)               // history: how often the worker cleared rr_current_cpu

  datatype Label =
    | Work(choice: nat)
    | Spurious                 // the condition wait ends by itself
    | StopCall
    | StopStep
    | KickBegin(t: Tid)
    | KickStep(t: Tid)
    // other threads, and the stopper before it stops
    | Want(t: Tid)
    | GetBql(t: Tid)
    | DropBql(t: Tid)
    | GetReplay(t: Tid)
    | PutReplay(t: Tid)
    | Signal(t: Tid)           // broadcast of the halt condition
    | Request(c: Cpu)          // cpu_exit by another thread
    | SetRunnable(t: Tid, runnable: set<Cpu>)

  predicate NeedsBql(pc: Pc) {
    pc.Begin? || pc.InitWake? || pc.Wake? || pc.Relock? || pc.ExecRelock? || pc.AtomicRelock?
  }

  predicate Asleep(pc: Pc) {
    pc.InitSleep? || pc.Sleep?
  }

  // The worker can take a step of its own.
  predicate CanWork(s: State) {
    && !s.worker.Returned? && !Asleep(s.worker)
    && (NeedsBql(s.worker) ==> s.bql.None?)
    && (s.worker.TakeReplay? ==> s.replay.None?)
  }

  predicate Free(s: State, t: Tid) {
    t > STOPPER || (t == STOPPER && s.stopper.Out?)
  }

  predicate CanStop(s: State) {
    match s.stopper
    case Out => false
    case Kicking => STOPPER in s.kicks && s.kicks[STOPPER].Off?
    case Broadcast => true
    case UnlockReplay => true
    case UnlockBql => true
    case Joining => s.worker.Returned?
    case RetakeReplay => s.replay.None?
    case RetakeBql => s.bql.None?
    case Done => false
  }

  predicate Enabled(s: State, l: Label) {
    match l
    case Work(_) => CanWork(s)
    case Spurious => Asleep(s.worker)
    case StopCall =>
      s.stopper.Out? && s.bql == Some(STOPPER) && s.replay == Some(STOPPER) && s.runnable == {}
      && STOPPER in s.kicks && s.kicks[STOPPER].Off?
    case StopStep => CanStop(s)
    case KickBegin(t) => t in s.kicks && s.kicks[t].Off? && t != WORKER && Free(s, t)
    case KickStep(t) => t in s.kicks && !s.kicks[t].Off?
    case Want(t) => Free(s, t) && t !in s.waits && s.bql != Some(t)
    case GetBql(t) => Free(s, t) && t in s.waits && s.bql.None?
    case DropBql(t) => Free(s, t) && s.bql == Some(t)
    // Lock order: nobody waits for the replay mutex while it holds, or waits for, the BQL.
    case GetReplay(t) => Free(s, t) && t !in s.waits && s.bql != Some(t) && s.replay.None?
    case PutReplay(t) => Free(s, t) && t !in s.waits && s.replay == Some(t)
    case Signal(t) => Free(s, t)
    case Request(_) => true
    case SetRunnable(t, _) => Free(s, t) && s.bql == Some(t) && !s.stopping
  }

  function NextCpu(s: State, c: Cpu): Option<Cpu> {
    if c + 1 < s.n then Some(c + 1) else None
  }

  function To(s: State, pc: Pc): State {
    s.(worker := pc)
  }

  function Locking(s: State, pc: Pc): State {
    s.(worker := pc, bql := Some(WORKER))
  }

  function Unlocking(s: State, pc: Pc): State {
    s.(worker := pc, bql := None)
  }

  predicate Setup(pc: Pc) {
    pc.Begin? || pc.InitCheck? || pc.InitWake? || pc.Head? || pc.Clear? || pc.WaitCheck? || pc.Wake?
  }

  predicate Window(pc: Pc) {
    pc.Unlock? || pc.TakeReplay? || pc.Relock? || pc.DropReplay?
  }

  predicate Quitting(pc: Pc) {
    pc.Quit? || pc.QuitClear? || pc.QuitUnlock?
  }

  // Up to the end of rr_wait_io_event.  Choice 0: the first CPU is not stopped, not all CPUs are idle.
  function SetupStep(s: State, choice: nat): State
    requires Setup(s.worker)
  {
    match s.worker
    case Begin => Locking(s, InitCheck)
    case InitCheck => if s.stopping || choice == 0 then To(s, Head(Some(0))) else Unlocking(s, InitSleep)
    case InitWake => Locking(s, InitCheck)
    case Head(cpu) => if s.stopping then To(s, Quit) else To(s, Clear(cpu))
    case Clear(cpu) => To(s, WaitCheck(cpu)).(requests := if cpu.Some? then s.requests - {cpu.value} else s.requests)
    case WaitCheck(cpu) =>
      if s.stopping then To(s, Quit) else if choice == 0 then To(s, Unlock(cpu)) else Unlocking(s, Sleep(cpu))
    case Wake(cpu) => Locking(s, WaitCheck(cpu))
  }

  // The unlock, replay lock, relock window.
  function WindowStep(s: State): State
    requires Window(s.worker)
  {
    match s.worker
    case Unlock(cpu) => Unlocking(s, TakeReplay(cpu))
    case TakeReplay(cpu) => To(s, Relock(cpu)).(replay := Some(WORKER))
    case Relock(cpu) => Locking(s, DropReplay(cpu))
    case DropReplay(cpu) => To(s, Inner(if cpu.None? then Some(0) else cpu)).(replay := None)
  }

  predicate Running(pc: Pc) {
    pc.Inner? || pc.Store? || pc.ReadRequest? || pc.CanRun? || pc.Exec? || pc.ExecRelock? || pc.Atomic?
    || pc.AtomicRelock? || pc.Forget?
  }

  // The inner loop over CPUs.  Choices: queued work, cpu->stop, cpu->unplug, and how guest execution ended.
  function RunStep(s: State, choice: nat): State
    requires Running(s.worker)
  {
    match s.worker
    case Inner(cpu) => if cpu.None? || choice != 0 then To(s, Forget(cpu)) else To(s, Store(cpu.value))
    case Store(c) => To(s, ReadRequest(c)).(current := Some(c))
    case ReadRequest(c) => if c in s.requests then To(s, Forget(Some(c))) else To(s, CanRun(c))
    case CanRun(c) =>
      if c in s.runnable then Unlocking(s, Exec(c))
      else if choice == 0 then To(s, Inner(NextCpu(s, c)))
      else To(s, Forget(if choice == 1 then Some(c) else NextCpu(s, c)))
    case Exec(c) => To(s, ExecRelock(c, if choice == 0 then Normal else if choice == 1 then Debug else AtomicStep))
    case ExecRelock(c, exit) =>
      if exit.Normal? then Locking(s, Inner(NextCpu(s, c)))
      else if exit.Debug? then Locking(s, Forget(Some(c)))
      else To(s, Atomic(c))         // the BQL is taken and released again
    case Atomic(c) => To(s, AtomicRelock(c))
    case AtomicRelock(c) => Locking(s, Forget(Some(c)))
    case Forget(cpu) => To(s, Head(cpu)).(current := None, clears := s.clears + 1)
  }

  function QuitStep(s: State): State
    requires Quitting(s.worker)
  {
    match s.worker
    case Quit => To(s, QuitClear)
    case QuitClear => To(s, QuitUnlock).(current := None, clears := s.clears + 1)
    case QuitUnlock => Unlocking(s, Returned)
  }

  function WorkStep(s: State, choice: nat): State
    requires CanWork(s)
  {
    if Setup(s.worker) then SetupStep(s, choice)
    else if Window(s.worker) then WindowStep(s)
    else if Running(s.worker) then RunStep(s, choice)
    else QuitStep(s)
  }

  // What a broadcast, or a spurious wake-up, does to the worker.
  function Woken(pc: Pc): Pc {
    match pc
    case InitSleep => InitWake
    case Sleep(cpu) => Wake(cpu)
    case _ => pc
  }

  function StopNext(s: State): State
    requires CanStop(s)
  {
    match s.stopper
    case Kicking => s.(stopper := Broadcast)
    case Broadcast => s.(stopper := UnlockReplay, worker := Woken(s.worker))
    case UnlockReplay => s.(stopper := UnlockBql, replay := None)
    case UnlockBql => s.(stopper := Joining, bql := None)
    case Joining => s.(stopper := RetakeReplay)
    case RetakeReplay => s.(stopper := RetakeBql, replay := Some(STOPPER))
    case RetakeBql => s.(stopper := Done, bql := Some(STOPPER))
  }

  function KickNext(s: State, t: Tid): State
    requires t in s.kicks && !s.kicks[t].Off?
  {
    match s.kicks[t]
    case Read(since) => s.(kicks := s.kicks[t := Mark(s.current, since)])
    case Mark(seen, since) =>
      s.(kicks := s.kicks[t := Reread(seen, since)],
         requests := if seen.Some? then s.requests + {seen.value} else s.requests)
    case Reread(seen, since) => s.(kicks := s.kicks[t := if s.current == seen then Off else Read(since)])
  }

  function Apply(s: State, l: Label): State
    requires Enabled(s, l)
  {
    match l
    case Work(choice) => WorkStep(s, choice)
    case Spurious => s.(worker := Woken(s.worker))
    case StopCall => s.(stopping := true, stopper := Kicking, kicks := s.kicks[STOPPER := Read(s.clears)])
    case StopStep => StopNext(s)
    case KickBegin(t) => s.(kicks := s.kicks[t := Read(s.clears)])
    case KickStep(t) => KickNext(s, t)
    case Want(t) => s.(waits := s.waits + {t})
    case GetBql(t) => s.(waits := s.waits - {t}, bql := Some(t))
    case DropBql(t) => s.(bql := None)
    case GetReplay(t) => s.(replay := Some(t))
    case PutReplay(t) => s.(replay := None)
    case Signal(_) => s.(worker := Woken(s.worker))
    case Request(c) => s.(requests := s.requests + {c})
    case SetRunnable(_, runnable) => s.(runnable := runnable)
  }

  ghost predicate Init(s: State) {
    && s.n > 0 && s.bql.None? && s.replay.None? && s.waits == {} && s.current.None? && !s.stopping
    && s.worker.Begin? && s.stopper.Out? && STOPPER in s.kicks && (forall t :: t in s.kicks ==> s.kicks[t].Off?)
    && s.clears == 0
  }

  // ---------- Invariants ----------

  predicate HoldsBql(pc: Pc) {
    pc.InitCheck? || pc.Head? || pc.Clear? || pc.WaitCheck? || pc.Unlock? || pc.DropReplay? || pc.Inner? || pc.Store?
    || pc.ReadRequest? || pc.CanRun? || pc.Forget? || pc.Quit? || pc.QuitClear? || pc.QuitUnlock?
  }

  predicate HoldsReplay(pc: Pc) {
    pc.Relock? || pc.DropReplay?
  }

  predicate StopHoldsBql(p: Stop) {
    p.Kicking? || p.Broadcast? || p.UnlockReplay? || p.UnlockBql? || p.Done?
  }

  predicate StopHoldsReplay(p: Stop) {
    p.Kicking? || p.Broadcast? || p.UnlockReplay? || p.RetakeBql? || p.Done?
  }

  ghost predicate LocksOk(s: State) {
    && (HoldsBql(s.worker) <==> s.bql == Some(WORKER))
    && (HoldsReplay(s.worker) <==> s.replay == Some(WORKER))
    && (StopHoldsBql(s.stopper) ==> s.bql == Some(STOPPER))
    && (StopHoldsReplay(s.stopper) ==> s.replay == Some(STOPPER))
    && (s.bql == Some(STOPPER) ==> StopHoldsBql(s.stopper) || s.stopper.Out?)
    && (s.replay == Some(STOPPER) ==> StopHoldsReplay(s.stopper) || s.stopper.Out?)
    && (forall t :: t in s.waits ==> Free(s, t) && s.bql != Some(t))
  }

  // The CPU whose turn it is.
  function Turn(pc: Pc): Option<Cpu> {
    if pc.ReadRequest? || pc.CanRun? || pc.Exec? || pc.ExecRelock? || pc.Atomic? || pc.AtomicRelock? then Some(pc.c)
    else None
  }

  ghost predicate CurrentOk(s: State) {
    && (Turn(s.worker).Some? ==> s.current == Turn(s.worker))
    && (s.current.Some? ==> Running(s.worker))
  }

  // CPU positions are in range.
  predicate InList(s: State, pc: Pc) {
    match pc
    case Head(cpu) => cpu.Some? ==> cpu.value < s.n
    case Clear(cpu) => cpu.Some? ==> cpu.value < s.n
    case WaitCheck(cpu) => cpu.Some? ==> cpu.value < s.n
    case Sleep(cpu) => cpu.Some? ==> cpu.value < s.n
    case Wake(cpu) => cpu.Some? ==> cpu.value < s.n
    case Unlock(cpu) => cpu.Some? ==> cpu.value < s.n
    case TakeReplay(cpu) => cpu.Some? ==> cpu.value < s.n
    case Relock(cpu) => cpu.Some? ==> cpu.value < s.n
    case DropReplay(cpu) => cpu.Some? ==> cpu.value < s.n
    case Inner(cpu) => cpu.Some? ==> cpu.value < s.n
    case Forget(cpu) => cpu.Some? ==> cpu.value < s.n
    case Store(c) => c < s.n
    case ReadRequest(c) => c < s.n
    case CanRun(c) => c < s.n
    case Exec(c) => c < s.n
    case ExecRelock(c, _) => c < s.n
    case Atomic(c) => c < s.n
    case AtomicRelock(c) => c < s.n
    case _ => true
  }

  // The stopper has yet to wake the worker.
  predicate BeforeBroadcast(p: Stop) {
    p.Kicking? || p.Broadcast?
  }

  ghost predicate StopOk(s: State) {
    && (s.stopping <==> !s.stopper.Out?)
    && (s.stopping ==> s.runnable == {})
    && (s.stopping && Asleep(s.worker) ==> BeforeBroadcast(s.stopper))
    && (s.stopping && !s.stopper.Kicking? && s.worker.Exec? ==> s.worker.c in s.requests)
    && (s.stopper.RetakeReplay? || s.stopper.RetakeBql? || s.stopper.Done? ==> s.worker.Returned?)
    && STOPPER in s.kicks && (s.stopping && !s.stopper.Kicking? ==> s.kicks[STOPPER].Off?)
  }

  // While the stopper kicks it holds the BQL, so rr_current_cpu stands still.
  ghost predicate StopKickOk(s: State) {
    s.stopper.Kicking? && STOPPER in s.kicks ==>
      match s.kicks[STOPPER]
      case Off => s.worker.Exec? ==> s.worker.c in s.requests
      case Read(_) => true
      case Mark(seen, _) => s.current == seen
      case Reread(seen, _) => s.current == seen && (seen.Some? ==> seen.value in s.requests)
  }

  // A CPU that a kick has seen and asked to exit still has the request, unless the worker has cleared
  // rr_current_cpu since the kick began.
  ghost predicate KickOk(s: State, t: Tid)
    requires t in s.kicks
  {
    match s.kicks[t]
    case Off => true
    case Read(since) => since <= s.clears
    case Mark(seen, since) => since <= s.clears && (seen.Some? && since == s.clears ==> Running(s.worker))
    case Reread(seen, since) =>
      since <= s.clears && (seen.Some? && since == s.clears ==> Running(s.worker) && seen.value in s.requests)
  }

  ghost predicate KicksOk(s: State) {
    forall t {:trigger KickOk(s, t)} :: t in s.kicks ==> KickOk(s, t)
  }

  ghost predicate Inv(s: State) {
    s.n > 0 && LocksOk(s) && CurrentOk(s) && InList(s, s.worker) && StopOk(s) && StopKickOk(s) && KicksOk(s)
  }

  // ---------- Steps keep the invariant ----------

  lemma SetupKeepsLocks(s: State, choice: nat)
    requires LocksOk(s) && CanWork(s) && Setup(s.worker)
    ensures LocksOk(SetupStep(s, choice))
  {
  }

  lemma RunKeepsLocks(s: State, choice: nat)
    requires LocksOk(s) && CanWork(s) && Running(s.worker)
    ensures LocksOk(RunStep(s, choice))
  {
  }

  lemma WorkKeepsLocks(s: State, choice: nat)
    requires Inv(s) && CanWork(s)
    ensures LocksOk(WorkStep(s, choice))
  {
    if Setup(s.worker) { SetupKeepsLocks(s, choice); } else if Running(s.worker) { RunKeepsLocks(s, choice); }
  }

  lemma WorkKeepsCurrent(s: State, choice: nat)
    requires Inv(s) && CanWork(s)
    ensures CurrentOk(WorkStep(s, choice))
  {
  }

  lemma SetupKeepsInList(s: State, choice: nat)
    requires s.n > 0 && Setup(s.worker) && InList(s, s.worker)
    ensures InList(SetupStep(s, choice), SetupStep(s, choice).worker)
  {
  }

  lemma RunKeepsInList(s: State, choice: nat)
    requires s.n > 0 && Running(s.worker) && InList(s, s.worker)
    ensures InList(RunStep(s, choice), RunStep(s, choice).worker)
  {
  }

  lemma WorkKeepsInList(s: State, choice: nat)
    requires s.n > 0 && CanWork(s) && InList(s, s.worker)
    ensures InList(WorkStep(s, choice), WorkStep(s, choice).worker)
  {
    if Setup(s.worker) { SetupKeepsInList(s, choice); } else if Running(s.worker) { RunKeepsInList(s, choice); }
  }

  lemma WorkKeepsStop(s: State, choice: nat)
    requires Inv(s) && CanWork(s)
    ensures StopOk(WorkStep(s, choice)) && StopKickOk(WorkStep(s, choice))
  {
  }

  lemma WorkKeepsKicks(s: State, choice: nat)
    requires Inv(s) && CanWork(s)
    ensures KicksOk(WorkStep(s, choice))
  {
    var s' := WorkStep(s, choice);
    forall t | t in s'.kicks ensures KickOk(s', t) { assert KickOk(s, t); }
  }

  lemma WokenFacts(pc: Pc)
    ensures HoldsBql(Woken(pc)) == HoldsBql(pc) && HoldsReplay(Woken(pc)) == HoldsReplay(pc)
    ensures Running(Woken(pc)) == Running(pc) && Turn(Woken(pc)) == Turn(pc) && !Asleep(Woken(pc))
    ensures Woken(pc).Exec? ==> Woken(pc) == pc
    ensures pc.Returned? ==> Woken(pc).Returned?
  {
  }

  lemma StopKeepsInv(s: State)
    requires Inv(s) && CanStop(s)
    ensures Inv(StopNext(s))
  {
    var s' := StopNext(s);
    WokenFacts(s.worker);
    forall t | t in s'.kicks ensures KickOk(s', t) { assert KickOk(s, t); }
  }

  lemma KickKeepsOthers(s: State, t: Tid)
    requires Inv(s) && t in s.kicks && !s.kicks[t].Off?
    ensures var s' := KickNext(s, t);
      LocksOk(s') && CurrentOk(s') && InList(s', s'.worker) && StopOk(s') && StopKickOk(s')
  {
    assert KickOk(s, t);
  }

  lemma KickKeepsKicks(s: State, t: Tid)
    requires Inv(s) && t in s.kicks && !s.kicks[t].Off?
    ensures KicksOk(KickNext(s, t))
  {
    var s' := KickNext(s, t);
    forall u | u in s'.kicks ensures KickOk(s', u) { assert KickOk(s, u); }
  }

  lemma WorkKeepsInv(s: State, choice: nat)
    requires Inv(s) && CanWork(s)
    ensures Inv(WorkStep(s, choice))
  {
    WorkKeepsLocks(s, choice);
    WorkKeepsCurrent(s, choice);
    WorkKeepsInList(s, choice);
    WorkKeepsStop(s, choice);
    WorkKeepsKicks(s, choice);
  }

  lemma KickKeepsInv(s: State, t: Tid)
    requires Inv(s) && t in s.kicks && !s.kicks[t].Off?
    ensures Inv(KickNext(s, t))
  {
    KickKeepsOthers(s, t);
    KickKeepsKicks(s, t);
  }

  lemma StepKeepsInv(s: State, l: Label)
    requires Inv(s) && Enabled(s, l)
    ensures Inv(Apply(s, l))
  {
    match l {
      case Work(choice) => WorkKeepsInv(s, choice);
      case StopStep => StopKeepsInv(s);
      case KickStep(t) => KickKeepsInv(s, t);
      case Spurious => WakeKeepsInv(s);
      case Signal(_) => WakeKeepsInv(s);
      case StopCall => BeginKeepsInv(s, l);
      case KickBegin(_) => BeginKeepsInv(s, l);
      case Request(_) => RequestKeepsInv(s, l);
      case SetRunnable(_, _) => RequestKeepsInv(s, l);
      case _ => LockKeepsInv(s, l);
    }
  }

  lemma WakeKeepsInv(s: State)
    requires Inv(s)
    ensures Inv(s.(worker := Woken(s.worker)))
  {
    var s' := s.(worker := Woken(s.worker));
    WokenFacts(s.worker);
    forall t | t in s'.kicks ensures KickOk(s', t) { assert KickOk(s, t); }
  }

  lemma BeginKeepsInv(s: State, l: Label)
    requires Inv(s) && Enabled(s, l) && (l.StopCall? || l.KickBegin?)
    ensures Inv(Apply(s, l))
  {
    var s' := Apply(s, l);
    forall t | t in s'.kicks ensures KickOk(s', t) { assert t in s.kicks ==> KickOk(s, t); }
  }

  predicate TakesLock(l: Label) {
    l.Want? || l.GetBql? || l.DropBql? || l.GetReplay? || l.PutReplay?
  }

  lemma LockKeepsInv(s: State, l: Label)
    requires Inv(s) && Enabled(s, l) && TakesLock(l)
    ensures Inv(Apply(s, l))
  {
    var s' := Apply(s, l);
    forall t | t in s'.kicks ensures KickOk(s', t) { assert KickOk(s, t); }
  }

  lemma RequestKeepsInv(s: State, l: Label)
    requires Inv(s) && Enabled(s, l) && (l.Request? || l.SetRunnable?)
    ensures Inv(Apply(s, l))
  {
    var s' := Apply(s, l);
    forall t | t in s'.kicks ensures KickOk(s', t) { assert KickOk(s, t); }
  }

  lemma InitInv(s: State)
    requires Init(s)
    ensures Inv(s)
  {
  }

  ghost predicate Trace(tr: seq<State>) {
    && tr != [] && Init(tr[0])
    && forall i :: 0 <= i < |tr| - 1 ==> NextAt(tr, i)
  }

  ghost predicate NextAt(tr: seq<State>, i: nat)
    requires i < |tr| - 1
  {
    exists l :: Enabled(tr[i], l) && tr[i + 1] == Apply(tr[i], l)
  }

  lemma TraceKeepsInv(tr: seq<State>, i: nat)
    requires Trace(tr) && i < |tr|
    ensures Inv(tr[i])
  {
    if i == 0 {
      InitInv(tr[0]);
    } else {
      TraceKeepsInv(tr, i - 1);
      assert NextAt(tr, i - 1);
      var l :| Enabled(tr[i - 1], l) && tr[i] == Apply(tr[i - 1], l);
      StepKeepsInv(tr[i - 1], l);
    }
  }

  lemma Extend(tr: seq<State>, l: Label)
    requires Trace(tr) && Enabled(tr[|tr| - 1], l)
    ensures Trace(tr + [Apply(tr[|tr| - 1], l)])
  {
    var longer := tr + [Apply(tr[|tr| - 1], l)];
    forall i: nat | i < |longer| - 1 ensures NextAt(longer, i) {
      if i < |tr| - 1 {
        assert NextAt(tr, i);
        var k :| Enabled(tr[i], k) && tr[i + 1] == Apply(tr[i], k);
        assert Enabled(longer[i], k) && longer[i + 1] == Apply(longer[i], k);
      } else {
        assert Enabled(longer[i], l) && longer[i + 1] == Apply(longer[i], l);
      }
    }
  }

  // ---------- A kick is not lost ----------

  // A kick ends only if its second look agrees with the first.
  lemma KickEnds(s: State, l: Label, t: Tid)
    requires Inv(s) && Enabled(s, l) && t in s.kicks && !s.kicks[t].Off?
    requires t in Apply(s, l).kicks && Apply(s, l).kicks[t].Off?
    ensures s.kicks[t].Reread? && s.current == s.kicks[t].seen && Apply(s, l).current == s.current
  {
    if l.KickStep? {
      LookAgain(s, l.t, t);
    } else if l.Work? {
      WorkLeavesKicks(s, l.choice);
    }
  }

  lemma LookAgain(s: State, u: Tid, t: Tid)
    requires u in s.kicks && !s.kicks[u].Off? && t in s.kicks && !s.kicks[t].Off?
    requires t in KickNext(s, u).kicks && KickNext(s, u).kicks[t].Off?
    ensures s.kicks[t].Reread? && s.current == s.kicks[t].seen && KickNext(s, u).current == s.current
  {
  }

  lemma WorkLeavesKicks(s: State, choice: nat)
    requires CanWork(s)
    ensures WorkStep(s, choice).kicks == s.kicks
  {
  }

  // `t` kicks from state `b` on, without having begun another kick up to state `e`.
  ghost predicate KicksFrom(tr: seq<State>, b: nat, e: nat, t: Tid) {
    && b < e < |tr| && t in tr[b].kicks && tr[b].kicks[t] == Read(tr[b].clears)
    && forall i :: b <= i <= e ==> t in tr[i].kicks && !tr[i].kicks[t].Off?
  }

  // The worker clears rr_current_cpu in step `k`.
  ghost predicate ClearsAt(tr: seq<State>, k: nat) {
    && k + 1 < |tr| && tr[k + 1].current.None? && tr[k + 1].clears > tr[k].clears
    && (tr[k].worker.Forget? || tr[k].worker.QuitClear?)
  }

  lemma StepSince(s: State, l: Label, t: Tid)
    requires Enabled(s, l) && t in s.kicks && !s.kicks[t].Off? && t in Apply(s, l).kicks && !Apply(s, l).kicks[t].Off?
    ensures Apply(s, l).kicks[t].since == s.kicks[t].since
  {
  }

  lemma StepClears(s: State, l: Label)
    requires Enabled(s, l)
    ensures s.clears <= Apply(s, l).clears
    ensures Apply(s, l).clears > s.clears ==> Apply(s, l).current.None? && (s.worker.Forget? || s.worker.QuitClear?)
  {
  }

  lemma {:induction false} SinceIsBegin(tr: seq<State>, b: nat, e: nat, t: Tid)
    requires Trace(tr) && KicksFrom(tr, b, e, t)
    ensures tr[e].kicks[t].since == tr[b].clears
    decreases e
  {
    assert NextAt(tr, e - 1);
    var l :| Enabled(tr[e - 1], l) && tr[e] == Apply(tr[e - 1], l);
    StepSince(tr[e - 1], l, t);
    if e - 1 > b { SinceIsBegin(tr, b, e - 1, t); }
  }

  lemma {:induction false} ClearedBetween(tr: seq<State>, b: nat, e: nat) returns (k: nat)
    requires Trace(tr) && b <= e < |tr| && tr[e].clears > tr[b].clears
    ensures b <= k < e && ClearsAt(tr, k)
    decreases e
  {
    assert NextAt(tr, e - 1);
    var l :| Enabled(tr[e - 1], l) && tr[e] == Apply(tr[e - 1], l);
    StepClears(tr[e - 1], l);
    if tr[e].clears > tr[e - 1].clears {
      k := e - 1;
    } else {
      k := ClearedBetween(tr, b, e - 1);
    }
  }

  /** When rr_kick_next_cpu returns, either the vCPU in rr_current_cpu has its exit request set, or the
      worker has cleared rr_current_cpu since the kick began. */
  lemma KickNotLost(tr: seq<State>, b: nat, e: nat, t: Tid)
    requires Trace(tr) && KicksFrom(tr, b, e, t) && e + 1 < |tr| && t in tr[e + 1].kicks && tr[e + 1].kicks[t].Off?
    ensures (tr[e].current.Some? ==> tr[e].current.value in tr[e].requests)
            || exists k: nat :: b <= k < e && ClearsAt(tr, k)
  {
    TraceKeepsInv(tr, e);
    assert NextAt(tr, e);
    var l :| Enabled(tr[e], l) && tr[e + 1] == Apply(tr[e], l);
    KickEnds(tr[e], l, t);
    assert KickOk(tr[e], t);
    SinceIsBegin(tr, b, e, t);
    if tr[e].clears > tr[b].clears {
      var k := ClearedBetween(tr, b, e);
    }
  }

  /** In particular the stop request reaches the guest: from the end of the stopper's kick on, a CPU that
      is executing has been asked to exit. */
  lemma GuestIsAskedToExit(tr: seq<State>, i: nat)
    requires Trace(tr) && i < |tr| && tr[i].stopping && !tr[i].stopper.Kicking? && tr[i].worker.Exec?
    ensures tr[i].current == Some(tr[i].worker.c) && tr[i].worker.c in tr[i].requests
  {
    TraceKeepsInv(tr, i);
  }

  // ---------- Stopping completes ----------

  // How many steps at most the worker is away from its return, once it has been told to stop.
  function Rank(s: State, pc: Pc): int {
    var w := 10 * s.n + 20;
    match pc
    case Returned => 0
    case QuitUnlock => 1
    case QuitClear => 2
    case Quit => 3
    case Head(_) => 4
    case WaitCheck(_) => 4
    case Clear(_) => 5
    case Forget(_) => 5
    case InitCheck => 5
    case Begin => 6
    case InitWake => 6
    case InitSleep => 7
    case Wake(_) => 5
    case Sleep(_) => 6
    case Inner(cpu) => if cpu.None? then 6 else 10 * (s.n - cpu.value) + 9
    case Store(c) => 10 * (s.n - c) + 8
    case ReadRequest(c) => 10 * (s.n - c) + 7
    case CanRun(c) => 10 * (s.n - c) + 6
    case Exec(c) => 10 * (s.n - c) + 5
    case ExecRelock(c, _) => 10 * (s.n - c) + 4
    case Atomic(c) => 10 * (s.n - c) + 3
    case AtomicRelock(c) => 10 * (s.n - c) + 2
    case DropReplay(_) => w
    case Relock(_) => w + 1
    case TakeReplay(_) => w + 2
    case Unlock(_) => w + 3
  }

  lemma WorkLowersRank(s: State, choice: nat)
    requires Inv(s) && CanWork(s) && s.stopping
    ensures 0 <= Rank(s, WorkStep(s, choice).worker) < Rank(s, s.worker)
  {
    WorkKeepsInList(s, choice);
    if Running(s.worker) { RunLowersRank(s, choice); }
  }

  lemma RunLowersRank(s: State, choice: nat)
    requires s.n > 0 && Running(s.worker) && InList(s, s.worker)
    ensures Rank(s, RunStep(s, choice).worker) < Rank(s, s.worker)
  {
  }

  /** Once rr_thread_stopping is set, every step of the worker brings it nearer to its return, and no
      step of any other thread takes it further away: it makes at most 10 * n + 23 more steps. */
  lemma StopBoundsWorker(s: State, l: Label)
    requires Inv(s) && Enabled(s, l) && s.stopping
    ensures 0 <= Rank(s, Apply(s, l).worker) <= Rank(s, s.worker) <= 10 * s.n + 23
    ensures l.Work? ==> Rank(s, Apply(s, l).worker) < Rank(s, s.worker)
    ensures Apply(s, l).stopping && Apply(s, l).n == s.n
    ensures Rank(s, s.worker) == 0 <==> s.worker.Returned?
  {
    if l.Work? { WorkLowersRank(s, l.choice); }
  }

  // How many steps the stopper is away from its return.
  function StopRank(s: State): nat {
    match s.stopper
    case Out => 12
    case Kicking =>
      if STOPPER !in s.kicks then 11
      else (match s.kicks[STOPPER] case Read(_) => 11 case Mark(_, _) => 10 case Reread(_, _) => 9 case Off => 8)
    case Broadcast => 7
    case UnlockReplay => 6
    case UnlockBql => 5
    case Joining => 4
    case RetakeReplay => 3
    case RetakeBql => 2
    case Done => 0
  }

  function Locks(s: State): nat {
    (if s.bql.Some? then 1 else 0) + (if s.replay.Some? then 1 else 0)
  }

  // The next step of the stopper.
  function StopperLabel(s: State): Label {
    if s.stopper.Kicking? && STOPPER in s.kicks && !s.kicks[STOPPER].Off? then KickStep(STOPPER) else StopStep
  }

  // What lets a thread that needs the BQL go on.
  function FreeBql(s: State): Label
    requires s.bql.Some?
  {
    if s.bql == Some(STOPPER) then StopperLabel(s) else DropBql(s.bql.value)
  }

  // What lets a thread that needs the replay mutex go on; its holder may itself be waiting for the BQL.
  function FreeReplay(s: State): Label
    requires s.replay.Some?
  {
    if s.replay == Some(STOPPER) then StopperLabel(s)
    else if s.replay.value in s.waits then (if s.bql.Some? then FreeBql(s) else GetBql(s.replay.value))
    else PutReplay(s.replay.value)
  }

  /** A step that the stop is waiting for. */
  function Owed(s: State): Label {
    if s.worker.Returned? then
      (if s.stopper.RetakeReplay? && s.replay.Some? then FreeReplay(s)
       else if s.stopper.RetakeBql? && s.bql.Some? then FreeBql(s)
       else StopperLabel(s))
    else if Asleep(s.worker) then StopperLabel(s)
    else if NeedsBql(s.worker) && s.bql.Some? then FreeBql(s)
    else if s.worker.TakeReplay? && s.replay.Some? then FreeReplay(s)
    else Work(0)
  }

  ghost predicate Lower(s: State, s': State) {
    || Rank(s', s'.worker) < Rank(s, s.worker)
    || (Rank(s', s'.worker) == Rank(s, s.worker)
        && (StopRank(s') < StopRank(s)
            || (StopRank(s') == StopRank(s)
                && (s'.waits < s.waits || (s'.waits == s.waits && Locks(s') < Locks(s))))))
  }

  lemma StopperStepLowers(s: State)
    requires Inv(s) && s.stopping && !s.stopper.Done?
    requires s.stopper.Joining? ==> s.worker.Returned?
    requires s.stopper.RetakeReplay? ==> s.replay.None?
    requires s.stopper.RetakeBql? ==> s.bql.None?
    ensures Enabled(s, StopperLabel(s)) && Lower(s, Apply(s, StopperLabel(s)))
  {
  }

  lemma FreeBqlLowers(s: State)
    requires Inv(s) && s.stopping && s.bql.Some? && s.bql != Some(WORKER) && !s.stopper.Done?
    ensures Enabled(s, FreeBql(s)) && Lower(s, Apply(s, FreeBql(s)))
  {
    if s.bql == Some(STOPPER) { StopperStepLowers(s); }
  }

  lemma FreeReplayLowers(s: State)
    requires Inv(s) && s.stopping && s.replay.Some? && s.replay != Some(WORKER) && s.bql != Some(WORKER)
             && !s.stopper.Done?
    requires s.replay == Some(STOPPER) ==> !s.stopper.RetakeBql?
    ensures Enabled(s, FreeReplay(s)) && Lower(s, Apply(s, FreeReplay(s)))
  {
    if s.replay == Some(STOPPER) {
      StopperStepLowers(s);
    } else if s.replay.value in s.waits && s.bql.Some? {
      FreeBqlLowers(s);
    }
  }

  lemma ReturnOwed(s: State)
    requires Inv(s) && s.stopping && !s.stopper.Done? && s.worker.Returned?
    ensures Enabled(s, Owed(s)) && Lower(s, Apply(s, Owed(s)))
  {
    if s.stopper.RetakeReplay? && s.replay.Some? {
      FreeReplayLowers(s);
    } else if s.stopper.RetakeBql? && s.bql.Some? {
      FreeBqlLowers(s);
    } else {
      StopperStepLowers(s);
    }
  }

  lemma WorkOwed(s: State)
    requires Inv(s) && s.stopping && CanWork(s)
    ensures Lower(s, WorkStep(s, 0))
  {
    WorkLowersRank(s, 0);
    StopBoundsWorker(s, Work(0));
  }

  lemma BlockedOwed(s: State)
    requires Inv(s) && s.stopping && !s.worker.Returned? && !CanWork(s)
    ensures Enabled(s, Owed(s)) && Lower(s, Apply(s, Owed(s)))
  {
    if Asleep(s.worker) {
      StopperStepLowers(s);
    } else if NeedsBql(s.worker) && s.bql.Some? {
      FreeBqlLowers(s);
    } else {
      FreeReplayLowers(s);
    }
  }

  /** Stopping never gets stuck: until hmos_rr_stop_vcpu_thread returns, some thread can take a step that
      the stop is waiting for, and that step brings it nearer to its end.  So neither the BQL, nor the
      replay mutex, nor a missed broadcast can block the join for ever. */
  lemma StopNeverStuck(s: State)
    requires Inv(s) && s.stopping && !s.stopper.Done?
    ensures Enabled(s, Owed(s)) && Lower(s, Apply(s, Owed(s)))
  {
    if s.worker.Returned? {
      ReturnOwed(s);
    } else if CanWork(s) {
      WorkOwed(s);
    } else {
      BlockedOwed(s);
    }
  }

  /** From every state a run can reach after the stop was requested, the run can be completed to one in
      which the worker has returned and the stopper has joined it and holds both locks again. */
  lemma {:induction false} StopCompletes(tr: seq<State>) returns (longer: seq<State>)
    requires Trace(tr) && tr[|tr| - 1].stopping
    ensures Trace(longer) && tr <= longer
    ensures longer[|longer| - 1].stopper.Done? && longer[|longer| - 1].worker.Returned?
    ensures longer[|longer| - 1].bql == Some(STOPPER) && longer[|longer| - 1].replay == Some(STOPPER)
    decreases Rank(tr[|tr| - 1], tr[|tr| - 1].worker), StopRank(tr[|tr| - 1]), tr[|tr| - 1].waits, Locks(tr[|tr| - 1])
  {
    var s := tr[|tr| - 1];
    TraceKeepsInv(tr, |tr| - 1);
    if s.stopper.Done? {
      longer := tr;
    } else {
      StopNeverStuck(s);
      StopBoundsWorker(s, Owed(s));
      Extend(tr, Owed(s));
      longer := StopCompletes(tr + [Apply(s, Owed(s))]);
    }
  }
}
