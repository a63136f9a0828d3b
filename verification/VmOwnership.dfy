/**
  Who owns a runner thread: StartVm, RequestVmStop, the stop monitors and the runners of
  napi_init.cpp, interleaved step by step.  Every access to g_vmRunning or g_vmThreads holds
  g_vmMutex; the calls on a VmLifecycle object are atomic by its own mutex.
 */
module VmOwnership {
  import opened Prelude
  import L = VmLifecycle

  type Tid = nat
  type Name = string
  type Run = nat                 // a VmLifecycle object together with its runner thread

  /** Program point of a thread that starts, stops or monitors. */
  datatype Task =
    | Idle
    // StartVm
    | StartLock(name: Name)
    | StartCheckSelf(name: Name)
    | StartCheckAll(name: Name, todo: set<Name>)
    | StartCheckThreads(name: Name)
    | StartPrepare(name: Name)
    | StartInstall(name: Name)
    | StartWait(name: Name, run: Run)
    // RequestVmStop
    | StopLock(name: Name)
    | StopCheck(name: Name)
    | StopClaim(name: Name, run: Run)
    | StopSpawn(name: Name, run: Run)
    | StopFail(name: Name, run: Run)
    | StopRelease(name: Name, run: Run)
    // the stop monitor
    | MonitorLock(name: Name, run: Run)
    | MonitorLookup(name: Name, run: Run)
    | MonitorLost(run: Run)
    | MonitorWait(run: Run, runner: Run)
    | MonitorJoin(run: Run, runner: Run)
    | MonitorRelease(run: Run)

  // The runner lambda: qemu_init and the main loop, then Complete, then return.
  datatype Runner = Working | Completed | Returned

  // Where the std::thread of a runner is.
  datatype Place = InMap(name: Name) | Held(monitor: Tid) | Joined

  datatype State = State(
    mutex: Option<Tid>,
    vmRunning: map<Name, Run>,
    vmThreads: map<Name, Run>,             // entries are joinable: a moved-from entry is erased at once
    life: map<Run, L.Life>,
    runner: map<Run, Runner>,
    tasks: map<Tid, Task>,
    place: map<Run, Place>,                // history: follows the moves of each std::thread
    nameOf: map<Run, Name>,                // history
    claimant: map<Run, Tid>)               // history: the thread whose ClaimStop was accepted last

  datatype Label =
    | CallStart(t: Tid, name: Name)
    | CallStop(t: Tid, name: Name)
    | Check(t: Tid, n: Name)               // StartVm looks at one more entry of g_vmRunning
    | Refuse(t: Tid)                       // StartVm returns early; or the monitor thread is not created
    | Proceed(t: Tid)                      // next step, normal outcome
    | Spawn(t: Tid, m: Tid)                // the monitor thread is created
    | Report(t: Tid, reason: string)       // a failure is recorded: startup timeout, or stop deadline
    | RunnerCall(r: Run, op: L.Op)         // the runner calls MarkRunning, Fail or Complete
    | RunnerReturn(r: Run)

  predicate Blocks(s: State, r: Run) {
    r in s.life && L.BlocksStart(s.life[r])
  }

  // The normal outcome of `pc` is possible.
  predicate CanProceed(s: State, pc: Task) {
    match pc
    case StartLock(_) => s.mutex.None?
    case StartCheckSelf(name) => !(name in s.vmRunning && Blocks(s, s.vmRunning[name]))
    case StartCheckAll(_, todo) => todo == {}
    case StartCheckThreads(_) => s.vmThreads == map[]
    case StartPrepare(_) => true
    case StartInstall(_) => true
    case StartWait(_, _) => true
    case StopLock(_) => s.mutex.None?
    case StopCheck(name) => name in s.vmRunning && s.vmRunning[name] in s.life && s.life[s.vmRunning[name]].active
    case StopClaim(_, run) => run in s.life && L.Accepts(s.life[run], L.ClaimStop)
    case StopFail(_, run) => run in s.life
    case StopRelease(_, run) => run in s.life
    case MonitorLock(_, _) => s.mutex.None?
    case MonitorLookup(name, run) => name in s.vmRunning && s.vmRunning[name] == run && name in s.vmThreads
    case MonitorLost(run) => run in s.life
    case MonitorWait(run, _) => run in s.life && !s.life[run].active
    case MonitorJoin(_, runner) => runner in s.runner && s.runner[runner].Returned?
    case MonitorRelease(run) => run in s.life
    case _ => false
  }

  predicate Enabled(s: State, l: Label) {
    match l
    case CallStart(t, _) => t in s.tasks && s.tasks[t].Idle?
    case CallStop(t, _) => t in s.tasks && s.tasks[t].Idle?
    case Check(t, n) =>
      t in s.tasks && s.tasks[t].StartCheckAll? && n in s.tasks[t].todo && n in s.vmRunning
      && !Blocks(s, s.vmRunning[n])
    case Refuse(t) =>
      t in s.tasks &&
      (match s.tasks[t]
       case StartCheckSelf(name) => name in s.vmRunning && Blocks(s, s.vmRunning[name])
       case StartCheckAll(_, todo) => exists n | n in todo :: n in s.vmRunning && Blocks(s, s.vmRunning[n])
       case StartCheckThreads(_) => s.vmThreads != map[]
       case StartPrepare(_) => true
       case StopCheck(name) => !(name in s.vmRunning && s.vmRunning[name] in s.life && s.life[s.vmRunning[name]].active)
       case StopClaim(_, run) => run in s.life && !L.Accepts(s.life[run], L.ClaimStop)
       case StopSpawn(_, _) => true
       case MonitorLookup(name, run) => !(name in s.vmRunning && s.vmRunning[name] == run && name in s.vmThreads)
       case _ => false)
    case Proceed(t) => t in s.tasks && CanProceed(s, s.tasks[t])
    case Spawn(t, m) => t in s.tasks && s.tasks[t].StopSpawn? && m in s.tasks && s.tasks[m].Idle? && m != t
    case Report(t, reason) =>
      t in s.tasks && reason != "" && (s.tasks[t].StartWait? || s.tasks[t].MonitorWait?) && s.tasks[t].run in s.life
    case RunnerCall(r, op) =>
      r in s.life && r in s.runner && s.runner[r].Working?
      && (op.MarkRunning? || op.Complete? || (op.Fail? && op.reason != ""))
    case RunnerReturn(r) => r in s.runner && s.runner[r].Completed?
  }

  function Goto(s: State, t: Tid, pc: Task): State {
    s.(tasks := s.tasks[t := pc])
  }

  // Leave the critical section and do `pc` next.
  function Unlock(s: State, t: Tid, pc: Task): State {
    Goto(s, t, pc).(mutex := None)
  }

  function Lock(s: State, t: Tid, pc: Task): State {
    Goto(s, t, pc).(mutex := Some(t))
  }

  function On(s: State, r: Run, op: L.Op): State
    requires r in s.life
  {
    s.(life := s.life[r := L.Apply(s.life[r], op)])
  }

  const NO_MONITOR := "Could not create VM stop monitor"
  const NO_RUNNER := "VM stop monitor could not find its owned runner"

  function Apply(s: State, l: Label): State
    requires Enabled(s, l)
  {
    match l
    case CallStart(t, name) => Goto(s, t, StartLock(name))
    case CallStop(t, name) => Goto(s, t, StopLock(name))
    case Check(t, n) => Goto(s, t, StartCheckAll(s.tasks[t].name, s.tasks[t].todo - {n}))
    case Refuse(t) =>
      (match s.tasks[t]
       case StopSpawn(name, run) => Goto(s, t, StopFail(name, run))
       case MonitorLookup(_, run) => Goto(s, t, MonitorLost(run))
       case _ => Unlock(s, t, Idle))
    case Proceed(t) => Next(s, t)
    case Spawn(t, m) =>
      var run := s.tasks[t].run;
      Goto(Unlock(s, t, Idle), m, MonitorLock(s.tasks[t].name, run)).(claimant := s.claimant[run := m])
    case Report(t, reason) =>
      var s' := On(s, s.tasks[t].run, L.Fail(reason));
      if s.tasks[t].StartWait? then Goto(s', t, StopLock(s.tasks[t].name)) else s'
    case RunnerCall(r, op) =>
      On(s, r, op).(runner := if op.Complete? then s.runner[r := Completed] else s.runner)
    case RunnerReturn(r) => s.(runner := s.runner[r := Returned])
  }

  // A run that has not been used yet.
  function FreshRun(s: State): Run {
    |s.life|
  }

  function Install(s: State, t: Tid, name: Name): State {
    var r := FreshRun(s);
    Unlock(s, t, StartWait(name, r)).(
      vmRunning := s.vmRunning[name := r], vmThreads := s.vmThreads[name := r],
      life := s.life[r := L.FRESH], runner := s.runner[r := Working],
      place := s.place[r := InMap(name)], nameOf := s.nameOf[r := name])
  }

  // Steps that leave every VmLifecycle object alone.
  predicate Silent(pc: Task) {
    !pc.StartInstall? && !pc.StopClaim? && !pc.StopFail? && !pc.StopRelease? && !pc.MonitorRelease? && !pc.MonitorLost?
  }

  predicate IsStart(pc: Task) {
    pc.StartLock? || pc.StartCheckSelf? || pc.StartCheckAll? || pc.StartCheckThreads? || pc.StartPrepare?
    || pc.StartInstall? || pc.StartWait?
  }

  predicate IsStop(pc: Task) {
    pc.StopLock? || pc.StopCheck? || pc.StopClaim? || pc.StopFail? || pc.StopRelease?
  }

  predicate IsMonitor(pc: Task) {
    pc.MonitorLock? || pc.MonitorLookup? || pc.MonitorLost? || pc.MonitorWait? || pc.MonitorJoin? || pc.MonitorRelease?
  }

  function StartNext(s: State, t: Tid): State
    requires t in s.tasks && IsStart(s.tasks[t])
  {
    match s.tasks[t]
    case StartLock(name) => Lock(s, t, StartCheckSelf(name))
    case StartCheckSelf(name) => Goto(s, t, StartCheckAll(name, s.vmRunning.Keys))
    case StartCheckAll(name, _) => Goto(s, t, StartCheckThreads(name))
    case StartCheckThreads(name) => Goto(s, t, StartPrepare(name))
    case StartPrepare(name) => Goto(s, t, StartInstall(name))
    case StartInstall(name) => Install(s, t, name)
    case StartWait(_, _) => Goto(s, t, Idle)
  }

  function StopNext(s: State, t: Tid): State
    requires t in s.tasks && IsStop(s.tasks[t]) && CanProceed(s, s.tasks[t])
  {
    match s.tasks[t]
    case StopLock(name) => Lock(s, t, StopCheck(name))
    case StopCheck(name) => Goto(s, t, StopClaim(name, s.vmRunning[name]))
    case StopClaim(name, run) =>
      Goto(On(s, run, L.ClaimStop), t, StopSpawn(name, run)).(claimant := s.claimant[run := t])
    case StopFail(name, run) => Goto(On(s, run, L.Fail(NO_MONITOR)), t, StopRelease(name, run))
    case StopRelease(_, run) => Unlock(On(s, run, L.ReleaseStopOwner), t, Idle)
  }

  function MonitorNext(s: State, t: Tid): State
    requires t in s.tasks && IsMonitor(s.tasks[t]) && CanProceed(s, s.tasks[t])
  {
    match s.tasks[t]
    case MonitorLock(name, run) => Lock(s, t, MonitorLookup(name, run))
    case MonitorLookup(name, run) =>
      var runner := s.vmThreads[name];
      Unlock(s, t, MonitorWait(run, runner)).(
        vmThreads := s.vmThreads - {name}, place := s.place[runner := Held(t)])
    case MonitorLost(run) => Unlock(On(On(s, run, L.Fail(NO_RUNNER)), run, L.ReleaseStopOwner), t, Idle)
    case MonitorWait(run, runner) => Goto(s, t, MonitorJoin(run, runner))
    case MonitorJoin(run, runner) => Goto(s, t, MonitorRelease(run)).(place := s.place[runner := Joined])
    case MonitorRelease(run) => Goto(On(s, run, L.ReleaseStopOwner), t, Idle)
  }

  function Next(s: State, t: Tid): State
    requires t in s.tasks && CanProceed(s, s.tasks[t])
  {
    if IsStart(s.tasks[t]) then StartNext(s, t) else if IsStop(s.tasks[t]) then StopNext(s, t) else MonitorNext(s, t)
  }

  ghost predicate Init(s: State) {
    && s.mutex.None? && s.vmRunning == map[] && s.vmThreads == map[] && s.life == map[] && s.runner == map[]
    && (forall t :: t in s.tasks ==> s.tasks[t].Idle?)
    && s.place == map[] && s.nameOf == map[] && s.claimant == map[]
  }

  // ---------- Invariants ----------

  predicate InCritical(pc: Task) {
    pc.StartCheckSelf? || pc.StartCheckAll? || pc.StartCheckThreads? || pc.StartPrepare? || pc.StartInstall?
    || pc.StopCheck? || pc.StopClaim? || pc.StopSpawn? || pc.StopFail? || pc.StopRelease? || pc.MonitorLookup?
  }

  // The thread acts for the one accepted stop of `r`.
  predicate StopsRun(pc: Task, r: Run) {
    match pc
    case StopSpawn(_, run) => run == r
    case StopFail(_, run) => run == r
    case StopRelease(_, run) => run == r
    case MonitorLock(_, run) => run == r
    case MonitorLookup(_, run) => run == r
    case MonitorWait(run, _) => run == r
    case MonitorJoin(run, _) => run == r
    case MonitorRelease(run) => run == r
    case _ => false
  }

  predicate HoldsRunner(pc: Task, r: Run) {
    (pc.MonitorWait? || pc.MonitorJoin?) && pc.runner == r
  }

  // The runs and their history have the same keys, numbered from zero.
  ghost predicate KeysOk(s: State) {
    && s.life.Keys == s.runner.Keys == s.place.Keys == s.nameOf.Keys
    && (forall r :: r in s.life ==> r < |s.life|)
    && (forall n :: n in s.vmRunning ==> s.vmRunning[n] in s.life && s.nameOf[s.vmRunning[n]] == n)
    && (forall n :: n in s.vmThreads ==> s.vmThreads[n] in s.life && s.place[s.vmThreads[n]] == InMap(n))
  }

  ghost predicate RunOk(s: State, r: Run)
    requires r in s.life && r in s.runner && r in s.place && r in s.nameOf
  {
    var n := s.nameOf[r];
    && (s.runner[r].Working? <==> s.life[r].active)
    && (Blocks(s, r) ==> n in s.vmRunning && s.vmRunning[n] == r)
    && (s.life[r].stopOwner ==> r in s.claimant && s.claimant[r] in s.tasks && StopsRun(s.tasks[s.claimant[r]], r))
    && match s.place[r] {
         case InMap(m) => m == n && n in s.vmThreads && s.vmThreads[n] == r
         case Held(m) => m in s.tasks && HoldsRunner(s.tasks[m], r) && s.life[r].stopOwner && s.claimant[r] == m
         case Joined => s.runner[r].Returned?
       }
  }

  ghost predicate TaskOk(s: State, t: Tid)
    requires t in s.tasks
  {
    var pc := s.tasks[t];
    && (InCritical(pc) ==> s.mutex == Some(t))
    && (forall r :: StopsRun(pc, r) ==> r in s.life && s.life[r].stopOwner && r in s.claimant && s.claimant[r] == t)
    && match pc {
         case StartCheckAll(_, todo) =>
           todo <= s.vmRunning.Keys
           && forall n :: n in s.vmRunning && n !in todo ==> !Blocks(s, s.vmRunning[n])
         case StartCheckThreads(_) => NoneBlocks(s)
         case StartPrepare(_) => NoneBlocks(s) && s.vmThreads == map[]
         case StartInstall(_) => NoneBlocks(s) && s.vmThreads == map[]
         case StartWait(_, run) => run in s.life
         case StopClaim(name, run) => name in s.vmRunning && s.vmRunning[name] == run && run in s.life
         case StopSpawn(name, run) => Waiting(s, name, run)
         case StopFail(name, run) => Waiting(s, name, run)
         case StopRelease(name, run) => Waiting(s, name, run) && run in s.life && s.life[run].error != ""
         case MonitorLock(name, run) => Waiting(s, name, run)
         case MonitorLookup(name, run) => Waiting(s, name, run)
         case MonitorLost(_) => false
         case MonitorWait(run, runner) => run == runner && run in s.place && s.place[run] == Held(t)
         case MonitorJoin(run, runner) => run == runner && run in s.place && s.place[run] == Held(t)
                                          && run in s.life && !s.life[run].active
         case MonitorRelease(run) => run in s.place && s.place[run] == Joined
         case _ => true
       }
  }

  // An accepted stop whose runner has not been taken out of the map yet.
  ghost predicate Waiting(s: State, name: Name, run: Run) {
    && name in s.vmRunning && s.vmRunning[name] == run
    && name in s.vmThreads && s.vmThreads[name] == run
    && run in s.nameOf && s.nameOf[run] == name
    && run in s.place && s.place[run] == InMap(name)
  }

  ghost predicate NoneBlocks(s: State) {
    forall r :: r in s.life ==> !Blocks(s, r)
  }

  ghost predicate Inv(s: State) {
    && KeysOk(s)
    && (forall r {:trigger RunOk(s, r)} :: r in s.life ==> RunOk(s, r))
    && (forall t {:trigger TaskOk(s, t)} :: t in s.tasks ==> TaskOk(s, t))
  }

  // ---------- Steps keep the invariant ----------

  ghost predicate SameOwner(a: Task, b: Task) {
    (forall r :: StopsRun(a, r) <==> StopsRun(b, r)) && (forall r :: HoldsRunner(a, r) <==> HoldsRunner(b, r))
  }

  // A thread moves on, perhaps taking or leaving the mutex.
  lemma MoveKeeps(s: State, s': State, t: Tid, pc: Task)
    requires Inv(s) && t in s.tasks && s' == s.(tasks := s.tasks[t := pc], mutex := s'.mutex)
    requires SameOwner(s.tasks[t], pc)
    requires s'.mutex == s.mutex || (s.mutex.None? && s'.mutex == Some(t)) || (s.mutex == Some(t) && s'.mutex.None?)
    requires TaskOk(s', t)
    ensures Inv(s')
  {
    forall r | r in s'.life ensures RunOk(s', r) { assert RunOk(s, r); }
    forall u | u in s'.tasks ensures TaskOk(s', u) {
      if u != t { assert TaskOk(s, u); MoveKeepsTask(s, s', t, u); }
    }
  }

  lemma MoveKeepsTask(s: State, s': State, t: Tid, u: Tid)
    requires u in s.tasks && u in s'.tasks && u != t && s'.tasks[u] == s.tasks[u] && TaskOk(s, u)
    requires s' == s.(tasks := s'.tasks, mutex := s'.mutex)
    requires s'.mutex == s.mutex || s.mutex.None? || s.mutex == Some(t)
    ensures TaskOk(s', u)
  {
    assert forall r :: Blocks(s', r) == Blocks(s, r);
  }

  // A call on a run that neither claims nor releases its stop.
  lemma LifeKeeps(s: State, s': State, r: Run, l: L.Life, k: Runner)
    requires Inv(s) && r in s.life && s' == s.(life := s.life[r := l], runner := s.runner[r := k])
    requires l.stopOwner == s.life[r].stopOwner && (l.active ==> s.life[r].active)
             && (l.error == "" ==> s.life[r].error == "")
    requires (k.Working? <==> l.active) && (s.runner[r].Returned? ==> k.Returned?)
    ensures Inv(s')
  {
    assert forall x :: Blocks(s', x) ==> Blocks(s, x);
    forall x | x in s'.life ensures RunOk(s', x) { LifeKeepsRun(s, s', r, l, k, x); }
    forall u | u in s'.tasks ensures TaskOk(s', u) { LifeKeepsTask(s, s', r, l, k, u); }
  }

  lemma LifeKeepsRun(s: State, s': State, r: Run, l: L.Life, k: Runner, x: Run)
    requires Inv(s) && r in s.life && s' == s.(life := s.life[r := l], runner := s.runner[r := k]) && x in s.life
    requires l.stopOwner == s.life[r].stopOwner && (l.active ==> s.life[r].active)
             && (l.error == "" ==> s.life[r].error == "")
    requires (k.Working? <==> l.active) && (s.runner[r].Returned? ==> k.Returned?)
    requires KeysOk(s')
    ensures RunOk(s', x)
  {
    assert RunOk(s, x);
  }

  lemma LifeKeepsTask(s: State, s': State, r: Run, l: L.Life, k: Runner, u: Tid)
    requires u in s.tasks && TaskOk(s, u) && r in s.life && s' == s.(life := s.life[r := l], runner := s.runner[r := k])
    requires l.stopOwner == s.life[r].stopOwner && (l.active ==> s.life[r].active)
             && (l.error == "" ==> s.life[r].error == "")
    requires forall x :: Blocks(s', x) ==> Blocks(s, x)
    ensures TaskOk(s', u)
  {
    assert forall x :: StopsRun(s.tasks[u], x) ==> s'.life[x].stopOwner;
  }

  // A step of `t` that concerns the stop of `run`, seen from another thread: nobody else acts for it.
  lemma OtherTaskKeeps(s: State, s': State, t: Tid, run: Run, u: Tid)
    requires u in s.tasks && u in s'.tasks && s'.tasks[u] == s.tasks[u] && TaskOk(s, u)
    requires !StopsRun(s.tasks[u], run) && run in s.life
    requires s'.mutex == s.mutex || (s.mutex == Some(t) && u != t)
    requires s'.vmRunning == s.vmRunning && s'.nameOf == s.nameOf
    requires s'.life.Keys == s.life.Keys && s'.runner == s.runner && s'.place.Keys == s.place.Keys
    requires forall x :: x in s.life && x != run ==> s'.life[x] == s.life[x]
    requires forall x :: x in s.claimant && x != run ==> x in s'.claimant && s'.claimant[x] == s.claimant[x]
    requires forall x :: x in s.place && x != run ==> s'.place[x] == s.place[x]
    requires forall n :: n in s'.vmThreads ==> n in s.vmThreads
    requires forall n :: n in s.vmThreads && s.vmThreads[n] != run ==>
             n in s'.vmThreads && s'.vmThreads[n] == s.vmThreads[n]
    requires Blocks(s', run) ==> Blocks(s, run)
    ensures TaskOk(s', u)
  {
    assert forall x :: Blocks(s', x) ==> Blocks(s, x);
    assert s.vmThreads == map[] ==> s'.vmThreads == map[];
  }

  lemma NobodyElse(s: State, t: Tid, run: Run, u: Tid)
    requires Inv(s) && t in s.tasks && u in s.tasks && u != t && run in s.life
    requires StopsRun(s.tasks[t], run) || !s.life[run].stopOwner
    ensures TaskOk(s, u) && !StopsRun(s.tasks[u], run)
  {
    assert TaskOk(s, t) && TaskOk(s, u);
  }

  // The same step, seen from another run.
  lemma OtherRunKeeps(s: State, s': State, t: Tid, run: Run, x: Run)
    requires KeysOk(s) && x in s.life && x != run && RunOk(s, x)
    requires s'.vmRunning == s.vmRunning && s'.nameOf == s.nameOf && s'.runner == s.runner
    requires x in s'.life && s'.life[x] == s.life[x] && x in s'.place && s'.place[x] == s.place[x]
    requires x in s.claimant ==> x in s'.claimant && s'.claimant[x] == s.claimant[x]
    requires s.life[x].stopOwner ==> s.claimant[x] in s'.tasks && s'.tasks[s.claimant[x]] == s.tasks[s.claimant[x]]
    requires forall n :: n in s.vmThreads && s.vmThreads[n] != run ==>
             n in s'.vmThreads && s'.vmThreads[n] == s.vmThreads[n]
    ensures RunOk(s', x)
  {
    assert Blocks(s', x) == Blocks(s, x);
  }

  // A thread that acts for `run`, or for no run, is not the claimant of another one.
  lemma NotClaimant(s: State, t: Tid, run: Run, x: Run)
    requires t in s.tasks && (forall r :: StopsRun(s.tasks[t], r) ==> r == run)
    requires KeysOk(s) && x in s.life && x != run && RunOk(s, x) && s.life[x].stopOwner
    ensures s.claimant[x] != t
  {
  }

  // A step of `t` (and of `m`, an idle thread it starts) about `run` changes nothing else.
  ghost predicate Touches(s: State, s': State, t: Tid, m: Tid, run: Run) {
    && t in s.tasks && m in s.tasks && run in s.life
    && s'.tasks.Keys == s.tasks.Keys && (forall u :: u in s.tasks && u != t && u != m ==> s'.tasks[u] == s.tasks[u])
    && (s'.mutex == s.mutex || s.mutex == Some(t))
    && s'.vmRunning == s.vmRunning && s'.nameOf == s.nameOf && s'.runner == s.runner
    && s'.life.Keys == s.life.Keys && s'.place.Keys == s.place.Keys
    && (forall x :: x in s.life && x != run ==> s'.life[x] == s.life[x])
    && (forall x :: x in s.claimant && x != run ==> x in s'.claimant && s'.claimant[x] == s.claimant[x])
    && (forall x :: x in s.place && x != run ==> s'.place[x] == s.place[x])
    && (forall n :: n in s'.vmThreads ==> n in s.vmThreads)
    && (forall n :: n in s.vmThreads && s.vmThreads[n] != run ==>
        n in s'.vmThreads && s'.vmThreads[n] == s.vmThreads[n])
    && (Blocks(s', run) ==> Blocks(s, run))
  }

  lemma StopStep(s: State, s': State, t: Tid, m: Tid, run: Run)
    requires Inv(s) && Touches(s, s', t, m, run)
    requires StopsRun(s.tasks[t], run) || !s.life[run].stopOwner
    requires (forall r :: StopsRun(s.tasks[t], r) ==> r == run) && (m == t || s.tasks[m].Idle?)
    requires KeysOk(s') && RunOk(s', run) && TaskOk(s', t) && TaskOk(s', m)
    ensures Inv(s')
  {
    forall x | x in s'.life ensures RunOk(s', x) {
      if x != run { OtherRunStays(s, s', t, m, run, x); }
    }
    forall u | u in s'.tasks ensures TaskOk(s', u) {
      if u != t && u != m { NobodyElse(s, t, run, u); OtherTaskKeeps(s, s', t, run, u); }
    }
  }

  lemma OtherRunStays(s: State, s': State, t: Tid, m: Tid, run: Run, x: Run)
    requires Inv(s) && Touches(s, s', t, m, run) && x in s'.life && x != run
    requires (forall r :: StopsRun(s.tasks[t], r) ==> r == run) && (m == t || s.tasks[m].Idle?)
    requires KeysOk(s')
    ensures RunOk(s', x)
  {
    assert RunOk(s, x);
    if s.life[x].stopOwner { NotClaimant(s, t, run, x); NotClaimant(s, m, run, x); }
    OtherRunKeeps(s, s', t, run, x);
  }

  // ClaimStop is accepted: the run is still in the map, and this thread becomes its only stopper.
  function Claim(s: State, t: Tid, name: Name, run: Run): State
    requires run in s.life
  {
    Goto(On(s, run, L.ClaimStop), t, StopSpawn(name, run)).(claimant := s.claimant[run := t])
  }

  lemma ClaimTouches(s: State, t: Tid, name: Name, run: Run)
    requires KeysOk(s) && t in s.tasks && run in s.life && L.Accepts(s.life[run], L.ClaimStop)
    ensures Touches(s, Claim(s, t, name, run), t, t, run)
    ensures KeysOk(Claim(s, t, name, run))
  {
  }

  lemma ClaimRun(s: State, t: Tid, name: Name, run: Run)
    requires KeysOk(s) && t in s.tasks && run in s.life && RunOk(s, run) && L.Accepts(s.life[run], L.ClaimStop)
    ensures RunOk(Claim(s, t, name, run), run)
  {
    assert StopsRun(StopSpawn(name, run), run);
  }

  lemma ClaimTask(s: State, t: Tid, name: Name, run: Run)
    requires KeysOk(s) && t in s.tasks && s.tasks[t] == StopClaim(name, run) && TaskOk(s, t)
    requires run in s.life && RunOk(s, run) && L.Accepts(s.life[run], L.ClaimStop)
    ensures TaskOk(Claim(s, t, name, run), t)
  {
  }

  // The stop is given up: the owner flag falls, and no thread acts for it any more.
  function Release(s: State, t: Tid, run: Run, mutex: Option<Tid>): State
    requires run in s.life
  {
    Goto(On(s, run, L.ReleaseStopOwner), t, Idle).(mutex := mutex)
  }

  lemma ReleaseTouches(s: State, t: Tid, run: Run, mutex: Option<Tid>)
    requires KeysOk(s) && t in s.tasks && run in s.life && (mutex == s.mutex || s.mutex == Some(t))
    ensures Touches(s, Release(s, t, run, mutex), t, t, run)
    ensures KeysOk(Release(s, t, run, mutex))
  {
  }

  lemma ReleaseTask(s: State, t: Tid, run: Run, mutex: Option<Tid>)
    requires t in s.tasks && run in s.life && (mutex == s.mutex || s.mutex == Some(t))
    ensures TaskOk(Release(s, t, run, mutex), t)
  {
  }

  lemma ReleaseRun(s: State, t: Tid, run: Run, mutex: Option<Tid>)
    requires KeysOk(s) && t in s.tasks && TaskOk(s, t) && run in s.life && RunOk(s, run)
    requires (s.tasks[t].StopRelease? || s.tasks[t].MonitorRelease?) && StopsRun(s.tasks[t], run)
    ensures RunOk(Release(s, t, run, mutex), run)
  {
  }

  // The accepted stop passes from the requester to its monitor.
  function Hand(s: State, t: Tid, m: Tid, name: Name, run: Run): State {
    Goto(Unlock(s, t, Idle), m, MonitorLock(name, run)).(claimant := s.claimant[run := m])
  }

  lemma SpawnTouches(s: State, t: Tid, m: Tid, name: Name, run: Run)
    requires KeysOk(s) && t in s.tasks && s.tasks[t] == StopSpawn(name, run) && s.mutex == Some(t)
    requires m in s.tasks && m != t && run in s.life
    ensures Touches(s, Hand(s, t, m, name, run), t, m, run) && KeysOk(Hand(s, t, m, name, run))
  {
  }

  lemma SpawnRun(s: State, t: Tid, m: Tid, name: Name, run: Run)
    requires KeysOk(s) && Waiting(s, name, run) && m in s.tasks && m != t && run in s.life && RunOk(s, run)
    ensures RunOk(Hand(s, t, m, name, run), run)
  {
    assert StopsRun(MonitorLock(name, run), run);
  }

  lemma SpawnTasks(s: State, t: Tid, m: Tid, name: Name, run: Run)
    requires t in s.tasks && s.tasks[t] == StopSpawn(name, run) && TaskOk(s, t) && m in s.tasks && m != t
    ensures TaskOk(Hand(s, t, m, name, run), t) && TaskOk(Hand(s, t, m, name, run), m)
  {
    assert StopsRun(s.tasks[t], run);
  }

  // The monitor takes the runner out of the map.
  function Take(s: State, t: Tid, name: Name, run: Run): State {
    Unlock(s, t, MonitorWait(run, run)).(vmThreads := s.vmThreads - {name}, place := s.place[run := Held(t)])
  }

  lemma LookupTouches(s: State, t: Tid, name: Name, run: Run)
    requires t in s.tasks && s.mutex == Some(t) && run in s.life && Waiting(s, name, run)
    ensures Touches(s, Take(s, t, name, run), t, t, run)
  {
  }

  lemma LookupKeys(s: State, t: Tid, name: Name, run: Run)
    requires KeysOk(s) && Waiting(s, name, run)
    ensures KeysOk(Take(s, t, name, run))
  {
    var s' := Take(s, t, name, run);
    forall n | n in s'.vmThreads ensures s'.vmThreads[n] in s'.life && s'.place[s'.vmThreads[n]] == InMap(n) {
      assert n in s.vmThreads && n != name;
    }
  }

  lemma LookupRun(s: State, t: Tid, name: Name, run: Run)
    requires KeysOk(s) && t in s.tasks && run in s.life && RunOk(s, run)
    requires s.life[run].stopOwner && run in s.claimant && s.claimant[run] == t
    ensures RunOk(Take(s, t, name, run), run)
  {
    assert StopsRun(MonitorWait(run, run), run) && HoldsRunner(MonitorWait(run, run), run);
  }

  lemma LookupTask(s: State, t: Tid, name: Name, run: Run)
    requires t in s.tasks && s.tasks[t] == MonitorLookup(name, run) && TaskOk(s, t)
    ensures TaskOk(Take(s, t, name, run), t)
  {
    assert StopsRun(s.tasks[t], run);
  }

  // The monitor has joined the runner.
  function Reap(s: State, t: Tid, run: Run): State {
    Goto(s, t, MonitorRelease(run)).(place := s.place[run := Joined])
  }

  lemma JoinTouches(s: State, t: Tid, run: Run)
    requires KeysOk(s) && t in s.tasks && run in s.life && s.place[run].Held?
    ensures Touches(s, Reap(s, t, run), t, t, run)
    ensures KeysOk(Reap(s, t, run))
  {
  }

  lemma JoinRun(s: State, t: Tid, run: Run)
    requires KeysOk(s) && t in s.tasks && s.tasks[t] == MonitorJoin(run, run)
    requires run in s.life && RunOk(s, run) && s.runner[run].Returned?
    ensures RunOk(Reap(s, t, run), run)
  {
    assert StopsRun(MonitorRelease(run), run);
  }

  lemma JoinTask(s: State, t: Tid, run: Run)
    requires t in s.tasks && s.tasks[t] == MonitorJoin(run, run) && TaskOk(s, t)
    ensures TaskOk(Reap(s, t, run), t)
  {
    assert StopsRun(s.tasks[t], run);
  }

  // Only this thread is in the critical section.
  lemma AloneInside(s: State, t: Tid, u: Tid)
    requires Inv(s) && t in s.tasks && u in s.tasks && u != t && InCritical(s.tasks[t])
    ensures TaskOk(s, u) && !InCritical(s.tasks[u])
  {
    assert TaskOk(s, t) && TaskOk(s, u);
  }

  // A thread outside the critical section does not notice that a run is installed.
  lemma InstallKeepsTask(s: State, t: Tid, name: Name, u: Tid)
    requires KeysOk(s) && u in s.tasks && u != t && TaskOk(s, u) && !InCritical(s.tasks[u])
    requires s.vmThreads == map[]
    ensures TaskOk(Install(s, t, name), u)
  {
  }

  lemma InstallKeepsRun(s: State, t: Tid, name: Name, x: Run)
    requires KeysOk(s) && t in s.tasks && s.tasks[t] == StartInstall(name)
    requires x in s.life && RunOk(s, x) && !Blocks(s, x) && s.vmThreads == map[]
    ensures RunOk(Install(s, t, name), x)
  {
  }

  lemma InstallCount(s: State, t: Tid, name: Name)
    requires KeysOk(s)
    ensures var r := FreshRun(s);
      r !in s.life && Install(s, t, name).life.Keys == s.life.Keys + {r} && |Install(s, t, name).life| == |s.life| + 1
  {
    var r := FreshRun(s);
    assert r !in s.life;
    var m := s.life[r := L.FRESH];
    assert m.Keys == s.life.Keys + {r} && |m.Keys| == |m| && |s.life.Keys| == |s.life|;
  }

  lemma InstallNumbers(s: State, t: Tid, name: Name)
    requires KeysOk(s)
    ensures forall x :: x in Install(s, t, name).life ==> x < |Install(s, t, name).life|
  {
    InstallCount(s, t, name);
    var s' := Install(s, t, name);
    forall x | x in s'.life ensures x < |s'.life| { assert x in s.life.Keys + {FreshRun(s)}; }
  }

  lemma InstallHistory(s: State, t: Tid, name: Name)
    requires KeysOk(s)
    ensures Install(s, t, name).life.Keys == s.life.Keys + {FreshRun(s)}
    ensures Install(s, t, name).runner.Keys == s.life.Keys + {FreshRun(s)}
    ensures Install(s, t, name).place.Keys == s.life.Keys + {FreshRun(s)}
    ensures Install(s, t, name).nameOf.Keys == s.life.Keys + {FreshRun(s)}
  {
  }

  lemma InstallNames(s: State, t: Tid, name: Name, n: Name)
    requires KeysOk(s) && n in Install(s, t, name).vmRunning
    ensures var s' := Install(s, t, name); s'.vmRunning[n] in s'.life && s'.nameOf[s'.vmRunning[n]] == n
  {
    InstallCount(s, t, name);
    if n != name { assert n in s.vmRunning && s.vmRunning[n] in s.life; }
  }

  lemma InstallThreads(s: State, t: Tid, name: Name, n: Name)
    requires s.vmThreads == map[] && n in Install(s, t, name).vmThreads
    ensures var s' := Install(s, t, name); s'.vmThreads[n] in s'.life && s'.place[s'.vmThreads[n]] == InMap(n)
  {
  }

  lemma InstallKeys(s: State, t: Tid, name: Name)
    requires KeysOk(s) && s.vmThreads == map[]
    ensures KeysOk(Install(s, t, name))
  {
    var s' := Install(s, t, name);
    InstallNumbers(s, t, name);
    InstallHistory(s, t, name);
    forall n | n in s'.vmRunning ensures s'.vmRunning[n] in s'.life && s'.nameOf[s'.vmRunning[n]] == n {
      InstallNames(s, t, name, n);
    }
    forall n | n in s'.vmThreads ensures s'.vmThreads[n] in s'.life && s'.place[s'.vmThreads[n]] == InMap(n) {
      InstallThreads(s, t, name, n);
    }
  }

  lemma InstallRun(s: State, t: Tid, name: Name)
    requires KeysOk(s)
    ensures KeysOk(Install(s, t, name)) ==> RunOk(Install(s, t, name), FreshRun(s))
  {
  }

  // StartVm installs a new run: nothing blocks and no runner thread is left in the map.
  lemma InstallKeeps(s: State, t: Tid, name: Name)
    requires Inv(s) && t in s.tasks && s.tasks[t] == StartInstall(name)
    ensures Inv(Install(s, t, name))
  {
    var s' := Install(s, t, name);
    assert NoneBlocks(s) && s.vmThreads == map[] by { assert TaskOk(s, t); }
    InstallKeys(s, t, name);
    forall x | x in s'.life ensures RunOk(s', x) {
      if x == FreshRun(s) { InstallRun(s, t, name); } else { InstallIsNew(s, t, name, x); InstallOld(s, t, name, x); }
    }
    forall u | u in s'.tasks ensures TaskOk(s', u) {
      if u == t { InstallTask(s, t, name); } else { InstallOther(s, t, name, u); }
    }
  }

  lemma InstallIsNew(s: State, t: Tid, name: Name, x: Run)
    requires x in Install(s, t, name).life && x != FreshRun(s)
    ensures x in s.life
  {
  }

  lemma InstallTask(s: State, t: Tid, name: Name)
    requires t in s.tasks && s.tasks[t] == StartInstall(name)
    ensures TaskOk(Install(s, t, name), t)
  {
  }

  lemma InstallOld(s: State, t: Tid, name: Name, x: Run)
    requires Inv(s) && t in s.tasks && s.tasks[t] == StartInstall(name) && x in s.life
    ensures x in Install(s, t, name).runner && x in Install(s, t, name).place && x in Install(s, t, name).nameOf
    ensures RunOk(Install(s, t, name), x)
  {
    assert TaskOk(s, t) && RunOk(s, x);
    InstallKeepsRun(s, t, name, x);
  }

  lemma InstallOther(s: State, t: Tid, name: Name, u: Tid)
    requires Inv(s) && t in s.tasks && s.tasks[t] == StartInstall(name) && u in s.tasks && u != t
    ensures TaskOk(Install(s, t, name), u)
  {
    assert TaskOk(s, t);
    AloneInside(s, t, u);
    InstallKeepsTask(s, t, name, u);
  }

  // ---------- All steps ----------

  // Nobody is inside when the mutex is free, and the thread inside holds it.
  lemma Inside(s: State, t: Tid)
    requires Inv(s) && t in s.tasks && InCritical(s.tasks[t])
    ensures s.mutex == Some(t) && TaskOk(s, t)
  {
    assert TaskOk(s, t);
  }

  lemma CallKeepsInv(s: State, t: Tid, pc: Task)
    requires Inv(s) && t in s.tasks && s.tasks[t].Idle? && (pc.StartLock? || pc.StopLock?)
    ensures Inv(Goto(s, t, pc))
  {
    MoveKeeps(s, Goto(s, t, pc), t, pc);
  }

  lemma CheckKeepsInv(s: State, t: Tid, n: Name)
    requires Inv(s) && Enabled(s, Check(t, n))
    ensures Inv(Apply(s, Check(t, n)))
  {
    Inside(s, t);
    var s' := Apply(s, Check(t, n));
    assert forall r :: Blocks(s', r) == Blocks(s, r);
    MoveKeeps(s, s', t, s'.tasks[t]);
  }

  /** The monitor always finds the runner it owns: what RequestVmStop's first branch guards against cannot happen. */
  lemma MonitorFindsRunner(s: State, t: Tid)
    requires Inv(s) && t in s.tasks && s.tasks[t].MonitorLookup?
    ensures !Enabled(s, Refuse(t)) && s.vmThreads[s.tasks[t].name] == s.tasks[t].run
  {
    assert TaskOk(s, t);
  }

  predicate Bystander(pc: Task) {
    pc.StartCheckSelf? || pc.StartCheckAll? || pc.StartCheckThreads? || pc.StartPrepare? || pc.StopCheck?
        || pc.StopClaim?
  }

  // StartVm or RequestVmStop returns without having claimed anything.
  lemma LeaveKeepsInv(s: State, t: Tid)
    requires Inv(s) && t in s.tasks && Bystander(s.tasks[t])
    ensures Inv(Unlock(s, t, Idle))
  {
    Inside(s, t);
    assert SameOwner(s.tasks[t], Idle);
    MoveKeeps(s, Unlock(s, t, Idle), t, Idle);
  }

  lemma NoMonitorKeepsInv(s: State, t: Tid)
    requires Inv(s) && t in s.tasks && s.tasks[t].StopSpawn?
    ensures Inv(Goto(s, t, StopFail(s.tasks[t].name, s.tasks[t].run)))
  {
    assert TaskOk(s, t);
    var pc := StopFail(s.tasks[t].name, s.tasks[t].run);
    assert SameOwner(s.tasks[t], pc);
    assert StopsRun(s.tasks[t], s.tasks[t].run);
    MoveKeeps(s, Goto(s, t, pc), t, pc);
  }

  lemma RefuseKeepsInv(s: State, t: Tid)
    requires Inv(s) && Enabled(s, Refuse(t))
    ensures Inv(Apply(s, Refuse(t)))
  {
    if s.tasks[t].MonitorLookup? {
      MonitorFindsRunner(s, t);
    } else if s.tasks[t].StopSpawn? {
      NoMonitorKeepsInv(s, t);
    } else {
      LeaveKeepsInv(s, t);
    }
  }

  lemma EnterKeepsInv(s: State, t: Tid, pc: Task)
    requires Inv(s) && t in s.tasks && s.mutex.None?
    requires match s.tasks[t]
             case StartLock(name) => pc == StartCheckSelf(name)
             case StopLock(name) => pc == StopCheck(name)
             case MonitorLock(name, run) => pc == MonitorLookup(name, run)
             case _ => false
    ensures Inv(Lock(s, t, pc))
  {
    assert TaskOk(s, t);
    assert SameOwner(s.tasks[t], pc);
    if s.tasks[t].MonitorLock? { assert StopsRun(s.tasks[t], pc.run); }
    MoveKeeps(s, Lock(s, t, pc), t, pc);
  }

  // StartVm goes on to the next check, or is done waiting.
  lemma StartKeepsInv(s: State, t: Tid)
    requires Inv(s) && t in s.tasks && CanProceed(s, s.tasks[t])
    requires s.tasks[t].StartWait? || s.tasks[t].StartCheckThreads? || s.tasks[t].StartPrepare?
    ensures Inv(Next(s, t))
  {
    assert TaskOk(s, t);
    var s' := Next(s, t);
    assert forall r :: Blocks(s', r) == Blocks(s, r);
    MoveKeeps(s, s', t, s'.tasks[t]);
  }

  lemma FoundKeepsInv(s: State, t: Tid)
    requires Inv(s) && t in s.tasks && CanProceed(s, s.tasks[t]) && s.tasks[t].StopCheck?
    ensures Inv(Next(s, t))
  {
    assert TaskOk(s, t);
    MoveKeeps(s, Next(s, t), t, StopClaim(s.tasks[t].name, s.vmRunning[s.tasks[t].name]));
  }

  // WaitForVmStop has returned: its runner is still the one of this monitor.
  lemma WaitedKeepsInv(s: State, t: Tid)
    requires Inv(s) && t in s.tasks && CanProceed(s, s.tasks[t]) && s.tasks[t].MonitorWait?
    ensures Inv(Next(s, t))
  {
    assert TaskOk(s, t);
    var pc := MonitorJoin(s.tasks[t].run, s.tasks[t].runner);
    assert SameOwner(s.tasks[t], pc);
    MoveKeeps(s, Next(s, t), t, pc);
  }

  lemma OutcomeKeepsInv(s: State, t: Tid)
    requires Inv(s) && t in s.tasks && CanProceed(s, s.tasks[t])
    requires s.tasks[t].StartLock? || s.tasks[t].StopLock? || s.tasks[t].StartWait? || s.tasks[t].StartCheckThreads?
          || s.tasks[t].StartPrepare? || s.tasks[t].StopCheck? || s.tasks[t].MonitorLock? || s.tasks[t].MonitorWait?
    ensures Inv(Next(s, t))
  {
    match s.tasks[t] {
      case StartLock(name) => EnterKeepsInv(s, t, StartCheckSelf(name));
      case StopLock(name) => EnterKeepsInv(s, t, StopCheck(name));
      case MonitorLock(name, run) => EnterKeepsInv(s, t, MonitorLookup(name, run));
      case StopCheck(_) => FoundKeepsInv(s, t);
      case MonitorWait(_, _) => WaitedKeepsInv(s, t);
      case _ => StartKeepsInv(s, t);
    }
  }

  lemma CheckSelfKeepsInv(s: State, t: Tid)
    requires Inv(s) && t in s.tasks && CanProceed(s, s.tasks[t]) && s.tasks[t].StartCheckSelf?
    ensures Inv(Next(s, t))
  {
    Inside(s, t);
    var s' := Next(s, t);
    MoveKeeps(s, s', t, s'.tasks[t]);
  }

  // After all entries have been looked at, no run blocks a start.
  lemma CheckAllKeepsInv(s: State, t: Tid)
    requires Inv(s) && t in s.tasks && CanProceed(s, s.tasks[t]) && s.tasks[t].StartCheckAll?
    ensures Inv(Next(s, t))
  {
    Inside(s, t);
    var s' := Next(s, t);
    forall r | r in s'.life ensures !Blocks(s', r) {
      assert RunOk(s, r);
      assert Blocks(s', r) == Blocks(s, r);
    }
    MoveKeeps(s, s', t, s'.tasks[t]);
  }

  lemma ClaimKeepsInv(s: State, t: Tid)
    requires Inv(s) && t in s.tasks && CanProceed(s, s.tasks[t]) && s.tasks[t].StopClaim?
    ensures Inv(Next(s, t))
  {
    Inside(s, t);
    var run := s.tasks[t].run;
    assert RunOk(s, run);
    var name := s.tasks[t].name;
    ClaimTouches(s, t, name, run);
    ClaimRun(s, t, name, run);
    ClaimTask(s, t, name, run);
    StopStep(s, Claim(s, t, name, run), t, t, run);
  }

  lemma ReleasedKeepsInv(s: State, t: Tid, run: Run, mutex: Option<Tid>)
    requires Inv(s) && t in s.tasks && run in s.life && (mutex == s.mutex || s.mutex == Some(t))
    requires (s.tasks[t].StopRelease? || s.tasks[t].MonitorRelease?) && StopsRun(s.tasks[t], run)
    ensures Inv(Release(s, t, run, mutex))
  {
    assert TaskOk(s, t) && RunOk(s, run);
    ReleaseTouches(s, t, run, mutex);
    ReleaseRun(s, t, run, mutex);
    ReleaseTask(s, t, run, mutex);
    StopStep(s, Release(s, t, run, mutex), t, t, run);
  }

  lemma ReleaseKeepsInv(s: State, t: Tid)
    requires Inv(s) && t in s.tasks && CanProceed(s, s.tasks[t])
             && (s.tasks[t].StopRelease? || s.tasks[t].MonitorRelease?)
    ensures Inv(Next(s, t))
  {
    assert TaskOk(s, t);
    var run := s.tasks[t].run;
    assert StopsRun(s.tasks[t], run);
    ReleasedKeepsInv(s, t, run, if s.tasks[t].StopRelease? then None else s.mutex);
  }

  lemma SpawnKeepsInv(s: State, t: Tid, m: Tid)
    requires Inv(s) && Enabled(s, Spawn(t, m))
    ensures Inv(Apply(s, Spawn(t, m)))
  {
    Inside(s, t);
    var name, run := s.tasks[t].name, s.tasks[t].run;
    assert StopsRun(s.tasks[t], run) && RunOk(s, run);
    SpawnTouches(s, t, m, name, run);
    SpawnRun(s, t, m, name, run);
    SpawnTasks(s, t, m, name, run);
    StopStep(s, Hand(s, t, m, name, run), t, m, run);
  }

  lemma LookupKeepsInv(s: State, t: Tid)
    requires Inv(s) && t in s.tasks && CanProceed(s, s.tasks[t]) && s.tasks[t].MonitorLookup?
    ensures Inv(Next(s, t))
  {
    Inside(s, t);
    var name, run := s.tasks[t].name, s.tasks[t].run;
    assert StopsRun(s.tasks[t], run) && RunOk(s, run);
    LookupTouches(s, t, name, run);
    LookupKeys(s, t, name, run);
    LookupRun(s, t, name, run);
    LookupTask(s, t, name, run);
    StopStep(s, Take(s, t, name, run), t, t, run);
  }

  lemma JoinKeepsInv(s: State, t: Tid)
    requires Inv(s) && t in s.tasks && CanProceed(s, s.tasks[t]) && s.tasks[t].MonitorJoin?
    ensures Inv(Next(s, t))
  {
    assert TaskOk(s, t);
    var run := s.tasks[t].run;
    assert StopsRun(s.tasks[t], run) && RunOk(s, run);
    JoinTouches(s, t, run);
    JoinRun(s, t, run);
    JoinTask(s, t, run);
    StopStep(s, Reap(s, t, run), t, t, run);
  }

  lemma FailKeepsInv(s: State, r: Run, reason: string)
    requires Inv(s) && r in s.life
    ensures Inv(On(s, r, L.Fail(reason)))
  {
    assert RunOk(s, r);
    L.AppendGrows(s.life[r].error, reason);
    var s' := On(s, r, L.Fail(reason));
    assert s'.runner == s.runner[r := s.runner[r]];
    LifeKeeps(s, s', r, s'.life[r], s.runner[r]);
  }

  lemma StopFailKeepsInv(s: State, t: Tid)
    requires Inv(s) && t in s.tasks && CanProceed(s, s.tasks[t]) && s.tasks[t].StopFail?
    ensures Inv(Next(s, t))
  {
    var run := s.tasks[t].run;
    FailKeepsInv(s, run, NO_MONITOR);
    L.AppendGrows(s.life[run].error, NO_MONITOR);
    GiveUpKeepsInv(On(s, run, L.Fail(NO_MONITOR)), t, s.tasks[t].name, run);
  }

  lemma GiveUpKeepsInv(s: State, t: Tid, name: Name, run: Run)
    requires Inv(s) && t in s.tasks && s.tasks[t] == StopFail(name, run) && run in s.life && s.life[run].error != ""
    ensures Inv(Goto(s, t, StopRelease(name, run)))
  {
    assert TaskOk(s, t);
    MoveKeeps(s, Goto(s, t, StopRelease(name, run)), t, StopRelease(name, run));
  }

  lemma ProceedKeepsInv(s: State, t: Tid)
    requires Inv(s) && t in s.tasks && CanProceed(s, s.tasks[t])
    ensures Inv(Next(s, t))
  {
    assert TaskOk(s, t);
    match s.tasks[t] {
      case StartCheckSelf(_) => CheckSelfKeepsInv(s, t);
      case StartCheckAll(_, _) => CheckAllKeepsInv(s, t);
      case StartInstall(name) => InstallKeeps(s, t, name);
      case StopClaim(_, _) => ClaimKeepsInv(s, t);
      case StopFail(_, _) => StopFailKeepsInv(s, t);
      case StopRelease(_, _) => ReleaseKeepsInv(s, t);
      case MonitorRelease(_) => ReleaseKeepsInv(s, t);
      case MonitorLookup(_, _) => LookupKeepsInv(s, t);
      case MonitorJoin(_, _) => JoinKeepsInv(s, t);
      case _ => OutcomeKeepsInv(s, t);
    }
  }

  lemma ReportKeepsInv(s: State, t: Tid, reason: string)
    requires Inv(s) && Enabled(s, Report(t, reason))
    ensures Inv(Apply(s, Report(t, reason)))
  {
    var s0 := On(s, s.tasks[t].run, L.Fail(reason));
    FailKeepsInv(s, s.tasks[t].run, reason);
    if s.tasks[t].StartWait? { TimeoutKeepsInv(s0, t, s.tasks[t].name); }
  }

  // After the startup timeout the thread goes on to stop the VM.
  lemma TimeoutKeepsInv(s: State, t: Tid, name: Name)
    requires Inv(s) && t in s.tasks && s.tasks[t].StartWait?
    ensures Inv(Goto(s, t, StopLock(name)))
  {
    MoveKeeps(s, Goto(s, t, StopLock(name)), t, StopLock(name));
  }

  lemma RunnerCallKeepsInv(s: State, r: Run, op: L.Op)
    requires Inv(s) && Enabled(s, RunnerCall(r, op))
    ensures Inv(Apply(s, RunnerCall(r, op)))
  {
    assert RunOk(s, r);
    var s' := Apply(s, RunnerCall(r, op));
    assert s'.runner == s.runner[r := s'.runner[r]];
    LifeKeeps(s, s', r, s'.life[r], s'.runner[r]);
  }

  lemma RunnerReturnKeepsInv(s: State, r: Run)
    requires Inv(s) && Enabled(s, RunnerReturn(r))
    ensures Inv(Apply(s, RunnerReturn(r)))
  {
    assert r in s.life && RunOk(s, r);
    var s' := Apply(s, RunnerReturn(r));
    assert s'.life == s.life[r := s.life[r]];
    LifeKeeps(s, s', r, s.life[r], Returned);
  }

  lemma StepKeepsInv(s: State, l: Label)
    requires Inv(s) && Enabled(s, l)
    ensures Inv(Apply(s, l))
  {
    match l {
      case CallStart(t, name) => CallKeepsInv(s, t, StartLock(name));
      case CallStop(t, name) => CallKeepsInv(s, t, StopLock(name));
      case Check(t, n) => CheckKeepsInv(s, t, n);
      case Refuse(t) => RefuseKeepsInv(s, t);
      case Proceed(t) => ProceedKeepsInv(s, t);
      case Spawn(t, m) => SpawnKeepsInv(s, t, m);
      case Report(t, reason) => ReportKeepsInv(s, t, reason);
      case RunnerCall(r, op) => RunnerCallKeepsInv(s, r, op);
      case RunnerReturn(r) => RunnerReturnKeepsInv(s, r);
    }
  }

  lemma InitInv(s: State)
    requires Init(s)
    ensures Inv(s)
  {
  }

  // ---------- Whole runs ----------

  ghost predicate Trace(tr: seq<State>) {
    && tr != [] && Init(tr[0])
    && forall i :: 0 <= i < |tr| - 1 ==> NextAt(tr, i)
  }

  ghost predicate NextAt(tr: seq<State>, i: nat)
    requires i < |tr| - 1
  {
    exists l :: Enabled(tr[i], l) && tr[i + 1] == Apply(tr[i], l)
  }

  // What a step does to the life of a run that exists already: at most one call.
  lemma LifeOfStep(s: State, l: Label, r: Run) returns (op: Option<L.Op>)
    requires Inv(s) && Enabled(s, l) && r in s.life
    ensures r in Apply(s, l).life
    ensures Apply(s, l).life[r] == if op.Some? then L.Apply(s.life[r], op.value) else s.life[r]
    ensures op.Some? ==> L.NonEmpty(op.value)
  {
    op := None;
    if l.Proceed? {
      op := LifeOfNext(s, l.t, r);
    } else if l.Report? && s.tasks[l.t].run == r {
      op := Some(L.Fail(l.reason));
    } else if l.RunnerCall? && l.r == r {
      op := Some(l.op);
    } else {
      LifeUntouched(s, l, r);
    }
  }

  lemma LifeUntouched(s: State, l: Label, r: Run)
    requires Enabled(s, l) && r in s.life && !l.Proceed?
    requires (l.Report? ==> s.tasks[l.t].run != r) && (l.RunnerCall? ==> l.r != r)
    ensures r in Apply(s, l).life
    ensures Apply(s, l).life[r] == s.life[r]
  {
    match l {
      case CallStart(_, _) =>
      case CallStop(_, _) =>
      case Check(_, _) =>
      case Refuse(t) => RefuseLife(s, t);
      case Spawn(_, _) =>
      case Report(_, _) =>
      case RunnerCall(_, _) =>
      case RunnerReturn(_) =>
    }
  }

  lemma RefuseLife(s: State, t: Tid)
    requires Enabled(s, Refuse(t))
    ensures Apply(s, Refuse(t)).life == s.life
  {
    if !s.tasks[t].StopSpawn? && !s.tasks[t].MonitorLookup? { RefuseLeaves(s, t); }
  }

  lemma RefuseLeaves(s: State, t: Tid)
    requires Enabled(s, Refuse(t)) && !s.tasks[t].StopSpawn? && !s.tasks[t].MonitorLookup?
    ensures Apply(s, Refuse(t)) == Unlock(s, t, Idle)
  {
  }

  lemma NotLost(s: State, t: Tid)
    requires Inv(s) && t in s.tasks
    ensures !s.tasks[t].MonitorLost?
  {
    assert TaskOk(s, t);
  }

  lemma StartQuiet(s: State, t: Tid)
    requires t in s.tasks && IsStart(s.tasks[t]) && !s.tasks[t].StartInstall?
    ensures StartNext(s, t).life == s.life
  {
    match s.tasks[t] {
      case StartLock(name) =>
      case StartCheckSelf(name) =>
      case StartCheckAll(name, _) =>
      case StartCheckThreads(name) =>
      case StartPrepare(name) =>
      case StartWait(_, _) =>
    }
  }

  lemma StopQuiet(s: State, t: Tid)
    requires t in s.tasks && (s.tasks[t].StopLock? || s.tasks[t].StopCheck?) && CanProceed(s, s.tasks[t])
    ensures StopNext(s, t).life == s.life
  {
  }

  lemma MonitorQuiet(s: State, t: Tid)
    requires t in s.tasks && IsMonitor(s.tasks[t]) && CanProceed(s, s.tasks[t])
    requires !s.tasks[t].MonitorLost? && !s.tasks[t].MonitorRelease?
    ensures MonitorNext(s, t).life == s.life
  {
    match s.tasks[t] {
      case MonitorLock(name, run) =>
      case MonitorLookup(name, run) =>
      case MonitorWait(run, runner) =>
      case MonitorJoin(run, runner) =>
    }
  }

  lemma Quiet(s: State, t: Tid)
    requires t in s.tasks && CanProceed(s, s.tasks[t]) && Silent(s.tasks[t])
    ensures Next(s, t).life == s.life
  {
    if IsStart(s.tasks[t]) {
      StartQuiet(s, t);
    } else if IsStop(s.tasks[t]) {
      StopQuiet(s, t);
    } else {
      MonitorQuiet(s, t);
    }
  }

  lemma LifeOfNext(s: State, t: Tid, r: Run) returns (op: Option<L.Op>)
    requires Inv(s) && t in s.tasks && CanProceed(s, s.tasks[t]) && r in s.life
    ensures r in Next(s, t).life
    ensures Next(s, t).life[r] == if op.Some? then L.Apply(s.life[r], op.value) else s.life[r]
    ensures op.Some? ==> L.NonEmpty(op.value)
  {
    op := None;
    NotLost(s, t);
    if Silent(s.tasks[t]) {
      Quiet(s, t);
    } else if s.tasks[t].StartInstall? {
      InstallCount(s, t, s.tasks[t].name);
    } else {
      var call := CallOfNext(s, t);
      if s.tasks[t].run == r { op := Some(call); }
    }
  }

  // The other steps make one call, on the run they are about.
  lemma CallOfNext(s: State, t: Tid) returns (op: L.Op)
    requires t in s.tasks && CanProceed(s, s.tasks[t])
    requires !Silent(s.tasks[t]) && !s.tasks[t].StartInstall? && !s.tasks[t].MonitorLost?
    ensures s.tasks[t].run in s.life && L.NonEmpty(op)
    ensures Next(s, t).life == On(s, s.tasks[t].run, op).life
  {
    match s.tasks[t] {
      case StopClaim(_, _) => op := L.ClaimStop; ClaimLife(s, t);
      case StopFail(_, _) => op := L.Fail(NO_MONITOR); FailLife(s, t);
      case StopRelease(_, _) => op := L.ReleaseStopOwner; ReleaseLife(s, t);
      case MonitorRelease(_) => op := L.ReleaseStopOwner; ReleaseLife(s, t);
    }
  }

  lemma ClaimLife(s: State, t: Tid)
    requires t in s.tasks && CanProceed(s, s.tasks[t]) && s.tasks[t].StopClaim?
    ensures s.tasks[t].run in s.life && Next(s, t).life == On(s, s.tasks[t].run, L.ClaimStop).life
  {
  }

  lemma FailLife(s: State, t: Tid)
    requires t in s.tasks && CanProceed(s, s.tasks[t]) && s.tasks[t].StopFail?
    ensures s.tasks[t].run in s.life && Next(s, t).life == On(s, s.tasks[t].run, L.Fail(NO_MONITOR)).life
  {
  }

  lemma ReleaseLife(s: State, t: Tid)
    requires t in s.tasks && CanProceed(s, s.tasks[t]) && (s.tasks[t].StopRelease? || s.tasks[t].MonitorRelease?)
    ensures s.tasks[t].run in s.life && Next(s, t).life == On(s, s.tasks[t].run, L.ReleaseStopOwner).life
  {
  }

  // A run that appears is a fresh one, and nothing blocked before.
  lemma NewLife(s: State, l: Label, r: Run)
    requires Inv(s) && Enabled(s, l) && r in Apply(s, l).life && r !in s.life
    ensures l.Proceed? && s.tasks[l.t].StartInstall?
    ensures Apply(s, l).life[r] == L.FRESH && r == FreshRun(s)
    ensures NoneBlocks(s) && s.vmThreads == map[]
  {
    if l.Proceed? {
      NotLost(s, l.t);
      if s.tasks[l.t].StartInstall? { InstallQuiet(s, l.t); } else { NothingNew(s, l.t); }
    } else {
      OnlyProceedAdds(s, l);
    }
  }

  lemma OnlyProceedAdds(s: State, l: Label)
    requires Enabled(s, l) && !l.Proceed?
    ensures Apply(s, l).life.Keys == s.life.Keys
  {
    match l {
      case CallStart(_, _) =>
      case CallStop(_, _) =>
      case Check(_, _) =>
      case Refuse(t) => RefuseLife(s, t);
      case Spawn(_, _) =>
      case Report(_, _) =>
      case RunnerCall(_, _) =>
      case RunnerReturn(_) =>
    }
  }

  lemma InstallQuiet(s: State, t: Tid)
    requires Inv(s) && t in s.tasks && s.tasks[t].StartInstall?
    ensures NoneBlocks(s) && s.vmThreads == map[]
  {
    assert TaskOk(s, t);
  }

  lemma NothingNew(s: State, t: Tid)
    requires t in s.tasks && CanProceed(s, s.tasks[t]) && !s.tasks[t].StartInstall? && !s.tasks[t].MonitorLost?
    ensures Next(s, t).life.Keys == s.life.Keys
  {
    if Silent(s.tasks[t]) { Quiet(s, t); } else { assert s.tasks[t].run in s.life; }
  }

  ghost predicate Sound(s: State) {
    && Inv(s)
    && (forall r :: r in s.life ==> L.Coherent(s.life[r]))
    && (forall r, x :: r in s.life && x in s.life && Blocks(s, r) && Blocks(s, x) ==> r == x)
  }

  lemma StepKeepsCoherent(s: State, l: Label, r: Run)
    requires Sound(s) && Enabled(s, l) && r in Apply(s, l).life
    ensures L.Coherent(Apply(s, l).life[r])
  {
    if r in s.life {
      var op := LifeOfStep(s, l, r);
      if op.Some? { L.CallKeeps(s.life[r], op.value); }
    } else {
      NewLife(s, l, r);
    }
  }

  // Only StartVm, having seen that nothing blocks, makes a run block.
  lemma BlocksBefore(s: State, l: Label, r: Run)
    requires Sound(s) && Enabled(s, l) && r in s.life && Blocks(Apply(s, l), r)
    ensures Blocks(s, r)
  {
    var op := LifeOfStep(s, l, r);
  }

  lemma StepKeepsAlone(s: State, l: Label, r: Run, x: Run)
    requires Sound(s) && Enabled(s, l)
    requires r in Apply(s, l).life && x in Apply(s, l).life && Blocks(Apply(s, l), r) && Blocks(Apply(s, l), x)
    ensures r == x
  {
    if r !in s.life { NewLife(s, l, r); } else { BlocksBefore(s, l, r); }
    if x !in s.life { NewLife(s, l, x); } else { BlocksBefore(s, l, x); }
  }

  lemma StepKeepsSound(s: State, l: Label)
    requires Sound(s) && Enabled(s, l)
    ensures Sound(Apply(s, l))
  {
    var s' := Apply(s, l);
    StepKeepsInv(s, l);
    forall r | r in s'.life ensures L.Coherent(s'.life[r]) { StepKeepsCoherent(s, l, r); }
    forall r, x | r in s'.life && x in s'.life && Blocks(s', r) && Blocks(s', x) ensures r == x {
      StepKeepsAlone(s, l, r, x);
    }
  }

  lemma RunKeepsSound(tr: seq<State>, i: nat)
    requires Trace(tr) && i < |tr|
    ensures Sound(tr[i])
  {
    if i == 0 {
      InitInv(tr[0]);
    } else {
      RunKeepsSound(tr, i - 1);
      assert NextAt(tr, i - 1);
      var l :| Enabled(tr[i - 1], l) && tr[i] == Apply(tr[i - 1], l);
      StepKeepsSound(tr[i - 1], l);
    }
  }

  lemma LabelAt(tr: seq<State>, i: nat) returns (l: Label)
    requires Trace(tr) && i + 1 < |tr|
    ensures Sound(tr[i]) && Enabled(tr[i], l) && tr[i + 1] == Apply(tr[i], l) && Sound(tr[i + 1])
  {
    RunKeepsSound(tr, i);
    RunKeepsSound(tr, i + 1);
    assert NextAt(tr, i);
    l :| Enabled(tr[i], l) && tr[i + 1] == Apply(tr[i], l);
  }

  // ---------- Who owns a runner thread ----------

  ghost predicate OwnedByMap(s: State, n: Name, r: Run) {
    n in s.vmThreads && s.vmThreads[n] == r
  }

  ghost predicate HeldBy(s: State, t: Tid, r: Run) {
    t in s.tasks && HoldsRunner(s.tasks[t], r)
  }

  // Its std::thread is in no map entry and in no monitor any more.
  ghost predicate Reaped(s: State, r: Run) {
    && (forall n :: !OwnedByMap(s, n, r))
    && (forall t :: !HeldBy(s, t, r))
  }

  lemma OwnerIsPlace(s: State, r: Run)
    requires Inv(s) && r in s.life
    ensures r in s.place && r in s.runner
    ensures forall n :: OwnedByMap(s, n, r) <==> s.place[r] == InMap(n)
    ensures forall t :: HeldBy(s, t, r) <==> s.place[r] == Held(t)
    ensures Reaped(s, r) <==> s.place[r] == Joined
    ensures s.place[r].Joined? ==> s.runner[r].Returned?
  {
    assert RunOk(s, r);
    forall t | HeldBy(s, t, r) ensures s.place[r] == Held(t) { assert TaskOk(s, t); }
    match s.place[r] {
      case InMap(n) => assert OwnedByMap(s, n, r);
      case Held(t) => assert HeldBy(s, t, r);
      case Joined =>
    }
  }

  /** In every reachable state a runner thread is in one map entry, or with one monitor, or has been
      joined after it returned: never two of these. */
  lemma OneOwner(tr: seq<State>, i: nat, r: Run)
    requires Trace(tr) && i < |tr| && r in tr[i].life
    ensures forall n, m :: OwnedByMap(tr[i], n, r) && OwnedByMap(tr[i], m, r) ==> n == m
    ensures forall t, u :: HeldBy(tr[i], t, r) && HeldBy(tr[i], u, r) ==> t == u
    ensures forall n, t :: !(OwnedByMap(tr[i], n, r) && HeldBy(tr[i], t, r))
    ensures r in tr[i].runner && (Reaped(tr[i], r) ==> tr[i].runner[r].Returned?)
  {
    RunKeepsSound(tr, i);
    OwnerIsPlace(tr[i], r);
  }

  lemma StartPlace(s: State, t: Tid)
    requires t in s.tasks && IsStart(s.tasks[t]) && !s.tasks[t].StartInstall?
    ensures StartNext(s, t).place == s.place
  {
    match s.tasks[t] {
      case StartLock(name) =>
      case StartCheckSelf(name) =>
      case StartCheckAll(name, _) =>
      case StartCheckThreads(name) =>
      case StartPrepare(name) =>
      case StartWait(_, _) =>
    }
  }

  lemma StopPlace(s: State, t: Tid)
    requires t in s.tasks && IsStop(s.tasks[t]) && CanProceed(s, s.tasks[t])
    ensures StopNext(s, t).place == s.place
  {
    match s.tasks[t] {
      case StopLock(name) =>
      case StopCheck(name) =>
      case StopClaim(name, run) =>
      case StopFail(name, run) =>
      case StopRelease(_, run) =>
    }
  }

  lemma MonitorPlace(s: State, t: Tid)
    requires t in s.tasks && CanProceed(s, s.tasks[t])
    requires s.tasks[t].MonitorLock? || s.tasks[t].MonitorWait? || s.tasks[t].MonitorRelease?
    ensures MonitorNext(s, t).place == s.place
  {
    match s.tasks[t] {
      case MonitorLock(name, run) =>
      case MonitorWait(run, runner) =>
      case MonitorRelease(run) =>
    }
  }

  // How a runner thread moves: from the map to a monitor, and from there by that monitor's join step.
  ghost predicate Moves(a: Place, b: Place, r: Run, k: Runner, joiner: Option<Tid>) {
    || b == a
    || (a.InMap? && b.Held?)
    || (a.Held? && b == Joined && k.Returned? && joiner == Some(a.monitor))
  }

  // The thread that joins `r` in this step.
  function Joiner(s: State, l: Label, r: Run): Option<Tid> {
    if l.Proceed? && l.t in s.tasks && s.tasks[l.t] == MonitorJoin(r, r) then Some(l.t) else None
  }

  lemma PlaceOfNext(s: State, t: Tid, r: Run)
    requires Inv(s) && t in s.tasks && CanProceed(s, s.tasks[t]) && r in s.life
    ensures r in s.place && r in s.runner && r in Next(s, t).place
    ensures Moves(s.place[r], Next(s, t).place[r], r, s.runner[r], Joiner(s, Proceed(t), r))
  {
    NotLost(s, t);
    if s.tasks[t].StartInstall? {
      InstallCount(s, t, s.tasks[t].name);
    } else if IsStart(s.tasks[t]) {
      StartPlace(s, t);
    } else if IsStop(s.tasks[t]) {
      StopPlace(s, t);
    } else if s.tasks[t].MonitorLookup? || s.tasks[t].MonitorJoin? {
      RunnerMoves(s, t, r);
    } else {
      MonitorPlace(s, t);
    }
  }

  // The two steps of a monitor that move its runner thread.
  lemma RunnerMoves(s: State, t: Tid, r: Run)
    requires Inv(s) && t in s.tasks && CanProceed(s, s.tasks[t]) && r in s.life
    requires s.tasks[t].MonitorLookup? || s.tasks[t].MonitorJoin?
    ensures r in s.place && r in s.runner && r in Next(s, t).place
    ensures Moves(s.place[r], Next(s, t).place[r], r, s.runner[r], Joiner(s, Proceed(t), r))
  {
    assert TaskOk(s, t);
    if s.tasks[t].MonitorLookup? { assert Waiting(s, s.tasks[t].name, s.tasks[t].run); }
  }

  lemma PlaceOfStep(s: State, l: Label, r: Run)
    requires Inv(s) && Enabled(s, l) && r in s.life
    ensures r in s.place && r in s.runner && r in Apply(s, l).place
    ensures Moves(s.place[r], Apply(s, l).place[r], r, s.runner[r], Joiner(s, l, r))
  {
    if l.Proceed? { PlaceOfNext(s, l.t, r); } else { assert Apply(s, l).place == s.place; }
  }

  // Monitor `t` joins the thread of `r`, which has returned.
  ghost predicate Joins(s: State, s': State, t: Tid, r: Run) {
    && t in s.tasks && s.tasks[t] == MonitorJoin(r, r) && t in s'.tasks && s'.tasks[t] == MonitorRelease(r)
    && r in s.runner && s.runner[r].Returned? && Reaped(s', r)
  }

  // What a step from `s` to `s'` may do with the thread of `r`.
  ghost predicate Handed(s: State, s': State, r: Run) {
    && (forall n :: OwnedByMap(s, n, r) ==> OwnedByMap(s', n, r) || exists t :: HeldBy(s', t, r))
    && (forall t :: HeldBy(s, t, r) ==> HeldBy(s', t, r) || Joins(s, s', t, r))
    && (Reaped(s, r) ==> Reaped(s', r))
  }

  lemma StepHands(s: State, l: Label, r: Run)
    requires Sound(s) && Enabled(s, l) && Sound(Apply(s, l)) && r in s.life && r in Apply(s, l).life
    ensures Handed(s, Apply(s, l), r)
  {
    var s' := Apply(s, l);
    PlaceOfStep(s, l, r);
    OwnerIsPlace(s, r);
    OwnerIsPlace(s', r);
    if Joiner(s, l, r).Some? { JoinMoves(s, l.t, r); }
    PlaceHands(s, s', r, Joiner(s, l, r));
  }

  lemma JoinMoves(s: State, t: Tid, r: Run)
    requires t in s.tasks && s.tasks[t] == MonitorJoin(r, r) && CanProceed(s, s.tasks[t])
    ensures t in Next(s, t).tasks && Next(s, t).tasks[t] == MonitorRelease(r)
  {
  }

  lemma PlaceHands(s: State, s': State, r: Run, joiner: Option<Tid>)
    requires r in s.runner && r in s.place && r in s'.place && Moves(s.place[r], s'.place[r], r, s.runner[r], joiner)
    requires joiner.Some? ==> var t := joiner.value;
      t in s.tasks && s.tasks[t] == MonitorJoin(r, r) && t in s'.tasks && s'.tasks[t] == MonitorRelease(r)
    requires forall n :: OwnedByMap(s, n, r) <==> s.place[r] == InMap(n)
    requires forall t :: HeldBy(s, t, r) <==> s.place[r] == Held(t)
    requires Reaped(s, r) <==> s.place[r] == Joined
    requires forall n :: OwnedByMap(s', n, r) <==> s'.place[r] == InMap(n)
    requires forall t :: HeldBy(s', t, r) <==> s'.place[r] == Held(t)
    requires Reaped(s', r) <==> s'.place[r] == Joined
    ensures Handed(s, s', r)
  {
    if s'.place[r].Held? { assert HeldBy(s', s'.place[r].monitor, r); }
  }

  /** One step of a run: a runner thread leaves the map only into one monitor, leaves a monitor only by
      that monitor's join, after it returned, and once joined never comes back. */
  lemma OwnershipMoves(tr: seq<State>, i: nat, r: Run)
    requires Trace(tr) && i + 1 < |tr| && r in tr[i].life
    ensures r in tr[i + 1].life && Handed(tr[i], tr[i + 1], r)
  {
    var l := LabelAt(tr, i);
    var op := LifeOfStep(tr[i], l, r);
    StepHands(tr[i], l, r);
  }

  lemma {:induction false} ReapedForGood(tr: seq<State>, i: nat, j: nat, r: Run)
    requires Trace(tr) && i <= j < |tr| && r in tr[i].life && Reaped(tr[i], r)
    ensures r in tr[j].life && Reaped(tr[j], r)
    decreases j - i
  {
    if i < j {
      OwnershipMoves(tr, i, r);
      ReapedForGood(tr, i + 1, j, r);
    }
  }

  // Step `i` joins the thread of `r`.
  ghost predicate JoinsAt(tr: seq<State>, i: nat, r: Run) {
    i + 1 < |tr| && r in tr[i].life && !Reaped(tr[i], r) && Reaped(tr[i + 1], r)
  }

  /** A runner thread is joined at most once, and only after it returned. */
  lemma JoinedAtMostOnce(tr: seq<State>, i: nat, j: nat, r: Run)
    requires Trace(tr) && JoinsAt(tr, i, r) && JoinsAt(tr, j, r)
    ensures i == j && r in tr[i].runner && tr[i].runner[r].Returned?
  {
    OwnershipMoves(tr, i, r);
    OwnershipMoves(tr, j, r);
    if i < j { ReapedForGood(tr, i + 1, j, r); }
    if j < i { ReapedForGood(tr, j + 1, i, r); }
    RunKeepsSound(tr, i);
    RunKeepsSound(tr, i + 1);
    OwnerIsPlace(tr[i], r);
    OwnerIsPlace(tr[i + 1], r);
    var l := LabelAt(tr, i);
    PlaceOfStep(tr[i], l, r);
  }

  /** StartVm assigns the std::thread of a new run only when the map is empty: no joinable thread is ever
      overwritten, and no other VM is active or has a stop owner. */
  lemma InstallOverwritesNothing(tr: seq<State>, i: nat, t: Tid)
    requires Trace(tr) && i < |tr| && t in tr[i].tasks && tr[i].tasks[t].StartInstall?
    ensures tr[i].vmThreads == map[] && forall r :: !Blocks(tr[i], r)
  {
    RunKeepsSound(tr, i);
    InstallQuiet(tr[i], t);
  }

  /** At most one VM is active or has a stop owner. */
  lemma OneVmAtATime(tr: seq<State>, i: nat, r: Run, x: Run)
    requires Trace(tr) && i < |tr| && Blocks(tr[i], r) && Blocks(tr[i], x)
    ensures r == x
  {
    RunKeepsSound(tr, i);
  }

  /** No monitor ever fails to find its runner. */
  lemma MonitorNeverLost(tr: seq<State>, i: nat, t: Tid)
    requires Trace(tr) && i < |tr| && t in tr[i].tasks
    ensures !tr[i].tasks[t].MonitorLost?
    ensures tr[i].tasks[t].MonitorLookup? ==> OwnedByMap(tr[i], tr[i].tasks[t].name, tr[i].tasks[t].run)
  {
    RunKeepsSound(tr, i);
    NotLost(tr[i], t);
    if tr[i].tasks[t].MonitorLookup? { MonitorFindsRunner(tr[i], t); assert TaskOk(tr[i], t); }
  }

  /** When no monitor could be created, the stop request and its cause stay, the runner is still in the
      map, nobody owns the stop, and a new request is accepted as long as the run is active. */
  lemma FailedMonitorIsRetryable(tr: seq<State>, i: nat, t: Tid)
    requires Trace(tr) && i < |tr| && t in tr[i].tasks && tr[i].tasks[t].StopRelease?
    ensures Enabled(tr[i], Proceed(t))
    ensures var run, s' := tr[i].tasks[t].run, Next(tr[i], t);
      && run in s'.life && OwnedByMap(s', tr[i].tasks[t].name, run)
      && s'.life[run].stopRequested && s'.life[run].error != "" && !s'.life[run].stopOwner
      && (s'.life[run].active ==> L.Accepts(s'.life[run], L.ClaimStop))
      && s'.tasks[t].Idle? && s'.mutex.None?
  {
    RunKeepsSound(tr, i);
    Inside(tr[i], t);
    assert StopsRun(tr[i].tasks[t], tr[i].tasks[t].run);
  }

  lemma ReleasedRun(s: State, t: Tid)
    requires Sound(s) && t in s.tasks && s.tasks[t].MonitorRelease?
    ensures Enabled(s, Proceed(t)) && s.tasks[t].run in s.life && s.place[s.tasks[t].run].Joined?
    ensures s.life[s.tasks[t].run].stopOwner && !s.life[s.tasks[t].run].active
  {
    assert TaskOk(s, t) && StopsRun(s.tasks[t], s.tasks[t].run) && RunOk(s, s.tasks[t].run);
  }

  // While a run blocks starts, no other run has its thread in the map.
  ghost predicate Mapped(s: State) {
    forall n, r :: n in s.vmThreads && Blocks(s, r) ==> s.vmThreads[n] == r
  }

  // A thread that is in the map after a step was there before, unless its run is new.
  lemma MapBefore(s: State, l: Label, n: Name, x: Run)
    requires Sound(s) && Enabled(s, l) && x in s.life && OwnedByMap(Apply(s, l), n, x)
    ensures OwnedByMap(s, n, x)
  {
    StepKeepsSound(s, l);
    var op := LifeOfStep(s, l, x);
    OwnerIsPlace(Apply(s, l), x);
    PlaceOfStep(s, l, x);
    OwnerIsPlace(s, x);
  }

  // Only the thread of the new run is in the map when a run has been installed.
  lemma InstalledAlone(s: State, l: Label, r: Run, n: Name)
    requires Sound(s) && Enabled(s, l) && r in Apply(s, l).life && r !in s.life && n in Apply(s, l).vmThreads
    ensures Apply(s, l).vmThreads[n] == r
  {
    NewLife(s, l, r);
  }

  lemma StepKeepsMapped(s: State, l: Label, n: Name, r: Run)
    requires Sound(s) && Mapped(s) && Enabled(s, l) && n in Apply(s, l).vmThreads && Blocks(Apply(s, l), r)
    ensures Apply(s, l).vmThreads[n] == r
  {
    StepKeepsSound(s, l);
    var x := Apply(s, l).vmThreads[n];
    if r !in s.life {
      InstalledAlone(s, l, r, n);
    } else {
      BlocksBefore(s, l, r);
      if x !in s.life { NewLife(s, l, x); } else { MapBefore(s, l, n, x); }
    }
  }

  lemma StepKeepsAllMapped(s: State, l: Label)
    requires Sound(s) && Mapped(s) && Enabled(s, l)
    ensures Mapped(Apply(s, l))
  {
    var s' := Apply(s, l);
    forall n, r | n in s'.vmThreads && Blocks(s', r) ensures s'.vmThreads[n] == r { StepKeepsMapped(s, l, n, r); }
  }

  lemma MappedStep(tr: seq<State>, i: nat)
    requires Trace(tr) && i + 1 < |tr| && Mapped(tr[i])
    ensures Mapped(tr[i + 1])
  {
    var l := LabelAt(tr, i);
    StepKeepsAllMapped(tr[i], l);
  }

  lemma {:induction false} RunKeepsMapped(tr: seq<State>, i: nat)
    requires Trace(tr) && i < |tr|
    ensures Mapped(tr[i])
  {
    if i > 0 {
      RunKeepsMapped(tr, i - 1);
      MappedStep(tr, i - 1);
    }
  }

  lemma ReleaseKeepsMap(s: State, t: Tid)
    requires t in s.tasks && s.tasks[t].MonitorRelease? && CanProceed(s, s.tasks[t])
    ensures Next(s, t).vmThreads == s.vmThreads
  {
  }

  lemma ReleaseEmptiesMap(s: State, t: Tid)
    requires Sound(s) && Mapped(s) && t in s.tasks && s.tasks[t].MonitorRelease? && CanProceed(s, s.tasks[t])
    ensures Next(s, t).vmThreads == map[]
  {
    ReleasedRun(s, t);
    var run := s.tasks[t].run;
    assert Blocks(s, run);
    OwnerIsPlace(s, run);
    assert forall n :: n in s.vmThreads ==> OwnedByMap(s, n, run);
    ReleaseKeepsMap(s, t);
  }

  /** A finished stop frees the way: nothing blocks a start any more and no runner thread is left in the map,
      so StartVm passes all its checks. */
  lemma FinishedStopUnblocks(tr: seq<State>, i: nat, t: Tid)
    requires Trace(tr) && i < |tr| && t in tr[i].tasks && tr[i].tasks[t].MonitorRelease?
    ensures Enabled(tr[i], Proceed(t))
    ensures var run, s' := tr[i].tasks[t].run, Next(tr[i], t);
      run in s'.life && Reaped(s', run) && s'.vmThreads == map[] && forall r :: !Blocks(s', r)
  {
    RunKeepsSound(tr, i);
    ReleasedRun(tr[i], t);
    ReleaseReaps(tr[i], t);
    RunKeepsMapped(tr, i);
    ReleaseEmptiesMap(tr[i], t);
    forall r ensures !Blocks(Next(tr[i], t), r) { ReleaseUnblocks(tr[i], t, r); }
  }

  lemma ReleaseReaps(s: State, t: Tid)
    requires Sound(s) && t in s.tasks && s.tasks[t].MonitorRelease? && CanProceed(s, s.tasks[t])
    ensures s.tasks[t].run in Next(s, t).life && Reaped(Next(s, t), s.tasks[t].run)
  {
    ReleasedRun(s, t);
    StepKeepsSound(s, Proceed(t));
    OwnerIsPlace(Next(s, t), s.tasks[t].run);
  }

  lemma ReleaseUnblocks(s: State, t: Tid, r: Run)
    requires Sound(s) && t in s.tasks && s.tasks[t].MonitorRelease? && CanProceed(s, s.tasks[t])
    ensures !Blocks(Next(s, t), r)
  {
    ReleasedRun(s, t);
    ReleaseLife(s, t);
    var run := s.tasks[t].run;
    assert Blocks(s, run);
    if r in s.life && r != run { assert !Blocks(s, r); }
  }

  // A run that ended by itself: inactive, without a stop owner, its thread still in the map.
  ghost predicate Unreaped(s: State, n: Name, r: Run) {
    r in s.life && !s.life[r].active && !s.life[r].stopOwner && OwnedByMap(s, n, r)
  }

  lemma UnreapedStays(s: State, l: Label, n: Name, r: Run)
    requires Sound(s) && Enabled(s, l) && Unreaped(s, n, r)
    ensures Unreaped(Apply(s, l), n, r)
  {
    var s' := Apply(s, l);
    StepKeepsSound(s, l);
    var op := LifeOfStep(s, l, r);
    PlaceOfStep(s, l, r);
    OwnerIsPlace(s, r);
    OwnerIsPlace(s', r);
    assert RunOk(s', r);
  }

  lemma UnreapedStep(tr: seq<State>, i: nat, n: Name, r: Run)
    requires Trace(tr) && i + 1 < |tr| && Unreaped(tr[i], n, r)
    ensures Unreaped(tr[i + 1], n, r)
  {
    var l := LabelAt(tr, i);
    UnreapedStays(tr[i], l, n, r);
  }

  lemma {:induction false} UnreapedForGood(tr: seq<State>, i: nat, j: nat, n: Name, r: Run)
    requires Trace(tr) && i <= j < |tr| && Unreaped(tr[i], n, r)
    ensures Unreaped(tr[j], n, r)
    decreases j - i
  {
    if i < j {
      UnreapedStep(tr, i, n, r);
      UnreapedForGood(tr, i + 1, j, n, r);
    }
  }

  /** A VM that exits without a stop in progress is never reaped, and from then on no StartVm, of any
      name, gets past its check of the thread map. */
  lemma NaturalExitBlocksRestart(tr: seq<State>, i: nat, j: nat, n: Name, r: Run, t: Tid)
    requires Trace(tr) && i <= j < |tr| && Unreaped(tr[i], n, r) && t in tr[j].tasks
    ensures OwnedByMap(tr[j], n, r) && !tr[j].tasks[t].StartInstall?
  {
    UnreapedForGood(tr, i, j, n, r);
    RunKeepsSound(tr, j);
    if tr[j].tasks[t].StartInstall? { InstallQuiet(tr[j], t); }
  }

  // ---------- Exactly when a start is refused for ever ----------

  /** StartVm, having seen that no run is active or has a stop owner, is refused for the threads in the map
      if and only if one of them belongs to a run that ended without a stop in progress. */
  lemma RefusedIffUnreaped(tr: seq<State>, i: nat, t: Tid)
    requires Trace(tr) && i < |tr| && t in tr[i].tasks && tr[i].tasks[t].StartCheckThreads?
    ensures Enabled(tr[i], Refuse(t)) <==> exists n, r :: Unreaped(tr[i], n, r)
    ensures Enabled(tr[i], Proceed(t)) <==> !Enabled(tr[i], Refuse(t))
  {
    RunKeepsSound(tr, i);
    ThreadsChecked(tr[i], t);
    LeftIffUnreaped(tr[i]);
  }

  lemma ThreadsChecked(s: State, t: Tid)
    requires Inv(s) && t in s.tasks && s.tasks[t].StartCheckThreads?
    ensures NoneBlocks(s)
    ensures Enabled(s, Refuse(t)) <==> s.vmThreads != map[]
    ensures Enabled(s, Proceed(t)) <==> s.vmThreads == map[]
  {
    assert TaskOk(s, t);
  }

  // When nothing blocks, a thread in the map is one of a run that ended without a stop in progress.
  lemma LeftIffUnreaped(s: State)
    requires Inv(s) && NoneBlocks(s)
    ensures s.vmThreads != map[] <==> exists n, r :: Unreaped(s, n, r)
  {
    if s.vmThreads != map[] {
      var n :| n in s.vmThreads;
      assert !Blocks(s, s.vmThreads[n]);
      assert Unreaped(s, n, s.vmThreads[n]);
    }
    if n, r :| Unreaped(s, n, r) { assert n in s.vmThreads; }
  }

  // The two ways to end without a stop in progress: the runner completes while nobody owns its stop, or the
  // stop of a completed run is given up because its monitor could not be created.
  ghost predicate EndsUnstopped(s: State, l: Label, r: Run) {
    r in s.life &&
    ( || (l.RunnerCall? && l.r == r && l.op.Complete? && !s.life[r].stopOwner)
      || (l.Proceed? && l.t in s.tasks && s.tasks[l.t].StopRelease? && s.tasks[l.t].run == r && !s.life[r].active))
  }

  /** A run becomes unreaped by these steps, while its thread is in the map, and by no others. */
  lemma UnreapedArisesIff(s: State, l: Label, n: Name, r: Run)
    requires Sound(s) && Enabled(s, l) && !Unreaped(s, n, r)
    ensures Unreaped(Apply(s, l), n, r) <==> OwnedByMap(s, n, r) && EndsUnstopped(s, l, r)
  {
    if OwnedByMap(s, n, r) && EndsUnstopped(s, l, r) { EndingUnreaps(s, l, n, r); }
    if Unreaped(Apply(s, l), n, r) {
      if r !in s.life { NewLife(s, l, r); }
      MapBefore(s, l, n, r);
      OnlyEndingUnreaps(s, l, n, r);
    }
  }

  lemma EndingUnreaps(s: State, l: Label, n: Name, r: Run)
    requires Sound(s) && Enabled(s, l) && OwnedByMap(s, n, r) && EndsUnstopped(s, l, r)
    ensures Unreaped(Apply(s, l), n, r)
  {
    if l.Proceed? { GivenUpUnreaps(s, l.t, n, r); }
  }

  lemma GivenUpUnreaps(s: State, t: Tid, n: Name, r: Run)
    requires Enabled(s, Proceed(t)) && s.tasks[t].StopRelease? && s.tasks[t].run == r
    requires r in s.life && !s.life[r].active && OwnedByMap(s, n, r)
    ensures Unreaped(Next(s, t), n, r)
  {
    ReleaseLife(s, t);
  }

  lemma OnlyEndingUnreaps(s: State, l: Label, n: Name, r: Run)
    requires Sound(s) && Enabled(s, l) && r in s.life && OwnedByMap(s, n, r)
    requires s.life[r].active || s.life[r].stopOwner
    requires r in Apply(s, l).life && !Apply(s, l).life[r].active && !Apply(s, l).life[r].stopOwner
    ensures EndsUnstopped(s, l, r)
  {
    if l.Proceed? {
      OnlyReleaseUnreaps(s, l.t, n, r);
    } else if l.Report? {
      ReportEndsNothing(s, l.t, r, l.reason);
    } else if l.RunnerCall? && l.r == r {
      OnlyCompleteEnds(s, r, l.op);
    } else {
      LifeUntouched(s, l, r);
    }
  }

  // Waiting for a run only adds to its error text.
  lemma ReportFails(s: State, t: Tid, reason: string)
    requires Enabled(s, Report(t, reason)) && s.tasks[t].run in s.life
    ensures Apply(s, Report(t, reason)).life == On(s, s.tasks[t].run, L.Fail(reason)).life
  {
  }

  lemma ReportEndsNothing(s: State, t: Tid, r: Run, reason: string)
    requires Enabled(s, Report(t, reason)) && r in s.life && (s.life[r].active || s.life[r].stopOwner)
    ensures r in Apply(s, Report(t, reason)).life
    ensures var life := Apply(s, Report(t, reason)).life[r]; life.active || life.stopOwner
  {
    ReportFails(s, t, reason);
  }

  lemma OnlyCompleteEnds(s: State, r: Run, op: L.Op)
    requires Enabled(s, RunnerCall(r, op)) && r in s.life && (s.life[r].active || s.life[r].stopOwner)
    requires var life := Apply(s, RunnerCall(r, op)).life; r in life && !life[r].active && !life[r].stopOwner
    ensures op.Complete? && !s.life[r].stopOwner
  {
  }

  lemma OnlyReleaseUnreaps(s: State, t: Tid, n: Name, r: Run)
    requires Sound(s) && Enabled(s, Proceed(t)) && r in s.life && OwnedByMap(s, n, r)
    requires s.life[r].active || s.life[r].stopOwner
    requires r in Next(s, t).life && !Next(s, t).life[r].active && !Next(s, t).life[r].stopOwner
    ensures s.tasks[t].StopRelease? && s.tasks[t].run == r && !s.life[r].active
  {
    NotLost(s, t);
    if Silent(s.tasks[t]) {
      Quiet(s, t);
    } else if s.tasks[t].MonitorRelease? {
      ReleasedIsJoined(s, t, r);
    } else if s.tasks[t].StartInstall? {
      InstallKeepsLife(s, t, r);
    } else if s.tasks[t].StopClaim? {
      ClaimSetsOwner(s, t, r);
    } else if s.tasks[t].StopFail? {
      FailKeepsFlags(s, t, r);
    } else {
      ReleaseKeepsActive(s, t, r);
    }
  }

  lemma FailKeepsFlags(s: State, t: Tid, r: Run)
    requires Enabled(s, Proceed(t)) && s.tasks[t].StopFail? && r in s.life
    ensures r in Next(s, t).life
    ensures Next(s, t).life[r].active == s.life[r].active && Next(s, t).life[r].stopOwner == s.life[r].stopOwner
  {
  }

  lemma ReleaseKeepsActive(s: State, t: Tid, r: Run)
    requires Enabled(s, Proceed(t)) && s.tasks[t].StopRelease? && r in s.life
    ensures r in Next(s, t).life
    ensures if s.tasks[t].run == r then Next(s, t).life[r].active == s.life[r].active
            else Next(s, t).life[r] == s.life[r]
  {
  }

  lemma ReleasedIsJoined(s: State, t: Tid, r: Run)
    requires Sound(s) && Enabled(s, Proceed(t)) && s.tasks[t].MonitorRelease? && r in s.life
    ensures s.tasks[t].run != r ==> r in Next(s, t).life && Next(s, t).life[r] == s.life[r]
    ensures s.tasks[t].run == r ==> forall n :: !OwnedByMap(s, n, r)
  {
    ReleasedRun(s, t);
    OwnerIsPlace(s, r);
  }

  lemma InstallKeepsLife(s: State, t: Tid, r: Run)
    requires Inv(s) && Enabled(s, Proceed(t)) && s.tasks[t].StartInstall? && r in s.life
    ensures r in Next(s, t).life && Next(s, t).life[r] == s.life[r]
  {
    InstallCount(s, t, s.tasks[t].name);
  }

  lemma ClaimSetsOwner(s: State, t: Tid, r: Run)
    requires Enabled(s, Proceed(t)) && s.tasks[t].StopClaim? && r in s.life
    ensures r in Next(s, t).life
    ensures if s.tasks[t].run == r then Next(s, t).life[r].stopOwner else Next(s, t).life[r] == s.life[r]
  {
  }

  // ---------- Such a run ----------

  lemma Extend(tr: seq<State>, l: Label) returns (longer: seq<State>)
    requires Trace(tr) && Enabled(tr[|tr| - 1], l)
    ensures Trace(longer) && tr <= longer && longer[|longer| - 1] == Apply(tr[|tr| - 1], l)
  {
    longer := tr + [Apply(tr[|tr| - 1], l)];
    forall i: nat | i < |longer| - 1 ensures NextAt(longer, i) {
      if i < |tr| - 1 {
        assert NextAt(tr, i);
        var k :| Enabled(tr[i], k) && tr[i + 1] == Apply(tr[i], k);
        assert Enabled(longer[i], k) && longer[i + 1] == Apply(longer[i], k);
      } else {
        assert Enabled(longer[i], l) && longer[i + 1] == Apply(longer[i], l);
      }
    }
  }

  // One thread, before any run exists.
  function Fresh(pc: Task, mutex: Option<Tid>): State {
    State(mutex, map[], map[], map[], map[], map[0 := pc], map[], map[], map[])
  }

  // One thread, and one run whose thread is in the map.
  function Installed(pc: Task, mutex: Option<Tid>, life: L.Life, runner: Runner): State {
    State(mutex, map["vm" := 0], map["vm" := 0], map[0 := life], map[0 := runner], map[0 := pc],
          map[0 := InMap("vm")], map[0 := "vm"], map[])
  }

  lemma FreshSteps()
    ensures Enabled(Fresh(Idle, None), CallStart(0, "vm"))
    ensures Apply(Fresh(Idle, None), CallStart(0, "vm")) == Fresh(StartLock("vm"), None)
    ensures Enabled(Fresh(StartLock("vm"), None), Proceed(0))
    ensures Next(Fresh(StartLock("vm"), None), 0) == Fresh(StartCheckSelf("vm"), Some(0))
    ensures Enabled(Fresh(StartCheckSelf("vm"), Some(0)), Proceed(0))
    ensures Next(Fresh(StartCheckSelf("vm"), Some(0)), 0) == Fresh(StartCheckAll("vm", {}), Some(0))
  {
    assert Fresh(StartCheckSelf("vm"), Some(0)).vmRunning.Keys == {};
  }

  lemma CheckSteps()
    ensures Enabled(Fresh(StartCheckAll("vm", {}), Some(0)), Proceed(0))
    ensures Next(Fresh(StartCheckAll("vm", {}), Some(0)), 0) == Fresh(StartCheckThreads("vm"), Some(0))
    ensures Enabled(Fresh(StartCheckThreads("vm"), Some(0)), Proceed(0))
    ensures Next(Fresh(StartCheckThreads("vm"), Some(0)), 0) == Fresh(StartPrepare("vm"), Some(0))
    ensures Enabled(Fresh(StartPrepare("vm"), Some(0)), Proceed(0))
    ensures Next(Fresh(StartPrepare("vm"), Some(0)), 0) == Fresh(StartInstall("vm"), Some(0))
  {
  }

  const ENDED := L.Apply(L.FRESH, L.Complete(0))

  lemma InstallSteps()
    ensures Enabled(Fresh(StartInstall("vm"), Some(0)), Proceed(0))
    ensures Next(Fresh(StartInstall("vm"), Some(0)), 0) == Installed(StartWait("vm", 0), None, L.FRESH, Working)
    ensures Enabled(Installed(StartWait("vm", 0), None, L.FRESH, Working), RunnerCall(0, L.Complete(0)))
    ensures Apply(Installed(StartWait("vm", 0), None, L.FRESH, Working), RunnerCall(0, L.Complete(0)))
         == Installed(StartWait("vm", 0), None, ENDED, Completed)
  {
  }

  lemma AgainSteps()
    ensures Enabled(Installed(StartWait("vm", 0), None, ENDED, Completed), Proceed(0))
    ensures Next(Installed(StartWait("vm", 0), None, ENDED, Completed), 0) == Installed(Idle, None, ENDED, Completed)
    ensures Enabled(Installed(Idle, None, ENDED, Completed), CallStart(0, "vm"))
    ensures Apply(Installed(Idle, None, ENDED, Completed), CallStart(0, "vm"))
         == Installed(StartLock("vm"), None, ENDED, Completed)
    ensures Enabled(Installed(StartLock("vm"), None, ENDED, Completed), Proceed(0))
    ensures Next(Installed(StartLock("vm"), None, ENDED, Completed), 0)
         == Installed(StartCheckSelf("vm"), Some(0), ENDED, Completed)
  {
  }

  lemma RefusedSteps()
    ensures Enabled(Installed(StartCheckSelf("vm"), Some(0), ENDED, Completed), Proceed(0))
    ensures Next(Installed(StartCheckSelf("vm"), Some(0), ENDED, Completed), 0)
         == Installed(StartCheckAll("vm", {"vm"}), Some(0), ENDED, Completed)
    ensures Enabled(Installed(StartCheckAll("vm", {"vm"}), Some(0), ENDED, Completed), Check(0, "vm"))
    ensures Apply(Installed(StartCheckAll("vm", {"vm"}), Some(0), ENDED, Completed), Check(0, "vm"))
         == Installed(StartCheckAll("vm", {}), Some(0), ENDED, Completed)
    ensures Enabled(Installed(StartCheckAll("vm", {}), Some(0), ENDED, Completed), Proceed(0))
    ensures Next(Installed(StartCheckAll("vm", {}), Some(0), ENDED, Completed), 0)
         == Installed(StartCheckThreads("vm"), Some(0), ENDED, Completed)
  {
    assert Installed(StartCheckSelf("vm"), Some(0), ENDED, Completed).vmRunning.Keys == {"vm"};
    assert {"vm"} - {"vm"} == {};
  }

  ghost predicate EndsIn(tr: seq<State>, s: State) {
    Trace(tr) && tr[|tr| - 1] == s
  }

  lemma UncheckedRun() returns (tr: seq<State>)
    ensures EndsIn(tr, Fresh(StartCheckAll("vm", {}), Some(0)))
  {
    FreshSteps();
    tr := [Fresh(Idle, None)];
    tr := Extend(tr, CallStart(0, "vm"));
    tr := Extend(tr, Proceed(0));
    tr := Extend(tr, Proceed(0));
  }

  lemma CheckedRun() returns (tr: seq<State>)
    ensures EndsIn(tr, Fresh(StartInstall("vm"), Some(0)))
  {
    tr := UncheckedRun();
    CheckSteps();
    tr := Extend(tr, Proceed(0));
    tr := Extend(tr, Proceed(0));
    tr := Extend(tr, Proceed(0));
  }

  lemma EndedRun() returns (tr: seq<State>)
    ensures EndsIn(tr, Installed(StartWait("vm", 0), None, ENDED, Completed))
  {
    tr := CheckedRun();
    InstallSteps();
    tr := Extend(tr, Proceed(0));
    tr := Extend(tr, RunnerCall(0, L.Complete(0)));
  }

  lemma SecondCallRun() returns (tr: seq<State>)
    ensures EndsIn(tr, Installed(StartCheckSelf("vm"), Some(0), ENDED, Completed))
  {
    tr := EndedRun();
    AgainSteps();
    tr := Extend(tr, Proceed(0));
    tr := Extend(tr, CallStart(0, "vm"));
    tr := Extend(tr, Proceed(0));
  }

  lemma RefusedRun() returns (tr: seq<State>)
    ensures EndsIn(tr, Installed(StartCheckThreads("vm"), Some(0), ENDED, Completed))
  {
    tr := SecondCallRun();
    RefusedSteps();
    tr := Extend(tr, Proceed(0));
    tr := Extend(tr, Check(0, "vm"));
    tr := Extend(tr, Proceed(0));
  }

  /** A run in which a VM is started, exits by itself, and is then refused for the thread it left behind. */
  lemma NaturalExitHappens() returns (tr: seq<State>)
    ensures Trace(tr) && Unreaped(tr[|tr| - 1], "vm", 0)
    ensures 0 in tr[|tr| - 1].tasks && tr[|tr| - 1].tasks[0] == StartCheckThreads("vm")
    ensures Enabled(tr[|tr| - 1], Refuse(0)) && !Enabled(tr[|tr| - 1], Proceed(0))
  {
    tr := RefusedRun();
    RefusedIffUnreaped(tr, |tr| - 1, 0);
  }
}
