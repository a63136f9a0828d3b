/** An accepted stop of VmOwnership comes to its end: what it waits for can always happen. */
module VmStop {
  import opened Prelude
  import opened VmOwnership
  import L = VmLifecycle

  // The stop of `r` has been accepted and not released.
  ghost predicate Stopping(s: State, r: Run) {
    r in s.life && s.life[r].stopOwner
  }

  // The thread that acts for it: the requester, and then the monitor.
  lemma ActsForStop(s: State, r: Run)
    requires Inv(s) && Stopping(s, r)
    ensures r in s.claimant && s.claimant[r] in s.tasks && r in s.runner
    ensures StopsRun(s.tasks[s.claimant[r]], r) && TaskOk(s, s.claimant[r])
    ensures s.runner[r].Working? <==> s.life[r].active
  {
    assert RunOk(s, r);
  }

  ghost function Actor(s: State, r: Run): (t: Tid)
    requires Inv(s) && Stopping(s, r)
    ensures t in s.tasks && r in s.claimant && t == s.claimant[r]
  {
    ActsForStop(s, r);
    s.claimant[r]
  }

  function TaskRank(pc: Task): nat {
    match pc
    case StopSpawn(_, _) => 6
    case StopFail(_, _) => 2
    case StopRelease(_, _) => 1
    case MonitorLock(_, _) => 5
    case MonitorLookup(_, _) => 4
    case MonitorWait(_, _) => 3
    case MonitorJoin(_, _) => 2
    case MonitorRelease(_) => 1
    case _ => 0
  }

  function RunnerRank(k: Runner): nat {
    match k case Working => 2 case Completed => 1 case Returned => 0
  }

  /** How many steps the stop of `r` and its runner are away from the release. */
  function StopRank(s: State, r: Run): nat
    requires r in s.claimant && s.claimant[r] in s.tasks && r in s.runner
  {
    TaskRank(s.tasks[s.claimant[r]]) + RunnerRank(s.runner[r])
  }

  // ---------- Nothing takes a stop further away from its end ----------

  // What StopRank depends on.
  ghost predicate SameStop(s: State, s': State, r: Run) {
    && r in s.claimant && s.claimant[r] in s.tasks && r in s.runner
    && r in s'.claimant && s'.claimant[r] == s.claimant[r]
    && s.claimant[r] in s'.tasks && s'.tasks[s.claimant[r]] == s.tasks[s.claimant[r]]
    && r in s'.runner && RunnerRank(s'.runner[r]) <= RunnerRank(s.runner[r])
  }

  ghost predicate Nearer(s: State, s': State, r: Run) {
    && r in s.claimant && s.claimant[r] in s.tasks && r in s.runner
    && r in s'.claimant && s'.claimant[r] in s'.tasks && r in s'.runner
    && StopRank(s', r) < StopRank(s, r)
  }

  lemma OtherStart(s: State, u: Tid, r: Run)
    requires Inv(s) && u in s.tasks && IsStart(s.tasks[u]) && CanProceed(s, s.tasks[u])
    requires Stopping(s, r) && r in s.claimant && s.claimant[r] in s.tasks && s.claimant[r] != u
    ensures SameStop(s, StartNext(s, u), r)
  {
    ActsForStop(s, r);
    match s.tasks[u] {
      case StartLock(_) =>
      case StartCheckSelf(_) =>
      case StartCheckAll(_, _) =>
      case StartCheckThreads(_) =>
      case StartPrepare(_) =>
      case StartInstall(_) =>
      case StartWait(_, _) =>
    }
  }

  lemma OtherStop(s: State, u: Tid, r: Run)
    requires Inv(s) && u in s.tasks && IsStop(s.tasks[u]) && CanProceed(s, s.tasks[u])
    requires Stopping(s, r) && r in s.claimant && s.claimant[r] in s.tasks && s.claimant[r] != u
    ensures SameStop(s, StopNext(s, u), r)
  {
    ActsForStop(s, r);
    match s.tasks[u] {
      case StopLock(_) =>
      case StopCheck(_) =>
      case StopClaim(_, _) =>
      case StopFail(_, _) =>
      case StopRelease(_, _) =>
    }
  }

  lemma OtherMonitor(s: State, u: Tid, r: Run)
    requires Inv(s) && u in s.tasks && IsMonitor(s.tasks[u]) && CanProceed(s, s.tasks[u])
    requires Stopping(s, r) && r in s.claimant && s.claimant[r] in s.tasks && s.claimant[r] != u
    ensures SameStop(s, MonitorNext(s, u), r)
  {
    ActsForStop(s, r);
    match s.tasks[u] {
      case MonitorLock(_, _) =>
      case MonitorLookup(_, _) =>
      case MonitorLost(_) =>
      case MonitorWait(_, _) =>
      case MonitorJoin(_, _) =>
      case MonitorRelease(_) =>
    }
  }

  lemma OtherProceeds(s: State, u: Tid, r: Run)
    requires Inv(s) && Enabled(s, Proceed(u)) && Stopping(s, r)
    requires r in s.claimant && s.claimant[r] in s.tasks && s.claimant[r] != u
    ensures SameStop(s, Next(s, u), r)
  {
    if IsStart(s.tasks[u]) {
      OtherStart(s, u, r);
    } else if IsStop(s.tasks[u]) {
      OtherStop(s, u, r);
    } else {
      OtherMonitor(s, u, r);
    }
  }

  // The acting thread goes on: it releases the stop or comes nearer to that.
  lemma ActorProceeds(s: State, t: Tid, r: Run)
    requires Inv(s) && Enabled(s, Proceed(t)) && Stopping(s, r) && r in s.claimant && s.claimant[r] == t
    ensures Stopping(Next(s, t), r) ==> Nearer(s, Next(s, t), r)
  {
    ActsForStop(s, r);
    match s.tasks[t] {
      case StopFail(_, _) =>
      case StopRelease(_, _) =>
      case MonitorLock(_, _) =>
      case MonitorLookup(_, _) =>
      case MonitorWait(_, _) =>
      case MonitorJoin(_, _) =>
      case MonitorRelease(_) =>
    }
  }

  // A step of the thread that acts for the stop of `r`; a reported deadline is not one, the wait goes on.
  ghost predicate ActsFor(s: State, l: Label, r: Run) {
    r in s.claimant &&
    match l
    case Proceed(t) => t == s.claimant[r]
    case Spawn(t, _) => t == s.claimant[r]
    case Refuse(t) => t == s.claimant[r]
    case _ => false
  }

  // A step of the runner on its way out.
  predicate RunnerLeaves(l: Label, r: Run) {
    (l.RunnerCall? && l.r == r && l.op.Complete?) || (l.RunnerReturn? && l.r == r)
  }

  lemma RefuseRank(s: State, u: Tid, r: Run)
    requires Inv(s) && Enabled(s, Refuse(u)) && Stopping(s, r)
    ensures ActsFor(s, Refuse(u), r) ==> Nearer(s, Apply(s, Refuse(u)), r)
    ensures !ActsFor(s, Refuse(u), r) ==> SameStop(s, Apply(s, Refuse(u)), r)
  {
    ActsForStop(s, r);
    assert TaskOk(s, u);
  }

  lemma ActorSpawns(s: State, t: Tid, m: Tid, r: Run)
    requires Inv(s) && Enabled(s, Spawn(t, m)) && Stopping(s, r) && ActsFor(s, Spawn(t, m), r)
    ensures Nearer(s, Apply(s, Spawn(t, m)), r)
  {
    ActsForStop(s, r);
  }

  lemma OtherSpawns(s: State, u: Tid, m: Tid, r: Run)
    requires Inv(s) && Enabled(s, Spawn(u, m)) && Stopping(s, r) && !ActsFor(s, Spawn(u, m), r)
    ensures SameStop(s, Apply(s, Spawn(u, m)), r)
  {
    ActsForStop(s, r);
    assert TaskOk(s, u) && StopsRun(s.tasks[u], s.tasks[u].run);
  }

  lemma RunnerRankFalls(s: State, l: Label, r: Run)
    requires Inv(s) && Enabled(s, l) && Stopping(s, r) && (l.RunnerCall? || l.RunnerReturn?)
    ensures SameStop(s, Apply(s, l), r)
    ensures RunnerLeaves(l, r) ==> Nearer(s, Apply(s, l), r)
  {
    ActsForStop(s, r);
  }

  lemma QuietRank(s: State, l: Label, r: Run)
    requires Inv(s) && Enabled(s, l) && Stopping(s, r) && (l.CallStart? || l.CallStop? || l.Check? || l.Report?)
    ensures SameStop(s, Apply(s, l), r)
  {
    ActsForStop(s, r);
  }

  /** No step of any thread takes an accepted stop further away from its end; every step of the thread that acts
      for it, and every step of its runner on its way out, brings it nearer or ends it. */
  lemma StopIsBounded(s: State, l: Label, r: Run)
    requires Inv(s) && Enabled(s, l) && Stopping(s, r) && Stopping(Apply(s, l), r)
    ensures Nearer(s, Apply(s, l), r) || (SameStop(s, Apply(s, l), r) && !ActsFor(s, l, r) && !RunnerLeaves(l, r))
  {
    ActsForStop(s, r);
    match l {
      case Proceed(u) => if u == s.claimant[r] { ActorProceeds(s, u, r); } else { OtherProceeds(s, u, r); }
      case Refuse(u) => RefuseRank(s, u, r);
      case Spawn(u, m) => if ActsFor(s, l, r) { ActorSpawns(s, u, m, r); } else { OtherSpawns(s, u, m, r); }
      case RunnerCall(_, _) => RunnerRankFalls(s, l, r);
      case RunnerReturn(_) => RunnerRankFalls(s, l, r);
      case CallStart(_, _) => QuietRank(s, l, r);
      case CallStop(_, _) => QuietRank(s, l, r);
      case Check(_, _) => QuietRank(s, l, r);
      case Report(_, _) => QuietRank(s, l, r);
    }
  }

  // ---------- Who holds g_vmMutex ----------

  ghost predicate HolderOk(s: State) {
    s.mutex.Some? ==> s.mutex.value in s.tasks && InCritical(s.tasks[s.mutex.value])
  }

  lemma StartKeepsHolder(s: State, t: Tid)
    requires HolderOk(s) && t in s.tasks && TaskOk(s, t) && IsStart(s.tasks[t]) && CanProceed(s, s.tasks[t])
    ensures HolderOk(StartNext(s, t))
  {
    match s.tasks[t] {
      case StartLock(_) =>
      case StartCheckSelf(_) =>
      case StartCheckAll(_, _) =>
      case StartCheckThreads(_) =>
      case StartPrepare(_) =>
      case StartInstall(_) =>
      case StartWait(_, _) =>
    }
  }

  lemma StopKeepsHolder(s: State, t: Tid)
    requires HolderOk(s) && t in s.tasks && TaskOk(s, t) && IsStop(s.tasks[t]) && CanProceed(s, s.tasks[t])
    ensures HolderOk(StopNext(s, t))
  {
    match s.tasks[t] {
      case StopLock(_) =>
      case StopCheck(_) =>
      case StopClaim(_, _) =>
      case StopFail(_, _) =>
      case StopRelease(_, _) =>
    }
  }

  lemma MonitorKeepsHolder(s: State, t: Tid)
    requires HolderOk(s) && t in s.tasks && TaskOk(s, t) && IsMonitor(s.tasks[t]) && CanProceed(s, s.tasks[t])
    ensures HolderOk(MonitorNext(s, t))
  {
    match s.tasks[t] {
      case MonitorLock(_, _) =>
      case MonitorLookup(_, _) =>
      case MonitorWait(_, _) =>
      case MonitorJoin(_, _) =>
      case MonitorRelease(_) =>
    }
  }

  lemma ProceedKeepsHolder(s: State, t: Tid)
    requires HolderOk(s) && t in s.tasks && TaskOk(s, t) && CanProceed(s, s.tasks[t])
    ensures HolderOk(Next(s, t))
  {
    if IsStart(s.tasks[t]) {
      StartKeepsHolder(s, t);
    } else if IsStop(s.tasks[t]) {
      StopKeepsHolder(s, t);
    } else {
      MonitorKeepsHolder(s, t);
    }
  }

  lemma RefuseKeepsHolder(s: State, t: Tid)
    requires Inv(s) && HolderOk(s) && Enabled(s, Refuse(t))
    ensures HolderOk(Apply(s, Refuse(t)))
  {
    assert TaskOk(s, t);
  }

  lemma StepKeepsHolder(s: State, l: Label)
    requires Inv(s) && HolderOk(s) && Enabled(s, l)
    ensures HolderOk(Apply(s, l))
  {
    match l {
      case Proceed(t) => assert TaskOk(s, t); ProceedKeepsHolder(s, t);
      case Refuse(t) => RefuseKeepsHolder(s, t);
      case Spawn(_, _) =>
      case RunnerCall(_, _) =>
      case RunnerReturn(_) =>
      case CallStart(_, _) =>
      case CallStop(_, _) =>
      case Check(_, _) =>
      case Report(_, _) =>
    }
  }

  lemma HolderStep(tr: seq<State>, i: nat)
    requires Trace(tr) && i + 1 < |tr| && HolderOk(tr[i])
    ensures HolderOk(tr[i + 1])
  {
    var l := LabelAt(tr, i);
    StepKeepsHolder(tr[i], l);
  }

  lemma {:induction false} RunKeepsHolder(tr: seq<State>, i: nat)
    requires Trace(tr) && i < |tr|
    ensures HolderOk(tr[i])
  {
    if i > 0 {
      RunKeepsHolder(tr, i - 1);
      HolderStep(tr, i - 1);
    }
  }

  // ---------- A stop never gets stuck ----------

  // How many steps the holder of g_vmMutex needs to leave it, while a run blocks starts.
  function MutexRank(s: State): nat {
    if s.mutex.None? || s.mutex.value !in s.tasks then 0
    else match s.tasks[s.mutex.value]
      case StartCheckSelf(_) => 3
      case StartCheckAll(_, _) => 2
      case StopCheck(_) => 3
      case StopClaim(_, _) => 2
      case _ => 1
  }

  // The next step of a thread that holds g_vmMutex.
  function LeaveMutex(s: State, u: Tid): Label
    requires u in s.tasks
  {
    if s.tasks[u].StartCheckAll? || !CanProceed(s, s.tasks[u]) then Refuse(u) else Proceed(u)
  }

  ghost predicate Idler(s: State, t: Tid, m: Tid) {
    m in s.tasks && s.tasks[m].Idle? && m != t
  }

  // The monitor thread is created if the system has one to give.
  ghost function SpawnOrFail(s: State, t: Tid): Label {
    if m :| Idler(s, t, m) then Spawn(t, m) else Refuse(t)
  }

  /** A step that the stop of `r` is waiting for. */
  ghost function Owed(s: State, r: Run): Label
    requires Inv(s) && Stopping(s, r)
  {
    ActsForStop(s, r);
    var t := Actor(s, r);
    match s.tasks[t]
    case StopSpawn(_, _) => SpawnOrFail(s, t)
    case MonitorLock(_, _) =>
      if s.mutex.Some? && s.mutex.value in s.tasks then LeaveMutex(s, s.mutex.value) else Proceed(t)
    case MonitorWait(_, _) => if s.life[r].active then RunnerCall(r, L.Complete(0)) else Proceed(t)
    case MonitorJoin(_, _) => if s.runner[r].Returned? then Proceed(t) else RunnerReturn(r)
    case _ => Proceed(t)
  }

  // The stop is over, or nearer to its end, or no further away and the mutex nearer to being free.
  ghost predicate Lower(s: State, s': State, r: Run) {
    || !Stopping(s', r)
    || Nearer(s, s', r)
    || (SameStop(s, s', r) && MutexRank(s') < MutexRank(s))
  }

  lemma OneStopper(s: State, u: Tid, x: Run, r: Run)
    requires Sound(s) && Stopping(s, r) && u in s.tasks && StopsRun(s.tasks[u], x)
    ensures x == r && u == Actor(s, r)
  {
    assert TaskOk(s, u) && Blocks(s, x) && Blocks(s, r);
  }

  lemma LookersSeeBlock(s: State, u: Tid, r: Run)
    requires Inv(s) && Stopping(s, r) && u in s.tasks
    ensures !s.tasks[u].StartCheckThreads? && !s.tasks[u].StartPrepare? && !s.tasks[u].StartInstall?
  {
    assert TaskOk(s, u) && Blocks(s, r);
  }

  // While `r` blocks starts, a thread other than its own stopper is in the critical section only to look.
  lemma OnlyLooks(s: State, u: Tid, r: Run)
    requires Sound(s) && Stopping(s, r) && u in s.tasks && u != Actor(s, r) && InCritical(s.tasks[u])
    ensures s.tasks[u].StartCheckSelf? || s.tasks[u].StartCheckAll? || s.tasks[u].StopCheck? || s.tasks[u].StopClaim?
  {
    ActsForStop(s, r);
    LookersSeeBlock(s, u, r);
    var pc := s.tasks[u];
    if pc.StopSpawn? || pc.StopFail? || pc.StopRelease? || pc.MonitorLookup? { OneStopper(s, u, pc.run, r); }
  }

  // StartVm comes across `r` in the list that it goes through.
  lemma CheckRefuses(s: State, u: Tid, r: Run)
    requires Inv(s) && Stopping(s, r) && u in s.tasks && s.tasks[u].StartCheckAll?
    ensures Enabled(s, Refuse(u))
  {
    assert RunOk(s, r) && TaskOk(s, u) && Blocks(s, r);
    var n := s.nameOf[r];
    assert n in s.tasks[u].todo && Blocks(s, s.vmRunning[n]);
  }

  lemma LookerLeaves(s: State, u: Tid, r: Run)
    requires Sound(s) && Stopping(s, r) && s.mutex == Some(u) && u in s.tasks && InCritical(s.tasks[u])
    requires u != Actor(s, r)
    ensures Enabled(s, LeaveMutex(s, u)) && MutexRank(Apply(s, LeaveMutex(s, u))) < MutexRank(s)
  {
    OnlyLooks(s, u, r);
    assert TaskOk(s, u);
    if s.tasks[u].StartCheckAll? { CheckRefuses(s, u, r); }
    if s.tasks[u].StartCheckAll? || !CanProceed(s, s.tasks[u]) { RefusalLeaves(s, u); } else { GoingOnLeaves(s, u); }
  }

  lemma RefusalLeaves(s: State, u: Tid)
    requires u in s.tasks && s.mutex == Some(u) && TaskOk(s, u)
    requires if s.tasks[u].StartCheckAll? then Enabled(s, Refuse(u))
             else (s.tasks[u].StartCheckSelf? || s.tasks[u].StopCheck? || s.tasks[u].StopClaim?)
                  && !CanProceed(s, s.tasks[u])
    ensures Enabled(s, Refuse(u)) && MutexRank(Apply(s, Refuse(u))) < MutexRank(s)
  {
  }

  lemma GoingOnLeaves(s: State, u: Tid)
    requires u in s.tasks && s.mutex == Some(u) && CanProceed(s, s.tasks[u])
    requires s.tasks[u].StartCheckSelf? || s.tasks[u].StopCheck? || s.tasks[u].StopClaim?
    ensures MutexRank(Next(s, u)) < MutexRank(s)
  {
  }

  lemma LookerOwed(s: State, u: Tid, r: Run)
    requires Sound(s) && Stopping(s, r) && s.mutex == Some(u) && u in s.tasks && InCritical(s.tasks[u])
    requires u != Actor(s, r)
    ensures Enabled(s, LeaveMutex(s, u)) && Lower(s, Apply(s, LeaveMutex(s, u)), r)
  {
    LookerLeaves(s, u, r);
    if Stopping(Apply(s, LeaveMutex(s, u)), r) { StopIsBounded(s, LeaveMutex(s, u), r); }
  }

  lemma RunnerOwed(s: State, r: Run)
    requires Inv(s) && Stopping(s, r) && s.tasks[Actor(s, r)].MonitorWait? && s.life[r].active
    ensures Enabled(s, RunnerCall(r, L.Complete(0)))
  {
    ActsForStop(s, r);
  }

  lemma JoinOwed(s: State, r: Run)
    requires Inv(s) && Stopping(s, r) && s.tasks[Actor(s, r)].MonitorJoin?
    ensures if s.runner[r].Returned? then Enabled(s, Proceed(Actor(s, r))) else Enabled(s, RunnerReturn(r))
  {
    ActsForStop(s, r);
  }

  // What the thread that acts for the stop does next, when it does not wait for the mutex.
  lemma ActorOwed(s: State, r: Run)
    requires Inv(s) && Stopping(s, r) && (s.tasks[Actor(s, r)].MonitorLock? ==> s.mutex.None?)
    ensures Enabled(s, Owed(s, r)) && (ActsFor(s, Owed(s, r), r) || RunnerLeaves(Owed(s, r), r))
  {
    ActsForStop(s, r);
    var t := Actor(s, r);
    match s.tasks[t] {
      case StopSpawn(_, _) =>
      case StopFail(_, _) =>
      case StopRelease(_, _) =>
      case MonitorLock(_, _) =>
      case MonitorLookup(_, _) => assert Waiting(s, s.tasks[t].name, s.tasks[t].run);
      case MonitorWait(_, _) => if s.life[r].active { RunnerOwed(s, r); }
      case MonitorJoin(_, _) => JoinOwed(s, r);
      case MonitorRelease(_) =>
    }
  }

  /** An accepted stop never gets stuck: until it is released, some thread or its runner can take a step that it
      waits for, and that step brings it nearer to its end.  Neither g_vmMutex nor a lost monitor can block it. */
  lemma StopNeverStuck(s: State, r: Run)
    requires Sound(s) && HolderOk(s) && Stopping(s, r)
    ensures Enabled(s, Owed(s, r)) && Lower(s, Apply(s, Owed(s, r)), r)
  {
    ActsForStop(s, r);
    if s.tasks[Actor(s, r)].MonitorLock? && s.mutex.Some? {
      LookerOwed(s, s.mutex.value, r);
    } else {
      ActorOwed(s, r);
      if Stopping(Apply(s, Owed(s, r)), r) { StopIsBounded(s, Owed(s, r), r); }
    }
  }

  // ---------- A stop can always be completed ----------

  // The end of a stop: the runner is joined, or its monitor could not be created and that is recorded.
  ghost predicate Settled(s: State, r: Run) {
    && r in s.life && !s.life[r].stopOwner
    && (Reaped(s, r) || s.life[r].error != "")
  }

  // The step that releases the stop is the last of its monitor, or of a requester that got no monitor.
  lemma ReleaseSettles(s: State, l: Label, r: Run)
    requires Sound(s) && Mapped(s) && Enabled(s, l) && Stopping(s, r) && !Stopping(Apply(s, l), r)
    ensures Settled(Apply(s, l), r)
  {
    ActsForStop(s, r);
    OnlyActorReleases(s, l, r);
    var t := Actor(s, r);
    if s.tasks[t].MonitorRelease? {
      ReleaseReaps(s, t);
      ReleaseLife(s, t);
    } else {
      GiveUpRecords(s, t, r);
    }
  }

  lemma GiveUpRecords(s: State, t: Tid, r: Run)
    requires Inv(s) && Enabled(s, Proceed(t)) && s.tasks[t].StopRelease? && s.tasks[t].run == r && Stopping(s, r)
    ensures Next(s, t).life.Keys == s.life.Keys && !Next(s, t).life[r].stopOwner && Next(s, t).life[r].error != ""
  {
    assert TaskOk(s, t);
    ReleaseLife(s, t);
  }

  lemma OnlyActorReleases(s: State, l: Label, r: Run)
    requires Sound(s) && Enabled(s, l) && Stopping(s, r) && !Stopping(Apply(s, l), r)
    ensures l == Proceed(Actor(s, r))
    ensures s.tasks[Actor(s, r)].MonitorRelease? || s.tasks[Actor(s, r)].StopRelease?
  {
    ActsForStop(s, r);
    if l.Proceed? {
      ProceedReleases(s, l.t, r);
    } else if l.Report? {
      ReportFails(s, l.t, l.reason);
    } else if l.RunnerCall? && l.r == r {
    } else {
      LifeUntouched(s, l, r);
    }
  }

  lemma ProceedReleases(s: State, t: Tid, r: Run)
    requires Sound(s) && Enabled(s, Proceed(t)) && Stopping(s, r) && !Stopping(Next(s, t), r)
    ensures t == Actor(s, r) && (s.tasks[t].MonitorRelease? || s.tasks[t].StopRelease?)
  {
    NotLost(s, t);
    if Silent(s.tasks[t]) {
      Quiet(s, t);
    } else if s.tasks[t].StartInstall? {
      InstallKeepsLife(s, t, r);
    } else {
      CallReleases(s, t, r);
    }
  }

  lemma CallReleases(s: State, t: Tid, r: Run)
    requires Inv(s) && Enabled(s, Proceed(t)) && Stopping(s, r) && !Stopping(Next(s, t), r)
    requires !Silent(s.tasks[t]) && !s.tasks[t].StartInstall? && !s.tasks[t].MonitorLost?
    ensures t == Actor(s, r) && (s.tasks[t].MonitorRelease? || s.tasks[t].StopRelease?)
  {
    match s.tasks[t] {
      case StopClaim(_, _) => ClaimLife(s, t);
      case StopFail(_, _) => FailLife(s, t);
      case StopRelease(_, run) => ReleaseLife(s, t); assert TaskOk(s, t) && StopsRun(s.tasks[t], run);
      case MonitorRelease(run) => ReleaseLife(s, t); assert TaskOk(s, t) && StopsRun(s.tasks[t], run);
    }
  }

  // A step that settles the stop or brings it nearer to its end.
  ghost predicate Advances(s: State, s': State, r: Run) {
    Lower(s, s', r) && (Stopping(s', r) || Settled(s', r))
  }

  lemma OwedAdvances(s: State, r: Run)
    requires Sound(s) && HolderOk(s) && Mapped(s) && Stopping(s, r)
    ensures Enabled(s, Owed(s, r)) && Advances(s, Apply(s, Owed(s, r)), r)
  {
    StopNeverStuck(s, r);
    if !Stopping(Apply(s, Owed(s, r)), r) { ReleaseSettles(s, Owed(s, r), r); }
  }

  lemma LastIsSound(tr: seq<State>)
    requires Trace(tr)
    ensures Sound(tr[|tr| - 1]) && HolderOk(tr[|tr| - 1]) && Mapped(tr[|tr| - 1])
  {
    RunKeepsSound(tr, |tr| - 1);
    RunKeepsHolder(tr, |tr| - 1);
    RunKeepsMapped(tr, |tr| - 1);
  }

  lemma CanAdvance(tr: seq<State>, r: Run) returns (l: Label)
    requires Trace(tr) && Stopping(tr[|tr| - 1], r)
    ensures Enabled(tr[|tr| - 1], l) && Advances(tr[|tr| - 1], Apply(tr[|tr| - 1], l), r)
  {
    LastIsSound(tr);
    OwedAdvances(tr[|tr| - 1], r);
    l := Owed(tr[|tr| - 1], r);
  }

  // The owed step, taken.
  lemma TakeOwed(tr: seq<State>, r: Run) returns (longer: seq<State>)
    requires Trace(tr) && Stopping(tr[|tr| - 1], r)
    ensures Trace(longer) && tr <= longer && Advances(tr[|tr| - 1], longer[|longer| - 1], r)
  {
    var l := CanAdvance(tr, r);
    longer := Extend(tr, l);
  }

  ghost function StopRankAt(tr: seq<State>, r: Run): (n: nat)
    requires Trace(tr) && Stopping(tr[|tr| - 1], r)
    ensures var s := tr[|tr| - 1];
      r in s.claimant && s.claimant[r] in s.tasks && r in s.runner && n == StopRank(s, r)
  {
    RunKeepsSound(tr, |tr| - 1);
    ActsForStop(tr[|tr| - 1], r);
    StopRank(tr[|tr| - 1], r)
  }

  /** From every state a run can reach while a stop is accepted, the run can be completed to one in which the stop
      is released, with the runner joined or the failure to create its monitor recorded. */
  lemma {:induction false} StopCompletes(tr: seq<State>, r: Run) returns (longer: seq<State>)
    requires Trace(tr) && Stopping(tr[|tr| - 1], r)
    ensures Trace(longer) && tr <= longer && Settled(longer[|longer| - 1], r)
    decreases StopRankAt(tr, r), MutexRank(tr[|tr| - 1])
  {
    longer := TakeOwed(tr, r);
    if Stopping(longer[|longer| - 1], r) {
      LowerRank(tr, longer, r);
      longer := StopCompletes(longer, r);
    }
  }

  lemma LowerRank(tr: seq<State>, longer: seq<State>, r: Run)
    requires Trace(tr) && Stopping(tr[|tr| - 1], r) && Trace(longer) && Stopping(longer[|longer| - 1], r)
    requires Lower(tr[|tr| - 1], longer[|longer| - 1], r)
    ensures StopRankAt(longer, r) < StopRankAt(tr, r)
            || (StopRankAt(longer, r) == StopRankAt(tr, r) && MutexRank(longer[|longer| - 1]) < MutexRank(tr[|tr| - 1]))
  {
    var s, s' := tr[|tr| - 1], longer[|longer| - 1];
    if SameStop(s, s', r) { assert StopRank(s', r) <= StopRank(s, r); }
  }
}
