/** What StartVm and RequestVmStop achieve in VmOwnership: a start that nothing refuses installs a run, a stop of an
    active run is accepted, and a startup timeout leads to a stop. */
module VmStart {
  import opened Prelude
  import opened VmOwnership
  import opened VmStop
  import L = VmLifecycle

  function Last(tr: seq<State>): State
    requires tr != []
  {
    tr[|tr| - 1]
  }

  // ---------- g_vmMutex is freed ----------

  // How many steps the holder of the mutex needs to leave it.
  function LeaveRank(s: State, pc: Task): nat {
    match pc
    case StartCheckSelf(_) => |s.vmRunning.Keys| + 4
    case StartCheckAll(_, todo) => |todo| + 3
    case StartCheckThreads(_) => 2
    case StartPrepare(_) => 1
    case StartInstall(_) => 1
    case StopCheck(_) => 5
    case StopClaim(_, _) => 4
    case StopSpawn(_, _) => 3
    case StopFail(_, _) => 2
    case StopRelease(_, _) => 1
    case MonitorLookup(_, _) => 1
    case _ => 0
  }

  // The next step of the holder.
  ghost function HolderLabel(s: State, u: Tid): Label
    requires u in s.tasks
  {
    match s.tasks[u]
    case StartCheckAll(_, todo) =>
      if n :| n in todo && n in s.vmRunning && !Blocks(s, s.vmRunning[n]) then Check(u, n)
      else if todo == {} then Proceed(u) else Refuse(u)
    case StartPrepare(_) => Refuse(u)
    case StopSpawn(_, _) => Refuse(u)
    case pc => if CanProceed(s, pc) then Proceed(u) else Refuse(u)
  }

  // A step of `u`, and of nobody else.
  ghost predicate StepOf(s: State, s': State, u: Tid) {
    forall t :: t in s.tasks && t != u ==> t in s'.tasks && s'.tasks[t] == s.tasks[t]
  }

  // After the step the mutex is free, or `u` is nearer to leaving it.
  ghost predicate Leaves(s: State, s': State, u: Tid)
    requires u in s.tasks
  {
    && StepOf(s, s', u)
    && (s'.mutex.None? || (s'.mutex == Some(u) && u in s'.tasks && InCritical(s'.tasks[u])
                           && LeaveRank(s', s'.tasks[u]) < LeaveRank(s, s.tasks[u])))
  }

  lemma CheckAllLeaves(s: State, u: Tid)
    requires Inv(s) && u in s.tasks && s.mutex == Some(u) && s.tasks[u].StartCheckAll?
    ensures Enabled(s, HolderLabel(s, u)) && Leaves(s, Apply(s, HolderLabel(s, u)), u)
  {
    assert TaskOk(s, u);
    var todo := s.tasks[u].todo;
    if n :| n in todo && n in s.vmRunning && !Blocks(s, s.vmRunning[n]) {
      assert HolderLabel(s, u).Check?;
    } else if todo != {} {
      var n :| n in todo;
      assert n in s.vmRunning && Blocks(s, s.vmRunning[n]);
    }
  }

  lemma StartLeaves(s: State, u: Tid)
    requires Inv(s) && u in s.tasks && s.mutex == Some(u)
    requires s.tasks[u].StartCheckSelf? || s.tasks[u].StartCheckThreads? || s.tasks[u].StartPrepare?
             || s.tasks[u].StartInstall?
    ensures Enabled(s, HolderLabel(s, u)) && Leaves(s, Apply(s, HolderLabel(s, u)), u)
  {
    match s.tasks[u] {
      case StartCheckSelf(_) =>
      case StartCheckThreads(_) =>
      case StartPrepare(_) =>
      case StartInstall(_) =>
    }
  }

  lemma CheckRefusedLeaves(s: State, u: Tid)
    requires u in s.tasks && s.mutex == Some(u) && s.tasks[u].StopCheck? && !CanProceed(s, s.tasks[u])
    ensures HolderLabel(s, u) == Refuse(u) && Enabled(s, Refuse(u)) && Leaves(s, Apply(s, Refuse(u)), u)
  {
  }

  lemma CheckPassedLeaves(s: State, u: Tid)
    requires u in s.tasks && s.mutex == Some(u) && s.tasks[u].StopCheck? && CanProceed(s, s.tasks[u])
    ensures HolderLabel(s, u) == Proceed(u) && Leaves(s, Next(s, u), u)
  {
  }

  lemma CheckLeaves(s: State, u: Tid)
    requires u in s.tasks && s.mutex == Some(u) && s.tasks[u].StopCheck?
    ensures Enabled(s, HolderLabel(s, u)) && Leaves(s, Apply(s, HolderLabel(s, u)), u)
  {
    if CanProceed(s, s.tasks[u]) { CheckPassedLeaves(s, u); } else { CheckRefusedLeaves(s, u); }
  }

  lemma ClaimRefusedLeaves(s: State, u: Tid)
    requires u in s.tasks && s.mutex == Some(u) && s.tasks[u].StopClaim? && s.tasks[u].run in s.life
    requires !L.Accepts(s.life[s.tasks[u].run], L.ClaimStop)
    ensures HolderLabel(s, u) == Refuse(u) && Enabled(s, Refuse(u)) && Leaves(s, Apply(s, Refuse(u)), u)
  {
  }

  lemma ClaimAcceptedLeaves(s: State, u: Tid)
    requires u in s.tasks && s.mutex == Some(u) && s.tasks[u].StopClaim? && s.tasks[u].run in s.life
    requires L.Accepts(s.life[s.tasks[u].run], L.ClaimStop)
    ensures HolderLabel(s, u) == Proceed(u) && Enabled(s, Proceed(u)) && Leaves(s, Next(s, u), u)
  {
  }

  lemma ClaimLeaves(s: State, u: Tid)
    requires u in s.tasks && s.mutex == Some(u) && s.tasks[u].StopClaim? && s.tasks[u].run in s.life
    ensures Enabled(s, HolderLabel(s, u)) && Leaves(s, Apply(s, HolderLabel(s, u)), u)
  {
    if L.Accepts(s.life[s.tasks[u].run], L.ClaimStop) { ClaimAcceptedLeaves(s, u); } else { ClaimRefusedLeaves(s, u); }
  }

  lemma SpawnRefusedLeaves(s: State, u: Tid)
    requires u in s.tasks && s.mutex == Some(u) && s.tasks[u].StopSpawn?
    ensures Enabled(s, HolderLabel(s, u)) && Leaves(s, Apply(s, HolderLabel(s, u)), u)
  {
  }

  lemma FailLeaves(s: State, u: Tid)
    requires u in s.tasks && s.mutex == Some(u) && s.tasks[u].StopFail? && s.tasks[u].run in s.life
    ensures Enabled(s, HolderLabel(s, u)) && Leaves(s, Apply(s, HolderLabel(s, u)), u)
  {
  }

  lemma GivenUpLeaves(s: State, u: Tid)
    requires u in s.tasks && s.mutex == Some(u) && s.tasks[u].StopRelease? && s.tasks[u].run in s.life
    ensures Enabled(s, HolderLabel(s, u)) && Leaves(s, Apply(s, HolderLabel(s, u)), u)
  {
  }

  lemma StopLeaves(s: State, u: Tid)
    requires Inv(s) && u in s.tasks && s.mutex == Some(u)
    requires s.tasks[u].StopCheck? || s.tasks[u].StopClaim? || s.tasks[u].StopSpawn? || s.tasks[u].StopFail?
             || s.tasks[u].StopRelease?
    ensures Enabled(s, HolderLabel(s, u)) && Leaves(s, Apply(s, HolderLabel(s, u)), u)
  {
    assert TaskOk(s, u);
    if s.tasks[u].StopCheck? {
      CheckLeaves(s, u);
    } else if s.tasks[u].StopClaim? {
      ClaimLeaves(s, u);
    } else if s.tasks[u].StopSpawn? {
      SpawnRefusedLeaves(s, u);
    } else {
      assert StopsRun(s.tasks[u], s.tasks[u].run);
      if s.tasks[u].StopFail? { FailLeaves(s, u); } else { GivenUpLeaves(s, u); }
    }
  }

  lemma LookupLeaves(s: State, u: Tid)
    requires Inv(s) && u in s.tasks && s.mutex == Some(u) && s.tasks[u].MonitorLookup?
    ensures Enabled(s, HolderLabel(s, u)) && Leaves(s, Apply(s, HolderLabel(s, u)), u)
  {
    assert TaskOk(s, u);
    assert Waiting(s, s.tasks[u].name, s.tasks[u].run);
  }

  lemma HolderLeaves(s: State, u: Tid)
    requires Inv(s) && u in s.tasks && s.mutex == Some(u) && InCritical(s.tasks[u])
    ensures Enabled(s, HolderLabel(s, u)) && Leaves(s, Apply(s, HolderLabel(s, u)), u)
  {
    if s.tasks[u].StartCheckAll? {
      CheckAllLeaves(s, u);
    } else if s.tasks[u].MonitorLookup? {
      LookupLeaves(s, u);
    } else if IsStart(s.tasks[u]) {
      StartLeaves(s, u);
    } else {
      StopLeaves(s, u);
    }
  }

  // The mutex is freed by its holder; a thread that is not in a critical section stays where it is.
  lemma {:induction false} MutexIsFreed(tr: seq<State>, t: Tid) returns (longer: seq<State>)
    requires Trace(tr) && t in Last(tr).tasks && !InCritical(Last(tr).tasks[t])
    ensures Trace(longer) && tr <= longer && Last(longer).mutex.None?
    ensures t in Last(longer).tasks && Last(longer).tasks[t] == Last(tr).tasks[t]
    decreases if Last(tr).mutex.Some? && Last(tr).mutex.value in Last(tr).tasks
              then 1 + LeaveRank(Last(tr), Last(tr).tasks[Last(tr).mutex.value]) else 0
  {
    longer := tr;
    if Last(tr).mutex.Some? {
      var next := HolderSteps(tr, t);
      longer := MutexIsFreed(next, t);
    }
  }

  lemma HolderSteps(tr: seq<State>, t: Tid) returns (longer: seq<State>)
    requires Trace(tr) && t in Last(tr).tasks && !InCritical(Last(tr).tasks[t]) && Last(tr).mutex.Some?
    ensures Trace(longer) && tr <= longer && t in Last(longer).tasks && Last(longer).tasks[t] == Last(tr).tasks[t]
    ensures Last(tr).mutex.value in Last(tr).tasks && Leaves(Last(tr), Last(longer), Last(tr).mutex.value)
  {
    RunKeepsSound(tr, |tr| - 1);
    RunKeepsHolder(tr, |tr| - 1);
    var u := Last(tr).mutex.value;
    HolderLeaves(Last(tr), u);
    longer := Extend(tr, HolderLabel(Last(tr), u));
  }

  // ---------- A stop of an active run is accepted ----------

  // Nobody is in a critical section, and `t` is about to enter one to stop `name`.
  lemma StopIsChecked(tr: seq<State>, t: Tid, name: Name) returns (longer: seq<State>)
    requires Trace(tr) && t in Last(tr).tasks && Last(tr).tasks[t] == StopLock(name) && Last(tr).mutex.None?
    requires name in Last(tr).vmRunning && Last(tr).vmRunning[name] in Last(tr).life
    requires Last(tr).life[Last(tr).vmRunning[name]].active
    ensures Trace(longer) && tr <= longer && Stopping(Last(longer), Last(tr).vmRunning[name])
  {
    var run := Last(tr).vmRunning[name];
    var a := LocksToStop(tr, t, name);
    var b := Extend(a, Proceed(t));
    assert Last(b).tasks[t] == StopClaim(name, run) && Last(b).life == Last(tr).life;
    longer := b;
    if !Last(b).life[run].stopOwner { longer := ClaimsStop(b, t, name, run); }
  }

  lemma LocksToStop(tr: seq<State>, t: Tid, name: Name) returns (longer: seq<State>)
    requires Trace(tr) && t in Last(tr).tasks && Last(tr).tasks[t] == StopLock(name) && Last(tr).mutex.None?
    ensures Trace(longer) && tr <= longer && t in Last(longer).tasks && Last(longer).tasks[t] == StopCheck(name)
    ensures Last(longer).life == Last(tr).life && Last(longer).vmRunning == Last(tr).vmRunning
    ensures Last(longer).mutex == Some(t)
  {
    longer := Extend(tr, Proceed(t));
  }

  lemma ClaimsStop(tr: seq<State>, t: Tid, name: Name, run: Run) returns (longer: seq<State>)
    requires Trace(tr) && t in Last(tr).tasks && Last(tr).tasks[t] == StopClaim(name, run)
    requires run in Last(tr).life && Last(tr).life[run].active && !Last(tr).life[run].stopOwner
    ensures Trace(longer) && tr <= longer && Stopping(Last(longer), run)
  {
    longer := Extend(tr, Proceed(t));
    ClaimLife(Last(tr), t);
  }

  /** A stop request for an active run is accepted: from every reachable state with an idle thread, the run can be
      extended to one in which the run that is active under that name now is inactive or has a stop owner. */
  lemma StopIsAccepted(tr: seq<State>, t: Tid, name: Name) returns (longer: seq<State>)
    requires Trace(tr) && t in Last(tr).tasks && Last(tr).tasks[t].Idle? && Last(tr).mutex.None?
    requires name in Last(tr).vmRunning && Last(tr).vmRunning[name] in Last(tr).life
    requires Last(tr).life[Last(tr).vmRunning[name]].active
    ensures Trace(longer) && tr <= longer && Stopping(Last(longer), Last(tr).vmRunning[name])
  {
    var next := Extend(tr, CallStop(t, name));
    longer := StopIsChecked(next, t, name);
  }

  // ---------- A startup timeout stops the VM ----------

  // A thread that waits for a run waits under the name of that run.
  ghost predicate WaitsByName(s: State) {
    forall t :: t in s.tasks && s.tasks[t].StartWait? ==>
      s.tasks[t].run in s.nameOf && s.nameOf[s.tasks[t].run] == s.tasks[t].name
  }

  lemma OthersNoNewWait(s: State, l: Label)
    requires Enabled(s, l) && !l.Proceed? && !l.Refuse? && !l.Spawn? && !l.Report?
    ensures NoNewWait(s, Apply(s, l))
  {
    match l {
      case RunnerCall(_, _) =>
      case RunnerReturn(_) =>
      case CallStart(_, _) =>
      case CallStop(_, _) =>
      case Check(_, _) =>
    }
  }

  lemma RefuseNoNewWait(s: State, t: Tid)
    requires Enabled(s, Refuse(t))
    ensures NoNewWait(s, Apply(s, Refuse(t)))
  {
    if s.tasks[t].StopSpawn? || s.tasks[t].MonitorLookup? {
      RefuseMovesOn(s, t);
    } else {
      RefuseLeavesNames(s, t);
    }
  }

  lemma RefuseMovesOn(s: State, t: Tid)
    requires Enabled(s, Refuse(t)) && (s.tasks[t].StopSpawn? || s.tasks[t].MonitorLookup?)
    ensures NoNewWait(s, Apply(s, Refuse(t)))
  {
  }

  lemma RefuseLeavesNames(s: State, t: Tid)
    requires Enabled(s, Refuse(t)) && !s.tasks[t].StopSpawn? && !s.tasks[t].MonitorLookup?
    ensures NoNewWait(s, Apply(s, Refuse(t)))
  {
    RefuseLeaves(s, t);
  }

  lemma SpawnNoNewWait(s: State, t: Tid, m: Tid)
    requires Enabled(s, Spawn(t, m))
    ensures NoNewWait(s, Apply(s, Spawn(t, m)))
  {
  }

  lemma ReportNoNewWait(s: State, t: Tid, reason: string)
    requires Enabled(s, Report(t, reason))
    ensures NoNewWait(s, Apply(s, Report(t, reason)))
  {
  }

  // Only an installation makes a thread wait for a run.
  lemma StepNoNewWait(s: State, l: Label)
    requires Enabled(s, l) && (l.Proceed? ==> !s.tasks[l.t].StartInstall?)
    ensures NoNewWait(s, Apply(s, l))
  {
    match l {
      case Proceed(t) => NamesKept(s, t);
      case Refuse(t) => RefuseNoNewWait(s, t);
      case Spawn(t, m) => SpawnNoNewWait(s, t, m);
      case Report(t, reason) => ReportNoNewWait(s, t, reason);
      case _ => OthersNoNewWait(s, l);
    }
  }

  lemma StepWaitsByName(s: State, l: Label)
    requires Inv(s) && WaitsByName(s) && Enabled(s, l)
    ensures WaitsByName(Apply(s, l))
  {
    if l.Proceed? && s.tasks[l.t].StartInstall? {
      assert FreshRun(s) !in s.life;
    } else {
      StepNoNewWait(s, l);
    }
  }

  lemma NamesKept(s: State, t: Tid)
    requires t in s.tasks && CanProceed(s, s.tasks[t]) && !s.tasks[t].StartInstall?
    ensures NoNewWait(s, Next(s, t))
  {
    if IsStart(s.tasks[t]) {
      StartKeepsNames(s, t);
    } else if IsStop(s.tasks[t]) {
      StopKeepsNames(s, t);
    } else {
      MonitorKeepsNames(s, t);
    }
  }

  // No thread begins to wait for a run.
  ghost predicate NoNewWait(s: State, s': State) {
    && s'.nameOf == s.nameOf
    && forall u :: u in s'.tasks && s'.tasks[u].StartWait? ==> u in s.tasks && s.tasks[u] == s'.tasks[u]
  }

  lemma StartKeepsNames(s: State, t: Tid)
    requires t in s.tasks && IsStart(s.tasks[t]) && !s.tasks[t].StartInstall?
    ensures NoNewWait(s, StartNext(s, t))
  {
    if s.tasks[t].StartLock? || s.tasks[t].StartCheckSelf? || s.tasks[t].StartCheckAll? {
      CheckKeepsNames(s, t);
    } else {
      PrepareKeepsNames(s, t);
    }
  }

  lemma CheckKeepsNames(s: State, t: Tid)
    requires t in s.tasks && (s.tasks[t].StartLock? || s.tasks[t].StartCheckSelf? || s.tasks[t].StartCheckAll?)
    ensures NoNewWait(s, StartNext(s, t))
  {
  }

  lemma PrepareKeepsNames(s: State, t: Tid)
    requires t in s.tasks && (s.tasks[t].StartCheckThreads? || s.tasks[t].StartPrepare? || s.tasks[t].StartWait?)
    ensures NoNewWait(s, StartNext(s, t))
  {
  }

  lemma StopKeepsNames(s: State, t: Tid)
    requires t in s.tasks && IsStop(s.tasks[t]) && CanProceed(s, s.tasks[t])
    ensures NoNewWait(s, StopNext(s, t))
  {
    if s.tasks[t].StopLock? || s.tasks[t].StopCheck? { RequestKeepsNames(s, t); } else { ClaimKeepsNames(s, t); }
  }

  lemma RequestKeepsNames(s: State, t: Tid)
    requires t in s.tasks && (s.tasks[t].StopLock? || s.tasks[t].StopCheck?) && CanProceed(s, s.tasks[t])
    ensures NoNewWait(s, StopNext(s, t))
  {
  }

  lemma ClaimKeepsNames(s: State, t: Tid)
    requires t in s.tasks && (s.tasks[t].StopClaim? || s.tasks[t].StopFail? || s.tasks[t].StopRelease?)
    requires CanProceed(s, s.tasks[t])
    ensures NoNewWait(s, StopNext(s, t))
  {
  }

  lemma LockKeepsNames(s: State, t: Tid)
    requires t in s.tasks && CanProceed(s, s.tasks[t])
    requires s.tasks[t].MonitorLock? || s.tasks[t].MonitorWait? || s.tasks[t].MonitorJoin?
    ensures NoNewWait(s, MonitorNext(s, t))
  {
    match s.tasks[t] {
      case MonitorLock(_, _) =>
      case MonitorWait(_, _) =>
      case MonitorJoin(_, _) =>
    }
  }

  lemma LookupKeepsNames(s: State, t: Tid)
    requires t in s.tasks && CanProceed(s, s.tasks[t]) && s.tasks[t].MonitorLookup?
    ensures NoNewWait(s, MonitorNext(s, t))
  {
  }

  lemma EndKeepsNames(s: State, t: Tid)
    requires t in s.tasks && CanProceed(s, s.tasks[t]) && (s.tasks[t].MonitorRelease? || s.tasks[t].MonitorLost?)
    ensures NoNewWait(s, MonitorNext(s, t))
  {
  }

  lemma MonitorKeepsNames(s: State, t: Tid)
    requires t in s.tasks && IsMonitor(s.tasks[t]) && CanProceed(s, s.tasks[t])
    ensures NoNewWait(s, MonitorNext(s, t))
  {
    if s.tasks[t].MonitorLookup? {
      LookupKeepsNames(s, t);
    } else if s.tasks[t].MonitorRelease? || s.tasks[t].MonitorLost? {
      EndKeepsNames(s, t);
    } else {
      LockKeepsNames(s, t);
    }
  }

  lemma {:induction false} RunWaitsByName(tr: seq<State>, i: nat)
    requires Trace(tr) && i < |tr|
    ensures WaitsByName(tr[i])
  {
    if i > 0 {
      RunWaitsByName(tr, i - 1);
      var l := LabelAt(tr, i - 1);
      StepWaitsByName(tr[i - 1], l);
    }
  }

  /** A startup timeout leads to a stop: from every reachable state in which a thread waits for its run to start, and
      reports a failure, the run can be extended to one in which the run has the failure in its record, and is
      inactive or has a stop owner. */
  lemma TimeoutStops(tr: seq<State>, t: Tid, name: Name, run: Run, reason: string) returns (longer: seq<State>)
    requires Trace(tr) && t in Last(tr).tasks && Last(tr).tasks[t] == StartWait(name, run) && reason != ""
    ensures Trace(longer) && tr <= longer && run in Last(longer).life
    ensures Last(longer).life[run].error != "" && (!Last(longer).life[run].active || Last(longer).life[run].stopOwner)
  {
    var a := Reports(tr, t, name, run, reason);
    var b := MutexIsFreed(a, t);
    FailureStays(a, b, run, name);
    longer := b;
    if Last(b).life[run].active {
      StillListed(b, run, name);
      longer := StopIsChecked(b, t, name);
      FailureStays(b, longer, run, name);
    }
  }

  lemma ReportedState(s: State, t: Tid, name: Name, run: Run, reason: string)
    requires Inv(s) && WaitsByName(s) && t in s.tasks && s.tasks[t] == StartWait(name, run) && reason != ""
    ensures Enabled(s, Report(t, reason)) && run in s.life
    ensures var s' := Apply(s, Report(t, reason));
      t in s'.tasks && s'.tasks[t] == StopLock(name) && Failed(s', run, name)
  {
    assert TaskOk(s, t);
    ReportFails(s, t, reason);
    L.AppendGrows(s.life[run].error, reason);
  }

  // A failure of the run is on record.
  ghost predicate Failed(s: State, run: Run, name: Name) {
    run in s.life && s.life[run].error != "" && run in s.nameOf && s.nameOf[run] == name
  }

  lemma Reports(tr: seq<State>, t: Tid, name: Name, run: Run, reason: string) returns (longer: seq<State>)
    requires Trace(tr) && t in Last(tr).tasks && Last(tr).tasks[t] == StartWait(name, run) && reason != ""
    ensures Trace(longer) && tr <= longer && t in Last(longer).tasks && Last(longer).tasks[t] == StopLock(name)
    ensures Failed(Last(longer), run, name)
  {
    RunKeepsSound(tr, |tr| - 1);
    RunWaitsByName(tr, |tr| - 1);
    ReportedState(Last(tr), t, name, run, reason);
    longer := Extend(tr, Report(t, reason));
  }

  // A run that is active is in g_vmRunning under its name.
  lemma StillListed(tr: seq<State>, run: Run, name: Name)
    requires Trace(tr) && run in Last(tr).life && Last(tr).life[run].active
    requires run in Last(tr).nameOf && Last(tr).nameOf[run] == name
    ensures name in Last(tr).vmRunning && Last(tr).vmRunning[name] == run
  {
    RunKeepsSound(tr, |tr| - 1);
    assert RunOk(Last(tr), run) && Blocks(Last(tr), run);
  }

  lemma FailureStays(tr: seq<State>, longer: seq<State>, run: Run, name: Name)
    requires tr != [] && Trace(longer) && tr <= longer && Failed(Last(tr), run, name)
    ensures Failed(Last(longer), run, name)
  {
    FailureAt(longer, |tr| - 1, |longer| - 1, run, name);
  }

  lemma {:induction false} FailureAt(tr: seq<State>, i: nat, j: nat, run: Run, name: Name)
    requires Trace(tr) && i <= j < |tr| && Failed(tr[i], run, name)
    ensures Failed(tr[j], run, name)
    decreases j - i
  {
    if i < j {
      FailureAt(tr, i, j - 1, run, name);
      FailureNext(tr, j - 1, run, name);
    }
  }

  lemma FailureNext(tr: seq<State>, i: nat, run: Run, name: Name)
    requires Trace(tr) && i + 1 < |tr| && Failed(tr[i], run, name)
    ensures Failed(tr[i + 1], run, name)
  {
    var l := LabelAt(tr, i);
    FailureStep(tr[i], l, run, name);
  }

  lemma FailureStep(s: State, l: Label, run: Run, name: Name)
    requires Sound(s) && Enabled(s, l) && Failed(s, run, name)
    ensures Failed(Apply(s, l), run, name)
  {
    var op := LifeOfStep(s, l, run);
    if op.Some? { L.CallKeeps(s.life[run], op.value); }
    NameStays(s, l, run);
  }

  lemma NameStays(s: State, l: Label, run: Run)
    requires Inv(s) && Enabled(s, l) && run in s.nameOf && run in s.life
    ensures run in Apply(s, l).nameOf && Apply(s, l).nameOf[run] == s.nameOf[run]
  {
    if l.Proceed? && s.tasks[l.t].StartInstall? {
      assert FreshRun(s) !in s.life;
    } else {
      StepNoNewWait(s, l);
    }
  }

  // ---------- A start that nothing refuses ----------

  // `t` is at `pc`, holds the mutex, and nothing is in the way of a start.
  ghost predicate Starting(s: State, t: Tid, pc: Task) {
    && t in s.tasks && s.tasks[t] == pc && s.mutex == Some(t)
    && s.vmThreads == map[] && forall r :: r in s.life ==> !Blocks(s, r)
  }

  lemma StartLocks(tr: seq<State>, t: Tid, name: Name) returns (longer: seq<State>)
    requires Trace(tr) && t in Last(tr).tasks && Last(tr).tasks[t].Idle? && Last(tr).mutex.None?
    requires Last(tr).vmThreads == map[] && forall r :: r in Last(tr).life ==> !Blocks(Last(tr), r)
    ensures Trace(longer) && tr <= longer && Starting(Last(longer), t, StartCheckSelf(name))
  {
    var next := Extend(tr, CallStart(t, name));
    longer := Extend(next, Proceed(t));
    assert forall r :: Blocks(Last(longer), r) == Blocks(Last(tr), r);
  }

  lemma SelfIsFree(tr: seq<State>, t: Tid, name: Name) returns (longer: seq<State>)
    requires Trace(tr) && Starting(Last(tr), t, StartCheckSelf(name))
    ensures Trace(longer) && tr <= longer && Starting(Last(longer), t, StartCheckAll(name, Last(tr).vmRunning.Keys))
    ensures Last(longer).vmRunning == Last(tr).vmRunning
  {
    RunKeepsSound(tr, |tr| - 1);
    longer := Extend(tr, Proceed(t));
    assert forall r :: Blocks(Last(longer), r) == Blocks(Last(tr), r);
  }

  // StartVm looks at one VM after the other, and none refuses.
  lemma {:induction false} AllAreFree(tr: seq<State>, t: Tid, name: Name, todo: set<Name>) returns (longer: seq<State>)
    requires Trace(tr) && Starting(Last(tr), t, StartCheckAll(name, todo)) && todo <= Last(tr).vmRunning.Keys
    ensures Trace(longer) && tr <= longer && Starting(Last(longer), t, StartCheckThreads(name))
    decreases |todo|
  {
    if todo == {} {
      longer := Extend(tr, Proceed(t));
      assert forall r :: Blocks(Last(longer), r) == Blocks(Last(tr), r);
    } else {
      var n :| n in todo;
      var next := OneIsFree(tr, t, name, todo, n);
      longer := AllAreFree(next, t, name, todo - {n});
    }
  }

  lemma FreeStep(s: State, t: Tid, name: Name, todo: set<Name>, n: Name)
    requires Starting(s, t, StartCheckAll(name, todo)) && n in todo && n in s.vmRunning && s.vmRunning[n] in s.life
    ensures Enabled(s, Check(t, n))
    ensures Starting(Apply(s, Check(t, n)), t, StartCheckAll(name, todo - {n}))
    ensures Apply(s, Check(t, n)).vmRunning == s.vmRunning
  {
    assert forall r :: Blocks(Apply(s, Check(t, n)), r) == Blocks(s, r);
  }

  lemma OneIsFree(tr: seq<State>, t: Tid, name: Name, todo: set<Name>, n: Name) returns (longer: seq<State>)
    requires Trace(tr) && Starting(Last(tr), t, StartCheckAll(name, todo)) && todo <= Last(tr).vmRunning.Keys
             && n in todo
    ensures Trace(longer) && tr <= longer && Starting(Last(longer), t, StartCheckAll(name, todo - {n}))
    ensures Last(longer).vmRunning == Last(tr).vmRunning
  {
    RunKeepsSound(tr, |tr| - 1);
    FreeStep(Last(tr), t, name, todo, n);
    longer := Extend(tr, Check(t, n));
  }

  lemma Prepares(tr: seq<State>, t: Tid, name: Name) returns (longer: seq<State>)
    requires Trace(tr) && Starting(Last(tr), t, StartCheckThreads(name))
    ensures Trace(longer) && tr <= longer && Starting(Last(longer), t, StartInstall(name))
  {
    var next := Extend(tr, Proceed(t));
    longer := Extend(next, Proceed(t));
    assert forall r :: Blocks(Last(longer), r) == Blocks(Last(tr), r);
  }

  // A run that has just been installed under `name`.
  ghost predicate Started(s: State, t: Tid, name: Name, run: Run) {
    && t in s.tasks && s.tasks[t] == StartWait(name, run) && s.mutex.None?
    && run in s.life && s.life[run] == L.FRESH && run in s.runner && s.runner[run].Working?
    && name in s.vmRunning && s.vmRunning[name] == run && s.vmThreads == map[name := run]
  }

  lemma Installs(tr: seq<State>, t: Tid, name: Name) returns (longer: seq<State>, run: Run)
    requires Trace(tr) && Starting(Last(tr), t, StartInstall(name))
    ensures Trace(longer) && tr <= longer && run !in Last(tr).life && Started(Last(longer), t, name, run)
  {
    RunKeepsSound(tr, |tr| - 1);
    run := FreshRun(Last(tr));
    longer := Extend(tr, Proceed(t));
  }

  /** A start succeeds when nothing refuses it: from every reachable state with an idle thread, in which no VM is active
      or has a stop owner and no runner thread is left, the run can be extended to one in which a new run is installed
      under the name, with its runner at work. */
  lemma StartSucceeds(tr: seq<State>, t: Tid, name: Name) returns (longer: seq<State>, run: Run)
    requires Trace(tr) && t in Last(tr).tasks && Last(tr).tasks[t].Idle? && Last(tr).mutex.None?
    requires Last(tr).vmThreads == map[] && forall r :: r in Last(tr).life ==> !Blocks(Last(tr), r)
    ensures Trace(longer) && tr <= longer && Started(Last(longer), t, name, run)
  {
    longer := StartLocks(tr, t, name);
    longer := SelfIsFree(longer, t, name);
    longer := AllAreFree(longer, t, name, Last(longer).vmRunning.Keys);
    longer := Prepares(longer, t, name);
    longer, run := Installs(longer, t, name);
  }

  /** Having waited for the start, StartVm returns, and its thread can call again; the run goes on. */
  lemma StartReturns(tr: seq<State>, t: Tid, name: Name, run: Run) returns (longer: seq<State>)
    requires Trace(tr) && Started(Last(tr), t, name, run)
    ensures Trace(longer) && tr <= longer && t in Last(longer).tasks && Last(longer).tasks[t].Idle?
    ensures Last(longer).life == Last(tr).life && Last(longer).vmThreads == Last(tr).vmThreads
    ensures Last(longer).vmRunning == Last(tr).vmRunning
  {
    longer := Extend(tr, Proceed(t));
  }
}
