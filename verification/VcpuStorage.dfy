/**
  The thread and condition storage of the vCPUs: cpu_common_initfn and cpu_common_finalize
  (cpu-common.c), rr_start_vcpu_thread and the end of hmos_rr_stop_vcpu_thread (tcg-accel-ops-rr.c).
 */
module VcpuStorage {
  import opened Prelude

  type Addr = nat
  type Ptr = Option<Addr>

  // History of a CPU: never started; sharing the worker's storage; detached by the stop; finalised.
  datatype Phase = Spare | Shared | Detached | Dead

  datatype Cpu = Cpu(thread: Ptr, haltCond: Ptr, phase: Phase)

  /** Addresses are handed out in order and never reused; the logs record every g_free and every
      qemu_cond_destroy. */
  datatype State = State(
    cpus: seq<Cpu>,
    thread: Ptr,               // single_tcg_cpu_thread
    haltCond: Ptr,             // single_tcg_halt_cond
    next: Addr,
    freed: seq<Addr>,
    destroyed: seq<Addr>)

  const INITIAL := State([], None, None, 0, [], [])

  datatype Op = Init | Start(i: nat) | Stop | Finalize(i: nat)

  // g_free(NULL) does nothing.
  function Logged(log: seq<Addr>, p: Ptr): seq<Addr> {
    if p.Some? then log + [p.value] else log
  }

  function InitCpu(s: State): State {
    s.(cpus := s.cpus + [Cpu(Some(s.next), Some(s.next + 1), Spare)], next := s.next + 2)
  }

  function StartCpu(s: State, i: nat): State
    requires i < |s.cpus|
  {
    var cpu := s.cpus[i];
    if s.thread.None? then
      s.(thread := cpu.thread, haltCond := cpu.haltCond, cpus := s.cpus[i := cpu.(phase := Shared)])
    else
      s.(freed := Logged(Logged(s.freed, cpu.thread), cpu.haltCond), destroyed := Logged(s.destroyed, cpu.haltCond),
         cpus := s.cpus[i := Cpu(s.thread, s.haltCond, Shared)])
  }

  // What the stop does to one CPU of the list.
  function Detach(cpu: Cpu, thread: Ptr, haltCond: Ptr): Cpu {
    if cpu.phase.Dead? then cpu
    else Cpu(if cpu.thread == thread then None else cpu.thread,
             if cpu.haltCond == haltCond then None else cpu.haltCond,
             if cpu.phase.Shared? then Detached else cpu.phase)
  }

  function StopAll(s: State): State {
    if s.thread.None? then s
    else
      s.(cpus := seq(|s.cpus|, i requires 0 <= i < |s.cpus| => Detach(s.cpus[i], s.thread, s.haltCond)),
         freed := Logged(Logged(s.freed, s.haltCond), s.thread), destroyed := Logged(s.destroyed, s.haltCond),
         thread := None, haltCond := None)
  }

  function FinalizeCpu(s: State, i: nat): State
    requires i < |s.cpus|
  {
    var cpu := s.cpus[i];
    s.(freed := Logged(Logged(s.freed, cpu.haltCond), cpu.thread), destroyed := Logged(s.destroyed, cpu.haltCond),
       cpus := s.cpus[i := cpu.(phase := Dead)])
  }

  // Each CPU is started at most once and finalised at most once.
  predicate Possible(s: State, op: Op) {
    match op
    case Init => true
    case Stop => true
    case Start(i) => i < |s.cpus| && s.cpus[i].phase.Spare?
    case Finalize(i) => i < |s.cpus| && !s.cpus[i].phase.Dead?
  }

  /** The order the sources rely on: a CPU that shares the worker's storage is stopped before it is finalised. */
  predicate Legal(s: State, op: Op) {
    Possible(s, op) && (op.Finalize? ==> !s.cpus[op.i].phase.Shared?)
  }

  function Apply(s: State, op: Op): State
    requires Possible(s, op)
  {
    match op
    case Init => InitCpu(s)
    case Start(i) => StartCpu(s, i)
    case Stop => StopAll(s)
    case Finalize(i) => FinalizeCpu(s, i)
  }

  // ---------- Invariant ----------

  ghost predicate CpuOk(s: State, i: nat)
    requires i < |s.cpus|
  {
    var cpu := s.cpus[i];
    match cpu.phase
    case Spare =>
      cpu.thread == Some(2 * i) && cpu.haltCond == Some(2 * i + 1)
      && s.thread != cpu.thread && s.haltCond != cpu.haltCond
    case Shared => s.thread.Some? && cpu.thread == s.thread && cpu.haltCond == s.haltCond
    case Detached => cpu.thread.None? && cpu.haltCond.None?
    case Dead => true
  }

  // The pair of allocations made for CPU `i` is still in use: by the CPU itself, or as the shared pair.
  predicate InUse(s: State, i: nat) {
    i < |s.cpus| && (s.cpus[i].phase.Spare? || s.thread == Some(2 * i))
  }

  ghost predicate Accounted(s: State) {
    && Distinct(s.freed) && Distinct(s.destroyed)
    && (forall a: Addr :: a in s.freed <==> a < s.next && !InUse(s, a / 2))
    && (forall a: Addr :: a in s.destroyed <==> a in s.freed && a % 2 == 1)
  }

  ghost predicate Inv(s: State) {
    && s.next == 2 * |s.cpus|
    && (forall i {:trigger CpuOk(s, i)} :: 0 <= i < |s.cpus| ==> CpuOk(s, i))
    && (s.thread.None? <==> s.haltCond.None?)
    && (s.thread.Some? ==> s.thread.value < s.next && s.thread.value % 2 == 0 && s.haltCond == Some(s.thread.value + 1))
    && Accounted(s)
  }

  lemma LogOne(log: seq<Addr>, p: Ptr)
    requires Distinct(log) && (p.Some? ==> p.value !in log)
    ensures Distinct(Logged(log, p))
    ensures forall a: Addr :: a in Logged(log, p) <==> a in log || p == Some(a)
  {
  }

  // The two allocations of a pair are logged once each, the condition also as destroyed.
  lemma LogPair(s: State, p: Ptr, q: Ptr)
    requires Accounted(s) && (p.None? <==> q.None?)
    requires p.Some? ==> p.value % 2 == 0 && q == Some(p.value + 1) && InUse(s, p.value / 2)
    ensures Distinct(Logged(Logged(s.freed, p), q)) && Distinct(Logged(Logged(s.freed, q), p))
            && Distinct(Logged(s.destroyed, q))
    ensures forall a: Addr :: a in Logged(Logged(s.freed, p), q) <==> a in s.freed || p == Some(a) || q == Some(a)
    ensures forall a: Addr :: a in Logged(Logged(s.freed, q), p) <==> a in s.freed || p == Some(a) || q == Some(a)
    ensures forall a: Addr :: a in Logged(s.destroyed, q) <==> a in s.destroyed || q == Some(a)
  {
    if p.Some? { assert q.value / 2 == p.value / 2 && q.value % 2 == 1; }
    LogOne(s.freed, p);
    LogOne(Logged(s.freed, p), q);
    LogOne(s.freed, q);
    LogOne(Logged(s.freed, q), p);
    LogOne(s.destroyed, q);
  }

  lemma InitKeepsInv(s: State)
    requires Inv(s)
    ensures Inv(InitCpu(s))
  {
    var s' := InitCpu(s);
    forall i | 0 <= i < |s'.cpus| ensures CpuOk(s', i) { if i < |s.cpus| { assert CpuOk(s, i); } }
    forall a: Addr ensures a in s'.freed <==> a < s'.next && !InUse(s', a / 2) {
      assert a / 2 < |s.cpus| ==> (InUse(s', a / 2) <==> InUse(s, a / 2));
    }
  }

  // The first CPU to be started lends its storage to the worker.
  lemma FirstKeepsInv(s: State, i: nat)
    requires Inv(s) && i < |s.cpus| && s.cpus[i].phase.Spare? && s.thread.None?
    ensures Inv(StartCpu(s, i))
  {
    var s' := StartCpu(s, i);
    assert CpuOk(s, i);
    forall j | 0 <= j < |s'.cpus| ensures CpuOk(s', j) { assert CpuOk(s, j); }
    forall a: Addr ensures InUse(s', a / 2) <==> InUse(s, a / 2) {}
  }

  // The pair of allocations of CPU `k` is given back, and all other pairs stay as they are.
  ghost predicate GivesBack(s: State, s': State, k: nat) {
    && s'.next == s.next && k < s.next && 2 * k + 1 < s.next && InUse(s, k) && !InUse(s', k)
    && (forall j: nat :: j != k ==> (InUse(s', j) <==> InUse(s, j)))
    && Distinct(s'.freed) && Distinct(s'.destroyed)
    && (forall a: Addr :: a in s'.freed <==> a in s.freed || a == 2 * k || a == 2 * k + 1)
    && (forall a: Addr :: a in s'.destroyed <==> a in s.destroyed || a == 2 * k + 1)
  }

  lemma GivenBack(s: State, s': State, k: nat)
    requires Accounted(s) && GivesBack(s, s', k)
    ensures Accounted(s')
  {
    forall a: Addr ensures a in s'.freed <==> a < s'.next && !InUse(s', a / 2) {
      assert a / 2 == k <==> a == 2 * k || a == 2 * k + 1;
    }
    forall a: Addr ensures a in s'.destroyed <==> a in s'.freed && a % 2 == 1 {}
  }

  // A later one gives its own storage back and shares.
  lemma LaterAccounted(s: State, i: nat)
    requires Inv(s) && i < |s.cpus| && s.cpus[i].phase.Spare? && s.thread.Some?
    ensures Accounted(StartCpu(s, i))
  {
    var s' := StartCpu(s, i);
    assert CpuOk(s, i) && InUse(s, i);
    LogPair(s, s.cpus[i].thread, s.cpus[i].haltCond);
    forall j: nat ensures InUse(s', j) <==> InUse(s, j) && j != i { LaterInUse(s, i, j); }
    GivenBack(s, s', i);
  }

  lemma LaterInUse(s: State, i: nat, j: nat)
    requires Inv(s) && i < |s.cpus| && s.cpus[i].phase.Spare? && s.thread.Some?
    ensures InUse(StartCpu(s, i), j) <==> InUse(s, j) && j != i
  {
    assert CpuOk(s, i);
  }

  lemma LaterKeepsInv(s: State, i: nat)
    requires Inv(s) && i < |s.cpus| && s.cpus[i].phase.Spare? && s.thread.Some?
    ensures Inv(StartCpu(s, i))
  {
    var s' := StartCpu(s, i);
    LaterAccounted(s, i);
    forall j | 0 <= j < |s'.cpus| ensures CpuOk(s', j) { assert CpuOk(s, j); }
  }

  lemma StopCpuOk(s: State, j: nat)
    requires Inv(s) && j < |s.cpus|
    ensures CpuOk(StopAll(s), j)
  {
    assert CpuOk(s, j);
  }

  lemma StopInUse(s: State, j: nat)
    requires Inv(s) && s.thread.Some?
    ensures InUse(StopAll(s), j) <==> InUse(s, j) && j != s.thread.value / 2
  {
    if j < |s.cpus| { assert CpuOk(s, j); }
  }

  lemma StopAccounted(s: State)
    requires Inv(s) && s.thread.Some?
    ensures Accounted(StopAll(s))
  {
    var s', k := StopAll(s), s.thread.value / 2;
    assert s.thread.value == 2 * k && InUse(s, k);
    LogPair(s, s.thread, s.haltCond);
    StopInUse(s, k);
    forall j: nat | j != k ensures InUse(s', j) <==> InUse(s, j) { StopInUse(s, j); }
    GivenBack(s, s', k);
  }

  lemma StopKeepsInv(s: State)
    requires Inv(s)
    ensures Inv(StopAll(s))
  {
    var s' := StopAll(s);
    forall j | 0 <= j < |s'.cpus| ensures CpuOk(s', j) { StopCpuOk(s, j); }
    if s.thread.Some? { StopAccounted(s); }
  }

  lemma FinalizeAccounted(s: State, i: nat)
    requires Inv(s) && i < |s.cpus| && (s.cpus[i].phase.Spare? || s.cpus[i].phase.Detached?)
    ensures Accounted(FinalizeCpu(s, i))
  {
    if s.cpus[i].phase.Spare? { SpareAccounted(s, i); } else { DetachedAccounted(s, i); }
  }

  lemma SpareAccounted(s: State, i: nat)
    requires Inv(s) && i < |s.cpus| && s.cpus[i].phase.Spare?
    ensures Accounted(FinalizeCpu(s, i))
  {
    assert CpuOk(s, i) && InUse(s, i);
    LogPair(s, s.cpus[i].thread, s.cpus[i].haltCond);
    GivenBack(s, FinalizeCpu(s, i), i);
  }

  lemma DetachedAccounted(s: State, i: nat)
    requires Inv(s) && i < |s.cpus| && s.cpus[i].phase.Detached?
    ensures Accounted(FinalizeCpu(s, i))
  {
    assert CpuOk(s, i);
    assert forall j: nat :: InUse(FinalizeCpu(s, i), j) <==> InUse(s, j);
  }

  lemma FinalizeKeepsInv(s: State, i: nat)
    requires Inv(s) && i < |s.cpus| && (s.cpus[i].phase.Spare? || s.cpus[i].phase.Detached?)
    ensures Inv(FinalizeCpu(s, i))
  {
    var s' := FinalizeCpu(s, i);
    FinalizeAccounted(s, i);
    forall j | 0 <= j < |s'.cpus| ensures CpuOk(s', j) { assert CpuOk(s, j); }
  }

  lemma StepKeepsInv(s: State, op: Op)
    requires Inv(s) && Legal(s, op)
    ensures Inv(Apply(s, op))
  {
    match op {
      case Init => InitKeepsInv(s);
      case Start(i) => if s.thread.None? { FirstKeepsInv(s, i); } else { LaterKeepsInv(s, i); }
      case Stop => StopKeepsInv(s);
      case Finalize(i) => FinalizeKeepsInv(s, i);
    }
  }

  // ---------- Every sequence of operations ----------

  ghost predicate AllLegal(s: State, ops: seq<Op>)
    decreases |ops|
  {
    ops == [] || (Legal(s, ops[0]) && AllLegal(Apply(s, ops[0]), ops[1..]))
  }

  ghost function ApplyAll(s: State, ops: seq<Op>): State
    requires AllLegal(s, ops)
    decreases |ops|
  {
    if ops == [] then s else ApplyAll(Apply(s, ops[0]), ops[1..])
  }

  lemma {:induction false} AllKeepInv(s: State, ops: seq<Op>)
    requires Inv(s) && AllLegal(s, ops)
    ensures Inv(ApplyAll(s, ops))
    decreases |ops|
  {
    if ops != [] {
      StepKeepsInv(s, ops[0]);
      AllKeepInv(Apply(s, ops[0]), ops[1..]);
    }
  }

  // No pointer that is still stored names freed storage.
  ghost predicate NoDangling(s: State) {
    && (s.thread.Some? ==> s.thread.value !in s.freed)
    && (s.haltCond.Some? ==> s.haltCond.value !in s.freed)
    && forall i :: 0 <= i < |s.cpus| && !s.cpus[i].phase.Dead? ==>
         && (s.cpus[i].thread.Some? ==> s.cpus[i].thread.value !in s.freed)
         && (s.cpus[i].haltCond.Some? ==> s.cpus[i].haltCond.value !in s.freed)
  }

  lemma InvNoDangling(s: State)
    requires Inv(s)
    ensures NoDangling(s)
  {
    if s.thread.Some? { assert InUse(s, s.thread.value / 2) && s.haltCond.value / 2 == s.thread.value / 2; }
    forall i | 0 <= i < |s.cpus| && !s.cpus[i].phase.Dead?
      ensures s.cpus[i].thread.Some? ==> s.cpus[i].thread.value !in s.freed
      ensures s.cpus[i].haltCond.Some? ==> s.cpus[i].haltCond.value !in s.freed
    {
      assert CpuOk(s, i);
      if s.cpus[i].phase.Spare? { assert InUse(s, i) && (2 * i) / 2 == i && (2 * i + 1) / 2 == i; }
    }
  }

  /** Whatever is initialised, started, stopped and finalised in whatever order, nothing is freed or
      destroyed twice, nothing in use is freed, and every started CPU shares the pair the stop will use. */
  lemma NothingFreedTwice(ops: seq<Op>)
    requires AllLegal(INITIAL, ops)
    ensures var s := ApplyAll(INITIAL, ops);
      && Distinct(s.freed) && Distinct(s.destroyed) && NoDangling(s)
      && (forall i :: 0 <= i < |s.cpus| && s.cpus[i].phase.Shared? ==>
            s.thread.Some? && s.cpus[i].thread == s.thread && s.cpus[i].haltCond == s.haltCond)
  {
    AllKeepInv(INITIAL, ops);
    var s := ApplyAll(INITIAL, ops);
    InvNoDangling(s);
    forall i | 0 <= i < |s.cpus| && s.cpus[i].phase.Shared?
      ensures s.thread.Some? && s.cpus[i].thread == s.thread && s.cpus[i].haltCond == s.haltCond
    {
      assert CpuOk(s, i);
    }
  }

  /** Once the worker has been stopped and every CPU finalised, every allocation has been freed exactly
      once, and every condition destroyed exactly once. */
  lemma EverythingFreedOnce(ops: seq<Op>)
    requires AllLegal(INITIAL, ops) && ApplyAll(INITIAL, ops).thread.None?
    requires forall i :: 0 <= i < |ApplyAll(INITIAL, ops).cpus| ==> ApplyAll(INITIAL, ops).cpus[i].phase.Dead?
    ensures var s := ApplyAll(INITIAL, ops);
      && Distinct(s.freed) && (forall a: Addr :: a in s.freed <==> a < s.next)
      && Distinct(s.destroyed) && (forall a: Addr :: a in s.destroyed <==> a < s.next && a % 2 == 1)
  {
    AllKeepInv(INITIAL, ops);
  }

  /** A second stop changes nothing. */
  lemma StopTwice(s: State)
    requires Inv(s)
    ensures StopAll(StopAll(s)) == StopAll(s) && Inv(StopAll(s))
    ensures forall i :: 0 <= i < |StopAll(s).cpus| ==> !StopAll(s).cpus[i].phase.Shared?
  {
    StopKeepsInv(s);
    var s' := StopAll(s);
    forall i | 0 <= i < |s'.cpus| ensures !s'.cpus[i].phase.Shared? { assert CpuOk(s', i); }
  }

  /** Finalising a CPU is safe exactly if it does not share the worker's storage at that moment:
      otherwise the worker, and every other started CPU, is left with freed storage. */
  lemma FinalizeSafeIffDetached(s: State, i: nat)
    requires Inv(s) && i < |s.cpus| && !s.cpus[i].phase.Dead?
    ensures NoDangling(FinalizeCpu(s, i)) <==> !s.cpus[i].phase.Shared?
  {
    assert CpuOk(s, i);
    if s.cpus[i].phase.Shared? {
      assert s.thread.value in FinalizeCpu(s, i).freed;
    } else {
      FinalizeKeepsInv(s, i);
      InvNoDangling(FinalizeCpu(s, i));
    }
  }

  /** Such an order of operations exists: a CPU finalised while it runs. */
  lemma EarlyFinalizeDangles()
    ensures AllLegal(INITIAL, [Op.Init, Op.Start(0)])
    ensures var s := ApplyAll(INITIAL, [Op.Init, Op.Start(0)]);
      Possible(s, Op.Finalize(0)) && !NoDangling(FinalizeCpu(s, 0))
  {
    var ops := [Op.Init, Op.Start(0)];
    var s := Apply(INITIAL, ops[0]);
    assert ops[1..] == [Op.Start(0)] && AllLegal(s, ops[1..]);
    AllKeepInv(INITIAL, ops);
    assert ApplyAll(INITIAL, ops) == Apply(s, Op.Start(0));
    FinalizeSafeIffDetached(ApplyAll(INITIAL, ops), 0);
  }

  // ---------- The operations in place ----------

  class CPUState {
    var thread: Ptr
    var haltCond: Ptr
    var phase: Phase                   // a finalised CPU has left the list

    constructor (thread: Ptr, haltCond: Ptr)
      ensures this.thread == thread && this.haltCond == haltCond && phase == Spare
    {
      this.thread, this.haltCond, phase := thread, haltCond, Spare;
    }
  }

  class Runtime {
    var cpus: seq<CPUState>
    var thread: Ptr
    var haltCond: Ptr
    var next: Addr
    var freed: seq<Addr>
    var destroyed: seq<Addr>

    ghost predicate Valid()
      reads this
    {
      Distinct(cpus)
    }

    ghost function Slot(cpu: CPUState): Cpu
      reads cpu
    {
      Cpu(cpu.thread, cpu.haltCond, cpu.phase)
    }

    ghost function Now(): State
      reads this, cpus
    {
      State(seq(|cpus|, i requires 0 <= i < |cpus| reads this, cpus => Slot(cpus[i])),
            thread, haltCond, next, freed, destroyed)
    }

    constructor ()
      ensures Valid() && Now() == INITIAL
    {
      cpus, thread, haltCond, next, freed, destroyed := [], None, None, 0, [], [];
    }

    method Free(p: Ptr)
      modifies this`freed
      ensures freed == Logged(old(freed), p)
    {
      if p.Some? {
        freed := freed + [p.value];
      }
    }

    method CondDestroy(p: Ptr)
      modifies this`destroyed
      ensures destroyed == Logged(old(destroyed), p)
    {
      if p.Some? {
        destroyed := destroyed + [p.value];
      }
    }

    method Init() returns (cpu: CPUState)
      requires Valid()
      modifies this
      ensures Valid() && fresh(cpu) && cpus == old(cpus) + [cpu]
      ensures Now() == InitCpu(old(Now()))
    {
      cpu := new CPUState(Some(next), Some(next + 1));
      next := next + 2;
      cpus := cpus + [cpu];
    }

    method Start(ghost i: nat, cpu: CPUState)
      requires Valid() && i < |cpus| && cpus[i] == cpu
      modifies this, cpu
      ensures Valid() && cpus == old(cpus)
      ensures Now() == StartCpu(old(Now()), i)
    {
      if thread.None? {
        haltCond := cpu.haltCond;
        thread := cpu.thread;
      } else {
        Free(cpu.thread);
        CondDestroy(cpu.haltCond);
        Free(cpu.haltCond);
        cpu.thread := thread;
        cpu.haltCond := haltCond;
      }
      cpu.phase := Shared;
    }

    // hmos_rr_stop_vcpu_thread after the join; finalised CPUs have left the list.
    method StopThread()
      requires Valid()
      modifies this, cpus
      ensures Valid() && cpus == old(cpus)
      ensures Now() == StopAll(old(Now()))
    {
      if thread.None? {
        return;
      }
      var i := 0;
      while i < |cpus|
        invariant 0 <= i <= |cpus| && Valid()
        invariant cpus == old(cpus) && thread == old(thread) && haltCond == old(haltCond)
        invariant next == old(next) && freed == old(freed) && destroyed == old(destroyed)
        invariant forall k :: 0 <= k < i ==> Slot(cpus[k]) == Detach(old(Slot(cpus[k])), thread, haltCond)
        invariant forall k :: i <= k < |cpus| ==> Slot(cpus[k]) == old(Slot(cpus[k]))
      {
        Unalias(cpus[i]);
        i := i + 1;
      }
      CondDestroy(haltCond);
      Free(haltCond);
      Free(thread);
      thread := None;
      haltCond := None;
    }

    method Unalias(cpu: CPUState)
      modifies cpu
      ensures Slot(cpu) == Detach(old(Slot(cpu)), thread, haltCond)
    {
      if !cpu.phase.Dead? {
        if cpu.thread == thread {
          cpu.thread := None;
        }
        if cpu.haltCond == haltCond {
          cpu.haltCond := None;
        }
        if cpu.phase.Shared? {
          cpu.phase := Detached;
        }
      }
    }

    method Finalize(ghost i: nat, cpu: CPUState)
      requires Valid() && i < |cpus| && cpus[i] == cpu
      modifies this, cpu
      ensures Valid() && cpus == old(cpus)
      ensures Now() == FinalizeCpu(old(Now()), i)
    {
      if cpu.haltCond.Some? {
        CondDestroy(cpu.haltCond);
      }
      Free(cpu.haltCond);
      Free(cpu.thread);
      cpu.phase := Dead;
    }
  }
}
