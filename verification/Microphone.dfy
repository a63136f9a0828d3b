/** microphone_session.h: microphone consent belongs to one generation of one VM. */
module Microphone {
  import opened Prelude

  const TWO_32 := 0x1_0000_0000
  const GENERATIONS := TWO_32 - 1      // the generations that Begin hands out: 1 .. 2^32 - 1

  type Core = nat

  /** The fields of MicrophoneSession, and the cores whose capture is enabled. */
  datatype Mic = Mic(
    name: string,
    generation: nat,
    active: bool,
    core: Option<Core>,                // set_: the core this session controls
    hasStatus: bool,                   // status_ is not null
    on: set<Core>)

  // The choices of the core (does it accept, what status does it report) are parameters.
  datatype Op =
    | Bind(core: Option<Core>, hasStatus: bool)
    | Begin(name: string)
    | Running(generation: nat)
    | End(generation: nat)
    | Stop(name: string)
    | Enable(name: string, generation: nat, enable: bool, accepts: bool)
    | Status(name: string, code: int)

  const INITIAL := Mic("", 0, false, None, false, {})

  function Disable(m: Mic): Mic {
    if m.core.Some? then m.(on := m.on - {m.core.value}) else m
  }

  // ++generation_ on uint32_t, skipping zero.
  function NextGeneration(g: nat): nat {
    var n := (g + 1) % TWO_32;
    if n == 0 then (n + 1) % TWO_32 else n
  }

  predicate MayEnable(m: Mic, name: string, generation: nat) {
    m.active && name == m.name && generation == m.generation && m.core.Some? && m.hasStatus
  }

  function Apply(m: Mic, op: Op): Mic {
    match op
    case Bind(core, hasStatus) => Disable(Disable(m).(core := core, hasStatus := hasStatus))
    case Begin(name) => Disable(m).(name := name, active := false, generation := NextGeneration(m.generation))
    case Running(g) => if g == m.generation && m.name != "" then m.(active := true) else m
    case End(g) => if g == m.generation then Disable(m).(active := false, name := "") else m
    case Stop(name) => if name == m.name then Disable(m).(active := false, name := "") else m
    case Enable(name, g, enable, accepts) =>
      if !MayEnable(m, name, g) then m
      else if !enable then Disable(m)
      else if accepts then m.(on := m.on + {m.core.value}) else m
    case Status(name, code) =>
      if !m.active || name != m.name || m.core.None? || !m.hasStatus || 0 <= code <= 4 then m else Disable(m)
  }

  function ApplyAll(m: Mic, ops: seq<Op>): Mic
    decreases |ops|
  {
    if ops == [] then m else ApplyAll(Apply(m, ops[0]), ops[1..])
  }

  /** A core captures only while the session is active, has a name and controls that core. */
  ghost predicate Valid(m: Mic) {
    && m.generation < TWO_32
    && (m.active ==> m.name != "" && m.generation != 0)
    && (m.name != "" ==> m.generation != 0)
    && (forall c :: c in m.on ==> m.active && m.core == Some(c))
  }

  lemma CallKeepsValid(m: Mic, op: Op)
    requires Valid(m)
    ensures Valid(Apply(m, op))
  {
  }

  /** Over every sequence of calls, whichever thread makes them: the core is left enabled only while
      the session is active for its current generation. */
  lemma {:induction false} EnabledOnlyWhileActive(m: Mic, ops: seq<Op>)
    requires Valid(m)
    ensures Valid(ApplyAll(m, ops))
    decreases |ops|
  {
    if ops != [] {
      CallKeepsValid(m, ops[0]);
      EnabledOnlyWhileActive(Apply(m, ops[0]), ops[1..]);
    }
  }

  // ---------- Generations ----------

  function Begins(ops: seq<Op>): nat
    decreases |ops|
  {
    if ops == [] then 0 else (if ops[0].Begin? then 1 else 0) + Begins(ops[1..])
  }

  // The generation `n` Begin calls after `g`.
  function Later(g: nat, n: nat): nat
    requires 1 <= g <= GENERATIONS
  {
    (g - 1 + n) % GENERATIONS + 1
  }

  lemma NextIsLater(g: nat, n: nat)
    requires 1 <= g <= GENERATIONS
    ensures Later(NextGeneration(g), n) == Later(g, n + 1)
  {
    if g == GENERATIONS {
      assert (g - 1 + n + 1) % GENERATIONS == n % GENERATIONS;
    }
  }

  /** Whatever the calls are, the generation depends on the number of Begin calls only. */
  lemma {:induction false} GenerationCounts(m: Mic, ops: seq<Op>)
    requires 1 <= m.generation <= GENERATIONS
    ensures ApplyAll(m, ops).generation == Later(m.generation, Begins(ops))
    decreases |ops|
  {
    if ops != [] {
      GenerationCounts(Apply(m, ops[0]), ops[1..]);
      if ops[0].Begin? { NextIsLater(m.generation, Begins(ops[1..])); }
    }
  }

  // The call carries generation `g`.
  predicate Claims(op: Op, g: nat) {
    (op.Running? || op.Enable?) && op.generation == g
  }

  // Stop or End has run for the current generation.
  predicate Ended(m: Mic) {
    m.name == "" && !m.active
  }

  /** After End of its generation, or Stop of its name, a session is ended and its core is off. */
  lemma StopEnds(m: Mic, op: Op)
    requires Valid(m) && (op == End(m.generation) || op == Stop(m.name))
    ensures Ended(Apply(m, op)) && Apply(m, op).on == {} && Apply(m, op).generation == m.generation
  {
    assert forall c :: c in m.on ==> m.core == Some(c);
  }

  lemma {:induction false} EndedStays(m: Mic, ops: seq<Op>)
    requires Ended(m) && Begins(ops) == 0
    ensures Ended(ApplyAll(m, ops)) && ApplyAll(m, ops).generation == m.generation
    decreases |ops|
  {
    if ops != [] { EndedStays(Apply(m, ops[0]), ops[1..]); }
  }

  /** Once a generation has ended, none of its Running or Enable calls does anything, as long as fewer
      than 2^32 - 1 later Begin calls have been made; any other calls may come in between. */
  lemma ConsentDiesWithSession(m: Mic, ops: seq<Op>, late: Op)
    requires Valid(m) && m.generation != 0 && Ended(m)
    requires Begins(ops) < GENERATIONS && Claims(late, m.generation)
    ensures Apply(ApplyAll(m, ops), late) == ApplyAll(m, ops)
  {
    if Begins(ops) == 0 {
      EndedStays(m, ops);
    } else {
      GenerationCounts(m, ops);
      LaterDiffers(m.generation, Begins(ops));
    }
  }

  /** The two together, from any reachable state: stopping or ending a session revokes its generation,
      even if its Running or Enable call is already on the way. */
  lemma StopRevokes(m: Mic, kill: Op, ops: seq<Op>, late: Op)
    requires Valid(m) && m.generation != 0 && (kill == End(m.generation) || kill == Stop(m.name))
    requires Begins(ops) < GENERATIONS && Claims(late, m.generation)
    ensures var s := ApplyAll(Apply(m, kill), ops); Apply(s, late) == s
  {
    StopEnds(m, kill);
    CallKeepsValid(m, kill);
    ConsentDiesWithSession(Apply(m, kill), ops, late);
  }

  lemma LaterDiffers(g: nat, n: nat)
    requires 1 <= g <= GENERATIONS
    ensures Later(g, n) == g <==> n % GENERATIONS == 0
  {
    var k := g - 1;
    var q, r := n / GENERATIONS, n % GENERATIONS;
    assert n == q * GENERATIONS + r && k < GENERATIONS;
    if k + r < GENERATIONS {
      RemainderIs(k + n, q, k + r);
    } else {
      RemainderIs(k + n, q + 1, k + r - GENERATIONS);
    }
  }

  lemma RemainderIs(a: int, q: int, r: int)
    requires a == q * GENERATIONS + r && 0 <= r < GENERATIONS
    ensures a % GENERATIONS == r
  {
  }

  /** The bound is exact: a late Running of an ended generation revives a session if and only if the
      number of Begin calls since then is a positive multiple of 2^32 - 1 and the session that has come
      round to the same number is waiting for its own Running. */
  lemma LateRunningRevives(m: Mic, ops: seq<Op>)
    requires Valid(m) && m.generation != 0 && Ended(m)
    ensures Apply(ApplyAll(m, ops), Running(m.generation)) != ApplyAll(m, ops) <==>
              && Begins(ops) > 0 && Begins(ops) % GENERATIONS == 0
              && ApplyAll(m, ops).name != "" && !ApplyAll(m, ops).active
  {
    if Begins(ops) == 0 {
      EndedStays(m, ops);
    } else {
      GenerationCounts(m, ops);
      LaterDiffers(m.generation, Begins(ops));
    }
  }

  /** The same for a late Enable: it changes what the core does if and only if the session that has come round
      to the same number is active under that name with a core and a status, and the core is told something new:
      to turn off while it is on, or to turn on, which it accepts, while it is off. */
  lemma LateEnableActs(m: Mic, ops: seq<Op>, name: string, enable: bool, accepts: bool)
    requires Valid(m) && m.generation != 0 && Ended(m)
    ensures var s := ApplyAll(m, ops);
      Apply(s, Enable(name, m.generation, enable, accepts)) != s <==>
        && Begins(ops) > 0 && Begins(ops) % GENERATIONS == 0
        && s.active && s.name == name && s.core.Some? && s.hasStatus
        && (if enable then accepts && s.core.value !in s.on else s.core.value in s.on)
  {
    if Begins(ops) == 0 {
      EndedStays(m, ops);
    } else {
      GenerationCounts(m, ops);
      LaterDiffers(m.generation, Begins(ops));
    }
    EnableActs(ApplyAll(m, ops), name, m.generation, enable, accepts);
  }

  lemma EnableActs(s: Mic, name: string, g: nat, enable: bool, accepts: bool)
    ensures Apply(s, Enable(name, g, enable, accepts)) != s <==>
              && MayEnable(s, name, g)
              && (if enable then accepts && s.core.value !in s.on else s.core.value in s.on)
  {
    if MayEnable(s, name, g) {
      var c := s.core.value;
      assert c in s.on <==> s.on - {c} != s.on;
      assert c !in s.on <==> s.on + {c} != s.on;
    }
  }

  function Starts(name: string, n: nat): (ops: seq<Op>)
    ensures |ops| == n
  {
    if n == 0 then [] else [Begin(name)] + Starts(name, n - 1)
  }

  lemma {:induction false} StartsCount(m: Mic, name: string, n: nat)
    ensures Begins(Starts(name, n)) == n
    ensures n > 0 ==> ApplyAll(m, Starts(name, n)).name == name && !ApplyAll(m, Starts(name, n)).active
    decreases n
  {
    if n > 0 {
      var ops := Starts(name, n);
      assert ops[1..] == Starts(name, n - 1);
      StartsCount(Apply(m, ops[0]), name, n - 1);
    }
  }

  /** Such a revival exists: 2^32 - 1 restarts later the old Running call starts a session that is not its own. */
  lemma WrappedGenerationRevives(m: Mic)
    requires Valid(m) && m.generation != 0 && Ended(m)
    ensures var s := ApplyAll(m, Starts("vm", GENERATIONS));
      !s.active && Apply(s, Running(m.generation)).active
  {
    StartsCount(m, "vm", GENERATIONS);
    LateRunningRevives(m, Starts("vm", GENERATIONS));
    GenerationCounts(m, Starts("vm", GENERATIONS));
    LaterDiffers(m.generation, GENERATIONS);
  }

  // ---------- What does work ----------

  /** Calls of a generation that is not the current one do nothing, whether it is an old one or one to come: neither
      Running nor Enable, and an End that comes late does not end the session that has followed. */
  lemma OtherGenerationsAreInert(m: Mic, ops: seq<Op>, old': Op)
    requires Valid(m) && m.generation != 0 && 0 < Begins(ops) < GENERATIONS
    requires old' == Running(m.generation) || old' == End(m.generation)
             || (old'.Enable? && old'.generation == m.generation)
    ensures Apply(ApplyAll(m, ops), old') == ApplyAll(m, ops)
  {
    GenerationCounts(m, ops);
    LaterDiffers(m.generation, Begins(ops));
  }

  // The calls leave a session of this name and generation alone.
  predicate Spares(op: Op, m: Mic) {
    match op
    case Bind(_, _) => false
    case Begin(_) => false
    case Running(_) => true
    case End(g) => g != m.generation
    case Stop(name) => name != m.name
    case Enable(name, g, _, _) => name != m.name || g != m.generation
    case Status(name, code) => name != m.name || 0 <= code <= 4
  }

  lemma {:induction false} SessionLasts(m: Mic, ops: seq<Op>)
    requires m.active && m.name != "" && forall i :: 0 <= i < |ops| ==> Spares(ops[i], m)
    ensures ApplyAll(m, ops) == m
    decreases |ops|
  {
    if ops != [] {
      assert Spares(ops[0], m);
      assert forall i :: 0 <= i < |ops[1..]| ==> ops[1..][i] == ops[i + 1];
      SessionLasts(m, ops[1..]);
    }
  }

  /** Consent works: a session that is begun for a VM, and then runs, can be enabled by its generation, whatever
      calls of other VMs and generations come in between; its core is then on, and turning it off or an unknown
      status turns it off again. */
  lemma ConsentWorks(m: Mic, vm: string, a: seq<Op>, b: seq<Op>, code: int)
    requires Valid(m) && vm != "" && m.core.Some? && m.hasStatus
    requires var s := Apply(m, Begin(vm));
      var r := Apply(s, Running(s.generation));
      (forall i :: 0 <= i < |a| ==> Spares(a[i], r)) && (forall i :: 0 <= i < |b| ==> Spares(b[i], r))
    ensures var s := Apply(m, Begin(vm));
      var g := s.generation;
      var on := Apply(ApplyAll(Apply(s, Running(g)), a), Enable(vm, g, true, true));
      && 0 < g < TWO_32 && m.core.value !in s.on && m.core.value in on.on
      && m.core.value in ApplyAll(on, b).on
      && m.core.value !in Apply(ApplyAll(on, b), Enable(vm, g, false, true)).on
      && (code < 0 || code > 4 ==> m.core.value !in Apply(ApplyAll(on, b), Status(vm, code)).on)
  {
    var s := Apply(m, Begin(vm));
    var r := Apply(s, Running(s.generation));
    SessionLasts(r, a);
    var on := Apply(r, Enable(vm, s.generation, true, true));
    forall i | 0 <= i < |b| ensures Spares(b[i], on) { assert Spares(b[i], r); }
    SessionLasts(on, b);
  }

  /** A core that is bound in place of another takes over nothing: both are off, and the session goes on. */
  lemma BindTurnsOff(m: Mic, core: Option<Core>, hasStatus: bool)
    requires Valid(m)
    ensures var s := Apply(m, Bind(core, hasStatus));
      && s.on == {} && s.core == core && s.hasStatus == hasStatus
      && s.name == m.name && s.generation == m.generation && s.active == m.active
  {
    assert forall c :: c in m.on ==> m.core == Some(c);
  }

  // ---------- The class ----------

  class MicrophoneSession {
    var name: string
    var generation: nat
    var active: bool
    var core: Option<Core>
    var hasStatus: bool
    var enabled: set<Core>             // what the cores have been told

    ghost function State(): Mic
      reads this
    {
      Mic(name, generation, active, core, hasStatus, enabled)
    }

    constructor ()
      ensures State() == INITIAL && Valid(State())
    {
      name, generation, active, core, hasStatus, enabled := "", 0, false, None, false, {};
    }

    // set_(enable); turning off always succeeds.
    method SetEnabled(enable: bool, accepts: bool) returns (ok: bool)
      requires core.Some?
      modifies this`enabled
      ensures ok == accepts
      ensures enabled == if !enable then old(enabled) - {core.value}
                         else if accepts then old(enabled) + {core.value} else old(enabled)
    {
      if !enable {
        enabled := enabled - {core.value};
      } else if accepts {
        enabled := enabled + {core.value};
      }
      return accepts;
    }

    method TurnOff()
      modifies this`enabled
      ensures State() == Disable(old(State()))
    {
      if core.Some? {
        var _ := SetEnabled(false, true);
      }
    }

    method Bind(set': Option<Core>, status: bool)
      modifies this
      ensures State() == Apply(old(State()), Op.Bind(set', status))
    {
      TurnOff();
      core, hasStatus := set', status;
      TurnOff();
    }

    method Begin(vm: string) returns (g: nat)
      requires generation < TWO_32
      modifies this
      ensures State() == Apply(old(State()), Op.Begin(vm)) && g == generation && 0 < g < TWO_32
    {
      TurnOff();
      name := vm;
      active := false;
      generation := (generation + 1) % TWO_32;
      if generation == 0 {
        generation := (generation + 1) % TWO_32;
      }
      return generation;
    }

    method Running(g: nat)
      modifies this
      ensures State() == Apply(old(State()), Op.Running(g))
    {
      if g == generation && name != "" {
        active := true;
      }
    }

    method End(g: nat)
      modifies this
      ensures State() == Apply(old(State()), Op.End(g))
    {
      if g == generation {
        TurnOff();
        active := false;
        name := "";
      }
    }

    method Stop(vm: string)
      modifies this
      ensures State() == Apply(old(State()), Op.Stop(vm))
    {
      if vm == name {
        TurnOff();
        active := false;
        name := "";
      }
    }

    /** The generation the UI must name to enable capture; zero, never a generation, when there is none. */
    method Session(vm: string) returns (g: nat)
      requires Valid(State())
      ensures g != 0 <==> active && vm == name
      ensures g != 0 ==> g == generation
    {
      return if active && vm == name then generation else 0;
    }

    method Enable(vm: string, g: nat, enable: bool, accepts: bool) returns (ok: bool)
      modifies this
      ensures State() == Apply(old(State()), Op.Enable(vm, g, enable, accepts))
      ensures ok == (MayEnable(old(State()), vm, g) && accepts)
    {
      if !active || vm != name || g != generation || core.None? || !hasStatus {
        return false;
      }
      ok := SetEnabled(enable, accepts);
    }

    method Status(vm: string, code: int) returns (text: string)
      modifies this
      ensures State() == Apply(old(State()), Op.Status(vm, code))
      ensures text == if old(active) && vm == old(name) && core.Some? && hasStatus && 0 <= code <= 4
                      then ["disabled", "armed", "capturing", "blocked", "error"][code] else "unavailable"
    {
      if !active || vm != name || core.None? || !hasStatus {
        return "unavailable";
      }
      match code {
        case 0 => return "disabled";
        case 1 => return "armed";
        case 2 => return "capturing";
        case 3 => return "blocked";
        case 4 => return "error";
        case _ =>
          TurnOff();
          return "unavailable";
      }
    }
  }
}
