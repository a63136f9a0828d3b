/**
  Grace periods of util/rcu.c: readers, the reader registry, and synchronize_rcu.

  Every access to shared memory is one step of a transition system; any number of threads
  interleave.  `Width` is the size of `unsigned long`, which selects the one-phase increment
  (64-bit) or the two-phase parity switch (32-bit).
 */
module GracePeriod {
  import opened Prelude

  type Tid = nat

  datatype Width = Long32 | Long64

  const RCU_GP_LOCKED := 1
  const RCU_GP_CTR := 2
  const TWO_63 := 0x8000_0000_0000_0000
  const TWO_64 := 0x1_0000_0000_0000_0000

  // The store that opens a phase: exclusive-or with RCU_GP_CTR, or a wrapping addition.
  function NextCtr(w: Width, ctr: nat): nat {
    match w
    case Long32 => if ctr / RCU_GP_CTR % 2 == 0 then ctr + RCU_GP_CTR else ctr - RCU_GP_CTR
    case Long64 => (ctr + RCU_GP_CTR) % TWO_64
  }

  // How many values the counter takes before it repeats.
  function Period(w: Width): nat {
    match w case Long32 => 2 case Long64 => TWO_63
  }

  // The counter after `k` switches.
  function Code(w: Width, k: nat): nat {
    RCU_GP_CTR * (k % Period(w)) + RCU_GP_LOCKED
  }

  // 1 when a second sub-phase follows the first.
  function LastPhase(w: Width): nat {
    match w case Long32 => 1 case Long64 => 0
  }

  /** One thread's rcu_reader_data. `loaded` is the value read by rcu_read_lock and not yet stored.
      `section` numbers its critical sections and `era` is the number of counter switches at the
      load; neither influences a step. */
  datatype Reader = Reader(ctr: nat, loaded: Option<nat>, section: nat, era: nat)

  /** Where the holder of rcu_sync_lock is. rcu_registry_lock is free exactly at Enter and Sleep. */
  datatype SyncPc =
    | Enter                                // about to take rcu_registry_lock
    | Flip(phase: nat)                     // about to switch rcu_gp_ctr
    | Pass(phase: nat)                     // top of the loop in wait_for_readers
    | Walk(phase: nat, todo: seq<Tid>)     // inside the list walk
    | Sleep(phase: nat)                    // between the passes
    | Return                               // about to release both locks

  datatype Sync = Sync(caller: Tid, pc: SyncPc)

  datatype State = State(
    ctr: nat, flips: nat,
    readers: map<Tid, Reader>,
    registry: seq<Tid>, qsreaders: seq<Tid>,
    waiting: set<Tid>,                     // threads that called synchronize_rcu and wait for rcu_sync_lock
    sync: Option<Sync>)

  predicate Registered(s: State, r: Tid) {
    r in s.registry || r in s.qsreaders
  }

  predicate RegistryLockFree(s: State) {
    s.sync.None? || s.sync.value.pc.Enter? || s.sync.value.pc.Sleep?
  }

  predicate Ongoing(s: State, r: Tid)
    requires r in s.readers
  {
    s.readers[r].ctr != 0 && s.readers[r].ctr != s.ctr
  }

  datatype Label =
    | Load(r: Tid) | Store(r: Tid) | Unlock(r: Tid)
    | Register(r: Tid) | Unregister(r: Tid)
    | Call(r: Tid) | Acquire(r: Tid)
    | Advance                              // next step of the holder of rcu_sync_lock
    | Stutter                              // notifiers, sleeps, steps of other subsystems

  predicate Enabled(w: Width, s: State, l: Label) {
    match l
    case Load(r) => r in s.readers && Registered(s, r) && s.readers[r].ctr == 0 && s.readers[r].loaded.None?
    case Store(r) => r in s.readers && s.readers[r].loaded.Some?
    case Unlock(r) => r in s.readers && s.readers[r].ctr != 0
    case Register(r) =>
      RegistryLockFree(s) && r in s.readers && !Registered(s, r)
      && s.readers[r].ctr == 0 && s.readers[r].loaded.None?
    case Unregister(r) =>
      RegistryLockFree(s) && r in s.readers && Registered(s, r)
      && s.readers[r].ctr == 0 && s.readers[r].loaded.None?
    case Call(r) => r !in s.waiting && (s.sync.None? || s.sync.value.caller != r)
    case Acquire(r) => r in s.waiting && s.sync.None?
    case Advance =>
      s.sync.Some? && match s.sync.value.pc {
        case Walk(_, todo) => todo == [] || (todo[0] in s.registry && todo[0] in s.readers)
        case _ => true
      }
    case Stutter => true
  }

  function Remove(s: seq<Tid>, r: Tid): seq<Tid> {
    if r in s then DropAt(s, IndexOf(s, r)) else s
  }

  function Apply(w: Width, s: State, l: Label): State
    requires Enabled(w, s, l)
  {
    match l
    case Load(r) =>
      s.(readers := s.readers[r := s.readers[r].(loaded := Some(s.ctr), era := s.flips)])
    case Store(r) =>
      var me := s.readers[r];
      s.(readers := s.readers[r := me.(ctr := me.loaded.value, loaded := None, section := me.section + 1)])
    case Unlock(r) =>
      s.(readers := s.readers[r := s.readers[r].(ctr := 0)])
    case Register(r) =>
      s.(registry := [r] + s.registry)
    case Unregister(r) =>
      s.(registry := Remove(s.registry, r), qsreaders := Remove(s.qsreaders, r))
    case Call(r) => s.(waiting := s.waiting + {r})
    case Acquire(r) => s.(waiting := s.waiting - {r}, sync := Some(Sync(r, Enter)))
    case Advance => AdvanceSync(w, s)
    case Stutter => s
  }

  function Goto(s: State, pc: SyncPc): State
    requires s.sync.Some?
  {
    s.(sync := Some(Sync(s.sync.value.caller, pc)))
  }

  function AdvanceSync(w: Width, s: State): State
    requires Enabled(w, s, Advance)
  {
    match s.sync.value.pc
    case Enter => if s.registry == [] then Goto(s, Return) else Goto(s, Flip(0))
    case Flip(p) => Goto(s.(ctr := NextCtr(w, s.ctr), flips := s.flips + 1), Pass(p))
    case Pass(p) => Goto(s, Walk(p, s.registry))
    case Walk(p, todo) =>
      if todo != [] then
        var r := todo[0];
        Goto(if Ongoing(s, r) then s
             else s.(registry := Remove(s.registry, r), qsreaders := [r] + s.qsreaders),
             Walk(p, todo[1..]))
      else if s.registry != [] then Goto(s, Sleep(p))
      else Goto(s.(registry := s.qsreaders, qsreaders := []),
                if p < LastPhase(w) then Flip(p + 1) else Return)
    case Sleep(p) => Goto(s, Pass(p))
    case Return => s.(sync := None)
  }

  ghost predicate Next(w: Width, s: State, s': State) {
    exists l :: Enabled(w, s, l) && s' == Apply(w, s, l)
  }

  ghost predicate Init(s: State) {
    && s.ctr == RCU_GP_LOCKED && s.flips == 0
    && (forall r :: r in s.readers ==> s.readers[r].ctr == 0 && s.readers[r].loaded.None? && s.readers[r].era == 0)
    && s.registry == [] && s.qsreaders == [] && s.waiting == {} && s.sync.None?
  }

  ghost predicate Run(w: Width, tr: seq<State>) {
    && tr != [] && Init(tr[0])
    && forall i :: 0 <= i < |tr| - 1 ==> NextAt(w, tr, i)
  }

  ghost predicate NextAt(w: Width, tr: seq<State>, i: nat)
    requires i < |tr| - 1
  {
    Next(w, tr[i], tr[i + 1])
  }

  // ---------- What every step keeps ----------

  ghost predicate ReaderOk(w: Width, s: State, r: Tid)
    requires r in s.readers
  {
    var me := s.readers[r];
    && me.era <= s.flips
    && (me.loaded.Some? ==> me.loaded.value == Code(w, me.era) && me.ctr == 0)
    && (me.ctr != 0 ==> me.ctr == Code(w, me.era))
    && (me.ctr != 0 || me.loaded.Some? ==> Registered(s, r))
  }

  // Each registered reader is on exactly one of the two lists, exactly once.
  ghost predicate ListsOk(s: State) {
    && Distinct(s.registry) && Distinct(s.qsreaders)
    && (forall r :: r in s.registry ==> r in s.readers && r !in s.qsreaders)
    && (forall r :: r in s.qsreaders ==> r in s.readers)
  }

  ghost predicate SyncOk(w: Width, s: State) {
    && (s.sync.Some? ==> s.sync.value.caller !in s.waiting)
    && (s.qsreaders != [] ==>
        s.sync.Some? && (s.sync.value.pc.Pass? || s.sync.value.pc.Walk? || s.sync.value.pc.Sleep?))
    && (s.sync.Some? ==>
          match s.sync.value.pc
          case Flip(p) => p <= LastPhase(w)
          case Pass(p) => p <= LastPhase(w)
          case Sleep(p) => p <= LastPhase(w)
          case Walk(p, todo) => p <= LastPhase(w) && Distinct(todo) && (forall r :: r in todo ==> r in s.registry)
          case _ => true)
  }

  ghost predicate Inv(w: Width, s: State) {
    && s.ctr == Code(w, s.flips)
    && (forall r :: r in s.readers ==> ReaderOk(w, s, r))
    && ListsOk(s)
    && SyncOk(w, s)
  }

  lemma NextCtrIsCode(w: Width, k: nat)
    ensures NextCtr(w, Code(w, k)) == Code(w, k + 1)
  {
    match w {
      case Long32 =>
      case Long64 =>
        var m := k % TWO_63;
        assert (k + 1) % TWO_63 == if m + 1 == TWO_63 then 0 else m + 1;
    }
  }

  lemma RemoveMembers(s: seq<Tid>, r: Tid)
    requires Distinct(s)
    ensures Distinct(Remove(s, r))
    ensures forall x :: x in Remove(s, r) <==> x in s && x != r
  {
    if r in s { DropAtMembers(s, IndexOf(s, r)); }
  }

  lemma StepKeepsInv(w: Width, s: State, l: Label)
    requires Inv(w, s) && Enabled(w, s, l)
    ensures Inv(w, Apply(w, s, l))
  {
    var s' := Apply(w, s, l);
    match l {
      case Unregister(r) =>
        RemoveMembers(s.registry, r); RemoveMembers(s.qsreaders, r);
      case Advance => AdvanceKeepsInv(w, s);
      case Register(r) =>
        assert forall x :: x in s'.registry <==> x == r || x in s.registry;
      case _ =>
    }
  }

  // The body of the list walk: `r` moves from registry to qsreaders.
  lemma MoveKeepsLists(s: State, s': State, r: Tid)
    requires ListsOk(s) && r in s.registry
    requires s' == s.(registry := Remove(s.registry, r), qsreaders := [r] + s.qsreaders)
    ensures ListsOk(s')
    ensures forall x :: Registered(s', x) <==> Registered(s, x)
    ensures forall x :: x in s'.registry <==> x in s.registry && x != r
  {
    RemoveMembers(s.registry, r);
    assert forall x :: x in s'.qsreaders <==> x == r || x in s.qsreaders;
  }

  lemma WalkKeepsInv(w: Width, s: State)
    requires Inv(w, s) && Enabled(w, s, Advance)
    requires s.sync.value.pc.Walk? && s.sync.value.pc.todo != []
    ensures Inv(w, AdvanceSync(w, s))
  {
    var todo := s.sync.value.pc.todo;
    var r := todo[0];
    assert forall x :: x in todo[1..] ==> x in todo && x != r;
    if !Ongoing(s, r) {
      var moved := s.(registry := Remove(s.registry, r), qsreaders := [r] + s.qsreaders);
      MoveKeepsLists(s, moved, r);
      assert forall x :: x in s.readers ==> ReaderOk(w, moved, x);
    }
  }

  lemma AdvanceKeepsInv(w: Width, s: State)
    requires Inv(w, s) && Enabled(w, s, Advance)
    ensures Inv(w, AdvanceSync(w, s))
  {
    match s.sync.value.pc {
      case Flip(p) => NextCtrIsCode(w, s.flips);
      case Walk(p, todo) => if todo != [] { WalkKeepsInv(w, s); }
      case _ =>
    }
  }

  lemma RunKeepsInv(w: Width, tr: seq<State>, i: nat)
    requires Run(w, tr) && i < |tr|
    ensures Inv(w, tr[i])
  {
    if i > 0 {
      RunKeepsInv(w, tr, i - 1);
      assert NextAt(w, tr, i - 1);
      var l :| Enabled(w, tr[i - 1], l) && tr[i] == Apply(w, tr[i - 1], l);
      StepKeepsInv(w, tr[i - 1], l);
    }
  }

  // The label of the step that leads to `tr[i]`.
  lemma LabelOf(w: Width, tr: seq<State>, i: nat) returns (l: Label)
    requires Run(w, tr) && 0 < i < |tr|
    ensures Inv(w, tr[i - 1]) && Enabled(w, tr[i - 1], l) && tr[i] == Apply(w, tr[i - 1], l)
  {
    RunKeepsInv(w, tr, i - 1);
    assert NextAt(w, tr, i - 1);
    l :| Enabled(w, tr[i - 1], l) && tr[i] == Apply(w, tr[i - 1], l);
  }

  /** Only registering and unregistering change who is registered: the walk, the swap at the end of
      wait_for_readers and every other step conserve the readers. */
  lemma RegistryConserved(w: Width, s: State, l: Label, x: Tid)
    requires Inv(w, s) && Enabled(w, s, l)
    ensures var s' := Apply(w, s, l);
      Registered(s', x) <==>
        (if l == Register(x) then true else if l == Unregister(x) then false else Registered(s, x))
  {
    match l {
      case Unregister(r) => RemoveMembers(s.registry, r); RemoveMembers(s.qsreaders, r);
      case Register(r) =>
      case Advance =>
        if s.sync.value.pc.Walk? && s.sync.value.pc.todo != [] && !Ongoing(s, s.sync.value.pc.todo[0]) {
          MoveKeepsLists(s, AdvanceSync(w, s).(sync := s.sync), s.sync.value.pc.todo[0]);
        }
      case _ =>
    }
  }

  // ---------- Critical sections ----------

  ghost predicate Inside(s: State, r: Tid) {
    r in s.readers && s.readers[r].ctr != 0
  }

  /** `r` is inside a critical section in both states, and it is the same one. */
  ghost predicate SameSection(s: State, s': State, r: Tid) {
    Inside(s, r) && Inside(s', r) && s.readers[r].section == s'.readers[r].section
  }

  // Counts the publications and retractions of `ctr`; even exactly inside a critical section.
  function Progress(s: State, r: Tid): nat
    requires r in s.readers
  {
    2 * s.readers[r].section + if s.readers[r].ctr == 0 then 1 else 0
  }

  lemma ProgressStep(w: Width, s: State, l: Label, r: Tid)
    requires Inv(w, s) && Enabled(w, s, l) && r in s.readers
    ensures r in Apply(w, s, l).readers
    ensures Progress(s, r) <= Progress(Apply(w, s, l), r)
  {
  }

  lemma ProgressMonotone(w: Width, tr: seq<State>, i: nat, j: nat, r: Tid)
    requires Run(w, tr) && i <= j < |tr| && r in tr[i].readers
    ensures r in tr[j].readers && Progress(tr[i], r) <= Progress(tr[j], r)
    decreases j - i
  {
    if i < j {
      ProgressMonotone(w, tr, i, j - 1, r);
      var l := LabelOf(w, tr, j);
      ProgressStep(w, tr[j - 1], l, r);
    }
  }

  lemma SameSectionBetween(w: Width, tr: seq<State>, i: nat, m: nat, j: nat, r: Tid)
    requires Run(w, tr) && i <= m <= j < |tr| && SameSection(tr[i], tr[j], r)
    ensures SameSection(tr[i], tr[m], r) && SameSection(tr[m], tr[j], r)
  {
    ProgressMonotone(w, tr, i, m, r);
    ProgressMonotone(w, tr, m, j, r);
  }

  lemma EraStep(w: Width, s: State, l: Label, r: Tid)
    requires Inv(w, s) && Enabled(w, s, l) && SameSection(s, Apply(w, s, l), r)
    ensures Apply(w, s, l).readers[r].era == s.readers[r].era
  {
  }

  // The counter is loaded once for each section.
  lemma {:induction false} SectionHasOneEra(w: Width, tr: seq<State>, i: nat, j: nat, r: Tid)
    requires Run(w, tr) && i <= j < |tr| && SameSection(tr[i], tr[j], r)
    ensures tr[j].readers[r].era == tr[i].readers[r].era
    decreases j - i
  {
    if i < j {
      SameSectionBetween(w, tr, i, j - 1, j, r);
      SectionHasOneEra(w, tr, i, j - 1, r);
      var l := LabelOf(w, tr, j);
      EraStep(w, tr[j - 1], l, r);
    }
  }

  // ---------- Safety of one grace period ----------

  // What holds of a reader that stays in one critical section while a grace period that
  // began after `g` counter switches goes on.
  ghost predicate Overlooked(w: Width, g: nat, s: State, r: Tid)
    requires r in s.readers && s.sync.Some?
  {
    var k := s.readers[r].era;
    && k <= g && s.readers[r].ctr == Code(w, k) && Registered(s, r)
    && match s.sync.value.pc {
         case Enter => s.flips == g
         case Flip(p) => s.flips == g + p && (p > 0 ==> Code(w, k) == Code(w, g + 1))
         case Return => s.flips == g + 1 + LastPhase(w) && Code(w, k) == Code(w, g + 1)
                        && Code(w, k) == Code(w, g + 1 + LastPhase(w))
         case pc => s.flips == g + pc.phase + 1
                    && (pc.phase > 0 ==> Code(w, k) == Code(w, g + 1))
                    && (r in s.qsreaders ==> Code(w, k) == Code(w, g + 1 + pc.phase))
       }
  }

  lemma OverlookedStep(w: Width, g: nat, s: State, s': State, l: Label, r: Tid)
    requires Inv(w, s) && Enabled(w, s, l) && s' == Apply(w, s, l)
    requires s.sync.Some? && s'.sync.Some? && SameSection(s, s', r)
    requires Overlooked(w, g, s, r)
    ensures Overlooked(w, g, s', r)
  {
    RegistryConserved(w, s, l, r);
    if l.Unregister? {
      OverlookedUnregister(w, g, s, s', l, r);
    } else if l.Advance? {
      OverlookedAdvance(w, g, s, s', r);
    } else {
      OverlookedBystander(w, g, s, s', l, r);
    }
  }

  lemma OverlookedAdvance(w: Width, g: nat, s: State, s': State, r: Tid)
    requires Inv(w, s) && Enabled(w, s, Advance) && s' == Apply(w, s, Advance)
    requires s.sync.Some? && s'.sync.Some? && SameSection(s, s', r) && Registered(s', r)
    requires Overlooked(w, g, s, r)
    ensures Overlooked(w, g, s', r)
  {
    AdvanceKeepsInv(w, s);
    if s.sync.value.pc.Walk? { OverlookedWalk(w, g, s, s', r); } else { OverlookedTurn(w, g, s, s', r); }
  }

  lemma OverlookedWalk(w: Width, g: nat, s: State, s': State, r: Tid)
    requires Inv(w, s) && Enabled(w, s, Advance) && s' == Apply(w, s, Advance) && s.sync.value.pc.Walk?
    requires s'.sync.Some? && SameSection(s, s', r) && Registered(s', r)
    requires Overlooked(w, g, s, r)
    ensures Overlooked(w, g, s', r)
  {
  }

  lemma OverlookedTurn(w: Width, g: nat, s: State, s': State, r: Tid)
    requires SyncOk(w, s) && Enabled(w, s, Advance) && s' == Apply(w, s, Advance) && !s.sync.value.pc.Walk?
    requires s'.sync.Some? && SameSection(s, s', r) && Registered(s', r)
    requires Overlooked(w, g, s, r) && s.qsreaders == s'.qsreaders
    ensures Overlooked(w, g, s', r)
  {
  }

  // Steps of readers, registrations and calls of synchronize_rcu.
  lemma OverlookedBystander(w: Width, g: nat, s: State, s': State, l: Label, r: Tid)
    requires Enabled(w, s, l) && !l.Unregister? && !l.Advance? && s' == Apply(w, s, l)
    requires s.sync.Some? && SameSection(s, s', r) && Registered(s', r)
    requires Overlooked(w, g, s, r)
    ensures s'.sync.Some? && Overlooked(w, g, s', r)
  {
  }

  lemma OverlookedUnregister(w: Width, g: nat, s: State, s': State, l: Label, r: Tid)
    requires Inv(w, s) && Enabled(w, s, l) && l.Unregister? && s' == Apply(w, s, l)
    requires s.sync.Some? && SameSection(s, s', r) && Registered(s', r)
    requires Overlooked(w, g, s, r)
    ensures Overlooked(w, g, s', r)
  {
    RemoveMembers(s.qsreaders, l.r);
  }

  lemma CallerStaysOrAcquires(w: Width, s: State, l: Label, caller: Tid)
    requires Inv(w, s) && Enabled(w, s, l)
    requires Apply(w, s, l).sync.Some? && Apply(w, s, l).sync.value.caller == caller
    ensures if s.sync.None? then Apply(w, s, l).sync == Some(Sync(caller, Enter))
            else s.sync.value.caller == caller
  {
  }

  // The step at which the grace period that is about to return took rcu_sync_lock.
  lemma FindAcquire(w: Width, tr: seq<State>, i: nat, j: nat, caller: Tid) returns (a: nat)
    requires Run(w, tr) && i < j < |tr|
    requires caller in tr[i].waiting
    requires tr[j].sync.Some? && tr[j].sync.value.caller == caller
    ensures i < a <= j && tr[a].sync == Some(Sync(caller, Enter))
    ensures forall m :: a <= m <= j ==> tr[m].sync.Some?
    decreases j
  {
    var l := LabelOf(w, tr, j);
    CallerStaysOrAcquires(w, tr[j - 1], l, caller);
    if tr[j - 1].sync.None? {
      a := j;
    } else {
      RunKeepsInv(w, tr, i);
      assert i < j - 1;
      a := FindAcquire(w, tr, i, j - 1, caller);
    }
  }

  lemma OverlookedFrom(w: Width, tr: seq<State>, a: nat, j: nat, r: Tid)
    requires Run(w, tr) && a <= j < |tr|
    requires tr[a].sync.Some? && tr[a].sync.value.pc.Enter?
    requires forall m :: a <= m <= j ==> tr[m].sync.Some?
    requires SameSection(tr[a], tr[j], r)
    ensures Overlooked(w, tr[a].flips, tr[j], r)
    decreases j
  {
    if a == j {
      RunKeepsInv(w, tr, a);
      assert ReaderOk(w, tr[a], r);
    } else {
      SameSectionBetween(w, tr, a, j - 1, j, r);
      OverlookedFrom(w, tr, a, j - 1, r);
      var l := LabelOf(w, tr, j);
      OverlookedStep(w, tr[a].flips, tr[j - 1], tr[j], l, r);
    }
  }

  // A value published from era `k` equals the counter in every phase of the grace period
  // that starts after `g` switches.
  ghost predicate Collides(w: Width, k: nat, g: nat) {
    Code(w, k) == Code(w, g + 1) && Code(w, k) == Code(w, g + 1 + LastPhase(w))
  }

  /** A reader inside a critical section when synchronize_rcu is called can only still be in it when that
      call returns if the value it published collides with the counter in every phase of this grace
      period; in the increment form it then equals the counter at the return. */
  lemma SurvivorCollides(w: Width, tr: seq<State>, i: nat, j: nat, caller: Tid, r: Tid)
    requires Run(w, tr) && i < j < |tr|
    requires caller in tr[i].waiting && tr[j].sync == Some(Sync(caller, Return))
    requires SameSection(tr[i], tr[j], r)
    ensures tr[j].readers[r].era < tr[j].flips - LastPhase(w)
    ensures Collides(w, tr[j].readers[r].era, tr[j].flips - 1 - LastPhase(w))
    ensures tr[j].readers[r].ctr == tr[j].ctr
  {
    var a := FindAcquire(w, tr, i, j, caller);
    SameSectionBetween(w, tr, i, a, j, r);
    OverlookedFrom(w, tr, a, j, r);
    RunKeepsInv(w, tr, j);
  }

  // A value comes round after 2^63 switches at the earliest, or never in both phases.
  lemma CollisionNeedsRound(w: Width, k: nat, g: nat)
    requires k <= g && Collides(w, k, g)
    ensures w == Long64 && g + 1 - k >= TWO_63
  {
  }

  /** Grace-period safety, for any number of readers and callers and any interleaving, with readers
      that publish stale counter values: when synchronize_rcu returns, no reader that was inside a
      critical section when it was called is still inside that one.  The two-phase form needs no
      bound; the increment form needs fewer than 2^63 switches since the reader loaded the counter. */
  lemma GracePeriodSafe(w: Width, tr: seq<State>, i: nat, j: nat, caller: Tid, r: Tid)
    requires Run(w, tr) && i < j < |tr|
    requires caller in tr[i].waiting && tr[j].sync == Some(Sync(caller, Return))
    requires w == Long64 && r in tr[j].readers ==> tr[j].flips - tr[j].readers[r].era < TWO_63
    ensures !SameSection(tr[i], tr[j], r)
  {
    if SameSection(tr[i], tr[j], r) {
      SurvivorCollides(w, tr, i, j, caller, r);
      CollisionNeedsRound(w, tr[j].readers[r].era, tr[j].flips - 1 - LastPhase(w));
    }
  }

  // ---------- Exactly when a reader is overlooked ----------

  /** The call of synchronize_rcu that `caller` is in at `i` returns at `j`, its grace period having begun after
      `g` counter switches, and `r`, which loaded the counter after `k`, is in one critical section throughout. */
  ghost predicate Survives(w: Width, k: nat, g: nat, tr: seq<State>, i: nat, j: nat, caller: Tid, r: Tid) {
    && Run(w, tr) && i < j < |tr|
    && caller in tr[i].waiting && tr[j].sync == Some(Sync(caller, Return))
    && SameSection(tr[i], tr[j], r)
    && tr[j].readers[r].era == k && tr[j].flips == g + 1 + LastPhase(w)
  }

  // One registered reader that is outside; what it has loaded it loaded after `k` switches.
  function Idle(loaded: Option<nat>, k: nat, n: nat): State {
    State(Code(Long64, n), n, map[0 := Reader(0, loaded, 0, k)], [0], [], {}, None)
  }

  lemma Extend(w: Width, tr: seq<State>, l: Label) returns (longer: seq<State>)
    requires Run(w, tr) && Enabled(w, tr[|tr| - 1], l)
    ensures Run(w, longer) && longer == tr + [Apply(w, tr[|tr| - 1], l)]
  {
    longer := tr + [Apply(w, tr[|tr| - 1], l)];
    forall i: nat | i < |longer| - 1 ensures NextAt(w, longer, i) {
      if i < |tr| - 1 {
        assert NextAt(w, tr, i);
      }
    }
  }

  // A whole grace period that the reader does not delay.
  lemma EmptyGracePeriod(tr: seq<State>, loaded: Option<nat>, k: nat, n: nat) returns (longer: seq<State>)
    requires Run(Long64, tr) && tr[|tr| - 1] == Idle(loaded, k, n)
    ensures Run(Long64, longer) && longer[|longer| - 1] == Idle(loaded, k, n + 1)
  {
    NextCtrIsCode(Long64, n);
    longer := Extend(Long64, tr, Call(1));
    longer := Extend(Long64, longer, Acquire(1));
    longer := Extend(Long64, longer, Advance);
    longer := Extend(Long64, longer, Advance);
    longer := Extend(Long64, longer, Advance);
    longer := Extend(Long64, longer, Advance);
    longer := Extend(Long64, longer, Advance);
    longer := Extend(Long64, longer, Advance);
  }

  lemma {:induction false} EmptyGracePeriods(tr: seq<State>, loaded: Option<nat>, k: nat, m: nat, n: nat)
    returns (longer: seq<State>)
    requires m <= n && Run(Long64, tr) && tr[|tr| - 1] == Idle(loaded, k, m)
    ensures Run(Long64, longer) && longer[|longer| - 1] == Idle(loaded, k, n)
    decreases n - m
  {
    if m == n {
      longer := tr;
    } else {
      longer := EmptyGracePeriod(tr, loaded, k, m);
      longer := EmptyGracePeriods(longer, loaded, k, m + 1, n);
    }
  }

  // A reader that loaded the counter after `k` switches and is preempted while `g - k` more are made.
  lemma PreemptedReader(k: nat, g: nat) returns (tr: seq<State>)
    requires k <= g
    ensures Run(Long64, tr) && tr[|tr| - 1] == Idle(Some(Code(Long64, k)), k, g)
  {
    var start := State(RCU_GP_LOCKED, 0, map[0 := Reader(0, None, 0, 0)], [], [], {}, None);
    tr := Extend(Long64, [start], Register(0));
    tr := EmptyGracePeriods(tr, None, 0, 0, k);
    tr := Extend(Long64, tr, Load(0));
    tr := EmptyGracePeriods(tr, Some(Code(Long64, k)), k, k, g);
  }

  // The reader has published after `g` switches; `waiting` and `sync` say where the caller of synchronize_rcu is.
  function StaleInside(k: nat, g: nat, waiting: set<Tid>, sync: Option<Sync>): State {
    var n := if sync.None? then g else g + 1;
    State(Code(Long64, n), n, map[0 := Reader(Code(Long64, k), None, 1, k)], [0], [], waiting, sync)
  }

  lemma OverlookStaleReader(tr: seq<State>, k: nat, g: nat) returns (longer: seq<State>)
    requires Run(Long64, tr) && tr[|tr| - 1] == StaleInside(k, g, {1}, None) && Code(Long64, k) == Code(Long64, g + 1)
    ensures Run(Long64, longer) && |longer| > |tr| && longer[|tr| - 1] == tr[|tr| - 1]
    ensures longer[|longer| - 1] == StaleInside(k, g, {}, Some(Sync(1, Return)))
  {
    NextCtrIsCode(Long64, g);
    longer := Extend(Long64, tr, Acquire(1));
    longer := Extend(Long64, longer, Advance);
    longer := Extend(Long64, longer, Advance);
    longer := Extend(Long64, longer, Advance);
    longer := Extend(Long64, longer, Advance);
    longer := Extend(Long64, longer, Advance);
  }

  // The reader publishes just before synchronize_rcu is called, and is overlooked.
  lemma StaleReaderSurvives(k: nat, g: nat) returns (tr: seq<State>, i: nat, j: nat)
    requires k <= g && Code(Long64, k) == Code(Long64, g + 1)
    ensures Survives(Long64, k, g, tr, i, j, 1, 0)
  {
    tr := PreemptedReader(k, g);
    tr := Extend(Long64, tr, Store(0));
    tr := Extend(Long64, tr, Call(1));
    i := |tr| - 1;
    tr := OverlookStaleReader(tr, k, g);
    j := |tr| - 1;
  }

  /** A reader that loaded the counter after `k` switches can survive a grace period that begins after `g`
      if and only if the value it loaded collides with the counter in every phase of that grace period. */
  lemma SurvivesIffCollides(w: Width, k: nat, g: nat)
    ensures (exists tr, i, j, caller, r :: Survives(w, k, g, tr, i, j, caller, r)) <==> k <= g && Collides(w, k, g)
  {
    if tr, i, j, caller, r :| Survives(w, k, g, tr, i, j, caller, r) {
      SurvivorCollides(w, tr, i, j, caller, r);
    }
    if k <= g && Collides(w, k, g) {
      CollisionNeedsRound(w, k, g);
      var tr, i, j := StaleReaderSurvives(k, g);
      assert Survives(w, k, g, tr, i, j, 1, 0);
    }
  }

  lemma RemainderIs(a: int, q: int, r: int)
    requires a == q * TWO_63 + r && 0 <= r < TWO_63
    ensures a % TWO_63 == r
  {
  }

  lemma SameRemainder(a: nat, b: nat)
    requires a <= b
    ensures a % TWO_63 == b % TWO_63 <==> (b - a) % TWO_63 == 0
  {
    var q, r := (b - a) / TWO_63, (b - a) % TWO_63;
    var p, s := a / TWO_63, a % TWO_63;
    if r + s < TWO_63 {
      RemainderIs(b, p + q, r + s);
    } else {
      RemainderIs(b, p + q + 1, r + s - TWO_63);
    }
  }

  /** In numbers: never with two phases, and in the increment form after whole rounds of 2^63 switches. */
  lemma CollidesIffRounds(w: Width, k: nat, g: nat)
    requires k <= g
    ensures Collides(w, k, g) <==> w == Long64 && (g + 1 - k) % TWO_63 == 0
  {
    if w == Long64 {
      SameRemainder(k, g + 1);
      assert Collides(w, k, g) <==> k % TWO_63 == (g + 1) % TWO_63;
    } else if Collides(w, k, g) {
      CollisionNeedsRound(w, k, g);
    }
  }

  /** The first such case: 2^63 - 1 switches after the reader loaded the counter, just before it publishes. */
  lemma WrappedCounterOverlooksReader()
    ensures exists tr: seq<State>, i, j ::
              Run(Long64, tr) && 0 <= i < j < |tr|
              && 1 in tr[i].waiting && tr[j].sync == Some(Sync(1, Return))
              && tr[j].flips == TWO_63 && SameSection(tr[i], tr[j], 0)
  {
    var tr, i, j := StaleReaderSurvives(0, TWO_63 - 1);
  }

  // ---------- A grace period can always be completed ----------

  /** `longer` goes on from `tr` by steps of the holder of rcu_sync_lock and, if `leaving`, by readers that
      leave their sections. */
  ghost predicate GoesOn(w: Width, tr: seq<State>, longer: seq<State>, leaving: bool) {
    && Run(w, longer) && tr <= longer
    && forall i: nat :: |tr| <= i < |longer| ==> i > 0 && GoesOnAt(w, longer, i, leaving)
  }

  ghost predicate GoesOnAt(w: Width, tr: seq<State>, i: nat, leaving: bool)
    requires 0 < i < |tr|
  {
    exists l: Label :: (l.Advance? || (leaving && l.Unlock?)) && Enabled(w, tr[i - 1], l)
        && tr[i] == Apply(w, tr[i - 1], l)
  }

  function Last(tr: seq<State>): State
    requires tr != []
  {
    tr[|tr| - 1]
  }

  predicate InPhase(s: State, p: nat) {
    s.sync.Some? &&
    match s.sync.value.pc
    case Pass(q) => q == p
    case Walk(q, _) => q == p
    case Sleep(q) => q == p
    case _ => false
  }

  // No registered reader is in a section that began before this phase.
  ghost predicate NoneOld(s: State) {
    forall r :: Registered(s, r) && r in s.readers && s.readers[r].ctr != 0 ==> s.readers[r].ctr == s.ctr
  }

  // How many steps the holder needs for the rest of the phase.
  function PhaseRank(s: State): nat
    requires s.sync.Some?
  {
    match s.sync.value.pc
    case Pass(_) => |s.registry| + 2
    case Walk(_, todo) => |s.registry| + if |todo| == |s.registry| then 1 else 4
    case Sleep(_) => |s.registry| + 3
    case _ => 0
  }

  lemma {:induction false} SubsetShorter(a: seq<Tid>, b: seq<Tid>)
    requires Distinct(a) && (forall r :: r in a ==> r in b)
    ensures |a| <= |b|
    ensures a == [] && b != [] ==> |a| < |b|
    decreases |a|
  {
    if a != [] {
      var k := IndexOf(b, a[0]);
      var rest := DropAt(b, k);
      forall r | r in a[1..] ensures r in rest {
        var j :| 0 <= j < |a[1..]| && a[1..][j] == r;
        assert a[j + 1] == r && a[0] != a[j + 1];
        assert a[j + 1] in a && r in b;
        var i :| 0 <= i < |b| && b[i] == r;
        assert if i < k then rest[i] == r else rest[i - 1] == r;
      }
      SubsetShorter(a[1..], rest);
    }
  }

  lemma WalkOn(w: Width, s: State, p: nat)
    requires Inv(w, s) && NoneOld(s) && InPhase(s, p) && s.sync.value.pc.Walk? && s.sync.value.pc.todo != []
    ensures Enabled(w, s, Advance)
    ensures var s' := Apply(w, s, Advance);
      InPhase(s', p) && NoneOld(s') && s'.readers == s.readers && s'.sync.value.caller == s.sync.value.caller
      && PhaseRank(s') < PhaseRank(s)
  {
    var todo := s.sync.value.pc.todo;
    assert todo[0] in s.registry && Registered(s, todo[0]);
    RemoveMembers(s.registry, todo[0]);
    RegistryConservedAll(w, s);
  }

  lemma RegistryConservedAll(w: Width, s: State)
    requires Inv(w, s) && Enabled(w, s, Advance)
    ensures forall x :: Registered(Apply(w, s, Advance), x) <==> Registered(s, x)
  {
    forall x ensures Registered(Apply(w, s, Advance), x) <==> Registered(s, x) { RegistryConserved(w, s, Advance, x); }
  }

  // One step of the holder, with nobody to wait for.
  lemma PhaseGoesOn(w: Width, s: State, p: nat)
    requires Inv(w, s) && NoneOld(s) && InPhase(s, p)
    ensures Enabled(w, s, Advance)
    ensures var s' := Apply(w, s, Advance);
      s'.sync.Some? && s'.sync.value.caller == s.sync.value.caller && s'.readers == s.readers && NoneOld(s')
      && if InPhase(s', p) then PhaseRank(s') < PhaseRank(s)
         else s'.sync.value.pc == (if p < LastPhase(w) then Flip(p + 1) else Return)
  {
    match s.sync.value.pc {
      case Walk(_, todo) => if todo != [] { WalkOn(w, s, p); } else { RegistryConservedAll(w, s); }
      case Pass(_) =>
      case Sleep(_) =>
    }
  }

  /** With nobody to wait for, the holder finishes the phase by itself, in a number of steps bounded by the
      length of the registry.  Readers may be inside, in sections that began in this phase. */
  lemma {:induction false} PhaseEnds(w: Width, tr: seq<State>, p: nat) returns (longer: seq<State>)
    requires Run(w, tr) && InPhase(Last(tr), p) && NoneOld(Last(tr))
    ensures GoesOn(w, tr, longer, false) && |longer| <= |tr| + PhaseRank(Last(tr)) <= |tr| + |Last(tr).registry| + 4
    ensures Last(longer).sync == Some(Sync(Last(tr).sync.value.caller, if p < LastPhase(w) then Flip(p + 1)
            else Return))
    ensures Last(longer).readers == Last(tr).readers
    decreases PhaseRank(Last(tr))
  {
    var s := Last(tr);
    RunKeepsInv(w, tr, |tr| - 1);
    PhaseGoesOn(w, s, p);
    longer := GoOn(w, tr, Advance, false);
    if InPhase(Last(longer), p) {
      var next := longer;
      longer := PhaseEnds(w, next, p);
      Joined(w, tr, next, longer, false);
    }
  }

  lemma Joined(w: Width, tr: seq<State>, next: seq<State>, longer: seq<State>, leaving: bool)
    requires tr != [] && GoesOn(w, tr, next, leaving) && GoesOn(w, next, longer, leaving)
    ensures GoesOn(w, tr, longer, leaving)
  {
    forall i: nat | |tr| <= i < |longer| ensures GoesOnAt(w, longer, i, leaving) {
      if i < |next| {
        assert GoesOnAt(w, next, i, leaving) && longer[i] == next[i] && longer[i - 1] == next[i - 1];
      } else {
        assert GoesOnAt(w, longer, i, leaving);
      }
    }
  }

  lemma GoOn(w: Width, tr: seq<State>, l: Label, leaving: bool) returns (longer: seq<State>)
    requires Run(w, tr) && Enabled(w, Last(tr), l) && (l.Advance? || (leaving && l.Unlock?))
    ensures GoesOn(w, tr, longer, leaving) && |longer| == |tr| + 1 && Last(longer) == Apply(w, Last(tr), l)
  {
    longer := Extend(w, tr, l);
    assert GoesOnAt(w, longer, |tr|, leaving);
  }

  lemma Freely(w: Width, tr: seq<State>, longer: seq<State>)
    requires tr != [] && GoesOn(w, tr, longer, false)
    ensures GoesOn(w, tr, longer, true)
  {
    forall i: nat | |tr| <= i < |longer| ensures GoesOnAt(w, longer, i, true) {
      assert GoesOnAt(w, longer, i, false);
    }
  }

  // The registered readers that are inside.
  function Insiders(s: State): set<Tid> {
    set r | r in s.readers && s.readers[r].ctr != 0
  }

  lemma NobodyOld(s: State)
    requires Insiders(s) == {}
    ensures NoneOld(s)
  {
    forall r | Registered(s, r) && r in s.readers ensures s.readers[r].ctr == 0 { assert r !in Insiders(s); }
  }

  lemma {:induction false} AllLeave(w: Width, tr: seq<State>) returns (longer: seq<State>)
    requires Run(w, tr)
    ensures GoesOn(w, tr, longer, true) && Insiders(Last(longer)) == {} && Last(longer).sync == Last(tr).sync
    ensures Last(longer).waiting == Last(tr).waiting
    decreases |Insiders(Last(tr))|
  {
    var s := Last(tr);
    if Insiders(s) == {} {
      longer := tr;
    } else {
      var r :| r in Insiders(s);
      var next := GoOn(w, tr, Unlock(r), true);
      assert Insiders(Last(next)) == Insiders(s) - {r};
      longer := AllLeave(w, next);
      Joined(w, tr, next, longer, true);
    }
  }

  // From the switch that opens phase p to the end of the phase.
  lemma PhaseRuns(w: Width, tr: seq<State>, p: nat) returns (longer: seq<State>)
    requires Run(w, tr) && Last(tr).sync.Some? && Last(tr).sync.value.pc == Flip(p) && Insiders(Last(tr)) == {}
    ensures GoesOn(w, tr, longer, false) && Last(longer).readers == Last(tr).readers
    ensures Last(longer).sync == Some(Sync(Last(tr).sync.value.caller, if p < LastPhase(w) then Flip(p + 1)
            else Return))
  {
    var next := GoOn(w, tr, Advance, false);
    NobodyOld(Last(next));
    longer := PhaseEnds(w, next, p);
    Joined(w, tr, next, longer, false);
  }

  // All phases that are left.
  lemma {:induction false} PhasesRun(w: Width, tr: seq<State>, p: nat) returns (longer: seq<State>)
    requires Run(w, tr) && Last(tr).sync.Some? && Last(tr).sync.value.pc == Flip(p) && Insiders(Last(tr)) == {}
    ensures GoesOn(w, tr, longer, false) && Last(longer).sync == Some(Sync(Last(tr).sync.value.caller, Return))
    decreases LastPhase(w) - p
  {
    longer := PhaseRuns(w, tr, p);
    if p < LastPhase(w) {
      var next := longer;
      longer := PhasesRun(w, next, p + 1);
      Joined(w, tr, next, longer, false);
    }
  }

  // The holder goes on by itself once every reader has left.
  lemma HolderReturns(w: Width, tr: seq<State>) returns (longer: seq<State>)
    requires Run(w, tr) && Last(tr).sync.Some? && Insiders(Last(tr)) == {}
    ensures GoesOn(w, tr, longer, false) && Last(longer).sync == Some(Sync(Last(tr).sync.value.caller, Return))
  {
    RunKeepsInv(w, tr, |tr| - 1);
    match Last(tr).sync.value.pc {
      case Return => longer := tr;
      case Enter =>
        longer := GoOn(w, tr, Advance, false);
        if Last(longer).sync.value.pc.Flip? { longer := ThenPhases(w, tr, longer, 0); }
      case Flip(p) => longer := PhasesRun(w, tr, p);
      case Pass(p) => longer := RestRuns(w, tr, p);
      case Walk(p, _) => longer := RestRuns(w, tr, p);
      case Sleep(p) => longer := RestRuns(w, tr, p);
    }
  }

  lemma ThenPhases(w: Width, tr: seq<State>, next: seq<State>, p: nat) returns (longer: seq<State>)
    requires tr != [] && Last(tr).sync.Some? && GoesOn(w, tr, next, false) && Insiders(Last(next)) == {}
    requires Last(next).sync == Some(Sync(Last(tr).sync.value.caller, Flip(p)))
    ensures GoesOn(w, tr, longer, false) && Last(longer).sync == Some(Sync(Last(tr).sync.value.caller, Return))
  {
    longer := PhasesRun(w, next, p);
    Joined(w, tr, next, longer, false);
  }

  lemma RestRuns(w: Width, tr: seq<State>, p: nat) returns (longer: seq<State>)
    requires Run(w, tr) && InPhase(Last(tr), p) && Insiders(Last(tr)) == {}
    ensures GoesOn(w, tr, longer, false) && Last(longer).sync == Some(Sync(Last(tr).sync.value.caller, Return))
  {
    NobodyOld(Last(tr));
    longer := PhaseEnds(w, tr, p);
    if p < LastPhase(w) { longer := ThenPhases(w, tr, longer, p + 1); }
  }

  /** synchronize_rcu never gets stuck: every run in which it is going on extends to one in which that very call
      is about to return, by steps of its own and of readers that leave, in both forms. */
  lemma GracePeriodCompletes(w: Width, tr: seq<State>) returns (longer: seq<State>)
    requires Run(w, tr) && Last(tr).sync.Some?
    ensures GoesOn(w, tr, longer, true) && Last(longer).sync == Some(Sync(Last(tr).sync.value.caller, Return))
  {
    var next := AllLeave(w, tr);
    longer := HolderReturns(w, next);
    Freely(w, next, longer);
    Joined(w, tr, next, longer, true);
  }

  // The call that is going on, if any, ends.
  lemma LockIsFreed(w: Width, tr: seq<State>) returns (longer: seq<State>)
    requires Run(w, tr)
    ensures Run(w, longer) && tr <= longer && Last(longer).sync.None? && Last(longer).waiting == Last(tr).waiting
  {
    longer := tr;
    if Last(tr).sync.Some? {
      longer := GracePeriodCompletes(w, tr);
      WaitersWait(w, tr, longer, |longer| - 1);
      longer := Extend(w, longer, Advance);
    }
  }

  lemma {:induction false} WaitersWait(w: Width, tr: seq<State>, longer: seq<State>, i: nat)
    requires tr != [] && GoesOn(w, tr, longer, true) && |tr| - 1 <= i < |longer|
    ensures longer[i].waiting == Last(tr).waiting
    decreases i
  {
    if i >= |tr| {
      WaitersWait(w, tr, longer, i - 1);
      assert GoesOnAt(w, longer, i, true);
    }
  }

  /** Every caller gets its grace period: a run in which it waits for rcu_sync_lock extends to one in which its
      own call has gone through a grace period and returned. */
  lemma WaiterReturns(w: Width, tr: seq<State>, caller: Tid) returns (longer: seq<State>, j: nat)
    requires Run(w, tr) && caller in Last(tr).waiting
    ensures Run(w, longer) && tr <= longer && |tr| <= j < |longer|
    ensures longer[j].sync == Some(Sync(caller, Return))
    ensures Last(longer).sync.None? && caller !in Last(longer).waiting
  {
    longer := LockIsFreed(w, tr);
    longer := Extend(w, longer, Acquire(caller));
    var mine := longer;
    longer := GracePeriodCompletes(w, mine);
    WaitersWait(w, mine, longer, |longer| - 1);
    j := |longer| - 1;
    longer := Extend(w, longer, Advance);
  }

  /** Readers never wait, wherever a grace period is: a registered reader that is outside gets inside by two
      steps of its own, and out again by one. */
  lemma ReadersNeverWait(w: Width, tr: seq<State>, r: Tid) returns (longer: seq<State>)
    requires Run(w, tr) && Registered(Last(tr), r) && r in Last(tr).readers
    requires !Inside(Last(tr), r) && Last(tr).readers[r].loaded.None?
    ensures Run(w, longer) && tr <= longer && |longer| == |tr| + 3
    ensures Inside(longer[|tr| + 1], r) && longer[|tr| + 1].readers[r].section == Last(tr).readers[r].section + 1
    ensures longer[|tr| + 1].readers[r].ctr == Last(tr).ctr
    ensures r in Last(longer).readers && !Inside(Last(longer), r)
    ensures Last(longer).sync == Last(tr).sync
  {
    RunKeepsInv(w, tr, |tr| - 1);
    longer := Extend(w, tr, Load(r));
    longer := Extend(w, longer, Store(r));
    longer := Extend(w, longer, Unlock(r));
  }

  /** Where nobody is registered there is nothing to wait for, and the counter is not switched: the call returns
      at once. */
  lemma NobodyRegistered(w: Width, tr: seq<State>, caller: Tid) returns (longer: seq<State>)
    requires Run(w, tr) && caller in Last(tr).waiting && Last(tr).sync.None? && Last(tr).registry == []
    ensures Run(w, longer) && tr <= longer && |longer| == |tr| + 3
    ensures longer[|tr| + 1].sync == Some(Sync(caller, Return)) && Last(longer).sync.None?
    ensures Last(longer).ctr == Last(tr).ctr && Last(longer).flips == Last(tr).flips
  {
    longer := Extend(w, tr, Acquire(caller));
    longer := Extend(w, longer, Advance);
    longer := Extend(w, longer, Advance);
  }

  /** Threads come and go while a grace period waits: whenever the holder does not have the registry in its hands,
      that is before its walk and between the passes, a thread can register, and by unregistering it undoes just
      that. */
  lemma ThreadsComeAndGo(w: Width, tr: seq<State>, r: Tid) returns (longer: seq<State>)
    requires Run(w, tr) && r in Last(tr).readers && !Registered(Last(tr), r)
    requires Last(tr).readers[r].ctr == 0 && Last(tr).readers[r].loaded.None?
    requires Last(tr).sync.Some? ==> Last(tr).sync.value.pc == Enter || Last(tr).sync.value.pc.Sleep?
    ensures Run(w, longer) && tr <= longer && |longer| == |tr| + 2
    ensures Registered(longer[|tr|], r) && Last(longer) == Last(tr)
  {
    RunKeepsInv(w, tr, |tr| - 1);
    var next := Extend(w, tr, Register(r));
    assert Last(next).registry == [r] + Last(tr).registry;
    longer := Extend(w, next, Unregister(r));
    assert IndexOf([r] + Last(tr).registry, r) == 0;
    assert DropAt([r] + Last(tr).registry, 0) == Last(tr).registry;
  }
}
