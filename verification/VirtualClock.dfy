/**
  qemu_clock_advance_virtual_time: the loop that warps the virtual clock from deadline to deadline
  and runs the two lists of the main loop, against a simulator that handles one event at a time.
 */
module VirtualClock {
  import opened TimerSpec
  import opened TimerRun
  import opened TimerDeadline
  import L = TimerList

  const ALL_ATTRIBUTES: bv32 := 0xffff_ffff    // QEMU_TIMER_ATTR_ALL

  datatype Firing<T> = Firing(timer: T, expiry: int, at: int)

  /** The virtual clock, the timers of main_loop_tlg and of the AioContext, the number of callbacks
      run so far and the timers they were run for. */
  datatype Clock<T> = Clock(now: int, main: seq<Armed<T>>, aio: seq<Armed<T>>, calls: nat, log: seq<Firing<T>>)

  /** What the k-th callback does when it runs at a given time, and which list a timer belongs to. */
  datatype World<!T> = World(cb: (nat, int) -> seq<Edit<T>>, inAio: T -> bool)

  // Callbacks arm timers strictly in the future.
  ghost predicate Strict<T>(w: World<T>) {
    forall k: nat, now: int :: AllAfter(w.cb(k, now), now)
  }

  function Select<T>(eds: seq<Edit<T>>, w: World<T>, aio: bool): seq<Edit<T>> {
    if eds == [] then []
    else (if w.inAio(eds[0].t) == aio then [eds[0]] else []) + Select(eds[1..], w, aio)
  }

  function ListOf<T>(c: Clock<T>, aio: bool): seq<Armed<T>> {
    if aio then c.aio else c.main
  }

  // Unlink the head of one list and run its callback, which may edit both.
  function Fire<T(==)>(c: Clock<T>, w: World<T>, aio: bool): Clock<T>
    requires ListOf(c, aio) != []
  {
    var head := ListOf(c, aio)[0];
    var eds := w.cb(c.calls, c.now);
    Clock(c.now,
          ApplyEdits(if aio then c.main else c.main[1..], Select(eds, w, false)),
          ApplyEdits(if aio then c.aio[1..] else c.aio, Select(eds, w, true)),
          c.calls + 1,
          c.log + [Firing(head.timer, head.expiry, c.now)])
  }

  ghost predicate Ok<T>(c: Clock<T>) {
    Wf(c.main) && Wf(c.aio)
  }

  lemma {:induction false} SelectAfter<T>(eds: seq<Edit<T>>, w: World<T>, aio: bool, now: int)
    requires AllAfter(eds, now)
    ensures AllAfter(Select(eds, w, aio), now)
  {
    if eds != [] {
      assert ArmsAfter(eds[0], now);
      assert forall i :: 0 <= i < |eds[1..]| ==> eds[1..][i] == eds[i + 1];
      SelectAfter(eds[1..], w, aio, now);
    }
  }

  // A callback never makes a timer due.
  lemma {:induction false} FireDue<T>(c: Clock<T>, w: World<T>, aio: bool)
    requires Ok(c) && Strict(w) && Due(ListOf(c, aio), c.now) != []
    ensures Ok(Fire(c, w, aio))
    ensures |Due(ListOf(Fire(c, w, aio), aio), c.now)| < |Due(ListOf(c, aio), c.now)|
    ensures |Due(ListOf(Fire(c, w, aio), !aio), c.now)| <= |Due(ListOf(c, !aio), c.now)|
  {
    var eds := w.cb(c.calls, c.now);
    assert AllAfter(eds, c.now);
    SelectAfter(eds, w, aio, c.now); SelectAfter(eds, w, !aio, c.now);
    var s, o := ListOf(c, aio), ListOf(c, !aio);
    TailWf(s);
    EditsDue(s[1..], Select(eds, w, aio), c.now);
    EditsDue(o, Select(eds, w, !aio), c.now);
    StrikeShrinks(Due(s[1..], c.now), Select(eds, w, aio));
    StrikeShrinks(Due(o, c.now), Select(eds, w, !aio));
  }

  /** timerlist_run_timers on one of the two lists. */
  ghost function RunList<T>(c: Clock<T>, w: World<T>, aio: bool): (r: Clock<T>)
    requires Ok(c) && Strict(w)
    ensures Ok(r) && r.now == c.now && Due(ListOf(r, aio), r.now) == []
    ensures Due(ListOf(c, !aio), c.now) == [] ==> Due(ListOf(r, !aio), r.now) == []
    decreases |Due(ListOf(c, aio), c.now)|
  {
    if Due(ListOf(c, aio), c.now) == [] then c
    else
      FireDue(c, w, aio);
      RunList(Fire(c, w, aio), w, aio)
  }

  lemma FireEdits<T>(c: Clock<T>, w: World<T>, aio: bool)
    requires ListOf(c, aio) != []
    ensures ListOf(Fire(c, w, aio), aio) == ApplyEdits(ListOf(c, aio)[1..], Select(w.cb(c.calls, c.now), w, aio))
    ensures Fire(c, w, aio).calls == c.calls + 1 && Fire(c, w, aio).now == c.now
  {
  }

  lemma RunTimersStep<T>(s: seq<Armed<T>>, now: int, cb: Callbacks<T>, k: nat)
    requires Wf(s) && FutureOnly(cb, now) && Due(s, now) != []
    ensures s != [] && Wf(ApplyEdits(s[1..], cb(k)))
    ensures RunTimers(s, now, cb, k).rest == RunTimers(ApplyEdits(s[1..], cb(k)), now, cb, k + 1).rest
    ensures RunTimers(s, now, cb, k).calls == RunTimers(ApplyEdits(s[1..], cb(k)), now, cb, k + 1).calls
  {
    TailWf(s);
    assert AllAfter(cb(k), now);
    EditsDue(s[1..], cb(k), now);
  }

  predicate SameEnd<T(==)>(r: Clock<T>, aio: bool, o: Outcome<T>) {
    ListOf(r, aio) == o.rest && r.calls == o.calls
  }

  lemma FireIsStep<T>(c: Clock<T>, w: World<T>, aio: bool, cb: Callbacks<T>)
    requires Wf(ListOf(c, aio)) && FutureOnly(cb, c.now) && Due(ListOf(c, aio), c.now) != []
    requires cb(c.calls) == Select(w.cb(c.calls, c.now), w, aio)
    ensures Wf(ListOf(Fire(c, w, aio), aio))
    ensures RunTimers(ListOf(c, aio), c.now, cb, c.calls).rest
         == RunTimers(ListOf(Fire(c, w, aio), aio), c.now, cb, c.calls + 1).rest
    ensures RunTimers(ListOf(c, aio), c.now, cb, c.calls).calls
         == RunTimers(ListOf(Fire(c, w, aio), aio), c.now, cb, c.calls + 1).calls
  {
    FireEdits(c, w, aio);
    RunTimersStep(ListOf(c, aio), c.now, cb, c.calls);
  }

  lemma StepBack<T>(r: Clock<T>, c: Clock<T>, w: World<T>, aio: bool, cb: Callbacks<T>)
    requires Wf(ListOf(c, aio)) && FutureOnly(cb, c.now) && Due(ListOf(c, aio), c.now) != []
    requires cb(c.calls) == Select(w.cb(c.calls, c.now), w, aio) && Wf(ListOf(Fire(c, w, aio), aio))
    requires SameEnd(r, aio, RunTimers(ListOf(Fire(c, w, aio), aio), c.now, cb, c.calls + 1))
    ensures SameEnd(r, aio, RunTimers(ListOf(c, aio), c.now, cb, c.calls))
  {
    FireIsStep(c, w, aio, cb);
  }

  // What the callbacks of the world do to one list at one time.
  ghost predicate Projects<T>(cb: Callbacks<T>, w: World<T>, aio: bool, now: int) {
    forall k: nat :: cb(k) == Select(w.cb(k, now), w, aio)
  }

  lemma NothingRuns<T>(c: Clock<T>, w: World<T>, aio: bool, cb: Callbacks<T>)
    requires Ok(c) && Strict(w) && FutureOnly(cb, c.now) && Due(ListOf(c, aio), c.now) == []
    ensures SameEnd(RunList(c, w, aio), aio, RunTimers(ListOf(c, aio), c.now, cb, c.calls))
  {
  }

  lemma OneRuns<T>(c: Clock<T>, f: Clock<T>, w: World<T>, aio: bool, cb: Callbacks<T>)
    requires Ok(c) && Strict(w) && FutureOnly(cb, c.now) && Due(ListOf(c, aio), c.now) != []
             && Projects(cb, w, aio, c.now)
    requires f == Fire(c, w, aio) && Ok(f)
    requires SameEnd(RunList(f, w, aio), aio, RunTimers(ListOf(f, aio), f.now, cb, f.calls))
    ensures SameEnd(RunList(c, w, aio), aio, RunTimers(ListOf(c, aio), c.now, cb, c.calls))
  {
    StepBack(RunList(c, w, aio), c, w, aio, cb);
  }

  /** On the list being run, this is the loop of TimerRun: the other list's edits do not matter to it. */
  lemma {:induction false} RunListIsRunTimers<T>(c: Clock<T>, w: World<T>, aio: bool, cb: Callbacks<T>)
    requires Ok(c) && Strict(w) && FutureOnly(cb, c.now) && Projects(cb, w, aio, c.now)
    ensures SameEnd(RunList(c, w, aio), aio, RunTimers(ListOf(c, aio), c.now, cb, c.calls))
    decreases |Due(ListOf(c, aio), c.now)|
  {
    if Due(ListOf(c, aio), c.now) == [] {
      NothingRuns(c, w, aio, cb);
    } else {
      FireDue(c, w, aio);
      FireEdits(c, w, aio);
      var f := Fire(c, w, aio);
      RunListIsRunTimers(f, w, aio, cb);
      OneRuns(c, f, w, aio, cb);
    }
  }

  // ---------- The reference: one event at a time ----------

  function NextEvent<T>(c: Clock<T>): int
    requires c.main != [] || c.aio != []
  {
    if c.main == [] then c.aio[0].expiry
    else if c.aio == [] then c.main[0].expiry
    else Min(c.main[0].expiry, c.aio[0].expiry)
  }

  predicate Pending<T>(c: Clock<T>, dest: int) {
    (c.main != [] || c.aio != []) && NextEvent(c) <= dest
  }

  /** Handle the earliest event, the main loop's first among simultaneous ones; move the clock to the
      next event when none is due; stop at `dest`. */
  ghost function Simulate<T>(c: Clock<T>, w: World<T>, dest: int): Clock<T>
    requires Ok(c) && Strict(w) && c.now <= dest
    decreases dest - c.now, |Due(c.main, c.now)| + |Due(c.aio, c.now)|
  {
    if Due(c.main, c.now) != [] then
      FireDue(c, w, false);
      Simulate(Fire(c, w, false), w, dest)
    else if Due(c.aio, c.now) != [] then
      FireDue(c, w, true);
      Simulate(Fire(c, w, true), w, dest)
    else if Pending(c, dest) then Simulate(c.(now := NextEvent(c)), w, dest)
    else c.(now := dest)
  }

  lemma {:induction false} RunListIsSimulated<T>(c: Clock<T>, w: World<T>, aio: bool, dest: int)
    requires Ok(c) && Strict(w) && c.now <= dest && (aio ==> Due(c.main, c.now) == [])
    ensures Simulate(RunList(c, w, aio), w, dest) == Simulate(c, w, dest)
    decreases |Due(ListOf(c, aio), c.now)|
  {
    if Due(ListOf(c, aio), c.now) != [] {
      FireDue(c, w, aio);
      RunListIsSimulated(Fire(c, w, aio), w, aio, dest);
    }
  }

  // qemu_clock_deadline_ns_all over the two lists, no attribute masked.
  function DeadlineAll<T>(c: Clock<T>): int {
    var d := if c.aio == [] then -1 else Soonest(-1, Max(c.aio[0].expiry - c.now, 0));
    if c.main == [] then d else Soonest(d, Max(c.main[0].expiry - c.now, 0))
  }

  // Every time is a non-negative 64-bit one.
  ghost predicate Times<T>(s: seq<Armed<T>>) {
    forall i :: 0 <= i < |s| ==> s[i].expiry <= INT64_MAX
  }

  lemma DeadlinesBounded<T>(s: seq<Armed<T>>, now: int)
    requires Times(s) && 0 <= now
    ensures forall x :: x in Deadlines(s, now) ==> 0 <= x <= INT64_MAX
  {
  }

  // One more list is taken into account.
  lemma MergeHead<T>(d: int, xs: seq<int>, s: seq<Armed<T>>, now: int)
    requires Wf(s) && Times(s) && 0 <= now && IsEarliest(d, xs) && forall x :: x in xs ==> 0 <= x <= INT64_MAX
    ensures IsEarliest(if s == [] then d else Soonest(d, Max(s[0].expiry - now, 0)), xs + Deadlines(s, now))
    ensures forall x :: x in xs + Deadlines(s, now) ==> 0 <= x <= INT64_MAX
  {
    DeadlinesBounded(s, now);
    if s != [] {
      HeadIsEarliest(s, now);
      SoonestMerges(d, Max(s[0].expiry - now, 0), xs, Deadlines(s, now));
    } else {
      assert xs + Deadlines(s, now) == xs;
    }
  }

  lemma EarliestOfTwo<T>(aio: seq<Armed<T>>, main: seq<Armed<T>>, now: int, d: int, e: int)
    requires Wf(aio) && Wf(main) && Times(aio) && Times(main) && 0 <= now
    requires d == if aio == [] then -1 else Soonest(-1, Max(aio[0].expiry - now, 0))
    requires e == if main == [] then d else Soonest(d, Max(main[0].expiry - now, 0))
    ensures IsEarliest(e, Deadlines(aio, now) + Deadlines(main, now))
  {
    MergeHead(-1, [], aio, now);
    assert [] + Deadlines(aio, now) == Deadlines(aio, now);
    MergeHead(d, Deadlines(aio, now), main, now);
  }

  /** The deadline the warp loop uses is the earliest over all timers of both lists, -1 if there is none. */
  lemma DeadlineAllIsEarliest<T>(c: Clock<T>)
    requires Ok(c) && Times(c.main) && Times(c.aio) && 0 <= c.now
    ensures IsEarliest(DeadlineAll(c), Deadlines(c.aio, c.now) + Deadlines(c.main, c.now))
  {
    var d := if c.aio == [] then -1 else Soonest(-1, Max(c.aio[0].expiry - c.now, 0));
    EarliestOfTwo(c.aio, c.main, c.now, d, DeadlineAll(c));
  }

  lemma {:induction false} NothingMasked(s: seq<Armed<L.QEMUTimer>>)
    ensures L.Within(ALL_ATTRIBUTES, s) == s
  {
    if s != [] { NothingMasked(s[1..]); }
  }

  /** It is what qemu_clock_deadline_ns_all returns for two linked lists with these contents. */
  lemma DeadlineAllIsClockDeadline(c: Clock<L.QEMUTimer>, aio: L.TimerList, main: L.TimerList, d: int)
    requires aio.Valid() && main.Valid() && aio.Contents() == c.aio && main.Contents() == c.main
    requires Ok(c) && Times(c.main) && Times(c.aio) && 0 <= c.now
    requires IsEarliest(d, L.ClockTimes([aio, main], ALL_ATTRIBUTES, c.now))
    ensures d == DeadlineAll(c)
  {
    var both := [aio, main];
    assert both[..1] == [aio] && [aio][..0] == [];
    NothingMasked(c.aio);
    NothingMasked(c.main);
    assert L.ClockTimes([aio], ALL_ATTRIBUTES, c.now) == Deadlines(c.aio, c.now);
    assert L.ClockTimes(both, ALL_ATTRIBUTES, c.now) == Deadlines(c.aio, c.now) + Deadlines(c.main, c.now);
    DeadlineAllIsEarliest(c);
    EarliestIsUnique(d, DeadlineAll(c), Deadlines(c.aio, c.now) + Deadlines(c.main, c.now));
  }

  function Warp<T>(c: Clock<T>, dest: int): int {
    Soonest(dest - c.now, DeadlineAll(c))
  }

  lemma WarpIs<T>(c: Clock<T>, dest: int)
    requires Ok(c) && Times(c.main) && Times(c.aio) && 0 <= c.now < dest <= INT64_MAX
    ensures c.now + Warp(c, dest) == if Pending(c, dest) then Max(NextEvent(c), c.now) else dest
  {
  }

  // Warping to the next deadline skips no event.
  lemma {:induction false} WarpIsSimulated<T>(c: Clock<T>, w: World<T>, dest: int)
    requires Ok(c) && Strict(w) && Times(c.main) && Times(c.aio) && 0 <= c.now < dest <= INT64_MAX
    ensures c.now <= c.now + Warp(c, dest) <= dest
    ensures Simulate(c.(now := c.now + Warp(c, dest)), w, dest) == Simulate(c, w, dest)
    ensures Due(c.main, c.now) == [] && Due(c.aio, c.now) == [] ==> c.now < c.now + Warp(c, dest)
  {
    WarpIs(c, dest);
    if Due(c.main, c.now) == [] && Due(c.aio, c.now) == [] {
      if !Pending(c, dest) { NothingPending(c, dest); }
    } else {
      assert Warp(c, dest) == 0;
    }
  }

  lemma NothingPending<T>(c: Clock<T>, dest: int)
    requires Ok(c) && !Pending(c, dest)
    ensures Due(c.main, dest) == [] && Due(c.aio, dest) == []
  {
  }

  // ---------- What the simulator does ----------

  // Before any event is handled at `now`, everything pending expires at `now` or later.
  ghost predicate CaughtUp<T>(s: seq<Armed<T>>, start: int, now: int) {
    start == now || (start < now && forall i :: 0 <= i < |s| ==> s[i].expiry >= now)
  }

  lemma {:induction false} EditsCatchUp<T>(s: seq<Armed<T>>, eds: seq<Edit<T>>, start: int, now: int)
    requires (s == [] || Wf(s)) && AllAfter(eds, now) && CaughtUp(s, start, now)
    ensures CaughtUp(ApplyEdits(s, eds), start, now)
    decreases |eds|
  {
    if eds != [] {
      var ed := eds[0];
      assert ArmsAfter(ed, now);
      assert forall i :: 0 <= i < |eds[1..]| ==> eds[1..][i] == eds[i + 1];
      EditWf(s, ed);
      EditMembers(s, ed);
      forall i | 0 <= i < |ApplyEdit(s, ed)| && start < now ensures ApplyEdit(s, ed)[i].expiry >= now {
        assert ApplyEdit(s, ed)[i] in ApplyEdit(s, ed);
      }
      EditsCatchUp(ApplyEdit(s, ed), eds[1..], start, now);
    }
  }

  lemma {:induction false} FireCatchesUp<T>(c: Clock<T>, w: World<T>, aio: bool, start: int)
    requires Ok(c) && Strict(w) && Due(ListOf(c, aio), c.now) != []
    requires CaughtUp(c.main, start, c.now) && CaughtUp(c.aio, start, c.now)
    ensures CaughtUp(Fire(c, w, aio).main, start, c.now) && CaughtUp(Fire(c, w, aio).aio, start, c.now)
    ensures var f := Fire(c, w, aio);
      f.log == c.log + [f.log[|c.log|]] && f.log[|c.log|].at == Max(f.log[|c.log|].expiry, start)
  {
    var eds := w.cb(c.calls, c.now);
    assert AllAfter(eds, c.now);
    SelectAfter(eds, w, aio, c.now); SelectAfter(eds, w, !aio, c.now);
    var s := ListOf(c, aio);
    TailWf(s);
    assert forall i :: 0 <= i < |s[1..]| ==> s[1..][i] == s[i + 1];
    EditsCatchUp(s[1..], Select(eds, w, aio), start, c.now);
    EditsCatchUp(ListOf(c, !aio), Select(eds, w, !aio), start, c.now);
  }

  // Every firing from position `from` on happened at its own expiry, or at `start` if that was later.
  ghost predicate OnTime<T>(log: seq<Firing<T>>, from: nat, start: int) {
    forall i :: from <= i < |log| ==> log[i].at == Max(log[i].expiry, start)
  }

  /** The simulated clock ends at `dest` with nothing due left; every timer it fires, it fires with the
      clock equal to its expiry, or at the starting time if it was already due. */
  lemma {:induction false} SimulationIsExact<T>(c: Clock<T>, w: World<T>, dest: int, start: int)
    requires Ok(c) && Strict(w) && start <= c.now <= dest
    requires CaughtUp(c.main, start, c.now) && CaughtUp(c.aio, start, c.now)
    ensures var r := Simulate(c, w, dest);
      && Ok(r) && r.now == dest && Due(r.main, dest) == [] && Due(r.aio, dest) == []
      && c.log <= r.log && OnTime(r.log, |c.log|, start)
      && r.calls - c.calls == |r.log| - |c.log|
    decreases dest - c.now, |Due(c.main, c.now)| + |Due(c.aio, c.now)|
  {
    if Due(c.main, c.now) != [] || Due(c.aio, c.now) != [] {
      var aio := Due(c.main, c.now) == [];
      FireDue(c, w, aio);
      FireCatchesUp(c, w, aio, start);
      SimulationIsExact(Fire(c, w, aio), w, dest, start);
    } else if Pending(c, dest) {
      SimulationIsExact(c.(now := NextEvent(c)), w, dest, start);
    }
  }

  // The k-th callback, run at `now`, modifies, anticipates or deletes `t`.
  ghost predicate Touches<T>(w: World<T>, k: nat, now: int, t: T) {
    exists i :: 0 <= i < |w.cb(k, now)| && w.cb(k, now)[i].t == t
  }

  // No callback touches `t`.
  ghost predicate Untouched<T>(w: World<T>, t: T) {
    forall k: nat, now: int, i :: 0 <= i < |w.cb(k, now)| ==> w.cb(k, now)[i].t != t
  }

  function Firings<T(==)>(log: seq<Firing<T>>, t: T): nat {
    if log == [] then 0 else Firings(log[..|log| - 1], t) + if log[|log| - 1].timer == t then 1 else 0
  }

  lemma {:induction false} EditsSpare<T>(s: seq<Armed<T>>, eds: seq<Edit<T>>, t: T)
    requires (s == [] || Wf(s)) && forall i :: 0 <= i < |eds| ==> eds[i].t != t
    ensures forall a: Armed<T> :: a.timer == t ==> (a in ApplyEdits(s, eds) <==> a in s)
    decreases |eds|
  {
    if eds != [] {
      assert forall i :: 0 <= i < |eds[1..]| ==> eds[1..][i] == eds[i + 1];
      var ed := eds[0];
      EditWf(s, ed);
      RemoveWf(s, ed.t);
      if !ed.Cancel? { InsertWf(Remove(s, ed.t), ed.t, ed.e); }
      EditsSpare(ApplyEdit(s, ed), eds[1..], t);
    }
  }

  lemma {:induction false} SelectSpares<T>(eds: seq<Edit<T>>, w: World<T>, aio: bool, t: T)
    requires forall i :: 0 <= i < |eds| ==> eds[i].t != t
    ensures forall i :: 0 <= i < |Select(eds, w, aio)| ==> Select(eds, w, aio)[i].t != t
  {
    if eds != [] {
      assert forall i :: 0 <= i < |eds[1..]| ==> eds[1..][i] == eds[i + 1];
      SelectSpares(eds[1..], w, aio, t);
    }
  }

  ghost predicate InClock<T>(c: Clock<T>, a: Armed<T>) {
    a in c.main || a in c.aio
  }

  // A timer is on its own list only.
  ghost predicate AtHome<T>(c: Clock<T>, w: World<T>, t: T) {
    && (forall a: Armed<T> :: a.timer == t && a in c.main ==> !w.inAio(t))
    && (forall a: Armed<T> :: a.timer == t && a in c.aio ==> w.inAio(t))
  }

  lemma {:induction false} FireSpares<T>(c: Clock<T>, w: World<T>, aio: bool, t: T)
    requires Ok(c) && Strict(w) && Due(ListOf(c, aio), c.now) != [] && AtHome(c, w, t)
    requires !Touches(w, c.calls, c.now, t)
    ensures AtHome(Fire(c, w, aio), w, t)
    ensures forall a: Armed<T> :: a.timer == t ==>
              (InClock(Fire(c, w, aio), a) <==> InClock(c, a) && a != ListOf(c, aio)[0])
  {
    var eds := w.cb(c.calls, c.now);
    SelectSpares(eds, w, aio, t); SelectSpares(eds, w, !aio, t);
    var s := ListOf(c, aio);
    TailWf(s);
    EditsSpare(s[1..], Select(eds, w, aio), t);
    EditsSpare(ListOf(c, !aio), Select(eds, w, !aio), t);
    assert s == [s[0]] + s[1..];
    assert s[0] in s && s[0] !in s[1..];
  }

  // The head is the only entry of its timer.
  lemma {:induction false} HeadIsOther<T>(c: Clock<T>, w: World<T>, aio: bool, a: Armed<T>)
    requires Ok(c) && ListOf(c, aio) != [] && AtHome(c, w, a.timer) && InClock(c, a) && ListOf(c, aio)[0] != a
    ensures ListOf(c, aio)[0].timer != a.timer
  {
    var head := ListOf(c, aio)[0];
    assert head in ListOf(c, aio);
    if a in ListOf(c, aio) {
      var i :| 0 <= i < |ListOf(c, aio)| && ListOf(c, aio)[i] == a;
    }
  }

  lemma {:induction false} NothingDueMeans<T>(c: Clock<T>, a: Armed<T>)
    requires Ok(c) && Due(c.main, c.now) == [] && Due(c.aio, c.now) == [] && InClock(c, a)
    ensures c.now < NextEvent(c) <= a.expiry
  {
  }

  // Firing another timer.
  lemma FireForeign<T>(c: Clock<T>, w: World<T>, aio: bool, t: T)
    requires Ok(c) && Strict(w) && Untouched(w, t) && Due(ListOf(c, aio), c.now) != []
    requires forall a: Armed<T> :: a.timer == t ==> !InClock(c, a)
    ensures forall a: Armed<T> :: a.timer == t ==> !InClock(Fire(c, w, aio), a)
    ensures Firings(Fire(c, w, aio).log, t) == Firings(c.log, t) && c.log <= Fire(c, w, aio).log
  {
    var f := Fire(c, w, aio);
    FireSpares(c, w, aio, t);
    assert ListOf(c, aio)[0] in ListOf(c, aio);
    assert InClock(c, ListOf(c, aio)[0]);
    assert f.log[..|f.log| - 1] == c.log;
  }

  lemma {:induction false} GoneStaysGone<T>(c: Clock<T>, w: World<T>, dest: int, t: T)
    requires Ok(c) && Strict(w) && c.now <= dest && Untouched(w, t)
    requires forall a: Armed<T> :: a.timer == t ==> !InClock(c, a)
    ensures Firings(Simulate(c, w, dest).log, t) == Firings(c.log, t) && c.log <= Simulate(c, w, dest).log
    decreases dest - c.now, |Due(c.main, c.now)| + |Due(c.aio, c.now)|
  {
    if Due(c.main, c.now) != [] || Due(c.aio, c.now) != [] {
      var aio := Due(c.main, c.now) == [];
      FireDue(c, w, aio);
      FireForeign(c, w, aio, t);
      GoneStaysGone(Fire(c, w, aio), w, dest, t);
    } else if Pending(c, dest) {
      GoneStaysGone(c.(now := NextEvent(c)), w, dest, t);
    }
  }

  // Between `c` and `r` the armed timer has fired once if it expires by `dest`, and otherwise stays armed.
  ghost predicate FiredOnce<T>(c: Clock<T>, r: Clock<T>, dest: int, a: Armed<T>) {
    && Firings(r.log, a.timer) == Firings(c.log, a.timer) + (if a.expiry <= dest then 1 else 0)
    && (a.expiry <= dest ==> Firing(a.timer, a.expiry, Max(a.expiry, c.now)) in r.log)
    && (a.expiry > dest ==> InClock(r, a))
  }

  lemma FiredNow<T>(c: Clock<T>, f: Clock<T>, r: Clock<T>, dest: int, a: Armed<T>)
    requires a.expiry <= c.now <= dest && Firing(a.timer, a.expiry, c.now) in f.log && f.log <= r.log
    requires Firings(f.log, a.timer) == Firings(c.log, a.timer) + 1
             && Firings(r.log, a.timer) == Firings(f.log, a.timer)
    ensures FiredOnce(c, r, dest, a)
  {
  }

  lemma FiredLater<T>(c: Clock<T>, f: Clock<T>, r: Clock<T>, dest: int, a: Armed<T>)
    requires f.now == c.now && Firings(f.log, a.timer) == Firings(c.log, a.timer) && FiredOnce(f, r, dest, a)
    ensures FiredOnce(c, r, dest, a)
  {
  }

  lemma FiredAfter<T>(c: Clock<T>, r: Clock<T>, dest: int, a: Armed<T>, next: int)
    requires c.now < next <= a.expiry && FiredOnce(c.(now := next), r, dest, a)
    ensures FiredOnce(c, r, dest, a)
  {
  }

  lemma FireLogs<T>(c: Clock<T>, w: World<T>, aio: bool, t: T)
    requires ListOf(c, aio) != []
    ensures var f, head := Fire(c, w, aio), ListOf(c, aio)[0];
      && f.now == c.now && Firing(head.timer, head.expiry, c.now) in f.log
      && Firings(f.log, t) == Firings(c.log, t) + if head.timer == t then 1 else 0
  {
    var f := Fire(c, w, aio);
    assert f.log[..|f.log| - 1] == c.log;
    assert f.log[|c.log|] in f.log;
  }

  lemma FireIt<T>(c: Clock<T>, w: World<T>, aio: bool, a: Armed<T>)
    requires Ok(c) && Strict(w) && Due(ListOf(c, aio), c.now) != [] && ListOf(c, aio)[0] == a
    requires Untouched(w, a.timer) && AtHome(c, w, a.timer)
    ensures a.expiry <= c.now && (forall b: Armed<T> :: b.timer == a.timer ==> !InClock(Fire(c, w, aio), b))
    ensures Firings(Fire(c, w, aio).log, a.timer) == Firings(c.log, a.timer) + 1
    ensures Firing(a.timer, a.expiry, c.now) in Fire(c, w, aio).log
  {
    FireLogs(c, w, aio, a.timer);
    FireSpares(c, w, aio, a.timer);
    forall b: Armed<T> | b.timer == a.timer && b != a ensures !InClock(c, b) {
      if InClock(c, b) { HeadIsOther(c, w, aio, b); }
    }
  }

  lemma FireAnother<T>(c: Clock<T>, w: World<T>, aio: bool, a: Armed<T>)
    requires Ok(c) && Strict(w) && Due(ListOf(c, aio), c.now) != [] && ListOf(c, aio)[0] != a
    requires InClock(c, a) && Untouched(w, a.timer) && AtHome(c, w, a.timer)
    ensures InClock(Fire(c, w, aio), a) && AtHome(Fire(c, w, aio), w, a.timer) && Fire(c, w, aio).now == c.now
    ensures Firings(Fire(c, w, aio).log, a.timer) == Firings(c.log, a.timer)
  {
    HeadIsOther(c, w, aio, a);
    FireLogs(c, w, aio, a.timer);
    FireSpares(c, w, aio, a.timer);
  }

  /** A timer that no callback touches fires exactly once, at its expiry or at the start if already
      due, when it expires by `dest`; otherwise it is still pending with the same expiry. */
  lemma {:induction false} UntouchedFiresOnce<T>(c: Clock<T>, w: World<T>, dest: int, a: Armed<T>)
    requires Ok(c) && Strict(w) && c.now <= dest
    requires InClock(c, a) && Untouched(w, a.timer) && AtHome(c, w, a.timer)
    ensures FiredOnce(c, Simulate(c, w, dest), dest, a)
    decreases dest - c.now, |Due(c.main, c.now)| + |Due(c.aio, c.now)|
  {
    if Due(c.main, c.now) != [] || Due(c.aio, c.now) != [] {
      var aio := Due(c.main, c.now) == [];
      FireDue(c, w, aio);
      if ListOf(c, aio)[0] == a {
        FireIt(c, w, aio, a);
        GoneStaysGone(Fire(c, w, aio), w, dest, a.timer);
        FiredNow(c, Fire(c, w, aio), Simulate(c, w, dest), dest, a);
      } else {
        FireAnother(c, w, aio, a);
        UntouchedFiresOnce(Fire(c, w, aio), w, dest, a);
        FiredLater(c, Fire(c, w, aio), Simulate(c, w, dest), dest, a);
      }
    } else if Pending(c, dest) {
      NothingDueMeans(c, a);
      UntouchedFiresOnce(c.(now := NextEvent(c)), w, dest, a);
      FiredAfter(c, Simulate(c, w, dest), dest, a, NextEvent(c));
    } else {
      NothingDueMeans(c, a);
    }
  }

  // ---------- Every armed timer is accounted for ----------

  // Between `c` and `r` the armed timer has fired, at its expiry or when the clock was already past it.
  ghost predicate Fired<T>(c: Clock<T>, r: Clock<T>, a: Armed<T>) {
    exists i :: |c.log| <= i < |r.log| && r.log[i] == Firing(a.timer, a.expiry, Max(a.expiry, c.now))
  }

  // A callback that ran between `c` and `r` touched the timer.
  ghost predicate Edited<T>(c: Clock<T>, r: Clock<T>, w: World<T>, t: T) {
    exists i {:trigger r.log[i]} :: |c.log| <= i < |r.log| && Touches(w, c.calls + i - |c.log|, r.log[i].at, t)
  }

  ghost predicate Explained<T>(c: Clock<T>, r: Clock<T>, w: World<T>, dest: int, a: Armed<T>) {
    Fired(c, r, a) || Edited(c, r, w, a.timer) || (a.expiry > dest && InClock(r, a))
  }

  lemma {:induction false} LogExtends<T>(c: Clock<T>, w: World<T>, dest: int)
    requires Ok(c) && Strict(w) && c.now <= dest
    ensures c.log <= Simulate(c, w, dest).log
    decreases dest - c.now, |Due(c.main, c.now)| + |Due(c.aio, c.now)|
  {
    if Due(c.main, c.now) != [] || Due(c.aio, c.now) != [] {
      var aio := Due(c.main, c.now) == [];
      FireDue(c, w, aio);
      LogExtends(Fire(c, w, aio), w, dest);
    } else if Pending(c, dest) {
      LogExtends(c.(now := NextEvent(c)), w, dest);
    }
  }

  // The step from `c` to `f` logs one firing and runs one callback.
  ghost predicate OneStep<T>(c: Clock<T>, f: Clock<T>, head: Armed<T>) {
    f.now == c.now && f.calls == c.calls + 1 && f.log == c.log + [Firing(head.timer, head.expiry, c.now)]
  }

  lemma FiredHere<T>(c: Clock<T>, f: Clock<T>, r: Clock<T>, a: Armed<T>)
    requires OneStep(c, f, a) && a.expiry <= c.now && f.log <= r.log
    ensures Fired(c, r, a)
  {
    assert r.log[|c.log|] == f.log[|c.log|];
  }

  lemma EditedHere<T>(c: Clock<T>, f: Clock<T>, r: Clock<T>, w: World<T>, head: Armed<T>, t: T)
    requires OneStep(c, f, head) && Touches(w, c.calls, c.now, t) && f.log <= r.log
    ensures Edited(c, r, w, t)
  {
    assert r.log[|c.log|] == f.log[|c.log|];
  }

  lemma ExplainedLater<T>(c: Clock<T>, f: Clock<T>, r: Clock<T>, w: World<T>, dest: int, head: Armed<T>, a: Armed<T>)
    requires OneStep(c, f, head) && Explained(f, r, w, dest, a)
    ensures Explained(c, r, w, dest, a)
  {
    if Fired(f, r, a) {
      var i :| |f.log| <= i < |r.log| && r.log[i] == Firing(a.timer, a.expiry, Max(a.expiry, f.now));
      assert |c.log| <= i < |r.log| && r.log[i] == Firing(a.timer, a.expiry, Max(a.expiry, c.now));
    } else if Edited(f, r, w, a.timer) {
      var i :| |f.log| <= i < |r.log| && Touches(w, f.calls + i - |f.log|, r.log[i].at, a.timer);
      assert Touches(w, c.calls + i - |c.log|, r.log[i].at, a.timer);
    }
  }

  lemma ExplainedAfter<T>(c: Clock<T>, r: Clock<T>, w: World<T>, dest: int, a: Armed<T>, next: int)
    requires c.now < next <= a.expiry && Explained(c.(now := next), r, w, dest, a)
    ensures Explained(c, r, w, dest, a)
  {
    var c' := c.(now := next);
    if Fired(c', r, a) {
      var i :| |c.log| <= i < |r.log| && r.log[i] == Firing(a.timer, a.expiry, Max(a.expiry, next));
    } else if Edited(c', r, w, a.timer) {
      var i :| |c.log| <= i < |r.log| && Touches(w, c.calls + i - |c.log|, r.log[i].at, a.timer);
    }
  }

  /** Whatever the callbacks do, every timer armed at the start fires on time, or is touched by a callback
      that ran, or is still armed and expires after `dest`: none leaves the lists in another way. */
  lemma {:induction false} NoTimerIsLost<T>(c: Clock<T>, w: World<T>, dest: int, a: Armed<T>)
    requires Ok(c) && Strict(w) && c.now <= dest && InClock(c, a) && AtHome(c, w, a.timer)
    ensures Explained(c, Simulate(c, w, dest), w, dest, a)
    decreases dest - c.now, |Due(c.main, c.now)| + |Due(c.aio, c.now)|
  {
    if Due(c.main, c.now) != [] || Due(c.aio, c.now) != [] {
      FiringExplains(c, w, dest, a, Due(c.main, c.now) == []);
    } else {
      NothingDueMeans(c, a);
      if Pending(c, dest) {
        NoTimerIsLost(c.(now := NextEvent(c)), w, dest, a);
        ExplainedAfter(c, Simulate(c, w, dest), w, dest, a, NextEvent(c));
      }
    }
  }

  lemma {:induction false} FiringExplains<T>(c: Clock<T>, w: World<T>, dest: int, a: Armed<T>, aio: bool)
    requires Ok(c) && Strict(w) && c.now <= dest && InClock(c, a) && AtHome(c, w, a.timer)
    requires Due(ListOf(c, aio), c.now) != [] && (aio <==> Due(c.main, c.now) == [])
    ensures Explained(c, Simulate(c, w, dest), w, dest, a)
    decreases dest - c.now, |Due(c.main, c.now)| + |Due(c.aio, c.now)|, 0
  {
    var f, head, r := Fire(c, w, aio), ListOf(c, aio)[0], Simulate(c, w, dest);
    FireDue(c, w, aio);
    assert r == Simulate(f, w, dest) && OneStep(c, f, head);
    LogExtends(f, w, dest);
    if head == a {
      FiredHere(c, f, r, a);
    } else if Touches(w, c.calls, c.now, a.timer) {
      EditedHere(c, f, r, w, head, a.timer);
    } else {
      FireSpares(c, w, aio, a.timer);
      NoTimerIsLost(f, w, dest, a);
      ExplainedLater(c, f, r, w, dest, head, a);
    }
  }

  // ---------- The story of one timer ----------

  /** Selecting keeps exactly the edits of the timers on one list, in their order. */
  lemma {:induction false} SelectIff<T>(eds: seq<Edit<T>>, w: World<T>, aio: bool, ed: Edit<T>)
    ensures ed in Select(eds, w, aio) <==> ed in eds && w.inAio(ed.t) == aio
  {
    if eds != [] { SelectIff(eds[1..], w, aio, ed); }
  }

  lemma {:induction false} SelectAppends<T>(eds: seq<Edit<T>>, more: seq<Edit<T>>, w: World<T>, aio: bool)
    ensures Select(eds + more, w, aio) == Select(eds, w, aio) + Select(more, w, aio)
  {
    if eds == [] {
      assert eds + more == more;
    } else {
      assert (eds + more)[1..] == eds[1..] + more;
      SelectAppends(eds[1..], more, w, aio);
    }
  }

  lemma {:induction false} SelectFate<T>(cur: int, eds: seq<Edit<T>>, w: World<T>, t: T)
    ensures Fate(cur, Select(eds, w, w.inAio(t)), t) == Fate(cur, eds, t)
    decreases |eds|
  {
    if eds != [] {
      var rest := Select(eds[1..], w, w.inAio(t));
      FateStep(cur, eds, t);
      SelectFate(Fate(cur, [eds[0]], t), eds[1..], w, t);
      if w.inAio(eds[0].t) == w.inAio(t) {
        assert Select(eds, w, w.inAio(t)) == [eds[0]] + rest && ([eds[0]] + rest)[1..] == rest;
        FateStep(cur, [eds[0]] + rest, t);
      } else {
        assert eds[0].t != t && [eds[0]][1..] == [] && Select(eds, w, w.inAio(t)) == rest;
      }
    }
  }

  // When `t` expires, -1 if it is not armed.
  function Expiry<T(==)>(c: Clock<T>, w: World<T>, t: T): int {
    ExpireTime(ListOf(c, w.inAio(t)), t)
  }

  // What the firings of `log` and their callbacks, from the k-th on, make of the expiry of `t`.
  function Story<T(==)>(cur: int, log: seq<Firing<T>>, w: World<T>, k: nat, t: T): int
    decreases |log|
  {
    if log == [] then cur
    else Story(Fate(if log[0].timer == t then -1 else cur, w.cb(k, log[0].at), t), log[1..], w, k + 1, t)
  }

  lemma FireSetsExpiry<T>(c: Clock<T>, w: World<T>, aio: bool, t: T)
    requires Ok(c) && ListOf(c, aio) != [] && w.inAio(ListOf(c, aio)[0].timer) == aio
    ensures var fired := ListOf(c, aio)[0].timer;
      Expiry(Fire(c, w, aio), w, t) == Fate(if fired == t then -1 else Expiry(c, w, t), w.cb(c.calls, c.now), t)
  {
    var mine, eds := w.inAio(t), w.cb(c.calls, c.now);
    var s := if aio == mine then ListOf(c, aio)[1..] else ListOf(c, mine);
    TailWf(ListOf(c, aio));
    HeadGoes(ListOf(c, aio), t);
    EditsFate(s, Select(eds, w, mine), t);
    SelectFate(ExpireTime(s, t), eds, w, t);
  }

  // Every armed timer is on its own list.
  ghost predicate AllHome<T>(c: Clock<T>, w: World<T>) {
    && (forall i :: 0 <= i < |c.main| ==> !w.inAio(c.main[i].timer))
    && (forall i :: 0 <= i < |c.aio| ==> w.inAio(c.aio[i].timer))
  }

  lemma {:induction false} EditsKeepHome<T>(s: seq<Armed<T>>, eds: seq<Edit<T>>, w: World<T>, aio: bool)
    requires (s == [] || Wf(s)) && (forall i :: 0 <= i < |s| ==> w.inAio(s[i].timer) == aio)
    requires forall i :: 0 <= i < |eds| ==> w.inAio(eds[i].t) == aio
    ensures forall i :: 0 <= i < |ApplyEdits(s, eds)| ==> w.inAio(ApplyEdits(s, eds)[i].timer) == aio
    decreases |eds|
  {
    if eds != [] {
      var s' := ApplyEdit(s, eds[0]);
      EditWf(s, eds[0]);
      forall i | 0 <= i < |s'| ensures w.inAio(s'[i].timer) == aio { EditMember(s, eds[0], s'[i]); }
      assert forall i :: 0 <= i < |eds[1..]| ==> eds[1..][i] == eds[i + 1];
      EditsKeepHome(s', eds[1..], w, aio);
    }
  }

  lemma {:induction false} SelectIsHome<T>(eds: seq<Edit<T>>, w: World<T>, aio: bool)
    ensures forall i :: 0 <= i < |Select(eds, w, aio)| ==> w.inAio(Select(eds, w, aio)[i].t) == aio
  {
    if eds != [] { SelectIsHome(eds[1..], w, aio); }
  }

  lemma FireKeepsHome<T>(c: Clock<T>, w: World<T>, aio: bool)
    requires Ok(c) && AllHome(c, w) && ListOf(c, aio) != []
    ensures AllHome(Fire(c, w, aio), w)
  {
    var eds := w.cb(c.calls, c.now);
    TailWf(ListOf(c, aio));
    SelectIsHome(eds, w, false);
    SelectIsHome(eds, w, true);
    EditsKeepHome(if aio then c.main else c.main[1..], Select(eds, w, false), w, false);
    EditsKeepHome(if aio then c.aio[1..] else c.aio, Select(eds, w, true), w, true);
  }

  // From `c` to `r` every timer's expiry, and every firing, is what the timer's story says.
  ghost predicate Told<T>(c: Clock<T>, r: Clock<T>, w: World<T>, t: T) {
    && c.log <= r.log
    && var since := r.log[|c.log|..];
       && Expiry(r, w, t) == Story(Expiry(c, w, t), since, w, c.calls, t)
       && forall i :: 0 <= i < |since| && since[i].timer == t ==>
            since[i].expiry == Story(Expiry(c, w, t), since[..i], w, c.calls, t) >= 0
  }

  lemma TellMore<T>(c: Clock<T>, f: Clock<T>, r: Clock<T>, w: World<T>, t: T, head: Armed<T>)
    requires OneStep(c, f, head) && Told(f, r, w, t) && (head.timer == t ==> head.expiry == Expiry(c, w, t) >= 0)
    requires Expiry(f, w, t) == Fate(if head.timer == t then -1 else Expiry(c, w, t), w.cb(c.calls, c.now), t)
    ensures Told(c, r, w, t)
  {
    var since, later := r.log[|c.log|..], r.log[|f.log|..];
    assert since[1..] == later && since[0] == Firing(head.timer, head.expiry, c.now);
    forall i | 0 <= i < |since| && since[i].timer == t
      ensures since[i].expiry == Story(Expiry(c, w, t), since[..i], w, c.calls, t) >= 0
    {
      if i > 0 {
        assert since[..i][1..] == later[..i - 1] && since[i] == later[i - 1];
      }
    }
  }

  lemma HeadExpiry<T>(c: Clock<T>, w: World<T>, aio: bool, t: T)
    requires Ok(c) && AllHome(c, w) && ListOf(c, aio) != [] && ListOf(c, aio)[0].timer == t
    ensures w.inAio(t) == aio && ListOf(c, aio)[0].expiry == Expiry(c, w, t) >= 0
  {
  }

  /** What callbacks arm takes effect, and nothing else does: at the end every timer, armed or not, expires when
      its own story says, and every firing is of a timer that its story has expire then. */
  lemma {:induction false} SimulationStory<T>(c: Clock<T>, w: World<T>, dest: int, t: T)
    requires Ok(c) && Strict(w) && c.now <= dest && AllHome(c, w)
    ensures Told(c, Simulate(c, w, dest), w, t) && AllHome(Simulate(c, w, dest), w)
    decreases dest - c.now, |Due(c.main, c.now)| + |Due(c.aio, c.now)|
  {
    if Due(c.main, c.now) != [] || Due(c.aio, c.now) != [] {
      FiringTold(c, w, dest, t, Due(c.main, c.now) == []);
    } else if Pending(c, dest) {
      SimulationStory(c.(now := NextEvent(c)), w, dest, t);
    }
  }

  lemma {:induction false} FiringTold<T>(c: Clock<T>, w: World<T>, dest: int, t: T, aio: bool)
    requires Ok(c) && Strict(w) && c.now <= dest && AllHome(c, w)
    requires Due(ListOf(c, aio), c.now) != [] && (aio <==> Due(c.main, c.now) == [])
    ensures Told(c, Simulate(c, w, dest), w, t) && AllHome(Simulate(c, w, dest), w)
    decreases dest - c.now, |Due(c.main, c.now)| + |Due(c.aio, c.now)|, 0
  {
    var f, head := Fire(c, w, aio), ListOf(c, aio)[0];
    FireDue(c, w, aio);
    FireKeepsHome(c, w, aio);
    SimulationStory(f, w, dest, t);
    FireSetsExpiry(c, w, aio, t);
    if head.timer == t { HeadExpiry(c, w, aio, t); }
    TellMore(c, f, Simulate(c, w, dest), w, t, head);
  }

  // Every firing is that of the first due timer: on its own list none expires earlier, and no timer of the main
  // loop is due when one of the AioContext fires.
  ghost predicate FirstOfAll<T>(c: Clock<T>, log: seq<Firing<T>>, w: World<T>, t: T) {
    forall i :: 0 <= i < |log| && t != log[i].timer ==>
      var e := Story(Expiry(c, w, t), log[..i], w, c.calls, t);
      e == -1 || ((w.inAio(t) == w.inAio(log[i].timer) ==> log[i].expiry <= e)
                  && (w.inAio(log[i].timer) && !w.inAio(t) ==> log[i].at < e))
  }

  lemma FirstMore<T>(c: Clock<T>, f: Clock<T>, r: Clock<T>, w: World<T>, t: T, head: Armed<T>)
    requires OneStep(c, f, head) && f.log <= r.log && FirstOfAll(f, r.log[|f.log|..], w, t)
    requires Expiry(f, w, t) == Fate(if head.timer == t then -1 else Expiry(c, w, t), w.cb(c.calls, c.now), t)
    requires t != head.timer && Expiry(c, w, t) != -1 ==>
      && (w.inAio(t) == w.inAio(head.timer) ==> head.expiry <= Expiry(c, w, t))
      && (w.inAio(head.timer) && !w.inAio(t) ==> c.now < Expiry(c, w, t))
    ensures c.log <= r.log && FirstOfAll(c, r.log[|c.log|..], w, t)
  {
    var since, later := r.log[|c.log|..], r.log[|f.log|..];
    assert since[1..] == later && since[0] == Firing(head.timer, head.expiry, c.now);
    forall i | 0 <= i < |since| && t != since[i].timer
      ensures var e := Story(Expiry(c, w, t), since[..i], w, c.calls, t);
        e == -1 || ((w.inAio(t) == w.inAio(since[i].timer) ==> since[i].expiry <= e)
                    && (w.inAio(since[i].timer) && !w.inAio(t) ==> since[i].at < e))
    {
      if i > 0 { assert since[..i][1..] == later[..i - 1] && since[i] == later[i - 1]; }
    }
  }

  lemma HeadIsFirst<T>(c: Clock<T>, w: World<T>, aio: bool, t: T)
    requires Ok(c) && AllHome(c, w) && ListOf(c, aio) != [] && (aio ==> Due(c.main, c.now) == [])
    requires t != ListOf(c, aio)[0].timer && Expiry(c, w, t) != -1
    ensures w.inAio(ListOf(c, aio)[0].timer) == aio
    ensures w.inAio(t) == aio ==> ListOf(c, aio)[0].expiry <= Expiry(c, w, t)
    ensures aio && !w.inAio(t) ==> c.now < Expiry(c, w, t)
  {
    var k := RemoveCut(ListOf(c, w.inAio(t)), t);
  }

  /** The order of events: at each moment the main loop's timers first, and on each list the earliest first. */
  lemma {:induction false} FiredInOrder<T>(c: Clock<T>, w: World<T>, dest: int, t: T)
    requires Ok(c) && Strict(w) && c.now <= dest && AllHome(c, w)
    ensures c.log <= Simulate(c, w, dest).log && FirstOfAll(c, Simulate(c, w, dest).log[|c.log|..], w, t)
    decreases dest - c.now, |Due(c.main, c.now)| + |Due(c.aio, c.now)|
  {
    if Due(c.main, c.now) != [] || Due(c.aio, c.now) != [] {
      FiringInOrder(c, w, dest, t, Due(c.main, c.now) == []);
    } else if Pending(c, dest) {
      FiredInOrder(c.(now := NextEvent(c)), w, dest, t);
    }
  }

  lemma {:induction false} FiringInOrder<T>(c: Clock<T>, w: World<T>, dest: int, t: T, aio: bool)
    requires Ok(c) && Strict(w) && c.now <= dest && AllHome(c, w)
    requires Due(ListOf(c, aio), c.now) != [] && (aio <==> Due(c.main, c.now) == [])
    ensures c.log <= Simulate(c, w, dest).log && FirstOfAll(c, Simulate(c, w, dest).log[|c.log|..], w, t)
    decreases dest - c.now, |Due(c.main, c.now)| + |Due(c.aio, c.now)|, 0
  {
    var f, head := Fire(c, w, aio), ListOf(c, aio)[0];
    FireDue(c, w, aio);
    FireKeepsHome(c, w, aio);
    FiredInOrder(f, w, dest, t);
    FireSetsExpiry(c, w, aio, t);
    if t != head.timer && Expiry(c, w, t) != -1 { HeadIsFirst(c, w, aio, t); }
    FirstMore(c, f, Simulate(c, w, dest), w, t, head);
  }

  // ---------- An armed timer fires ----------

  lemma {:induction false} StoryAppends<T>(cur: int, a: seq<Firing<T>>, b: seq<Firing<T>>, w: World<T>, k: nat, t: T)
    ensures Story(cur, a + b, w, k, t) == Story(Story(cur, a, w, k, t), b, w, k + |a|, t)
    decreases |a|
  {
    if a == [] {
      assert a + b == b;
    } else {
      assert (a + b)[1..] == a[1..] + b;
      StoryAppends(Fate(if a[0].timer == t then -1 else cur, w.cb(k, a[0].at), t), a[1..], b, w, k + 1, t);
    }
  }

  // No firing of `log` is of `t`, and no callback of one touches it.
  ghost predicate Leaves<T>(log: seq<Firing<T>>, w: World<T>, k: nat, t: T) {
    forall i :: 0 <= i < |log| ==> log[i].timer != t && !Touches(w, k + i, log[i].at, t)
  }

  lemma {:induction false} StoryStays<T>(cur: int, log: seq<Firing<T>>, w: World<T>, k: nat, t: T)
    requires Leaves(log, w, k, t)
    ensures Story(cur, log, w, k, t) == cur
    decreases |log|
  {
    if log != [] {
      var eds := w.cb(k, log[0].at);
      assert log[0].timer != t && !Touches(w, k + 0, log[0].at, t);
      forall i | 0 <= i < |eds| ensures eds[i].t != t {}
      FateSpares(cur, eds, t);
      forall i | 0 <= i < |log[1..]| ensures log[1..][i].timer != t && !Touches(w, (k + 1) + i, log[1..][i].at, t) {
        assert log[1..][i] == log[i + 1] && !Touches(w, k + (i + 1), log[i + 1].at, t);
      }
      StoryStays(cur, log[1..], w, k + 1, t);
    }
  }

  lemma {:induction false} FiringTimes<T>(c: Clock<T>, w: World<T>, dest: int)
    requires Ok(c) && Strict(w) && c.now <= dest
    ensures var r := Simulate(c, w, dest);
      c.log <= r.log && forall i :: |c.log| <= i < |r.log| ==> r.log[i].expiry <= r.log[i].at <= dest
    decreases dest - c.now, |Due(c.main, c.now)| + |Due(c.aio, c.now)|
  {
    if Due(c.main, c.now) != [] || Due(c.aio, c.now) != [] {
      var aio := Due(c.main, c.now) == [];
      FireDue(c, w, aio);
      FiringTimes(Fire(c, w, aio), w, dest);
    } else if Pending(c, dest) {
      FiringTimes(c.(now := NextEvent(c)), w, dest);
    }
  }

  // No callback from the one at `i` of `log` on touches `t`.
  ghost predicate TouchedNoMore<T>(log: seq<Firing<T>>, w: World<T>, k: nat, t: T, i: nat) {
    forall j :: i <= j < |log| ==> !Touches(w, k + j, log[j].at, t)
  }

  // From position i on `t` fires once, with expiry `e`.
  ghost predicate FiresOnceFrom<T>(log: seq<Firing<T>>, t: T, i: nat, e: int) {
    exists j :: i <= j < |log| && log[j].timer == t && log[j].expiry == e
                && forall l :: i <= l < |log| && log[l].timer == t ==> l == j
  }

  ghost predicate FiresNotFrom<T>(log: seq<Firing<T>>, t: T, i: nat) {
    forall j :: i <= j < |log| ==> log[j].timer != t
  }

  // The first firing of `t` from position i on, or the end of the log.
  lemma {:induction false} NextFiring<T>(log: seq<Firing<T>>, t: T, i: nat) returns (j: nat)
    requires i <= |log|
    ensures i <= j <= |log| && (j < |log| ==> log[j].timer == t) && forall l :: i <= l < j ==> log[l].timer != t
    decreases |log| - i
  {
    if i == |log| || log[i].timer == t { j := i; } else { j := NextFiring(log, t, i + 1); }
  }

  lemma StoryBetween<T>(cur: int, log: seq<Firing<T>>, w: World<T>, k: nat, t: T, i: nat, j: nat)
    requires i <= j <= |log| && TouchedNoMore(log, w, k, t, i) && forall l :: i <= l < j ==> log[l].timer != t
    ensures Story(cur, log[..j], w, k, t) == Story(cur, log[..i], w, k, t)
  {
    var mid := log[i..j];
    assert log[..j] == log[..i] + mid;
    StoryAppends(cur, log[..i], mid, w, k, t);
    forall l | 0 <= l < |mid| ensures mid[l].timer != t && !Touches(w, (k + i) + l, mid[l].at, t) {
      assert mid[l] == log[i + l] && !Touches(w, k + (i + l), log[i + l].at, t);
    }
    StoryStays(Story(cur, log[..i], w, k, t), mid, w, k + i, t);
  }

  lemma StoryFires<T>(cur: int, log: seq<Firing<T>>, w: World<T>, k: nat, t: T, j: nat)
    requires j < |log| && log[j].timer == t && !Touches(w, k + j, log[j].at, t)
    ensures Story(cur, log[..j + 1], w, k, t) == -1
  {
    var last := [log[j]];
    assert log[..j + 1] == log[..j] + last;
    StoryAppends(cur, log[..j], last, w, k, t);
    var eds := w.cb(k + j, log[j].at);
    forall i | 0 <= i < |eds| ensures eds[i].t != t {}
    FateSpares(-1, eds, t);
    assert last[1..] == [];
  }

  /** A timer that is armed for `e` after the first i callbacks of a run of the simulator, and that none of the later
      ones touches, fires exactly once more, at `e`, if `e` is not beyond the destination; otherwise it does not
      fire, and is armed for `e` at the end. */
  lemma ArmedFires<T>(c: Clock<T>, w: World<T>, dest: int, t: T, i: nat, e: int)
    requires Ok(c) && Strict(w) && c.now <= dest && AllHome(c, w)
    requires c.log <= Simulate(c, w, dest).log
    requires var log := Simulate(c, w, dest).log[|c.log|..];
      i <= |log| && TouchedNoMore(log, w, c.calls, t, i) && Story(Expiry(c, w, t), log[..i], w, c.calls, t) == e >= 0
    ensures var r := Simulate(c, w, dest);
      var log := r.log[|c.log|..];
      if e <= dest then FiresOnceFrom(log, t, i, e) else FiresNotFrom(log, t, i) && Expiry(r, w, t) == e
  {
    var r := Simulate(c, w, dest);
    var log, cur := r.log[|c.log|..], Expiry(c, w, t);
    SimulationStory(c, w, dest, t);
    FiringTimes(c, w, dest);
    SimulationIsExact(c, w, dest, c.now);
    var j := NextFiring(log, t, i);
    StoryBetween(cur, log, w, c.calls, t, i, j);
    if j < |log| {
      FiresOnly(c, w, r, t, j);
      assert log[j].expiry == e && r.log[|c.log| + j] == log[j];
    } else {
      assert log[..j] == log;
      NotDueAtEnd(r, w, t, dest);
    }
  }

  // After its last firing it is gone.
  lemma FiresOnly<T>(c: Clock<T>, w: World<T>, r: Clock<T>, t: T, j: nat)
    requires Told(c, r, w, t) && j < |r.log| - |c.log| && r.log[|c.log|..][j].timer == t
    requires TouchedNoMore(r.log[|c.log|..], w, c.calls, t, j)
    ensures forall l :: j < l < |r.log| - |c.log| ==> r.log[|c.log|..][l].timer != t
  {
    var log, cur := r.log[|c.log|..], Expiry(c, w, t);
    StoryFires(cur, log, w, c.calls, t, j);
    var l := NextFiring(log, t, j + 1);
    StoryBetween(cur, log, w, c.calls, t, j + 1, l);
  }

  lemma NotDueAtEnd<T>(r: Clock<T>, w: World<T>, t: T, dest: int)
    requires Ok(r) && Due(r.main, dest) == [] && Due(r.aio, dest) == []
    ensures Expiry(r, w, t) == -1 || Expiry(r, w, t) > dest
  {
    var s := ListOf(r, w.inAio(t));
    var k := RemoveCut(s, t);
  }

  // The callback at position i of the log sets `t` to `e` and then leaves it alone.
  ghost predicate SetsLast<T>(log: seq<Firing<T>>, w: World<T>, k: nat, t: T, i: nat, e: int) {
    i < |log| && SetsLastIn(w.cb(k + i, log[i].at), t, e)
  }

  ghost predicate SetsLastIn<T>(eds: seq<Edit<T>>, t: T, e: int) {
    exists m: nat :: SetsLastBy(eds, t, e, m)
  }

  ghost predicate SetsLastBy<T>(eds: seq<Edit<T>>, t: T, e: int, m: nat) {
    m < |eds| && eds[m] == SetTo(t, e) && forall l :: m < l < |eds| ==> eds[l].t != t
  }

  lemma StoryAfterSet<T>(cur: int, log: seq<Firing<T>>, w: World<T>, k: nat, t: T, i: nat, e: int)
    requires SetsLast(log, w, k, t, i, e) && e >= 0
    ensures Story(cur, log[..i + 1], w, k, t) == e
  {
    var last := [log[i]];
    assert log[..i + 1] == log[..i] + last && last[1..] == [];
    StoryAppends(cur, log[..i], last, w, k, t);
    var eds := w.cb(k + i, log[i].at);
    var m: nat :| SetsLastBy(eds, t, e, m);
    LastSetDecides(if log[i].timer == t then -1 else Story(cur, log[..i], w, k, t), eds, t, e, m);
  }

  /** So what a callback arms last takes effect: if the i-th callback that runs sets `t` to `e` and neither the
      rest of it nor a later one touches `t`, then `t` fires once more, at `e`, or is armed for `e` at the end. */
  lemma SetTimerFires<T>(c: Clock<T>, w: World<T>, dest: int, t: T, i: nat, e: int)
    requires Ok(c) && Strict(w) && c.now <= dest && AllHome(c, w) && e >= 0
    requires c.log <= Simulate(c, w, dest).log
    requires var log := Simulate(c, w, dest).log[|c.log|..];
      SetsLast(log, w, c.calls, t, i, e) && TouchedNoMore(log, w, c.calls, t, i + 1)
    ensures var r := Simulate(c, w, dest);
      var log := r.log[|c.log|..];
      if e <= dest then FiresOnceFrom(log, t, i + 1, e) else FiresNotFrom(log, t, i + 1) && Expiry(r, w, t) == e
  {
    StoryAfterSet(Expiry(c, w, t), Simulate(c, w, dest).log[|c.log|..], w, c.calls, t, i, e);
    ArmedFires(c, w, dest, t, i + 1, e);
  }

  // ---------- The loops ----------

  // Callbacks arm with 64-bit times.
  ghost predicate Timely<T>(w: World<T>) {
    forall k: nat, now: int, i :: 0 <= i < |w.cb(k, now)| && !w.cb(k, now)[i].Cancel? ==> w.cb(k, now)[i].e <= INT64_MAX
  }

  lemma {:induction false} EditsTimely<T>(s: seq<Armed<T>>, eds: seq<Edit<T>>)
    requires (s == [] || Wf(s)) && Times(s)
    requires forall i :: 0 <= i < |eds| && !eds[i].Cancel? ==> eds[i].e <= INT64_MAX
    ensures Times(ApplyEdits(s, eds))
    decreases |eds|
  {
    if eds != [] {
      assert forall i :: 0 <= i < |eds[1..]| ==> eds[1..][i] == eds[i + 1];
      EditWf(s, eds[0]);
      EditMembers(s, eds[0]);
      forall i | 0 <= i < |ApplyEdit(s, eds[0])| ensures ApplyEdit(s, eds[0])[i].expiry <= INT64_MAX {
        assert ApplyEdit(s, eds[0])[i] in ApplyEdit(s, eds[0]);
      }
      EditsTimely(ApplyEdit(s, eds[0]), eds[1..]);
    }
  }

  lemma {:induction false} SelectTimely<T>(eds: seq<Edit<T>>, w: World<T>, aio: bool)
    requires forall i :: 0 <= i < |eds| && !eds[i].Cancel? ==> eds[i].e <= INT64_MAX
    ensures forall i :: 0 <= i < |Select(eds, w, aio)| && !Select(eds, w, aio)[i].Cancel? ==>
            Select(eds, w, aio)[i].e <= INT64_MAX
  {
    if eds != [] {
      assert forall i :: 0 <= i < |eds[1..]| ==> eds[1..][i] == eds[i + 1];
      SelectTimely(eds[1..], w, aio);
    }
  }

  lemma {:induction false} FireTimely<T>(c: Clock<T>, w: World<T>, aio: bool)
    requires Ok(c) && Timely(w) && Times(c.main) && Times(c.aio) && ListOf(c, aio) != []
    ensures Times(Fire(c, w, aio).main) && Times(Fire(c, w, aio).aio)
  {
    var eds := w.cb(c.calls, c.now);
    SelectTimely(eds, w, aio); SelectTimely(eds, w, !aio);
    var s := ListOf(c, aio);
    TailWf(s);
    assert forall i :: 0 <= i < |s[1..]| ==> s[1..][i] == s[i + 1];
    EditsTimely(s[1..], Select(eds, w, aio));
    EditsTimely(ListOf(c, !aio), Select(eds, w, !aio));
  }

  /** The clock and its two linked lists as the functions of qemu-timer.c change them. */
  class VirtualTime {
    const w: World<L.QEMUTimer>
    const main: L.TimerList
    const aio: L.TimerList
    var now: int
    var calls: nat
    var log: seq<Firing<L.QEMUTimer>>

    // The two lists share nothing, and callbacks use their timers only.
    ghost predicate Linked()
      reads this, main, aio, main.nodes, aio.nodes, main.owned, aio.owned
    {
      && main != aio && main.Valid() && aio.Valid() && main.owned !! aio.owned
      && forall k: nat, at: int :: Confined(w.cb(k, at))
    }

    ghost predicate Confined(eds: seq<Edit<L.QEMUTimer>>)
      reads main, aio
    {
      forall i :: 0 <= i < |eds| ==> AtList(eds[i])
    }

    ghost predicate AtList(ed: Edit<L.QEMUTimer>)
      reads main, aio
    {
      ed.t in (if w.inAio(ed.t) then aio.owned else main.owned)
    }

    ghost function Value(): Clock<L.QEMUTimer>
      reads this, main, aio, main.nodes, aio.nodes
    {
      Clock(now, main.Contents(), aio.Contents(), calls, log)
    }

    ghost predicate Valid()
      reads this, main, aio, main.nodes, aio.nodes, main.owned, aio.owned
    {
      && Linked() && Ok(Value()) && Strict(w) && Timely(w)
      && Times(main.Contents()) && Times(aio.Contents())
    }

    constructor (w: World<L.QEMUTimer>, main: L.TimerList, aio: L.TimerList, now: int)
      ensures Value() == Clock(now, main.Contents(), aio.Contents(), 0, [])
      ensures this.w == w && this.main == main && this.aio == aio
    {
      this.w, this.main, this.aio, this.now := w, main, aio, now;
      calls, log := 0, [];
    }

    // One call of a callback, on the list its timer belongs to.
    method Change(ed: Edit<L.QEMUTimer>)
      requires Linked() && AtList(ed)
      modifies main`activeTimers, main`nodes, main.owned, aio`activeTimers, aio`nodes, aio.owned
      ensures Linked()
      ensures main.Contents() == ApplyEdits(old(main.Contents()), Select([ed], w, false))
      ensures aio.Contents() == ApplyEdits(old(aio.Contents()), Select([ed], w, true))
    {
      if w.inAio(ed.t) {
        aio.Change(ed);
      } else {
        main.Change(ed);
      }
    }

    method RunCallback(eds: seq<Edit<L.QEMUTimer>>)
      requires Linked() && Confined(eds)
      modifies main`activeTimers, main`nodes, main.owned, aio`activeTimers, aio`nodes, aio.owned
      ensures Linked()
      ensures main.Contents() == ApplyEdits(old(main.Contents()), Select(eds, w, false))
      ensures aio.Contents() == ApplyEdits(old(aio.Contents()), Select(eds, w, true))
    {
      var i := 0;
      while i < |eds|
        invariant i <= |eds| && Linked()
        invariant ApplyEdits(main.Contents(), Select(eds[i..], w, false))
               == ApplyEdits(old(main.Contents()), Select(eds, w, false))
        invariant ApplyEdits(aio.Contents(), Select(eds[i..], w, true))
               == ApplyEdits(old(aio.Contents()), Select(eds, w, true))
      {
        SelectNext(main.Contents(), eds, w, false, i);
        SelectNext(aio.Contents(), eds, w, true, i);
        Change(eds[i]);
        i := i + 1;
      }
    }

    method CallBack()
      requires Linked()
      modifies main`activeTimers, main`nodes, main.owned, aio`activeTimers, aio`nodes, aio.owned
      ensures Linked()
      ensures main.Contents() == ApplyEdits(old(main.Contents()), Select(w.cb(calls, now), w, false))
      ensures aio.Contents() == ApplyEdits(old(aio.Contents()), Select(w.cb(calls, now), w, true))
    {
      assert forall k: nat, at: int :: Confined(w.cb(k, at));
      RunCallback(w.cb(calls, now));
    }

    method Record(f: Firing<L.QEMUTimer>)
      requires Linked()
      modifies this`calls, this`log
      ensures Linked() && Value() == old(Value()).(calls := old(calls) + 1, log := old(log) + [f])
    {
      calls := calls + 1;
      log := log + [f];
    }

    method PopHead(onAio: bool) returns (ts: L.QEMUTimer, expiry: int)
      requires Linked() && ListOf(Value(), onAio) != []
      modifies main`activeTimers, main`nodes, main.owned, aio`activeTimers, aio`nodes, aio.owned
      ensures Linked() && Armed(ts, expiry) == ListOf(old(Value()), onAio)[0]
      ensures main.Contents() == if onAio then old(main.Contents()) else old(main.Contents())[1..]
      ensures aio.Contents() == if onAio then old(aio.Contents())[1..] else old(aio.Contents())
    {
      if onAio {
        expiry := aio.activeTimers.expireTime;
        ts := aio.PopHead();
      } else {
        expiry := main.activeTimers.expireTime;
        ts := main.PopHead();
      }
    }

    /** One turn of the loop: unlink the head, then run its callback. */
    method FireHead(onAio: bool)
      requires Linked() && ListOf(Value(), onAio) != []
      modifies this`calls, this`log
      modifies main`activeTimers, main`nodes, main.owned, aio`activeTimers, aio`nodes, aio.owned
      ensures Linked() && Value() == Fire(old(Value()), w, onAio)
    {
      ghost var c := Value();
      var ts, expiry := PopHead(onAio);
      CallBack();
      FireParts(c, w, onAio);
      Record(Firing(ts, expiry, now));
    }

    /** timerlist_run_timers on the list of the AioContext, or of the main loop. */
    method RunTimers(onAio: bool)
      requires Valid()
      modifies this`calls, this`log
      modifies main`activeTimers, main`nodes, main.owned, aio`activeTimers, aio`nodes, aio.owned
      ensures Valid() && Value() == RunList(old(Value()), w, onAio)
    {
      var list := if onAio then aio else main;
      while list.activeTimers != null && list.activeTimers.expireTime <= now
        invariant Valid()
        invariant RunList(Value(), w, onAio) == RunList(old(Value()), w, onAio)
        decreases |Due(ListOf(Value(), onAio), now)|
      {
        FireDue(Value(), w, onAio);
        FireTimely(Value(), w, onAio);
        FireHead(onAio);
      }
    }

    // qemu_clock_deadline_ns_all
    method Deadline() returns (d: int)
      requires Valid() && 0 <= now
      ensures d == DeadlineAll(Value())
    {
      TimesAreTimed(aio, now);
      TimesAreTimed(main, now);
      d := L.ClockDeadlineNsAll([aio, main], true, ALL_ATTRIBUTES, now);
      DeadlineAllIsClockDeadline(Value(), aio, main, d);
    }

    // qemu_virtual_clock_set_ns
    method SetClock(ns: int)
      requires Valid()
      modifies this`now
      ensures Valid() && Value() == old(Value()).(now := ns)
    {
      now := ns;
    }

    // qemu_clock_run_timers, which does not run the list of the AioContext, and that list.
    method RunLists()
      requires Valid()
      modifies this`calls, this`log
      modifies main`activeTimers, main`nodes, main.owned, aio`activeTimers, aio`nodes, aio.owned
      ensures Valid() && Value() == RunBoth(old(Value()), w)
    {
      RunTimers(false);
      RunTimers(true);
    }

    // One turn of the loop.
    method Warp(dest: int) returns (clock: int)
      requires Valid() && 0 <= now < dest <= INT64_MAX
      modifies this`now, this`calls, this`log
      modifies main`activeTimers, main`nodes, main.owned, aio`activeTimers, aio`nodes, aio.owned
      ensures Valid() && clock == now
      ensures Value() == TurnOf(old(Value()), w, dest)
    {
      var deadline := Deadline();
      var warp := Soonest(dest - now, deadline);
      SetClock(now + warp);
      RunLists();
      clock := now;
    }

    /** qemu_clock_advance_virtual_time. */
    method AdvanceVirtualTime(dest: int) returns (clock: int)
      requires Valid() && 0 <= now && dest <= INT64_MAX
      modifies this`now, this`calls, this`log
      modifies main`activeTimers, main`nodes, main.owned, aio`activeTimers, aio`nodes, aio.owned
      ensures Valid() && clock == now
      ensures Value() == if old(now) < dest then Simulate(old(Value()), w, dest) else old(Value())
    {
      ghost var start := Value();
      clock := now;
      while clock < dest
        invariant Valid() && clock == now && 0 <= now
        invariant OnTheWay(start, Value(), w, dest)
        decreases dest - clock, DueCount(Value())
      {
        TurnIsSimulated(Value(), w, dest);
        clock := Warp(dest);
      }
      Arrived(start, Value(), w, dest);
    }
  }

  lemma FireParts<T>(c: Clock<T>, w: World<T>, aio: bool)
    requires ListOf(c, aio) != []
    ensures var f, eds := Fire(c, w, aio), w.cb(c.calls, c.now);
      && f.main == ApplyEdits(if aio then c.main else c.main[1..], Select(eds, w, false))
      && f.aio == ApplyEdits(if aio then c.aio[1..] else c.aio, Select(eds, w, true))
      && f.calls == c.calls + 1 && f.now == c.now
      && f.log == c.log + [Firing(ListOf(c, aio)[0].timer, ListOf(c, aio)[0].expiry, c.now)]
  {
  }

  lemma TimesAreTimed(l: L.TimerList, now: int)
    requires l.Valid() && Times(l.Contents()) && 0 <= now
    ensures L.Timed(l, now)
  {
    assert forall i :: 0 <= i < |l.nodes| ==> l.nodes[i].expireTime == l.Contents()[i].expiry;
  }

  lemma SelectNext<T>(s: seq<Armed<T>>, eds: seq<Edit<T>>, w: World<T>, aio: bool, i: nat)
    requires i < |eds|
    ensures ApplyEdits(s, Select(eds[i..], w, aio))
         == ApplyEdits(ApplyEdits(s, Select([eds[i]], w, aio)), Select(eds[i + 1..], w, aio))
  {
    var ed, rest := eds[i], Select(eds[i + 1..], w, aio);
    assert eds[i..][0] == ed && eds[i..][1..] == eds[i + 1..];
    assert [ed][1..] == [];
    if w.inAio(ed.t) == aio {
      assert Select(eds[i..], w, aio) == [ed] + rest && Select([ed], w, aio) == [ed];
      assert ([ed] + rest)[1..] == rest;
      assert ApplyEdits(s, [ed]) == ApplyEdit(s, ed);
    } else {
      assert Select(eds[i..], w, aio) == rest && Select([ed], w, aio) == [];
    }
  }

  ghost function DueCount<T>(c: Clock<T>): nat {
    |Due(c.main, c.now)| + |Due(c.aio, c.now)|
  }

  // Warp to the next deadline, then run both lists.
  ghost function TurnOf<T>(c: Clock<T>, w: World<T>, dest: int): Clock<T>
    requires Ok(c) && Strict(w)
  {
    RunBoth(Warped(c, dest), w)
  }

  ghost function Warped<T>(c: Clock<T>, dest: int): Clock<T> {
    c.(now := c.now + Warp(c, dest))
  }

  ghost function RunBoth<T>(c: Clock<T>, w: World<T>): Clock<T>
    requires Ok(c) && Strict(w)
  {
    RunList(RunList(c, w, false), w, true)
  }

  // Where the loop has got to, having begun at `start`.
  ghost predicate OnTheWay<T>(start: Clock<T>, c: Clock<T>, w: World<T>, dest: int) {
    && Ok(start) && Ok(c) && Strict(w)
    && (c == start || (start.now < dest && DueCount(c) == 0))
    && (start.now < dest ==> c.now <= dest && Simulate(c, w, dest) == Simulate(start, w, dest))
  }

  // A turn that skips no event, does not pass the destination and makes progress.
  ghost predicate TurnOk<T>(c: Clock<T>, r: Clock<T>, w: World<T>, dest: int) {
    && Ok(c) && Ok(r) && Strict(w) && c.now <= r.now <= dest
    && DueCount(r) == 0 && (r.now == c.now ==> DueCount(c) > 0)
    && Simulate(r, w, dest) == Simulate(c, w, dest)
  }

  lemma TurnIsSimulated<T>(c: Clock<T>, w: World<T>, dest: int)
    requires Ok(c) && Strict(w) && Times(c.main) && Times(c.aio) && 0 <= c.now < dest <= INT64_MAX
    ensures TurnOk(c, TurnOf(c, w, dest), w, dest)
  {
    WarpKeeps(c, w, dest);
    WarpedTurn(c, Warped(c, dest), w, dest);
  }

  lemma WarpedTurn<T>(c: Clock<T>, warped: Clock<T>, w: World<T>, dest: int)
    requires Ok(c) && Ok(warped) && Strict(w) && c.now <= warped.now <= dest
    requires warped.now == c.now ==> DueCount(c) > 0
    requires Simulate(warped, w, dest) == Simulate(c, w, dest)
    ensures TurnOk(c, RunBoth(warped, w), w, dest)
  {
    BothAreSimulated(warped, w, dest);
  }

  lemma WarpKeeps<T>(c: Clock<T>, w: World<T>, dest: int)
    requires Ok(c) && Strict(w) && Times(c.main) && Times(c.aio) && 0 <= c.now < dest <= INT64_MAX
    ensures Ok(Warped(c, dest)) && c.now <= Warped(c, dest).now <= dest
    ensures Warped(c, dest).now == c.now ==> DueCount(c) > 0
    ensures Simulate(Warped(c, dest), w, dest) == Simulate(c, w, dest)
  {
    WarpIsSimulated(c, w, dest);
    NoCount(c);
  }

  lemma NoCount<T>(c: Clock<T>)
    ensures DueCount(c) == 0 <==> Due(c.main, c.now) == [] && Due(c.aio, c.now) == []
  {
  }

  lemma BothAreSimulated<T>(c: Clock<T>, w: World<T>, dest: int)
    requires Ok(c) && Strict(w) && c.now <= dest
    ensures var r := RunBoth(c, w);
      && Ok(r) && r.now == c.now && DueCount(r) == 0 && Simulate(r, w, dest) == Simulate(c, w, dest)
  {
    var r := RunList(c, w, false);
    RunListIsSimulated(c, w, false, dest);
    RunListIsSimulated(r, w, true, dest);
    NoCount(RunList(r, w, true));
  }

  lemma Arrived<T>(start: Clock<T>, c: Clock<T>, w: World<T>, dest: int)
    requires OnTheWay(start, c, w, dest) && c.now >= dest
    ensures c == if start.now < dest then Simulate(start, w, dest) else start
  {
    if start.now < dest { NothingDue(c, w, dest); }
  }

  lemma NothingDue<T>(c: Clock<T>, w: World<T>, dest: int)
    requires Ok(c) && Strict(w) && c.now == dest && DueCount(c) == 0
    ensures Simulate(c, w, dest) == c
  {
  }
}
