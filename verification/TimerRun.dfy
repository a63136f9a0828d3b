/**
  timerlist_run_timers on values: the loop that pops due timers while their callbacks edit the list.
 */
module TimerRun {
  import opened TimerSpec

  // What the k-th callback does to the list. Any sequence of callbacks is such a function.
  type Callbacks<!T> = nat -> seq<Edit<T>>

  // The callback arms timers only later than `now`; it may cancel any.
  predicate ArmsAfter<T>(ed: Edit<T>, now: int) {
    ed.Cancel? || ed.e > now
  }

  predicate AllAfter<T>(eds: seq<Edit<T>>, now: int) {
    forall i | 0 <= i < |eds| :: ArmsAfter(eds[i], now)
  }

  ghost predicate FutureOnly<T>(cb: Callbacks<T>, now: int) {
    forall k :: AllAfter(cb(k), now)
  }

  // The timers that have expired at `now`, in list order.
  function Due<T>(s: seq<Armed<T>>, now: int): seq<Armed<T>> {
    if s == [] || s[0].expiry > now then [] else [s[0]] + Due(s[1..], now)
  }

  datatype Outcome<T> = Outcome(rest: seq<Armed<T>>, fired: seq<Armed<T>>, calls: nat)

  // The loop: unlink the head if it is due, call its callback, look at the head again.
  ghost function RunTimers<T>(s: seq<Armed<T>>, now: int, cb: Callbacks<T>, k: nat): Outcome<T>
    requires Wf(s) && FutureOnly(cb, now)
    decreases |Due(s, now)|
  {
    if s == [] || s[0].expiry > now then Outcome(s, [], k)
    else
      assert AllAfter(cb(k), now);
      EditsDue(s[1..], cb(k), now);
      StrikeShrinks(Due(s[1..], now), cb(k));
      var o := RunTimers(ApplyEdits(s[1..], cb(k)), now, cb, k + 1);
      o.(fired := [s[0]] + o.fired)
  }

  // ---------- The reference: strike timers off the list of those due at the start ----------

  // Timers that these edits cancel or re-arm.
  function Strike<T(==)>(d: seq<Armed<T>>, eds: seq<Edit<T>>): seq<Armed<T>>
    decreases |eds|
  {
    if eds == [] then d
    else Strike(if eds[0].Lower? then d else Remove(d, eds[0].t), eds[1..])
  }

  // Go through the due timers in order; each fires and its callback strikes others off.
  function Expected<T(==)>(d: seq<Armed<T>>, cb: Callbacks<T>, k: nat): (seq<Armed<T>>, nat)
    decreases |d|
  {
    if d == [] then ([], k)
    else
      StrikeShrinks(d[1..], cb(k));
      var (f, n) := Expected(Strike(d[1..], cb(k)), cb, k + 1);
      ([d[0]] + f, n)
  }

  lemma {:induction false} StrikeShrinks<T>(d: seq<Armed<T>>, eds: seq<Edit<T>>)
    ensures |Strike(d, eds)| <= |d|
    decreases |eds|
  {
    if eds != [] {
      var k := RemoveCut(d, eds[0].t);
      StrikeShrinks(if eds[0].Lower? then d else Remove(d, eds[0].t), eds[1..]);
    }
  }

  // ---------- Edits and the due prefix ----------

  lemma {:induction false} EditWf<T>(s: seq<Armed<T>>, ed: Edit<T>)
    requires Wf(s)
    ensures Wf(ApplyEdit(s, ed))
  {
    match ed {
      case Cancel(t) => RemoveWf(s, t);
      case SetTo(t, e) => RemoveWf(s, t); InsertWf(Remove(s, t), t, e);
      case Lower(t, e) => RemoveWf(s, t); InsertWf(Remove(s, t), t, e);
    }
  }

  lemma ModMember<T>(s: seq<Armed<T>>, t: T, e: int, a: Armed<T>)
    requires Wf(s)
    ensures a in Mod(s, t, e) <==> (a in s && a.timer != t) || a == Armed(t, Max(e, 0))
  {
    RemoveWf(s, t);
    InsertWf(Remove(s, t), t, e);
  }

  lemma EditMember<T>(s: seq<Armed<T>>, ed: Edit<T>, a: Armed<T>)
    requires Wf(s)
    ensures a in ApplyEdit(s, ed) ==> a in s || (!ed.Cancel? && a == Armed(ed.t, Max(ed.e, 0)))
    ensures a in s && a.timer != ed.t ==> a in ApplyEdit(s, ed)
  {
    match ed {
      case Cancel(t) => RemoveWf(s, t);
      case SetTo(t, e) => ModMember(s, t, e, a);
      case Lower(t, e) => ModMember(s, t, e, a);
    }
  }

  // An edit adds at most the timer it arms.
  lemma {:induction false} EditMembers<T>(s: seq<Armed<T>>, ed: Edit<T>)
    requires Wf(s)
    ensures forall a :: a in ApplyEdit(s, ed) ==> a in s || (!ed.Cancel? && a == Armed(ed.t, Max(ed.e, 0)))
    ensures forall a :: a in s && a.timer != ed.t ==> a in ApplyEdit(s, ed)
  {
    forall a | a in ApplyEdit(s, ed) ensures a in s || (!ed.Cancel? && a == Armed(ed.t, Max(ed.e, 0))) {
      EditMember(s, ed, a);
    }
    forall a | a in s && a.timer != ed.t ensures a in ApplyEdit(s, ed) { EditMember(s, ed, a); }
  }

  lemma {:induction false} EditsWf<T>(s: seq<Armed<T>>, eds: seq<Edit<T>>)
    requires Wf(s)
    ensures Wf(ApplyEdits(s, eds))
    decreases |eds|
  {
    if eds != [] {
      EditWf(s, eds[0]);
      EditsWf(ApplyEdit(s, eds[0]), eds[1..]);
    }
  }

  lemma {:induction false} TailWf<T>(s: seq<Armed<T>>)
    requires Wf(s) && s != []
    ensures Wf(s[1..])
  {
    assert forall i :: 0 <= i < |s[1..]| ==> s[1..][i] == s[i + 1];
  }

  lemma {:induction false} DueRemove<T>(s: seq<Armed<T>>, t: T, now: int)
    requires Wf(s)
    ensures Due(Remove(s, t), now) == Remove(Due(s, now), t)
  {
    if s != [] {
      TailWf(s);
      DueRemove(s[1..], t, now);
      if s[0].expiry > now && s[0].timer == t && s[1..] != [] {
        assert s[1].expiry > now;
      }
    }
  }

  lemma {:induction false} DueInsert<T>(s: seq<Armed<T>>, t: T, e: int, now: int)
    requires e > now
    ensures Due(Insert(s, t, e), now) == Due(s, now)
  {
    if s != [] && s[0].expiry <= e {
      DueInsert(s[1..], t, e, now);
      assert Insert(s, t, e)[1..] == Insert(s[1..], t, e);
    }
  }

  // A timer that is not due is not on the due prefix.
  lemma {:induction false} NotDue<T>(s: seq<Armed<T>>, t: T, now: int)
    requires Wf(s) && (ExpireTime(s, t) == -1 || ExpireTime(s, t) > now)
    ensures Remove(Due(s, now), t) == Due(s, now)
  {
    if s != [] {
      TailWf(s);
      if s[0].timer != t { NotDue(s[1..], t, now); }
    }
  }

  lemma {:induction false} EditDue<T>(s: seq<Armed<T>>, ed: Edit<T>, now: int)
    requires Wf(s) && ArmsAfter(ed, now)
    ensures Due(ApplyEdit(s, ed), now) == if ed.Lower? then Due(s, now) else Remove(Due(s, now), ed.t)
  {
    DueRemove(s, ed.t, now);
    if !ed.Cancel? { DueInsert(Remove(s, ed.t), ed.t, ed.e, now); }
    if ed.Lower? {
      var cur := ExpireTime(s, ed.t);
      if cur == -1 || cur > ed.e { NotDue(s, ed.t, now); }
    }
  }

  lemma {:induction false} EditsDue<T>(s: seq<Armed<T>>, eds: seq<Edit<T>>, now: int)
    requires s == [] || Wf(s)
    requires AllAfter(eds, now)
    ensures Due(ApplyEdits(s, eds), now) == Strike(Due(s, now), eds) && Wf(ApplyEdits(s, eds))
    decreases |eds|
  {
    if eds != [] {
      assert ArmsAfter(eds[0], now);
      assert forall i :: 0 <= i < |eds[1..]| ==> eds[1..][i] == eds[i + 1];
      EditDue(s, eds[0], now);
      EditWf(s, eds[0]);
      EditsDue(ApplyEdit(s, eds[0]), eds[1..], now);
    }
  }

  // ---------- Results ----------

  /** The loop fires exactly the timers that were due when the time was sampled, each once and in list
      order, except those an earlier callback cancelled or re-armed; it leaves none due. */
  lemma {:induction false} RunFiresExpected<T>(s: seq<Armed<T>>, now: int, cb: Callbacks<T>, k: nat)
    requires Wf(s) && FutureOnly(cb, now)
    ensures var o := RunTimers(s, now, cb, k);
      && (o.fired, o.calls) == Expected(Due(s, now), cb, k)
      && Due(o.rest, now) == [] && Wf(o.rest)
      && o.calls == k + |o.fired|
    decreases |Due(s, now)|
  {
    if s != [] && s[0].expiry <= now {
      TailWf(s);
      assert AllAfter(cb(k), now);
      EditsDue(s[1..], cb(k), now);
      StrikeShrinks(Due(s[1..], now), cb(k));
      RunFiresExpected(ApplyEdits(s[1..], cb(k)), now, cb, k + 1);
    }
  }

  // No callback cancels or re-arms `t`.
  ghost predicate Spared<T>(cb: Callbacks<T>, t: T) {
    forall k, i :: 0 <= i < |cb(k)| ==> cb(k)[i].Lower? || cb(k)[i].t != t
  }

  lemma {:induction false} StrikeMembers<T>(d: seq<Armed<T>>, eds: seq<Edit<T>>)
    requires Unique(d)
    ensures Unique(Strike(d, eds)) && (forall a :: a in Strike(d, eds) ==> a in d)
    ensures forall a :: a in d && (forall i :: 0 <= i < |eds| ==> eds[i].Lower? || eds[i].t != a.timer) ==>
            a in Strike(d, eds)
    decreases |eds|
  {
    if eds != [] {
      var d' := if eds[0].Lower? then d else Remove(d, eds[0].t);
      StruckMembers(d, eds[0].t);
      StrikeMembers(d', eds[1..]);
      assert Strike(d, eds) == Strike(d', eds[1..]);
      forall a | a in d' ensures a in d { assert a in Remove(d, eds[0].t) || a in d; }
      forall a | a in d && (forall i :: 0 <= i < |eds| ==> eds[i].Lower? || eds[i].t != a.timer)
        ensures a in Strike(d, eds)
      {
        assert eds[0].Lower? || eds[0].t != a.timer;
        assert a in d';
        assert forall i :: 0 <= i < |eds[1..]| ==> eds[1..][i] == eds[i + 1];
      }
    }
  }

  lemma StruckMembers<T>(d: seq<Armed<T>>, t: T)
    requires Unique(d)
    ensures Unique(Remove(d, t)) && forall a :: a in Remove(d, t) <==> a in d && a.timer != t
  {
    var k := RemoveCut(d, t);
    if k < |d| { DropMembers(d, k); }
  }

  /** No timer fires twice, only due timers fire, and a due timer that no callback cancels or re-arms fires. */
  lemma {:induction false} FiredOnceEach<T>(d: seq<Armed<T>>, cb: Callbacks<T>, k: nat)
    requires Unique(d)
    ensures var f := Expected(d, cb, k).0;
      Unique(f) && (forall a :: a in f ==> a in d) && (forall a :: a in d && Spared(cb, a.timer) ==> a in f)
    decreases |d|
  {
    if d != [] {
      assert forall i :: 0 <= i < |d[1..]| ==> d[1..][i] == d[i + 1];
      var d' := Strike(d[1..], cb(k));
      StrikeShrinks(d[1..], cb(k));
      StrikeMembers(d[1..], cb(k));
      FiredOnceEach(d', cb, k + 1);
      var f := Expected(d', cb, k + 1).0;
      assert forall a :: a in f ==> a in d[1..];
      assert Expected(d, cb, k).0 == [d[0]] + f;
    }
  }

  // ---------- The story of one timer ----------

  /** When a timer expires after these edits, -1 if it is not armed, having expired at `cur` before them.  It
      knows nothing of lists. */
  function Fate<T(==)>(cur: int, eds: seq<Edit<T>>, t: T): int
    decreases |eds|
  {
    if eds == [] then cur
    else if eds[0].t != t then Fate(cur, eds[1..], t)
    else match eds[0]
      case Cancel(_) => Fate(-1, eds[1..], t)
      case SetTo(_, e) => Fate(if e < 0 then 0 else e, eds[1..], t)
      case Lower(_, e) => Fate(if cur >= 0 && cur <= e then cur else if e < 0 then 0 else e, eds[1..], t)
  }

  lemma {:induction false} ExpireTimeBounds<T>(s: seq<Armed<T>>, t: T)
    requires s == [] || Wf(s)
    ensures ExpireTime(s, t) >= -1
  {
    var k := RemoveCut(s, t);
  }

  lemma EditFate<T>(s: seq<Armed<T>>, ed: Edit<T>, t: T)
    requires s == [] || Wf(s)
    ensures ExpireTime(ApplyEdit(s, ed), t) == Fate(ExpireTime(s, t), [ed], t)
  {
    ExpireTimeBounds(s, ed.t);
    RemoveWf(s, ed.t);
    RemoveExpire(s, ed.t, t);
    RemoveExpire(s, ed.t, ed.t);
    if !ed.Cancel? { InsertExpire(Remove(s, ed.t), ed.t, ed.e, t); }
  }

  lemma {:induction false} EditsFate<T>(s: seq<Armed<T>>, eds: seq<Edit<T>>, t: T)
    requires s == [] || Wf(s)
    ensures ExpireTime(ApplyEdits(s, eds), t) == Fate(ExpireTime(s, t), eds, t)
    decreases |eds|
  {
    if eds != [] {
      EditFate(s, eds[0], t);
      EditWf(s, eds[0]);
      EditsFate(ApplyEdit(s, eds[0]), eds[1..], t);
      FateStep(ExpireTime(s, t), eds, t);
    }
  }

  lemma FateStep<T>(cur: int, eds: seq<Edit<T>>, t: T)
    requires eds != []
    ensures Fate(cur, eds, t) == Fate(Fate(cur, [eds[0]], t), eds[1..], t)
  {
    assert [eds[0]][1..] == [];
  }

  // The edits of one timer decide, and of those the last SetTo and what follows it.
  lemma {:induction false} LastSetDecides<T>(cur: int, eds: seq<Edit<T>>, t: T, e: int, m: nat)
    requires m < |eds| && eds[m] == SetTo(t, e) && forall i :: m < i < |eds| ==> eds[i].t != t
    ensures Fate(cur, eds, t) == if e < 0 then 0 else e
    decreases |eds|
  {
    FateStep(cur, eds, t);
    if m > 0 {
      LastSetDecides(Fate(cur, [eds[0]], t), eds[1..], t, e, m - 1);
    } else {
      assert [eds[0]][1..] == [];
      FateSpares(if e < 0 then 0 else e, eds[1..], t);
    }
  }

  lemma {:induction false} FateSpares<T>(cur: int, eds: seq<Edit<T>>, t: T)
    requires forall i :: 0 <= i < |eds| ==> eds[i].t != t
    ensures Fate(cur, eds, t) == cur
    decreases |eds|
  {
    if eds != [] { FateSpares(cur, eds[1..], t); }
  }

  // What the timers fired and their callbacks, from the k-th on, make of the expiry of `t`.
  function RunStory<T(==)>(cur: int, fired: seq<Armed<T>>, cb: Callbacks<T>, k: nat, t: T): int
    decreases |fired|
  {
    if fired == [] then cur
    else RunStory(Fate(if fired[0].timer == t then -1 else cur, cb(k), t), fired[1..], cb, k + 1, t)
  }

  lemma HeadGoes<T>(s: seq<Armed<T>>, t: T)
    requires Wf(s) && s != []
    ensures ExpireTime(s[1..], t) == if s[0].timer == t then -1 else ExpireTime(s, t)
  {
    if s[0].timer == t { AbsentExpire(s[1..], t); }
  }

  /** Whatever callbacks arm, anticipate or cancel takes effect: after the run each timer expires when its own
      story says, and is armed only if that says so. */
  lemma {:induction false} RunSetsExpiry<T>(s: seq<Armed<T>>, now: int, cb: Callbacks<T>, k: nat, t: T)
    requires Wf(s) && FutureOnly(cb, now)
    ensures var o := RunTimers(s, now, cb, k);
      ExpireTime(o.rest, t) == RunStory(ExpireTime(s, t), o.fired, cb, k, t)
    decreases |Due(s, now)|
  {
    if s != [] && s[0].expiry <= now {
      TailWf(s);
      assert AllAfter(cb(k), now);
      EditsDue(s[1..], cb(k), now);
      StrikeShrinks(Due(s[1..], now), cb(k));
      RunSetsExpiry(ApplyEdits(s[1..], cb(k)), now, cb, k + 1, t);
      EditsFate(s[1..], cb(k), t);
      HeadGoes(s, t);
      var rest := RunTimers(ApplyEdits(s[1..], cb(k)), now, cb, k + 1).fired;
      assert ([s[0]] + rest)[1..] == rest;
    }
  }
}
