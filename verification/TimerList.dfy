/**
  The linked list of active timers of util/qemu-timer.c, updated in place, against the functions of
  TimerSpec and TimerRun.  The caller holds active_timers_lock.
 */
module TimerList {
  import opened TimerSpec
  import opened TimerRun
  import opened TimerDeadline

  class QEMUTimer {
    var expireTime: int
    var next: QEMUTimer?
    const attributes: bv32

    // timer_init_full
    constructor (attributes: bv32)
      ensures expireTime == -1 && this.attributes == attributes
    {
      this.attributes := attributes;
      expireTime := -1;
      next := null;
    }
  }

  class TimerList {
    var activeTimers: QEMUTimer?
    ghost var nodes: seq<QEMUTimer>        // the list, in order
    ghost var owned: set<QEMUTimer>        // timers whose timer_list is this list

    ghost predicate Linked()
      reads this, nodes
    {
      && activeTimers == (if nodes == [] then null else nodes[0])
      && (forall i {:trigger nodes[i].next} :: 0 <= i < |nodes| ==>
          nodes[i].next == if i + 1 < |nodes| then nodes[i + 1] else null)
      && (forall i, j :: 0 <= i < j < |nodes| ==> nodes[i] != nodes[j])
    }

    ghost function Contents(): (s: seq<Armed<QEMUTimer>>)
      reads this, nodes
      ensures |s| == |nodes|
    {
      seq(|nodes|, i requires 0 <= i < |nodes| reads this, nodes => Armed(nodes[i], nodes[i].expireTime))
    }

    // Acyclic, duplicate-free and sorted; every timer's own expire_time is what the list says, -1
    // when it is not on the list.
    ghost predicate Valid()
      reads this, nodes, owned
    {
      && Linked() && Wf(Contents())
      && (forall t :: t in nodes ==> t in owned)
      && (forall t :: t in owned ==> t.expireTime == ExpireTime(Contents(), t))
    }

    constructor ()
      ensures Valid() && Contents() == [] && owned == {}
    {
      activeTimers, nodes, owned := null, [], {};
    }

    /** timer_init_full for a timer of this list. */
    method NewTimer(attributes: bv32) returns (t: QEMUTimer)
      requires Valid()
      modifies this
      ensures Valid() && fresh(t) && owned == old(owned) + {t} && Contents() == old(Contents())
      ensures t.expireTime == -1 && t.attributes == attributes
    {
      t := new QEMUTimer(attributes);
      owned := owned + {t};
      assert forall i :: 0 <= i < |nodes| ==> nodes[i] in old(owned) && nodes[i] != t;
      assert Contents() == old(Contents());
      AbsentExpire(Contents(), t);
    }

    // The first loop of timer_del_locked: the node of `ts` and its predecessor, as the walk finds them.
    method Locate(ts: QEMUTimer) returns (prev: QEMUTimer?, t: QEMUTimer?, ghost k: nat)
      requires Linked()
      ensures k <= |nodes| && ts !in nodes[..k]
      ensures t == (if k < |nodes| then ts else null) && (k < |nodes| ==> nodes[k] == ts)
      ensures prev == if k == 0 then null else nodes[k - 1]
    {
      prev, t, k := null, activeTimers, 0;
      while t != null && t != ts
        invariant k <= |nodes| && ts !in nodes[..k]
        invariant t == if k < |nodes| then nodes[k] else null
        invariant prev == if k == 0 then null else nodes[k - 1]
        decreases |nodes| - k
      {
        prev := t;
        t := t.next;
        k := k + 1;
      }
    }

    // Store the successor of nodes[k] where the pointer to nodes[k] was.
    method Unlink(prev: QEMUTimer?, t: QEMUTimer, ghost k: nat)
      requires Linked() && k < |nodes| && t == nodes[k]
      requires prev == if k == 0 then null else nodes[k - 1]
      modifies this`activeTimers, this`nodes, nodes`next
      ensures Linked() && nodes == old(nodes[..k] + nodes[k + 1..])
    {
      if prev == null {
        activeTimers := t.next;
      } else {
        prev.next := t.next;
      }
      nodes := nodes[..k] + nodes[k + 1..];
    }

    // Store a new node where the pointer to nodes[k], or the final null, was.
    method Link(prev: QEMUTimer?, ts: QEMUTimer, ghost k: nat)
      requires Linked() && k <= |nodes| && ts !in nodes
      requires prev == if k == 0 then null else nodes[k - 1]
      modifies this`activeTimers, this`nodes, nodes`next, ts`next
      ensures Linked() && nodes == old(nodes[..k] + [ts] + nodes[k..])
    {
      if prev == null {
        ts.next := activeTimers;
        activeTimers := ts;
      } else {
        ts.next := prev.next;
        prev.next := ts;
      }
      nodes := nodes[..k] + [ts] + nodes[k..];
    }

    // The list after unlinking node k.
    lemma ContentsUnlinked(before: seq<Armed<QEMUTimer>>, k: nat)
      requires k < |before| && |nodes| == |before| - 1
      requires forall i :: 0 <= i < |nodes| ==>
               Armed(nodes[i], nodes[i].expireTime) == before[if i < k then i else i + 1]
      ensures Contents() == before[..k] + before[k + 1..]
    {
    }

    lemma RemovedIsValid(before: seq<Armed<QEMUTimer>>, ts: QEMUTimer)
      requires Linked() && Wf(before) && Contents() == Remove(before, ts)
      requires forall t :: t in nodes ==> t in owned
      requires forall u :: u in owned ==> u.expireTime == if u == ts then -1 else ExpireTime(before, u)
      ensures Valid()
    {
      RemoveWf(before, ts);
      forall u | u in owned ensures u.expireTime == ExpireTime(Contents(), u) { RemoveExpire(before, ts, u); }
    }

    lemma InsertedIsValid(before: seq<Armed<QEMUTimer>>, ts: QEMUTimer, e: int)
      requires Linked() && Wf(before) && !Has(before, ts) && Contents() == Insert(before, ts, e)
      requires forall t :: t in nodes ==> t in owned
      requires ExpireTime(before, ts) == -1
      requires forall u :: u in owned ==> u.expireTime == if u == ts then Max(e, 0) else ExpireTime(before, u)
      ensures Valid()
    {
      InsertWf(before, ts, e);
      forall u | u in owned ensures u.expireTime == ExpireTime(Contents(), u) { InsertExpire(before, ts, e, u); }
    }

    // Unlinking node k, without looking at any time.
    method DeleteNode(ts: QEMUTimer, ghost before: seq<Armed<QEMUTimer>>)
      requires Linked() && |before| == |nodes| && Unique(before)
      requires forall i :: 0 <= i < |nodes| ==> before[i].timer == nodes[i]
      requires forall i :: 0 <= i < |nodes| && nodes[i] != ts ==> before[i].expiry == nodes[i].expireTime
      modifies this`activeTimers, this`nodes, nodes`next
      ensures Linked() && Contents() == Remove(before, ts)
      ensures ts !in nodes && forall u :: u in nodes ==> u in old(nodes)
    {
      ghost var k := RemoveCut(before, ts);
      var prev, t, k' := Locate(ts);
      assert k' == k;
      if t != null {
        Unlink(prev, t, k);
        ContentsUnlinked(before, k);
      }
    }

    /** timer_del_locked. */
    method TimerDelLocked(ts: QEMUTimer)
      requires Valid() && ts in owned
      modifies this`activeTimers, this`nodes, owned`next, ts`expireTime
      ensures Valid() && Contents() == Remove(old(Contents()), ts)
      ensures ts !in nodes
      ensures ts.expireTime == -1
    {
      ghost var before := Contents();
      ts.expireTime := -1;
      DeleteNode(ts, before);
      RemovedIsValid(before, ts);
    }

    // Walk to the first node that expires later than `expireTime`.
    method FindSlot(expireTime: int) returns (prev: QEMUTimer?, ghost k: nat)
      requires Linked()
      ensures k <= |nodes| && prev == (if k == 0 then null else nodes[k - 1])
      ensures forall i :: 0 <= i < k ==> nodes[i].expireTime <= expireTime
      ensures k < |nodes| ==> nodes[k].expireTime > expireTime
    {
      prev, k := null, 0;
      var t := activeTimers;
      while t != null && t.expireTime <= expireTime
        invariant k <= |nodes| && t == if k < |nodes| then nodes[k] else null
        invariant prev == if k == 0 then null else nodes[k - 1]
        invariant forall i :: 0 <= i < k ==> nodes[i].expireTime <= expireTime
        decreases |nodes| - k
      {
        prev := t;
        t := t.next;
        k := k + 1;
      }
    }

    /** timer_mod_ns_locked: insert an unlinked timer; the result says whether it became the head. */
    method TimerModNsLocked(ts: QEMUTimer, expireTime: int) returns (rearm: bool)
      requires Valid() && ts in owned && ts.expireTime == -1
      modifies this`activeTimers, this`nodes, owned`next, ts
      ensures Valid() && Contents() == Insert(old(Contents()), ts, expireTime)
      ensures rearm <==> activeTimers == ts
    {
      ghost var before := Contents();
      NotArmed(ts);
      var prev, k := FindSlot(expireTime);
      ts.expireTime := Max(expireTime, 0);
      Link(prev, ts, k);
      rearm := prev == null;
      InsertAt(before, ts, expireTime, k);
      ContentsLinked(before, Armed(ts, Max(expireTime, 0)), k);
      InsertedIsValid(before, ts, expireTime);
    }

    lemma NotArmed(ts: QEMUTimer)
      requires Valid() && ts in owned && ts.expireTime == -1
      ensures ts !in nodes && !Has(Contents(), ts)
    {
      var k := RemoveCut(Contents(), ts);
      assert forall i :: 0 <= i < |nodes| ==> Contents()[i].timer == nodes[i];
    }

    lemma ContentsLinked(before: seq<Armed<QEMUTimer>>, x: Armed<QEMUTimer>, k: nat)
      requires k <= |before| && |nodes| == |before| + 1
      requires forall i :: 0 <= i < |nodes| ==>
        (Armed(nodes[i], nodes[i].expireTime) == if i < k then before[i] else if i == k then x else before[i - 1])
      ensures Contents() == before[..k] + [x] + before[k..]
    {
      var r := before[..k] + [x] + before[k..];
      forall i | 0 <= i < |r| ensures Contents()[i] == r[i] {
        assert Contents()[i] == Armed(nodes[i], nodes[i].expireTime);
        assert Armed(nodes[i], nodes[i].expireTime) == if i < k then before[i] else if i == k then x else before[i - 1];
        if i < k {
          assert r[i] == before[i];
        } else if i > k {
          assert r[i] == before[i - 1];
        } else {
          assert r[i] == x;
        }
      }
      assert Contents() == r;
    }

    /** timer_del. */
    method TimerDel(ts: QEMUTimer)
      requires Valid() && ts in owned
      modifies this`activeTimers, this`nodes, owned`next, ts`expireTime
      ensures Valid() && Contents() == Remove(old(Contents()), ts) && ts.expireTime == -1
    {
      TimerDelLocked(ts);
    }

    /** timer_mod_ns; the result says whether the list's notifier is due. */
    method TimerModNs(ts: QEMUTimer, expireTime: int) returns (rearm: bool)
      requires Valid() && ts in owned
      modifies this`activeTimers, this`nodes, owned`next, ts
      ensures Valid() && Contents() == Mod(old(Contents()), ts, expireTime)
      ensures rearm <==> activeTimers == ts
    {
      TimerDelLocked(ts);
      rearm := TimerModNsLocked(ts, expireTime);
    }

    /** timer_mod_anticipate_ns. */
    method TimerModAnticipateNs(ts: QEMUTimer, expireTime: int) returns (rearm: bool)
      requires Valid() && ts in owned
      modifies this`activeTimers, this`nodes, owned`next, ts
      ensures Valid() && Contents() == Anticipate(old(Contents()), ts, expireTime)
      ensures rearm ==> activeTimers == ts
      ensures !rearm && Contents() != old(Contents()) ==> activeTimers != ts
    {
      rearm := false;
      if ts.expireTime == -1 || ts.expireTime > expireTime {
        if ts.expireTime != -1 {
          TimerDelLocked(ts);
        } else {
          ghost var k := RemoveCut(Contents(), ts);
        }
        rearm := TimerModNsLocked(ts, expireTime);
      }
    }

    /** timer_pending. */
    method TimerPending(ts: QEMUTimer) returns (pending: bool)
      requires Valid() && ts in owned
      ensures pending <==> Has(Contents(), ts)
    {
      pending := ts.expireTime >= 0;
      ghost var k := RemoveCut(Contents(), ts);
    }

    /** timerlist_deadline_ns with the clock at `now`. */
    method DeadlineNs(enabled: bool, now: int) returns (d: int)
      requires Valid()
      ensures IsEarliest(d, if enabled then Deadlines(Contents(), now) else [])
    {
      d := -1;
      if activeTimers != null && enabled {
        d := Max(activeTimers.expireTime - now, 0);
        HeadIsEarliest(Contents(), now);
      }
    }

    /** The list's part of qemu_clock_deadline_ns_all: skip timers with an attribute outside the mask. */
    method MaskedDeadlineNs(mask: bv32, now: int) returns (d: int)
      requires Valid()
      ensures IsEarliest(d, Deadlines(Within(mask, Contents()), now))
    {
      var t := FirstWithin(mask);
      d := if t == null then -1 else Max(t.expireTime - now, 0);
      if t != null {
        WithinSorted(mask, Contents());
        HeadIsEarliest(Within(mask, Contents()), now);
      }
    }

    // The walk past the timers with an attribute outside the mask.
    method FirstWithin(mask: bv32) returns (t: QEMUTimer?)
      requires Valid()
      ensures t == null <==> Within(mask, Contents()) == []
      ensures t != null ==> var first := Within(mask, Contents())[0]; first.timer == t && first.expiry == t.expireTime
    {
      ghost var s := Contents();
      t := activeTimers;
      ghost var k := 0;
      assert s[0..] == s;
      while t != null && t.attributes & !mask != 0
        invariant k <= |nodes| && t == if k < |nodes| then nodes[k] else null
        invariant Within(mask, s[k..]) == Within(mask, s)
        decreases |nodes| - k
      {
        WithinStep(mask, s, k);
        t := t.next;
        k := k + 1;
      }
      if t != null { WithinStep(mask, s, k); }
    }

    // Unlink the head before its callback runs.
    method PopHead() returns (ts: QEMUTimer)
      requires Valid() && nodes != []
      modifies this`activeTimers, this`nodes, owned
      ensures Valid() && old(Contents()) == [Armed(ts, old(nodes[0].expireTime))] + Contents()
      ensures ts == old(nodes[0]) && ts.expireTime == -1 && ts.next == null && ts !in nodes
    {
      ghost var before := Contents();
      ts := activeTimers;
      assert forall i :: 0 <= i < |nodes| ==> before[i] == Armed(nodes[i], nodes[i].expireTime);
      activeTimers := ts.next;
      nodes := nodes[1..];
      ts.next := null;
      ts.expireTime := -1;
      assert Contents() == before[1..];
      RemovedIsValid(before, ts);
    }

    // The callback: it modifies, anticipates and deletes timers of this list.
    method RunCallback(eds: seq<Edit<QEMUTimer>>)
      requires Valid() && forall i :: 0 <= i < |eds| ==> eds[i].t in owned
      modifies this`activeTimers, this`nodes, owned
      ensures Valid() && Contents() == ApplyEdits(old(Contents()), eds)
    {
      var i := 0;
      while i < |eds|
        invariant i <= |eds| && Valid()
        invariant ApplyEdits(Contents(), eds[i..]) == ApplyEdits(old(Contents()), eds)
      {
        EditNext(Contents(), eds, i);
        Change(eds[i]);
        i := i + 1;
      }
    }

    // One call of the callback.
    method Change(ed: Edit<QEMUTimer>)
      requires Valid() && ed.t in owned
      modifies this`activeTimers, this`nodes, owned
      ensures Valid() && Contents() == ApplyEdit(old(Contents()), ed)
    {
      match ed {
        case SetTo(t, e) => var _ := TimerModNs(t, e);
        case Lower(t, e) => var _ := TimerModAnticipateNs(t, e);
        case Cancel(t) => TimerDel(t);
      }
    }

    /** timerlist_run_timers, the clock reading `now` and the next callback being the k-th: it ends with
        the list RunTimers describes, having fired what RunTimers says. */
    method Run(enabled: bool, now: int, cb: Callbacks<QEMUTimer>, k: nat)
      returns (progress: bool, fired: seq<QEMUTimer>, calls: nat)
      requires Valid() && FutureOnly(cb, now)
      requires forall n, i :: 0 <= i < |cb(n)| ==> cb(n)[i].t in owned
      modifies this`activeTimers, this`nodes, owned
      ensures Valid()
      ensures !enabled ==> Contents() == old(Contents()) && !progress && fired == []
      ensures enabled ==> var o := RunTimers(old(Contents()), now, cb, k);
                Contents() == o.rest && calls == o.calls && Timers(o.fired) == fired
      ensures progress <==> fired != []
    {
      progress, fired, calls := false, [], k;
      if activeTimers == null || !enabled {
        return;
      }
      ghost var start := RunTimers(Contents(), now, cb, k);
      while activeTimers != null && activeTimers.expireTime <= now
        invariant Valid() && (progress <==> fired != [])
        invariant Ahead(RunTimers(Contents(), now, cb, calls), fired, start)
        decreases |Due(Contents(), now)|
      {
        ghost var before := Contents();
        TurnAhead(before, now, cb, calls, fired, start);
        var ts := Turn(now, cb, calls);
        calls := calls + 1;
        fired := fired + [ts];
        progress := true;
      }
    }

    // One turn of the loop.
    method Turn(now: int, cb: Callbacks<QEMUTimer>, k: nat) returns (ts: QEMUTimer)
      requires Valid() && nodes != []
      requires forall n, i :: 0 <= i < |cb(n)| ==> cb(n)[i].t in owned
      modifies this`activeTimers, this`nodes, owned
      ensures Valid() && ts == old(Contents()[0].timer)
      ensures Contents() == ApplyEdits(old(Contents()[1..]), cb(k))
    {
      ts := PopHead();
      RunCallback(cb(k));
    }
  }

  lemma EditNext(s: seq<Armed<QEMUTimer>>, eds: seq<Edit<QEMUTimer>>, i: nat)
    requires i < |eds|
    ensures ApplyEdits(s, eds[i..]) == ApplyEdits(ApplyEdit(s, eds[i]), eds[i + 1..])
  {
    assert eds[i..][0] == eds[i] && eds[i..][1..] == eds[i + 1..];
  }

  // What is left to do, after firing `fired`, completes to `whole`.
  ghost predicate Ahead(o: Outcome<QEMUTimer>, fired: seq<QEMUTimer>, whole: Outcome<QEMUTimer>) {
    o.rest == whole.rest && o.calls == whole.calls && fired + Timers(o.fired) == Timers(whole.fired)
  }

  lemma TurnStep(s: seq<Armed<QEMUTimer>>, now: int, cb: Callbacks<QEMUTimer>, k: nat)
    requires Wf(s) && FutureOnly(cb, now) && s != [] && s[0].expiry <= now
    ensures Wf(ApplyEdits(s[1..], cb(k))) && |Due(ApplyEdits(s[1..], cb(k)), now)| < |Due(s, now)|
    ensures var o := RunTimers(ApplyEdits(s[1..], cb(k)), now, cb, k + 1); var whole := RunTimers(s, now, cb, k);
      whole.rest == o.rest && whole.calls == o.calls && Timers(whole.fired) == [s[0].timer] + Timers(o.fired)
  {
    TailWf(s);
    assert AllAfter(cb(k), now);
    EditsDue(s[1..], cb(k), now);
    StrikeShrinks(Due(s[1..], now), cb(k));
    var o := RunTimers(ApplyEdits(s[1..], cb(k)), now, cb, k + 1);
    assert ([s[0]] + o.fired)[1..] == o.fired;
  }

  lemma {:induction false} TurnAhead(s: seq<Armed<QEMUTimer>>, now: int, cb: Callbacks<QEMUTimer>, k: nat,
                                     fired: seq<QEMUTimer>, whole: Outcome<QEMUTimer>)
    requires Wf(s) && FutureOnly(cb, now) && s != [] && s[0].expiry <= now
    requires Ahead(RunTimers(s, now, cb, k), fired, whole)
    ensures var s' := ApplyEdits(s[1..], cb(k));
      && Wf(s') && |Due(s', now)| < |Due(s, now)|
      && Ahead(RunTimers(s', now, cb, k + 1), fired + [s[0].timer], whole)
  {
    TurnStep(s, now, cb, k);
    AheadStep(RunTimers(s, now, cb, k), RunTimers(ApplyEdits(s[1..], cb(k)), now, cb, k + 1), s[0].timer, fired, whole);
  }

  lemma AheadStep(o: Outcome<QEMUTimer>, o': Outcome<QEMUTimer>, t: QEMUTimer, fired: seq<QEMUTimer>,
      whole: Outcome<QEMUTimer>)
    requires o.rest == o'.rest && o.calls == o'.calls && Timers(o.fired) == [t] + Timers(o'.fired)
    requires Ahead(o, fired, whole)
    ensures Ahead(o', fired + [t], whole)
  {
    assert fired + ([t] + Timers(o'.fired)) == (fired + [t]) + Timers(o'.fired);
  }

  predicate Outside(mask: bv32, attributes: bv32) {
    attributes & !mask != 0
  }

  // The armed timers all of whose attributes are in the mask.
  function Within(mask: bv32, s: seq<Armed<QEMUTimer>>): seq<Armed<QEMUTimer>> {
    if s == [] then []
    else (if Outside(mask, s[0].timer.attributes) then [] else [s[0]]) + Within(mask, s[1..])
  }

  lemma WithinStep(mask: bv32, s: seq<Armed<QEMUTimer>>, k: nat)
    requires k < |s|
    ensures Within(mask, s[k..]) ==
            (if Outside(mask, s[k].timer.attributes) then [] else [s[k]]) + Within(mask, s[k + 1..])
  {
    assert s[k..][0] == s[k] && s[k..][1..] == s[k + 1..];
  }

  lemma {:induction false} WithinSorted(mask: bv32, s: seq<Armed<QEMUTimer>>)
    requires Sorted(s)
    ensures Sorted(Within(mask, s)) && forall i :: 0 <= i < |Within(mask, s)| ==>
            s != [] && s[0].expiry <= Within(mask, s)[i].expiry
  {
    if s != [] {
      assert forall i :: 0 <= i < |s[1..]| ==> s[1..][i] == s[i + 1];
      WithinSorted(mask, s[1..]);
      var r := Within(mask, s[1..]);
      assert forall i :: 0 <= i < |r| ==> s[0].expiry <= s[1].expiry <= r[i].expiry;
    }
  }

  function Timers(s: seq<Armed<QEMUTimer>>): seq<QEMUTimer> {
    if s == [] then [] else [s[0].timer] + Timers(s[1..])
  }

  // The walk finds the place where Insert cuts.
  lemma {:induction false} InsertAt(s: seq<Armed<QEMUTimer>>, t: QEMUTimer, e: int, k: nat)
    requires k <= |s| && (forall i :: 0 <= i < k ==> s[i].expiry <= e) && (k < |s| ==> s[k].expiry > e)
    ensures Insert(s, t, e) == s[..k] + [Armed(t, Max(e, 0))] + s[k..]
  {
    var j := InsertCut(s, t, e);
    assert j == k;
  }

  // ---------- Deadlines over several lists ----------

  // One member of a timer list group: the list, its clock's state, and qemu_clock_use_for_deadline.
  datatype Member = Member(list: TimerList, enabled: bool, now: int, used: bool)

  ghost predicate Timed(l: TimerList, now: int)
    reads l, l.nodes, l.owned
  {
    l.Valid() && 0 <= now && forall i :: 0 <= i < |l.nodes| ==> l.nodes[i].expireTime <= INT64_MAX
  }

  ghost function MemberTimes(m: Member): seq<int>
    reads *
  {
    if m.used && m.enabled then Deadlines(m.list.Contents(), m.now) else []
  }

  // The time each timer of the group has still to run.
  ghost function GroupTimes(g: seq<Member>): seq<int>
    reads *
  {
    if g == [] then [] else GroupTimes(g[..|g| - 1]) + MemberTimes(g[|g| - 1])
  }

  lemma MemberTimesBounds(m: Member)
    requires Timed(m.list, m.now)
    ensures forall x :: x in MemberTimes(m) ==> 0 <= x <= INT64_MAX
  {
  }

  lemma {:induction false} GroupTimesBounds(g: seq<Member>)
    requires forall m :: m in g ==> Timed(m.list, m.now)
    ensures forall x :: x in GroupTimes(g) ==> 0 <= x <= INT64_MAX
  {
    if g != [] {
      GroupTimesBounds(g[..|g| - 1]);
      MemberTimesBounds(g[|g| - 1]);
    }
  }

  lemma GroupTimesSnoc(g: seq<Member>, i: nat)
    requires i < |g|
    ensures GroupTimes(g[..i + 1]) == GroupTimes(g[..i]) + MemberTimes(g[i])
  {
    assert g[..i + 1][..i] == g[..i];
  }

  lemma MergeMember(g: seq<Member>, i: nat, deadline: int, d: int)
    requires forall m :: m in g ==> Timed(m.list, m.now)
    requires i < |g| && IsEarliest(deadline, GroupTimes(g[..i])) && IsEarliest(d, MemberTimes(g[i]))
    ensures IsEarliest(if g[i].used then Soonest(deadline, d) else deadline, GroupTimes(g[..i + 1]))
  {
    GroupTimesSnoc(g, i);
    GroupTimesBounds(g[..i + 1]);
    if g[i].used {
      SoonestMerges(deadline, d, GroupTimes(g[..i]), MemberTimes(g[i]));
    } else {
      assert GroupTimes(g[..i]) + [] == GroupTimes(g[..i]);
    }
  }

  /** timerlistgroup_deadline_ns: the earliest deadline of all timers of the group, -1 if there is none. */
  method GroupDeadlineNs(g: seq<Member>) returns (deadline: int)
    requires forall m :: m in g ==> Timed(m.list, m.now)
    ensures IsEarliest(deadline, GroupTimes(g))
  {
    deadline := -1;
    var i := 0;
    while i < |g|
      invariant i <= |g| && IsEarliest(deadline, GroupTimes(g[..i]))
    {
      deadline := AddMember(g, i, deadline);
      i := i + 1;
    }
    assert g[..i] == g;
  }

  // One turn of the loop.
  method AddMember(g: seq<Member>, i: nat, deadline: int) returns (r: int)
    requires (forall m :: m in g ==> Timed(m.list, m.now)) && i < |g| && IsEarliest(deadline, GroupTimes(g[..i]))
    ensures IsEarliest(r, GroupTimes(g[..i + 1]))
  {
    var d := MemberDeadlineNs(g[i]);
    MergeMember(g, i, deadline, d);
    r := if g[i].used then Soonest(deadline, d) else deadline;
  }

  // One list of the group; one that is not used for deadlines is passed over.
  method MemberDeadlineNs(m: Member) returns (d: int)
    requires Timed(m.list, m.now)
    ensures IsEarliest(d, MemberTimes(m))
  {
    d := -1;
    if m.used {
      d := m.list.DeadlineNs(m.enabled, m.now);
    }
  }

  // The time each timer within the mask, on any list of one clock, has still to run.
  ghost function ClockTimes(ls: seq<TimerList>, mask: bv32, now: int): seq<int>
    reads *
  {
    if ls == [] then []
    else ClockTimes(ls[..|ls| - 1], mask, now) + Deadlines(Within(mask, ls[|ls| - 1].Contents()), now)
  }

  lemma {:induction false} WithinMembers(mask: bv32, s: seq<Armed<QEMUTimer>>)
    ensures forall i :: 0 <= i < |Within(mask, s)| ==> Within(mask, s)[i] in s
  {
    if s != [] { WithinMembers(mask, s[1..]); }
  }

  lemma {:induction false} ClockTimesBounds(ls: seq<TimerList>, mask: bv32, now: int)
    requires forall l :: l in ls ==> Timed(l, now)
    ensures forall x :: x in ClockTimes(ls, mask, now) ==> 0 <= x <= INT64_MAX
  {
    if ls != [] {
      ClockTimesBounds(ls[..|ls| - 1], mask, now);
      var l := ls[|ls| - 1];
      assert Timed(l, now);
      WithinMembers(mask, l.Contents());
      forall i | 0 <= i < |Within(mask, l.Contents())| ensures Within(mask, l.Contents())[i].expiry <= INT64_MAX {
        var k :| 0 <= k < |l.Contents()| && l.Contents()[k] == Within(mask, l.Contents())[i];
        assert l.Contents()[k].expiry == l.nodes[k].expireTime;
      }
    }
  }

  lemma MergeList(ls: seq<TimerList>, i: nat, mask: bv32, now: int, deadline: int, d: int)
    requires forall l :: l in ls ==> Timed(l, now)
    requires i < |ls| && IsEarliest(deadline, ClockTimes(ls[..i], mask, now))
    requires IsEarliest(d, Deadlines(Within(mask, ls[i].Contents()), now))
    ensures IsEarliest(if d != -1 then Soonest(deadline, d) else deadline, ClockTimes(ls[..i + 1], mask, now))
  {
    var before, mine := ClockTimes(ls[..i], mask, now), Deadlines(Within(mask, ls[i].Contents()), now);
    ClockTimesSnoc(ls, i, mask, now);
    ClockTimesBounds(ls[..i + 1], mask, now);
    if d != -1 {
      SoonestMerges(deadline, d, before, mine);
    } else {
      NoDeadline(mine);
      assert before + mine == before;
    }
  }

  lemma ClockTimesSnoc(ls: seq<TimerList>, i: nat, mask: bv32, now: int)
    requires i < |ls|
    ensures ClockTimes(ls[..i + 1], mask, now) ==
            ClockTimes(ls[..i], mask, now) + Deadlines(Within(mask, ls[i].Contents()), now)
  {
    assert ls[..i + 1][..i] == ls[..i];
  }

  lemma NoDeadline(xs: seq<int>)
    requires IsEarliest(-1, xs) && forall x :: x in xs ==> 0 <= x
    ensures xs == []
  {
  }

  method ListDeadlineNs(l: TimerList, mask: bv32, now: int) returns (d: int)
    requires Timed(l, now)
    ensures IsEarliest(d, Deadlines(Within(mask, l.Contents()), now))
  {
    d := l.MaskedDeadlineNs(mask, now);
  }

  /** qemu_clock_deadline_ns_all: the earliest deadline of the timers of one clock whose attributes are
      all within the mask, -1 if there is none or the clock is disabled. */
  method ClockDeadlineNsAll(ls: seq<TimerList>, enabled: bool, mask: bv32, now: int) returns (deadline: int)
    requires forall l :: l in ls ==> Timed(l, now)
    ensures IsEarliest(deadline, if enabled then ClockTimes(ls, mask, now) else [])
  {
    deadline := -1;
    if !enabled {
      return;
    }
    var i := 0;
    while i < |ls|
      invariant i <= |ls| && IsEarliest(deadline, ClockTimes(ls[..i], mask, now))
    {
      var d := ListDeadlineNs(ls[i], mask, now);
      MergeList(ls, i, mask, now, deadline, d);
      if d != -1 {
        deadline := Soonest(deadline, d);
      }
      i := i + 1;
    }
    assert ls[..i] == ls;
  }

  // ---------- Which timers count ----------

  // The mask has all these attributes.
  predicate HasAll(mask: bv32, attributes: bv32) {
    attributes & mask == attributes
  }

  lemma HasAllMeans(mask: bv32, attributes: bv32)
    requires HasAll(mask, attributes)
    ensures !Outside(mask, attributes)
  {
  }

  lemma OutsideMeans(mask: bv32, attributes: bv32)
    requires !HasAll(mask, attributes)
    ensures Outside(mask, attributes)
  {
  }

  /** A timer is within the mask if the mask has all its attributes. */
  lemma {:induction false} WithinIff(mask: bv32, s: seq<Armed<QEMUTimer>>, a: Armed<QEMUTimer>)
    ensures a in Within(mask, s) <==> a in s && HasAll(mask, a.timer.attributes)
  {
    if s != [] {
      WithinIff(mask, s[1..], a);
      var attributes := s[0].timer.attributes;
      if HasAll(mask, attributes) { HasAllMeans(mask, attributes); } else { OutsideMeans(mask, attributes); }
    }
  }

  // The time `a` has still to run, counted from zero.
  predicate RunsFor(a: Armed<QEMUTimer>, now: int, x: int) {
    x == if a.expiry <= now then 0 else a.expiry - now
  }

  lemma DeadlinesIff(s: seq<Armed<QEMUTimer>>, now: int, x: int)
    ensures x in Deadlines(s, now) <==> exists i :: 0 <= i < |s| && RunsFor(s[i], now, x)
  {
    if x in Deadlines(s, now) {
      var i :| 0 <= i < |s| && Deadlines(s, now)[i] == x;
      assert RunsFor(s[i], now, x);
    }
    if i :| 0 <= i < |s| && RunsFor(s[i], now, x) { assert Deadlines(s, now)[i] == x; }
  }

  // One timer of a used list, with an enabled clock, has `x` to run.
  ghost predicate MemberRunsFor(m: Member, x: int)
    reads *
  {
    m.used && m.enabled && exists i :: 0 <= i < |m.list.Contents()| && RunsFor(m.list.Contents()[i], m.now, x)
  }

  /** The timers that GroupDeadlineNs takes the earliest of: those of used lists whose clock is enabled. */
  lemma {:induction false} GroupTimesIff(g: seq<Member>, x: int)
    ensures x in GroupTimes(g) <==> exists k :: 0 <= k < |g| && MemberRunsFor(g[k], x)
  {
    if g != [] {
      var front, last := g[..|g| - 1], g[|g| - 1];
      GroupTimesIff(front, x);
      DeadlinesIff(last.list.Contents(), last.now, x);
      assert x in MemberTimes(last) <==> MemberRunsFor(last, x);
      if k :| 0 <= k < |front| && MemberRunsFor(front[k], x) { assert g[k] == front[k]; }
      if k :| 0 <= k < |g| && MemberRunsFor(g[k], x) && x !in MemberTimes(last) { assert g[k] == front[k]; }
    }
  }

  // One timer of the list with all attributes in the mask has `x` to run.
  ghost predicate ListRunsFor(l: TimerList, mask: bv32, now: int, x: int)
    reads *
  {
    exists i :: 0 <= i < |l.Contents()| && RunsFor(l.Contents()[i], now, x)
      && HasAll(mask, l.Contents()[i].timer.attributes)
  }

  lemma ListTimesIff(l: TimerList, mask: bv32, now: int, x: int)
    ensures x in Deadlines(Within(mask, l.Contents()), now) <==> ListRunsFor(l, mask, now, x)
  {
    var s, r := l.Contents(), Within(mask, l.Contents());
    DeadlinesIff(r, now, x);
    if i :| 0 <= i < |r| && RunsFor(r[i], now, x) {
      WithinIff(mask, s, r[i]);
      var j :| 0 <= j < |s| && s[j] == r[i];
    }
    if i :| 0 <= i < |s| && RunsFor(s[i], now, x) && HasAll(mask, s[i].timer.attributes) {
      WithinIff(mask, s, s[i]);
      var j :| 0 <= j < |r| && r[j] == s[i];
    }
  }

  /** The timers that ClockDeadlineNsAll takes the earliest of: on any list, all their attributes in the mask. */
  lemma {:induction false} ClockTimesIff(ls: seq<TimerList>, mask: bv32, now: int, x: int)
    ensures x in ClockTimes(ls, mask, now) <==> exists k :: 0 <= k < |ls| && ListRunsFor(ls[k], mask, now, x)
  {
    if ls != [] {
      var front, last := ls[..|ls| - 1], ls[|ls| - 1];
      ClockTimesIff(front, mask, now, x);
      ListTimesIff(last, mask, now, x);
      if k :| 0 <= k < |front| && ListRunsFor(front[k], mask, now, x) { assert ls[k] == front[k]; }
      if k :| 0 <= k < |ls| && ListRunsFor(ls[k], mask, now, x) && !ListRunsFor(last, mask, now, x) {
        assert ls[k] == front[k];
      }
    }
  }
}
