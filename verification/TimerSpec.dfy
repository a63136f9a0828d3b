/**
  What the active-timer lists of util/qemu-timer.c hold, as values.  The linked lists of TimerList
  and the clock loop of VirtualClock are proved against these functions.
 */
module TimerSpec {
  // One armed timer. Times are nanoseconds; -1 stands for "not armed" or "no deadline".
  datatype Armed<T> = Armed(timer: T, expiry: int)

  const INT64_MAX := 0x7fff_ffff_ffff_ffff
  const TWO_64 := 0x1_0000_0000_0000_0000

  function Max(a: int, b: int): int { if a >= b then a else b }
  function Min(a: int, b: int): int { if a <= b then a else b }

  // ---------- The list operations ----------

  // timer_del_locked: unlink the first node for `t`, if any.
  function Remove<T(==)>(s: seq<Armed<T>>, t: T): seq<Armed<T>> {
    if s == [] then [] else if s[0].timer == t then s[1..] else [s[0]] + Remove(s[1..], t)
  }

  // timer_mod_ns_locked: link in front of the first node that expires later than `e`.
  function Insert<T>(s: seq<Armed<T>>, t: T, e: int): seq<Armed<T>> {
    if s == [] || s[0].expiry > e then [Armed(t, Max(e, 0))] + s else [s[0]] + Insert(s[1..], t, e)
  }

  predicate Has<T(==)>(s: seq<Armed<T>>, t: T) {
    exists i | 0 <= i < |s| :: s[i].timer == t
  }

  // ts->expire_time as the list determines it.
  function ExpireTime<T(==)>(s: seq<Armed<T>>, t: T): int {
    if s == [] then -1 else if s[0].timer == t then s[0].expiry else ExpireTime(s[1..], t)
  }

  function Mod<T(==)>(s: seq<Armed<T>>, t: T, e: int): seq<Armed<T>> {
    Insert(Remove(s, t), t, e)
  }

  function Anticipate<T(==)>(s: seq<Armed<T>>, t: T, e: int): seq<Armed<T>> {
    var cur := ExpireTime(s, t);
    if cur == -1 || cur > e then Mod(s, t, e) else s
  }

  datatype Edit<T> = SetTo(t: T, e: int) | Lower(t: T, e: int) | Cancel(t: T)

  function ApplyEdit<T(==)>(s: seq<Armed<T>>, ed: Edit<T>): seq<Armed<T>> {
    match ed
    case SetTo(t, e) => Mod(s, t, e)
    case Lower(t, e) => Anticipate(s, t, e)
    case Cancel(t) => Remove(s, t)
  }

  function ApplyEdits<T(==)>(s: seq<Armed<T>>, eds: seq<Edit<T>>): seq<Armed<T>>
    decreases |eds|
  {
    if eds == [] then s else ApplyEdits(ApplyEdit(s, eds[0]), eds[1..])
  }

  // ---------- Shape ----------

  ghost predicate Unique<T>(s: seq<Armed<T>>) {
    forall i, j :: 0 <= i < j < |s| ==> s[i].timer != s[j].timer
  }

  ghost predicate Sorted<T>(s: seq<Armed<T>>) {
    forall i, j :: 0 <= i < j < |s| ==> s[i].expiry <= s[j].expiry
  }

  ghost predicate Wf<T>(s: seq<Armed<T>>) {
    Unique(s) && Sorted(s) && forall i :: 0 <= i < |s| ==> 0 <= s[i].expiry
  }

  // Where Remove and Insert cut the list.
  lemma {:induction false} RemoveCut<T>(s: seq<Armed<T>>, t: T) returns (k: nat)
    ensures k <= |s| && (forall i :: 0 <= i < k ==> s[i].timer != t)
    ensures if k < |s| then s[k].timer == t && Remove(s, t) == s[..k] + s[k + 1..] && ExpireTime(s, t) == s[k].expiry
            else Remove(s, t) == s && ExpireTime(s, t) == -1
  {
    if s == [] || s[0].timer == t {
      k := 0;
    } else {
      var k' := RemoveCut(s[1..], t);
      k := k' + 1;
      assert s[..k] == [s[0]] + s[1..][..k'];
      assert forall i :: 0 < i < k ==> s[i] == s[1..][i - 1];
      assert k' < |s[1..]| ==> s[1..][k' + 1..] == s[k + 1..];
    }
  }

  lemma {:induction false} InsertCut<T>(s: seq<Armed<T>>, t: T, e: int) returns (k: nat)
    ensures k <= |s| && Insert(s, t, e) == s[..k] + [Armed(t, Max(e, 0))] + s[k..]
    ensures (forall i :: 0 <= i < k ==> s[i].expiry <= e) && (k < |s| ==> s[k].expiry > e)
  {
    if s == [] || s[0].expiry > e {
      k := 0;
    } else {
      var k' := InsertCut(s[1..], t, e);
      k := k' + 1;
      assert s[..k] == [s[0]] + s[1..][..k'];
      assert s[1..][k'..] == s[k..];
      assert forall i :: 0 < i < k ==> s[i] == s[1..][i - 1];
    }
  }

  lemma {:induction false} DropMembers<T>(s: seq<Armed<T>>, k: nat)
    requires k < |s| && Unique(s)
    ensures forall a :: a in s[..k] + s[k + 1..] <==> a in s && a.timer != s[k].timer
  {
    var r := s[..k] + s[k + 1..];
    forall a | a in s && a.timer != s[k].timer ensures a in r {
      var i :| 0 <= i < |s| && s[i] == a;
      assert r[if i < k then i else i - 1] == a;
    }
  }

  lemma {:induction false} DropWf<T>(s: seq<Armed<T>>, k: nat)
    requires k < |s| && Wf(s)
    ensures Wf(s[..k] + s[k + 1..])
  {
    var r := s[..k] + s[k + 1..];
    assert forall i :: 0 <= i < |r| ==> r[i] == s[if i < k then i else i + 1];
  }

  lemma {:induction false} RemoveWf<T>(s: seq<Armed<T>>, t: T)
    requires Wf(s)
    ensures Wf(Remove(s, t)) && !Has(Remove(s, t), t)
    ensures forall a :: a in Remove(s, t) <==> a in s && a.timer != t
  {
    var k := RemoveCut(s, t);
    if k < |s| {
      DropMembers(s, k); DropWf(s, k);
    }
  }

  lemma {:induction false} PutMembers<T>(s: seq<Armed<T>>, k: nat, x: Armed<T>)
    requires k <= |s|
    ensures forall a :: a in s[..k] + [x] + s[k..] <==> a in s || a == x
  {
    assert s == s[..k] + s[k..];
  }

  lemma {:induction false} PutWf<T>(s: seq<Armed<T>>, k: nat, x: Armed<T>)
    requires k <= |s| && Wf(s) && !Has(s, x.timer) && x.expiry >= 0
    requires (forall i :: 0 <= i < k ==> s[i].expiry <= x.expiry) && (k < |s| ==> s[k].expiry >= x.expiry)
    ensures Wf(s[..k] + [x] + s[k..])
  {
    var r := s[..k] + [x] + s[k..];
    assert forall i :: 0 <= i < |r| ==> r[i] == if i < k then s[i] else if i == k then x else s[i - 1];
    forall i, j | 0 <= i < j < |r| ensures r[i].timer != r[j].timer && r[i].expiry <= r[j].expiry {
      if i == k { assert s[j - 1].timer != x.timer; }
      if j == k { assert s[i].timer != x.timer; }
    }
  }

  lemma {:induction false} InsertWf<T>(s: seq<Armed<T>>, t: T, e: int)
    requires Wf(s) && !Has(s, t)
    ensures Wf(Insert(s, t, e))
    ensures forall a :: a in Insert(s, t, e) <==> a in s || a == Armed(t, Max(e, 0))
  {
    var k := InsertCut(s, t, e);
    PutMembers(s, k, Armed(t, Max(e, 0)));
    PutWf(s, k, Armed(t, Max(e, 0)));
  }

  // Deleting or arming one timer leaves the others' expiry times alone.
  lemma {:induction false} RemoveExpire<T>(s: seq<Armed<T>>, t: T, u: T)
    requires Unique(s)
    ensures ExpireTime(Remove(s, t), u) == if u == t then -1 else ExpireTime(s, u)
  {
    if s != [] {
      assert forall i :: 0 <= i < |s[1..]| ==> s[1..][i] == s[i + 1];
      if s[0].timer == t {
        AbsentExpire(s[1..], t);
      } else {
        RemoveExpire(s[1..], t, u);
      }
    }
  }

  lemma {:induction false} AbsentExpire<T>(s: seq<Armed<T>>, t: T)
    requires forall i :: 0 <= i < |s| ==> s[i].timer != t
    ensures ExpireTime(s, t) == -1
  {
    if s != [] { AbsentExpire(s[1..], t); }
  }

  lemma {:induction false} InsertExpire<T>(s: seq<Armed<T>>, t: T, e: int, u: T)
    requires ExpireTime(s, t) == -1
    requires forall i :: 0 <= i < |s| ==> 0 <= s[i].expiry
    ensures ExpireTime(Insert(s, t, e), u) == if u == t then Max(e, 0) else ExpireTime(s, u)
  {
    if s != [] && s[0].expiry <= e { InsertExpire(s[1..], t, e, u); }
  }
}
