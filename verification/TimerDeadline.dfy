/** qemu_soonest_timeout and the deadlines computed from it; -1 stands for infinity. */
module TimerDeadline {
  import opened TimerSpec

  // The cast of an int64_t to uint64_t.
  function Unsigned(x: int): int {
    if x < 0 then x + TWO_64 else x
  }

  function Soonest(a: int, b: int): int {
    if Unsigned(a) < Unsigned(b) then a else b
  }

  /** The earliest of the given timeouts; -1 exactly when there is none. */
  ghost predicate IsEarliest(d: int, from: seq<int>) {
    if from == [] then d == -1 else d in from && forall i :: 0 <= i < |from| ==> d <= from[i]
  }

  /** Of two timeouts the unsigned comparison picks the earlier, a finite one before -1. */
  lemma SoonestMerges(a: int, b: int, xs: seq<int>, ys: seq<int>)
    requires IsEarliest(a, xs) && IsEarliest(b, ys)
    requires forall x :: x in xs + ys ==> 0 <= x <= INT64_MAX
    ensures IsEarliest(Soonest(a, b), xs + ys)
  {
    var d := Soonest(a, b);
    assert xs != [] ==> a in xs + ys;
    assert ys != [] ==> b in xs + ys;
    forall i | 0 <= i < |xs + ys| ensures d <= (xs + ys)[i] {
      assert (xs + ys)[i] in xs + ys;
      assert (xs + ys)[i] == if i < |xs| then xs[i] else ys[i - |xs|];
    }
  }

  // How long each armed timer has still to run, counted from zero.
  function Deadlines<T>(s: seq<Armed<T>>, now: int): (d: seq<int>)
    ensures |d| == |s|
  {
    seq(|s|, i requires 0 <= i < |s| => Max(s[i].expiry - now, 0))
  }

  // There is only one earliest deadline.
  lemma EarliestIsUnique(d: int, d': int, xs: seq<int>)
    requires IsEarliest(d, xs) && IsEarliest(d', xs)
    ensures d == d'
  {
    if xs != [] {
      var i :| 0 <= i < |xs| && xs[i] == d;
      var j :| 0 <= j < |xs| && xs[j] == d';
    }
  }

  /** On a sorted list the head has the earliest deadline. */
  lemma HeadIsEarliest<T>(s: seq<Armed<T>>, now: int)
    requires Sorted(s) && s != []
    ensures IsEarliest(Max(s[0].expiry - now, 0), Deadlines(s, now))
  {
    assert Deadlines(s, now)[0] == Max(s[0].expiry - now, 0);
  }

  /** What a deadline promises: -1 means that no timer is armed; otherwise one expires by then, and if it is not
      zero none expires before then. */
  lemma DeadlineMeans<T>(d: int, s: seq<Armed<T>>, now: int)
    requires IsEarliest(d, Deadlines(s, now))
    ensures d == -1 <==> s == []
    ensures s != [] ==> d >= 0 && exists i :: 0 <= i < |s| && s[i].expiry <= now + d
    ensures d > 0 ==> forall i :: 0 <= i < |s| ==> now + d <= s[i].expiry
  {
    if s != [] {
      var i :| 0 <= i < |s| && Deadlines(s, now)[i] == d;
      assert s[i].expiry <= now + d;
      forall j | 0 <= j < |s| && d > 0 ensures now + d <= s[j].expiry { assert d <= Deadlines(s, now)[j]; }
    }
  }
}
