/**
  The list of armed timers against the plain set it stands for: which timers are armed, when each
  expires, and in which order equal expiries were armed.
 */
module TimerSet {
  import opened TimerSpec

  // `rank` orders equal expiries: later arming is larger, arming with a negative time goes in front.
  datatype Slot = Slot(expiry: int, rank: int)

  datatype Book<T> = Book(armed: map<T, Slot>, stamp: nat)

  function Write<T(==)>(b: Book<T>, t: T, e: int): Book<T> {
    var n := b.stamp + 1;
    Book(b.armed[t := Slot(Max(e, 0), if e >= 0 then n else -n)], n)
  }

  // Modifying a timer, making it earlier, and deleting it, on the set.
  function Update<T(==)>(b: Book<T>, ed: Edit<T>): Book<T> {
    match ed
    case SetTo(t, e) => Write(b, t, e)
    case Lower(t, e) => if t !in b.armed || b.armed[t].expiry > e then Write(b, t, e) else b
    case Cancel(t) => b.(armed := b.armed - {t})
  }

  function Updates<T(==)>(b: Book<T>, eds: seq<Edit<T>>): Book<T>
    decreases |eds|
  {
    if eds == [] then b else Updates(Update(b, eds[0]), eds[1..])
  }

  predicate Before(a: Slot, b: Slot) {
    a.expiry < b.expiry || (a.expiry == b.expiry && a.rank < b.rank)
  }

  ghost predicate SameMembers<T(!new)>(s: seq<Armed<T>>, m: map<T, Slot>) {
    && (forall a :: a in s ==> a.timer in m && m[a.timer].expiry == a.expiry)
    && (forall t :: t in m ==> Armed(t, m[t].expiry) in s)
  }

  ghost predicate InOrder<T>(s: seq<Armed<T>>, m: map<T, Slot>) {
    forall i, j :: 0 <= i < j < |s| ==>
      s[i].timer in m && s[j].timer in m && Before(m[s[i].timer], m[s[j].timer])
  }

  // The list holds exactly the armed timers with their expiries, in the order of `Before`.
  ghost predicate Refines<T(!new)>(s: seq<Armed<T>>, b: Book<T>) {
    && Wf(s) && SameMembers(s, b.armed) && InOrder(s, b.armed)
    && (forall t :: t in b.armed ==> 0 - b.stamp <= b.armed[t].rank <= b.stamp)
  }

  lemma {:induction false} ExpireTimeIs<T(!new)>(s: seq<Armed<T>>, b: Book<T>, t: T)
    requires Refines(s, b)
    ensures ExpireTime(s, t) == if t in b.armed then b.armed[t].expiry else -1
  {
    var k := RemoveCut(s, t);
    assert k < |s| ==> s[k] in s;
  }

  lemma {:induction false} DropInOrder<T>(s: seq<Armed<T>>, m: map<T, Slot>, k: nat)
    requires k < |s| && Unique(s) && InOrder(s, m)
    ensures InOrder(s[..k] + s[k + 1..], m - {s[k].timer})
  {
    var r := s[..k] + s[k + 1..];
    assert forall i :: 0 <= i < |r| ==> r[i] == s[if i < k then i else i + 1] && r[i].timer != s[k].timer;
  }

  lemma {:induction false} CancelRefines<T(!new)>(s: seq<Armed<T>>, b: Book<T>, t: T)
    requires Refines(s, b)
    ensures Refines(Remove(s, t), Update(b, Cancel(t)))
  {
    var k := RemoveCut(s, t);
    RemoveWf(s, t);
    if k < |s| {
      DropInOrder(s, b.armed, k);
    } else {
      assert t !in b.armed;
      assert b.armed - {t} == b.armed;
    }
  }

  lemma {:induction false} PutInOrder<T>(s: seq<Armed<T>>, m: map<T, Slot>, k: nat, x: Armed<T>, slot: Slot)
    requires k <= |s| && InOrder(s, m) && (forall i :: 0 <= i < |s| ==> s[i].timer in m && s[i].timer != x.timer)
    requires forall i :: 0 <= i < k ==> Before(m[s[i].timer], slot)
    requires forall i :: k <= i < |s| ==> Before(slot, m[s[i].timer])
    ensures InOrder(s[..k] + [x] + s[k..], m[x.timer := slot])
  {
    var r := s[..k] + [x] + s[k..];
    var m' := m[x.timer := slot];
    assert forall i :: 0 <= i < |r| ==> r[i] == if i < k then s[i] else if i == k then x else s[i - 1];
    forall i, j | 0 <= i < j < |r|
      ensures r[i].timer in m' && r[j].timer in m' && Before(m'[r[i].timer], m'[r[j].timer])
    {
      var i' := if i < k then i else i - 1;
      var j' := if j < k then j else j - 1;
      if i != k && j != k { assert Before(m[s[i'].timer], m[s[j'].timer]); }
    }
  }

  lemma {:induction false} InsertRefines<T(!new)>(s: seq<Armed<T>>, b: Book<T>, t: T, e: int)
    requires Refines(s, b) && t !in b.armed
    ensures Refines(Insert(s, t, e), Write(b, t, e))
  {
    var k := InsertCut(s, t, e);
    OthersArmed(s, b, t);
    InsertWf(s, t, e);
    InsertMembers(s, b, t, e);
    InsertInOrder(s, b, t, e, k);
  }

  lemma InsertMembers<T(!new)>(s: seq<Armed<T>>, b: Book<T>, t: T, e: int)
    requires Refines(s, b) && t !in b.armed
    ensures SameMembers(Insert(s, t, e), Write(b, t, e).armed)
  {
    OthersArmed(s, b, t);
    InsertWf(s, t, e);
    var r, m := Insert(s, t, e), Write(b, t, e).armed;
    forall u | u in m ensures Armed(u, m[u].expiry) in r {
      if u != t { assert Armed(u, b.armed[u].expiry) in s; }
    }
  }

  lemma OthersArmed<T(!new)>(s: seq<Armed<T>>, b: Book<T>, t: T)
    requires Refines(s, b) && t !in b.armed
    ensures !Has(s, t)
    ensures forall i :: 0 <= i < |s| ==>
              s[i].timer in b.armed && s[i].timer != t && b.armed[s[i].timer].expiry == s[i].expiry
  {
    forall i | 0 <= i < |s|
      ensures s[i].timer in b.armed && s[i].timer != t && b.armed[s[i].timer].expiry == s[i].expiry
    {
      assert s[i] in s;
    }
  }

  lemma InsertInOrder<T(!new)>(s: seq<Armed<T>>, b: Book<T>, t: T, e: int, k: nat)
    requires Refines(s, b) && t !in b.armed && k <= |s|
    requires (forall i :: 0 <= i < k ==> s[i].expiry <= e) && (k < |s| ==> s[k].expiry > e)
    ensures InOrder(s[..k] + [Armed(t, Max(e, 0))] + s[k..], Write(b, t, e).armed)
  {
    var slot := Write(b, t, e).armed[t];
    OthersArmed(s, b, t);
    forall i | k <= i < |s| ensures Before(slot, b.armed[s[i].timer]) { assert s[k].expiry <= s[i].expiry; }
    PutInOrder(s, b.armed, k, Armed(t, Max(e, 0)), slot);
  }

  lemma {:induction false} WriteForgetsOld<T>(b: Book<T>, t: T, e: int)
    ensures Write(Update(b, Cancel(t)), t, e) == Write(b, t, e)
  {
    var slot := Write(b, t, e).armed[t];
    assert (b.armed - {t})[t := slot] == b.armed[t := slot];
  }

  lemma {:induction false} ModRefines<T(!new)>(s: seq<Armed<T>>, b: Book<T>, t: T, e: int)
    requires Refines(s, b)
    ensures Refines(Mod(s, t, e), Write(b, t, e))
  {
    CancelRefines(s, b, t);
    InsertRefines(Remove(s, t), Update(b, Cancel(t)), t, e);
    WriteForgetsOld(b, t, e);
  }

  /** One operation on the list is the same operation on the set. */
  lemma {:induction false} EditRefines<T(!new)>(s: seq<Armed<T>>, b: Book<T>, ed: Edit<T>)
    requires Refines(s, b)
    ensures Refines(ApplyEdit(s, ed), Update(b, ed))
  {
    match ed {
      case Cancel(t) => CancelRefines(s, b, t);
      case SetTo(t, e) => ModRefines(s, b, t, e);
      case Lower(t, e) =>
        ExpireTimeIs(s, b, t);
        if t !in b.armed || b.armed[t].expiry > e { ModRefines(s, b, t, e); }
    }
  }

  /** Any sequence of modifications, anticipations and deletions, from the empty list on. */
  lemma {:induction false} EditsRefine<T(!new)>(s: seq<Armed<T>>, b: Book<T>, eds: seq<Edit<T>>)
    requires Refines(s, b)
    ensures Refines(ApplyEdits(s, eds), Updates(b, eds))
    decreases |eds|
  {
    if eds != [] {
      EditRefines(s, b, eds[0]);
      EditsRefine(ApplyEdit(s, eds[0]), Update(b, eds[0]), eds[1..]);
    }
  }

  /** Popping the head removes a timer that precedes every other armed timer. */
  lemma {:induction false} PopRefines<T(!new)>(s: seq<Armed<T>>, b: Book<T>)
    requires Refines(s, b) && s != []
    ensures Refines(s[1..], Update(b, Cancel(s[0].timer)))
    ensures s[0].timer in b.armed && s[0].expiry == b.armed[s[0].timer].expiry
    ensures forall t :: t in b.armed && t != s[0].timer ==> Before(b.armed[s[0].timer], b.armed[t])
  {
    CancelRefines(s, b, s[0].timer);
    assert s[0] in s;
    forall t | t in b.armed && t != s[0].timer ensures Before(b.armed[s[0].timer], b.armed[t]) {
      var i :| 0 <= i < |s| && s[i] == Armed(t, b.armed[t].expiry);
    }
  }

  lemma {:induction false} EmptyIffEmpty<T(!new)>(s: seq<Armed<T>>, b: Book<T>)
    requires Refines(s, b)
    ensures s == [] <==> b.armed == map[]
  {
    if s != [] { assert s[0] in s; }
  }

  /** The set determines the list: no two arrangements of the same set are correct. */
  lemma {:induction false} ArrangementUnique<T(!new)>(s: seq<Armed<T>>, s': seq<Armed<T>>, b: Book<T>)
    requires Refines(s, b) && Refines(s', b)
    ensures s == s'
    decreases |s|
  {
    EmptyIffEmpty(s, b); EmptyIffEmpty(s', b);
    if s != [] {
      PopRefines(s, b); PopRefines(s', b);
      assert s[0] == s'[0];
      ArrangementUnique(s[1..], s'[1..], Update(b, Cancel(s[0].timer)));
    }
  }

  /** timer_mod_anticipate leaves the smaller of the old and the new time, counted from zero. */
  lemma {:induction false} AnticipateTakesMinimum<T(!new)>(s: seq<Armed<T>>, b: Book<T>, t: T, e: int)
    requires Refines(s, b)
    ensures ExpireTime(Anticipate(s, t, e), t) ==
            if t in b.armed then Min(b.armed[t].expiry, Max(e, 0)) else Max(e, 0)
  {
    EditRefines(s, b, Lower(t, e));
    ExpireTimeIs(Anticipate(s, t, e), Update(b, Lower(t, e)), t);
    assert t in b.armed ==> Armed(t, b.armed[t].expiry) in s;
  }

  ghost predicate Earlier<T>(s: seq<Armed<T>>, x: Armed<T>, y: Armed<T>) {
    exists i, j :: 0 <= i < j < |s| && s[i] == x && s[j] == y
  }

  /** Timers armed one after the other with the same non-negative time stay in that order, whatever
      is done to other timers in between. */
  lemma {:induction false} EqualTimesKeepOrder<T(!new)>(s: seq<Armed<T>>, b: Book<T>, t: T, u: T, e: int,
      between: seq<Edit<T>>)
    requires Refines(s, b) && t != u && e >= 0
    requires forall i :: 0 <= i < |between| ==> between[i].t != t
    ensures Earlier(Mod(ApplyEdits(Mod(s, t, e), between), u, e), Armed(t, e), Armed(u, e))
  {
    var b1 := Write(b, t, e);
    var b2 := Updates(b1, between);
    var b3 := Write(b2, u, e);
    var after := Mod(ApplyEdits(Mod(s, t, e), between), u, e);
    ModRefines(s, b, t, e);
    EditsRefine(Mod(s, t, e), b1, between);
    UntouchedStays(b1, between, t);
    ModRefines(ApplyEdits(Mod(s, t, e), between), b2, u, e);
    assert t in b3.armed && u in b3.armed && b3.armed[t] == Slot(e, b.stamp + 1) && b3.armed[u].expiry == e;
    BeforeMeansEarlier(after, b3, t, u);
  }

  lemma {:induction false} BeforeMeansEarlier<T(!new)>(s: seq<Armed<T>>, b: Book<T>, t: T, u: T)
    requires Refines(s, b) && t in b.armed && u in b.armed && Before(b.armed[t], b.armed[u])
    ensures Earlier(s, Armed(t, b.armed[t].expiry), Armed(u, b.armed[u].expiry))
  {
    var i :| 0 <= i < |s| && s[i] == Armed(t, b.armed[t].expiry);
    var j :| 0 <= j < |s| && s[j] == Armed(u, b.armed[u].expiry);
    assert !(j < i);
  }

  lemma {:induction false} UntouchedStays<T(!new)>(b: Book<T>, eds: seq<Edit<T>>, t: T)
    requires t in b.armed && b.armed[t].rank <= b.stamp
    requires forall i :: 0 <= i < |eds| ==> eds[i].t != t
    ensures t in Updates(b, eds).armed && Updates(b, eds).armed[t] == b.armed[t] && Updates(b, eds).stamp >= b.stamp
    decreases |eds|
  {
    if eds != [] {
      assert forall i :: 0 <= i < |eds[1..]| ==> eds[1..][i] == eds[i + 1];
      UntouchedStays(Update(b, eds[0]), eds[1..], t);
    }
  }

  lemma {:induction false} EmptyRefines<T(!new)>()
    ensures Refines<T>([], Book(map[], 0))
  {
  }
}
