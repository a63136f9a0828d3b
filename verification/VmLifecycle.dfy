/** vm_lifecycle.h: the state of one VM run, and the watchdog that waits for it to stop. */
module VmLifecycle {
  import opened Prelude

  datatype Status = Starting | Running | Stopping | Stopped | Failed

  datatype Life = Life(active: bool, stopRequested: bool, stopOwner: bool, status: Status, error: string)

  const FRESH := Life(true, false, false, Starting, "")

  predicate BlocksStart(l: Life) {
    l.active || l.stopOwner
  }

  function AppendError(error: string, reason: string): string {
    if reason == "" then error
    else if error == "" then reason
    else if !Contains("; " + error + "; ", "; " + reason + "; ") then error + "; " + reason
    else error
  }

  // std::to_string
  function Digits(n: nat): string {
    (if n < 10 then "" else Digits(n / 10)) + ["0123456789"[n % 10]]
  }

  function Decimal(n: int): string {
    if n < 0 then "-" + Digits(-n) else Digits(n)
  }

  function ExitReason(code: int): string {
    if code == 0 then "" else "VM exited with code " + Decimal(code)
  }

  datatype Op =
    | MarkRunning
    | ClaimStop
    | ReleaseStopOwner
    | Fail(reason: string)
    | Complete(exitCode: int)

  // MarkRunning and ClaimStop report success when they change the state.
  predicate Accepts(l: Life, op: Op) {
    match op
    case MarkRunning => l.active && !l.stopRequested && l.error == ""
    case ClaimStop => l.active && !l.stopOwner
    case _ => true
  }

  function Apply(l: Life, op: Op): Life {
    if !Accepts(l, op) then l
    else match op
      case MarkRunning => l.(status := Running)
      case ClaimStop => l.(stopRequested := true, stopOwner := true, status := Stopping)
      case ReleaseStopOwner => l.(stopOwner := false)
      case Fail(reason) =>
        l.(error := AppendError(l.error, reason), stopRequested := true,
           status := if l.active then Stopping else Failed)
      case Complete(code) =>
        var e := AppendError(l.error, ExitReason(code));
        l.(error := e, active := false, status := if e == "" then Stopped else Failed)
  }

  function ApplyAll(l: Life, ops: seq<Op>): Life
    decreases |ops|
  {
    if ops == [] then l else ApplyAll(Apply(l, ops[0]), ops[1..])
  }

  predicate NonEmpty(op: Op) {
    op.Fail? ==> op.reason != ""
  }

  // ---------- Every call sequence ----------

  /** Running means active, not asked to stop and without an error; once inactive, the status is decided
      by the error alone. */
  predicate Coherent(l: Life) {
    && (l.status == Running ==> l.active && !l.stopRequested && l.error == "")
    && (!l.active ==> l.status == if l.error == "" then Stopped else Failed)
    && (l.stopOwner ==> l.stopRequested)
    && (l.status in {Stopped, Failed} ==> !l.active)
  }

  lemma AppendGrows(e: string, r: string)
    ensures e <= AppendError(e, r) && (r != "" ==> AppendError(e, r) != "")
  {
  }

  /** One call: what it keeps, what it never undoes, and that only Complete ends the run. */
  lemma CallKeeps(l: Life, op: Op)
    requires Coherent(l) && NonEmpty(op)
    ensures Coherent(Apply(l, op))
    ensures l.stopRequested ==> Apply(l, op).stopRequested
    ensures l.error <= Apply(l, op).error
    ensures Apply(l, op).active <==> l.active && !op.Complete?
  {
    if op.Fail? { AppendGrows(l.error, op.reason); }
    if op.Complete? { AppendGrows(l.error, ExitReason(op.exitCode)); }
  }

  /** Any sequence of calls with non-empty reasons: active ends exactly with the first Complete, and
      stop requests and errors are never undone. */
  lemma {:induction false} CallsKeep(l: Life, ops: seq<Op>)
    requires Coherent(l) && forall i :: 0 <= i < |ops| ==> NonEmpty(ops[i])
    ensures var r := ApplyAll(l, ops);
      && Coherent(r) && (l.stopRequested ==> r.stopRequested) && l.error <= r.error
      && (r.active <==> l.active && forall i :: 0 <= i < |ops| ==> !ops[i].Complete?)
    decreases |ops|
  {
    if ops != [] {
      CallKeeps(l, ops[0]);
      var rest := ops[1..];
      assert forall i :: 0 <= i < |rest| ==> rest[i] == ops[i + 1];
      CallsKeep(Apply(l, ops[0]), rest);
      assert (forall i :: 0 <= i < |ops| ==> !ops[i].Complete?) <==>
             !ops[0].Complete? && (forall i :: 0 <= i < |rest| ==> !rest[i].Complete?) by {
        if forall i :: 0 <= i < |rest| ==> !rest[i].Complete? {
          forall i | 0 < i < |ops| ensures !ops[i].Complete? { assert !rest[i - 1].Complete?; }
        }
      }
    }
  }

  /** Once an error is recorded the run can only end as failed, whatever is called afterwards. */
  lemma FailureIsFinal(l: Life, ops: seq<Op>)
    requires Coherent(l) && l.error != "" && forall i :: 0 <= i < |ops| ==> NonEmpty(ops[i])
    ensures !ApplyAll(l, ops).active ==> ApplyAll(l, ops).status == Failed
    ensures ApplyAll(l, ops).status !in {Running, Stopped}
  {
    CallsKeep(l, ops);
  }

  // ---------- The error text ----------

  predicate Plain(s: string) {
    s != "" && ';' !in s
  }

  // The reason a call adds, if any.
  function ReasonOf(op: Op): string {
    match op
    case Fail(r) => r
    case Complete(c) => ExitReason(c)
    case _ => ""
  }

  // The distinct non-empty reasons, in first-seen order.
  function Seen(before: seq<string>, ops: seq<Op>): seq<string>
    decreases |ops|
  {
    if ops == [] then before
    else
      var r := ReasonOf(ops[0]);
      Seen(if r == "" || r in before then before else before + [r], ops[1..])
  }

  function Join(ds: seq<string>): string {
    if ds == [] then "" else if |ds| == 1 then ds[0] else Join(ds[..|ds| - 1]) + "; " + ds[|ds| - 1]
  }

  // Each reason followed by the separator.
  function Terminated(ds: seq<string>): string {
    if ds == [] then "" else ds[0] + "; " + Terminated(ds[1..])
  }

  lemma {:induction false} TerminatedSnoc(ds: seq<string>, d: string)
    ensures Terminated(ds + [d]) == Terminated(ds) + d + "; "
  {
    if ds == [] {
      assert [d][1..] == [];
      assert Terminated([d]) == d + "; " + Terminated([]);
    } else {
      assert (ds + [d])[1..] == ds[1..] + [d];
      TerminatedSnoc(ds[1..], d);
      assert ds[0] + "; " + (Terminated(ds[1..]) + d + "; ") == (ds[0] + "; " + Terminated(ds[1..])) + d + "; ";
    }
  }

  lemma {:induction false} JoinTerminated(ds: seq<string>)
    requires ds != []
    ensures Join(ds) + "; " == Terminated(ds)
  {
    var init, last := ds[..|ds| - 1], ds[|ds| - 1];
    assert ds == init + [last];
    TerminatedSnoc(init, last);
    if |ds| > 1 {
      JoinTerminated(init);
    }
  }

  // Two texts without ';', each followed by "; ", can only start the same way if they are equal.
  lemma FirstSemicolon(a: string, b: string, x: string, y: string)
    requires ';' !in a && ';' !in b
    requires a + "; " + x == b + "; " + y
    ensures a == b
  {
    var s := a + "; " + x;
    assert forall i :: 0 <= i < |a| ==> s[i] == a[i] && a[i] != ';';
    assert forall i :: 0 <= i < |b| ==> s[i] == b[i] && b[i] != ';';
    assert s[|a|] == ';' && s[|b|] == ';';
    assert a == s[..|a|] && b == s[..|b|];
  }

  predicate AllPlain(ds: seq<string>) {
    forall i | 0 <= i < |ds| :: Plain(ds[i])
  }

  // At the front of the framed text a reason occurs exactly if it is the first one.
  lemma OccursAtFront(ds: seq<string>, r: string)
    requires AllPlain(ds) && Plain(r)
    ensures OccursAt("; " + Terminated(ds), "; " + r + "; ", 0) <==> ds != [] && ds[0] == r
  {
    var hay, needle := "; " + Terminated(ds), "; " + r + "; ";
    if ds != [] {
      assert hay == "; " + ds[0] + "; " + Terminated(ds[1..]);
      if ds[0] == r {
        assert hay[..|needle|] == needle;
      } else if hay[..] == hay && |needle| <= |hay| && hay[0..|needle|] == needle {
        assert hay == needle + hay[|needle|..];
        assert r + "; " + hay[|needle|..] == hay[2..] == ds[0] + "; " + Terminated(ds[1..]);
        FirstSemicolon(r, ds[0], hay[|needle|..], Terminated(ds[1..]));
      }
    }
  }

  lemma FramedSplits(ds: seq<string>)
    requires ds != []
    ensures "; " + Terminated(ds) == ("; " + ds[0]) + ("; " + Terminated(ds[1..]))
  {
  }

  // A text that starts with ';' does not start inside a stretch without one.
  lemma OccursLater(front: string, rest: string, needle: string, i: int)
    requires needle != "" && needle[0] == ';' && (forall j :: 0 < j < |front| ==> front[j] != ';')
    requires i > 0 && OccursAt(front + rest, needle, i)
    ensures i >= |front| && OccursAt(rest, needle, i - |front|)
  {
    var hay := front + rest;
    assert hay[i] == hay[i..i + |needle|][0];
    assert rest[i - |front|..i - |front| + |needle|] == hay[i..i + |needle|];
  }

  lemma FrontPlain(d: string)
    requires Plain(d)
    ensures forall j :: 0 < j < |"; " + d| ==> ("; " + d)[j] != ';'
  {
    var front := "; " + d;
    assert forall j :: 2 <= j < |front| ==> front[j] == d[j - 2];
  }

  // An occurrence further back lies in the rest of the framed text.
  lemma OccursBehind(ds: seq<string>, needle: string, i: int)
    requires ds != [] && Plain(ds[0]) && i > 0 && needle != "" && needle[0] == ';'
    requires OccursAt("; " + Terminated(ds), needle, i)
    ensures Contains("; " + Terminated(ds[1..]), needle)
  {
    var front, rest := "; " + ds[0], "; " + Terminated(ds[1..]);
    FrontPlain(ds[0]);
    FramedSplits(ds);
    OccursLater(front, rest, needle, i);
    assert OccursAt(rest, needle, i - |front|);
  }

  // An occurrence in the rest of a text is one in the text.
  lemma ContainsBehind(front: string, rest: string, needle: string)
    requires Contains(rest, needle)
    ensures Contains(front + rest, needle)
  {
    var hay, k := front + rest, |front|;
    var i :| 0 <= i <= |rest| - |needle| && OccursAt(rest, needle, i);
    assert hay[i + k..i + k + |needle|] == rest[i..i + |needle|];
    assert OccursAt(hay, needle, i + k);
  }

  lemma FoundBehind(ds: seq<string>, r: string)
    requires AllPlain(ds) && Plain(r) && ds != []
    ensures Contains("; " + Terminated(ds), "; " + r + "; ")
            <==> || OccursAt("; " + Terminated(ds), "; " + r + "; ", 0)
                 || Contains("; " + Terminated(ds[1..]), "; " + r + "; ")
  {
    var hay, needle, rest := "; " + Terminated(ds), "; " + r + "; ", "; " + Terminated(ds[1..]);
    FramedSplits(ds);
    if Contains(rest, needle) { ContainsBehind("; " + ds[0], rest, needle); }
    if Contains(hay, needle) {
      var i :| 0 <= i <= |hay| - |needle| && OccursAt(hay, needle, i);
      if i > 0 { OccursBehind(ds, needle, i); }
    }
  }

  /** A reason is found in the framed error text exactly if it is one of the reasons in it. */
  lemma {:induction false} FoundIffListed(ds: seq<string>, r: string)
    requires AllPlain(ds) && Plain(r)
    ensures Contains("; " + Terminated(ds), "; " + r + "; ") <==> r in ds
  {
    if ds != [] {
      assert forall i :: 0 <= i < |ds[1..]| ==> ds[1..][i] == ds[i + 1];
      FoundIffListed(ds[1..], r);
      OccursAtFront(ds, r);
      FoundBehind(ds, r);
    }
  }

  // ---------- When the text is the join of the reasons ----------

  predicate Found(error: string, r: string) {
    Contains("; " + error + "; ", "; " + r + "; ")
  }

  predicate NoneEmpty(ds: seq<string>) {
    forall i | 0 <= i < |ds| :: ds[i] != ""
  }

  /** No reason is found in the text of the reasons before it unless it is one of them. */
  predicate NoneHidden(before: seq<string>, ops: seq<Op>)
    decreases |ops|
  {
    if ops == [] then true
    else
      var r := ReasonOf(ops[0]);
      if r == "" || r in before then NoneHidden(before, ops[1..])
      else (before == [] || !Found(Join(before), r)) && NoneHidden(before + [r], ops[1..])
  }

  lemma JoinNonEmpty(ds: seq<string>)
    requires NoneEmpty(ds)
    ensures Join(ds) == "" <==> ds == []
  {
    if |ds| == 1 { assert ds[0] != ""; }
  }

  lemma JoinSnoc(ds: seq<string>, r: string)
    ensures Join(ds + [r]) == if ds == [] then r else Join(ds) + "; " + r
  {
    assert (ds + [r])[..|ds|] == ds;
  }

  lemma {:induction false} FoundInTerminated(ds: seq<string>, r: string)
    requires r in ds
    ensures Contains("; " + Terminated(ds), "; " + r + "; ")
  {
    var hay, needle := "; " + Terminated(ds), "; " + r + "; ";
    if ds[0] == r {
      assert hay == needle + Terminated(ds[1..]);
      assert OccursAt(hay, needle, 0);
    } else {
      FoundInTerminated(ds[1..], r);
      FramedSplits(ds);
      ContainsBehind("; " + ds[0], "; " + Terminated(ds[1..]), needle);
    }
  }

  lemma ListedIsFound(ds: seq<string>, r: string)
    requires r in ds
    ensures Found(Join(ds), r)
  {
    FoundInTerminated(ds, r);
    JoinTerminated(ds);
    assert "; " + Join(ds) + "; " == "; " + Terminated(ds);
  }

  // One reason, while the text is still the join.
  lemma AppendIsJoin(ds: seq<string>, r: string)
    requires NoneEmpty(ds)
    ensures r == "" || r in ds ==> AppendError(Join(ds), r) == Join(ds)
    ensures r != "" && r !in ds && (ds == [] || !Found(Join(ds), r)) ==> AppendError(Join(ds), r) == Join(ds + [r])
    ensures r != "" && r !in ds && ds != [] && Found(Join(ds), r) ==> AppendError(Join(ds), r) == Join(ds)
  {
    JoinNonEmpty(ds);
    JoinSnoc(ds, r);
    if r in ds { ListedIsFound(ds, r); }
  }

  // The text has lost a reason: it is shorter than the join, and will not take in what it seems to hold.
  ghost predicate Behind(error: string, ds: seq<string>) {
    error != "" && ds != [] && |error| < |Join(ds)| && forall d :: d in ds ==> Found(error, d)
  }

  lemma ContainsFront(a: string, b: string, needle: string)
    requires Contains(a, needle)
    ensures Contains(a + b, needle)
  {
    var i :| 0 <= i <= |a| - |needle| && OccursAt(a, needle, i);
    assert (a + b)[i..i + |needle|] == a[i..i + |needle|];
    assert OccursAt(a + b, needle, i);
  }

  // A text that grows by a reason holds it, and what it held before.
  lemma FoundStays(error: string, r: string, d: string)
    requires Found(error, d)
    ensures Found(error + "; " + r, d)
  {
    ContainsFront("; " + error + "; ", r + "; ", "; " + d + "; ");
    assert "; " + (error + "; " + r) + "; " == ("; " + error + "; ") + (r + "; ");
  }

  lemma FoundAtEnd(error: string, r: string)
    ensures Found(error + "; " + r, r)
  {
    var needle := "; " + r + "; ";
    assert OccursAt(needle, needle, 0);
    ContainsBehind("; " + error, needle, needle);
    assert "; " + (error + "; " + r) + "; " == ("; " + error) + needle;
  }

  lemma BehindStays(error: string, ds: seq<string>, r: string)
    requires Behind(error, ds)
    ensures Behind(AppendError(error, r), if r == "" || r in ds then ds else ds + [r])
  {
    JoinSnoc(ds, r);
    if r != "" && !Found(error, r) {
      forall d | d in ds ensures Found(error + "; " + r, d) { FoundStays(error, r, d); }
      FoundAtEnd(error, r);
    }
  }

  lemma ErrorOf(l: Life, op: Op)
    ensures Apply(l, op).error == AppendError(l.error, ReasonOf(op))
  {
  }

  lemma {:induction false} BehindForever(l: Life, ds: seq<string>, ops: seq<Op>)
    requires Behind(l.error, ds)
    ensures |ApplyAll(l, ops).error| < |Join(Seen(ds, ops))|
    decreases |ops|
  {
    if ops != [] {
      var r := ReasonOf(ops[0]);
      ErrorOf(l, ops[0]);
      BehindStays(l.error, ds, r);
      BehindForever(Apply(l, ops[0]), if r == "" || r in ds then ds else ds + [r], ops[1..]);
    }
  }

  lemma HiddenFallsBehind(ds: seq<string>, r: string)
    requires NoneEmpty(ds) && ds != [] && r !in ds && Found(Join(ds), r)
    ensures Behind(Join(ds), ds + [r])
  {
    JoinNonEmpty(ds);
    JoinSnoc(ds, r);
    forall d | d in ds ensures Found(Join(ds), d) { ListedIsFound(ds, d); }
  }

  /** After any sequence of calls, with any reasons, the error text is the "; "-join of the distinct reasons
      in first-seen order if and only if no reason was hidden in the text of earlier ones. */
  lemma {:induction false} ErrorIsJoinIffNoneHidden(l: Life, before: seq<string>, ops: seq<Op>)
    requires NoneEmpty(before) && l.error == Join(before)
    ensures ApplyAll(l, ops).error == Join(Seen(before, ops)) <==> NoneHidden(before, ops)
    decreases |ops|
  {
    if ops != [] {
      var r := ReasonOf(ops[0]);
      ErrorOf(l, ops[0]);
      AppendIsJoin(before, r);
      if r == "" || r in before {
        ErrorIsJoinIffNoneHidden(Apply(l, ops[0]), before, ops[1..]);
      } else if before == [] || !Found(Join(before), r) {
        ErrorIsJoinIffNoneHidden(Apply(l, ops[0]), before + [r], ops[1..]);
      } else {
        HiddenFallsBehind(before, r);
        BehindForever(Apply(l, ops[0]), before + [r], ops[1..]);
      }
    }
  }

  lemma {:induction false} DigitsPlain(n: nat)
    ensures Plain(Digits(n))
  {
    if n >= 10 { DigitsPlain(n / 10); }
  }

  lemma ExitReasonPlain(code: int)
    requires code != 0
    ensures Plain(ExitReason(code))
  {
    DigitsPlain(if code < 0 then -code else code);
  }

  lemma PlainIsFoundIffListed(ds: seq<string>, r: string)
    requires AllPlain(ds) && ds != [] && Plain(r)
    ensures Found(Join(ds), r) <==> r in ds
  {
    JoinTerminated(ds);
    assert "; " + Join(ds) + "; " == "; " + Terminated(ds);
    FoundIffListed(ds, r);
  }

  // Reasons without ';' hide nothing.
  lemma {:induction false} PlainHidesNone(before: seq<string>, ops: seq<Op>)
    requires AllPlain(before) && forall i :: 0 <= i < |ops| && ops[i].Fail? ==> ';' !in ops[i].reason
    ensures NoneHidden(before, ops)
    decreases |ops|
  {
    if ops != [] {
      var r := ReasonOf(ops[0]);
      if ops[0].Complete? && ops[0].exitCode != 0 { ExitReasonPlain(ops[0].exitCode); }
      assert forall i :: 0 <= i < |ops[1..]| ==> ops[1..][i] == ops[i + 1];
      if r == "" || r in before {
        PlainHidesNone(before, ops[1..]);
      } else {
        if before != [] { PlainIsFoundIffListed(before, r); }
        PlainHidesNone(before + [r], ops[1..]);
      }
    }
  }

  /** With reasons free of ';', the error text after any sequence of calls is the "; "-join of the
      distinct reasons in first-seen order. */
  lemma ErrorIsJoinOfReasons(l: Life, before: seq<string>, ops: seq<Op>)
    requires AllPlain(before) && l.error == Join(before)
    requires forall i :: 0 <= i < |ops| && ops[i].Fail? ==> ';' !in ops[i].reason
    ensures ApplyAll(l, ops).error == Join(Seen(before, ops))
  {
    PlainHidesNone(before, ops);
    forall i | 0 <= i < |before| ensures before[i] != "" { assert Plain(before[i]); }
    ErrorIsJoinIffNoneHidden(l, before, ops);
  }

  /** A reason can be hidden: the second of these calls leaves no trace. */
  lemma SeparatorHidesReason()
    ensures !NoneHidden([], [Fail("a; b"), Fail("b")])
    ensures ApplyAll(FRESH, [Fail("a; b"), Fail("b")]).error != Join(Seen([], [Fail("a; b"), Fail("b")]))
  {
    var ops := [Fail("a; b"), Fail("b")];
    var framed, needle := "; " + "a; b" + "; ", "; " + "b" + "; ";
    assert framed[3..3 + |needle|] == needle;
    assert OccursAt(framed, needle, 3);
    assert ops[1..] == [Fail("b")] && [] + ["a; b"] == ["a; b"];
    assert Join(["a; b"]) == "a; b";
    assert !NoneHidden(["a; b"], [Fail("b")]);
    ErrorIsJoinIffNoneHidden(FRESH, [], ops);
  }

  // ---------- What a history of calls means ----------

  predicate Completed(ops: seq<Op>, n: nat)
    requires n <= |ops|
  {
    exists i | 0 <= i < n :: ops[i].Complete?
  }

  // Somebody has asked for a stop: a failure, or a request made while the run was active.
  predicate Requested(ops: seq<Op>) {
    exists i | 0 <= i < |ops| :: ops[i].Fail? || (ops[i].ClaimStop? && !Completed(ops, i))
  }

  // A stop that was requested while the run was active has not been released.
  predicate Owned(ops: seq<Op>) {
    exists i | 0 <= i < |ops| :: ops[i].ClaimStop? && !Completed(ops, i)
                                 && forall j | i < j < |ops| :: !ops[j].ReleaseStopOwner?
  }

  predicate Marked(ops: seq<Op>) {
    exists i | 0 <= i < |ops| :: ops[i].MarkRunning?
  }

  // What the calls since the start say about the run.
  predicate Says(l: Life, ops: seq<Op>) {
    && (l.active <==> !Completed(ops, |ops|))
    && (l.stopRequested <==> Requested(ops))
    && (l.stopOwner <==> Owned(ops))
    && l.status == (if !l.active then (if l.error == "" then Stopped else Failed)
                    else if l.stopRequested then Stopping
                    else if Marked(ops) then Running else Starting)
    && (l.active && !l.stopRequested ==> l.error == "")
  }

  lemma {:induction false} ApplyLast(l: Life, ops: seq<Op>, op: Op)
    ensures ApplyAll(l, ops + [op]) == Apply(ApplyAll(l, ops), op)
    decreases |ops|
  {
    if ops == [] {
      assert ops + [op] == [op] && [op][1..] == [];
    } else {
      assert (ops + [op])[1..] == ops[1..] + [op];
      ApplyLast(Apply(l, ops[0]), ops[1..], op);
    }
  }

  lemma CompletedLast(ops: seq<Op>, op: Op)
    ensures Completed(ops + [op], |ops| + 1) <==> Completed(ops, |ops|) || op.Complete?
    ensures forall n: nat :: n <= |ops| ==> (Completed(ops + [op], n) <==> Completed(ops, n))
  {
    var all := ops + [op];
    assert all[|ops|] == op && forall i :: 0 <= i < |ops| ==> all[i] == ops[i];
  }

  lemma RequestedLast(ops: seq<Op>, op: Op)
    ensures Requested(ops + [op]) <==> Requested(ops) || op.Fail? || (op.ClaimStop? && !Completed(ops, |ops|))
  {
    var all := ops + [op];
    CompletedLast(ops, op);
    assert all[|ops|] == op && forall i :: 0 <= i < |ops| ==> all[i] == ops[i];
  }

  lemma OwnedLast(ops: seq<Op>, op: Op)
    ensures Owned(ops + [op]) <==>
      (op.ClaimStop? && !Completed(ops, |ops|)) || (Owned(ops) && !op.ReleaseStopOwner?)
  {
    var all := ops + [op];
    CompletedLast(ops, op);
    assert all[|ops|] == op && forall i :: 0 <= i < |ops| ==> all[i] == ops[i];
  }

  lemma MarkedLast(ops: seq<Op>, op: Op)
    ensures Marked(ops + [op]) <==> Marked(ops) || op.MarkRunning?
  {
    var all := ops + [op];
    assert all[|ops|] == op && forall i :: 0 <= i < |ops| ==> all[i] == ops[i];
  }

  /** The flags and the status of a run are what its history of calls says: active until a completion, asked to stop
      since a failure or an accepted request, owned by the last request until its release; running once marked and
      not asked to stop, and in the end stopped or failed by its error text. */
  lemma {:induction false} HistorySays(ops: seq<Op>)
    requires forall i :: 0 <= i < |ops| ==> NonEmpty(ops[i])
    ensures Says(ApplyAll(FRESH, ops), ops)
    decreases |ops|
  {
    if ops != [] {
      var front, op := ops[..|ops| - 1], ops[|ops| - 1];
      HistorySays(front);
      assert ops == front + [op];
      ApplyLast(FRESH, front, op);
      SaysMore(ApplyAll(FRESH, front), front, op);
    }
  }

  lemma SaysMore(l: Life, ops: seq<Op>, op: Op)
    requires Says(l, ops) && NonEmpty(op)
    ensures Says(Apply(l, op), ops + [op])
  {
    CompletedLast(ops, op);
    RequestedLast(ops, op);
    OwnedLast(ops, op);
    MarkedLast(ops, op);
  }

  /** A run ends as stopped only if its exit code is zero and no failure was recorded before; another exit code is
      itself a failure, with the code in the error text. */
  lemma ExitCodeDecides(l: Life, code: int)
    ensures var r := Apply(l, Op.Complete(code));
      && !r.active && (r.status == Stopped <==> code == 0 && l.error == "")
          && (r.status == Failed <==> r.status != Stopped)
      && (code == 0 ==> r.error == l.error)
      && (code != 0 ==> r.error != "" && Found(r.error,
          "VM exited with code " + (if code < 0 then "-" + Digits(-code) else Digits(code))))
  {
    if code != 0 {
      var reason := "VM exited with code " + Decimal(code);
      assert reason != "";
      AppendGrows(l.error, reason);
      if l.error == "" { WholeIsFound(reason); } else if !Found(l.error, reason) { FoundAtEnd(l.error, reason); }
    }
  }

  lemma WholeIsFound(reason: string)
    ensures Found(reason, reason)
  {
    var framed := "; " + reason + "; ";
    assert framed[0..|framed|] == framed;
    assert OccursAt(framed, framed, 0);
  }

  // The number that a string of decimal digits stands for.
  function Value(s: string): int {
    if s == "" then 0 else 10 * Value(s[..|s| - 1]) + (s[|s| - 1] as int - '0' as int)
  }

  lemma OneDigit(d: nat)
    requires d < 10
    ensures '0' <= "0123456789"[d] <= '9' && "0123456789"[d] as int - '0' as int == d
  {
  }

  lemma ValueAppends(s: string, c: char)
    ensures Value(s + [c]) == 10 * Value(s) + (c as int - '0' as int)
  {
    assert (s + [c])[..|s|] == s;
  }

  predicate AllDigits(s: string) {
    forall i | 0 <= i < |s| :: '0' <= s[i] <= '9'
  }

  /** An exit code is written in decimal, without leading zeros. */
  lemma {:induction false} DigitsAreDecimal(n: nat)
    ensures Digits(n) != "" && AllDigits(Digits(n)) && Value(Digits(n)) == n && (n > 0 ==> Digits(n)[0] != '0')
  {
    OneDigit(n % 10);
    var front := if n < 10 then "" else Digits(n / 10);
    ValueAppends(front, "0123456789"[n % 10]);
    if n >= 10 { DigitsAreDecimal(n / 10); }
  }

  // ---------- The class, and the watchdog ----------

  class VmLifecycle {
    var active: bool
    var stopRequested: bool
    var stopOwner: bool
    var status: Status
    var error: string

    function State(): Life
      reads this
    {
      Life(active, stopRequested, stopOwner, status, error)
    }

    constructor ()
      ensures State() == FRESH && Coherent(State())
    {
      active, stopRequested, stopOwner, status, error := true, false, false, Starting, "";
    }

    method MarkRunning() returns (ok: bool)
      modifies this
      ensures ok == Accepts(old(State()), Op.MarkRunning) && State() == Apply(old(State()), Op.MarkRunning)
    {
      if !active || stopRequested || error != "" {
        return false;
      }
      status := Running;
      return true;
    }

    method ClaimStop() returns (ok: bool)
      modifies this
      ensures ok == Accepts(old(State()), Op.ClaimStop) && State() == Apply(old(State()), Op.ClaimStop)
    {
      if !active || stopOwner {
        return false;
      }
      stopRequested, stopOwner, status := true, true, Stopping;
      return true;
    }

    method ReleaseStopOwner()
      modifies this
      ensures State() == Apply(old(State()), Op.ReleaseStopOwner)
    {
      stopOwner := false;
    }

    method AppendReason(reason: string)
      modifies this`error
      ensures error == AppendError(old(error), reason)
    {
      if reason == "" {
        return;
      }
      var framed := "; " + error + "; ";
      if error == "" {
        error := reason;
      } else if !Contains(framed, "; " + reason + "; ") {
        error := error + "; " + reason;
      }
    }

    method Fail(reason: string)
      modifies this
      ensures State() == Apply(old(State()), Op.Fail(reason))
    {
      AppendReason(reason);
      stopRequested := true;
      status := if active then Stopping else Failed;
    }

    method Complete(exitCode: int)
      modifies this
      ensures State() == Apply(old(State()), Op.Complete(exitCode))
    {
      if exitCode != 0 {
        AppendReason("VM exited with code " + Decimal(exitCode));
      }
      active := false;
      status := if error == "" then Stopped else Failed;
    }

    method Call(op: Op)
      modifies this
      ensures State() == Apply(old(State()), op)
    {
      match op {
        case MarkRunning => var _ := MarkRunning();
        case ClaimStop => var _ := ClaimStop();
        case ReleaseStopOwner => ReleaseStopOwner();
        case Fail(reason) => Fail(reason);
        case Complete(code) => Complete(code);
      }
    }

    // Calls of other threads.
    method Others(ops: seq<Op>)
      modifies this
      ensures State() == ApplyAll(old(State()), ops)
    {
      var i := 0;
      while i < |ops|
        invariant i <= |ops| && ApplyAll(State(), ops[i..]) == ApplyAll(old(State()), ops)
      {
        assert ops[i..][0] == ops[i] && ops[i..][1..] == ops[i + 1..];
        Call(ops[i]);
        i := i + 1;
      }
    }
  }

  /** The world around the watchdog: the t-th reading of the clock, the outcome of the t-th QMP quit, and
      what other threads do to the run at their t-th turn. */
  datatype World = World(clock: nat -> int, quit: nat -> bool, others: nat -> seq<Op>)

  /** What the watchdog does: it reads the clock at the start of a turn and, later in the turn, for the deadline. */
  datatype Event =
    | Look(elapsed: int)
    | Attempt(elapsed: int, accepted: bool)
    | Late(elapsed: int)
    | Deadline(elapsed: int, reason: string)

  const INITIAL_DELAY_MS := 5000
  const GRACE_MS := 7000
  const RETRY_MS := 1000

  function Readings(tr: seq<Event>): nat {
    if tr == [] then 0
    else Readings(tr[..|tr| - 1]) + if tr[|tr| - 1].Look? || tr[|tr| - 1].Late? then 1 else 0
  }

  function Attempts(tr: seq<Event>): nat {
    if tr == [] then 0 else Attempts(tr[..|tr| - 1]) + if tr[|tr| - 1].Attempt? then 1 else 0
  }

  ghost predicate Reported(tr: seq<Event>) {
    exists i :: 0 <= i < |tr| && tr[i].Deadline?
  }

  ghost predicate Accepted(tr: seq<Event>) {
    exists i :: 0 <= i < |tr| && tr[i].Attempt? && tr[i].accepted
  }

  const LATE_AFTER := "VM stop deadline exceeded after QMP quit; runner has not returned"
  const LATE_BEFORE := "VM stop deadline exceeded before QMP quit was accepted"

  // After `tr`, a quit is due at `elapsed`: the delay is over, none was accepted, and none is less than 1000 ms old.
  ghost predicate QuitDue(tr: seq<Event>, elapsed: int, delay: int) {
    && elapsed >= delay && elapsed >= 0 && !Accepted(tr)
    && forall i :: 0 <= i < |tr| && tr[i].Attempt? ==> elapsed - tr[i].elapsed >= 1000
  }

  // The last turn, if any, has not looked for the deadline.
  predicate Unfinished(tr: seq<Event>) {
    tr != [] && (tr[|tr| - 1].Look? || tr[|tr| - 1].Attempt?)
  }

  predicate EndsWith(tr: seq<Event>, ev: Event) {
    tr != [] && tr[|tr| - 1] == ev
  }

  /** The discipline of the watchdog, for one event with what comes before it and what follows.  Each clock reading is
      the next of the clock.  A turn sends a quit exactly if one is due, and that has the next outcome.  Until a
      deadline has been reported every turn that still finds the run active looks for it, and reports it exactly if
      it is over, with the reason that fits. */
  ghost predicate Rule(before: seq<Event>, ev: Event, next: Option<Event>, w: World, delay: int, grace: int) {
    match ev
    case Look(e) =>
      && e == w.clock(1 + Readings(before)) - w.clock(0)
      && (QuitDue(before, e, delay) <==> next.Some? && next.value.Attempt?)
      && (Unfinished(before) ==> Reported(before))
    case Attempt(e, accepted) => EndsWith(before, Look(e)) && accepted == w.quit(Attempts(before))
    case Late(e) =>
      && Unfinished(before) && !Reported(before)
      && e == w.clock(1 + Readings(before)) - w.clock(0)
      && (e >= delay + grace <==> next.Some? && next.value.Deadline?)
    case Deadline(e, reason) =>
      && EndsWith(before, Late(e))
      && reason == if Accepted(before) then "VM stop deadline exceeded after QMP quit; runner has not returned"
                   else "VM stop deadline exceeded before QMP quit was accepted"
  }

  ghost predicate EventOk(tr: seq<Event>, i: nat, w: World, delay: int, grace: int)
    requires i < |tr|
  {
    Rule(tr[..i], tr[i], if i + 1 < |tr| then Some(tr[i + 1]) else None, w, delay, grace)
  }

  ghost predicate Disciplined(tr: seq<Event>, w: World, delay: int, grace: int) {
    forall i: nat :: i < |tr| ==> EventOk(tr, i, w, delay, grace)
  }

  // What is appended does not begin in the middle of a turn.
  lemma EarlierOk(tr: seq<Event>, more: seq<Event>, w: World, delay: int, grace: int, i: nat)
    requires i < |tr| && EventOk(tr, i, w, delay, grace) && more != [] && !more[0].Attempt? && !more[0].Deadline?
    ensures EventOk(tr + more, i, w, delay, grace)
  {
    assert (tr + more)[..i] == tr[..i] && (tr + more)[i] == tr[i];
    assert (tr + more)[i + 1] == if i + 1 < |tr| then tr[i + 1] else more[0];
  }

  lemma AppendOne(tr: seq<Event>, a: Event, w: World, delay: int, grace: int)
    requires Disciplined(tr, w, delay, grace) && !a.Attempt? && !a.Deadline? && Rule(tr, a, None, w, delay, grace)
    ensures Disciplined(tr + [a], w, delay, grace)
  {
    var all := tr + [a];
    forall i: nat | i < |all| ensures EventOk(all, i, w, delay, grace) {
      if i < |tr| { EarlierOk(tr, [a], w, delay, grace, i); } else { assert all[..i] == tr && all[i] == a; }
    }
  }

  lemma AppendTwo(tr: seq<Event>, a: Event, b: Event, w: World, delay: int, grace: int)
    requires Disciplined(tr, w, delay, grace) && !a.Attempt? && !a.Deadline?
    requires Rule(tr, a, Some(b), w, delay, grace) && Rule(tr + [a], b, None, w, delay, grace)
    ensures Disciplined(tr + [a, b], w, delay, grace)
  {
    var all := tr + [a, b];
    forall i: nat | i < |all| ensures EventOk(all, i, w, delay, grace) {
      if i < |tr| {
        EarlierOk(tr, [a, b], w, delay, grace, i);
      } else if i == |tr| {
        assert all[..i] == tr && all[i] == a && all[i + 1] == b;
      } else {
        assert all[..i] == tr + [a] && all[i] == b;
      }
    }
  }

  // A turn begins with a reading, and nothing is due.
  lemma LookIsOk(tr: seq<Event>, w: World, delay: int, grace: int, e: int)
    requires Disciplined(tr, w, delay, grace) && e == w.clock(1 + Readings(tr)) - w.clock(0) && !QuitDue(tr, e, delay)
    requires Unfinished(tr) ==> Reported(tr)
    ensures Disciplined(tr + [Look(e)], w, delay, grace)
  {
    AppendOne(tr, Look(e), w, delay, grace);
  }

  // A turn begins with a reading, and sends the quit that is due.
  lemma AttemptIsOk(tr: seq<Event>, w: World, delay: int, grace: int, e: int)
    requires Disciplined(tr, w, delay, grace) && e == w.clock(1 + Readings(tr)) - w.clock(0) && QuitDue(tr, e, delay)
    requires Unfinished(tr) ==> Reported(tr)
    ensures Disciplined(tr + [Look(e), Attempt(e, w.quit(Attempts(tr)))], w, delay, grace)
  {
    CountOne(tr, Look(e));
    AppendTwo(tr, Look(e), Attempt(e, w.quit(Attempts(tr))), w, delay, grace);
  }

  // The turn goes on with a reading before the deadline.
  lemma EarlyIsOk(tr: seq<Event>, w: World, delay: int, grace: int, e: int)
    requires Disciplined(tr, w, delay, grace) && e == w.clock(1 + Readings(tr)) - w.clock(0) && !Reported(tr)
    requires Unfinished(tr) && e < delay + grace
    ensures Disciplined(tr + [Late(e)], w, delay, grace)
  {
    AppendOne(tr, Late(e), w, delay, grace);
  }

  // The turn goes on with a reading after the deadline, which it reports.
  lemma DeadlineIsOk(tr: seq<Event>, w: World, delay: int, grace: int, e: int, reason: string)
    requires Disciplined(tr, w, delay, grace) && e == w.clock(1 + Readings(tr)) - w.clock(0) && !Reported(tr)
    requires Unfinished(tr) && e >= delay + grace && reason == if Accepted(tr) then LATE_AFTER else LATE_BEFORE
    ensures Disciplined(tr + [Late(e), Deadline(e, reason)], w, delay, grace)
  {
    CountOne(tr, Late(e));
    AppendTwo(tr, Late(e), Deadline(e, reason), w, delay, grace);
  }

  // Where the loop stands.
  ghost predicate Progress(tr: seq<Event>, lastAttempt: int, accepted: bool, reported: bool, readings: nat,
      quits: nat) {
    && (accepted <==> Accepted(tr)) && (reported <==> Reported(tr))
    && readings == Readings(tr) && quits == Attempts(tr) && lastAttempt >= -RETRY_MS
    && (forall i :: 0 <= i < |tr| && tr[i].Attempt? ==> 0 <= tr[i].elapsed <= lastAttempt)
    && (lastAttempt == -RETRY_MS || exists i :: 0 <= i < |tr| && tr[i].Attempt? && tr[i].elapsed == lastAttempt)
  }

  lemma DueIff(tr: seq<Event>, lastAttempt: int, accepted: bool, reported: bool, readings: nat, quits: nat,
               elapsed: int, delay: int)
    requires Progress(tr, lastAttempt, accepted, reported, readings, quits)
    ensures QuitDue(tr, elapsed, delay) <==> !accepted && elapsed >= delay && elapsed - lastAttempt >= RETRY_MS
  {
  }

  lemma CountOne(tr: seq<Event>, e: Event)
    ensures Readings(tr + [e]) == Readings(tr) + if e.Look? || e.Late? then 1 else 0
    ensures Attempts(tr + [e]) == Attempts(tr) + if e.Attempt? then 1 else 0
    ensures Reported(tr + [e]) <==> Reported(tr) || e.Deadline?
    ensures Accepted(tr + [e]) <==> Accepted(tr) || (e.Attempt? && e.accepted)
  {
    assert (tr + [e])[..|tr|] == tr && (tr + [e])[|tr|] == e;
    if i :| 0 <= i < |tr| && tr[i].Deadline? { assert (tr + [e])[i] == tr[i]; }
    if i :| 0 <= i < |tr| && tr[i].Attempt? && tr[i].accepted { assert (tr + [e])[i] == tr[i]; }
  }

  lemma ProgressOne(tr: seq<Event>, lastAttempt: int, accepted: bool, reported: bool, readings: nat, quits: nat,
      e: Event)
    requires Progress(tr, lastAttempt, accepted, reported, readings, quits)
    requires e.Attempt? ==> e.elapsed >= lastAttempt && e.elapsed >= 0
    ensures Progress(tr + [e], if e.Attempt? then e.elapsed else lastAttempt, accepted || (e.Attempt? && e.accepted),
                     reported || e.Deadline?, readings + if e.Look? || e.Late? then 1 else 0,
                     quits + if e.Attempt? then 1 else 0)
  {
    CountOne(tr, e);
    var all := tr + [e];
    assert all[|tr|] == e;
    if !e.Attempt? && lastAttempt != -RETRY_MS {
      var i :| 0 <= i < |tr| && tr[i].Attempt? && tr[i].elapsed == lastAttempt;
      assert all[i] == tr[i];
    }
  }

  // The trace is disciplined, and the variables of the loop say what is in it.
  ghost predicate Stands(tr: seq<Event>, w: World, delay: int, grace: int,
                         lastAttempt: int, accepted: bool, reported: bool, readings: nat, quits: nat) {
    Disciplined(tr, w, delay, grace) && Progress(tr, lastAttempt, accepted, reported, readings, quits)
  }

  lemma LookStands(tr: seq<Event>, w: World, delay: int, grace: int,
                   lastAttempt: int, accepted: bool, reported: bool, readings: nat, quits: nat, e: int)
    requires Stands(tr, w, delay, grace, lastAttempt, accepted, reported, readings, quits)
    requires (Unfinished(tr) ==> reported) && e == w.clock(readings + 1) - w.clock(0)
    requires accepted || e < delay || e - lastAttempt < RETRY_MS
    ensures Stands(tr + [Look(e)], w, delay, grace, lastAttempt, accepted, reported, readings + 1, quits)
    ensures Unfinished(tr + [Look(e)])
  {
    DueIff(tr, lastAttempt, accepted, reported, readings, quits, e, delay);
    LookIsOk(tr, w, delay, grace, e);
    ProgressOne(tr, lastAttempt, accepted, reported, readings, quits, Look(e));
  }

  lemma AttemptStands(tr: seq<Event>, w: World, delay: int, grace: int,
                      lastAttempt: int, reported: bool, readings: nat, quits: nat, e: int)
    requires Stands(tr, w, delay, grace, lastAttempt, false, reported, readings, quits)
    requires (Unfinished(tr) ==> reported) && e == w.clock(readings + 1) - w.clock(0)
    requires e >= delay && e - lastAttempt >= RETRY_MS
    ensures Stands(tr + [Look(e), Attempt(e, w.quit(quits))], w, delay, grace, e, w.quit(quits), reported, readings + 1,
                   quits + 1)
    ensures Unfinished(tr + [Look(e), Attempt(e, w.quit(quits))])
  {
    DueIff(tr, lastAttempt, false, reported, readings, quits, e, delay);
    AttemptIsOk(tr, w, delay, grace, e);
    var attempt := Attempt(e, w.quit(quits));
    ProgressOne(tr, lastAttempt, false, reported, readings, quits, Look(e));
    ProgressOne(tr + [Look(e)], lastAttempt, false, reported, readings + 1, quits, attempt);
    assert tr + [Look(e)] + [attempt] == tr + [Look(e), attempt];
  }

  lemma EarlyStands(tr: seq<Event>, w: World, delay: int, grace: int,
                    lastAttempt: int, accepted: bool, readings: nat, quits: nat, e: int)
    requires Stands(tr, w, delay, grace, lastAttempt, accepted, false, readings, quits)
    requires Unfinished(tr) && e == w.clock(readings + 1) - w.clock(0) && e < delay + grace
    ensures Stands(tr + [Late(e)], w, delay, grace, lastAttempt, accepted, false, readings + 1, quits)
    ensures !Unfinished(tr + [Late(e)])
  {
    EarlyIsOk(tr, w, delay, grace, e);
    ProgressOne(tr, lastAttempt, accepted, false, readings, quits, Late(e));
  }

  lemma DeadlineStands(tr: seq<Event>, w: World, delay: int, grace: int,
                       lastAttempt: int, accepted: bool, readings: nat, quits: nat, e: int, reason: string)
    requires Stands(tr, w, delay, grace, lastAttempt, accepted, false, readings, quits)
    requires Unfinished(tr) && e == w.clock(readings + 1) - w.clock(0) && e >= delay + grace
    requires reason == if accepted then LATE_AFTER else LATE_BEFORE
    ensures Stands(tr + [Late(e), Deadline(e, reason)], w, delay, grace, lastAttempt, accepted, true, readings + 1,
            quits)
    ensures !Unfinished(tr + [Late(e), Deadline(e, reason)])
  {
    DeadlineIsOk(tr, w, delay, grace, e, reason);
    ProgressOne(tr, lastAttempt, accepted, false, readings, quits, Late(e));
    ProgressOne(tr + [Late(e)], lastAttempt, accepted, false, readings + 1, quits, Deadline(e, reason));
    assert tr + [Late(e)] + [Deadline(e, reason)] == tr + [Late(e), Deadline(e, reason)];
  }

  ghost predicate Fair(w: World, last: nat) {
    && (forall t, i :: 0 <= i < |w.others(t)| ==> NonEmpty(w.others(t)[i]))
    && (exists i :: 0 <= i < |w.others(last)| && w.others(last)[i].Complete?)
  }

  // The run after other threads have had their t-th turn.
  lemma TurnKeeps(l: Life, w: World, t: nat, last: nat)
    requires Coherent(l) && Fair(w, last)
    ensures var r := ApplyAll(l, w.others(t));
      && Coherent(r) && l.error <= r.error && (r.active ==> l.active) && (t == last ==> !r.active)
  {
    CallsKeep(l, w.others(t));
  }

  // A reason that is in the error text stays there.
  lemma {:induction false} MentionStays(l: Life, ops: seq<Op>, reason: string)
    requires l.error != "" && Found(l.error, reason)
    ensures ApplyAll(l, ops).error != "" && Found(ApplyAll(l, ops).error, reason)
    decreases |ops|
  {
    if ops != [] {
      var r := ReasonOf(ops[0]);
      ErrorOf(l, ops[0]);
      FoundStays(l.error, r, reason);
      MentionStays(Apply(l, ops[0]), ops[1..], reason);
    }
  }

  // Every reported deadline has its reason in the error text.
  ghost predicate Mentioned(tr: seq<Event>, error: string) {
    forall i :: 0 <= i < |tr| && tr[i].Deadline? ==> error != "" && Found(error, tr[i].reason)
  }

  method OthersTurn(run: VmLifecycle, w: World, t: nat, ghost last: nat, ghost tr: seq<Event>)
    requires Coherent(run.State()) && Fair(w, last) && Mentioned(tr, run.error)
    modifies run
    ensures Coherent(run.State()) && old(run.error) <= run.error && Mentioned(tr, run.error)
    ensures (run.active ==> old(run.active)) && (t == last ==> !run.active)
  {
    TurnKeeps(run.State(), w, t, last);
    forall i | 0 <= i < |tr| && tr[i].Deadline?
      ensures ApplyAll(run.State(), w.others(t)).error != ""
              && Found(ApplyAll(run.State(), w.others(t)).error, tr[i].reason)
    {
      MentionStays(run.State(), w.others(t), tr[i].reason);
    }
    run.Others(w.others(t));
  }

  lemma FailMentions(l: Life, reason: string)
    requires reason != ""
    ensures var r := Apply(l, Op.Fail(reason)); r.error != "" && Found(r.error, reason)
  {
    AppendGrows(l.error, reason);
    if l.error == "" {
      var framed := "; " + reason + "; ";
      assert framed[0..|framed|] == framed;
      assert OccursAt(framed, framed, 0);
    } else if !Found(l.error, reason) {
      FoundAtEnd(l.error, reason);
    }
  }

  method ReportLate(run: VmLifecycle, reason: string, ghost tr: seq<Event>)
    requires Coherent(run.State()) && reason != "" && Mentioned(tr, run.error)
    modifies run
    ensures Coherent(run.State()) && old(run.error) <= run.error && run.active == old(run.active)
    ensures run.error != "" && Found(run.error, reason) && Mentioned(tr, run.error)
  {
    CallKeeps(run.State(), Op.Fail(reason));
    FailMentions(run.State(), reason);
    forall i | 0 <= i < |tr| && tr[i].Deadline?
      ensures Found(Apply(run.State(), Op.Fail(reason)).error, tr[i].reason)
    {
      MentionStays(run.State(), [Op.Fail(reason)], tr[i].reason);
      assert [Op.Fail(reason)][1..] == [];
    }
    run.Fail(reason);
  }

  // The deadline part of a turn.
  method CheckDeadline(run: VmLifecycle, w: World, ghost last: nat, delay: int, grace: int, tr: seq<Event>, turn: nat,
                       started: int, ghost lastAttempt: int, accepted: bool, readings: nat, ghost quits: nat)
    returns (trace: seq<Event>, tick: nat, reported: bool)
    requires Coherent(run.State()) && Fair(w, last) && Mentioned(tr, run.error) && run.active && turn < last
    requires Stands(tr, w, delay, grace, lastAttempt, accepted, false, readings, quits) && Unfinished(tr)
    requires started == w.clock(0)
    modifies run
    ensures Coherent(run.State()) && old(run.error) <= run.error && Mentioned(trace, run.error)
    ensures turn <= tick && (tick >= last ==> !run.active)
    ensures Stands(trace, w, delay, grace, lastAttempt, accepted, reported, readings + 1, quits) && !Unfinished(trace)
  {
    tick := turn;
    var late := w.clock(readings + 1) - started;
    reported := late >= delay + grace;
    if reported {
      var reason := if accepted then LATE_AFTER else LATE_BEFORE;
      DeadlineStands(tr, w, delay, grace, lastAttempt, accepted, readings, quits, late, reason);
      // The runner can finish just before the failure is recorded.
      tick := tick + 1;
      OthersTurn(run, w, tick, last, tr);
      ReportLate(run, reason, tr);
      MentionedToo(tr, run.error, late, reason);
      trace := tr + [Late(late), Deadline(late, reason)];
    } else {
      EarlyStands(tr, w, delay, grace, lastAttempt, accepted, readings, quits, late);
      trace := tr + [Late(late)];
    }
  }

  /** WaitForVmStop.  Some other thread eventually completes the run, at the latest at its turn `last`; the watchdog
      returns only when the run is inactive, and up to then goes on turn by turn.  Its trace is disciplined, and
      every deadline that it reports is in the error text, so that the run ends as failed. */
  method WaitForVmStop(run: VmLifecycle, w: World, ghost last: nat, delay: int, grace: int)
    returns (trace: seq<Event>)
    requires Coherent(run.State()) && Fair(w, last)
    modifies run
    ensures !run.active && Coherent(run.State())
    ensures Disciplined(trace, w, delay, grace)
    ensures Mentioned(trace, run.error)
    ensures Reported(trace) ==> run.status == Failed
    ensures old(run.error) <= run.error
  {
    trace := [];
    var tick, readings, quits := 0, 0, 0;
    var started := w.clock(0);
    var lastAttempt := -RETRY_MS;
    var accepted := false;
    var deadlineReported := false;
    OthersTurn(run, w, tick, last, trace);
    while run.active
      invariant Coherent(run.State()) && old(run.error) <= run.error && Mentioned(trace, run.error)
      invariant tick >= last ==> !run.active
      invariant Stands(trace, w, delay, grace, lastAttempt, accepted, deadlineReported, readings, quits)
      invariant Unfinished(trace) ==> deadlineReported
      decreases if run.active then last - tick else 0, run.active
    {
      readings := readings + 1;
      var elapsed := w.clock(readings) - started;
      if !accepted && elapsed >= delay && elapsed - lastAttempt >= RETRY_MS {
        AttemptStands(trace, w, delay, grace, lastAttempt, deadlineReported, readings - 1, quits, elapsed);
        accepted, lastAttempt, quits := w.quit(quits), elapsed, quits + 1;
        trace := trace + [Look(elapsed), Attempt(elapsed, accepted)];
      } else {
        LookStands(trace, w, delay, grace, lastAttempt, accepted, deadlineReported, readings - 1, quits, elapsed);
        trace := trace + [Look(elapsed)];
      }
      // The runner can finish during the QMP exchange.
      tick := tick + 1;
      OthersTurn(run, w, tick, last, trace);
      if !run.active {
        break;
      }
      if !deadlineReported {
        trace, tick, deadlineReported :=
          CheckDeadline(run, w, last, delay, grace, trace, tick, started, lastAttempt, accepted, readings, quits);
        readings := readings + 1;
      }
      // sleep
      tick := tick + 1;
      OthersTurn(run, w, tick, last, trace);
    }
  }

  lemma MentionedToo(tr: seq<Event>, error: string, e: int, reason: string)
    requires Mentioned(tr, error) && error != "" && Found(error, reason)
    ensures Mentioned(tr + [Late(e), Deadline(e, reason)], error)
  {
  }
}
