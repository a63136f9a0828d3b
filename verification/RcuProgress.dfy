/** Progress of util/rcu.c as a whole: from every reachable state, every callback can be brought to run. */
module RcuProgress {
  import opened Prelude
  import opened RcuRuntime
  import G = GracePeriod
  import Q = CallQueue
  import D = CallDrain

  function Last(tr: seq<State>): State
    requires tr != []
  {
    tr[|tr| - 1]
  }

  lemma Extend(w: G.Width, me: G.Tid, tr: seq<State>, l: Label) returns (longer: seq<State>)
    requires Run(w, me, tr) && Enabled(w, me, Last(tr), l)
    ensures Run(w, me, longer) && tr <= longer && |longer| == |tr| + 1 && Last(longer) == Apply(w, me, Last(tr), l)
  {
    longer := tr + [Apply(w, me, Last(tr), l)];
    forall i: nat | i < |longer| - 1 ensures NextAt(w, me, longer, i) {
      if i < |tr| - 1 {
        assert NextAt(w, me, tr, i);
        assert longer[i] == tr[i] && longer[i + 1] == tr[i + 1];
      } else {
        assert Enabled(w, me, longer[i], l) && longer[i + 1] == Apply(w, me, longer[i], l);
      }
    }
  }

  // ---------- The worker is in synchronize_rcu in both machines or in none ----------

  predicate InSync(me: G.Tid, g: G.State) {
    me in g.waiting || (g.sync.Some? && g.sync.value.caller == me)
  }

  predicate SyncInv(me: G.Tid, s: State) {
    s.q.worker.Sync? <==> InSync(me, s.g)
  }

  lemma GraceKeepsSync(w: G.Width, me: G.Tid, g: G.State, l: G.Label)
    requires G.Inv(w, g) && G.Enabled(w, g, l) && l != G.Call(me)
             && !(l.Advance? && g.sync == Some(G.Sync(me, G.Return)))
    ensures InSync(me, G.Apply(w, g, l)) <==> InSync(me, g)
  {
    match l {
      case Load(_) =>
      case Store(_) =>
      case Unlock(_) =>
      case Register(_) =>
      case Unregister(_) =>
      case Call(_) =>
      case Acquire(_) =>
      case Advance =>
      case Stutter =>
    }
  }

  lemma QueueKeepsSync(q: Q.State, l: Q.Label)
    requires Q.Enabled(q, l) && !l.GraceDone? && !(l.Work? && ReadsWork(q))
    ensures Q.Apply(q, l).worker.Sync? <==> q.worker.Sync?
  {
    if l.Work? && q.worker.Dequeue? { DequeueStays(q); }
  }

  lemma DequeueStays(q: Q.State)
    requires Q.Enabled(q, Q.Work) && q.worker.Dequeue?
    ensures !Q.ApplyWork(q).worker.Sync?
  {
  }

  lemma StepKeepsSync(w: G.Width, me: G.Tid, s: State, l: Label)
    requires G.Inv(w, s.g) && SyncInv(me, s) && Enabled(w, me, s, l)
    ensures SyncInv(me, Apply(w, me, s, l))
  {
    match l {
      case Grace(gl) => GraceKeepsSync(w, me, s.g, gl);
      case Queue(ql) => QueueKeepsSync(s.q, ql);
      case EnterSync =>
      case LeaveSync =>
    }
  }

  // What holds of both machines in a run.
  ghost predicate Good(w: G.Width, me: G.Tid, s: State) {
    G.Inv(w, s.g) && Q.Inv(s.q) && D.SignalInv(s.q) && SyncInv(me, s)
  }

  lemma HalvesAreGood(w: G.Width, me: G.Tid, tr: seq<State>, i: nat)
    requires Run(w, me, tr) && i < |tr|
    ensures G.Inv(w, tr[i].g) && Q.Inv(tr[i].q) && D.SignalInv(tr[i].q)
  {
    GracesRun(w, me, tr);
    QueuesRun(w, me, tr);
    G.RunKeepsInv(w, Graces(tr), i);
    Q.RunKeepsInv(Queues(tr), i);
    D.RunKeepsSignal(Queues(tr), i);
  }

  lemma {:induction false} RunIsGood(w: G.Width, me: G.Tid, tr: seq<State>, i: nat)
    requires Run(w, me, tr) && i < |tr|
    ensures Good(w, me, tr[i])
  {
    HalvesAreGood(w, me, tr, i);
    if i > 0 {
      RunIsGood(w, me, tr, i - 1);
      SyncNext(w, me, tr, i - 1);
    }
  }

  lemma SyncNext(w: G.Width, me: G.Tid, tr: seq<State>, i: nat)
    requires Run(w, me, tr) && i + 1 < |tr| && G.Inv(w, tr[i].g) && SyncInv(me, tr[i])
    ensures SyncInv(me, tr[i + 1])
  {
    assert NextAt(w, me, tr, i);
    var l :| Enabled(w, me, tr[i], l) && tr[i + 1] == Apply(w, me, tr[i], l);
    StepKeepsSync(w, me, tr[i], l);
  }

  // ---------- The worker's grace period completes ----------

  // The steps of the grace-period machine from position i on, taken in the whole, up to the return of the worker's
  // call.
  lemma {:induction false} Lift(w: G.Width, me: G.Tid, tr: seq<State>, gs: seq<G.State>, i: nat)
      returns (longer: seq<State>)
    requires Run(w, me, tr) && G.Run(w, gs) && 0 < i <= |gs| && gs[i - 1] == Last(tr).g
    requires forall k: nat :: i <= k < |gs| ==> G.GoesOnAt(w, gs, k, true)
    ensures Run(w, me, longer) && tr <= longer && Last(longer).q == Last(tr).q
    ensures Last(longer).g == gs[|gs| - 1] || Last(longer).g.sync == Some(G.Sync(me, G.Return))
    decreases |gs| - i
  {
    longer := tr;
    if i < |gs| && Last(tr).g.sync != Some(G.Sync(me, G.Return)) {
      assert G.GoesOnAt(w, gs, i, true);
      var l: G.Label :| (l.Advance? || l.Unlock?) && G.Enabled(w, gs[i - 1], l) && gs[i] == G.Apply(w, gs[i - 1], l);
      var next := Extend(w, me, tr, Grace(l));
      longer := Lift(w, me, next, gs, i + 1);
    }
  }

  // The call that is going on comes to its return.
  lemma HolderReturns(w: G.Width, me: G.Tid, tr: seq<State>) returns (longer: seq<State>)
    requires Run(w, me, tr) && Last(tr).g.sync.Some?
    ensures Run(w, me, longer) && tr <= longer && Last(longer).q == Last(tr).q
    ensures Last(longer).g.sync == Some(G.Sync(Last(tr).g.sync.value.caller, G.Return))
            || Last(longer).g.sync == Some(G.Sync(me, G.Return))
  {
    GracesRun(w, me, tr);
    var gs := Graces(tr);
    var more := G.GracePeriodCompletes(w, gs);
    assert gs[|gs| - 1] == more[|gs| - 1];
    forall k: nat | |gs| <= k < |more| ensures G.GoesOnAt(w, more, k, true) {}
    longer := Lift(w, me, tr, more, |gs|);
  }

  // The worker's own call comes to its return.
  lemma WorkersReturn(w: G.Width, me: G.Tid, tr: seq<State>) returns (longer: seq<State>)
    requires Run(w, me, tr) && Last(tr).q.worker.Sync?
    ensures Run(w, me, longer) && tr <= longer && Last(longer).q == Last(tr).q
    ensures Last(longer).g.sync == Some(G.Sync(me, G.Return))
  {
    RunIsGood(w, me, tr, |tr| - 1);
    if Last(tr).g.sync.Some? {
      longer := HolderReturns(w, me, tr);
      if Last(longer).g.sync.value.caller != me {
        longer := Extend(w, me, longer, Grace(G.Advance));
        longer := WaiterReturns(w, me, longer);
      }
    } else {
      longer := WaiterReturns(w, me, tr);
    }
  }

  lemma WaiterReturns(w: G.Width, me: G.Tid, tr: seq<State>) returns (longer: seq<State>)
    requires Run(w, me, tr) && Last(tr).q.worker.Sync? && Last(tr).g.sync.None?
    ensures Run(w, me, longer) && tr <= longer && Last(longer).q == Last(tr).q
    ensures Last(longer).g.sync == Some(G.Sync(me, G.Return))
  {
    RunIsGood(w, me, tr, |tr| - 1);
    longer := Extend(w, me, tr, Grace(G.Acquire(me)));
    longer := HolderReturns(w, me, longer);
  }

  // ---------- Every callback runs ----------

  lemma {:induction false} SettleOne(w: G.Width, me: G.Tid, tr: seq<State>, p: Q.Tid) returns (longer: seq<State>)
    requires Run(w, me, tr) && p in Last(tr).q.producers
    ensures Run(w, me, longer) && tr <= longer && Last(longer).q.producers.Keys == Last(tr).q.producers.Keys
    ensures D.Settled(Last(longer).q.producers[p])
    ensures forall r :: r in Last(tr).q.producers && r != p ==> Last(longer).q.producers[r] == Last(tr).q.producers[r]
    decreases D.ProducerRank(Last(tr).q.producers[p])
  {
    longer := tr;
    if !D.Settled(Last(tr).q.producers[p]) {
      D.ProducerGoesOn(Last(tr).q, p);
      var next := Extend(w, me, tr, Queue(Q.Produce(p)));
      longer := SettleOne(w, me, next, p);
    }
  }

  lemma {:induction false} SettleAll(w: G.Width, me: G.Tid, tr: seq<State>) returns (longer: seq<State>)
    requires Run(w, me, tr)
    ensures Run(w, me, longer) && tr <= longer && D.Unsettled(Last(longer).q) == {}
    ensures Last(longer).q.producers.Keys == Last(tr).q.producers.Keys
    decreases |D.Unsettled(Last(tr).q)|
  {
    longer := tr;
    if D.Unsettled(Last(tr).q) != {} {
      var p :| p in D.Unsettled(Last(tr).q);
      var next := SettleOne(w, me, tr, p);
      assert D.Unsettled(Last(next).q) == D.Unsettled(Last(tr).q) - {p};
      longer := SettleAll(w, me, next);
    }
  }

  lemma WorkerSyncs(w: G.Width, me: G.Tid, tr: seq<State>) returns (longer: seq<State>)
    requires Run(w, me, tr) && Last(tr).q.worker.Sync?
    ensures Run(w, me, longer) && tr <= longer && Last(longer).q == Q.Apply(Last(tr).q, Q.GraceDone)
  {
    longer := WorkersReturn(w, me, tr);
    longer := Extend(w, me, longer, LeaveSync);
  }

  lemma WorkerWorks(w: G.Width, me: G.Tid, tr: seq<State>) returns (longer: seq<State>)
    requires Run(w, me, tr) && Q.Enabled(Last(tr).q, Q.Work)
    ensures Run(w, me, longer) && tr <= longer && Last(longer).q == Q.Apply(Last(tr).q, Q.Work)
  {
    RunIsGood(w, me, tr, |tr| - 1);
    longer := Extend(w, me, tr, if ReadsWork(Last(tr).q) then EnterSync else Queue(Q.Work));
  }

  // The next step of the worker, with a whole grace period where it needs one.
  lemma WorkerGoesOn(w: G.Width, me: G.Tid, tr: seq<State>) returns (longer: seq<State>)
    requires Run(w, me, tr) && D.Unsettled(Last(tr).q) == {} && !D.AllFinished(Last(tr).q)
    ensures Run(w, me, longer) && tr <= longer
    ensures Q.Inv(Last(tr).q) && Q.Inv(Last(longer).q) && D.Nearer(Last(tr).q, Last(longer).q)
  {
    HalvesAreGood(w, me, tr, |tr| - 1);
    D.WorkNearer(Last(tr).q);
    Q.StepKeepsInv(Last(tr).q, D.WorkLabel(Last(tr).q));
    if Last(tr).q.worker.Sync? { longer := WorkerSyncs(w, me, tr); } else { longer := WorkerWorks(w, me, tr); }
  }

  lemma {:induction false} FinishAll(w: G.Width, me: G.Tid, tr: seq<State>) returns (longer: seq<State>)
    requires Run(w, me, tr) && D.Unsettled(Last(tr).q) == {}
    requires Last(tr).q.finished <= |Last(tr).q.enqueued|
    ensures Run(w, me, longer) && tr <= longer && D.AllFinished(Last(longer).q)
    ensures Last(longer).q.producers == Last(tr).q.producers
    decreases |Last(tr).q.enqueued| - Last(tr).q.finished, D.WorkerRank(Last(tr).q.worker)
  {
    longer := tr;
    if !D.AllFinished(Last(tr).q) {
      var next := WorkerGoesOn(w, me, tr);
      D.FinishedFits(Last(next).q);
      longer := FinishAll(w, me, next);
    }
  }

  lemma {:induction false} ReturnAll(w: G.Width, me: G.Tid, tr: seq<State>) returns (longer: seq<State>)
    requires Run(w, me, tr) && D.Unsettled(Last(tr).q) == {} && D.AllFinished(Last(tr).q)
    ensures Run(w, me, longer) && tr <= longer && D.AllFinished(Last(longer).q)
    ensures D.Unsettled(Last(longer).q) == {} && D.Awaiting(Last(longer).q) == {}
    ensures Last(longer).q.producers.Keys == Last(tr).q.producers.Keys
    decreases |D.Awaiting(Last(tr).q)|
  {
    longer := tr;
    if D.Awaiting(Last(tr).q) != {} {
      var p :| p in D.Awaiting(Last(tr).q);
      var next := ReturnOne(w, me, tr, p);
      longer := ReturnAll(w, me, next);
    }
  }

  lemma ReturnOne(w: G.Width, me: G.Tid, tr: seq<State>, p: Q.Tid) returns (longer: seq<State>)
    requires Run(w, me, tr) && D.Unsettled(Last(tr).q) == {} && D.AllFinished(Last(tr).q) && p in D.Awaiting(Last(tr).q)
    ensures Run(w, me, longer) && tr <= longer && D.AllFinished(Last(longer).q) && D.Unsettled(Last(longer).q) == {}
    ensures D.Awaiting(Last(longer).q) == D.Awaiting(Last(tr).q) - {p}
    ensures Last(longer).q.producers.Keys == Last(tr).q.producers.Keys
  {
    QueuesRun(w, me, tr);
    D.DrainReturnsIff(Queues(tr), |tr| - 1, p);
    HalvesAreGood(w, me, tr, |tr| - 1);
    assert Q.HoldOk(Last(tr).q, p);
    D.StillSettled(Last(tr).q, p);
    longer := Extend(w, me, tr, Queue(Q.Produce(p)));
  }

  /** The whole never gets stuck: every run of the two machines together extends to one in which every callback that was
      enqueued has run, after its grace period, and every call of call_rcu and drain_call_rcu has returned. */
  lemma EveryCallbackRuns(w: G.Width, me: G.Tid, tr: seq<State>) returns (longer: seq<State>)
    requires Run(w, me, tr)
    ensures Run(w, me, longer) && tr <= longer
    ensures Last(longer).q.finished == |Last(longer).q.dequeued| == |Last(longer).q.enqueued|
    ensures forall p :: p in Last(tr).q.producers ==>
              p in Last(longer).q.producers && Last(longer).q.producers[p].Idle?
  {
    longer := SettleAll(w, me, tr);
    HalvesAreGood(w, me, longer, |longer| - 1);
    D.FinishedFits(Last(longer).q);
    longer := FinishAll(w, me, longer);
    longer := ReturnAll(w, me, longer);
    AllIdle(Last(longer).q);
  }

  lemma AllIdle(q: Q.State)
    requires D.Unsettled(q) == {} && D.Awaiting(q) == {}
    ensures forall p :: p in q.producers ==> q.producers[p].Idle?
  {
    forall p | p in q.producers ensures q.producers[p].Idle? { assert p !in D.Unsettled(q) && p !in D.Awaiting(q); }
  }
}
