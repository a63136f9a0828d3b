/**
  util/rcu.c as a whole: the grace-period machine and the call_rcu machine run side by side, and the
  worker's synchronize_rcu is the call that joins them.  The result is the promise of call_rcu:
  a callback runs only after every reader that could still see the retired object has left.
 */
module RcuRuntime {
  import opened Prelude
  import G = GracePeriod
  import Q = CallQueue

  datatype State = State(g: G.State, q: Q.State)

  datatype Label =
    | Grace(gl: G.Label)      // a reader, a registration, or somebody's synchronize_rcu
    | Queue(ql: Q.Label)      // a producer, or the worker outside synchronize_rcu
    | EnterSync              // the worker reads a non-zero count and calls synchronize_rcu
    | LeaveSync              // the worker's synchronize_rcu returns

  predicate ReadsWork(q: Q.State) {
    q.worker.ReadCount? && q.count != 0
  }

  // `me` is the call_rcu thread.
  predicate Enabled(w: G.Width, me: G.Tid, s: State, l: Label) {
    match l
    case Grace(gl) => G.Enabled(w, s.g, gl) && gl != G.Call(me)
                      && !(gl.Advance? && s.g.sync == Some(G.Sync(me, G.Return)))
    case Queue(ql) => Q.Enabled(s.q, ql) && !ql.GraceDone? && !(ql.Work? && ReadsWork(s.q))
    case EnterSync => ReadsWork(s.q) && Q.Enabled(s.q, Q.Work) && G.Enabled(w, s.g, G.Call(me))
    case LeaveSync => s.q.worker.Sync? && s.g.sync == Some(G.Sync(me, G.Return))
  }

  function Apply(w: G.Width, me: G.Tid, s: State, l: Label): State
    requires Enabled(w, me, s, l)
  {
    match l
    case Grace(gl) => s.(g := G.Apply(w, s.g, gl))
    case Queue(ql) => s.(q := Q.Apply(s.q, ql))
    case EnterSync => State(G.Apply(w, s.g, G.Call(me)), Q.Apply(s.q, Q.Work))
    case LeaveSync => State(G.Apply(w, s.g, G.Advance), Q.Apply(s.q, Q.GraceDone))
  }

  ghost predicate Next(w: G.Width, me: G.Tid, s: State, s': State) {
    exists l :: Enabled(w, me, s, l) && s' == Apply(w, me, s, l)
  }

  ghost predicate NextAt(w: G.Width, me: G.Tid, tr: seq<State>, i: nat)
    requires i < |tr| - 1
  {
    Next(w, me, tr[i], tr[i + 1])
  }

  ghost predicate Run(w: G.Width, me: G.Tid, tr: seq<State>) {
    && tr != [] && G.Init(tr[0].g) && Q.Init(tr[0].q)
    && forall i :: 0 <= i < |tr| - 1 ==> NextAt(w, me, tr, i)
  }

  // ---------- Each half of a run is a run ----------

  function Graces(tr: seq<State>): seq<G.State> {
    seq(|tr|, i requires 0 <= i < |tr| => tr[i].g)
  }

  function Queues(tr: seq<State>): seq<Q.State> {
    seq(|tr|, i requires 0 <= i < |tr| => tr[i].q)
  }

  lemma GraceStep(w: G.Width, me: G.Tid, s: State, s': State)
    requires Next(w, me, s, s')
    ensures G.Next(w, s.g, s'.g)
  {
    var l :| Enabled(w, me, s, l) && s' == Apply(w, me, s, l);
    match l {
      case Grace(gl) =>
      case Queue(_) => assert G.Enabled(w, s.g, G.Stutter);
      case EnterSync => assert G.Enabled(w, s.g, G.Call(me));
      case LeaveSync => assert G.Enabled(w, s.g, G.Advance);
    }
  }

  lemma QueueStep(w: G.Width, me: G.Tid, s: State, s': State)
    requires Next(w, me, s, s')
    ensures Q.Next(s.q, s'.q)
  {
    var l :| Enabled(w, me, s, l) && s' == Apply(w, me, s, l);
    match l {
      case Grace(_) => assert Q.Enabled(s.q, Q.Stutter);
      case Queue(ql) =>
      case EnterSync => assert Q.Enabled(s.q, Q.Work);
      case LeaveSync => assert Q.Enabled(s.q, Q.GraceDone);
    }
  }

  lemma GracesRun(w: G.Width, me: G.Tid, tr: seq<State>)
    requires Run(w, me, tr)
    ensures G.Run(w, Graces(tr))
  {
    forall i | 0 <= i < |Graces(tr)| - 1 ensures G.NextAt(w, Graces(tr), i) {
      assert NextAt(w, me, tr, i);
      GraceStep(w, me, tr[i], tr[i + 1]);
    }
  }

  lemma QueuesRun(w: G.Width, me: G.Tid, tr: seq<State>)
    requires Run(w, me, tr)
    ensures Q.Run(Queues(tr))
  {
    forall i | 0 <= i < |Queues(tr)| - 1 ensures Q.NextAt(Queues(tr), i) {
      assert NextAt(w, me, tr, i);
      QueueStep(w, me, tr[i], tr[i + 1]);
    }
  }

  // ---------- The worker's grace period ----------

  // Leaving the Sync point takes the return of the worker's own synchronize_rcu; reaching it is the call.
  lemma SyncEdges(w: G.Width, me: G.Tid, s: State, s': State)
    requires Next(w, me, s, s')
    ensures s.q.worker.ReadCount? && s'.q.worker.Sync? ==> me in s'.g.waiting
    ensures s.q.worker.Sync? && !s'.q.worker.Sync? ==> s.g.sync == Some(G.Sync(me, G.Return))
  {
  }

  lemma FlipsGrow(w: G.Width, gs: seq<G.State>, i: nat, j: nat)
    requires G.Run(w, gs) && i <= j < |gs|
    ensures gs[i].flips <= gs[j].flips
    decreases j - i
  {
    if i < j {
      FlipsGrow(w, gs, i, j - 1);
      var l := G.LabelOf(w, gs, j);
    }
  }

  /** The promise of call_rcu.  Take any moment `i` before the t-th callback is enqueued and any
      moment `j` at which that callback is about to run or running: no reader that was inside a
      critical section at `i` is still inside it at `j`. */
  lemma CallbackRunsAfterReaders(w: G.Width, me: G.Tid, tr: seq<State>, i: nat, j: nat, t: nat, r: G.Tid)
    requires Run(w, me, tr) && i < j < |tr|
    requires |tr[i].q.enqueued| <= t
    requires Q.InCallback(tr[j].q.worker) && |tr[j].q.dequeued| == t + 1
    requires w == G.Long64 && r in tr[j].g.readers ==> tr[j].g.flips - tr[j].g.readers[r].era < G.TWO_63
    ensures !G.SameSection(tr[i].g, tr[j].g, r)
  {
    GracesRun(w, me, tr); QueuesRun(w, me, tr);
    var gs, qs := Graces(tr), Queues(tr);
    var m, e := Q.BatchOrigin(qs, j);
    if m <= i { Q.LogsGrow(qs, m, i); }
    assert i < m;
    assert NextAt(w, me, tr, m - 1) && NextAt(w, me, tr, e);
    SyncEdges(w, me, tr[m - 1], tr[m]);
    assert qs[e].worker.Sync? && !qs[e + 1].worker.Sync?;
    SyncEdges(w, me, tr[e], tr[e + 1]);
    FlipsGrow(w, gs, e, j);
    if G.SameSection(gs[i], gs[j], r) {
      G.SameSectionBetween(w, gs, i, m, j, r);
      G.SameSectionBetween(w, gs, m, e, j, r);
      G.SectionHasOneEra(w, gs, e, j, r);
      G.GracePeriodSafe(w, gs, m, e, me, r);
    }
  }
}
