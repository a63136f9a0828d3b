/** Progress of the call_rcu queue: every callback can be brought to run, with its own function, and drain_call_rcu
    to return. */
module CallDrain {
  import opened Prelude
  import opened CallQueue

  // ---------- A drain callback signals its drainer ----------

  // What the worker knows of a drainer's node, and the drainer of the worker.
  ghost predicate SignalOk(s: State, p: Tid)
    requires p in s.producers
  {
    var pc := s.producers[p];
    && (Preparing(pc) ==> FuncOf(s, pc.node) == pc.func)
    && (JobOf(pc).Draining? ==>
          var x, t := JobOf(pc).node, JobOf(pc).ticket;
          && FuncOf(s, x) == Drain
          && (t < s.finished ==> x in s.complete)
          && (s.worker.Running? && t == s.finished ==> s.worker.func.Drain? && s.worker.node == x))
  }

  ghost predicate SignalInv(s: State) {
    forall p {:trigger SignalOk(s, p)} :: p in s.producers ==> SignalOk(s, p)
  }

  lemma HoldsItsNode(s: State, p: Tid)
    requires p in s.producers && HoldOk(s, p) && (Preparing(s.producers[p]) || JobOf(s.producers[p]).Draining?)
    ensures Holds(s.producers[p], if Preparing(s.producers[p]) then s.producers[p].node else JobOf(s.producers[p]).node)
  {
  }

  lemma BeginKeepsSignal(s: State, l: Label, q: Tid)
    requires DrainInv(s) && SignalInv(s) && l.Begin? && Enabled(s, l) && q in s.producers
    ensures SignalOk(Apply(s, l), q)
  {
    assert HoldOk(s, q) && SignalOk(s, q);
    if q != l.p && (Preparing(s.producers[q]) || JobOf(s.producers[q]).Draining?) {
      HoldsItsNode(s, q);
      assert !Holds(s.producers[q], l.node);
    }
  }

  lemma ProduceKeepsSignal(s: State, p: Tid, q: Tid)
    requires SignalInv(s) && BatchOk(s) && OrderInv(s) && Enabled(s, Produce(p)) && q in s.producers
    ensures SignalOk(ApplyProduce(s, p), q)
  {
    assert SignalOk(s, q);
  }

  lemma WorkKeepsSignal(s: State, q: Tid)
    requires SignalInv(s) && DrainInv(s) && BatchOk(s) && OrderInv(s) && Enabled(s, Work) && q in s.producers
    ensures SignalOk(ApplyWork(s), q)
  {
    assert SignalOk(s, q) && HoldOk(s, q);
    if s.worker.Invoke? && JobOf(s.producers[q]).Draining? && JobOf(s.producers[q]).ticket == s.finished {
      assert s.enqueued[s.finished] == s.dequeued[s.finished];
    }
  }

  lemma StepKeepsSignal(s: State, l: Label)
    requires Inv(s) && SignalInv(s) && Enabled(s, l)
    ensures SignalInv(Apply(s, l))
  {
    var s' := Apply(s, l);
    forall q | q in s'.producers ensures SignalOk(s', q) {
      match l {
        case Begin(_, _, _) => BeginKeepsSignal(s, l, q);
        case Produce(p) => ProduceKeepsSignal(s, p, q);
        case Work => WorkKeepsSignal(s, q);
        case GraceDone => assert SignalOk(s, q);
        case Stutter => assert SignalOk(s, q);
      }
    }
  }

  lemma {:induction false} RunKeepsSignal(tr: seq<State>, i: nat)
    requires Run(tr) && i < |tr|
    ensures SignalInv(tr[i])
  {
    if i > 0 {
      RunKeepsSignal(tr, i - 1);
      var l := LabelOf(tr, i);
      StepKeepsSignal(tr[i - 1], l);
    }
  }

  /** drain_call_rcu may return exactly when its own callback, and with it every earlier one, has finished. */
  lemma DrainReturnsIff(tr: seq<State>, i: nat, p: Tid)
    requires Run(tr) && i < |tr| && p in tr[i].producers && tr[i].producers[p].Await?
    ensures tr[i].producers[p].job.Draining?
    ensures Enabled(tr[i], Produce(p)) <==> tr[i].producers[p].job.ticket < tr[i].finished
  {
    RunKeepsInv(tr, i);
    RunKeepsSignal(tr, i);
    assert HoldOk(tr[i], p) && SignalOk(tr[i], p);
  }

  // ---------- A callback runs its own function ----------

  // The t-th callback is `node`, and as long as it has not finished its function is `func`.
  ghost predicate Carries(s: State, t: nat, node: Node, func: Func) {
    && t < |s.enqueued| && s.enqueued[t] == node
    && (t >= |s.dequeued| || (t + 1 == |s.dequeued| && s.worker.Invoke?) ==> FuncOf(s, node) == func)
    && (s.worker.Running? && s.finished == t ==> s.worker.node == node && s.worker.func == func)
  }

  lemma CarriesNode(s: State, t: nat)
    requires Inv(s) && t < |s.dequeued|
    ensures s.dequeued[t] == s.enqueued[t]
    ensures t + 1 == |s.dequeued| && (s.worker.Invoke? || s.worker.Running?) ==>
            s.worker.node == s.enqueued[t] && s.finished == t
  {
  }

  lemma BusyUntilRun(s: State, t: nat)
    requires Inv(s) && t < |s.enqueued|
    requires t >= |s.dequeued| || (t + 1 == |s.dequeued| && s.worker.Invoke?)
    ensures Busy(s, s.enqueued[t])
  {
    if t >= |s.dequeued| { PendingIsQueued(s, t); } else { CarriesNode(s, t); }
  }

  lemma StepCarries(s: State, l: Label, t: nat, node: Node, func: Func)
    requires Inv(s) && Enabled(s, l) && Carries(s, t, node, func)
    ensures Carries(Apply(s, l), t, node, func)
  {
    match l {
      case Begin(_, x, _) =>
        if t >= |s.dequeued| || (t + 1 == |s.dequeued| && s.worker.Invoke?) { BusyUntilRun(s, t); }
      case Produce(p) =>
      case Work => WorkCarries(s, t, node, func);
      case GraceDone =>
      case Stutter =>
    }
  }

  lemma WorkCarries(s: State, t: nat, node: Node, func: Func)
    requires Inv(s) && Enabled(s, Work) && Carries(s, t, node, func)
    ensures Carries(ApplyWork(s), t, node, func)
  {
    StepKeepsInv(s, Work);
    if t < |s.dequeued| { CarriesNode(s, t); }
  }

  lemma {:induction false} RunCarries(tr: seq<State>, a: nat, b: nat, t: nat, node: Node, func: Func)
    requires Run(tr) && a <= b < |tr| && Carries(tr[a], t, node, func)
    ensures Carries(tr[b], t, node, func)
    decreases b
  {
    if a < b {
      RunCarries(tr, a, b - 1, t, node, func);
      var l := LabelOf(tr, b);
      StepCarries(tr[b - 1], l, t, node, func);
    }
  }

  // At position a of the run the producer makes its exchange.
  ghost predicate ExchangesAt(tr: seq<State>, a: nat, p: Tid) {
    && a + 1 < |tr| && p in tr[a].producers && tr[a].producers[p].Exchange?
    && Enabled(tr[a], Produce(p)) && tr[a + 1] == Apply(tr[a], Produce(p))
  }

  /** Of every exchange: when its turn comes, its node is called with the function it was enqueued with, whoever
      has reused which nodes in between. */
  lemma RunsItsFunction(tr: seq<State>, a: nat, b: nat, p: Tid)
    requires Run(tr) && ExchangesAt(tr, a, p) && a < b < |tr|
    requires tr[b].worker.Running? && tr[b].finished == |tr[a].enqueued|
    ensures tr[b].worker.node == tr[a].producers[p].node && tr[b].worker.func == tr[a].producers[p].func
  {
    var s, t := tr[a], |tr[a].enqueued|;
    RunKeepsInv(tr, a);
    RunKeepsSignal(tr, a);
    assert SignalOk(s, p);
    RunCarries(tr, a + 1, b, t, s.producers[p].node, s.producers[p].func);
  }

  // ---------- Everything that was enqueued can be brought to run ----------

  function Last(tr: seq<State>): State
    requires tr != []
  {
    tr[|tr| - 1]
  }

  lemma Extend(tr: seq<State>, l: Label) returns (longer: seq<State>)
    requires Run(tr) && Enabled(Last(tr), l)
    ensures Run(longer) && tr <= longer && |longer| == |tr| + 1 && Last(longer) == Apply(Last(tr), l)
  {
    longer := tr + [Apply(Last(tr), l)];
    forall i: nat | i < |longer| - 1 ensures NextAt(longer, i) {
      if i < |tr| - 1 {
        assert NextAt(tr, i);
        assert Next(tr[i], tr[i + 1]) && longer[i] == tr[i] && longer[i + 1] == tr[i + 1];
      } else {
        assert Enabled(longer[i], l) && longer[i + 1] == Apply(longer[i], l);
      }
    }
  }

  // The producer has nothing left to do but to wait for its drain callback.
  predicate Settled(pc: Producer) {
    pc.Idle? || pc.Await?
  }

  function Unsettled(s: State): set<Tid> {
    set p | p in s.producers && !Settled(s.producers[p])
  }

  function ProducerRank(pc: Producer): nat {
    match pc
    case Clear(_, _) => 5
    case Exchange(_, _) => 4
    case Link(_, _, _, _) => 3
    case Count(_) => 2
    case Notify(_) => 1
    case _ => 0
  }

  lemma {:induction false} SettleOne(tr: seq<State>, p: Tid) returns (longer: seq<State>)
    requires Run(tr) && p in Last(tr).producers
    ensures Run(longer) && tr <= longer && p in Last(longer).producers && Settled(Last(longer).producers[p])
    ensures Last(longer).producers.Keys == Last(tr).producers.Keys
    ensures forall q :: q in Last(tr).producers && q != p ==> Last(longer).producers[q] == Last(tr).producers[q]
    decreases ProducerRank(Last(tr).producers[p])
  {
    longer := tr;
    if !Settled(Last(tr).producers[p]) {
      var next := Extend(tr, Produce(p));
      ProducerGoesOn(Last(tr), p);
      longer := SettleOne(next, p);
    }
  }

  lemma ProducerGoesOn(s: State, p: Tid)
    requires p in s.producers && !Settled(s.producers[p])
    ensures Enabled(s, Produce(p))
    ensures var s' := ApplyProduce(s, p);
      && p in s'.producers && ProducerRank(s'.producers[p]) < ProducerRank(s.producers[p])
      && forall q :: q in s.producers && q != p ==> s'.producers[q] == s.producers[q]
  {
  }

  lemma {:induction false} SettleAll(tr: seq<State>) returns (longer: seq<State>)
    requires Run(tr)
    ensures Run(longer) && tr <= longer && Unsettled(Last(longer)) == {}
    ensures Last(longer).producers.Keys == Last(tr).producers.Keys
    decreases |Unsettled(Last(tr))|
  {
    longer := tr;
    if Unsettled(Last(tr)) != {} {
      var p :| p in Unsettled(Last(tr));
      var next := SettleOne(tr, p);
      assert Unsettled(Last(next)) == Unsettled(Last(tr)) - {p};
      longer := SettleAll(next);
    }
  }

  // The worker has finished all that was ever enqueued.
  predicate AllFinished(s: State) {
    s.finished == |s.dequeued| == |s.enqueued|
  }

  // How far the worker is from finishing one more callback.
  function WorkerRank(w: Worker): nat {
    match w
    case WaitCount => 17
    case Reset => 16
    case ReadCount => 15
    case Sync(_) => 14
    case Subtract(_) => 13
    case Loop(n) => if n > 0 then 12 else 17
    case ResetAgain(_) => 12
    case WaitNode(_) => 12
    case Dequeue(_, _, deq) =>
      (match deq
       case LoadNext(retried) => if retried then 5 else 11
       case CheckEmpty(retried, _) => if retried then 4 else 10
       case Advance(retried, _) => if retried then 3 else 9
       case ClearDummy => 8
       case ExchangeDummy => 7
       case LinkDummy(_, _) => 6)
    case Invoke(_, _) => 2
    case Running(_, _, _) => 1
    case Aborted => 0
  }

  lemma NothingUncounted(s: State)
    requires Unsettled(s) == {}
    ensures Uncounted(s) == {}
    ensures !SomeNotify(s) && !SomeCountOrNotify(s)
  {
    forall p | p in s.producers ensures Settled(s.producers[p]) { assert p !in Unsettled(s); }
  }

  lemma LastIsDummy(s: State)
    requires Inv(s) && s.hd + 1 == |s.chain| && s.dm >= s.hd
    ensures s.dequeued == s.enqueued
  {
    assert s.chain[s.hd..] == [s.chain[s.dm]];
    assert Callbacks([s.chain[s.dm]]) == [];
  }

  lemma NobodyLinks(s: State, pos: nat)
    requires Unsettled(s) == {} && pos < |s.chain| && !(s.worker.Dequeue? && s.worker.deq.LinkDummy?)
    ensures !InFlight(s, pos)
  {
    match s.chain[pos].who {
      case ByProducer(p) => assert p !in Unsettled(s);
      case ByWorker =>
    }
  }

  // With no producer between its exchange and its store, a head without successor means an empty queue.
  lemma NextIsThere(s: State)
    requires Inv(s) && Unsettled(s) == {} && |s.dequeued| < |s.enqueued|
    requires s.worker.WaitNode? || s.worker.ResetAgain? || (s.worker.Dequeue? && s.worker.deq.LoadNext?)
    ensures NextOf(s, s.head).Some?
  {
    if s.hd + 1 == |s.chain| { LastIsDummy(s); }
    NobodyLinks(s, s.hd + 1);
    assert LinkedAt(s, s.hd + 1);
  }

  // What the worker owes is there to be dequeued.
  lemma OwedIsThere(s: State)
    requires Inv(s) && Unsettled(s) == {}
    ensures |s.enqueued| == |s.dequeued| + s.count + Owed(s.worker)
    ensures s.worker.Dequeue? || s.worker.ResetAgain? || s.worker.WaitNode? ==> |s.dequeued| < |s.enqueued|
  {
    NothingUncounted(s);
  }

  // The next step of the worker.
  function WorkLabel(s: State): Label {
    if s.worker.Sync? then GraceDone else Work
  }

  lemma WorkerCanWork(s: State)
    requires Inv(s) && Unsettled(s) == {} && !AllFinished(s)
    ensures Enabled(s, WorkLabel(s))
  {
    OwedIsThere(s);
    NothingUncounted(s);
    if s.worker.WaitNode? { NextIsThere(s); }
  }

  // The worker finishes a callback, or comes nearer to that.
  ghost predicate Nearer(s: State, s': State) {
    && s'.producers == s.producers && s'.enqueued == s.enqueued && s.finished <= s'.finished
    && (s'.finished > s.finished || WorkerRank(s'.worker) < WorkerRank(s.worker))
  }

  lemma DequeueNearer(s: State)
    requires Inv(s) && Unsettled(s) == {} && s.worker.Dequeue?
    ensures Nearer(s, ApplyWork(s))
  {
    OwedIsThere(s);
    match s.worker.deq {
      case LoadNext(_) => NextIsThere(s); LoadNearer(s);
      case CheckEmpty(_, _) => AbortUnreachable(s); CheckNearer(s);
      case Advance(retried, _) => if retried { RetriedHeadIsCallback(s); } AdvanceNearer(s);
      case ClearDummy => DummyNearer(s);
      case ExchangeDummy => DummyNearer(s);
      case LinkDummy(_, _) => DummyNearer(s);
    }
  }

  lemma LoadNearer(s: State)
    requires s.worker.Dequeue? && s.worker.deq.LoadNext? && NextOf(s, s.head).Some?
    ensures Nearer(s, ApplyWork(s))
  {
  }

  lemma CheckNearer(s: State)
    requires s.worker.Dequeue? && s.worker.deq.CheckEmpty? && !(s.head == DUMMY && s.tail == DUMMY)
    ensures Nearer(s, ApplyWork(s))
  {
  }

  lemma AdvanceNearer(s: State)
    requires s.worker.Dequeue? && s.worker.deq.Advance? && (s.worker.deq.retried ==> s.head != DUMMY)
    ensures Nearer(s, ApplyWork(s))
  {
  }

  lemma DummyNearer(s: State)
    requires s.worker.Dequeue? && (s.worker.deq.ClearDummy? || s.worker.deq.ExchangeDummy? || s.worker.deq.LinkDummy?)
    ensures Nearer(s, ApplyWork(s))
  {
  }

  lemma RetriedHeadIsCallback(s: State)
    requires Inv(s) && s.worker.Dequeue? && s.worker.deq.Advance? && s.worker.deq.retried
    ensures s.head != DUMMY
  {
  }

  lemma CountNearer(s: State)
    requires s.worker.Reset? || s.worker.ReadCount? || s.worker.WaitCount? || s.worker.Subtract? || s.worker.Loop?
    requires Enabled(s, Work) && (s.worker.ReadCount? ==> s.count != 0) && (s.worker.Subtract? ==> s.worker.n > 0)
    ensures Nearer(s, ApplyWork(s))
  {
  }

  lemma CallNearer(s: State)
    requires s.worker.ResetAgain? || s.worker.WaitNode? || s.worker.Invoke? || s.worker.Running?
    requires Enabled(s, Work)
    ensures Nearer(s, ApplyWork(s))
  {
  }

  lemma LoopNearer(s: State)
    requires Inv(s) && Unsettled(s) == {} && !AllFinished(s) && !s.worker.Dequeue? && !s.worker.Sync?
             && Enabled(s, Work)
    ensures Nearer(s, ApplyWork(s))
  {
    OwedIsThere(s);
    if s.worker.ResetAgain? || s.worker.WaitNode? || s.worker.Invoke? || s.worker.Running? {
      CallNearer(s);
    } else {
      CountNearer(s);
    }
  }

  lemma WorkNearer(s: State)
    requires Inv(s) && Unsettled(s) == {} && !AllFinished(s)
    ensures Enabled(s, WorkLabel(s)) && Nearer(s, Apply(s, WorkLabel(s)))
  {
    WorkerCanWork(s);
    if s.worker.Dequeue? { DequeueNearer(s); } else if !s.worker.Sync? { LoopNearer(s); }
  }

  lemma {:induction false} FinishAll(tr: seq<State>) returns (longer: seq<State>)
    requires Run(tr) && Unsettled(Last(tr)) == {}
    ensures Run(longer) && tr <= longer && AllFinished(Last(longer)) && Last(longer).producers == Last(tr).producers
    decreases |Last(tr).enqueued| - Last(tr).finished, WorkerRank(Last(tr).worker)
  {
    longer := tr;
    RunKeepsInv(tr, |tr| - 1);
    if !AllFinished(Last(tr)) {
      WorkNearer(Last(tr));
      var next := Extend(tr, WorkLabel(Last(tr)));
      RunKeepsInv(next, |next| - 1);
      FinishedFits(Last(tr));
      FinishedFits(Last(next));
      longer := FinishAll(next);
    }
  }

  lemma FinishedFits(s: State)
    requires Inv(s)
    ensures s.finished <= |s.dequeued| <= |s.enqueued|
  {
  }

  function Awaiting(s: State): set<Tid> {
    set p | p in s.producers && s.producers[p].Await?
  }

  lemma {:induction false} ReturnAll(tr: seq<State>) returns (longer: seq<State>)
    requires Run(tr) && Unsettled(Last(tr)) == {} && AllFinished(Last(tr))
    ensures Run(longer) && tr <= longer && AllFinished(Last(longer))
    ensures forall p :: p in Last(longer).producers ==> Last(longer).producers[p].Idle?
    ensures Last(longer).producers.Keys == Last(tr).producers.Keys
    decreases |Awaiting(Last(tr))|
  {
    longer := tr;
    if Awaiting(Last(tr)) != {} {
      var p :| p in Awaiting(Last(tr));
      RunKeepsInv(tr, |tr| - 1);
      DrainReturnsIff(tr, |tr| - 1, p);
      assert HoldOk(Last(tr), p);
      var next := Extend(tr, Produce(p));
      assert Awaiting(Last(next)) == Awaiting(Last(tr)) - {p};
      assert Unsettled(Last(next)) == {} by { StillSettled(Last(tr), p); }
      longer := ReturnAll(next);
    } else {
      forall p | p in Last(tr).producers ensures Last(tr).producers[p].Idle? {
        assert p !in Unsettled(Last(tr)) && p !in Awaiting(Last(tr));
      }
    }
  }

  lemma StillSettled(s: State, p: Tid)
    requires Unsettled(s) == {} && Enabled(s, Produce(p)) && s.producers[p].Await?
    ensures Unsettled(ApplyProduce(s, p)) == {}
  {
    var s' := ApplyProduce(s, p);
    forall q | q in s'.producers ensures Settled(s'.producers[q]) { if q != p { assert q !in Unsettled(s); } }
  }

  /** The queue can always be emptied: every run extends to one in which every callback that was enqueued has run,
      and every call of call_rcu and drain_call_rcu has returned. */
  lemma EverythingRuns(tr: seq<State>) returns (longer: seq<State>)
    requires Run(tr)
    ensures Run(longer) && tr <= longer
    ensures Last(longer).finished == |Last(longer).dequeued| == |Last(longer).enqueued|
    ensures forall p :: p in Last(tr).producers ==> p in Last(longer).producers && Last(longer).producers[p].Idle?
  {
    longer := SettleAll(tr);
    longer := FinishAll(longer);
    longer := ReturnAll(longer);
  }

  // ---------- The worker never spins ----------

  function SiteRank(ready: bool, site: Site): nat {
    if ready then (match site case First => 43 case AfterReset => 33 case AfterWait => 22)
    else (match site case First => 23 case AfterWait => 13 case AfterReset => 3)
  }

  function DeqRank(deq: Deq): nat {
    match deq
    case LoadNext(retried) => if retried then 2 else 8
    case CheckEmpty(retried, _) => if retried then 1 else 7
    case Advance(retried, _) => if retried then 0 else 6
    case ClearDummy => 5
    case ExchangeDummy => 4
    case LinkDummy(_, _) => 3
  }

  // How far the worker by itself is from waiting, from resetting the event, or from finishing a callback.
  function RestRank(ready: bool, w: Worker): nat {
    match w
    case Reset => if ready then 0 else 37
    case WaitCount => if ready then 1 else 0
    case ReadCount => if ready then 56 else 36
    case Sync(_) => if ready then 55 else 35
    case Subtract(_) => if ready then 54 else 34
    case Loop(n) => if n > 0 then (if ready then 53 else 33) else 38
    case ResetAgain(_) => if ready then 21 else 12
    case WaitNode(_) => if ready then 32 else 0
    case Dequeue(_, site, deq) => SiteRank(ready, site) + DeqRank(deq)
    case Invoke(_, _) => 2
    case Running(_, _, _) => 1
    case Aborted => 0
  }

  // The worker waits for an event that nobody has set.
  predicate Rests(s: State) {
    (s.worker.WaitCount? || s.worker.WaitNode?) && !s.ready
  }

  ghost predicate Calmer(s: State, s': State) {
    && s'.enqueued == s.enqueued && s.finished <= s'.finished
    && (s'.finished > s.finished
        || (!s'.ready && s.ready)
        || (s'.ready == s.ready && RestRank(s'.ready, s'.worker) < RestRank(s.ready, s.worker)))
  }

  lemma DequeueCalms(s: State)
    requires Inv(s) && s.worker.Dequeue?
    ensures Calmer(s, ApplyWork(s))
  {
    match s.worker.deq {
      case LoadNext(_) => LoadCalms(s);
      case CheckEmpty(_, _) => AbortUnreachable(s); CheckCalms(s);
      case Advance(retried, _) => if retried { RetriedHeadIsCallback(s); } AdvanceCalms(s);
      case ClearDummy => DummyCalms(s);
      case ExchangeDummy => DummyCalms(s);
      case LinkDummy(_, _) => DummyCalms(s);
    }
  }

  lemma LoadCalms(s: State)
    requires s.worker.Dequeue? && s.worker.deq.LoadNext?
    ensures Calmer(s, ApplyWork(s))
  {
  }

  lemma CheckCalms(s: State)
    requires s.worker.Dequeue? && s.worker.deq.CheckEmpty? && !(s.head == DUMMY && s.tail == DUMMY)
    ensures Calmer(s, ApplyWork(s))
  {
  }

  lemma AdvanceCalms(s: State)
    requires s.worker.Dequeue? && s.worker.deq.Advance? && (s.worker.deq.retried ==> s.head != DUMMY)
    ensures Calmer(s, ApplyWork(s))
  {
  }

  lemma DummyCalms(s: State)
    requires s.worker.Dequeue? && (s.worker.deq.ClearDummy? || s.worker.deq.ExchangeDummy? || s.worker.deq.LinkDummy?)
    ensures Calmer(s, ApplyWork(s))
  {
  }

  lemma CountCalms(s: State)
    requires s.worker.Reset? || s.worker.ReadCount? || s.worker.WaitCount? || s.worker.Subtract? || s.worker.Loop?
    requires Enabled(s, Work) && (s.worker.Subtract? ==> s.worker.n > 0)
    ensures Calmer(s, ApplyWork(s))
  {
  }

  lemma CallCalms(s: State)
    requires s.worker.ResetAgain? || s.worker.WaitNode? || s.worker.Invoke? || s.worker.Running?
    requires Enabled(s, Work)
    ensures Calmer(s, ApplyWork(s))
  {
  }

  lemma WorkCalms(s: State)
    requires Inv(s) && !Rests(s)
    ensures Enabled(s, WorkLabel(s)) && Calmer(s, Apply(s, WorkLabel(s)))
  {
    if s.worker.Sync? {
    } else if s.worker.Dequeue? {
      DequeueCalms(s);
    } else if s.worker.ResetAgain? || s.worker.WaitNode? || s.worker.Invoke? || s.worker.Running? {
      CallCalms(s);
    } else {
      CountCalms(s);
    }
  }

  // Only the worker has taken steps since.
  ghost predicate WorkerSteps(tr: seq<State>, longer: seq<State>) {
    && Run(longer) && tr <= longer
    && forall i: nat :: |tr| <= i < |longer| ==> WorkerStepAt(longer, i)
  }

  ghost predicate WorkerStepAt(tr: seq<State>, i: nat)
    requires i < |tr|
  {
    i > 0 && Enabled(tr[i - 1], WorkLabel(tr[i - 1])) && tr[i] == Apply(tr[i - 1], WorkLabel(tr[i - 1]))
  }

  lemma StepsJoin(tr: seq<State>, next: seq<State>, longer: seq<State>)
    requires WorkerSteps(tr, next) && WorkerSteps(next, longer)
    ensures WorkerSteps(tr, longer)
  {
    forall i: nat | |tr| <= i < |longer| ensures WorkerStepAt(longer, i) {
      if i < |next| {
        assert WorkerStepAt(next, i) && longer[i] == next[i] && longer[i - 1] == next[i - 1];
      } else {
        assert WorkerStepAt(longer, i);
      }
    }
  }

  lemma OneWorkerStep(tr: seq<State>) returns (longer: seq<State>)
    requires Run(tr) && !Rests(Last(tr))
    ensures WorkerSteps(tr, longer) && Calmer(Last(tr), Last(longer)) && Inv(Last(tr)) && Inv(Last(longer))
  {
    RunKeepsInv(tr, |tr| - 1);
    WorkCalms(Last(tr));
    longer := Extend(tr, WorkLabel(Last(tr)));
    RunKeepsInv(longer, |longer| - 1);
    assert WorkerStepAt(longer, |tr|);
  }

  /** The worker never spins: by itself, from every reachable state, it comes to wait for its event after finitely many
      steps, even while a producer is preempted between its exchange and its link. */
  lemma {:induction false} WorkerRests(tr: seq<State>) returns (longer: seq<State>)
    requires Run(tr) && Last(tr).finished <= |Last(tr).enqueued|
    ensures WorkerSteps(tr, longer) && Rests(Last(longer))
    decreases |Last(tr).enqueued| - Last(tr).finished, Last(tr).ready, RestRank(Last(tr).ready, Last(tr).worker)
  {
    longer := tr;
    if !Rests(Last(tr)) {
      var next := OneWorkerStep(tr);
      FinishedFits(Last(next));
      longer := WorkerRests(next);
      StepsJoin(tr, next, longer);
    }
  }

  // ---------- One grace period for everything that was counted ----------

  // The callbacks of the batch that are still to be dequeued.
  function Left(w: Worker): int {
    match w
    case Sync(n) => n
    case Subtract(n) => n
    case Loop(n) => n
    case Dequeue(n, _, _) => n
    case ResetAgain(n) => n
    case WaitNode(n) => n
    case Invoke(n, _) => n - 1
    case Running(n, _, _) => n
    case _ => 0
  }

  lemma StepKeepsLeft(s: State, l: Label)
    requires Inv(s) && Enabled(s, l) && (s.worker.Sync? || InBatch(s.worker))
    ensures var s' := Apply(s, l);
      s'.worker.Sync? || InBatch(s'.worker) ==> |s'.dequeued| + Left(s'.worker) == |s.dequeued| + Left(s.worker)
    ensures !Apply(s, l).worker.Sync? && !InBatch(Apply(s, l).worker) ==>
              Left(s.worker) <= 0 && |Apply(s, l).dequeued| == |s.dequeued|
  {
    if l.Work? { if s.worker.Dequeue? { DequeueKeepsLeft(s); } else { LoopKeepsLeft(s); } }
  }

  lemma DequeueKeepsLeft(s: State)
    requires Inv(s) && Enabled(s, Work) && s.worker.Dequeue?
    ensures InBatch(ApplyWork(s).worker)
    ensures |ApplyWork(s).dequeued| + Left(ApplyWork(s).worker) == |s.dequeued| + Left(s.worker)
  {
    if s.worker.deq.CheckEmpty? { AbortUnreachable(s); }
  }

  lemma LoopKeepsLeft(s: State)
    requires Enabled(s, Work) && InBatch(s.worker) && !s.worker.Dequeue?
    ensures InBatch(ApplyWork(s).worker) ==>
              |ApplyWork(s).dequeued| + Left(ApplyWork(s).worker) == |s.dequeued| + Left(s.worker)
    ensures !InBatch(ApplyWork(s).worker) ==> Left(s.worker) <= 0 && ApplyWork(s).dequeued == s.dequeued
    ensures !ApplyWork(s).worker.Sync?
  {
  }

  // From position m to j the worker is in one batch.
  ghost predicate OneBatch(tr: seq<State>, m: nat, j: nat) {
    m <= j < |tr| && forall k :: m <= k <= j ==> tr[k].worker.Sync? || InBatch(tr[k].worker)
  }

  lemma {:induction false} BatchGoesOn(tr: seq<State>, m: nat, j: nat)
    requires Run(tr) && OneBatch(tr, m, j)
    ensures |tr[j].dequeued| + Left(tr[j].worker) == |tr[m].dequeued| + Left(tr[m].worker)
    decreases j
  {
    if m < j {
      BatchGoesOn(tr, m, j - 1);
      var l := LabelOf(tr, j);
      StepKeepsLeft(tr[j - 1], l);
    }
  }

  lemma ReadingStep(s: State, l: Label)
    requires Enabled(s, l) && s.worker.ReadCount? && (Apply(s, l).worker.Sync? || InBatch(Apply(s, l).worker))
    ensures Left(Apply(s, l).worker) == s.count && Apply(s, l).dequeued == s.dequeued
  {
  }

  lemma BatchBegins(tr: seq<State>, m: nat)
    requires Run(tr) && 0 < m < |tr| && tr[m - 1].worker.ReadCount? && (tr[m].worker.Sync? || InBatch(tr[m].worker))
    ensures Left(tr[m].worker) == tr[m - 1].count && tr[m].dequeued == tr[m - 1].dequeued
  {
    var l := LabelOf(tr, m);
    ReadingStep(tr[m - 1], l);
  }

  lemma BatchEnds(tr: seq<State>, j: nat)
    requires Run(tr) && j + 1 < |tr| && (tr[j].worker.Sync? || InBatch(tr[j].worker))
    requires !tr[j + 1].worker.Sync? && !InBatch(tr[j + 1].worker)
    ensures Left(tr[j].worker) == 0 && |tr[j + 1].dequeued| == |tr[j].dequeued|
  {
    var l := LabelOf(tr, j + 1);
    StepKeepsLeft(tr[j], l);
    LeftIsCounted(tr[j]);
  }

  /** One grace period serves everything that was counted when it began: from the reading of a non-zero counter to the
      end of that batch exactly as many callbacks are dequeued. */
  lemma BatchTakesAll(tr: seq<State>, m: nat, j: nat)
    requires Run(tr) && 0 < m && OneBatch(tr, m, j) && j + 1 < |tr| && tr[m - 1].worker.ReadCount?
    requires !tr[j + 1].worker.Sync? && !InBatch(tr[j + 1].worker)
    ensures |tr[j + 1].dequeued| == |tr[m - 1].dequeued| + tr[m - 1].count
  {
    BatchBegins(tr, m);
    BatchGoesOn(tr, m, j);
    BatchEnds(tr, j);
  }

  lemma LeftIsCounted(s: State)
    requires Inv(s) && (s.worker.Sync? || InBatch(s.worker))
    ensures Left(s.worker) >= 0
  {
  }
}
