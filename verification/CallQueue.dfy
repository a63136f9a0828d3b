/**
  The call_rcu queue of util/rcu.c: the two-step multi-producer single-consumer list with its
  recycled dummy node, the worker thread, and drain_call_rcu.

  Each atomic access is one step; any number of producers interleave with the worker.  The
  fields from `chain` on are history: no step's effect on the others depends on them.
 */
module CallQueue {
  import opened Prelude

  type Tid = nat
  type Node = nat

  const DUMMY: Node := 0

  // What node->func does: an ordinary callback, or drain_rcu_callback.
  datatype Func = Plain | Drain

  // What a producer still knows about its node after linking it: an ordinary caller nothing, a
  // drainer the node on its stack and (history) its rank among all exchanges.
  datatype Job = Forgotten | Draining(node: Node, ticket: nat)

  /** Program point inside call_rcu1 and drain_call_rcu. */
  datatype Producer =
    | Idle
    | Clear(node: Node, func: Func)                                // node->next = NULL
    | Exchange(node: Node, func: Func)                             // old_tail = xchg(&tail, ..)
    | Link(node: Node, prev: Node, job: Job, pos: nat)             // *old_tail = node
    | Count(job: Job)                                              // rcu_call_count++
    | Notify(job: Job)                                             // set rcu_call_ready_event
    | Await(job: Job)                                              // wait for drain_complete_event

  // The three calls of try_dequeue in the worker.
  datatype Site = First | AfterReset | AfterWait

  /** Program point inside try_dequeue. */
  datatype Deq =
    | LoadNext(retried: bool)
    | CheckEmpty(retried: bool, next: Node)
    | Advance(retried: bool, next: Node)
    | ClearDummy
    | ExchangeDummy
    | LinkDummy(prev: Node, pos: nat)

  /** Program point inside call_rcu_thread; `n` callbacks of the batch are left. */
  datatype Worker =
    | Reset
    | ReadCount
    | WaitCount
    | Sync(n: int)
    | Subtract(n: int)
    | Loop(n: int)
    | Dequeue(n: int, site: Site, deq: Deq)
    | ResetAgain(n: int)
    | WaitNode(n: int)
    | Invoke(n: int, node: Node)
    | Running(n: int, node: Node, func: Func)
    | Aborted

  datatype By = ByProducer(p: Tid) | ByWorker
  datatype Entry = Entry(node: Node, who: By)

  datatype State = State(
    next: map<Node, Option<Node>>,
    head: Node, tail: Node,
    count: int, ready: bool,
    funcs: map<Node, Func>,
    complete: set<Node>,                   // drain_complete_event set, by the node it lives beside
    producers: map<Tid, Producer>,
    worker: Worker,
    chain: seq<Entry>,                     // every exchange of the tail, the dummy's included
    hd: nat,                               // where `head` is in `chain`
    dm: nat,                               // where the dummy was last put
    enqueued: seq<Node>,                   // callbacks in the order of their tail exchange
    dequeued: seq<Node>,                   // nodes returned by try_dequeue
    finished: nat,                         // callbacks that have returned
    limit: nat)                            // |enqueued| when the worker last read rcu_call_count

  function NextOf(s: State, x: Node): Option<Node> {
    if x in s.next then s.next[x] else None
  }

  function FuncOf(s: State, x: Node): Func {
    if x in s.funcs then s.funcs[x] else Plain
  }

  predicate InQueue(s: State, x: Node) {
    s.hd <= |s.chain| && exists i | s.hd <= i < |s.chain| :: s.chain[i].node == x
  }

  // The node is still in the hands of this producer.
  predicate Holds(pc: Producer, x: Node) {
    match pc
    case Clear(node, _) => node == x
    case Exchange(node, _) => node == x
    case Link(node, _, _, _) => node == x
    case Count(job) => job.Draining? && job.node == x
    case Notify(job) => job.Draining? && job.node == x
    case Await(job) => job.Draining? && job.node == x
    case Idle => false
  }

  // A node may be handed to call_rcu1 only when nobody uses it.
  predicate Busy(s: State, x: Node) {
    || x == DUMMY || InQueue(s, x)
    || (exists p | p in s.producers :: Holds(s.producers[p], x))
    || (s.worker.Invoke? && s.worker.node == x)
    || (s.worker.Running? && s.worker.func.Drain? && s.worker.node == x)
  }

  datatype Label =
    | Begin(p: Tid, node: Node, func: Func)   // call_rcu1 or drain_call_rcu is called
    | Produce(p: Tid)                         // next step of a producer
    | Work                                    // next step of the worker
    | GraceDone                               // synchronize_rcu returns in the worker
    | Stutter

  predicate Enabled(s: State, l: Label) {
    match l
    case Begin(p, node, _) => p in s.producers && s.producers[p].Idle? && !Busy(s, node)
    case Produce(p) =>
      p in s.producers && !s.producers[p].Idle?
      && (s.producers[p].Await? && s.producers[p].job.Draining? ==> s.producers[p].job.node in s.complete)
    case Work =>
      !s.worker.Sync? && !s.worker.Aborted?
      && (s.worker.WaitCount? || s.worker.WaitNode? ==> s.ready)
    case GraceDone => s.worker.Sync?
    case Stutter => true
  }

  function Apply(s: State, l: Label): (r: State)
    requires Enabled(s, l)
    ensures r.producers.Keys == s.producers.Keys
  {
    match l
    case Begin(p, node, func) =>
      s.(funcs := s.funcs[node := func],
         complete := if func.Drain? then s.complete - {node} else s.complete,
         producers := s.producers[p := Clear(node, func)])
    case Produce(p) => ApplyProduce(s, p)
    case Work => ApplyWork(s)
    case GraceDone => s.(worker := Subtract(s.worker.n))
    case Stutter => s
  }

  function At(s: State, p: Tid, pc: Producer): State {
    s.(producers := s.producers[p := pc])
  }

  function ApplyProduce(s: State, p: Tid): (r: State)
    requires Enabled(s, Produce(p))
    ensures r.producers.Keys == s.producers.Keys
    ensures r.worker == s.worker && r.hd == s.hd && r.dequeued == s.dequeued && r.finished == s.finished
    ensures r.limit == s.limit && r.funcs == s.funcs && r.complete == s.complete && s.enqueued <= r.enqueued
  {
    match s.producers[p]
    case Clear(node, func) => At(s, p, Exchange(node, func)).(next := s.next[node := None])
    case Exchange(node, func) =>
      var job := if func.Drain? then Draining(node, |s.enqueued|) else Forgotten;
      At(s, p, Link(node, s.tail, job, |s.chain|)).(
        tail := node,
        chain := s.chain + [Entry(node, ByProducer(p))],
        enqueued := s.enqueued + [node])
    case Link(node, prev, job, _) => At(s, p, Count(job)).(next := s.next[prev := Some(node)])
    case Count(job) => At(s, p, Notify(job)).(count := s.count + 1)
    case Notify(job) => At(s, p, if job.Draining? then Await(job) else Idle).(ready := true)
    case Await(job) => At(s, p, Idle)
  }

  predicate SameList(s: State, s': State) {
    s'.next == s.next && s'.head == s.head && s'.tail == s.tail && s'.chain == s.chain
    && s'.hd == s.hd && s'.dm == s.dm
  }

  function ApplyWork(s: State): (r: State)
    requires Enabled(s, Work)
    ensures r.producers == s.producers && r.enqueued == s.enqueued && r.funcs == s.funcs
    ensures !s.worker.Dequeue? ==> SameList(s, r) && r.dequeued == s.dequeued
  {
    match s.worker
    case Reset => s.(ready := false, worker := ReadCount)
    case ReadCount =>
      s.(worker := if s.count != 0 then Sync(s.count) else WaitCount, limit := |s.enqueued|)
    case WaitCount => s.(worker := Reset)
    case Subtract(n) => s.(count := s.count - n, worker := Loop(n))
    case Loop(n) => s.(worker := if n > 0 then Dequeue(n, First, LoadNext(false)) else Reset)
    case ResetAgain(n) => s.(ready := false, worker := Dequeue(n, AfterReset, LoadNext(false)))
    case WaitNode(n) => s.(worker := Dequeue(n, AfterWait, LoadNext(false)))
    case Dequeue(n, site, deq) => ApplyDequeue(s, n, site, deq)
    case Invoke(n, node) => s.(worker := Running(n - 1, node, FuncOf(s, node)))
    case Running(n, node, func) =>
      s.(worker := Loop(n), finished := s.finished + 1,
         complete := if func.Drain? then s.complete + {node} else s.complete)
  }

  // try_dequeue returned NULL.
  function AfterNull(n: int, site: Site): Worker {
    if site.AfterReset? then WaitNode(n) else ResetAgain(n)
  }

  function ApplyDequeue(s: State, n: int, site: Site, deq: Deq): (r: State)
    ensures r.producers == s.producers && r.enqueued == s.enqueued && r.funcs == s.funcs
    ensures r.count == s.count && r.ready == s.ready && r.complete == s.complete
    ensures r.finished == s.finished && r.limit == s.limit
    ensures deq.Advance? || (r.hd == s.hd && r.head == s.head && r.dequeued == s.dequeued)
    ensures deq.ExchangeDummy? || (r.chain == s.chain && r.tail == s.tail && r.dm == s.dm)
  {
    match deq
    case LoadNext(retried) =>
      (match NextOf(s, s.head)
       case None => s.(worker := AfterNull(n, site))
       case Some(next) => s.(worker := Dequeue(n, site, CheckEmpty(retried, next))))
    case CheckEmpty(retried, next) =>
      s.(worker := if s.head == DUMMY && s.tail == DUMMY then Aborted else Dequeue(n, site, Advance(retried, next)))
    case Advance(_, next) =>
      var moved := s.(head := next, hd := s.hd + 1);
      if s.head == DUMMY then moved.(worker := Dequeue(n, site, ClearDummy))
      else moved.(worker := Invoke(n, s.head), dequeued := s.dequeued + [s.head])
    case ClearDummy => s.(next := s.next[DUMMY := None], worker := Dequeue(n, site, ExchangeDummy))
    case ExchangeDummy =>
      s.(tail := DUMMY, chain := s.chain + [Entry(DUMMY, ByWorker)], dm := |s.chain|,
         worker := Dequeue(n, site, LinkDummy(s.tail, |s.chain|)))
    case LinkDummy(prev, _) => s.(next := s.next[prev := Some(DUMMY)], worker := Dequeue(n, site, LoadNext(true)))
  }

  ghost predicate Init(s: State) {
    && s.next == map[DUMMY := None] && s.head == DUMMY && s.tail == DUMMY
    && s.count == 0 && !s.ready && s.complete == {}
    && (forall p :: p in s.producers ==> s.producers[p].Idle?)
    && s.worker.Reset?
    && s.chain == [Entry(DUMMY, ByWorker)] && s.hd == 0 && s.dm == 0
    && s.enqueued == [] && s.dequeued == [] && s.finished == 0 && s.limit == 0
  }

  // ---------- The list invariant ----------

  // The thread that exchanged the tail at `pos` has not stored its link yet.
  predicate InFlight(s: State, pos: nat)
    requires pos < |s.chain|
  {
    match s.chain[pos].who
    case ByProducer(p) => p in s.producers && s.producers[p].Link? && s.producers[p].pos == pos
    case ByWorker => s.worker.Dequeue? && s.worker.deq.LinkDummy? && s.worker.deq.pos == pos
  }

  // The pointer into position `pos`: unset while its owner is between exchange and store.
  predicate LinkedAt(s: State, pos: nat)
    requires 0 < pos < |s.chain|
  {
    NextOf(s, s.chain[pos - 1].node) == if InFlight(s, pos) then None else Some(s.chain[pos].node)
  }

  ghost predicate ChainOk(s: State) {
    && s.hd < |s.chain|
    && s.head == s.chain[s.hd].node
    && s.tail == s.chain[|s.chain| - 1].node
    && NextOf(s, s.tail).None?
    && (forall i, j :: s.hd <= i < j < |s.chain| ==> s.chain[i].node != s.chain[j].node)
    && (forall i {:trigger LinkedAt(s, i)} :: s.hd < i < |s.chain| ==> LinkedAt(s, i))
  }

  // An exchange that is not linked yet lies strictly behind the head.
  ghost predicate ProducerFlightOk(s: State, p: Tid)
    requires p in s.producers
  {
    s.producers[p].Link? ==>
      var pc := s.producers[p];
      s.hd < pc.pos < |s.chain| && s.chain[pc.pos] == Entry(pc.node, ByProducer(p))
          && s.chain[pc.pos - 1].node == pc.prev
  }

  ghost predicate WorkerFlightOk(s: State) {
    s.worker.Dequeue? && s.worker.deq.LinkDummy? ==>
      var deq := s.worker.deq;
      s.hd < deq.pos == s.dm < |s.chain| && s.chain[deq.pos] == Entry(DUMMY, ByWorker)
          && s.chain[deq.pos - 1].node == deq.prev
  }

  // The dummy is in the list except while the worker carries it from the front to the back.
  ghost predicate DummyOk(s: State) {
    && s.dm < |s.chain| && s.chain[s.dm].node == DUMMY
    && (if s.worker.Dequeue? && (s.worker.deq.ClearDummy? || s.worker.deq.ExchangeDummy?)
        then s.dm + 1 == s.hd && (forall i :: s.hd <= i < |s.chain| ==> s.chain[i].node != DUMMY)
        else s.dm >= s.hd)
    && (s.worker.Dequeue? ==>
          match s.worker.deq
          case LoadNext(retried) => retried ==> s.dm > s.hd
          case CheckEmpty(retried, next) => NextOf(s, s.head) == Some(next) && (retried ==> s.dm > s.hd)
          case Advance(retried, next) => NextOf(s, s.head) == Some(next) && (retried ==> s.dm > s.hd)
          case ExchangeDummy => NextOf(s, DUMMY).None?
          case _ => true)
    && !s.worker.Aborted?
  }

  predicate Preparing(pc: Producer) {
    pc.Clear? || pc.Exchange?
  }

  // A node that is about to be enqueued is referenced by nobody else.
  ghost predicate FreshOk(s: State, p: Tid)
    requires p in s.producers
  {
    Preparing(s.producers[p]) ==>
      var x := s.producers[p].node;
      && x != DUMMY
      && (forall i :: s.hd <= i < |s.chain| ==> s.chain[i].node != x)
      && (s.producers[p].Exchange? ==> NextOf(s, x).None?)
      && (forall q :: q in s.producers && q != p && Preparing(s.producers[q]) ==> s.producers[q].node != x)
      && (s.worker.Invoke? ==> s.worker.node != x)
  }

  // A returned node is out of the list.
  ghost predicate ReturnedOk(s: State) {
    s.worker.Invoke? ==>
      s.worker.node != DUMMY && forall i :: s.hd <= i < |s.chain| ==> s.chain[i].node != s.worker.node
  }

  ghost predicate ProducersOk(s: State) {
    && (forall p {:trigger ProducerFlightOk(s, p)} :: p in s.producers ==> ProducerFlightOk(s, p))
    && (forall p {:trigger FreshOk(s, p)} :: p in s.producers ==> FreshOk(s, p))
  }

  ghost predicate ListInv(s: State) {
    && ChainOk(s)
    && ProducersOk(s)
    && WorkerFlightOk(s) && DummyOk(s) && ReturnedOk(s)
  }

  predicate WorkerTouchesList(w: Worker) {
    w.Dequeue? && !w.deq.LoadNext? && !w.deq.CheckEmpty?
  }

  // A step of the worker that leaves the list alone.
  lemma QuietWork(s: State, s': State)
    requires ListInv(s) && SameList(s, s') && s'.producers == s.producers
    requires !WorkerTouchesList(s.worker) && !s'.worker.Invoke? && !s'.worker.Aborted?
    requires s'.worker.Dequeue? ==>
      match s'.worker.deq
      case LoadNext(retried) => !retried
      case CheckEmpty(retried, next) => NextOf(s, s.head) == Some(next) && (retried ==> s.dm > s.hd)
      case Advance(retried, next) => NextOf(s, s.head) == Some(next) && (retried ==> s.dm > s.hd)
      case _ => false
    ensures ListInv(s')
  {
    forall i | s'.hd < i < |s'.chain| ensures LinkedAt(s', i) { assert LinkedAt(s, i); }
    forall q | q in s'.producers ensures ProducerFlightOk(s', q) && FreshOk(s', q) {
      assert ProducerFlightOk(s, q) && FreshOk(s, q);
    }
  }

  // A producer moves between points that neither hold a fresh node nor an unlinked one.
  lemma QuietProduce(s: State, s': State, p: Tid, pc: Producer)
    requires ListInv(s) && SameList(s, s') && s'.worker == s.worker
    requires p in s.producers && s'.producers == s.producers[p := pc]
    requires !s.producers[p].Link? && !pc.Link? && !Preparing(pc)
    ensures ListInv(s')
  {
    forall i | s'.hd < i < |s'.chain| ensures LinkedAt(s', i) { assert LinkedAt(s, i); }
    forall q | q in s'.producers ensures ProducerFlightOk(s', q) && FreshOk(s', q) {
      assert ProducerFlightOk(s, q) && FreshOk(s, q);
    }
  }

  lemma BeginKeepsList(s: State, s': State, p: Tid, node: Node, func: Func)
    requires ListInv(s) && SameList(s, s') && s'.worker == s.worker
    requires p in s.producers && s.producers[p].Idle? && !Busy(s, node)
    requires s'.producers == s.producers[p := Clear(node, func)]
    ensures ListInv(s')
  {
    forall i | s'.hd < i < |s'.chain| ensures LinkedAt(s', i) { assert LinkedAt(s, i); }
    forall q | q in s'.producers ensures ProducerFlightOk(s', q) && FreshOk(s', q) {
      assert ProducerFlightOk(s, q) && FreshOk(s, q);
      assert q != p ==> !Holds(s.producers[q], node);
    }
  }

  lemma ClearKeepsList(s: State, s': State, p: Tid)
    requires ListInv(s) && p in s.producers && s.producers[p].Clear?
    requires var Clear(node, func) := s.producers[p];
      s' == At(s, p, Exchange(node, func)).(next := s.next[node := None])
    ensures ListInv(s')
  {
    assert FreshOk(s, p);
    forall i | s'.hd < i < |s'.chain| ensures LinkedAt(s', i) { assert LinkedAt(s, i); }
    forall q | q in s'.producers ensures ProducerFlightOk(s', q) && FreshOk(s', q) {
      ClearKeepsProducer(s, s', p, q);
    }
  }

  lemma ClearKeepsProducer(s: State, s': State, p: Tid, q: Tid)
    requires ListInv(s) && p in s.producers && s.producers[p].Clear?
    requires var Clear(node, func) := s.producers[p];
      s' == At(s, p, Exchange(node, func)).(next := s.next[node := None])
    requires q in s'.producers
    ensures ProducerFlightOk(s', q)
    ensures FreshOk(s', q)
  {
    assert ProducerFlightOk(s, q) && FreshOk(s, q) && FreshOk(s, p);
  }

  // Producer `p` has put its node behind the tail.
  predicate Exchanged(s: State, s': State, p: Tid, job: Job) {
    && p in s.producers && s.producers[p].Exchange?
    && var node := s.producers[p].node;
       s' == At(s, p, Link(node, s.tail, job, |s.chain|)).(
               tail := node, chain := s.chain + [Entry(node, ByProducer(p))], enqueued := s'.enqueued)
  }

  lemma ExchangeKeepsList(s: State, s': State, p: Tid, job: Job)
    requires ListInv(s) && Exchanged(s, s', p, job)
    ensures ListInv(s')
  {
    assert FreshOk(s, p);
    ExchangeKeepsChain(s, s', p, job);
    forall q | q in s'.producers ensures ProducerFlightOk(s', q) && FreshOk(s', q) {
      ExchangeKeepsProducer(s, s', p, job, q);
    }
  }

  lemma ExchangeKeepsChain(s: State, s': State, p: Tid, job: Job)
    requires ChainOk(s) && Exchanged(s, s', p, job) && FreshOk(s, p)
    ensures ChainOk(s')
  {
    forall i | s'.hd < i < |s'.chain| ensures LinkedAt(s', i) {
      if i < |s.chain| { assert LinkedAt(s, i); }
    }
  }

  lemma ExchangeKeepsProducer(s: State, s': State, p: Tid, job: Job, q: Tid)
    requires ListInv(s) && Exchanged(s, s', p, job) && q in s'.producers
    ensures ProducerFlightOk(s', q)
    ensures FreshOk(s', q)
  {
    assert ProducerFlightOk(s, q) && FreshOk(s, q) && FreshOk(s, p);
  }

  lemma LinkKeepsList(s: State, s': State, p: Tid)
    requires ListInv(s) && p in s.producers && s.producers[p].Link?
    requires var Link(node, prev, job, _) := s.producers[p];
      s' == At(s, p, Count(job)).(next := s.next[prev := Some(node)])
    ensures ListInv(s')
  {
    assert ProducerFlightOk(s, p);
    assert LinkedAt(s, s.producers[p].pos);
    forall i | s'.hd < i < |s'.chain| ensures LinkedAt(s', i) { assert LinkedAt(s, i); }
    forall q | q in s'.producers ensures ProducerFlightOk(s', q) && FreshOk(s', q) {
      LinkKeepsProducer(s, s', p, q);
    }
  }

  lemma LinkKeepsProducer(s: State, s': State, p: Tid, q: Tid)
    requires ListInv(s) && p in s.producers && s.producers[p].Link?
    requires var Link(node, prev, job, _) := s.producers[p];
      s' == At(s, p, Count(job)).(next := s.next[prev := Some(node)])
    requires q in s'.producers
    ensures ProducerFlightOk(s', q)
    ensures FreshOk(s', q)
  {
    assert ProducerFlightOk(s, q) && FreshOk(s, q) && ProducerFlightOk(s, p);
  }

  lemma AdvanceKeepsList(s: State, s': State, w: Worker)
    requires ListInv(s) && s.worker.Dequeue? && s.worker.deq.Advance?
    requires s' == s.(head := s.worker.deq.next, hd := s.hd + 1, worker := w, dequeued := s'.dequeued)
    requires if s.head == DUMMY then w.Dequeue? && w.deq.ClearDummy? else w.Invoke? && w.node == s.head
    ensures ListInv(s')
  {
    if s.hd + 1 < |s.chain| { assert LinkedAt(s, s.hd + 1); }
    forall i | s'.hd < i < |s'.chain| ensures LinkedAt(s', i) { assert LinkedAt(s, i); }
    forall q | q in s'.producers ensures ProducerFlightOk(s', q) && FreshOk(s', q) {
      assert ProducerFlightOk(s, q) && FreshOk(s, q);
      if s.producers[q].Link? { assert LinkedAt(s, s.producers[q].pos); }
    }
  }

  lemma ClearDummyKeepsList(s: State, s': State, w: Worker)
    requires ListInv(s) && s.worker.Dequeue? && s.worker.deq.ClearDummy?
    requires w.Dequeue? && w.deq.ExchangeDummy?
    requires s' == s.(next := s.next[DUMMY := None], worker := w)
    ensures ListInv(s')
  {
    forall i | s'.hd < i < |s'.chain| ensures LinkedAt(s', i) { assert LinkedAt(s, i); }
    forall q | q in s'.producers ensures ProducerFlightOk(s', q) && FreshOk(s', q) {
      assert ProducerFlightOk(s, q) && FreshOk(s, q);
    }
  }

  lemma ExchangeDummyKeepsList(s: State, s': State, w: Worker)
    requires ListInv(s) && s.worker.Dequeue? && s.worker.deq.ExchangeDummy?
    requires w.Dequeue? && w.deq == LinkDummy(s.tail, |s.chain|)
    requires s' == s.(tail := DUMMY, chain := s.chain + [Entry(DUMMY, ByWorker)], dm := |s.chain|, worker := w)
    ensures ListInv(s')
  {
    forall i | s'.hd < i < |s'.chain| ensures LinkedAt(s', i) {
      if i < |s.chain| { assert LinkedAt(s, i); }
    }
    forall q | q in s'.producers ensures ProducerFlightOk(s', q) && FreshOk(s', q) {
      assert ProducerFlightOk(s, q) && FreshOk(s, q);
    }
  }

  lemma LinkDummyKeepsList(s: State, s': State, w: Worker)
    requires ListInv(s) && s.worker.Dequeue? && s.worker.deq.LinkDummy?
    requires w.Dequeue? && w.deq == LoadNext(true)
    requires s' == s.(next := s.next[s.worker.deq.prev := Some(DUMMY)], worker := w)
    ensures ListInv(s')
  {
    assert LinkedAt(s, s.dm);
    forall i | s'.hd < i < |s'.chain| ensures LinkedAt(s', i) { assert LinkedAt(s, i); }
    forall q | q in s'.producers ensures ProducerFlightOk(s', q) && FreshOk(s', q) {
      assert ProducerFlightOk(s, q) && FreshOk(s, q);
    }
  }

  lemma CheckEmptyKeepsList(s: State, n: int, site: Site)
    requires ListInv(s) && s.worker.Dequeue? && s.worker.n == n && s.worker.site == site && s.worker.deq.CheckEmpty?
    ensures ListInv(ApplyDequeue(s, n, site, s.worker.deq))
  {
    AbortUnreachable(s);
    QuietWork(s, ApplyDequeue(s, n, site, s.worker.deq));
  }

  lemma DequeueKeepsList(s: State, n: int, site: Site)
    requires ListInv(s) && s.worker.Dequeue? && s.worker.n == n && s.worker.site == site
    ensures ListInv(ApplyDequeue(s, n, site, s.worker.deq))
  {
    var s' := ApplyDequeue(s, n, site, s.worker.deq);
    match s.worker.deq {
      case Advance(_, _) => AdvanceKeepsList(s, s', s'.worker);
      case ClearDummy => ClearDummyKeepsList(s, s', s'.worker);
      case ExchangeDummy => ExchangeDummyKeepsList(s, s', s'.worker);
      case LinkDummy(_, _) => LinkDummyKeepsList(s, s', s'.worker);
      case CheckEmpty(_, _) => CheckEmptyKeepsList(s, n, site);
      case LoadNext(_) => QuietWork(s, s');
    }
  }

  /** The abort() in try_dequeue cannot be reached: once the head has a successor, head and tail
      are not both the dummy. */
  lemma AbortUnreachable(s: State)
    requires ListInv(s) && s.worker.Dequeue? && s.worker.deq.CheckEmpty?
    ensures !(s.head == DUMMY && s.tail == DUMMY)
  {
    if s.hd + 1 < |s.chain| {
      assert s.chain[s.hd].node != s.chain[|s.chain| - 1].node;
    }
  }

  lemma WorkKeepsList(s: State)
    requires ListInv(s) && Enabled(s, Work)
    ensures ListInv(ApplyWork(s))
  {
    if s.worker.Dequeue? {
      DequeueKeepsList(s, s.worker.n, s.worker.site);
    } else {
      QuietWork(s, ApplyWork(s));
    }
  }

  lemma ProduceKeepsList(s: State, p: Tid)
    requires ListInv(s) && Enabled(s, Produce(p))
    ensures ListInv(ApplyProduce(s, p))
  {
    var s' := ApplyProduce(s, p);
    match s.producers[p] {
      case Clear(_, _) => ClearKeepsList(s, s', p);
      case Exchange(_, _) => ExchangeKeepsList(s, s', p, s'.producers[p].job);
      case Link(_, _, _, _) => LinkKeepsList(s, s', p);
      case Count(job) => QuietProduce(s, s', p, Notify(job));
      case Notify(job) => QuietProduce(s, s', p, if job.Draining? then Await(job) else Idle);
      case Await(_) => QuietProduce(s, s', p, Idle);
    }
  }

  lemma StepKeepsList(s: State, l: Label)
    requires ListInv(s) && Enabled(s, l)
    ensures ListInv(Apply(s, l))
  {
    match l {
      case Begin(p, node, func) => BeginKeepsList(s, Apply(s, l), p, node, func);
      case Produce(p) => ProduceKeepsList(s, p);
      case Work => WorkKeepsList(s);
      case GraceDone => QuietWork(s, Apply(s, l));
      case Stutter =>
    }
  }

  // ---------- The list refines a plain sequence ----------

  function Callbacks(c: seq<Entry>): seq<Node> {
    if c == [] then [] else (if c[0].node == DUMMY then [] else [c[0].node]) + Callbacks(c[1..])
  }

  lemma {:induction false} CallbacksAppend(c: seq<Entry>, e: Entry)
    ensures Callbacks(c + [e]) == Callbacks(c) + (if e.node == DUMMY then [] else [e.node])
  {
    if c == [] {
      assert Callbacks([e]) == (if e.node == DUMMY then [] else [e.node]) + Callbacks([e][1..]);
    } else {
      assert (c + [e])[1..] == c[1..] + [e];
      CallbacksAppend(c[1..], e);
    }
  }

  lemma {:induction false} CallbacksMembers(c: seq<Entry>)
    ensures forall x :: x in Callbacks(c) ==> x != DUMMY && exists i :: 0 <= i < |c| && c[i].node == x
    ensures |Callbacks(c)| <= |c|
    ensures (exists i :: 0 <= i < |c| && c[i].node == DUMMY) ==> |Callbacks(c)| < |c|
  {
    if c != [] {
      CallbacksMembers(c[1..]);
      forall x | x in Callbacks(c[1..]) ensures exists i :: 0 <= i < |c| && c[i].node == x {
        var k :| 0 <= k < |c[1..]| && c[1..][k].node == x;
        assert c[k + 1].node == x;
      }
      if i :| 0 <= i < |c| && c[i].node == DUMMY && c[0].node != DUMMY {
        assert c[1..][i - 1].node == DUMMY;
      }
    }
  }

  /** What has been dequeued, followed by what the list holds, is what was enqueued, in the order of
      the tail exchanges. */
  ghost predicate OrderInv(s: State) {
    s.hd <= |s.chain| && DUMMY !in s.enqueued && s.dequeued + Callbacks(s.chain[s.hd..]) == s.enqueued
  }

  lemma AppendKeepsOrder(s: State, s': State, e: Entry)
    requires OrderInv(s)
    requires s'.chain == s.chain + [e] && s'.hd == s.hd && s'.dequeued == s.dequeued
    requires s'.enqueued == s.enqueued + (if e.node == DUMMY then [] else [e.node])
    ensures OrderInv(s')
  {
    assert s'.chain[s'.hd..] == s.chain[s.hd..] + [e];
    CallbacksAppend(s.chain[s.hd..], e);
    assert s.dequeued + Callbacks(s'.chain[s'.hd..]) == s'.enqueued;
  }

  lemma TakeKeepsOrder(s: State, s': State)
    requires OrderInv(s) && ChainOk(s)
    requires s'.chain == s.chain && s'.hd == s.hd + 1 && s'.enqueued == s.enqueued
    requires s'.dequeued == s.dequeued + (if s.head == DUMMY then [] else [s.head])
    ensures OrderInv(s')
  {
    assert s.chain[s.hd..][1..] == s.chain[s'.hd..];
    assert s'.dequeued + Callbacks(s'.chain[s'.hd..]) == s.dequeued + Callbacks(s.chain[s.hd..]);
  }

  lemma ProduceKeepsOrder(s: State, p: Tid)
    requires OrderInv(s) && ProducersOk(s) && Enabled(s, Produce(p))
    ensures OrderInv(ApplyProduce(s, p))
  {
    if s.producers[p].Exchange? {
      assert FreshOk(s, p);
      AppendKeepsOrder(s, ApplyProduce(s, p), Entry(s.producers[p].node, ByProducer(p)));
    }
  }

  lemma DequeueKeepsOrder(s: State, n: int, site: Site, deq: Deq)
    requires OrderInv(s) && ChainOk(s)
    ensures OrderInv(ApplyDequeue(s, n, site, deq))
  {
    var s' := ApplyDequeue(s, n, site, deq);
    match deq {
      case Advance(_, _) => TakeKeepsOrder(s, s');
      case ExchangeDummy => AppendKeepsOrder(s, s', Entry(DUMMY, ByWorker));
      case LoadNext(_) => case CheckEmpty(_, _) => case ClearDummy => case LinkDummy(_, _) =>
    }
  }

  lemma StepKeepsOrder(s: State, l: Label)
    requires OrderInv(s) && ListInv(s) && Enabled(s, l)
    ensures OrderInv(Apply(s, l))
  {
    match l {
      case Produce(p) => ProduceKeepsOrder(s, p);
      case Work =>
        if s.worker.Dequeue? { DequeueKeepsOrder(s, s.worker.n, s.worker.site, s.worker.deq); }
      case _ =>
    }
  }

  // ---------- Counting ----------

  predicate BeforeCount(pc: Producer) {
    pc.Link? || pc.Count?
  }

  // Producers that have exchanged the tail and not incremented the counter yet.
  function Uncounted(s: State): set<Tid> {
    set p | p in s.producers && BeforeCount(s.producers[p])
  }

  // Callbacks the worker has taken off the counter and not off the list.
  function Owed(w: Worker): int {
    match w
    case Loop(n) => n
    case Dequeue(n, _, _) => n
    case ResetAgain(n) => n
    case WaitNode(n) => n
    case Invoke(n, _) => n - 1
    case Running(n, _, _) => n
    case _ => 0
  }

  predicate InCallback(w: Worker) {
    w.Invoke? || w.Running?
  }

  // Every exchange is dequeued, counted, owed by the worker, or not counted yet.
  ghost predicate Balance(s: State) {
    |s.enqueued| == |s.dequeued| + s.count + Owed(s.worker) + |Uncounted(s)|
  }

  ghost predicate BatchOk(s: State) {
    && s.limit <= |s.enqueued|
    && s.finished == |s.dequeued| - (if InCallback(s.worker) then 1 else 0)
    && (match s.worker
        case Sync(n) => 0 < n && |s.dequeued| + n <= s.limit
        case Subtract(n) => 0 < n && |s.dequeued| + n <= s.limit
        case Loop(n) => 0 <= n && |s.dequeued| + n <= s.limit
        case Dequeue(n, _, _) => 0 < n && |s.dequeued| + n <= s.limit
        case ResetAgain(n) => 0 < n && |s.dequeued| + n <= s.limit
        case WaitNode(n) => 0 < n && |s.dequeued| + n <= s.limit
        case Invoke(n, node) => 0 < n && |s.dequeued| + n - 1 <= s.limit
                                && s.dequeued != [] && s.dequeued[|s.dequeued| - 1] == node
        case Running(n, node, _) => 0 <= n && |s.dequeued| + n <= s.limit
                                    && s.dequeued != [] && s.dequeued[|s.dequeued| - 1] == node
        case _ => true)
  }

  ghost predicate CounterOk(s: State) {
    && s.count >= 0
    && (s.worker.Sync? || s.worker.Subtract? ==> s.worker.n <= s.count)
  }

  lemma UncountedStep(s: State, s': State, p: Tid)
    requires p in s.producers && p in s'.producers && s'.producers == s.producers[p := s'.producers[p]]
    ensures |Uncounted(s')| == |Uncounted(s)|
              + (if BeforeCount(s'.producers[p]) then 1 else 0) - (if BeforeCount(s.producers[p]) then 1 else 0)
  {
    var rest := Uncounted(s) - {p};
    assert Uncounted(s) == if BeforeCount(s.producers[p]) then rest + {p} else rest;
    assert Uncounted(s') == if BeforeCount(s'.producers[p]) then rest + {p} else rest;
  }

  lemma WorkKeepsCount(s: State)
    requires Balance(s) && CounterOk(s) && BatchOk(s) && Enabled(s, Work)
    requires s.worker.Dequeue? && s.worker.deq.CheckEmpty? ==> !(s.head == DUMMY && s.tail == DUMMY)
    ensures Balance(ApplyWork(s))
  {
    assert Uncounted(ApplyWork(s)) == Uncounted(s);
    if s.worker.Dequeue? { DequeueKeepsOwed(s); } else { WorkKeepsOwed(s); }
  }

  lemma WorkKeepsOwed(s: State)
    requires CounterOk(s) && BatchOk(s) && Enabled(s, Work) && !s.worker.Dequeue?
    ensures var r := ApplyWork(s);
      |r.dequeued| + r.count + Owed(r.worker) == |s.dequeued| + s.count + Owed(s.worker)
  {
  }

  lemma DequeueKeepsOwed(s: State)
    requires Enabled(s, Work) && s.worker.Dequeue?
    requires s.worker.deq.CheckEmpty? ==> !(s.head == DUMMY && s.tail == DUMMY)
    ensures var r := ApplyWork(s);
      |r.dequeued| + r.count + Owed(r.worker) == |s.dequeued| + s.count + Owed(s.worker)
  {
  }

  lemma WorkKeepsCounter(s: State)
    requires Balance(s) && CounterOk(s) && BatchOk(s) && Enabled(s, Work)
    ensures CounterOk(ApplyWork(s))
  {
  }

  lemma WorkKeepsBatch(s: State)
    requires Balance(s) && CounterOk(s) && BatchOk(s) && Enabled(s, Work)
    requires s.worker.Dequeue? && s.worker.deq.CheckEmpty? ==> !(s.head == DUMMY && s.tail == DUMMY)
    ensures BatchOk(ApplyWork(s))
  {
    if s.worker.Dequeue? { DequeueKeepsBatch(s); } else { LoopKeepsBatch(s); }
  }

  lemma LoopKeepsBatch(s: State)
    requires Balance(s) && CounterOk(s) && BatchOk(s) && Enabled(s, Work) && !s.worker.Dequeue?
    ensures BatchOk(ApplyWork(s))
  {
  }

  lemma DequeueKeepsBatch(s: State)
    requires BatchOk(s) && Enabled(s, Work) && s.worker.Dequeue?
    requires s.worker.deq.CheckEmpty? ==> !(s.head == DUMMY && s.tail == DUMMY)
    ensures BatchOk(ApplyWork(s))
  {
  }

  lemma ProduceKeepsCount(s: State, p: Tid)
    requires Balance(s) && CounterOk(s) && Enabled(s, Produce(p))
    ensures Balance(ApplyProduce(s, p)) && CounterOk(ApplyProduce(s, p))
  {
    UncountedStep(s, ApplyProduce(s, p), p);
  }

  lemma StepKeepsCount(s: State, l: Label)
    requires Balance(s) && CounterOk(s) && BatchOk(s) && Enabled(s, l)
    requires s.worker.Dequeue? && s.worker.deq.CheckEmpty? ==> !(s.head == DUMMY && s.tail == DUMMY)
    ensures Balance(Apply(s, l)) && CounterOk(Apply(s, l)) && BatchOk(Apply(s, l))
  {
    match l {
      case Begin(p, node, func) => UncountedStep(s, Apply(s, l), p);
      case Produce(p) => ProduceKeepsCount(s, p);
      case Work =>
        WorkKeepsCount(s);
        WorkKeepsCounter(s);
        WorkKeepsBatch(s);
      case GraceDone => assert Uncounted(Apply(s, l)) == Uncounted(s);
      case Stutter =>
    }
  }

  // ---------- Wake-ups ----------

  ghost predicate SomeNotify(s: State) {
    exists p :: p in s.producers && s.producers[p].Notify?
  }

  ghost predicate SomeCountOrNotify(s: State) {
    exists p :: p in s.producers && (s.producers[p].Count? || s.producers[p].Notify?)
  }

  ghost predicate WakeInv(s: State) {
    && (s.worker.WaitCount? && !s.ready && s.count != 0 ==> SomeNotify(s))
    && (s.worker.WaitNode? && !s.ready && NextOf(s, s.head).Some? ==> SomeCountOrNotify(s))
  }

  lemma ProduceKeepsWake(s: State, p: Tid)
    requires WakeInv(s) && Enabled(s, Produce(p))
    ensures WakeInv(ApplyProduce(s, p))
  {
    var s' := ApplyProduce(s, p);
    assert p in s'.producers;
    if SomeNotify(s) {
      var q :| q in s.producers && s.producers[q].Notify?;
      assert q in s'.producers;
    }
    if SomeCountOrNotify(s) {
      var q :| q in s.producers && (s.producers[q].Count? || s.producers[q].Notify?);
      assert q in s'.producers;
    }
  }

  lemma BeginKeepsWake(s: State, l: Label)
    requires WakeInv(s) && l.Begin? && Enabled(s, l)
    ensures WakeInv(Apply(s, l))
  {
    var s' := Apply(s, l);
    if SomeNotify(s) {
      var q :| q in s.producers && s.producers[q].Notify?;
      assert q in s'.producers;
    }
    if SomeCountOrNotify(s) {
      var q :| q in s.producers && (s.producers[q].Count? || s.producers[q].Notify?);
      assert q in s'.producers;
    }
  }

  lemma StepKeepsWake(s: State, l: Label)
    requires WakeInv(s) && Enabled(s, l)
    ensures WakeInv(Apply(s, l))
  {
    match l {
      case Begin(_, _, _) => BeginKeepsWake(s, l);
      case Produce(p) => ProduceKeepsWake(s, p);
      case _ =>
    }
  }

  // ---------- Draining ----------

  function JobOf(pc: Producer): Job {
    match pc
    case Link(_, _, job, _) => job
    case Count(job) => job
    case Notify(job) => job
    case Await(job) => job
    case _ => Forgotten
  }

  predicate Drains(pc: Producer, x: Node) {
    JobOf(pc).Draining? && JobOf(pc).node == x
  }

  // The worker has no use left for the node of the k-th callback.
  predicate Stale(s: State, k: nat) {
    k < |s.dequeued|
    && !(k == |s.dequeued| - 1 && (s.worker.Invoke? || (s.worker.Running? && s.worker.func.Drain?)))
  }

  ghost predicate StaleBefore(s: State, x: Node, t: nat)
    requires t <= |s.enqueued|
  {
    forall k :: 0 <= k < t && s.enqueued[k] == x ==> Stale(s, k)
  }

  ghost predicate HoldOk(s: State, p: Tid)
    requires p in s.producers
  {
    var pc := s.producers[p];
    && (pc.Link? && pc.job.Draining? ==> pc.job.node == pc.node)
    && (pc.Await? ==> pc.job.Draining?)
    && (Preparing(pc) ==>
          && StaleBefore(s, pc.node, |s.enqueued|)
          && (pc.func.Drain? ==> pc.node !in s.complete)
          && forall q :: q in s.producers ==> !Drains(s.producers[q], pc.node))
    && (JobOf(pc).Draining? ==>
          var x, t := JobOf(pc).node, JobOf(pc).ticket;
          && t < |s.enqueued| && s.enqueued[t] == x && StaleBefore(s, x, t)
          && (forall k :: t < k < |s.enqueued| ==> s.enqueued[k] != x)
          && (x in s.complete ==> t < s.finished))
  }

  ghost predicate DrainInv(s: State) {
    forall p {:trigger HoldOk(s, p)} :: p in s.producers ==> HoldOk(s, p)
  }

  lemma PendingIsQueued(s: State, k: nat)
    requires OrderInv(s) && |s.dequeued| <= k < |s.enqueued|
    ensures InQueue(s, s.enqueued[k])
  {
    var rest := s.chain[s.hd..];
    assert s.enqueued[k] == Callbacks(rest)[k - |s.dequeued|];
    CallbacksMembers(rest);
    assert s.enqueued[k] in Callbacks(rest);
    var i :| 0 <= i < |rest| && rest[i].node == s.enqueued[k];
    assert s.chain[s.hd + i].node == s.enqueued[k];
  }

  lemma BeginKeepsHold(s: State, l: Label, q: Tid)
    requires DrainInv(s) && OrderInv(s) && BatchOk(s) && l.Begin? && Enabled(s, l) && q in s.producers
    ensures HoldOk(Apply(s, l), q)
  {
    var s' := Apply(s, l);
    assert HoldOk(s, q);
    assert q != l.p ==> !Holds(s.producers[q], l.node);
    if q == l.p {
      forall k | 0 <= k < |s'.enqueued| && s'.enqueued[k] == l.node ensures Stale(s', k) {
        if k >= |s.dequeued| { PendingIsQueued(s, k); }
        assert s.enqueued[k] == s.dequeued[k];
      }
      forall r | r in s'.producers ensures !Drains(s'.producers[r], l.node) {
        assert HoldOk(s, r) && !Holds(s.producers[r], l.node);
      }
    }
  }

  // What a bystander holds survives an exchange of another node.
  lemma BystanderKeepsHold(s: State, s': State, q: Tid, x: Node)
    requires q in s.producers && HoldOk(s, q)
    requires q in s'.producers && s'.producers[q] == s.producers[q]
    requires s'.worker == s.worker && s'.dequeued == s.dequeued && s'.finished == s.finished
             && s'.complete == s.complete
    requires s'.enqueued == s.enqueued
             || (s'.enqueued == s.enqueued + [x] && !Drains(s.producers[q], x)
                 && (Preparing(s.producers[q]) ==> s.producers[q].node != x))
    requires Preparing(s.producers[q]) ==> forall r :: r in s'.producers ==>
             !Drains(s'.producers[r], s.producers[q].node)
    ensures HoldOk(s', q)
  {
  }

  // No step of another producer gives it a node that `q` is preparing.
  lemma OthersDrainElsewhere(s: State, p: Tid, q: Tid, r: Tid)
    requires Enabled(s, Produce(p)) && q in s.producers && q != p && r in s.producers
    requires HoldOk(s, q) && FreshOk(s, q) && Preparing(s.producers[q])
    ensures !Drains(ApplyProduce(s, p).producers[r], s.producers[q].node)
  {
    assert !Drains(s.producers[r], s.producers[q].node);
    assert r != p ==> ApplyProduce(s, p).producers[r] == s.producers[r];
  }

  lemma OwnStepKeepsHold(s: State, p: Tid)
    requires Enabled(s, Produce(p)) && HoldOk(s, p)
    ensures HoldOk(ApplyProduce(s, p), p)
  {
    if s.producers[p].Clear? {
      ClearKeepsHold(s, p);
    } else if s.producers[p].Exchange? {
      ExchangeKeepsHold(s, p);
    } else {
      LinkedKeepsHold(s, p);
    }
  }

  // The steps after the exchange.
  lemma LinkedKeepsHold(s: State, p: Tid)
    requires Enabled(s, Produce(p)) && HoldOk(s, p) && !Preparing(s.producers[p])
    ensures HoldOk(ApplyProduce(s, p), p)
  {
    var s' := ApplyProduce(s, p);
    assert s'.enqueued == s.enqueued && s'.complete == s.complete && s'.finished == s.finished;
  }

  lemma ExchangeKeepsHold(s: State, p: Tid)
    requires Enabled(s, Produce(p)) && HoldOk(s, p) && s.producers[p].Exchange?
    ensures HoldOk(ApplyProduce(s, p), p)
  {
  }

  lemma ClearKeepsHold(s: State, p: Tid)
    requires Enabled(s, Produce(p)) && HoldOk(s, p) && s.producers[p].Clear?
    ensures HoldOk(ApplyProduce(s, p), p)
  {
    var s' := ApplyProduce(s, p);
    forall r | r in s'.producers ensures !Drains(s'.producers[r], s.producers[p].node) {
      assert !Drains(s.producers[r], s.producers[p].node);
    }
  }

  lemma ProduceKeepsHold(s: State, p: Tid, q: Tid)
    requires DrainInv(s) && ProducersOk(s) && Enabled(s, Produce(p)) && q in s.producers
    ensures HoldOk(ApplyProduce(s, p), q)
  {
    var s' := ApplyProduce(s, p);
    assert HoldOk(s, q) && HoldOk(s, p) && FreshOk(s, q);
    if q == p {
      OwnStepKeepsHold(s, p);
    } else {
      if Preparing(s.producers[q]) {
        forall r | r in s'.producers ensures !Drains(s'.producers[r], s.producers[q].node) {
          OthersDrainElsewhere(s, p, q, r);
        }
      }
      if s.producers[p].Exchange? {
        BystanderKeepsHold(s, s', q, s.producers[p].node);
      } else {
        BystanderKeepsHold(s, s', q, DUMMY);
      }
    }
  }

  lemma WorkKeepsStale(s: State, k: nat)
    requires Enabled(s, Work) && Stale(s, k)
    ensures Stale(ApplyWork(s), k)
  {
  }

  // drain_rcu_callback runs for the drainer that is waiting, not for an earlier user of the node.
  lemma CallbackIsTheDrainers(s: State, q: Tid)
    requires OrderInv(s) && BatchOk(s) && s.worker.Running? && s.worker.func.Drain?
    requires q in s.producers && HoldOk(s, q) && Drains(s.producers[q], s.worker.node)
    ensures JobOf(s.producers[q]).ticket == s.finished
  {
    var k := |s.dequeued| - 1;
    assert s.enqueued[k] == s.dequeued[k];
    assert !Stale(s, k);
  }

  lemma WorkKeepsHold(s: State, q: Tid)
    requires DrainInv(s) && OrderInv(s) && BatchOk(s) && Enabled(s, Work) && q in s.producers
    ensures HoldOk(ApplyWork(s), q)
  {
    var s' := ApplyWork(s);
    var pc := s.producers[q];
    assert HoldOk(s, q);
    forall k: nat | Stale(s, k) ensures Stale(s', k) { WorkKeepsStale(s, k); }
    if s.worker.Running? && s.worker.func.Drain? {
      if Drains(pc, s.worker.node) { CallbackIsTheDrainers(s, q); }
      assert s.enqueued[|s.dequeued| - 1] == s.dequeued[|s.dequeued| - 1] == s.worker.node;
      assert !Stale(s, |s.dequeued| - 1);
    }
  }

  lemma StepKeepsDrain(s: State, l: Label)
    requires DrainInv(s) && OrderInv(s) && BatchOk(s) && ProducersOk(s) && Enabled(s, l)
    ensures DrainInv(Apply(s, l))
  {
    var s' := Apply(s, l);
    forall q | q in s'.producers ensures HoldOk(s', q) {
      match l {
        case Begin(_, _, _) => BeginKeepsHold(s, l, q);
        case Produce(p) => ProduceKeepsHold(s, p, q);
        case Work => WorkKeepsHold(s, q);
        case GraceDone => assert HoldOk(s, q); assert forall k: nat :: Stale(s', k) == Stale(s, k);
        case Stutter => assert HoldOk(s, q);
      }
    }
  }

  // ---------- Runs ----------

  ghost predicate Next(s: State, s': State) {
    exists l :: Enabled(s, l) && s' == Apply(s, l)
  }

  ghost predicate NextAt(tr: seq<State>, i: nat)
    requires i < |tr| - 1
  {
    Next(tr[i], tr[i + 1])
  }

  ghost predicate Run(tr: seq<State>) {
    tr != [] && Init(tr[0]) && forall i :: 0 <= i < |tr| - 1 ==> NextAt(tr, i)
  }

  ghost predicate Inv(s: State) {
    ListInv(s) && OrderInv(s) && Balance(s) && CounterOk(s) && BatchOk(s) && WakeInv(s) && DrainInv(s)
  }

  lemma InitInv(s: State)
    requires Init(s)
    ensures Inv(s)
  {
    assert Uncounted(s) == {};
    assert s.chain[s.hd..] == [Entry(DUMMY, ByWorker)];
  }

  lemma StepKeepsInv(s: State, l: Label)
    requires Inv(s) && Enabled(s, l)
    ensures Inv(Apply(s, l))
  {
    if s.worker.Dequeue? && s.worker.deq.CheckEmpty? { AbortUnreachable(s); }
    StepKeepsList(s, l); StepKeepsOrder(s, l); StepKeepsCount(s, l); StepKeepsWake(s, l); StepKeepsDrain(s, l);
  }

  lemma RunKeepsInv(tr: seq<State>, i: nat)
    requires Run(tr) && i < |tr|
    ensures Inv(tr[i])
  {
    if i == 0 {
      InitInv(tr[0]);
    } else {
      RunKeepsInv(tr, i - 1);
      assert NextAt(tr, i - 1);
      var l :| Enabled(tr[i - 1], l) && tr[i] == Apply(tr[i - 1], l);
      StepKeepsInv(tr[i - 1], l);
    }
  }

  lemma LabelOf(tr: seq<State>, i: nat) returns (l: Label)
    requires Run(tr) && 0 < i < |tr|
    ensures Inv(tr[i - 1]) && Enabled(tr[i - 1], l) && tr[i] == Apply(tr[i - 1], l)
  {
    RunKeepsInv(tr, i - 1);
    assert NextAt(tr, i - 1);
    l :| Enabled(tr[i - 1], l) && tr[i] == Apply(tr[i - 1], l);
  }

  // ---------- Main results ----------

  /** Nodes come out in the order of their tail exchanges, each exchange at most once, the dummy never. */
  lemma DequeuesInExchangeOrder(tr: seq<State>, i: nat)
    requires Run(tr) && i < |tr|
    ensures tr[i].dequeued <= tr[i].enqueued && DUMMY !in tr[i].dequeued
  {
    RunKeepsInv(tr, i);
  }

  /** try_dequeue reads NULL from the head only if everything enqueued has come out, or the producer
      of the very next node is between its exchange and its link store. */
  lemma NullMeansEmptyOrInFlight(tr: seq<State>, i: nat)
    requires Run(tr) && i < |tr|
    requires tr[i].worker.Dequeue? && tr[i].worker.deq.LoadNext? && NextOf(tr[i], tr[i].head).None?
    ensures tr[i].dequeued == tr[i].enqueued
            || exists p :: p in tr[i].producers && tr[i].producers[p].Link? && tr[i].producers[p].prev == tr[i].head
  {
    RunKeepsInv(tr, i);
    var s := tr[i];
    if s.hd + 1 < |s.chain| {
      assert LinkedAt(s, s.hd + 1) && InFlight(s, s.hd + 1);
      assert ProducerFlightOk(s, s.chain[s.hd + 1].who.p);
    } else {
      assert s.chain[s.hd..] == [s.chain[s.dm]];
      assert Callbacks([s.chain[s.dm]]) == [];
    }
  }

  /** After one retry the head is not the dummy, so there is no second retry; and abort() is not reached. */
  lemma RetryAtMostOnce(tr: seq<State>, i: nat)
    requires Run(tr) && i < |tr|
    ensures !tr[i].worker.Aborted?
    ensures (tr[i].worker.Dequeue? && tr[i].worker.deq.Advance? && tr[i].worker.deq.retried) ==>
              Apply(tr[i], Work).worker.Invoke?
  {
    RunKeepsInv(tr, i);
  }

  /** Once a node is returned, the head, the tail, every link of the list and every producer that is
      about to link refer to other nodes. */
  lemma ReturnedNodeUnreferenced(tr: seq<State>, i: nat)
    requires Run(tr) && i < |tr| && tr[i].worker.Invoke?
    ensures var x := tr[i].worker.node;
      && x != tr[i].head && x != tr[i].tail
      && (forall p :: p in tr[i].producers && tr[i].producers[p].Link? ==>
            tr[i].producers[p].prev != x && tr[i].producers[p].node != x)
      && (forall k :: tr[i].hd <= k < |tr[i].chain| ==> NextOf(tr[i], tr[i].chain[k].node) != Some(x))
  {
    RunKeepsInv(tr, i);
    var s := tr[i];
    forall p | p in s.producers && s.producers[p].Link?
      ensures s.producers[p].prev != s.worker.node && s.producers[p].node != s.worker.node
    {
      assert ProducerFlightOk(s, p);
    }
    forall k | s.hd <= k < |s.chain| ensures NextOf(s, s.chain[k].node) != Some(s.worker.node) {
      if k + 1 < |s.chain| { assert LinkedAt(s, k + 1); }
    }
  }

  /** If the worker sleeps on the unset ready event while work is counted, or while it still owes
      callbacks, some producer is inside call_rcu1 before its last step, which sets the event; that
      producer can always take its next step. */
  lemma NoLostWakeup(tr: seq<State>, i: nat)
    requires Run(tr) && i < |tr| && !tr[i].ready
    requires (tr[i].worker.WaitCount? && tr[i].count != 0) || tr[i].worker.WaitNode?
    ensures exists p :: p in tr[i].producers && Enabled(tr[i], Produce(p))
              && (tr[i].producers[p].Link? || tr[i].producers[p].Count? || tr[i].producers[p].Notify?)
  {
    RunKeepsInv(tr, i);
    var s := tr[i];
    if s.worker.WaitCount? {
      var p :| p in s.producers && s.producers[p].Notify?;
      assert Enabled(s, Produce(p));
    } else if NextOf(s, s.head).Some? {
      var p :| p in s.producers && (s.producers[p].Count? || s.producers[p].Notify?);
      assert Enabled(s, Produce(p));
    } else {
      CallbacksMembers(s.chain[s.hd..]);
      assert s.chain[s.hd..][s.dm - s.hd].node == DUMMY;
      assert LinkedAt(s, s.hd + 1) && InFlight(s, s.hd + 1);
      var p := s.chain[s.hd + 1].who.p;
      assert Enabled(s, Produce(p));
    }
  }

  /** drain_call_rcu can only return when its own callback and every callback whose tail exchange
      preceded its own have finished. */
  lemma DrainIsSound(tr: seq<State>, i: nat, p: Tid)
    requires Run(tr) && i < |tr| && p in tr[i].producers
    requires tr[i].producers[p].Await? && Enabled(tr[i], Produce(p))
    ensures tr[i].producers[p].job.Draining?
    ensures var t := tr[i].producers[p].job.ticket;
      t < |tr[i].enqueued| && tr[i].enqueued[t] == tr[i].producers[p].job.node && t < tr[i].finished <= |tr[i].dequeued|
  {
    RunKeepsInv(tr, i);
    assert HoldOk(tr[i], p);
  }

  lemma LogsGrow(tr: seq<State>, i: nat, j: nat)
    requires Run(tr) && i <= j < |tr|
    ensures tr[i].enqueued <= tr[j].enqueued && tr[i].dequeued <= tr[j].dequeued && tr[i].finished <= tr[j].finished
    decreases j - i
  {
    if i < j {
      LogsGrow(tr, i, j - 1);
      var l := LabelOf(tr, j);
      LogsStep(tr[j - 1], l);
      Prefixes(tr[i].enqueued, tr[j - 1].enqueued, tr[j].enqueued);
      Prefixes(tr[i].dequeued, tr[j - 1].dequeued, tr[j].dequeued);
    }
  }

  lemma LogsStep(s: State, l: Label)
    requires Enabled(s, l)
    ensures s.enqueued <= Apply(s, l).enqueued && s.dequeued <= Apply(s, l).dequeued
            && s.finished <= Apply(s, l).finished
  {
  }

  lemma Prefixes(x: seq<Node>, y: seq<Node>, z: seq<Node>)
    requires x <= y <= z
    ensures x <= z
  {
  }

  predicate InBatch(w: Worker) {
    w.Subtract? || w.Loop? || w.Dequeue? || w.ResetAgain? || w.WaitNode? || w.Invoke? || w.Running?
  }

  lemma BatchStep(s: State, l: Label)
    requires Inv(s) && Enabled(s, l)
    ensures InBatch(Apply(s, l).worker) ==>
              (InBatch(s.worker) || (s.worker.Sync? && l.GraceDone?)) && Apply(s, l).limit == s.limit
    ensures Apply(s, l).worker.Sync? ==>
              if s.worker.Sync? then Apply(s, l).limit == s.limit
              else s.worker.ReadCount? && l.Work? && Apply(s, l).limit == |Apply(s, l).enqueued|
  {
    if l.Work? { if s.worker.Dequeue? { DequeueInBatch(s); } else { WorkInBatch(s); } }
  }

  lemma WorkInBatch(s: State)
    requires Enabled(s, Work) && !s.worker.Dequeue?
    ensures InBatch(ApplyWork(s).worker) ==> InBatch(s.worker) && ApplyWork(s).limit == s.limit
    ensures ApplyWork(s).worker.Sync? ==> s.worker.ReadCount? && ApplyWork(s).limit == |ApplyWork(s).enqueued|
  {
  }

  lemma DequeueInBatch(s: State)
    requires Enabled(s, Work) && s.worker.Dequeue?
    ensures ApplyWork(s).limit == s.limit && !ApplyWork(s).worker.Sync?
  {
  }

  lemma SyncOrigin(tr: seq<State>, e: nat) returns (m: nat)
    requires Run(tr) && e < |tr| && tr[e].worker.Sync?
    ensures 0 < m <= e && tr[m - 1].worker.ReadCount? && (forall k :: m <= k <= e ==> tr[k].worker.Sync?)
    ensures tr[e].limit == |tr[m].enqueued|
  {
    var l := LabelOf(tr, e);
    BatchStep(tr[e - 1], l);
    if tr[e - 1].worker.Sync? {
      m := SyncOrigin(tr, e - 1);
    } else {
      m := e;
    }
  }

  lemma BatchLimit(tr: seq<State>, j: nat) returns (m: nat, e: nat)
    requires Run(tr) && j < |tr| && InBatch(tr[j].worker)
    ensures 0 < m <= e < j && tr[m - 1].worker.ReadCount?
    ensures (forall k :: m <= k <= e ==> tr[k].worker.Sync?) && InBatch(tr[e + 1].worker)
    ensures tr[j].limit == |tr[m].enqueued|
  {
    var l := LabelOf(tr, j);
    BatchStep(tr[j - 1], l);
    if tr[j - 1].worker.Sync? {
      e := j - 1;
      m := SyncOrigin(tr, e);
    } else {
      m, e := BatchLimit(tr, j - 1);
    }
  }

  lemma BatchWithinLimit(s: State)
    requires Inv(s) && InBatch(s.worker)
    ensures s.dequeued <= s.enqueued && |s.dequeued| + Owed(s.worker) <= s.limit && Owed(s.worker) >= 0
  {
  }

  /** Every batch goes back to a grace period and a reading of the counter: the worker read it at
      step `m`, synchronize_rcu returned after step `e`, and what it has dequeued at step `j`, and
      the callbacks it still owes, were all exchanged before step `m`. */
  lemma BatchOrigin(tr: seq<State>, j: nat) returns (m: nat, e: nat)
    requires Run(tr) && j < |tr| && InBatch(tr[j].worker)
    ensures 0 < m <= e < j && tr[m - 1].worker.ReadCount?
    ensures (forall k :: m <= k <= e ==> tr[k].worker.Sync?) && InBatch(tr[e + 1].worker)
    ensures tr[j].dequeued <= tr[m].enqueued
    ensures |tr[j].dequeued| + Owed(tr[j].worker) <= |tr[m].enqueued|
  {
    m, e := BatchLimit(tr, j);
    BatchWithinLimit(tr[j]) by { RunKeepsInv(tr, j); }
    LogsGrow(tr, m, j);
    var d, x, y := tr[j].dequeued, tr[m].enqueued, tr[j].enqueued;
    assert d == y[..|d|] == x[..|d|];
  }
}
