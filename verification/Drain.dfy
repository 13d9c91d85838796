// Coordination traffic drains: handling a message only produces messages of a lower kind, so
// with no new input the network empties, and then every worker has flushed.
module Drain {
  import MapOrder
  import Sums
  import opened EofProtocol
  import opened ReplicaGroup
  import Barrier
  import opened Liveness
  import opened NoLostFlush

  // Answering a wake-up sends EOFs and batches; learning an EOF sends batches; batches send nothing.
  function Rank(m: Msg): nat {
    match m case WakeUp(_) => 2 case EofArrived(_, _, _) => 1 case BatchInfo(_, _) => 0
  }

  ghost function PickOne(m: multiset<Packet>): (p: Packet)
    requires m != multiset{}
    ensures p in m
  {
    var p :| p in m; p
  }

  // How many messages of one kind are in flight.
  ghost function Count(m: multiset<Packet>, rank: nat): nat
    decreases |m|
  {
    if m == multiset{} then 0
    else
      var p := PickOne(m);
      (if Rank(p.msg) == rank then 1 else 0) + Count(m - multiset{p}, rank)
  }

  lemma {:induction false} CountRemove(m: multiset<Packet>, p: Packet, rank: nat)
    requires p in m
    ensures Count(m, rank) == Count(m - multiset{p}, rank) + (if Rank(p.msg) == rank then 1 else 0)
    decreases |m|
  {
    var x := PickOne(m);
    if x != p {
      CountRemove(m - multiset{x}, p, rank);
      CountRemove(m - multiset{p}, x, rank);
      assert m - multiset{x} - multiset{p} == m - multiset{p} - multiset{x};
    }
  }

  lemma {:induction false} CountAdd(m: multiset<Packet>, extra: multiset<Packet>, rank: nat)
    ensures Count(m + extra, rank) == Count(m, rank) + Count(extra, rank)
    decreases |extra|
  {
    if extra == multiset{} {
      assert m + extra == m;
    } else {
      var p := PickOne(extra);
      CountRemove(m + extra, p, rank);
      CountAdd(m, extra - multiset{p}, rank);
      assert m + extra - multiset{p} == m + (extra - multiset{p});
    }
  }

  lemma {:induction false} CountNone(m: multiset<Packet>, rank: nat)
    requires forall p :: p in m ==> Rank(p.msg) != rank
    ensures Count(m, rank) == 0
    decreases |m|
  {
    if m != multiset{} {
      CountNone(m - multiset{PickOne(m)}, rank);
    }
  }

  ghost predicate Less(a: multiset<Packet>, b: multiset<Packet>) {
    || Count(a, 2) < Count(b, 2)
    || (Count(a, 2) == Count(b, 2) && Count(a, 1) < Count(b, 1))
    || (Count(a, 2) == Count(b, 2) && Count(a, 1) == Count(b, 1) && Count(a, 0) < Count(b, 0))
  }

  // ---- One delivery ----

  ghost predicate Deliverable<T>(t: Truth<T>, s: System<T>, p: Packet, o: Orders) {
    Occurs(t, s, PacketArrives(p)) && ValidOrders(Knowing(t, s, PacketArrives(p)), o)
  }

  ghost function Deliver<T>(t: Truth<T>, cfg: Config, s: System<T>, p: Packet, o: Orders): System<T>
    requires Deliverable(t, s, p, o)
  {
    Next(t, cfg, s, Handle(PacketArrives(p), o, |Handler(t, cfg, s, PacketArrives(p), o)|, Done))
  }

  lemma WakeUpRanksLower<T>(cfg: Config, w: nat, v: ClientView, q: nat, o: Orders, m: Packet)
    requires Send(m) in AnswerWakeUp<T>(cfg, w, v, q, o)
    ensures Rank(m.msg) < 2
  {
    var op: Op<T> := Send(m);
    if op in SendEOFs<T>(q, w, v.ownEOFs, o.eofs) {
      SendEOFsMember(q, w, v.ownEOFs, o.eofs, op);
    } else {
      SendChunksMember([q], w, Packed(cfg, v, o.batches), op);
    }
  }

  lemma EOFRanksLower<T>(cfg: Config, w: nat, v: ClientView, q: nat, e: string, n: nat, o: Orders, m: Packet)
    requires Send(m) in RemoteEOF<T>(cfg, w, v, q, e, n, o)
    ensures Rank(m.msg) < 1
  {
    var k := MemOp<T>(v, AddPeerEOF(q, e, n));
    SendChunksMember<T>(Others(w, cfg.workers), w, Packed(cfg, k, o.batches), Send(m));
  }

  lemma BatchSendsNothing<T>(cfg: Config, v: ClientView, q: nat, info: seq<BatchRecord>, o: Orders, m: Packet)
    ensures Send(m) !in RemoteBatch<T>(cfg, v, q, info, o)
  {
    LearnMember<T>(v, q, info, Send(m));
  }

  lemma AnswersRankLower<T>(t: Truth<T>, cfg: Config, s: System<T>, p: Packet, o: Orders, m: Packet)
    requires Deliverable(t, s, p, o) && Send(m) in Handler(t, cfg, s, PacketArrives(p), o)
    ensures Rank(m.msg) < Rank(p.msg)
  {
    var v := s.replicas[p.to].mem;
    match p.msg
    case WakeUp(q) => WakeUpRanksLower<T>(cfg, p.to, v, q, o, m);
    case EofArrived(q, e, n) => EOFRanksLower<T>(cfg, p.to, v, q, e, n, o, m);
    case BatchInfo(q, info) => BatchSendsNothing<T>(cfg, v, q, info, o, m);
  }

  lemma DeliveryDecreases<T>(t: Truth<T>, cfg: Config, s: System<T>, p: Packet, o: Orders)
    requires Deliverable(t, s, p, o)
    ensures Less(Deliver(t, cfg, s, p, o).net, s.net)
  {
    var ops := Handler(t, cfg, s, PacketArrives(p), o);
    assert ops[..|ops|] == ops;
    var sent := Sent(ops);
    forall m | m in sent ensures Rank(m.msg) < Rank(p.msg) {
      SentMember(ops, m);
      AnswersRankLower(t, cfg, s, p, o, m);
    }
    var rest := s.net - multiset{p};
    assert Deliver(t, cfg, s, p, o).net == rest + sent;
    LowerIsLess(s.net, p, sent);
  }

  lemma LowerIsLess(net: multiset<Packet>, p: Packet, sent: multiset<Packet>)
    requires p in net && forall m :: m in sent ==> Rank(m.msg) < Rank(p.msg)
    ensures Less(net - multiset{p} + sent, net)
  {
    var rest := net - multiset{p};
    forall rank: nat | rank <= 2
      ensures Count(net, rank) == Count(rest, rank) + (if Rank(p.msg) == rank then 1 else 0)
      ensures Count(rest + sent, rank) == Count(rest, rank) + Count(sent, rank)
      ensures rank >= Rank(p.msg) ==> Count(sent, rank) == 0
    {
      CountRemove(net, p, rank);
      CountAdd(rest, sent, rank);
      if rank >= Rank(p.msg) { CountNone(sent, rank); }
    }
  }

  // ---- No schedule delivers forever ----

  lemma {:induction false} DeliveriesEnd<T>(t: Truth<T>, cfg: Config, states: nat -> System<T>,
                                              packets: nat -> Packet, orders: nat -> Orders, from: nat)
    ensures exists i :: i >= from && !(Deliverable(t, states(i), packets(i), orders(i))
                                       && states(i + 1) == Deliver(t, cfg, states(i), packets(i), orders(i)))
    decreases Count(states(from).net, 2), Count(states(from).net, 1), Count(states(from).net, 0)
  {
    if Deliverable(t, states(from), packets(from), orders(from))
       && states(from + 1) == Deliver(t, cfg, states(from), packets(from), orders(from)) {
      DeliveryDecreases(t, cfg, states(from), packets(from), orders(from));
      DeliveriesEnd(t, cfg, states, packets, orders, from + 1);
    }
  }

  // ---- Delivering everything ----

  // Messages go to, and wake-ups come from, members of the group.
  ghost predicate WellAddressed<T>(s: System<T>) {
    forall p :: p in s.net ==> p.to < |s.replicas| && (p.msg.WakeUp? ==> p.msg.sender < |s.replicas|)
  }

  lemma {:induction false} EnumerationExists<K(!new)>(s: set<K>) returns (order: seq<K>)
    ensures MapOrder.Enumerates(order, s)
    decreases s
  {
    if s == {} {
      order := [];
    } else {
      var k := Sums.Pick(s);
      var rest := EnumerationExists(s - {k});
      order := rest + [k];
    }
  }

  lemma OrdersExist(v: ClientView) returns (o: Orders)
    ensures ValidOrders(v, o)
  {
    var eofs := EnumerationExists(v.ownEOFs.Keys);
    var batches := EnumerationExists(v.ownBatches.Keys);
    var peers := EnumerationExists(v.peerBatches.Keys);
    var totals := EnumerationExists(v.peerEOFs.Keys);
    o := Orders(eofs, batches, peers, peers, totals);
  }

  ghost predicate InGroup(cfg: Config, m: Packet) { m.to < cfg.workers && !m.msg.WakeUp? }

  ghost predicate SendsInGroup<T>(cfg: Config, ops: seq<Op<T>>) {
    forall m :: Send(m) in ops ==> InGroup(cfg, m)
  }

  lemma BroadcastInGroup<T>(cfg: Config, w: nat, msg: Msg)
    requires !msg.WakeUp?
    ensures SendsInGroup(cfg, Broadcast<T>(cfg, w, msg))
  {
    forall m | Send(m) in Broadcast<T>(cfg, w, msg) ensures InGroup(cfg, m) {
      SendAllMember<T>(Others(w, cfg.workers), msg, Send(m));
      OthersMember(w, cfg.workers, m.to);
    }
  }

  lemma ShareInGroup<T>(cfg: Config, w: nat, v: ClientView, order: seq<string>, to: seq<nat>)
    requires forall q :: q in to ==> q < cfg.workers
    ensures SendsInGroup(cfg, ShareOwn<T>(cfg, w, v, order, to))
  {
    forall m | Send(m) in ShareOwn<T>(cfg, w, v, order, to) ensures InGroup(cfg, m) {
      SendChunksMember<T>(to, w, Packed(cfg, v, order), Send(m));
    }
  }

  lemma ShareWhenCompleteInGroup<T>(cfg: Config, w: nat, v: ClientView, o: Orders)
    ensures SendsInGroup(cfg, ShareWhenComplete<T>(cfg, w, v, o))
  {
    forall q | q in Others(w, cfg.workers) ensures q < cfg.workers { OthersMember(w, cfg.workers, q); }
    ShareInGroup<T>(cfg, w, v, o.batches, Others(w, cfg.workers));
  }

  lemma AnswerInGroup<T>(cfg: Config, w: nat, v: ClientView, q: nat, o: Orders)
    requires q < cfg.workers
    ensures SendsInGroup(cfg, AnswerWakeUp<T>(cfg, w, v, q, o))
  {
    ShareInGroup<T>(cfg, w, v, o.batches, [q]);
    forall m | Send(m) in SendEOFs<T>(q, w, v.ownEOFs, o.eofs) ensures InGroup(cfg, m) {
      SendEOFsMember<T>(q, w, v.ownEOFs, o.eofs, Send(m));
    }
  }

  lemma FlushInGroup<T>(cfg: Config, v: ClientView, o: Orders)
    ensures SendsInGroup(cfg, TryFlush<T>(cfg, v, o))
  {
    forall op: Op<T> | op in TryFlush<T>(cfg, v, o) ensures !op.Send? {
    }
  }

  lemma InGroupConcat<T>(cfg: Config, a: seq<Op<T>>, b: seq<Op<T>>)
    requires SendsInGroup(cfg, a) && SendsInGroup(cfg, b)
    ensures SendsInGroup(cfg, a + b)
  {
    forall m | Send(m) in a + b ensures InGroup(cfg, m) {
      assert Send(m) in a || Send(m) in b;
    }
  }

  lemma RecordBatchInGroup<T>(cfg: Config, w: nat, v: ClientView, r: BatchRecord, o: Orders)
    ensures SendsInGroup(cfg, RecordBatch<T>(cfg, w, v, r, o))
  {
    var tell: seq<Op<T>> := if HasAllEOFs(v, cfg.expected) then Broadcast(cfg, w, BatchInfo(w, [r])) else [];
    var write: seq<Op<T>> := [WriteBatch(r), AddOwnBatch(r)];
    BroadcastInGroup<T>(cfg, w, BatchInfo(w, [r]));
    FlushInGroup<T>(cfg, MemOp<T>(v, AddOwnBatch(r)), o);
    InGroupConcat(cfg, tell, write);
    InGroupConcat(cfg, tell + write, TryFlush(cfg, MemOp<T>(v, AddOwnBatch(r)), o));
  }

  lemma EOFInGroup<T>(cfg: Config, w: nat, k: ClientView, first: seq<Op<T>>, o: Orders)
    requires SendsInGroup(cfg, first)
    ensures SendsInGroup(cfg, first + ShareWhenComplete(cfg, w, k, o) + TryFlush(cfg, k, o))
  {
    ShareWhenCompleteInGroup<T>(cfg, w, k, o);
    FlushInGroup<T>(cfg, k, o);
    InGroupConcat(cfg, first, ShareWhenComplete(cfg, w, k, o));
    InGroupConcat(cfg, first + ShareWhenComplete(cfg, w, k, o), TryFlush(cfg, k, o));
  }

  lemma LocalEOFInGroup<T>(cfg: Config, w: nat, v: ClientView, e: string, n: nat, o: Orders)
    ensures SendsInGroup(cfg, LocalEOF<T>(cfg, w, v, e, n, o))
  {
    var write: seq<Op<T>> := [WriteEOF(e, n), AddOwnEOF(e, n)];
    BroadcastInGroup<T>(cfg, w, EofArrived(w, e, n));
    InGroupConcat(cfg, write, Broadcast(cfg, w, EofArrived(w, e, n)));
    EOFInGroup(cfg, w, MemOp<T>(v, AddOwnEOF(e, n)), write + Broadcast(cfg, w, EofArrived(w, e, n)), o);
  }

  lemma RemoteBatchInGroup<T>(cfg: Config, v: ClientView, q: nat, info: seq<BatchRecord>, o: Orders)
    ensures SendsInGroup(cfg, RemoteBatch<T>(cfg, v, q, info, o))
  {
    var learn: seq<Op<T>> := Learn(v, q, info);
    forall op | op in learn ensures !op.Send? { LearnMember(v, q, info, op); }
    FlushInGroup<T>(cfg, MemAfter(v, learn), o);
    InGroupConcat(cfg, learn, TryFlush(cfg, MemAfter(v, learn), o));
  }

  // What any handler sends stays in the group, and none sends a wake-up.
  lemma HandlerWellAddressed<T>(t: Truth<T>, cfg: Config, s: System<T>, e: Event, o: Orders)
    requires Occurs(t, s, e) && WellAddressed(s) && |s.replicas| == cfg.workers
    ensures SendsInGroup(cfg, Handler(t, cfg, s, e, o))
  {
    var w := WorkerOf(e);
    var v := s.replicas[w].mem;
    match e
    case DataArrives(_, id) =>
      RecordBatchInGroup<T>(cfg, w, v, t.records[id], o);
      forall op | op in PublishAll(t.outputs[id]) ensures !op.Send? { Barrier.PublishAllMember(t.outputs[id], op); }
      InGroupConcat(cfg, PublishAll(t.outputs[id]), RecordBatch(cfg, w, v, t.records[id], o));
    case BatchCounted(_, id) => RecordBatchInGroup<T>(cfg, w, v, t.records[id], o);
    case EofArrives(_, id) => LocalEOFInGroup<T>(cfg, w, v, id, t.eofs[id], o);
    case PacketArrives(p) =>
      match p.msg
      case WakeUp(q) => AnswerInGroup<T>(cfg, w, v, q, o);
      case EofArrived(q, e, n) => EOFInGroup<T>(cfg, w, MemOp<T>(v, AddPeerEOF(q, e, n)), [AddPeerEOF(q, e, n)], o);
      case BatchInfo(q, info) => RemoteBatchInGroup<T>(cfg, v, q, info, o);
  }

  lemma SentWellAddressed<T>(t: Truth<T>, cfg: Config, s: System<T>, e: Event, o: Orders, cut: nat)
    requires Occurs(t, s, e) && WellAddressed(s) && |s.replicas| == cfg.workers
    requires cut <= |Handler(t, cfg, s, e, o)|
    ensures forall m :: m in Sent(Handler(t, cfg, s, e, o)[..cut]) ==> m.to < cfg.workers && !m.msg.WakeUp?
  {
    var ops := Handler(t, cfg, s, e, o);
    forall m | m in Sent(ops[..cut]) ensures m.to < cfg.workers && !m.msg.WakeUp? {
      SentMember(ops[..cut], m);
      assert Send(m) in ops;
      HandlerWellAddressed(t, cfg, s, e, o);
      assert InGroup(cfg, m);
    }
  }

  lemma RebootWellAddressed<T>(cfg: Config, s: System<T>, w: nat)
    requires WellAddressed(s) && |s.replicas| == cfg.workers && w < cfg.workers
    ensures WellAddressed(Reboot(cfg, s, w)) && |Reboot(cfg, s, w).replicas| == cfg.workers
  {
    forall m | m in Sent<T>(Broadcast(cfg, w, WakeUp(w))) ensures m.to < cfg.workers && m.msg == WakeUp(w) {
      SentMember(Broadcast<T>(cfg, w, WakeUp(w)), m);
      SendAllMember<T>(Others(w, cfg.workers), WakeUp(w), Send(m));
      OthersMember(w, cfg.workers, m.to);
    }
  }

  lemma StepWellAddressed<T>(t: Truth<T>, cfg: Config, s: System<T>, step: Step)
    requires Enabled(t, cfg, s, step) && WellAddressed(s) && |s.replicas| == cfg.workers
    ensures WellAddressed(Next(t, cfg, s, step)) && |Next(t, cfg, s, step).replicas| == cfg.workers
  {
    match step
    case Handle(e, o, cut, outcome) =>
      SentWellAddressed(t, cfg, s, e, o, cut);
      var s' := Perform(s, WorkerOf(e), Handler(t, cfg, s, e, o)[..cut]);
      var s'' := s'.(net := s'.net - Consumed(e, outcome));
      assert WellAddressed(s'');
      RebootWellAddressed(cfg, s'', WorkerOf(e));
    case Restart(w) => RebootWellAddressed(cfg, s, w);
    case Duplicate(p) =>
    case Drop(p) =>
  }

  lemma {:induction false} FirstWakeUpsWellAddressed<T>(cfg: Config, n: nat, p: Packet)
    requires n <= cfg.workers && p in FirstWakeUps<T>(cfg, n)
    ensures p.to < cfg.workers && p.msg.WakeUp? && p.msg.sender < cfg.workers
  {
    if p in Sent<T>(Broadcast(cfg, n - 1, WakeUp(n - 1))) {
      SentMember(Broadcast<T>(cfg, n - 1, WakeUp(n - 1)), p);
      SendAllMember<T>(Others(n - 1, cfg.workers), WakeUp(n - 1), Send(p));
      OthersMember(n - 1, cfg.workers, p.to);
    } else {
      FirstWakeUpsWellAddressed<T>(cfg, n - 1, p);
    }
  }

  lemma {:induction false} RunWellAddressed<T>(t: Truth<T>, cfg: Config, states: seq<System<T>>, steps: seq<Step>, i: nat)
    requires IsRun(t, cfg, states, steps) && i < |states|
    ensures WellAddressed(states[i]) && |states[i].replicas| == cfg.workers
  {
    if i == 0 {
      forall p | p in Start<T>(cfg).net ensures p.to < cfg.workers && (p.msg.WakeUp? ==> p.msg.sender < cfg.workers) {
        FirstWakeUpsWellAddressed<T>(cfg, cfg.workers, p);
      }
    } else {
      RunWellAddressed(t, cfg, states, steps, i - 1);
      StepWellAddressed(t, cfg, states[i - 1], steps[i - 1]);
    }
  }

  lemma DeliverWellAddressed<T>(t: Truth<T>, cfg: Config, s: System<T>, p: Packet, o: Orders)
    requires Deliverable(t, s, p, o) && WellAddressed(s) && |s.replicas| == cfg.workers
    ensures WellAddressed(Deliver(t, cfg, s, p, o)) && |Deliver(t, cfg, s, p, o).replicas| == cfg.workers
  {
    StepWellAddressed(t, cfg, s, Handle(PacketArrives(p), o, |Handler(t, cfg, s, PacketArrives(p), o)|, Done));
  }

  datatype Delivery = Delivery(packet: Packet, orders: Orders)

  // Delivering the scheduled packets one after the other leads from s to s'.
  ghost predicate Drains<T>(t: Truth<T>, cfg: Config, s: System<T>, schedule: seq<Delivery>, s': System<T>)
    decreases |schedule|
  {
    if schedule == [] then s' == s
    else
      && Deliverable(t, s, schedule[0].packet, schedule[0].orders)
      && Drains(t, cfg, Deliver(t, cfg, s, schedule[0].packet, schedule[0].orders), schedule[1..], s')
  }

  lemma {:induction false} DrainToEmpty<T>(t: Truth<T>, cfg: Config, s: System<T>)
    returns (schedule: seq<Delivery>, s': System<T>)
    requires WellAddressed(s) && |s.replicas| == cfg.workers
    ensures Drains(t, cfg, s, schedule, s') && s'.net == multiset{}
    decreases Count(s.net, 2), Count(s.net, 1), Count(s.net, 0)
  {
    if s.net == multiset{} {
      schedule, s' := [], s;
    } else {
      var p := PickOne(s.net);
      var o := OrdersExist(Knowing(t, s, PacketArrives(p)));
      var next := Deliver(t, cfg, s, p, o);
      DeliveryDecreases(t, cfg, s, p, o);
      assert WellAddressed(next) by { DeliverWellAddressed(t, cfg, s, p, o); }
      var rest;
      rest, s' := DrainToEmpty(t, cfg, next);
      schedule := [Delivery(p, o)] + rest;
      assert schedule[1..] == rest;
    }
  }

  // From any state of any run, losses and crashes included, the network can be emptied.
  lemma RunCanDrain<T>(t: Truth<T>, cfg: Config, states: seq<System<T>>, steps: seq<Step>, i: nat)
    returns (schedule: seq<Delivery>, s': System<T>)
    requires IsRun(t, cfg, states, steps) && i < |states|
    ensures Drains(t, cfg, states[i], schedule, s') && s'.net == multiset{}
  {
    RunWellAddressed(t, cfg, states, steps, i);
    schedule, s' := DrainToEmpty(t, cfg, states[i]);
  }

  // ---- Every worker ends up flushed ----

  ghost predicate InputHandled<T>(t: Truth<T>, s: System<T>) {
    && (forall e :: e in t.eofs ==> exists w :: 0 <= w < |s.replicas| && e in s.replicas[w].mem.ownEOFs)
    && (forall id :: id in t.records && t.records[id].processed > 0 ==>
          exists w :: 0 <= w < |s.replicas| && id in s.replicas[w].mem.ownBatches)
  }

  lemma KnowingKeepsOwn<T>(t: Truth<T>, s: System<T>, p: Packet)
    requires Occurs(t, s, PacketArrives(p))
    ensures Knowing(t, s, PacketArrives(p)).ownEOFs == s.replicas[p.to].mem.ownEOFs
    ensures Knowing(t, s, PacketArrives(p)).ownBatches == s.replicas[p.to].mem.ownBatches
  {
    var r := s.replicas[p.to];
    if p.msg.BatchInfo? { LearnEffect<T>(r.mem, r.disk, p.msg.sender, p.msg.info); }
  }

  lemma DeliveredReplica<T>(t: Truth<T>, cfg: Config, s: System<T>, p: Packet, o: Orders, w: nat)
    requires Deliverable(t, s, p, o) && w < |s.replicas|
    ensures Deliver(t, cfg, s, p, o).replicas[w].mem ==
              if w == p.to then MemAfter(s.replicas[w].mem, Handler(t, cfg, s, PacketArrives(p), o))
              else s.replicas[w].mem
  {
    var ops := Handler(t, cfg, s, PacketArrives(p), o);
    assert ops[..|ops|] == ops;
  }

  lemma DeliverKeepsOwn<T>(t: Truth<T>, cfg: Config, s: System<T>, p: Packet, o: Orders, w: nat)
    requires WellFormed(t, cfg) && Live(t, cfg, s) && Deliverable(t, s, p, o) && w < |s.replicas|
    ensures Deliver(t, cfg, s, p, o).replicas[w].mem.ownEOFs == s.replicas[w].mem.ownEOFs
    ensures Deliver(t, cfg, s, p, o).replicas[w].mem.ownBatches == s.replicas[w].mem.ownBatches
  {
    DeliveredReplica(t, cfg, s, p, o, w);
    if w == p.to {
      HandlerLands(t, cfg, s, PacketArrives(p), o);
      KnowingKeepsOwn(t, s, p);
    }
  }

  lemma DeliverKeepsInput<T>(t: Truth<T>, cfg: Config, s: System<T>, p: Packet, o: Orders)
    requires WellFormed(t, cfg) && Live(t, cfg, s) && Deliverable(t, s, p, o) && InputHandled(t, s)
    ensures InputHandled(t, Deliver(t, cfg, s, p, o))
  {
    var s' := Deliver(t, cfg, s, p, o);
    forall e | e in t.eofs ensures exists w :: 0 <= w < |s'.replicas| && e in s'.replicas[w].mem.ownEOFs {
      var w :| 0 <= w < |s.replicas| && e in s.replicas[w].mem.ownEOFs;
      DeliverKeepsOwn(t, cfg, s, p, o, w);
    }
    forall id | id in t.records && t.records[id].processed > 0
      ensures exists w :: 0 <= w < |s'.replicas| && id in s'.replicas[w].mem.ownBatches
    {
      var w :| 0 <= w < |s.replicas| && id in s.replicas[w].mem.ownBatches;
      DeliverKeepsOwn(t, cfg, s, p, o, w);
    }
  }

  // Whatever was in flight after a loss-free run that saw all the input: any schedule that
  // delivers it all leaves every worker flushed exactly once.
  lemma {:induction false} DrainedIsFlushed<T>(t: Truth<T>, cfg: Config, s: System<T>, schedule: seq<Delivery>,
                                                 s': System<T>, q: nat)
    requires WellFormed(t, cfg) && PositiveWeights(t, cfg) && Live(t, cfg, s) && InputHandled(t, s)
    requires Drains(t, cfg, s, schedule, s') && s'.net == multiset{} && q < cfg.workers
    ensures CallsBy(s'.flushes, q) == 1
    decreases |schedule|
  {
    if schedule == [] {
      QuietIsFlushed(t, cfg, s, q);
    } else {
      var p, o := schedule[0].packet, schedule[0].orders;
      assert Live(t, cfg, Deliver(t, cfg, s, p, o)) by { DoneLive(t, cfg, s, PacketArrives(p), o); }
      DeliverKeepsInput(t, cfg, s, p, o);
      DrainedIsFlushed(t, cfg, Deliver(t, cfg, s, p, o), schedule[1..], s', q);
    }
  }

  lemma LossFreeRunThenDrain<T>(t: Truth<T>, cfg: Config, states: seq<System<T>>, steps: seq<Step>,
                                schedule: seq<Delivery>, s': System<T>, q: nat)
    requires WellFormed(t, cfg) && PositiveWeights(t, cfg) && IsLossFreeRun(t, cfg, states, steps)
    requires InputHandled(t, states[|states| - 1])
    requires Drains(t, cfg, states[|states| - 1], schedule, s') && s'.net == multiset{} && q < cfg.workers
    ensures CallsBy(s'.flushes, q) == 1
  {
    RunLive(t, cfg, states, steps, |states| - 1);
    DrainedIsFlushed(t, cfg, states[|states| - 1], schedule, s', q);
  }
}
