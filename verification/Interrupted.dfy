// Handlers that stop in the middle, by an error or by a crash: the exact condition under which
// the group stays live, for every event and every place to stop.
module Interrupted {
  import opened EofProtocol
  import opened ReplicaGroup
  import opened Barrier
  import opened Liveness

  // ---- What the operations done so far amount to ----

  ghost predicate WritesBatch<T>(ops: seq<Op<T>>, id: string) {
    exists op :: op in ops && op.WriteBatch? && op.record.batchID == id
  }

  ghost predicate AddsBatch<T>(ops: seq<Op<T>>, id: string) {
    exists op :: op in ops && op.AddOwnBatch? && op.record.batchID == id
  }

  ghost predicate WritesEOF<T>(ops: seq<Op<T>>, e: string) {
    exists op :: op in ops && op.WriteEOF? && op.eofID == e
  }

  ghost predicate AddsEOF<T>(ops: seq<Op<T>>, e: string) {
    exists op :: op in ops && op.AddOwnEOF? && op.eofID == e
  }

  ghost predicate CallsFlush<T>(ops: seq<Op<T>>) { exists op :: op in ops && op.CallFlush? }

  ghost predicate SendsBatch<T>(ops: seq<Op<T>>, q: nat, id: string) {
    exists p :: Send(p) in ops && Carries(p, q, id)
  }

  ghost predicate SendsEOF<T>(ops: seq<Op<T>>, q: nat, e: string) {
    exists p :: Send(p) in ops && p.to == q && p.msg.EofArrived? && p.msg.eofID == e
  }

  // ---- The condition ----

  // A flush that was begun was also recorded.
  ghost predicate FlushWhole<T>(done: seq<Op<T>>) { CallsFlush(done) ==> WriteFlushed in done }

  // What was written was also put in memory.
  ghost predicate WritesRemembered<T>(done: seq<Op<T>>) {
    && (forall id :: WritesBatch(done, id) ==> AddsBatch(done, id))
    && (forall e :: WritesEOF(done, e) ==> AddsEOF(done, e))
  }

  // The disk alone holds every EOF and every batch with items, and no flush.
  ghost predicate HoldsAll<T>(t: Truth<T>, d: Disk) {
    d.eofs.Keys == t.eofs.Keys && Covers(t, d.batches.Keys) && !d.flushed
  }

  ghost predicate BringsEOF(e: Event) { e.EofArrives? || (e.PacketArrives? && e.packet.msg.EofArrived?) }

  // q has heard, was sent or will be answered what the worker now owns.
  ghost predicate AnnouncedTo<T>(t: Truth<T>, s: System<T>, w: nat, q: nat, done: seq<Op<T>>, k: ClientView)
    requires q < |s.replicas|
  {
    && (forall e :: e in k.ownEOFs ==> EOFReaches(s, w, q, e) || SendsEOF(done, q, e))
    && (Complete(t, k) ==>
          forall id :: id in k.ownBatches ==> BatchReaches(s, w, q, id) || SendsBatch(done, q, id))
  }

  ghost predicate AnnouncedToAll<T>(t: Truth<T>, s: System<T>, w: nat, done: seq<Op<T>>, k: ClientView) {
    forall q :: 0 <= q < |s.replicas| && q != w ==> AnnouncedTo(t, s, w, q, done, k)
  }

  // The worker as the interruption leaves it.
  ghost function Left<T>(r: Replica, done: seq<Op<T>>, outcome: Outcome): Replica {
    var d := DiskAfter(r.disk, done);
    Replica(if outcome == Crashed then Restore(d) else MemAfter(r.mem, done), d)
  }

  ghost predicate Harmless<T>(t: Truth<T>, cfg: Config, s: System<T>, e: Event, o: Orders, cut: nat, outcome: Outcome)
    requires Enabled(t, cfg, s, Handle(e, o, cut, outcome))
  {
    var w, done := WorkerOf(e), Handler(t, cfg, s, e, o)[..cut];
    var left := Left(s.replicas[w], done, outcome);
    && FlushWhole(done)
    && (outcome == Crashed ==> !HoldsAll(t, left.disk))
    && (outcome == Failed ==> WritesRemembered(done) && Settled(t, left.mem))
    && (BringsEOF(e) ==> AnnouncedToAll(t, s, w, done, left.mem))
  }

  // ---- Prefixes ----

  lemma PairInPrefix<T>(a: seq<Op<T>>, y: Op<T>, x: Op<T>, b: seq<Op<T>>, cut: nat)
    requires x !in a && x != y && cut <= |a + [y, x] + b|
    requires x in (a + [y, x] + b)[..cut]
    ensures y in (a + [y, x] + b)[..cut]
    ensures forall op :: op in a ==> op in (a + [y, x] + b)[..cut]
  {
    var ops := a + [y, x] + b;
    var i :| 0 <= i < cut && ops[i] == x;
    assert i > |a|;
    assert ops[..cut][|a|] == y;
    forall op | op in a ensures op in ops[..cut] {
      var j :| 0 <= j < |a| && a[j] == op;
      assert ops[..cut][j] == op;
    }
  }

  lemma BeforeInPrefix<T>(a: seq<Op<T>>, y: Op<T>, b: seq<Op<T>>, cut: nat)
    requires y !in a && cut <= |a + [y] + b| && y in (a + [y] + b)[..cut]
    ensures forall op :: op in a ==> op in (a + [y] + b)[..cut]
  {
    var ops := a + [y] + b;
    var i :| 0 <= i < cut && ops[i] == y;
    assert i >= |a|;
    forall op | op in a ensures op in ops[..cut] {
      var j :| 0 <= j < |a| && a[j] == op;
      assert ops[..cut][j] == op;
    }
  }

  // ---- Effects, key by key ----

  // What one more operation amounts to.
  lemma OneMore<T>(init: seq<Op<T>>, last: Op<T>)
    ensures forall id :: WritesBatch(init + [last], id) <==>
              WritesBatch(init, id) || (last.WriteBatch? && last.record.batchID == id)
    ensures forall e :: WritesEOF(init + [last], e) <==> WritesEOF(init, e) || (last.WriteEOF? && last.eofID == e)
  {
    var ops := init + [last];
    assert forall op :: op in init ==> op in ops;
    assert last in ops;
  }

  lemma OneMoreAdded<T>(init: seq<Op<T>>, last: Op<T>)
    ensures forall id :: AddsBatch(init + [last], id) <==>
              AddsBatch(init, id) || (last.AddOwnBatch? && last.record.batchID == id)
    ensures forall e :: AddsEOF(init + [last], e) <==> AddsEOF(init, e) || (last.AddOwnEOF? && last.eofID == e)
  {
    var ops := init + [last];
    assert forall op :: op in init ==> op in ops;
    assert last in ops;
  }

  lemma {:induction false} DiskKeys<T>(d: Disk, ops: seq<Op<T>>)
    ensures forall id :: id in DiskAfter(d, ops).batches <==> id in d.batches || WritesBatch(ops, id)
    ensures forall e :: e in DiskAfter(d, ops).eofs <==> e in d.eofs || WritesEOF(ops, e)
    ensures DiskAfter(d, ops).flushed <==> d.flushed || WriteFlushed in ops
  {
    if ops != [] {
      var init, last := ops[..|ops| - 1], ops[|ops| - 1];
      DiskKeys(d, init);
      OneMore(init, last);
      assert ops == init + [last];
    }
  }

  lemma MemOpOwns<T>(v: ClientView, op: Op<T>)
    ensures MemOp(v, op).ownBatches == if op.AddOwnBatch? then v.ownBatches[op.record.batchID := op.record] else v.ownBatches
    ensures MemOp(v, op).ownEOFs == if op.AddOwnEOF? then v.ownEOFs[op.eofID := op.total] else v.ownEOFs
    ensures MemOp(v, op).flushed == (v.flushed || op == SetFlushed)
  {
  }

  lemma {:induction false} MemKeys<T>(v: ClientView, ops: seq<Op<T>>)
    ensures forall id :: id in MemAfter(v, ops).ownBatches <==> id in v.ownBatches || AddsBatch(ops, id)
    ensures forall e :: e in MemAfter(v, ops).ownEOFs <==> e in v.ownEOFs || AddsEOF(ops, e)
    ensures MemAfter(v, ops).flushed <==> v.flushed || SetFlushed in ops
  {
    if ops != [] {
      var init, last := ops[..|ops| - 1], ops[|ops| - 1];
      MemKeys(v, init);
      MemOpOwns(MemAfter(v, init), last);
      OneMoreAdded(init, last);
      assert ops == init + [last];
    }
  }

  lemma MemOpGrows<T>(v: ClientView, op: Op<T>)
    ensures KnownBatches(v) <= KnownBatches(MemOp(v, op)) && KnownEOFs(v) <= KnownEOFs(MemOp(v, op))
  {
    match op
    case AddPeerBatch(p, r) => UnionKeysAdd(v.ownBatches, v.peerBatches, p, r.batchID, r);
    case AddPeerEOF(p, e, n) => UnionKeysAdd(v.ownEOFs, v.peerEOFs, p, e, n);
    case _ =>
  }

  lemma {:induction false} MemGrows<T>(v: ClientView, ops: seq<Op<T>>)
    ensures KnownBatches(v) <= KnownBatches(MemAfter(v, ops)) && KnownEOFs(v) <= KnownEOFs(MemAfter(v, ops))
  {
    if ops != [] {
      MemGrows(v, ops[..|ops| - 1]);
      MemOpGrows(MemAfter(v, ops[..|ops| - 1]), ops[|ops| - 1]);
    }
  }

  // ---- The shape of the handlers ----

  ghost predicate IsFlush<T>(ops: seq<Op<T>>) {
    |ops| == 3 && ops[0].CallFlush? && ops[1] == SetFlushed && ops[2] == WriteFlushed
  }

  ghost predicate FlushFree<T>(ops: seq<Op<T>>) {
    forall op :: op in ops ==> !op.CallFlush? && op != SetFlushed && op != WriteFlushed
  }

  // The operations on what the worker owns.
  ghost predicate Owns<T>(op: Op<T>) { op.WriteBatch? || op.AddOwnBatch? || op.WriteEOF? || op.AddOwnEOF? }

  ghost predicate OwnsNothing<T>(ops: seq<Op<T>>) { forall op :: op in ops ==> !Owns(op) }

  ghost predicate Seen<T>(t: Truth<T>, s: System<T>, e: Event)
    requires Occurs(t, s, e)
  {
    var v := s.replicas[WorkerOf(e)].mem;
    match e
    case DataArrives(_, id) => id in v.ownBatches
    case BatchCounted(_, id) => id in v.ownBatches
    case EofArrives(_, e) => e in v.ownEOFs
    case PacketArrives(p) => p.msg.EofArrived? && p.msg.sender in v.peerEOFs && p.msg.eofID in v.peerEOFs[p.msg.sender]
  }

  // The event can still change what the worker knows.
  ghost predicate IsNewsTo<T>(t: Truth<T>, s: System<T>, e: Event)
    requires Occurs(t, s, e)
  {
    !Seen(t, s, e) && !(e.PacketArrives? && e.packet.msg.WakeUp?)
  }

  lemma SeenIsNothing<T>(t: Truth<T>, cfg: Config, s: System<T>, e: Event, o: Orders)
    requires Occurs(t, s, e) && Seen(t, s, e) && RecordsNamed(t)
    ensures Handler(t, cfg, s, e, o) == []
  {
  }

  lemma FlushShape<T>(cfg: Config, v: ClientView, o: Orders)
    ensures TryFlush<T>(cfg, v, o) == [] || IsFlush(TryFlush<T>(cfg, v, o))
  {
  }

  // The sends and publications before a batch is written.
  ghost function Tells<T>(t: Truth<T>, cfg: Config, s: System<T>, e: Event): seq<Op<T>>
    requires Occurs(t, s, e) && (e.DataArrives? || e.BatchCounted?)
  {
    (if e.DataArrives? then PublishAll(t.outputs[e.batchID]) else [])
    + (if HasAllEOFs(s.replicas[e.worker].mem, cfg.expected)
       then Broadcast(cfg, e.worker, BatchInfo(e.worker, [t.records[e.batchID]])) else [])
  }

  lemma TellsOnlySend<T>(t: Truth<T>, cfg: Config, s: System<T>, e: Event)
    requires Occurs(t, s, e) && (e.DataArrives? || e.BatchCounted?)
    ensures OnlySends(Tells(t, cfg, s, e))
  {
    BroadcastOnlySends<T>(cfg, e.worker, BatchInfo(e.worker, [t.records[e.batchID]]));
    if e.DataArrives? {
      forall op | op in PublishAll(t.outputs[e.batchID]) ensures op.Publish? { PublishAllMember(t.outputs[e.batchID], op); }
    }
  }

  lemma PutBefore<X>(a: seq<X>, b: seq<X>, c: seq<X>, d: seq<X>)
    ensures a + (b + c + d) == a + b + c + d
  {
  }

  lemma BatchShape<T>(t: Truth<T>, cfg: Config, s: System<T>, e: Event, o: Orders)
    requires Occurs(t, s, e) && (e.DataArrives? || e.BatchCounted?) && RecordsNamed(t) && !Seen(t, s, e)
    ensures var r := t.records[e.batchID];
            Handler(t, cfg, s, e, o) ==
              Tells(t, cfg, s, e) + [WriteBatch(r), AddOwnBatch(r)] + TryFlush(cfg, Knowing(t, s, e), o)
  {
    var v, r := s.replicas[e.worker].mem, t.records[e.batchID];
    var tell: seq<Op<T>> := if HasAllEOFs(v, cfg.expected) then Broadcast(cfg, e.worker, BatchInfo(e.worker, [r])) else [];
    var flush: seq<Op<T>> := TryFlush(cfg, Knowing(t, s, e), o);
    var pubs: seq<Op<T>> := if e.DataArrives? then PublishAll(t.outputs[e.batchID]) else [];
    PutBefore(pubs, tell, [WriteBatch(r), AddOwnBatch(r)], flush);
    assert [] + (tell + [WriteBatch(r), AddOwnBatch(r)] + flush) == tell + [WriteBatch(r), AddOwnBatch(r)] + flush;
  }

  lemma EOFShape<T>(t: Truth<T>, cfg: Config, s: System<T>, e: Event, o: Orders)
    returns (sends: seq<Op<T>>)
    requires Occurs(t, s, e) && e.EofArrives? && !Seen(t, s, e)
    ensures OnlySends(sends)
    ensures Handler(t, cfg, s, e, o) ==
              [WriteEOF(e.eofID, t.eofs[e.eofID]), AddOwnEOF(e.eofID, t.eofs[e.eofID])] + sends
              + TryFlush(cfg, Knowing(t, s, e), o)
  {
    var w, k := e.worker, Knowing(t, s, e);
    var msg := EofArrived(w, e.eofID, t.eofs[e.eofID]);
    var write: seq<Op<T>> := [WriteEOF(e.eofID, t.eofs[e.eofID]), AddOwnEOF(e.eofID, t.eofs[e.eofID])];
    var tell: seq<Op<T>>, share: seq<Op<T>> := Broadcast(cfg, w, msg), ShareWhenComplete(cfg, w, k, o);
    BroadcastOnlySends<T>(cfg, w, msg);
    ShareOnlySends<T>(cfg, w, k, o.batches, Others(w, cfg.workers));
    sends := tell + share;
    assert write + tell + share == write + sends;
  }

  // A handler that changes nothing the worker owns, then decides on the flush.
  ghost predicate Learns<T>(ops: seq<Op<T>>, pre: seq<Op<T>>, flush: seq<Op<T>>) {
    ops == pre + flush && FlushFree(pre) && OwnsNothing(pre) && (flush == [] || IsFlush(flush))
  }

  lemma SendsLearn<T>(ops: seq<Op<T>>)
    requires OnlySends(ops)
    ensures Learns(ops, ops, [])
  {
    assert ops + [] == ops;
  }

  lemma RemoteEOFShape<T>(cfg: Config, me: nat, v: ClientView, q: nat, e: string, n: nat, o: Orders)
    returns (pre: seq<Op<T>>, flush: seq<Op<T>>)
    ensures Learns(RemoteEOF(cfg, me, v, q, e, n, o), pre, flush)
    ensures !(q in v.peerEOFs && e in v.peerEOFs[q]) ==> flush == TryFlush(cfg, MemOp<T>(v, AddPeerEOF(q, e, n)), o)
  {
    var k := MemOp<T>(v, AddPeerEOF(q, e, n));
    pre, flush := [], [];
    if !(q in v.peerEOFs && e in v.peerEOFs[q]) {
      var share: seq<Op<T>> := ShareWhenComplete(cfg, me, k, o);
      ShareOnlySends<T>(cfg, me, k, o.batches, Others(me, cfg.workers));
      assert OnlySends(share);
      pre, flush := [AddPeerEOF(q, e, n)] + share, TryFlush(cfg, k, o);
      FlushShape<T>(cfg, k, o);
      forall op | op in pre ensures op.AddPeerEOF? || op.Send? || op.Publish? { assert op in share || op == pre[0]; }
    }
  }

  lemma RemoteBatchShape<T>(cfg: Config, v: ClientView, q: nat, info: seq<BatchRecord>, o: Orders)
    ensures Learns<T>(RemoteBatch(cfg, v, q, info, o), Learn(v, q, info),
                      TryFlush(cfg, MemAfter<T>(v, Learn(v, q, info)), o))
  {
    FlushShape<T>(cfg, MemAfter<T>(v, Learn(v, q, info)), o);
    forall op: Op<T> | op in Learn<T>(v, q, info) ensures op.AddPeerBatch? { LearnMember(v, q, info, op); }
  }

  lemma PacketShape<T>(t: Truth<T>, cfg: Config, s: System<T>, p: Packet, o: Orders)
    returns (pre: seq<Op<T>>, flush: seq<Op<T>>)
    requires Occurs(t, s, PacketArrives(p))
    ensures Learns(Handler(t, cfg, s, PacketArrives(p), o), pre, flush)
    ensures IsNewsTo(t, s, PacketArrives(p)) ==> flush == TryFlush(cfg, Knowing(t, s, PacketArrives(p)), o)
  {
    var w, v := p.to, s.replicas[p.to].mem;
    match p.msg
    case WakeUp(q) =>
      pre, flush := AnswerWakeUp(cfg, w, v, q, o), [];
      AnswerOnlySends<T>(cfg, w, v, q, o);
      SendsLearn(pre);
    case EofArrived(q, e, n) => pre, flush := RemoteEOFShape<T>(cfg, w, v, q, e, n, o);
    case BatchInfo(q, info) =>
      pre, flush := Learn(v, q, info), TryFlush(cfg, MemAfter<T>(v, Learn(v, q, info)), o);
      RemoteBatchShape<T>(cfg, v, q, info, o);
  }

  lemma PairIsFlushFree<T>(before: seq<Op<T>>, write: Op<T>, add: Op<T>, after: seq<Op<T>>)
    requires OnlySends(before) && OnlySends(after) && Owns(write) && Owns(add)
    ensures FlushFree(before + [write, add] + after)
    ensures before == [] ==> before + [write, add] == [write, add]
    ensures after == [] ==> before + [write, add] + after == before + [write, add]
  {
    forall op | op in before + [write, add] + after ensures !op.CallFlush? && op != SetFlushed && op != WriteFlushed {
      assert op in before || op in [write, add] || op in after;
    }
  }

  // Every handler ends with its flush decision, which news always leads to.
  lemma HandlerShape<T>(t: Truth<T>, cfg: Config, s: System<T>, e: Event, o: Orders)
    returns (pre: seq<Op<T>>, flush: seq<Op<T>>)
    requires Occurs(t, s, e) && RecordsNamed(t)
    ensures Handler(t, cfg, s, e, o) == pre + flush && FlushFree(pre)
    ensures flush == [] || IsFlush(flush)
    ensures IsNewsTo(t, s, e) ==> flush == TryFlush(cfg, Knowing(t, s, e), o)
  {
    if Seen(t, s, e) {
      SeenIsNothing(t, cfg, s, e, o);
      pre, flush := [], [];
    } else if e.PacketArrives? {
      pre, flush := PacketShape(t, cfg, s, e.packet, o);
    } else {
      flush := TryFlush(cfg, Knowing(t, s, e), o);
      FlushShape<T>(cfg, Knowing(t, s, e), o);
      if e.EofArrives? {
        var sends := EOFShape(t, cfg, s, e, o);
        pre := [WriteEOF(e.eofID, t.eofs[e.eofID]), AddOwnEOF(e.eofID, t.eofs[e.eofID])] + sends;
        PairIsFlushFree([], WriteEOF(e.eofID, t.eofs[e.eofID]), AddOwnEOF(e.eofID, t.eofs[e.eofID]), sends);
      } else {
        var r := t.records[e.batchID];
        BatchShape(t, cfg, s, e, o);
        TellsOnlySend(t, cfg, s, e);
        pre := Tells(t, cfg, s, e) + [WriteBatch(r), AddOwnBatch(r)];
        PairIsFlushFree(Tells(t, cfg, s, e), WriteBatch(r), AddOwnBatch(r), []);
      }
    }
  }

  // ---- The flush decision, cut ----

  lemma FlushOrderIn<T>(pre: seq<Op<T>>, flush: seq<Op<T>>, cut: nat)
    requires FlushFree(pre) && (flush == [] || IsFlush(flush)) && cut <= |pre + flush|
    ensures WriteFlushed in (pre + flush)[..cut] ==> SetFlushed in (pre + flush)[..cut]
    ensures SetFlushed in (pre + flush)[..cut] ==> CallsFlush((pre + flush)[..cut])
  {
    var ops := pre + flush;
    if flush == [] {
      assert forall op :: op in ops[..cut] ==> op in pre;
    } else {
      var call := flush[0];
      assert ops == pre + [call, SetFlushed] + [WriteFlushed];
      assert ops == (pre + [call]) + [SetFlushed, WriteFlushed] + [];
      if SetFlushed in ops[..cut] { PairInPrefix(pre, call, SetFlushed, [WriteFlushed], cut); }
      if WriteFlushed in ops[..cut] { PairInPrefix(pre + [call], SetFlushed, WriteFlushed, [], cut); }
    }
  }

  lemma FlushOrder<T>(t: Truth<T>, cfg: Config, s: System<T>, e: Event, o: Orders, cut: nat)
    requires Occurs(t, s, e) && RecordsNamed(t) && cut <= |Handler(t, cfg, s, e, o)|
    ensures var done := Handler(t, cfg, s, e, o)[..cut];
            && (WriteFlushed in done ==> SetFlushed in done)
            && (SetFlushed in done ==> CallsFlush(done))
  {
    var pre, flush := HandlerShape(t, cfg, s, e, o);
    FlushOrderIn(pre, flush, cut);
  }

  lemma {:induction false} CallIsCounted<T>(w: nat, ops: seq<Op<T>>)
    requires CallsFlush(ops)
    ensures |Calls(w, ops)| >= 1
  {
    var init, last := ops[..|ops| - 1], ops[|ops| - 1];
    if !last.CallFlush? {
      assert CallsFlush(init) by { assert ops == init + [last]; }
      CallIsCounted(w, init);
    }
  }

  lemma AtMostOneCall<T>(t: Truth<T>, cfg: Config, s: System<T>, e: Event, o: Orders)
    requires WellFormed(t, cfg) && Live(t, cfg, s) && Occurs(t, s, e) && ValidOrders(Knowing(t, s, e), o)
    ensures |Calls(WorkerOf(e), Handler(t, cfg, s, e, o))| <= if s.replicas[WorkerOf(e)].mem.flushed then 0 else 1
  {
    HandlerLands(t, cfg, s, e, o);
    KnowsMore(t, cfg, s, e);
  }

  // At most one call, none from a worker that has flushed.
  lemma CutCalls<T>(t: Truth<T>, cfg: Config, s: System<T>, e: Event, o: Orders, cut: nat)
    requires WellFormed(t, cfg) && Live(t, cfg, s) && Occurs(t, s, e) && ValidOrders(Knowing(t, s, e), o)
    requires cut <= |Handler(t, cfg, s, e, o)|
    ensures var w, done := WorkerOf(e), Handler(t, cfg, s, e, o)[..cut];
            && |Calls(w, done)| == (if CallsFlush(done) then 1 else 0)
            && (CallsFlush(done) ==> !s.replicas[w].mem.flushed)
  {
    var w, ops := WorkerOf(e), Handler(t, cfg, s, e, o);
    AtMostOneCall(t, cfg, s, e, o);
    assert ops == ops[..cut] + ops[cut..];
    CallsConcat(w, ops[..cut], ops[cut..]);
    if CallsFlush(ops[..cut]) {
      CallIsCounted(w, ops[..cut]);
    } else {
      NoCalls(w, ops[..cut]);
    }
  }

  // ---- What the worker owns, cut ----

  lemma OwnsNothingConcat<T>(a: seq<Op<T>>, b: seq<Op<T>>)
    requires OwnsNothing(a) && OwnsNothing(b)
    ensures OwnsNothing(a + b)
  {
    forall op | op in a + b ensures !Owns(op) { assert op in a || op in b; }
  }

  lemma OwnsNothingPrefix<T>(ops: seq<Op<T>>, cut: nat)
    requires OwnsNothing(ops) && cut <= |ops|
    ensures OwnsNothing(ops[..cut])
  {
    forall op | op in ops[..cut] ensures !Owns(op) { assert op in ops; }
  }

  lemma FlushOwnsNothing<T>(cfg: Config, v: ClientView, o: Orders)
    ensures OwnsNothing<T>(TryFlush(cfg, v, o))
  {
    forall op: Op<T> | op in TryFlush<T>(cfg, v, o) ensures !Owns(op) { }
  }

  // Cutting around a write and its memory update.
  lemma PairCut<T>(before: seq<Op<T>>, write: Op<T>, add: Op<T>, after: seq<Op<T>>, cut: nat)
    requires OwnsNothing(before) && OwnsNothing(after) && Owns(write) && Owns(add) && write != add
    requires cut <= |before + [write, add] + after|
    ensures var done := (before + [write, add] + after)[..cut];
            && (forall op :: op in done && Owns(op) ==> op == write || op == add)
            && (add in done ==> write in done)
            && (write in done ==> forall op :: op in before ==> op in done)
  {
    var ops := before + [write, add] + after;
    forall op | op in ops[..cut] && Owns(op) ensures op == write || op == add {
      assert op in ops;
      assert op in before || op in [write, add] || op in after;
    }
    if add in ops[..cut] { PairInPrefix(before, write, add, after, cut); }
    if write in ops[..cut] {
      assert ops == before + [write] + ([add] + after);
      BeforeInPrefix(before, write, [add] + after, cut);
    }
  }

  lemma BatchCut<T>(t: Truth<T>, cfg: Config, s: System<T>, e: Event, o: Orders, cut: nat)
    requires Occurs(t, s, e) && (e.DataArrives? || e.BatchCounted?) && RecordsNamed(t) && !Seen(t, s, e)
    requires cut <= |Handler(t, cfg, s, e, o)|
    ensures var r, done := t.records[e.batchID], Handler(t, cfg, s, e, o)[..cut];
            && (forall op :: op in done && Owns(op) ==> op == WriteBatch(r) || op == AddOwnBatch(r))
            && (AddOwnBatch(r) in done ==> WriteBatch(r) in done)
            && (WriteBatch(r) in done ==> forall op :: op in Tells(t, cfg, s, e) ==> op in done)
  {
    var r := t.records[e.batchID];
    BatchShape(t, cfg, s, e, o);
    TellsOnlySend(t, cfg, s, e);
    FlushOwnsNothing<T>(cfg, Knowing(t, s, e), o);
    PairCut(Tells(t, cfg, s, e), WriteBatch(r), AddOwnBatch(r), TryFlush(cfg, Knowing(t, s, e), o), cut);
  }

  lemma PairFirst<T>(write: Op<T>, add: Op<T>, sends: seq<Op<T>>, flush: seq<Op<T>>)
    ensures [write, add] + sends + flush == [] + [write, add] + (sends + flush)
  {
  }

  lemma EOFCut<T>(t: Truth<T>, cfg: Config, s: System<T>, e: Event, o: Orders, cut: nat)
    requires Occurs(t, s, e) && e.EofArrives? && !Seen(t, s, e) && cut <= |Handler(t, cfg, s, e, o)|
    ensures var write, add, done := WriteEOF(e.eofID, t.eofs[e.eofID]), AddOwnEOF(e.eofID, t.eofs[e.eofID]),
                                    Handler(t, cfg, s, e, o)[..cut];
            && (forall op :: op in done && Owns(op) ==> op == write || op == add)
            && (add in done ==> write in done)
  {
    var write: Op<T>, add: Op<T> := WriteEOF(e.eofID, t.eofs[e.eofID]), AddOwnEOF(e.eofID, t.eofs[e.eofID]);
    var sends := EOFShape(t, cfg, s, e, o);
    var flush: seq<Op<T>> := TryFlush(cfg, Knowing(t, s, e), o);
    FlushOwnsNothing<T>(cfg, Knowing(t, s, e), o);
    OwnsNothingConcat(sends, flush);
    PairFirst(write, add, sends, flush);
    PairCut([], write, add, sends + flush, cut);
  }

  lemma LearnsOwnsNothing<T>(ops: seq<Op<T>>, pre: seq<Op<T>>, flush: seq<Op<T>>, cut: nat)
    requires Learns(ops, pre, flush) && cut <= |ops|
    ensures OwnsNothing(ops[..cut])
  {
    assert OwnsNothing(flush);
    OwnsNothingConcat(pre, flush);
    OwnsNothingPrefix(ops, cut);
  }

  lemma PacketCut<T>(t: Truth<T>, cfg: Config, s: System<T>, p: Packet, o: Orders, cut: nat)
    requires Occurs(t, s, PacketArrives(p)) && cut <= |Handler(t, cfg, s, PacketArrives(p), o)|
    ensures OwnsNothing(Handler(t, cfg, s, PacketArrives(p), o)[..cut])
  {
    var pre, flush := PacketShape(t, cfg, s, p, o);
    LearnsOwnsNothing(Handler(t, cfg, s, PacketArrives(p), o), pre, flush, cut);
  }

  // What is written is new, and written before it is added.
  ghost predicate InOrder<T>(v: ClientView, done: seq<Op<T>>) {
    && (forall id :: AddsBatch(done, id) ==> WritesBatch(done, id))
    && (forall id :: WritesBatch(done, id) ==> id !in v.ownBatches)
    && (forall k :: AddsEOF(done, k) ==> WritesEOF(done, k))
    && (forall k :: WritesEOF(done, k) ==> k !in v.ownEOFs)
  }

  lemma NothingInOrder<T>(v: ClientView, done: seq<Op<T>>)
    requires OwnsNothing(done)
    ensures InOrder(v, done)
  {
    assert forall op :: op in done ==> !Owns(op);
  }

  lemma BatchInOrder<T>(v: ClientView, r: BatchRecord, done: seq<Op<T>>)
    requires forall op :: op in done && Owns(op) ==> op == WriteBatch(r) || op == AddOwnBatch(r)
    requires (AddOwnBatch(r) in done ==> WriteBatch(r) in done) && r.batchID !in v.ownBatches
    ensures InOrder(v, done)
  {
    assert forall op :: op in done && Owns(op) ==> op.WriteBatch? || op.AddOwnBatch?;
  }

  lemma EOFInOrder<T>(v: ClientView, e: string, n: nat, done: seq<Op<T>>)
    requires forall op :: op in done && Owns(op) ==> op == WriteEOF(e, n) || op == AddOwnEOF(e, n)
    requires (AddOwnEOF(e, n) in done ==> WriteEOF(e, n) in done) && e !in v.ownEOFs
    ensures InOrder(v, done)
  {
    assert forall op :: op in done && Owns(op) ==> op.WriteEOF? || op.AddOwnEOF?;
  }

  lemma OwnOrder<T>(t: Truth<T>, cfg: Config, s: System<T>, e: Event, o: Orders, cut: nat)
    requires Occurs(t, s, e) && RecordsNamed(t) && cut <= |Handler(t, cfg, s, e, o)|
    ensures InOrder(s.replicas[WorkerOf(e)].mem, Handler(t, cfg, s, e, o)[..cut])
  {
    var v, done := s.replicas[WorkerOf(e)].mem, Handler(t, cfg, s, e, o)[..cut];
    if Seen(t, s, e) {
      SeenIsNothing(t, cfg, s, e, o);
      NothingInOrder(v, done);
    } else if e.PacketArrives? {
      PacketCut(t, cfg, s, e.packet, o, cut);
      NothingInOrder(v, done);
    } else if e.EofArrives? {
      EOFCut(t, cfg, s, e, o, cut);
      EOFInOrder(v, e.eofID, t.eofs[e.eofID], done);
    } else {
      BatchCut(t, cfg, s, e, o, cut);
      BatchInOrder(v, t.records[e.batchID], done);
    }
  }

  // ---- The state after the interruption ----

  // The network has grown by what was sent, and perhaps by wake-ups of w.
  ghost predicate NetCut<T>(s: System<T>, s': System<T>, w: nat, done: seq<Op<T>>) {
    && (forall p :: p in s.net ==> p in s'.net)
    && (forall p :: Send(p) in done ==> p in s'.net)
    && (forall p :: Send(p) in done ==> !p.msg.WakeUp?)
    && (forall p :: p in s'.net ==> p in s.net || Send(p) in done || p.msg == WakeUp(w))
  }

  lemma ShareNoWakeUp<T>(cfg: Config, me: nat, v: ClientView, order: seq<string>, to: seq<nat>, p: Packet)
    requires p.msg.WakeUp?
    ensures Send(p) !in ShareOwn<T>(cfg, me, v, order, to)
  {
    SendChunksMember<T>(to, me, Packed(cfg, v, order), Send(p));
  }

  lemma AnswerNoWakeUp<T>(cfg: Config, w: nat, v: ClientView, q: nat, o: Orders, p: Packet)
    requires p.msg.WakeUp?
    ensures Send(p) !in AnswerWakeUp<T>(cfg, w, v, q, o)
  {
    SendEOFsMember<T>(q, w, v.ownEOFs, o.eofs, Send(p));
    ShareNoWakeUp<T>(cfg, w, v, o.batches, [q], p);
  }

  lemma RemoteEOFNoWakeUp<T>(cfg: Config, w: nat, v: ClientView, q: nat, e: string, n: nat, o: Orders, p: Packet)
    requires p.msg.WakeUp?
    ensures Send(p) !in RemoteEOF<T>(cfg, w, v, q, e, n, o)
  {
    ShareNoWakeUp<T>(cfg, w, MemOp<T>(v, AddPeerEOF(q, e, n)), o.batches, Others(w, cfg.workers), p);
  }

  lemma RemoteBatchNoWakeUp<T>(cfg: Config, v: ClientView, q: nat, info: seq<BatchRecord>, o: Orders, p: Packet)
    ensures Send(p) !in RemoteBatch<T>(cfg, v, q, info, o)
  {
    LearnMember<T>(v, q, info, Send(p));
  }

  lemma PacketNoWakeUp<T>(t: Truth<T>, cfg: Config, s: System<T>, m: Packet, o: Orders, p: Packet)
    requires Occurs(t, s, PacketArrives(m)) && p.msg.WakeUp?
    ensures Send(p) !in Handler(t, cfg, s, PacketArrives(m), o)
  {
    var w, v := m.to, s.replicas[m.to].mem;
    match m.msg
    case WakeUp(q) => AnswerNoWakeUp<T>(cfg, w, v, q, o, p);
    case EofArrived(q, e, n) => RemoteEOFNoWakeUp<T>(cfg, w, v, q, e, n, o, p);
    case BatchInfo(q, info) => RemoteBatchNoWakeUp<T>(cfg, v, q, info, o, p);
  }

  lemma RecordNoWakeUp<T>(cfg: Config, w: nat, v: ClientView, r: BatchRecord, o: Orders, p: Packet)
    requires p.msg.WakeUp?
    ensures Send(p) !in RecordBatch<T>(cfg, w, v, r, o)
  {
    SendAllMember<T>(Others(w, cfg.workers), BatchInfo(w, [r]), Send(p));
  }

  lemma LocalEOFNoWakeUp<T>(cfg: Config, w: nat, v: ClientView, id: string, n: nat, o: Orders, p: Packet)
    requires p.msg.WakeUp?
    ensures Send(p) !in LocalEOF<T>(cfg, w, v, id, n, o)
  {
    SendAllMember<T>(Others(w, cfg.workers), EofArrived(w, id, n), Send(p));
    ShareNoWakeUp<T>(cfg, w, MemOp<T>(v, AddOwnEOF(id, n)), o.batches, Others(w, cfg.workers), p);
  }

  // Only a restart asks.
  lemma HandlerNoWakeUp<T>(t: Truth<T>, cfg: Config, s: System<T>, e: Event, o: Orders, p: Packet)
    requires Occurs(t, s, e) && p.msg.WakeUp?
    ensures Send(p) !in Handler(t, cfg, s, e, o)
  {
    var w := WorkerOf(e);
    match e
    case DataArrives(_, id) =>
      PublishAllMember<T>(t.outputs[id], Send(p));
      RecordNoWakeUp<T>(cfg, w, s.replicas[w].mem, t.records[id], o, p);
    case BatchCounted(_, id) => RecordNoWakeUp<T>(cfg, w, s.replicas[w].mem, t.records[id], o, p);
    case EofArrives(_, id) => LocalEOFNoWakeUp<T>(cfg, w, s.replicas[w].mem, id, t.eofs[id], o, p);
    case PacketArrives(m) => PacketNoWakeUp(t, cfg, s, m, o, p);
  }

  lemma NetIsCut<T>(cfg: Config, s: System<T>, s': System<T>, w: nat, done: seq<Op<T>>, restarted: bool)
    requires s'.net == s.net + Sent(done) + (if restarted then Sent<T>(Broadcast(cfg, w, WakeUp(w))) else multiset{})
    requires forall p :: Send(p) in done ==> !p.msg.WakeUp?
    ensures NetCut(s, s', w, done)
    ensures restarted ==> forall x :: 0 <= x < cfg.workers && x != w ==> Packet(x, WakeUp(w)) in s'.net
  {
    var wakeUps: seq<Op<T>> := Broadcast(cfg, w, WakeUp(w));
    forall p ensures p in Sent(done) <==> Send(p) in done { SentMember(done, p); }
    forall p ensures p in Sent(wakeUps) ==> p.msg == WakeUp(w) {
      SentMember(wakeUps, p);
      SendAllMember<T>(Others(w, cfg.workers), WakeUp(w), Send(p));
    }
    if restarted {
      forall x | 0 <= x < cfg.workers && x != w ensures Packet(x, WakeUp(w)) in s'.net { WakeUpsSent<T>(cfg, w, x); }
    }
  }

  lemma CutNoWakeUp<T>(t: Truth<T>, cfg: Config, s: System<T>, e: Event, o: Orders, cut: nat)
    requires Occurs(t, s, e) && cut <= |Handler(t, cfg, s, e, o)|
    ensures forall p :: Send(p) in Handler(t, cfg, s, e, o)[..cut] ==> !p.msg.WakeUp?
  {
    forall p | Send(p) in Handler(t, cfg, s, e, o)[..cut] ensures !p.msg.WakeUp? {
      if p.msg.WakeUp? { HandlerNoWakeUp(t, cfg, s, e, o, p); }
    }
  }

  lemma CutNext<T>(t: Truth<T>, cfg: Config, s: System<T>, e: Event, o: Orders, cut: nat, outcome: Outcome)
    requires Enabled(t, cfg, s, Handle(e, o, cut, outcome)) && outcome != Done
    ensures var w, p := WorkerOf(e), Perform(s, WorkerOf(e), Handler(t, cfg, s, e, o)[..cut]);
            Next(t, cfg, s, Handle(e, o, cut, outcome)) == if outcome == Crashed then Reboot(cfg, p, w) else p
  {
    var p := Perform(s, WorkerOf(e), Handler(t, cfg, s, e, o)[..cut]);
    assert p.net - multiset{} == p.net;
    assert p.(net := p.net - Consumed(e, outcome)) == p;
  }

  lemma InterruptedShape<T>(t: Truth<T>, cfg: Config, s: System<T>, e: Event, o: Orders, cut: nat, outcome: Outcome)
    requires Enabled(t, cfg, s, Handle(e, o, cut, outcome)) && outcome != Done && |s.replicas| == cfg.workers
    ensures var s', w, done := Next(t, cfg, s, Handle(e, o, cut, outcome)), WorkerOf(e), Handler(t, cfg, s, e, o)[..cut];
            && |s'.replicas| == |s.replicas| && s'.replicas[w] == Left(s.replicas[w], done, outcome)
            && (forall x :: 0 <= x < |s.replicas| && x != w ==> s'.replicas[x] == s.replicas[x])
            && s'.flushes == s.flushes + Calls(w, done)
            && NetCut(s, s', w, done)
            && (outcome == Crashed ==> forall x :: 0 <= x < cfg.workers && x != w ==> Packet(x, WakeUp(w)) in s'.net)
  {
    var s', w, done := Next(t, cfg, s, Handle(e, o, cut, outcome)), WorkerOf(e), Handler(t, cfg, s, e, o)[..cut];
    CutNext(t, cfg, s, e, o, cut, outcome);
    CutNoWakeUp(t, cfg, s, e, o, cut);
    NetIsCut(cfg, s, s', w, done, outcome == Crashed);
  }

  // ---- Each part of the condition ----

  lemma SameKeysSameMap<V(!new)>(a: map<string, V>, b: map<string, V>, whole: map<string, V>)
    requires Within(a, whole) && Within(b, whole)
    ensures a == b <==> forall k :: k in a <==> k in b
  {
    if forall k :: k in a <==> k in b {
      assert a.Keys == b.Keys;
    }
  }

  lemma RestoredKnows(d: Disk)
    ensures KnownEOFs(Restore(d)) == d.eofs.Keys && KnownBatches(Restore(d)) == d.batches.Keys
    ensures Restore(d).ownEOFs == d.eofs && Restore(d).ownBatches == d.batches && Restore(d).flushed == d.flushed
  {
  }

  // After an error, memory and disk agree exactly when every write was remembered.
  lemma SyncedIff<T>(t: Truth<T>, cfg: Config, s: System<T>, e: Event, o: Orders, cut: nat)
    requires WellFormed(t, cfg) && Live(t, cfg, s) && Enabled(t, cfg, s, Handle(e, o, cut, Failed))
    ensures var w, done := WorkerOf(e), Handler(t, cfg, s, e, o)[..cut];
            Synced(Left(s.replicas[w], done, Failed)) <==>
              WritesRemembered(done) && (s.replicas[w].mem.flushed || SetFlushed !in done || WriteFlushed in done)
  {
    var w, done := WorkerOf(e), Handler(t, cfg, s, e, o)[..cut];
    var r, left := s.replicas[w], Left(s.replicas[w], done, Failed);
    HandlerAgrees(t, cfg, s, e, o);
    assert AllAgree(t, done);
    MemAfterAgrees(t, r.mem, done);
    DiskAfterAgrees(t, r.disk, done);
    SameKeysSameMap(left.mem.ownBatches, left.disk.batches, t.records);
    SameKeysSameMap(left.mem.ownEOFs, left.disk.eofs, t.eofs);
    MemKeys(r.mem, done);
    DiskKeys(r.disk, done);
    OwnOrder(t, cfg, s, e, o, cut);
    FlushOrder(t, cfg, s, e, o, cut);
  }

  // Memory, disk and calls agree exactly when every flush begun was recorded and every write remembered.
  lemma MarksIff<T>(t: Truth<T>, cfg: Config, s: System<T>, e: Event, o: Orders, cut: nat, outcome: Outcome)
    requires WellFormed(t, cfg) && Live(t, cfg, s) && Enabled(t, cfg, s, Handle(e, o, cut, outcome)) && outcome != Done
    ensures var w, done := WorkerOf(e), Handler(t, cfg, s, e, o)[..cut];
            var left := Left(s.replicas[w], done, outcome);
            Synced(left) && CallsBy(s.flushes + Calls(w, done), w) == (if left.mem.flushed then 1 else 0) <==>
              FlushWhole(done) && (outcome == Failed ==> WritesRemembered(done))
  {
    var w, done := WorkerOf(e), Handler(t, cfg, s, e, o)[..cut];
    var r := s.replicas[w];
    CallsByConcat(s.flushes, Calls(w, done), w);
    CallsByOne(w, done, w);
    CutCalls(t, cfg, s, e, o, cut);
    FlushOrder(t, cfg, s, e, o, cut);
    if outcome == Failed {
      SyncedIff(t, cfg, s, e, o, cut);
      MemKeys(r.mem, done);
    } else {
      DiskKeys(r.disk, done);
      RestoredKnows(DiskAfter(r.disk, done));
    }
  }

  lemma BatchInFlightAfter<T>(s: System<T>, s': System<T>, w: nat, q: nat, done: seq<Op<T>>, id: string)
    requires NetCut(s, s', w, done)
    ensures BatchInFlight(s', q, id) <==> BatchInFlight(s, q, id) || SendsBatch(done, q, id)
  {
    if BatchInFlight(s', q, id) {
      var p, r :| p in s'.net && p.to == q && p.msg.BatchInfo? && r in p.msg.info && r.batchID == id;
      assert p in s.net || (Send(p) in done && Carries(p, q, id));
    }
    if SendsBatch(done, q, id) {
      var p :| Send(p) in done && Carries(p, q, id);
      assert p in s'.net;
    }
  }

  lemma EOFInFlightAfter<T>(s: System<T>, s': System<T>, w: nat, q: nat, done: seq<Op<T>>, e: string)
    requires NetCut(s, s', w, done)
    ensures EOFInFlight(s', q, e) <==> EOFInFlight(s, q, e) || SendsEOF(done, q, e)
  {
    if EOFInFlight(s', q, e) {
      var p :| p in s'.net && p.to == q && p.msg.EofArrived? && p.msg.eofID == e;
      assert p in s.net || Send(p) in done;
    }
    if SendsEOF(done, q, e) {
      var p :| Send(p) in done && p.to == q && p.msg.EofArrived? && p.msg.eofID == e;
      assert p in s'.net;
    }
  }

  lemma ReachesAfter<T>(s: System<T>, s': System<T>, w: nat, q: nat, done: seq<Op<T>>)
    requires NetCut(s, s', w, done) && q < |s.replicas| && |s'.replicas| == |s.replicas| && q != w
    requires s'.replicas[q] == s.replicas[q]
    ensures forall id :: BatchReaches(s', w, q, id) <==> BatchReaches(s, w, q, id) || SendsBatch(done, q, id)
    ensures forall e :: EOFReaches(s', w, q, e) <==> EOFReaches(s, w, q, e) || SendsEOF(done, q, e)
  {
    forall id ensures BatchInFlight(s', q, id) <==> BatchInFlight(s, q, id) || SendsBatch(done, q, id) {
      BatchInFlightAfter(s, s', w, q, done, id);
    }
    forall e ensures EOFInFlight(s', q, e) <==> EOFInFlight(s, q, e) || SendsEOF(done, q, e) {
      EOFInFlightAfter(s, s', w, q, done, e);
    }
    assert Packet(w, WakeUp(q)) in s'.net <==> Packet(w, WakeUp(q)) in s.net;
  }

  lemma SharesIff<T>(t: Truth<T>, s: System<T>, s': System<T>, w: nat, q: nat, done: seq<Op<T>>)
    requires NetCut(s, s', w, done) && w < |s.replicas| && q < |s.replicas| && |s'.replicas| == |s.replicas| && q != w
    requires s'.replicas[q] == s.replicas[q]
    ensures SharesBatches(t, s', w, q) && SharesEOFs(s', w, q) <==> AnnouncedTo(t, s, w, q, done, s'.replicas[w].mem)
  {
    ReachesAfter(s, s', w, q, done);
  }

  // A worker x that did not stop still has everything it owes in flight or delivered.
  lemma OthersUndisturbed<T>(t: Truth<T>, s: System<T>, s': System<T>, w: nat, x: nat, q: nat, done: seq<Op<T>>)
    requires NetCut(s, s', w, done) && |s'.replicas| == |s.replicas|
    requires w < |s.replicas| && x < |s.replicas| && q < |s.replicas| && x != q && x != w
    requires s'.replicas[x] == s.replicas[x] && (q != w ==> s'.replicas[q] == s.replicas[q])
    requires q == w ==>
               || Packet(x, WakeUp(w)) in s'.net
               || (&& KnownBatches(s.replicas[w].mem) <= KnownBatches(s'.replicas[w].mem)
                   && KnownEOFs(s.replicas[w].mem) <= KnownEOFs(s'.replicas[w].mem))
    requires SharesBatches(t, s, x, q) && SharesEOFs(s, x, q)
    ensures SharesBatches(t, s', x, q) && SharesEOFs(s', x, q)
  {
    forall id | BatchReaches(s, x, q, id) ensures BatchReaches(s', x, q, id) {
      BatchInFlightAfter(s, s', w, q, done, id);
    }
    forall e | EOFReaches(s, x, q, e) ensures EOFReaches(s', x, q, e) {
      EOFInFlightAfter(s, s', w, q, done, e);
    }
  }

  // What a new batch brings has been told before it is written.
  lemma BatchAnnounced<T>(t: Truth<T>, cfg: Config, s: System<T>, e: Event, o: Orders, cut: nat, q: nat, id: string)
    requires Occurs(t, s, e) && (e.DataArrives? || e.BatchCounted?) && RecordsNamed(t)
    requires cut <= |Handler(t, cfg, s, e, o)| && HasAllEOFs(s.replicas[e.worker].mem, cfg.expected)
    requires q < cfg.workers && q != e.worker && WritesBatch(Handler(t, cfg, s, e, o)[..cut], id)
    ensures SendsBatch(Handler(t, cfg, s, e, o)[..cut], q, id)
  {
    var r, done := t.records[e.batchID], Handler(t, cfg, s, e, o)[..cut];
    if Seen(t, s, e) {
      SeenIsNothing(t, cfg, s, e, o);
    } else {
      BatchCut(t, cfg, s, e, o, cut);
      var op :| op in done && op.WriteBatch? && op.record.batchID == id;
      assert Owns(op) && op == WriteBatch(r);
      var p := Packet(q, BatchInfo(e.worker, [r]));
      BroadcastIsSent<T>(cfg, e.worker, p.msg, q);
      assert Send(p) in Tells(t, cfg, s, e);
      assert r in p.msg.info && Carries(p, q, id);
    }
  }

  lemma NoEOFWritten<T>(t: Truth<T>, cfg: Config, s: System<T>, e: Event, o: Orders, cut: nat)
    requires Occurs(t, s, e) && RecordsNamed(t) && !e.EofArrives? && cut <= |Handler(t, cfg, s, e, o)|
    ensures forall op :: op in Handler(t, cfg, s, e, o)[..cut] ==> !op.WriteEOF? && !op.AddOwnEOF?
  {
    if Seen(t, s, e) {
      SeenIsNothing(t, cfg, s, e, o);
    } else if e.PacketArrives? {
      PacketCut(t, cfg, s, e.packet, o, cut);
      assert forall op :: op in Handler(t, cfg, s, e, o)[..cut] ==> !Owns(op);
    } else {
      BatchCut(t, cfg, s, e, o, cut);
      assert forall op :: op in Handler(t, cfg, s, e, o)[..cut] && Owns(op) ==> op.WriteBatch? || op.AddOwnBatch?;
    }
  }

  lemma PacketLearnsNoEOF<T>(t: Truth<T>, cfg: Config, s: System<T>, p: Packet, o: Orders, op: Op<T>)
    requires Occurs(t, s, PacketArrives(p)) && !p.msg.EofArrived? && op in Handler(t, cfg, s, PacketArrives(p), o)
    ensures !op.AddPeerEOF?
  {
    var w, v := p.to, s.replicas[p.to].mem;
    match p.msg
    case WakeUp(q) => AnswerOnlySends<T>(cfg, w, v, q, o);
    case BatchInfo(q, info) => LearnMember(v, q, info, op);
  }

  lemma NoEOFLearnt<T>(t: Truth<T>, cfg: Config, s: System<T>, e: Event, o: Orders, op: Op<T>)
    requires Occurs(t, s, e) && RecordsNamed(t) && !BringsEOF(e) && op in Handler(t, cfg, s, e, o)
    ensures !op.AddPeerEOF?
  {
    if e.PacketArrives? {
      PacketLearnsNoEOF(t, cfg, s, e.packet, o, op);
    } else if Seen(t, s, e) {
      SeenIsNothing(t, cfg, s, e, o);
    } else {
      BatchShape(t, cfg, s, e, o);
      TellsOnlySend(t, cfg, s, e);
    }
  }

  lemma {:induction false} EOFsUntouched<T>(v: ClientView, ops: seq<Op<T>>)
    requires forall op :: op in ops ==> !op.AddOwnEOF? && !op.AddPeerEOF?
    ensures MemAfter(v, ops).ownEOFs == v.ownEOFs && MemAfter(v, ops).peerEOFs == v.peerEOFs
  {
    if ops != [] {
      EOFsUntouched(v, ops[..|ops| - 1]);
      assert ops[|ops| - 1] in ops;
    }
  }

  // What the worker owns afterwards: what it owned, and what was written.
  lemma LeftOwns<T>(t: Truth<T>, cfg: Config, s: System<T>, e: Event, o: Orders, cut: nat, outcome: Outcome)
    requires WellFormed(t, cfg) && Live(t, cfg, s) && Enabled(t, cfg, s, Handle(e, o, cut, outcome)) && outcome != Done
    ensures var w, done := WorkerOf(e), Handler(t, cfg, s, e, o)[..cut];
            var v, k := s.replicas[w].mem, Left(s.replicas[w], done, outcome).mem;
            && (forall id :: id in k.ownBatches && id !in v.ownBatches ==> WritesBatch(done, id))
            && (forall id :: id in k.ownEOFs && id !in v.ownEOFs ==> WritesEOF(done, id))
            && (!e.EofArrives? ==> k.ownEOFs.Keys == v.ownEOFs.Keys)
  {
    var w, done := WorkerOf(e), Handler(t, cfg, s, e, o)[..cut];
    var r := s.replicas[w];
    OwnOrder(t, cfg, s, e, o, cut);
    MemKeys(r.mem, done);
    DiskKeys(r.disk, done);
    RestoredKnows(DiskAfter(r.disk, done));
    if !e.EofArrives? {
      NoEOFWritten(t, cfg, s, e, o, cut);
    }
  }

  // Only an EOF can complete a worker.
  lemma LeftComplete<T>(t: Truth<T>, cfg: Config, s: System<T>, e: Event, o: Orders, cut: nat, outcome: Outcome)
    requires WellFormed(t, cfg) && Live(t, cfg, s) && Enabled(t, cfg, s, Handle(e, o, cut, outcome)) && outcome != Done
    requires !BringsEOF(e)
    requires Complete(t, Left(s.replicas[WorkerOf(e)], Handler(t, cfg, s, e, o)[..cut], outcome).mem)
    ensures Complete(t, s.replicas[WorkerOf(e)].mem)
  {
    var w, ops := WorkerOf(e), Handler(t, cfg, s, e, o);
    var r, done := s.replicas[w], ops[..cut];
    NoEOFWritten(t, cfg, s, e, o, cut);
    if outcome == Failed {
      forall op | op in done ensures !op.AddOwnEOF? && !op.AddPeerEOF? {
        assert op in ops;
        NoEOFLearnt(t, cfg, s, e, o, op);
      }
      EOFsUntouched(r.mem, done);
    } else {
      DiskKeys(r.disk, done);
      RestoredKnows(DiskAfter(r.disk, done));
      assert KnownEOFs(r.mem) <= t.eofs.Keys;
    }
  }

  // Whatever stops it, an event other than an EOF leaves nothing untold.
  lemma AnnouncedAnyway<T>(t: Truth<T>, cfg: Config, s: System<T>, e: Event, o: Orders, cut: nat, outcome: Outcome, q: nat)
    requires WellFormed(t, cfg) && Live(t, cfg, s) && Enabled(t, cfg, s, Handle(e, o, cut, outcome)) && outcome != Done
    requires !BringsEOF(e) && q < |s.replicas| && q != WorkerOf(e)
    ensures var w, done := WorkerOf(e), Handler(t, cfg, s, e, o)[..cut];
            AnnouncedTo(t, s, w, q, done, Left(s.replicas[w], done, outcome).mem)
  {
    var w, done := WorkerOf(e), Handler(t, cfg, s, e, o)[..cut];
    var r, k := s.replicas[w], Left(s.replicas[w], done, outcome).mem;
    assert SharesBatches(t, s, w, q) && SharesEOFs(s, w, q);
    LeftOwns(t, cfg, s, e, o, cut, outcome);
    if Complete(t, k) {
      LeftComplete(t, cfg, s, e, o, cut, outcome);
      CompleteIsHasAll(t, cfg, r.mem);
      forall id | id in k.ownBatches && id !in r.mem.ownBatches ensures SendsBatch(done, q, id) {
        if e.PacketArrives? { PacketCut(t, cfg, s, e.packet, o, cut); }
        BatchAnnounced(t, cfg, s, e, o, cut, q, id);
      }
    }
  }

  // A worker that stops in a crash is settled exactly when its disk does not hold everything.
  lemma RestoredSettled<T>(t: Truth<T>, d: Disk)
    ensures Settled(t, Restore(d)) <==> !HoldsAll(t, d)
  {
    RestoredKnows(d);
  }

  // ---- The theorem ----

  ghost predicate MarksKept<T>(s: System<T>, w: nat)
    requires w < |s.replicas|
  {
    Synced(s.replicas[w]) && CallsBy(s.flushes, w) == (if s.replicas[w].mem.flushed then 1 else 0)
  }

  ghost predicate OthersLive<T>(t: Truth<T>, s: System<T>, w: nat) {
    && (forall x :: 0 <= x < |s.replicas| && x != w ==> MarksKept(s, x) && Settled(t, s.replicas[x].mem))
    && (forall x, q :: 0 <= x < |s.replicas| && 0 <= q < |s.replicas| && x != q && x != w ==>
          SharesBatches(t, s, x, q) && SharesEOFs(s, x, q))
  }

  ghost predicate SharesWithAll<T>(t: Truth<T>, s: System<T>, w: nat)
    requires w < |s.replicas|
  {
    forall q :: 0 <= q < |s.replicas| && q != w ==> SharesBatches(t, s, w, q) && SharesEOFs(s, w, q)
  }

  // Live, split between w and the rest of the group.
  lemma LiveParts<T>(t: Truth<T>, cfg: Config, s: System<T>, w: nat)
    requires Safe(t, s) && |s.replicas| == cfg.workers && w < |s.replicas| && OthersLive(t, s, w)
    ensures Live(t, cfg, s) <==> MarksKept(s, w) && Settled(t, s.replicas[w].mem) && SharesWithAll(t, s, w)
  {
  }

  lemma SharesWithAllIff<T>(t: Truth<T>, s: System<T>, s': System<T>, w: nat, done: seq<Op<T>>)
    requires NetCut(s, s', w, done) && w < |s.replicas| && |s'.replicas| == |s.replicas|
    requires forall x :: 0 <= x < |s.replicas| && x != w ==> s'.replicas[x] == s.replicas[x]
    ensures SharesWithAll(t, s', w) <==> AnnouncedToAll(t, s, w, done, s'.replicas[w].mem)
  {
    forall q | 0 <= q < |s.replicas| && q != w
      ensures SharesBatches(t, s', w, q) && SharesEOFs(s', w, q) <==> AnnouncedTo(t, s, w, q, done, s'.replicas[w].mem)
    {
      SharesIff(t, s, s', w, q, done);
    }
  }

  lemma MarksStay<T>(s: System<T>, s': System<T>, w: nat, x: nat, done: seq<Op<T>>)
    requires x < |s.replicas| && |s'.replicas| == |s.replicas| && x != w && s'.replicas[x] == s.replicas[x]
    requires s'.flushes == s.flushes + Calls(w, done) && MarksKept(s, x)
    ensures MarksKept(s', x)
  {
    CallsByConcat(s.flushes, Calls(w, done), x);
    CallsByOne(w, done, x);
  }

  // Everything the interruption cannot disturb.
  lemma RestUndisturbed<T>(t: Truth<T>, cfg: Config, s: System<T>, e: Event, o: Orders, cut: nat, outcome: Outcome)
    requires WellFormed(t, cfg) && Live(t, cfg, s) && Enabled(t, cfg, s, Handle(e, o, cut, outcome)) && outcome != Done
    ensures OthersLive(t, Next(t, cfg, s, Handle(e, o, cut, outcome)), WorkerOf(e))
  {
    var s', w, done := Next(t, cfg, s, Handle(e, o, cut, outcome)), WorkerOf(e), Handler(t, cfg, s, e, o)[..cut];
    InterruptedShape(t, cfg, s, e, o, cut, outcome);
    forall x | 0 <= x < |s.replicas| && x != w ensures MarksKept(s', x) && Settled(t, s'.replicas[x].mem) {
      assert MarksKept(s, x);
      MarksStay(s, s', w, x, done);
    }
    forall x, q | 0 <= x < |s.replicas| && 0 <= q < |s.replicas| && x != q && x != w
      ensures SharesBatches(t, s', x, q) && SharesEOFs(s', x, q)
    {
      OthersShareOn(t, cfg, s, e, o, cut, outcome, x, q);
    }
  }

  lemma OthersShareOn<T>(t: Truth<T>, cfg: Config, s: System<T>, e: Event, o: Orders, cut: nat, outcome: Outcome,
                         x: nat, q: nat)
    requires Live(t, cfg, s) && Enabled(t, cfg, s, Handle(e, o, cut, outcome)) && outcome != Done
    requires x < |s.replicas| && q < |s.replicas| && x != q && x != WorkerOf(e)
    ensures var s' := Next(t, cfg, s, Handle(e, o, cut, outcome));
            |s'.replicas| == |s.replicas| && SharesBatches(t, s', x, q) && SharesEOFs(s', x, q)
  {
    var s', w, done := Next(t, cfg, s, Handle(e, o, cut, outcome)), WorkerOf(e), Handler(t, cfg, s, e, o)[..cut];
    InterruptedShape(t, cfg, s, e, o, cut, outcome);
    MemGrows(s.replicas[w].mem, done);
    assert SharesBatches(t, s, x, q) && SharesEOFs(s, x, q);
    OthersUndisturbed(t, s, s', w, x, q, done);
  }

  lemma HarmlessParts<T>(t: Truth<T>, cfg: Config, s: System<T>, e: Event, o: Orders, cut: nat, outcome: Outcome)
    requires WellFormed(t, cfg) && Live(t, cfg, s) && Enabled(t, cfg, s, Handle(e, o, cut, outcome)) && outcome != Done
    ensures var w, done := WorkerOf(e), Handler(t, cfg, s, e, o)[..cut];
            var left := Left(s.replicas[w], done, outcome);
            Harmless(t, cfg, s, e, o, cut, outcome) <==>
              && Synced(left) && CallsBy(s.flushes + Calls(w, done), w) == (if left.mem.flushed then 1 else 0)
              && Settled(t, left.mem) && AnnouncedToAll(t, s, w, done, left.mem)
  {
    var w, done := WorkerOf(e), Handler(t, cfg, s, e, o)[..cut];
    var left := Left(s.replicas[w], done, outcome);
    MarksIff(t, cfg, s, e, o, cut, outcome);
    RestoredSettled(t, left.disk);
    if !BringsEOF(e) {
      forall q | 0 <= q < |s.replicas| && q != w ensures AnnouncedTo(t, s, w, q, done, left.mem) {
        AnnouncedAnyway(t, cfg, s, e, o, cut, outcome, q);
      }
    }
  }

  // Stopped anywhere, by an error or a crash, the group stays live if and only if: a flush begun was
  // recorded, what was written was remembered, the worker is not left holding everything unflushed,
  // and a new EOF, with the batches it completes, has been announced.
  lemma InterruptedLiveIff<T>(t: Truth<T>, cfg: Config, s: System<T>, e: Event, o: Orders, cut: nat, outcome: Outcome)
    requires WellFormed(t, cfg) && Live(t, cfg, s) && Enabled(t, cfg, s, Handle(e, o, cut, outcome)) && outcome != Done
    ensures Live(t, cfg, Next(t, cfg, s, Handle(e, o, cut, outcome))) <==> Harmless(t, cfg, s, e, o, cut, outcome)
  {
    var s', w, done := Next(t, cfg, s, Handle(e, o, cut, outcome)), WorkerOf(e), Handler(t, cfg, s, e, o)[..cut];
    assert Safe(t, s') by { StepSafe(t, cfg, s, Handle(e, o, cut, outcome)); }
    InterruptedShape(t, cfg, s, e, o, cut, outcome);
    RestUndisturbed(t, cfg, s, e, o, cut, outcome);
    HarmlessParts(t, cfg, s, e, o, cut, outcome);
    SharesWithAllIff(t, s, s', w, done);
    LiveParts(t, cfg, s', w);
  }

  // ---- Event by event ----

  lemma CrashLiveIff<T>(t: Truth<T>, cfg: Config, s: System<T>, e: Event, o: Orders, cut: nat)
    requires WellFormed(t, cfg) && Live(t, cfg, s) && Enabled(t, cfg, s, Handle(e, o, cut, Crashed))
    ensures var w, done := WorkerOf(e), Handler(t, cfg, s, e, o)[..cut];
            var d := DiskAfter(s.replicas[w].disk, done);
            Live(t, cfg, Next(t, cfg, s, Handle(e, o, cut, Crashed))) <==>
              FlushWhole(done) && !HoldsAll(t, d) && (BringsEOF(e) ==> AnnouncedToAll(t, s, w, done, Restore(d)))
  {
    InterruptedLiveIff(t, cfg, s, e, o, cut, Crashed);
  }

  lemma FailureLiveIff<T>(t: Truth<T>, cfg: Config, s: System<T>, e: Event, o: Orders, cut: nat)
    requires WellFormed(t, cfg) && Live(t, cfg, s) && Enabled(t, cfg, s, Handle(e, o, cut, Failed))
    ensures var w, done := WorkerOf(e), Handler(t, cfg, s, e, o)[..cut];
            var k := MemAfter(s.replicas[w].mem, done);
            Live(t, cfg, Next(t, cfg, s, Handle(e, o, cut, Failed))) <==>
              && FlushWhole(done) && WritesRemembered(done) && Settled(t, k)
              && (BringsEOF(e) ==> AnnouncedToAll(t, s, w, done, k))
  {
    InterruptedLiveIff(t, cfg, s, e, o, cut, Failed);
  }

  // The disk once nothing but the batch id, or nothing but the EOF k, was written.
  lemma DiskWithBatch<T>(d: Disk, done: seq<Op<T>>, id: string)
    requires WritesBatch(done, id) && WriteFlushed !in done && forall x :: WritesBatch(done, x) ==> x == id
    requires forall op :: op in done ==> !op.WriteEOF?
    ensures DiskAfter(d, done).batches.Keys == d.batches.Keys + {id}
    ensures DiskAfter(d, done).eofs.Keys == d.eofs.Keys && DiskAfter(d, done).flushed == d.flushed
  {
    DiskKeys(d, done);
    assert forall k :: !WritesEOF(done, k);
  }

  lemma DiskWithEOF<T>(d: Disk, done: seq<Op<T>>, k: string)
    requires WritesEOF(done, k) && WriteFlushed !in done && forall x :: WritesEOF(done, x) ==> x == k
    requires forall id :: !WritesBatch(done, id)
    ensures DiskAfter(d, done).eofs.Keys == d.eofs.Keys + {k}
    ensures DiskAfter(d, done).batches.Keys == d.batches.Keys && DiskAfter(d, done).flushed == d.flushed
  {
    DiskKeys(d, done);
  }

  // A crash after a batch was written and before the flush decision endangers the flush exactly
  // when the disk then holds everything: a worker that relies on its peers is told again by them.
  lemma BatchCrash<T>(t: Truth<T>, cfg: Config, s: System<T>, e: Event, o: Orders, cut: nat)
    requires WellFormed(t, cfg) && Live(t, cfg, s) && Enabled(t, cfg, s, Handle(e, o, cut, Crashed))
    requires e.DataArrives? || e.BatchCounted?
    requires WritesBatch(Handler(t, cfg, s, e, o)[..cut], e.batchID) && !CallsFlush(Handler(t, cfg, s, e, o)[..cut])
    ensures var d := s.replicas[e.worker].disk;
            Live(t, cfg, Next(t, cfg, s, Handle(e, o, cut, Crashed))) <==>
              !(d.eofs.Keys == t.eofs.Keys && Covers(t, d.batches.Keys + {e.batchID}) && !d.flushed)
  {
    var d, done := s.replicas[e.worker].disk, Handler(t, cfg, s, e, o)[..cut];
    CrashLiveIff(t, cfg, s, e, o, cut);
    FlushOrder(t, cfg, s, e, o, cut);
    NoEOFWritten(t, cfg, s, e, o, cut);
    OnlyItsBatch(t, cfg, s, e, o, cut);
    DiskWithBatch(d, done, e.batchID);
  }

  lemma OnlyItsBatch<T>(t: Truth<T>, cfg: Config, s: System<T>, e: Event, o: Orders, cut: nat)
    requires Occurs(t, s, e) && (e.DataArrives? || e.BatchCounted?) && RecordsNamed(t)
    requires cut <= |Handler(t, cfg, s, e, o)|
    ensures forall id :: WritesBatch(Handler(t, cfg, s, e, o)[..cut], id) ==> id == e.batchID
  {
    if Seen(t, s, e) {
      SeenIsNothing(t, cfg, s, e, o);
    } else {
      BatchCut(t, cfg, s, e, o, cut);
      assert forall op :: op in Handler(t, cfg, s, e, o)[..cut] && op.WriteBatch? ==> Owns(op);
    }
  }

  // q has heard of the EOF k and of the batches due, or was sent them, or will be.
  ghost predicate ToldTo<T>(s: System<T>, w: nat, q: nat, done: seq<Op<T>>, k: string, due: set<string>)
    requires q < |s.replicas|
  {
    && (EOFReaches(s, w, q, k) || SendsEOF(done, q, k))
    && (forall id :: id in due ==> BatchReaches(s, w, q, id) || SendsBatch(done, q, id))
  }

  ghost predicate Told<T>(s: System<T>, w: nat, done: seq<Op<T>>, k: string, due: set<string>) {
    forall q :: 0 <= q < |s.replicas| && q != w ==> ToldTo(s, w, q, done, k, due)
  }

  // A crash after an EOF was written and before the flush decision: besides holding everything,
  // an EOF not yet sent to a worker that cannot learn it otherwise is lost for it, and so are the
  // batches that the EOF makes due.
  lemma EOFCrash<T>(t: Truth<T>, cfg: Config, s: System<T>, e: Event, o: Orders, cut: nat)
    requires WellFormed(t, cfg) && Live(t, cfg, s) && Enabled(t, cfg, s, Handle(e, o, cut, Crashed))
    requires e.EofArrives?
    requires WritesEOF(Handler(t, cfg, s, e, o)[..cut], e.eofID) && !CallsFlush(Handler(t, cfg, s, e, o)[..cut])
    ensures var d, done := s.replicas[e.worker].disk, Handler(t, cfg, s, e, o)[..cut];
            var complete := d.eofs.Keys + {e.eofID} == t.eofs.Keys;
            Live(t, cfg, Next(t, cfg, s, Handle(e, o, cut, Crashed))) <==>
              && !(complete && Covers(t, d.batches.Keys) && !d.flushed)
              && Told(s, e.worker, done, e.eofID, if complete then d.batches.Keys else {})
  {
    var w, d, done := e.worker, s.replicas[e.worker].disk, Handler(t, cfg, s, e, o)[..cut];
    CrashLiveIff(t, cfg, s, e, o, cut);
    FlushOrder(t, cfg, s, e, o, cut);
    OnlyItsEOF(t, cfg, s, e, o, cut);
    DiskWithEOF(d, done, e.eofID);
    ToldIsAnnounced(t, cfg, s, w, done, DiskAfter(d, done), e.eofID);
  }

  // What was owed before is in flight: only the new EOF and the batches it makes due are left.
  lemma ToldIsAnnounced<T>(t: Truth<T>, cfg: Config, s: System<T>, w: nat, done: seq<Op<T>>, d: Disk, k: string)
    requires Live(t, cfg, s) && w < |s.replicas|
    requires d.eofs.Keys == s.replicas[w].disk.eofs.Keys + {k} && d.batches.Keys == s.replicas[w].disk.batches.Keys
    ensures AnnouncedToAll(t, s, w, done, Restore(d)) <==>
              Told(s, w, done, k, if d.eofs.Keys == t.eofs.Keys then d.batches.Keys else {})
  {
    var due := if d.eofs.Keys == t.eofs.Keys then d.batches.Keys else {};
    forall q | 0 <= q < |s.replicas| && q != w
      ensures AnnouncedTo(t, s, w, q, done, Restore(d)) <==> ToldTo(s, w, q, done, k, due)
    {
      ToldToIsAnnounced(t, cfg, s, w, q, done, d, k);
    }
  }

  lemma ToldToIsAnnounced<T>(t: Truth<T>, cfg: Config, s: System<T>, w: nat, q: nat, done: seq<Op<T>>, d: Disk, k: string)
    requires Live(t, cfg, s) && w < |s.replicas| && q < |s.replicas| && q != w
    requires d.eofs.Keys == s.replicas[w].disk.eofs.Keys + {k} && d.batches.Keys == s.replicas[w].disk.batches.Keys
    ensures AnnouncedTo(t, s, w, q, done, Restore(d)) <==>
              ToldTo(s, w, q, done, k, if d.eofs.Keys == t.eofs.Keys then d.batches.Keys else {})
  {
    RestoredKnows(d);
    assert Synced(s.replicas[w]) && SharesEOFs(s, w, q);
    assert k in d.eofs;
  }

  lemma OnlyItsEOF<T>(t: Truth<T>, cfg: Config, s: System<T>, e: Event, o: Orders, cut: nat)
    requires Occurs(t, s, e) && e.EofArrives? && cut <= |Handler(t, cfg, s, e, o)|
    ensures forall k :: WritesEOF(Handler(t, cfg, s, e, o)[..cut], k) ==> k == e.eofID
    ensures forall id :: !WritesBatch(Handler(t, cfg, s, e, o)[..cut], id)
  {
    if !Seen(t, s, e) {
      EOFCut(t, cfg, s, e, o, cut);
      assert forall op :: op in Handler(t, cfg, s, e, o)[..cut] && (op.WriteEOF? || op.WriteBatch?) ==> Owns(op);
    }
  }

  // A crash while a message is handled only harms between the flush call and its mark.
  lemma PacketCrash<T>(t: Truth<T>, cfg: Config, s: System<T>, p: Packet, o: Orders, cut: nat)
    requires WellFormed(t, cfg) && Live(t, cfg, s) && Enabled(t, cfg, s, Handle(PacketArrives(p), o, cut, Crashed))
    ensures Live(t, cfg, Next(t, cfg, s, Handle(PacketArrives(p), o, cut, Crashed))) <==>
              FlushWhole(Handler(t, cfg, s, PacketArrives(p), o)[..cut])
  {
    var e, w, done := PacketArrives(p), p.to, Handler(t, cfg, s, PacketArrives(p), o)[..cut];
    var r := s.replicas[w];
    CrashLiveIff(t, cfg, s, e, o, cut);
    PacketCut(t, cfg, s, p, o, cut);
    DiskOwnsNothing(r.disk, done);
    RestoreKeepsOwn(t, r);
    RestoredSettled(t, r.disk);
    OwedAnyway(t, cfg, s, w, done, DiskAfter(r.disk, done));
  }

  lemma OwedAnyway<T>(t: Truth<T>, cfg: Config, s: System<T>, w: nat, done: seq<Op<T>>, d: Disk)
    requires Live(t, cfg, s) && w < |s.replicas|
    requires d.eofs == s.replicas[w].disk.eofs && d.batches == s.replicas[w].disk.batches
    ensures AnnouncedToAll(t, s, w, done, Restore(d))
  {
    RestoredKnows(d);
    forall q | 0 <= q < |s.replicas| && q != w ensures AnnouncedTo(t, s, w, q, done, Restore(d)) {
      assert SharesBatches(t, s, w, q) && SharesEOFs(s, w, q);
      assert KnownEOFs(s.replicas[w].mem) <= t.eofs.Keys;
    }
  }

  lemma {:induction false} DiskOwnsNothing<T>(d: Disk, ops: seq<Op<T>>)
    requires OwnsNothing(ops)
    ensures DiskAfter(d, ops).batches == d.batches && DiskAfter(d, ops).eofs == d.eofs
    ensures d.flushed ==> DiskAfter(d, ops).flushed
  {
    if ops != [] {
      assert !Owns(ops[|ops| - 1]);
      OwnsNothingPrefix(ops, |ops| - 1);
      DiskOwnsNothing(d, ops[..|ops| - 1]);
    }
  }

  // An error before anything but sends was done is harmless, whatever the event.
  lemma SendFailure<T>(t: Truth<T>, cfg: Config, s: System<T>, e: Event, o: Orders, cut: nat)
    requires WellFormed(t, cfg) && Live(t, cfg, s) && Enabled(t, cfg, s, Handle(e, o, cut, Failed))
    requires OnlySends(Handler(t, cfg, s, e, o)[..cut])
    ensures Live(t, cfg, Next(t, cfg, s, Handle(e, o, cut, Failed)))
  {
    var w, done := WorkerOf(e), Handler(t, cfg, s, e, o)[..cut];
    FailureLiveIff(t, cfg, s, e, o, cut);
    SendsKeep(s.replicas[w].mem, s.replicas[w].disk, done);
    SendsWriteNothing(done);
    forall q | 0 <= q < |s.replicas| && q != w ensures AnnouncedTo(t, s, w, q, done, s.replicas[w].mem) {
      assert SharesBatches(t, s, w, q) && SharesEOFs(s, w, q);
    }
  }

  lemma SendsWriteNothing<T>(done: seq<Op<T>>)
    requires OnlySends(done)
    ensures FlushWhole(done) && WritesRemembered(done)
  {
    assert forall op :: op in done ==> op.Send? || op.Publish?;
  }

  // ---- Errors while a batch or an EOF from the queue is handled ----

  ghost predicate OfPeers<T>(op: Op<T>) { op.AddPeerBatch? || op.AddPeerEOF? }

  lemma RecordLearnsNothing<T>(cfg: Config, me: nat, v: ClientView, r: BatchRecord, o: Orders, op: Op<T>)
    requires OfPeers(op)
    ensures op !in RecordBatch<T>(cfg, me, v, r, o)
  {
    SendAllMember(Others(me, cfg.workers), BatchInfo(me, [r]), op);
  }

  lemma LocalEOFLearnsNothing<T>(cfg: Config, me: nat, v: ClientView, e: string, n: nat, o: Orders, op: Op<T>)
    requires OfPeers(op)
    ensures op !in LocalEOF<T>(cfg, me, v, e, n, o)
  {
    var k := MemOp<T>(v, AddOwnEOF(e, n));
    SendAllMember(Others(me, cfg.workers), EofArrived(me, e, n), op);
    SendChunksMember(Others(me, cfg.workers), me, Packed(cfg, k, o.batches), op);
  }

  lemma QueueLearnsNothing<T>(t: Truth<T>, cfg: Config, s: System<T>, e: Event, o: Orders, op: Op<T>)
    requires Occurs(t, s, e) && !e.PacketArrives? && OfPeers(op)
    ensures op !in Handler(t, cfg, s, e, o)
  {
    var w, v := WorkerOf(e), s.replicas[WorkerOf(e)].mem;
    match e
    case DataArrives(_, id) =>
      PublishAllMember<T>(t.outputs[id], op);
      RecordLearnsNothing(cfg, w, v, t.records[id], o, op);
    case BatchCounted(_, id) => RecordLearnsNothing(cfg, w, v, t.records[id], o, op);
    case EofArrives(_, id) => LocalEOFLearnsNothing(cfg, w, v, id, t.eofs[id], o, op);
  }

  lemma {:induction false} PeersStay<T>(v: ClientView, ops: seq<Op<T>>)
    requires forall op :: op in ops ==> !OfPeers(op)
    ensures MemAfter(v, ops).peerBatches == v.peerBatches && MemAfter(v, ops).peerEOFs == v.peerEOFs
  {
    if ops != [] {
      assert !OfPeers(ops[|ops| - 1]);
      PeersStay(v, ops[..|ops| - 1]);
    }
  }

  // What the worker knows after the first operations of an event from the queue.
  lemma KnownAfter<T>(t: Truth<T>, cfg: Config, s: System<T>, e: Event, o: Orders, cut: nat)
    requires Occurs(t, s, e) && RecordsNamed(t) && !e.PacketArrives? && cut <= |Handler(t, cfg, s, e, o)|
    requires !CallsFlush(Handler(t, cfg, s, e, o)[..cut])
    ensures var v, done := s.replicas[WorkerOf(e)].mem, Handler(t, cfg, s, e, o)[..cut];
            var k := MemAfter(v, done);
            && k.peerBatches == v.peerBatches && k.peerEOFs == v.peerEOFs && k.flushed == v.flushed
            && (forall id :: id in k.ownBatches <==> id in v.ownBatches || AddsBatch(done, id))
            && (forall x :: x in k.ownEOFs <==> x in v.ownEOFs || AddsEOF(done, x))
            && FlushWhole(done) && WriteFlushed !in done
  {
    var v, done := s.replicas[WorkerOf(e)].mem, Handler(t, cfg, s, e, o)[..cut];
    FlushOrder(t, cfg, s, e, o, cut);
    forall op | op in done ensures !OfPeers(op) { if OfPeers(op) { QueueLearnsNothing(t, cfg, s, e, o, op); } }
    PeersStay(v, done);
    MemKeys(v, done);
  }

  lemma OneMoreKey<V>(own: map<string, V>, own': map<string, V>, peers: map<nat, map<string, V>>, k: string)
    requires own'.Keys == own.Keys + {k}
    ensures UnionKeys(own', peers) == UnionKeys(own, peers) + {k}
  {
  }

  // After a batch was written and before the flush decision: it must have been remembered too, and
  // the worker must not be left knowing everything.
  lemma BatchFailure<T>(t: Truth<T>, cfg: Config, s: System<T>, e: Event, o: Orders, cut: nat)
    requires WellFormed(t, cfg) && Live(t, cfg, s) && Enabled(t, cfg, s, Handle(e, o, cut, Failed))
    requires e.DataArrives? || e.BatchCounted?
    requires WritesBatch(Handler(t, cfg, s, e, o)[..cut], e.batchID) && !CallsFlush(Handler(t, cfg, s, e, o)[..cut])
    ensures var v, done := s.replicas[e.worker].mem, Handler(t, cfg, s, e, o)[..cut];
            Live(t, cfg, Next(t, cfg, s, Handle(e, o, cut, Failed))) <==>
              && AddsBatch(done, e.batchID)
              && !(Complete(t, v) && Covers(t, KnownBatches(v) + {e.batchID}) && !v.flushed)
  {
    var v, done := s.replicas[e.worker].mem, Handler(t, cfg, s, e, o)[..cut];
    var k := MemAfter(v, done);
    FailureLiveIff(t, cfg, s, e, o, cut);
    KnownAfter(t, cfg, s, e, o, cut);
    NoEOFWritten(t, cfg, s, e, o, cut);
    OnlyItsBatch(t, cfg, s, e, o, cut);
    OnlyItsBatchAdded(t, cfg, s, e, o, cut);
    BatchRemembered(done, e.batchID);
    if AddsBatch(done, e.batchID) {
      BatchesWith(v, k, e.batchID, done);
      SettledWithBatch(t, v, k, e.batchID);
    }
  }

  lemma BatchRemembered<T>(done: seq<Op<T>>, id: string)
    requires WritesBatch(done, id) && (forall x :: WritesBatch(done, x) ==> x == id) && forall x :: !WritesEOF(done, x)
    ensures WritesRemembered(done) <==> AddsBatch(done, id)
  {
  }

  lemma BatchesWith<T>(v: ClientView, k: ClientView, id: string, done: seq<Op<T>>)
    requires AddsBatch(done, id) && (forall x :: AddsBatch(done, x) ==> x == id) && forall x :: !AddsEOF(done, x)
    requires forall x :: x in k.ownBatches <==> x in v.ownBatches || AddsBatch(done, x)
    requires forall x :: x in k.ownEOFs <==> x in v.ownEOFs || AddsEOF(done, x)
    ensures k.ownBatches.Keys == v.ownBatches.Keys + {id} && k.ownEOFs.Keys == v.ownEOFs.Keys
  {
    forall x ensures x in k.ownBatches.Keys <==> x in v.ownBatches.Keys + {id} { }
  }

  lemma SettledWithBatch<T>(t: Truth<T>, v: ClientView, k: ClientView, id: string)
    requires k.peerBatches == v.peerBatches && k.peerEOFs == v.peerEOFs && k.flushed == v.flushed
    requires k.ownBatches.Keys == v.ownBatches.Keys + {id} && k.ownEOFs.Keys == v.ownEOFs.Keys
    ensures Settled(t, k) <==> !(Complete(t, v) && Covers(t, KnownBatches(v) + {id}) && !v.flushed)
  {
    OneMoreKey(v.ownBatches, k.ownBatches, v.peerBatches, id);
    assert KnownEOFs(k) == KnownEOFs(v);
  }

  lemma OnlyItsBatchAdded<T>(t: Truth<T>, cfg: Config, s: System<T>, e: Event, o: Orders, cut: nat)
    requires Occurs(t, s, e) && (e.DataArrives? || e.BatchCounted?) && RecordsNamed(t)
    requires cut <= |Handler(t, cfg, s, e, o)|
    ensures forall id :: AddsBatch(Handler(t, cfg, s, e, o)[..cut], id) ==> id == e.batchID
    ensures forall x :: !AddsEOF(Handler(t, cfg, s, e, o)[..cut], x) && !WritesEOF(Handler(t, cfg, s, e, o)[..cut], x)
  {
    NoEOFWritten(t, cfg, s, e, o, cut);
    if Seen(t, s, e) {
      SeenIsNothing(t, cfg, s, e, o);
    } else {
      BatchCut(t, cfg, s, e, o, cut);
      assert forall op :: op in Handler(t, cfg, s, e, o)[..cut] && op.AddOwnBatch? ==> Owns(op);
    }
  }

  // After an EOF was written and before the flush decision: it must have been remembered, the worker
  // must not be left knowing everything, and the EOF and the batches it makes due must be under way.
  lemma EOFFailure<T>(t: Truth<T>, cfg: Config, s: System<T>, e: Event, o: Orders, cut: nat)
    requires WellFormed(t, cfg) && Live(t, cfg, s) && Enabled(t, cfg, s, Handle(e, o, cut, Failed)) && e.EofArrives?
    requires WritesEOF(Handler(t, cfg, s, e, o)[..cut], e.eofID) && !CallsFlush(Handler(t, cfg, s, e, o)[..cut])
    ensures var v, done := s.replicas[e.worker].mem, Handler(t, cfg, s, e, o)[..cut];
            var complete := KnownEOFs(v) + {e.eofID} == t.eofs.Keys;
            Live(t, cfg, Next(t, cfg, s, Handle(e, o, cut, Failed))) <==>
              && AddsEOF(done, e.eofID) && !(complete && Covers(t, KnownBatches(v)) && !v.flushed)
              && Told(s, e.worker, done, e.eofID, if complete then v.ownBatches.Keys else {})
  {
    var v, done := s.replicas[e.worker].mem, Handler(t, cfg, s, e, o)[..cut];
    var k := MemAfter(v, done);
    FailureLiveIff(t, cfg, s, e, o, cut);
    KnownAfter(t, cfg, s, e, o, cut);
    OnlyItsEOF(t, cfg, s, e, o, cut);
    OnlyItsEOFAdded(t, cfg, s, e, o, cut);
    EOFRemembered(done, e.eofID);
    if AddsEOF(done, e.eofID) {
      EOFsWith(v, k, e.eofID, done);
      SettledWithEOF(t, v, k, e.eofID);
      ToldIsAnnouncedToo(t, cfg, s, e.worker, done, k, e.eofID);
    }
  }

  lemma EOFRemembered<T>(done: seq<Op<T>>, eofID: string)
    requires WritesEOF(done, eofID) && (forall x :: WritesEOF(done, x) ==> x == eofID) && forall x :: !WritesBatch(done, x)
    ensures WritesRemembered(done) <==> AddsEOF(done, eofID)
  {
  }

  lemma EOFsWith<T>(v: ClientView, k: ClientView, eofID: string, done: seq<Op<T>>)
    requires AddsEOF(done, eofID) && (forall x :: AddsEOF(done, x) ==> x == eofID) && forall x :: !AddsBatch(done, x)
    requires forall x :: x in k.ownBatches <==> x in v.ownBatches || AddsBatch(done, x)
    requires forall x :: x in k.ownEOFs <==> x in v.ownEOFs || AddsEOF(done, x)
    ensures k.ownEOFs.Keys == v.ownEOFs.Keys + {eofID} && k.ownBatches.Keys == v.ownBatches.Keys
  {
    forall x ensures x in k.ownEOFs.Keys <==> x in v.ownEOFs.Keys + {eofID} { }
  }

  lemma SettledWithEOF<T>(t: Truth<T>, v: ClientView, k: ClientView, eofID: string)
    requires k.peerBatches == v.peerBatches && k.peerEOFs == v.peerEOFs && k.flushed == v.flushed
    requires k.ownEOFs.Keys == v.ownEOFs.Keys + {eofID} && k.ownBatches.Keys == v.ownBatches.Keys
    ensures Complete(t, k) <==> KnownEOFs(v) + {eofID} == t.eofs.Keys
    ensures Settled(t, k) <==> !(KnownEOFs(v) + {eofID} == t.eofs.Keys && Covers(t, KnownBatches(v)) && !v.flushed)
  {
    OneMoreKey(v.ownEOFs, k.ownEOFs, v.peerEOFs, eofID);
    assert KnownBatches(k) == KnownBatches(v);
  }

  lemma OnlyItsEOFAdded<T>(t: Truth<T>, cfg: Config, s: System<T>, e: Event, o: Orders, cut: nat)
    requires Occurs(t, s, e) && e.EofArrives? && cut <= |Handler(t, cfg, s, e, o)|
    ensures forall x :: AddsEOF(Handler(t, cfg, s, e, o)[..cut], x) ==> x == e.eofID
    ensures forall id :: !AddsBatch(Handler(t, cfg, s, e, o)[..cut], id)
  {
    if !Seen(t, s, e) {
      EOFCut(t, cfg, s, e, o, cut);
      assert forall op :: op in Handler(t, cfg, s, e, o)[..cut] && (op.AddOwnEOF? || op.AddOwnBatch?) ==> Owns(op);
    }
  }

  lemma ToldIsAnnouncedToo<T>(t: Truth<T>, cfg: Config, s: System<T>, w: nat, done: seq<Op<T>>, k: ClientView, eofID: string)
    requires Live(t, cfg, s) && w < |s.replicas| && k.ownEOFs.Keys == s.replicas[w].mem.ownEOFs.Keys + {eofID}
    ensures AnnouncedToAll(t, s, w, done, k) <==>
              Told(s, w, done, eofID, if Complete(t, k) then k.ownBatches.Keys else {})
  {
    var due := if Complete(t, k) then k.ownBatches.Keys else {};
    forall q | 0 <= q < |s.replicas| && q != w
      ensures AnnouncedTo(t, s, w, q, done, k) <==> ToldTo(s, w, q, done, eofID, due)
    {
      assert SharesEOFs(s, w, q);
      assert eofID in k.ownEOFs;
    }
  }

  // An error while a peer's EOF is handled, after it was taken in: the worker must not be left
  // ready to flush, nor with batches that completing it makes due.
  lemma RemoteEOFFailure<T>(t: Truth<T>, cfg: Config, s: System<T>, p: Packet, o: Orders, cut: nat)
    requires WellFormed(t, cfg) && Live(t, cfg, s) && Enabled(t, cfg, s, Handle(PacketArrives(p), o, cut, Failed))
    requires p.msg.EofArrived? && !Seen(t, s, PacketArrives(p)) && cut >= 1
    requires !CallsFlush(Handler(t, cfg, s, PacketArrives(p), o)[..cut])
    ensures var w, done := p.to, Handler(t, cfg, s, PacketArrives(p), o)[..cut];
            var k := Knowing(t, s, PacketArrives(p));
            Live(t, cfg, Next(t, cfg, s, Handle(PacketArrives(p), o, cut, Failed))) <==>
              Settled(t, k) && BatchesShared(s, w, done, if Complete(t, k) then k.ownBatches.Keys else {})
  {
    var e, w, done := PacketArrives(p), p.to, Handler(t, cfg, s, PacketArrives(p), o)[..cut];
    FailureLiveIff(t, cfg, s, e, o, cut);
    PacketCut(t, cfg, s, p, o, cut);
    OwnsNothingRemembered(done);
    TakenIn(t, cfg, s, p, o, cut);
    OwnEOFsKnown(t, s, e);
    SharedIsAnnounced(t, cfg, s, w, done, Knowing(t, s, e));
  }

  lemma OwnsNothingRemembered<T>(done: seq<Op<T>>)
    requires OwnsNothing(done) && !CallsFlush(done)
    ensures FlushWhole(done) && WritesRemembered(done)
  {
    assert forall op :: op in done ==> !Owns(op);
  }

  ghost predicate BatchesShared<T>(s: System<T>, w: nat, done: seq<Op<T>>, due: set<string>) {
    forall q, id :: 0 <= q < |s.replicas| && q != w && id in due ==> BatchReaches(s, w, q, id) || SendsBatch(done, q, id)
  }

  lemma SharedIsAnnounced<T>(t: Truth<T>, cfg: Config, s: System<T>, w: nat, done: seq<Op<T>>, k: ClientView)
    requires Live(t, cfg, s) && w < |s.replicas| && k.ownEOFs == s.replicas[w].mem.ownEOFs
    ensures AnnouncedToAll(t, s, w, done, k) <==>
              BatchesShared(s, w, done, if Complete(t, k) then k.ownBatches.Keys else {})
  {
    var due := if Complete(t, k) then k.ownBatches.Keys else {};
    if BatchesShared(s, w, done, due) {
      forall q | 0 <= q < |s.replicas| && q != w ensures AnnouncedTo(t, s, w, q, done, k) {
        assert SharesEOFs(s, w, q);
      }
    }
    if AnnouncedToAll(t, s, w, done, k) {
      forall q, id | 0 <= q < |s.replicas| && q != w && id in due
        ensures BatchReaches(s, w, q, id) || SendsBatch(done, q, id)
      {
        assert AnnouncedTo(t, s, w, q, done, k);
      }
    }
  }

  lemma TakenIn<T>(t: Truth<T>, cfg: Config, s: System<T>, p: Packet, o: Orders, cut: nat)
    requires Occurs(t, s, PacketArrives(p)) && p.msg.EofArrived? && !Seen(t, s, PacketArrives(p))
    requires 1 <= cut <= |Handler(t, cfg, s, PacketArrives(p), o)|
    requires !CallsFlush(Handler(t, cfg, s, PacketArrives(p), o)[..cut])
    ensures MemAfter(s.replicas[p.to].mem, Handler(t, cfg, s, PacketArrives(p), o)[..cut]) == Knowing(t, s, PacketArrives(p))
  {
    var v, k := s.replicas[p.to].mem, Knowing(t, s, PacketArrives(p));
    var add: Op<T> := AddPeerEOF(p.msg.sender, p.msg.eofID, p.msg.total);
    var share: seq<Op<T>> := ShareWhenComplete(cfg, p.to, k, o);
    ShareOnlySends<T>(cfg, p.to, k, o.batches, Others(p.to, cfg.workers));
    FlushShape<T>(cfg, k, o);
    OneOp(v, EMPTY_DISK, add);
    CutAfterSends(v, add, share, TryFlush(cfg, k, o), cut);
  }

  lemma CutBeforeFlush<T>(pre: seq<Op<T>>, flush: seq<Op<T>>, cut: nat)
    requires (flush == [] || IsFlush(flush)) && cut <= |pre + flush|
    ensures cut <= |pre| || CallsFlush((pre + flush)[..cut])
  {
    if cut > |pre| {
      assert (pre + flush)[..cut][|pre|] == flush[0];
    }
  }

  lemma CutAfterSends<T>(v: ClientView, add: Op<T>, sends: seq<Op<T>>, flush: seq<Op<T>>, cut: nat)
    requires OnlySends(sends) && (flush == [] || IsFlush(flush)) && 1 <= cut <= |[add] + sends + flush|
    requires !CallsFlush(([add] + sends + flush)[..cut])
    ensures MemAfter(v, ([add] + sends + flush)[..cut]) == MemAfter(v, [add])
  {
    var ops := [add] + sends + flush;
    CutBeforeFlush([add] + sends, flush, cut);
    var some := sends[..cut - 1];
    assert ops[..cut] == [add] + some;
    assert OnlySends(some) by { forall op | op in some ensures op in sends { } }
    MemAfterConcat(v, [add], some);
    MemUntouched(MemAfter(v, [add]), some);
  }

  // ---- The event comes back ----

  // What was done left a trace that the same event is recognised by.
  ghost predicate Traced<T>(e: Event, done: seq<Op<T>>, outcome: Outcome) {
    match e
    case DataArrives(_, id) => if outcome == Crashed then WritesBatch(done, id) else AddsBatch(done, id)
    case BatchCounted(_, id) => if outcome == Crashed then WritesBatch(done, id) else AddsBatch(done, id)
    case EofArrives(_, k) => if outcome == Crashed then WritesEOF(done, k) else AddsEOF(done, k)
    case PacketArrives(p) =>
      outcome == Failed && p.msg.EofArrived? && AddPeerEOF(p.msg.sender, p.msg.eofID, p.msg.total) in done
  }

  lemma {:induction false} PeerEOFStays<T>(v: ClientView, ops: seq<Op<T>>, q: nat, e: string, n: nat)
    requires AddPeerEOF(q, e, n) in ops
    ensures q in MemAfter(v, ops).peerEOFs && e in MemAfter(v, ops).peerEOFs[q]
  {
    var init, last := ops[..|ops| - 1], ops[|ops| - 1];
    assert ops == init + [last];
    if last != AddPeerEOF(q, e, n) {
      PeerEOFStays(v, init, q, e, n);
    }
  }

  // Delivered again after the interruption, such an event is ignored: whatever was left undone,
  // the sharing of batches or the flush, is not done by handling it again.
  lemma RetryIsIgnored<T>(t: Truth<T>, cfg: Config, s: System<T>, e: Event, o: Orders, cut: nat, outcome: Outcome,
                          again: Orders)
    requires RecordsNamed(t) && |s.replicas| == cfg.workers && Enabled(t, cfg, s, Handle(e, o, cut, outcome))
    requires outcome != Done && Traced(e, Handler(t, cfg, s, e, o)[..cut], outcome)
    ensures var s' := Next(t, cfg, s, Handle(e, o, cut, outcome));
            Occurs(t, s', e) && Handler(t, cfg, s', e, again) == []
  {
    var s', w, done := Next(t, cfg, s, Handle(e, o, cut, outcome)), WorkerOf(e), Handler(t, cfg, s, e, o)[..cut];
    InterruptedShape(t, cfg, s, e, o, cut, outcome);
    MemKeys(s.replicas[w].mem, done);
    DiskKeys(s.replicas[w].disk, done);
    RestoredKnows(DiskAfter(s.replicas[w].disk, done));
    if e.PacketArrives? {
      PeerEOFStays(s.replicas[w].mem, done, e.packet.msg.sender, e.packet.msg.eofID, e.packet.msg.total);
    }
    SeenIsNothing(t, cfg, s', e, again);
  }

  // ---- News leads to the flush, also to a second one ----

  lemma {:induction false} OneCall<T>(w: nat, pre: seq<Op<T>>, flush: seq<Op<T>>)
    requires FlushFree(pre) && IsFlush(flush)
    ensures |Calls(w, pre + flush)| == 1
  {
    CallsConcat(w, pre, flush);
    NoCalls(w, pre);
    assert flush[..2][..1][..0] == [] && flush[..2][..1] == flush[..1];
    assert |Calls(w, flush[..1])| == 1 && Calls(w, flush[..2]) == Calls(w, flush[..1]) == Calls(w, flush);
  }

  // A worker that has not marked a flush and knows everything flushes with the next news.
  lemma NewsCalls<T>(t: Truth<T>, cfg: Config, s: System<T>, e: Event, o: Orders)
    requires WellFormed(t, cfg) && Agrees(t, s) && Occurs(t, s, e) && ValidOrders(Knowing(t, s, e), o) && IsNewsTo(t, s, e)
    requires Complete(t, Knowing(t, s, e)) && Covers(t, KnownBatches(Knowing(t, s, e)))
    requires !s.replicas[WorkerOf(e)].mem.flushed
    ensures |Calls(WorkerOf(e), Handler(t, cfg, s, e, o))| == 1
  {
    KnowingAgrees(t, s, e);
    KnowsMore(t, cfg, s, e);
    WholeIsReady(t, cfg, Knowing(t, s, e), o);
    var pre, flush := HandlerShape(t, cfg, s, e, o);
    OneCall(WorkerOf(e), pre, flush);
  }

  lemma DoneCalls<T>(t: Truth<T>, cfg: Config, s: System<T>, e: Event, o: Orders)
    requires Occurs(t, s, e) && ValidOrders(Knowing(t, s, e), o)
    ensures CallsBy(Next(t, cfg, s, Handle(e, o, |Handler(t, cfg, s, e, o)|, Done)).flushes, WorkerOf(e)) ==
              CallsBy(s.flushes, WorkerOf(e)) + |Calls(WorkerOf(e), Handler(t, cfg, s, e, o))|
  {
    var w, ops := WorkerOf(e), Handler(t, cfg, s, e, o);
    assert ops[..|ops|] == ops;
    CallsByConcat(s.flushes, Calls(w, ops), w);
    CallsByOne(w, ops, w);
  }

  lemma NewsFlushes<T>(t: Truth<T>, cfg: Config, s: System<T>, e: Event, o: Orders)
    requires WellFormed(t, cfg) && Agrees(t, s) && Occurs(t, s, e) && ValidOrders(Knowing(t, s, e), o) && IsNewsTo(t, s, e)
    requires Complete(t, Knowing(t, s, e)) && Covers(t, KnownBatches(Knowing(t, s, e)))
    requires !s.replicas[WorkerOf(e)].mem.flushed
    ensures CallsBy(Next(t, cfg, s, Handle(e, o, |Handler(t, cfg, s, e, o)|, Done)).flushes, WorkerOf(e)) ==
              CallsBy(s.flushes, WorkerOf(e)) + 1
  {
    NewsCalls(t, cfg, s, e, o);
    DoneCalls(t, cfg, s, e, o);
  }

  lemma CrashedInFlush<T>(t: Truth<T>, cfg: Config, s: System<T>, e: Event, o: Orders, cut: nat)
    requires WellFormed(t, cfg) && Live(t, cfg, s) && Enabled(t, cfg, s, Handle(e, o, cut, Crashed))
    requires !FlushWhole(Handler(t, cfg, s, e, o)[..cut])
    ensures var w, s' := WorkerOf(e), Next(t, cfg, s, Handle(e, o, cut, Crashed));
            CallsBy(s'.flushes, w) == 1 && !s'.replicas[w].mem.flushed
  {
    var w, done := WorkerOf(e), Handler(t, cfg, s, e, o)[..cut];
    InterruptedShape(t, cfg, s, e, o, cut, Crashed);
    CutCalls(t, cfg, s, e, o, cut);
    CallsByConcat(s.flushes, Calls(w, done), w);
    CallsByOne(w, done, w);
    DiskKeys(s.replicas[w].disk, done);
    RestoredKnows(DiskAfter(s.replicas[w].disk, done));
    assert MarksKept(s, w);
  }

  // A crash between the flush call and its mark on disk: the worker comes back unflushed, and the
  // news e' with which it has been told everything again makes it call a second time.
  lemma CalledTwice<T>(t: Truth<T>, cfg: Config, s: System<T>, e: Event, o: Orders, cut: nat, e': Event, o': Orders)
    requires WellFormed(t, cfg) && Live(t, cfg, s) && Enabled(t, cfg, s, Handle(e, o, cut, Crashed))
    requires !FlushWhole(Handler(t, cfg, s, e, o)[..cut])
    requires var s' := Next(t, cfg, s, Handle(e, o, cut, Crashed));
             && Occurs(t, s', e') && ValidOrders(Knowing(t, s', e'), o') && WorkerOf(e') == WorkerOf(e)
             && IsNewsTo(t, s', e') && Complete(t, Knowing(t, s', e')) && Covers(t, KnownBatches(Knowing(t, s', e')))
    ensures var s' := Next(t, cfg, s, Handle(e, o, cut, Crashed));
            CallsBy(Next(t, cfg, s', Handle(e', o', |Handler(t, cfg, s', e', o')|, Done)).flushes, WorkerOf(e)) == 2
  {
    CrashedInFlush(t, cfg, s, e, o, cut);
    StepSafe(t, cfg, s, Handle(e, o, cut, Crashed));
    NewsFlushes(t, cfg, Next(t, cfg, s, Handle(e, o, cut, Crashed)), e', o');
  }
}
