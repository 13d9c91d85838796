// Barrier exactness: whatever is duplicated, reordered, lost, cut short or restarted, every
// flush passes the survivors of the whole upstream batch set and the same EOF id.
module Barrier {
  import opened MapOrder
  import opened Sums
  import opened EofProtocol
  import opened ReplicaGroup
  import Chunks

  // ---- Everything any replica holds agrees with upstream ----

  ghost predicate Within<V(!new)>(m: map<string, V>, t: map<string, V>) {
    forall k :: k in m ==> k in t && m[k] == t[k]
  }

  ghost predicate AllWithin<V(!new)>(peers: map<nat, map<string, V>>, t: map<string, V>) {
    forall p :: p in peers ==> Within(peers[p], t)
  }

  ghost predicate ViewAgrees<T>(t: Truth<T>, v: ClientView) {
    && Within(v.ownBatches, t.records)
    && AllWithin(v.peerBatches, t.records)
    && Within(v.ownEOFs, t.eofs)
    && AllWithin(v.peerEOFs, t.eofs)
    && (KnownEOFs(v) != {} ==> IsLast(v.lastEOFID, KnownEOFs(v)))
  }

  ghost predicate DiskAgrees<T>(t: Truth<T>, d: Disk) {
    Within(d.batches, t.records) && Within(d.eofs, t.eofs)
  }

  ghost predicate RecordAgrees<T>(t: Truth<T>, r: BatchRecord) {
    r.batchID in t.records && t.records[r.batchID] == r
  }

  // Batches are recorded under their own id.
  ghost predicate RecordsNamed<T>(t: Truth<T>) {
    forall id :: id in t.records ==> t.records[id].batchID == id
  }

  ghost predicate PacketAgrees<T>(t: Truth<T>, p: Packet) {
    match p.msg
    case WakeUp(_) => true
    case EofArrived(_, e, n) => e in t.eofs && t.eofs[e] == n
    case BatchInfo(_, info) => forall r :: r in info ==> RecordAgrees(t, r)
  }

  ghost predicate Covers<T>(t: Truth<T>, known: set<string>) {
    && known <= t.records.Keys
    && forall id :: id in t.records && id !in known ==> t.records[id].processed == 0
  }

  // The flush counts every upstream batch once and passes the id that sorts last.
  ghost predicate Exact<T>(t: Truth<T>, survivors: nat, eofID: string, known: set<string>) {
    && survivors == Sum(Survivors(t.records))
    && IsLast(eofID, t.eofs.Keys)
    && Covers(t, known)
  }

  ghost predicate OpAgrees<T>(t: Truth<T>, op: Op<T>) {
    match op
    case Send(p) => PacketAgrees(t, p)
    case WriteBatch(r) => RecordAgrees(t, r)
    case AddOwnBatch(r) => RecordAgrees(t, r)
    case AddPeerBatch(_, r) => RecordAgrees(t, r)
    case WriteEOF(e, n) => e in t.eofs && t.eofs[e] == n
    case AddOwnEOF(e, n) => e in t.eofs && t.eofs[e] == n
    case AddPeerEOF(_, e, n) => e in t.eofs && t.eofs[e] == n
    case _ => true
  }

  ghost predicate AllAgree<T>(t: Truth<T>, ops: seq<Op<T>>) {
    forall op :: op in ops ==> OpAgrees(t, op)
  }

  // Nothing anywhere contradicts upstream.
  ghost predicate Agrees<T>(t: Truth<T>, s: System<T>) {
    && (forall w :: 0 <= w < |s.replicas| ==>
          ViewAgrees(t, s.replicas[w].mem) && DiskAgrees(t, s.replicas[w].disk))
    && (forall p :: p in s.net ==> PacketAgrees(t, p))
  }

  ghost predicate Safe<T>(t: Truth<T>, s: System<T>) {
    && Agrees(t, s)
    && (forall f :: f in s.flushes ==> Exact(t, f.survivors, f.eofID, f.known))
  }

  // ---- Counting each key once does not depend on the order in which peers are visited ----

  lemma {:induction false} MergeUnion<V(!new)>(acc: map<string, V>, peers: map<nat, map<string, V>>,
                                               order: seq<nat>, t: map<string, V>)
    requires Within(acc, t) && AllWithin(peers, t)
    ensures Within(Merge(acc, peers, order), t)
    ensures forall k :: k in Merge(acc, peers, order) <==>
              k in acc || exists p :: p in order && p in peers && k in peers[p]
    decreases |order|
  {
    if order != [] {
      var acc' := if order[0] in peers then peers[order[0]] + acc else acc;
      MergeUnion(acc', peers, order[1..], t);
      assert order == [order[0]] + order[1..];
    }
  }

  // With agreeing records, any visit of all the peers counts one and the same map.
  lemma MergeIsUnion<V(!new)>(own: map<string, V>, peers: map<nat, map<string, V>>, order: seq<nat>, t: map<string, V>)
    requires Within(own, t) && AllWithin(peers, t) && Enumerates(order, peers.Keys)
    ensures Within(Merge(own, peers, order), t)
    ensures Merge(own, peers, order).Keys == UnionKeys(own, peers)
  {
    MergeUnion(own, peers, order, t);
    forall k | k in UnionKeys(own, peers) ensures k in Merge(own, peers, order) {
      if k !in own {
        var p :| p in peers.Keys && k in peers[p].Keys;
        assert p in order;
      }
    }
  }

  lemma TotalsIgnoreOrder<T>(t: Truth<T>, v: ClientView, o1: seq<nat>, o2: seq<nat>)
    requires ViewAgrees(t, v)
    requires Enumerates(o1, v.peerBatches.Keys) && Enumerates(o2, v.peerBatches.Keys)
    ensures ProcessedTotal(v, o1) == ProcessedTotal(v, o2)
    ensures SurvivorTotal(v, o1) == SurvivorTotal(v, o2)
  {
    MergeIsUnion(v.ownBatches, v.peerBatches, o1, t.records);
    MergeIsUnion(v.ownBatches, v.peerBatches, o2, t.records);
    assert Merge(v.ownBatches, v.peerBatches, o1) == Merge(v.ownBatches, v.peerBatches, o2);
  }

  // The first record met stays, and every record comes from somewhere.
  lemma {:induction false} MergeFirst<V(!new)>(acc: map<string, V>, peers: map<nat, map<string, V>>, order: seq<nat>, k: string)
    ensures k in acc ==> k in Merge(acc, peers, order) && Merge(acc, peers, order)[k] == acc[k]
    ensures k in Merge(acc, peers, order) && k !in acc ==>
              exists p :: p in order && p in peers && k in peers[p] && Merge(acc, peers, order)[k] == peers[p][k]
    ensures (exists p :: p in order && p in peers && k in peers[p]) ==> k in Merge(acc, peers, order)
    decreases |order|
  {
    if order != [] {
      var acc' := if order[0] in peers then peers[order[0]] + acc else acc;
      MergeFirst(acc', peers, order[1..], k);
      assert order == [order[0]] + order[1..];
    }
  }

  // No two peers disagree about an id that is not the worker's own.
  ghost predicate PeersAgree<V(!new)>(own: map<string, V>, peers: map<nat, map<string, V>>) {
    forall p, q, k :: p in peers && q in peers && k in peers[p] && k in peers[q] && k !in own ==> peers[p][k] == peers[q][k]
  }

  ghost predicate OrderFree<V(!new)>(own: map<string, V>, peers: map<nat, map<string, V>>) {
    forall o1, o2 :: Enumerates(o1, peers.Keys) && Enumerates(o2, peers.Keys) ==>
      Merge(own, peers, o1) == Merge(own, peers, o2)
  }

  lemma AgreeingMergesAreEqual<V(!new)>(own: map<string, V>, peers: map<nat, map<string, V>>, o1: seq<nat>, o2: seq<nat>)
    requires PeersAgree(own, peers) && Enumerates(o1, peers.Keys) && Enumerates(o2, peers.Keys)
    ensures Merge(own, peers, o1) == Merge(own, peers, o2)
  {
    var m1, m2 := Merge(own, peers, o1), Merge(own, peers, o2);
    forall k ensures k in m1 <==> k in m2 ensures k in m1 ==> m1[k] == m2[k] {
      MergeFirst(own, peers, o1, k);
      MergeFirst(own, peers, o2, k);
    }
  }

  // Some enumeration begins with p.
  lemma BeginWith(s: set<nat>, p: nat) returns (order: seq<nat>)
    requires p in s
    ensures Enumerates(order, s) && order != [] && order[0] == p
  {
    var rest := Listing(s - {p});
    order := [p] + rest;
    forall k ensures k in order <==> k in s { assert k in order <==> k == p || k in rest; }
    forall i, j | 0 <= i < j < |order| ensures order[i] != order[j] {
      assert order[j] == rest[j - 1] && rest[j - 1] in rest;
    }
  }

  // For any view whatever, reachable or not: what is counted does not depend on the order in
  // which the peers are visited if and only if they agree about everything that is not its own.
  lemma OrderFreeIff<V(!new)>(own: map<string, V>, peers: map<nat, map<string, V>>)
    ensures OrderFree(own, peers) <==> PeersAgree(own, peers)
  {
    if PeersAgree(own, peers) {
      forall o1, o2 | Enumerates(o1, peers.Keys) && Enumerates(o2, peers.Keys)
        ensures Merge(own, peers, o1) == Merge(own, peers, o2)
      {
        AgreeingMergesAreEqual(own, peers, o1, o2);
      }
    }
    if OrderFree(own, peers) {
      forall p, q, k | p in peers && q in peers && k in peers[p] && k in peers[q] && k !in own
        ensures peers[p][k] == peers[q][k]
      {
        var o1 := BeginWith(peers.Keys, p);
        var o2 := BeginWith(peers.Keys, q);
        MergeFirst(peers[p] + own, peers, o1[1..], k);
        MergeFirst(peers[q] + own, peers, o2[1..], k);
        assert Merge(own, peers, o1) == Merge(own, peers, o2);
      }
    }
  }

  // Peers that know the same ids: the first one visited decides.
  lemma FirstPeerCounts(peers: map<nat, map<string, BatchRecord>>, o: seq<nat>)
    requires Enumerates(o, peers.Keys) && o != []
    requires forall p, q :: p in peers && q in peers ==> peers[p].Keys == peers[q].Keys
    ensures o[0] in peers && Merge(map[], peers, o) == peers[o[0]]
  {
    assert o[0] in o;
    var none: map<string, BatchRecord> := map[];
    var m, first := Merge(none, peers, o), peers[o[0]];
    assert first + none == first;
    forall k ensures k in m <==> k in first ensures k in first ==> m[k] == first[k] {
      MergeFirst(none, peers, o, k);
      MergeFirst(first, peers, o[1..], k);
    }
  }

  const ONE_TWO := map["a" := BatchRecord("a", 1, 0), "b" := BatchRecord("b", 2, 0)]

  const TWO_ONE := map["a" := BatchRecord("a", 2, 0), "b" := BatchRecord("b", 1, 0)]

  lemma BothCountThree()
    ensures Sum(Processed(ONE_TWO)) == 3 && Sum(Processed(TWO_ONE)) == 3
  {
    SumRemove(Processed(ONE_TWO), "a");
    SumRemove(Processed(ONE_TWO) - {"a"}, "b");
    assert Processed(ONE_TWO) - {"a"} - {"b"} == map[];
    SumRemove(Processed(TWO_ONE), "a");
    SumRemove(Processed(TWO_ONE) - {"a"}, "b");
    assert Processed(TWO_ONE) - {"a"} - {"b"} == map[];
  }

  // Agreement is not needed for the totals alone: two disagreements can cancel out.
  lemma DisagreementsCanCancel(o: seq<nat>)
    requires Enumerates(o, {0, 1})
    ensures !PeersAgree(map[], map[0 := ONE_TWO, 1 := TWO_ONE])
    ensures ProcessedTotal(EMPTY_VIEW.(peerBatches := map[0 := ONE_TWO, 1 := TWO_ONE]), o) == 3
  {
    var peers: map<nat, map<string, BatchRecord>> := map[0 := ONE_TWO, 1 := TWO_ONE];
    assert 0 in peers && 1 in peers && peers[0]["a"] != peers[1]["a"];
    EnumerationSize(o, {0, 1});
    assert peers.Keys == {0, 1};
    FirstPeerCounts(peers, o);
    BothCountThree();
  }

  // The order does matter once two peers disagree about a batch.
  lemma TotalsCanDependOnOrder()
    ensures var v := EMPTY_VIEW.(peerBatches := map[0 := map["b" := BatchRecord("b", 1, 0)],
                                                    1 := map["b" := BatchRecord("b", 2, 0)]]);
            && Enumerates([0, 1], v.peerBatches.Keys) && Enumerates([1, 0], v.peerBatches.Keys)
            && ProcessedTotal(v, [0, 1]) == 1
            && ProcessedTotal(v, [1, 0]) == 2
  {
    var one, two := map["b" := BatchRecord("b", 1, 0)], map["b" := BatchRecord("b", 2, 0)];
    var none: map<string, BatchRecord> := map[];
    var peers: map<nat, map<string, BatchRecord>> := map[0 := one, 1 := two];
    assert one + none == one && two + one == one && two + none == two && one + two == two;
    assert Merge(none, peers, [0, 1]) == Merge(one, peers, [1]) == Merge(one, peers, []) by {
      assert [0, 1][1..] == [1] && [1][1..] == [];
    }
    assert Merge(none, peers, [1, 0]) == Merge(two, peers, [0]) == Merge(two, peers, []) by {
      assert [1, 0][1..] == [0] && [0][1..] == [];
    }
    SumRemove(Processed(one), "b");
    SumRemove(Processed(two), "b");
    assert Processed(one) - {"b"} == map[] && Processed(two) - {"b"} == map[];
  }

  // ---- Readiness means the whole upstream set has been counted ----

  lemma SubsetOfSameSize(a: set<string>, b: set<string>)
    requires a <= b && |a| >= |b|
    ensures a == b
  {
    assert |b - a| == |b| - |a|;
  }

  lemma AllEOFsKnown<T>(t: Truth<T>, cfg: Config, v: ClientView)
    requires WellFormed(t, cfg) && ViewAgrees(t, v) && HasAllEOFs(v, cfg.expected)
    ensures KnownEOFs(v) == t.eofs.Keys
    ensures IsLast(v.lastEOFID, t.eofs.Keys)
  {
    SubsetOfSameSize(KnownEOFs(v), t.eofs.Keys);
    assert |t.eofs.Keys| == |t.eofs|;
  }

  // A part of the records with at least the total of all items misses only empty batches.
  lemma PartIsWhole<T>(t: Truth<T>, cfg: Config, part: map<string, BatchRecord>)
    requires WellFormed(t, cfg) && Within(part, t.records)
    requires Sum(Processed(part)) >= Sum(t.eofs)
    ensures Covers(t, part.Keys)
    ensures Sum(Survivors(part)) == Sum(Survivors(t.records))
  {
    SumSplit(Processed(part), Processed(t.records));
    var rest := Processed(t.records) - Processed(part).Keys;
    SumZero(rest);
    forall id | id in t.records && id !in part ensures t.records[id].processed == 0 {
      assert id in rest;
    }
    SumSplit(Survivors(part), Survivors(t.records));
    SumZero(Survivors(t.records) - Survivors(part).Keys);
  }

  lemma ReadyIsExact<T>(t: Truth<T>, cfg: Config, v: ClientView, o: Orders)
    requires WellFormed(t, cfg) && ViewAgrees(t, v) && ValidOrders(v, o) && Ready(v, cfg.expected, o)
    ensures Exact(t, SurvivorTotal(v, o.survivors), v.lastEOFID, KnownBatches(v))
  {
    AllEOFsKnown(t, cfg, v);
    MergeIsUnion(v.ownEOFs, v.peerEOFs, o.totals, t.eofs);
    assert Merge(v.ownEOFs, v.peerEOFs, o.totals) == t.eofs;
    MergeIsUnion(v.ownBatches, v.peerBatches, o.processed, t.records);
    TotalsIgnoreOrder(t, v, o.survivors, o.processed);
    PartIsWhole(t, cfg, Merge(v.ownBatches, v.peerBatches, o.processed));
  }

  // And conversely: knowing every EOF and every batch is enough.
  lemma WholeIsReady<T>(t: Truth<T>, cfg: Config, v: ClientView, o: Orders)
    requires WellFormed(t, cfg) && ViewAgrees(t, v) && ValidOrders(v, o)
    requires KnownEOFs(v) == t.eofs.Keys && Covers(t, KnownBatches(v)) && !v.flushed
    ensures Ready(v, cfg.expected, o)
  {
    assert |t.eofs.Keys| == |t.eofs|;
    MergeIsUnion(v.ownEOFs, v.peerEOFs, o.totals, t.eofs);
    assert Merge(v.ownEOFs, v.peerEOFs, o.totals) == t.eofs;
    MergeIsUnion(v.ownBatches, v.peerBatches, o.processed, t.records);
    var part := Merge(v.ownBatches, v.peerBatches, o.processed);
    SumSplit(Processed(part), Processed(t.records));
    SumZero(Processed(t.records) - Processed(part).Keys);
  }

  // ---- Every handler only spreads what upstream sent ----

  lemma AddPeerWithin<V(!new)>(peers: map<nat, map<string, V>>, p: nat, k: string, v: V, t: map<string, V>)
    requires AllWithin(peers, t) && k in t && t[k] == v
    ensures AllWithin(AddPeer(peers, p, k, v), t)
  {
    var peers' := AddPeer(peers, p, k, v);
    forall q | q in peers' ensures Within(peers'[q], t) {
      if q != p { assert peers'[q] == peers[q]; }
    }
  }

  lemma MemOpAgrees<T>(t: Truth<T>, v: ClientView, op: Op<T>)
    requires ViewAgrees(t, v) && OpAgrees(t, op)
    ensures ViewAgrees(t, MemOp(v, op))
  {
    match op
    case AddPeerBatch(p, r) => AddPeerWithin(v.peerBatches, p, r.batchID, r, t.records);
    case AddPeerEOF(p, e, n) => AddPeerWithin(v.peerEOFs, p, e, n, t.eofs);
    case _ =>
  }

  lemma {:induction false} MemAfterAgrees<T>(t: Truth<T>, v: ClientView, ops: seq<Op<T>>)
    requires ViewAgrees(t, v) && AllAgree(t, ops)
    ensures ViewAgrees(t, MemAfter(v, ops))
  {
    if ops != [] {
      assert ops[|ops| - 1] in ops;
      MemAfterAgrees(t, v, ops[..|ops| - 1]);
      MemOpAgrees(t, MemAfter(v, ops[..|ops| - 1]), ops[|ops| - 1]);
    }
  }

  lemma {:induction false} DiskAfterAgrees<T>(t: Truth<T>, d: Disk, ops: seq<Op<T>>)
    requires DiskAgrees(t, d) && AllAgree(t, ops)
    ensures DiskAgrees(t, DiskAfter(d, ops))
  {
    if ops != [] {
      assert ops[|ops| - 1] in ops;
      DiskAfterAgrees(t, d, ops[..|ops| - 1]);
    }
  }

  lemma {:induction false} CallsMember<T>(w: nat, ops: seq<Op<T>>, f: FlushCall)
    requires f in Calls(w, ops)
    ensures f.worker == w && CallFlush(f.survivors, f.eofID, f.known) in ops
  {
    var last := ops[|ops| - 1];
    assert ops == ops[..|ops| - 1] + [last];
    if f in Calls(w, ops[..|ops| - 1]) {
      CallsMember(w, ops[..|ops| - 1], f);
    }
  }

  lemma PerformAgrees<T>(t: Truth<T>, s: System<T>, w: nat, ops: seq<Op<T>>)
    requires Agrees(t, s) && w < |s.replicas| && AllAgree(t, ops)
    ensures Agrees(t, Perform(s, w, ops))
  {
    MemAfterAgrees(t, s.replicas[w].mem, ops);
    DiskAfterAgrees(t, s.replicas[w].disk, ops);
    forall p | p in Sent(ops) ensures PacketAgrees(t, p) {
      SentMember(ops, p);
    }
  }

  lemma ShareAgrees<T>(t: Truth<T>, cfg: Config, me: nat, v: ClientView, order: seq<string>, to: seq<nat>)
    requires RecordsNamed(t) && ViewAgrees(t, v)
    ensures AllAgree(t, ShareOwn<T>(cfg, me, v, order, to))
  {
    forall op: Op<T> | op in ShareOwn<T>(cfg, me, v, order, to) ensures OpAgrees(t, op) {
      var chunks := Packed(cfg, v, order);
      SendChunksMember(to, me, chunks, op);
      var c :| c in chunks && op.packet.msg == BatchInfo(me, c);
      forall r | r in c ensures RecordAgrees(t, r) {
        Chunks.BatchesSound(RecordsIn(v.ownBatches, order), cfg.maxWeight, cfg.sizer);
        RecordsInMember(v.ownBatches, order, r);
      }
    }
  }

  lemma BroadcastAgrees<T>(t: Truth<T>, cfg: Config, me: nat, msg: Msg)
    requires forall q :: PacketAgrees(t, Packet(q, msg))
    ensures AllAgree(t, Broadcast<T>(cfg, me, msg))
  {
    forall op: Op<T> | op in Broadcast<T>(cfg, me, msg) ensures OpAgrees(t, op) {
      SendAllMember(Others(me, cfg.workers), msg, op);
      assert PacketAgrees(t, Packet(op.packet.to, msg));
    }
  }

  lemma AgreeConcat<T>(t: Truth<T>, a: seq<Op<T>>, b: seq<Op<T>>)
    requires AllAgree(t, a) && AllAgree(t, b)
    ensures AllAgree(t, a + b)
  {
  }

  lemma TryFlushAgrees<T>(t: Truth<T>, cfg: Config, v: ClientView, o: Orders)
    ensures AllAgree(t, TryFlush<T>(cfg, v, o))
  {
  }

  lemma LearnAgrees<T>(t: Truth<T>, v: ClientView, p: nat, info: seq<BatchRecord>)
    requires forall r :: r in info ==> RecordAgrees(t, r)
    ensures AllAgree(t, Learn<T>(v, p, info))
  {
    forall op: Op<T> | op in Learn<T>(v, p, info) ensures OpAgrees(t, op) {
      LearnMember(v, p, info, op);
    }
  }

  lemma AnswerAgrees<T>(t: Truth<T>, cfg: Config, me: nat, v: ClientView, p: nat, o: Orders)
    requires RecordsNamed(t) && ViewAgrees(t, v)
    ensures AllAgree(t, AnswerWakeUp<T>(cfg, me, v, p, o))
  {
    ShareAgrees(t, cfg, me, v, o.batches, [p]);
    forall op: Op<T> | op in SendEOFs<T>(p, me, v.ownEOFs, o.eofs) ensures OpAgrees(t, op) {
      SendEOFsMember(p, me, v.ownEOFs, o.eofs, op);
    }
  }

  lemma {:induction false} PublishAllMember<T>(subs: seq<SubBatch<T>>, op: Op<T>)
    ensures op in PublishAll(subs) <==> op.Publish? && op.sub in subs
  {
    if subs != [] {
      PublishAllMember(subs[..|subs| - 1], op);
      assert subs == subs[..|subs| - 1] + [subs[|subs| - 1]];
    }
  }

  lemma KnowingAgrees<T>(t: Truth<T>, s: System<T>, e: Event)
    requires RecordsNamed(t) && Agrees(t, s) && Occurs(t, s, e)
    ensures ViewAgrees(t, Knowing(t, s, e))
  {
    var v := s.replicas[WorkerOf(e)].mem;
    match e
    case DataArrives(_, id) => MemOpAgrees<T>(t, v, AddOwnBatch(t.records[id]));
    case BatchCounted(_, id) => MemOpAgrees<T>(t, v, AddOwnBatch(t.records[id]));
    case EofArrives(_, e) => MemOpAgrees<T>(t, v, AddOwnEOF(e, t.eofs[e]));
    case PacketArrives(p) =>
      assert PacketAgrees(t, p);
      match p.msg
      case WakeUp(_) =>
      case EofArrived(q, e, n) => MemOpAgrees<T>(t, v, AddPeerEOF(q, e, n));
      case BatchInfo(q, info) =>
        LearnAgrees(t, v, q, info);
        MemAfterAgrees(t, v, Learn<T>(v, q, info));
  }

  lemma RecordBatchAgrees<T>(t: Truth<T>, cfg: Config, me: nat, v: ClientView, r: BatchRecord, o: Orders)
    requires RecordAgrees(t, r)
    ensures AllAgree(t, RecordBatch<T>(cfg, me, v, r, o))
  {
    TryFlushAgrees(t, cfg, MemOp<T>(v, AddOwnBatch(r)), o);
    BroadcastAgrees(t, cfg, me, BatchInfo(me, [r]));
  }

  lemma EOFPiecesAgree<T>(t: Truth<T>, cfg: Config, me: nat, v: ClientView, first: seq<Op<T>>, o: Orders)
    requires RecordsNamed(t) && ViewAgrees(t, v) && AllAgree(t, first)
    ensures AllAgree(t, first + ShareWhenComplete(cfg, me, v, o) + TryFlush(cfg, v, o))
  {
    TryFlushAgrees(t, cfg, v, o);
    ShareAgrees(t, cfg, me, v, o.batches, Others(me, cfg.workers));
    AgreeConcat(t, first, ShareWhenComplete(cfg, me, v, o));
    AgreeConcat(t, first + ShareWhenComplete(cfg, me, v, o), TryFlush(cfg, v, o));
  }

  lemma LocalEOFAgrees<T>(t: Truth<T>, cfg: Config, me: nat, v: ClientView, e: string, n: nat, o: Orders)
    requires RecordsNamed(t) && ViewAgrees(t, v) && e in t.eofs && t.eofs[e] == n
    ensures AllAgree(t, LocalEOF<T>(cfg, me, v, e, n, o))
  {
    MemOpAgrees<T>(t, v, AddOwnEOF(e, n));
    var write: seq<Op<T>> := [WriteEOF(e, n), AddOwnEOF(e, n)];
    BroadcastAgrees(t, cfg, me, EofArrived(me, e, n));
    AgreeConcat(t, write, Broadcast(cfg, me, EofArrived(me, e, n)));
    EOFPiecesAgree(t, cfg, me, MemOp<T>(v, AddOwnEOF(e, n)), write + Broadcast(cfg, me, EofArrived(me, e, n)), o);
  }

  lemma RemoteEOFAgrees<T>(t: Truth<T>, cfg: Config, me: nat, v: ClientView, p: nat, e: string, n: nat, o: Orders)
    requires RecordsNamed(t) && ViewAgrees(t, v) && e in t.eofs && t.eofs[e] == n
    ensures AllAgree(t, RemoteEOF<T>(cfg, me, v, p, e, n, o))
  {
    MemOpAgrees<T>(t, v, AddPeerEOF(p, e, n));
    EOFPiecesAgree<T>(t, cfg, me, MemOp<T>(v, AddPeerEOF(p, e, n)), [AddPeerEOF(p, e, n)], o);
  }

  lemma RemoteBatchAgrees<T>(t: Truth<T>, cfg: Config, v: ClientView, p: nat, info: seq<BatchRecord>, o: Orders)
    requires forall r :: r in info ==> RecordAgrees(t, r)
    ensures AllAgree(t, RemoteBatch<T>(cfg, v, p, info, o))
  {
    LearnAgrees(t, v, p, info);
    TryFlushAgrees(t, cfg, MemAfter<T>(v, Learn(v, p, info)), o);
  }

  lemma HandlerAgrees<T>(t: Truth<T>, cfg: Config, s: System<T>, e: Event, o: Orders)
    requires RecordsNamed(t) && Agrees(t, s) && Occurs(t, s, e)
    ensures AllAgree(t, Handler(t, cfg, s, e, o))
  {
    var me := WorkerOf(e);
    var v := s.replicas[me].mem;
    match e
    case DataArrives(_, id) =>
      RecordBatchAgrees(t, cfg, me, v, t.records[id], o);
      forall op | op in PublishAll(t.outputs[id]) ensures OpAgrees(t, op) {
        PublishAllMember(t.outputs[id], op);
      }
    case BatchCounted(_, id) => RecordBatchAgrees(t, cfg, me, v, t.records[id], o);
    case EofArrives(_, e) => LocalEOFAgrees(t, cfg, me, v, e, t.eofs[e], o);
    case PacketArrives(p) =>
      assert PacketAgrees(t, p);
      match p.msg
      case WakeUp(q) => AnswerAgrees(t, cfg, me, v, q, o);
      case EofArrived(q, e, n) => RemoteEOFAgrees(t, cfg, me, v, q, e, n, o);
      case BatchInfo(q, info) => RemoteBatchAgrees(t, cfg, v, q, info, o);
  }

  // ---- And flushes only when all of it has been counted ----

  lemma RecordCalls<T>(cfg: Config, me: nat, v: ClientView, r: BatchRecord, o: Orders, op: Op<T>)
    requires op in RecordBatch<T>(cfg, me, v, r, o) && op.CallFlush?
    ensures op in TryFlush<T>(cfg, MemOp<T>(v, AddOwnBatch(r)), o)
  {
    SendAllMember(Others(me, cfg.workers), BatchInfo(me, [r]), op);
  }

  lemma LocalEOFCalls<T>(cfg: Config, me: nat, v: ClientView, e: string, n: nat, o: Orders, op: Op<T>)
    requires op in LocalEOF<T>(cfg, me, v, e, n, o) && op.CallFlush?
    ensures op in TryFlush<T>(cfg, MemOp<T>(v, AddOwnEOF(e, n)), o)
  {
    SendAllMember(Others(me, cfg.workers), EofArrived(me, e, n), op);
    ShareHasNoCall(cfg, me, MemOp<T>(v, AddOwnEOF(e, n)), o.batches, Others(me, cfg.workers), op);
  }

  lemma AnswerHasNoCall<T>(cfg: Config, me: nat, v: ClientView, q: nat, o: Orders, op: Op<T>)
    requires op.CallFlush?
    ensures op !in AnswerWakeUp<T>(cfg, me, v, q, o)
  {
    SendEOFsMember(q, me, v.ownEOFs, o.eofs, op);
    ShareHasNoCall(cfg, me, v, o.batches, [q], op);
  }

  lemma RemoteEOFCalls<T>(cfg: Config, me: nat, v: ClientView, q: nat, e: string, n: nat, o: Orders, op: Op<T>)
    requires op in RemoteEOF<T>(cfg, me, v, q, e, n, o) && op.CallFlush?
    ensures op in TryFlush<T>(cfg, MemOp<T>(v, AddPeerEOF(q, e, n)), o)
  {
    ShareHasNoCall(cfg, me, MemOp<T>(v, AddPeerEOF(q, e, n)), o.batches, Others(me, cfg.workers), op);
  }

  // The only flush a handler can ask for is the one decided on what it then knows.
  lemma HandlerCalls<T>(t: Truth<T>, cfg: Config, s: System<T>, e: Event, o: Orders, op: Op<T>)
    requires Occurs(t, s, e) && op in Handler(t, cfg, s, e, o) && op.CallFlush?
    ensures op in TryFlush<T>(cfg, Knowing(t, s, e), o)
  {
    var me := WorkerOf(e);
    var v := s.replicas[me].mem;
    match e
    case DataArrives(_, id) =>
      PublishAllMember(t.outputs[id], op);
      RecordCalls(cfg, me, v, t.records[id], o, op);
    case BatchCounted(_, id) => RecordCalls(cfg, me, v, t.records[id], o, op);
    case EofArrives(_, e) => LocalEOFCalls(cfg, me, v, e, t.eofs[e], o, op);
    case PacketArrives(p) =>
      match p.msg
      case WakeUp(q) => AnswerHasNoCall(cfg, me, v, q, o, op);
      case EofArrived(q, e, n) => RemoteEOFCalls(cfg, me, v, q, e, n, o, op);
      case BatchInfo(q, info) => LearnMember(v, q, info, op);
  }

  lemma ShareHasNoCall<T>(cfg: Config, me: nat, v: ClientView, order: seq<string>, to: seq<nat>, op: Op<T>)
    requires op.CallFlush?
    ensures op !in ShareOwn<T>(cfg, me, v, order, to)
  {
    SendChunksMember(to, me, Packed(cfg, v, order), op);
  }

  lemma HandlerFlushesExactly<T>(t: Truth<T>, cfg: Config, s: System<T>, e: Event, o: Orders, f: FlushCall, cut: nat)
    requires WellFormed(t, cfg) && Agrees(t, s) && Occurs(t, s, e) && ValidOrders(Knowing(t, s, e), o)
    requires cut <= |Handler(t, cfg, s, e, o)| && f in Calls(WorkerOf(e), Handler(t, cfg, s, e, o)[..cut])
    ensures Exact(t, f.survivors, f.eofID, f.known)
  {
    CallsMember(WorkerOf(e), Handler(t, cfg, s, e, o)[..cut], f);
    HandlerCalls(t, cfg, s, e, o, CallFlush(f.survivors, f.eofID, f.known));
    KnowingAgrees(t, s, e);
    TryFlushIsExact(t, cfg, Knowing(t, s, e), o, f);
  }

  lemma TryFlushIsExact<T>(t: Truth<T>, cfg: Config, v: ClientView, o: Orders, f: FlushCall)
    requires WellFormed(t, cfg) && ViewAgrees(t, v) && ValidOrders(v, o)
    requires CallFlush(f.survivors, f.eofID, f.known) in TryFlush<T>(cfg, v, o)
    ensures Exact(t, f.survivors, f.eofID, f.known)
  {
    ReadyIsExact(t, cfg, v, o);
  }

  // ---- One step, then every run ----

  lemma RebootAgrees<T>(t: Truth<T>, cfg: Config, s: System<T>, w: nat)
    requires Agrees(t, s) && w < |s.replicas|
    ensures Agrees(t, Reboot(cfg, s, w))
  {
    BroadcastAgrees(t, cfg, w, WakeUp(w));
    forall p | p in Sent<T>(Broadcast(cfg, w, WakeUp(w))) ensures PacketAgrees(t, p) {
      SentMember(Broadcast<T>(cfg, w, WakeUp(w)), p);
    }
    assert ViewAgrees(t, Restore(s.replicas[w].disk));
  }

  lemma StepAgrees<T>(t: Truth<T>, cfg: Config, s: System<T>, step: Step)
    requires RecordsNamed(t) && Agrees(t, s) && Enabled(t, cfg, s, step)
    ensures Agrees(t, Next(t, cfg, s, step))
  {
    match step
    case Handle(e, o, cut, outcome) =>
      var ops := Handler(t, cfg, s, e, o);
      HandlerAgrees(t, cfg, s, e, o);
      assert AllAgree(t, ops[..cut]);
      PerformAgrees(t, s, WorkerOf(e), ops[..cut]);
      var s' := Perform(s, WorkerOf(e), ops[..cut]);
      var s'' := s'.(net := s'.net - Consumed(e, outcome));
      assert Agrees(t, s'');
      if outcome == Crashed { RebootAgrees(t, cfg, s'', WorkerOf(e)); }
    case Restart(w) => RebootAgrees(t, cfg, s, w);
    case Duplicate(p) =>
    case Drop(p) =>
  }

  lemma StepSafe<T>(t: Truth<T>, cfg: Config, s: System<T>, step: Step)
    requires WellFormed(t, cfg) && Safe(t, s) && Enabled(t, cfg, s, step)
    ensures Safe(t, Next(t, cfg, s, step))
  {
    StepAgrees(t, cfg, s, step);
    forall f | f in Next(t, cfg, s, step).flushes ensures Exact(t, f.survivors, f.eofID, f.known) {
      if f !in s.flushes {
        HandlerFlushesExactly(t, cfg, s, step.event, step.orders, f, step.cut);
      }
    }
  }

  lemma {:induction false} FirstWakeUpsOnly<T>(cfg: Config, n: nat, p: Packet)
    requires p in FirstWakeUps<T>(cfg, n)
    ensures p.msg.WakeUp?
  {
    if p in Sent<T>(Broadcast(cfg, n - 1, WakeUp(n - 1))) {
      SentMember(Broadcast<T>(cfg, n - 1, WakeUp(n - 1)), p);
      SendAllMember<T>(Others(n - 1, cfg.workers), WakeUp(n - 1), Send(p));
    } else {
      FirstWakeUpsOnly<T>(cfg, n - 1, p);
    }
  }

  lemma StartSafe<T>(t: Truth<T>, cfg: Config)
    ensures Safe(t, Start<T>(cfg))
  {
    forall p | p in Start<T>(cfg).net ensures PacketAgrees(t, p) {
      FirstWakeUpsOnly<T>(cfg, cfg.workers, p);
    }
  }

  lemma {:induction false} RunSafe<T>(t: Truth<T>, cfg: Config, states: seq<System<T>>, steps: seq<Step>, i: nat)
    requires WellFormed(t, cfg) && IsRun(t, cfg, states, steps) && i < |states|
    ensures Safe(t, states[i])
  {
    if i == 0 {
      StartSafe(t, cfg);
    } else {
      RunSafe(t, cfg, states, steps, i - 1);
      StepSafe(t, cfg, states[i - 1], steps[i - 1]);
    }
  }

  // In every run, every call of the flush handler passes the survivor count of the whole
  // upstream batch set, each batch counted once, and what it counted misses only empty batches.
  lemma BarrierExactness<T>(t: Truth<T>, cfg: Config, states: seq<System<T>>, steps: seq<Step>, f: FlushCall)
    requires WellFormed(t, cfg) && IsRun(t, cfg, states, steps)
    requires f in states[|states| - 1].flushes
    ensures f.survivors == Sum(Survivors(t.records))
    ensures Covers(t, f.known)
    ensures IsLast(f.eofID, t.eofs.Keys)
  {
    RunSafe(t, cfg, states, steps, |states| - 1);
  }

  // Two flushes of one client, by any workers, before or after any crash, even in two different
  // runs over the same upstream batches, agree.
  lemma FlushAgreement<T>(t: Truth<T>, cfg: Config, states: seq<System<T>>, steps: seq<Step>,
                          states': seq<System<T>>, steps': seq<Step>, f: FlushCall, f': FlushCall)
    requires WellFormed(t, cfg) && IsRun(t, cfg, states, steps) && IsRun(t, cfg, states', steps')
    requires f in states[|states| - 1].flushes && f' in states'[|states'| - 1].flushes
    ensures f.survivors == f'.survivors && f.eofID == f'.eofID
  {
    BarrierExactness(t, cfg, states, steps, f);
    BarrierExactness(t, cfg, states', steps', f');
    LastIsUnique(f.eofID, f'.eofID, t.eofs.Keys);
  }
}
