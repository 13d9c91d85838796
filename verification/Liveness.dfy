// What keeps a flush from getting lost: memory and disk in step, one flush call for each mark, and
// every worker either told what its peers know or about to be. Whole handlers and restarts keep it.
module Liveness {
  import MapOrder
  import Sums
  import opened EofProtocol
  import opened ReplicaGroup
  import opened Barrier
  import Text
  import Chunks

  // Knowing every EOF is what switches the sharing of batches on.
  ghost predicate Complete<T>(t: Truth<T>, v: ClientView) { KnownEOFs(v) == t.eofs.Keys }

  ghost predicate BatchInFlight<T>(s: System<T>, q: nat, id: string) {
    exists p, r :: p in s.net && p.to == q && p.msg.BatchInfo? && r in p.msg.info && r.batchID == id
  }

  ghost predicate EOFInFlight<T>(s: System<T>, q: nat, e: string) {
    exists p :: p in s.net && p.to == q && p.msg.EofArrived? && p.msg.eofID == e
  }

  // q knows the batch, or will: a message carries it, or w still has to answer q's wake-up.
  ghost predicate BatchReaches<T>(s: System<T>, w: nat, q: nat, id: string)
    requires q < |s.replicas|
  {
    || id in KnownBatches(s.replicas[q].mem)
    || BatchInFlight(s, q, id)
    || Packet(w, WakeUp(q)) in s.net
  }

  ghost predicate EOFReaches<T>(s: System<T>, w: nat, q: nat, e: string)
    requires q < |s.replicas|
  {
    || e in KnownEOFs(s.replicas[q].mem)
    || EOFInFlight(s, q, e)
    || Packet(w, WakeUp(q)) in s.net
  }

  ghost predicate Synced(r: Replica) {
    r.mem.ownBatches == r.disk.batches && r.mem.ownEOFs == r.disk.eofs && r.mem.flushed == r.disk.flushed
  }

  // A worker that knows everything has flushed.
  ghost predicate Settled<T>(t: Truth<T>, v: ClientView) {
    Complete(t, v) && Covers(t, KnownBatches(v)) ==> v.flushed
  }

  function CallsBy(flushes: seq<FlushCall>, w: nat): nat {
    if flushes == [] then 0
    else CallsBy(flushes[..|flushes| - 1], w) + (if flushes[|flushes| - 1].worker == w then 1 else 0)
  }

  ghost predicate SharesBatches<T>(t: Truth<T>, s: System<T>, w: nat, q: nat)
    requires w < |s.replicas| && q < |s.replicas|
  {
    Complete(t, s.replicas[w].mem) ==> forall id :: id in s.replicas[w].mem.ownBatches ==> BatchReaches(s, w, q, id)
  }

  ghost predicate SharesEOFs<T>(s: System<T>, w: nat, q: nat)
    requires w < |s.replicas| && q < |s.replicas|
  {
    forall e :: e in s.replicas[w].mem.ownEOFs ==> EOFReaches(s, w, q, e)
  }

  ghost predicate Live<T>(t: Truth<T>, cfg: Config, s: System<T>) {
    && Safe(t, s)
    && |s.replicas| == cfg.workers
    && (forall w :: 0 <= w < |s.replicas| ==>
          && Synced(s.replicas[w])
          && Settled(t, s.replicas[w].mem)
          && CallsBy(s.flushes, w) == (if s.replicas[w].mem.flushed then 1 else 0))
    && (forall w, q :: 0 <= w < |s.replicas| && 0 <= q < |s.replicas| && w != q ==>
          SharesBatches(t, s, w, q) && SharesEOFs(s, w, q))
  }

  // Every record weighs something when it is packed into a message.
  ghost predicate PositiveWeights<T>(t: Truth<T>, cfg: Config) {
    forall id :: id in t.records ==> cfg.sizer(t.records[id]) > 0
  }

  // ---- Completeness is what hasAllEOFs tests ----

  lemma CompleteIsHasAll<T>(t: Truth<T>, cfg: Config, v: ClientView)
    requires WellFormed(t, cfg) && ViewAgrees(t, v)
    ensures HasAllEOFs(v, cfg.expected) <==> Complete(t, v)
  {
    assert |t.eofs.Keys| == |t.eofs|;
    if HasAllEOFs(v, cfg.expected) {
      AllEOFsKnown(t, cfg, v);
    }
  }

  // ---- Growing the network, restarting ----

  lemma MoreInFlight<T>(t: Truth<T>, cfg: Config, s: System<T>, extra: multiset<Packet>)
    requires Live(t, cfg, s) && forall p :: p in extra ==> PacketAgrees(t, p)
    ensures Live(t, cfg, s.(net := s.net + extra))
  {
    var s' := s.(net := s.net + extra);
    forall w, q | 0 <= w < |s.replicas| && 0 <= q < |s.replicas| && w != q
      ensures SharesBatches(t, s', w, q) && SharesEOFs(s', w, q)
    {
      assert SharesBatches(t, s, w, q) && SharesEOFs(s, w, q);
      forall id | BatchReaches(s, w, q, id) ensures BatchReaches(s', w, q, id) {
        if BatchInFlight(s, q, id) {
          var p, r :| p in s.net && p.to == q && p.msg.BatchInfo? && r in p.msg.info && r.batchID == id;
          assert p in s'.net;
        }
      }
      forall e | EOFReaches(s, w, q, e) ensures EOFReaches(s', w, q, e) {
        if EOFInFlight(s, q, e) {
          var p :| p in s.net && p.to == q && p.msg.EofArrived? && p.msg.eofID == e;
          assert p in s'.net;
        }
      }
    }
  }

  lemma RestoreKeepsOwn<T>(t: Truth<T>, r: Replica)
    requires ViewAgrees(t, r.mem) && DiskAgrees(t, r.disk) && Synced(r) && Settled(t, r.mem)
    ensures Settled(t, Restore(r.disk))
    ensures Restore(r.disk).ownBatches == r.mem.ownBatches && Restore(r.disk).ownEOFs == r.mem.ownEOFs
    ensures Restore(r.disk).flushed == r.mem.flushed
    ensures Complete(t, Restore(r.disk)) ==> Complete(t, r.mem)
  {
    var v := Restore(r.disk);
    assert KnownEOFs(v) <= KnownEOFs(r.mem) <= t.eofs.Keys;
    assert KnownBatches(v) <= KnownBatches(r.mem) <= t.records.Keys;
  }

  lemma WakeUpsSent<T>(cfg: Config, w: nat, x: nat)
    requires x < cfg.workers && x != w
    ensures Packet(x, WakeUp(w)) in Sent<T>(Broadcast(cfg, w, WakeUp(w)))
  {
    OthersMember(w, cfg.workers, x);
    SendAllMember<T>(Others(w, cfg.workers), WakeUp(w), Send(Packet(x, WakeUp(w))));
    SentMember<T>(Broadcast<T>(cfg, w, WakeUp(w)), Packet(x, WakeUp(w)));
  }

  lemma RebootLive<T>(t: Truth<T>, cfg: Config, s: System<T>, w: nat)
    requires WellFormed(t, cfg) && Live(t, cfg, s) && w < |s.replicas|
    ensures Live(t, cfg, Reboot(cfg, s, w))
  {
    var wakeUps := Sent<T>(Broadcast(cfg, w, WakeUp(w)));
    forall p | p in wakeUps ensures PacketAgrees(t, p) {
      SentMember(Broadcast<T>(cfg, w, WakeUp(w)), p);
      SendAllMember<T>(Others(w, cfg.workers), WakeUp(w), Send(p));
    }
    var n := s.(net := s.net + wakeUps);
    MoreInFlight(t, cfg, s, wakeUps);
    var s' := Reboot(cfg, s, w);
    RebootAgrees(t, cfg, s, w);
    RestoreKeepsOwn(t, s.replicas[w]);
    forall x, q | 0 <= x < |s.replicas| && 0 <= q < |s.replicas| && x != q
      ensures SharesBatches(t, s', x, q) && SharesEOFs(s', x, q)
    {
      assert SharesBatches(t, n, x, q) && SharesEOFs(n, x, q);
      if q == w {
        WakeUpsSent<T>(cfg, w, x);
        assert Packet(x, WakeUp(w)) in s'.net;
      } else {
        forall id | BatchReaches(n, x, q, id) ensures BatchReaches(s', x, q, id) {
          assert BatchInFlight(n, q, id) ==> BatchInFlight(s', q, id);
        }
        forall e | EOFReaches(n, x, q, e) ensures EOFReaches(s', x, q, e) {
          assert EOFInFlight(n, q, e) ==> EOFInFlight(s', q, e);
        }
      }
    }
  }

  // ---- What a whole handler leaves behind ----

  // The view after the flush decision taken on k.
  ghost function Landed(cfg: Config, k: ClientView, o: Orders): ClientView {
    if Ready(k, cfg.expected, o) then k.(flushed := true) else k
  }

  ghost predicate Lands<T>(cfg: Config, w: nat, r: Replica, k: ClientView, o: Orders, ops: seq<Op<T>>) {
    && MemAfter(r.mem, ops) == Landed(cfg, k, o)
    && Synced(Replica(MemAfter(r.mem, ops), DiskAfter(r.disk, ops)))
    && |Calls(w, ops)| == (if Ready(k, cfg.expected, o) then 1 else 0)
  }

  lemma {:induction false} CallsConcat<T>(w: nat, a: seq<Op<T>>, b: seq<Op<T>>)
    ensures Calls(w, a + b) == Calls(w, a) + Calls(w, b)
  {
    if b == [] {
      assert a + b == a;
    } else {
      var b' := b[..|b| - 1];
      assert (a + b)[..|a + b| - 1] == a + b';
      CallsConcat(w, a, b');
    }
  }

  lemma {:induction false} NoCalls<T>(w: nat, ops: seq<Op<T>>)
    requires forall op :: op in ops ==> !op.CallFlush?
    ensures Calls(w, ops) == []
  {
    if ops != [] {
      assert ops[|ops| - 1] in ops;
      NoCalls(w, ops[..|ops| - 1]);
    }
  }

  lemma {:induction false} CallsByConcat(a: seq<FlushCall>, b: seq<FlushCall>, w: nat)
    ensures CallsBy(a + b, w) == CallsBy(a, w) + CallsBy(b, w)
  {
    if b == [] {
      assert a + b == a;
    } else {
      var b' := b[..|b| - 1];
      assert (a + b)[..|a + b| - 1] == a + b';
      CallsByConcat(a, b', w);
    }
  }

  lemma {:induction false} CallsByOne<T>(w: nat, ops: seq<Op<T>>, x: nat)
    ensures CallsBy(Calls(w, ops), x) == if x == w then |Calls(w, ops)| else 0
  {
    if ops != [] {
      var init, last := ops[..|ops| - 1], ops[|ops| - 1];
      CallsByOne(w, init, x);
      if last.CallFlush? {
        var call := FlushCall(w, last.survivors, last.eofID, last.known);
        CallsByConcat(Calls(w, init), [call], x);
        assert [call][..0] == [];
        assert CallsBy([call], x) == CallsBy([], x) + (if w == x then 1 else 0);
      } else {
        assert Calls(w, ops) == Calls(w, init);
      }
    }
  }

  lemma FlushLands<T>(cfg: Config, w: nat, k: ClientView, d: Disk, o: Orders)
    requires Synced(Replica(k, d))
    ensures Lands<T>(cfg, w, Replica(k, d), k, o, TryFlush(cfg, k, o))
  {
    if Ready(k, cfg.expected, o) {
      var call: Op<T> := CallFlush(SurvivorTotal(k, o.survivors), k.lastEOFID, KnownBatches(k));
      var one, two, three: seq<Op<T>> := [call], [call, SetFlushed], [call, SetFlushed, WriteFlushed];
      assert three[..2] == two && two[..1] == one && one[..0] == [];
      assert MemAfter(k, one) == k && MemAfter(k, two) == k.(flushed := true) == MemAfter(k, three);
      assert DiskAfter(d, one) == d == DiskAfter(d, two) && DiskAfter(d, three) == d.(flushed := true);
      assert |Calls(w, one)| == 1 && Calls(w, two) == Calls(w, one) == Calls(w, three);
      assert TryFlush<T>(cfg, k, o) == three;
    }
  }

  // A handler that first reaches k, on disk as in memory, and then decides on the flush.
  lemma LandsByPieces<T>(cfg: Config, w: nat, r: Replica, k: ClientView, o: Orders, pre: seq<Op<T>>)
    requires MemAfter(r.mem, pre) == k && Synced(Replica(k, DiskAfter(r.disk, pre)))
    requires forall op :: op in pre ==> !op.CallFlush?
    ensures Lands(cfg, w, r, k, o, pre + TryFlush(cfg, k, o))
  {
    var flush: seq<Op<T>> := TryFlush(cfg, k, o);
    MemAfterConcat(r.mem, pre, flush);
    DiskAfterConcat(r.disk, pre, flush);
    CallsConcat(w, pre, flush);
    NoCalls(w, pre);
    FlushLands<T>(cfg, w, k, DiskAfter(r.disk, pre), o);
  }

  ghost predicate OnlySends<T>(ops: seq<Op<T>>) { forall op :: op in ops ==> op.Send? || op.Publish? }

  lemma SendsKeep<T>(v: ClientView, d: Disk, ops: seq<Op<T>>)
    requires OnlySends(ops)
    ensures MemAfter(v, ops) == v && DiskAfter(d, ops) == d
  {
    MemUntouched(v, ops);
    DiskUntouched(d, ops);
  }

  lemma BroadcastOnlySends<T>(cfg: Config, me: nat, msg: Msg)
    ensures OnlySends<T>(Broadcast(cfg, me, msg))
  {
    forall op: Op<T> | op in Broadcast<T>(cfg, me, msg) ensures op.Send? {
      SendAllMember(Others(me, cfg.workers), msg, op);
    }
  }

  lemma ShareOnlySends<T>(cfg: Config, me: nat, v: ClientView, order: seq<string>, to: seq<nat>)
    ensures OnlySends<T>(ShareOwn(cfg, me, v, order, to))
  {
    forall op: Op<T> | op in ShareOwn<T>(cfg, me, v, order, to) ensures op.Send? {
      SendChunksMember(to, me, Packed(cfg, v, order), op);
    }
  }

  // Sends, then one write and its memory update, then more sends.
  lemma WriteInTheMiddle<T>(v: ClientView, d: Disk, before: seq<Op<T>>, write: Op<T>, add: Op<T>, after: seq<Op<T>>)
    requires OnlySends(before) && OnlySends(after) && KeepsMemory(write) && KeepsDisk(add)
    ensures MemAfter(v, before + [write, add] + after) == MemOp(v, add)
    ensures DiskAfter(d, before + [write, add] + after) == DiskOp(d, write)
  {
    var two := [write, add];
    OneOp(v, d, write);
    OneOp(v, DiskOp(d, write), add);
    assert two == [write] + [add];
    MemAfterConcat(v, [write], [add]);
    DiskAfterConcat(d, [write], [add]);
    SendsKeep(v, d, before);
    MemAfterConcat(v, before, two);
    DiskAfterConcat(d, before, two);
    MemAfterConcat(v, before + two, after);
    DiskAfterConcat(d, before + two, after);
    SendsKeep(MemOp(v, add), DiskOp(d, write), after);
  }

  lemma MiddleLands<T>(cfg: Config, w: nat, r: Replica, k: ClientView, o: Orders, before: seq<Op<T>>, write: Op<T>, add: Op<T>,
                       after: seq<Op<T>>)
    requires OnlySends(before) && OnlySends(after) && KeepsMemory(write) && KeepsDisk(add)
    requires !write.CallFlush? && !add.CallFlush?
    requires k == MemOp(r.mem, add) && Synced(Replica(k, DiskOp(r.disk, write)))
    ensures Lands(cfg, w, r, k, o, before + [write, add] + after + TryFlush(cfg, k, o))
  {
    WriteInTheMiddle(r.mem, r.disk, before, write, add, after);
    LandsByPieces(cfg, w, r, k, o, before + [write, add] + after);
  }

  lemma RecordBatchLands<T>(cfg: Config, w: nat, r: Replica, b: BatchRecord, o: Orders)
    requires Synced(r) && b.batchID !in r.mem.ownBatches
    ensures Lands<T>(cfg, w, r, MemOp<T>(r.mem, AddOwnBatch(b)), o, RecordBatch(cfg, w, r.mem, b, o))
  {
    var tell: seq<Op<T>> := if HasAllEOFs(r.mem, cfg.expected) then Broadcast(cfg, w, BatchInfo(w, [b])) else [];
    BroadcastOnlySends<T>(cfg, w, BatchInfo(w, [b]));
    MiddleLands<T>(cfg, w, r, MemOp<T>(r.mem, AddOwnBatch(b)), o, tell, WriteBatch(b), AddOwnBatch(b), []);
    assert tell + [WriteBatch(b), AddOwnBatch(b)] + [] == tell + [WriteBatch(b), AddOwnBatch(b)];
  }

  lemma LocalEOFLands<T>(cfg: Config, w: nat, r: Replica, e: string, n: nat, o: Orders)
    requires Synced(r) && e !in r.mem.ownEOFs
    ensures Lands<T>(cfg, w, r, MemOp<T>(r.mem, AddOwnEOF(e, n)), o, LocalEOF(cfg, w, r.mem, e, n, o))
  {
    var k := MemOp<T>(r.mem, AddOwnEOF(e, n));
    var write: seq<Op<T>> := [WriteEOF(e, n), AddOwnEOF(e, n)];
    var tell: seq<Op<T>> := Broadcast(cfg, w, EofArrived(w, e, n));
    var share: seq<Op<T>> := ShareWhenComplete(cfg, w, k, o);
    BroadcastOnlySends<T>(cfg, w, EofArrived(w, e, n));
    ShareOnlySends<T>(cfg, w, k, o.batches, Others(w, cfg.workers));
    assert OnlySends(tell + share);
    MiddleLands<T>(cfg, w, r, k, o, [], WriteEOF(e, n), AddOwnEOF(e, n), tell + share);
    assert [] + write == write;
    Text.Regroup(write, tell, share);
  }

  lemma RemoteEOFLands<T>(cfg: Config, w: nat, r: Replica, p: nat, e: string, n: nat, o: Orders)
    requires Synced(r) && !(p in r.mem.peerEOFs && e in r.mem.peerEOFs[p])
    ensures Lands<T>(cfg, w, r, MemOp<T>(r.mem, AddPeerEOF(p, e, n)), o, RemoteEOF(cfg, w, r.mem, p, e, n, o))
  {
    var k := MemOp<T>(r.mem, AddPeerEOF(p, e, n));
    var add: seq<Op<T>> := [AddPeerEOF(p, e, n)];
    var share: seq<Op<T>> := ShareWhenComplete(cfg, w, k, o);
    ShareOnlySends<T>(cfg, w, k, o.batches, Others(w, cfg.workers));
    OneOp<T>(r.mem, r.disk, AddPeerEOF(p, e, n));
    MemAfterConcat(r.mem, add, share);
    DiskAfterConcat(r.disk, add, share);
    SendsKeep(k, r.disk, share);
    LandsByPieces(cfg, w, r, k, o, add + share);
  }

  lemma UnionKeysAdd<V>(own: map<string, V>, peers: map<nat, map<string, V>>, p: nat, k: string, v: V)
    ensures UnionKeys(own, AddPeer(peers, p, k, v)) == UnionKeys(own, peers) + {k}
  {
    var peers' := AddPeer(peers, p, k, v);
    forall x | x in UnionKeys(own, peers) + {k} ensures x in UnionKeys(own, peers') {
      if x == k {
        assert p in peers'.Keys && k in peers'[p].Keys;
      } else if x !in own {
        var q :| q in peers.Keys && x in peers[q].Keys;
        assert q in peers'.Keys && x in peers'[q].Keys;
      }
    }
  }

  // Learning changes nothing but what is known of the peers' batches.
  lemma {:induction false} LearnEffect<T>(v: ClientView, d: Disk, p: nat, info: seq<BatchRecord>)
    ensures var v' := MemAfter<T>(v, Learn(v, p, info));
            && v' == v.(peerBatches := v'.peerBatches)
            && KnownBatches(v) <= KnownBatches(v')
            && forall r :: r in info ==> r.batchID in KnownBatches(v')
    ensures DiskAfter<T>(d, Learn(v, p, info)) == d
  {
    if info != [] {
      var init, last := info[..|info| - 1], info[|info| - 1];
      assert info == init + [last];
      LearnEffect<T>(v, d, p, init);
      var ops: seq<Op<T>> := Learn(v, p, init);
      if last.batchID !in v.ownBatches {
        var op: Op<T> := AddPeerBatch(p, last);
        assert (ops + [op])[..|ops|] == ops;
        var m := MemAfter(v, ops);
        UnionKeysAdd(m.ownBatches, m.peerBatches, p, last.batchID, last);
      } else {
        assert Learn<T>(v, p, info) == ops;
      }
    }
  }

  lemma RemoteBatchLands<T>(cfg: Config, w: nat, r: Replica, p: nat, info: seq<BatchRecord>, o: Orders)
    requires Synced(r)
    ensures Lands<T>(cfg, w, r, MemAfter<T>(r.mem, Learn(r.mem, p, info)), o, RemoteBatch(cfg, r.mem, p, info, o))
  {
    var ops: seq<Op<T>> := Learn(r.mem, p, info);
    LearnEffect<T>(r.mem, r.disk, p, info);
    forall op | op in ops ensures !op.CallFlush? { LearnMember(r.mem, p, info, op); }
    LandsByPieces(cfg, w, r, MemAfter(r.mem, ops), o, ops);
  }

  // ---- Handling an event again, or for the first time ----

  lemma SettledIsNotReady<T>(t: Truth<T>, cfg: Config, v: ClientView, o: Orders)
    requires WellFormed(t, cfg) && ViewAgrees(t, v) && ValidOrders(v, o) && Settled(t, v)
    ensures !Ready(v, cfg.expected, o)
  {
    if Ready(v, cfg.expected, o) {
      AllEOFsKnown(t, cfg, v);
      ReadyIsExact(t, cfg, v, o);
    }
  }

  lemma NothingLands<T>(t: Truth<T>, cfg: Config, w: nat, r: Replica, o: Orders)
    requires WellFormed(t, cfg) && ViewAgrees(t, r.mem) && ValidOrders(r.mem, o)
    requires Settled(t, r.mem) && Synced(r)
    ensures Lands<T>(cfg, w, r, r.mem, o, [])
  {
    SettledIsNotReady(t, cfg, r.mem, o);
  }

  lemma RefreshedAgain<T>(t: Truth<T>, v: ClientView)
    requires ViewAgrees(t, v)
    ensures Refreshed(v) == v
  {
    if KnownEOFs(v) != {} {
      Sums.LastIsUnique(v.lastEOFID, Sums.Last(KnownEOFs(v)), KnownEOFs(v));
    }
  }

  lemma SeenEOFIsNothing<T>(t: Truth<T>, v: ClientView, p: nat, e: string)
    requires ViewAgrees(t, v) && e in t.eofs
    ensures e in v.ownEOFs ==> MemOp<T>(v, AddOwnEOF(e, t.eofs[e])) == v
    ensures p in v.peerEOFs && e in v.peerEOFs[p] ==> MemOp<T>(v, AddPeerEOF(p, e, t.eofs[e])) == v
  {
    RefreshedAgain(t, v);
    if e in v.ownEOFs {
      assert v.ownEOFs[e := t.eofs[e]] == v.ownEOFs;
    }
    if p in v.peerEOFs && e in v.peerEOFs[p] {
      PeerHasIt(v.peerEOFs, p, e, t.eofs[e]);
    }
  }

  lemma PeerHasIt<V>(peers: map<nat, map<string, V>>, p: nat, k: string, v: V)
    requires p in peers && k in peers[p] && peers[p][k] == v
    ensures AddPeer(peers, p, k, v) == peers
  {
    assert peers[p][k := v] == peers[p];
  }

  lemma PublishThenLands<T>(cfg: Config, w: nat, r: Replica, k: ClientView, o: Orders,
                            pubs: seq<Op<T>>, ops: seq<Op<T>>)
    requires OnlySends(pubs) && Lands(cfg, w, r, k, o, ops)
    ensures Lands(cfg, w, r, k, o, pubs + ops)
  {
    SendsKeep(r.mem, r.disk, pubs);
    MemAfterConcat(r.mem, pubs, ops);
    DiskAfterConcat(r.disk, pubs, ops);
    CallsConcat(w, pubs, ops);
    NoCalls(w, pubs);
  }

  lemma CountedLands<T>(t: Truth<T>, cfg: Config, w: nat, r: Replica, id: string, o: Orders)
    requires WellFormed(t, cfg) && ViewAgrees(t, r.mem) && Settled(t, r.mem) && Synced(r) && id in t.records
    requires ValidOrders(MemOp<T>(r.mem, AddOwnBatch(t.records[id])), o)
    ensures Lands<T>(cfg, w, r, MemOp<T>(r.mem, AddOwnBatch(t.records[id])), o,
                     RecordBatch(cfg, w, r.mem, t.records[id], o))
    ensures id in r.mem.ownBatches ==>
              Lands<T>(cfg, w, r, MemOp<T>(r.mem, AddOwnBatch(t.records[id])), o, [])
  {
    var k := MemOp<T>(r.mem, AddOwnBatch(t.records[id]));
    if id in r.mem.ownBatches {
      assert r.mem.ownBatches[id := t.records[id]] == r.mem.ownBatches;
      assert k == r.mem;
      NothingLands(t, cfg, w, r, o);
    } else {
      RecordBatchLands<T>(cfg, w, r, t.records[id], o);
    }
  }

  lemma AnswerOnlySends<T>(cfg: Config, me: nat, v: ClientView, p: nat, o: Orders)
    ensures OnlySends<T>(AnswerWakeUp(cfg, me, v, p, o))
  {
    ShareOnlySends<T>(cfg, me, v, o.batches, [p]);
    forall op: Op<T> | op in SendEOFs<T>(p, me, v.ownEOFs, o.eofs) ensures op.Send? {
      SendEOFsMember(p, me, v.ownEOFs, o.eofs, op);
    }
  }

  lemma PacketLands<T>(t: Truth<T>, cfg: Config, s: System<T>, p: Packet, o: Orders)
    requires WellFormed(t, cfg) && Live(t, cfg, s) && Occurs(t, s, PacketArrives(p))
    requires ValidOrders(Knowing(t, s, PacketArrives(p)), o)
    ensures Lands(cfg, p.to, s.replicas[p.to], Knowing(t, s, PacketArrives(p)), o,
                  Handler(t, cfg, s, PacketArrives(p), o))
  {
    var w, r := p.to, s.replicas[p.to];
    assert PacketAgrees(t, p);
    match p.msg
    case WakeUp(q) =>
      AnswerOnlySends<T>(cfg, w, r.mem, q, o);
      NothingLands(t, cfg, w, r, o);
      PublishThenLands(cfg, w, r, r.mem, o, AnswerWakeUp<T>(cfg, w, r.mem, q, o), []);
      assert AnswerWakeUp<T>(cfg, w, r.mem, q, o) + [] == AnswerWakeUp<T>(cfg, w, r.mem, q, o);
    case EofArrived(q, e, n) =>
      if q in r.mem.peerEOFs && e in r.mem.peerEOFs[q] {
        SeenEOFIsNothing(t, r.mem, q, e);
        NothingLands(t, cfg, w, r, o);
      } else {
        RemoteEOFLands<T>(cfg, w, r, q, e, n, o);
      }
    case BatchInfo(q, info) => RemoteBatchLands<T>(cfg, w, r, q, info, o);
  }

  lemma HandlerLands<T>(t: Truth<T>, cfg: Config, s: System<T>, e: Event, o: Orders)
    requires WellFormed(t, cfg) && Live(t, cfg, s) && Occurs(t, s, e) && ValidOrders(Knowing(t, s, e), o)
    ensures Lands(cfg, WorkerOf(e), s.replicas[WorkerOf(e)], Knowing(t, s, e), o, Handler(t, cfg, s, e, o))
  {
    var w := WorkerOf(e);
    var r := s.replicas[w];
    match e
    case DataArrives(_, id) =>
      CountedLands(t, cfg, w, r, id, o);
      if id !in r.mem.ownBatches {
        forall op | op in PublishAll(t.outputs[id]) ensures op.Publish? { PublishAllMember(t.outputs[id], op); }
        PublishThenLands(cfg, w, r, Knowing(t, s, e), o, PublishAll(t.outputs[id]),
                         RecordBatch(cfg, w, r.mem, t.records[id], o));
      }
    case BatchCounted(_, id) => CountedLands(t, cfg, w, r, id, o);
    case EofArrives(_, id) =>
      if id in r.mem.ownEOFs {
        SeenEOFIsNothing(t, r.mem, w, id);
        NothingLands(t, cfg, w, r, o);
      } else {
        LocalEOFLands<T>(cfg, w, r, id, t.eofs[id], o);
      }
    case PacketArrives(p) => PacketLands(t, cfg, s, p, o);
  }

  // ---- What a handler puts in flight ----

  lemma SharedIsSent<T>(t: Truth<T>, cfg: Config, w: nat, v: ClientView, order: seq<string>, to: seq<nat>,
                        q: nat, id: string) returns (p: Packet)
    requires WellFormed(t, cfg) && PositiveWeights(t, cfg) && ViewAgrees(t, v)
    requires MapOrder.Enumerates(order, v.ownBatches.Keys) && q in to && id in v.ownBatches
    ensures Send(p) in ShareOwn<T>(cfg, w, v, order, to)
    ensures p.to == q && p.msg.BatchInfo? && v.ownBatches[id] in p.msg.info && v.ownBatches[id].batchID == id
  {
    var records := RecordsIn(v.ownBatches, order);
    var b := v.ownBatches[id];
    RecordsInMember(v.ownBatches, order, b);
    forall x | x in records ensures cfg.sizer(x) > 0 { RecordsInMember(v.ownBatches, order, x); }
    Chunks.BatchesComplete(records, cfg.maxWeight, cfg.sizer);
    var chunks := Packed(cfg, v, order);
    Chunks.ConcatMember(chunks, b);
    var c :| c in chunks && b in c;
    p := Packet(q, BatchInfo(w, c));
    SendChunksMember<T>(to, w, chunks, Send(p));
  }

  lemma BroadcastIsSent<T>(cfg: Config, w: nat, msg: Msg, q: nat)
    requires q < cfg.workers && q != w
    ensures Send(Packet(q, msg)) in Broadcast<T>(cfg, w, msg)
  {
    OthersMember(w, cfg.workers, q);
    SendAllMember<T>(Others(w, cfg.workers), msg, Send(Packet(q, msg)));
  }

  // The net once the handler has run and its message is gone.
  ghost predicate NetAfter<T>(s: System<T>, e: Event, ops: seq<Op<T>>, s': System<T>) {
    s'.net == s.net + Sent(ops) - Consumed(e, Done)
  }

  lemma StillInFlight<T>(s: System<T>, e: Event, ops: seq<Op<T>>, s': System<T>, p: Packet)
    requires NetAfter(s, e, ops, s') && (p in s.net || Send(p) in ops)
    requires e.PacketArrives? ==> p != e.packet
    ensures p in s'.net
  {
    SentMember(ops, p);
  }

  ghost predicate Carries(p: Packet, q: nat, id: string) {
    p.to == q && p.msg.BatchInfo? && exists b :: b in p.msg.info && b.batchID == id
  }

  lemma CountIsSent<T>(cfg: Config, w: nat, v: ClientView, b: BatchRecord, o: Orders, q: nat) returns (p: Packet)
    requires q < cfg.workers && q != w && HasAllEOFs(v, cfg.expected) && b.batchID !in v.ownBatches
    ensures Send(p) in RecordBatch<T>(cfg, w, v, b, o) && Carries(p, q, b.batchID)
  {
    p := Packet(q, BatchInfo(w, [b]));
    BroadcastIsSent<T>(cfg, w, p.msg, q);
    assert b in p.msg.info;
  }

  lemma CompletedIsSent<T>(t: Truth<T>, cfg: Config, w: nat, k: ClientView, o: Orders, q: nat, id: string)
    returns (p: Packet)
    requires WellFormed(t, cfg) && PositiveWeights(t, cfg) && ViewAgrees(t, k) && ValidOrders(k, o)
    requires q < cfg.workers && q != w && Complete(t, k) && id in k.ownBatches
    ensures Send(p) in ShareWhenComplete<T>(cfg, w, k, o) && Carries(p, q, id)
  {
    CompleteIsHasAll(t, cfg, k);
    OthersMember(w, cfg.workers, q);
    p := SharedIsSent<T>(t, cfg, w, k, o.batches, Others(w, cfg.workers), q, id);
  }

  lemma AnswerIsSent<T>(t: Truth<T>, cfg: Config, w: nat, v: ClientView, o: Orders, q: nat, id: string)
    returns (p: Packet)
    requires WellFormed(t, cfg) && PositiveWeights(t, cfg) && ViewAgrees(t, v) && ValidOrders(v, o)
    requires Complete(t, v) && id in v.ownBatches
    ensures Send(p) in AnswerWakeUp<T>(cfg, w, v, q, o) && Carries(p, q, id)
  {
    CompleteIsHasAll(t, cfg, v);
    p := SharedIsSent<T>(t, cfg, w, v, o.batches, [q], q, id);
  }

  // What a worker has to tell q about a batch that q may not have heard of before the event.
  ghost predicate IsNews<T>(t: Truth<T>, s: System<T>, e: Event, q: nat, id: string)
    requires Occurs(t, s, e)
  {
    var v := s.replicas[WorkerOf(e)].mem;
    !Complete(t, v) || id !in v.ownBatches || (e.PacketArrives? && e.packet.msg == WakeUp(q))
  }

  lemma NewsInPacket<T>(t: Truth<T>, cfg: Config, s: System<T>, m: Packet, o: Orders, q: nat, id: string)
    returns (p: Packet)
    requires WellFormed(t, cfg) && PositiveWeights(t, cfg) && Live(t, cfg, s)
    requires Occurs(t, s, PacketArrives(m)) && ValidOrders(Knowing(t, s, PacketArrives(m)), o)
    requires q < |s.replicas| && q != m.to && IsNews(t, s, PacketArrives(m), q, id)
    requires Complete(t, Knowing(t, s, PacketArrives(m))) && id in Knowing(t, s, PacketArrives(m)).ownBatches
    ensures Send(p) in Handler(t, cfg, s, PacketArrives(m), o) && Carries(p, q, id)
  {
    var w, v, k := m.to, s.replicas[m.to].mem, Knowing(t, s, PacketArrives(m));
    KnowingAgrees(t, s, PacketArrives(m));
    assert PacketAgrees(t, m);
    match m.msg
    case WakeUp(x) => p := AnswerIsSent<T>(t, cfg, w, v, o, x, id);
    case EofArrived(x, y, n) =>
      SeenEOFIsNothing(t, v, x, y);
      p := CompletedIsSent<T>(t, cfg, w, k, o, q, id);
    case BatchInfo(x, info) => LearnEffect<T>(v, s.replicas[w].disk, x, info);
  }

  lemma NewsOfBatch<T>(t: Truth<T>, cfg: Config, s: System<T>, e: Event, o: Orders, q: nat, id: string)
    returns (p: Packet)
    requires WellFormed(t, cfg) && Live(t, cfg, s) && (e.DataArrives? || e.BatchCounted?)
    requires Occurs(t, s, e) && q < |s.replicas| && q != WorkerOf(e) && IsNews(t, s, e, q, id)
    requires Complete(t, Knowing(t, s, e)) && id in Knowing(t, s, e).ownBatches && |s.replicas| == cfg.workers
    ensures Send(p) in Handler(t, cfg, s, e, o) && Carries(p, q, id)
  {
    var v := s.replicas[e.worker].mem;
    assert KnownEOFs(Knowing(t, s, e)) == KnownEOFs(v);
    CompleteIsHasAll(t, cfg, v);
    p := CountIsSent<T>(cfg, e.worker, v, t.records[e.batchID], o, q);
  }

  lemma NewsOfEOF<T>(t: Truth<T>, cfg: Config, s: System<T>, e: Event, o: Orders, q: nat, id: string)
    returns (p: Packet)
    requires WellFormed(t, cfg) && PositiveWeights(t, cfg) && Live(t, cfg, s) && e.EofArrives?
    requires Occurs(t, s, e) && ValidOrders(Knowing(t, s, e), o)
    requires q < |s.replicas| && q != e.worker && IsNews(t, s, e, q, id)
    requires Complete(t, Knowing(t, s, e)) && id in Knowing(t, s, e).ownBatches
    ensures Send(p) in Handler(t, cfg, s, e, o) && Carries(p, q, id)
  {
    KnowingAgrees(t, s, e);
    SeenEOFIsNothing(t, s.replicas[e.worker].mem, e.worker, e.eofID);
    p := CompletedIsSent<T>(t, cfg, e.worker, Knowing(t, s, e), o, q, id);
  }

  lemma NewlyShared<T>(t: Truth<T>, cfg: Config, s: System<T>, e: Event, o: Orders, q: nat, id: string)
    returns (p: Packet)
    requires WellFormed(t, cfg) && PositiveWeights(t, cfg) && Live(t, cfg, s)
    requires Occurs(t, s, e) && ValidOrders(Knowing(t, s, e), o)
    requires q < |s.replicas| && q != WorkerOf(e) && IsNews(t, s, e, q, id)
    requires Complete(t, Knowing(t, s, e)) && id in Knowing(t, s, e).ownBatches
    ensures Send(p) in Handler(t, cfg, s, e, o) && Carries(p, q, id)
  {
    match e
    case DataArrives(_, x) => p := NewsOfBatch(t, cfg, s, e, o, q, id);
    case BatchCounted(_, x) => p := NewsOfBatch(t, cfg, s, e, o, q, id);
    case EofArrives(_, x) => p := NewsOfEOF(t, cfg, s, e, o, q, id);
    case PacketArrives(m) => p := NewsInPacket(t, cfg, s, m, o, q, id);
  }

  lemma NewlyToldEOF<T>(t: Truth<T>, cfg: Config, s: System<T>, e: Event, o: Orders, q: nat, id: string)
    returns (p: Packet)
    requires WellFormed(t, cfg) && Live(t, cfg, s)
    requires Occurs(t, s, e) && ValidOrders(Knowing(t, s, e), o)
    requires q < |s.replicas| && q != WorkerOf(e)
    requires id in Knowing(t, s, e).ownEOFs
    requires id !in s.replicas[WorkerOf(e)].mem.ownEOFs || (e.PacketArrives? && e.packet.msg == WakeUp(q))
    ensures Send(p) in Handler(t, cfg, s, e, o)
    ensures p.to == q && p.msg.EofArrived? && p.msg.eofID == id
  {
    var w := WorkerOf(e);
    var v := s.replicas[w].mem;
    OwnEOFsKnown(t, s, e);
    if e.EofArrives? && id !in v.ownEOFs {
      p := LocalEOFTells<T>(cfg, w, v, id, t.eofs[id], o, q);
    } else {
      p := AnswerTells<T>(cfg, w, v, o, q, id);
    }
  }

  // Own EOFs come only from the queue.
  lemma OwnEOFsKnown<T>(t: Truth<T>, s: System<T>, e: Event)
    requires Occurs(t, s, e)
    ensures Knowing(t, s, e).ownEOFs.Keys ==
              s.replicas[WorkerOf(e)].mem.ownEOFs.Keys + if e.EofArrives? then {e.eofID} else {}
    ensures !e.EofArrives? ==> Knowing(t, s, e).ownEOFs == s.replicas[WorkerOf(e)].mem.ownEOFs
  {
    if e.PacketArrives? && e.packet.msg.BatchInfo? {
      LearnEffect<T>(s.replicas[WorkerOf(e)].mem, s.replicas[WorkerOf(e)].disk, e.packet.msg.sender, e.packet.msg.info);
    }
  }

  lemma LocalEOFTells<T>(cfg: Config, w: nat, v: ClientView, id: string, n: nat, o: Orders, q: nat) returns (p: Packet)
    requires q < cfg.workers && q != w && id !in v.ownEOFs
    ensures Send(p) in LocalEOF<T>(cfg, w, v, id, n, o) && p == Packet(q, EofArrived(w, id, n))
  {
    p := Packet(q, EofArrived(w, id, n));
    BroadcastIsSent<T>(cfg, w, p.msg, q);
  }

  lemma AnswerTells<T>(cfg: Config, w: nat, v: ClientView, o: Orders, q: nat, id: string) returns (p: Packet)
    requires id in v.ownEOFs && id in o.eofs
    ensures Send(p) in AnswerWakeUp<T>(cfg, w, v, q, o) && p == Packet(q, EofArrived(w, id, v.ownEOFs[id]))
  {
    p := Packet(q, EofArrived(w, id, v.ownEOFs[id]));
    SendEOFsMember<T>(q, w, v.ownEOFs, o.eofs, Send(p));
  }

  // ---- A whole handler keeps the group live ----

  lemma KnowsMore<T>(t: Truth<T>, cfg: Config, s: System<T>, e: Event)
    requires Occurs(t, s, e)
    ensures KnownBatches(s.replicas[WorkerOf(e)].mem) <= KnownBatches(Knowing(t, s, e))
    ensures KnownEOFs(s.replicas[WorkerOf(e)].mem) <= KnownEOFs(Knowing(t, s, e))
    ensures s.replicas[WorkerOf(e)].mem.flushed == Knowing(t, s, e).flushed
    ensures e.PacketArrives? && e.packet.msg.BatchInfo? ==>
              forall r :: r in e.packet.msg.info ==> r.batchID in KnownBatches(Knowing(t, s, e))
    ensures e.PacketArrives? && e.packet.msg.EofArrived? ==> e.packet.msg.eofID in KnownEOFs(Knowing(t, s, e))
  {
    var v := s.replicas[WorkerOf(e)].mem;
    if e.PacketArrives? {
      match e.packet.msg
      case WakeUp(_) =>
      case EofArrived(q, id, n) => UnionKeysAdd(v.ownEOFs, v.peerEOFs, q, id, n);
      case BatchInfo(q, info) => LearnEffect<T>(v, s.replicas[WorkerOf(e)].disk, q, info);
    }
  }

  lemma LandedIsSettled<T>(t: Truth<T>, cfg: Config, k: ClientView, o: Orders)
    requires WellFormed(t, cfg) && ViewAgrees(t, k) && ValidOrders(k, o)
    ensures Settled(t, Landed(cfg, k, o))
  {
    if Complete(t, k) && Covers(t, KnownBatches(k)) && !k.flushed {
      WholeIsReady(t, cfg, k, o);
    }
  }

  // The pair (w, q) with w the worker that handled the event.
  lemma ActorShares<T>(t: Truth<T>, cfg: Config, s: System<T>, e: Event, o: Orders, s': System<T>, q: nat)
    requires WellFormed(t, cfg) && PositiveWeights(t, cfg) && Live(t, cfg, s)
    requires Occurs(t, s, e) && ValidOrders(Knowing(t, s, e), o)
    requires NetAfter(s, e, Handler(t, cfg, s, e, o), s') && |s'.replicas| == |s.replicas|
    requires q < |s.replicas| && q != WorkerOf(e) && s'.replicas[q] == s.replicas[q]
    requires s'.replicas[WorkerOf(e)].mem == Landed(cfg, Knowing(t, s, e), o)
    ensures SharesBatches(t, s', WorkerOf(e), q) && SharesEOFs(s', WorkerOf(e), q)
  {
    var w, ops := WorkerOf(e), Handler(t, cfg, s, e, o);
    var v, k := s.replicas[w].mem, Knowing(t, s, e);
    assert SharesBatches(t, s, w, q) && SharesEOFs(s, w, q);
    if Complete(t, k) {
      forall id | id in k.ownBatches ensures BatchReaches(s', w, q, id) {
        if IsNews(t, s, e, q, id) {
          var p := NewlyShared(t, cfg, s, e, o, q, id);
          StillInFlight(s, e, ops, s', p);
        } else {
          assert BatchReaches(s, w, q, id);
          if BatchInFlight(s, q, id) {
            var p, r :| p in s.net && p.to == q && p.msg.BatchInfo? && r in p.msg.info && r.batchID == id;
            StillInFlight(s, e, ops, s', p);
          } else if Packet(w, WakeUp(q)) in s.net {
            StillInFlight(s, e, ops, s', Packet(w, WakeUp(q)));
          }
        }
      }
    }
    forall id | id in k.ownEOFs ensures EOFReaches(s', w, q, id) {
      if id !in v.ownEOFs || (e.PacketArrives? && e.packet.msg == WakeUp(q)) {
        var p := NewlyToldEOF(t, cfg, s, e, o, q, id);
        StillInFlight(s, e, ops, s', p);
      } else {
        assert EOFReaches(s, w, q, id);
        if EOFInFlight(s, q, id) {
          var p :| p in s.net && p.to == q && p.msg.EofArrived? && p.msg.eofID == id;
          StillInFlight(s, e, ops, s', p);
        } else if Packet(w, WakeUp(q)) in s.net {
          StillInFlight(s, e, ops, s', Packet(w, WakeUp(q)));
        }
      }
    }
  }

  // A pair (x, q) whose source x did not handle the event; q may have.
  lemma OthersStillShare<T>(t: Truth<T>, cfg: Config, s: System<T>, e: Event, o: Orders, s': System<T>, x: nat, q: nat)
    requires Live(t, cfg, s) && Occurs(t, s, e)
    requires NetAfter(s, e, Handler(t, cfg, s, e, o), s') && |s'.replicas| == |s.replicas|
    requires x < |s.replicas| && q < |s.replicas| && x != q && x != WorkerOf(e)
    requires s'.replicas[x] == s.replicas[x]
    requires q != WorkerOf(e) ==> s'.replicas[q] == s.replicas[q]
    requires s'.replicas[WorkerOf(e)].mem == Landed(cfg, Knowing(t, s, e), o)
    ensures SharesBatches(t, s', x, q) && SharesEOFs(s', x, q)
  {
    var ops := Handler(t, cfg, s, e, o);
    KnowsMore(t, cfg, s, e);
    assert SharesBatches(t, s, x, q) && SharesEOFs(s, x, q);
    forall id | BatchReaches(s, x, q, id) ensures BatchReaches(s', x, q, id) {
      if BatchInFlight(s, q, id) {
        var p, r :| p in s.net && p.to == q && p.msg.BatchInfo? && r in p.msg.info && r.batchID == id;
        if e != PacketArrives(p) { StillInFlight(s, e, ops, s', p); }
      } else if Packet(x, WakeUp(q)) in s.net {
        StillInFlight(s, e, ops, s', Packet(x, WakeUp(q)));
      }
    }
    forall id | EOFReaches(s, x, q, id) ensures EOFReaches(s', x, q, id) {
      if EOFInFlight(s, q, id) {
        var p :| p in s.net && p.to == q && p.msg.EofArrived? && p.msg.eofID == id;
        if e != PacketArrives(p) { StillInFlight(s, e, ops, s', p); }
      } else if Packet(x, WakeUp(q)) in s.net {
        StillInFlight(s, e, ops, s', Packet(x, WakeUp(q)));
      }
    }
  }

  lemma DoneReplica<T>(t: Truth<T>, cfg: Config, s: System<T>, e: Event, o: Orders, s': System<T>, x: nat)
    requires WellFormed(t, cfg) && Live(t, cfg, s)
    requires Occurs(t, s, e) && ValidOrders(Knowing(t, s, e), o)
    requires s'.replicas == Perform(s, WorkerOf(e), Handler(t, cfg, s, e, o)).replicas
    requires s'.flushes == s.flushes + Calls(WorkerOf(e), Handler(t, cfg, s, e, o))
    requires x < |s.replicas|
    ensures s'.replicas[WorkerOf(e)].mem == Landed(cfg, Knowing(t, s, e), o)
    ensures Synced(s'.replicas[x]) && Settled(t, s'.replicas[x].mem)
    ensures CallsBy(s'.flushes, x) == if s'.replicas[x].mem.flushed then 1 else 0
  {
    var w, ops := WorkerOf(e), Handler(t, cfg, s, e, o);
    HandlerLands(t, cfg, s, e, o);
    KnowingAgrees(t, s, e);
    LandedIsSettled(t, cfg, Knowing(t, s, e), o);
    KnowsMore(t, cfg, s, e);
    CallsByConcat(s.flushes, Calls(w, ops), x);
    CallsByOne(w, ops, x);
  }

  lemma DoneLive<T>(t: Truth<T>, cfg: Config, s: System<T>, e: Event, o: Orders)
    requires WellFormed(t, cfg) && PositiveWeights(t, cfg) && Live(t, cfg, s)
    requires Occurs(t, s, e) && ValidOrders(Knowing(t, s, e), o)
    ensures Live(t, cfg, Next(t, cfg, s, Handle(e, o, |Handler(t, cfg, s, e, o)|, Done)))
  {
    var w, ops := WorkerOf(e), Handler(t, cfg, s, e, o);
    var s' := Next(t, cfg, s, Handle(e, o, |ops|, Done));
    assert ops[..|ops|] == ops;
    assert Safe(t, s') by { StepSafe(t, cfg, s, Handle(e, o, |ops|, Done)); }
    assert NetAfter(s, e, ops, s');
    forall x | 0 <= x < |s'.replicas|
      ensures s'.replicas[w].mem == Landed(cfg, Knowing(t, s, e), o)
      ensures Synced(s'.replicas[x]) && Settled(t, s'.replicas[x].mem)
      ensures CallsBy(s'.flushes, x) == if s'.replicas[x].mem.flushed then 1 else 0
    {
      DoneReplica(t, cfg, s, e, o, s', x);
    }
    forall x, q | 0 <= x < |s'.replicas| && 0 <= q < |s'.replicas| && x != q
      ensures SharesBatches(t, s', x, q) && SharesEOFs(s', x, q)
    {
      DoneReplica(t, cfg, s, e, o, s', x);
      if x == w { ActorShares(t, cfg, s, e, o, s', q); } else { OthersStillShare(t, cfg, s, e, o, s', x, q); }
    }
  }

  // ---- Crashes at either end of a handler ----

  // Cutting here leaves no durable trace, so the event is simply handled again.
  ghost predicate Reversible<T>(op: Op<T>) {
    !op.WriteBatch? && !op.WriteEOF? && !op.WriteFlushed? && !op.CallFlush?
  }

  // What is left undone is only memory, which the restart rebuilds.
  ghost predicate MemoryOnly<T>(op: Op<T>) {
    op.AddOwnBatch? || op.AddOwnEOF? || op.AddPeerBatch? || op.AddPeerEOF?
  }

  lemma {:induction false} ReversibleEffect<T>(w: nat, d: Disk, ops: seq<Op<T>>)
    requires forall op :: op in ops ==> Reversible(op)
    ensures DiskAfter(d, ops) == d && Calls(w, ops) == []
  {
    forall op | op in ops ensures KeepsDisk(op) && !op.CallFlush? { assert Reversible(op); }
    DiskUntouched(d, ops);
    NoCalls(w, ops);
  }

  lemma MemoryOnlyEffect<T>(w: nat, d: Disk, ops: seq<Op<T>>, cut: nat)
    requires cut <= |ops| && forall op :: op in ops[cut..] ==> MemoryOnly(op)
    ensures DiskAfter(d, ops[..cut]) == DiskAfter(d, ops)
    ensures Calls(w, ops[..cut]) == Calls(w, ops) && Sent(ops[..cut]) == Sent(ops)
    ensures Published(ops[..cut]) == Published(ops)
    decreases |ops|
  {
    if cut == |ops| {
      assert ops[..cut] == ops;
    } else {
      assert ops[|ops| - 1] in ops[cut..] && MemoryOnly(ops[|ops| - 1]);
      var init := ops[..|ops| - 1];
      assert init[..cut] == ops[..cut];
      forall op | op in init[cut..] ensures MemoryOnly(op) { assert op in ops[cut..]; }
      MemoryOnlyEffect(w, d, init, cut);
    }
  }

  ghost predicate SameButPublished<T>(a: System<T>, b: System<T>) {
    a.replicas == b.replicas && a.net == b.net && a.flushes == b.flushes
  }

  lemma PublishedIsIrrelevant<T>(t: Truth<T>, cfg: Config, a: System<T>, b: System<T>)
    requires SameButPublished(a, b) && Live(t, cfg, a)
    ensures Live(t, cfg, b)
  {
    forall w, q | 0 <= w < |b.replicas| && 0 <= q < |b.replicas| && w != q
      ensures SharesBatches(t, b, w, q) && SharesEOFs(b, w, q)
    {
      assert SharesBatches(t, a, w, q) && SharesEOFs(a, w, q);
      forall id | BatchReaches(a, w, q, id) ensures BatchReaches(b, w, q, id) {
        assert BatchInFlight(a, q, id) ==> BatchInFlight(b, q, id);
      }
      forall e | EOFReaches(a, w, q, e) ensures EOFReaches(b, w, q, e) {
        assert EOFInFlight(a, q, e) ==> EOFInFlight(b, q, e);
      }
    }
  }

  // Only sends are left of the handler.
  lemma EarlyCutShape<T>(t: Truth<T>, cfg: Config, s: System<T>, e: Event, o: Orders, cut: nat)
    requires Enabled(t, cfg, s, Handle(e, o, cut, Crashed))
    requires forall op :: op in Handler(t, cfg, s, e, o)[..cut] ==> Reversible(op)
    ensures SameButPublished(
              Reboot(cfg, s.(net := s.net + Sent(Handler(t, cfg, s, e, o)[..cut])), WorkerOf(e)),
              Next(t, cfg, s, Handle(e, o, cut, Crashed)))
  {
    ReversibleEffect(WorkerOf(e), s.replicas[WorkerOf(e)].disk, Handler(t, cfg, s, e, o)[..cut]);
  }

  lemma EarlyCutLive<T>(t: Truth<T>, cfg: Config, s: System<T>, e: Event, o: Orders, cut: nat)
    requires WellFormed(t, cfg) && PositiveWeights(t, cfg) && Live(t, cfg, s)
    requires Enabled(t, cfg, s, Handle(e, o, cut, Crashed))
    requires forall op :: op in Handler(t, cfg, s, e, o)[..cut] ==> Reversible(op)
    ensures Live(t, cfg, Next(t, cfg, s, Handle(e, o, cut, Crashed)))
  {
    var ops := Handler(t, cfg, s, e, o)[..cut];
    var n := s.(net := s.net + Sent(ops));
    assert forall p :: p in Sent(ops) ==> PacketAgrees(t, p) by { SentAgrees(t, cfg, s, e, o, cut); }
    assert Live(t, cfg, n) by { MoreInFlight(t, cfg, s, Sent(ops)); }
    RebootLive(t, cfg, n, WorkerOf(e));
    EarlyCutShape(t, cfg, s, e, o, cut);
    PublishedIsIrrelevant(t, cfg, Reboot(cfg, n, WorkerOf(e)), Next(t, cfg, s, Handle(e, o, cut, Crashed)));
  }

  lemma SentAgrees<T>(t: Truth<T>, cfg: Config, s: System<T>, e: Event, o: Orders, cut: nat)
    requires WellFormed(t, cfg) && Safe(t, s) && Enabled(t, cfg, s, Handle(e, o, cut, Crashed))
    ensures forall p :: p in Sent(Handler(t, cfg, s, e, o)[..cut]) ==> PacketAgrees(t, p)
  {
    var ops := Handler(t, cfg, s, e, o);
    HandlerAgrees(t, cfg, s, e, o);
    forall p | p in Sent(ops[..cut]) ensures PacketAgrees(t, p) {
      SentMember(ops[..cut], p);
      assert Send(p) in ops;
    }
  }

  // As if the handler had finished, its message having been duplicated before.
  lemma LateCutShape<T>(t: Truth<T>, cfg: Config, s: System<T>, e: Event, o: Orders, cut: nat)
    requires Enabled(t, cfg, s, Handle(e, o, cut, Crashed))
    requires forall op :: op in Handler(t, cfg, s, e, o)[cut..] ==> MemoryOnly(op)
    ensures var d := Next(t, cfg, s, Handle(e, o, |Handler(t, cfg, s, e, o)|, Done));
            SameButPublished(
              Reboot(cfg, d.(net := d.net + Consumed(e, Done)), WorkerOf(e)),
              Next(t, cfg, s, Handle(e, o, cut, Crashed)))
  {
    var w, ops := WorkerOf(e), Handler(t, cfg, s, e, o);
    assert ops[..|ops|] == ops;
    PrefixIsEnough(cfg, s, w, ops, cut, Consumed(e, Done));
  }

  lemma PrefixIsEnough<T>(cfg: Config, s: System<T>, w: nat, ops: seq<Op<T>>, cut: nat, gone: multiset<Packet>)
    requires w < |s.replicas| && cut <= |ops| && gone <= s.net
    requires forall op :: op in ops[cut..] ==> MemoryOnly(op)
    ensures var d, c := Perform(s, w, ops), Perform(s, w, ops[..cut]);
            SameButPublished(Reboot(cfg, d.(net := d.net - gone + gone), w),
                             Reboot(cfg, c.(net := c.net - multiset{}), w))
  {
    MemoryOnlyEffect(w, s.replicas[w].disk, ops, cut);
    var d, c := Perform(s, w, ops), Perform(s, w, ops[..cut]);
    assert d.net - gone + gone == d.net == c.net == c.net - multiset{};
  }

  lemma LateCutLive<T>(t: Truth<T>, cfg: Config, s: System<T>, e: Event, o: Orders, cut: nat)
    requires WellFormed(t, cfg) && PositiveWeights(t, cfg) && Live(t, cfg, s)
    requires Enabled(t, cfg, s, Handle(e, o, cut, Crashed))
    requires forall op :: op in Handler(t, cfg, s, e, o)[cut..] ==> MemoryOnly(op)
    ensures Live(t, cfg, Next(t, cfg, s, Handle(e, o, cut, Crashed)))
  {
    var d := Next(t, cfg, s, Handle(e, o, |Handler(t, cfg, s, e, o)|, Done));
    assert Live(t, cfg, d) by { DoneLive(t, cfg, s, e, o); }
    assert forall p :: p in Consumed(e, Done) ==> p in s.net && PacketAgrees(t, p);
    var n := d.(net := d.net + Consumed(e, Done));
    assert Live(t, cfg, n) by { MoreInFlight(t, cfg, d, Consumed(e, Done)); }
    RebootLive(t, cfg, n, WorkerOf(e));
    LateCutShape(t, cfg, s, e, o, cut);
    PublishedIsIrrelevant(t, cfg, Reboot(cfg, n, WorkerOf(e)), Next(t, cfg, s, Handle(e, o, cut, Crashed)));
  }
}
