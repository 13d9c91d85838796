// The coordinator object of one worker. Each of its handlers is proved to perform, for its
// client, the operations that EofProtocol gives, in that order, or a prefix of them when a send,
// a write or the flush handler fails; other clients are left alone.
module Coordinator {
  import opened EofProtocol
  import opened ClientStates
  import opened MapOrder
  import opened Rewriting
  import ReplicaGroup
  import Chunks
  import Batching

  const DEFAULT_EXPECTED_EOFS := 1

  ghost function AnyOrders(v: ClientView): (o: Orders)
    ensures ValidOrders(v, o)
  {
    Orders(Listing(v.ownEOFs.Keys), Listing(v.ownBatches.Keys), Listing(v.peerBatches.Keys),
           Listing(v.peerBatches.Keys), Listing(v.peerEOFs.Keys))
  }

  // An entry of a client other than c that is no longer there.
  ghost predicate Loses<V>(c: string, p: Place, was: map<string, V>, now: map<string, V>) {
    p.0 != c && p.1 in was && p.1 !in now
  }

  // ops were performed where all was meant: everything, or what came before an error.
  ghost predicate Performed<T>(ops: seq<Op<T>>, all: seq<Op<T>>, ok: bool) {
    ops <= all && (ok ==> ops == all)
  }

  lemma PerformedThen<T>(a: seq<Op<T>>, ops: seq<Op<T>>, all: seq<Op<T>>, ok: bool)
    requires Performed(ops, all, ok)
    ensures Performed(a + ops, a + all, ok)
  {
  }

  lemma PerformedStop<T>(ops: seq<Op<T>>, all: seq<Op<T>>, more: seq<Op<T>>)
    requires ops <= all
    ensures Performed(ops, all + more, false)
  {
    assert (all + more)[..|ops|] == all[..|ops|];
  }

  // What the methods below do is a step of the replica group: the worker's memory, its disk and
  // the packets it sent are those of the step, which is done or, after an error, cut short.
  lemma PerformedIsStep<T>(t: ReplicaGroup.Truth<T>, cfg: Config, s: ReplicaGroup.System<T>, e: ReplicaGroup.Event, o: Orders,
                           ops: seq<Op<T>>, ok: bool)
    requires ReplicaGroup.Occurs(t, s, e) && ValidOrders(ReplicaGroup.Knowing(t, s, e), o)
    requires Performed(ops, ReplicaGroup.Handler(t, cfg, s, e, o), ok)
    ensures var step := ReplicaGroup.Handle(e, o, |ops|, if ok then ReplicaGroup.Done else ReplicaGroup.Failed);
            && ReplicaGroup.Enabled(t, cfg, s, step)
            && ReplicaGroup.Next(t, cfg, s, step) ==
                 var s' := ReplicaGroup.Perform(s, ReplicaGroup.WorkerOf(e), ops);
                 s'.(net := s'.net - if e.PacketArrives? && ok then multiset{e.packet} else multiset{})
  {
    assert ReplicaGroup.Handler(t, cfg, s, e, o)[..|ops|] == ops;
  }

  // What comes from the queue takes nothing from the network.
  lemma PerformedFromQueue<T>(t: ReplicaGroup.Truth<T>, cfg: Config, s: ReplicaGroup.System<T>, e: ReplicaGroup.Event,
                              o: Orders, ops: seq<Op<T>>, ok: bool)
    requires ReplicaGroup.Occurs(t, s, e) && !e.PacketArrives? && ValidOrders(ReplicaGroup.Knowing(t, s, e), o)
    requires Performed(ops, ReplicaGroup.Handler(t, cfg, s, e, o), ok)
    ensures var step := ReplicaGroup.Handle(e, o, |ops|, if ok then ReplicaGroup.Done else ReplicaGroup.Failed);
            && ReplicaGroup.Enabled(t, cfg, s, step)
            && ReplicaGroup.Next(t, cfg, s, step) == ReplicaGroup.Perform(s, ReplicaGroup.WorkerOf(e), ops)
  {
    PerformedIsStep(t, cfg, s, e, o, ops, ok);
    NoneTaken(ReplicaGroup.Perform(s, ReplicaGroup.WorkerOf(e), ops));
  }

  lemma NoneTaken<T>(s: ReplicaGroup.System<T>)
    ensures s.(net := s.net - multiset{}) == s
  {
    assert s.net - multiset{} == s.net;
  }

  // Three parts of a handler, one after the other; after an error nothing more is done.
  lemma InTurn<T>(a: seq<Op<T>>, a': seq<Op<T>>, okA: bool, b: seq<Op<T>>, b': seq<Op<T>>, okB: bool,
                  c: seq<Op<T>>, c': seq<Op<T>>, ok: bool)
    requires Performed(a, a', okA)
    requires if okA then Performed(b, b', okB) else b == [] && !okB
    requires if okB then Performed(c, c', ok) else c == [] && !ok
    ensures Performed(a + b + c, a' + b' + c', ok)
  {
    if !okA {
      assert a + b + c == a;
      PerformedStop(a, a', b' + c');
      assert a' + (b' + c') == a' + b' + c';
    } else if !okB {
      assert a + b + c == a + b;
      PerformedStop(a + b, a' + b', c');
    }
  }

  lemma OneMore<T>(v: ClientView, d: Disk, ops: seq<Op<T>>, op: Op<T>)
    ensures MemAfter(v, ops + [op]) == MemOp(MemAfter(v, ops), op)
    ensures DiskAfter(d, ops + [op]) == DiskOp(DiskAfter(d, ops), op)
  {
    assert (ops + [op])[..|ops|] == ops;
  }

  // ---- Packing the own batches ----

  // The batcher holds and has handed over what the cut says.
  ghost predicate Mirrors<T>(v: Batching.BatcherView<T>, cut: Chunks.Cut<T>) {
    && v.held == cut.held && |v.published| == |cut.batches|
    && forall i :: 0 <= i < |v.published| ==> v.published[i].items == cut.batches[i]
  }

  lemma {:induction false} RecordsInOrder(m: map<string, BatchRecord>, order: seq<string>)
    requires forall k :: k in order ==> k in m
    ensures |RecordsIn(m, order)| == |order|
    ensures forall i :: 0 <= i < |order| ==> RecordsIn(m, order)[i] == m[order[i]]
  {
    if order != [] {
      RecordsInOrder(m, order[1..]);
      forall i | 0 <= i < |order| ensures RecordsIn(m, order)[i] == m[order[i]] {
        if i > 0 {
          assert RecordsIn(m, order)[i] == RecordsIn(m, order[1..])[i - 1];
        }
      }
    }
  }

  // The cut after the first i items.
  ghost function CutUpto<T>(items: seq<T>, i: nat, max: nat, sizer: T -> nat): Chunks.Cut<T>
    requires i <= |items|
  {
    if i == 0 then Chunks.Cut([], []) else Chunks.AddItem(CutUpto(items, i - 1, max, sizer), items[i - 1], max, sizer)
  }

  lemma {:induction false} CutUptoIsAddAll<T>(items: seq<T>, i: nat, max: nat, sizer: T -> nat)
    requires i <= |items|
    ensures CutUpto(items, i, max, sizer) == Chunks.AddAll(items[..i], max, sizer)
  {
    if i > 0 {
      CutUptoIsAddAll(items, i - 1, max, sizer);
      assert items[..i][..i - 1] == items[..i - 1];
    }
  }

  lemma CutNext<T>(items: seq<T>, i: nat, max: nat, sizer: T -> nat)
    requires i < |items|
    ensures CutUpto(items, i + 1, max, sizer) == Chunks.AddItem(CutUpto(items, i, max, sizer), items[i], max, sizer)
    ensures CutUpto(items, i + 1, max, sizer).batches <= Chunks.BatchesOf(items, max, sizer)
  {
    Chunks.CutGrows(items, i + 1, max, sizer);
    CutUptoIsAddAll(items, i + 1, max, sizer);
  }

  lemma MirrorsAdd<T>(v: Batching.BatcherView<T>, cut: Chunks.Cut<T>, item: T, max: nat, sizer: T -> nat)
    requires Mirrors(v, cut)
    ensures Mirrors(Batching.AddTo(v, item, max, sizer), Chunks.AddItem(cut, item, max, sizer))
  {
  }

  lemma MirrorsFlush<T>(v: Batching.BatcherView<T>, cut: Chunks.Cut<T>, sizer: T -> nat)
    requires Mirrors(v, cut)
    ensures Mirrors(Batching.FlushView(v, sizer), Chunks.Cut(Chunks.FlushHeld(cut, sizer), Batching.FlushView(v, sizer).held))
  {
  }

  lemma LearnNext<T>(v: ClientView, p: nat, info: seq<BatchRecord>, i: nat)
    requires i < |info|
    ensures Learn<T>(v, p, info[..i + 1]) == Learn(v, p, info[..i]) + LearnOne(v, p, info[i])
  {
    assert info[..i + 1][..i] == info[..i];
  }

  // One more message of a broadcast.
  lemma SendStep<T>(to: seq<nat>, i: nat, msg: Msg, ops: seq<Op<T>>, more: seq<Op<T>>, ok: bool)
    requires i < |to| && SendAll(to, msg) == ops + SendAll(to[i..], msg)
    requires Performed(more, [Send(Packet(to[i], msg))], ok)
    ensures ops + more <= SendAll(to, msg)
    ensures ok ==> SendAll(to, msg) == ops + more + SendAll(to[i + 1..], msg)
  {
    assert to[i..][1..] == to[i + 1..];
    assert SendAll<T>(to[i..], msg) == [Send(Packet(to[i], msg))] + SendAll(to[i + 1..], msg);
  }

  lemma SendEOFStep<T>(to: nat, me: nat, eofs: map<string, nat>, keys: seq<string>, i: nat, ops: seq<Op<T>>,
                       more: seq<Op<T>>, ok: bool)
    requires i < |keys| && keys[i] in eofs
    requires SendEOFs(to, me, eofs, keys) == ops + SendEOFs(to, me, eofs, keys[i..])
    requires Performed(more, [Send(Packet(to, EofArrived(me, keys[i], eofs[keys[i]])))], ok)
    ensures ops + more <= SendEOFs(to, me, eofs, keys)
    ensures ok ==> SendEOFs(to, me, eofs, keys) == ops + more + SendEOFs(to, me, eofs, keys[i + 1..])
  {
    assert keys[i..][1..] == keys[i + 1..];
    assert SendEOFs<T>(to, me, eofs, keys[i..]) ==
           [Send(Packet(to, EofArrived(me, keys[i], eofs[keys[i]])))] + SendEOFs(to, me, eofs, keys[i + 1..]);
  }

  lemma {:induction false} SendChunksGrows<T>(to: seq<nat>, me: nat, a: seq<seq<BatchRecord>>, b: seq<seq<BatchRecord>>)
    requires a <= b
    ensures SendChunks<T>(to, me, a) <= SendChunks(to, me, b)
  {
    if a != b {
      SendChunksGrows<T>(to, me, a, b[..|b| - 1]);
    }
  }

  lemma CutNone<T>(to: seq<nat>, me: nat, items: seq<BatchRecord>, max: nat, sizer: BatchRecord -> nat)
    ensures CutUpto(items, 0, max, sizer) == Chunks.Cut([], []) && SendChunks<T>(to, me, []) == []
  {
  }

  lemma CutDone<T>(to: seq<nat>, me: nat, items: seq<BatchRecord>, max: nat, sizer: BatchRecord -> nat)
    ensures CutUpto(items, |items|, max, sizer) == Chunks.AddAll(items, max, sizer)
    ensures SendChunks<T>(to, me, Chunks.AddAll(items, max, sizer).batches) <=
              SendChunks(to, me, Chunks.BatchesOf(items, max, sizer))
  {
    CutUptoIsAddAll(items, |items|, max, sizer);
    assert items[..|items|] == items;
    Chunks.CutGrows(items, |items|, max, sizer);
    SendChunksGrows<T>(to, me, Chunks.AddAll(items, max, sizer).batches, Chunks.BatchesOf(items, max, sizer));
  }

  // ---- What was performed for whom ----

  ghost function TraceIn<T>(trace: map<string, seq<Op<T>>>, c: string): seq<Op<T>> { if c in trace then trace[c] else [] }

  ghost predicate DidIn<T>(before: map<string, seq<Op<T>>>, after: map<string, seq<Op<T>>>, c: string, ops: seq<Op<T>>) {
    && TraceIn(after, c) == TraceIn(before, c) + ops
    && forall d :: d != c ==> TraceIn(after, d) == TraceIn(before, d)
  }

  ghost predicate DidAllIn<T>(before: map<string, seq<Op<T>>>, after: map<string, seq<Op<T>>>, ops: map<string, seq<Op<T>>>) {
    forall c :: TraceIn(after, c) == TraceIn(before, c) + TraceIn(ops, c)
  }

  lemma Booked<T>(t: map<string, seq<Op<T>>>, c: string, op: Op<T>)
    ensures DidIn(t, t[c := TraceIn(t, c) + [op]], c, [op])
  {
  }

  lemma DidBoth<T>(t0: map<string, seq<Op<T>>>, t1: map<string, seq<Op<T>>>, t2: map<string, seq<Op<T>>>, c: string,
                   a: seq<Op<T>>, b: seq<Op<T>>)
    requires DidIn(t0, t1, c, a) && DidIn(t1, t2, c, b)
    ensures DidIn(t0, t2, c, a + b)
  {
  }

  lemma DidAfterNothing<T>(t0: map<string, seq<Op<T>>>, t1: map<string, seq<Op<T>>>, t2: map<string, seq<Op<T>>>, c: string,
                           ops: seq<Op<T>>)
    requires DidIn(t0, t1, c, []) && DidIn(t1, t2, c, ops)
    ensures DidIn(t0, t2, c, ops)
  {
  }

  lemma OneKeyLess(all: set<string>, left: set<string>, c: string)
    requires left <= all && c in left
    ensures all - (left - {c}) == (all - left) + {c}
  {
  }

  lemma DidOneMore<T>(t0: map<string, seq<Op<T>>>, t1: map<string, seq<Op<T>>>, t2: map<string, seq<Op<T>>>,
                      ops: map<string, seq<Op<T>>>, c: string, more: seq<Op<T>>)
    requires DidAllIn(t0, t1, ops) && DidIn(t1, t2, c, more) && c !in ops
    ensures DidAllIn(t0, t2, ops[c := more])
  {
    forall d ensures TraceIn(t2, d) == TraceIn(t0, d) + TraceIn(ops[c := more], d) {
      assert TraceIn(t1, d) == TraceIn(t0, d) + TraceIn(ops, d);
    }
  }

  class EOFCoordinator<T(!new)> {
    const me: nat
    const cfg: Config
    const publishKeys: seq<nat>
    var clients: map<string, ClientState>
    var cleanedClients: set<string>
    // The contents of batches.log, eofs.log and flushed.log.
    var batchesFile: map<string, map<string, BatchRecord>>
    var eofsFile: map<string, map<string, nat>>
    var flushedFile: set<string>
    // What each client started from, and every operation performed for it since.
    ghost var base: map<string, (ClientView, Disk)>
    ghost var trace: map<string, seq<Op<T>>>
    ghost var Repr: set<object>

    ghost function View(c: string): ClientView
      reads this, Repr
      requires c in clients ==> clients[c] in Repr
    {
      if c in clients then clients[c].View() else EMPTY_VIEW
    }

    function DiskOf(c: string): Disk
      reads this`batchesFile, this`eofsFile, this`flushedFile
    {
      Disk(if c in batchesFile then batchesFile[c] else map[],
           if c in eofsFile then eofsFile[c] else map[],
           c in flushedFile)
    }

    ghost function Base(c: string): (ClientView, Disk)
      reads this
    {
      if c in base then base[c] else (EMPTY_VIEW, EMPTY_DISK)
    }

    ghost function Trace(c: string): seq<Op<T>>
      reads this
    {
      TraceIn(trace, c)
    }

    ghost predicate Shape()
      reads this, Repr
    {
      && this in Repr && cfg.maxWeight > 0 && publishKeys == Others(me, cfg.workers)
      && (forall c :: c in clients ==> clients[c] in Repr)
      && (forall c, d :: c in clients && d in clients && c != d ==> clients[c] != clients[d])
    }

    // Memory and disk are what the operations make of what the client started from.
    ghost predicate Consistent(c: string)
      reads this, Repr
      requires Shape()
    {
      && View(c) == MemAfter(Base(c).0, Trace(c))
      && DiskOf(c) == DiskAfter(Base(c).1, Trace(c))
    }

    ghost predicate Valid()
      reads this, Repr
    {
      Shape() && forall c :: Consistent(c)
    }

    // ops were performed for c, and nothing for anyone else.
    twostate predicate Did(c: string, new ops: seq<Op<T>>)
      reads this
    {
      && DidIn(old(trace), trace, c, ops)
      && base == old(base) && cleanedClients == old(cleanedClients)
    }

    // What the operations did to the client's memory and disk.
    twostate lemma Effect(c: string, new ops: seq<Op<T>>)
      requires old(Valid()) && Valid() && Did(c, ops)
      ensures View(c) == MemAfter(old(View(c)), ops) && DiskOf(c) == DiskAfter(old(DiskOf(c)), ops)
      ensures forall d :: d != c ==> View(d) == old(View(d)) && DiskOf(d) == old(DiskOf(d))
    {
      assert Consistent(c) && old(Consistent(c));
      MemAfterConcat(Base(c).0, old(Trace(c)), ops);
      DiskAfterConcat(Base(c).1, old(Trace(c)), ops);
      forall d | d != c ensures View(d) == old(View(d)) && DiskOf(d) == old(DiskOf(d)) {
        assert Consistent(d) && old(Consistent(d));
      }
    }

    // The object holds for the client what the replica of the group does.
    ghost predicate Is(c: string, r: ReplicaGroup.Replica)
      reads this, Repr
      requires Shape()
    {
      View(c) == r.mem && DiskOf(c) == r.disk
    }

    // An object that is its worker in the group still is after the step that it performed.
    twostate lemma StepsAlong(c: string, t: ReplicaGroup.Truth<T>, s: ReplicaGroup.System<T>, e: ReplicaGroup.Event,
                              o: Orders, new ops: seq<Op<T>>, ok: bool)
      requires old(Valid()) && Valid() && Did(c, ops)
      requires ReplicaGroup.Occurs(t, s, e) && ReplicaGroup.WorkerOf(e) == me && !e.DataArrives?
      requires ValidOrders(ReplicaGroup.Knowing(t, s, e), o)
      requires old(Is(c, s.replicas[me])) && Performed(ops, ReplicaGroup.Handler(t, cfg, s, e, o), ok)
      ensures var step := ReplicaGroup.Handle(e, o, |ops|, if ok then ReplicaGroup.Done else ReplicaGroup.Failed);
              && ReplicaGroup.Enabled(t, cfg, s, step)
              && Is(c, ReplicaGroup.Next(t, cfg, s, step).replicas[me])
    {
      PerformedIsStep(t, cfg, s, e, o, ops, ok);
      Effect(c, ops);
    }

    // ---- Elementary operations ----

    // Books an operation whose effect on memory and disk has just taken place.
    ghost method Note(c: string, op: Op<T>)
      requires Shape() && (forall d :: d != c ==> Consistent(d))
      requires View(c) == MemOp(MemAfter(Base(c).0, Trace(c)), op)
      requires DiskOf(c) == DiskOp(DiskAfter(Base(c).1, Trace(c)), op)
      modifies this`trace
      ensures Valid() && Did(c, [op])
    {
      OneMore(Base(c).0, Base(c).1, Trace(c), op);
      Booked(trace, c, op);
      trace := trace[c := Trace(c) + [op]];
      Unmoved(c);
      assert Consistent(c);
    }

    twostate lemma Unmoved(c: string)
      requires old(Shape()) && Shape() && old(Repr) == Repr && old(base) == base && old(clients) == clients
      requires old(batchesFile) == batchesFile && old(eofsFile) == eofsFile && old(flushedFile) == flushedFile
      requires forall o :: o in Repr && o != this ==> unchanged(o)
      requires forall d :: d != c ==> old(Consistent(d)) && Trace(d) == old(Trace(d))
      ensures forall d :: d != c ==> Consistent(d)
      ensures View(c) == old(View(c)) && DiskOf(c) == old(DiskOf(c)) && Base(c) == old(Base(c))
    {
      forall d | d != c ensures Consistent(d) {
        assert old(Consistent(d));
        assert View(d) == old(View(d));
      }
    }

    method SendWithKey(c: string, packet: Packet) returns (ok: bool, ghost ops: seq<Op<T>>)
      requires Valid()
      modifies this`trace
      ensures Valid() && Did(c, ops) && Performed(ops, [Send(packet)], ok)
    {
      assert Consistent(c);
      ops := [];
      var sent: bool := *;
      if sent {
        Note(c, Send(packet));
        ops := [Send(packet)];
      }
      var failed: bool := *;
      ok := sent && !failed;
    }

    method WriteBatch(c: string, record: BatchRecord) returns (ok: bool, ghost ops: seq<Op<T>>)
      requires Valid()
      modifies this`trace, this`batchesFile
      ensures Valid() && Did(c, ops) && Performed(ops, [EofProtocol.WriteBatch(record)], ok)
    {
      assert Consistent(c);
      ops := [];
      var written: bool := *;
      if written {
        batchesFile := batchesFile[c := (if c in batchesFile then batchesFile[c] else map[])[record.batchID := record]];
        forall d | d != c ensures Consistent(d) {
          assert old(Consistent(d));
        }
        Note(c, EofProtocol.WriteBatch(record));
        ops := [EofProtocol.WriteBatch(record)];
      }
      var failed: bool := *;
      ok := written && !failed;
    }

    method WriteEOF(c: string, eofID: string, expectedTotal: nat) returns (ok: bool, ghost ops: seq<Op<T>>)
      requires Valid()
      modifies this`trace, this`eofsFile
      ensures Valid() && Did(c, ops) && Performed(ops, [EofProtocol.WriteEOF(eofID, expectedTotal)], ok)
    {
      assert Consistent(c);
      ops := [];
      var written: bool := *;
      if written {
        var eofs: map<string, nat> := (if c in eofsFile then eofsFile[c] else map[])[eofID := expectedTotal];
        eofsFile := eofsFile[c := eofs];
        forall d | d != c ensures Consistent(d) {
          assert old(Consistent(d));
        }
        Note(c, EofProtocol.WriteEOF(eofID, expectedTotal));
        ops := [EofProtocol.WriteEOF(eofID, expectedTotal)];
      }
      var failed: bool := *;
      ok := written && !failed;
    }

    method WriteFlushed(c: string) returns (ok: bool, ghost ops: seq<Op<T>>)
      requires Valid()
      modifies this`trace, this`flushedFile
      ensures Valid() && Did(c, ops) && Performed(ops, [EofProtocol.WriteFlushed], ok)
    {
      assert Consistent(c);
      ops := [];
      var written: bool := *;
      if written {
        flushedFile := flushedFile + {c};
        forall d | d != c ensures Consistent(d) {
          assert old(Consistent(d));
        }
        Note(c, EofProtocol.WriteFlushed);
        ops := [EofProtocol.WriteFlushed];
      }
      var failed: bool := *;
      ok := written && !failed;
    }

    // The handler has been called, whether it then fails or not.
    method FlushHandler(c: string, survivors: nat, eofID: string) returns (ok: bool, ghost ops: seq<Op<T>>)
      requires Valid()
      modifies this`trace
      ensures Valid() && Did(c, ops) && Performed(ops, [CallFlush(survivors, eofID, KnownBatches(old(View(c))))], ok)
    {
      assert Consistent(c);
      Note(c, CallFlush(survivors, eofID, KnownBatches(View(c))));
      ops := [CallFlush(survivors, eofID, KnownBatches(old(View(c))))];
      ok := *;
    }

    method GetClientState(c: string) returns (state: ClientState)
      requires Valid()
      modifies this`clients, this`Repr
      ensures Valid() && fresh(Repr - old(Repr)) && Did(c, [])
      ensures c in clients && clients[c] == state && (c in old(clients) ==> state == old(clients[c]))
      ensures View(c) == old(View(c)) && clients.Keys == old(clients.Keys) + {c}
    {
      state := StateFor(c);
      forall d ensures Consistent(d) {
        assert old(Consistent(d));
      }
    }

    method StateFor(c: string) returns (state: ClientState)
      requires Shape()
      modifies this`clients, this`Repr
      ensures Shape() && fresh(Repr - old(Repr)) && old(Repr) <= Repr
      ensures c in clients && clients[c] == state && (c in old(clients) ==> state == old(clients[c]))
      ensures clients.Keys == old(clients.Keys) + {c} && forall d :: View(d) == old(View(d))
    {
      if c in clients {
        return clients[c];
      }
      state := new ClientState();
      clients := clients[c := state];
      Repr := Repr + {state};
    }

    // ---- Memory operations ----

    method AddOwnBatch(c: string, record: BatchRecord)
      requires Valid() && c in clients
      modifies clients[c], this`trace
      ensures Valid() && Did(c, [EofProtocol.AddOwnBatch(record)])
      ensures View(c) == MemOp<T>(old(View(c)), EofProtocol.AddOwnBatch(record))
    {
      assert Consistent(c);
      clients[c].AddOwnBatch(record);
      Remembered(c);
      Note(c, EofProtocol.AddOwnBatch(record));
    }

    method AddPeerBatch(c: string, peer: nat, record: BatchRecord)
      requires Valid() && c in clients
      modifies clients[c], this`trace
      ensures Valid() && Did(c, [EofProtocol.AddPeerBatch(peer, record)])
      ensures View(c) == MemOp<T>(old(View(c)), EofProtocol.AddPeerBatch(peer, record))
    {
      assert Consistent(c);
      clients[c].AddPeerBatch(peer, record);
      Remembered(c);
      Note(c, EofProtocol.AddPeerBatch(peer, record));
    }

    method AddOwnEOF(c: string, eofID: string, expectedTotal: nat)
      requires Valid() && c in clients
      modifies clients[c], this`trace
      ensures Valid() && Did(c, [EofProtocol.AddOwnEOF(eofID, expectedTotal)])
      ensures View(c) == MemOp<T>(old(View(c)), EofProtocol.AddOwnEOF(eofID, expectedTotal))
    {
      assert Consistent(c);
      clients[c].AddOwnEOF(eofID, expectedTotal);
      Remembered(c);
      Note(c, EofProtocol.AddOwnEOF(eofID, expectedTotal));
    }

    method AddPeerEOF(c: string, peer: nat, eofID: string, expectedTotal: nat)
      requires Valid() && c in clients
      modifies clients[c], this`trace
      ensures Valid() && Did(c, [EofProtocol.AddPeerEOF(peer, eofID, expectedTotal)])
      ensures View(c) == MemOp<T>(old(View(c)), EofProtocol.AddPeerEOF(peer, eofID, expectedTotal))
    {
      assert Consistent(c);
      clients[c].AddPeerEOF(peer, eofID, expectedTotal);
      Remembered(c);
      Note(c, EofProtocol.AddPeerEOF(peer, eofID, expectedTotal));
    }

    method SetFlushed(c: string)
      requires Valid() && c in clients
      modifies clients[c], this`trace
      ensures Valid() && Did(c, [EofProtocol.SetFlushed])
      ensures View(c) == MemOp<T>(old(View(c)), EofProtocol.SetFlushed)
    {
      assert Consistent(c);
      clients[c].flushed := true;
      Remembered(c);
      Note(c, EofProtocol.SetFlushed);
    }

    // A change of one client's state is a change for that client only.
    twostate lemma Remembered(c: string)
      requires old(Valid()) && c in clients && unchanged(this) && (forall d :: d in clients && d != c ==> unchanged(clients[d]))
      ensures Shape() && forall d :: d != c ==> Consistent(d)
    {
      forall d | d != c ensures Consistent(d) {
        assert old(Consistent(d));
      }
    }

    // ---- Pieces of handlers ----

    method SendTo(c: string, to: seq<nat>, msg: Msg) returns (ok: bool, ghost ops: seq<Op<T>>)
      requires Valid()
      modifies this`trace
      ensures Valid() && Did(c, ops) && Performed(ops, SendAll(to, msg), ok)
    {
      ops := [];
      ok := true;
      for i := 0 to |to|
        invariant Valid() && Did(c, ops)
        invariant SendAll(to, msg) == ops + SendAll(to[i..], msg)
      {
        ghost var more;
        ghost var mid := trace;
        ok, more := SendWithKey(c, Packet(to[i], msg));
        DidBoth(old(trace), mid, trace, c, ops, more);
        SendStep(to, i, msg, ops, more, ok);
        ops := ops + more;
        if !ok { return; }
      }
    }

    // The own batches go out in messages of bounded weight; each message that the batcher hands
    // over is sent at once.
    method ShareOwnBatches(c: string, to: seq<nat>) returns (ok: bool, ghost ops: seq<Op<T>>, ghost order: seq<string>)
      requires Valid() && c in clients
      modifies this`trace
      ensures Valid() && Did(c, ops) && Enumerates(order, old(View(c)).ownBatches.Keys)
      ensures Performed(ops, ShareOwn(cfg, me, old(View(c)), order, to), ok)
    {
      var own := clients[c].ownBatches;
      var keys := AnyOrder(own.Keys);
      order := keys;
      ok, ops := ShareInOrder(c, to, own, keys);
    }

    method ShareInOrder(c: string, to: seq<nat>, own: map<string, BatchRecord>, keys: seq<string>)
      returns (ok: bool, ghost ops: seq<Op<T>>)
      requires Valid() && Enumerates(keys, own.Keys)
      modifies this`trace
      ensures Valid() && Did(c, ops)
      ensures Performed(ops, SendChunks(to, me, Chunks.BatchesOf(RecordsIn(own, keys), cfg.maxWeight, cfg.sizer)), ok)
    {
      ghost var records := RecordsIn(own, keys);
      RecordsInOrder(own, keys);
      var batch := new Batching.Batch<BatchRecord>(cfg.maxWeight, cfg.sizer);
      var batcher := new Batching.Batcher<BatchRecord>(batch);
      ok, ops := PackEach(c, to, batcher, own, keys, records);
      if !ok { return; }
      ghost var mid, sent := trace, ops;
      ghost var more;
      ok, more := PackRest(c, to, batcher, sent, Chunks.AddAll(records, cfg.maxWeight, cfg.sizer),
                           Chunks.BatchesOf(records, cfg.maxWeight, cfg.sizer));
      DidBoth(old(trace), mid, trace, c, sent, more);
      ops := sent + more;
    }

    method PackEach(c: string, to: seq<nat>, batcher: Batching.Batcher<BatchRecord>, own: map<string, BatchRecord>,
                    keys: seq<string>, ghost records: seq<BatchRecord>)
      returns (ok: bool, ghost ops: seq<Op<T>>)
      requires Valid() && batcher.Valid() && batcher.Repr !! Repr
      requires Mirrors(batcher.View(), Chunks.Cut([], []))
      requires batcher.batch.maxWeight == cfg.maxWeight && batcher.batch.sizer == cfg.sizer
      requires |records| == |keys| && forall i :: 0 <= i < |keys| ==> keys[i] in own && own[keys[i]] == records[i]
      modifies this`trace, batcher.Repr
      ensures Valid() && Did(c, ops)
      ensures batcher.Valid() && fresh(batcher.Repr - old(batcher.Repr))
      ensures ops <= SendChunks(to, me, Chunks.BatchesOf(records, cfg.maxWeight, cfg.sizer))
      ensures ok ==> Packing(batcher.View(), ops, to, Chunks.AddAll(records, cfg.maxWeight, cfg.sizer))
    {
      ops, ok := [], true;
      CutNone<T>(to, me, records, cfg.maxWeight, cfg.sizer);
      for i := 0 to |keys|
        invariant Valid() && Did(c, ops)
        invariant batcher.Valid() && fresh(batcher.Repr - old(batcher.Repr))
        invariant Packing(batcher.View(), ops, to, CutUpto(records, i, cfg.maxWeight, cfg.sizer))
      {
        ghost var mid, sent, more := trace, ops, [];
        ok, more := PackNext(c, to, batcher, own[keys[i]], records, i, sent);
        DidBoth(old(trace), mid, trace, c, sent, more);
        ops := sent + more;
        if !ok { return; }
      }
      CutDone<T>(to, me, records, cfg.maxWeight, cfg.sizer);
    }

    // What the batcher handed over has been sent.
    ghost predicate Packing(v: Batching.BatcherView<BatchRecord>, ops: seq<Op<T>>, to: seq<nat>, cut: Chunks.Cut<BatchRecord>) {
      Mirrors(v, cut) && ops == SendChunks(to, me, cut.batches)
    }

    method PackNext(c: string, to: seq<nat>, batcher: Batching.Batcher<BatchRecord>, record: BatchRecord,
                    ghost records: seq<BatchRecord>, ghost i: nat, ghost before: seq<Op<T>>)
      returns (ok: bool, ghost more: seq<Op<T>>)
      requires Valid() && batcher.Valid() && batcher.Repr !! Repr && i < |records| && records[i] == record
      requires Packing(batcher.View(), before, to, CutUpto(records, i, cfg.maxWeight, cfg.sizer))
      requires batcher.batch.maxWeight == cfg.maxWeight && batcher.batch.sizer == cfg.sizer
      modifies this`trace, batcher.Repr
      ensures Valid() && Did(c, more) && before + more <= SendChunks(to, me, Chunks.BatchesOf(records, cfg.maxWeight, cfg.sizer))
      ensures batcher.Valid() && fresh(batcher.Repr - old(batcher.Repr))
      ensures ok ==> Packing(batcher.View(), before + more, to, CutUpto(records, i + 1, cfg.maxWeight, cfg.sizer))
    {
      CutNext(records, i, cfg.maxWeight, cfg.sizer);
      ok, more := Pack(c, to, batcher, record, before, CutUpto(records, i, cfg.maxWeight, cfg.sizer),
                       Chunks.BatchesOf(records, cfg.maxWeight, cfg.sizer));
    }

    // One record more for the batcher, and the message that this may make it hand over.
    method Pack(c: string, to: seq<nat>, batcher: Batching.Batcher<BatchRecord>, record: BatchRecord,
                ghost before: seq<Op<T>>, ghost cut: Chunks.Cut<BatchRecord>, ghost all: seq<seq<BatchRecord>>)
      returns (ok: bool, ghost more: seq<Op<T>>)
      requires Valid() && batcher.Valid() && batcher.Repr !! Repr && Packing(batcher.View(), before, to, cut)
      requires batcher.batch.maxWeight == cfg.maxWeight && batcher.batch.sizer == cfg.sizer
      requires Chunks.AddItem(cut, record, cfg.maxWeight, cfg.sizer).batches <= all
      modifies this`trace, batcher.Repr
      ensures Valid() && Did(c, more) && before + more <= SendChunks(to, me, all)
      ensures batcher.Valid() && fresh(batcher.Repr - old(batcher.Repr))
      ensures ok ==> Packing(batcher.View(), before + more, to, Chunks.AddItem(cut, record, cfg.maxWeight, cfg.sizer))
    {
      var sent := |batcher.published|;
      MirrorsAdd(batcher.View(), cut, record, cfg.maxWeight, cfg.sizer);
      ok := batcher.Add(record);
      more := [];
      if ok && sent < |batcher.published| {
        ok, more := SendNext(c, to, batcher.published[sent].items, before, cut.batches, all);
      } else {
        SendChunksGrows<T>(to, me, cut.batches, all);
        assert before + [] == before;
      }
    }

    method PackRest(c: string, to: seq<nat>, batcher: Batching.Batcher<BatchRecord>,
                    ghost before: seq<Op<T>>, ghost cut: Chunks.Cut<BatchRecord>, ghost all: seq<seq<BatchRecord>>)
      returns (ok: bool, ghost more: seq<Op<T>>)
      requires Valid() && batcher.Valid() && batcher.Repr !! Repr && Packing(batcher.View(), before, to, cut)
      requires batcher.batch.sizer == cfg.sizer && all == Chunks.FlushHeld(cut, cfg.sizer)
      modifies this`trace, batcher.Repr
      ensures Valid() && Did(c, more) && Performed(before + more, SendChunks(to, me, all), ok)
    {
      var sent := |batcher.published|;
      MirrorsFlush(batcher.View(), cut, cfg.sizer);
      ok := batcher.Flush();
      more := [];
      if ok && sent < |batcher.published| {
        ok, more := SendNext(c, to, batcher.published[sent].items, before, cut.batches, all);
      } else {
        HeldBack(to, before, cut.batches, all, cfg.sizer, cut.held);
      }
    }

    lemma HeldBack(to: seq<nat>, before: seq<Op<T>>, batches: seq<seq<BatchRecord>>, all: seq<seq<BatchRecord>>,
                   sizer: BatchRecord -> nat, held: seq<BatchRecord>)
      requires before == SendChunks(to, me, batches) && all == Chunks.FlushHeld(Chunks.Cut(batches, held), sizer)
      ensures before + [] <= SendChunks(to, me, all)
    {
      SendChunksGrows<T>(to, me, batches, all);
      assert before + [] == before;
    }

    // One more message of the packing; done are those sent before.
    method SendNext(c: string, to: seq<nat>, chunk: seq<BatchRecord>, ghost before: seq<Op<T>>,
                    ghost done: seq<seq<BatchRecord>>, ghost all: seq<seq<BatchRecord>>)
      returns (ok: bool, ghost more: seq<Op<T>>)
      requires Valid() && done + [chunk] <= all && before == SendChunks(to, me, done)
      modifies this`trace
      ensures Valid() && Did(c, more) && before + more <= SendChunks(to, me, all)
      ensures ok ==> before + more == SendChunks(to, me, done + [chunk])
    {
      ok, more := SendTo(c, to, BatchInfo(me, chunk));
      assert (done + [chunk])[..|done|] == done;
      SendChunksGrows<T>(to, me, done + [chunk], all);
      PerformedThen(before, more, SendAll(to, BatchInfo(me, chunk)), ok);
    }

    // The flush handler is called, and then the flush is remembered.
    method Flush(c: string, survivors: nat) returns (ok: bool, ghost ops: seq<Op<T>>)
      requires Valid() && c in clients
      modifies clients[c], this`trace, this`flushedFile
      ensures Valid() && Did(c, ops)
      ensures var v := old(View(c));
              Performed(ops, [CallFlush(survivors, v.lastEOFID, KnownBatches(v)), EofProtocol.SetFlushed,
                              EofProtocol.WriteFlushed], ok)
    {
      ok, ops := FlushHandler(c, survivors, clients[c].lastEOFID);
      if !ok { return; }
      SetFlushed(c);
      ops := ops + [EofProtocol.SetFlushed];
      ghost var more;
      ok, more := WriteFlushed(c);
      ops := ops + more;
    }

    method TryFlush(c: string, ghost o: Orders) returns (ok: bool, ghost ops: seq<Op<T>>, ghost o': Orders)
      requires Valid() && c in clients && ValidOrders(View(c), o)
      modifies clients[c], this`trace, this`flushedFile
      ensures Valid() && Did(c, ops)
      ensures ValidOrders(old(View(c)), o') && o'.eofs == o.eofs && o'.batches == o.batches
      ensures Performed(ops, EofProtocol.TryFlush(cfg, old(View(c)), o'), ok)
    {
      var state := clients[c];
      var _, totalSurvivors, peers := state.Totals();
      var ready;
      ready, o' := state.IsReadyToFlush(cfg.expected, o.(survivors := peers));
      if !ready { return true, [], o'; }
      ok, ops := Flush(c, totalSurvivors);
    }

    // ---- Handlers ----

    method RecordBatch(c: string, batchID: string, processed: nat, survivors: nat)
      returns (ok: bool, ghost ops: seq<Op<T>>, ghost o: Orders)
      requires Valid()
      modifies Repr
      ensures Valid() && fresh(Repr - old(Repr)) && Did(c, ops)
      ensures var record := BatchRecord(batchID, processed, survivors);
              && ValidOrders(MemOp<T>(old(View(c)), EofProtocol.AddOwnBatch(record)), o)
              && Performed(ops, EofProtocol.RecordBatch(cfg, me, old(View(c)), record, o), ok)
    {
      var state := GetClientState(c);
      if state.HasOwnBatch(batchID) {
        return true, [], AnyOrders(MemOp<T>(View(c), EofProtocol.AddOwnBatch(BatchRecord(batchID, processed, survivors))));
      }
      ok, ops, o := RecordNew(c, BatchRecord(batchID, processed, survivors));
    }

    method RecordNew(c: string, record: BatchRecord) returns (ok: bool, ghost ops: seq<Op<T>>, ghost o: Orders)
      requires Valid() && c in clients
      modifies clients[c], this`trace, this`batchesFile, this`flushedFile
      ensures Valid() && Did(c, ops)
      ensures ValidOrders(MemOp<T>(old(View(c)), EofProtocol.AddOwnBatch(record)), o)
      ensures Performed(ops, Sharing(old(View(c)), record) + Keeping(record)
                             + EofProtocol.TryFlush(cfg, MemOp<T>(old(View(c)), EofProtocol.AddOwnBatch(record)), o), ok)
    {
      ghost var v := View(c);
      ghost var v' := MemOp<T>(v, EofProtocol.AddOwnBatch(record));
      o := AnyOrders(v');
      ghost var kept, flushed := [], [];
      ok, ops := ShareRecord(c, record);
      if !ok {
        InTurn(ops, Sharing(v, record), false, [], Keeping(record), false, [], EofProtocol.TryFlush(cfg, v', o), false);
        return;
      }
      ghost var mid := trace;
      ok, kept := KeepRecord(c, record);
      DidBoth(old(trace), mid, trace, c, ops, kept);
      ops := ops + kept;
      if !ok {
        InTurn(Sharing(v, record), Sharing(v, record), true, kept, Keeping(record), false,
               [], EofProtocol.TryFlush(cfg, v', o), false);
        return;
      }
      mid := trace;
      ok, flushed, o := TryFlush(c, o);
      DidBoth(old(trace), mid, trace, c, ops, flushed);
      ops := ops + flushed;
      InTurn(Sharing(v, record), Sharing(v, record), true, Keeping(record), Keeping(record), true,
             flushed, EofProtocol.TryFlush(cfg, v', o), ok);
    }

    ghost function Sharing(v: ClientView, record: BatchRecord): seq<Op<T>> {
      if EofProtocol.HasAllEOFs(v, cfg.expected) then Broadcast(cfg, me, BatchInfo(me, [record])) else []
    }

    ghost function Keeping(record: BatchRecord): seq<Op<T>> {
      [EofProtocol.WriteBatch(record), EofProtocol.AddOwnBatch(record)]
    }

    // The record is shared at once only when every EOF is known.
    method ShareRecord(c: string, record: BatchRecord) returns (ok: bool, ghost ops: seq<Op<T>>)
      requires Valid() && c in clients
      modifies this`trace
      ensures Valid() && Did(c, ops) && View(c) == old(View(c))
      ensures Performed(ops, Sharing(old(View(c)), record), ok)
    {
      var shouldBroadcast := clients[c].HasAllEOFs(cfg.expected);
      if !shouldBroadcast { return true, []; }
      ok, ops := SendTo(c, publishKeys, BatchInfo(me, [record]));
    }

    // First on disk, then in memory.
    method KeepRecord(c: string, record: BatchRecord) returns (ok: bool, ghost ops: seq<Op<T>>)
      requires Valid() && c in clients
      modifies clients[c], this`trace, this`batchesFile
      ensures Valid() && Did(c, ops)
      ensures Performed(ops, Keeping(record), ok)
      ensures ok ==> View(c) == MemOp<T>(old(View(c)), EofProtocol.AddOwnBatch(record))
    {
      ok, ops := WriteBatch(c, record);
      if !ok { return; }
      AddOwnBatch(c, record);
      ops := ops + [EofProtocol.AddOwnBatch(record)];
    }

    method HandleLocalEOF(c: string, expectedTotal: nat, eofID: string)
      returns (ok: bool, ghost ops: seq<Op<T>>, ghost o: Orders)
      requires Valid()
      modifies Repr
      ensures Valid() && fresh(Repr - old(Repr)) && Did(c, ops)
      ensures ValidOrders(MemOp<T>(old(View(c)), EofProtocol.AddOwnEOF(eofID, expectedTotal)), o)
      ensures Performed(ops, LocalEOF(cfg, me, old(View(c)), eofID, expectedTotal, o), ok)
    {
      var state := GetClientState(c);
      if state.HasOwnEOF(eofID) {
        return true, [], AnyOrders(MemOp<T>(View(c), EofProtocol.AddOwnEOF(eofID, expectedTotal)));
      }
      ghost var v := View(c);
      ok, ops, o := NewLocalEOF(c, expectedTotal, eofID);
      LocalEOFParts(v, eofID, expectedTotal, o);
    }

    lemma LocalEOFParts(v: ClientView, e: string, n: nat, o: Orders)
      requires e !in v.ownEOFs
      ensures LocalEOF(cfg, me, v, e, n, o) ==
                KeepingEOF(e, n) + SendAll(Others(me, cfg.workers), EofArrived(me, e, n))
                + ShareThenFlush(MemOp<T>(v, EofProtocol.AddOwnEOF(e, n)), o)
    {
    }

    method NewLocalEOF(c: string, expectedTotal: nat, eofID: string)
      returns (ok: bool, ghost ops: seq<Op<T>>, ghost o: Orders)
      requires Valid() && c in clients
      modifies clients[c], this`trace, this`eofsFile, this`flushedFile
      ensures Valid() && Did(c, ops)
      ensures ValidOrders(MemOp<T>(old(View(c)), EofProtocol.AddOwnEOF(eofID, expectedTotal)), o)
      ensures Performed(ops, KeepingEOF(eofID, expectedTotal) + SendAll(publishKeys, EofArrived(me, eofID, expectedTotal))
                             + ShareThenFlush(MemOp<T>(old(View(c)), EofProtocol.AddOwnEOF(eofID, expectedTotal)), o), ok)
    {
      ghost var v' := MemOp<T>(View(c), EofProtocol.AddOwnEOF(eofID, expectedTotal));
      ghost var first := KeepingEOF(eofID, expectedTotal);
      ghost var sending: seq<Op<T>> := SendAll(publishKeys, EofArrived(me, eofID, expectedTotal));
      o := AnyOrders(v');
      ghost var sent, rest := [], [];
      ok, ops := KeepEOF(c, expectedTotal, eofID);
      if !ok {
        InTurn(ops, first, false, [], sending, false, [], ShareThenFlush(v', o), false);
        return;
      }
      ghost var mid := trace;
      ok, sent := SendTo(c, publishKeys, EofArrived(me, eofID, expectedTotal));
      DidBoth(old(trace), mid, trace, c, ops, sent);
      ops := ops + sent;
      if !ok {
        InTurn(first, first, true, sent, sending, false, [], ShareThenFlush(v', o), false);
        return;
      }
      mid := trace;
      ok, rest, o := ShareAndFlush(c, o);
      DidBoth(old(trace), mid, trace, c, ops, rest);
      ops := ops + rest;
      InTurn(first, first, true, sending, sending, true, rest, ShareThenFlush(v', o), ok);
    }

    ghost function KeepingEOF(eofID: string, expectedTotal: nat): seq<Op<T>> {
      [EofProtocol.WriteEOF(eofID, expectedTotal), EofProtocol.AddOwnEOF(eofID, expectedTotal)]
    }

    method KeepEOF(c: string, expectedTotal: nat, eofID: string) returns (ok: bool, ghost ops: seq<Op<T>>)
      requires Valid() && c in clients
      modifies clients[c], this`trace, this`eofsFile
      ensures Valid() && Did(c, ops)
      ensures Performed(ops, KeepingEOF(eofID, expectedTotal), ok)
      ensures ok ==> View(c) == MemOp<T>(old(View(c)), EofProtocol.AddOwnEOF(eofID, expectedTotal))
    {
      ok, ops := WriteEOF(c, eofID, expectedTotal);
      if !ok { return; }
      AddOwnEOF(c, eofID, expectedTotal);
      ops := ops + [EofProtocol.AddOwnEOF(eofID, expectedTotal)];
    }

    method ShareIfComplete(c: string, ghost o: Orders) returns (ok: bool, ghost ops: seq<Op<T>>, ghost o': Orders)
      requires Valid() && c in clients && ValidOrders(View(c), o)
      modifies this`trace
      ensures Valid() && Did(c, ops) && ValidOrders(View(c), o') && View(c) == old(View(c))
      ensures Performed(ops, ShareWhenComplete(cfg, me, old(View(c)), o'), ok)
    {
      var all := clients[c].HasAllEOFs(cfg.expected);
      if !all { return true, [], o; }
      ghost var order;
      ok, ops, order := ShareOwnBatches(c, publishKeys);
      o' := o.(batches := order);
    }

    ghost function ShareThenFlush(v: ClientView, o: Orders): seq<Op<T>> {
      ShareWhenComplete(cfg, me, v, o) + EofProtocol.TryFlush(cfg, v, o)
    }

    // How every new EOF ends.
    method ShareAndFlush(c: string, ghost o: Orders) returns (ok: bool, ghost ops: seq<Op<T>>, ghost o': Orders)
      requires Valid() && c in clients && ValidOrders(View(c), o)
      modifies clients[c], this`trace, this`flushedFile
      ensures Valid() && Did(c, ops) && ValidOrders(old(View(c)), o')
      ensures Performed(ops, ShareThenFlush(old(View(c)), o'), ok)
    {
      ghost var v, flushed := View(c), [];
      ok, ops, o' := ShareIfComplete(c, o);
      if !ok {
        PerformedStop(ops, ShareWhenComplete(cfg, me, v, o'), EofProtocol.TryFlush(cfg, v, o'));
        return;
      }
      ghost var shared := ops;
      ghost var mid := trace;
      ok, flushed, o' := TryFlush(c, o');
      DidBoth(old(trace), mid, trace, c, shared, flushed);
      ops := shared + flushed;
      assert shared == ShareWhenComplete(cfg, me, v, o');
      PerformedThen(shared, flushed, EofProtocol.TryFlush(cfg, v, o'), ok);
    }

    // After a cleanup late messages of the client are dropped.
    method HandleRemoteEOF(c: string, peerID: nat, eofID: string, expectedTotal: nat)
      returns (ok: bool, ghost ops: seq<Op<T>>, ghost o: Orders)
      requires Valid()
      modifies Repr
      ensures Valid() && fresh(Repr - old(Repr)) && Did(c, ops)
      ensures ValidOrders(MemOp<T>(old(View(c)), EofProtocol.AddPeerEOF(peerID, eofID, expectedTotal)), o)
      ensures c in cleanedClients ==> ok && ops == []
      ensures c !in cleanedClients ==> Performed(ops, RemoteEOF(cfg, me, old(View(c)), peerID, eofID, expectedTotal, o), ok)
    {
      var state := GetClientState(c);
      o := AnyOrders(MemOp<T>(View(c), EofProtocol.AddPeerEOF(peerID, eofID, expectedTotal)));
      if c in cleanedClients { return true, [], o; }
      if state.HasPeerEOF(peerID, eofID) { return true, [], o; }
      ghost var v := View(c);
      ok, ops, o := NewRemoteEOF(c, peerID, eofID, expectedTotal, o);
      RemoteEOFParts(v, peerID, eofID, expectedTotal, o);
    }

    lemma RemoteEOFParts(v: ClientView, p: nat, e: string, n: nat, o: Orders)
      requires !(p in v.peerEOFs && e in v.peerEOFs[p])
      ensures RemoteEOF(cfg, me, v, p, e, n, o) ==
                [EofProtocol.AddPeerEOF(p, e, n)] + ShareThenFlush(MemOp<T>(v, EofProtocol.AddPeerEOF(p, e, n)), o)
    {
    }

    method NewRemoteEOF(c: string, peerID: nat, eofID: string, expectedTotal: nat, ghost o: Orders)
      returns (ok: bool, ghost ops: seq<Op<T>>, ghost o': Orders)
      requires Valid() && c in clients
      requires ValidOrders(MemOp<T>(View(c), EofProtocol.AddPeerEOF(peerID, eofID, expectedTotal)), o)
      modifies clients[c], this`trace, this`flushedFile
      ensures Valid() && Did(c, ops)
      ensures ValidOrders(MemOp<T>(old(View(c)), EofProtocol.AddPeerEOF(peerID, eofID, expectedTotal)), o')
      ensures var v' := MemOp<T>(old(View(c)), EofProtocol.AddPeerEOF(peerID, eofID, expectedTotal));
              Performed(ops, [EofProtocol.AddPeerEOF(peerID, eofID, expectedTotal)] + ShareThenFlush(v', o'), ok)
    {
      AddPeerEOF(c, peerID, eofID, expectedTotal);
      ghost var first, rest := [EofProtocol.AddPeerEOF(peerID, eofID, expectedTotal)], [];
      ghost var mid := trace;
      ok, rest, o' := ShareAndFlush(c, o);
      DidBoth(old(trace), mid, trace, c, first, rest);
      ops := first + rest;
    }

    method HandleRemoteBatch(c: string, peerID: nat, information: seq<BatchRecord>)
      returns (ok: bool, ghost ops: seq<Op<T>>, ghost o: Orders)
      requires Valid()
      modifies Repr
      ensures Valid() && fresh(Repr - old(Repr)) && Did(c, ops)
      ensures ValidOrders(MemAfter<T>(old(View(c)), Learn(old(View(c)), peerID, information)), o)
      ensures c in cleanedClients ==> ok && ops == []
      ensures c !in cleanedClients ==> Performed(ops, RemoteBatch(cfg, old(View(c)), peerID, information, o), ok)
    {
      ghost var v := View(c);
      o := AnyOrders(MemAfter<T>(v, Learn(v, peerID, information)));
      if c in cleanedClients { return true, [], o; }
      var state := GetClientState(c);
      ghost var learned := LearnRecords(c, peerID, information);
      ghost var flushed;
      ghost var mid := trace;
      ok, flushed, o := TryFlush(c, o);
      DidBoth(old(trace), mid, trace, c, learned, flushed);
      ops := learned + flushed;
      PerformedThen(learned, flushed, EofProtocol.TryFlush(cfg, MemAfter(v, learned), o), ok);
    }

    method LearnRecords(c: string, peerID: nat, information: seq<BatchRecord>) returns (ghost ops: seq<Op<T>>)
      requires Valid() && c in clients
      modifies clients[c], this`trace
      ensures Valid() && Did(c, ops)
      ensures ops == Learn(old(View(c)), peerID, information) && View(c) == MemAfter(old(View(c)), ops)
    {
      ops := [];
      for i := 0 to |information|
        invariant Valid() && Did(c, ops) && ops == Learn(old(View(c)), peerID, information[..i])
        invariant View(c) == MemAfter(old(View(c)), ops) && View(c).ownBatches == old(View(c)).ownBatches
      {
        LearnNext<T>(old(View(c)), peerID, information, i);
        ghost var mid := trace;
        ghost var more := LearnRecord(c, peerID, information[i]);
        DidBoth(old(trace), mid, trace, c, ops, more);
        MemAfterConcat(old(View(c)), ops, more);
        ops := ops + more;
      }
      assert information[..|information|] == information;
    }

    method LearnRecord(c: string, peerID: nat, record: BatchRecord) returns (ghost ops: seq<Op<T>>)
      requires Valid() && c in clients
      modifies clients[c], this`trace
      ensures Valid() && Did(c, ops) && ops == LearnOne(old(View(c)), peerID, record)
      ensures View(c) == MemAfter(old(View(c)), ops) && View(c).ownBatches == old(View(c)).ownBatches
    {
      ops := [];
      if clients[c].HasOwnBatch(record.batchID) { return; }
      AddPeerBatch(c, peerID, record);
      ops := [EofProtocol.AddPeerBatch(peerID, record)];
      OneOp<T>(old(View(c)), EMPTY_DISK, ops[0]);
    }

    // What a wake-up did for a client seen as v.
    ghost predicate Answered(v: ClientView, sender: nat, ops: seq<Op<T>>, o: Orders, ok: bool) {
      ValidOrders(v, o) && Performed(ops, AnswerWakeUp(cfg, me, v, sender, o), ok)
    }

    // The same for several clients; with ok nothing is missing.
    ghost predicate AllAnswered(views: map<string, ClientView>, sender: nat, ops: map<string, seq<Op<T>>>,
                                orders: map<string, Orders>, ok: bool) {
      && ops.Keys == orders.Keys <= views.Keys
      && forall c :: c in ops ==> Answered(views[c], sender, ops[c], orders[c], ok)
    }

    lemma OneMoreAnswered(views: map<string, ClientView>, sender: nat, ops: map<string, seq<Op<T>>>,
                          orders: map<string, Orders>, c: string, more: seq<Op<T>>, o: Orders, ok: bool)
      requires AllAnswered(views, sender, ops, orders, true) && c in views && Answered(views[c], sender, more, o, ok)
      ensures AllAnswered(views, sender, ops[c := more], orders[c := o], ok)
    {
      forall d | d in ops && d != c ensures Answered(views[d], sender, ops[d], orders[d], ok) {
        AnsweredAnyway(views[d], sender, ops[d], orders[d], ok);
      }
    }

    lemma AnsweredAnyway(v: ClientView, sender: nat, ops: seq<Op<T>>, o: Orders, ok: bool)
      requires Answered(v, sender, ops, o, true)
      ensures Answered(v, sender, ops, o, ok)
    {
    }

    ghost function Views(): map<string, ClientView>
      reads this, Repr
      requires Shape()
    {
      map c | c in clients :: View(c)
    }

    // ops[c] was performed for each client c, and nothing for a client without ops.
    twostate predicate DidAll(new ops: map<string, seq<Op<T>>>)
      reads this
    {
      && DidAllIn(old(trace), trace, ops)
      && base == old(base) && cleanedClients == old(cleanedClients)
    }

    // Every client's own EOFs go to the replica that woke up, and its own batches too when the
    // client's EOFs are all known. The clients come in any order; an error ends the answer.
    method HandleWakeUp(sender: nat)
      returns (ok: bool, ghost ops: map<string, seq<Op<T>>>, ghost orders: map<string, Orders>)
      requires Valid()
      modifies this`trace
      ensures Valid() && DidAll(ops) && AllAnswered(old(Views()), sender, ops, orders, ok)
      ensures ok ==> ops.Keys == clients.Keys
    {
      ghost var views := Views();
      var left := clients.Keys;
      ops, orders := map[], map[];
      ok := true;
      while left != {}
        invariant Valid() && DidAllIn(old(trace), trace, ops) && base == old(base)
        invariant AllAnswered(views, sender, ops, orders, true) && ok
        invariant left <= clients.Keys && ops.Keys == clients.Keys - left
        decreases left
      {
        var c :| c in left;
        OneKeyLess(clients.Keys, left, c);
        left := left - {c};
        ok, ops, orders := AnswerNext(c, sender, views, old(trace), ops, orders);
        if !ok { return; }
      }
    }

    method AnswerNext(c: string, sender: nat, ghost views: map<string, ClientView>, ghost before: map<string, seq<Op<T>>>,
                      ghost done: map<string, seq<Op<T>>>, ghost ordered: map<string, Orders>)
      returns (ok: bool, ghost ops: map<string, seq<Op<T>>>, ghost orders: map<string, Orders>)
      requires Valid() && c in clients && c in views && c !in done && views[c] == View(c)
      requires DidAllIn(before, trace, done) && AllAnswered(views, sender, done, ordered, true)
      modifies this`trace
      ensures Valid() && DidAllIn(before, trace, ops) && AllAnswered(views, sender, ops, orders, ok)
      ensures base == old(base) && ops.Keys == done.Keys + {c}
    {
      ghost var more, o;
      ok, more, o := AnswerFor(c, sender);
      DidOneMore(before, old(trace), trace, done, c, more);
      OneMoreAnswered(views, sender, done, ordered, c, more, o, ok);
      ops, orders := done[c := more], ordered[c := o];
    }

    method AnswerFor(c: string, sender: nat) returns (ok: bool, ghost ops: seq<Op<T>>, ghost o: Orders)
      requires Valid() && c in clients
      modifies this`trace
      ensures Valid() && Did(c, ops) && Answered(old(View(c)), sender, ops, o, ok)
    {
      ghost var v, order, shared := View(c), [], [];
      o := AnyOrders(v);
      ok, ops, order := SendOwnEOFs(c, sender);
      o := o.(eofs := order);
      ghost var sending: seq<Op<T>> := SendEOFs(sender, me, v.ownEOFs, o.eofs);
      if !ok {
        PerformedStop(ops, sending, if EofProtocol.HasAllEOFs(v, cfg.expected) then ShareOwn(cfg, me, v, o.batches, [sender]) else []);
        return;
      }
      var all := clients[c].HasAllEOFs(cfg.expected);
      if !all {
        assert ops + [] == ops;
        return;
      }
      ghost var mid := trace;
      ok, shared, order := ShareOwnBatches(c, [sender]);
      o := o.(batches := order);
      DidBoth(old(trace), mid, trace, c, sending, shared);
      ops := sending + shared;
      PerformedThen(sending, shared, ShareOwn(cfg, me, v, o.batches, [sender]), ok);
    }

    method SendOwnEOFs(c: string, to: nat) returns (ok: bool, ghost ops: seq<Op<T>>, ghost order: seq<string>)
      requires Valid() && c in clients
      modifies this`trace
      ensures Valid() && Did(c, ops) && View(c) == old(View(c)) && Enumerates(order, View(c).ownEOFs.Keys)
      ensures Performed(ops, SendEOFs(to, me, View(c).ownEOFs, order), ok)
    {
      var eofs := clients[c].ownEOFs;
      var keys := AnyOrder(eofs.Keys);
      order := keys;
      ops := [];
      ok := true;
      for i := 0 to |keys|
        invariant Valid() && Did(c, ops) && ok
        invariant SendEOFs(to, me, eofs, keys) == ops + SendEOFs(to, me, eofs, keys[i..])
      {
        assert keys[i] in keys;
        ghost var more;
        ghost var mid := trace;
        ok, more := SendWithKey(c, Packet(to, EofArrived(me, keys[i], eofs[keys[i]])));
        DidBoth(old(trace), mid, trace, c, ops, more);
        SendEOFStep(to, me, eofs, keys, i, ops, more, ok);
        ops := ops + more;
        if !ok { return; }
      }
    }

    method HasSeenBatch(c: string, batchID: string) returns (seen: bool)
      requires Valid()
      modifies this`clients, this`Repr
      ensures Valid() && fresh(Repr - old(Repr)) && Did(c, []) && View(c) == old(View(c))
      ensures seen == (batchID in View(c).ownBatches)
    {
      var state := GetClientState(c);
      seen := state.HasOwnBatch(batchID);
    }

    method ReachedEOFAmount(c: string) returns (all: bool)
      requires Valid()
      modifies this`clients, this`Repr
      ensures Valid() && fresh(Repr - old(Repr)) && Did(c, []) && View(c) == old(View(c))
      ensures all == EofProtocol.HasAllEOFs(View(c), cfg.expected)
    {
      var state := GetClientState(c);
      all := state.HasAllEOFs(cfg.expected);
    }

    // Memory, batches.log and eofs.log forget the client; flushed.log does not. Both files are
    // rewritten for it: of the other clients, too, only what was written before an error stays, and
    // an error in the middle of a file always leaves an entry of another client out.
    method ClearClient(c: string) returns (ok: bool, ghost left: Clearing)
      requires Valid()
      modifies this
      ensures Valid() && Repr == old(Repr) && cleanedClients == old(cleanedClients) + {c}
      ensures c !in clients && View(c) == EMPTY_VIEW && forall d :: d != c ==> View(d) == old(View(d))
      ensures ok ==> DiskOf(c) == Disk(map[], map[], c in old(flushedFile))
                     && forall d :: d != c ==> Trace(d) == old(Trace(d)) && DiskOf(d) == old(DiskOf(d))
      ensures (ok <==> left.Cleared?) && forall d :: LeftOf(old(DiskOf(d)), DiskOf(d), d, c, left)
      ensures left.BatchesCut? ==> Loses(c, left.next, old(DiskOf(left.next.0)).batches, DiskOf(left.next.0).batches)
      ensures left.EOFsCut? ==> Loses(c, left.next, old(DiskOf(left.next.0)).eofs, DiskOf(left.next.0).eofs)
    {
      ForgetClient(c);
      ok, left := ClearFiles(c);
      ViewsStay(c);
      if ok {
        OthersStay(c);
        ForgetTrace(c);
      } else {
        StartAnew(clients.Keys + base.Keys + trace.Keys + batchesFile.Keys + eofsFile.Keys + flushedFile);
      }
    }

    method ForgetClient(c: string)
      requires Shape()
      modifies this`clients, this`cleanedClients
      ensures Shape() && cleanedClients == old(cleanedClients) + {c} && c !in clients
      ensures forall d :: d != c ==> (d in clients <==> d in old(clients)) && (d in clients ==> clients[d] == old(clients[d]))
    {
      cleanedClients := cleanedClients + {c};
      clients := clients - {c};
    }

    // What the files still have of the client d when clearing c has come so far.
    ghost predicate LeftOf(was: Disk, now: Disk, d: string, c: string, left: Clearing) {
      && now.flushed == was.flushed
      && match left
         case Untouched => now == was
         case BatchesCut(written, _) => HasOnly(was.batches, now.batches, d, written) && now.eofs == was.eofs
         case BatchesDone => now.batches == (if d == c then map[] else was.batches) && now.eofs == was.eofs
         case EOFsCut(written, _) =>
           now.batches == (if d == c then map[] else was.batches) && HasOnly(was.eofs, now.eofs, d, written)
         case Cleared => if d == c then now.batches == map[] && now.eofs == map[] else now == was
    }

    ghost method ForgetTrace(c: string)
      requires Shape() && View(c) == EMPTY_VIEW && forall d :: d != c ==> Consistent(d)
      modifies this`base, this`trace
      ensures Valid() && forall d :: d != c ==> Trace(d) == old(Trace(d))
    {
      base := base[c := (EMPTY_VIEW, DiskOf(c))];
      trace := trace[c := []];
      forall d | d != c ensures Consistent(d) {
        assert old(Consistent(d)) && View(d) == old(View(d));
      }
      assert Consistent(c);
    }

    twostate lemma ViewsStay(c: string)
      requires old(Shape()) && Shape() && Repr == old(Repr) && forall o :: o in Repr && o != this ==> unchanged(o)
      requires forall d :: d != c ==> (d in clients <==> d in old(clients)) && (d in clients ==> clients[d] == old(clients[d]))
      ensures forall d :: d != c ==> View(d) == old(View(d))
    {
    }

    twostate lemma OthersStay(c: string)
      requires old(Valid()) && Shape() && forall d :: d != c ==> View(d) == old(View(d))
      requires forall d :: d != c ==> DiskOf(d) == old(DiskOf(d)) && Trace(d) == old(Trace(d)) && Base(d) == old(Base(d))
      ensures forall d :: d != c ==> Consistent(d)
    {
      forall d | d != c ensures Consistent(d) {
        assert old(Consistent(d));
      }
    }

    method ClearFiles(c: string) returns (ok: bool, ghost left: Clearing)
      modifies this`batchesFile, this`eofsFile
      ensures (ok <==> left.Cleared?) && forall d :: LeftOf(old(DiskOf(d)), DiskOf(d), d, c, left)
      ensures left.BatchesCut? ==> Loses(c, left.next, old(DiskOf(left.next.0)).batches, DiskOf(left.next.0).batches)
      ensures left.EOFsCut? ==> Loses(c, left.next, old(DiskOf(left.next.0)).eofs, DiskOf(left.next.0).eofs)
    {
      var truncated: bool := *;
      if !truncated { return false, Untouched; }
      ghost var written, next;
      ok, written, next := ClearBatches(c);
      if !ok { return false, BatchesCut(written, next); }
      truncated := *;
      if !truncated { return false, BatchesDone; }
      ok, written, next := ClearEOFs(c);
      return ok, if ok then Cleared else EOFsCut(written, next);
    }

    method ClearBatches(c: string) returns (ok: bool, ghost written: seq<Place>, ghost next: Place)
      modifies this`batchesFile
      ensures forall d :: HasOnly(old(DiskOf(d)).batches, DiskOf(d).batches, d, written)
      ensures ok ==> forall d :: DiskOf(d).batches == if d == c then map[] else old(DiskOf(d)).batches
      ensures !ok ==> Loses(c, next, old(DiskOf(next.0)).batches, DiskOf(next.0).batches)
    {
      var was := batchesFile;
      ok, batchesFile, written, next := Rewrite(was - {c});
      forall d { RewrittenOf(was, c, batchesFile, written, d); }
      if !ok { StoppedOf(was, c, batchesFile, written, next); }
    }

    method ClearEOFs(c: string) returns (ok: bool, ghost written: seq<Place>, ghost next: Place)
      modifies this`eofsFile
      ensures forall d :: HasOnly(old(DiskOf(d)).eofs, DiskOf(d).eofs, d, written)
      ensures ok ==> forall d :: DiskOf(d).eofs == if d == c then map[] else old(DiskOf(d)).eofs
      ensures !ok ==> Loses(c, next, old(DiskOf(next.0)).eofs, DiskOf(next.0).eofs)
    {
      var was := eofsFile;
      ok, eofsFile, written, next := Rewrite(was - {c});
      forall d { RewrittenOf(was, c, eofsFile, written, d); }
      if !ok { StoppedOf(was, c, eofsFile, written, next); }
    }

    // Booking begins again from what memory and files now hold.
    ghost method StartAnew(known: set<string>)
      requires Shape()
      requires known == clients.Keys + base.Keys + trace.Keys + batchesFile.Keys + eofsFile.Keys + flushedFile
      modifies this`base, this`trace
      ensures Valid()
    {
      base := map d | d in known :: (View(d), DiskOf(d));
      trace := map[];
      forall d ensures Consistent(d) {
        assert Trace(d) == [] && Base(d) == (View(d), DiskOf(d));
      }
    }

    // ---- Starting up ----

    constructor (workerID: nat, workerCount: nat, expectedEOFs: nat, maxBatchWeight: int, sizer: BatchRecord -> nat,
                 batches: map<string, map<string, BatchRecord>>, eofs: map<string, map<string, nat>>, flushed: set<string>)
      requires forall c, id :: c in batches && id in batches[c] ==> batches[c][id].batchID == id
      ensures Valid() && fresh(Repr) && cleanedClients == {}
      ensures me == workerID && cfg.workers == workerCount && cfg.sizer == sizer
      ensures cfg.expected == (if expectedEOFs == 0 then 1 else expectedEOFs)
      ensures cfg.maxWeight == (if maxBatchWeight <= 0 then 8192 else maxBatchWeight)
      ensures batchesFile == batches && eofsFile == eofs && flushedFile == flushed
      ensures forall c :: Trace(c) == [] && View(c) == Restore(DiskOf(c))
    {
      me := workerID;
      cfg := Config(workerCount, if expectedEOFs == 0 then DEFAULT_EXPECTED_EOFS else expectedEOFs,
                    if maxBatchWeight <= 0 then Batching.DEFAULT_BATCH_SIZE else maxBatchWeight, sizer);
      var keys: seq<nat> := [];
      for i := 0 to workerCount
        invariant keys == Others(workerID, i)
      {
        if i == workerID { continue; }
        keys := keys + [i];
      }
      publishKeys := keys;
      batchesFile, eofsFile, flushedFile := batches, eofs, flushed;
      clients, cleanedClients := map[], {};
      base, trace := map[], map[];
      Repr := {this};
      new;
      RestoreFromStorage();
    }

    // A client's view after some of the three restoring loops.
    ghost function Restored(d: Disk, batches: bool, eofs: bool, flush: bool): ClientView {
      var v := EMPTY_VIEW.(ownBatches := if batches then d.batches else map[]);
      var v' := if eofs && d.eofs != map[] then Refreshed(v.(ownEOFs := d.eofs)) else v;
      v'.(flushed := flush && d.flushed)
    }

    lemma RestoredAll(d: Disk)
      ensures Restored(d, true, true, true) == Restore(d)
    {
      assert d.eofs == map[] ==> KnownEOFs(EMPTY_VIEW.(ownBatches := d.batches, flushed := d.flushed)) == {};
    }

    method RestoreBatchesOf(c: string)
      requires Shape() && c in batchesFile && View(c) == EMPTY_VIEW
      requires forall id :: id in batchesFile[c] ==> batchesFile[c][id].batchID == id
      modifies Repr - {this}, this`clients, this`Repr
      ensures Shape() && fresh(Repr - old(Repr)) && old(Repr) <= Repr
      ensures View(c) == Restored(DiskOf(c), true, false, false) && forall d :: d != c ==> View(d) == old(View(d))
    {
      var state := StateFor(c);
      assert state.View() == View(c) == old(View(c));
      AddBatches(state, batchesFile[c]);
      assert View(c) == state.View();
    }

    method RestoreBatches()
      requires Shape() && clients == map[]
      requires forall c, id :: c in batchesFile && id in batchesFile[c] ==> batchesFile[c][id].batchID == id
      modifies Repr - {this}, this`clients, this`Repr
      ensures Shape() && fresh(Repr - old(Repr)) && old(Repr) <= Repr
      ensures forall c :: View(c) == Restored(DiskOf(c), true, false, false)
    {
      var ids := AnyOrder(batchesFile.Keys);
      for i := 0 to |ids|
        invariant Shape() && fresh(Repr - old(Repr)) && old(Repr) <= Repr
        invariant forall c :: View(c) == Restored(DiskOf(c), c in ids[..i], false, false)
      {
        NextKey(ids, batchesFile.Keys, i);
        RestoreBatchesOf(ids[i]);
      }
      assert ids[..|ids|] == ids;
    }

    static method AddBatches(state: ClientState, batches: map<string, BatchRecord>)
      requires state.View() == EMPTY_VIEW && forall id :: id in batches ==> batches[id].batchID == id
      modifies state
      ensures state.View() == EMPTY_VIEW.(ownBatches := batches)
    {
      var ids := AnyOrder(batches.Keys);
      UptoAll(batches, ids);
      for i := 0 to |ids|
        invariant state.View() == EMPTY_VIEW.(ownBatches := Upto(batches, ids, i))
      {
        UptoNext(batches, ids, i);
        state.AddOwnBatch(batches[ids[i]]);
      }
    }

    method RestoreEOFsOf(c: string)
      requires Shape() && c in eofsFile && View(c) == Restored(DiskOf(c), true, false, false)
      modifies Repr - {this}, this`clients, this`Repr
      ensures Shape() && fresh(Repr - old(Repr)) && old(Repr) <= Repr
      ensures View(c) == Restored(DiskOf(c), true, true, false) && forall d :: d != c ==> View(d) == old(View(d))
    {
      var state := StateFor(c);
      assert state.View() == View(c) == old(View(c));
      AddEOFs(state, eofsFile[c]);
      assert View(c) == state.View();
    }

    method RestoreEOFs()
      requires Shape() && forall c :: View(c) == Restored(DiskOf(c), true, false, false)
      modifies Repr - {this}, this`clients, this`Repr
      ensures Shape() && fresh(Repr - old(Repr)) && old(Repr) <= Repr
      ensures forall c :: View(c) == Restored(DiskOf(c), true, true, false)
    {
      var ids := AnyOrder(eofsFile.Keys);
      for i := 0 to |ids|
        invariant Shape() && fresh(Repr - old(Repr)) && old(Repr) <= Repr
        invariant forall c :: View(c) == Restored(DiskOf(c), true, c in ids[..i], false)
      {
        NextKey(ids, eofsFile.Keys, i);
        RestoreEOFsOf(ids[i]);
      }
      assert ids[..|ids|] == ids;
    }

    static lemma RefreshedAgain(v: ClientView, w: ClientView)
      requires w == v.(lastEOFID := w.lastEOFID) && w == Refreshed(w) && v.ownEOFs != map[]
      ensures w == Refreshed(v)
    {
      assert KnownEOFs(w) == KnownEOFs(v);
      assert KnownEOFs(v) >= v.ownEOFs.Keys != {};
    }

    static method AddEOFs(state: ClientState, eofs: map<string, nat>)
      requires state.ownEOFs == map[] && state.peerEOFs == map[]
      modifies state
      ensures state.View() == if eofs == map[] then old(state.View()) else Refreshed(old(state.View()).(ownEOFs := eofs))
    {
      var ids := AnyOrder(eofs.Keys);
      UptoAll(eofs, ids);
      for i := 0 to |ids|
        invariant state.View() == old(state.View()).(ownEOFs := Upto(eofs, ids, i), lastEOFID := state.lastEOFID)
        invariant state.View() == if i == 0 then old(state.View()) else Refreshed(state.View())
      {
        UptoNext(eofs, ids, i);
        state.AddOwnEOF(ids[i], eofs[ids[i]]);
        assert ids[i] in KnownEOFs(state.View());
      }
      if ids != [] {
        assert ids[0] in ids;
        RefreshedAgain(old(state.View()).(ownEOFs := eofs), state.View());
      }
    }

    method RestoreFlushedOf(c: string)
      requires Shape()
      modifies Repr - {this}, this`clients, this`Repr
      ensures Shape() && fresh(Repr - old(Repr)) && old(Repr) <= Repr
      ensures View(c) == old(View(c)).(flushed := true) && forall d :: d != c ==> View(d) == old(View(d))
    {
      var state := StateFor(c);
      assert state.View() == View(c) == old(View(c));
      state.flushed := true;
      assert state.View() == old(View(c)).(flushed := true);
      assert View(c) == state.View();
    }

    method RestoreFlushed()
      requires Shape() && forall c :: View(c) == Restored(DiskOf(c), true, true, false)
      modifies Repr - {this}, this`clients, this`Repr
      ensures Shape() && fresh(Repr - old(Repr)) && old(Repr) <= Repr
      ensures forall c :: View(c) == Restored(DiskOf(c), true, true, true)
    {
      var ids := AnyOrder(flushedFile);
      for i := 0 to |ids|
        invariant Shape() && fresh(Repr - old(Repr)) && old(Repr) <= Repr
        invariant forall c :: View(c) == Restored(DiskOf(c), true, true, c in ids[..i])
      {
        NextKey(ids, flushedFile, i);
        RestoreFlushedOf(ids[i]);
      }
      assert ids[..|ids|] == ids;
    }

    // Batches first, then EOFs, then the flush marks, each client by client.
    method RestoreFromStorage()
      requires Shape() && Repr == {this} && clients == map[] && trace == map[]
      requires forall c, id :: c in batchesFile && id in batchesFile[c] ==> batchesFile[c][id].batchID == id
      modifies this`clients, this`Repr, this`base
      ensures Valid() && fresh(Repr - {this})
      ensures forall c :: View(c) == Restore(DiskOf(c))
    {
      RestoreBatches();
      RestoreEOFs();
      RestoreFlushed();
      StartHere();
    }

    ghost method StartHere()
      requires Shape() && trace == map[] && forall c :: View(c) == Restored(DiskOf(c), true, true, true)
      modifies this`base
      ensures Valid() && forall c :: View(c) == Restore(DiskOf(c))
    {
      base := map c | c in clients :: (Restore(DiskOf(c)), DiskOf(c));
      forall c ensures Consistent(c) && View(c) == Restore(DiskOf(c)) {
        assert View(c) == old(View(c)) && DiskOf(c) == old(DiskOf(c));
        RestoredAll(DiskOf(c));
        StartsFrom(c);
      }
    }

    lemma StartsFrom(c: string)
      requires Shape() && View(c) == Restore(DiskOf(c)) && Trace(c) == []
      requires c !in base ==> c !in clients
      requires c in base ==> base[c] == (Restore(DiskOf(c)), DiskOf(c))
      ensures Consistent(c)
    {
      assert c !in base ==> Restore(DiskOf(c)).ownEOFs == map[];
    }
  }
}
