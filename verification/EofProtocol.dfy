// What one replica knows about one client, and what each coordinator handler does with it.
//
// A handler is written as the sequence of elementary operations it performs: sends, disk
// writes, memory updates and the call of the flush handler. A crash or an I/O error in the
// middle of a handler is then a prefix of that sequence. The class Coordinator.EOFCoordinator
// is proved to perform exactly these sequences.
module EofProtocol {
  import opened MapOrder
  import opened Sums
  import Chunks

  datatype BatchRecord = BatchRecord(batchID: string, processed: nat, survivors: nat)

  datatype ClientView = ClientView(
    ownBatches: map<string, BatchRecord>,
    peerBatches: map<nat, map<string, BatchRecord>>,
    ownEOFs: map<string, nat>,
    peerEOFs: map<nat, map<string, nat>>,
    lastEOFID: string,
    flushed: bool)

  const EMPTY_VIEW := ClientView(map[], map[], map[], map[], "", false)

  // What batches.log, eofs.log and flushed.log hold for the client.
  datatype Disk = Disk(batches: map<string, BatchRecord>, eofs: map<string, nat>, flushed: bool)

  const EMPTY_DISK := Disk(map[], map[], false)

  datatype Msg =
    | WakeUp(sender: nat)
    | EofArrived(sender: nat, eofID: string, total: nat)
    | BatchInfo(sender: nat, info: seq<BatchRecord>)

  datatype Packet = Packet(to: nat, msg: Msg)

  type SubBatch<T> = Chunks.SubBatch<T>

  datatype Op<T> =
    | Publish(sub: SubBatch<T>)
    | Send(packet: Packet)
    | WriteBatch(record: BatchRecord)
    | AddOwnBatch(record: BatchRecord)
    | WriteEOF(eofID: string, total: nat)
    | AddOwnEOF(eofID: string, total: nat)
    | AddPeerEOF(peer: nat, eofID: string, total: nat)
    | AddPeerBatch(peer: nat, record: BatchRecord)
      // The handler receives survivors and eofID; known is what was counted, kept to state coverage.
    | CallFlush(survivors: nat, eofID: string, known: set<string>)
    | SetFlushed
    | WriteFlushed

  // workers: size of the replica group; expected: EOF ids to wait for; maxWeight and sizer:
  // how batch records are packed into messages.
  datatype Config = Config(workers: nat, expected: nat, maxWeight: nat, sizer: BatchRecord -> nat)

  // ---- Reading a view ----

  ghost function UnionKeys<V>(own: map<string, V>, peers: map<nat, map<string, V>>): set<string> {
    own.Keys + set p, k | p in peers.Keys && k in peers[p].Keys :: k
  }

  ghost function KnownBatches(v: ClientView): set<string> { UnionKeys(v.ownBatches, v.peerBatches) }

  ghost function KnownEOFs(v: ClientView): set<string> { UnionKeys(v.ownEOFs, v.peerEOFs) }

  ghost predicate HasAllEOFs(v: ClientView, expected: nat) { |KnownEOFs(v)| >= expected }

  // Counting each key once, visiting the peers in the given order: the first record met wins.
  function Merge<V>(acc: map<string, V>, peers: map<nat, map<string, V>>, order: seq<nat>): map<string, V>
    decreases |order|
  {
    if order == [] then acc
    else Merge(if order[0] in peers then peers[order[0]] + acc else acc, peers, order[1..])
  }

  function Processed(m: map<string, BatchRecord>): map<string, nat> { map k | k in m :: m[k].processed }

  function Survivors(m: map<string, BatchRecord>): map<string, nat> { map k | k in m :: m[k].survivors }

  ghost function ProcessedTotal(v: ClientView, order: seq<nat>): nat {
    Sum(Processed(Merge(v.ownBatches, v.peerBatches, order)))
  }

  ghost function SurvivorTotal(v: ClientView, order: seq<nat>): nat {
    Sum(Survivors(Merge(v.ownBatches, v.peerBatches, order)))
  }

  ghost function ExpectedTotal(v: ClientView, order: seq<nat>): nat {
    Sum(Merge(v.ownEOFs, v.peerEOFs, order))
  }

  // ---- Changing a view ----

  function AddPeer<V>(peers: map<nat, map<string, V>>, p: nat, k: string, v: V): map<nat, map<string, V>> {
    peers[p := (if p in peers then peers[p] else map[])[k := v]]
  }

  ghost function Refreshed(v: ClientView): ClientView {
    if KnownEOFs(v) == {} then v else v.(lastEOFID := Last(KnownEOFs(v)))
  }

  ghost function MemOp<T>(v: ClientView, op: Op<T>): ClientView {
    match op
    case AddOwnBatch(r) => v.(ownBatches := v.ownBatches[r.batchID := r])
    case AddPeerBatch(p, r) => v.(peerBatches := AddPeer(v.peerBatches, p, r.batchID, r))
    case AddOwnEOF(e, n) => Refreshed(v.(ownEOFs := v.ownEOFs[e := n]))
    case AddPeerEOF(p, e, n) => Refreshed(v.(peerEOFs := AddPeer(v.peerEOFs, p, e, n)))
    case SetFlushed => v.(flushed := true)
    case _ => v
  }

  function DiskOp<T>(d: Disk, op: Op<T>): Disk {
    match op
    case WriteBatch(r) => d.(batches := d.batches[r.batchID := r])
    case WriteEOF(e, n) => d.(eofs := d.eofs[e := n])
    case WriteFlushed => d.(flushed := true)
    case _ => d
  }

  // What restoreFromStorage rebuilds: peers are forgotten.
  ghost function Restore(d: Disk): ClientView {
    Refreshed(ClientView(d.batches, map[], d.eofs, map[], "", d.flushed))
  }

  // ---- The orders in which one handler run happens to visit Go maps ----

  datatype Orders = Orders(
    eofs: seq<string>,      // own EOFs, when answering a wake-up
    batches: seq<string>,   // own batches, when sharing them
    survivors: seq<nat>,    // peers, when the survivors to pass on are counted
    processed: seq<nat>,    // peers, when readiness is decided
    totals: seq<nat>)       // peers, when the expected total is counted

  ghost predicate ValidOrders(v: ClientView, o: Orders) {
    && Enumerates(o.eofs, v.ownEOFs.Keys)
    && Enumerates(o.batches, v.ownBatches.Keys)
    && Enumerates(o.survivors, v.peerBatches.Keys)
    && Enumerates(o.processed, v.peerBatches.Keys)
    && Enumerates(o.totals, v.peerEOFs.Keys)
  }

  // ---- Pieces of handlers ----

  // The routing keys: every replica but this one.
  function Others(me: nat, workers: nat): seq<nat> {
    if workers == 0 then []
    else Others(me, workers - 1) + (if workers - 1 == me then [] else [workers - 1])
  }

  function SendAll<T>(to: seq<nat>, msg: Msg): seq<Op<T>> {
    if to == [] then [] else [Send(Packet(to[0], msg))] + SendAll(to[1..], msg)
  }

  function Broadcast<T>(cfg: Config, me: nat, msg: Msg): seq<Op<T>> { SendAll(Others(me, cfg.workers), msg) }

  function RecordsIn(m: map<string, BatchRecord>, order: seq<string>): seq<BatchRecord> {
    if order == [] then []
    else (if order[0] in m then [m[order[0]]] else []) + RecordsIn(m, order[1..])
  }

  // The messages into which a batcher packs the own batches.
  function Packed(cfg: Config, v: ClientView, order: seq<string>): seq<seq<BatchRecord>> {
    Chunks.BatchesOf(RecordsIn(v.ownBatches, order), cfg.maxWeight, cfg.sizer)
  }

  function SendChunks<T>(to: seq<nat>, me: nat, chunks: seq<seq<BatchRecord>>): seq<Op<T>> {
    if chunks == [] then []
    else SendChunks(to, me, chunks[..|chunks| - 1]) + SendAll(to, BatchInfo(me, chunks[|chunks| - 1]))
  }

  function ShareOwn<T>(cfg: Config, me: nat, v: ClientView, order: seq<string>, to: seq<nat>): seq<Op<T>> {
    SendChunks(to, me, Packed(cfg, v, order))
  }

  function SendEOFs<T>(to: nat, me: nat, eofs: map<string, nat>, order: seq<string>): seq<Op<T>> {
    if order == [] then []
    else (if order[0] in eofs then [Send(Packet(to, EofArrived(me, order[0], eofs[order[0]])))] else [])
         + SendEOFs(to, me, eofs, order[1..])
  }

  ghost predicate Ready(v: ClientView, expected: nat, o: Orders) {
    && !v.flushed
    && HasAllEOFs(v, expected)
    && ProcessedTotal(v, o.processed) >= ExpectedTotal(v, o.totals)
  }

  ghost function TryFlush<T>(cfg: Config, v: ClientView, o: Orders): seq<Op<T>> {
    if Ready(v, cfg.expected, o)
    then [CallFlush(SurvivorTotal(v, o.survivors), v.lastEOFID, KnownBatches(v)), SetFlushed, WriteFlushed]
    else []
  }

  // ---- The handlers ----

  ghost function RecordBatch<T>(cfg: Config, me: nat, v: ClientView, r: BatchRecord, o: Orders): seq<Op<T>> {
    if r.batchID in v.ownBatches then []
    else
      (if HasAllEOFs(v, cfg.expected) then Broadcast(cfg, me, BatchInfo(me, [r])) else [])
      + [WriteBatch(r), AddOwnBatch(r)]
      + TryFlush(cfg, MemOp<T>(v, AddOwnBatch(r)), o)
  }

  ghost function ShareWhenComplete<T>(cfg: Config, me: nat, v: ClientView, o: Orders): seq<Op<T>> {
    if HasAllEOFs(v, cfg.expected) then ShareOwn(cfg, me, v, o.batches, Others(me, cfg.workers)) else []
  }

  ghost function LocalEOF<T>(cfg: Config, me: nat, v: ClientView, e: string, n: nat, o: Orders): seq<Op<T>> {
    if e in v.ownEOFs then []
    else
      var v' := MemOp<T>(v, AddOwnEOF(e, n));
      [WriteEOF(e, n), AddOwnEOF(e, n)] + Broadcast(cfg, me, EofArrived(me, e, n))
      + ShareWhenComplete(cfg, me, v', o) + TryFlush(cfg, v', o)
  }

  ghost function RemoteEOF<T>(cfg: Config, me: nat, v: ClientView, p: nat, e: string, n: nat, o: Orders): seq<Op<T>> {
    if p in v.peerEOFs && e in v.peerEOFs[p] then []
    else
      var v' := MemOp<T>(v, AddPeerEOF(p, e, n));
      [AddPeerEOF(p, e, n)] + ShareWhenComplete(cfg, me, v', o) + TryFlush(cfg, v', o)
  }

  // Records of batches that are already our own are skipped.
  function Learn<T>(v: ClientView, p: nat, info: seq<BatchRecord>): seq<Op<T>> {
    if info == [] then []
    else Learn(v, p, info[..|info| - 1]) + LearnOne(v, p, info[|info| - 1])
  }

  function LearnOne<T>(v: ClientView, p: nat, r: BatchRecord): seq<Op<T>> {
    if r.batchID in v.ownBatches then [] else [AddPeerBatch(p, r)]
  }

  ghost predicate KnownFrom(v: ClientView, p: nat, id: string) { p in v.peerBatches && id in v.peerBatches[p] }

  // What is known from a peer afterwards: what was known before, and what the message names that is not
  // our own; our own records stay as they are.
  lemma {:induction false} LearnedIs<T>(v: ClientView, p: nat, info: seq<BatchRecord>, q: nat, id: string)
    ensures var w := MemAfter<T>(v, Learn(v, p, info));
            && w == v.(peerBatches := w.peerBatches)
            && (KnownFrom(w, q, id) <==>
                  KnownFrom(v, q, id) || (q == p && id !in v.ownBatches && exists r :: r in info && r.batchID == id))
  {
    if info != [] {
      var init, r := info[..|info| - 1], info[|info| - 1];
      LearnedIs<T>(v, p, init, q, id);
      MemAfterConcat<T>(v, Learn(v, p, init), LearnOne(v, p, r));
      LearnedOne<T>(MemAfter<T>(v, Learn(v, p, init)), v, p, r, q, id);
      assert info == init + [r];
    }
  }

  lemma LearnedOne<T>(u: ClientView, v: ClientView, p: nat, r: BatchRecord, q: nat, id: string)
    ensures var w := MemAfter<T>(u, LearnOne(v, p, r));
            && w == u.(peerBatches := w.peerBatches)
            && (KnownFrom(w, q, id) <==> KnownFrom(u, q, id) || (q == p && id == r.batchID && id !in v.ownBatches))
  {
    OneOp<T>(u, EMPTY_DISK, AddPeerBatch(p, r));
    assert MemAfter<T>(u, []) == u;
  }

  ghost function RemoteBatch<T>(cfg: Config, v: ClientView, p: nat, info: seq<BatchRecord>, o: Orders): seq<Op<T>> {
    Learn(v, p, info) + TryFlush(cfg, MemAfter<T>(v, Learn(v, p, info)), o)
  }

  ghost function AnswerWakeUp<T>(cfg: Config, me: nat, v: ClientView, p: nat, o: Orders): seq<Op<T>> {
    SendEOFs(p, me, v.ownEOFs, o.eofs)
    + (if HasAllEOFs(v, cfg.expected) then ShareOwn(cfg, me, v, o.batches, [p]) else [])
  }

  // ---- Effects of a sequence of operations ----

  ghost function MemAfter<T>(v: ClientView, ops: seq<Op<T>>): ClientView {
    if ops == [] then v else MemOp(MemAfter(v, ops[..|ops| - 1]), ops[|ops| - 1])
  }

  function DiskAfter<T>(d: Disk, ops: seq<Op<T>>): Disk {
    if ops == [] then d else DiskOp(DiskAfter(d, ops[..|ops| - 1]), ops[|ops| - 1])
  }

  function Sent<T>(ops: seq<Op<T>>): multiset<Packet> {
    if ops == [] then multiset{}
    else Sent(ops[..|ops| - 1]) + (if ops[|ops| - 1].Send? then multiset{ops[|ops| - 1].packet} else multiset{})
  }

  lemma {:induction false} MemAfterConcat<T>(v: ClientView, a: seq<Op<T>>, b: seq<Op<T>>)
    ensures MemAfter(v, a + b) == MemAfter(MemAfter(v, a), b)
  {
    if b == [] {
      assert a + b == a;
    } else {
      var b' := b[..|b| - 1];
      assert (a + b)[..|a + b| - 1] == a + b';
      MemAfterConcat(v, a, b');
    }
  }

  lemma {:induction false} DiskAfterConcat<T>(d: Disk, a: seq<Op<T>>, b: seq<Op<T>>)
    ensures DiskAfter(d, a + b) == DiskAfter(DiskAfter(d, a), b)
  {
    if b == [] {
      assert a + b == a;
    } else {
      var b' := b[..|b| - 1];
      assert (a + b)[..|a + b| - 1] == a + b';
      DiskAfterConcat(d, a, b');
    }
  }

  lemma {:induction false} SentConcat<T>(a: seq<Op<T>>, b: seq<Op<T>>)
    ensures Sent(a + b) == Sent(a) + Sent(b)
  {
    if b == [] {
      assert a + b == a;
    } else {
      var b' := b[..|b| - 1];
      assert (a + b)[..|a + b| - 1] == a + b';
      SentConcat(a, b');
    }
  }

  lemma OneOp<T>(v: ClientView, d: Disk, op: Op<T>)
    ensures MemAfter(v, [op]) == MemOp(v, op) && DiskAfter(d, [op]) == DiskOp(d, op)
  {
    assert [op][..0] == [];
    assert MemAfter<T>(v, []) == v && DiskAfter<T>(d, []) == d;
  }

  lemma {:induction false} SentMember<T>(ops: seq<Op<T>>, p: Packet)
    ensures p in Sent(ops) <==> Send(p) in ops
  {
    if ops != [] {
      SentMember(ops[..|ops| - 1], p);
      assert ops == ops[..|ops| - 1] + [ops[|ops| - 1]];
    }
  }

  // Sends, publishes and disk writes leave the memory alone.
  ghost predicate KeepsMemory<T>(op: Op<T>) {
    op.Publish? || op.Send? || op.WriteBatch? || op.WriteEOF? || op.WriteFlushed? || op.CallFlush?
  }

  lemma {:induction false} MemUntouched<T>(v: ClientView, ops: seq<Op<T>>)
    requires forall op :: op in ops ==> KeepsMemory(op)
    ensures MemAfter(v, ops) == v
  {
    if ops != [] {
      MemUntouched(v, ops[..|ops| - 1]);
      assert ops[|ops| - 1] in ops;
    }
  }

  ghost predicate KeepsDisk<T>(op: Op<T>) { !op.WriteBatch? && !op.WriteEOF? && !op.WriteFlushed? }

  lemma {:induction false} DiskUntouched<T>(d: Disk, ops: seq<Op<T>>)
    requires forall op :: op in ops ==> KeepsDisk(op)
    ensures DiskAfter(d, ops) == d
  {
    if ops != [] {
      DiskUntouched(d, ops[..|ops| - 1]);
      assert ops[|ops| - 1] in ops;
    }
  }

  // ---- What the pieces of handlers contain ----

  lemma {:induction false} OthersMember(me: nat, workers: nat, q: nat)
    ensures q in Others(me, workers) <==> q < workers && q != me
  {
    if workers != 0 {
      OthersMember(me, workers - 1, q);
    }
  }

  lemma {:induction false} SendAllMember<T>(to: seq<nat>, msg: Msg, op: Op<T>)
    ensures op in SendAll(to, msg) <==> op.Send? && op.packet.to in to && op.packet.msg == msg
  {
    if to != [] {
      SendAllMember(to[1..], msg, op);
      assert to == [to[0]] + to[1..];
    }
  }

  lemma {:induction false} SendChunksMember<T>(to: seq<nat>, me: nat, chunks: seq<seq<BatchRecord>>, op: Op<T>)
    ensures op in SendChunks(to, me, chunks) <==>
            op.Send? && op.packet.to in to && exists c :: c in chunks && op.packet.msg == BatchInfo(me, c)
  {
    if chunks != [] {
      var init, last := chunks[..|chunks| - 1], chunks[|chunks| - 1];
      SendChunksMember(to, me, init, op);
      SendAllMember(to, BatchInfo(me, last), op);
      assert chunks == init + [last];
      assert last in chunks;
    }
  }

  lemma {:induction false} RecordsInMember(m: map<string, BatchRecord>, order: seq<string>, r: BatchRecord)
    ensures r in RecordsIn(m, order) <==> exists k :: k in order && k in m && m[k] == r
  {
    if order != [] {
      RecordsInMember(m, order[1..], r);
      assert order == [order[0]] + order[1..];
    }
  }

  lemma {:induction false} SendEOFsMember<T>(to: nat, me: nat, eofs: map<string, nat>, order: seq<string>, op: Op<T>)
    ensures op in SendEOFs(to, me, eofs, order) <==>
            exists e :: e in order && e in eofs && op == Send(Packet(to, EofArrived(me, e, eofs[e])))
  {
    if order != [] {
      SendEOFsMember(to, me, eofs, order[1..], op);
      assert order == [order[0]] + order[1..];
    }
  }

  lemma {:induction false} LearnMember<T>(v: ClientView, p: nat, info: seq<BatchRecord>, op: Op<T>)
    ensures op in Learn(v, p, info) <==>
            op.AddPeerBatch? && op.peer == p && op.record in info && op.record.batchID !in v.ownBatches
  {
    if info != [] {
      LearnMember(v, p, info[..|info| - 1], op);
      assert info == info[..|info| - 1] + [info[|info| - 1]];
    }
  }
}
