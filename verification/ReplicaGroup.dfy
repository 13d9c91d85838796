// A group of replicas sharing one input queue, for one client: every run of any number of
// workers with duplicated, reordered and lost coordination messages, I/O errors and crashes
// at any point of any handler.
module ReplicaGroup {
  import Sums
  import opened EofProtocol

  // What upstream sent: each batch with its counts and the output batches it gives, and each EOF.
  datatype Truth<T> = Truth(
    records: map<string, BatchRecord>,
    eofs: map<string, nat>,
    outputs: map<string, seq<SubBatch<T>>>)

  ghost predicate WellFormed<T>(t: Truth<T>, cfg: Config) {
    && (forall id :: id in t.records ==>
          && t.records[id].batchID == id
          && (t.records[id].processed == 0 ==> t.records[id].survivors == 0))
    && t.outputs.Keys == t.records.Keys
    && cfg.expected == |t.eofs| && cfg.expected >= 1
    && Sums.Sum(t.eofs) == Sums.Sum(Processed(t.records))
  }

  datatype Replica = Replica(mem: ClientView, disk: Disk)

  datatype FlushCall = FlushCall(worker: nat, survivors: nat, eofID: string, known: set<string>)

  datatype System<T> = System(
    replicas: seq<Replica>,
    net: multiset<Packet>,
    published: seq<SubBatch<T>>,
    flushes: seq<FlushCall>)

  datatype Event =
    | DataArrives(worker: nat, batchID: string)    // a stateless engine handles a batch
    | BatchCounted(worker: nat, batchID: string)   // a checkpoint reports a durable batch
    | EofArrives(worker: nat, eofID: string)
    | PacketArrives(packet: Packet)

  datatype Outcome = Done | Failed | Crashed

  datatype Step =
    | Handle(event: Event, orders: Orders, cut: nat, outcome: Outcome)
    | Restart(worker: nat)
    | Duplicate(packet: Packet)
    | Drop(packet: Packet)

  function WorkerOf(e: Event): nat {
    match e
    case DataArrives(w, _) => w
    case BatchCounted(w, _) => w
    case EofArrives(w, _) => w
    case PacketArrives(p) => p.to
  }

  function PublishAll<T>(subs: seq<SubBatch<T>>): seq<Op<T>> {
    if subs == [] then [] else PublishAll(subs[..|subs| - 1]) + [Publish(subs[|subs| - 1])]
  }

  ghost predicate Occurs<T>(t: Truth<T>, s: System<T>, e: Event) {
    && WorkerOf(e) < |s.replicas|
    && match e
       case DataArrives(_, id) => id in t.records && id in t.outputs
       case BatchCounted(_, id) => id in t.records
       case EofArrives(_, e) => e in t.eofs
       case PacketArrives(p) => p in s.net
  }

  // What the worker knows when it decides what to share and whether to flush.
  ghost function Knowing<T>(t: Truth<T>, s: System<T>, e: Event): ClientView
    requires Occurs(t, s, e)
  {
    var v := s.replicas[WorkerOf(e)].mem;
    match e
    case DataArrives(_, id) => MemOp<T>(v, AddOwnBatch(t.records[id]))
    case BatchCounted(_, id) => MemOp<T>(v, AddOwnBatch(t.records[id]))
    case EofArrives(_, e) => MemOp<T>(v, AddOwnEOF(e, t.eofs[e]))
    case PacketArrives(p) =>
      match p.msg
      case WakeUp(_) => v
      case EofArrived(q, e, n) => MemOp<T>(v, AddPeerEOF(q, e, n))
      case BatchInfo(q, info) => MemAfter<T>(v, Learn(v, q, info))
  }

  ghost function Handler<T>(t: Truth<T>, cfg: Config, s: System<T>, e: Event, o: Orders): seq<Op<T>>
    requires Occurs(t, s, e)
  {
    var me := WorkerOf(e);
    var v := s.replicas[me].mem;
    match e
    case DataArrives(_, id) =>
      if id in v.ownBatches then []
      else PublishAll(t.outputs[id]) + RecordBatch(cfg, me, v, t.records[id], o)
    case BatchCounted(_, id) => RecordBatch(cfg, me, v, t.records[id], o)
    case EofArrives(_, e) => LocalEOF(cfg, me, v, e, t.eofs[e], o)
    case PacketArrives(p) =>
      match p.msg
      case WakeUp(q) => AnswerWakeUp(cfg, me, v, q, o)
      case EofArrived(q, e, n) => RemoteEOF(cfg, me, v, q, e, n, o)
      case BatchInfo(q, info) => RemoteBatch(cfg, v, q, info, o)
  }

  function Published<T>(ops: seq<Op<T>>): seq<SubBatch<T>> {
    if ops == [] then []
    else Published(ops[..|ops| - 1]) + (if ops[|ops| - 1].Publish? then [ops[|ops| - 1].sub] else [])
  }

  function Calls<T>(w: nat, ops: seq<Op<T>>): seq<FlushCall> {
    if ops == [] then []
    else
      var op := ops[|ops| - 1];
      Calls(w, ops[..|ops| - 1])
      + (if op.CallFlush? then [FlushCall(w, op.survivors, op.eofID, op.known)] else [])
  }

  ghost function Perform<T>(s: System<T>, w: nat, ops: seq<Op<T>>): System<T>
    requires w < |s.replicas|
  {
    var r := s.replicas[w];
    System(s.replicas[w := Replica(MemAfter(r.mem, ops), DiskAfter(r.disk, ops))],
           s.net + Sent(ops), s.published + Published(ops), s.flushes + Calls(w, ops))
  }

  // The process comes back: memory is rebuilt from disk and every peer is sent a wake-up.
  ghost function Reboot<T>(cfg: Config, s: System<T>, w: nat): System<T>
    requires w < |s.replicas|
  {
    s.(replicas := s.replicas[w := s.replicas[w].(mem := Restore(s.replicas[w].disk))],
       net := s.net + Sent<T>(Broadcast(cfg, w, WakeUp(w))))
  }

  ghost predicate Enabled<T>(t: Truth<T>, cfg: Config, s: System<T>, step: Step) {
    match step
    case Handle(e, o, cut, outcome) =>
      && Occurs(t, s, e)
      && ValidOrders(Knowing(t, s, e), o)
      && cut <= |Handler(t, cfg, s, e, o)|
      && (outcome == Done ==> cut == |Handler(t, cfg, s, e, o)|)
    case Restart(w) => w < |s.replicas|
    case Duplicate(p) => p in s.net
    case Drop(p) => p in s.net
  }

  // Only a handled message leaves the queue; after an error or a crash it is delivered again.
  function Consumed(e: Event, outcome: Outcome): multiset<Packet> {
    if e.PacketArrives? && outcome == Done then multiset{e.packet} else multiset{}
  }

  ghost function Next<T>(t: Truth<T>, cfg: Config, s: System<T>, step: Step): System<T>
    requires Enabled(t, cfg, s, step)
  {
    match step
    case Handle(e, o, cut, outcome) =>
      var s' := Perform(s, WorkerOf(e), Handler(t, cfg, s, e, o)[..cut]);
      var s'' := s'.(net := s'.net - Consumed(e, outcome));
      if outcome == Crashed then Reboot(cfg, s'', WorkerOf(e)) else s''
    case Restart(w) => Reboot(cfg, s, w)
    case Duplicate(p) => s.(net := s.net + multiset{p})
    case Drop(p) => s.(net := s.net - multiset{p})
  }

  function FirstWakeUps<T>(cfg: Config, n: nat): multiset<Packet> {
    if n == 0 then multiset{}
    else FirstWakeUps<T>(cfg, n - 1) + Sent<T>(Broadcast(cfg, n - 1, WakeUp(n - 1)))
  }

  ghost function Start<T>(cfg: Config): System<T> {
    System(seq(cfg.workers, _ => Replica(EMPTY_VIEW, EMPTY_DISK)), FirstWakeUps<T>(cfg, cfg.workers), [], [])
  }

  // states is a run: it begins at the start and each state follows from the one before by the step.
  ghost predicate IsRun<T>(t: Truth<T>, cfg: Config, states: seq<System<T>>, steps: seq<Step>) {
    && |states| == |steps| + 1
    && states[0] == Start(cfg)
    && forall i :: 0 <= i < |steps| ==>
         Enabled(t, cfg, states[i], steps[i]) && states[i + 1] == Next(t, cfg, states[i], steps[i])
  }
}
