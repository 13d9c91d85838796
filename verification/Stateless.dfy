// The engine of a stateless worker: it runs the processor over a batch, sends the results, and
// only then reports the batch to its coordinator.
module Stateless {
  import opened EofProtocol
  import opened Handover
  import opened Coordinator
  import opened ReplicaGroup
  import Barrier
  import Batching
  import Chunks
  import Interrupted
  import Liveness
  import Senders
  import Stage
  import Text

  // ---- Handling a batch as a step of the group ----

  lemma {:induction false} PublishedConcat<T>(a: seq<Op<T>>, b: seq<Op<T>>)
    ensures Published(a + b) == Published(a) + Published(b)
  {
    if b == [] {
      assert a + b == a;
    } else {
      var b' := b[..|b| - 1];
      assert (a + b)[..|a + b| - 1] == a + b';
      PublishedConcat(a, b');
    }
  }

  lemma {:induction false} PublishAllPublishes<T>(subs: seq<SubBatch<T>>)
    ensures Published(PublishAll(subs)) == subs && |PublishAll(subs)| == |subs|
  {
    if subs != [] {
      var init, last := subs[..|subs| - 1], subs[|subs| - 1];
      PublishAllPublishes(init);
      PublishesLast(PublishAll(init), last);
      assert PublishAll(subs) == PublishAll(init) + [Publish(last)] && subs == init + [last];
    }
  }

  lemma PublishesLast<T>(ops: seq<Op<T>>, sub: SubBatch<T>)
    ensures Published(ops + [Publish(sub)]) == Published(ops) + [sub]
  {
    assert (ops + [Publish(sub)])[..|ops|] == ops;
  }

  lemma {:induction false} NothingPublished<T>(ops: seq<Op<T>>)
    requires forall op :: op in ops ==> !op.Publish?
    ensures Published(ops) == []
  {
    if ops != [] {
      assert ops[|ops| - 1] in ops;
      NothingPublished(ops[..|ops| - 1]);
    }
  }

  lemma {:induction false} NothingSent<T>(ops: seq<Op<T>>)
    requires forall op :: op in ops ==> op.Publish?
    ensures Sent(ops) == multiset{}
  {
    if ops != [] {
      assert ops[|ops| - 1] in ops;
      NothingSent(ops[..|ops| - 1]);
    }
  }

  // Publishing first changes nothing but what is published.
  lemma AfterPublishing<T>(v: ClientView, d: Disk, w: nat, subs: seq<SubBatch<T>>, ops: seq<Op<T>>)
    requires forall op :: op in ops ==> !op.Publish?
    ensures var all := PublishAll(subs) + ops;
            && MemAfter(v, all) == MemAfter(v, ops) && DiskAfter(d, all) == DiskAfter(d, ops)
            && Sent(all) == Sent(ops) && Published(all) == subs && Calls(w, all) == Calls(w, ops)
  {
    var pubs := PublishAll(subs);
    forall op | op in pubs ensures op.Publish? { Barrier.PublishAllMember(subs, op); }
    Liveness.SendsKeep(v, d, pubs);
    MemAfterConcat(v, pubs, ops);
    DiskAfterConcat(d, pubs, ops);
    SentConcat(pubs, ops);
    NothingSent(pubs);
    Liveness.CallsConcat(w, pubs, ops);
    Liveness.NoCalls(w, pubs);
    PublishedConcat(pubs, ops);
    PublishAllPublishes(subs);
    NothingPublished(ops);
  }

  lemma PublishThenRecord<T>(s: System<T>, w: nat, subs: seq<SubBatch<T>>, ops: seq<Op<T>>)
    requires w < |s.replicas| && forall op :: op in ops ==> !op.Publish?
    ensures Perform(s, w, PublishAll(subs) + ops) ==
              System(s.replicas[w := Replica(MemAfter(s.replicas[w].mem, ops), DiskAfter(s.replicas[w].disk, ops))],
                     s.net + Sent(ops), s.published + subs, s.flushes + Calls(w, ops))
  {
    AfterPublishing(s.replicas[w].mem, s.replicas[w].disk, w, subs, ops);
  }

  lemma RecordKeepsQuiet<T>(cfg: Config, w: nat, v: ClientView, r: BatchRecord, o: Orders, ops: seq<Op<T>>)
    requires ops <= RecordBatch(cfg, w, v, r, o)
    ensures forall op :: op in ops ==> !op.Publish?
  {
    forall op | op in ops ensures !op.Publish? {
      if op.Publish? { Stage.RecordPublishesNothing(cfg, w, v, r, o, op); }
    }
  }

  lemma {:induction false} PublishAllPrefix<T>(subs: seq<SubBatch<T>>, n: nat)
    requires n <= |subs|
    ensures |PublishAll(subs)| == |subs| && PublishAll(subs)[..n] == PublishAll(subs[..n])
  {
    PublishAllPublishes(subs);
    if n < |subs| {
      var init := subs[..|subs| - 1];
      PublishAllPrefix(init, n);
      assert init[..n] == subs[..n];
    } else {
      assert subs[..n] == subs && PublishAll(subs)[..n] == PublishAll(subs);
    }
  }

  // The first n publications, and if those are all of them what was done for the record.
  lemma PublishedPrefix<T>(subs: seq<SubBatch<T>>, ops: seq<Op<T>>, all: seq<Op<T>>, n: nat)
    requires n <= |subs| && ops <= all && (n < |subs| ==> ops == [])
    ensures |PublishAll(subs[..n]) + ops| == n + |ops|
    ensures PublishAll(subs[..n]) + ops <= PublishAll(subs) + all
    ensures n == |subs| && ops == all ==> PublishAll(subs[..n]) + ops == PublishAll(subs) + all
  {
    PublishAllPrefix(subs, n);
    PublishAllPublishes(subs[..n]);
    if n == |subs| { assert subs[..n] == subs; }
  }

  // A new batch of which n outputs were published, and whose record was then made, wholly or up to
  // an error, is the step of the group in which it arrives.
  lemma DataIsStep<T>(t: Truth<T>, cfg: Config, s: System<T>, w: nat, id: string, o: Orders, ops: seq<Op<T>>, ok: bool,
                      n: nat)
    requires Occurs(t, s, DataArrives(w, id)) && id !in s.replicas[w].mem.ownBatches
    requires ValidOrders(Knowing(t, s, DataArrives(w, id)), o)
    requires n <= |t.outputs[id]| && (n < |t.outputs[id]| ==> ops == [] && !ok)
    requires Performed(ops, RecordBatch(cfg, w, s.replicas[w].mem, t.records[id], o), ok)
    ensures var did := PublishAll(t.outputs[id][..n]) + ops;
            var step := Handle(DataArrives(w, id), o, |did|, if ok then Done else Failed);
            Enabled(t, cfg, s, step) && Next(t, cfg, s, step) == Perform(s, w, did)
  {
    var subs, all := t.outputs[id], RecordBatch(cfg, w, s.replicas[w].mem, t.records[id], o);
    PublishedPrefix(subs, ops, all, n);
    PerformedFromQueue(t, cfg, s, DataArrives(w, id), o, PublishAll(subs[..n]) + ops, ok);
  }

  // What keeping the ids means for such a step.
  lemma DataKeepsIds<T>(t: Truth<T>, cfg: Config, s: System<T>, w: nat, id: string, o: Orders, ops: seq<Op<T>>, ok: bool,
                        n: nat, step: Step)
    requires Occurs(t, s, DataArrives(w, id)) && id !in s.replicas[w].mem.ownBatches
    requires n <= |t.outputs[id]| && (n < |t.outputs[id]| ==> ops == [])
    requires ops <= RecordBatch(cfg, w, s.replicas[w].mem, t.records[id], o)
    requires step == Handle(DataArrives(w, id), o, |PublishAll(t.outputs[id][..n]) + ops|, if ok then Done else Failed)
    requires Enabled(t, cfg, s, step) && Stage.KeepsIds(t, cfg, s, step)
    ensures ok || n + |ops| == 0 || |t.outputs[id]| <= 1 || Interrupted.AddsBatch(ops, id)
  {
    var subs, all := t.outputs[id], RecordBatch(cfg, w, s.replicas[w].mem, t.records[id], o);
    PublishedPrefix(subs, ops, all, n);
    var did := PublishAll(subs[..n]) + ops;
    assert Handler(t, cfg, s, step.event, o)[..|did|] == did;
    if Interrupted.AddsBatch(did, id) {
      var op :| op in did && op.AddOwnBatch? && op.record.batchID == id;
      if op in PublishAll(subs[..n]) { Barrier.PublishAllMember(subs[..n], op); }
      assert op in ops;
    }
  }

  lemma {:induction false} ResultsGrow<U, V>(data: seq<U>, i: nat, process: U -> Results<V>)
    requires i <= |data|
    ensures ResultsOf(data[..i], process) <= ResultsOf(data, process)
    decreases |data| - i
  {
    if i == |data| {
      assert data[..i] == data;
    } else {
      ResultsGrow(data, i + 1, process);
      assert data[..i + 1][..i] == data[..i];
    }
  }

  // ---- What keeps the published ids those of the batch ----

  // The batcher has nothing left to send, and where it has cut a batch into several sub-batches,
  // that batch is among the recorded ones.
  ghost predicate IsIdle<V>(v: Batching.BatcherView<V>, namespace: string, own: map<string, BatchRecord>) {
    && Batching.Tidy(v)
    && forall id :: Batching.Continues(v, Senders.NamespacedID(id, namespace)) ==> id in own
  }

  lemma NamespacedInjective(p: string, q: string, namespace: string)
    ensures Senders.NamespacedID(p, namespace) == Senders.NamespacedID(q, namespace) <==> p == q
  {
    if Senders.NamespacedID(p, namespace) == Senders.NamespacedID(q, namespace) {
      assert |p| == |q|;
      assert p == Senders.NamespacedID(p, namespace)[..|p|] && q == Senders.NamespacedID(q, namespace)[..|q|];
    }
  }

  // An idle batcher publishes what an unrecorded batch determines, and is idle again unless the
  // batch took several sub-batches and is still not recorded.
  lemma SendIdle<V>(v: Batching.BatcherView<V>, namespace: string, own: map<string, BatchRecord>,
                    own': map<string, BatchRecord>, id: string, items: seq<V>, max: nat, sizer: V -> nat)
    requires IsIdle(v, namespace, own) && id !in own && own.Keys <= own'.Keys
    requires forall r :: r in items ==> sizer(r) > 0
    ensures var nid, pieces := Senders.NamespacedID(id, namespace), Chunks.BatchesOf(items, max, sizer);
            var v' := Batching.SendBatch(v, nid, items, max, sizer);
            && v'.published == v.published + Batching.NumberedFrom(nid, pieces, 0)
            && (IsIdle(v', namespace, own') <==> id in own' || |pieces| <= 1)
  {
    var nid := Senders.NamespacedID(id, namespace);
    if items == [] {
      Batching.NothingToSend(v, nid, max, sizer);
    } else {
      Batching.ReplayIff(v, nid, items, max, sizer);
      forall x { NamespacedInjective(x, id, namespace); }
    }
  }

  // Stopped by a failed publication: the batcher holds nothing, and is idle if it had not yet cut
  // the batch into several.
  lemma StoppedIdle<V>(v: Batching.BatcherView<V>, namespace: string, own: map<string, BatchRecord>, id: string,
                       items: seq<V>, max: nat, sizer: V -> nat, v': Batching.BatcherView<V>, k: nat) returns (n: nat)
    requires IsIdle(v, namespace, own) && id !in own
    requires Senders.StoppedAt(v, Senders.NamespacedID(id, namespace), items, max, sizer, v', k)
    ensures var all := Batching.NumberedFrom(Senders.NamespacedID(id, namespace), Chunks.BatchesOf(items, max, sizer), 0);
            && v'.flushed <= n <= v'.flushed + 1 <= |all| && v'.published == v.published + all[..n]
    ensures IsIdle(v', namespace, own) <==> v'.flushed == 0
  {
    var nid := Senders.NamespacedID(id, namespace);
    n := Senders.StoppedPublishes(v, nid, items, max, sizer, v', k);
    forall x { NamespacedInjective(x, id, namespace); }
    assert Batching.Continues(v', nid) <==> v'.flushed > 0;
  }

  // Stopped because an item was refused: what the items before it gave is still held.
  lemma RefusedIdle<V>(v: Batching.BatcherView<V>, namespace: string, own: map<string, BatchRecord>, id: string,
                       some: seq<V>, items: seq<V>, max: nat, sizer: V -> nat) returns (n: nat)
    requires IsIdle(v, namespace, own) && id !in own && some <= items
    ensures var nid := Senders.NamespacedID(id, namespace);
            var all, v' := Batching.NumberedFrom(nid, Chunks.BatchesOf(items, max, sizer), 0),
                           Batching.AddEach(v, nid, some, max, sizer);
            && n <= |all| && v'.published == v.published + all[..n] && (IsIdle(v', namespace, own) <==> some == [])
  {
    var nid := Senders.NamespacedID(id, namespace);
    if some == [] {
      n := 0;
    } else {
      assert !Batching.Continues(v, nid);
      Batching.AddEachShape(v, nid, some, max, sizer, 0);
      n := PrefixCut(nid, some, items, max, sizer);
    }
  }

  // What the first results have filled goes out as with all of them, and something is held.
  lemma PrefixCut<V>(nid: string, some: seq<V>, items: seq<V>, max: nat, sizer: V -> nat) returns (n: nat)
    requires some <= items && some != []
    ensures var c, all := Chunks.AddAll(some, max, sizer), Batching.NumberedFrom(nid, Chunks.BatchesOf(items, max, sizer), 0);
            n <= |all| && Batching.NumberedFrom(nid, c.batches, 0) == all[..n] && c.held != []
  {
    var c := Chunks.AddAll(some, max, sizer);
    Chunks.Conservation(some, max, sizer);
    assert items[..|some|] == some;
    Chunks.CutGrows(items, |some|, max, sizer);
    Batching.NumberedPrefix(nid, c.batches, Chunks.BatchesOf(items, max, sizer), 0);
    n := |c.batches|;
  }

  // What the record adds to the recorded batches.
  lemma RecordOwns<V>(cfg: Config, me: nat, v: ClientView, r: BatchRecord, o: Orders, ops: seq<Op<V>>, ok: bool)
    requires r.batchID !in v.ownBatches && Performed(ops, RecordBatch(cfg, me, v, r, o), ok)
    ensures v.ownBatches.Keys <= MemAfter(v, ops).ownBatches.Keys
    ensures ok ==> r.batchID in MemAfter(v, ops).ownBatches
  {
    Interrupted.MemKeys(v, ops);
    if ok {
      var tell: seq<Op<V>> := if HasAllEOFs(v, cfg.expected) then Broadcast(cfg, me, BatchInfo(me, [r])) else [];
      assert ops[|tell| + 1] == AddOwnBatch(r);
    }
  }

  // How the handling of a new batch ended: its record was made, an item was refused, or a
  // publication failed; with the orders of the record, or the position of the item.
  datatype End = Finished(orders: Orders) | Refused(item: nat) | Stopped(result: nat)

  class StatelessEngine<U, V(!new)> {
    const process: U -> Results<V>
    // For which items the processor returns an error.
    const refuses: U -> bool
    const sender: Senders.SingleSender<V>
    const coordinator: EOFCoordinator<V>
    // The stage EOFs sent downstream: client, survivors, id.
    var eofsSent: seq<(string, nat, string)>

    ghost predicate Valid()
      reads this, sender, sender.table, sender.table.Repr, coordinator, coordinator.Repr
    {
      && sender.table.Valid() && coordinator.Valid()
      && sender.table.Repr !! coordinator.Repr && this !in sender.table.Repr && this !in coordinator.Repr
    }

    constructor (process: U -> Results<V>, refuses: U -> bool, sender: Senders.SingleSender<V>,
                 coordinator: EOFCoordinator<V>)
      requires sender.table.Valid() && coordinator.Valid() && sender.table.Repr !! coordinator.Repr
      ensures Valid() && this.process == process && this.sender == sender && this.coordinator == coordinator
      ensures this.refuses == refuses && eofsSent == []
      ensures sender.table.batchers == map[] ==> forall c :: Idle(c)
    {
      this.process, this.refuses, this.sender, this.coordinator := process, refuses, sender, coordinator;
      eofsSent := [];
    }

    ghost predicate Idle(c: string)
      reads this, sender, sender.table, sender.table.Repr, coordinator, coordinator.Repr
      requires Valid()
    {
      IsIdle(sender.table.View(c), sender.namespace, coordinator.View(c).ownBatches)
    }

    // ---- What a batch determines ----

    ghost function Parent(batchID: string): string { Senders.NamespacedID(batchID, sender.namespace) }

    ghost function Pieces(data: seq<U>): seq<seq<V>> {
      Chunks.BatchesOf(ResultsOf(data, process), sender.table.Max(), sender.table.sizer)
    }

    // The sub-batches as which it is published.
    ghost function Outputs(batchID: string, data: seq<U>): seq<SubBatch<V>> {
      Batching.NumberedFrom(Parent(batchID), Pieces(data), 0)
    }

    ghost function Record(batchID: string, data: seq<U>): BatchRecord {
      BatchRecord(batchID, |data|, SurvivorCount(data, process))
    }

    ghost function AddedTo(v: Batching.BatcherView<V>, batchID: string, results: seq<V>): Batching.BatcherView<V> {
      Batching.AddEach(v, Parent(batchID), results, sender.table.Max(), sender.table.sizer)
    }

    ghost predicate StopsAt(v: Batching.BatcherView<V>, batchID: string, results: seq<V>, v': Batching.BatcherView<V>,
                            k: nat)
    {
      Senders.StoppedAt(v, Parent(batchID), results, sender.table.Max(), sender.table.sizer, v', k)
    }

    ghost predicate RefusedAt(v: Batching.BatcherView<V>, batchID: string, data: seq<U>, v': Batching.BatcherView<V>,
                              i: nat)
    {
      && i < |data| && refuses(data[i]) && (forall x :: x in data[..i] ==> !refuses(x))
      && v' == AddedTo(v, batchID, ResultsOf(data[..i], process))
    }

    ghost predicate SendFailed(v: Batching.BatcherView<V>, batchID: string, data: seq<U>, v': Batching.BatcherView<V>,
                               end: End)
    {
      match end
      case Finished(_) => false
      case Refused(i) => RefusedAt(v, batchID, data, v', i)
      case Stopped(k) => StopsAt(v, batchID, ResultsOf(data, process), v', k)
    }

    // The coordinator made the record of the batch, visiting its maps in the order o.
    ghost predicate RecordedBy(v: ClientView, batchID: string, data: seq<U>, o: Orders, ops: seq<Op<V>>, ok: bool) {
      && ValidOrders(MemOp<V>(v, AddOwnBatch(Record(batchID, data))), o)
      && Performed(ops, RecordBatch(coordinator.cfg, coordinator.me, v, Record(batchID, data), o), ok)
    }

    // How a new batch was handled: the batcher went from v to v', and the coordinator, which knew
    // view, performed ops.
    ghost predicate Handled(v: Batching.BatcherView<V>, view: ClientView, batchID: string, data: seq<U>,
                            v': Batching.BatcherView<V>, ops: seq<Op<V>>, acked: bool, end: End)
    {
      match end
      case Finished(o) =>
        && v' == Batching.FlushView(AddedTo(v, batchID, ResultsOf(data, process)), sender.table.sizer)
        && (forall x :: x in data ==> !refuses(x)) && RecordedBy(view, batchID, data, o, ops, acked)
      case Refused(i) => RefusedAt(v, batchID, data, v', i) && ops == [] && !acked
      case Stopped(k) => StopsAt(v, batchID, ResultsOf(data, process), v', k) && ops == [] && !acked
    }

    // ---- Running the processor ----

    // Every result of the batch is added under the batch's id, up to the first error; the
    // survivors are counted apart.
    method RunProcessor(clientID: string, batchID: string, data: seq<U>)
      returns (ok: bool, survivors: nat, ghost end: End)
      requires Valid()
      modifies sender.table.Repr
      ensures Valid() && fresh(sender.table.Repr - old(sender.table.Repr))
      ensures ok ==>
                && survivors == SurvivorCount(data, process) && (forall x :: x in data ==> !refuses(x))
                && sender.table.View(clientID) ==
                     AddedTo(old(sender.table.View(clientID)), batchID, ResultsOf(data, process))
      ensures !ok ==> SendFailed(old(sender.table.View(clientID)), batchID, data, sender.table.View(clientID), end)
      ensures forall c :: c != clientID ==> sender.table.View(c) == old(sender.table.View(c))
    {
      survivors := 0;
      for i := 0 to |data|
        invariant Valid() && fresh(sender.table.Repr - old(sender.table.Repr))
        invariant survivors == SurvivorCount(data[..i], process) && NoneRefused(data, i)
        invariant sender.table.View(clientID) == AddedUpto(old(sender.table.View(clientID)), batchID, data, i)
        invariant forall c :: c != clientID ==> sender.table.View(c) == old(sender.table.View(c))
      {
        NextItem(data, i);
        var counted;
        ok, counted, end := RunItem(clientID, batchID, data, i, old(sender.table.View(clientID)));
        if !ok { return; }
        survivors := survivors + counted;
      }
      assert data[..|data|] == data;
      return true, survivors, Stopped(0);
    }

    method RunItem(clientID: string, batchID: string, data: seq<U>, i: nat, ghost from: Batching.BatcherView<V>)
      returns (ok: bool, counted: nat, ghost end: End)
      requires Valid() && i < |data| && NoneRefused(data, i)
      requires sender.table.View(clientID) == AddedUpto(from, batchID, data, i)
      modifies sender.table.Repr
      ensures Valid() && fresh(sender.table.Repr - old(sender.table.Repr))
      ensures ok ==> !refuses(data[i]) && counted == Counted(process(data[i]))
                     && sender.table.View(clientID) == AddedUpto(from, batchID, data, i + 1)
      ensures !ok ==> SendFailed(from, batchID, data, sender.table.View(clientID), end)
      ensures forall c :: c != clientID ==> sender.table.View(c) == old(sender.table.View(c))
    {
      NextItem(data, i);
      counted := 0;
      if refuses(data[i]) { return false, 0, Refused(i); }
      var r := process(data[i]);
      ghost var k;
      ok, k := AddResults(clientID, batchID, r.results, from, ResultsOf(data[..i], process));
      end := Stopped(k);
      if !ok {
        StillStopped(from, batchID, data, i + 1, sender.table.View(clientID), k);
        return;
      }
      if !r.multi {
        if |r.results| > 0 { counted := 1; }
      } else {
        counted := |r.results|;
      }
    }

    ghost predicate NoneRefused(data: seq<U>, i: nat) { i <= |data| && forall x :: x in data[..i] ==> !refuses(x) }

    ghost function AddedUpto(v: Batching.BatcherView<V>, batchID: string, data: seq<U>, i: nat): Batching.BatcherView<V>
      requires i <= |data|
    {
      AddedTo(v, batchID, ResultsOf(data[..i], process))
    }

    lemma NextItem(data: seq<U>, i: nat)
      requires i < |data|
      ensures ResultsOf(data[..i + 1], process) == ResultsOf(data[..i], process) + process(data[i]).results
      ensures SurvivorCount(data[..i + 1], process) == SurvivorCount(data[..i], process) + Counted(process(data[i]))
      ensures NoneRefused(data, i) && !refuses(data[i]) ==> NoneRefused(data, i + 1)
    {
      assert data[..i + 1] == data[..i] + [data[i]];
      assert data[..i + 1][..i] == data[..i];
    }

    lemma StillStopped(v: Batching.BatcherView<V>, batchID: string, data: seq<U>, i: nat, v': Batching.BatcherView<V>,
                       k: nat)
      requires i <= |data| && k < |ResultsOf(data[..i], process)|
      requires StopsAt(v, batchID, ResultsOf(data[..i], process), v', k)
      ensures StopsAt(v, batchID, ResultsOf(data, process), v', k)
    {
      ResultsGrow(data, i, process);
      var some, all := ResultsOf(data[..i], process), ResultsOf(data, process);
      assert some[..k] == all[..k];
    }

    method AddResults(clientID: string, batchID: string, results: seq<V>, ghost from: Batching.BatcherView<V>,
                      ghost before: seq<V>)
      returns (ok: bool, ghost k: nat)
      requires Valid() && sender.table.View(clientID) == AddedTo(from, batchID, before)
      modifies sender.table.Repr
      ensures Valid() && fresh(sender.table.Repr - old(sender.table.Repr))
      ensures ok ==> sender.table.View(clientID) == AddedTo(from, batchID, before + results)
      ensures !ok ==> k < |before + results| && StopsAt(from, batchID, before + results, sender.table.View(clientID), k)
      ensures forall c :: c != clientID ==> sender.table.View(c) == old(sender.table.View(c))
    {
      AddedEnds(from, batchID, before, results);
      k := |before|;
      for i := 0 to |results|
        invariant Valid() && fresh(sender.table.Repr - old(sender.table.Repr))
        invariant sender.table.View(clientID) == AddedAlso(from, batchID, before, results, i)
        invariant forall c :: c != clientID ==> sender.table.View(c) == old(sender.table.View(c))
      {
        ok, k := AddResult(clientID, batchID, results, i, from, before);
        if !ok { return; }
      }
      ok := true;
    }

    method AddResult(clientID: string, batchID: string, results: seq<V>, i: nat, ghost from: Batching.BatcherView<V>,
                     ghost before: seq<V>)
      returns (ok: bool, ghost k: nat)
      requires Valid() && i < |results| && sender.table.View(clientID) == AddedAlso(from, batchID, before, results, i)
      modifies sender.table.Repr
      ensures Valid() && fresh(sender.table.Repr - old(sender.table.Repr))
      ensures ok ==> sender.table.View(clientID) == AddedAlso(from, batchID, before, results, i + 1)
      ensures !ok ==> k < |before + results| && StopsAt(from, batchID, before + results, sender.table.View(clientID), k)
      ensures forall c :: c != clientID ==> sender.table.View(c) == old(sender.table.View(c))
    {
      k := |before| + i;
      ok := sender.Add(clientID, results[i], batchID);
      AddedOne(from, batchID, before, results, i, k, sender.table.View(clientID), ok);
    }

    lemma AddedEnds(from: Batching.BatcherView<V>, batchID: string, before: seq<V>, results: seq<V>)
      ensures AddedAlso(from, batchID, before, results, 0) == AddedTo(from, batchID, before)
      ensures AddedAlso(from, batchID, before, results, |results|) == AddedTo(from, batchID, before + results)
    {
      assert before + results[..0] == before && results[..|results|] == results;
    }

    ghost function AddedAlso(from: Batching.BatcherView<V>, batchID: string, before: seq<V>, results: seq<V>, i: nat)
      : Batching.BatcherView<V>
      requires i <= |results|
    {
      AddedTo(from, batchID, before + results[..i])
    }

    lemma AddedOne(from: Batching.BatcherView<V>, batchID: string, before: seq<V>, results: seq<V>, i: nat, k: nat,
                   v': Batching.BatcherView<V>, ok: bool)
      requires i < |results| && k == |before| + i
      requires Senders.Took(Batching.SetId(AddedAlso(from, batchID, before, results, i), Parent(batchID), ""), results[i],
                            sender.table.Max(), sender.table.sizer, v', ok)
      ensures ok ==> v' == AddedAlso(from, batchID, before, results, i + 1)
      ensures !ok ==> k < |before + results| && StopsAt(from, batchID, before + results, v', k)
    {
      Senders.OneMore(from, Parent(batchID), before + results[..i], results[i], sender.table.Max(), sender.table.sizer);
      Text.TakeOneMore(before, results, i);
      assert (before + results)[..k] == before + results[..i];
    }

    // ---- Handling a batch ----

    // A batch already counted is only acknowledged. A new one has its results sent, and then its
    // record names the items processed and the survivors; an error on the way ends the handling.
    method HandleDataMessage(clientID: string, batchID: string, data: seq<U>)
      returns (acked: bool, ghost ops: seq<Op<V>>, ghost end: End)
      requires Valid()
      modifies sender.table.Repr, coordinator.Repr
      ensures Valid() && coordinator.Did(clientID, ops)
      ensures batchID in old(coordinator.View(clientID)).ownBatches ==>
                acked && ops == [] && sender.table.View(clientID) == old(sender.table.View(clientID))
      ensures batchID !in old(coordinator.View(clientID)).ownBatches ==>
                Handled(old(sender.table.View(clientID)), old(coordinator.View(clientID)), batchID, data,
                        sender.table.View(clientID), ops, acked, end)
      ensures forall c :: c != clientID ==> sender.table.View(c) == old(sender.table.View(c))
    {
      var seen := coordinator.HasSeenBatch(clientID, batchID);
      if seen { return true, [], Stopped(0); }
      ghost var mid := coordinator.trace;
      acked, ops, end := HandleNew(clientID, batchID, data);
      DidAfterNothing(old(coordinator.trace), mid, coordinator.trace, clientID, ops);
    }

    method HandleNew(clientID: string, batchID: string, data: seq<U>)
      returns (acked: bool, ghost ops: seq<Op<V>>, ghost end: End)
      requires Valid()
      modifies sender.table.Repr, coordinator.Repr
      ensures Valid() && coordinator.Did(clientID, ops)
      ensures Handled(old(sender.table.View(clientID)), old(coordinator.View(clientID)), batchID, data,
                      sender.table.View(clientID), ops, acked, end)
      ensures forall c :: c != clientID ==> sender.table.View(c) == old(sender.table.View(c))
    {
      var survivors;
      acked, survivors, end := SendResults(clientID, batchID, data);
      ops := [];
      if !acked { return; }
      ghost var o;
      acked, ops, o := coordinator.RecordBatch(clientID, batchID, |data|, survivors);
      assert RecordedBy(old(coordinator.View(clientID)), batchID, data, o, ops, acked);
      end := Finished(o);
    }

    method SendResults(clientID: string, batchID: string, data: seq<U>)
      returns (ok: bool, survivors: nat, ghost end: End)
      requires Valid()
      modifies sender.table.Repr
      ensures Valid() && fresh(sender.table.Repr - old(sender.table.Repr))
      ensures ok ==>
                && survivors == SurvivorCount(data, process) && (forall x :: x in data ==> !refuses(x))
                && sender.table.View(clientID) ==
                     Batching.FlushView(AddedTo(old(sender.table.View(clientID)), batchID, ResultsOf(data, process)),
                                        sender.table.sizer)
      ensures !ok ==> SendFailed(old(sender.table.View(clientID)), batchID, data, sender.table.View(clientID), end)
      ensures forall c :: c != clientID ==> sender.table.View(c) == old(sender.table.View(c))
    {
      ok, survivors, end := RunProcessor(clientID, batchID, data);
      if !ok { return; }
      ok := sender.Flush(clientID);
      end := Stopped(|ResultsOf(data, process)|);
      var results := ResultsOf(data, process);
      assert results[..|results|] == results;
    }

    // ---- What the handling publishes, and as which step of the group ----

    ghost predicate IdleEnd(batchID: string, data: seq<U>, v': Batching.BatcherView<V>, own': map<string, BatchRecord>,
                            end: End)
    {
      match end
      case Finished(_) => batchID in own' || |Pieces(data)| <= 1
      case Stopped(_) => v'.flushed == 0
      case Refused(i) => i < |data| && ResultsOf(data[..i], process) == []
    }

    // From an idle batcher the first n outputs of the batch are published, all of them unless an
    // error stopped the handling. The batcher is idle again if and only if the batch is then
    // recorded or fitted in one sub-batch; after a failed publication, if no sub-batch but the
    // first was begun; after a refused item, if the items before it gave nothing.
    lemma HandledPublishes(v: Batching.BatcherView<V>, view: ClientView, batchID: string, data: seq<U>,
                           v': Batching.BatcherView<V>, ops: seq<Op<V>>, acked: bool, end: End)
      returns (n: nat)
      requires batchID !in view.ownBatches && Handled(v, view, batchID, data, v', ops, acked, end)
      requires IsIdle(v, sender.namespace, view.ownBatches) && PositiveResults(data, process, sender.table.sizer)
      ensures n <= |Outputs(batchID, data)| && v'.published == v.published + Outputs(batchID, data)[..n]
      ensures end.Finished? ==> n == |Outputs(batchID, data)|
      ensures end.Stopped? ==> v'.flushed <= n <= v'.flushed + 1 <= |Outputs(batchID, data)|
      ensures acked ==> batchID in MemAfter(view, ops).ownBatches
      ensures IsIdle(v', sender.namespace, MemAfter(view, ops).ownBatches) <==>
                IdleEnd(batchID, data, v', MemAfter(view, ops).ownBatches, end)
    {
      var results := ResultsOf(data, process);
      match end
      case Finished(o) =>
        RecordOwns(coordinator.cfg, coordinator.me, view, Record(batchID, data), o, ops, acked);
        SendIdle(v, sender.namespace, view.ownBatches, MemAfter(view, ops).ownBatches, batchID, results,
                 sender.table.Max(), sender.table.sizer);
        n := |Outputs(batchID, data)|;
        assert Outputs(batchID, data)[..n] == Outputs(batchID, data);
      case Stopped(k) =>
        n := StoppedIdle(v, sender.namespace, view.ownBatches, batchID, results, sender.table.Max(), sender.table.sizer,
                         v', k);
      case Refused(i) =>
        ResultsGrow(data, i, process);
        n := RefusedIdle(v, sender.namespace, view.ownBatches, batchID, ResultsOf(data[..i], process), results,
                         sender.table.Max(), sender.table.sizer);
    }

    // An item was refused after others had given results.
    ghost predicate LeavesResults(data: seq<U>, end: End) {
      end.Refused? && end.item <= |data| && ResultsOf(data[..end.item], process) != []
    }

    lemma OutputsSize(batchID: string, data: seq<U>)
      ensures |Outputs(batchID, data)| == |Pieces(data)|
    {
      if Pieces(data) != [] { Batching.NumberedFromAt(Parent(batchID), Pieces(data), 0, 0); }
    }

    // A step that keeps the ids of its batch leaves the batcher idle, unless results were left in it.
    lemma KeepsIdle(v: Batching.BatcherView<V>, view: ClientView, batchID: string, data: seq<U>,
                    v': Batching.BatcherView<V>, ops: seq<Op<V>>, acked: bool, end: End, n: nat)
      requires batchID !in view.ownBatches && Handled(v, view, batchID, data, v', ops, acked, end)
      requires end.Stopped? ==> v'.flushed <= n && v'.flushed + 1 <= |Outputs(batchID, data)|
      requires end.Finished? ==> n == |Outputs(batchID, data)|
      requires acked || n + |ops| == 0 || |Outputs(batchID, data)| <= 1 || Interrupted.AddsBatch(ops, batchID)
      ensures IdleEnd(batchID, data, v', MemAfter(view, ops).ownBatches, end) <==> !LeavesResults(data, end)
    {
      OutputsSize(batchID, data);
      if end.Finished? {
        RecordOwns(coordinator.cfg, coordinator.me, view, Record(batchID, data), end.orders, ops, acked);
        Interrupted.MemKeys(view, ops);
      }
    }

    lemma IdleAfter(v: Batching.BatcherView<V>, view: ClientView, batchID: string, data: seq<U>,
                    v': Batching.BatcherView<V>, ops: seq<Op<V>>, acked: bool, end: End, n: nat,
                    t: Truth<V>, s: System<V>, o: Orders, step: Step)
      requires batchID !in view.ownBatches && Handled(v, view, batchID, data, v', ops, acked, end)
      requires end.Stopped? ==> v'.flushed <= n && v'.flushed + 1 <= |Outputs(batchID, data)|
      requires end.Finished? ==> n == |Outputs(batchID, data)|
      requires coordinator.me < |s.replicas| && view == s.replicas[coordinator.me].mem
      requires batchID in t.records && t.records[batchID] == Record(batchID, data)
      requires batchID in t.outputs && t.outputs[batchID] == Outputs(batchID, data)
      requires n <= |Outputs(batchID, data)| && (n < |Outputs(batchID, data)| ==> ops == [])
      requires ops <= RecordBatch(coordinator.cfg, coordinator.me, view, Record(batchID, data), o)
      requires step == Handle(DataArrives(coordinator.me, batchID), o,
                              |PublishAll(Outputs(batchID, data)[..n]) + ops|, if acked then Done else Failed)
      requires Enabled(t, coordinator.cfg, s, step)
      ensures var idle := IdleEnd(batchID, data, v', MemAfter(view, ops).ownBatches, end);
              if LeavesResults(data, end) then !idle else acked || Stage.KeepsIds(t, coordinator.cfg, s, step) ==> idle
    {
      if Stage.KeepsIds(t, coordinator.cfg, s, step) {
        DataKeepsIds(t, coordinator.cfg, s, coordinator.me, batchID, o, ops, acked, n, step);
        KeepsIdle(v, view, batchID, data, v', ops, acked, end, n);
      }
    }

    // The same said of what the engine holds and knows before and after.
    lemma StepOf(v: Batching.BatcherView<V>, view: ClientView, batchID: string, data: seq<U>,
                 v': Batching.BatcherView<V>, ops: seq<Op<V>>, acked: bool, end: End, t: Truth<V>, s: System<V>)
      returns (step: Step, n: nat)
      requires batchID !in view.ownBatches && Handled(v, view, batchID, data, v', ops, acked, end)
      requires IsIdle(v, sender.namespace, view.ownBatches) && PositiveResults(data, process, sender.table.sizer)
      requires coordinator.me < |s.replicas| && view == s.replicas[coordinator.me].mem
      requires batchID in t.records && t.records[batchID] == Record(batchID, data)
      requires batchID in t.outputs && t.outputs[batchID] == Outputs(batchID, data)
      ensures Enabled(t, coordinator.cfg, s, step) && step.Handle? && step.event == DataArrives(coordinator.me, batchID)
      ensures step.outcome == (if acked then Done else Failed) && n <= |Outputs(batchID, data)|
      ensures var s' := Next(t, coordinator.cfg, s, step);
              && s'.replicas == s.replicas[coordinator.me :=
                   Replica(MemAfter(view, ops), DiskAfter(s.replicas[coordinator.me].disk, ops))]
              && s'.published == s.published + Outputs(batchID, data)[..n]
      ensures v'.published == v.published + Outputs(batchID, data)[..n]
      ensures var idle := IsIdle(v', sender.namespace, MemAfter(view, ops).ownBatches);
              if LeavesResults(data, end) then !idle else acked || Stage.KeepsIds(t, coordinator.cfg, s, step) ==> idle
    {
      n := HandledPublishes(v, view, batchID, data, v', ops, acked, end);
      var o := if end.Finished? then end.orders else AnyOrders(MemOp<V>(view, AddOwnBatch(Record(batchID, data))));
      DataIsStep(t, coordinator.cfg, s, coordinator.me, batchID, o, ops, acked, n);
      RecordKeepsQuiet(coordinator.cfg, coordinator.me, view, Record(batchID, data), o, ops);
      PublishThenRecord(s, coordinator.me, Outputs(batchID, data)[..n], ops);
      var did := PublishAll(Outputs(batchID, data)[..n]) + ops;
      step := Handle(DataArrives(coordinator.me, batchID), o, |did|, if acked then Done else Failed);
      IdleAfter(v, view, batchID, data, v', ops, acked, end, n, t, s, o, step);
    }

    // An engine that is its worker of the group, handling a new batch, takes the step in which the
    // batch arrives, done or cut short: it publishes the outputs, or the first of them, that the
    // group attributes to the batch, and its memory and disk are the worker's afterwards. It is idle
    // again after a step that is done or keeps the ids of the batch, unless it has left results in the
    // batcher; and if it has, it is not.
    twostate lemma HandledIsStep(c: string, batchID: string, data: seq<U>, acked: bool, new ops: seq<Op<V>>, new end: End,
                                 t: Truth<V>, s: System<V>) returns (step: Step, n: nat)
      requires old(Valid()) && Valid() && coordinator.Did(c, ops)
      requires batchID !in old(coordinator.View(c)).ownBatches
      requires Handled(old(sender.table.View(c)), old(coordinator.View(c)), batchID, data, sender.table.View(c), ops,
                       acked, end)
      requires old(Idle(c)) && PositiveResults(data, process, sender.table.sizer)
      requires coordinator.me < |s.replicas| && old(coordinator.Is(c, s.replicas[coordinator.me]))
      requires batchID in t.records && t.records[batchID] == Record(batchID, data)
      requires batchID in t.outputs && t.outputs[batchID] == Outputs(batchID, data)
      ensures Enabled(t, coordinator.cfg, s, step) && step.Handle? && step.event == DataArrives(coordinator.me, batchID)
      ensures step.outcome == (if acked then Done else Failed) && n <= |Outputs(batchID, data)|
      ensures var s' := Next(t, coordinator.cfg, s, step);
              && coordinator.Is(c, s'.replicas[coordinator.me])
              && s'.published == s.published + Outputs(batchID, data)[..n]
              && sender.table.View(c).published == old(sender.table.View(c)).published + Outputs(batchID, data)[..n]
      ensures if LeavesResults(data, end) then !Idle(c)
              else acked || Stage.KeepsIds(t, coordinator.cfg, s, step) ==> Idle(c)
    {
      coordinator.Effect(c, ops);
      step, n := StepOf(old(sender.table.View(c)), old(coordinator.View(c)), batchID, data, sender.table.View(c), ops, acked,
                        end, t, s);
    }

    // What the coordinator calls as its flush handler: only the leader tells the next stage.
    method HandleTrueEOF(clientID: string, survivorCount: nat, eofID: string)
      modifies this`eofsSent
      ensures eofsSent == old(eofsSent) + (if coordinator.me == 0
                            then [(clientID, survivorCount, Senders.NamespacedID(eofID, sender.namespace))] else [])
    {
      if coordinator.me != 0 { return; }
      eofsSent := eofsSent + [(clientID, survivorCount, eofID + "-" + sender.namespace)];
    }
  }
}
