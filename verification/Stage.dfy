// A stage of stateless replicas hands the next stage what it needs: when the stage EOF goes out,
// the distinct published sub-batches hold exactly as many items as the EOF announces.
module Stage {
  import opened EofProtocol
  import opened ReplicaGroup
  import opened Barrier
  import Interrupted

  // ---- A batch that is known anywhere has been published entirely ----

  ghost predicate Out<T>(t: Truth<T>, pub: seq<SubBatch<T>>, id: string) {
    id in t.outputs && forall sub :: sub in t.outputs[id] ==> sub in pub
  }

  // What upstream sent, restricted to the batches whose outputs are all published.
  ghost function PublishedTruth<T>(t: Truth<T>, pub: seq<SubBatch<T>>): Truth<T> {
    t.(records := map id | id in t.records && Out(t, pub, id) :: t.records[id])
  }

  ghost predicate KnownIsPublished<T>(t: Truth<T>, s: System<T>) {
    && Agrees(PublishedTruth(t, s.published), s)
    && (forall f :: f in s.flushes ==> f.known <= PublishedTruth(t, s.published).records.Keys)
    && (forall sub :: sub in s.published ==> exists id :: id in t.outputs && sub in t.outputs[id])
  }

  ghost predicate StageStep(step: Step) { step.Handle? ==> !step.event.BatchCounted? }

  // After an error the batch is recognised when it comes back, or nothing of it is out, or its one
  // sub-batch is published under the same id again. Steps are those of engines whose batcher holds
  // nothing: HandledIsStep in Stateless says that such a step leaves it so, unless an item was refused
  // after others had given results, which is no step here.
  ghost predicate KeepsIds<T>(t: Truth<T>, cfg: Config, s: System<T>, step: Step)
    requires Enabled(t, cfg, s, step)
  {
    step.Handle? && step.event.DataArrives? && step.outcome == Failed ==>
      var e := step.event;
      || step.cut == 0 || |t.outputs[e.batchID]| <= 1
      || e.batchID in s.replicas[e.worker].mem.ownBatches
      || Interrupted.AddsBatch(Handler(t, cfg, s, e, step.orders)[..step.cut], e.batchID)
  }

  ghost predicate IsStageRun<T>(t: Truth<T>, cfg: Config, states: seq<System<T>>, steps: seq<Step>) {
    && IsRun(t, cfg, states, steps)
    && forall i :: 0 <= i < |steps| ==> StageStep(steps[i]) && KeepsIds(t, cfg, states[i], steps[i])
  }

  // ---- More published batches, less restriction ----

  lemma WithinGrows<V(!new)>(m: map<string, V>, t: map<string, V>, t': map<string, V>)
    requires Within(m, t) && Within(t, t')
    ensures Within(m, t')
  {
  }

  lemma AgreesGrows<T>(t: Truth<T>, t': Truth<T>, s: System<T>)
    requires Agrees(t, s) && Within(t.records, t'.records) && t.eofs == t'.eofs
    ensures Agrees(t', s)
  {
    forall w | 0 <= w < |s.replicas|
      ensures ViewAgrees(t', s.replicas[w].mem) && DiskAgrees(t', s.replicas[w].disk)
    {
      assert ViewAgrees(t, s.replicas[w].mem) && DiskAgrees(t, s.replicas[w].disk);
      forall p | p in s.replicas[w].mem.peerBatches
        ensures Within(s.replicas[w].mem.peerBatches[p], t'.records)
      {
        WithinGrows(s.replicas[w].mem.peerBatches[p], t.records, t'.records);
      }
    }
    forall p | p in s.net ensures PacketAgrees(t', p) {
      assert PacketAgrees(t, p);
    }
  }

  lemma PublishedGrows<T>(t: Truth<T>, pub: seq<SubBatch<T>>, more: seq<SubBatch<T>>)
    requires forall sub :: sub in pub ==> sub in more
    ensures Within(PublishedTruth(t, pub).records, PublishedTruth(t, more).records)
  {
  }

  lemma {:induction false} PublishedMember<T>(ops: seq<Op<T>>, sub: SubBatch<T>)
    ensures sub in Published(ops) <==> Publish(sub) in ops
  {
    if ops != [] {
      PublishedMember(ops[..|ops| - 1], sub);
      assert ops == ops[..|ops| - 1] + [ops[|ops| - 1]];
    }
  }

  // ---- Handlers do not look at anything but the record they are given ----

  lemma SameHandler<T>(t: Truth<T>, t': Truth<T>, cfg: Config, s: System<T>, e: Event, o: Orders)
    requires Occurs(t, s, e) && t.eofs == t'.eofs && t.outputs == t'.outputs
    requires Within(t'.records, t.records) && (e.DataArrives? ==> e.batchID in t'.records) && !e.BatchCounted?
    ensures Occurs(t', s, e) && Knowing(t', s, e) == Knowing(t, s, e)
    ensures Handler(t', cfg, s, e, o) == Handler(t, cfg, s, e, o)
  {
  }

  // A step seen with the restricted truth is the same step.
  lemma SameStep<T>(t: Truth<T>, t': Truth<T>, cfg: Config, s: System<T>, step: Step)
    requires Enabled(t, cfg, s, step) && t.eofs == t'.eofs && t.outputs == t'.outputs && StageStep(step)
    requires Within(t'.records, t.records)
    requires step.Handle? && step.event.DataArrives? ==> step.event.batchID in t'.records
    ensures Enabled(t', cfg, s, step) && Next(t', cfg, s, step) == Next(t, cfg, s, step)
  {
    if step.Handle? { SameHandler(t, t', cfg, s, step.event, step.orders); }
  }

  // ---- One step ----

  lemma PublishAllSize<T>(subs: seq<SubBatch<T>>)
    ensures |PublishAll(subs)| == |subs|
  {
  }

  // Cut while still publishing: memory, disk and network are untouched.
  lemma CutWhilePublishing<T>(t: Truth<T>, cfg: Config, s: System<T>, step: Step)
    requires Enabled(t, cfg, s, step) && step.Handle? && step.event.DataArrives?
    requires RecordsNamed(t) && Agrees(PublishedTruth(t, s.published), s)
    requires step.cut <= |t.outputs[step.event.batchID]|
    requires step.event.batchID !in s.replicas[step.event.worker].mem.ownBatches
    ensures Agrees(PublishedTruth(t, s.published), Next(t, cfg, s, step))
    ensures Next(t, cfg, s, step).flushes == s.flushes
  {
    var t' := PublishedTruth(t, s.published);
    var w, id := step.event.worker, step.event.batchID;
    var ops := Handler(t, cfg, s, step.event, step.orders)[..step.cut];
    PublishAllSize(t.outputs[id]);
    assert ops == PublishAll(t.outputs[id])[..step.cut];
    forall op | op in ops ensures op.Publish? {
      PublishAllMember(t.outputs[id], op);
    }
    assert Calls(w, ops) == [] by { NoCallsIn(w, ops); }
    assert AllAgree(t', ops);
    PerformAgrees(t', s, w, ops);
    var s' := Perform(s, w, ops);
    var s'' := s'.(net := s'.net - Consumed(step.event, step.outcome));
    assert Agrees(t', s'');
    if step.outcome == Crashed { RebootAgrees(t', cfg, s'', w); }
  }

  lemma {:induction false} NoCallsIn<T>(w: nat, ops: seq<Op<T>>)
    requires forall op :: op in ops ==> !op.CallFlush?
    ensures Calls(w, ops) == []
  {
    if ops != [] {
      assert ops[|ops| - 1] in ops;
      NoCallsIn(w, ops[..|ops| - 1]);
    }
  }

  lemma NewCallKnows<T>(t: Truth<T>, cfg: Config, s: System<T>, step: Step, f: FlushCall)
    requires Enabled(t, cfg, s, step) && RecordsNamed(t) && Agrees(t, s)
    requires f in Next(t, cfg, s, step).flushes && f !in s.flushes
    ensures f.known <= t.records.Keys
  {
    var e, o := step.event, step.orders;
    CallsMember(WorkerOf(e), Handler(t, cfg, s, e, o)[..step.cut], f);
    HandlerCalls(t, cfg, s, e, o, CallFlush(f.survivors, f.eofID, f.known));
    KnowingAgrees(t, s, e);
    KnownWithin(t, Knowing(t, s, e));
  }

  lemma KnownWithin<T>(t: Truth<T>, v: ClientView)
    requires ViewAgrees(t, v)
    ensures KnownBatches(v) <= t.records.Keys
  {
  }

  lemma PublishesGrow<T>(t: Truth<T>, cfg: Config, s: System<T>, step: Step)
    requires Enabled(t, cfg, s, step)
    ensures s.published <= Next(t, cfg, s, step).published
  {
  }

  // A step taken with the truth restricted to t', all of it published by the end of the step.
  lemma StepWithin<T>(t: Truth<T>, t': Truth<T>, cfg: Config, s: System<T>, step: Step)
    requires Enabled(t, cfg, s, step) && StageStep(step) && RecordsNamed(t)
    requires t.eofs == t'.eofs && t.outputs == t'.outputs && Within(t'.records, t.records) && Agrees(t', s)
    requires step.Handle? && step.event.DataArrives? ==> step.event.batchID in t'.records
    requires Within(t'.records, PublishedTruth(t, Next(t, cfg, s, step).published).records)
    ensures Agrees(PublishedTruth(t, Next(t, cfg, s, step).published), Next(t, cfg, s, step))
    ensures forall f :: f in Next(t, cfg, s, step).flushes && f !in s.flushes ==>
              f.known <= PublishedTruth(t, Next(t, cfg, s, step).published).records.Keys
  {
    SameStep(t, t', cfg, s, step);
    StepAgrees(t', cfg, s, step);
    var s' := Next(t, cfg, s, step);
    AgreesGrows(t', PublishedTruth(t, s'.published), s');
    forall f | f in s'.flushes && f !in s.flushes
      ensures f.known <= PublishedTruth(t, s'.published).records.Keys
    {
      NewCallKnows(t', cfg, s, step, f);
    }
  }

  lemma HandlerPublishes<T>(t: Truth<T>, cfg: Config, s: System<T>, e: Event, o: Orders, cut: nat)
    requires Occurs(t, s, e) && e.DataArrives? && e.batchID !in s.replicas[e.worker].mem.ownBatches
    requires |t.outputs[e.batchID]| <= cut <= |Handler(t, cfg, s, e, o)|
    ensures forall sub :: sub in t.outputs[e.batchID] ==> sub in Published(Handler(t, cfg, s, e, o)[..cut])
  {
    var subs, ops := t.outputs[e.batchID], Handler(t, cfg, s, e, o);
    PublishAllSize(subs);
    forall sub | sub in subs ensures sub in Published(ops[..cut]) {
      PublishAllMember(subs, Publish(sub));
      var i :| 0 <= i < |PublishAll(subs)| && PublishAll(subs)[i] == Publish(sub);
      assert ops[..cut][i] == Publish(sub);
      PublishedMember(ops[..cut], sub);
    }
  }

  lemma StepKnownIsPublished<T>(t: Truth<T>, cfg: Config, s: System<T>, step: Step)
    requires RecordsNamed(t) && KnownIsPublished(t, s) && Enabled(t, cfg, s, step) && StageStep(step)
    ensures Agrees(PublishedTruth(t, Next(t, cfg, s, step).published), Next(t, cfg, s, step))
    ensures forall f :: f in Next(t, cfg, s, step).flushes ==>
              f.known <= PublishedTruth(t, Next(t, cfg, s, step).published).records.Keys
  {
    var s' := Next(t, cfg, s, step);
    var old', new' := PublishedTruth(t, s.published), PublishedTruth(t, s'.published);
    PublishesGrow(t, cfg, s, step);
    PublishedGrows(t, s.published, s'.published);
    if step.Handle? && step.event.DataArrives? && step.event.batchID !in s.replicas[step.event.worker].mem.ownBatches {
      if step.cut < |t.outputs[step.event.batchID]| {
        CutWhilePublishing(t, cfg, s, step);
        AgreesGrows(old', new', s');
      } else {
        HandlerPublishes(t, cfg, s, step.event, step.orders, step.cut);
        AgreesGrows(old', new', s);
        StepWithin(t, new', cfg, s, step);
      }
    } else {
      StepWithin(t, old', cfg, s, step);
    }
  }

  lemma StepPublishesOutputs<T>(t: Truth<T>, cfg: Config, s: System<T>, step: Step, sub: SubBatch<T>)
    requires Enabled(t, cfg, s, step) && StageStep(step)
    requires sub in Next(t, cfg, s, step).published && sub !in s.published
    ensures exists id :: id in t.outputs && sub in t.outputs[id]
  {
    var e, o := step.event, step.orders;
    var ops := Handler(t, cfg, s, e, o);
    PublishedMember(ops[..step.cut], sub);
    assert Publish(sub) in ops;
    HandlerPublishOps(t, cfg, s, e, o, sub);
  }

  lemma RecordPublishesNothing<T>(cfg: Config, me: nat, v: ClientView, r: BatchRecord, o: Orders, op: Op<T>)
    requires op.Publish?
    ensures op !in RecordBatch<T>(cfg, me, v, r, o)
  {
    SendAllMember(Others(me, cfg.workers), BatchInfo(me, [r]), op);
  }

  lemma LocalEOFPublishesNothing<T>(cfg: Config, me: nat, v: ClientView, e: string, n: nat, o: Orders, op: Op<T>)
    requires op.Publish?
    ensures op !in LocalEOF<T>(cfg, me, v, e, n, o)
  {
    SendAllMember(Others(me, cfg.workers), EofArrived(me, e, n), op);
    SharePublishesNothing(cfg, me, MemOp<T>(v, AddOwnEOF(e, n)), o.batches, Others(me, cfg.workers), op);
  }

  lemma AnswerPublishesNothing<T>(cfg: Config, me: nat, v: ClientView, q: nat, o: Orders, op: Op<T>)
    requires op.Publish?
    ensures op !in AnswerWakeUp<T>(cfg, me, v, q, o)
  {
    SendEOFsMember(q, me, v.ownEOFs, o.eofs, op);
    SharePublishesNothing(cfg, me, v, o.batches, [q], op);
  }

  lemma RemoteEOFPublishesNothing<T>(cfg: Config, me: nat, v: ClientView, q: nat, e: string, n: nat, o: Orders, op: Op<T>)
    requires op.Publish?
    ensures op !in RemoteEOF<T>(cfg, me, v, q, e, n, o)
  {
    SharePublishesNothing(cfg, me, MemOp<T>(v, AddPeerEOF(q, e, n)), o.batches, Others(me, cfg.workers), op);
  }

  lemma PacketPublishesNothing<T>(t: Truth<T>, cfg: Config, s: System<T>, p: Packet, o: Orders, op: Op<T>)
    requires Occurs(t, s, PacketArrives(p)) && op.Publish?
    ensures op !in Handler(t, cfg, s, PacketArrives(p), o)
  {
    var v := s.replicas[p.to].mem;
    match p.msg
    case WakeUp(q) => AnswerPublishesNothing(cfg, p.to, v, q, o, op);
    case EofArrived(q, e, n) => RemoteEOFPublishesNothing(cfg, p.to, v, q, e, n, o, op);
    case BatchInfo(q, info) => LearnMember(v, q, info, op);
  }

  lemma HandlerPublishOps<T>(t: Truth<T>, cfg: Config, s: System<T>, e: Event, o: Orders, sub: SubBatch<T>)
    requires Occurs(t, s, e) && !e.BatchCounted? && Publish(sub) in Handler(t, cfg, s, e, o)
    ensures exists id :: id in t.outputs && sub in t.outputs[id]
  {
    var me := WorkerOf(e);
    var v := s.replicas[me].mem;
    var op: Op<T> := Publish(sub);
    match e
    case DataArrives(_, id) =>
      PublishAllMember(t.outputs[id], op);
      RecordPublishesNothing(cfg, me, v, t.records[id], o, op);
    case BatchCounted(_, id) =>
    case EofArrives(_, e) => LocalEOFPublishesNothing(cfg, me, v, e, t.eofs[e], o, op);
    case PacketArrives(p) => PacketPublishesNothing(t, cfg, s, p, o, op);
  }

  lemma SharePublishesNothing<T>(cfg: Config, me: nat, v: ClientView, order: seq<string>, to: seq<nat>, op: Op<T>)
    requires op.Publish?
    ensures op !in ShareOwn<T>(cfg, me, v, order, to)
  {
    SendChunksMember(to, me, Packed(cfg, v, order), op);
  }

  lemma {:induction false} RunKnownIsPublished<T>(t: Truth<T>, cfg: Config, states: seq<System<T>>, steps: seq<Step>, i: nat)
    requires RecordsNamed(t) && IsStageRun(t, cfg, states, steps) && i < |states|
    ensures KnownIsPublished(t, states[i])
  {
    if i == 0 {
      StartSafe(PublishedTruth(t, []), cfg);
    } else {
      RunKnownIsPublished(t, cfg, states, steps, i - 1);
      assert StageStep(steps[i - 1]);
      StepKnownIsPublished(t, cfg, states[i - 1], steps[i - 1]);
      forall sub | sub in states[i].published ensures exists id :: id in t.outputs && sub in t.outputs[id] {
        if sub !in states[i - 1].published {
          StepPublishesOutputs(t, cfg, states[i - 1], steps[i - 1], sub);
        }
      }
    }
  }
}
