// The harm is real: a crash that leaves one worker holding the whole input unflushed, with no news
// under way, loses its flush for good, because what is redelivered is already on disk and skipped.
module LostFlush {
  import opened Sums
  import opened EofProtocol
  import opened ReplicaGroup
  import opened Barrier
  import opened Liveness
  import opened Interrupted
  import NoLostFlush

  // ---- A worker that nobody can tell anything ----

  ghost predicate HasNothing(r: Replica) {
    r.mem.ownBatches == map[] && r.mem.ownEOFs == map[] && r.disk.batches == map[] && r.disk.eofs == map[]
  }

  ghost predicate NoNewsFor<T>(s: System<T>, w: nat) {
    forall p :: p in s.net && p.to == w ==> p.msg.WakeUp? && p.msg.sender != w
  }

  // Nobody but w holds anything from the queue, and only wake-ups are on their way to w.
  ghost predicate Deaf<T>(s: System<T>, w: nat) {
    && w < |s.replicas| && Synced(s.replicas[w]) && NoNewsFor(s, w)
    && forall x :: 0 <= x < |s.replicas| && x != w ==> HasNothing(s.replicas[x])
  }

  // The queue brings nothing new: at most what w already holds, once more.
  ghost predicate BringsNothing<T>(s: System<T>, w: nat, step: Step)
    requires w < |s.replicas|
  {
    step.Handle? ==>
      match step.event
      case DataArrives(x, id) => x == w && id in s.replicas[w].mem.ownBatches
      case BatchCounted(x, id) => x == w && id in s.replicas[w].mem.ownBatches
      case EofArrives(x, e) => x == w && e in s.replicas[w].mem.ownEOFs
      case PacketArrives(_) => true
  }

  lemma {:induction false} NoRecordsIn(order: seq<string>)
    ensures RecordsIn(map[], order) == []
  {
    if order != [] {
      NoRecordsIn(order[1..]);
    }
  }

  lemma NothingToShare<T>(cfg: Config, me: nat, v: ClientView, order: seq<string>, to: seq<nat>)
    requires v.ownBatches == map[]
    ensures ShareOwn<T>(cfg, me, v, order, to) == []
  {
    NoRecordsIn(order);
  }

  // Who holds nothing sends nothing.
  lemma NothingSent<T>(t: Truth<T>, cfg: Config, s: System<T>, p: Packet, o: Orders, m: Packet)
    requires Occurs(t, s, PacketArrives(p)) && HasNothing(s.replicas[p.to])
    ensures Send(m) !in Handler(t, cfg, s, PacketArrives(p), o)
  {
    var w, v := p.to, s.replicas[p.to].mem;
    match p.msg
    case WakeUp(q) => NothingToAnswer<T>(cfg, w, v, q, o, m);
    case EofArrived(q, e, n) => NothingPassedOn<T>(cfg, w, v, q, e, n, o, m);
    case BatchInfo(q, info) => NothingAfterLearning<T>(cfg, v, q, info, o, m);
  }

  lemma NothingPassedOn<T>(cfg: Config, w: nat, v: ClientView, q: nat, e: string, n: nat, o: Orders, m: Packet)
    requires v.ownBatches == map[]
    ensures Send(m) !in RemoteEOF<T>(cfg, w, v, q, e, n, o)
  {
    NothingToShare<T>(cfg, w, MemOp<T>(v, AddPeerEOF(q, e, n)), o.batches, Others(w, cfg.workers));
  }

  lemma NothingAfterLearning<T>(cfg: Config, v: ClientView, q: nat, info: seq<BatchRecord>, o: Orders, m: Packet)
    ensures Send(m) !in RemoteBatch<T>(cfg, v, q, info, o)
  {
    LearnMember<T>(v, q, info, Send(m));
  }

  lemma NothingToAnswer<T>(cfg: Config, w: nat, v: ClientView, q: nat, o: Orders, m: Packet)
    requires v.ownBatches == map[] && v.ownEOFs == map[]
    ensures Send(m) !in AnswerWakeUp<T>(cfg, w, v, q, o)
  {
    SendEOFsMember<T>(q, w, v.ownEOFs, o.eofs, Send(m));
    NothingToShare<T>(cfg, w, v, o.batches, [q]);
  }

  lemma NothingSentBy<T>(t: Truth<T>, cfg: Config, s: System<T>, p: Packet, o: Orders, cut: nat)
    requires Occurs(t, s, PacketArrives(p)) && HasNothing(s.replicas[p.to])
    requires cut <= |Handler(t, cfg, s, PacketArrives(p), o)|
    ensures forall m :: Send(m) !in Handler(t, cfg, s, PacketArrives(p), o)[..cut]
  {
    forall m ensures Send(m) !in Handler(t, cfg, s, PacketArrives(p), o)[..cut] { NothingSent(t, cfg, s, p, o, m); }
  }

  lemma AnswerGoesToAsker<T>(cfg: Config, me: nat, v: ClientView, q: nat, o: Orders, m: Packet)
    requires Send(m) in AnswerWakeUp<T>(cfg, me, v, q, o)
    ensures m.to == q
  {
    SendEOFsMember<T>(q, me, v.ownEOFs, o.eofs, Send(m));
    SendChunksMember<T>([q], me, Packed(cfg, v, o.batches), Send(m));
  }

  lemma OthersOnly<T>(cfg: Config, me: nat, v: ClientView, o: Orders, msg: Msg, m: Packet)
    requires Send(m) in Broadcast<T>(cfg, me, msg) || Send(m) in ShareWhenComplete<T>(cfg, me, v, o)
    ensures m.to != me
  {
    SendAllMember<T>(Others(me, cfg.workers), msg, Send(m));
    SendChunksMember<T>(Others(me, cfg.workers), me, Packed(cfg, v, o.batches), Send(m));
    OthersMember(me, cfg.workers, m.to);
  }

  // What comes from the queue is passed on to the others.
  lemma QueueGoesElsewhere<T>(t: Truth<T>, cfg: Config, s: System<T>, e: Event, o: Orders, m: Packet)
    requires Occurs(t, s, e) && !e.PacketArrives? && Send(m) in Handler(t, cfg, s, e, o)
    ensures m.to != WorkerOf(e)
  {
    var w, v := WorkerOf(e), s.replicas[WorkerOf(e)].mem;
    match e
    case DataArrives(_, id) =>
      PublishAllMember<T>(t.outputs[id], Send(m));
      RecordGoesElsewhere<T>(cfg, w, v, t.records[id], o, m);
    case BatchCounted(_, id) => RecordGoesElsewhere<T>(cfg, w, v, t.records[id], o, m);
    case EofArrives(_, id) => LocalEOFGoesElsewhere<T>(cfg, w, v, id, t.eofs[id], o, m);
  }

  lemma LocalEOFGoesElsewhere<T>(cfg: Config, w: nat, v: ClientView, id: string, n: nat, o: Orders, m: Packet)
    requires Send(m) in LocalEOF<T>(cfg, w, v, id, n, o)
    ensures m.to != w
  {
    OthersOnly<T>(cfg, w, MemOp<T>(v, AddOwnEOF(id, n)), o, EofArrived(w, id, n), m);
  }

  lemma RecordGoesElsewhere<T>(cfg: Config, w: nat, v: ClientView, r: BatchRecord, o: Orders, m: Packet)
    requires Send(m) in RecordBatch<T>(cfg, w, v, r, o)
    ensures m.to != w
  {
    OthersOnly<T>(cfg, w, v, o, BatchInfo(w, [r]), m);
  }

  // ---- It stays that way ----

  ghost predicate SameOwn(v: ClientView, v': ClientView) {
    v'.ownBatches == v.ownBatches && v'.ownEOFs == v.ownEOFs && v'.flushed == v.flushed
  }

  ghost predicate StaysUnflushed<T>(s: System<T>, s': System<T>, w: nat)
    requires w < |s.replicas|
  {
    Deaf(s', w) && SameOwn(s.replicas[w].mem, s'.replicas[w].mem) && CallsBy(s'.flushes, w) == CallsBy(s.flushes, w)
  }

  lemma RebootStays<T>(cfg: Config, s: System<T>, w: nat, x: nat)
    requires Deaf(s, w) && x < |s.replicas|
    ensures StaysUnflushed(s, Reboot(cfg, s, x), w)
  {
    RestoredKnows(s.replicas[x].disk);
    forall p | p in Sent<T>(Broadcast(cfg, x, WakeUp(x))) ensures p.msg == WakeUp(x) && p.to != x {
      SentMember(Broadcast<T>(cfg, x, WakeUp(x)), p);
      SendAllMember<T>(Others(x, cfg.workers), WakeUp(x), Send(p));
      OthersMember(x, cfg.workers, p.to);
    }
  }

  // The worker x performs ops that change nothing it owns and send nothing to w.
  lemma PerformStays<T>(s: System<T>, w: nat, x: nat, ops: seq<Op<T>>, gone: multiset<Packet>)
    requires Deaf(s, w) && x < |s.replicas| && OwnsNothing(ops)
    requires x == w ==> OnlySends(ops)
    requires forall m :: Send(m) in ops ==> m.to != w
    ensures var s' := Perform(s, x, ops); StaysUnflushed(s, s'.(net := s'.net - gone), w)
  {
    forall p | p in Sent(ops) ensures p.to != w { SentMember(ops, p); }
    CallsByConcat(s.flushes, Calls(x, ops), w);
    CallsByOne(x, ops, w);
    if x == w {
      NoCalls(x, ops);
      SendsKeep(s.replicas[x].mem, s.replicas[x].disk, ops);
    } else {
      StillNothing(s.replicas[x], ops);
    }
  }

  lemma StillNothing<T>(r: Replica, ops: seq<Op<T>>)
    requires HasNothing(r) && OwnsNothing(ops)
    ensures HasNothing(Replica(MemAfter(r.mem, ops), DiskAfter(r.disk, ops)))
  {
    DiskOwnsNothing(r.disk, ops);
    MemKeys(r.mem, ops);
    assert forall op :: op in ops ==> !Owns(op);
    assert MemAfter(r.mem, ops).ownBatches.Keys == {} && MemAfter(r.mem, ops).ownEOFs.Keys == {};
  }

  // No handler tells w anything.
  lemma NothingForW<T>(t: Truth<T>, cfg: Config, s: System<T>, w: nat, e: Event, o: Orders, cut: nat)
    requires Deaf(s, w) && RecordsNamed(t) && Occurs(t, s, e) && cut <= |Handler(t, cfg, s, e, o)|
    requires BringsNothing(s, w, Handle(e, o, cut, Done))
    ensures var done := Handler(t, cfg, s, e, o)[..cut];
            && OwnsNothing(done) && (WorkerOf(e) == w ==> OnlySends(done))
            && forall m :: Send(m) in done ==> m.to != w
  {
    var ops := Handler(t, cfg, s, e, o);
    if !e.PacketArrives? {
      SeenIsNothing(t, cfg, s, e, o);
    } else {
      PacketCut(t, cfg, s, e.packet, o, cut);
      if e.packet.to == w {
        var v := s.replicas[w].mem;
        AnswerOnlySends<T>(cfg, w, v, e.packet.msg.sender, o);
        forall m | Send(m) in ops[..cut] ensures m.to != w {
          AnswerGoesToAsker<T>(cfg, w, v, e.packet.msg.sender, o, m);
        }
        forall op | op in ops[..cut] ensures op.Send? || op.Publish? { assert op in ops; }
      } else {
        NothingSentBy(t, cfg, s, e.packet, o, cut);
      }
    }
  }

  lemma StepStays<T>(t: Truth<T>, cfg: Config, s: System<T>, w: nat, step: Step)
    requires RecordsNamed(t) && Deaf(s, w) && Enabled(t, cfg, s, step) && BringsNothing(s, w, step)
    ensures StaysUnflushed(s, Next(t, cfg, s, step), w)
  {
    match step
    case Handle(e, o, cut, outcome) =>
      var done := Handler(t, cfg, s, e, o)[..cut];
      NothingForW(t, cfg, s, w, e, o, cut);
      PerformStays(s, w, WorkerOf(e), done, Consumed(e, outcome));
      var p := Perform(s, WorkerOf(e), done);
      var s' := p.(net := p.net - Consumed(e, outcome));
      if outcome == Crashed { RebootStays(cfg, s', w, WorkerOf(e)); }
    case Restart(x) => RebootStays(cfg, s, w, x);
    case Duplicate(p) =>
    case Drop(p) =>
  }

  // Each state follows from the one before by the step.
  ghost predicate IsPath<T>(t: Truth<T>, cfg: Config, states: seq<System<T>>, steps: seq<Step>) {
    && |states| == |steps| + 1
    && forall i :: 0 <= i < |steps| ==>
         Enabled(t, cfg, states[i], steps[i]) && states[i + 1] == Next(t, cfg, states[i], steps[i])
  }

  lemma {:induction false} PathStays<T>(t: Truth<T>, cfg: Config, w: nat, states: seq<System<T>>, steps: seq<Step>, i: nat)
    requires RecordsNamed(t) && IsPath(t, cfg, states, steps) && i < |states| && Deaf(states[0], w)
    requires forall j :: 0 <= j < |steps| ==> w < |states[j].replicas| && BringsNothing(states[j], w, steps[j])
    ensures StaysUnflushed(states[0], states[i], w)
  {
    if i != 0 {
      PathStays(t, cfg, w, states, steps, i - 1);
      StepStays(t, cfg, states[i - 1], w, steps[i - 1]);
    }
  }

  // The interruption of an event from the queue leaves w with nobody to hear from.
  lemma LeavesDeaf<T>(t: Truth<T>, cfg: Config, s: System<T>, e: Event, o: Orders, cut: nat, outcome: Outcome)
    requires WellFormed(t, cfg) && Live(t, cfg, s) && Enabled(t, cfg, s, Handle(e, o, cut, outcome)) && outcome != Done
    requires !e.PacketArrives? && NoNewsFor(s, WorkerOf(e))
    requires forall x :: 0 <= x < |s.replicas| && x != WorkerOf(e) ==> HasNothing(s.replicas[x])
    requires Synced(Left(s.replicas[WorkerOf(e)], Handler(t, cfg, s, e, o)[..cut], outcome))
    ensures Deaf(Next(t, cfg, s, Handle(e, o, cut, outcome)), WorkerOf(e))
  {
    var w, done := WorkerOf(e), Handler(t, cfg, s, e, o)[..cut];
    InterruptedShape(t, cfg, s, e, o, cut, outcome);
    var s' := Next(t, cfg, s, Handle(e, o, cut, outcome));
    forall m | Send(m) in done ensures m.to != w { QueueGoesElsewhere(t, cfg, s, e, o, m); }
    forall p | p in s'.net && p.to == w ensures p.msg.WakeUp? && p.msg.sender != w {
      WakeUpsGoElsewhere(t, cfg, s, e, o, cut, outcome, p);
    }
  }

  lemma WakeUpsGoElsewhere<T>(t: Truth<T>, cfg: Config, s: System<T>, e: Event, o: Orders, cut: nat, outcome: Outcome,
                              p: Packet)
    requires Enabled(t, cfg, s, Handle(e, o, cut, outcome)) && outcome != Done
    requires p in Next(t, cfg, s, Handle(e, o, cut, outcome)).net && p.to == WorkerOf(e)
    requires forall m :: Send(m) in Handler(t, cfg, s, e, o)[..cut] ==> m.to != WorkerOf(e)
    ensures p in s.net
  {
    var w, done := WorkerOf(e), Handler(t, cfg, s, e, o)[..cut];
    CutNext(t, cfg, s, e, o, cut, outcome);
    SentMember(done, p);
    SentMember(Broadcast<T>(cfg, w, WakeUp(w)), p);
    SendAllMember<T>(Others(w, cfg.workers), WakeUp(w), Send(p));
    OthersMember(w, cfg.workers, p.to);
  }

  // From any live state: an error or a crash that leaves the worker knowing everything and
  // unflushed, while the others hold nothing and have nothing to say to it. Whatever then happens,
  // deliveries, errors, losses, crashes and restarts, it never calls its flush handler again.
  lemma FlushLostForGood<T>(t: Truth<T>, cfg: Config, s: System<T>, e: Event, o: Orders, cut: nat, outcome: Outcome,
                            states: seq<System<T>>, steps: seq<Step>, i: nat)
    requires WellFormed(t, cfg) && Live(t, cfg, s) && Enabled(t, cfg, s, Handle(e, o, cut, outcome)) && outcome != Done
    requires !e.PacketArrives? && NoNewsFor(s, WorkerOf(e))
    requires forall x :: 0 <= x < |s.replicas| && x != WorkerOf(e) ==> HasNothing(s.replicas[x])
    requires var left := Left(s.replicas[WorkerOf(e)], Handler(t, cfg, s, e, o)[..cut], outcome);
             Synced(left) && !Settled(t, left.mem)
    requires IsPath(t, cfg, states, steps) && states[0] == Next(t, cfg, s, Handle(e, o, cut, outcome)) && i < |states|
    requires forall j :: 0 <= j < |steps| ==>
               WorkerOf(e) < |states[j].replicas| && BringsNothing(states[j], WorkerOf(e), steps[j])
    ensures var w := WorkerOf(e);
            && w < |states[i].replicas| && !states[i].replicas[w].mem.flushed
            && CallsBy(states[i].flushes, w) == CallsBy(states[0].flushes, w)
  {
    LeavesDeaf(t, cfg, s, e, o, cut, outcome);
    InterruptedShape(t, cfg, s, e, o, cut, outcome);
    PathStays(t, cfg, WorkerOf(e), states, steps, i);
  }

  // ---- What brings the flush back, and what does not ----

  // The step is one of w, and brings it news.
  ghost predicate NewsFor<T>(t: Truth<T>, cfg: Config, s: System<T>, w: nat, step: Step)
    requires Enabled(t, cfg, s, step)
  {
    step.Handle? && WorkerOf(step.event) == w && IsNewsTo(t, s, step.event)
  }

  // Nothing of what w does is cut short.
  ghost predicate Undisturbed(w: nat, step: Step) {
    match step
    case Handle(e, _, _, outcome) => WorkerOf(e) == w ==> outcome == Done
    case Restart(x) => x != w
    case _ => true
  }

  ghost predicate KnowsAll<T>(t: Truth<T>, v: ClientView) { Complete(t, v) && Covers(t, KnownBatches(v)) }

  // Without news the worker stays as it is and calls nothing.
  lemma NoNewsNoCall<T>(t: Truth<T>, cfg: Config, s: System<T>, w: nat, step: Step)
    requires RecordsNamed(t) && Enabled(t, cfg, s, step) && w < |s.replicas|
    requires Undisturbed(w, step) && !NewsFor(t, cfg, s, w, step)
    ensures var s' := Next(t, cfg, s, step);
            && |s'.replicas| == |s.replicas| && s'.replicas[w] == s.replicas[w]
            && CallsBy(s'.flushes, w) == CallsBy(s.flushes, w)
  {
    match step
    case Handle(e, o, cut, outcome) =>
      var x, done := WorkerOf(e), Handler(t, cfg, s, e, o)[..cut];
      CallsByConcat(s.flushes, Calls(x, done), w);
      CallsByOne(x, done, w);
      if x == w {
        OldNewsOnlySends(t, cfg, s, e, o);
        assert done == Handler(t, cfg, s, e, o);
        NoCalls(w, done);
        SendsKeep(s.replicas[w].mem, s.replicas[w].disk, done);
      }
    case _ =>
  }

  lemma OldNewsOnlySends<T>(t: Truth<T>, cfg: Config, s: System<T>, e: Event, o: Orders)
    requires RecordsNamed(t) && Occurs(t, s, e) && !IsNewsTo(t, s, e)
    ensures OnlySends(Handler(t, cfg, s, e, o))
  {
    if Seen(t, s, e) {
      SeenIsNothing(t, cfg, s, e, o);
    } else {
      AnswerOnlySends<T>(cfg, WorkerOf(e), s.replicas[WorkerOf(e)].mem, e.packet.msg.sender, o);
    }
  }

  // With news, a worker that knows everything and is unflushed calls.
  lemma NewsBringsCall<T>(t: Truth<T>, cfg: Config, s: System<T>, w: nat, step: Step)
    requires WellFormed(t, cfg) && Agrees(t, s) && Enabled(t, cfg, s, step) && w < |s.replicas|
    requires Undisturbed(w, step) && NewsFor(t, cfg, s, w, step)
    requires KnowsAll(t, s.replicas[w].mem) && !s.replicas[w].mem.flushed
    ensures CallsBy(Next(t, cfg, s, step).flushes, w) == CallsBy(s.flushes, w) + 1
  {
    var e := step.event;
    KnowsMore(t, cfg, s, e);
    KnowingAgrees(t, s, e);
    StillKnowsAll(t, s.replicas[w].mem, Knowing(t, s, e));
    NewsFlushes(t, cfg, s, e, step.orders);
  }

  lemma StillKnowsAll<T>(t: Truth<T>, v: ClientView, k: ClientView)
    requires KnowsAll(t, v) && ViewAgrees(t, k) && KnownBatches(v) <= KnownBatches(k) && KnownEOFs(v) <= KnownEOFs(k)
    ensures KnowsAll(t, k)
  {
    assert KnownBatches(k) <= t.records.Keys && KnownEOFs(k) <= t.eofs.Keys;
  }

  lemma CallsGrow<T>(t: Truth<T>, cfg: Config, s: System<T>, w: nat, step: Step)
    requires Enabled(t, cfg, s, step)
    ensures CallsBy(Next(t, cfg, s, step).flushes, w) >= CallsBy(s.flushes, w)
  {
    if step.Handle? {
      var x, done := WorkerOf(step.event), Handler(t, cfg, s, step.event, step.orders)[..step.cut];
      CallsByConcat(s.flushes, Calls(x, done), w);
    }
  }

  ghost predicate SomeNews<T>(t: Truth<T>, cfg: Config, states: seq<System<T>>, steps: seq<Step>, w: nat, i: nat)
    requires IsPath(t, cfg, states, steps) && i <= |steps|
  {
    exists j :: 0 <= j < i && NewsFor(t, cfg, states[j], w, steps[j])
  }

  // w has called since s0 if there was news, and is as it was then if there was none.
  ghost predicate CalledIff<T>(s0: System<T>, s: System<T>, w: nat, news: bool)
    requires w < |s0.replicas|
  {
    if news then CallsBy(s.flushes, w) > CallsBy(s0.flushes, w)
    else w < |s.replicas| && s.replicas[w] == s0.replicas[w] && CallsBy(s.flushes, w) == CallsBy(s0.flushes, w)
  }

  lemma OneStepOn<T>(t: Truth<T>, cfg: Config, s0: System<T>, s: System<T>, s': System<T>, w: nat, step: Step, news: bool,
                     news': bool)
    requires WellFormed(t, cfg) && Agrees(t, s) && Enabled(t, cfg, s, step) && Undisturbed(w, step)
    requires s' == Next(t, cfg, s, step) && (news' <==> news || NewsFor(t, cfg, s, w, step))
    requires w < |s0.replicas| && KnowsAll(t, s0.replicas[w].mem) && !s0.replicas[w].mem.flushed && CalledIff(s0, s, w, news)
    ensures CalledIff(s0, s', w, news')
  {
    if news {
      CallsGrow(t, cfg, s, w, step);
    } else if news' {
      NewsBringsCall(t, cfg, s, w, step);
    } else {
      NoNewsNoCall(t, cfg, s, w, step);
    }
  }

  lemma {:induction false} PathAgrees<T>(t: Truth<T>, cfg: Config, states: seq<System<T>>, steps: seq<Step>, i: nat)
    requires WellFormed(t, cfg) && IsPath(t, cfg, states, steps) && i <= |steps| && Agrees(t, states[0])
    ensures Agrees(t, states[i])
  {
    if i != 0 {
      PathAgrees(t, cfg, states, steps, i - 1);
      StepAgrees(t, cfg, states[i - 1], steps[i - 1]);
    }
  }

  lemma SomeNewsNext<T>(t: Truth<T>, cfg: Config, states: seq<System<T>>, steps: seq<Step>, w: nat, i: nat)
    requires IsPath(t, cfg, states, steps) && i < |steps|
    ensures SomeNews(t, cfg, states, steps, w, i + 1) <==>
              SomeNews(t, cfg, states, steps, w, i) || NewsFor(t, cfg, states[i], w, steps[i])
  {
  }

  lemma PathStepOn<T>(t: Truth<T>, cfg: Config, w: nat, states: seq<System<T>>, steps: seq<Step>, i: nat)
    requires WellFormed(t, cfg) && IsPath(t, cfg, states, steps) && i < |steps| && Agrees(t, states[0])
    requires w < |states[0].replicas| && KnowsAll(t, states[0].replicas[w].mem) && !states[0].replicas[w].mem.flushed
    requires Undisturbed(w, steps[i]) && CalledIff(states[0], states[i], w, SomeNews(t, cfg, states, steps, w, i))
    ensures CalledIff(states[0], states[i + 1], w, SomeNews(t, cfg, states, steps, w, i + 1))
  {
    PathAgrees(t, cfg, states, steps, i);
    SomeNewsNext(t, cfg, states, steps, w, i);
    OneStepOn(t, cfg, states[0], states[i], states[i + 1], w, steps[i], SomeNews(t, cfg, states, steps, w, i),
              SomeNews(t, cfg, states, steps, w, i + 1));
  }

  lemma {:induction false} PathCalls<T>(t: Truth<T>, cfg: Config, w: nat, states: seq<System<T>>, steps: seq<Step>, i: nat)
    requires WellFormed(t, cfg) && IsPath(t, cfg, states, steps) && i <= |steps| && Agrees(t, states[0])
    requires w < |states[0].replicas| && KnowsAll(t, states[0].replicas[w].mem) && !states[0].replicas[w].mem.flushed
    requires forall j :: 0 <= j < |steps| ==> Undisturbed(w, steps[j])
    ensures CalledIff(states[0], states[i], w, SomeNews(t, cfg, states, steps, w, i))
  {
    if i != 0 {
      PathCalls(t, cfg, w, states, steps, i - 1);
      PathStepOn(t, cfg, w, states, steps, i - 1);
    }
  }

  // From any state in which a worker knows everything and is unflushed, as an interruption can leave it,
  // and along every continuation that does not interrupt that worker again: it calls its flush handler
  // if and only if some news reaches it.
  lemma CallsIffNews<T>(t: Truth<T>, cfg: Config, w: nat, states: seq<System<T>>, steps: seq<Step>, i: nat)
    requires WellFormed(t, cfg) && IsPath(t, cfg, states, steps) && i <= |steps| && Agrees(t, states[0])
    requires w < |states[0].replicas| && KnowsAll(t, states[0].replicas[w].mem) && !states[0].replicas[w].mem.flushed
    requires forall j :: 0 <= j < |steps| ==> Undisturbed(w, steps[j])
    ensures CallsBy(states[i].flushes, w) > CallsBy(states[0].flushes, w) <==>
              exists j :: 0 <= j < i && NewsFor(t, cfg, states[j], w, steps[j])
  {
    PathCalls(t, cfg, w, states, steps, i);
    assert SomeNews(t, cfg, states, steps, w, i) <==> exists j :: 0 <= j < i && NewsFor(t, cfg, states[j], w, steps[j]);
  }

  // ---- A lone worker ----

  // For a lone worker that holds every batch, with or without items, no step brings anything.
  lemma LoneWorkerHearsNothing<T>(t: Truth<T>, cfg: Config, s: System<T>, step: Step)
    requires |s.replicas| == 1 && Enabled(t, cfg, s, step)
    requires s.replicas[0].mem.ownBatches.Keys == t.records.Keys && s.replicas[0].mem.ownEOFs.Keys == t.eofs.Keys
    ensures BringsNothing(s, 0, step)
  {
  }

  lemma {:induction false} LonePathStays<T>(t: Truth<T>, cfg: Config, states: seq<System<T>>, steps: seq<Step>, i: nat)
    requires RecordsNamed(t) && IsPath(t, cfg, states, steps) && i < |states|
    requires |states[0].replicas| == 1 && Deaf(states[0], 0)
    requires states[0].replicas[0].mem.ownBatches.Keys == t.records.Keys
    requires states[0].replicas[0].mem.ownEOFs.Keys == t.eofs.Keys
    ensures |states[i].replicas| == 1 && StaysUnflushed(states[0], states[i], 0)
  {
    if i != 0 {
      LonePathStays(t, cfg, states, steps, i - 1);
      LoneWorkerHearsNothing(t, cfg, states[i - 1], steps[i - 1]);
      StepStays(t, cfg, states[i - 1], 0, steps[i - 1]);
    }
  }

  // Its flush is lost under every continuation there is.
  lemma LoneWorkerNeverFlushes<T>(t: Truth<T>, cfg: Config, s: System<T>, e: Event, o: Orders, cut: nat,
                                  states: seq<System<T>>, steps: seq<Step>, i: nat)
    requires WellFormed(t, cfg) && Live(t, cfg, s) && Enabled(t, cfg, s, Handle(e, o, cut, Crashed))
    requires cfg.workers == 1 && !e.PacketArrives? && NoNewsFor(s, 0)
    requires var d := DiskAfter(s.replicas[0].disk, Handler(t, cfg, s, e, o)[..cut]);
             HoldsAll(t, d) && d.batches.Keys == t.records.Keys
    requires IsPath(t, cfg, states, steps) && states[0] == Next(t, cfg, s, Handle(e, o, cut, Crashed)) && i < |states|
    ensures |states[i].replicas| == 1 && !states[i].replicas[0].mem.flushed
    ensures CallsBy(states[i].flushes, 0) == CallsBy(states[0].flushes, 0)
  {
    RestoredKnows(DiskAfter(s.replicas[0].disk, Handler(t, cfg, s, e, o)[..cut]));
    LeavesDeaf(t, cfg, s, e, o, cut, Crashed);
    InterruptedShape(t, cfg, s, e, o, cut, Crashed);
    LonePathStays(t, cfg, states, steps, i);
  }

  // A batch still to come, even an empty one, is news that saves the flush.
  lemma LateBatchSavesFlush<T>(t: Truth<T>, cfg: Config, s: System<T>, w: nat, id: string, o: Orders)
    requires WellFormed(t, cfg) && Safe(t, s) && w < |s.replicas| && id in t.records && id !in s.replicas[w].mem.ownBatches
    requires HoldsAll(t, s.replicas[w].disk) && s.replicas[w].mem == Restore(s.replicas[w].disk)
    requires ValidOrders(Knowing(t, s, BatchCounted(w, id)), o)
    ensures var ops := Handler(t, cfg, s, BatchCounted(w, id), o);
            CallsBy(Next(t, cfg, s, Handle(BatchCounted(w, id), o, |ops|, Done)).flushes, w) == CallsBy(s.flushes, w) + 1
  {
    var e := BatchCounted(w, id);
    RestoredKnows(s.replicas[w].disk);
    KnowsMore(t, cfg, s, e);
    KnowingAgrees(t, s, e);
    StillKnowsAll(t, s.replicas[w].mem, Knowing(t, s, e));
    NewsFlushes(t, cfg, s, e, o);
  }

  // ---- It is reached: one worker, one EOF, one batch ----

  const ALONE := Config(1, 1, 8192, (r: BatchRecord) => 1)

  const NO_ORDER := Orders([], [], [], [], [])

  ghost function OneBatch(): Truth<int> {
    Truth(map["b" := BatchRecord("b", 1, 1)], map["e" := 1], map["b" := []])
  }

  lemma SumOfOne(k: string, n: nat)
    ensures Sum(map[k := n]) == n
  {
    var m: map<string, nat> := map[k := n];
    SumRemove(m, k);
    assert m - {k} == map[];
  }

  lemma TotalsOfOne()
    ensures Sum(OneBatch().eofs) == 1 && Sum(Processed(OneBatch().records)) == 1
  {
    SumOfOne("e", 1);
    SumOfOne("b", 1);
    assert Processed(OneBatch().records) == map["b" := 1];
  }

  lemma OneBatchIsWellFormed()
    ensures WellFormed(OneBatch(), ALONE) && PositiveWeights(OneBatch(), ALONE)
  {
    var t := OneBatch();
    TotalsOfOne();
    assert t.eofs.Keys == {"e"} && |t.eofs| == |t.eofs.Keys|;
  }

  // Once a lone worker holds every EOF and batch and no message is in flight, no event makes it
  // do anything any more, flushed or not.
  lemma NothingMoreHappens<T>(t: Truth<T>, cfg: Config, s: System<T>, e: Event, o: Orders)
    requires |s.replicas| == 1 && s.net == multiset{} && Occurs(t, s, e)
    requires forall id :: id in t.records ==> t.records[id].batchID == id
    requires s.replicas[0].mem.ownBatches.Keys == t.records.Keys && s.replicas[0].mem.ownEOFs.Keys == t.eofs.Keys
    ensures Handler(t, cfg, s, e, o) == []
  {
  }

  // The state left by: the EOF, then the batch, cut by a crash before the flush decision.
  ghost function Stuck(): System<int> {
    var t := OneBatch();
    System([Replica(ClientView(t.records, map[], t.eofs, map[], "e", false), Disk(t.records, t.eofs, false))],
           multiset{}, [], [])
  }

  ghost function AfterEOF(): System<int> {
    var t := OneBatch();
    System([Replica(ClientView(map[], map[], t.eofs, map[], "e", false), Disk(map[], t.eofs, false))],
           multiset{}, [], [])
  }

  lemma OneEOFKnown(own: map<string, BatchRecord>, last: string)
    ensures var v := ClientView(own, map[], OneBatch().eofs, map[], last, false);
            KnownEOFs(v) == {"e"} && Refreshed(v) == v.(lastEOFID := "e") && |KnownEOFs(v)| == 1
  {
    var v := ClientView(own, map[], OneBatch().eofs, map[], last, false);
    assert KnownEOFs(v) == {"e"};
  }

  lemma NobodyElse(msg: Msg)
    ensures Others(0, 1) == [] && Broadcast<int>(ALONE, 0, msg) == []
    ensures FirstWakeUps<int>(ALONE, 1) == multiset{}
  {
    assert Others(0, 0) == [];
    assert FirstWakeUps<int>(ALONE, 0) == multiset{};
    assert Others(0, 1) == [];
  }

  lemma EOFHandled()
    ensures LocalEOF<int>(ALONE, 0, EMPTY_VIEW, "e", 1, NO_ORDER.(eofs := ["e"])) == [WriteEOF("e", 1), AddOwnEOF("e", 1)]
    ensures MemOp<int>(EMPTY_VIEW, AddOwnEOF("e", 1)) == AfterEOF().replicas[0].mem
  {
    var k := AfterEOF().replicas[0].mem;
    OneEOFKnown(map[], "");
    var none: map<string, nat> := map[];
    assert none["e" := 1] == OneBatch().eofs;
    assert MemOp<int>(EMPTY_VIEW, AddOwnEOF("e", 1)) == k;
    NobodyElse(EofArrived(0, "e", 1));
    TotalsOfOne();
    assert ProcessedTotal(k, []) == 0 && ExpectedTotal(k, []) == 1;
    assert Packed(ALONE, k, []) == [];
    assert ShareWhenComplete<int>(ALONE, 0, k, NO_ORDER.(eofs := ["e"])) == [];
    assert TryFlush<int>(ALONE, k, NO_ORDER.(eofs := ["e"])) == [];
  }

  lemma TwoOpsEffect(v: ClientView, d: Disk, a: Op<int>, b: Op<int>)
    requires a.WriteEOF? && b.AddOwnEOF?
    ensures MemAfter(v, [a, b]) == MemOp(v, b) && DiskAfter(d, [a, b]) == DiskOp(d, a)
    ensures Sent([a, b]) == multiset{} && Published([a, b]) == [] && Calls(0, [a, b]) == []
  {
    assert [a, b][..1] == [a] && [a][..0] == [];
    assert MemAfter(v, [a]) == v && DiskAfter(d, [a]) == DiskOp(d, a);
    assert Sent([a]) == multiset{} && Published([a]) == [] && Calls(0, [a]) == [];
  }

  lemma OneOpEffect(v: ClientView, d: Disk, a: Op<int>)
    requires a.WriteBatch?
    ensures MemAfter(v, [a]) == v && DiskAfter(d, [a]) == DiskOp(d, a)
    ensures Sent([a]) == multiset{} && Published([a]) == [] && Calls(0, [a]) == []
  {
    assert [a][..0] == [];
  }

  const EOF_STEP := Handle(EofArrives(0, "e"), NO_ORDER.(eofs := ["e"]), 2, Done)

  const CRASH_STEP := Handle(BatchCounted(0, "b"), NO_ORDER.(eofs := ["e"], batches := ["b"]), 1, Crashed)

  lemma EOFEnabled()
    ensures Enabled(OneBatch(), ALONE, Start<int>(ALONE), EOF_STEP)
    ensures Handler(OneBatch(), ALONE, Start<int>(ALONE), EOF_STEP.event, EOF_STEP.orders) ==
              [WriteEOF("e", 1), AddOwnEOF("e", 1)]
  {
    EOFHandled();
    assert Start<int>(ALONE).replicas[0] == Replica(EMPTY_VIEW, EMPTY_DISK);
  }

  lemma EOFStep()
    ensures Enabled(OneBatch(), ALONE, Start<int>(ALONE), EOF_STEP)
    ensures Next(OneBatch(), ALONE, Start<int>(ALONE), EOF_STEP) == AfterEOF()
  {
    var s := Start<int>(ALONE);
    var w: Op<int>, a: Op<int> := WriteEOF("e", 1), AddOwnEOF("e", 1);
    EOFEnabled();
    NobodyElse(WakeUp(0));
    assert s.replicas == [Replica(EMPTY_VIEW, EMPTY_DISK)];
    assert [w, a][..2] == [w, a];
    EOFPerformed(s, w, a);
  }

  lemma EOFPerformed(s: System<int>, w: Op<int>, a: Op<int>)
    requires s.replicas == [Replica(EMPTY_VIEW, EMPTY_DISK)] && s.published == [] && s.flushes == [] && s.net == multiset{}
    requires w == WriteEOF("e", 1) && a == AddOwnEOF("e", 1)
    ensures Perform(s, 0, [w, a]) == AfterEOF()
  {
    EOFHandled();
    TwoOpsEffect(EMPTY_VIEW, EMPTY_DISK, w, a);
    var none: map<string, nat> := map[];
    assert none["e" := 1] == OneBatch().eofs;
  }

  lemma BatchHandled()
    ensures var t, v := OneBatch(), AfterEOF().replicas[0].mem;
            var ops := RecordBatch<int>(ALONE, 0, v, t.records["b"], NO_ORDER.(eofs := ["e"], batches := ["b"]));
            && ops[..1] == [WriteBatch(t.records["b"])] && |ops| > 2
            && MemOp<int>(v, AddOwnBatch(t.records["b"])) == v.(ownBatches := t.records)
  {
    var t, v := OneBatch(), AfterEOF().replicas[0].mem;
    var o := NO_ORDER.(eofs := ["e"], batches := ["b"]);
    var r := t.records["b"];
    var none: map<string, BatchRecord> := map[];
    assert none["b" := r] == t.records;
    NobodyElse(BatchInfo(0, [r]));
    ReadyWithBatch(v.(ownBatches := t.records), o);
  }

  lemma ReadyWithBatch(k: ClientView, o: Orders)
    requires k == ClientView(OneBatch().records, map[], OneBatch().eofs, map[], "e", false)
    requires o.processed == [] && o.totals == []
    ensures Ready(k, 1, o)
  {
    OneEOFKnown(OneBatch().records, "e");
    TotalsOfOne();
    assert ProcessedTotal(k, []) == 1 && ExpectedTotal(k, []) == 1;
  }

  lemma CrashEnabled()
    ensures Enabled(OneBatch(), ALONE, AfterEOF(), CRASH_STEP)
    ensures Handler(OneBatch(), ALONE, AfterEOF(), CRASH_STEP.event, CRASH_STEP.orders)[..1] ==
              [WriteBatch(OneBatch().records["b"])]
  {
    BatchHandled();
    assert Occurs(OneBatch(), AfterEOF(), CRASH_STEP.event);
    OrdersFit(Knowing(OneBatch(), AfterEOF(), CRASH_STEP.event));
  }

  lemma OrdersFit(v: ClientView)
    requires v.ownEOFs == map["e" := 1] && v.ownBatches == OneBatch().records && v.peerBatches == map[] && v.peerEOFs == map[]
    ensures ValidOrders(v, CRASH_STEP.orders)
  {
  }

  lemma CrashStep()
    ensures Enabled(OneBatch(), ALONE, AfterEOF(), CRASH_STEP)
    ensures Next(OneBatch(), ALONE, AfterEOF(), CRASH_STEP) == Stuck()
  {
    var t, s := OneBatch(), AfterEOF();
    var r := t.records["b"];
    var w: Op<int> := WriteBatch(r);
    CrashEnabled();
    OneOpEffect(s.replicas[0].mem, s.replicas[0].disk, w);
    NobodyElse(WakeUp(0));
    OneEOFKnown(t.records, "");
    assert DiskOp(s.replicas[0].disk, w) == Stuck().replicas[0].disk by {
      var none: map<string, BatchRecord> := map[];
      assert none["b" := r] == t.records;
    }
    assert Restore(Stuck().replicas[0].disk) == Stuck().replicas[0].mem;
    assert Reboot(ALONE, Perform(s, 0, [w]), 0) == Stuck();
  }

  // A run in which the only worker crashes once, all its input is then handled, nothing is in
  // flight, the flush never happened and no event can make it happen.
  lemma FlushCanBeLost() returns (states: seq<System<int>>, steps: seq<Step>)
    ensures WellFormed(OneBatch(), ALONE) && PositiveWeights(OneBatch(), ALONE)
    ensures IsRun(OneBatch(), ALONE, states, steps)
    ensures var s := states[|states| - 1];
            && NoLostFlush.Quiet(OneBatch(), s) && s.flushes == [] && !s.replicas[0].mem.flushed
            && forall e, o :: Occurs(OneBatch(), s, e) ==> Handler(OneBatch(), ALONE, s, e, o) == []
  {
    OneBatchIsWellFormed();
    states, steps := [Start<int>(ALONE), AfterEOF(), Stuck()], [EOF_STEP, CRASH_STEP];
    EOFStep();
    CrashStep();
    TwoStepRun(OneBatch(), ALONE, AfterEOF(), Stuck(), EOF_STEP, CRASH_STEP);
    StuckIsQuiet();
  }

  lemma TwoStepRun<T>(t: Truth<T>, cfg: Config, middle: System<T>, end: System<T>, first: Step, second: Step)
    requires Enabled(t, cfg, Start(cfg), first) && middle == Next(t, cfg, Start(cfg), first)
    requires Enabled(t, cfg, middle, second) && end == Next(t, cfg, middle, second)
    ensures IsRun(t, cfg, [Start(cfg), middle, end], [first, second])
  {
    var states, steps := [Start(cfg), middle, end], [first, second];
    forall i | 0 <= i < |steps|
      ensures Enabled(t, cfg, states[i], steps[i]) && states[i + 1] == Next(t, cfg, states[i], steps[i])
    {
      assert i == 0 || i == 1;
    }
  }

  lemma StuckIsQuiet()
    ensures NoLostFlush.Quiet(OneBatch(), Stuck())
    ensures forall e, o :: Occurs(OneBatch(), Stuck(), e) ==> Handler(OneBatch(), ALONE, Stuck(), e, o) == []
  {
    var t, s := OneBatch(), Stuck();
    assert forall e :: e in t.eofs ==> e in s.replicas[0].mem.ownEOFs;
    assert forall id :: id in t.records ==> id in s.replicas[0].mem.ownBatches;
    forall e, o | Occurs(OneBatch(), Stuck(), e) ensures Handler(OneBatch(), ALONE, Stuck(), e, o) == [] {
      NothingMoreHappens(OneBatch(), ALONE, Stuck(), e, o);
    }
  }
}
