// No lost flush: as long as no coordination message is lost and every interruption is a harmless
// one, a quiet group that has seen all its input has flushed, once per worker.
module NoLostFlush {
  import opened EofProtocol
  import opened ReplicaGroup
  import Barrier
  import opened Liveness
  import Interrupted

  ghost predicate LossFree<T>(t: Truth<T>, cfg: Config, s: System<T>, step: Step)
    requires Enabled(t, cfg, s, step)
  {
    match step
    case Handle(e, o, cut, outcome) => outcome == Done || Interrupted.Harmless(t, cfg, s, e, o, cut, outcome)
    case Restart(_) => true
    case Duplicate(_) => true
    case Drop(_) => false
  }

  lemma LossFreeStepLive<T>(t: Truth<T>, cfg: Config, s: System<T>, step: Step)
    requires WellFormed(t, cfg) && PositiveWeights(t, cfg) && Live(t, cfg, s)
    requires Enabled(t, cfg, s, step) && LossFree(t, cfg, s, step)
    ensures Live(t, cfg, Next(t, cfg, s, step))
  {
    match step
    case Handle(e, o, cut, outcome) =>
      if outcome == Done {
        DoneLive(t, cfg, s, e, o);
      } else {
        Interrupted.InterruptedLiveIff(t, cfg, s, e, o, cut, outcome);
      }
    case Restart(w) => RebootLive(t, cfg, s, w);
    case Duplicate(p) => MoreInFlight(t, cfg, s, multiset{p});
  }

  lemma StartLive<T>(t: Truth<T>, cfg: Config)
    requires WellFormed(t, cfg)
    ensures Live(t, cfg, Start<T>(cfg))
  {
    Barrier.StartSafe(t, cfg);
    assert !Complete(t, EMPTY_VIEW) by { assert |t.eofs.Keys| == |t.eofs|; }
  }

  ghost predicate IsLossFreeRun<T>(t: Truth<T>, cfg: Config, states: seq<System<T>>, steps: seq<Step>) {
    && IsRun(t, cfg, states, steps)
    && forall i :: 0 <= i < |steps| ==> LossFree(t, cfg, states[i], steps[i])
  }

  lemma {:induction false} RunLive<T>(t: Truth<T>, cfg: Config, states: seq<System<T>>, steps: seq<Step>, i: nat)
    requires WellFormed(t, cfg) && PositiveWeights(t, cfg)
    requires IsLossFreeRun(t, cfg, states, steps) && i < |states|
    ensures Live(t, cfg, states[i])
  {
    if i == 0 {
      StartLive(t, cfg);
    } else {
      RunLive(t, cfg, states, steps, i - 1);
      assert LossFree(t, cfg, states[i - 1], steps[i - 1]);
      LossFreeStepLive(t, cfg, states[i - 1], steps[i - 1]);
    }
  }

  // ---- The theorem ----

  // No message is on its way, and every EOF and every non-empty batch was handled somewhere.
  ghost predicate Quiet<T>(t: Truth<T>, s: System<T>) {
    && s.net == multiset{}
    && (forall e :: e in t.eofs ==> exists w :: 0 <= w < |s.replicas| && e in s.replicas[w].mem.ownEOFs)
    && (forall id :: id in t.records && t.records[id].processed > 0 ==>
          exists w :: 0 <= w < |s.replicas| && id in s.replicas[w].mem.ownBatches)
  }

  lemma QuietIsComplete<T>(t: Truth<T>, cfg: Config, s: System<T>, q: nat)
    requires Live(t, cfg, s) && Quiet(t, s) && q < |s.replicas|
    ensures Complete(t, s.replicas[q].mem)
  {
    forall e | e in t.eofs ensures e in KnownEOFs(s.replicas[q].mem) {
      var w :| 0 <= w < |s.replicas| && e in s.replicas[w].mem.ownEOFs;
      if w != q {
        assert SharesEOFs(s, w, q);
        assert EOFReaches(s, w, q, e);
      }
    }
  }

  lemma QuietIsFlushed<T>(t: Truth<T>, cfg: Config, s: System<T>, q: nat)
    requires Live(t, cfg, s) && Quiet(t, s) && q < |s.replicas|
    ensures s.replicas[q].mem.flushed && CallsBy(s.flushes, q) == 1
  {
    QuietIsComplete(t, cfg, s, q);
    forall id | id in t.records && t.records[id].processed > 0 ensures id in KnownBatches(s.replicas[q].mem) {
      var w :| 0 <= w < |s.replicas| && id in s.replicas[w].mem.ownBatches;
      if w != q {
        QuietIsComplete(t, cfg, s, w);
        assert SharesBatches(t, s, w, q);
        assert BatchReaches(s, w, q, id);
      }
    }
    assert Barrier.Covers(t, KnownBatches(s.replicas[q].mem));
  }

  lemma EveryWorkerFlushesOnce<T>(t: Truth<T>, cfg: Config, states: seq<System<T>>, steps: seq<Step>, q: nat)
    requires WellFormed(t, cfg) && PositiveWeights(t, cfg)
    requires IsLossFreeRun(t, cfg, states, steps)
    requires Quiet(t, states[|states| - 1]) && q < cfg.workers
    ensures CallsBy(states[|states| - 1].flushes, q) == 1
  {
    RunLive(t, cfg, states, steps, |states| - 1);
    QuietIsFlushed(t, cfg, states[|states| - 1], q);
  }

  // At every moment of such a run, no worker has flushed twice.
  lemma NeverTwice<T>(t: Truth<T>, cfg: Config, states: seq<System<T>>, steps: seq<Step>, i: nat, q: nat)
    requires WellFormed(t, cfg) && PositiveWeights(t, cfg)
    requires IsLossFreeRun(t, cfg, states, steps) && i < |states| && q < cfg.workers
    ensures CallsBy(states[i].flushes, q) <= 1
  {
    RunLive(t, cfg, states, steps, i);
  }
}
