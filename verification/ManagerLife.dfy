// The life of a stateful worker, for one client: any calls of its objects, crashes in the middle of
// them, and starts that know nothing but the log. It is a run of the model, so the objects process
// each batch once and report what they log.
module ManagerLife {
  import opened Text
  import opened Checkpoint
  import opened CheckpointManagers
  import opened ManagerSteps

  // heard: the batches whose report the coordinator takes in; left: what the processor is left with.
  // Restart and Begin are crashes: cut is what was done before, of any call, and at where it led.
  datatype Call<S, C> =
    | Publish(id: string)
    | Handle(tag: nat, reached: bool, drained: Option<seq<C>>, appended: bool, ok: bool, left: S, heard: set<string>)
    | Flush(reached: bool, drained: Option<seq<C>>, appended: bool, ok: bool, left: S, heard: set<string>)
    | Restart(cut: seq<Step<S, C>>, at: System<S, C>, failsAt: Option<nat>, written: bool, ok: bool)
    | Begin(cut: seq<Step<S, C>>, at: System<S, C>)

  // The desk of a manager that has just been created over a log.
  function FreshDesk<C>(log: seq<Entry<C>>): Desk<C> { Desk(EMPTY_BOOK, log, [], [], [], []) }

  // One call: what it is given fits the world, what the object does is what its contract says, and the
  // world afterwards is what the object has done to it.
  ghost predicate Serves<S(!new), T, C, M>(p: Processor<S, T, C, M>, data: map<string, seq<T>>, every: nat, c: string,
                                           s: System<S, C>, d: Desk<C>, call: Call<S, C>, s': System<S, C>,
                                           d': Desk<C>) {
    match call
    case Publish(id) => Enabled(p, data, every, s, Send(id)) && s' == Next(p, data, every, s, Send(id)) && d' == d
    case Handle(tag, reached, drained, appended, ok, left, heard) =>
      && Enabled(p, data, every, s, Deliver(tag))
      && var id, items := s.held[tag], data[s.held[tag]];
      && Handled(c, id, |items|, tag, Refused(p, items), reached, every, drained, appended, ok, d, d')
      && LeftAfter(p, s.proc, items, d.book, id, tag, every, reached, drained, appended, left)
      && OnlyMore(d, d') && s' == Afterwards(s, d, d', left, if ok then [] else [tag], heard)
    case Flush(reached, drained, appended, ok, left, heard) =>
      && Flushed(c, reached, drained, appended, ok, d, d')
      && (if reached && d.book.batchCount > 0 then LeftBy(p, s.proc, drained, appended, left) else left == s.proc)
      && OnlyMore(d, d') && s' == Afterwards(s, d, d', left, [], heard)
    case Restart(cut, at, failsAt, written, ok) =>
      && Leads(p, data, every, s, cut, at) && Restored(c, failsAt, ok, FreshDesk(at.log), d')
      && OnlyMore(FreshDesk(at.log), d') && (!ok ==> 0 < |d'.reports| <= |LoggedIn(at.log)|)
      && s' == Rebooted(p, at, FreshDesk(at.log), d', ok, written)
    case Begin(cut, at) =>
      && Leads(p, data, every, s, cut, at) && at.log == [] && d' == FreshDesk([])
      && s' == at.(book := EMPTY_BOOK, proc := p.init, phase := IDLE, requeued := {}, restored := true, missed := {})
  }

  ghost predicate IsLife<S(!new), T, C, M>(p: Processor<S, T, C, M>, data: map<string, seq<T>>, every: nat, c: string,
                                           ss: seq<System<S, C>>, ds: seq<Desk<C>>, calls: seq<Call<S, C>>) {
    && |ss| == |ds| == |calls| + 1 && ss[0] == Start(p) && ds[0] == FreshDesk([])
    && forall i :: 0 <= i < |calls| ==> Serves(p, data, every, c, ss[i], ds[i], calls[i], ss[i + 1], ds[i + 1])
  }

  // No start fails, and no append does unless the processor can take the changes back.
  ghost predicate Harmless<S, C>(call: Call<S, C>, restores: bool) {
    match call
    case Publish(_) => true
    case Handle(_, _, drained, appended, _, _, _) => restores || drained.None? || appended
    case Flush(_, drained, appended, _, _, _) => restores || drained.None? || appended
    case Restart(cut, _, _, _, ok) => ok && AllHarmless(cut, restores)
    case Begin(cut, _) => AllHarmless(cut, restores)
  }

  ghost predicate AllHarmless<S, C>(steps: seq<Step<S, C>>, restores: bool) {
    forall step :: step in steps ==> !step.ReloadFails? && (restores || !step.SaveFails?)
  }

  // One call is a way through the steps from where the object stands to where it stands then.
  lemma ServedIsPath<S(!new), T(!new), C(!new), M(!new)>(p: Processor<S, T, C, M>, data: map<string, seq<T>>,
                                                         every: nat, c: string, s: System<S, C>, d: Desk<C>,
                                                         call: Call<S, C>, s': System<S, C>, d': Desk<C>,
                                                         restores: bool)
      returns (steps: seq<Step<S, C>>)
    requires Stands(s, d) && Serves(p, data, every, c, s, d, call, s', d')
    ensures Leads(p, data, every, s, steps, s') && Stands(s', d')
    ensures Harmless(call, restores) ==> AllHarmless(steps, restores)
  {
    match call
    case Publish(id) =>
      OneStep(p, data, every, s, Send(id));
      steps := [Send(id)];
    case Handle(tag, reached, drained, appended, ok, left, heard) =>
      steps := HandledIsPath(p, data, every, c, s, tag, reached, drained, appended, ok, d, d', left, heard);
    case Flush(reached, drained, appended, ok, left, heard) =>
      steps := FlushedIsPath(p, data, every, c, s, reached, drained, appended, ok, d, d', left, heard);
    case Restart(cut, at, failsAt, written, ok) =>
      var more := RestoredIsPath(p, data, every, c, at, failsAt, written, ok, FreshDesk(at.log), d');
      LeadsOn(p, data, every, s, cut, at, more, s');
      steps := cut + more;
    case Begin(cut, at) =>
      UnseenIsPath(p, data, every, at, d');
      LeadsOn(p, data, every, s, cut, at, [Crash(false)], s');
      steps := cut + [Crash(false)];
  }

  // The whole life, up to any moment between two calls, is a run of the model.
  lemma {:induction false} LifeIsRun<S(!new), T(!new), C(!new), M(!new)>(p: Processor<S, T, C, M>,
      data: map<string, seq<T>>, every: nat, c: string, ss: seq<System<S, C>>, ds: seq<Desk<C>>,
      calls: seq<Call<S, C>>, n: nat, restores: bool)
      returns (states: seq<System<S, C>>, steps: seq<Step<S, C>>)
    requires IsLife(p, data, every, c, ss, ds, calls) && n <= |calls|
    ensures IsRun(p, data, every, states, steps) && states[|states| - 1] == ss[n] && Stands(ss[n], ds[n])
    ensures (forall i :: 0 <= i < n ==> Harmless(calls[i], restores)) ==> AllHarmless(steps, restores)
  {
    if n == 0 {
      states, steps := [Start(p)], [];
    } else {
      var states0, steps0 := LifeIsRun(p, data, every, c, ss, ds, calls, n - 1, restores);
      var more := ServedIsPath(p, data, every, c, ss[n - 1], ds[n - 1], calls[n - 1], ss[n], ds[n], restores);
      states := RunGoesOn(p, data, every, states0, steps0, more, ss[n]);
      steps := steps0 + more;
    }
  }

  // Whatever was delivered again, refused, nacked, or cut by a crash: the batches that the log and the
  // book hold are all different; exactly they count as processed, so that no other delivery of them is
  // taken for new; the processor means what processing each of them once means; and the coordinator
  // counts only logged batches, with the number of their items.
  lemma LifeIsExactlyOnce<S(!new), T(!new), C(!new), M(!new)>(p: Processor<S, T, C, M>, data: map<string, seq<T>>,
                                                              every: nat, c: string, ss: seq<System<S, C>>,
                                                              ds: seq<Desk<C>>, calls: seq<Call<S, C>>, n: nat)
    requires Lawful(p) && Admitted(p, data) && IsLife(p, data, every, c, ss, ds, calls) && n <= |calls|
    requires forall i :: 0 <= i < n ==> Harmless(calls[i], Restores(p))
    ensures var s, b, logged := ss[n], ds[n].book, LoggedIn(ds[n].log);
            && NoRepeats(logged + b.pending)
            && (forall id :: id in b.processed <==> id in logged + b.pending)
            && p.sem(s.proc) == p.sem(Fold(p, data, logged + b.pending))
            && p.sem(ApplyAll(p, p.init, ChangesIn(ds[n].log))) == p.sem(Fold(p, data, logged))
            && (forall id :: id in s.recorded ==>
                  id in logged && id in data && s.recorded[id] == Size(Bad(p, data), data, id))
            && (forall id :: id in logged ==> id in s.recorded || id in s.missed || id in Bad(p, data))
  {
    var states, steps := LifeIsRun(p, data, every, c, ss, ds, calls, n, Restores(p));
    forall i | 0 <= i < |steps| ensures !steps[i].ReloadFails? && (Restores(p) || !steps[i].SaveFails?) {
      assert steps[i] in steps;
    }
    RestoringRunsAreSound(p, data, every, states, steps);
    ExactlyOnce(p, data, every, states, steps, |steps|);
    ReportsFollowTheLog(p, data, every, states, steps, |steps|);
    StaysRestored(p, data, every, states, steps, |steps|);
    RunKept(p, data, every, states, steps, |steps|);
    assert Accepted(ss[n]) == LoggedIn(ds[n].log) + ds[n].book.pending;
    JustAccepted(data, Accepted(ss[n]), ds[n].book.processed, ss[n].sent);
  }

  lemma JustAccepted<T>(data: map<string, seq<T>>, accepted: seq<string>, processed: set<string>, sent: set<string>)
    requires NothingTwice(data, accepted, processed, sent, true)
    ensures forall id :: id in processed <==> id in accepted
  {
  }

  // The drain and the append of a checkpoint, if one was due, succeeded.
  ghost predicate Saves<S, C>(call: Call<S, C>) {
    match call
    case Handle(_, _, drained, appended, _, _, _) => drained.Some? && appended
    case Flush(_, drained, appended, _, _, _) => drained.Some? && appended
    case _ => true
  }

  // Nothing that counts waits after a call that found all EOFs there, unless the batch was not new.
  ghost predicate NoneWait<S, T, C, M>(p: Processor<S, T, C, M>, data: map<string, seq<T>>, s: System<S, C>, d: Desk<C>,
                                       call: Call<S, C>, d': Desk<C>) {
    match call
    case Handle(tag, reached, _, _, _, _, _) =>
      reached && tag in s.held && s.held[tag] in data ==>
        s.held[tag] in d.book.processed || Refused(p, data[s.held[tag]]) || d'.book.batchCount == 0
    case Flush(reached, _, _, _, _, _) => reached ==> d'.book.batchCount == 0
    case _ => true
  }

  lemma ServedWaits<S(!new), T, C, M>(p: Processor<S, T, C, M>, data: map<string, seq<T>>, every: nat, c: string,
                                      s: System<S, C>, d: Desk<C>, call: Call<S, C>, s': System<S, C>, d': Desk<C>)
    requires Serves(p, data, every, c, s, d, call, s', d') && Saves(call) && d.book.batchCount < every
    ensures d'.book.batchCount < every && NoneWait(p, data, s, d, call, d')
  {
  }

  // As long as checkpoints succeed, fewer batches wait between two calls than it takes for one.
  lemma {:induction false} FewWait<S(!new), T, C, M>(p: Processor<S, T, C, M>, data: map<string, seq<T>>, every: nat,
                                                     c: string, ss: seq<System<S, C>>, ds: seq<Desk<C>>,
                                                     calls: seq<Call<S, C>>, n: nat)
    requires IsLife(p, data, every, c, ss, ds, calls) && n <= |calls| && every >= 1
    requires forall i :: 0 <= i < n ==> Saves(calls[i])
    ensures ds[n].book.batchCount < every
    ensures n > 0 ==> NoneWait(p, data, ss[n - 1], ds[n - 1], calls[n - 1], ds[n])
  {
    if n > 0 {
      FewWait(p, data, every, c, ss, ds, calls, n - 1);
      ServedWaits(p, data, every, c, ss[n - 1], ds[n - 1], calls[n - 1], ss[n], ds[n]);
    }
  }
}
