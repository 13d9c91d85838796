// What the checkpoint manager and its engine are proved to do for a client is a way through the
// steps of the model, so that what is proved about runs of the model holds of the objects.
module ManagerSteps {
  import opened Text
  import opened Checkpoint
  import opened CheckpointManagers

  // ---- Going on from a state ----

  ghost predicate Leads<S, T, C, M>(p: Processor<S, T, C, M>, data: map<string, seq<T>>, every: nat, s: System<S, C>,
                                    steps: seq<Step<S, C>>, s': System<S, C>)
    decreases |steps|
  {
    if steps == [] then s' == s
    else
      && Enabled(p, data, every, s, steps[0])
      && Leads(p, data, every, Next(p, data, every, s, steps[0]), steps[1..], s')
  }

  lemma {:induction false} LeadsOn<S, T, C, M>(p: Processor<S, T, C, M>, data: map<string, seq<T>>, every: nat,
                                               s: System<S, C>, a: seq<Step<S, C>>, m: System<S, C>,
                                               b: seq<Step<S, C>>, s': System<S, C>)
    requires Leads(p, data, every, s, a, m) && Leads(p, data, every, m, b, s')
    ensures Leads(p, data, every, s, a + b, s')
    decreases |a|
  {
    if a == [] {
      assert a + b == b;
    } else {
      LeadsOn(p, data, every, Next(p, data, every, s, a[0]), a[1..], m, b, s');
      assert (a + b)[1..] == a[1..] + b;
    }
  }

  lemma OneStep<S, T, C, M>(p: Processor<S, T, C, M>, data: map<string, seq<T>>, every: nat, s: System<S, C>,
                            step: Step<S, C>)
    requires Enabled(p, data, every, s, step)
    ensures Leads(p, data, every, s, [step], Next(p, data, every, s, step))
  {
    assert [step][1..] == [];
  }

  // A run can go on wherever its last state leads.
  lemma {:induction false} RunGoesOn<S, T, C, M>(p: Processor<S, T, C, M>, data: map<string, seq<T>>, every: nat,
                                                 states: seq<System<S, C>>, steps: seq<Step<S, C>>,
                                                 more: seq<Step<S, C>>,
                                                 s': System<S, C>) returns (states': seq<System<S, C>>)
    requires IsRun(p, data, every, states, steps) && Leads(p, data, every, states[|states| - 1], more, s')
    ensures IsRun(p, data, every, states', steps + more) && states <= states' && states'[|states'| - 1] == s'
    decreases |more|
  {
    if more == [] {
      assert steps + more == steps;
      states' := states;
    } else {
      var next := Next(p, data, every, states[|states| - 1], more[0]);
      states' := RunGoesOn(p, data, every, states + [next], steps + [more[0]], more[1..], s');
      assert steps + [more[0]] + more[1..] == steps + more;
    }
  }

  // ---- What others see of a call ----

  // What the coordinator has on its disk after these reports, of which it takes in those it heard.
  function Heard(recorded: map<string, nat>, reports: seq<Report>, heard: set<string>): map<string, nat>
    decreases |reports|
  {
    if reports == [] then recorded
    else
      var r := reports[0];
      var more := if r.batchID in heard && r.batchID !in recorded then recorded[r.batchID := r.processed] else recorded;
      Heard(more, reports[1..], heard)
  }

  function Unheard(reports: seq<Report>, heard: set<string>): set<string> {
    set r | r in reports && r.batchID !in heard :: r.batchID
  }

  ghost predicate OnlyMore<C>(d: Desk<C>, d': Desk<C>) { d.acked <= d'.acked && d.reports <= d'.reports }

  // Everything that changed is: the book, the log, the processor, what was acknowledged, what goes
  // back to the broker, and what the coordinator was told.
  ghost function Afterwards<S, C>(s: System<S, C>, d: Desk<C>, d': Desk<C>, left: S, nacked: seq<nat>,
                                  heard: set<string>): System<S, C>
    requires OnlyMore(d, d')
  {
    var acks, reports := d'.acked[|d.acked|..], d'.reports[|d.reports|..];
    s.(book := d'.book, log := d'.log, proc := left, held := s.held - (set tag | tag in acks),
       requeued := s.requeued + (set tag | tag in nacked), recorded := Heard(s.recorded, reports, heard),
       missed := s.missed + Unheard(reports, heard))
  }

  // Between two calls.
  ghost predicate Stands<S, C>(s: System<S, C>, d: Desk<C>) { s.phase == IDLE && s.book == d.book && s.log == d.log }

  // What the processor is left with by a drain, and by giving it back if the append failed.
  ghost predicate LeftBy<S(!new), T, C, M>(p: Processor<S, T, C, M>, proc: S, drained: Option<seq<C>>, appended: bool,
                                           left: S) {
    match drained
    case None => left == proc
    case Some(changes) =>
      if appended then p.drains(proc, changes, left)
      else exists mid :: p.drains(proc, changes, mid) && p.restores(mid, changes, left)
  }

  // ---- A checkpoint ----

  ghost predicate ToBeReported<S, C>(s: System<S, C>, reports: seq<Report>) {
    && s.phase.Recording?
    && (forall i :: 0 <= i < |reports| ==>
          reports[i].batchID in s.book.counts && reports[i].processed == s.book.counts[reports[i].batchID])
    && (forall i, j :: 0 <= i < j < |reports| ==> reports[i].batchID != reports[j].batchID)
    && (forall id :: id in s.phase.unreported <==> exists i :: 0 <= i < |reports| && reports[i].batchID == id)
  }

  lemma FirstReported<S, C>(s: System<S, C>, reports: seq<Report>, s': System<S, C>)
    requires ToBeReported(s, reports) && reports != []
    requires s'.phase == Recording(s.phase.unreported - {reports[0].batchID}) && s'.book == s.book
    ensures reports[0].batchID in s.phase.unreported && ToBeReported(s', reports[1..])
  {
    var rest := reports[1..];
    forall id ensures id in s'.phase.unreported <==> exists i :: 0 <= i < |rest| && rest[i].batchID == id {
      if id in s'.phase.unreported {
        var i :| 0 <= i < |reports| && reports[i].batchID == id;
        assert rest[i - 1].batchID == id;
      }
      if i :| 0 <= i < |rest| && rest[i].batchID == id { assert reports[i + 1].batchID == id; }
    }
  }

  lemma UnheardNext(reports: seq<Report>, heard: set<string>)
    requires reports != []
    ensures Unheard(reports, heard) ==
              Unheard(reports[1..], heard) + if reports[0].batchID in heard then {} else {reports[0].batchID}
  {
    assert reports == [reports[0]] + reports[1..];
  }

  lemma {:induction false} Reporting<S, T, C, M>(p: Processor<S, T, C, M>, data: map<string, seq<T>>, every: nat,
                                                 s: System<S, C>, reports: seq<Report>,
                                                 heard: set<string>) returns (steps: seq<Step<S, C>>)
    requires ToBeReported(s, reports)
    ensures Leads(p, data, every, s, steps, s.(recorded := Heard(s.recorded, reports, heard),
                                               missed := s.missed + Unheard(reports, heard), phase := Recording({})))
    ensures forall step :: step in steps ==> step.Record? || step.RecordFails?
    decreases |reports|
  {
    if reports == [] {
      assert s.phase.unreported == {};
      assert s.missed + Unheard(reports, heard) == s.missed;
      steps := [];
    } else {
      var id := reports[0].batchID;
      assert id in s.phase.unreported;
      var step := if id in heard then Record(id) else RecordFails(id);
      var s' := Next(p, data, every, s, step);
      FirstReported(s, reports, s');
      UnheardNext(reports, heard);
      var rest := Reporting(p, data, every, s', reports[1..], heard);
      assert s'.missed + Unheard(reports[1..], heard) == s.missed + Unheard(reports, heard);
      steps := [step] + rest;
      assert steps[1..] == rest;
    }
  }

  lemma {:induction false} AckAll<S, T, C, M>(p: Processor<S, T, C, M>, data: map<string, seq<T>>, every: nat,
                                              s: System<S, C>) returns (steps: seq<Step<S, C>>)
    requires s.phase.Acking?
    ensures Leads(p, data, every, s, steps, s.(held := s.held - (set tag | tag in s.phase.unacked), phase := IDLE))
    ensures forall step :: step in steps ==> step.Ack?
    decreases |s.phase.unacked|
  {
    var tags := s.phase.unacked;
    if tags == [] {
      assert s.held - (set tag | tag in tags) == s.held;
      steps := [];
    } else {
      var s' := Next(p, data, every, s, Ack);
      var rest := AckAll(p, data, every, s');
      assert tags == [tags[0]] + tags[1..];
      assert s'.held - (set tag | tag in tags[1..]) == s.held - (set tag | tag in tags);
      steps := [Ack] + rest;
      assert steps[1..] == rest;
    }
  }

  // Of the steps of the objects, only a failed append hands changes back.
  predicate Plain<S, C>(step: Step<S, C>) { !step.SaveFails? && !step.ReloadFails? }

  // An append and its reports; then a new book and the acks.
  lemma ReportedIsPath<S, T, C, M>(p: Processor<S, T, C, M>, data: map<string, seq<T>>, every: nat, c: string,
                                   s: System<S, C>, reached: bool, changes: seq<C>, before: seq<Report>,
                                   after: seq<Report>, left: S, heard: set<string>)
      returns (steps: seq<Step<S, C>>)
    requires s.phase == IDLE && Due(s.book, every, reached) && p.drains(s.proc, changes, left)
    requires ReportsAdded(c, s.book.counts, before, after)
    ensures Leads(p, data, every, s, steps,
                  s.(log := s.log + [EntryOf(s.book, changes)], proc := left,
                     recorded := Heard(s.recorded, after[|before|..], heard),
                     missed := s.missed + Unheard(after[|before|..], heard), phase := Recording({})))
    ensures forall step :: step in steps ==> Plain(step)
  {
    var save: Step<S, C> := Save(changes, left, reached);
    var s1 := Next(p, data, every, s, save);
    OneStep(p, data, every, s, save);
    NewReports(c, s.book.counts, before, after, s1);
    var told := Reporting(p, data, every, s1, after[|before|..], heard);
    LeadsOn(p, data, every, s, [save], s1, told,
            s1.(recorded := Heard(s1.recorded, after[|before|..], heard),
                missed := s1.missed + Unheard(after[|before|..], heard), phase := Recording({})));
    steps := [save] + told;
  }

  lemma SettledIsPath<S, T, C, M>(p: Processor<S, T, C, M>, data: map<string, seq<T>>, every: nat, s: System<S, C>)
      returns (steps: seq<Step<S, C>>)
    requires s.phase == Recording({})
    ensures Leads(p, data, every, s, steps,
            s.(book := Saved(s.book), held := s.held - (set tag | tag in s.book.acks), phase := IDLE))
    ensures forall step :: step in steps ==> Plain(step)
  {
    var s' := Next(p, data, every, s, Settle);
    OneStep(p, data, every, s, Settle);
    var acks := AckAll(p, data, every, s');
    LeadsOn(p, data, every, s, [Settle], s', acks,
        s'.(held := s'.held - (set tag | tag in s'.phase.unacked), phase := IDLE));
    steps := [Settle] + acks;
  }

  lemma SavedIsPath<S, T, C, M>(p: Processor<S, T, C, M>, data: map<string, seq<T>>, every: nat, c: string,
                                s: System<S, C>, reached: bool, changes: seq<C>, d: Desk<C>, d': Desk<C>, left: S,
                                heard: set<string>)
      returns (steps: seq<Step<S, C>>)
    requires s.phase == IDLE && s.log == d.log && Due(s.book, every, reached) && p.drains(s.proc, changes, left)
    requires Persisted(c, d, s.book, Some(changes), true, true, d')
    ensures OnlyMore(d, d') && Leads(p, data, every, s, steps, Afterwards(s, d, d', left, [], heard))
    ensures forall step :: step in steps ==> Plain(step)
  {
    var reports := d'.reports[|d.reports|..];
    var first := ReportedIsPath(p, data, every, c, s, reached, changes, d.reports, d'.reports, left, heard);
    var m := s.(log := s.log + [EntryOf(s.book, changes)], proc := left, recorded := Heard(s.recorded, reports, heard),
                missed := s.missed + Unheard(reports, heard), phase := Recording({}));
    var rest := SettledIsPath(p, data, every, m);
    var s' := m.(book := Saved(m.book), held := m.held - (set tag | tag in m.book.acks), phase := IDLE);
    LeadsOn(p, data, every, s, first, m, rest, s');
    steps := first + rest;
    assert d'.acked[|d.acked|..] == s.book.acks;
    assert s.requeued + (set tag: nat | tag in []) == s.requeued;
    assert s' == Afterwards(s, d, d', left, [], heard);
  }

  lemma NewReports<S, C>(c: string, counts: map<string, nat>, before: seq<Report>, after: seq<Report>, s: System<S, C>)
    requires ReportsAdded(c, counts, before, after) && s.book.counts == counts && s.phase == Recording(counts.Keys)
    ensures ToBeReported(s, after[|before|..])
  {
    var reports := after[|before|..];
    forall id | id in counts ensures exists i :: 0 <= i < |reports| && reports[i].batchID == id {
      var i :| |before| <= i < |after| && after[i].batchID == id;
      assert reports[i - |before|].batchID == id;
    }
  }

  // A checkpoint that is due, in each of its three outcomes.
  lemma PersistedIsPath<S(!new), T, C, M>(p: Processor<S, T, C, M>, data: map<string, seq<T>>, every: nat, c: string,
                                          s: System<S, C>, reached: bool, drained: Option<seq<C>>, appended: bool,
                                          ok: bool, d: Desk<C>, d': Desk<C>, left: S, nacked: seq<nat>,
                                          heard: set<string>)
      returns (steps: seq<Step<S, C>>)
    requires s.phase == IDLE && s.log == d.log && Due(s.book, every, reached)
             && LeftBy(p, s.proc, drained, appended, left)
    requires Persisted(c, d, s.book, drained, appended, ok, d')
    requires |nacked| <= 1 && (forall tag :: tag in nacked ==> tag in s.book.acks) && (ok ==> nacked == [])
    ensures OnlyMore(d, d') && Leads(p, data, every, s, steps, Afterwards(s, d, d', left, nacked, heard))
    ensures drained.None? || appended ==> forall step :: step in steps ==> Plain(step)
    ensures forall step :: step in steps ==> !step.ReloadFails?
  {
    if drained.Some? && appended {
      steps := SavedIsPath(p, data, every, c, s, reached, drained.value, d, d', left, heard);
    } else {
      var step: Step<S, C>;
      if drained.None? {
        step := DrainFails(nacked, reached);
      } else {
        var mid :| p.drains(s.proc, drained.value, mid) && p.restores(mid, drained.value, left);
        step := SaveFails(drained.value, mid, left, nacked, reached);
      }
      steps := [step];
      OneStep(p, data, every, s, step);
      assert d'.acked[|d.acked|..] == [] && d'.reports[|d.reports|..] == [];
      NothingTold(s.held, s.missed, heard);
      assert Next(p, data, every, s, step) == Afterwards(s, d, d', left, nacked, heard);
    }
  }

  lemma NothingTold(held: map<nat, string>, missed: set<string>, heard: set<string>)
    ensures held - (set tag: nat | tag in []) == held && missed + Unheard([], heard) == missed
  {
  }

  // ---- A delivery ----

  // The processor after the items of the batch, up to the first that is refused.
  function ProcessedBy<S, T, C, M>(p: Processor<S, T, C, M>, proc: S, items: seq<T>): S { p.process(proc, Taken(p,
                                   items)) }

  // What a delivery leaves of the processor: as it was, if the batch is not new; with its items, if
  // no checkpoint is due; else drained, and perhaps given back.
  ghost predicate LeftAfter<S(!new), T, C, M>(p: Processor<S, T, C, M>, proc: S, items: seq<T>, b: Book, id: string,
                                              tag: nat, every: nat, reached: bool, drained: Option<seq<C>>,
                                              appended: bool, left: S)
  {
    if id in b.processed then left == proc
    else if Refused(p, items) || !Due(Committed(Begun(b, id, tag), id, |items|), every, reached)
    then left == ProcessedBy(p, proc, items)
    else LeftBy(p, ProcessedBy(p, proc, items), drained, appended, left)
  }

  // What the engine does with a delivery is a way through the steps: it starts with the delivery, and
  // at its end the book, the log, the processor, the broker and the coordinator are as the steps say.
  lemma HandledIsPath<S(!new), T, C, M>(p: Processor<S, T, C, M>, data: map<string, seq<T>>, every: nat, c: string,
                                        s: System<S, C>, tag: nat, reached: bool, drained: Option<seq<C>>,
                                        appended: bool, ok: bool, d: Desk<C>, d': Desk<C>, left: S, heard: set<string>)
      returns (steps: seq<Step<S, C>>)
    requires Stands(s, d) && Enabled(p, data, every, s, Deliver(tag))
    requires Handled(c, s.held[tag], |data[s.held[tag]]|, tag, Refused(p, data[s.held[tag]]), reached, every,
             drained, appended, ok, d, d')
    requires LeftAfter(p, s.proc, data[s.held[tag]], d.book, s.held[tag], tag, every, reached, drained, appended, left)
    ensures OnlyMore(d, d') && Stands(Afterwards(s, d, d', left, [], heard), d')
    ensures Leads(p, data, every, s, steps, Afterwards(s, d, d', left, if ok then [] else [tag], heard))
    ensures steps != [] && steps[0] == Deliver(tag)
    ensures drained.None? || appended ==> forall step :: step in steps ==> Plain(step)
    ensures forall step :: step in steps ==> !step.ReloadFails?
  {
    var id := s.held[tag];
    var items := data[id];
    var step: Step<S, C> := Deliver(tag);
    var s1 := Next(p, data, every, s, step);
    OneStep(p, data, every, s, step);
    NothingTold(s.held, s.missed, heard);
    if id in d.book.processed {
      steps := [step];
      AckedOne(s, d, d', tag, left, heard);
    } else if Refused(p, items) {
      steps := [step];
      assert d'.acked[|d.acked|..] == [] && d'.reports[|d.reports|..] == [];
      assert (set t | t in [tag]) == {tag};
      assert s1 == Afterwards(s, d, d', left, [tag], heard);
    } else {
      TakenUpto(p, items);
      var b := Committed(Begun(d.book, id, tag), id, |items|);
      assert s1 == s.(book := b, proc := ProcessedBy(p, s.proc, items));
      if Due(b, every, reached) {
        assert b.acks == d.book.acks + [tag];
        var nacked := if ok then [] else [tag];
        var rest := PersistedIsPath(p, data, every, c, s1, reached, drained, appended, ok, d, d', left, nacked, heard);
        steps := [step] + rest;
        LeadsOn(p, data, every, s, [step], s1, rest, Afterwards(s1, d, d', left, nacked, heard));
        assert Afterwards(s1, d, d', left, nacked, heard) == Afterwards(s, d, d', left, nacked, heard);
      } else {
        steps := [step];
        assert d'.acked[|d.acked|..] == [] && d'.reports[|d.reports|..] == [];
        assert s1 == Afterwards(s, d, d', left, [], heard);
      }
    }
  }

  lemma AckedOne<S, C>(s: System<S, C>, d: Desk<C>, d': Desk<C>, tag: nat, left: S, heard: set<string>)
    requires Stands(s, d) && d' == d.(acked := d.acked + [tag]) && left == s.proc
    ensures OnlyMore(d, d') && Afterwards(s, d, d', left, [], heard) == s.(held := s.held - {tag})
  {
    assert d'.acked[|d.acked|..] == [tag] && d'.reports[|d.reports|..] == [];
    assert (set t | t in [tag]) == {tag};
    NothingTold(s.held, s.missed, heard);
    assert s.requeued + (set t: nat | t in []) == s.requeued;
  }

  // So is a checkpoint that an EOF brings about; there is no delivery to nack.
  lemma FlushedIsPath<S(!new), T, C, M>(p: Processor<S, T, C, M>, data: map<string, seq<T>>, every: nat, c: string,
                                        s: System<S, C>, reached: bool, drained: Option<seq<C>>, appended: bool,
                                        ok: bool, d: Desk<C>, d': Desk<C>, left: S, heard: set<string>)
      returns (steps: seq<Step<S, C>>)
    requires Stands(s, d) && Flushed(c, reached, drained, appended, ok, d, d')
    requires if reached && d.book.batchCount > 0 then LeftBy(p, s.proc, drained, appended, left) else left == s.proc
    ensures OnlyMore(d, d') && Stands(Afterwards(s, d, d', left, [], heard), d')
    ensures Leads(p, data, every, s, steps, Afterwards(s, d, d', left, [], heard))
    ensures drained.None? || appended ==> forall step :: step in steps ==> Plain(step)
    ensures forall step :: step in steps ==> !step.ReloadFails?
  {
    if reached && d.book.batchCount > 0 {
      steps := PersistedIsPath(p, data, every, c, s, reached, drained, appended, ok, d, d', left, [], heard);
    } else {
      steps := [];
      assert d'.acked[|d.acked|..] == [] && d'.reports[|d.reports|..] == [];
      NothingTold(s.held, s.missed, heard);
      assert s.requeued + (set t: nat | t in []) == s.requeued;
    }
  }

  // ---- A start ----

  function ToLoad(ids: seq<string>, counts: seq<nat>): Phase { if ids == [] then IDLE else Loading(ids, counts) }

  lemma {:induction false} Reloading<S, T, C, M>(p: Processor<S, T, C, M>, data: map<string, seq<T>>, every: nat,
                                                 s: System<S, C>, ids: seq<string>, counts: seq<nat>,
                                                 reports: seq<Report>, heard: set<string>)
      returns (steps: seq<Step<S, C>>)
    requires s.phase == ToLoad(ids, counts) && |reports| <= |ids| == |counts|
    requires forall i :: 0 <= i < |reports| ==>
               reports[i].batchID == ids[i] && reports[i].processed == counts[i] && ids[i] in heard
    ensures Leads(p, data, every, s, steps, s.(recorded := Heard(s.recorded, reports, heard),
                                               phase := ToLoad(ids[|reports|..], counts[|reports|..])))
    ensures forall step :: step in steps ==> step.Reload?
    decreases |reports|
  {
    if reports == [] {
      steps := [];
    } else {
      var s' := Next(p, data, every, s, Reload);
      var rest := Reloading(p, data, every, s', ids[1..], counts[1..], reports[1..], heard);
      assert ids[1..][|reports| - 1..] == ids[|reports|..] && counts[1..][|reports| - 1..] == counts[|reports|..];
      steps := [Reload] + rest;
      assert steps[1..] == rest;
    }
  }

  function Ids(q: seq<string>): set<string> { set id | id in q }

  // What a crash and the next start leave: the processor rebuilt from the log, nothing waiting, and
  // the logged batches told to the coordinator again, up to the report that fails. written tells
  // whether that one was taken in before it failed.
  ghost function Rebooted<S, T, C, M>(p: Processor<S, T, C, M>, s: System<S, C>, d: Desk<C>, d': Desk<C>, ok: bool,
                                      written: bool):
      System<S, C>
    requires OnlyMore(d, d') && (!ok ==> d.reports < d'.reports && |d'.reports| - |d.reports| <= |LoggedIn(d.log)|)
  {
    var reports, logged := d'.reports[|d.reports|..], LoggedIn(d.log);
    var told := if ok || written then reports else reports[..|reports| - 1];
    s.(book := d'.book, proc := ApplyAll(p, p.init, ChangesIn(d.log)), phase := IDLE, requeued := {}, restored := ok,
       recorded := Heard(s.recorded, told, Ids(logged)), missed := if ok then {} else Ids(logged[|reports| - 1..]))
  }

  ghost predicate Again(ids: seq<string>, counts: seq<nat>, reports: seq<Report>) {
    && |reports| <= |ids| == |counts|
    && forall i :: 0 <= i < |reports| ==>
         reports[i].batchID == ids[i] && reports[i].processed == counts[i] && ids[i] in Ids(ids)
  }

  lemma ReportsAgain(c: string, ids: seq<string>, counts: seq<nat>, n: nat, before: seq<Report>, after: seq<Report>)
    requires ReportedAgain(c, ids, counts, n, before, after)
    ensures |after[|before|..]| == n && Again(ids, counts, after[|before|..])
  {
    forall i | 0 <= i < n ensures after[|before|..][i] == Report(c, ids[i], counts[i]) && ids[i] in Ids(ids) {
      assert after[|before|..][i] == after[|before| + i];
      assert ids[i] in ids;
    }
  }

  // The restart itself, and the reports it makes.
  lemma StartedAgain<S, T, C, M>(p: Processor<S, T, C, M>, data: map<string, seq<T>>, every: nat, s: System<S, C>,
                                 reports: seq<Report>)
      returns (steps: seq<Step<S, C>>)
    requires Again(LoggedIn(s.log), CountsIn(s.log), reports)
    ensures Leads(p, data, every, s, steps,
                  s.(book := Loaded(s.log, true), proc := ApplyAll(p, p.init, ChangesIn(s.log)),
                     requeued := {}, missed := {},
                     restored := true, recorded := Heard(s.recorded, reports, Ids(LoggedIn(s.log))),
                     phase := ToLoad(LoggedIn(s.log)[|reports|..], CountsIn(s.log)[|reports|..])))
    ensures steps != [] && steps[0] == Crash(true) && forall step :: step in steps ==> Plain(step)
  {
    var ids, counts := LoggedIn(s.log), CountsIn(s.log);
    var s1 := Next(p, data, every, s, Crash(true));
    OneStep(p, data, every, s, Crash(true));
    var told := Reloading(p, data, every, s1, ids, counts, reports, Ids(ids));
    LeadsOn(p, data, every, s, [Crash(true)], s1, told,
            s1.(recorded := Heard(s1.recorded, reports, Ids(ids)),
                phase := ToLoad(ids[|reports|..], counts[|reports|..])));
    steps := [Crash(true)] + told;
  }

  // From any state whatever, in the middle of any call: the crash and the start of an object that
  // knows nothing but the log are steps of the model.
  lemma RestoredIsPath<S, T, C, M>(p: Processor<S, T, C, M>, data: map<string, seq<T>>, every: nat, c: string,
                                   s: System<S, C>, failsAt: Option<nat>, written: bool, ok: bool, d: Desk<C>,
                                   d': Desk<C>)
      returns (steps: seq<Step<S, C>>)
    requires s.log == d.log && d.book == EMPTY_BOOK && Restored(c, failsAt, ok, d, d')
    ensures OnlyMore(d, d') && (!ok ==> d.reports < d'.reports && |d'.reports| - |d.reports| <= |LoggedIn(d.log)|)
    ensures Leads(p, data, every, s, steps, Rebooted(p, s, d, d', ok, written))
            && Stands(Rebooted(p, s, d, d', ok, written), d')
    ensures steps != [] && steps[0] == Crash(true) && (ok ==> forall step :: step in steps ==> Plain(step))
    ensures forall step :: step in steps ==> !step.SaveFails?
  {
    var reports := d'.reports[|d.reports|..];
    ReportsAgain(c, LoggedIn(d.log), CountsIn(d.log), if ok then |LoggedIn(d.log)| else failsAt.value + 1, d.reports,
        d'.reports);
    if ok {
      steps := StartedAgain(p, data, every, s, reports);
      LoadedBook(d, d'.book);
    } else {
      var k := |reports| - 1;
      assert Again(LoggedIn(d.log), CountsIn(d.log), reports[..k]);
      steps := FailedAgain(p, data, every, s, reports, written);
    }
  }

  // The last of these reports fails.
  lemma FailedAgain<S, T, C, M>(p: Processor<S, T, C, M>, data: map<string, seq<T>>, every: nat, s: System<S, C>,
                                reports: seq<Report>, written: bool)
      returns (steps: seq<Step<S, C>>)
    requires reports != [] && Again(LoggedIn(s.log), CountsIn(s.log), reports)
    ensures var k := |reports| - 1;
            Leads(p, data, every, s, steps,
                  s.(book := EMPTY_BOOK, proc := ApplyAll(p, p.init, ChangesIn(s.log)), requeued := {},
                     phase := IDLE, restored := false,
                     recorded := Heard(s.recorded, if written then reports else reports[..k], Ids(LoggedIn(s.log))),
                     missed := Ids(LoggedIn(s.log)[k..])))
    ensures steps != [] && steps[0] == Crash(true) && forall step :: step in steps ==> !step.SaveFails?
  {
    var ids, k := LoggedIn(s.log), |reports| - 1;
    var first := StartedAgain(p, data, every, s, reports[..k]);
    var m := s.(book := Loaded(s.log, true), proc := ApplyAll(p, p.init, ChangesIn(s.log)), requeued := {},
                missed := {}, restored := true, recorded := Heard(s.recorded, reports[..k], Ids(ids)),
                phase := ToLoad(ids[k..], CountsIn(s.log)[k..]));
    var s' := Next(p, data, every, m, ReloadFails(written));
    OneStep(p, data, every, m, ReloadFails(written));
    LeadsOn(p, data, every, s, first, m, [ReloadFails(written)], s');
    steps := first + [ReloadFails(written)];
    HeardLast(s.recorded, reports, Ids(ids));
    assert {} + (set id | id in m.phase.ids) == Ids(ids[k..]);
  }

  lemma HeardLast(recorded: map<string, nat>, reports: seq<Report>, heard: set<string>)
    requires reports != [] && reports[|reports| - 1].batchID in heard
    ensures var k := |reports| - 1;
            Heard(recorded, reports, heard) ==
                Reported(Heard(recorded, reports[..k], heard), reports[k].batchID, reports[k].processed)
  {
    var k := |reports| - 1;
    HeardNext(recorded, reports[..k], reports[k], heard);
    assert reports == reports[..k] + [reports[k]];
  }

  lemma LoadedBook<C>(d: Desk<C>, book: Book)
    requires forall id :: id in book.processed <==> exists i :: 0 <= i < |d.log| && id in d.log[i].batches
    requires book.nextSeq == (if d.log == [] then 1 else d.log[|d.log| - 1].seqNo + 1)
    requires book.batchCount == 0 && book.pending == [] && book.acks == [] && book.counts == map[]
    ensures book == Loaded(d.log, true)
  {
    LoggedMember(d.log);
  }

  lemma {:induction false} HeardNext(recorded: map<string, nat>, reports: seq<Report>, r: Report, heard: set<string>)
    requires r.batchID in heard
    ensures Heard(recorded, reports + [r], heard) == Reported(Heard(recorded, reports, heard), r.batchID, r.processed)
    decreases |reports|
  {
    if reports == [] {
      assert [r][1..] == [];
    } else {
      var q := reports[0];
      var more := if q.batchID in heard && q.batchID !in recorded then recorded[q.batchID := q.processed] else recorded;
      HeardNext(more, reports[1..], r, heard);
      assert (reports + [r])[1..] == reports[1..] + [r];
    }
  }

  // Without a log file there is nothing to restore.
  lemma UnseenIsPath<S, T, C, M>(p: Processor<S, T, C, M>, data: map<string, seq<T>>, every: nat, s: System<S, C>,
                                 d: Desk<C>)
    requires s.log == d.log == [] && d.book == EMPTY_BOOK
    ensures var s' := s.(book := EMPTY_BOOK, proc := p.init, phase := IDLE, requeued := {}, restored := true,
                           missed := {});
            Leads(p, data, every, s, [Crash(false)], s') && Stands(s', d)
  {
    OneStep(p, data, every, s, Crash(false));
  }
}
