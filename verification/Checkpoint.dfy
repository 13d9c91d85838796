// The checkpointed engine of a stateful worker, for one client: duplicate deliveries, and a crash
// between any two of its actions. The processor is any processor that meets the laws below; the
// modules about the real processors show that theirs do.
module Checkpoint {

  // ---- Processors ----

  // admits: the batches the processor is meant for; refuses: the items for which it returns an
  // error; process: the effect of the items of one batch; drains: the changes handed over for the
  // log, in some order, and the state left; restores: what giving them back leaves; apply: replaying
  // one change; sem: what counts of a state; rel(live, base): live is base and the changes not
  // drained yet.
  datatype Processor<!S, !T, !C, !M> = Processor(
    init: S,
    admits: seq<T> -> bool,
    refuses: T -> bool,
    process: (S, seq<T>) -> S,
    drains: (S, seq<C>, S) -> bool,
    restores: (S, seq<C>, S) -> bool,
    apply: (S, C) -> S,
    sem: S -> M,
    rel: (S, S) -> bool)

  function ApplyAll<S, T, C, M>(p: Processor<S, T, C, M>, s: S, changes: seq<C>): S {
    if changes == [] then s else p.apply(ApplyAll(p, s, changes[..|changes| - 1]), changes[|changes| - 1])
  }

  // The items of a batch that are processed: those before the first that is refused.
  function Taken<S, T, C, M>(p: Processor<S, T, C, M>, items: seq<T>): (taken: seq<T>) {
    if items == [] then []
    else
      var before := Taken(p, items[..|items| - 1]);
      if |before| < |items| - 1 || p.refuses(items[|items| - 1]) then before else items
  }

  lemma {:induction false} TakenUpto<S, T, C, M>(p: Processor<S, T, C, M>, items: seq<T>)
    ensures Taken(p, items) <= items && (forall x :: x in Taken(p, items) ==> !p.refuses(x))
    ensures Taken(p, items) == items || p.refuses(items[|Taken(p, items)|])
  {
    if items != [] { TakenUpto(p, items[..|items| - 1]); }
  }

  predicate Refused<S, T, C, M>(p: Processor<S, T, C, M>, items: seq<T>) { |Taken(p, items)| < |items| }

  // The batches of which an item is refused.
  function Bad<S, T, C, M>(p: Processor<S, T, C, M>, data: map<string, seq<T>>): set<string> {
    set id | id in data && Refused(p, data[id])
  }

  // The size under which a batch is logged: a refused one has none.
  function Size<T>(bad: set<string>, data: map<string, seq<T>>, id: string): nat
    requires id in data
  {
    if id in bad then 0 else |data[id]|
  }

  ghost predicate Processes<S(!new), T(!new), C(!new), M(!new)>(p: Processor<S, T, C, M>) {
    && p.rel(p.init, p.init)
    && (forall items :: p.admits(items) ==> p.admits(Taken(p, items)))
    && (forall live, base, items :: p.admits(items) && p.rel(live, base) ==> p.rel(p.process(live, items), base))
    && (forall s, t, items :: p.admits(items) && p.sem(s) == p.sem(t) ==> p.sem(p.process(s, items)) == p.sem(p.process(t, items)))
  }

  ghost predicate Admitted<S, T, C, M>(p: Processor<S, T, C, M>, data: map<string, seq<T>>) {
    forall id :: id in data ==> p.admits(data[id])
  }

  // Replaying what was drained brings the base to where the live state is.
  ghost predicate Drained<S, T, C, M>(p: Processor<S, T, C, M>, live: S, live': S, base': S) {
    p.sem(live') == p.sem(live) && p.sem(base') == p.sem(live) && p.rel(live', base') && p.rel(base', base')
  }

  ghost predicate Drains<S(!new), T(!new), C(!new), M(!new)>(p: Processor<S, T, C, M>) {
    forall live, base, changes, live' :: p.rel(live, base) && p.drains(live, changes, live') ==>
      Drained(p, live, live', ApplyAll(p, base, changes))
  }

  ghost predicate Lawful<S(!new), T(!new), C(!new), M(!new)>(p: Processor<S, T, C, M>) { Processes(p) && Drains(p) }

  // A drain that is given back leaves the base and the meaning as they were.
  ghost predicate TakenBack<S, T, C, M>(p: Processor<S, T, C, M>, live: S, base: S, live'': S) {
    p.rel(live'', base) && p.sem(live'') == p.sem(live)
  }

  ghost predicate Restores<S(!new), T(!new), C(!new), M(!new)>(p: Processor<S, T, C, M>) {
    forall live, base, changes, live', live'' ::
      p.rel(live, base) && p.drains(live, changes, live') && p.restores(live', changes, live'') ==>
        TakenBack(p, live, base, live'')
  }

  // ---- What the checkpoint manager keeps for a client ----

  datatype Entry<C> = Entry(seqNo: nat, batches: seq<string>, changes: seq<C>, counts: seq<nat>)

  // An ack is named by the tag of the delivery it acknowledges.
  datatype Book = Book(
    nextSeq: nat,
    batchCount: nat,
    processed: set<string>,
    pending: seq<string>,
    acks: seq<nat>,
    counts: map<string, nat>)

  const EMPTY_BOOK := Book(0, 0, {}, [], [], map[])

  function Begun(b: Book, id: string, tag: nat): Book {
    b.(processed := b.processed + {id}, pending := b.pending + [id], acks := b.acks + [tag], batchCount := b.batchCount + 1)
  }

  function Committed(b: Book, id: string, n: nat): Book { b.(counts := b.counts[id := n]) }

  // One of the items was refused: the batch stays among the pending ones, but does not count.
  function Aborted(b: Book, id: string, tag: nat): Book { Begun(b, id, tag).(batchCount := b.batchCount) }

  function CountsOf(counts: map<string, nat>, ids: seq<string>): seq<nat> {
    if ids == [] then []
    else CountsOf(counts, ids[..|ids| - 1])
         + [if ids[|ids| - 1] in counts then counts[ids[|ids| - 1]] else 0]
  }

  function EntryOf<C>(b: Book, changes: seq<C>): Entry<C> {
    Entry(b.nextSeq, b.pending, changes, CountsOf(b.counts, b.pending))
  }

  function Saved(b: Book): Book {
    b.(nextSeq := b.nextSeq + 1, batchCount := 0, pending := [], acks := [], counts := map[])
  }

  function LoggedIn<C>(log: seq<Entry<C>>): seq<string> {
    if log == [] then [] else LoggedIn(log[..|log| - 1]) + log[|log| - 1].batches
  }

  function CountsIn<C>(log: seq<Entry<C>>): seq<nat> {
    if log == [] then [] else CountsIn(log[..|log| - 1]) + log[|log| - 1].counts
  }

  function ChangesIn<C>(log: seq<Entry<C>>): seq<C> {
    if log == [] then [] else ChangesIn(log[..|log| - 1]) + log[|log| - 1].changes
  }

  // A log file that is found empty counts as one whose last number is zero.
  function Loaded<C>(log: seq<Entry<C>>, found: bool): Book {
    EMPTY_BOOK.(nextSeq := if log != [] then log[|log| - 1].seqNo + 1 else if found then 1 else 0,
                processed := set id | id in LoggedIn(log))
  }

  // ---- The worker, its disk and its queue ----

  // Loading: restored batches still to be reported; Recording: saved batches still to be
  // reported; Acking: deliveries still to be acknowledged, none of them while idle.
  datatype Phase = Loading(ids: seq<string>, counts: seq<nat>) | Recording(unreported: set<string>) | Acking(unacked: seq<nat>)

  const IDLE := Acking([])

  // held: the deliveries the broker still holds, by tag; recorded: the batches that the
  // coordinator has on its own disk, with their counts; requeued: nacked, though still in acks;
  // missed: what could not be reported since the last start; restored: whether that start brought
  // the book back from the log.
  datatype System<S, C> = System(
    proc: S,
    book: Book,
    phase: Phase,
    log: seq<Entry<C>>,
    recorded: map<string, nat>,
    held: map<nat, string>,
    requeued: set<nat>,
    nextTag: nat,
    sent: set<string>,
    missed: set<string>,
    restored: bool)

  datatype Step<S, C> =
    | Send(id: string)                                     // upstream publishes a batch, perhaps again
    | Deliver(tag: nat)
    | Save(changes: seq<C>, drained: S, reached: bool)     // reached: the coordinator has all EOFs
    | SaveFails(changes: seq<C>, drained: S, restored: S, nacked: seq<nat>, reached: bool)
    | DrainFails(nacked: seq<nat>, reached: bool)          // nothing is handed over
    | Record(id: string)
    | RecordFails(id: string)                              // the error is not looked at
    | Settle
    | Ack
    | Reload
    | ReloadFails(written: bool)                           // written: the coordinator failed after it had recorded
    | Crash(found: bool)                                   // and restart; found: there is a log file

  predicate Enabled<S, T, C, M>(p: Processor<S, T, C, M>, data: map<string, seq<T>>, every: nat, s: System<S, C>,
                                step: Step<S, C>) {
    match step
    case Send(id) => id in data
    case Deliver(tag) =>
      s.phase == IDLE && tag in s.held && s.held[tag] in data && (tag in s.book.acks ==> tag in s.requeued)
    case Save(changes, drained, reached) =>
      s.phase == IDLE && s.book.batchCount > 0 && (s.book.batchCount >= every || reached) && p.drains(s.proc, changes, drained)
    case SaveFails(changes, drained, restored, nacked, reached) =>
      && s.phase == IDLE && s.book.batchCount > 0 && (s.book.batchCount >= every || reached)
      && p.drains(s.proc, changes, drained) && p.restores(drained, changes, restored)
      && |nacked| <= 1 && forall tag :: tag in nacked ==> tag in s.book.acks
    case DrainFails(nacked, reached) =>
      && s.phase == IDLE && s.book.batchCount > 0 && (s.book.batchCount >= every || reached)
      && |nacked| <= 1 && forall tag :: tag in nacked ==> tag in s.book.acks
    case Record(id) => s.phase.Recording? && id in s.phase.unreported && id in s.book.counts
    case RecordFails(id) => s.phase.Recording? && id in s.phase.unreported
    case Settle => s.phase == Recording({})
    case Ack => s.phase.Acking? && s.phase.unacked != []
    case Reload => s.phase.Loading? && s.phase.ids != [] && s.phase.counts != []
    case ReloadFails(_) => s.phase.Loading? && s.phase.ids != [] && s.phase.counts != []
    case Crash(found) => s.log != [] ==> found
  }

  // What the coordinator does with a report: the first one stays.
  function Reported(recorded: map<string, nat>, id: string, n: nat): map<string, nat> {
    if id in recorded then recorded else recorded[id := n]
  }

  function Next<S, T, C, M>(p: Processor<S, T, C, M>, data: map<string, seq<T>>, every: nat, s: System<S, C>,
                            step: Step<S, C>):
      System<S, C>
    requires Enabled(p, data, every, s, step)
  {
    match step
    case Send(id) => s.(held := s.held[s.nextTag := id], nextTag := s.nextTag + 1, sent := s.sent + {id})
    case Deliver(tag) =>
      var id := s.held[tag];
      if id in s.book.processed then s.(held := s.held - {tag})
      else
        var s' := s.(proc := p.process(s.proc, Taken(p, data[id])));
        if id in Bad(p, data) then s'.(book := Aborted(s.book, id, tag), requeued := s.requeued + {tag})
        else s'.(book := Committed(Begun(s.book, id, tag), id, |data[id]|))
    case Save(changes, drained, _) =>
      s.(log := s.log + [EntryOf(s.book, changes)], proc := drained, phase := Recording(s.book.counts.Keys))
    case SaveFails(_, _, restored, nacked, _) => s.(proc := restored, requeued := s.requeued + set tag | tag in nacked)
    case DrainFails(nacked, _) => s.(requeued := s.requeued + set tag | tag in nacked)
    case Record(id) =>
      s.(recorded := Reported(s.recorded, id, s.book.counts[id]), phase := Recording(s.phase.unreported - {id}))
    case RecordFails(id) => s.(missed := s.missed + {id}, phase := Recording(s.phase.unreported - {id}))
    case Settle => s.(book := Saved(s.book), phase := Acking(s.book.acks))
    case Ack => s.(held := s.held - {s.phase.unacked[0]}, phase := Acking(s.phase.unacked[1..]))
    case Reload =>
      var rest := Loading(s.phase.ids[1..], s.phase.counts[1..]);
      s.(recorded := Reported(s.recorded, s.phase.ids[0], s.phase.counts[0]),
         phase := if rest.ids == [] then IDLE else rest)
    case ReloadFails(written) =>
      s.(recorded := if written then Reported(s.recorded, s.phase.ids[0], s.phase.counts[0]) else s.recorded,
         book := EMPTY_BOOK, phase := IDLE, missed := s.missed + (set id | id in s.phase.ids), restored := false)
    case Crash(found) =>
      s.(proc := ApplyAll(p, p.init, ChangesIn(s.log)), book := Loaded(s.log, found), requeued := {}, missed := {},
         restored := true,
         phase := if LoggedIn(s.log) == [] then IDLE else Loading(LoggedIn(s.log), CountsIn(s.log)))
  }

  function Start<S, T, C, M>(p: Processor<S, T, C, M>): System<S, C> {
    System(p.init, EMPTY_BOOK, IDLE, [], map[], map[], {}, 0, {}, {}, true)
  }

  ghost predicate IsRun<S, T, C, M>(p: Processor<S, T, C, M>, data: map<string, seq<T>>, every: nat,
                                    states: seq<System<S, C>>, steps: seq<Step<S, C>>) {
    && |states| == |steps| + 1
    && states[0] == Start(p)
    && forall i :: 0 <= i < |steps| ==>
         Enabled(p, data, every, states[i], steps[i]) && states[i + 1] == Next(p, data, every, states[i], steps[i])
  }

  // The processor's state after the batches, each processed once, in order, up to what is refused.
  function Fold<S, T, C, M>(p: Processor<S, T, C, M>, data: map<string, seq<T>>, ids: seq<string>): S {
    if ids == [] then p.init
    else
      var s := Fold(p, data, ids[..|ids| - 1]);
      if ids[|ids| - 1] in data then p.process(s, Taken(p, data[ids[|ids| - 1]])) else s
  }

  // ---- What every reachable state keeps ----

  ghost predicate NoRepeats<X(!new)>(q: seq<X>) { forall i, j :: 0 <= i < j < |q| ==> q[i] != q[j] }

  // The batches that count for the processor: the logged ones, then those waiting to be saved.
  function Accepted<S, C>(s: System<S, C>): seq<string> {
    Counting(LoggedIn(s.log), s.book.pending, s.phase.Recording?)
  }

  function Counting(logged: seq<string>, pending: seq<string>, recording: bool): seq<string> {
    if recording then logged else logged + pending
  }

  lemma CountingNext(logged: seq<string>, pending: seq<string>, id: string)
    ensures Counting(logged, pending + [id], false) == Counting(logged, pending, false) + [id]
  {
  }

  // As many acks as pending batches, and a size for each of them that was not refused.
  ghost predicate BookKept<T>(bad: set<string>, data: map<string, seq<T>>, b: Book) {
    && |b.pending| == |b.acks| && b.batchCount == |b.counts|
    && (forall id :: id in b.pending ==> id in data && id in b.processed)
    && (forall id :: id in b.counts <==> id in b.pending && id !in bad)
    && (forall id :: id in b.counts ==> b.counts[id] == |data[id]|)
  }

  // While a start reports again and while acks go out, no batch is waiting.
  ghost predicate WaitingKept(pending: seq<string>, phase: Phase) {
    phase != IDLE && !phase.Recording? ==> pending == []
  }

  ghost predicate NothingTwice<T>(data: map<string, seq<T>>, accepted: seq<string>, processed: set<string>,
                                  sent: set<string>, restored: bool) {
    && NoRepeats(accepted)
    && (forall id :: id in processed ==> id in accepted)
    && (restored ==> forall id :: id in accepted ==> id in processed)
    && (forall id :: id in accepted ==> id in data && id in sent)
  }

  ghost predicate EntryKept<T, C>(bad: set<string>, data: map<string, seq<T>>, e: Entry<C>) {
    |e.counts| == |e.batches|
    && forall i :: 0 <= i < |e.batches| ==> e.batches[i] in data && e.counts[i] == Size(bad, data, e.batches[i])
  }

  ghost predicate LogKept<T, C>(bad: set<string>, data: map<string, seq<T>>, log: seq<Entry<C>>, pending: seq<string>,
                                recording: bool) {
    && (forall i :: 0 <= i < |log| ==> EntryKept(bad, data, log[i]))
    && (recording ==> log != [] && log[|log| - 1].batches == pending)
  }

  // As far as they are still held, the copies to be acknowledged are of the pending batches.
  ghost predicate AcksMatch(held: map<nat, string>, nextTag: nat, acks: seq<nat>, pending: seq<string>) {
    && NoRepeats(acks)
    && forall i :: 0 <= i < |acks| && i < |pending| ==>
         acks[i] < nextTag && (acks[i] in held ==> held[acks[i]] == pending[i])
  }

  ghost predicate LastAcksMatch(held: map<nat, string>, nextTag: nat, unacked: seq<nat>, logged: seq<string>) {
    forall tag :: tag in unacked ==> tag < nextTag && (tag in held ==> held[tag] in logged)
  }

  ghost predicate HasCopy(held: map<nat, string>, id: string) { exists tag :: tag in held && held[tag] == id }

  // Every batch that was sent and is not logged has a copy that will be delivered again.
  ghost predicate NotLost(held: map<nat, string>, sent: set<string>, logged: seq<string>) {
    forall id :: id in sent && id !in logged ==> HasCopy(held, id)
  }

  ghost predicate TagsKept(held: map<nat, string>, nextTag: nat, sent: set<string>) {
    forall tag :: tag in held ==> tag < nextTag && held[tag] in sent
  }

  ghost predicate ToReport(phase: Phase, id: string) {
    match phase
    case Loading(ids, _) => id in ids
    case Recording(unreported) => id in unreported
    case Acking(_) => false
  }

  // Reported are only logged batches, with their sizes, and, once the worker is idle, all of them
  // that were not refused and whose report did not fail.
  ghost predicate ReportsKept<T>(bad: set<string>, data: map<string, seq<T>>, recorded: map<string, nat>,
                                 logged: seq<string>, phase: Phase, missed: set<string>) {
    && (forall id :: id in recorded ==> id in logged && id in data && recorded[id] == Size(bad, data, id))
    && (forall id :: id in logged ==>
          id in recorded || ToReport(phase, id) || id in missed || id in bad)
  }

  ghost predicate LoadingKept<T>(bad: set<string>, data: map<string, seq<T>>, logged: seq<string>, phase: Phase) {
    phase.Loading? ==>
      (|phase.ids| == |phase.counts| &&
       forall i :: 0 <= i < |phase.ids| ==>
         phase.ids[i] in logged && phase.ids[i] in data && phase.counts[i] == Size(bad, data, phase.ids[i]))
  }

  // The state is the logged one and the changes not drained yet.
  ghost predicate Ahead<S, T, C, M>(p: Processor<S, T, C, M>, proc: S, logged: seq<C>) {
    var base := ApplyAll(p, p.init, logged);
    p.rel(proc, base) && p.rel(base, base)
  }

  // The processor stands where the accepted batches put it, the log where the logged ones do.
  ghost predicate StateKept<S, T, C, M>(p: Processor<S, T, C, M>, data: map<string, seq<T>>, proc: S, changes: seq<C>,
                                        accepted: seq<string>, logged: seq<string>) {
    var base := ApplyAll(p, p.init, changes);
    && p.sem(proc) == p.sem(Fold(p, data, accepted))
    && p.sem(base) == p.sem(Fold(p, data, logged))
    && Ahead(p, proc, changes)
  }

  // Book, log, queue and reports fit together.
  ghost predicate BooksKept<S, T, C>(bad: set<string>, data: map<string, seq<T>>, s: System<S, C>) {
    && BookKept(bad, data, s.book)
    && WaitingKept(s.book.pending, s.phase)
    && NothingTwice(data, Accepted(s), s.book.processed, s.sent, s.restored)
    && LogKept(bad, data, s.log, s.book.pending, s.phase.Recording?)
    && AcksMatch(s.held, s.nextTag, s.book.acks, s.book.pending)
    && (s.phase.Acking? ==> LastAcksMatch(s.held, s.nextTag, s.phase.unacked, LoggedIn(s.log)))
    && TagsKept(s.held, s.nextTag, s.sent)
    && ReportsKept(bad, data, s.recorded, LoggedIn(s.log), s.phase, s.missed)
    && LoadingKept(bad, data, LoggedIn(s.log), s.phase)
  }

  ghost predicate Kept<S, T, C, M>(p: Processor<S, T, C, M>, data: map<string, seq<T>>, s: System<S, C>) {
    && BooksKept(Bad(p, data), data, s)
    && StateKept(p, data, s.proc, ChangesIn(s.log), Accepted(s), LoggedIn(s.log))
  }

  // Where an append fails, the changes given back put the processor where it was: the state still
  // means the same, and is again the logged one and the changes not drained.
  ghost predicate GivesBack<S, T, C, M>(p: Processor<S, T, C, M>, s: System<S, C>, step: Step<S, C>) {
    step.SaveFails? ==> TakenBack(p, s.proc, ApplyAll(p, p.init, ChangesIn(s.log)), step.restored)
  }

  // A batch taken for a new one is not in the log. A start that did not restore the book can take a
  // logged one for new.
  ghost predicate Deduped<S, C>(s: System<S, C>, step: Step<S, C>) {
    step.Deliver? && step.tag in s.held && s.held[step.tag] !in s.book.processed ==> s.held[step.tag] !in LoggedIn(s.log)
  }

  // ---- Small facts about logs and folds ----

  lemma {:induction false} NoMoreThan<X(!new)>(q: seq<X>, s: set<X>)
    requires NoRepeats(q) && forall i :: 0 <= i < |q| ==> q[i] in s
    ensures |q| <= |s|
  {
    if q != [] {
      NoMoreThan(q[1..], s - {q[0]});
    }
  }

  lemma {:induction false} CountsMatch(counts: map<string, nat>, ids: seq<string>)
    ensures |CountsOf(counts, ids)| == |ids|
    ensures forall i :: 0 <= i < |ids| ==> CountsOf(counts, ids)[i] == if ids[i] in counts then counts[ids[i]] else 0
  {
    if ids != [] { CountsMatch(counts, ids[..|ids| - 1]); }
  }

  lemma OneMoreEntry<C>(log: seq<Entry<C>>, e: Entry<C>)
    ensures LoggedIn(log + [e]) == LoggedIn(log) + e.batches
    ensures ChangesIn(log + [e]) == ChangesIn(log) + e.changes
  {
    assert (log + [e])[..|log|] == log;
  }

  lemma LastEntry<C>(log: seq<Entry<C>>, id: string)
    requires log != [] && id in log[|log| - 1].batches
    ensures id in LoggedIn(log)
  {
  }

  lemma {:induction false} ApplyConcat<S, T, C, M>(p: Processor<S, T, C, M>, s: S, a: seq<C>, b: seq<C>)
    ensures ApplyAll(p, s, a + b) == ApplyAll(p, ApplyAll(p, s, a), b)
  {
    if b == [] {
      assert a + b == a;
    } else {
      assert (a + b)[..|a + b| - 1] == a + b[..|b| - 1];
      ApplyConcat(p, s, a, b[..|b| - 1]);
    }
  }

  lemma {:induction false} LoggedCounts<T, C>(bad: set<string>, data: map<string, seq<T>>, log: seq<Entry<C>>)
    requires forall i :: 0 <= i < |log| ==> EntryKept(bad, data, log[i])
    ensures |CountsIn(log)| == |LoggedIn(log)|
    ensures forall i :: 0 <= i < |LoggedIn(log)| ==>
              LoggedIn(log)[i] in data && CountsIn(log)[i] == Size(bad, data, LoggedIn(log)[i])
  {
    if log != [] { LoggedCounts(bad, data, log[..|log| - 1]); }
  }

  lemma FoldNext<S, T, C, M>(p: Processor<S, T, C, M>, data: map<string, seq<T>>, ids: seq<string>, id: string)
    requires id in data
    ensures Fold(p, data, ids + [id]) == p.process(Fold(p, data, ids), Taken(p, data[id]))
  {
    assert (ids + [id])[..|ids|] == ids;
  }

  // ---- Each step keeps it ----

  lemma StartKept<S(!new), T(!new), C(!new), M(!new)>(p: Processor<S, T, C, M>, data: map<string, seq<T>>)
    requires Lawful(p)
    ensures Kept(p, data, Start(p))
  {
  }

  lemma SendKept<S, T, C, M>(p: Processor<S, T, C, M>, data: map<string, seq<T>>, every: nat, s: System<S, C>,
                             step: Step<S, C>)
    requires Kept(p, data, s) && Enabled(p, data, every, s, step) && step.Send?
    ensures Kept(p, data, Next(p, data, every, s, step))
  {
    OneMoreCopy(s.held, s.nextTag, s.sent, step.id);
    OneMoreCopyAcks(s.held, s.nextTag, step.id, s.book.acks, s.book.pending);
    if s.phase.Acking? { OneMoreCopyLast(s.held, s.nextTag, step.id, s.phase.unacked, LoggedIn(s.log)); }
  }

  lemma OneMoreCopy(held: map<nat, string>, nextTag: nat, sent: set<string>, id: string)
    requires TagsKept(held, nextTag, sent)
    ensures TagsKept(held[nextTag := id], nextTag + 1, sent + {id})
  {
  }

  lemma OneMoreCopyAcks(held: map<nat, string>, nextTag: nat, id: string, acks: seq<nat>, pending: seq<string>)
    requires AcksMatch(held, nextTag, acks, pending)
    ensures AcksMatch(held[nextTag := id], nextTag + 1, acks, pending)
  {
  }

  lemma OneMoreCopyLast(held: map<nat, string>, nextTag: nat, id: string, unacked: seq<nat>, logged: seq<string>)
    requires LastAcksMatch(held, nextTag, unacked, logged)
    ensures LastAcksMatch(held[nextTag := id], nextTag + 1, unacked, logged)
  {
  }

  // A copy of a batch already accepted is only acknowledged.
  lemma DuplicateKept<S, T, C, M>(p: Processor<S, T, C, M>, data: map<string, seq<T>>, every: nat, s: System<S, C>,
                                  step: Step<S, C>)
    requires Kept(p, data, s) && Enabled(p, data, every, s, step) && step.Deliver?
    requires s.held[step.tag] in s.book.processed
    ensures Kept(p, data, Next(p, data, every, s, step))
  {
    OneCopyLess(s.held, step.tag, s.nextTag, s.sent, s.book.acks, s.book.pending);
  }

  lemma OneCopyLess(held: map<nat, string>, tag: nat, nextTag: nat, sent: set<string>, acks: seq<nat>,
                    pending: seq<string>)
    requires TagsKept(held, nextTag, sent) && AcksMatch(held, nextTag, acks, pending)
    ensures TagsKept(held - {tag}, nextTag, sent) && AcksMatch(held - {tag}, nextTag, acks, pending)
  {
  }

  // A copy that is to be acknowledged is one of a batch already accepted.
  lemma OneMoreAck(held: map<nat, string>, nextTag: nat, acks: seq<nat>, pending: seq<string>, tag: nat)
    requires tag in held && held[tag] !in pending && tag < nextTag && |acks| == |pending| && AcksMatch(held, nextTag, acks, pending)
    ensures AcksMatch(held, nextTag, acks + [tag], pending + [held[tag]])
  {
    forall i | 0 <= i < |acks| ensures acks[i] != tag {
      assert pending[i] in pending;
    }
  }

  lemma OneMoreAccepted<T>(data: map<string, seq<T>>, accepted: seq<string>, processed: set<string>, sent: set<string>,
                           restored: bool, id: string)
    requires NothingTwice(data, accepted, processed, sent, restored) && id !in accepted && id in data && id in sent
    ensures NothingTwice(data, accepted + [id], processed + {id}, sent, restored)
  {
  }

  // A new batch is processed, as far as none of its items is refused.
  lemma AcceptKept<S(!new), T(!new), C(!new), M(!new)>(p: Processor<S, T, C, M>, data: map<string, seq<T>>, every: nat,
                                                       s: System<S, C>, step: Step<S, C>)
    requires Lawful(p) && Admitted(p, data) && Kept(p, data, s) && Enabled(p, data, every, s, step) && step.Deliver?
    requires s.held[step.tag] !in s.book.processed && Deduped(s, step)
    ensures Kept(p, data, Next(p, data, every, s, step))
  {
    var id, s' := s.held[step.tag], Next(p, data, every, s, step);
    NewIsNew(Bad(p, data), data, s.book, LoggedIn(s.log), id);
    OneMoreAck(s.held, s.nextTag, s.book.acks, s.book.pending, step.tag);
    OneMoreAccepted(data, Accepted(s), s.book.processed, s.sent, s.restored, id);
    OneMoreProcessed(p, data, s.proc, ChangesIn(s.log), Accepted(s), LoggedIn(s.log), id);
    OneMoreBooked(Bad(p, data), data, s.book, id, step.tag);
    assert s'.book.pending == s.book.pending + [id] && Accepted(s') == Accepted(s) + [id];
    assert LogKept(Bad(p, data), data, s.log, s'.book.pending, false);
  }

  lemma NewIsNew<T>(bad: set<string>, data: map<string, seq<T>>, b: Book, logged: seq<string>, id: string)
    requires BookKept(bad, data, b) && id !in b.processed && id !in logged
    ensures id !in b.pending && id !in Counting(logged, b.pending, false)
    ensures Counting(logged, b.pending + [id], false) == Counting(logged, b.pending, false) + [id]
  {
    CountingNext(logged, b.pending, id);
  }

  lemma OneMoreBooked<T>(bad: set<string>, data: map<string, seq<T>>, b: Book, id: string, tag: nat)
    requires BookKept(bad, data, b) && id in data && id !in b.processed
    ensures if id in bad then BookKept(bad, data, Aborted(b, id, tag))
            else BookKept(bad, data, Committed(Begun(b, id, tag), id, |data[id]|))
  {
    assert id !in b.counts;
    if id !in bad {
      assert b.counts[id := |data[id]|].Keys == b.counts.Keys + {id};
      assert |b.counts[id := |data[id]|]| == |b.counts[id := |data[id]|].Keys| && |b.counts| == |b.counts.Keys|;
    }
  }

  lemma OneMoreProcessed<S(!new), T(!new), C(!new), M(!new)>(p: Processor<S, T, C, M>, data: map<string, seq<T>>,
                                                             proc: S, changes: seq<C>, accepted: seq<string>,
                                                             logged: seq<string>, id: string)
    requires Processes(p) && Admitted(p, data) && StateKept(p, data, proc, changes, accepted, logged) && id in data
    ensures StateKept(p, data, p.process(proc, Taken(p, data[id])), changes, accepted + [id], logged)
  {
    FoldNext(p, data, accepted, id);
    assert p.admits(Taken(p, data[id]));
  }

  lemma SavedEntry<T, C>(bad: set<string>, data: map<string, seq<T>>, log: seq<Entry<C>>, b: Book, changes: seq<C>)
    requires BookKept(bad, data, b) && LogKept(bad, data, log, b.pending, false)
    ensures LogKept(bad, data, log + [EntryOf(b, changes)], b.pending, true)
  {
    CountsMatch(b.counts, b.pending);
    forall i | 0 <= i < |b.pending|
      ensures b.pending[i] in data && CountsOf(b.counts, b.pending)[i] == Size(bad, data, b.pending[i])
    {
      assert b.pending[i] in b.pending;
    }
    assert EntryKept(bad, data, EntryOf(b, changes));
  }

  lemma SavedState<S(!new), T(!new), C(!new), M(!new)>(p: Processor<S, T, C, M>, data: map<string, seq<T>>, proc: S,
                                                       before: seq<C>, accepted: seq<string>, logged: seq<string>,
                                                       changes: seq<C>, drained: S)
    requires Drains(p) && StateKept(p, data, proc, before, accepted, logged) && p.drains(proc, changes, drained)
    ensures StateKept(p, data, drained, before + changes, accepted, accepted)
  {
    var base := ApplyAll(p, p.init, before);
    ApplyConcat(p, p.init, before, changes);
    assert Drained(p, proc, drained, ApplyAll(p, base, changes));
  }

  lemma SaveKept<S(!new), T(!new), C(!new), M(!new)>(p: Processor<S, T, C, M>, data: map<string, seq<T>>, every: nat,
                                                     s: System<S, C>, step: Step<S, C>)
    requires Lawful(p) && Kept(p, data, s) && Enabled(p, data, every, s, step) && step.Save?
    ensures Kept(p, data, Next(p, data, every, s, step))
  {
    var s' := Next(p, data, every, s, step);
    OneMoreEntry(s.log, EntryOf(s.book, step.changes));
    SavedEntry(Bad(p, data), data, s.log, s.book, step.changes);
    SavedState(p, data, s.proc, ChangesIn(s.log), Accepted(s), LoggedIn(s.log), step.changes, step.drained);
    SavedReports(Bad(p, data), data, s.recorded, LoggedIn(s.log), s.book, s.missed);
    assert LoggedIn(s'.log) == Accepted(s) == Accepted(s');
  }

  lemma SavedReports<T>(bad: set<string>, data: map<string, seq<T>>, recorded: map<string, nat>, logged: seq<string>,
                        b: Book, missed: set<string>)
    requires ReportsKept(bad, data, recorded, logged, IDLE, missed) && BookKept(bad, data, b)
    ensures ReportsKept(bad, data, recorded, logged + b.pending, Recording(b.counts.Keys), missed)
  {
  }

  lemma SaveFailsKept<S, T, C, M>(p: Processor<S, T, C, M>, data: map<string, seq<T>>, every: nat, s: System<S, C>,
                                  step: Step<S, C>)
    requires Kept(p, data, s) && Enabled(p, data, every, s, step) && GivesBack(p, s, step)
    requires step.SaveFails? || step.DrainFails?
    ensures Kept(p, data, Next(p, data, every, s, step))
  {
  }

  lemma RecordKept<S, T, C, M>(p: Processor<S, T, C, M>, data: map<string, seq<T>>, every: nat, s: System<S, C>,
                               step: Step<S, C>)
    requires Kept(p, data, s) && Enabled(p, data, every, s, step) && step.Record?
    ensures Kept(p, data, Next(p, data, every, s, step))
  {
    ReportKept(Bad(p, data), data, s, step.id);
  }

  lemma ReportKept<S, T, C>(bad: set<string>, data: map<string, seq<T>>, s: System<S, C>, id: string)
    requires BooksKept(bad, data, s) && s.phase.Recording? && id in s.phase.unreported && id in s.book.counts
    ensures BooksKept(bad, data, s.(recorded := Reported(s.recorded, id, s.book.counts[id]),
                                    phase := Recording(s.phase.unreported - {id})))
  {
    LastEntry(s.log, id);
    OneMoreReported(bad, data, s.recorded, LoggedIn(s.log), s.phase.unreported, s.missed, id, s.book.counts[id]);
  }

  lemma RecordFailsKept<S, T, C, M>(p: Processor<S, T, C, M>, data: map<string, seq<T>>, every: nat, s: System<S, C>,
                                    step: Step<S, C>)
    requires Kept(p, data, s) && Enabled(p, data, every, s, step) && step.RecordFails?
    ensures Kept(p, data, Next(p, data, every, s, step))
  {
    OneMissed(Bad(p, data), data, s.recorded, LoggedIn(s.log), s.phase.unreported, s.missed, step.id);
  }

  lemma OneMissed<T>(bad: set<string>, data: map<string, seq<T>>, recorded: map<string, nat>, logged: seq<string>,
                     unreported: set<string>, missed: set<string>, id: string)
    requires ReportsKept(bad, data, recorded, logged, Recording(unreported), missed)
    ensures ReportsKept(bad, data, recorded, logged, Recording(unreported - {id}), missed + {id})
  {
  }

  lemma OneMoreReported<T>(bad: set<string>, data: map<string, seq<T>>, recorded: map<string, nat>,
                           logged: seq<string>, unreported: set<string>, missed: set<string>, id: string, n: nat)
    requires ReportsKept(bad, data, recorded, logged, Recording(unreported), missed)
    requires id in logged && id in data && n == Size(bad, data, id)
    ensures ReportsKept(bad, data, Reported(recorded, id, n), logged, Recording(unreported - {id}), missed)
  {
  }

  lemma ReloadKept<S, T, C, M>(p: Processor<S, T, C, M>, data: map<string, seq<T>>, every: nat, s: System<S, C>,
                               step: Step<S, C>)
    requires Kept(p, data, s) && Enabled(p, data, every, s, step) && (step.Reload? || step.ReloadFails?)
    ensures Kept(p, data, Next(p, data, every, s, step))
  {
    if step.Reload? { ReportedAgainKept(Bad(p, data), data, s); } else { UnrestoredKept(Bad(p, data), data, s, step.written); }
  }

  lemma ReportedAgainKept<S, T, C>(bad: set<string>, data: map<string, seq<T>>, s: System<S, C>)
    requires BooksKept(bad, data, s) && s.phase.Loading? && s.phase.ids != [] && s.phase.counts != []
    ensures var rest := Loading(s.phase.ids[1..], s.phase.counts[1..]);
            BooksKept(bad, data, s.(recorded := Reported(s.recorded, s.phase.ids[0], s.phase.counts[0]),
                             phase := if rest.ids == [] then IDLE else rest))
  {
    ReloadedReports(bad, data, s.recorded, LoggedIn(s.log), s.phase.ids, s.phase.counts, s.missed);
  }

  lemma UnrestoredKept<S, T, C>(bad: set<string>, data: map<string, seq<T>>, s: System<S, C>, written: bool)
    requires BooksKept(bad, data, s) && s.phase.Loading? && s.phase.ids != [] && s.phase.counts != []
    ensures var again := Reported(s.recorded, s.phase.ids[0], s.phase.counts[0]);
            BooksKept(bad, data, s.(recorded := if written then again else s.recorded, book := EMPTY_BOOK, phase := IDLE,
                                    missed := s.missed + (set id | id in s.phase.ids), restored := false))
  {
    ReloadedReports(bad, data, s.recorded, LoggedIn(s.log), s.phase.ids, s.phase.counts, s.missed);
  }

  // One more batch reported again, or an error, after which none of the others is.
  lemma ReloadedReports<T>(bad: set<string>, data: map<string, seq<T>>, recorded: map<string, nat>,
                           logged: seq<string>, ids: seq<string>, counts: seq<nat>, missed: set<string>)
    requires ReportsKept(bad, data, recorded, logged, Loading(ids, counts), missed)
    requires LoadingKept(bad, data, logged, Loading(ids, counts)) && ids != [] && counts != []
    ensures var next := if ids[1..] == [] then IDLE else Loading(ids[1..], counts[1..]);
            && ReportsKept(bad, data, Reported(recorded, ids[0], counts[0]), logged, next, missed)
            && LoadingKept(bad, data, logged, next)
    ensures var all := missed + (set id | id in ids);
            && ReportsKept(bad, data, Reported(recorded, ids[0], counts[0]), logged, IDLE, all)
            && ReportsKept(bad, data, recorded, logged, IDLE, all)
  {
    assert ids == [ids[0]] + ids[1..];
  }

  lemma SettleKept<S, T, C, M>(p: Processor<S, T, C, M>, data: map<string, seq<T>>, every: nat, s: System<S, C>,
                               step: Step<S, C>)
    requires Kept(p, data, s) && Enabled(p, data, every, s, step) && step.Settle?
    ensures Kept(p, data, Next(p, data, every, s, step))
  {
    SettledKept(Bad(p, data), data, s, Next(p, data, every, s, step));
  }

  lemma SettledKept<S, T, C>(bad: set<string>, data: map<string, seq<T>>, s: System<S, C>, s': System<S, C>)
    requires BooksKept(bad, data, s) && s.phase.Recording? && s.phase.unreported == {}
    requires s' == s.(book := Saved(s.book), phase := Acking(s.book.acks))
    ensures BooksKept(bad, data, s') && Accepted(s') == Accepted(s)
  {
    AcksLogged(s.held, s.nextTag, s.book.acks, s.book.pending, s.log);
    NothingPending(bad, data, Saved(s.book));
    assert Accepted(s') == LoggedIn(s.log);
  }

  lemma AcksLogged<C>(held: map<nat, string>, nextTag: nat, acks: seq<nat>, pending: seq<string>, log: seq<Entry<C>>)
    requires AcksMatch(held, nextTag, acks, pending) && |acks| == |pending| && log != [] && log[|log| - 1].batches == pending
    ensures LastAcksMatch(held, nextTag, acks, LoggedIn(log))
  {
    forall tag | tag in acks ensures tag < nextTag && (tag in held ==> held[tag] in LoggedIn(log)) {
      var i :| 0 <= i < |acks| && acks[i] == tag;
      LastEntry(log, pending[i]);
    }
  }

  lemma AckKept<S, T, C, M>(p: Processor<S, T, C, M>, data: map<string, seq<T>>, every: nat, s: System<S, C>,
                            step: Step<S, C>)
    requires Kept(p, data, s) && Enabled(p, data, every, s, step) && step.Ack?
    ensures Kept(p, data, Next(p, data, every, s, step))
  {
    AckedKept(Bad(p, data), data, s);
  }

  lemma AckedKept<S, T, C>(bad: set<string>, data: map<string, seq<T>>, s: System<S, C>)
    requires BooksKept(bad, data, s) && s.phase.Acking? && s.phase.unacked != []
    ensures var s' := s.(held := s.held - {s.phase.unacked[0]}, phase := Acking(s.phase.unacked[1..]));
            BooksKept(bad, data, s') && Accepted(s') == Accepted(s)
  {
    OneCopyLess(s.held, s.phase.unacked[0], s.nextTag, s.sent, s.book.acks, s.book.pending);
    OneAckLess(s.held, s.nextTag, s.phase.unacked, LoggedIn(s.log));
  }

  lemma OneAckLess(held: map<nat, string>, nextTag: nat, unacked: seq<nat>, logged: seq<string>)
    requires unacked != [] && LastAcksMatch(held, nextTag, unacked, logged)
    ensures LastAcksMatch(held - {unacked[0]}, nextTag, unacked[1..], logged)
  {
    forall tag | tag in unacked[1..] ensures tag in unacked {
    }
  }

  // Recovery puts the processor where the logged batches did.
  lemma CrashKept<S, T, C, M>(p: Processor<S, T, C, M>, data: map<string, seq<T>>, every: nat, s: System<S, C>,
                              step: Step<S, C>)
    requires Kept(p, data, s) && Enabled(p, data, every, s, step) && step.Crash?
    ensures Kept(p, data, Next(p, data, every, s, step))
  {
    assert Next(p, data, every, s, step).book == Loaded(s.log, step.found);
    RestartKept(Bad(p, data), data, s, Next(p, data, every, s, step));
  }

  lemma RestartKept<S, T, C>(bad: set<string>, data: map<string, seq<T>>, s: System<S, C>, s': System<S, C>)
    requires BooksKept(bad, data, s) && (exists found :: s'.book == Loaded(s.log, found))
    requires s'.log == s.log && s'.restored && s'.missed == {}
    requires s'.phase == if LoggedIn(s.log) == [] then IDLE else Loading(LoggedIn(s.log), CountsIn(s.log))
    requires s'.held == s.held && s'.nextTag == s.nextTag && s'.sent == s.sent && s'.recorded == s.recorded
    ensures BooksKept(bad, data, s') && Accepted(s') == LoggedIn(s.log)
  {
    var logged := LoggedIn(s.log);
    PrefixTwice(data, logged, Accepted(s), s.book.processed, s.sent, s.restored);
    CrashReports(bad, data, s.log, s.recorded, s.phase, s.missed);
    NothingPending(bad, data, s'.book);
    assert Accepted(s') == logged;
  }

  lemma NothingPending<T>(bad: set<string>, data: map<string, seq<T>>, b: Book)
    requires b.pending == [] && b.acks == [] && b.counts == map[] && b.batchCount == 0
    ensures BookKept(bad, data, b)
  {
  }

  // The logged batches are still to be reported, or there are none.
  lemma CrashReports<T, C>(bad: set<string>, data: map<string, seq<T>>, log: seq<Entry<C>>, recorded: map<string, nat>,
                           phase: Phase, missed: set<string>)
    requires forall i :: 0 <= i < |log| ==> EntryKept(bad, data, log[i])
    requires ReportsKept(bad, data, recorded, LoggedIn(log), phase, missed)
    ensures var phase' := if LoggedIn(log) == [] then IDLE else Loading(LoggedIn(log), CountsIn(log));
            ReportsKept(bad, data, recorded, LoggedIn(log), phase', {}) && LoadingKept(bad, data, LoggedIn(log), phase')
  {
    LoggedCounts(bad, data, log);
  }

  lemma PrefixTwice<T>(data: map<string, seq<T>>, logged: seq<string>, accepted: seq<string>, processed: set<string>,
                       sent: set<string>, restored: bool)
    requires NothingTwice(data, accepted, processed, sent, restored) && logged <= accepted
    ensures NothingTwice(data, logged, (set id | id in logged), sent, true)
  {
    forall i, j | 0 <= i < j < |logged| ensures logged[i] != logged[j] {
      assert logged[i] == accepted[i] && logged[j] == accepted[j];
    }
    forall id | id in logged ensures id in accepted {
    }
  }

  lemma StepKept<S(!new), T(!new), C(!new), M(!new)>(p: Processor<S, T, C, M>, data: map<string, seq<T>>, every: nat,
                                                     s: System<S, C>, step: Step<S, C>)
    requires Lawful(p) && Admitted(p, data) && Kept(p, data, s) && Enabled(p, data, every, s, step)
    requires GivesBack(p, s, step) && Deduped(s, step)
    ensures Kept(p, data, Next(p, data, every, s, step))
  {
    match step
    case Send(_) => SendKept(p, data, every, s, step);
    case Deliver(tag) =>
      if s.held[tag] in s.book.processed { DuplicateKept(p, data, every, s, step); } else { AcceptKept(p, data, every, s, step); }
    case Save(_, _, _) => SaveKept(p, data, every, s, step);
    case SaveFails(_, _, _, _, _) => SaveFailsKept(p, data, every, s, step);
    case DrainFails(_, _) => SaveFailsKept(p, data, every, s, step);
    case Record(_) => RecordKept(p, data, every, s, step);
    case RecordFails(_) => RecordFailsKept(p, data, every, s, step);
    case Settle => SettleKept(p, data, every, s, step);
    case Ack => AckKept(p, data, every, s, step);
    case Reload => ReloadKept(p, data, every, s, step);
    case ReloadFails(_) => ReloadKept(p, data, every, s, step);
    case Crash(_) => CrashKept(p, data, every, s, step);
  }

  // A run in which every failed append gave its changes back, and no logged batch was taken for new.
  ghost predicate IsSoundRun<S, T, C, M>(p: Processor<S, T, C, M>, data: map<string, seq<T>>, every: nat,
                                         states: seq<System<S, C>>, steps: seq<Step<S, C>>) {
    && IsRun(p, data, every, states, steps)
    && forall i :: 0 <= i < |steps| ==> GivesBack(p, states[i], steps[i]) && Deduped(states[i], steps[i])
  }

  lemma {:induction false} RunKept<S(!new), T(!new), C(!new), M(!new)>(p: Processor<S, T, C, M>,
      data: map<string, seq<T>>, every: nat, states: seq<System<S, C>>, steps: seq<Step<S, C>>, i: nat)
    requires Lawful(p) && Admitted(p, data) && IsSoundRun(p, data, every, states, steps) && i < |states|
    ensures Kept(p, data, states[i])
  {
    if i == 0 {
      StartKept(p, data);
    } else {
      RunKept(p, data, every, states, steps, i - 1);
      StepKept(p, data, every, states[i - 1], steps[i - 1]);
    }
  }

  // Giving back is no condition for a processor that can always do it, nor where no append fails, and
  // telling logged batches from new ones is none for a worker whose starts did not fail.
  lemma {:induction false} RestoringRunsAreSound<S(!new), T(!new), C(!new), M(!new)>(p: Processor<S, T, C, M>,
      data: map<string, seq<T>>, every: nat, states: seq<System<S, C>>, steps: seq<Step<S, C>>)
    requires Lawful(p) && Admitted(p, data) && IsRun(p, data, every, states, steps)
    requires forall i :: 0 <= i < |steps| ==> !steps[i].ReloadFails? && (Restores(p) || !steps[i].SaveFails?)
    ensures IsSoundRun(p, data, every, states, steps)
  {
    if steps != [] {
      var n := |steps| - 1;
      assert IsRun(p, data, every, states[..n + 1], steps[..n]);
      RestoringRunsAreSound(p, data, every, states[..n + 1], steps[..n]);
      forall i | 0 <= i < n ensures GivesBack(p, states[i], steps[i]) && Deduped(states[i], steps[i]) {
        assert GivesBack(p, states[..n + 1][i], steps[..n][i]) && Deduped(states[..n + 1][i], steps[..n][i]);
      }
      RunKept(p, data, every, states[..n + 1], steps[..n], n);
      RestoredIsBack(p, data, every, states[n], steps[n]);
      StaysRestored(p, data, every, states, steps, n);
      RestoredTellsApart(p, data, states[n], steps[n]);
    }
  }

  lemma {:induction false} StaysRestored<S, T, C, M>(p: Processor<S, T, C, M>, data: map<string, seq<T>>, every: nat,
                                                     states: seq<System<S, C>>, steps: seq<Step<S, C>>, i: nat)
    requires IsRun(p, data, every, states, steps) && i < |states| && forall j :: 0 <= j < i ==> !steps[j].ReloadFails?
    ensures states[i].restored
  {
    if i > 0 {
      StaysRestored(p, data, every, states, steps, i - 1);
      assert states[i] == Next(p, data, every, states[i - 1], steps[i - 1]);
    }
  }

  lemma RestoredTellsApart<S, T, C, M>(p: Processor<S, T, C, M>, data: map<string, seq<T>>, s: System<S, C>,
                                       step: Step<S, C>)
    requires Kept(p, data, s) && s.restored
    ensures Deduped(s, step)
  {
    assert forall id :: id in LoggedIn(s.log) ==> id in Accepted(s);
  }

  lemma RestoredIsBack<S(!new), T(!new), C(!new), M(!new)>(p: Processor<S, T, C, M>, data: map<string, seq<T>>,
                                                           every: nat, s: System<S, C>, step: Step<S, C>)
    requires (Restores(p) || !step.SaveFails?) && Kept(p, data, s) && Enabled(p, data, every, s, step)
    ensures GivesBack(p, s, step)
  {
  }

  lemma DrainedAhead<S(!new), T(!new), C(!new), M(!new)>(p: Processor<S, T, C, M>, proc: S, logged: seq<C>,
                                                         changes: seq<C>, drained: S)
    requires Drains(p) && Ahead(p, proc, logged) && p.drains(proc, changes, drained)
    ensures Ahead(p, drained, logged + changes)
  {
    ApplyConcat(p, p.init, logged, changes);
    assert Drained(p, proc, drained, ApplyAll(p, ApplyAll(p, p.init, logged), changes));
  }

  lemma RestoredAhead<S(!new), T(!new), C(!new), M(!new)>(p: Processor<S, T, C, M>, proc: S, logged: seq<C>,
                                                          changes: seq<C>, drained: S, restored: S)
    requires Restores(p) && Ahead(p, proc, logged) && p.drains(proc, changes, drained) && p.restores(drained, changes, restored)
    ensures Ahead(p, restored, logged)
  {
    assert TakenBack(p, proc, ApplyAll(p, p.init, logged), restored);
  }

  lemma ProcessedAhead<S(!new), T(!new), C(!new), M(!new)>(p: Processor<S, T, C, M>, proc: S, logged: seq<C>,
                                                           items: seq<T>)
    requires Processes(p) && Ahead(p, proc, logged) && p.admits(items)
    ensures Ahead(p, p.process(proc, Taken(p, items)), logged)
  {
    assert p.admits(Taken(p, items));
  }

  // Where drains can be given back, this holds in every run whatever, also where a batch was processed
  // twice.
  lemma {:induction false} RunStaysAhead<S(!new), T(!new), C(!new), M(!new)>(p: Processor<S, T, C, M>,
      data: map<string, seq<T>>, every: nat, states: seq<System<S, C>>, steps: seq<Step<S, C>>, i: nat)
    requires Lawful(p) && Restores(p) && Admitted(p, data) && IsRun(p, data, every, states, steps) && i < |states|
    ensures Ahead(p, states[i].proc, ChangesIn(states[i].log))
  {
    if i > 0 {
      RunStaysAhead(p, data, every, states, steps, i - 1);
      StepStaysAhead(p, data, every, states[i - 1], steps[i - 1]);
    }
  }

  lemma StepStaysAhead<S(!new), T(!new), C(!new), M(!new)>(p: Processor<S, T, C, M>, data: map<string, seq<T>>,
                                                           every: nat, s: System<S, C>, step: Step<S, C>)
    requires Lawful(p) && Restores(p) && Admitted(p, data) && Enabled(p, data, every, s, step)
    requires Ahead(p, s.proc, ChangesIn(s.log))
    ensures Ahead(p, Next(p, data, every, s, step).proc, ChangesIn(Next(p, data, every, s, step).log))
  {
    match step
    case Deliver(tag) => ProcessedAhead(p, s.proc, ChangesIn(s.log), data[s.held[tag]]);
    case Save(changes, drained, _) =>
      OneMoreEntry(s.log, EntryOf(s.book, changes));
      DrainedAhead(p, s.proc, ChangesIn(s.log), changes, drained);
    case SaveFails(changes, drained, restored, _, _) =>
      RestoredAhead(p, s.proc, ChangesIn(s.log), changes, drained, restored);
    case _ =>
  }

  // ---- Main results ----

  // After any run, whatever was delivered again, refused, nacked or cut by a crash, the processor means
  // what processing the accepted batches once each means, and a crash now would bring back what the
  // logged batches mean, each of them once.
  lemma ExactlyOnce<S(!new), T(!new), C(!new), M(!new)>(p: Processor<S, T, C, M>, data: map<string, seq<T>>,
                                                        every: nat, states: seq<System<S, C>>, steps: seq<Step<S, C>>,
                                                        i: nat)
    requires Lawful(p) && Admitted(p, data) && IsSoundRun(p, data, every, states, steps) && i < |states|
    ensures var s := states[i];
            && NoRepeats(Accepted(s)) && (forall id :: id in Accepted(s) ==> id in s.sent)
            && p.sem(s.proc) == p.sem(Fold(p, data, Accepted(s)))
            && p.sem(ApplyAll(p, p.init, ChangesIn(s.log))) == p.sem(Fold(p, data, LoggedIn(s.log)))
            && LoggedIn(s.log) <= Accepted(s)
  {
    RunKept(p, data, every, states, steps, i);
  }

  // The coordinator counts a batch only when it is logged, and with the number of its items, or none if
  // one was refused; once the worker is idle it counts every logged batch that was not refused and
  // whose report did not fail.
  lemma ReportsFollowTheLog<S(!new), T(!new), C(!new), M(!new)>(p: Processor<S, T, C, M>, data: map<string, seq<T>>,
                                                                every: nat, states: seq<System<S, C>>,
                                                                steps: seq<Step<S, C>>, i: nat)
    requires Lawful(p) && Admitted(p, data) && IsSoundRun(p, data, every, states, steps) && i < |states|
    ensures var s := states[i];
            && (forall id :: id in s.recorded ==>
                  id in LoggedIn(s.log) && id in data && s.recorded[id] == Size(Bad(p, data), data, id))
            && (s.phase.Acking? ==>
                  forall id :: id in LoggedIn(s.log) ==> id in s.recorded || id in s.missed || id in Bad(p, data))
  {
    RunKept(p, data, every, states, steps, i);
    var s := states[i];
    ReportsSaid(Bad(p, data), data, s.recorded, LoggedIn(s.log), s.phase, s.missed);
  }

  lemma ReportsSaid<T>(bad: set<string>, data: map<string, seq<T>>, recorded: map<string, nat>, logged: seq<string>,
                       phase: Phase, missed: set<string>)
    requires ReportsKept(bad, data, recorded, logged, phase, missed)
    ensures forall id :: id in recorded ==> id in logged && id in data && recorded[id] == Size(bad, data, id)
    ensures phase.Acking? ==> forall id :: id in logged ==> id in recorded || id in missed || id in bad
  {
  }

  // Nothing is missed from a start or a crash on until a report fails.
  lemma {:induction false} NothingMissed<S, T, C, M>(p: Processor<S, T, C, M>, data: map<string, seq<T>>, every: nat,
                                                     states: seq<System<S, C>>, steps: seq<Step<S, C>>, k: nat, i: nat)
    requires IsRun(p, data, every, states, steps) && k <= i < |states| && (k == 0 || steps[k - 1].Crash?)
    requires forall j :: k <= j < i ==> !steps[j].RecordFails? && !steps[j].ReloadFails?
    ensures states[i].missed == {}
  {
    if i > k {
      NothingMissed(p, data, every, states, steps, k, i - 1);
      assert states[i] == Next(p, data, every, states[i - 1], steps[i - 1]);
    } else if k > 0 {
      assert states[k] == Next(p, data, every, states[k - 1], steps[k - 1]);
    }
  }

  // Entries of the log are numbered without gaps, also across restarts that do not fail, from zero
  // up, or from one if the first came after a start that found an empty log file.
  ghost predicate Numbered<C>(log: seq<Entry<C>>, nextSeq: nat, recording: bool) {
    && (forall j :: 0 <= j < |log| ==> log[j].seqNo == log[0].seqNo + j)
    && (recording ==> log != [])
    && (if log == [] then nextSeq <= 1
        else log[0].seqNo <= 1 && nextSeq == log[|log| - 1].seqNo + if recording then 0 else 1)
  }

  lemma {:induction false} LogIsNumbered<S, T, C, M>(p: Processor<S, T, C, M>, data: map<string, seq<T>>, every: nat,
                                                     states: seq<System<S, C>>, steps: seq<Step<S, C>>, i: nat)
    requires IsRun(p, data, every, states, steps) && i < |states| && forall j :: 0 <= j < i ==> !steps[j].ReloadFails?
    ensures Numbered(states[i].log, states[i].book.nextSeq, states[i].phase.Recording?)
    ensures (forall j :: 0 <= j < i ==> !(steps[j].Crash? && steps[j].found && states[j].log == [])) ==>
              forall j :: 0 <= j < |states[i].log| ==> states[i].log[j].seqNo == j
  {
    if i > 0 {
      LogIsNumbered(p, data, every, states, steps, i - 1);
      StaysNumbered(p, data, every, states[i - 1], steps[i - 1]);
    }
    if forall j :: 0 <= j < i ==> !(steps[j].Crash? && steps[j].found && states[j].log == []) {
      NumberedFromZero(p, data, every, states, steps, i);
    }
  }

  lemma StaysNumbered<S, T, C, M>(p: Processor<S, T, C, M>, data: map<string, seq<T>>, every: nat, s: System<S, C>,
                                  step: Step<S, C>)
    requires Enabled(p, data, every, s, step) && !step.ReloadFails?
    requires Numbered(s.log, s.book.nextSeq, s.phase.Recording?)
    ensures var s' := Next(p, data, every, s, step); Numbered(s'.log, s'.book.nextSeq, s'.phase.Recording?)
  {
    if step.Save? { OneMoreNumbered(s.log, EntryOf(s.book, step.changes)); }
  }

  lemma OneMoreNumbered<C>(log: seq<Entry<C>>, e: Entry<C>)
    requires Numbered(log, e.seqNo, false)
    ensures Numbered(log + [e], e.seqNo, true)
  {
  }

  lemma {:induction false} NumberedFromZero<S, T, C, M>(p: Processor<S, T, C, M>, data: map<string, seq<T>>, every: nat,
                                                        states: seq<System<S, C>>, steps: seq<Step<S, C>>, i: nat)
    requires IsRun(p, data, every, states, steps) && i < |states| && forall j :: 0 <= j < i ==> !steps[j].ReloadFails?
    requires forall j :: 0 <= j < i ==> !(steps[j].Crash? && steps[j].found && states[j].log == [])
    ensures var s := states[i];
            && (forall j :: 0 <= j < |s.log| ==> s.log[j].seqNo == j) && (s.phase.Recording? ==> s.log != [])
            && s.book.nextSeq == if s.phase.Recording? then |s.log| - 1 else |s.log|
  {
    if i > 0 {
      NumberedFromZero(p, data, every, states, steps, i - 1);
      assert states[i] == Next(p, data, every, states[i - 1], steps[i - 1]);
    }
  }

  // ---- What can process a batch twice, and what cannot ----

  lemma RepeatedAtEnd(logged: seq<string>, pending: seq<string>, id: string)
    requires id in logged
    ensures !NoRepeats(logged + pending + [id])
  {
    var all := logged + pending + [id];
    var i :| 0 <= i < |logged| && logged[i] == id;
    assert all[i] == all[|all| - 1];
  }

  lemma UndedupedRepeats<S, T, C, M>(p: Processor<S, T, C, M>, data: map<string, seq<T>>, every: nat, s: System<S, C>,
                                     step: Step<S, C>)
    requires Enabled(p, data, every, s, step) && !Deduped(s, step)
    ensures !NoRepeats(Accepted(Next(p, data, every, s, step)))
  {
    var id := s.held[step.tag];
    CountingNext(LoggedIn(s.log), s.book.pending, id);
    RepeatedAtEnd(LoggedIn(s.log), s.book.pending, id);
  }

  // Of all the steps only taking a logged batch for a new one makes a batch count twice.
  lemma RepeatsIff<S(!new), T(!new), C(!new), M(!new)>(p: Processor<S, T, C, M>, data: map<string, seq<T>>, every: nat,
                                                       s: System<S, C>, step: Step<S, C>)
    requires Lawful(p) && Admitted(p, data) && Kept(p, data, s) && Enabled(p, data, every, s, step) && GivesBack(p, s, step)
    ensures NoRepeats(Accepted(Next(p, data, every, s, step))) <==> Deduped(s, step)
  {
    if Deduped(s, step) { StepKept(p, data, every, s, step); } else { UndedupedRepeats(p, data, every, s, step); }
  }

  // An error of the coordinator while logged batches are reported again at a start is not looked at,
  // and the book stays empty: a copy of a logged batch is then processed a second time.
  lemma FailedRestoreRepeats<S, T, C, M>(p: Processor<S, T, C, M>, data: map<string, seq<T>>, every: nat,
                                         s: System<S, C>, written: bool, tag: nat)
    requires Kept(p, data, s) && Enabled(p, data, every, s, ReloadFails(written))
    requires tag in s.held && s.held[tag] in LoggedIn(s.log)
    ensures var s' := Next(p, data, every, s, ReloadFails(written));
            && Enabled(p, data, every, s', Deliver(tag))
            && var s'' := Next(p, data, every, s', Deliver(tag));
               s''.proc == p.process(s.proc, Taken(p, data[s.held[tag]])) && !NoRepeats(Accepted(s''))
  {
    assert s.held[tag] in Accepted(s);
    UndedupedRepeats(p, data, every, Next(p, data, every, s, ReloadFails(written)), Deliver(tag));
  }

  // ---- What can lose a batch, and what cannot ----

  // A copy of an accepted batch is acknowledged at once. The batch has to be in the log, or the
  // broker has to hold another copy.
  ghost predicate Spared<S, C>(s: System<S, C>, step: Step<S, C>) {
    step.Deliver? && step.tag in s.held && s.held[step.tag] in s.book.processed ==>
      s.held[step.tag] in LoggedIn(s.log) || HasCopy(s.held - {step.tag}, s.held[step.tag])
  }

  lemma CopyStays(held: map<nat, string>, tag: nat, sent: set<string>, logged: seq<string>)
    requires NotLost(held, sent, logged) && (tag in held ==> held[tag] in logged || HasCopy(held - {tag}, held[tag]))
    ensures NotLost(held - {tag}, sent, logged)
  {
    forall x | x in sent && x !in logged ensures HasCopy(held - {tag}, x) {
      var other :| other in held && held[other] == x;
      if other != tag { assert (held - {tag})[other] == x; }
    }
  }

  lemma CopyComes(held: map<nat, string>, nextTag: nat, sent: set<string>, id: string, logged: seq<string>)
    requires TagsKept(held, nextTag, sent) && NotLost(held, sent, logged)
    ensures NotLost(held[nextTag := id], sent + {id}, logged)
  {
    var held' := held[nextTag := id];
    forall x | x in sent + {id} && x !in logged ensures HasCopy(held', x) {
      if x != id {
        var tag :| tag in held && held[tag] == x;
        assert held'[tag] == x;
      } else {
        assert held'[nextTag] == x;
      }
    }
  }

  // Of all the steps only such a delivery can lose a batch, and it does so exactly when it finds the
  // batch neither in the log nor in another copy.
  lemma OnlyDuplicatesLose<S, T, C, M>(p: Processor<S, T, C, M>, data: map<string, seq<T>>, every: nat,
                                       s: System<S, C>, step: Step<S, C>)
    requires Kept(p, data, s) && Enabled(p, data, every, s, step) && NotLost(s.held, s.sent, LoggedIn(s.log))
    ensures var s' := Next(p, data, every, s, step);
            NotLost(s'.held, s'.sent, LoggedIn(s'.log)) <==> Spared(s, step)
  {
    match step
    case Send(id) => CopyComes(s.held, s.nextTag, s.sent, id, LoggedIn(s.log));
    case Deliver(tag) => DeliveryLosesIff(p, data, every, s, step);
    case Save(changes, _, _) => OneMoreEntry(s.log, EntryOf(s.book, changes));
    case Ack => CopyStays(s.held, s.phase.unacked[0], s.sent, LoggedIn(s.log));
    case _ =>
  }

  lemma DeliveryLosesIff<S, T, C, M>(p: Processor<S, T, C, M>, data: map<string, seq<T>>, every: nat, s: System<S, C>,
                                     step: Step<S, C>)
    requires TagsKept(s.held, s.nextTag, s.sent) && NotLost(s.held, s.sent, LoggedIn(s.log))
    requires Enabled(p, data, every, s, step) && step.Deliver?
    ensures var s' := Next(p, data, every, s, step);
            NotLost(s'.held, s'.sent, LoggedIn(s'.log)) <==> Spared(s, step)
  {
    if s.held[step.tag] in s.book.processed {
      assert s.held[step.tag] in s.sent;
      if Spared(s, step) { CopyStays(s.held, step.tag, s.sent, LoggedIn(s.log)); }
    }
  }

  // So a batch that was sent is logged, or a copy of it is still with the broker, in every run whose
  // deliveries are spared. When the broker holds nothing, exactly the batches sent have then been
  // processed, each once.
  lemma {:induction false} NothingLost<S(!new), T(!new), C(!new), M(!new)>(p: Processor<S, T, C, M>,
      data: map<string, seq<T>>, every: nat, states: seq<System<S, C>>, steps: seq<Step<S, C>>, i: nat)
    requires Lawful(p) && Admitted(p, data) && IsSoundRun(p, data, every, states, steps) && i < |states|
    requires forall j :: 0 <= j < i ==> Spared(states[j], steps[j])
    ensures var s := states[i];
            && NotLost(s.held, s.sent, LoggedIn(s.log))
            && (s.held == map[] ==> Accepted(s) == LoggedIn(s.log) && forall id :: id in s.sent <==> id in LoggedIn(s.log))
  {
    var s := states[i];
    if i > 0 {
      NothingLost(p, data, every, states, steps, i - 1);
      RunKept(p, data, every, states, steps, i - 1);
      assert Spared(states[i - 1], steps[i - 1]);
      OnlyDuplicatesLose(p, data, every, states[i - 1], steps[i - 1]);
    }
    RunKept(p, data, every, states, steps, i);
    if s.held == map[] { NothingHeld(data, Accepted(s), s.book.processed, s.sent, s.restored, LoggedIn(s.log)); }
  }

  lemma NothingHeld<T>(data: map<string, seq<T>>, accepted: seq<string>, processed: set<string>, sent: set<string>,
                       restored: bool, logged: seq<string>)
    requires NothingTwice(data, accepted, processed, sent, restored) && logged <= accepted && NotLost(map[], sent, logged)
    ensures accepted == logged && forall id :: id in sent <==> id in logged
  {
    forall id ensures id in sent <==> id in logged {
      assert !HasCopy(map[], id);
      assert id in logged ==> id in accepted;
    }
    NoMoreThan(accepted, set id | id in logged);
    AsManyAtMost(logged);
  }

  lemma {:induction false} AsManyAtMost<X(!new)>(q: seq<X>)
    ensures |set x | x in q| <= |q|
  {
    if q != [] {
      AsManyAtMost(q[1..]);
      assert q == [q[0]] + q[1..];
      assert (set x | x in q) == (set x | x in q[1..]) + {q[0]};
    }
  }

  // And not in any other: the first delivery that is not spared loses its batch.
  lemma UnsparedLoses<S(!new), T(!new), C(!new), M(!new)>(p: Processor<S, T, C, M>, data: map<string, seq<T>>,
                                                          every: nat, states: seq<System<S, C>>,
                                                          steps: seq<Step<S, C>>, i: nat)
    requires Lawful(p) && Admitted(p, data) && IsSoundRun(p, data, every, states, steps) && i < |steps|
    requires (forall j :: 0 <= j < i ==> Spared(states[j], steps[j])) && !Spared(states[i], steps[i])
    ensures !NotLost(states[i + 1].held, states[i + 1].sent, LoggedIn(states[i + 1].log))
  {
    NothingLost(p, data, every, states, steps, i);
    RunKept(p, data, every, states, steps, i);
    OnlyDuplicatesLose(p, data, every, states[i], steps[i]);
  }

  // ---- Runs without nacks ----

  // The delivery with this tag goes back to the broker: the drain or the append failed, or an item
  // was refused.
  predicate Nacks<S, T, C, M>(p: Processor<S, T, C, M>, data: map<string, seq<T>>, s: System<S, C>, step: Step<S, C>,
                              tag: nat) {
    || ((step.SaveFails? || step.DrainFails?) && tag in step.nacked)
    || (step == Deliver(tag) && tag in s.held && s.held[tag] in data && s.held[tag] !in s.book.processed
        && Refused(p, data[s.held[tag]]))
  }

  ghost predicate Quiet<S, T, C, M>(p: Processor<S, T, C, M>, data: map<string, seq<T>>, s: System<S, C>,
                                    step: Step<S, C>) {
    forall tag :: !Nacks(p, data, s, step, tag)
  }

  ghost predicate AllHeld(held: map<nat, string>, tags: seq<nat>) { forall tag :: tag in tags ==> tag in held }

  // Then every copy that is still to be acknowledged is still held.
  ghost predicate AcksHeld<S, C>(s: System<S, C>) {
    && s.requeued == {} && AllHeld(s.held, s.book.acks)
    && (s.phase.Acking? ==> NoRepeats(s.phase.unacked) && AllHeld(s.held, s.phase.unacked))
    && (s.phase.Acking? && s.phase.unacked != [] ==> s.book.acks == [])
  }

  lemma RestIsHeld(held: map<nat, string>, tags: seq<nat>)
    requires tags != [] && NoRepeats(tags) && AllHeld(held, tags)
    ensures NoRepeats(tags[1..]) && AllHeld(held - {tags[0]}, tags[1..])
  {
    forall tag | tag in tags[1..] ensures tag in held - {tags[0]} {
      var i :| 0 <= i < |tags[1..]| && tags[1..][i] == tag;
      assert tags[i + 1] == tag;
    }
  }

  lemma QuietKeepsAcks<S, T, C, M>(p: Processor<S, T, C, M>, data: map<string, seq<T>>, every: nat, s: System<S, C>,
                                   step: Step<S, C>)
    requires NoRepeats(s.book.acks) && AcksHeld(s) && Enabled(p, data, every, s, step) && Quiet(p, data, s, step)
    ensures AcksHeld(Next(p, data, every, s, step))
  {
    match step
    case Ack => RestIsHeld(s.held, s.phase.unacked);
    case SaveFails(_, _, _, nacked, _) =>
      assert forall tag :: tag in nacked ==> Nacks(p, data, s, step, tag);
      assert (set tag | tag in nacked) == {};
    case DrainFails(nacked, _) =>
      assert forall tag :: tag in nacked ==> Nacks(p, data, s, step, tag);
      assert (set tag | tag in nacked) == {};
    case Deliver(tag) => assert tag !in s.book.acks && !Nacks(p, data, s, step, tag);
    case _ =>
  }

  lemma QuietSpares<S, T, C, M>(p: Processor<S, T, C, M>, data: map<string, seq<T>>, every: nat, s: System<S, C>,
                                step: Step<S, C>)
    requires Kept(p, data, s) && AcksHeld(s) && Enabled(p, data, every, s, step)
    ensures Spared(s, step)
  {
    if step.Deliver? && s.held[step.tag] in s.book.processed && s.held[step.tag] !in LoggedIn(s.log) {
      var id := s.held[step.tag];
      assert id in Accepted(s);
      var i :| 0 <= i < |s.book.pending| && s.book.pending[i] == id;
      assert s.book.acks[i] in s.book.acks;
      assert (s.held - {step.tag})[s.book.acks[i]] == id;
    }
  }

  // Without nacks every delivery is spared, so nothing is ever lost.
  lemma QuietRunsLoseNothing<S(!new), T(!new), C(!new), M(!new)>(p: Processor<S, T, C, M>, data: map<string, seq<T>>,
                                                                 every: nat, states: seq<System<S, C>>,
                                                                 steps: seq<Step<S, C>>, i: nat)
    requires Lawful(p) && Admitted(p, data) && IsSoundRun(p, data, every, states, steps) && i < |states|
    requires forall j :: 0 <= j < |steps| ==> Quiet(p, data, states[j], steps[j])
    ensures NotLost(states[i].held, states[i].sent, LoggedIn(states[i].log))
  {
    forall j | 0 <= j < i ensures Spared(states[j], steps[j]) {
      QuietHoldsAcks(p, data, every, states, steps, j);
      RunKept(p, data, every, states, steps, j);
      QuietSpares(p, data, every, states[j], steps[j]);
    }
    NothingLost(p, data, every, states, steps, i);
  }

  lemma {:induction false} QuietHoldsAcks<S(!new), T(!new), C(!new), M(!new)>(p: Processor<S, T, C, M>,
      data: map<string, seq<T>>, every: nat, states: seq<System<S, C>>, steps: seq<Step<S, C>>, i: nat)
    requires Lawful(p) && Admitted(p, data) && IsSoundRun(p, data, every, states, steps) && i < |states|
    requires forall j :: 0 <= j < |steps| ==> Quiet(p, data, states[j], steps[j])
    ensures AcksHeld(states[i])
  {
    if i > 0 {
      QuietHoldsAcks(p, data, every, states, steps, i - 1);
      RunKept(p, data, every, states, steps, i - 1);
      assert Quiet(p, data, states[i - 1], steps[i - 1]);
      QuietKeepsAcks(p, data, every, states[i - 1], steps[i - 1]);
    }
  }

  // ---- A nack that loses ----

  lemma PendingNotLogged(logged: seq<string>, pending: seq<string>, i: nat)
    requires NoRepeats(logged + pending) && i < |pending|
    ensures pending[i] !in logged
  {
    assert (logged + pending)[|logged| + i] == pending[i];
    forall j | 0 <= j < |logged| ensures logged[j] != pending[i] {
      assert (logged + pending)[j] == logged[j];
    }
  }

  // A delivery that is nacked, because an append failed or an item was refused, is for a batch that is
  // marked as processed and is not in the log. When it comes back it is spared exactly if the broker
  // holds another copy.
  lemma NackedComesBack<S, T, C, M>(p: Processor<S, T, C, M>, data: map<string, seq<T>>, every: nat, s: System<S, C>,
                                    step: Step<S, C>, tag: nat)
    requires Kept(p, data, s) && Deduped(s, step) && Enabled(p, data, every, s, step) && Nacks(p, data, s, step, tag)
    requires tag in s.held && s.held[tag] in data
    ensures var s' := Next(p, data, every, s, step);
            && Enabled(p, data, every, s', Deliver(tag))
            && (Spared(s', Deliver(tag)) <==> HasCopy(s.held - {tag}, s.held[tag]))
  {
    if !step.Deliver? {
      assert tag in s.book.acks;
      var i :| 0 <= i < |s.book.acks| && s.book.acks[i] == tag;
      PendingNotLogged(LoggedIn(s.log), s.book.pending, i);
      assert s.book.pending[i] in s.book.pending;
    }
    assert tag in Next(p, data, every, s, step).requeued;
  }

  // A batch whose append fails is nacked and comes back; the manager takes it for a duplicate and
  // acknowledges it, although it is not in the log. A crash then loses it for good.
  lemma FailedAppendLosesBatch<S(!new), T(!new), C(!new), M(!new)>(p: Processor<S, T, C, M>, data: map<string, seq<T>>,
                                                                   every: nat, id: string, changes: seq<C>, drained: S,
                                                                   restored: S)
    requires id in data && !Refused(p, data[id])
    requires p.drains(p.process(p.init, data[id]), changes, drained) && p.restores(drained, changes, restored)
    ensures exists states: seq<System<S, C>>, steps: seq<Step<S, C>> ::
              IsRun(p, data, every, states, steps) &&
              var s := states[|states| - 1];
              id in s.sent && LoggedIn(s.log) == [] && s.held == map[] && s.phase == IDLE && s.proc == p.init
  {
    TakenUpto(p, data[id]);
    var steps := [Send(id), Deliver(0), SaveFails(changes, drained, restored, [0], true), Deliver(0), Crash(false)];
    var s0 := Start(p);
    var s1 := Next(p, data, every, s0, steps[0]);
    var s2 := Next(p, data, every, s1, steps[1]);
    var s3 := Next(p, data, every, s2, steps[2]);
    var s4 := Next(p, data, every, s3, steps[3]);
    var s5 := Next(p, data, every, s4, steps[4]);
    var states := [s0, s1, s2, s3, s4, s5];
    assert IsRun(p, data, every, states, steps);
    assert s4.held == map[];
    assert id in states[|states| - 1].sent;
  }

  // So is one of whose items one is refused, without any error of the disk.
  lemma RefusedItemLosesBatch<S(!new), T(!new), C(!new), M(!new)>(p: Processor<S, T, C, M>, data: map<string, seq<T>>,
                                                                  every: nat, id: string)
    requires id in data && Refused(p, data[id])
    ensures exists states: seq<System<S, C>>, steps: seq<Step<S, C>> ::
              IsRun(p, data, every, states, steps) &&
              var s := states[|states| - 1];
              id in s.sent && LoggedIn(s.log) == [] && s.held == map[] && s.phase == IDLE && s.proc == p.init
  {
    var steps: seq<Step<S, C>> := [Send(id), Deliver(0), Deliver(0), Crash(false)];
    var s0: System<S, C> := Start(p);
    var s1 := Next(p, data, every, s0, steps[0]);
    var s2 := Next(p, data, every, s1, steps[1]);
    var s3 := Next(p, data, every, s2, steps[2]);
    var s4 := Next(p, data, every, s3, steps[3]);
    var states := [s0, s1, s2, s3, s4];
    assert IsRun(p, data, every, states, steps);
    assert s3.held == map[];
    assert id in states[|states| - 1].sent;
  }
}
