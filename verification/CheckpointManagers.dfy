// The checkpoint manager object, which keeps a book for each client and the client's log, and the
// engine that drives it.
module CheckpointManagers {
  import opened Text
  import opened MapOrder
  import opened Checkpoint

  // A call of coordinator.RecordBatch.
  datatype Report = Report(clientID: string, batchID: string, processed: nat)

  // A key that is missing reads as zero, as in Go.
  function Get<V>(m: map<string, V>, k: string, zero: V): V { if k in m then m[k] else zero }

  // Everything new is reported for the client: each counted batch once, in some order, with its count.
  ghost predicate ReportsAdded(c: string, counts: map<string, nat>, before: seq<Report>, after: seq<Report>) {
    && before <= after && |after| == |before| + |counts|
    && (forall i :: |before| <= i < |after| ==>
          after[i].clientID == c && after[i].batchID in counts && after[i].processed == counts[after[i].batchID])
    && (forall i, j :: |before| <= i < j < |after| ==> after[i].batchID != after[j].batchID)
    && (forall id :: id in counts ==> exists i :: |before| <= i < |after| && after[i].batchID == id)
  }

  // The first n of these batches are reported again, in order.
  ghost predicate ReportedAgain(c: string, ids: seq<string>, counts: seq<nat>, n: nat, before: seq<Report>,
                                after: seq<Report>) {
    && n <= |ids| == |counts| && before <= after && |after| == |before| + n
    && forall i :: 0 <= i < n ==> after[|before| + i] == Report(c, ids[i], counts[i])
  }

  // These are handed over for the client, in order.
  ghost predicate HandedOver<X>(c: string, xs: seq<X>, before: seq<(string, X)>, after: seq<(string, X)>) {
    && before <= after && |after| == |before| + |xs|
    && forall i :: 0 <= i < |xs| ==> after[|before| + i] == (c, xs[i])
  }

  // What a manager keeps for a client and what has left it.
  datatype Desk<C> = Desk(
    book: Book,
    log: seq<Entry<C>>,
    acked: seq<nat>,
    reports: seq<Report>,
    returned: seq<(string, seq<C>)>,
    applied: seq<(string, C)>)

  // The book b goes to the log as one entry before anything is reported or acknowledged; when
  // the drain or the append fails, the book stays as it is and nothing is acknowledged.
  ghost predicate Persisted<C>(c: string, d: Desk<C>, b: Book, drained: Option<seq<C>>, appended: bool, ok: bool,
                               d': Desk<C>) {
    match drained
    case None => !ok && d' == d.(book := b)
    case Some(changes) =>
      if appended then
        && ok && ReportsAdded(c, b.counts, d.reports, d'.reports)
        && d' == d.(book := Saved(b), log := d.log + [EntryOf(b, changes)], acked := d.acked + b.acks,
            reports := d'.reports)
      else !ok && d' == d.(book := b, returned := d.returned + [(c, changes)])
  }

  // A checkpoint is due, and there is something to save.
  predicate Due(b: Book, every: nat, reached: bool) { b.batchCount > 0 && (b.batchCount >= every || reached) }

  // A batch that is new is processed once and waits for a checkpoint, unless one is due; a batch that
  // is not new leaves no trace but its ack; one with a refused item waits without being counted.
  ghost predicate Handled<C>(c: string, id: string, n: nat, ack: nat, refused: bool, reached: bool, every: nat,
                             drained: Option<seq<C>>, appended: bool, ok: bool, d: Desk<C>, d': Desk<C>)
  {
    if id in d.book.processed then ok && d' == d.(acked := d.acked + [ack])
    else if refused then !ok && d' == d.(book := Aborted(d.book, id, ack))
    else
      var b := Committed(Begun(d.book, id, ack), id, n);
      if Due(b, every, reached) then Persisted(c, d, b, drained, appended, ok, d') else ok && d' == d.(book := b)
  }

  // A checkpoint of what waits is taken when all EOFs are known.
  ghost predicate Flushed<C>(c: string, reached: bool, drained: Option<seq<C>>, appended: bool, ok: bool, d: Desk<C>,
                             d': Desk<C>) {
    if reached && d.book.batchCount > 0 then Persisted(c, d, d.book, drained, appended, ok, d') else ok && d' == d
  }

  // From a log that is found, the changes of all entries are replayed and their batches reported
  // again. Then exactly the logged batches count as processed, numbers go on after the last entry,
  // or from one, and nothing waits; if a report fails, the book stays as it was.
  ghost predicate Restored<C>(c: string, failsAt: Option<nat>, ok: bool, d: Desk<C>, d': Desk<C>) {
    var n := |LoggedIn(d.log)|;
    && ok == (failsAt.None? || failsAt.value >= n)
    && d' == d.(book := d'.book, reports := d'.reports, applied := d'.applied)
    && HandedOver(c, ChangesIn(d.log), d.applied, d'.applied)
    && ReportedAgain(c, LoggedIn(d.log), CountsIn(d.log), if ok then n else failsAt.value + 1, d.reports, d'.reports)
    && (!ok ==> d'.book == d.book)
    && (ok ==>
          && (forall id :: id in d'.book.processed <==> exists i :: 0 <= i < |d.log| && id in d.log[i].batches)
          && d'.book.nextSeq == (if d.log == [] then 1 else d.log[|d.log| - 1].seqNo + 1)
          && d'.book.batchCount == 0 && d'.book.pending == [] && d'.book.acks == [] && d'.book.counts == d.book.counts)
  }

  class CheckpointManager<C> {
    const checkpointEveryBatches: nat
    var nextSeq: map<string, nat>
    var batchCount: map<string, nat>
    var processedBatches: map<string, set<string>>
    var pendingBatches: map<string, seq<string>>
    var pendingAcks: map<string, seq<nat>>
    var processedCount: map<string, map<string, nat>>
    // The changes.log of each client that has one.
    var logs: map<string, seq<Entry<C>>>
    // What left the manager: acknowledged deliveries, reports to the coordinator, changes given
    // back to the processor and changes replayed into it.
    var acked: seq<nat>
    var reports: seq<Report>
    var returned: seq<(string, seq<C>)>
    var applied: seq<(string, C)>

    constructor (every: nat, logs: map<string, seq<Entry<C>>>)
      ensures checkpointEveryBatches == every && this.logs == logs
      ensures forall c :: BookOf(c) == EMPTY_BOOK
      ensures acked == [] && reports == [] && returned == [] && applied == []
    {
      checkpointEveryBatches := every;
      nextSeq, batchCount, processedBatches := map[], map[], map[];
      pendingBatches, pendingAcks, processedCount := map[], map[], map[];
      this.logs := logs;
      acked, reports, returned, applied := [], [], [], [];
    }

    function BookOf(c: string): Book
      reads this
    {
      Book(Get(nextSeq, c, 0), Get(batchCount, c, 0), Get(processedBatches, c, {}), Get(pendingBatches, c, []),
           Get(pendingAcks, c, []), Get(processedCount, c, map[]))
    }

    function LogOf(c: string): seq<Entry<C>>
      reads this
    {
      Get(logs, c, [])
    }

    function DeskOf(c: string): Desk<C>
      reads this
    {
      Desk(BookOf(c), LogOf(c), acked, reports, returned, applied)
    }

    twostate predicate OthersKept(c: string)
      reads this
    {
      forall d :: d != c ==> BookOf(d) == old(BookOf(d)) && LogOf(d) == old(LogOf(d))
    }

    // A batch seen before is acknowledged at once; a new one waits for its checkpoint.
    method BeginBatch(c: string, batchID: string, ack: nat) returns (shouldProcess: bool)
      modifies this`processedBatches, this`pendingBatches, this`pendingAcks, this`batchCount, this`acked
      ensures shouldProcess == (batchID !in old(BookOf(c)).processed)
      ensures var d := old(DeskOf(c));
              DeskOf(c) == if shouldProcess then d.(book := Begun(d.book, batchID, ack))
                  else d.(acked := d.acked + [ack])
      ensures OthersKept(c)
    {
      if c in processedBatches && batchID in processedBatches[c] {
        acked := acked + [ack];
        return false;
      }
      if c !in processedBatches {
        processedBatches := processedBatches[c := {}];
      }
      processedBatches := processedBatches[c := processedBatches[c] + {batchID}];
      Register(c, batchID, ack);
      return true;
    }

    method Register(c: string, batchID: string, ack: nat)
      modifies this`pendingBatches, this`pendingAcks, this`batchCount
      ensures BookOf(c) == Begun(old(BookOf(c)), batchID, ack).(processed := old(BookOf(c)).processed)
      ensures forall d :: d != c ==> BookOf(d) == old(BookOf(d))
    {
      pendingBatches := pendingBatches[c := Get(pendingBatches, c, []) + [batchID]];
      pendingAcks := pendingAcks[c := Get(pendingAcks, c, []) + [ack]];
      batchCount := batchCount[c := Get(batchCount, c, 0) + 1];
    }

    // drained is what the processor's DrainChanges returns; appended tells whether the write and
    // sync of the log line succeed.
    method CommitBatch(c: string, batchID: string, n: nat, reached: bool, drained: Option<seq<C>>, appended: bool)
      returns (ok: bool)
      modifies this
      ensures OthersKept(c)
      ensures var b := Committed(old(BookOf(c)), batchID, n);
              if Due(b, checkpointEveryBatches, reached)
              then Persisted(c, old(DeskOf(c)), b, drained, appended, ok, DeskOf(c))
              else ok && DeskOf(c) == old(DeskOf(c)).(book := b)
    {
      var shouldPersist := Get(batchCount, c, 0) >= checkpointEveryBatches;
      var counts: map<string, nat> := Get(processedCount, c, map[]);
      processedCount := processedCount[c := counts[batchID := n]];
      if shouldPersist || reached {
        ok := PersistAndAck(c, drained, appended);
      } else {
        ok := true;
      }
    }

    method FlushPendingBatches(c: string, reached: bool, drained: Option<seq<C>>, appended: bool) returns (ok: bool)
      modifies this
      ensures OthersKept(c)
      ensures Flushed(c, reached, drained, appended, ok, old(DeskOf(c)), DeskOf(c))
    {
      if reached {
        ok := PersistAndAck(c, drained, appended);
      } else {
        ok := true;
      }
    }

    method PersistAndAck(c: string, drained: Option<seq<C>>, appended: bool) returns (ok: bool)
      modifies this
      ensures OthersKept(c)
      ensures if old(BookOf(c)).batchCount == 0 then ok && DeskOf(c) == old(DeskOf(c))
              else Persisted(c, old(DeskOf(c)), old(BookOf(c)), drained, appended, ok, DeskOf(c))
    {
      if Get(batchCount, c, 0) == 0 { return true; }
      var seqNo := Get(nextSeq, c, 0);
      var batches := Get(pendingBatches, c, []);
      if drained.None? { return false; }
      var counts := SizesOf(c, batches);
      if !appended {
        returned := returned + [(c, drained.value)];
        return false;
      }
      SaveBatches(c, Entry(seqNo, batches, drained.value, counts));
      return true;
    }

    // The line is written and synced; then come the reports, the book and the acks.
    method SaveBatches(c: string, entry: Entry<C>)
      requires entry.seqNo == BookOf(c).nextSeq
      modifies this`logs, this`reports, this`nextSeq, this`batchCount, this`pendingBatches, this`pendingAcks,
        this`processedCount, this`acked
      ensures BookOf(c) == Saved(old(BookOf(c))) && LogOf(c) == old(LogOf(c)) + [entry] && OthersKept(c)
      ensures acked == old(acked) + old(BookOf(c)).acks
      ensures ReportsAdded(c, old(BookOf(c)).counts, old(reports), reports)
    {
      AppendLogEntry(c, entry);
      assert forall d :: BookOf(d) == old(BookOf(d));
      ReportAll(c);
      assert forall d :: BookOf(d) == old(BookOf(d));
      Settle(c, entry.seqNo);
      assert forall d :: d != c ==> LogOf(d) == old(LogOf(d));
    }

    method AppendLogEntry(c: string, entry: Entry<C>)
      modifies this`logs
      ensures LogOf(c) == old(LogOf(c)) + [entry]
      ensures forall d :: d != c ==> LogOf(d) == old(LogOf(d))
    {
      logs := logs[c := Get(logs, c, []) + [entry]];
    }

    // After the append: a new book, and then the acks.
    method Settle(c: string, seqNo: nat)
      requires seqNo == BookOf(c).nextSeq
      modifies this`nextSeq, this`batchCount, this`pendingBatches, this`pendingAcks, this`processedCount, this`acked
      ensures BookOf(c) == Saved(old(BookOf(c))) && acked == old(acked) + old(BookOf(c)).acks
      ensures forall d :: d != c ==> BookOf(d) == old(BookOf(d))
    {
      nextSeq := nextSeq[c := seqNo + 1];
      batchCount := batchCount[c := 0];
      pendingBatches := pendingBatches[c := []];
      var acks := Get(pendingAcks, c, []);
      pendingAcks := pendingAcks[c := []];
      processedCount := processedCount[c := map[]];
      acked := acked + acks;
    }

    method SizesOf(c: string, batches: seq<string>) returns (counts: seq<nat>)
      ensures counts == CountsOf(BookOf(c).counts, batches)
    {
      counts := [];
      for i := 0 to |batches|
        invariant counts == CountsOf(BookOf(c).counts, batches[..i])
      {
        assert batches[..i + 1][..i] == batches[..i];
        counts := counts + [Get(Get(processedCount, c, map[]), batches[i], 0)];
      }
      assert batches[..|batches|] == batches;
    }

    // Errors of the coordinator are not looked at.
    method ReportAll(c: string)
      modifies this`reports
      ensures ReportsAdded(c, BookOf(c).counts, old(reports), reports)
    {
      var counts: map<string, nat> := Get(processedCount, c, map[]);
      ghost var before := reports;
      var order := AnyOrder(counts.Keys);
      EnumerationSize(order, counts.Keys);
      for i := 0 to |order|
        invariant before <= reports && |reports| == |before| + i
        invariant forall k :: 0 <= k < i ==> reports[|before| + k] == Report(c, order[k], Get(counts, order[k], 0))
      {
        reports := reports + [Report(c, order[i], counts[order[i]])];
      }
      ReportedInOrder(c, counts, order, before, reports);
    }

    method AbortBatch(c: string)
      modifies this`batchCount
      ensures var b := old(BookOf(c)); BookOf(c) == b.(batchCount := if b.batchCount > 0 then b.batchCount - 1 else 0)
      ensures OthersKept(c)
    {
      if c in batchCount && batchCount[c] > 0 {
        batchCount := batchCount[c := batchCount[c] - 1];
      }
    }

    // At boot: the changes of every entry are replayed in order, then every logged batch is reported
    // again. failsAt is the position of the report for which the coordinator returns an error, if any:
    // then no more are made, and the book stays as it was, empty.
    method LoadClientState(c: string, failsAt: Option<nat>) returns (ok: bool)
      requires forall i :: 0 <= i < |LogOf(c)| ==> |LogOf(c)[i].counts| == |LogOf(c)[i].batches|
      modifies this
      ensures OthersKept(c) && logs == old(logs)
      ensures if c in logs then Restored(c, failsAt, ok, old(DeskOf(c)), DeskOf(c))
              else ok && DeskOf(c) == old(DeskOf(c))
    {
      if c !in logs { return true; }
      var log := logs[c];
      assert log == LogOf(c);
      var restored, counts := Replay(c, log);
      ok := ReportAgain(c, restored, counts, failsAt);
      if !ok { return; }
      LoggedMember(log);
      StartFrom(c, set id | id in restored, if log == [] then 0 else log[|log| - 1].seqNo);
    }

    // The changes of the entries, in order; the batches of the entries are collected.
    method Replay(c: string, log: seq<Entry<C>>) returns (restored: seq<string>, counts: seq<nat>)
      requires forall i :: 0 <= i < |log| ==> |log[i].counts| == |log[i].batches|
      modifies this`applied
      ensures HandedOver(c, ChangesIn(log), old(applied), applied)
      ensures restored == LoggedIn(log) && counts == CountsIn(log) && |counts| == |restored|
    {
      restored, counts := [], [];
      for i := 0 to |log|
        invariant HandedOver(c, ChangesIn(log[..i]), old(applied), applied)
        invariant restored == LoggedIn(log[..i]) && counts == CountsIn(log[..i]) && |counts| == |restored|
      {
        assert log[..i + 1][..i] == log[..i];
        ReplayEntry(c, log[i].changes);
        restored := restored + log[i].batches;
        counts := counts + log[i].counts;
      }
      assert log[..|log|] == log;
    }

    method ReplayEntry(c: string, changes: seq<C>)
      modifies this`applied
      ensures HandedOver(c, changes, old(applied), applied)
    {
      for i := 0 to |changes|
        invariant HandedOver(c, changes[..i], old(applied), applied)
      {
        applied := applied + [(c, changes[i])];
      }
      assert changes[..|changes|] == changes;
    }

    method ReportAgain(c: string, restored: seq<string>, counts: seq<nat>, failsAt: Option<nat>) returns (ok: bool)
      requires |counts| == |restored|
      modifies this`reports
      ensures ok == (failsAt.None? || failsAt.value >= |restored|)
      ensures ReportedAgain(c, restored, counts, if ok then |restored| else failsAt.value + 1, old(reports), reports)
    {
      for i := 0 to |restored|
        invariant ReportedAgain(c, restored, counts, i, old(reports), reports)
        invariant failsAt.Some? ==> failsAt.value >= i
      {
        reports := reports + [Report(c, restored[i], counts[i])];
        if failsAt == Some(i) { return false; }
      }
      return true;
    }

    method StartFrom(c: string, batches: set<string>, lastSeq: nat)
      modifies this`nextSeq, this`batchCount, this`processedBatches, this`pendingBatches, this`pendingAcks
      ensures BookOf(c) == Book(lastSeq + 1, 0, batches, [], [], old(BookOf(c)).counts)
      ensures forall d :: d != c ==> BookOf(d) == old(BookOf(d))
    {
      processedBatches := processedBatches[c := batches];
      nextSeq := nextSeq[c := lastSeq + 1];
      batchCount := batchCount[c := 0];
      pendingBatches := pendingBatches[c := []];
      pendingAcks := pendingAcks[c := []];
    }

    // The client is forgotten and everything it still owed is acknowledged.
    method ClearState(c: string)
      modifies this
      ensures BookOf(c) == EMPTY_BOOK && c !in logs && OthersKept(c)
      ensures acked == old(acked) + old(BookOf(c)).acks
    {
      var acks := Get(pendingAcks, c, []);
      nextSeq, batchCount, processedBatches := nextSeq - {c}, batchCount - {c}, processedBatches - {c};
      pendingBatches, pendingAcks, processedCount := pendingBatches - {c}, pendingAcks - {c}, processedCount - {c};
      acked := acked + acks;
      logs := logs - {c};
    }
  }

  lemma ReportedInOrder(c: string, counts: map<string, nat>, order: seq<string>, before: seq<Report>,
                        after: seq<Report>)
    requires Enumerates(order, counts.Keys) && |order| == |counts.Keys|
    requires before <= after && |after| == |before| + |order|
    requires forall k :: 0 <= k < |order| ==> after[|before| + k] == Report(c, order[k], Get(counts, order[k], 0))
    ensures ReportsAdded(c, counts, before, after)
  {
    forall i | |before| <= i < |after|
      ensures order[i - |before|] in order
      ensures after[i] == Report(c, order[i - |before|], Get(counts, order[i - |before|], 0))
    {
      assert after[|before| + (i - |before|)] == after[i];
    }
    forall id | id in counts ensures exists i :: |before| <= i < |after| && after[i].batchID == id {
      var k :| 0 <= k < |order| && order[k] == id;
      assert after[|before| + k].batchID == id;
    }
    assert |counts| == |counts.Keys|;
  }

  lemma {:induction false} LoggedMember<C>(log: seq<Entry<C>>)
    ensures forall id :: id in LoggedIn(log) <==> exists i :: 0 <= i < |log| && id in log[i].batches
  {
    if log != [] {
      var n := |log| - 1;
      LoggedMember(log[..n]);
      forall id ensures id in LoggedIn(log) <==> exists i :: 0 <= i < |log| && id in log[i].batches {
        if i :| 0 <= i < |log| && id in log[i].batches {
          if i < n { assert log[..n][i] == log[i]; }
        }
      }
    }
  }

  // ---- The engine ----

  class StatefulEngine<T, C> {
    const manager: CheckpointManager<C>
    // The items given to the processor, with their client.
    var processed: seq<(string, T)>
    // Clients whose cleanup message has been handled.
    var cleanupMessages: set<string>

    constructor (manager: CheckpointManager<C>)
      ensures this.manager == manager && processed == [] && cleanupMessages == {}
    {
      this.manager := manager;
      processed, cleanupMessages := [], {};
    }

    // bad is the position of the item that the processor refuses, if any.
    method RunProcessor(c: string, items: seq<T>, bad: Option<nat>) returns (ok: bool)
      modifies this`processed
      ensures ok == (bad.None? || bad.value >= |items|)
      ensures HandedOver(c, if ok then items else items[..bad.value], old(processed), processed)
    {
      for i := 0 to |items|
        invariant HandedOver(c, items[..i], old(processed), processed)
        invariant bad.Some? ==> bad.value >= i
      {
        if bad == Some(i) { return false; }
        processed := processed + [(c, items[i])];
      }
      assert items[..|items|] == items;
      return true;
    }

    // A batch that is new to the manager has its items processed, up to the first that is refused.
    method HandleDataMessage(c: string, batchID: string, items: seq<T>, ack: nat, bad: Option<nat>, reached: bool,
                             drained: Option<seq<C>>, appended: bool) returns (ok: bool)
      requires c !in cleanupMessages
      modifies this`processed, manager
      ensures manager.OthersKept(c)
      ensures Handled(c, batchID, |items|, ack, bad.Some? && bad.value < |items|, reached,
              manager.checkpointEveryBatches,
                      drained, appended, ok, old(manager.DeskOf(c)), manager.DeskOf(c))
      ensures HandedOver(c, if batchID in old(manager.BookOf(c)).processed then []
                            else if bad.Some? && bad.value < |items| then items[..bad.value] else items,
                                old(processed), processed)
    {
      var shouldProcess := manager.BeginBatch(c, batchID, ack);
      if !shouldProcess {
        return true;
      }
      assert manager.DeskOf(c) == old(manager.DeskOf(c)).(book := Begun(old(manager.BookOf(c)), batchID, ack));
      assert manager.OthersKept(c);
      ok := ProcessNew(c, batchID, items, bad, reached, drained, appended);
    }

    // The manager has marked the batch and counts it among the waiting ones.
    method ProcessNew(c: string, batchID: string, items: seq<T>, bad: Option<nat>, reached: bool,
                      drained: Option<seq<C>>, appended: bool) returns (ok: bool)
      requires manager.BookOf(c).batchCount > 0
      modifies this`processed, manager
      ensures manager.OthersKept(c)
      ensures HandedOver(c, if bad.Some? && bad.value < |items| then items[..bad.value] else items, old(processed),
              processed)
      ensures var d := old(manager.DeskOf(c));
              if bad.Some? && bad.value < |items| then
                !ok && manager.DeskOf(c) == d.(book := d.book.(batchCount := d.book.batchCount - 1))
              else
                var b := Committed(d.book, batchID, |items|);
                if Due(b, manager.checkpointEveryBatches, reached)
                then Persisted(c, d, b, drained, appended, ok, manager.DeskOf(c))
                else ok && manager.DeskOf(c) == d.(book := b)
    {
      var processedAll := RunProcessor(c, items, bad);
      if processedAll {
        ok := manager.CommitBatch(c, batchID, |items|, reached, drained, appended);
      } else {
        manager.AbortBatch(c);
        ok := false;
      }
    }
  }
}
