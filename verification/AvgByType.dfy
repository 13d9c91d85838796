// Average by payment type: running sums of the first period, the transactions of the second, and
// a tracker that logs the second-period lists from the last checkpointed index on.
module AvgByType {
  import opened Text
  import opened MapOrder
  import opened Checkpoint

  datatype Period = First | Second | Unspecified

  datatype Transaction = Transaction(period: Period, account: string, amountPaid: string, paymentFormat: string)

  datatype Stats = Stats(sum: real, count: nat)

  datatype Change =
    | Period1Stats(format: string, stats: Stats)
    | Period2Tx(format: string, account: string, amountPaid: string)

  // One client: the processor's state, then what the tracker keeps for it.
  datatype Average = Average(
    stats: map<string, Stats>,
    txs: map<string, seq<Transaction>>,
    dirty1: set<string>,
    dirty2: set<string>,
    last: map<string, nat>,
    pending: map<string, nat>)

  const NOTHING := Average(map[], map[], {}, {}, map[], map[])

  function TxsOf(v: Average, f: string): seq<Transaction> { if f in v.txs then v.txs[f] else [] }

  function LastIndex(v: Average, f: string): nat { if f in v.last then v.last[f] else 0 }

  // ---- The processor ----

  // parse stands for strconv.ParseFloat. A first-period amount that does not parse is refused.
  function Unreadable(t: Transaction,
                      parse: string -> Option<real>): bool { t.period.First? && parse(t.amountPaid).None? }

  function Processed(v: Average, t: Transaction, parse: string -> Option<real>): Average {
    var f := t.paymentFormat;
    match t.period
    case First =>
      (match parse(t.amountPaid)
       case None => v
       case Some(amount) =>
         var was := if f in v.stats then v.stats[f] else Stats(0.0, 0);
         v.(stats := v.stats[f := Stats(was.sum + amount, was.count + 1)], dirty1 := v.dirty1 + {f}))
    case Second => v.(txs := v.txs[f := TxsOf(v, f) + [t]], dirty2 := v.dirty2 + {f})
    case Unspecified => v
  }

  function ProcessedAll(v: Average, items: seq<Transaction>, parse: string -> Option<real>): Average {
    if items == [] then v else Processed(ProcessedAll(v, items[..|items| - 1], parse), items[|items| - 1], parse)
  }

  // ---- The tracker ----

  function From(v: Average, f: string): nat {
    if LastIndex(v, f) > |TxsOf(v, f)| then |TxsOf(v, f)| else LastIndex(v, f)
  }

  function StatsChanges(v: Average, formats: seq<string>): seq<Change> {
    if formats == [] then []
    else
      var f := formats[|formats| - 1];
      StatsChanges(v, formats[..|formats| - 1]) + (if f in v.stats then [Period1Stats(f, v.stats[f])] else [])
  }

  function TxChangesOf(f: string, txs: seq<Transaction>): seq<Change> {
    if txs == [] then []
    else TxChangesOf(f, txs[..|txs| - 1]) + [Period2Tx(f, txs[|txs| - 1].account, txs[|txs| - 1].amountPaid)]
  }

  function TxChanges(v: Average, formats: seq<string>): seq<Change> {
    if formats == [] then []
    else
      TxChanges(v, formats[..|formats| - 1]) + TxPart(v, formats[|formats| - 1])
  }

  function TxPart(v: Average, f: string): seq<Change> {
    if f in v.txs then TxChangesOf(f, v.txs[f][From(v, f)..]) else []
  }

  // The indices after a drain: the old one is kept aside, the new one is the end of the list.
  ghost function Advanced(v: Average): Average {
    v.(dirty1 := {}, dirty2 := {},
       last := map f | f in v.last.Keys + v.dirty2 && (f in v.last || f in v.txs) ::
                 if f in v.dirty2 && f in v.txs then |v.txs[f]| else v.last[f],
       pending := map f | f in v.pending.Keys + v.dirty2 && (f in v.pending || f in v.txs) ::
                    if f in v.dirty2 && f in v.txs then From(v, f) else v.pending[f])
  }

  ghost predicate DrainedTo(v: Average, changes: seq<Change>, v': Average) {
    && v' == Advanced(v)
    && exists o: seq<string>, d: seq<string> ::
         Enumerates(o, v.dirty1) && Enumerates(d, v.dirty2) && changes == StatsChanges(v, o) + TxChanges(v, d)
  }

  function Applied(v: Average, change: Change): Average {
    match change
    case Period1Stats(f, stats) => v.(stats := v.stats[f := stats])
    case Period2Tx(f, account, amount) =>
      var txs := TxsOf(v, f) + [Transaction(Unspecified, account, amount, "")];
      v.(txs := v.txs[f := txs], last := v.last[f := |txs|])
  }

  ghost function StatsFormats(changes: seq<Change>): set<string> {
    set x | x in changes && x.Period1Stats? :: x.format
  }

  ghost function TxFormats(changes: seq<Change>): set<string> {
    set x | x in changes && x.Period2Tx? :: x.format
  }

  // Formats become dirty again, and the index of a logged list goes back to where it was.
  ghost function GivenBack(v: Average, changes: seq<Change>): Average {
    v.(dirty1 := v.dirty1 + StatsFormats(changes), dirty2 := v.dirty2 + TxFormats(changes),
       last := map f | f in v.last.Keys + v.pending.Keys && (f in v.last || f in TxFormats(changes)) ::
                 if f in TxFormats(changes) && f in v.pending then v.pending[f] else v.last[f],
       pending := v.pending - TxFormats(changes))
  }

  ghost predicate RestoredTo(v: Average, changes: seq<Change>, v': Average) { v' == GivenBack(v, changes) }

  // ---- What counts ----

  datatype Payment = Payment(account: string, amountPaid: string)

  function Payments(txs: seq<Transaction>): seq<Payment> {
    seq(|txs|, i requires 0 <= i < |txs| => Payment(txs[i].account, txs[i].amountPaid))
  }

  datatype Meaning = Meaning(stats: map<string, Stats>, payments: map<string, seq<Payment>>)

  ghost function MeaningOf(v: Average): Meaning { Meaning(v.stats, map f | f in v.txs :: Payments(v.txs[f])) }

  // For each format, the logged entries are the list up to the checkpoint index, and a list that
  // is not dirty is logged entirely.
  ghost predicate ListAhead(live: Average, base: Average, f: string) {
    var n := LastIndex(live, f);
    && n == LastIndex(base, f) == |TxsOf(base, f)| <= |TxsOf(live, f)|
    && Payments(TxsOf(live, f)[..n]) == Payments(TxsOf(base, f))
    && (f !in live.dirty2 ==> n == |TxsOf(live, f)|)
    && (f in live.dirty2 ==> f in live.txs)
    && (f in live.txs ==> live.txs[f] != []) && (f in base.txs ==> base.txs[f] != [])
  }

  ghost predicate StatsAhead(live: Average, base: Average, f: string) {
    if f in live.dirty1 then f in live.stats
    else (f in live.stats <==> f in base.stats) && (f in live.stats ==> live.stats[f] == base.stats[f])
  }

  ghost predicate AheadBy(live: Average, base: Average) {
    && base.dirty1 == {} && base.dirty2 == {}
    && (forall f :: ListAhead(live, base, f)) && (forall f :: StatsAhead(live, base, f))
  }

  ghost function AverageProcessor(parse: string -> Option<real>): Processor<Average, Transaction, Change, Meaning> {
    Processor(NOTHING,
              (items: seq<Transaction>) => true,
              (t: Transaction) => Unreadable(t, parse),
              (v, items) => ProcessedAll(v, items, parse),
              (v, changes, v') => DrainedTo(v, changes, v'),
              (v, changes, v') => RestoredTo(v, changes, v'),
              (v, change) => Applied(v, change),
              (v: Average) => MeaningOf(v),
              (live, base) => AheadBy(live, base))
  }

  // ---- Replaying changes, format by format ----

  function PaymentsIn(changes: seq<Change>, f: string): seq<Payment> {
    if changes == [] then []
    else
      var x := changes[|changes| - 1];
      PaymentsIn(changes[..|changes| - 1], f)
      + (if x.Period2Tx? && x.format == f then [Payment(x.account, x.amountPaid)] else [])
  }

  function StatsIn(changes: seq<Change>, f: string, was: Option<Stats>): Option<Stats> {
    if changes == [] then was
    else
      var x := changes[|changes| - 1];
      if x.Period1Stats? && x.format == f then Some(x.stats) else StatsIn(changes[..|changes| - 1], f, was)
  }

  function StatsOf(v: Average, f: string): Option<Stats> { if f in v.stats then Some(v.stats[f]) else None }

  lemma {:induction false} PaymentsInConcat(a: seq<Change>, b: seq<Change>, f: string)
    ensures PaymentsIn(a + b, f) == PaymentsIn(a, f) + PaymentsIn(b, f)
  {
    if b == [] {
      assert a + b == a;
    } else {
      assert (a + b)[..|a + b| - 1] == a + b[..|b| - 1];
      PaymentsInConcat(a, b[..|b| - 1], f);
    }
  }

  lemma {:induction false} StatsInConcat(a: seq<Change>, b: seq<Change>, f: string, was: Option<Stats>)
    ensures StatsIn(a + b, f, was) == StatsIn(b, f, StatsIn(a, f, was))
  {
    if b == [] {
      assert a + b == a;
    } else {
      assert (a + b)[..|a + b| - 1] == a + b[..|b| - 1];
      StatsInConcat(a, b[..|b| - 1], f, was);
    }
  }

  ghost function Replayed(parse: string -> Option<real>, v: Average, changes: seq<Change>): Average {
    ApplyAll(AverageProcessor(parse), v, changes)
  }

  lemma {:induction false} ReplayedList(parse: string -> Option<real>, v: Average, changes: seq<Change>, f: string)
    requires LastIndex(v, f) == |TxsOf(v, f)|
    ensures var w := Replayed(parse, v, changes);
            && Payments(TxsOf(w, f)) == Payments(TxsOf(v, f)) + PaymentsIn(changes, f)
            && LastIndex(w, f) == |TxsOf(w, f)|
            && w.dirty1 == v.dirty1 && w.dirty2 == v.dirty2
            && StatsOf(w, f) == StatsIn(changes, f, StatsOf(v, f))
            && (f in w.txs <==> f in v.txs || PaymentsIn(changes, f) != [])
  {
    if changes != [] {
      var init, x := changes[..|changes| - 1], changes[|changes| - 1];
      ReplayedList(parse, v, init, f);
      var u := Replayed(parse, v, init);
      if x.Period2Tx? && x.format == f {
        PaymentsNext(TxsOf(u, f), Transaction(Unspecified, x.account, x.amountPaid, ""));
      }
    }
  }

  lemma PaymentsNext(txs: seq<Transaction>, t: Transaction)
    ensures Payments(txs + [t]) == Payments(txs) + [Payment(t.account, t.amountPaid)]
  {
  }

  lemma {:induction false} ChangesOfOne(f: string, txs: seq<Transaction>, g: string)
    ensures PaymentsIn(TxChangesOf(f, txs), g) == if f == g then Payments(txs) else []
    ensures forall was :: StatsIn(TxChangesOf(f, txs), g, was) == was
  {
    if txs != [] {
      var changes := TxChangesOf(f, txs);
      assert changes[..|changes| - 1] == TxChangesOf(f, txs[..|txs| - 1]);
      ChangesOfOne(f, txs[..|txs| - 1], g);
      assert txs == txs[..|txs| - 1] + [txs[|txs| - 1]];
      PaymentsNext(txs[..|txs| - 1], txs[|txs| - 1]);
    }
  }

  // What a list has not yet logged.
  function Unlogged(v: Average, f: string): seq<Payment> {
    if f in v.txs then Payments(v.txs[f][From(v, f)..]) else []
  }

  lemma {:induction false} TxChangesByFormat(v: Average, formats: seq<string>, f: string)
    requires forall i, j :: 0 <= i < j < |formats| ==> formats[i] != formats[j]
    ensures PaymentsIn(TxChanges(v, formats), f) == if f in formats then Unlogged(v, f) else []
  {
    if formats != [] {
      var init, g := formats[..|formats| - 1], formats[|formats| - 1];
      TxChangesByFormat(v, init, f);
      assert formats == init + [g];
      assert g !in init;
      PartOfOne(v, g, f);
      PaymentsInConcat(TxChanges(v, init), TxPart(v, g), f);
    }
  }

  lemma {:induction false} TxChangesNoStats(v: Average, formats: seq<string>, f: string, was: Option<Stats>)
    ensures StatsIn(TxChanges(v, formats), f, was) == was
  {
    if formats != [] {
      var init, g := formats[..|formats| - 1], formats[|formats| - 1];
      TxChangesNoStats(v, init, f, was);
      PartOfOne(v, g, f);
      StatsInConcat(TxChanges(v, init), TxPart(v, g), f, was);
    }
  }

  lemma PartOfOne(v: Average, g: string, f: string)
    ensures PaymentsIn(TxPart(v, g), f) == if g == f then Unlogged(v, f) else []
    ensures forall was :: StatsIn(TxPart(v, g), f, was) == was
  {
    if g in v.txs { ChangesOfOne(g, v.txs[g][From(v, g)..], f); }
  }

  lemma {:induction false} StatsChangesByFormat(v: Average, formats: seq<string>, f: string, was: Option<Stats>)
    requires forall i, j :: 0 <= i < j < |formats| ==> formats[i] != formats[j]
    ensures StatsIn(StatsChanges(v, formats), f, was) == if f in formats && f in v.stats then StatsOf(v, f) else was
    ensures PaymentsIn(StatsChanges(v, formats), f) == []
  {
    if formats != [] {
      var init, g := formats[..|formats| - 1], formats[|formats| - 1];
      StatsChangesByFormat(v, init, f, was);
      assert formats == init + [g];
      var more := if g in v.stats then [Period1Stats(g, v.stats[g])] else [];
      StatsOfOne(v, g, f, StatsIn(StatsChanges(v, init), f, was));
      PaymentsInConcat(StatsChanges(v, init), more, f);
      StatsInConcat(StatsChanges(v, init), more, f, was);
    }
  }

  lemma StatsOfOne(v: Average, g: string, f: string, was: Option<Stats>)
    ensures var more := if g in v.stats then [Period1Stats(g, v.stats[g])] else [];
            StatsIn(more, f, was) == (if g == f && f in v.stats then StatsOf(v, f) else was) && PaymentsIn(more, f) == []
  {
  }

  // What a drain hands over for one format.
  lemma DrainedByFormat(v: Average, changes: seq<Change>, v': Average, f: string, was: Option<Stats>)
    requires DrainedTo(v, changes, v')
    ensures PaymentsIn(changes, f) == if f in v.dirty2 then Unlogged(v, f) else []
    ensures StatsIn(changes, f, was) == if f in v.dirty1 && f in v.stats then StatsOf(v, f) else was
  {
    var o: seq<string>, d: seq<string> :| Enumerates(o, v.dirty1) && Enumerates(d, v.dirty2)
                                          && changes == StatsChanges(v, o) + TxChanges(v, d);
    StatsChangesByFormat(v, o, f, was);
    TxChangesByFormat(v, d, f);
    TxChangesNoStats(v, d, f, StatsIn(StatsChanges(v, o), f, was));
    PaymentsInConcat(StatsChanges(v, o), TxChanges(v, d), f);
    StatsInConcat(StatsChanges(v, o), TxChanges(v, d), f, was);
  }

  // ---- The laws ----

  lemma PaymentsSplit(txs: seq<Transaction>, n: nat)
    requires n <= |txs|
    ensures Payments(txs[..n]) + Payments(txs[n..]) == Payments(txs)
  {
  }

  lemma DrainedTxs(parse: string -> Option<real>, live: Average, base: Average, changes: seq<Change>, live': Average,
                   f: string)
    requires AheadBy(live, base) && DrainedTo(live, changes, live')
    ensures var base' := Replayed(parse, base, changes);
            && Payments(TxsOf(base', f)) == Payments(TxsOf(live, f))
            && (f in base'.txs <==> f in live.txs)
            && StatsOf(base', f) == StatsOf(live, f)
  {
    assert ListAhead(live, base, f) && StatsAhead(live, base, f);
    DrainedByFormat(live, changes, live', f, StatsOf(base, f));
    ReplayedList(parse, base, changes, f);
    PaymentsSplit(TxsOf(live, f), LastIndex(live, f));
  }

  lemma DrainedList(parse: string -> Option<real>, live: Average, base: Average, changes: seq<Change>, live': Average,
                    f: string)
    requires AheadBy(live, base) && DrainedTo(live, changes, live')
    ensures var base' := Replayed(parse, base, changes);
            && Payments(TxsOf(base', f)) == Payments(TxsOf(live, f))
            && (f in base'.txs <==> f in live.txs)
            && StatsOf(base', f) == StatsOf(live, f)
            && ListAhead(live', base', f) && ListAhead(base', base', f)
            && base'.dirty1 == {} && base'.dirty2 == {}
  {
    assert ListAhead(live, base, f);
    DrainedTxs(parse, live, base, changes, live', f);
    ReplayedList(parse, base, changes, f);
    var base' := Replayed(parse, base, changes);
    assert |Payments(TxsOf(base', f))| == |TxsOf(base', f)| && |Payments(TxsOf(live, f))| == |TxsOf(live, f)|;
    assert TxsOf(live', f)[..|TxsOf(live', f)|] == TxsOf(live', f);
    assert TxsOf(base', f)[..|TxsOf(base', f)|] == TxsOf(base', f);
  }

  lemma AverageDrains(parse: string -> Option<real>, live: Average, base: Average, changes: seq<Change>, live': Average)
    requires AheadBy(live, base) && DrainedTo(live, changes, live')
    ensures Drained(AverageProcessor(parse), live, live', Replayed(parse, base, changes))
  {
    var base' := Replayed(parse, base, changes);
    forall f
      ensures Payments(TxsOf(base', f)) == Payments(TxsOf(live, f)) && (f in base'.txs <==> f in live.txs)
      ensures StatsOf(base', f) == StatsOf(live, f)
      ensures ListAhead(live', base', f) && ListAhead(base', base', f) && base'.dirty1 == {} && base'.dirty2 == {}
    {
      DrainedList(parse, live, base, changes, live', f);
    }
    DrainedList(parse, live, base, changes, live', "");
    SameMeaning(base', live);
    forall f ensures StatsAhead(live', base', f) && StatsAhead(base', base', f) {
      assert StatsOf(base', f) == StatsOf(live, f);
    }
  }

  lemma SameMeaning(v: Average, w: Average)
    requires forall f :: Payments(TxsOf(v, f)) == Payments(TxsOf(w, f)) && (f in v.txs <==> f in w.txs)
    requires forall f :: StatsOf(v, f) == StatsOf(w, f)
    ensures MeaningOf(v) == MeaningOf(w)
  {
    forall f ensures f in v.stats <==> f in w.stats {
      assert StatsOf(v, f) == StatsOf(w, f);
    }
    forall f | f in v.stats ensures v.stats[f] == w.stats[f] {
      assert StatsOf(v, f) == StatsOf(w, f);
    }
    forall f | f in v.txs ensures Payments(v.txs[f]) == Payments(w.txs[f]) {
      assert Payments(TxsOf(v, f)) == Payments(TxsOf(w, f));
    }
  }

  lemma ProcessedStaysAhead(live: Average, base: Average, t: Transaction, parse: string -> Option<real>)
    requires AheadBy(live, base)
    ensures AheadBy(Processed(live, t, parse), base)
  {
    var live' := Processed(live, t, parse);
    forall f ensures ListAhead(live', base, f) && StatsAhead(live', base, f) {
      assert ListAhead(live, base, f) && StatsAhead(live, base, f);
      var n := LastIndex(live, f);
      assert TxsOf(live', f)[..n] == TxsOf(live, f)[..n];
    }
  }

  lemma {:induction false} ProcessedAllStaysAhead(live: Average, base: Average, items: seq<Transaction>,
                                                  parse: string -> Option<real>)
    requires AheadBy(live, base)
    ensures AheadBy(ProcessedAll(live, items, parse), base)
  {
    if items != [] {
      ProcessedAllStaysAhead(live, base, items[..|items| - 1], parse);
      ProcessedStaysAhead(ProcessedAll(live, items[..|items| - 1], parse), base, items[|items| - 1], parse);
    }
  }

  lemma MeaningByFormat(v: Average, w: Average, f: string)
    requires MeaningOf(v) == MeaningOf(w)
    ensures Payments(TxsOf(v, f)) == Payments(TxsOf(w, f)) && (f in v.txs <==> f in w.txs) && StatsOf(v, f) == StatsOf(w, f)
  {
    assert f in v.txs <==> f in MeaningOf(v).payments;
    assert f in w.txs <==> f in MeaningOf(w).payments;
    if f in v.txs { assert MeaningOf(v).payments[f] == MeaningOf(w).payments[f]; }
  }

  lemma SameMeaningProcessed(v: Average, w: Average, t: Transaction, parse: string -> Option<real>)
    requires MeaningOf(v) == MeaningOf(w)
    ensures MeaningOf(Processed(v, t, parse)) == MeaningOf(Processed(w, t, parse))
  {
    forall f
      ensures var v', w' := Processed(v, t, parse), Processed(w, t, parse);
              && Payments(TxsOf(v', f)) == Payments(TxsOf(w', f)) && (f in v'.txs <==> f in w'.txs)
              && StatsOf(v', f) == StatsOf(w', f)
    {
      MeaningByFormat(v, w, f);
      ProcessedByFormat(v, t, f, parse);
      ProcessedByFormat(w, t, f, parse);
    }
    SameMeaning(Processed(v, t, parse), Processed(w, t, parse));
  }

  // What one transaction adds to one format.
  lemma ProcessedByFormat(v: Average, t: Transaction, f: string, parse: string -> Option<real>)
    ensures var v' := Processed(v, t, parse);
            && Payments(TxsOf(v', f)) == Payments(TxsOf(v, f)) + MorePayments(t, f)
            && (f in v'.txs <==> f in v.txs || MorePayments(t, f) != [])
            && StatsOf(v', f) == MoreStats(StatsOf(v, f), t, f, parse)
  {
    PaymentsNext(TxsOf(v, f), t);
  }

  function MorePayments(t: Transaction, f: string): seq<Payment> {
    if t.period.Second? && t.paymentFormat == f then [Payment(t.account, t.amountPaid)] else []
  }

  function MoreStats(was: Option<Stats>, t: Transaction, f: string, parse: string -> Option<real>): Option<Stats> {
    if t.period.First? && t.paymentFormat == f && parse(t.amountPaid).Some? then
      var stats := if was.Some? then was.value else Stats(0.0, 0);
      Some(Stats(stats.sum + parse(t.amountPaid).value, stats.count + 1))
    else was
  }

  lemma {:induction false} SameMeaningProcessedAll(v: Average, w: Average, items: seq<Transaction>,
                                                   parse: string -> Option<real>)
    requires MeaningOf(v) == MeaningOf(w)
    ensures MeaningOf(ProcessedAll(v, items, parse)) == MeaningOf(ProcessedAll(w, items, parse))
  {
    if items != [] {
      var init := items[..|items| - 1];
      SameMeaningProcessedAll(v, w, init, parse);
      SameMeaningProcessed(ProcessedAll(v, init, parse), ProcessedAll(w, init, parse), items[|items| - 1], parse);
    }
  }

  lemma AverageProcesses(parse: string -> Option<real>)
    ensures Processes(AverageProcessor(parse))
  {
    var p := AverageProcessor(parse);
    forall live, base, items | p.rel(live, base) ensures p.rel(p.process(live, items), base) {
      ProcessedAllStaysAhead(live, base, items, parse);
    }
    forall v, w, items | p.sem(v) == p.sem(w) ensures p.sem(p.process(v, items)) == p.sem(p.process(w, items)) {
      SameMeaningProcessedAll(v, w, items, parse);
    }
  }

  lemma {:induction false} FormatsIn(changes: seq<Change>, f: string)
    ensures f in TxFormats(changes) <==> PaymentsIn(changes, f) != []
    ensures f in StatsFormats(changes) <==> StatsIn(changes, f, None).Some?
  {
    if changes != [] {
      var init, x := changes[..|changes| - 1], changes[|changes| - 1];
      FormatsIn(init, f);
      assert changes == init + [x];
      assert TxFormats(changes) == TxFormats(init) + if x.Period2Tx? then {x.format} else {};
      assert StatsFormats(changes) == StatsFormats(init) + if x.Period1Stats? then {x.format} else {};
    }
  }

  // After a failed append the tracker stands where it stood: the next drain logs the same again.
  lemma AverageRestores(live: Average, base: Average, changes: seq<Change>, live': Average, live'': Average)
    requires AheadBy(live, base) && DrainedTo(live, changes, live') && RestoredTo(live', changes, live'')
    ensures AheadBy(live'', base) && MeaningOf(live'') == MeaningOf(live)
  {
    forall f ensures ListAhead(live'', base, f) && StatsAhead(live'', base, f) {
      assert ListAhead(live, base, f) && StatsAhead(live, base, f);
      DrainedByFormat(live, changes, live', f, None);
      FormatsIn(changes, f);
    }
  }

  lemma AverageIsLawful(parse: string -> Option<real>)
    ensures Lawful(AverageProcessor(parse)) && Restores(AverageProcessor(parse))
  {
    AverageProcesses(parse);
    AverageDrainsAlways(parse);
    AverageRestoresAlways(parse);
  }

  lemma AverageDrainsAlways(parse: string -> Option<real>)
    ensures Drains(AverageProcessor(parse))
  {
    var p := AverageProcessor(parse);
    forall live, base, changes, live' | p.rel(live, base) && p.drains(live, changes, live')
      ensures Drained(p, live, live', ApplyAll(p, base, changes))
    {
      AverageDrains(parse, live, base, changes, live');
    }
  }

  lemma AverageRestoresAlways(parse: string -> Option<real>)
    ensures Restores(AverageProcessor(parse))
  {
    var p := AverageProcessor(parse);
    forall live, base, changes, live', live''
      | p.rel(live, base) && p.drains(live, changes, live') && p.restores(live', changes, live'')
      ensures TakenBack(p, live, base, live'')
    {
      AverageRestores(live, base, changes, live', live'');
    }
  }

  // In every run of the engine, whatever drains succeeded, failed and were given back or
  // nacked, and whatever crashes and failed starts there were: the log holds of each list exactly the part up to its index.
  lemma LogIsPrefix(parse: string -> Option<real>, data: map<string, seq<Transaction>>, every: nat,
                    states: seq<System<Average, Change>>, steps: seq<Step<Average, Change>>, i: nat, f: string)
    requires IsRun(AverageProcessor(parse), data, every, states, steps) && i < |states|
    ensures var live := states[i].proc;
            && LastIndex(live, f) <= |TxsOf(live, f)|
            && PaymentsIn(ChangesIn(states[i].log), f) == Payments(TxsOf(live, f)[..LastIndex(live, f)])
            && (f !in live.dirty2 ==> LastIndex(live, f) == |TxsOf(live, f)|)
  {
    AverageIsLawful(parse);
    RunStaysAhead(AverageProcessor(parse), data, every, states, steps, i);
    AheadIsPrefix(parse, states[i].proc, ChangesIn(states[i].log), f);
  }

  lemma AheadIsPrefix(parse: string -> Option<real>, live: Average, logged: seq<Change>, f: string)
    requires AheadBy(live, Replayed(parse, NOTHING, logged))
    ensures LastIndex(live, f) <= |TxsOf(live, f)|
    ensures PaymentsIn(logged, f) == Payments(TxsOf(live, f)[..LastIndex(live, f)])
    ensures f !in live.dirty2 ==> LastIndex(live, f) == |TxsOf(live, f)|
  {
    assert ListAhead(live, Replayed(parse, NOTHING, logged), f);
    ReplayedList(parse, NOTHING, logged, f);
    assert Payments(TxsOf(NOTHING, f)) == [];
  }

  // ---- The results ----

  predicate Below(stats: Stats, p: Payment, parse: string -> Option<real>)
    requires stats.count > 0
  {
    parse(p.amountPaid).Some? && parse(p.amountPaid).value < stats.sum / (stats.count as real) / 100.0
  }

  function BelowIn(stats: Stats, payments: seq<Payment>, parse: string -> Option<real>): seq<Payment>
    requires stats.count > 0
  {
    if payments == [] then []
    else
      var p := payments[|payments| - 1];
      BelowIn(stats, payments[..|payments| - 1], parse) + (if Below(stats, p, parse) then [p] else [])
  }

  function ResultsOf(m: Meaning, f: string, parse: string -> Option<real>): seq<Payment> {
    if f in m.stats && m.stats[f].count > 0
    then BelowIn(m.stats[f], if f in m.payments then m.payments[f] else [], parse) else []
  }

  function Results(m: Meaning, order: seq<string>, parse: string -> Option<real>): seq<Payment> {
    if order == [] then []
    else Results(m, order[..|order| - 1], parse) + ResultsOf(m, order[|order| - 1], parse)
  }

  lemma {:induction false} BelowGrows(stats: Stats, payments: seq<Payment>, i: nat, parse: string -> Option<real>)
    requires stats.count > 0 && i <= |payments|
    ensures BelowIn(stats, payments[..i], parse) <= BelowIn(stats, payments, parse)
    decreases |payments| - i
  {
    if i == |payments| {
      assert payments[..i] == payments;
    } else {
      BelowGrows(stats, payments, i + 1, parse);
      assert payments[..i + 1][..i] == payments[..i];
    }
  }

  lemma {:induction false} ResultsGrow(m: Meaning, order: seq<string>, i: nat, parse: string -> Option<real>)
    requires i <= |order|
    ensures Results(m, order[..i], parse) <= Results(m, order, parse)
    decreases |order| - i
  {
    if i == |order| {
      assert order[..i] == order;
    } else {
      ResultsGrow(m, order, i + 1, parse);
      assert order[..i + 1][..i] == order[..i];
    }
  }

  lemma {:induction false} ResultsConcat(m: Meaning, a: seq<string>, b: seq<string>, parse: string -> Option<real>)
    ensures Results(m, a + b, parse) == Results(m, a, parse) + Results(m, b, parse)
  {
    if b == [] {
      assert a + b == a;
    } else {
      var init, f := b[..|b| - 1], b[|b| - 1];
      assert b == init + [f];
      Regroup(a, init, [f]);
      ResultsConcat(m, a, init, parse);
      OneMoreResult(m, a + init, f, parse);
      Regroup(Results(m, a, parse), Results(m, init, parse), ResultsOf(m, f, parse));
    }
  }

  lemma OneMoreResult(m: Meaning, order: seq<string>, f: string, parse: string -> Option<real>)
    ensures Results(m, order + [f], parse) == Results(m, order, parse) + ResultsOf(m, f, parse)
  {
    assert (order + [f])[..|order|] == order;
  }

  lemma ResultsWithout(m: Meaning, order: seq<string>, i: nat, parse: string -> Option<real>)
    requires i < |order|
    ensures multiset(Results(m, order, parse)) ==
              multiset(Results(m, order[..i] + order[i + 1..], parse)) + multiset(ResultsOf(m, order[i], parse))
  {
    var before, f, after := order[..i], order[i], order[i + 1..];
    assert order == before + [f] + after;
    ResultsConcat(m, before + [f], after, parse);
    OneMoreResult(m, before, f, parse);
    ResultsConcat(m, before, after, parse);
  }

  // The results are the same multiset in whatever order the formats are visited.
  lemma {:induction false} ResultsIgnoreOrder(m: Meaning, a: seq<string>, b: seq<string>, s: set<string>,
                                              parse: string -> Option<real>)
    requires Enumerates(a, s) && Enumerates(b, s)
    ensures multiset(Results(m, a, parse)) == multiset(Results(m, b, parse))
    decreases |a|
  {
    if a == [] {
      EnumerationSize(a, s);
      EnumerationSize(b, s);
    } else {
      var n := |a| - 1;
      var f := a[n];
      assert f in a;
      var i :| 0 <= i < |b| && b[i] == f;
      var b' := b[..i] + b[i + 1..];
      assert Enumerates(a[..n], s - {f}) by {
        assert a == a[..n] + [f];
      }
      assert Enumerates(b', s - {f}) by {
        forall k ensures k in b' <==> k in s - {f} {
          assert b == b[..i] + [f] + b[i + 1..];
        }
      }
      ResultsIgnoreOrder(m, a[..n], b', s - {f}, parse);
      ResultsWithout(m, b, i, parse);
    }
  }

  // So a recovered processor, which means the same, yields the same results.
  lemma SameResults(v: Average, w: Average, a: seq<string>, b: seq<string>, parse: string -> Option<real>)
    requires MeaningOf(v) == MeaningOf(w) && Enumerates(a, v.stats.Keys) && Enumerates(b, w.stats.Keys)
    ensures multiset(Results(MeaningOf(v), a, parse)) == multiset(Results(MeaningOf(w), b, parse))
  {
    ResultsIgnoreOrder(MeaningOf(v), a, b, v.stats.Keys, parse);
  }

  // ---- What the results have to be ----

  // Where a payment stands in a list of transactions.
  ghost function Places(txs: seq<Transaction>, p: Payment): set<nat> {
    set i: nat | i < |txs| && txs[i].account == p.account && txs[i].amountPaid == p.amountPaid
  }

  // A hundred times the amount is still under the average: multiplied by the count, under the sum.
  ghost predicate IsSmall(stats: Stats, amount: Option<real>) {
    stats.count > 0 && amount.Some? && amount.value * 100.0 * (stats.count as real) < stats.sum
  }

  // The second-period transactions, by format and place, that are this payment and small for
  // their format.
  ghost function SmallOnes(stats: map<string, Stats>, txs: map<string, seq<Transaction>>, p: Payment,
                           parse: string -> Option<real>): set<(string, nat)>
  {
    set f, i | f in stats && f in txs && i in Places(txs[f], p) && IsSmall(stats[f], parse(p.amountPaid)) :: (f, i)
  }

  // Dividing by the count and by a hundred is comparing without dividing.
  lemma BelowIsSmall(stats: Stats, p: Payment, parse: string -> Option<real>)
    requires stats.count > 0
    ensures Below(stats, p, parse) <==> IsSmall(stats, parse(p.amountPaid))
  {
    if parse(p.amountPaid).Some? {
      var x, n := parse(p.amountPaid).value, stats.count as real;
      var average := stats.sum / n;
      assert average * n == stats.sum;
      if x * 100.0 < average {
        Scaled(x * 100.0, average, n);
      } else {
        Scaled(average, x * 100.0, n);
      }
    }
  }

  lemma Scaled(a: real, b: real, n: real)
    requires n > 0.0 && a <= b
    ensures a * n <= b * n && (a < b ==> a * n < b * n)
  {
  }

  lemma {:induction false} SmallInList(stats: Stats, txs: seq<Transaction>, p: Payment, parse: string -> Option<real>)
    requires stats.count > 0
    ensures multiset(BelowIn(stats, Payments(txs), parse))[p] ==
              if IsSmall(stats, parse(p.amountPaid)) then |Places(txs, p)| else 0
  {
    if txs == [] {
      assert Places(txs, p) == {};
    } else {
      var init, n := txs[..|txs| - 1], |txs| - 1;
      SmallInList(stats, init, p, parse);
      assert Payments(txs)[..n] == Payments(init);
      BelowIsSmall(stats, Payments(txs)[n], parse);
      assert Places(txs, p) == Places(init, p) + if Payments(txs)[n] == p then {n} else {};
    }
  }

  // The small ones of some formats only.
  ghost function SmallOnesOf(v: Average, formats: seq<string>, p: Payment,
                             parse: string -> Option<real>): set<(string, nat)> {
    set f, i | f in formats && f in v.stats && f in v.txs && i in Places(v.txs[f], p)
               && IsSmall(v.stats[f], parse(p.amountPaid)) :: (f, i)
  }

  ghost function Tagged(f: string, s: set<nat>): set<(string, nat)> { set i | i in s :: (f, i) }

  lemma {:induction false} AsManyTagged(f: string, s: set<nat>)
    ensures |Tagged(f, s)| == |s|
  {
    if s == {} {
      assert Tagged(f, s) == {};
    } else {
      var k :| k in s;
      AsManyTagged(f, s - {k});
      assert (f, k) !in Tagged(f, s - {k});
      assert Tagged(f, s) == Tagged(f, s - {k}) + {(f, k)};
    }
  }

  lemma SmallOfOne(v: Average, f: string, p: Payment, parse: string -> Option<real>)
    ensures multiset(ResultsOf(MeaningOf(v), f, parse))[p] == |SmallOnesOf(v, [f], p, parse)|
  {
    var small := f in v.stats && f in v.txs && IsSmall(v.stats[f], parse(p.amountPaid));
    var places := if small then Places(v.txs[f], p) else {};
    AsManyTagged(f, places);
    assert SmallOnesOf(v, [f], p, parse) == Tagged(f, places);
    if f in v.stats && v.stats[f].count > 0 && f in v.txs { SmallInList(v.stats[f], v.txs[f], p, parse); }
  }

  lemma {:induction false} SmallOfSome(v: Average, order: seq<string>, p: Payment, parse: string -> Option<real>)
    requires forall i, j :: 0 <= i < j < |order| ==> order[i] != order[j]
    ensures multiset(Results(MeaningOf(v), order, parse))[p] == |SmallOnesOf(v, order, p, parse)|
  {
    if order == [] {
      assert SmallOnesOf(v, order, p, parse) == {};
    } else {
      var init, f := order[..|order| - 1], order[|order| - 1];
      SmallOfSome(v, init, p, parse);
      SmallOfOne(v, f, p, parse);
      assert order == init + [f];
      SmallSplit(v, init, f, p, parse);
    }
  }

  lemma SmallSplit(v: Average, init: seq<string>, f: string, p: Payment, parse: string -> Option<real>)
    requires f !in init
    ensures |SmallOnesOf(v, init + [f], p, parse)| == |SmallOnesOf(v, init, p, parse)| + |SmallOnesOf(v, [f], p, parse)|
  {
    var a, b := SmallOnesOf(v, init, p, parse), SmallOnesOf(v, [f], p, parse);
    forall x ensures x in SmallOnesOf(v, init + [f], p, parse) <==> x in a || x in b {
      assert x.0 in init + [f] <==> x.0 in init || x.0 == f;
    }
    assert SmallOnesOf(v, init + [f], p, parse) == a + b;
    assert a !! b;
  }

  // A payment is yielded as often as it is a second-period transaction that is small for its format.
  lemma ResultsAreSmallOnes(v: Average, order: seq<string>, p: Payment, parse: string -> Option<real>)
    requires Enumerates(order, v.stats.Keys)
    ensures multiset(Results(MeaningOf(v), order, parse))[p] == |SmallOnes(v.stats, v.txs, p, parse)|
  {
    SmallOfSome(v, order, p, parse);
    assert SmallOnesOf(v, order, p, parse) == SmallOnes(v.stats, v.txs, p, parse);
  }

  lemma PrefixHasNoMore<X>(a: seq<X>, b: seq<X>, x: X)
    requires a <= b
    ensures multiset(a)[x] <= multiset(b)[x]
  {
    assert b == a + b[|a|..];
  }

  // ---- The object ----

  // What the processor and its tracker keep for one client; in the program both keep it in maps
  // by client id.
  class AvgByTypeClient {
    var period1Stats: map<string, Stats>
    var period2Transactions: map<string, seq<Transaction>>
    var dirtyPeriod1: set<string>
    var dirtyPeriod2: set<string>
    var lastCheckpointedIdx: map<string, nat>
    var pendingCheckpointIdx: map<string, nat>
    const parse: string -> Option<real>

    function View(): Average
      reads this
    {
      Average(period1Stats, period2Transactions, dirtyPeriod1, dirtyPeriod2, lastCheckpointedIdx, pendingCheckpointIdx)
    }

    constructor (parse: string -> Option<real>)
      ensures View() == NOTHING && this.parse == parse
    {
      this.parse := parse;
      period1Stats, period2Transactions, dirtyPeriod1, dirtyPeriod2 := map[], map[], {}, {};
      lastCheckpointedIdx, pendingCheckpointIdx := map[], map[];
    }

    method Process(t: Transaction) returns (ok: bool)
      modifies this
      ensures ok <==> (t.period.First? ==> parse(t.amountPaid).Some?)
      ensures ok == !Unreadable(t, parse) && View() == Processed(old(View()), t, parse)
    {
      match t.period
      case First => ok := ProcessFirstPeriod(t);
      case Second => ProcessSecondPeriod(t); ok := true;
      case Unspecified => ok := true;
    }

    method ProcessFirstPeriod(t: Transaction) returns (ok: bool)
      requires t.period.First?
      modifies this
      ensures ok == !Unreadable(t, parse) && View() == Processed(old(View()), t, parse)
    {
      var amount := parse(t.amountPaid);
      if amount.None? { return false; }
      var f := t.paymentFormat;
      if f !in period1Stats {
        period1Stats := period1Stats[f := Stats(0.0, 0)];
      }
      var stats := period1Stats[f];
      period1Stats := period1Stats[f := Stats(stats.sum + amount.value, stats.count + 1)];
      dirtyPeriod1 := dirtyPeriod1 + {f};
      return true;
    }

    method ProcessSecondPeriod(t: Transaction)
      requires t.period.Second?
      modifies this
      ensures View() == Processed(old(View()), t, parse)
    {
      var f := t.paymentFormat;
      period2Transactions := period2Transactions[f := (if f in period2Transactions then period2Transactions[f] else []) + [t]];
      dirtyPeriod2 := dirtyPeriod2 + {f};
    }

    method DrainChanges() returns (changes: seq<Change>)
      modifies this
      ensures DrainedTo(old(View()), changes, View())
    {
      ghost var v := View();
      var o := AnyOrder(dirtyPeriod1);
      var d := AnyOrder(dirtyPeriod2);
      changes := DrainStats(o);
      var more := DrainTransactions(d);
      dirtyPeriod1, dirtyPeriod2 := {}, {};
      changes := changes + more;
      assert View() == Advanced(v);
    }

    method DrainStats(formats: seq<string>) returns (changes: seq<Change>)
      ensures changes == StatsChanges(View(), formats)
    {
      changes := [];
      for i := 0 to |formats|
        invariant changes == StatsChanges(View(), formats[..i])
      {
        assert formats[..i + 1][..i] == formats[..i];
        if formats[i] in period1Stats {
          changes := changes + [Period1Stats(formats[i], period1Stats[formats[i]])];
        }
      }
      assert formats[..|formats|] == formats;
    }

    method DrainTransactions(formats: seq<string>) returns (changes: seq<Change>)
      requires Enumerates(formats, dirtyPeriod2)
      modifies this`lastCheckpointedIdx, this`pendingCheckpointIdx
      ensures changes == TxChanges(old(View()), formats)
      ensures View() == Advanced(old(View())).(dirty1 := dirtyPeriod1, dirty2 := dirtyPeriod2)
    {
      ghost var v := View();
      changes := [];
      ghost var done: set<string> := {};
      for i := 0 to |formats|
        invariant changes == TxUpto(v, formats, i) && FirstOf(formats, i, done)
        invariant lastCheckpointedIdx == LastAfter(v, done) && pendingCheckpointIdx == PendingAfter(v, done)
      {
        FirstNext(formats, v.dirty2, i, done);
        TxNext(v, formats, i);
        LastNext(v, done, formats[i]);
        PendingNext(v, done, formats[i]);
        var more := DrainFormat(formats[i]);
        changes := changes + more;
        done := done + {formats[i]};
      }
      AllDrained(v, formats, done);
    }

    ghost function TxUpto(v: Average, formats: seq<string>, i: nat): seq<Change>
      requires i <= |formats|
    {
      TxChanges(v, formats[..i])
    }

    ghost predicate FirstOf(formats: seq<string>, i: nat, done: set<string>) {
      i <= |formats| && forall f :: f in done <==> f in formats[..i]
    }

    lemma FirstNext(formats: seq<string>, all: set<string>, i: nat, done: set<string>)
      requires Enumerates(formats, all) && i < |formats| && FirstOf(formats, i, done)
      ensures formats[i] !in done && FirstOf(formats, i + 1, done + {formats[i]})
    {
      NextKey(formats, all, i);
    }

    lemma AllDrained(v: Average, formats: seq<string>, done: set<string>)
      requires Enumerates(formats, v.dirty2) && FirstOf(formats, |formats|, done)
      ensures done == v.dirty2 && TxUpto(v, formats, |formats|) == TxChanges(v, formats)
    {
      assert formats[..|formats|] == formats;
    }

    // The indices of v after some formats have been drained.
    ghost function LastAfter(v: Average, done: set<string>): map<string, nat> {
      map f | f in v.last.Keys + done && (f in v.last || f in v.txs) :: if f in done && f in v.txs then |v.txs[f]| else v.last[f]
    }

    ghost function PendingAfter(v: Average, done: set<string>): map<string, nat> {
      map f | f in v.pending.Keys + done && (f in v.pending || f in v.txs) ::
        if f in done && f in v.txs then From(v, f) else v.pending[f]
    }

    lemma TxNext(v: Average, formats: seq<string>, i: nat)
      requires i < |formats|
      ensures TxUpto(v, formats, i + 1) == TxUpto(v, formats, i) + TxPart(v, formats[i])
    {
      assert formats[..i + 1][..i] == formats[..i];
    }

    lemma LastNext(v: Average, done: set<string>, f: string)
      requires f !in done
      ensures LastAfter(v, done + {f}) == if f in v.txs then LastAfter(v, done)[f := |v.txs[f]|] else LastAfter(v, done)
      ensures forall w: Average :: w.last == LastAfter(v, done) && w.txs == v.txs ==> From(w, f) == From(v, f)
    {
    }

    lemma PendingNext(v: Average, done: set<string>, f: string)
      requires f !in done
      ensures PendingAfter(v, done + {f}) == if f in v.txs then PendingAfter(v, done)[f := From(v, f)] else PendingAfter(v, done)
    {
    }

    method DrainFormat(f: string) returns (changes: seq<Change>)
      modifies this`lastCheckpointedIdx, this`pendingCheckpointIdx
      ensures var v := old(View());
              && changes == (if f in v.txs then TxChangesOf(f, v.txs[f][From(v, f)..]) else [])
              && lastCheckpointedIdx == (if f in v.txs then v.last[f := |v.txs[f]|] else v.last)
              && pendingCheckpointIdx == (if f in v.txs then v.pending[f := From(v, f)] else v.pending)
    {
      if f !in period2Transactions { return []; }
      var txs := period2Transactions[f];
      var from := if f in lastCheckpointedIdx then lastCheckpointedIdx[f] else 0;
      if from > |txs| { from := |txs|; }
      pendingCheckpointIdx := pendingCheckpointIdx[f := from];
      changes := LogFrom(f, txs, from);
      lastCheckpointedIdx := lastCheckpointedIdx[f := |txs|];
    }

    static method LogFrom(f: string, txs: seq<Transaction>, from: nat) returns (changes: seq<Change>)
      requires from <= |txs|
      ensures changes == TxChangesOf(f, txs[from..])
    {
      changes := [];
      for i := from to |txs|
        invariant changes == TxChangesOf(f, txs[from..i])
      {
        assert txs[from..i + 1][..i - from] == txs[from..i];
        changes := changes + [Period2Tx(f, txs[i].account, txs[i].amountPaid)];
      }
      assert txs[from..|txs|] == txs[from..];
    }

    method RestoreChanges(changes: seq<Change>)
      modifies this
      ensures View() == GivenBack(old(View()), changes)
    {
      ghost var v := View();
      var period2Formats: set<string> := {};
      for i := 0 to |changes|
        invariant View() == v.(dirty1 := v.dirty1 + StatsFormats(changes[..i]), dirty2 := v.dirty2 + TxFormats(changes[..i]))
        invariant period2Formats == TxFormats(changes[..i])
      {
        assert changes[..i + 1] == changes[..i] + [changes[i]];
        match changes[i]
        case Period1Stats(f, _) =>
          dirtyPeriod1 := dirtyPeriod1 + {f};
          assert StatsFormats(changes[..i + 1]) == StatsFormats(changes[..i]) + {f};
          assert TxFormats(changes[..i + 1]) == TxFormats(changes[..i]);
        case Period2Tx(f, _, _) =>
          dirtyPeriod2 := dirtyPeriod2 + {f};
          period2Formats := period2Formats + {f};
          assert StatsFormats(changes[..i + 1]) == StatsFormats(changes[..i]);
          assert TxFormats(changes[..i + 1]) == TxFormats(changes[..i]) + {f};
      }
      assert changes[..|changes|] == changes;
      StepBack(period2Formats);
    }

    // The index of each format that has one kept aside goes back to it.
    method StepBack(formats: set<string>)
      modifies this`lastCheckpointedIdx, this`pendingCheckpointIdx
      ensures var v := old(View());
              && lastCheckpointedIdx == (map f | f in v.last.Keys + v.pending.Keys && (f in v.last || f in formats) ::
                   if f in formats && f in v.pending then v.pending[f] else v.last[f])
              && pendingCheckpointIdx == v.pending - formats
    {
      ghost var v := View();
      var left := formats;
      while left != {}
        invariant left <= formats
        invariant lastCheckpointedIdx == (map f | f in v.last.Keys + v.pending.Keys && (f in v.last || f in formats - left) ::
                    if f in formats - left && f in v.pending then v.pending[f] else v.last[f])
        invariant pendingCheckpointIdx == v.pending - (formats - left)
        decreases left
      {
        var f :| f in left;
        ghost var done := formats - left;
        left := left - {f};
        assert formats - left == done + {f};
        if f in pendingCheckpointIdx {
          lastCheckpointedIdx := lastCheckpointedIdx[f := pendingCheckpointIdx[f]];
          pendingCheckpointIdx := pendingCheckpointIdx - {f};
        }
      }
      assert formats - left == formats;
    }

    method ApplyChange(change: Change)
      modifies this
      ensures View() == Applied(old(View()), change)
    {
      match change
      case Period1Stats(f, stats) => period1Stats := period1Stats[f := stats];
      case Period2Tx(f, account, amountPaid) =>
        var txs := (if f in period2Transactions then period2Transactions[f] else []) + [Transaction(Unspecified, account, amountPaid, "")];
        period2Transactions := period2Transactions[f := txs];
        lastCheckpointedIdx := lastCheckpointedIdx[f := |txs|];
    }

    // Every payment below a hundredth of its format's average, format by format in some order.
    // The consumer may refuse a result: then only those before it have been handed over.
    method Finalize() returns (ok: bool, results: seq<Payment>, ghost order: seq<string>)
      ensures Enumerates(order, period1Stats.Keys) && results <= Results(MeaningOf(View()), order, parse)
      ensures ok ==> results == Results(MeaningOf(View()), order, parse)
                     && multiset(results) == multiset(Results(MeaningOf(View()), Listing(period1Stats.Keys), parse))
      ensures forall p :: multiset(results)[p] <= |SmallOnes(period1Stats, period2Transactions, p, parse)|
      ensures ok ==> forall p :: multiset(results)[p] == |SmallOnes(period1Stats, period2Transactions, p, parse)|
    {
      ok, results, order := FinalizeAll();
      forall p ensures multiset(results)[p] <= |SmallOnes(period1Stats, period2Transactions, p, parse)| {
        ResultsAreSmallOnes(View(), order, p, parse);
        PrefixHasNoMore(results, Results(MeaningOf(View()), order, parse), p);
      }
      if ok {
        forall p ensures multiset(results)[p] == |SmallOnes(period1Stats, period2Transactions, p, parse)| {
          ResultsAreSmallOnes(View(), order, p, parse);
        }
        ResultsIgnoreOrder(MeaningOf(View()), order, Listing(period1Stats.Keys), period1Stats.Keys, parse);
      }
    }

    // The loop over the formats.
    method FinalizeAll() returns (ok: bool, results: seq<Payment>, ghost order: seq<string>)
      ensures Enumerates(order, period1Stats.Keys) && results <= Results(MeaningOf(View()), order, parse)
      ensures ok ==> results == Results(MeaningOf(View()), order, parse)
    {
      ghost var m := MeaningOf(View());
      var formats := AnyOrder(period1Stats.Keys);
      order := formats;
      results := [];
      for i := 0 to |formats|
        invariant results == Results(m, formats[..i], parse)
      {
        NextKey(formats, period1Stats.Keys, i);
        assert formats[..i + 1][..i] == formats[..i];
        var stats := period1Stats[formats[i]];
        if stats.count == 0 { continue; }
        var txs := if formats[i] in period2Transactions then period2Transactions[formats[i]] else [];
        var more;
        ok, more := FinalizeFormat(stats, txs);
        results := results + more;
        if !ok {
          ResultsGrow(m, formats, i + 1, parse);
          return;
        }
      }
      assert formats[..|formats|] == formats;
      ok := true;
    }

    method FinalizeFormat(stats: Stats, txs: seq<Transaction>) returns (ok: bool, results: seq<Payment>)
      requires stats.count > 0
      ensures results <= BelowIn(stats, Payments(txs), parse)
      ensures ok ==> results == BelowIn(stats, Payments(txs), parse)
    {
      var average := stats.sum / (stats.count as real);
      var threshold := average / 100.0;
      results := [];
      for i := 0 to |txs|
        invariant results == BelowIn(stats, Payments(txs[..i]), parse)
      {
        assert Payments(txs[..i + 1])[..i] == Payments(txs[..i]);
        var amount := parse(txs[i].amountPaid);
        if amount.None? { continue; }
        if amount.value >= threshold { continue; }
        var accepted: bool := *;
        if !accepted {
          BelowGrows(stats, Payments(txs), i, parse);
          assert Payments(txs)[..i] == Payments(txs[..i]);
          return false, results;
        }
        results := results + [Payment(txs[i].account, txs[i].amountPaid)];
      }
      assert txs[..|txs|] == txs;
      ok := true;
    }
  }
}
