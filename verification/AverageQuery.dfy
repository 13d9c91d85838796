// What the average by payment format answers, from the transactions it was sent and nothing else:
// the payments of the second period below a hundredth of the first-period average of their format.
module AverageQuery {
  import opened Text
  import opened MapOrder
  import opened AcceptedItems
  import opened Checkpoint
  import opened AvgByType

  // ---- The definition ----

  // The amounts paid in the first period in some format, as far as they parse.
  function FirstAmounts(items: seq<Transaction>, f: string, parse: string -> Option<real>): seq<real> {
    if items == [] then []
    else
      var t := items[|items| - 1];
      FirstAmounts(items[..|items| - 1], f, parse)
      + (if t.period.First? && t.paymentFormat == f && parse(t.amountPaid).Some? then [parse(t.amountPaid).value]
          else [])
  }

  function Total(amounts: seq<real>): real {
    if amounts == [] then 0.0 else Total(amounts[..|amounts| - 1]) + amounts[|amounts| - 1]
  }

  // A hundred times the amount is under the average of the others, if there are any.
  ghost predicate IsBelow(amount: Option<real>, amounts: seq<real>) { IsSmall(Stats(Total(amounts), |amounts|),
                          amount) }

  // The payment, in the second period.
  predicate IsSecond(t: Transaction,
                     p: Payment) { t.period.Second? && t.account == p.account && t.amountPaid == p.amountPaid }

  // Where a payment that is to be reported stands among the transactions.
  ghost function Answers(items: seq<Transaction>, p: Payment, parse: string -> Option<real>): set<nat> {
    set i: nat | i < |items| && IsSecond(items[i], p)
                 && IsBelow(parse(p.amountPaid), FirstAmounts(items, items[i].paymentFormat, parse))
  }

  // ---- The processor ----

  lemma {:induction false} SumsOfAll(items: seq<Transaction>, f: string, parse: string -> Option<real>)
    ensures var amounts := FirstAmounts(items, f, parse);
            StatsOf(ProcessedAll(NOTHING, items, parse), f) ==
              if amounts == [] then None else Some(Stats(Total(amounts), |amounts|))
  {
    if items != [] {
      var init, t := items[..|items| - 1], items[|items| - 1];
      SumsOfAll(init, f, parse);
      ProcessedByFormat(ProcessedAll(NOTHING, init, parse), t, f, parse);
      if t.period.First? && t.paymentFormat == f && parse(t.amountPaid).Some? {
        TotalNext(FirstAmounts(init, f, parse), parse(t.amountPaid).value);
      } else {
        assert FirstAmounts(items, f, parse) == FirstAmounts(init, f, parse);
      }
    }
  }

  lemma TotalNext(amounts: seq<real>, x: real)
    ensures Total(amounts + [x]) == Total(amounts) + x
  {
    assert (amounts + [x])[..|amounts|] == amounts;
  }

  // The places of a payment among the listed transactions of some formats, and among the items.
  ghost function Listed(txs: map<string, seq<Transaction>>, formats: set<string>, p: Payment): set<(string, nat)> {
    set f, i | f in formats && f in txs && i in Places(txs[f], p) :: (f, i)
  }

  ghost function SecondOnes(items: seq<Transaction>, formats: set<string>, p: Payment): set<nat> {
    set i: nat | i < |items| && IsSecond(items[i], p) && items[i].paymentFormat in formats
  }

  lemma ListedNext(txs: map<string, seq<Transaction>>, t: Transaction, formats: set<string>, p: Payment)
    requires t.period.Second?
    ensures var f := t.paymentFormat;
            |Listed(txs[f := (if f in txs then txs[f] else []) + [t]], formats, p)| ==
              |Listed(txs, formats, p)| + if IsSecond(t, p) && f in formats then 1 else 0
  {
    var f := t.paymentFormat;
    var list := if f in txs then txs[f] else [];
    var txs', was := txs[f := list + [t]], Listed(txs, formats, p);
    assert (f, |list|) !in was;
    forall x
      ensures x in Listed(txs', formats, p) <==> x in was || (x == (f, |list|) && f in formats && IsSecond(t, p))
    {
      ListedOne(txs, t, formats, p, x.0, x.1);
    }
    assert Listed(txs', formats, p) == was + if IsSecond(t, p) && f in formats then {(f, |list|)} else {};
  }

  lemma ListedOne(txs: map<string, seq<Transaction>>, t: Transaction, formats: set<string>, p: Payment, g: string,
                  i: nat)
    requires t.period.Second?
    ensures var f := t.paymentFormat;
            var list := if f in txs then txs[f] else [];
            (g, i) in Listed(txs[f := list + [t]], formats, p) <==>
              (g, i) in Listed(txs, formats, p) || (g == f && i == |list| && f in formats && IsSecond(t, p))
  {
    var f := t.paymentFormat;
    PlacesNext(if f in txs then txs[f] else [], t, p, i);
  }

  lemma PlacesNext(txs: seq<Transaction>, t: Transaction, p: Payment, i: nat)
    ensures i in Places(txs + [t], p) <==>
              i in Places(txs, p) || (i == |txs| && t.account == p.account && t.amountPaid == p.amountPaid)
  {
  }

  lemma SecondNext(init: seq<Transaction>, t: Transaction, formats: set<string>, p: Payment)
    ensures |SecondOnes(init + [t], formats, p)| ==
              |SecondOnes(init, formats, p)| + if IsSecond(t, p) && t.paymentFormat in formats then 1 else 0
  {
    assert SecondOnes(init + [t], formats, p) ==
           SecondOnes(init, formats, p) + if IsSecond(t, p) && t.paymentFormat in formats then {|init|} else {};
  }

  lemma {:induction false} ListedAll(items: seq<Transaction>, formats: set<string>, p: Payment,
                                     parse: string -> Option<real>)
    ensures |Listed(ProcessedAll(NOTHING, items, parse).txs, formats, p)| == |SecondOnes(items, formats, p)|
  {
    if items == [] {
      assert Listed(map[], formats, p) == {} && SecondOnes(items, formats, p) == {};
    } else {
      var init, t := items[..|items| - 1], items[|items| - 1];
      ListedAll(init, formats, p, parse);
      if t.period.Second? { ListedNext(ProcessedAll(NOTHING, init, parse).txs, t, formats, p); }
      assert items == init + [t];
      SecondNext(init, t, formats, p);
    }
  }

  // What the processor yields after some transactions is what the definition says of them.
  lemma AverageIsDefinition(items: seq<Transaction>, p: Payment, parse: string -> Option<real>)
    ensures var v := ProcessedAll(NOTHING, items, parse);
            |SmallOnes(v.stats, v.txs, p, parse)| == |Answers(items, p, parse)|
  {
    var v := ProcessedAll(NOTHING, items, parse);
    var formats := SmallFormats(v.stats, parse(p.amountPaid));
    ListedAll(items, formats, p, parse);
    ListedAreSmallOnes(v.stats, v.txs, p, parse);
    forall f ensures f in formats <==> IsBelow(parse(p.amountPaid), FirstAmounts(items, f, parse)) {
      SmallIffBelow(items, f, parse(p.amountPaid), parse);
    }
    SecondAreAnswers(items, formats, p, parse);
  }

  ghost function SmallFormats(stats: map<string, Stats>, amount: Option<real>): set<string> {
    set f | f in stats && IsSmall(stats[f], amount)
  }

  lemma SmallIffBelow(items: seq<Transaction>, f: string, amount: Option<real>, parse: string -> Option<real>)
    ensures f in SmallFormats(ProcessedAll(NOTHING, items, parse).stats, amount) <==>
              IsBelow(amount, FirstAmounts(items, f, parse))
  {
    SumsOfAll(items, f, parse);
  }

  lemma ListedAreSmallOnes(stats: map<string, Stats>, txs: map<string, seq<Transaction>>, p: Payment,
                           parse: string -> Option<real>)
    ensures Listed(txs, SmallFormats(stats, parse(p.amountPaid)), p) == SmallOnes(stats, txs, p, parse)
  {
  }

  lemma SecondAreAnswers(items: seq<Transaction>, formats: set<string>, p: Payment, parse: string -> Option<real>)
    requires forall f :: f in formats <==> IsBelow(parse(p.amountPaid), FirstAmounts(items, f, parse))
    ensures SecondOnes(items, formats, p) == Answers(items, p, parse)
  {
  }

  // ---- The engine ----

  lemma {:induction false} ProcessedConcat(v: Average, a: seq<Transaction>, b: seq<Transaction>,
                                           parse: string -> Option<real>)
    ensures ProcessedAll(ProcessedAll(v, a, parse), b, parse) == ProcessedAll(v, a + b, parse)
  {
    if b == [] {
      assert a + b == a;
    } else {
      assert (a + b)[..|a + b| - 1] == a + b[..|b| - 1];
      ProcessedConcat(v, a, b[..|b| - 1], parse);
    }
  }

  lemma SameSmallOnes(v: Average, w: Average, p: Payment, parse: string -> Option<real>)
    requires MeaningOf(v) == MeaningOf(w)
    ensures |SmallOnes(v.stats, v.txs, p, parse)| == |SmallOnes(w.stats, w.txs, p, parse)|
  {
    var order := Listing(v.stats.Keys);
    ResultsAreSmallOnes(v, order, p, parse);
    ResultsAreSmallOnes(w, order, p, parse);
  }

  // At any moment of any run, whatever was delivered again, cut by a crash, replayed from the log or
  // given back after a failed append, what would be yielded then is the answer for the transactions
  // of the accepted batches, each batch taken once.
  lemma AverageOverRuns(data: map<string, seq<Transaction>>, every: nat, states: seq<System<Average, Change>>,
                        steps: seq<Step<Average, Change>>, i: nat, p: Payment, parse: string -> Option<real>)
    requires IsSoundRun(AverageProcessor(parse), data, every, states, steps) && i < |states|
    ensures NoRepeats(Accepted(states[i]))
    ensures |SmallOnes(states[i].proc.stats, states[i].proc.txs, p, parse)| ==
              |Answers(ItemsOf(AverageProcessor(parse), data, Accepted(states[i])), p, parse)|
  {
    var average := AverageProcessor(parse);
    var items := ItemsOf(average, data, Accepted(states[i]));
    AverageIsLawful(parse);
    forall v, a, b ensures average.process(average.process(v, a), b) == average.process(v, a + b) {
      ProcessedConcat(v, a, b, parse);
    }
    StateIsOfItems(average, data, every, states, steps, i);
    SameSmallOnes(states[i].proc, ProcessedAll(NOTHING, items, parse), p, parse);
    AverageIsDefinition(items, p, parse);
  }
}
