// A batch sent twice in a row through one batcher, as after an error of the coordinator: the second
// publication goes on with the numbers of the first, and the next stage counts too much.
module Repetition {
  import opened Sums
  import opened Chunks
  import opened Batching
  import opened Handover
  import Text

  // Each published id is counted once, with the items of one of the sub-batches that bear it.
  ghost predicate CountsEach<T>(m: map<string, nat>, subs: seq<SubBatch<T>>) {
    && (forall k :: k in m <==> Named(subs, k))
    && (forall k :: k in m ==> exists sub :: sub in subs && sub.id == k && m[k] == |sub.items|)
  }

  function Numbers<T>(id: string, batches: seq<seq<T>>, second: bool): seq<SubBatch<T>> {
    NumberedFrom(id, batches, if second && batches != [] then |batches| - 1 else 0)
  }

  // The two publications, the second beginning with the number at which the first stopped.
  function Twice<T>(id: string, batches: seq<seq<T>>): seq<SubBatch<T>> {
    Numbers(id, batches, false) + Numbers(id, batches, true)
  }

  lemma InTwice<T>(id: string, batches: seq<seq<T>>, second: bool, i: nat)
    requires i < |batches|
    ensures SubBatch(Numbered(id, (if second then |batches| - 1 else 0) + i), batches[i]) in Twice(id, batches)
  {
    var subs := Numbers(id, batches, second);
    NumberedFromAt(id, batches, if second then |batches| - 1 else 0, i);
    assert subs[i] in subs;
  }

  lemma FromTwice<T>(id: string, batches: seq<seq<T>>, sub: SubBatch<T>) returns (second: bool, i: nat)
    requires sub in Twice(id, batches)
    ensures i < |batches| && sub == SubBatch(Numbered(id, (if second then |batches| - 1 else 0) + i), batches[i])
  {
    second := sub !in Numbers(id, batches, false);
    var first := if second && batches != [] then |batches| - 1 else 0;
    if batches != [] { NumberedFromAt(id, batches, first, 0); }
    i :| 0 <= i < |Numbers(id, batches, second)| && Numbers(id, batches, second)[i] == sub;
    NumberedFromAt(id, batches, first, i);
  }

  // What is counted under a number: one of the at most two batches that were given it.
  lemma CountedAs<T>(id: string, batches: seq<seq<T>>, m: map<string, nat>, j: nat) returns (second: bool, i: nat)
    requires CountsEach(m, Twice(id, batches)) && Numbered(id, j) in m
    ensures i < |batches| && j == (if second then |batches| - 1 else 0) + i && m[Numbered(id, j)] == |batches[i]|
  {
    var sub :| sub in Twice(id, batches) && sub.id == Numbered(id, j) && m[Numbered(id, j)] == |sub.items|;
    second, i := FromTwice(id, batches, sub);
    NumberedInjective(id, j, (if second then |batches| - 1 else 0) + i);
  }

  lemma NumberCounted<T>(id: string, batches: seq<seq<T>>, m: map<string, nat>, second: bool, i: nat, j: nat)
    requires CountsEach(m, Twice(id, batches)) && i < |batches| && j == (if second then |batches| - 1 else 0) + i
    ensures Numbered(id, j) in m
  {
    InTwice(id, batches, second, i);
    assert Named(Twice(id, batches), Numbered(id, j));
  }

  // The first numbers, all but the last batch's, are counted as in one publication.
  lemma FirstNumbers<T>(id: string, batches: seq<seq<T>>, m: map<string, nat>, k: string)
    requires |batches| >= 2 && CountsEach(m, Twice(id, batches))
    requires k in Tally(NumberedFrom(id, batches[..|batches| - 1], 0))
    ensures k in m && m[k] == Tally(NumberedFrom(id, batches[..|batches| - 1], 0))[k]
    ensures exists i: nat :: i < |batches| - 1 && k == Numbered(id, i)
  {
    var i := TalliedAs(id, batches[..|batches| - 1], k);
    NumberCounted(id, batches, m, false, i, i);
    var second, i' := CountedAs(id, batches, m, i);
  }

  lemma TalliedAs<T>(id: string, batches: seq<seq<T>>, k: string) returns (i: nat)
    requires batches != [] && k in Tally(NumberedFrom(id, batches, 0))
    ensures i < |batches| && k == Numbered(id, i) && Tally(NumberedFrom(id, batches, 0))[k] == |batches[i]|
  {
    NumberedDistinct(id, batches);
    i := TalliedAt(NumberedFrom(id, batches, 0), k);
    NumberedFromAt(id, batches, 0, 0);
    NumberedFromAt(id, batches, 0, i);
  }

  lemma TalliedAt<T>(subs: seq<SubBatch<T>>, k: string) returns (i: nat)
    requires NoRepeats(subs) && k in Tally(subs)
    ensures i < |subs| && subs[i].id == k && Tally(subs)[k] == |subs[i].items|
  {
    TallySizes(subs);
    TallyKeys(subs, k);
    var sub :| sub in subs && sub.id == k;
    i :| 0 <= i < |subs| && subs[i] == sub;
  }

  lemma NotAmongFirst<T>(id: string, batches: seq<seq<T>>, m: map<string, nat>, j: nat)
    requires |batches| >= 2 && CountsEach(m, Twice(id, batches)) && j >= |batches| - 1
    ensures Numbered(id, j) !in Tally(NumberedFrom(id, batches[..|batches| - 1], 0))
  {
    var k := Numbered(id, j);
    if k in Tally(NumberedFrom(id, batches[..|batches| - 1], 0)) {
      FirstNumbers(id, batches, m, k);
      var i: nat :| i < |batches| - 1 && k == Numbered(id, i);
      NumberedInjective(id, i, j);
    }
  }

  lemma TwoOf(m: map<string, nat>, k: string, l: string)
    requires k in m && l in m && k != l
    ensures Sum(m) >= m[k] + m[l]
  {
    SumRemove(m, k);
    SumRemove(m - {k}, l);
  }

  // They add up to the items of all batches but the last.
  lemma AllButLast<T>(id: string, batches: seq<seq<T>>, m: map<string, nat>, part: map<string, nat>)
    requires |batches| >= 2 && CountsEach(m, Twice(id, batches))
    requires part == Tally(NumberedFrom(id, batches[..|batches| - 1], 0))
    ensures Sum(m) + |batches[|batches| - 1]| == |Concat(batches)| + Sum(m - part.Keys)
  {
    var init := batches[..|batches| - 1];
    forall k | k in part ensures k in m && m[k] == part[k] { FirstNumbers(id, batches, m, k); }
    SumSplit(part, m);
    NumberedDistinct(id, init);
    TallyTotal(NumberedFrom(id, init, 0));
    ItemTotalNumbered(id, init, 0);
  }

  // Beside them: the number shared by the two publications, and the last one.
  lemma Shared<T>(id: string, batches: seq<seq<T>>, m: map<string, nat>, n: nat) returns (k: string)
    requires |batches| == n + 1 && n > 0 && (forall b :: b in batches ==> b != []) && CountsEach(m, Twice(id, batches))
    ensures k == Numbered(id, n) && k in m && m[k] > 0 && k !in Tally(NumberedFrom(id, batches[..n], 0))
  {
    k := Numbered(id, n);
    NumberCounted(id, batches, m, true, 0, n);
    NotAmongFirst(id, batches, m, n);
    var _, i := CountedAs(id, batches, m, n);
    assert batches[i] in batches;
  }

  lemma LastOfAll<T>(id: string, batches: seq<seq<T>>, m: map<string, nat>, n: nat, j: nat) returns (l: string)
    requires |batches| == n + 1 && n > 0 && j == n + n && CountsEach(m, Twice(id, batches))
    ensures l == Numbered(id, j) && l in m && m[l] == |batches[n]| && l !in Tally(NumberedFrom(id, batches[..n], 0))
  {
    l := Numbered(id, j);
    NumberCounted(id, batches, m, true, n, j);
    NotAmongFirst(id, batches, m, j);
    var _, i := CountedAs(id, batches, m, j);
    assert i == n;
  }

  lemma Parts<T>(id: string, batches: seq<seq<T>>, m: map<string, nat>) returns (part: set<string>, k: string, l: string)
    requires |batches| >= 2 && (forall b :: b in batches ==> b != []) && CountsEach(m, Twice(id, batches))
    ensures k in m && l in m && k != l && k !in part && l !in part && m[k] > 0
    ensures Sum(m) + m[l] == |Concat(batches)| + Sum(m - part)
  {
    var n := |batches| - 1;
    var first := Tally(NumberedFrom(id, batches[..n], 0));
    part := first.Keys;
    AllButLast(id, batches, m, first);
    k := Shared(id, batches, m, n);
    l := LastOfAll(id, batches, m, n, n + n);
    if k == l { NumberedInjective(id, n, n + n); }
  }

  lemma Exceeds(m: map<string, nat>, part: set<string>, k: string, l: string, total: nat)
    requires k in m && l in m && k != l && k !in part && l !in part && m[k] > 0
    requires Sum(m) + m[l] == total + Sum(m - part)
    ensures Sum(m) > total
  {
    TwoOf(m - part, k, l);
  }

  // Two sub-batches or more: at least one item too many is counted.
  lemma SeveralOvercount<T>(id: string, batches: seq<seq<T>>, m: map<string, nat>)
    requires |batches| >= 2 && (forall b :: b in batches ==> b != []) && CountsEach(m, Twice(id, batches))
    ensures Sum(m) > |Concat(batches)|
  {
    var part, k, l := Parts(id, batches, m);
    Exceeds(m, part, k, l, |Concat(batches)|);
  }

  lemma OneCountsRight<T>(id: string, batches: seq<seq<T>>, m: map<string, nat>)
    requires |batches| <= 1 && CountsEach(m, Twice(id, batches))
    ensures Sum(m) == |Concat(batches)|
  {
    forall k | k in m ensures batches != [] && k == Numbered(id, 0) {
      var sub :| sub in Twice(id, batches) && sub.id == k;
      var second, i := FromTwice(id, batches, sub);
    }
    if batches == [] {
      assert m.Keys == {};
    } else {
      NumberCounted(id, batches, m, false, 0, 0);
      var _, i := CountedAs(id, batches, m, 0);
      assert m.Keys == {Numbered(id, 0)};
      SumRemove(m, Numbered(id, 0));
      assert (m - {Numbered(id, 0)}).Keys == {};
      assert batches[..0] == [] && Concat(batches) == Concat(batches[..0]) + batches[0];
    }
  }

  // Sent, not recorded, and sent again by the same batcher: whichever copy of a repeated id counts,
  // the next stage counts the items of the batch if and only if they fit in one sub-batch.
  lemma RetryCountsIff<T>(v: BatcherView<T>, id: string, items: seq<T>, max: nat, sizer: T -> nat, m: map<string, nat>)
    requires Tidy(v) && id != "" && !Continues(v, id) && forall x :: x in items ==> sizer(x) > 0
    requires CountsEach(m, Twice(id, BatchesOf(items, max, sizer)))
    ensures var once := SendBatch(v, id, items, max, sizer);
            SendBatch(once, id, items, max, sizer).published == v.published + Twice(id, BatchesOf(items, max, sizer))
    ensures Sum(m) == |items| <==> |BatchesOf(items, max, sizer)| <= 1
  {
    var batches := BatchesOf(items, max, sizer);
    BatchesComplete(items, max, sizer);
    if |batches| >= 2 { SeveralOvercount(id, batches, m); } else { OneCountsRight(id, batches, m); }
    SentTwice(v, id, items, max, sizer);
  }

  lemma SentTwice<T>(v: BatcherView<T>, id: string, items: seq<T>, max: nat, sizer: T -> nat)
    requires Tidy(v) && id != "" && !Continues(v, id) && forall x :: x in items ==> sizer(x) > 0
    ensures var once := SendBatch(v, id, items, max, sizer);
            SendBatch(once, id, items, max, sizer).published == v.published + Twice(id, BatchesOf(items, max, sizer))
  {
    var once, batches := SendBatch(v, id, items, max, sizer), BatchesOf(items, max, sizer);
    if items == [] {
      NothingToSend(v, id, max, sizer);
      NothingToSend(once, id, max, sizer);
      assert Twice(id, batches) == [];
    } else {
      SendShape(v, id, items, max, sizer, 0);
      SentAgain(once, id, items, max, sizer);
      Text.Regroup(v.published, Numbers(id, batches, false), Numbers(id, batches, true));
    }
  }

  lemma SentAgain<T>(once: BatcherView<T>, id: string, items: seq<T>, max: nat, sizer: T -> nat)
    requires once.held == [] && once.baseID == id && id != "" && items != [] && forall x :: x in items ==> sizer(x) > 0
    requires var batches := BatchesOf(items, max, sizer);
             batches != [] && once.flushed == |batches| - 1 && once.subID == Numbered(id, once.flushed)
    ensures SendBatch(once, id, items, max, sizer).published ==
              once.published + Numbers(id, BatchesOf(items, max, sizer), true)
  {
    SendShape(once, id, items, max, sizer, once.flushed);
  }

  // ---- Results left in the batcher ----

  // Published since v.
  function Since<T>(v: BatcherView<T>, w: BatcherView<T>): seq<SubBatch<T>>
    requires v.published <= w.published
  {
    w.published[|v.published|..]
  }

  // From v on, nothing was lost: what was held and what was added is published or held.
  ghost predicate Conserves<T>(v: BatcherView<T>, w: BatcherView<T>, added: nat, sizer: T -> nat) {
    && v.published <= w.published && ItemTotal(Since(v, w)) + |w.held| == |v.held| + added
    && forall x :: x in w.held ==> sizer(x) > 0
  }

  lemma OneMoreOut<T>(v: BatcherView<T>, w: BatcherView<T>, w': BatcherView<T>, id: string)
    requires v.published <= w.published && w'.published == w.published + [SubBatch(id, w.held)]
    ensures v.published <= w'.published && ItemTotal(Since(v, w')) == ItemTotal(Since(v, w)) + |w.held|
  {
    assert Since(v, w') == Since(v, w) + [SubBatch(id, w.held)];
  }

  lemma {:induction false} AddEachConserves<T>(v: BatcherView<T>, id: string, items: seq<T>, max: nat, sizer: T -> nat)
    requires forall x :: x in v.held || x in items ==> sizer(x) > 0
    ensures Conserves(v, AddEach(v, id, items, max, sizer), |items|, sizer)
  {
    if items == [] {
      assert Since(v, v) == [];
    } else {
      var init, item := items[..|items| - 1], items[|items| - 1];
      assert items == init + [item];
      AddEachConserves(v, id, init, max, sizer);
      var w := SetId(AddEach(v, id, init, max, sizer), id, "");
      if !Fits(w.held, item, max, sizer) { OneMoreOut(v, w, AddTo(w, item, max, sizer), w.subID); }
    }
  }

  // Whatever an earlier error left in the batcher goes out with the next batch, counted for it: the
  // items published under the batch are its own if and only if nothing had been left.
  lemma LeftoversGoOn<T>(v: BatcherView<T>, id: string, items: seq<T>, max: nat, sizer: T -> nat)
    requires forall x :: x in v.held || x in items ==> sizer(x) > 0
    ensures var w := SendBatch(v, id, items, max, sizer);
            && w.held == [] && v.published <= w.published
            && ItemTotal(Since(v, w)) == |v.held| + |items|
            && (ItemTotal(Since(v, w)) == |items| <==> v.held == [])
  {
    var w := AddEach(v, id, items, max, sizer);
    AddEachConserves(v, id, items, max, sizer);
    if w.held == [] {
      assert FlushView(w, sizer) == w;
    } else {
      WeightPositive(w.held, sizer);
      OneMoreOut(v, w, FlushView(w, sizer), w.subID);
    }
  }

  lemma {:induction false} AddEachTwice<T>(v: BatcherView<T>, id: string, a: seq<T>, b: seq<T>, max: nat, sizer: T -> nat)
    ensures AddEach(AddEach(v, id, a, max, sizer), id, b, max, sizer) == AddEach(v, id, a + b, max, sizer)
  {
    if b == [] {
      assert a + b == a;
    } else {
      assert (a + b)[..|a + b| - 1] == a + b[..|b| - 1];
      AddEachTwice(v, id, a, b[..|b| - 1], max, sizer);
    }
  }

  // An item is refused after others have given some results, and the batch comes back and is not
  // refused: what is published in all is what a batch with those results put before its own would be
  // published as. The next stage counts the items of the batch if and only if there were none.
  lemma RefusalCountsIff<T>(v: BatcherView<T>, id: string, some: seq<T>, items: seq<T>, max: nat, sizer: T -> nat)
    requires Tidy(v) && id != "" && !Continues(v, id) && forall x :: x in some + items ==> sizer(x) > 0
    ensures var w := SendBatch(AddEach(v, id, some, max, sizer), id, items, max, sizer);
            var subs := NumberedFrom(id, BatchesOf(some + items, max, sizer), 0);
            && w.published == v.published + subs && Sum(Tally(subs)) == |some| + |items|
            && (Sum(Tally(subs)) == |items| <==> some == [])
  {
    var all := some + items;
    AddEachTwice(v, id, some, items, max, sizer);
    if all == [] { NothingToSend(v, id, max, sizer); } else { ReplayIff(v, id, all, max, sizer); }
    NumberedDistinct(id, BatchesOf(all, max, sizer));
    TallyTotal(NumberedFrom(id, BatchesOf(all, max, sizer), 0));
    ItemTotalNumbered(id, BatchesOf(all, max, sizer), 0);
    BatchesComplete(all, max, sizer);
  }
}
