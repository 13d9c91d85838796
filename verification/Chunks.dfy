// What a weight-bounded batcher makes of a list of items: the batches it cuts and what it
// still holds. The class Batching.Batcher is proved to cut the same way.
module Chunks {

  // A published batch: its id and the items in it.
  datatype SubBatch<T> = SubBatch(id: string, items: seq<T>)

  function Weight<T>(items: seq<T>, sizer: T -> nat): nat {
    if items == [] then 0
    else Weight(items[..|items| - 1], sizer) + sizer(items[|items| - 1])
  }

  // An item that is too heavy on its own still enters an empty batch.
  predicate Fits<T>(held: seq<T>, item: T, max: nat, sizer: T -> nat) {
    held == [] || Weight(held, sizer) + sizer(item) <= max
  }

  datatype Cut<T> = Cut(batches: seq<seq<T>>, held: seq<T>)

  function AddItem<T>(c: Cut<T>, item: T, max: nat, sizer: T -> nat): Cut<T> {
    if Fits(c.held, item, max, sizer) then Cut(c.batches, c.held + [item])
    else Cut(c.batches + [c.held], [item])
  }

  // Adding the items one by one to an empty batcher.
  function AddAll<T>(items: seq<T>, max: nat, sizer: T -> nat): Cut<T> {
    if items == [] then Cut([], [])
    else AddItem(AddAll(items[..|items| - 1], max, sizer), items[|items| - 1], max, sizer)
  }

  // A final flush sends what is held, unless its weight is zero.
  function FlushHeld<T>(c: Cut<T>, sizer: T -> nat): seq<seq<T>> {
    if Weight(c.held, sizer) == 0 then c.batches else c.batches + [c.held]
  }

  // All the batches sent for the items: those cut while adding, then the final flush.
  function BatchesOf<T>(items: seq<T>, max: nat, sizer: T -> nat): seq<seq<T>> {
    FlushHeld(AddAll(items, max, sizer), sizer)
  }

  // What has been cut stays.
  lemma {:induction false} CutGrows<T>(items: seq<T>, i: nat, max: nat, sizer: T -> nat)
    requires i <= |items|
    ensures AddAll(items[..i], max, sizer).batches <= BatchesOf(items, max, sizer)
    decreases |items| - i
  {
    if i == |items| {
      assert items[..i] == items;
    } else {
      CutGrows(items, i + 1, max, sizer);
      assert items[..i + 1][..i] == items[..i];
    }
  }

  function Concat<T>(batches: seq<seq<T>>): seq<T> {
    if batches == [] then []
    else Concat(batches[..|batches| - 1]) + batches[|batches| - 1]
  }

  ghost predicate Bounded<T>(b: seq<T>, max: nat, sizer: T -> nat) {
    |b| == 1 || (b != [] && Weight(b, sizer) <= max)
  }

  lemma {:induction false} Conservation<T>(items: seq<T>, max: nat, sizer: T -> nat)
    ensures var c := AddAll(items, max, sizer);
            && Concat(c.batches) + c.held == items
            && (forall i :: 0 <= i < |c.batches| ==> Bounded(c.batches[i], max, sizer))
            && (items == [] <==> c.held == [])
            && (items != [] ==> Bounded(c.held, max, sizer))
  {
    if items != [] {
      var init, item := items[..|items| - 1], items[|items| - 1];
      var c := AddAll(init, max, sizer);
      var c' := AddAll(items, max, sizer);
      Conservation(init, max, sizer);
      assert items == init + [item];
      if Fits(c.held, item, max, sizer) {
        assert (c.held + [item])[..|c.held|] == c.held;
        assert Concat(c'.batches) + c'.held == (Concat(c.batches) + c.held) + [item];
      } else {
        assert c'.batches[..|c.batches|] == c.batches;
      }
    }
  }

  // The first item of the next batch would not have fitted.
  ghost predicate IsFull<T>(batches: seq<seq<T>>, i: nat, max: nat, sizer: T -> nat)
    requires i + 1 < |batches|
  {
    batches[i + 1] != [] && Weight(batches[i], sizer) + sizer(batches[i + 1][0]) > max
  }

  ghost predicate AllFull<T>(batches: seq<seq<T>>, max: nat, sizer: T -> nat) {
    forall i: nat | i + 1 < |batches| :: IsFull(batches, i, max, sizer)
  }

  // A batch is cut only when the next item would not fit.
  lemma {:induction false} CutWhenFull<T>(items: seq<T>, max: nat, sizer: T -> nat)
    ensures var c := AddAll(items, max, sizer); AllFull(c.batches + [c.held], max, sizer)
  {
    if items == [] {
      assert AddAll(items, max, sizer) == Cut([], []);
    } else {
      var init, item := items[..|items| - 1], items[|items| - 1];
      CutWhenFull(init, max, sizer);
      OneMoreFull(AddAll(init, max, sizer), item, max, sizer);
    }
  }

  lemma OneMoreFull<T>(c: Cut<T>, item: T, max: nat, sizer: T -> nat)
    requires AllFull(c.batches + [c.held], max, sizer)
    ensures var c' := AddItem(c, item, max, sizer); AllFull(c'.batches + [c'.held], max, sizer)
  {
    var c', all := AddItem(c, item, max, sizer), c.batches + [c.held];
    var all' := c'.batches + [c'.held];
    forall i: nat | i + 1 < |all'| ensures IsFull(all', i, max, sizer) {
      if i + 1 < |all| { assert IsFull(all, i, max, sizer); }
    }
  }

  // So it is for the batches sent.
  lemma SentWhenFull<T>(items: seq<T>, max: nat, sizer: T -> nat)
    ensures AllFull(BatchesOf(items, max, sizer), max, sizer)
  {
    CutWhenFull(items, max, sizer);
    var c, sent := AddAll(items, max, sizer), BatchesOf(items, max, sizer);
    forall i: nat | i + 1 < |sent| ensures IsFull(sent, i, max, sizer) {
      assert IsFull(c.batches + [c.held], i, max, sizer);
    }
  }

  lemma {:induction false} WeightPositive<T>(items: seq<T>, sizer: T -> nat)
    requires items != []
    requires forall x :: x in items ==> sizer(x) > 0
    ensures Weight(items, sizer) > 0
  {
    assert items[|items| - 1] in items;
  }

  // With positive weights nothing is left behind by the final flush.
  lemma BatchesComplete<T>(items: seq<T>, max: nat, sizer: T -> nat)
    requires forall x :: x in items ==> sizer(x) > 0
    ensures Concat(BatchesOf(items, max, sizer)) == items
    ensures forall b :: b in BatchesOf(items, max, sizer) ==> Bounded(b, max, sizer)
  {
    Conservation(items, max, sizer);
    var c := AddAll(items, max, sizer);
    if items != [] {
      forall x | x in c.held ensures x in items {
        assert x in Concat(c.batches) + c.held;
      }
      WeightPositive(c.held, sizer);
      assert (c.batches + [c.held])[..|c.batches|] == c.batches;
    }
  }

  lemma {:induction false} ConcatMember<T>(batches: seq<seq<T>>, x: T)
    ensures x in Concat(batches) <==> exists b :: b in batches && x in b
  {
    if batches != [] {
      var init, last := batches[..|batches| - 1], batches[|batches| - 1];
      ConcatMember(init, x);
      assert batches == init + [last];
    }
  }

  // Whatever the weights, batches hold only items that were added.
  lemma BatchesSound<T>(items: seq<T>, max: nat, sizer: T -> nat)
    ensures forall b, x :: b in BatchesOf(items, max, sizer) && x in b ==> x in items
  {
    Conservation(items, max, sizer);
    var c := AddAll(items, max, sizer);
    forall b, x | b in BatchesOf(items, max, sizer) && x in b ensures x in items {
      ConcatMember(c.batches, x);
      assert x in Concat(c.batches) + c.held;
    }
  }
}
