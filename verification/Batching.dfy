// The weight-bounded batch, the batcher that numbers what it flushes, and their specification.
module Batching {
  import opened Chunks
  import opened Text

  // ---- Specification: a batcher as a value ----

  datatype BatcherView<T> = BatcherView(
    held: seq<T>,
    baseID: string,
    subID: string,
    flushed: nat,
    published: seq<SubBatch<T>>)

  function Numbered(id: string, n: nat): string { id + "-" + Decimal(n) }

  // uuid is what the generator returns when the id is empty.
  function SetId<T>(v: BatcherView<T>, id: string, uuid: string): BatcherView<T> {
    var newID := if id == "" then uuid else id;
    if newID == v.baseID then v
    else v.(baseID := newID, subID := Numbered(newID, 0), flushed := 0)
  }

  function AddTo<T>(v: BatcherView<T>, item: T, max: nat, sizer: T -> nat): BatcherView<T> {
    if Fits(v.held, item, max, sizer) then v.(held := v.held + [item])
    else BatcherView([item], v.baseID, Numbered(v.baseID, v.flushed + 1), v.flushed + 1,
                     v.published + [SubBatch(v.subID, v.held)])
  }

  function FlushView<T>(v: BatcherView<T>, sizer: T -> nat): BatcherView<T> {
    if Weight(v.held, sizer) == 0 then v
    else v.(held := [], published := v.published + [SubBatch(v.subID, v.held)])
  }

  // What a failed publication leaves: the items are gone from the batcher, sent or not, and the
  // number is not used up.
  function Dropped<T>(v: BatcherView<T>, sent: bool): BatcherView<T> {
    v.(held := [], published := v.published + (if sent then [SubBatch(v.subID, v.held)] else []))
  }

  ghost predicate PublishFailed<T>(v: BatcherView<T>, v': BatcherView<T>) {
    v.held != [] && (v' == Dropped(v, true) || v' == Dropped(v, false))
  }

  // Sending the items of one batch: every Add names the batch again.
  function AddEach<T>(v: BatcherView<T>, id: string, items: seq<T>, max: nat, sizer: T -> nat): BatcherView<T> {
    if items == [] then v
    else AddTo(SetId(AddEach(v, id, items[..|items| - 1], max, sizer), id, ""), items[|items| - 1], max, sizer)
  }

  function SendBatch<T>(v: BatcherView<T>, id: string, items: seq<T>, max: nat, sizer: T -> nat): BatcherView<T> {
    FlushView(AddEach(v, id, items, max, sizer), sizer)
  }

  // The batches under consecutive numbers, from first on.
  function NumberedFrom<T>(id: string, batches: seq<seq<T>>, first: nat): seq<SubBatch<T>> {
    if batches == [] then []
    else NumberedFrom(id, batches[..|batches| - 1], first)
         + [SubBatch(Numbered(id, first + |batches| - 1), batches[|batches| - 1])]
  }

  // ---- What a batch id and its items determine ----

  // The view reached when the cut is c: its batches are published, the rest is held.
  ghost function At<T>(id: string, before: seq<SubBatch<T>>, c: Cut<T>, first: nat): BatcherView<T> {
    BatcherView(c.held, id, Numbered(id, first + |c.batches|), first + |c.batches|,
                before + NumberedFrom(id, c.batches, first))
  }

  lemma OneMoreNumbered<T>(id: string, before: seq<SubBatch<T>>, batches: seq<seq<T>>, b: seq<T>, first: nat)
    ensures before + NumberedFrom(id, batches + [b], first) ==
              before + NumberedFrom(id, batches, first) + [SubBatch(Numbered(id, first + |batches|), b)]
  {
    assert (batches + [b])[..|batches|] == batches;
    Regroup(before, NumberedFrom(id, batches, first), [SubBatch(Numbered(id, first + |batches|), b)]);
  }

  lemma AddKeepsShape<T>(id: string, before: seq<SubBatch<T>>, c: Cut<T>, item: T, max: nat, sizer: T -> nat, first: nat)
    ensures AddTo(At(id, before, c, first), item, max, sizer) == At(id, before, AddItem(c, item, max, sizer), first)
  {
    if !Fits(c.held, item, max, sizer) {
      OneMoreNumbered(id, before, c.batches, c.held, first);
    }
  }

  lemma {:induction false} AddEachShape<T>(v: BatcherView<T>, id: string, items: seq<T>, max: nat, sizer: T -> nat,
                                             first: nat)
    requires v.held == [] && id != "" && items != []
    requires var w := SetId(v, id, ""); w.flushed == first && w.subID == Numbered(id, first)
    ensures AddEach(v, id, items, max, sizer) == At(id, v.published, AddAll(items, max, sizer), first)
  {
    var init, item := items[..|items| - 1], items[|items| - 1];
    if init == [] {
      assert AddEach(v, id, init, max, sizer) == v;
      assert SetId(v, id, "") == At(id, v.published, Cut([], []), first) by {
        assert v.published + [] == v.published;
      }
    } else {
      AddEachShape(v, id, init, max, sizer, first);
    }
    AddKeepsShape(id, v.published, AddAll(init, max, sizer), item, max, sizer, first);
  }

  lemma FlushShape<T>(id: string, before: seq<SubBatch<T>>, c: Cut<T>, sizer: T -> nat, first: nat)
    requires Weight(c.held, sizer) > 0
    ensures FlushView(At(id, before, c, first), sizer).published ==
              before + NumberedFrom(id, FlushHeld(c, sizer), first)
  {
    OneMoreNumbered(id, before, c.batches, c.held, first);
  }

  lemma HeldWeighs<T>(items: seq<T>, max: nat, sizer: T -> nat)
    requires items != [] && forall x :: x in items ==> sizer(x) > 0
    ensures Weight(AddAll(items, max, sizer).held, sizer) > 0
  {
    var c := AddAll(items, max, sizer);
    Conservation(items, max, sizer);
    forall x | x in c.held ensures x in items {
      assert x in Concat(c.batches) + c.held;
    }
    WeightPositive(c.held, sizer);
  }

  // Sending publishes the batches cut from the items, numbered from where the batcher stands.
  lemma SendShape<T>(v: BatcherView<T>, id: string, items: seq<T>, max: nat, sizer: T -> nat, first: nat)
    requires v.held == [] && id != "" && items != []
    requires forall x :: x in items ==> sizer(x) > 0
    requires var w := SetId(v, id, ""); w.flushed == first && w.subID == Numbered(id, first)
    ensures var v', batches := SendBatch(v, id, items, max, sizer), BatchesOf(items, max, sizer);
            && v'.held == [] && v'.baseID == id && batches != []
            && v'.flushed == first + |batches| - 1 && v'.subID == Numbered(id, v'.flushed)
            && v'.published == v.published + NumberedFrom(id, batches, first)
  {
    var c := AddAll(items, max, sizer);
    AddEachShape(v, id, items, max, sizer, first);
    HeldWeighs(items, max, sizer);
    FlushShape(id, v.published, c, sizer, first);
  }

  // On any replica whose batcher holds nothing and last worked on another batch, the same id and
  // items publish the same sub-batches.
  lemma DeterministicReplay<T>(v: BatcherView<T>, id: string, items: seq<T>, max: nat, sizer: T -> nat)
    requires v.held == [] && v.baseID != id && id != ""
    requires forall x :: x in items ==> sizer(x) > 0
    ensures SendBatch(v, id, items, max, sizer).published ==
              v.published + NumberedFrom(id, BatchesOf(items, max, sizer), 0)
    ensures SendBatch(v, id, items, max, sizer).held == []
  {
    if items != [] {
      SendShape(v, id, items, max, sizer, 0);
    } else {
      assert BatchesOf(items, max, sizer) == [];
      assert v.published + [] == v.published;
    }
  }

  lemma {:induction false} NumberedFromAt<T>(id: string, batches: seq<seq<T>>, first: nat, i: nat)
    requires i < |batches|
    ensures |NumberedFrom(id, batches, first)| == |batches|
    ensures NumberedFrom(id, batches, first)[i] == SubBatch(Numbered(id, first + i), batches[i])
  {
    if i < |batches| - 1 {
      NumberedFromAt(id, batches[..|batches| - 1], first, i);
    } else if |batches| > 1 {
      NumberedFromAt(id, batches[..|batches| - 1], first, 0);
    }
  }

  lemma NumberedInjective(id: string, m: nat, n: nat)
    requires Numbered(id, m) == Numbered(id, n)
    ensures m == n
  {
    assert Decimal(m) == Numbered(id, m)[|id| + 1..] == Numbered(id, n)[|id| + 1..] == Decimal(n);
    DecimalInjective(m, n);
  }

  // Sending a batch again through the same batcher, with no other batch in between, repeats the
  // first publication exactly when the batch fits in one sub-batch: the number is not reset.
  lemma ImmediateReplay<T>(v: BatcherView<T>, id: string, items: seq<T>, max: nat, sizer: T -> nat)
    requires v.held == [] && v.baseID != id && id != ""
    requires forall x :: x in items ==> sizer(x) > 0
    ensures var once := SendBatch(v, id, items, max, sizer);
            var again := SendBatch(once.(published := v.published), id, items, max, sizer);
            again.published == once.published <==> |BatchesOf(items, max, sizer)| <= 1
  {
    var batches := BatchesOf(items, max, sizer);
    if items == [] {
      assert batches == [];
    } else {
      SendShape(v, id, items, max, sizer, 0);
      var once := SendBatch(v, id, items, max, sizer);
      SendShape(once.(published := v.published), id, items, max, sizer, |batches| - 1);
      var again := SendBatch(once.(published := v.published), id, items, max, sizer);
      NumberedFromAt(id, batches, 0, 0);
      NumberedFromAt(id, batches, |batches| - 1, 0);
      assert once.published[|v.published|] == NumberedFrom(id, batches, 0)[0];
      assert again.published[|v.published|] == NumberedFrom(id, batches, |batches| - 1)[0];
      if again.published == once.published {
        NumberedInjective(id, |batches| - 1, 0);
      }
    }
  }

  // Everything is flushed, and the next number belongs to the id last worked on.
  ghost predicate Tidy<T>(v: BatcherView<T>) {
    v.held == [] && if v.baseID == "" then v.flushed == 0 else v.subID == Numbered(v.baseID, v.flushed)
  }

  // The batcher would go on with the numbers of the id instead of starting anew.
  ghost predicate Continues<T>(v: BatcherView<T>, id: string) { v.baseID == id && v.flushed > 0 }

  // Whatever was sent before: the sub-batches are those that the id and the items determine if and
  // only if the batcher does not continue the id, and it is left to continue it when there are several.
  lemma ReplayIff<T>(v: BatcherView<T>, id: string, items: seq<T>, max: nat, sizer: T -> nat)
    requires Tidy(v) && id != "" && items != []
    requires forall x :: x in items ==> sizer(x) > 0
    ensures var v', batches := SendBatch(v, id, items, max, sizer), BatchesOf(items, max, sizer);
            && Tidy(v') && v'.baseID == id
            && (v'.published == v.published + NumberedFrom(id, batches, 0) <==> !Continues(v, id))
            && (Continues(v', id) <==> |batches| > 1 || Continues(v, id))
  {
    var first := if v.baseID == id then v.flushed else 0;
    var batches := BatchesOf(items, max, sizer);
    SendShape(v, id, items, max, sizer, first);
    var v' := SendBatch(v, id, items, max, sizer);
    if v'.published == v.published + NumberedFrom(id, batches, 0) {
      NumberedFromAt(id, batches, 0, 0);
      NumberedFromAt(id, batches, first, 0);
      assert v'.published[|v.published|] == NumberedFrom(id, batches, first)[0] == NumberedFrom(id, batches, 0)[0];
      NumberedInjective(id, first, 0);
    }
  }

  lemma NothingToSend<T>(v: BatcherView<T>, id: string, max: nat, sizer: T -> nat)
    requires v.held == []
    ensures SendBatch(v, id, [], max, sizer) == v && BatchesOf([], max, sizer) == []
    ensures v.published + NumberedFrom(id, BatchesOf([], max, sizer), 0) == v.published
  {
    assert NumberedFrom<T>(id, [], 0) == [];
  }

  lemma {:induction false} NumberedPrefix<T>(id: string, some: seq<seq<T>>, all: seq<seq<T>>, first: nat)
    requires some <= all
    ensures |NumberedFrom(id, all, first)| == |all| && NumberedFrom(id, some, first) == NumberedFrom(id, all, first)[..|some|]
    decreases |all|
  {
    if some == all {
      if all != [] { NumberedFromAt(id, all, first, 0); }
      assert NumberedFrom(id, all, first)[..|all|] == NumberedFrom(id, all, first);
    } else {
      assert some <= all[..|all| - 1];
      NumberedPrefix(id, some, all[..|all| - 1], first);
    }
  }

  // ---- The classes ----

  // What a flushed batch is wrapped into: the batch's own memory, not a copy of it.
  datatype Slice<T> = Slice(buf: array<T>, len: nat)

  const DEFAULT_BATCH_SIZE := 8192

  lemma WeightOneMore<T>(held: seq<T>, item: T, sizer: T -> nat)
    ensures Weight(held + [item], sizer) == Weight(held, sizer) + sizer(item)
  {
    assert (held + [item])[..|held|] == held;
  }

  class Batch<T> {
    var baseID: string
    var subID: string
    const maxWeight: nat
    var currentWeight: nat
    var buf: array<T>
    var len: nat
    const sizer: T -> nat

    ghost predicate Valid()
      reads this, buf
    {
      len <= buf.Length && currentWeight == Weight(Items(), sizer)
    }

    // The part of the memory that is in use.
    ghost function Items(): seq<T>
      reads this, buf
      requires len <= buf.Length
    {
      buf[..len]
    }

    ghost function Held(): (held: seq<T>)
      reads this, buf
      requires Valid()
      ensures Weight(held, sizer) == currentWeight && |held| == len
    {
      Items()
    }

    constructor (maxWeight: int, sizer: T -> nat)
      ensures Valid() && fresh(buf) && Held() == [] && baseID == "" && subID == ""
      ensures this.maxWeight == (if maxWeight <= 0 then 8192 else maxWeight)
      ensures this.sizer == sizer
    {
      this.baseID, this.subID := "", "";
      this.maxWeight := if maxWeight <= 0 then DEFAULT_BATCH_SIZE else maxWeight;
      this.currentWeight, this.len := 0, 0;
      this.buf := new T[0];
      this.sizer := sizer;
    }

    // append: in place while there is room, else into a larger array.
    method Append(item: T)
      requires len <= buf.Length
      modifies this`buf, this`len, buf
      ensures len == old(len) + 1 <= buf.Length && Items() == old(Items()) + [item]
      ensures buf == old(buf) || fresh(buf)
    {
      if len == buf.Length {
        var bigger := new T[2 * len + 1](_ => item);
        forall i | 0 <= i < len { bigger[i] := buf[i]; }
        buf := bigger;
      }
      buf[len] := item;
      len := len + 1;
    }

    method TryAdd(item: T) returns (ok: bool)
      requires Valid()
      modifies this`buf, this`len, this`currentWeight, buf
      ensures Valid() && (buf == old(buf) || fresh(buf))
      ensures ok <==> old(len) == 0 || old(currentWeight) + sizer(item) <= maxWeight
      ensures ok == Fits(old(Held()), item, maxWeight, sizer)
      ensures Held() == if ok then old(Held()) + [item] else old(Held())
    {
      var w := sizer(item);
      if currentWeight + w > maxWeight && len > 0 {
        return false;
      }
      Take(item, w);
      return true;
    }

    method Take(item: T, w: nat)
      requires Valid() && w == sizer(item)
      modifies this`buf, this`len, this`currentWeight, buf
      ensures Valid() && (buf == old(buf) || fresh(buf)) && Held() == old(Held()) + [item]
    {
      WeightOneMore(Held(), item, sizer);
      Append(item);
      currentWeight := currentWeight + w;
    }

    // The result shares the batch's memory; the batch only forgets how much of it is in use.
    method Flush() returns (result: Slice<T>)
      requires Valid()
      modifies this`len, this`currentWeight
      ensures Valid() && Held() == []
      ensures result == Slice(buf, old(len)) && result.buf[..result.len] == old(Held())
    {
      result := Slice(buf, len);
      len, currentWeight := 0, 0;
      assert buf[..0] == [];
    }

    method IsEmpty() returns (empty: bool)
      requires Valid()
      ensures empty <==> Weight(Held(), sizer) == 0
    {
      empty := currentWeight == 0;
    }
  }

  class Batcher<T> {
    const batch: Batch<T>
    var batchFlushed: nat
    // What onFlush was called with, read at the time of the call.
    var published: seq<SubBatch<T>>
    ghost var Repr: set<object>

    ghost predicate Valid()
      reads this, Repr
      ensures Valid() ==> this in Repr
    {
      && this in Repr && batch in Repr
      && Repr == {this, batch, batch.buf} && batch.Valid()
    }

    ghost function View(): BatcherView<T>
      reads this, Repr
      requires Valid()
    {
      BatcherView(batch.Held(), batch.baseID, batch.subID, batchFlushed, published)
    }

    constructor (b: Batch<T>)
      requires b.Valid()
      ensures Valid() && Repr == {this, b, b.buf} && batch == b
      ensures View() == BatcherView(b.Held(), b.baseID, b.subID, 0, [])
    {
      batch := b;
      batchFlushed := 0;
      published := [];
      Repr := {this, b, b.buf};
    }

    method SetNewBatchId(batchID: string, uuid: string)
      requires Valid()
      modifies Repr
      ensures Valid() && Repr == old(Repr)
      ensures View().baseID == (if batchID == "" then uuid else batchID)
      ensures View() == SetId(old(View()), batchID, uuid)
    {
      var newID := if batchID == "" then uuid else batchID;
      if newID == batch.baseID { return; }
      batch.baseID := newID;
      batch.subID := newID + "-0";
      batchFlushed := 0;
      assert Decimal(0) == "0" && newID + "-" + "0" == newID + "-0";
    }

    // The callback: it sees whatever the shared memory holds now. It may fail, after sending or not.
    method OnFlush(result: Slice<T>, id: string) returns (ok: bool)
      requires result.len <= result.buf.Length
      modifies this`published
      ensures published == old(published) + [SubBatch(id, result.buf[..result.len])] || (!ok && published == old(published))
    {
      var sent: bool := *;
      if sent {
        published := published + [SubBatch(id, result.buf[..result.len])];
      }
      var failed: bool := *;
      ok := sent && !failed;
    }

    // Fails only when the callback does; the error "item exceeds max batch size" never happens.
    method Add(item: T) returns (ok: bool)
      requires Valid()
      modifies Repr
      ensures Valid() && fresh(Repr - old(Repr))
      ensures ok ==> View() == AddTo(old(View()), item, batch.maxWeight, batch.sizer)
      ensures !ok ==> !Fits(old(View()).held, item, batch.maxWeight, batch.sizer) && PublishFailed(old(View()), View())
    {
      var added := batch.TryAdd(item);
      if !added {
        added := FlushThenAdd(item);
      }
      Repr := {this, batch, batch.buf};
      return added;
    }

    method FlushThenAdd(item: T) returns (added: bool)
      requires batch.Valid()
      modifies this`published, this`batchFlushed, batch, batch.buf
      ensures batch.Valid() && (batch.buf == old(batch.buf) || fresh(batch.buf)) && batch.baseID == old(batch.baseID)
      ensures var out := old(published) + [SubBatch(old(batch.subID), old(batch.Held()))];
              published == out || (!added && published == old(published))
      ensures added ==> batch.Held() == [item] && batchFlushed == old(batchFlushed) + 1
                        && batch.subID == Numbered(batch.baseID, batchFlushed)
      ensures !added ==> batch.Held() == [] && batchFlushed == old(batchFlushed) && batch.subID == old(batch.subID)
    {
      added := HandOver();
      if !added { return; }
      added := batch.TryAdd(item);
      if !added { return; }
      batchFlushed := batchFlushed + 1;
      batch.subID := batch.baseID + "-" + Decimal(batchFlushed);
    }

    method Flush() returns (ok: bool)
      requires Valid()
      modifies Repr
      ensures Valid() && Repr == old(Repr)
      ensures ok ==> View() == FlushView(old(View()), batch.sizer)
      ensures !ok ==> Weight(old(View()).held, batch.sizer) > 0 && PublishFailed(old(View()), View())
    {
      var empty := batch.IsEmpty();
      if empty { return true; }
      ok := HandOver();
    }

    // The batch is emptied, and what it held goes to the callback.
    method HandOver() returns (ok: bool)
      requires batch.Valid()
      modifies this`published, batch`len, batch`currentWeight
      ensures batch.Valid() && batch.Held() == []
      ensures published == old(published) + [SubBatch(batch.subID, old(batch.Held()))] || (!ok && published == old(published))
    {
      var result := batch.Flush();
      ok := OnFlush(result, batch.subID);
    }
  }
}
