// The senders keep one batcher per client (and per route) and derive every published id from
// the id of the batch being handled.
module Senders {
  import opened Batching
  import Chunks
  import opened Text

  // ---- Ids ----

  function NamespacedID(id: string, namespace: string): string { id + "-" + namespace }

  // The id under which the i-th sub-batch of a parent batch is published.
  function PublishedID(parent: string, namespace: string, i: nat): string {
    Numbered(NamespacedID(parent, namespace), i)
  }

  // The parent's id, the namespace and the digits of the number, with dashes between them.
  lemma PublishedLooksLike(parent: string, namespace: string, i: nat) returns (number: string)
    ensures PublishedID(parent, namespace, i) == parent + "-" + namespace + "-" + number
    ensures number != "" && AllDigits(number) && Value(number) == i && (|number| > 1 ==> number[0] != '0')
  {
    number := Decimal(i);
    DecimalRoundTrip(i);
    if i > 0 { NoLeadingZero(i); }
  }

  lemma {:induction false} NoLeadingZero(n: nat)
    requires n > 0
    ensures Decimal(n)[0] != '0'
  {
    if n >= 10 { NoLeadingZero(n / 10); }
  }

  lemma NumberedSplits(a: string, i: nat, b: string, j: nat)
    requires Numbered(a, i) == Numbered(b, j)
    ensures a == b && i == j
  {
    DecimalFree(i, '-');
    DecimalFree(j, '-');
    LastSeparator('-', a, Decimal(i), b, Decimal(j));
    NumberedInjective(a, i, j);
  }

  // Distinct (parent, index) pairs are published under distinct ids, whatever characters the
  // parent id has.
  lemma LineageInjective(namespace: string, p: string, i: nat, q: string, j: nat)
    ensures PublishedID(p, namespace, i) == PublishedID(q, namespace, j) <==> p == q && i == j
  {
    if PublishedID(p, namespace, i) == PublishedID(q, namespace, j) {
      NumberedSplits(NamespacedID(p, namespace), i, NamespacedID(q, namespace), j);
      assert |p| == |q|;
      assert p == NamespacedID(p, namespace)[..|p|] && q == NamespacedID(q, namespace)[..|q|];
    }
  }

  // ---- One item, one flush, and what an error leaves ----

  // The item was taken, or the full batch it had to make room for could not be published.
  ghost predicate Took<T>(v: BatcherView<T>, item: T, max: nat, sizer: T -> nat, v': BatcherView<T>, ok: bool) {
    if ok then v' == AddTo(v, item, max, sizer) else !Chunks.Fits(v.held, item, max, sizer) && PublishFailed(v, v')
  }

  ghost predicate Emptied<T>(v: BatcherView<T>, sizer: T -> nat, v': BatcherView<T>, ok: bool) {
    if ok then v' == FlushView(v, sizer) else Chunks.Weight(v.held, sizer) > 0 && PublishFailed(v, v')
  }

  function FlushedIf<T>(yes: bool, v: BatcherView<T>, sizer: T -> nat): BatcherView<T> {
    if yes then FlushView(v, sizer) else v
  }

  // An error stopped the sending: when the item at position k was added, or in the final flush.
  ghost predicate StoppedAt<T>(v: BatcherView<T>, id: string, items: seq<T>, max: nat, sizer: T -> nat,
                               v': BatcherView<T>, k: nat)
  {
    && k <= |items|
    && var w := AddEach(v, id, items[..k], max, sizer);
       if k < |items| then Took(SetId(w, id, ""), items[k], max, sizer, v', false) else Emptied(w, sizer, v', false)
  }

  // All items were sent, or an error stopped the sending somewhere.
  ghost predicate SentAll<T>(v: BatcherView<T>, id: string, items: seq<T>, max: nat, sizer: T -> nat,
                             v': BatcherView<T>, ok: bool)
  {
    if ok then v' == SendBatch(v, id, items, max, sizer) else exists k :: StoppedAt(v, id, items, max, sizer, v', k)
  }

  // The batches that the error found cut, and the one that it stopped, begin the batches of the items.
  lemma StoppedCut<T>(items: seq<T>, max: nat, sizer: T -> nat, k: nat)
    requires k <= |items|
    requires var c := Chunks.AddAll(items[..k], max, sizer);
             if k < |items| then !Chunks.Fits(c.held, items[k], max, sizer) else Chunks.Weight(c.held, sizer) > 0
    ensures var c := Chunks.AddAll(items[..k], max, sizer);
            c.batches + [c.held] <= Chunks.BatchesOf(items, max, sizer)
  {
    if k < |items| {
      Chunks.CutGrows(items, k + 1, max, sizer);
      assert items[..k + 1][..k] == items[..k];
    } else {
      assert items[..k] == items;
    }
  }

  // From a batcher that holds nothing and does not go on with the id: n sub-batches are out, which
  // are the first of those that the id and the items determine.
  lemma StoppedPublishes<T>(v: BatcherView<T>, id: string, items: seq<T>, max: nat, sizer: T -> nat,
                            v': BatcherView<T>, k: nat) returns (n: nat)
    requires Tidy(v) && id != "" && !Continues(v, id) && StoppedAt(v, id, items, max, sizer, v', k)
    ensures var all := NumberedFrom(id, Chunks.BatchesOf(items, max, sizer), 0);
            && v'.flushed <= n <= v'.flushed + 1 <= |all| && v'.published == v.published + all[..n]
    ensures Tidy(v') && v'.baseID == id
  {
    StoppedLater(v, id, items, max, sizer, v', k);
    AddEachShape(v, id, items[..k], max, sizer, 0);
    n := StoppedFrom(v, id, items, max, sizer, v', k);
  }

  lemma StoppedLater<T>(v: BatcherView<T>, id: string, items: seq<T>, max: nat, sizer: T -> nat, v': BatcherView<T>,
                        k: nat)
    requires v.held == [] && StoppedAt(v, id, items, max, sizer, v', k)
    ensures k > 0
  {
    assert AddEach(v, id, items[..0], max, sizer) == v;
  }

  lemma StoppedFrom<T>(v: BatcherView<T>, id: string, items: seq<T>, max: nat, sizer: T -> nat, v': BatcherView<T>,
                       k: nat) returns (n: nat)
    requires id != "" && StoppedAt(v, id, items, max, sizer, v', k)
    requires AddEach(v, id, items[..k], max, sizer) == At(id, v.published, Chunks.AddAll(items[..k], max, sizer), 0)
    ensures var all := NumberedFrom(id, Chunks.BatchesOf(items, max, sizer), 0);
            && v'.flushed <= n <= v'.flushed + 1 <= |all| && v'.published == v.published + all[..n]
    ensures Tidy(v') && v'.baseID == id
  {
    var c, batches := Chunks.AddAll(items[..k], max, sizer), Chunks.BatchesOf(items, max, sizer);
    var w := At(id, v.published, c, 0);
    assert SetId(w, id, "") == w && PublishFailed(w, v');
    StoppedCut(items, max, sizer, k);
    NumberedPrefix(id, c.batches, batches, 0);
    NumberedPrefix(id, c.batches + [c.held], batches, 0);
    OneMoreNumbered(id, v.published, c.batches, c.held, 0);
    n := |c.batches| + if v' == Dropped(w, true) then 1 else 0;
  }

  // ---- A table of batchers ----

  // What all the batchers hold, key by key.
  type Views<T> = imap<string, BatcherView<T>>

  function NewBatcher<T>(): BatcherView<T> { BatcherView([], "", "", 0, []) }

  class BatcherTable<T> {
    const maxWeight: int
    const sizer: T -> nat
    var batchers: map<string, Batcher<T>>
    ghost var Repr: set<object>

    ghost predicate Owns(key: string)
      reads this, Repr
    {
      && key in batchers
      && batchers[key] in Repr && batchers[key].Repr <= Repr && this !in batchers[key].Repr
      && batchers[key].Valid()
      && batchers[key].batch.sizer == sizer && batchers[key].batch.maxWeight == Max()
    }

    ghost predicate Valid()
      reads this, Repr
      ensures Valid() ==> this in Repr
    {
      && this in Repr
      && (forall key :: key in batchers ==> Owns(key))
      && forall k, l :: k in batchers && l in batchers && k != l ==> batchers[k].Repr !! batchers[l].Repr
    }

    function Max(): nat { if maxWeight <= 0 then DEFAULT_BATCH_SIZE else maxWeight }

    // A key without a batcher is as good as a new one.
    ghost function View(key: string): BatcherView<T>
      reads this, Repr
      requires Valid()
    {
      if key in batchers then (assert Owns(key); batchers[key].View()) else NewBatcher()
    }

    ghost function Views(): (views: Views<T>)
      reads this, Repr
      requires Valid()
      ensures forall k :: k in views && views[k] == View(k)
    {
      imap k: string | true :: View(k)
    }

    // Only the view of one key has changed.
    twostate lemma OnlyOneView(key: string)
      requires old(Valid()) && Valid() && forall k :: k != key ==> View(k) == old(View(k))
      ensures Views() == old(Views())[key := View(key)]
    {
    }

    constructor (maxWeight: int, sizer: T -> nat)
      ensures Valid() && fresh(Repr) && batchers == map[]
      ensures this.maxWeight == maxWeight && this.sizer == sizer
    {
      this.maxWeight, this.sizer := maxWeight, sizer;
      batchers := map[];
      Repr := {this};
    }

    method GetOrCreate(key: string) returns (batcher: Batcher<T>)
      requires Valid()
      modifies this
      ensures Valid() && fresh(Repr - old(Repr))
      ensures key in batchers && batchers[key] == batcher
      ensures batchers.Keys == old(batchers.Keys) + {key}
      ensures forall k :: View(k) == old(View(k))
      ensures forall k :: k in old(batchers) ==> batchers[k] == old(batchers[k])
    {
      if key in batchers {
        return batchers[key];
      }
      var newBatch := new Batch<T>(maxWeight, sizer);
      batcher := new Batcher<T>(newBatch);
      batchers := batchers[key := batcher];
      Repr := Repr + batcher.Repr;
      Registered(key, batcher);
    }

    // A new batcher changes no view.
    twostate lemma Registered(key: string, new batcher: Batcher<T>)
      requires old(Valid()) && key !in old(batchers) && batchers == old(batchers)[key := batcher]
      requires batcher.Valid() && fresh(batcher.Repr) && Repr == old(Repr) + batcher.Repr
      requires batcher.batch.sizer == sizer && batcher.batch.maxWeight == Max() && batcher.View() == NewBatcher()
      requires forall o: object :: o in old(Repr) && o != this ==> unchanged(o)
      ensures Valid() && forall k :: View(k) == old(View(k))
    {
      forall k | k in old(batchers)
        ensures Owns(k) && batchers[k] == old(batchers[k]) && batchers[k].Repr == old(batchers[k].Repr)
        ensures batchers[k].View() == old(batchers[k].View())
      {
        assert old(Owns(k));
        assert forall o: object :: o in old(batchers[k].Repr) ==> unchanged(o);
      }
      assert Owns(key);
    }

    method Add(key: string, item: T, batchID: string) returns (ok: bool)
      requires Valid() && batchID != ""
      modifies Repr
      ensures Valid() && fresh(Repr - old(Repr))
      ensures batchers.Keys == old(batchers.Keys) + {key}
      ensures Took(SetId(old(View(key)), batchID, ""), item, Max(), sizer, View(key), ok)
      ensures forall k :: k != key ==> View(k) == old(View(k))
    {
      var batcher := GetOrCreate(key);
      label had:
      assert Owns(key);
      batcher.SetNewBatchId(batchID, "");
      ok := batcher.Add(item);
      Repr := Repr + batcher.Repr;
      Undisturbed@had(key);
    }

    // Work inside one batcher leaves all the others as they were.
    twostate lemma Undisturbed(key: string)
      requires old(Valid()) && batchers == old(batchers) && key in batchers
      requires Repr == old(Repr) + batchers[key].Repr
      requires batchers[key].Valid() && fresh(batchers[key].Repr - old(batchers[key].Repr))
      requires batchers[key].batch == old(batchers[key].batch)
      requires forall o: object :: o in old(Repr) && o != this && o !in old(batchers[key].Repr) ==> unchanged(o)
      ensures Valid() && forall k :: k != key ==> View(k) == old(View(k))
    {
      assert old(Owns(key));
      forall k | k in batchers && k != key
        ensures Owns(k) && batchers[k].Repr == old(batchers[k].Repr) && batchers[k].View() == old(batchers[k].View())
      {
        assert old(Owns(k));
        assert forall o: object :: o in old(batchers[k].Repr) ==> unchanged(o);
      }
      assert Owns(key);
    }

    method Flush(key: string) returns (ok: bool)
      requires Valid() && key in batchers
      modifies Repr
      ensures Valid() && Repr == old(Repr) && batchers == old(batchers)
      ensures Emptied(old(View(key)), sizer, View(key), ok)
      ensures forall k :: k != key ==> View(k) == old(View(k))
    {
      assert Owns(key);
      ok := batchers[key].Flush();
      Undisturbed(key);
    }
  }

  // ---- SingleSender: one batcher per client ----

  class SingleSender<T> {
    const namespace: string
    const table: BatcherTable<T>

    constructor (maxWeight: int, sizer: T -> nat, namespace: string)
      ensures table.Valid() && fresh(table.Repr) && table.batchers == map[] && this.namespace == namespace
      ensures table.maxWeight == maxWeight && table.sizer == sizer
    {
      this.namespace := namespace;
      table := new BatcherTable<T>(maxWeight, sizer);
    }

    method Add(clientID: string, item: T, batchID: string) returns (ok: bool)
      requires table.Valid()
      modifies table.Repr
      ensures table.Valid() && fresh(table.Repr - old(table.Repr))
      ensures Took(SetId(old(table.View(clientID)), NamespacedID(batchID, namespace), ""), item, table.Max(), table.sizer,
                   table.View(clientID), ok)
      ensures forall c :: c != clientID ==> table.View(c) == old(table.View(c))
    {
      ok := table.Add(clientID, item, batchID + "-" + namespace);
    }

    method Flush(clientID: string) returns (ok: bool)
      requires table.Valid()
      modifies table.Repr
      ensures table.Valid() && table.Repr == old(table.Repr)
      ensures Emptied(old(table.View(clientID)), table.sizer, table.View(clientID), ok)
      ensures forall c :: c != clientID ==> table.View(c) == old(table.View(c))
    {
      ok := true;
      if clientID in table.batchers {
        ok := table.Flush(clientID);
      }
    }

    // What a stateless engine does with the results of one batch.
    method Send(clientID: string, batchID: string, items: seq<T>) returns (ok: bool)
      requires table.Valid()
      modifies table.Repr
      ensures table.Valid() && fresh(table.Repr - old(table.Repr))
      ensures SentAll(old(table.View(clientID)), NamespacedID(batchID, namespace), items, table.Max(), table.sizer,
                      table.View(clientID), ok)
      ensures forall c :: c != clientID ==> table.View(c) == old(table.View(c))
    {
      var i := 0;
      while i < |items|
        invariant 0 <= i <= |items|
        invariant table.Valid() && fresh(table.Repr - old(table.Repr))
        invariant table.View(clientID) ==
                    AddEach(old(table.View(clientID)), NamespacedID(batchID, namespace), items[..i], table.Max(), table.sizer)
        invariant forall c :: c != clientID ==> table.View(c) == old(table.View(c))
      {
        ok := Add(clientID, items[i], batchID);
        assert items[..i + 1][..i] == items[..i];
        if !ok {
          assert StoppedAt(old(table.View(clientID)), NamespacedID(batchID, namespace), items, table.Max(), table.sizer,
                           table.View(clientID), i);
          return;
        }
        i := i + 1;
      }
      assert items[..i] == items;
      ok := Flush(clientID);
      if !ok {
        assert StoppedAt(old(table.View(clientID)), NamespacedID(batchID, namespace), items, table.Max(), table.sizer,
                         table.View(clientID), i);
      }
    }
  }

  // ---- RoutedSender: one batcher per client and route ----

  const NUL := 0 as char

  function BatcherKey(clientID: string, route: string): string { clientID + [NUL] + route }

  function BatcherClientID(key: string): string {
    var i := IndexOf(key, NUL);
    if i < 0 then key else key[..i]
  }

  lemma KeyNamesItsClient(clientID: string, route: string)
    requires Free(clientID, NUL)
    ensures BatcherClientID(BatcherKey(clientID, route)) == clientID
  {
    IndexOfFirst(clientID, NUL, route);
  }

  datatype RoutedItem<T> = RoutedItem(route: string, item: T)

  class RoutedSender<T> {
    const namespace: string
    const table: BatcherTable<T>

    constructor (maxWeight: int, sizer: T -> nat, namespace: string)
      ensures table.Valid() && fresh(table.Repr) && table.batchers == map[] && this.namespace == namespace
      ensures table.maxWeight == maxWeight && table.sizer == sizer
    {
      this.namespace := namespace;
      table := new BatcherTable<T>(maxWeight, sizer);
    }

    method Add(clientID: string, item: RoutedItem<T>, batchID: string) returns (ok: bool)
      requires table.Valid()
      modifies table.Repr
      ensures table.Valid() && fresh(table.Repr - old(table.Repr))
      ensures table.batchers.Keys == old(table.batchers.Keys) + {BatcherKey(clientID, item.route)}
      ensures var key := BatcherKey(clientID, item.route);
              Took(SetId(old(table.View(key)), NamespacedID(batchID, namespace + "-" + item.route), ""),
                   item.item, table.Max(), table.sizer, table.View(key), ok)
      ensures forall k :: k != BatcherKey(clientID, item.route) ==> table.View(k) == old(table.View(k))
    {
      ok := table.Add(BatcherKey(clientID, item.route), item.item, batchID + "-" + (namespace + "-" + item.route));
    }

    // The batchers of the client are flushed, in whatever order the table is visited, up to the
    // first that cannot publish; those not reached and those of other clients are left alone.
    method Flush(clientID: string) returns (ok: bool, ghost failed: string, ghost untouched: set<string>)
      requires table.Valid()
      modifies table.Repr
      ensures table.Valid() && table.Repr == old(table.Repr) && table.batchers == old(table.batchers)
      ensures if ok then FlushedBut(old(table.Views()), table.Views(), table.batchers.Keys, clientID, table.sizer, {})
              else FailedAt(old(table.Views()), table.Views(), table.batchers.Keys, clientID, table.sizer, untouched, failed)
    {
      var left := table.batchers.Keys;
      ghost var before := table.Views();
      ok, failed, untouched := true, "", left;
      while left != {}
        invariant table.Valid() && table.Repr == old(table.Repr) && table.batchers == old(table.batchers)
        invariant left <= table.batchers.Keys && ok
        invariant FlushedBut(before, table.Views(), table.batchers.Keys, clientID, table.sizer, left)
        decreases left
      {
        var key :| key in left;
        ghost var mid := table.Views();
        ok := FlushOf(key, clientID);
        FlushStep(before, mid, table.Views(), table.batchers.Keys, clientID, table.sizer, left, key, ok);
        left := left - {key};
        failed, untouched := key, left;
        if !ok { return; }
      }
    }

    method FlushOf(key: string, clientID: string) returns (ok: bool)
      requires table.Valid() && key in table.batchers
      modifies table.Repr
      ensures table.Valid() && table.Repr == old(table.Repr) && table.batchers == old(table.batchers)
      ensures if ok then table.View(key) == FlushedIf(BatcherClientID(key) == clientID, old(table.View(key)), table.sizer)
              else BatcherClientID(key) == clientID && Emptied(old(table.View(key)), table.sizer, table.View(key), false)
      ensures table.Views() == old(table.Views())[key := table.View(key)]
    {
      ok := true;
      if BatcherClientID(key) == clientID {
        ok := table.Flush(key);
      }
      table.OnlyOneView(key);
    }

    // What a stateless engine does with the routed results of one batch.
    method Send(clientID: string, batchID: string, items: seq<RoutedItem<T>>) returns (ok: bool)
      requires table.Valid() && Free(clientID, NUL)
      modifies table.Repr
      ensures table.Valid() && fresh(table.Repr - old(table.Repr))
      ensures ok ==>
                forall route ::
                  table.View(BatcherKey(clientID, route)) ==
                  SendBatch(old(table.View(BatcherKey(clientID, route))), NamespacedID(batchID, namespace + "-" + route),
                            ForRoute(items, route), table.Max(), table.sizer)
      ensures forall k :: BatcherClientID(k) != clientID ==> table.View(k) == old(table.View(k))
    {
      ok := AddItems(clientID, batchID, items);
      if !ok { return; }
      assert items[..|items|] == items;
      forall route ensures BatcherClientID(BatcherKey(clientID, route)) == clientID {
        KeyNamesItsClient(clientID, route);
      }
      ghost var mid := table.Views();
      ghost var failed, untouched;
      ok, failed, untouched := Flush(clientID);
      FlushedViews(mid, table.Views(), table.batchers.Keys, clientID, table.sizer, untouched, failed, ok);
    }

    // The batchers after the first i items have been added.
    ghost predicate AddedUpto(before: Views<T>, after: Views<T>, clientID: string, batchID: string,
                              items: seq<RoutedItem<T>>, i: nat)
    {
      && i <= |items| && Total(before) && Total(after)
      && forall route ::
           after[BatcherKey(clientID, route)] ==
           AddEach(before[BatcherKey(clientID, route)], NamespacedID(batchID, namespace + "-" + route),
                   ForRoute(items[..i], route), table.Max(), table.sizer)
    }

    lemma AddedNext(before: Views<T>, mid: Views<T>, after: Views<T>, clientID: string, batchID: string,
                    items: seq<RoutedItem<T>>, i: nat)
      requires i < |items| && AddedUpto(before, mid, clientID, batchID, items, i)
      requires var key, route := BatcherKey(clientID, items[i].route), items[i].route;
               && Total(after) && after == mid[key := after[key]]
               && after[key] == AddTo(SetId(mid[key], NamespacedID(batchID, namespace + "-" + route), ""),
                                      items[i].item, table.Max(), table.sizer)
      ensures AddedUpto(before, after, clientID, batchID, items, i + 1)
    {
      forall route
        ensures after[BatcherKey(clientID, route)] ==
                AddEach(before[BatcherKey(clientID, route)], NamespacedID(batchID, namespace + "-" + route),
                        ForRoute(items[..i + 1], route), table.Max(), table.sizer)
      {
        KeyInjective(clientID, route, items[i].route);
        NextForRoute(items, i, route);
        OneMore(before[BatcherKey(clientID, route)], NamespacedID(batchID, namespace + "-" + route),
                ForRoute(items[..i], route), items[i].item, table.Max(), table.sizer);
      }
    }

    method AddItems(clientID: string, batchID: string, items: seq<RoutedItem<T>>) returns (ok: bool)
      requires table.Valid() && Free(clientID, NUL)
      modifies table.Repr
      ensures table.Valid() && fresh(table.Repr - old(table.Repr))
      ensures ok ==> AddedUpto(old(table.Views()), table.Views(), clientID, batchID, items, |items|)
      ensures OthersKept(old(table.Views()), table.Views(), clientID)
    {
      ok := true;
      ghost var before := table.Views();
      for i := 0 to |items|
        invariant table.Valid() && fresh(table.Repr - old(table.Repr)) && ok
        invariant AddedUpto(before, table.Views(), clientID, batchID, items, i)
        invariant OthersKept(before, table.Views(), clientID)
      {
        ok := AddNext(clientID, batchID, items, i, before);
        if !ok { return; }
      }
    }

    method AddNext(clientID: string, batchID: string, items: seq<RoutedItem<T>>, i: nat, ghost before: Views<T>)
      returns (ok: bool)
      requires table.Valid() && Free(clientID, NUL) && i < |items|
      requires AddedUpto(before, table.Views(), clientID, batchID, items, i) && OthersKept(before, table.Views(), clientID)
      modifies table.Repr
      ensures table.Valid() && fresh(table.Repr - old(table.Repr))
      ensures ok ==> AddedUpto(before, table.Views(), clientID, batchID, items, i + 1)
      ensures OthersKept(before, table.Views(), clientID)
    {
      ghost var mid := table.Views();
      ok := AddOne(clientID, items[i], batchID);
      StillKept(before, mid, table.Views(), clientID, items[i].route);
      if ok { AddedNext(before, mid, table.Views(), clientID, batchID, items, i); }
    }

    method AddOne(clientID: string, item: RoutedItem<T>, batchID: string) returns (ok: bool)
      requires table.Valid()
      modifies table.Repr
      ensures table.Valid() && fresh(table.Repr - old(table.Repr))
      ensures var key := BatcherKey(clientID, item.route);
              && table.Views() == old(table.Views())[key := table.View(key)]
              && (ok ==> table.View(key) == AddTo(SetId(old(table.View(key)), NamespacedID(batchID, namespace + "-" + item.route), ""),
                                                  item.item, table.Max(), table.sizer))
    {
      ok := Add(clientID, item, batchID);
      table.OnlyOneView(BatcherKey(clientID, item.route));
    }
  }

  // ---- The batchers of one client, as values ----

  ghost predicate Total<T>(views: Views<T>) { forall k :: k in views }

  ghost predicate OthersKept<T>(before: Views<T>, after: Views<T>, clientID: string) {
    && Total(before) && Total(after)
    && forall k :: BatcherClientID(k) != clientID ==> after[k] == before[k]
  }

  lemma StillKept<T>(before: Views<T>, mid: Views<T>, after: Views<T>, clientID: string, route: string)
    requires OthersKept(before, mid, clientID) && Free(clientID, NUL) && Total(after)
    requires after == mid[BatcherKey(clientID, route) := after[BatcherKey(clientID, route)]]
    ensures OthersKept(before, after, clientID)
  {
    KeyNamesItsClient(clientID, route);
  }

  // The client's batchers among the keys are flushed, except those left.
  ghost predicate FlushedBut<T>(before: Views<T>, after: Views<T>, keys: set<string>, clientID: string,
                                sizer: T -> nat, left: set<string>)
  {
    && Total(before) && Total(after)
    && forall k :: after[k] == FlushedIf(k in keys && k !in left && BatcherClientID(k) == clientID, before[k], sizer)
  }

  // And one of them, failed, could not publish.
  ghost predicate FailedAt<T>(before: Views<T>, after: Views<T>, keys: set<string>, clientID: string, sizer: T -> nat,
                              left: set<string>, failed: string)
  {
    && Total(before) && Total(after) && failed in keys && failed !in left && BatcherClientID(failed) == clientID
    && Emptied(before[failed], sizer, after[failed], false)
    && FlushedBut(before, after[failed := before[failed]], keys, clientID, sizer, left + {failed})
  }

  lemma FlushStep<T>(before: Views<T>, mid: Views<T>, after: Views<T>, keys: set<string>, clientID: string,
                     sizer: T -> nat, left: set<string>, key: string, ok: bool)
    requires FlushedBut(before, mid, keys, clientID, sizer, left) && key in left && left <= keys
    requires Total(after) && after == mid[key := after[key]]
    requires if ok then after[key] == FlushedIf(BatcherClientID(key) == clientID, mid[key], sizer)
             else BatcherClientID(key) == clientID && Emptied(mid[key], sizer, after[key], false)
    ensures if ok then FlushedBut(before, after, keys, clientID, sizer, left - {key})
            else FailedAt(before, after, keys, clientID, sizer, left - {key}, key)
  {
    assert mid[key] == before[key];
    if !ok {
      assert after[key := before[key]] == mid;
      assert left - {key} + {key} == left;
    }
  }

  lemma FlushedViews<T>(before: Views<T>, after: Views<T>, keys: set<string>, clientID: string, sizer: T -> nat,
                        left: set<string>, failed: string, ok: bool)
    requires if ok then FlushedBut(before, after, keys, clientID, sizer, {})
             else FailedAt(before, after, keys, clientID, sizer, left, failed)
    ensures OthersKept(before, after, clientID)
  {
    if !ok {
      forall k | BatcherClientID(k) != clientID ensures after[k] == before[k] {
        assert after[failed := before[failed]][k] == before[k];
      }
    }
  }

  // The items of one route, in order.
  function ForRoute<T>(items: seq<RoutedItem<T>>, route: string): seq<T> {
    if items == [] then []
    else ForRoute(items[..|items| - 1], route)
         + (if items[|items| - 1].route == route then [items[|items| - 1].item] else [])
  }

  // The items of one route, in their order.
  lemma {:induction false} ForRouteInOrder<T>(a: seq<RoutedItem<T>>, b: seq<RoutedItem<T>>, x: RoutedItem<T>,
                                              route: string)
    ensures ForRoute(a + b, route) == ForRoute(a, route) + ForRoute(b, route)
    ensures ForRoute([x], route) == if x.route == route then [x.item] else []
  {
    assert [x][..0] == [];
    if b == [] {
      assert a + b == a;
    } else {
      assert (a + b)[..|a + b| - 1] == a + b[..|b| - 1];
      ForRouteInOrder(a, b[..|b| - 1], x, route);
    }
  }

  lemma NextForRoute<T>(items: seq<RoutedItem<T>>, i: nat, route: string)
    requires i < |items|
    ensures ForRoute(items[..i + 1], route) ==
              ForRoute(items[..i], route) + (if items[i].route == route then [items[i].item] else [])
  {
    assert items[..i + 1][..i] == items[..i];
  }

  lemma OneMore<T>(v: BatcherView<T>, id: string, items: seq<T>, item: T, max: nat, sizer: T -> nat)
    ensures AddEach(v, id, items + [item], max, sizer) ==
              AddTo(SetId(AddEach(v, id, items, max, sizer), id, ""), item, max, sizer)
    ensures items + [] == items
  {
    assert (items + [item])[..|items|] == items;
  }

  lemma KeyInjective(clientID: string, r: string, s: string)
    ensures BatcherKey(clientID, r) == BatcherKey(clientID, s) <==> r == s
  {
    assert r == BatcherKey(clientID, r)[|clientID| + 1..] && s == BatcherKey(clientID, s)[|clientID| + 1..];
  }
}
