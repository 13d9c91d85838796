// The router in front of the two groupings sends every transfer twice, once over the origin
// routes and once over the destination routes, and counts it once. So neither the count nor the
// stage EOF fits all that is published; both fit what each of the two groups receives.
module SplitRouter {
  import Accounts
  import EofProtocol
  import opened Grouping
  import opened Handover
  import opened ReplicaGroup
  import opened Senders
  import Stage
  import Sums
  import opened Text

  // ---- One exchange out of several ----

  // The results that go over the first n routes of the exchange.
  ghost function On<V>(items: seq<RoutedItem<V>>, exchange: string, n: nat): seq<RoutedItem<V>> {
    if items == [] then []
    else
      On(items[..|items| - 1], exchange, n)
      + (if IsRoute(items[|items| - 1].route, exchange, n) then [items[|items| - 1]] else [])
  }

  ghost function OnlyOn<U, V>(process: U -> Results<RoutedItem<V>>, exchange: string,
                              n: nat): U -> Results<RoutedItem<V>> {
    x => Results(On(process(x).results, exchange, n), process(x).multi)
  }

  // The item is counted once and gives the exchange one result, whatever it gives others.
  ghost predicate OneOn<V>(r: Results<RoutedItem<V>>, exchange: string, n: nat) {
    !r.multi && |On(r.results, exchange, n)| == 1
  }

  lemma {:induction false} OnConcat<V>(a: seq<RoutedItem<V>>, b: seq<RoutedItem<V>>, exchange: string, n: nat)
    ensures On(a + b, exchange, n) == On(a, exchange, n) + On(b, exchange, n)
  {
    if b == [] {
      assert a + b == a;
    } else {
      assert (a + b)[..|a + b| - 1] == a + b[..|b| - 1];
      OnConcat(a, b[..|b| - 1], exchange, n);
    }
  }

  lemma {:induction false} OnMember<V>(items: seq<RoutedItem<V>>, exchange: string, n: nat, x: RoutedItem<V>)
    ensures x in On(items, exchange, n) <==> x in items && IsRoute(x.route, exchange, n)
  {
    if items != [] {
      OnMember(items[..|items| - 1], exchange, n, x);
      assert items == items[..|items| - 1] + [items[|items| - 1]];
    }
  }

  lemma {:induction false} ResultsOn<U, V>(items: seq<U>, process: U -> Results<RoutedItem<V>>, exchange: string,
                                           n: nat)
    ensures ResultsOf(items, OnlyOn(process, exchange, n)) == On(ResultsOf(items, process), exchange, n)
  {
    if items != [] {
      var init, last := items[..|items| - 1], items[|items| - 1];
      ResultsOn(init, process, exchange, n);
      OnConcat(ResultsOf(init, process), process(last).results, exchange, n);
    }
  }

  lemma {:induction false} CountsOn<U, V>(items: seq<U>, process: U -> Results<RoutedItem<V>>, exchange: string, n: nat)
    requires forall x :: x in items ==> OneOn(process(x), exchange, n)
    ensures SurvivorCount(items, OnlyOn(process, exchange, n)) == SurvivorCount(items, process)
  {
    if items != [] {
      assert items[|items| - 1] in items;
      CountsOn(items[..|items| - 1], process, exchange, n);
    }
  }

  lemma {:induction false} ForRouteOn<V>(items: seq<RoutedItem<V>>, exchange: string, n: nat, k: nat)
    requires k < n
    ensures ForRoute(On(items, exchange, n), Route(exchange, k)) == ForRoute(items, Route(exchange, k))
  {
    if items != [] {
      var init, last := items[..|items| - 1], items[|items| - 1];
      ForRouteOn(init, exchange, n, k);
      assert IsRoute(Route(exchange, k), exchange, n);
      if IsRoute(last.route, exchange, n) {
        assert (On(init, exchange, n) + [last])[..|On(init, exchange, n)|] == On(init, exchange, n);
      } else {
        assert On(items, exchange, n) == On(init, exchange, n);
      }
    }
  }

  lemma SameNextRoute<V>(id: string, a: seq<RoutedItem<V>>, b: seq<RoutedItem<V>>, namespace: string, exchange: string,
                         n: nat, max: nat, sizer: V -> nat)
    requires RoutesOutputs(id, a, namespace, exchange, n, max, sizer) == RoutesOutputs(id, b, namespace, exchange, n, max, sizer)
    requires ForRoute(a, Route(exchange, n)) == ForRoute(b, Route(exchange, n))
    ensures RoutesOutputs(id, a, namespace, exchange, n + 1, max, sizer) ==
              RoutesOutputs(id, b, namespace, exchange, n + 1, max, sizer)
  {
  }

  // Only the items of each route decide what is published.
  lemma {:induction false} SameRoutesSameOutputs<V>(id: string, a: seq<RoutedItem<V>>, b: seq<RoutedItem<V>>,
                                                    namespace: string, exchange: string, n: nat, max: nat,
                                                    sizer: V -> nat)
    requires forall k: nat :: k < n ==> ForRoute(a, Route(exchange, k)) == ForRoute(b, Route(exchange, k))
    ensures RoutesOutputs(id, a, namespace, exchange, n, max, sizer) == RoutesOutputs(id, b, namespace, exchange, n, max, sizer)
  {
    if n > 0 {
      var k := n - 1;
      SameRoutesSameOutputs(id, a, b, namespace, exchange, k, max, sizer);
      assert ForRoute(a, Route(exchange, k)) == ForRoute(b, Route(exchange, k));
      SameNextRoute(id, a, b, namespace, exchange, k, max, sizer);
    }
  }

  ghost predicate SplitInputs<U, V>(data: map<string, seq<U>>, process: U -> Results<RoutedItem<V>>, exchange: string,
                                    n: nat, sizer: V -> nat)
  {
    forall id :: id in data ==>
      PositiveItems(ResultsOf(data[id], process), sizer) && forall x :: x in data[id] ==> OneOn(process(x), exchange, n)
  }

  lemma SplitAsSeen<U, V>(data: map<string, seq<U>>, process: U -> Results<RoutedItem<V>>, exchange: string, n: nat,
                          sizer: V -> nat)
    requires SplitInputs(data, process, exchange, n, sizer)
    ensures RoutedInputs(data, OnlyOn(process, exchange, n), exchange, n, sizer)
    ensures EngineRecords(data, OnlyOn(process, exchange, n)) == EngineRecords(data, process)
  {
    var only := OnlyOn(process, exchange, n);
    forall id | id in data
      ensures PositiveItems(ResultsOf(data[id], only), sizer) && WithinRoutes(ResultsOf(data[id], only), exchange, n)
      ensures SurvivorCount(data[id], only) == SurvivorCount(data[id], process)
    {
      ResultsOn(data[id], process, exchange, n);
      CountsOn(data[id], process, exchange, n);
      forall x | x in ResultsOf(data[id], only) ensures x in ResultsOf(data[id], process) && IsRoute(x.route, exchange, n) {
        OnMember(ResultsOf(data[id], process), exchange, n, x);
      }
    }
  }

  // Seen from the group behind one exchange, what such a stage publishes fits what it counts.
  lemma SplitOutputsFit<U, V>(t: Truth<V>, data: map<string, seq<U>>, process: U -> Results<RoutedItem<V>>,
                              namespace: string, exchange: string, n: nat, max: nat, sizer: V -> nat)
    requires SplitInputs(data, process, exchange, n, sizer)
    requires IsRoutedStage(t, data, process, namespace, exchange, n, max, sizer)
    ensures OutputsFit(t)
  {
    var only := OnlyOn(process, exchange, n);
    SplitAsSeen(data, process, exchange, n, sizer);
    forall id | id in data
      ensures t.outputs[id] == RoutesOutputs(id, ResultsOf(data[id], only), namespace, exchange, n, max, sizer)
    {
      ResultsOn(data[id], process, exchange, n);
      forall k: nat | k < n
        ensures ForRoute(ResultsOf(data[id], only), Route(exchange, k)) == ForRoute(ResultsOf(data[id], process), Route(exchange, k))
      {
        ForRouteOn(ResultsOf(data[id], process), exchange, n, k);
      }
      SameRoutesSameOutputs(id, ResultsOf(data[id], only), ResultsOf(data[id], process), namespace, exchange, n, max, sizer);
    }
    RoutedOutputsFit(t, data, only, namespace, exchange, n, max, sizer);
  }

  // ---- The router ----

  const ORIGIN := "origin"

  const DESTINATION := "destination"

  function Split(hash: Accounts.Account -> nat, origins: nat,
                 destinations: nat): Transfer -> Results<RoutedItem<Transfer>>
    requires origins >= 1 && destinations >= 1
  {
    (x: Transfer) =>
      Results([RoutedItem(Route(ORIGIN, Shard(hash, x.from, origins)), x),
               RoutedItem(Route(DESTINATION, Shard(hash, x.to, destinations)), x)], false)
  }

  lemma OtherExchange(a: string, j: nat, b: string, n: nat)
    requires IsRoute(Route(a, j), b, n)
    ensures a == b && j < n
  {
    var k: nat :| k < n && Route(a, j) == Route(b, k);
    DecimalFree(j, '.');
    DecimalFree(k, '.');
    assert Route(a, j) == a + ['.'] + Decimal(j) && Route(b, k) == b + ['.'] + Decimal(k);
    LastSeparator('.', a, Decimal(j), b, Decimal(k));
    DecimalInjective(j, k);
  }

  lemma OnOfTwo<V>(x: RoutedItem<V>, y: RoutedItem<V>, exchange: string, n: nat)
    ensures |On([x, y], exchange, n)| ==
              (if IsRoute(x.route, exchange, n) then 1 else 0) + (if IsRoute(y.route, exchange, n) then 1 else 0)
  {
    assert [x, y][..1] == [x] && [x][..0] == [];
    assert On([x], exchange, n) == if IsRoute(x.route, exchange, n) then [x] else [];
  }

  // Each of the two groups gets every transfer, once.
  lemma EachGroupOnce(hash: Accounts.Account -> nat, origins: nat, destinations: nat, x: Transfer)
    requires origins >= 1 && destinations >= 1
    ensures var r := Split(hash, origins, destinations)(x);
            OneOn(r, ORIGIN, origins) && OneOn(r, DESTINATION, destinations) && !AtMostOne(r)
  {
    var j, k := Shard(hash, x.from, origins), Shard(hash, x.to, destinations);
    var a, b := RoutedItem(Route(ORIGIN, j), x), RoutedItem(Route(DESTINATION, k), x);
    assert IsRoute(a.route, ORIGIN, origins) && IsRoute(b.route, DESTINATION, destinations);
    if IsRoute(a.route, DESTINATION, destinations) { OtherExchange(ORIGIN, j, DESTINATION, destinations); }
    if IsRoute(b.route, ORIGIN, origins) { OtherExchange(DESTINATION, k, ORIGIN, origins); }
    OnOfTwo(a, b, ORIGIN, origins);
    OnOfTwo(a, b, DESTINATION, destinations);
  }

  // The router sends the transfer over this route of one of its exchanges.
  ghost predicate SentOver(hash: Accounts.Account -> nat, origins: nat, destinations: nat, x: Transfer, byOrigin: bool,
                           i: nat)
    requires origins >= 1 && destinations >= 1
  {
    RoutedItem(Route(if byOrigin then ORIGIN else DESTINATION, i), x) in Split(hash, origins, destinations)(x).results
  }

  lemma SplitShard(hash: Accounts.Account -> nat, origins: nat, destinations: nat, x: Transfer, byOrigin: bool, i: nat)
    requires origins >= 1 && destinations >= 1
    ensures SentOver(hash, origins, destinations, x, byOrigin, i) <==>
              i == Shard(hash, LinkOf(x, byOrigin).base, if byOrigin then origins else destinations)
  {
    var exchange := if byOrigin then ORIGIN else DESTINATION;
    var j, k := Shard(hash, x.from, origins), Shard(hash, x.to, destinations);
    var items := Split(hash, origins, destinations)(x).results;
    assert items[0].route == Route(ORIGIN, j) && items[1].route == Route(DESTINATION, k);
    SameRoute(exchange, i, ORIGIN, j);
    SameRoute(exchange, i, DESTINATION, k);
  }

  lemma SameRoute(a: string, i: nat, b: string, j: nat)
    ensures Route(a, i) == Route(b, j) <==> a == b && i == j
  {
    if Route(a, i) == Route(b, j) {
      assert IsRoute(Route(a, i), b, j + 1);
      OtherExchange(a, i, b, j + 1);
      assert IsRoute(Route(b, j), a, i + 1);
      OtherExchange(b, j, a, i + 1);
    }
  }

  // Transfers from one account take the same origin route and transfers to one account the same
  // destination route, whatever else they are; no transfer takes two routes of one exchange.
  lemma KeptTogether(hash: Accounts.Account -> nat, origins: nat, destinations: nat, x: Transfer, y: Transfer,
                     byOrigin: bool, i: nat, j: nat)
    requires origins >= 1 && destinations >= 1
    requires SentOver(hash, origins, destinations, x, byOrigin, i)
    requires SentOver(hash, origins, destinations, y, byOrigin, j)
    requires if byOrigin then x.from == y.from else x.to == y.to
    ensures i == j < if byOrigin then origins else destinations
  {
    SplitShard(hash, origins, destinations, x, byOrigin, i);
    SplitShard(hash, origins, destinations, y, byOrigin, j);
  }

  // In every run of the router's stage: once it announces n transfers, the distinct sub-batches
  // published to the grouping by origin hold n of them, and so do those to the other grouping.
  lemma SplitHandover(t: Truth<Transfer>, cfg: EofProtocol.Config, states: seq<System<Transfer>>, steps: seq<Step>,
                      i: nat, f: FlushCall, data: map<string, seq<Transfer>>, hash: Accounts.Account -> nat,
                      origins: nat, destinations: nat, byOrigin: bool, namespace: string, max: nat,
                      sizer: Transfer -> nat)
    requires origins >= 1 && destinations >= 1 && (forall x :: sizer(x) > 0)
    requires var exchange, n := if byOrigin then ORIGIN else DESTINATION, if byOrigin then origins else destinations;
             IsRoutedStage(t, data, Split(hash, origins, destinations), namespace, exchange, n, max, sizer)
    requires WellFormed(t, cfg) && Stage.IsStageRun(t, cfg, states, steps) && i < |states| && f in states[i].flushes
    ensures Sums.Sum(Tally(states[i].published)) == f.survivors
  {
    var exchange, n := if byOrigin then ORIGIN else DESTINATION, if byOrigin then origins else destinations;
    forall x: Transfer ensures OneOn(Split(hash, origins, destinations)(x), exchange, n) {
      EachGroupOnce(hash, origins, destinations, x);
    }
    SplitOutputsFit(t, data, Split(hash, origins, destinations), namespace, exchange, n, max, sizer);
    StageHandover(t, cfg, states, steps, i, f);
  }
}
