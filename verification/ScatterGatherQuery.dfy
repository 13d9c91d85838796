// The fourth query as a distributed plan: group by origin and by destination with small groups
// pruned, shard by intermediary, count pairs, shard by origin, add up, apply the threshold. Its
// answer is that of a one-line definition, for any number of shards and any order of arrival.
module ScatterGatherQuery {
  import opened MapOrder
  import opened Accounts
  import opened Grouping
  import Aggregate
  import Join = ScatterGatherJoin
  import SplitRouter

  // ---- The definition ----

  ghost function Middle(transfers: set<Transfer>, p: Pair): set<Account> {
    set t | t in transfers && t.from == p.origin && Transfer(t.to, p.destination) in transfers :: t.to
  }

  ghost predicate IsScatterGather(transfers: set<Transfer>, p: Pair) { |Middle(transfers, p)| >= 5 }

  // The accounts with some destination that they reach through at least five intermediaries.
  ghost predicate Answers(transfers: set<Transfer>, origin: Account) {
    exists destination :: IsScatterGather(transfers, Pair(origin, destination))
  }

  // ---- The plan ----

  // hash stands for the FNV hash of bank and account; the two intermediary routers share one
  // list of routes.
  datatype Plan = Plan(
    transfers: set<Transfer>,
    originShards: nat,
    destinationShards: nat,
    routes: nat,
    joins: nat,
    hash: Account -> nat)

  predicate HasShards(p: Plan) { p.originShards >= 1 && p.destinationShards >= 1 && p.routes >= 1 && p.joins >= 1 }

  // What each worker received, in the order it came, and what it sent.
  datatype Execution = Execution(
    originGroups: seq<seq<Group>>,
    destinationGroups: seq<seq<Group>>,
    events: seq<seq<Aggregate.PairEvent>>,
    counts: seq<seq<(Pair, nat)>>,
    paths: seq<seq<Join.Path>>,
    results: seq<seq<Account>>)

  // The links that one grouping worker holds in the end: of the transfers sent over its route.
  ghost function LinksAt(p: Plan, byOrigin: bool, i: nat): set<Link>
    requires HasShards(p)
  {
    set t | t in p.transfers && SplitRouter.SentOver(p.hash, p.originShards, p.destinationShards, t, byOrigin, i)
          :: LinkOf(t, byOrigin)
  }

  // A group of some worker is taken apart into a pair for this intermediary that goes over this route.
  ghost predicate FromGroups(p: Plan, groups: seq<seq<Group>>, r: nat, m: Account, base: Account)
    requires HasShards(p)
  {
    exists i, g :: 0 <= i < |groups| && g in groups[i] && RoutedPair(r, m, base) in Routed(p.hash, p.routes, g)
  }

  function RoutedTo(p: Plan, counts: seq<(Pair, nat)>, j: nat): seq<Join.Path>
    requires HasShards(p)
  {
    if counts == [] then []
    else
      var x := counts[|counts| - 1];
      RoutedTo(p, counts[..|counts| - 1], j)
      + (if Shard(p.hash, x.0.origin, p.joins) == j then [Join.Path(x.0, x.1)] else [])
  }

  function AllRoutedTo(p: Plan, counts: seq<seq<(Pair, nat)>>, j: nat): seq<Join.Path>
    requires HasShards(p)
  {
    if counts == [] then []
    else AllRoutedTo(p, counts[..|counts| - 1], j) + RoutedTo(p, counts[|counts| - 1], j)
  }

  ghost predicate Grouped(p: Plan, groups: seq<seq<Group>>, byOrigin: bool)
    requires HasShards(p)
  {
    && |groups| == (if byOrigin then p.originShards else p.destinationShards)
    && forall i :: 0 <= i < |groups| ==> AreGroupsOf(groups[i], LinksAt(p, byOrigin, i))
  }

  // Each aggregator sees the pairs routed to it, in any order and each at least once.
  ghost predicate Received(p: Plan, x: Execution, r: nat)
    requires HasShards(p) && r < |x.events|
  {
    forall e :: e in x.events[r] <==>
      FromGroups(p, if e.isOrigin then x.originGroups else x.destinationGroups, r, e.intermediary, e.account)
  }

  ghost function GraphAt(x: Execution, r: nat): Graph
    requires r < |x.events|
  {
    Aggregate.SeenAll(Aggregate.NOTHING, x.events[r]).graph
  }

  ghost function SumsAt(x: Execution, j: nat): map<Pair, nat>
    requires j < |x.paths|
  {
    Join.AddedAll(Join.NOTHING, x.paths[j]).paths
  }

  // Each join worker sees every count routed to it exactly once, in any order.
  ghost predicate Executes(p: Plan, x: Execution)
    requires HasShards(p)
  {
    && Grouped(p, x.originGroups, true) && Grouped(p, x.destinationGroups, false)
    && |x.events| == |x.counts| == p.routes
    && (forall r :: 0 <= r < p.routes ==> Received(p, x, r))
    && (forall r :: 0 <= r < p.routes ==> Aggregate.Yielded(PairCounts(GraphAt(x, r)), true, |PairCounts(GraphAt(x, r))|, x.counts[r]))
    && |x.paths| == |x.results| == p.joins
    && (forall j :: 0 <= j < p.joins ==> multiset(x.paths[j]) == multiset(AllRoutedTo(p, x.counts, j)))
    && (forall j :: 0 <= j < p.joins ==> Enumerates(x.results[j], Join.Origins(Join.Suspicious(SumsAt(x, j)))))
  }

  // ---- Grouping and pruning ----

  ghost function Neighbours(transfers: set<Transfer>, byOrigin: bool, base: Account): set<Account> {
    set t | t in transfers && LinkOf(t, byOrigin).base == base :: LinkOf(t, byOrigin).related
  }

  // All links of a base are at one worker.
  lemma RelatedAt(p: Plan, byOrigin: bool, base: Account, i: nat)
    requires HasShards(p)
    ensures Related(LinksAt(p, byOrigin, i), base) ==
              if Shard(p.hash, base, if byOrigin then p.originShards else p.destinationShards) == i
              then Neighbours(p.transfers, byOrigin, base) else {}
  {
    var at := Shard(p.hash, base, if byOrigin then p.originShards else p.destinationShards);
    forall t: Transfer
      ensures SplitRouter.SentOver(p.hash, p.originShards, p.destinationShards, t, byOrigin, i) <==>
                i == Shard(p.hash, LinkOf(t, byOrigin).base, if byOrigin then p.originShards else p.destinationShards)
    {
      SplitRouter.SplitShard(p.hash, p.originShards, p.destinationShards, t, byOrigin, i);
    }
    forall a ensures a in Related(LinksAt(p, byOrigin, i), base) <==> at == i && a in Neighbours(p.transfers, byOrigin, base) {
      if a in Neighbours(p.transfers, byOrigin, base) && at == i {
        var t :| t in p.transfers && LinkOf(t, byOrigin).base == base && LinkOf(t, byOrigin).related == a;
        assert LinkOf(t, byOrigin) in LinksAt(p, byOrigin, i);
      }
    }
  }

  lemma RoutedMember(hash: Account -> nat, routes: nat, g: Group, r: nat, m: Account, base: Account)
    requires routes >= 1
    ensures RoutedPair(r, m, base) in Routed(hash, routes, g) <==>
              g.base == base && m in g.related && Shard(hash, m, routes) == r
  {
    if g.base == base && m in g.related && Shard(hash, m, routes) == r {
      var i :| 0 <= i < |g.related| && g.related[i] == m;
      assert Routed(hash, routes, g)[i] == RoutedPair(r, m, base);
    }
  }

  // What the groups name for a base: its neighbours, if there are enough of them.
  lemma NamedByGroups(p: Plan, groups: seq<seq<Group>>, byOrigin: bool, r: nat, m: Account, base: Account)
    requires HasShards(p) && Grouped(p, groups, byOrigin)
    ensures FromGroups(p, groups, r, m, base) <==>
              && Shard(p.hash, m, p.routes) == r
              && m in Neighbours(p.transfers, byOrigin, base) && |Neighbours(p.transfers, byOrigin, base)| >= 5
  {
    var at := Shard(p.hash, base, if byOrigin then p.originShards else p.destinationShards);
    if i, g :| 0 <= i < |groups| && g in groups[i] && RoutedPair(r, m, base) in Routed(p.hash, p.routes, g) {
      RoutedMember(p.hash, p.routes, g, r, m, base);
      RelatedAt(p, byOrigin, base, i);
    }
    if m in Neighbours(p.transfers, byOrigin, base) && |Neighbours(p.transfers, byOrigin, base)| >= 5 {
      RelatedAt(p, byOrigin, base, at);
      var g :| g in groups[at] && g.base == base;
      assert m in g.related;
      RoutedMember(p.hash, p.routes, g, Shard(p.hash, m, p.routes), m, base);
    }
  }

  // ---- Counting at one aggregator ----

  ghost predicate BothLarge(transfers: set<Transfer>, q: Pair) {
    |Neighbours(transfers, true, q.origin)| >= 5 && |Neighbours(transfers, false, q.destination)| >= 5
  }

  // The part of a set that belongs to one shard.
  ghost function PartAt(p: Plan, s: set<Account>, r: nat): set<Account>
    requires HasShards(p)
  {
    set m | m in s && Shard(p.hash, m, p.routes) == r
  }

  lemma MiddleMember(transfers: set<Transfer>, q: Pair, m: Account)
    ensures m in Middle(transfers, q) <==> Transfer(q.origin, m) in transfers && Transfer(m, q.destination) in transfers
    ensures m in Middle(transfers, q) <==>
              m in Neighbours(transfers, true, q.origin) && m in Neighbours(transfers, false, q.destination)
  {
    if Transfer(q.origin, m) in transfers { assert LinkOf(Transfer(q.origin, m), true).related == m; }
    if Transfer(m, q.destination) in transfers { assert LinkOf(Transfer(m, q.destination), false).related == m; }
  }

  lemma CountedAt(p: Plan, x: Execution, r: nat, q: Pair)
    requires HasShards(p) && Executes(p, x) && r < p.routes
    ensures Between(GraphAt(x, r), q) == if BothLarge(p.transfers, q) then PartAt(p, Middle(p.transfers, q), r) else {}
  {
    assert Received(p, x, r);
    Aggregate.SeenGraph(Aggregate.NOTHING, x.events[r]);
    forall m ensures m in Between(GraphAt(x, r), q) <==>
                       BothLarge(p.transfers, q) && m in PartAt(p, Middle(p.transfers, q), r)
    {
      InGraph(x, r, m, q.origin, true);
      InGraph(x, r, m, q.destination, false);
      BetweenMember(GraphAt(x, r), q, m);
      MiddleMember(p.transfers, q, m);
      NamedByGroups(p, x.originGroups, true, r, m, q.origin);
      NamedByGroups(p, x.destinationGroups, false, r, m, q.destination);
    }
  }

  lemma InGraph(x: Execution, r: nat, m: Account, a: Account, isOrigin: bool)
    requires r < |x.events|
    ensures (if isOrigin then Relation(m, a) in GraphAt(x, r).origins else Relation(m, a) in GraphAt(x, r).destinations)
            <==> Aggregate.PairEvent(m, a, isOrigin) in x.events[r]
  {
    Aggregate.SeenGraph(Aggregate.NOTHING, x.events[r]);
    var e := Aggregate.PairEvent(m, a, isOrigin);
    if e in x.events[r] { assert Relation(e.intermediary, e.account) == Relation(m, a); }
  }

  // ---- Adding up over the aggregators ----

  // What a list of paths adds to a pair.
  function Total(paths: seq<Join.Path>, q: Pair): nat {
    if paths == [] then 0
    else Total(paths[..|paths| - 1], q) + (if paths[|paths| - 1].pair == q then paths[|paths| - 1].intermediaryCount else 0)
  }

  lemma {:induction false} AddedIsTotal(paths: seq<Join.Path>, q: Pair)
    ensures Count(Join.AddedAll(Join.NOTHING, paths).paths, q) == Total(paths, q)
  {
    if paths != [] { AddedIsTotal(paths[..|paths| - 1], q); }
  }

  lemma {:induction false} TotalConcat(a: seq<Join.Path>, b: seq<Join.Path>, q: Pair)
    ensures Total(a + b, q) == Total(a, q) + Total(b, q)
  {
    if b == [] {
      assert a + b == a;
    } else {
      assert (a + b)[..|a + b| - 1] == a + b[..|b| - 1];
      TotalConcat(a, b[..|b| - 1], q);
    }
  }

  lemma TotalWithout(b: seq<Join.Path>, i: nat, q: Pair)
    requires i < |b|
    ensures multiset(b) == multiset(b[..i] + b[i + 1..]) + multiset([b[i]])
    ensures Total(b, q) == Total(b[..i] + b[i + 1..], q) + (if b[i].pair == q then b[i].intermediaryCount else 0)
  {
    assert b == b[..i] + ([b[i]] + b[i + 1..]);
    TotalConcat(b[..i], b[i + 1..], q);
    TotalConcat(b[..i], [b[i]] + b[i + 1..], q);
    TotalConcat([b[i]], b[i + 1..], q);
    assert [b[i]][..0] == [];
  }

  // The order of arrival does not matter.
  lemma {:induction false} TotalIgnoresOrder(a: seq<Join.Path>, b: seq<Join.Path>, q: Pair)
    requires multiset(a) == multiset(b)
    ensures Total(a, q) == Total(b, q)
    decreases |a|
  {
    if a == [] {
      assert |b| == |multiset(b)| == |multiset(a)| == 0;
    } else {
      var n := |a| - 1;
      assert a[..n] + a[n + 1..] == a[..n];
      TotalWithout(a, n, q);
      assert a[n] in multiset(b);
      var i :| 0 <= i < |b| && b[i] == a[n];
      TotalWithout(b, i, q);
      assert multiset(a[..n]) == multiset(a) - multiset{a[n]};
      TotalIgnoresOrder(a[..n], b[..i] + b[i + 1..], q);
    }
  }

  lemma {:induction false} TotalRouted(p: Plan, counts: seq<(Pair, nat)>, j: nat, q: Pair)
    requires HasShards(p) && forall i, k :: 0 <= i < k < |counts| ==> counts[i].0 != counts[k].0
    ensures Shard(p.hash, q.origin, p.joins) != j ==> Total(RoutedTo(p, counts, j), q) == 0
    ensures forall i :: 0 <= i < |counts| && counts[i].0 == q && Shard(p.hash, q.origin, p.joins) == j ==>
              Total(RoutedTo(p, counts, j), q) == counts[i].1
    ensures (forall i :: 0 <= i < |counts| ==> counts[i].0 != q) ==> Total(RoutedTo(p, counts, j), q) == 0
  {
    if counts != [] {
      var n := |counts| - 1;
      TotalRouted(p, counts[..n], j, q);
      var more := if Shard(p.hash, counts[n].0.origin, p.joins) == j then [Join.Path(counts[n].0, counts[n].1)] else [];
      TotalConcat(RoutedTo(p, counts[..n], j), more, q);
      assert more != [] ==> more[..0] == [];
    }
  }

  // One aggregator adds to a pair what it counted for it.
  lemma TotalFromOne(p: Plan, x: Execution, r: nat, j: nat, q: Pair)
    requires HasShards(p) && Executes(p, x) && r < p.routes
    ensures Total(RoutedTo(p, x.counts[r], j), q) ==
              if Shard(p.hash, q.origin, p.joins) == j then |Between(GraphAt(x, r), q)| else 0
  {
    var counts := PairCounts(GraphAt(x, r));
    CountIsBetween(GraphAt(x, r), q);
    TotalRouted(p, x.counts[r], j, q);
    if q in counts {
      assert (q, counts[q]) in x.counts[r];
    } else {
      assert forall i :: 0 <= i < |x.counts[r]| ==> x.counts[r][i] in x.counts[r];
    }
  }

  ghost function PartSizes(p: Plan, s: set<Account>, n: nat): nat
    requires HasShards(p)
  {
    if n == 0 then 0 else PartSizes(p, s, n - 1) + |PartAt(p, s, n - 1)|
  }

  ghost function FirstParts(p: Plan, s: set<Account>, n: nat): set<Account>
    requires HasShards(p)
  {
    set m | m in s && Shard(p.hash, m, p.routes) < n
  }

  lemma {:induction false} PartsAddUp(p: Plan, s: set<Account>, n: nat)
    requires HasShards(p)
    ensures PartSizes(p, s, n) == |FirstParts(p, s, n)|
  {
    if n == 0 {
      assert FirstParts(p, s, 0) == {};
    } else {
      PartsAddUp(p, s, n - 1);
      assert FirstParts(p, s, n) == FirstParts(p, s, n - 1) + PartAt(p, s, n - 1);
    }
  }

  lemma {:induction false} TotalFromAll(p: Plan, x: Execution, n: nat, j: nat, q: Pair)
    requires HasShards(p) && Executes(p, x) && n <= p.routes
    ensures Total(AllRoutedTo(p, x.counts[..n], j), q) ==
              if Shard(p.hash, q.origin, p.joins) == j && BothLarge(p.transfers, q)
              then PartSizes(p, Middle(p.transfers, q), n) else 0
  {
    if n > 0 {
      TotalFromAll(p, x, n - 1, j, q);
      assert x.counts[..n][..n - 1] == x.counts[..n - 1];
      TotalConcat(AllRoutedTo(p, x.counts[..n - 1], j), RoutedTo(p, x.counts[n - 1], j), q);
      TotalFromOne(p, x, n - 1, j, q);
      CountedAt(p, x, n - 1, q);
    }
  }

  // The sum that a join worker arrives at for a pair: all its intermediaries, whichever
  // aggregators counted them, unless the pair was pruned.
  lemma SumIsMiddle(p: Plan, x: Execution, j: nat, q: Pair)
    requires HasShards(p) && Executes(p, x) && j < p.joins
    ensures Count(SumsAt(x, j), q) ==
              if Shard(p.hash, q.origin, p.joins) == j && BothLarge(p.transfers, q) then |Middle(p.transfers, q)| else 0
  {
    AddedIsTotal(x.paths[j], q);
    TotalIgnoresOrder(x.paths[j], AllRoutedTo(p, x.counts, j), q);
    assert x.counts[..p.routes] == x.counts;
    TotalFromAll(p, x, p.routes, j, q);
    PartsAddUp(p, Middle(p.transfers, q), p.routes);
    assert FirstParts(p, Middle(p.transfers, q), p.routes) == Middle(p.transfers, q);
  }

  lemma {:induction false} SubsetSize(a: set<Account>, b: set<Account>)
    requires a <= b
    ensures |a| <= |b|
    decreases a
  {
    if a != {} {
      var k :| k in a;
      SubsetSize(a - {k}, b - {k});
    }
  }

  // Pruning drops no pair that matters: enough intermediaries make both groups large.
  lemma PruningIsHarmless(transfers: set<Transfer>, q: Pair)
    requires IsScatterGather(transfers, q)
    ensures BothLarge(transfers, q)
  {
    forall m | m in Middle(transfers, q)
      ensures m in Neighbours(transfers, true, q.origin) && m in Neighbours(transfers, false, q.destination)
    {
      MiddleMember(transfers, q, m);
    }
    SubsetSize(Middle(transfers, q), Neighbours(transfers, true, q.origin));
    SubsetSize(Middle(transfers, q), Neighbours(transfers, false, q.destination));
  }

  // ---- The plan computes the definition ----

  lemma SuspiciousAt(p: Plan, x: Execution, j: nat, q: Pair)
    requires HasShards(p) && Executes(p, x) && j < p.joins
    ensures q in Join.Suspicious(SumsAt(x, j)) <==>
              Shard(p.hash, q.origin, p.joins) == j && IsScatterGather(p.transfers, q)
  {
    SumIsMiddle(p, x, j, q);
    if IsScatterGather(p.transfers, q) { PruningIsHarmless(p.transfers, q); }
  }

  // For all transfers, all numbers of shards, any hash, and any order and repetition on the way:
  // an account is sent by some join worker exactly when the definition has it.
  lemma PlanIsDefinition(p: Plan, x: Execution, a: Account)
    requires HasShards(p) && Executes(p, x)
    ensures (exists j :: 0 <= j < p.joins && a in x.results[j]) <==> Answers(p.transfers, a)
  {
    if j :| 0 <= j < p.joins && a in x.results[j] {
      var q :| q in Join.Suspicious(SumsAt(x, j)) && q.origin == a;
      SuspiciousAt(p, x, j, q);
    }
    if Answers(p.transfers, a) {
      var d :| IsScatterGather(p.transfers, Pair(a, d));
      var j := Shard(p.hash, a, p.joins);
      SuspiciousAt(p, x, j, Pair(a, d));
      assert Pair(a, d).origin in Join.Origins(Join.Suspicious(SumsAt(x, j)));
      assert a in x.results[j];
    }
  }

  // And it is sent once, by one worker.
  lemma SentOnce(p: Plan, x: Execution, j: nat, k: nat, i: nat, l: nat)
    requires HasShards(p) && Executes(p, x) && j < p.joins && k < p.joins
    requires i < |x.results[j]| && l < |x.results[k]| && x.results[j][i] == x.results[k][l]
    ensures j == k && i == l
  {
    var a := x.results[j][i];
    assert a in x.results[j] && a in x.results[k];
    var q :| q in Join.Suspicious(SumsAt(x, j)) && q.origin == a;
    var q' :| q' in Join.Suspicious(SumsAt(x, k)) && q'.origin == a;
    SuspiciousAt(p, x, j, q);
    SuspiciousAt(p, x, k, q');
  }

  // ---- Every plan can be executed ----

  ghost function LargeBases(links: set<Link>): set<Account> {
    set l | l in links && |Related(links, l.base)| >= 5 :: l.base
  }

  ghost function SomeGroups(links: set<Link>): seq<Group> {
    var bases := Listing(LargeBases(links));
    seq(|bases|, i requires 0 <= i < |bases| => Group(bases[i], Listing(Related(links, bases[i]))))
  }

  lemma SomeGroupsAreGroups(links: set<Link>)
    ensures AreGroupsOf(SomeGroups(links), links)
  {
    var bases, groups := Listing(LargeBases(links)), SomeGroups(links);
    forall g | g in groups ensures g.base in LargeBases(links) && Enumerates(g.related, Related(links, g.base)) {
      var i :| 0 <= i < |groups| && groups[i] == g;
      assert bases[i] in bases;
    }
    forall b | |Related(links, b)| >= 5 ensures exists g :: g in groups && g.base == b {
      var l :| l in links && l.base == b;
      assert b in LargeBases(links);
      var i :| 0 <= i < |bases| && bases[i] == b;
      assert groups[i] in groups && groups[i].base == b;
    }
  }

  ghost function EventsFrom(p: Plan, groups: seq<seq<Group>>, r: nat, isOrigin: bool): set<Aggregate.PairEvent>
    requires HasShards(p)
  {
    set i, g, x | 0 <= i < |groups| && g in groups[i] && x in Routed(p.hash, p.routes, g) && x.route == r
      :: Aggregate.PairEvent(x.intermediary, x.account, isOrigin)
  }

  ghost function SomeEvents(p: Plan, from: seq<seq<Group>>, to: seq<seq<Group>>, r: nat): seq<Aggregate.PairEvent>
    requires HasShards(p)
  {
    Listing(EventsFrom(p, from, r, true) + EventsFrom(p, to, r, false))
  }

  lemma SomeEventsAreReceived(p: Plan, x: Execution, r: nat)
    requires HasShards(p) && r < |x.events| && x.events[r] == SomeEvents(p, x.originGroups, x.destinationGroups, r)
    ensures Received(p, x, r)
  {
    forall e: Aggregate.PairEvent
      ensures e in EventsFrom(p, if e.isOrigin then x.originGroups else x.destinationGroups, r, e.isOrigin) <==>
                FromGroups(p, if e.isOrigin then x.originGroups else x.destinationGroups, r, e.intermediary, e.account)
    {
      FromGroupsEvent(p, if e.isOrigin then x.originGroups else x.destinationGroups, r, e);
    }
  }

  lemma FromGroupsEvent(p: Plan, groups: seq<seq<Group>>, r: nat, e: Aggregate.PairEvent)
    requires HasShards(p)
    ensures e in EventsFrom(p, groups, r, e.isOrigin) <==> FromGroups(p, groups, r, e.intermediary, e.account)
  {
    if FromGroups(p, groups, r, e.intermediary, e.account) {
      var x := RoutedPair(r, e.intermediary, e.account);
      var i, g :| 0 <= i < |groups| && g in groups[i] && x in Routed(p.hash, p.routes, g);
      assert x in Routed(p.hash, p.routes, g) && x.route == r;
    }
  }

  ghost function SomeCounts(counts: map<Pair, nat>): seq<(Pair, nat)> {
    var order := Listing(counts.Keys);
    seq(|order|, i requires 0 <= i < |order| => (order[i], if order[i] in counts then counts[order[i]] else 0))
  }

  lemma SomeCountsAreYielded(counts: map<Pair, nat>)
    ensures Aggregate.Yielded(counts, true, |counts|, SomeCounts(counts))
  {
    var order := Listing(counts.Keys);
    EnumerationSize(order, counts.Keys);
    assert |counts| == |counts.Keys|;
    forall i | 0 <= i < |order| ensures order[i] in counts {
      assert order[i] in order;
    }
    forall p | p in counts ensures (p, counts[p]) in SomeCounts(counts) {
      var i :| 0 <= i < |order| && order[i] == p;
      assert SomeCounts(counts)[i] == (p, counts[p]);
    }
  }

  // So what is said about executions is said about something, whatever the transfers.
  lemma PlanCanExecute(p: Plan) returns (x: Execution)
    requires HasShards(p)
    ensures Executes(p, x)
  {
    var from := seq(p.originShards, i requires 0 <= i < p.originShards => SomeGroups(LinksAt(p, true, i)));
    var to := seq(p.destinationShards, i requires 0 <= i < p.destinationShards => SomeGroups(LinksAt(p, false, i)));
    forall i, byOrigin ensures AreGroupsOf(SomeGroups(LinksAt(p, byOrigin, i)), LinksAt(p, byOrigin, i)) {
      SomeGroupsAreGroups(LinksAt(p, byOrigin, i));
    }
    var events := seq(p.routes, r requires 0 <= r < p.routes => SomeEvents(p, from, to, r));
    x := Execution(from, to, events, [], [], []);
    var counts := seq(p.routes, r requires 0 <= r < p.routes => SomeCounts(PairCounts(GraphAt(x, r))));
    var paths := seq(p.joins, j requires 0 <= j < p.joins => AllRoutedTo(p, counts, j));
    x := Execution(from, to, events, counts, paths, []);
    var results := seq(p.joins, j requires 0 <= j < p.joins => Listing(Join.Origins(Join.Suspicious(SumsAt(x, j)))));
    var y := x;
    x := x.(results := results);
    forall r: nat | r < p.routes
      ensures Received(p, x, r)
      ensures Aggregate.Yielded(PairCounts(GraphAt(x, r)), true, |PairCounts(GraphAt(x, r))|, x.counts[r])
    {
      SomeEventsAreReceived(p, x, r);
      SomeCountsAreYielded(PairCounts(GraphAt(x, r)));
    }
    forall j: nat | j < p.joins
      ensures Enumerates(x.results[j], Join.Origins(Join.Suspicious(SumsAt(x, j))))
    {
      assert SumsAt(x, j) == SumsAt(y, j);
    }
  }
}
