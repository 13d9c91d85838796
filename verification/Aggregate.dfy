// Aggregation by intermediary: pair counts kept up to date as relations arrive, and the tracker
// that logs the relations.
module Aggregate {
  import opened Accounts
  import opened MapOrder
  import opened Checkpoint

  datatype Sides = Sides(origins: set<Account>, destinations: set<Account>)

  class IntermediaryStore {
    var relations: map<Account, Sides>
    var pairs: map<Pair, nat>

    ghost function Origins(): set<Relation>
      reads this
    {
      set m, a | m in relations.Keys && a in relations[m].origins :: Relation(m, a)
    }

    ghost function Destinations(): set<Relation>
      reads this
    {
      set m, a | m in relations.Keys && a in relations[m].destinations :: Relation(m, a)
    }

    ghost function Links(): Graph
      reads this
    {
      Graph(Origins(), Destinations())
    }

    // The counts are those of the definition, whatever came in what order and how often.
    ghost predicate Valid()
      reads this
    {
      pairs == PairCounts(Links())
    }

    constructor ()
      ensures Valid() && Links() == EMPTY_GRAPH
    {
      relations, pairs := map[], map[];
    }

    method GetOrCreateRelations(m: Account) returns (sides: Sides)
      modifies this`relations
      ensures m in relations && relations[m] == sides && Links() == old(Links())
    {
      if m !in relations {
        relations := relations[m := Sides({}, {})];
      }
      sides := relations[m];
    }

    method AddOrigin(intermediary: Account, origin: Account) returns (added: bool)
      requires Valid()
      modifies this
      ensures Valid() && added == (Relation(intermediary, origin) !in old(Links()).origins)
      ensures Links() == WithOrigin(old(Links()), Relation(intermediary, origin))
    {
      ghost var r := Relation(intermediary, origin);
      var sides := GetOrCreateRelations(intermediary);
      if origin in sides.origins {
        return false;
      }
      CountsPositive(Links());
      ghost var g := Links();
      pairs := Incremented(pairs, sides.destinations, d => Pair(origin, d));
      relations := relations[intermediary := Sides(sides.origins + {origin}, sides.destinations)];
      OriginsAre(g, r, sides);
      return true;
    }

    lemma OriginsAre(g: Graph, r: Relation, sides: Sides)
      requires r !in g.origins && g.destinations == Destinations() && (forall p :: p in pairs ==> pairs[p] > 0)
      requires forall a :: a in sides.destinations <==> Relation(r.intermediary, a) in g.destinations
      requires forall p :: Count(pairs, p) == Count(PairCounts(g), p)
                 + (if exists a :: a in sides.destinations && Pair(r.account, a) == p then 1 else 0)
      requires Origins() == g.origins + {r}
      ensures Valid() && Links() == WithOrigin(g, r)
    {
      CountsWithOrigin(pairs, g, r);
    }

    method AddDestination(intermediary: Account, destination: Account) returns (added: bool)
      requires Valid()
      modifies this
      ensures Valid() && added == (Relation(intermediary, destination) !in old(Links()).destinations)
      ensures Links() == WithDestination(old(Links()), Relation(intermediary, destination))
    {
      ghost var r := Relation(intermediary, destination);
      var sides := GetOrCreateRelations(intermediary);
      if destination in sides.destinations {
        return false;
      }
      CountsPositive(Links());
      ghost var g := Links();
      pairs := Incremented(pairs, sides.origins, o => Pair(o, destination));
      relations := relations[intermediary := Sides(sides.origins, sides.destinations + {destination})];
      DestinationsAre(g, r, sides);
      return true;
    }

    lemma DestinationsAre(g: Graph, r: Relation, sides: Sides)
      requires r !in g.destinations && g.origins == Origins() && (forall p :: p in pairs ==> pairs[p] > 0)
      requires forall a :: a in sides.origins <==> Relation(r.intermediary, a) in g.origins
      requires forall p :: Count(pairs, p) == Count(PairCounts(g), p)
                 + (if exists a :: a in sides.origins && Pair(a, r.account) == p then 1 else 0)
      requires Destinations() == g.destinations + {r}
      ensures Valid() && Links() == WithDestination(g, r)
    {
      CountsWithDestination(pairs, g, r);
    }

    // pairs[pair]++ for the pair of each account of the set, visited in any order.
    static method Incremented(counts: map<Pair, nat>, accounts: set<Account>, pairOf: Account -> Pair) returns (more: map<Pair, nat>)
      requires forall a, b :: a in accounts && b in accounts && pairOf(a) == pairOf(b) ==> a == b
      ensures forall p :: Count(more, p) == Count(counts, p) + (if exists a :: a in accounts && pairOf(a) == p then 1 else 0)
      ensures (forall p :: p in counts ==> counts[p] > 0) ==> forall p :: p in more ==> more[p] > 0
    {
      more := counts;
      var left := accounts;
      while left != {}
        invariant left <= accounts
        invariant forall p :: Count(more, p) == Count(counts, p) + (if exists a :: a in accounts - left && pairOf(a) == p then 1 else 0)
        invariant (forall p :: p in counts ==> counts[p] > 0) ==> forall p :: p in more ==> more[p] > 0
        decreases left
      {
        var a :| a in left;
        var pair := pairOf(a);
        assert !exists b :: b in accounts - left && pairOf(b) == pair;
        more := more[pair := Count(more, pair) + 1];
        left := left - {a};
        assert a in accounts - left;
      }
      assert accounts - left == accounts;
    }

    // A copy of the counts.
    method GetPairs() returns (result: map<Pair, nat>)
      requires Valid()
      ensures result == PairCounts(Links())
    {
      result := pairs;
    }

    method Clear()
      modifies this
      ensures Valid() && Links() == EMPTY_GRAPH
    {
      relations, pairs := map[], map[];
    }
  }

  // ---- The processor and its tracker, as a value ----

  datatype PairEvent = PairEvent(intermediary: Account, account: Account, isOrigin: bool)

  datatype Change = OriginChange(relation: Relation) | DestinationChange(relation: Relation)

  // The store's relations, and those added since the last drain.
  datatype Aggregation = Aggregation(graph: Graph, dirtyOrigins: set<Relation>, dirtyDests: set<Relation>)

  const NOTHING := Aggregation(EMPTY_GRAPH, {}, {})

  function Seen(v: Aggregation, e: PairEvent): Aggregation {
    var r := Relation(e.intermediary, e.account);
    if e.isOrigin then
      if r in v.graph.origins then v
      else Aggregation(WithOrigin(v.graph, r), v.dirtyOrigins + {r}, v.dirtyDests)
    else
      if r in v.graph.destinations then v
      else Aggregation(WithDestination(v.graph, r), v.dirtyOrigins, v.dirtyDests + {r})
  }

  function SeenAll(v: Aggregation, events: seq<PairEvent>): Aggregation {
    if events == [] then v else Seen(SeenAll(v, events[..|events| - 1]), events[|events| - 1])
  }

  function Applied(v: Aggregation, change: Change): Aggregation {
    v.(graph := match change
                case OriginChange(r) => WithOrigin(v.graph, r)
                case DestinationChange(r) => WithDestination(v.graph, r))
  }

  function Marked(v: Aggregation, changes: seq<Change>): Aggregation {
    v.(dirtyOrigins := v.dirtyOrigins + set x | x in changes && x.OriginChange? :: x.relation,
       dirtyDests := v.dirtyDests + set x | x in changes && x.DestinationChange? :: x.relation)
  }

  function OriginChanges(order: seq<Relation>): seq<Change> {
    if order == [] then [] else OriginChanges(order[..|order| - 1]) + [OriginChange(order[|order| - 1])]
  }

  function DestinationChanges(order: seq<Relation>): seq<Change> {
    if order == [] then [] else DestinationChanges(order[..|order| - 1]) + [DestinationChange(order[|order| - 1])]
  }

  // One change for each dirty relation, origins first, each kind in any order; nothing is dirty after.
  ghost predicate DrainedTo(v: Aggregation, changes: seq<Change>, v': Aggregation) {
    && v' == Aggregation(v.graph, {}, {})
    && exists o: seq<Relation>, d: seq<Relation> ::
         Enumerates(o, v.dirtyOrigins) && Enumerates(d, v.dirtyDests) && changes == OriginChanges(o) + DestinationChanges(d)
  }

  // base is what the log rebuilds; live has in addition what is dirty.
  ghost predicate AheadBy(live: Aggregation, base: Aggregation) {
    && base.dirtyOrigins == {} && base.dirtyDests == {}
    && live.graph.origins == base.graph.origins + live.dirtyOrigins
    && live.graph.destinations == base.graph.destinations + live.dirtyDests
  }

  ghost function AggregationProcessor(): Processor<Aggregation, PairEvent, Change, Graph> {
    Processor(NOTHING,
              (items: seq<PairEvent>) => true,
              (e: PairEvent) => false,
              (v, events) => SeenAll(v, events),
              (v, changes, v') => DrainedTo(v, changes, v'),
              (v, changes, v') => v' == Marked(v, changes),
              (v, change) => Applied(v, change),
              (v: Aggregation) => v.graph,
              (live, base) => AheadBy(live, base))
  }

  // ---- Only which relations there are matters ----

  ghost function GraphOf(events: seq<PairEvent>): Graph {
    Graph(set e | e in events && e.isOrigin :: Relation(e.intermediary, e.account),
          set e | e in events && !e.isOrigin :: Relation(e.intermediary, e.account))
  }

  ghost function GraphOfChanges(changes: seq<Change>): Graph {
    Graph(set x | x in changes && x.OriginChange? :: x.relation,
          set x | x in changes && x.DestinationChange? :: x.relation)
  }

  ghost function Both(a: Graph, b: Graph): Graph { Graph(a.origins + b.origins, a.destinations + b.destinations) }

  lemma {:induction false} SeenGraph(v: Aggregation, events: seq<PairEvent>)
    ensures SeenAll(v, events).graph == Both(v.graph, GraphOf(events))
  {
    if events != [] {
      var init, e := events[..|events| - 1], events[|events| - 1];
      SeenGraph(v, init);
      assert events == init + [e];
      var r := Relation(e.intermediary, e.account);
      if e.isOrigin {
        assert GraphOf(events) == WithOrigin(GraphOf(init), r);
      } else {
        assert GraphOf(events) == WithDestination(GraphOf(init), r);
      }
    }
  }

  lemma {:induction false} AppliedGraph(v: Aggregation, changes: seq<Change>)
    ensures ApplyAll(AggregationProcessor(), v, changes) == v.(graph := Both(v.graph, GraphOfChanges(changes)))
  {
    if changes != [] {
      var init, x := changes[..|changes| - 1], changes[|changes| - 1];
      AppliedGraph(v, init);
      assert changes == init + [x];
      if x.OriginChange? {
        assert GraphOfChanges(changes) == WithOrigin(GraphOfChanges(init), x.relation);
      } else {
        assert GraphOfChanges(changes) == WithDestination(GraphOfChanges(init), x.relation);
      }
    }
  }

  // The pair counts after any events depend only on which events there were: not on their order,
  // and not on how often each came.
  lemma CountsIgnoreOrder(a: seq<PairEvent>, b: seq<PairEvent>)
    requires forall e :: e in a <==> e in b
    ensures PairCounts(SeenAll(NOTHING, a).graph) == PairCounts(SeenAll(NOTHING, b).graph)
  {
    SeenGraph(NOTHING, a);
    SeenGraph(NOTHING, b);
    assert GraphOf(a) == GraphOf(b);
  }

  lemma SameGraphOfChanges(a: seq<Change>, b: seq<Change>)
    requires forall x :: x in a <==> x in b
    ensures GraphOfChanges(a) == GraphOfChanges(b)
  {
  }

  // Replaying changes in any order, any number of times, rebuilds the same counts.
  lemma ReplayIgnoresOrder(a: seq<Change>, b: seq<Change>)
    requires forall x :: x in a <==> x in b
    ensures PairCounts(ApplyAll(AggregationProcessor(), NOTHING, a).graph) ==
              PairCounts(ApplyAll(AggregationProcessor(), NOTHING, b).graph)
  {
    AppliedGraph(NOTHING, a);
    AppliedGraph(NOTHING, b);
    SameGraphOfChanges(a, b);
  }

  // ---- The laws ----

  lemma {:induction false} OriginChangesMember(order: seq<Relation>, x: Change)
    ensures x in OriginChanges(order) <==> x.OriginChange? && x.relation in order
  {
    if order != [] {
      OriginChangesMember(order[..|order| - 1], x);
      assert order == order[..|order| - 1] + [order[|order| - 1]];
    }
  }

  lemma {:induction false} DestinationChangesMember(order: seq<Relation>, x: Change)
    ensures x in DestinationChanges(order) <==> x.DestinationChange? && x.relation in order
  {
    if order != [] {
      DestinationChangesMember(order[..|order| - 1], x);
      assert order == order[..|order| - 1] + [order[|order| - 1]];
    }
  }

  // The drained changes hold exactly the dirty relations.
  lemma DrainedGraph(v: Aggregation, changes: seq<Change>, v': Aggregation)
    requires DrainedTo(v, changes, v')
    ensures GraphOfChanges(changes) == Graph(v.dirtyOrigins, v.dirtyDests)
  {
    var o, d :| Enumerates(o, v.dirtyOrigins) && Enumerates(d, v.dirtyDests)
                && changes == OriginChanges(o) + DestinationChanges(d);
    forall x ensures x in changes <==>
                       if x.OriginChange? then x.relation in v.dirtyOrigins else x.relation in v.dirtyDests
    {
      OriginChangesMember(o, x);
      DestinationChangesMember(d, x);
    }
    forall r ensures r in GraphOfChanges(changes).origins <==> r in v.dirtyOrigins {
      assert OriginChange(r) in changes <==> r in v.dirtyOrigins;
    }
    forall r ensures r in GraphOfChanges(changes).destinations <==> r in v.dirtyDests {
      assert DestinationChange(r) in changes <==> r in v.dirtyDests;
    }
  }

  lemma {:induction false} SeenStaysAhead(live: Aggregation, base: Aggregation, events: seq<PairEvent>)
    requires AheadBy(live, base)
    ensures AheadBy(SeenAll(live, events), base)
  {
    if events != [] { SeenStaysAhead(live, base, events[..|events| - 1]); }
  }

  lemma AggregationDrains(live: Aggregation, base: Aggregation, changes: seq<Change>, live': Aggregation)
    requires AheadBy(live, base) && DrainedTo(live, changes, live')
    ensures Drained(AggregationProcessor(), live, live', ApplyAll(AggregationProcessor(), base, changes))
  {
    DrainedGraph(live, changes, live');
    AppliedGraph(base, changes);
    assert ApplyAll(AggregationProcessor(), base, changes).graph == live.graph;
  }

  lemma AggregationProcesses()
    ensures Processes(AggregationProcessor())
  {
    var p := AggregationProcessor();
    forall live, base, events | p.rel(live, base) ensures p.rel(p.process(live, events), base) {
      SeenStaysAhead(live, base, events);
    }
    forall s, t, events | p.sem(s) == p.sem(t) ensures p.sem(p.process(s, events)) == p.sem(p.process(t, events)) {
      SeenGraph(s, events);
      SeenGraph(t, events);
    }
  }

  // So the exactly-once results hold for this processor, and it may take back a failed drain.
  lemma AggregationIsLawful()
    ensures Lawful(AggregationProcessor()) && Restores(AggregationProcessor())
  {
    var p := AggregationProcessor();
    AggregationProcesses();
    forall live, base, changes, live' | p.rel(live, base) && p.drains(live, changes, live')
      ensures Drained(p, live, live', ApplyAll(p, base, changes))
    {
      AggregationDrains(live, base, changes, live');
    }
    forall live, base, changes, live', live''
      | p.rel(live, base) && p.drains(live, changes, live') && p.restores(live', changes, live'')
      ensures TakenBack(p, live, base, live'')
    {
      AggregationRestores(live, base, changes, live', live'');
    }
  }

  lemma AggregationRestores(live: Aggregation, base: Aggregation, changes: seq<Change>, live': Aggregation, live'': Aggregation)
    requires AheadBy(live, base) && DrainedTo(live, changes, live') && live'' == Marked(live', changes)
    ensures live'' == live
  {
    DrainedGraph(live, changes, live');
    assert GraphOfChanges(changes).origins == live.dirtyOrigins && GraphOfChanges(changes).destinations == live.dirtyDests;
  }

  // ---- The processor object ----

  class AggregateByIntermediaryProcessor {
    var stores: map<string, IntermediaryStore>
    var dirtyOrigins: map<string, set<Relation>>
    var dirtyDests: map<string, set<Relation>>
    ghost var Repr: set<object>

    ghost predicate Valid()
      reads this, Repr
    {
      && this in Repr
      && (forall c :: c in stores ==> stores[c] in Repr && stores[c].Valid())
      && forall c, d :: c in stores && d in stores && c != d ==> stores[c] != stores[d]
    }

    ghost function View(c: string): Aggregation
      reads this, Repr
      requires c in stores ==> stores[c] in Repr
    {
      Aggregation(if c in stores then stores[c].Links() else EMPTY_GRAPH,
                  if c in dirtyOrigins then dirtyOrigins[c] else {},
                  if c in dirtyDests then dirtyDests[c] else {})
    }

    constructor ()
      ensures Valid() && fresh(Repr) && forall c :: View(c) == NOTHING
    {
      stores, dirtyOrigins, dirtyDests := map[], map[], map[];
      Repr := {this};
    }

    method GetOrCreateStore(c: string) returns (store: IntermediaryStore)
      requires Valid()
      modifies this`stores, this`Repr
      ensures Valid() && fresh(Repr - old(Repr)) && c in stores && stores[c] == store
      ensures c in old(stores) ==> store == old(stores[c])
      ensures forall d :: View(d) == old(View(d))
    {
      if c !in stores {
        store := new IntermediaryStore();
        stores := stores[c := store];
        Repr := Repr + {store};
      } else {
        store := stores[c];
      }
    }

    method MarkOriginAdded(c: string, r: Relation)
      requires Valid()
      modifies this`dirtyOrigins
      ensures Valid() && View(c) == old(View(c)).(dirtyOrigins := old(View(c)).dirtyOrigins + {r})
      ensures forall d :: d != c ==> View(d) == old(View(d))
    {
      dirtyOrigins := dirtyOrigins[c := (if c in dirtyOrigins then dirtyOrigins[c] else {}) + {r}];
    }

    method MarkDestinationAdded(c: string, r: Relation)
      requires Valid()
      modifies this`dirtyDests
      ensures Valid() && View(c) == old(View(c)).(dirtyDests := old(View(c)).dirtyDests + {r})
      ensures forall d :: d != c ==> View(d) == old(View(d))
    {
      dirtyDests := dirtyDests[c := (if c in dirtyDests then dirtyDests[c] else {}) + {r}];
    }

    method AddOrigin(c: string, r: Relation) returns (added: bool)
      requires Valid()
      modifies Repr
      ensures Valid() && fresh(Repr - old(Repr)) && added == (r !in old(View(c)).graph.origins)
      ensures View(c) == old(View(c)).(graph := WithOrigin(old(View(c)).graph, r))
      ensures forall d :: d != c ==> View(d) == old(View(d))
    {
      var store := GetOrCreateStore(c);
      assert store.Links() == old(View(c)).graph;
      added := store.AddOrigin(r.intermediary, r.account);
    }

    method AddDestination(c: string, r: Relation) returns (added: bool)
      requires Valid()
      modifies Repr
      ensures Valid() && fresh(Repr - old(Repr)) && added == (r !in old(View(c)).graph.destinations)
      ensures View(c) == old(View(c)).(graph := WithDestination(old(View(c)).graph, r))
      ensures forall d :: d != c ==> View(d) == old(View(d))
    {
      var store := GetOrCreateStore(c);
      assert store.Links() == old(View(c)).graph;
      added := store.AddDestination(r.intermediary, r.account);
    }

    method Process(c: string, e: PairEvent)
      requires Valid()
      modifies Repr
      ensures Valid() && fresh(Repr - old(Repr))
      ensures View(c) == Seen(old(View(c)), e) && forall d :: d != c ==> View(d) == old(View(d))
    {
      var r := Relation(e.intermediary, e.account);
      SeenAgain(View(c), e);
      if e.isOrigin {
        var added := AddOrigin(c, r);
        if added { MarkOriginAdded(c, r); }
      } else {
        var added := AddDestination(c, r);
        if added { MarkDestinationAdded(c, r); }
      }
    }

    method DrainChanges(c: string) returns (changes: seq<Change>)
      requires Valid()
      modifies this`dirtyOrigins, this`dirtyDests
      ensures Valid() && DrainedTo(old(View(c)), changes, View(c))
      ensures forall d :: d != c ==> View(d) == old(View(d))
    {
      var o := AnyOrder(if c in dirtyOrigins then dirtyOrigins[c] else {});
      var d := AnyOrder(if c in dirtyDests then dirtyDests[c] else {});
      changes := [];
      for i := 0 to |o|
        invariant changes == OriginChanges(o[..i])
      {
        assert o[..i + 1][..i] == o[..i];
        changes := changes + [OriginChange(o[i])];
      }
      assert o[..|o|] == o;
      for i := 0 to |d|
        invariant changes == OriginChanges(o) + DestinationChanges(d[..i])
      {
        assert d[..i + 1][..i] == d[..i];
        changes := changes + [DestinationChange(d[i])];
      }
      assert d[..|d|] == d;
      dirtyOrigins := dirtyOrigins - {c};
      dirtyDests := dirtyDests - {c};
    }

    method RestoreChanges(c: string, changes: seq<Change>)
      requires Valid()
      modifies this`dirtyOrigins, this`dirtyDests
      ensures Valid() && View(c) == Marked(old(View(c)), changes)
      ensures forall d :: d != c ==> View(d) == old(View(d))
    {
      assert Marked(View(c), []) == View(c);
      for i := 0 to |changes|
        invariant Valid() && View(c) == Marked(old(View(c)), changes[..i])
        invariant forall d :: d != c ==> View(d) == old(View(d))
      {
        assert changes[..i + 1] == changes[..i] + [changes[i]];
        match changes[i]
        case OriginChange(r) => MarkOriginAdded(c, r);
        case DestinationChange(r) => MarkDestinationAdded(c, r);
        MarkedNext(old(View(c)), changes[..i], changes[i]);
      }
      assert changes[..|changes|] == changes;
    }

    method ApplyChange(c: string, change: Change)
      requires Valid()
      modifies Repr
      ensures Valid() && fresh(Repr - old(Repr))
      ensures View(c) == Applied(old(View(c)), change) && forall d :: d != c ==> View(d) == old(View(d))
    {
      match change
      case OriginChange(r) => var _ := AddOrigin(c, r);
      case DestinationChange(r) => var _ := AddDestination(c, r);
    }

    // Every counted pair is yielded once; the client's state is gone afterwards, whether the
    // consumer took every result or failed on one.
    method Finalize(c: string) returns (ok: bool, total: nat, results: seq<(Pair, nat)>)
      requires Valid()
      modifies Repr
      ensures Valid() && fresh(Repr - old(Repr)) && View(c) == NOTHING && forall d :: d != c ==> View(d) == old(View(d))
      ensures Yielded(PairCounts(old(View(c)).graph), ok, total, results)
    {
      var store := GetOrCreateStore(c);
      assert store.Links() == old(View(c)).graph;
      var pairs := store.GetPairs();
      ok, total, results := YieldAll(pairs);
      Cleanup(c);
    }

    method Cleanup(c: string)
      requires Valid()
      modifies Repr
      ensures Valid() && fresh(Repr - old(Repr)) && View(c) == NOTHING && forall d :: d != c ==> View(d) == old(View(d))
    {
      var store := GetOrCreateStore(c);
      store.Clear();
      stores := stores - {c};
      dirtyOrigins := dirtyOrigins - {c};
      dirtyDests := dirtyDests - {c};
    }

    static method YieldAll(pairs: map<Pair, nat>) returns (ok: bool, total: nat, results: seq<(Pair, nat)>)
      ensures Yielded(pairs, ok, total, results)
    {
      var order := AnyOrder(pairs.Keys);
      results, total := [], 0;
      for i := 0 to |order|
        invariant total == |results| == i
        invariant forall j :: 0 <= j < i ==> order[j] in pairs && results[j] == (order[j], pairs[order[j]])
      {
        NextKey(order, pairs.Keys, i);
        total := total + 1;
        results := results + [(order[i], pairs[order[i]])];
        var failed: bool := *;
        if failed { return false, 0, results; }
      }
      EnumerationSize(order, pairs.Keys);
      assert |pairs| == |pairs.Keys|;
      forall p | p in pairs ensures (p, pairs[p]) in results {
        assert p in order;
        var i :| 0 <= i < |order| && order[i] == p;
        assert results[i] == (p, pairs[p]);
      }
      return true, total, results;
    }
  }

  // Each result once, all of them unless the consumer failed; the total is only given when none did.
  ghost predicate Yielded(counts: map<Pair, nat>, ok: bool, total: nat, results: seq<(Pair, nat)>) {
    && (forall i, j :: 0 <= i < j < |results| ==> results[i].0 != results[j].0)
    && (forall x :: x in results ==> x.0 in counts && x.1 == counts[x.0])
    && (ok ==> total == |counts| && forall p :: p in counts ==> (p, counts[p]) in results)
    && (!ok ==> total == 0)
  }

  lemma SeenAgain(v: Aggregation, e: PairEvent)
    ensures var r := Relation(e.intermediary, e.account);
            Seen(v, e) ==
              if e.isOrigin then
                var w := v.(graph := WithOrigin(v.graph, r));
                if r !in v.graph.origins then w.(dirtyOrigins := w.dirtyOrigins + {r}) else w
              else
                var w := v.(graph := WithDestination(v.graph, r));
                if r !in v.graph.destinations then w.(dirtyDests := w.dirtyDests + {r}) else w
  {
    var r := Relation(e.intermediary, e.account);
    assert r in v.graph.origins ==> WithOrigin(v.graph, r) == v.graph;
    assert r in v.graph.destinations ==> WithDestination(v.graph, r) == v.graph;
  }

  lemma MarkedNext(v: Aggregation, changes: seq<Change>, x: Change)
    ensures Marked(v, changes + [x]) ==
              match x
              case OriginChange(r) => Marked(v, changes).(dirtyOrigins := Marked(v, changes).dirtyOrigins + {r})
              case DestinationChange(r) => Marked(v, changes).(dirtyDests := Marked(v, changes).dirtyDests + {r})
  {
  }
}
