// What the workers of the scatter-gather query know at any moment of any run, whatever was
// delivered again, replayed or cut by a crash: the aggregators the graph of the accepted pairs, the
// joins the sums of the accepted counts. On that the plan of ScatterGatherQuery builds.
module QueryOverRuns {
  import opened AcceptedItems
  import opened Accounts
  import opened Checkpoint
  import Aggregate
  import Join = ScatterGatherJoin
  import ScatterGatherQuery

  lemma {:induction false} SeenConcat(v: Aggregate.Aggregation, a: seq<Aggregate.PairEvent>,
                                      b: seq<Aggregate.PairEvent>)
    ensures Aggregate.SeenAll(Aggregate.SeenAll(v, a), b) == Aggregate.SeenAll(v, a + b)
  {
    if b == [] {
      assert a + b == a;
    } else {
      assert (a + b)[..|a + b| - 1] == a + b[..|b| - 1];
      SeenConcat(v, a, b[..|b| - 1]);
    }
  }

  lemma {:induction false} AddedConcat(v: Join.Join, a: seq<Join.Path>, b: seq<Join.Path>)
    ensures Join.AddedAll(Join.AddedAll(v, a), b) == Join.AddedAll(v, a + b)
  {
    if b == [] {
      assert a + b == a;
    } else {
      assert (a + b)[..|a + b| - 1] == a + b[..|b| - 1];
      AddedConcat(v, a, b[..|b| - 1]);
    }
  }

  // An aggregator counts for every pair the intermediaries between its accounts among all accepted
  // events, however often and in whatever order those came.
  lemma CountsOverRuns(data: map<string, seq<Aggregate.PairEvent>>, every: nat,
                       states: seq<System<Aggregate.Aggregation, Aggregate.Change>>,
                       steps: seq<Step<Aggregate.Aggregation, Aggregate.Change>>, i: nat, q: Pair)
    requires IsSoundRun(Aggregate.AggregationProcessor(), data, every, states, steps) && i < |states|
    ensures var events := ItemsOf(Aggregate.AggregationProcessor(), data, Accepted(states[i]));
            Count(PairCounts(states[i].proc.graph), q) ==
              |set e | e in events && e.isOrigin && e.account == q.origin
                       && Aggregate.PairEvent(e.intermediary, q.destination, false) in events :: e.intermediary|
  {
    var p := Aggregate.AggregationProcessor();
    Aggregate.AggregationIsLawful();
    forall s, a, b ensures p.process(p.process(s, a), b) == p.process(s, a + b) {
      SeenConcat(s, a, b);
    }
    StateIsOfItems(p, data, every, states, steps, i);
    var events := ItemsOf(p, data, Accepted(states[i]));
    Aggregate.SeenGraph(Aggregate.NOTHING, events);
    CountIsBetween(states[i].proc.graph, q);
    BetweenEvents(states[i].proc.graph, events, q);
  }

  lemma BetweenEvents(g: Graph, events: seq<Aggregate.PairEvent>, q: Pair)
    requires g == Aggregate.Both(EMPTY_GRAPH, Aggregate.GraphOf(events))
    ensures Between(g, q) == set e | e in events && e.isOrigin && e.account == q.origin
                                     && Aggregate.PairEvent(e.intermediary, q.destination,
                                         false) in events :: e.intermediary
  {
    var between := set e | e in events && e.isOrigin && e.account == q.origin
                           && Aggregate.PairEvent(e.intermediary, q.destination, false) in events :: e.intermediary;
    forall m ensures m in Between(g, q) <==> m in between {
      BetweenMember(g, q, m);
      var to, from := Aggregate.PairEvent(m, q.destination, false), Aggregate.PairEvent(m, q.origin, true);
      if to in events { assert Relation(to.intermediary, to.account) == Relation(m, q.destination); }
      if from in events { assert Relation(from.intermediary, from.account) == Relation(m, q.origin); }
    }
  }

  // A join worker holds for every pair the sum of the partial counts accepted for it.
  lemma SumsOverRuns(ps: Join.Pairs, data: map<string, seq<Join.Path>>, every: nat,
                     states: seq<System<Join.Join, Join.Change>>, steps: seq<Step<Join.Join, Join.Change>>, i: nat,
                     q: Pair)
    requires Join.Injective(ps) && Admitted(Join.JoinProcessor(ps), data)
    requires IsSoundRun(Join.JoinProcessor(ps), data, every, states, steps) && i < |states|
    ensures Count(states[i].proc.paths, q) ==
              ScatterGatherQuery.Total(ItemsOf(Join.JoinProcessor(ps), data, Accepted(states[i])), q)
  {
    var p := Join.JoinProcessor(ps);
    Join.JoinIsLawful(ps);
    forall s, a, b ensures p.process(p.process(s, a), b) == p.process(s, a + b) {
      AddedConcat(s, a, b);
    }
    StateIsOfItems(p, data, every, states, steps, i);
    ScatterGatherQuery.AddedIsTotal(ItemsOf(p, data, Accepted(states[i])), q);
  }
}
