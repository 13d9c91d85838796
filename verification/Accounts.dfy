// The accounts of the scatter-gather query, and the two-sided relation around intermediaries.
module Accounts {

  datatype Account = Account(bank: int, account: string)

  datatype Pair = Pair(origin: Account, destination: Account)

  datatype Relation = Relation(intermediary: Account, account: Account)

  // Which accounts send to an intermediary, and which receive from it.
  datatype Graph = Graph(origins: set<Relation>, destinations: set<Relation>)

  const EMPTY_GRAPH := Graph({}, {})

  // The intermediaries that lead from the pair's origin to its destination.
  ghost function Between(g: Graph, p: Pair): set<Account> {
    set r | r in g.origins && r.account == p.origin && Relation(r.intermediary, p.destination) in g.destinations :: r.intermediary
  }

  ghost function Linked(g: Graph): set<Pair> {
    set r, s | r in g.origins && s in g.destinations && r.intermediary == s.intermediary :: Pair(r.account, s.account)
  }

  // Every pair that some intermediary links, with the number of those that do.
  ghost function PairCounts(g: Graph): map<Pair, nat> { map p | p in Linked(g) :: |Between(g, p)| }

  lemma BetweenMember(g: Graph, p: Pair, m: Account)
    ensures m in Between(g, p) <==> Relation(m, p.origin) in g.origins && Relation(m, p.destination) in g.destinations
  {
    if Relation(m, p.origin) in g.origins && Relation(m, p.destination) in g.destinations {
      var r := Relation(m, p.origin);
      assert r.intermediary in Between(g, p);
    }
  }

  // No pair is stored with a count of zero.
  lemma LinkedIsBetween(g: Graph, p: Pair)
    ensures p in Linked(g) <==> Between(g, p) != {}
    ensures p in Linked(g) <==> |Between(g, p)| > 0
  {
    if p in Linked(g) {
      var r, s :| r in g.origins && s in g.destinations && r.intermediary == s.intermediary && Pair(r.account, s.account) == p;
      BetweenMember(g, p, r.intermediary);
    }
    if m :| m in Between(g, p) {
      BetweenMember(g, p, m);
      var r, s := Relation(m, p.origin), Relation(m, p.destination);
      assert Pair(r.account, s.account) in Linked(g);
    }
  }

  function Count(counts: map<Pair, nat>, p: Pair): nat { if p in counts then counts[p] else 0 }

  lemma CountIsBetween(g: Graph, p: Pair)
    ensures Count(PairCounts(g), p) == |Between(g, p)|
  {
    LinkedIsBetween(g, p);
  }

  // ---- One relation more ----

  function WithOrigin(g: Graph, r: Relation): Graph { g.(origins := g.origins + {r}) }

  function WithDestination(g: Graph, r: Relation): Graph { g.(destinations := g.destinations + {r}) }

  lemma BetweenWithOrigin(g: Graph, r: Relation, p: Pair)
    requires r !in g.origins
    ensures r.account == p.origin ==> r.intermediary !in Between(g, p)
    ensures Between(WithOrigin(g, r), p) ==
              Between(g, p) + (if LinksOrigin(g, r, p) then {r.intermediary} else {})
  {
    BetweenMember(g, p, r.intermediary);
    forall m ensures m in Between(WithOrigin(g, r), p) <==>
                       m in Between(g, p) + (if LinksOrigin(g, r, p) then {r.intermediary} else {})
    {
      BetweenMember(g, p, m);
      BetweenMember(WithOrigin(g, r), p, m);
    }
  }

  predicate LinksOrigin(g: Graph, r: Relation, p: Pair) {
    p.origin == r.account && Relation(r.intermediary, p.destination) in g.destinations
  }

  predicate LinksDestination(g: Graph, r: Relation, p: Pair) {
    p.destination == r.account && Relation(r.intermediary, p.origin) in g.origins
  }

  // A new origin of an intermediary adds one to its pair with each destination of that
  // intermediary, and to no other pair.
  lemma NewOrigin(g: Graph, r: Relation, p: Pair)
    requires r !in g.origins
    ensures Count(PairCounts(WithOrigin(g, r)), p) ==
              Count(PairCounts(g), p) + (if LinksOrigin(g, r, p) then 1 else 0)
  {
    CountIsBetween(g, p);
    CountIsBetween(WithOrigin(g, r), p);
    BetweenWithOrigin(g, r, p);
  }

  lemma BetweenWithDestination(g: Graph, r: Relation, p: Pair)
    requires r !in g.destinations
    ensures r.account == p.destination ==> r.intermediary !in Between(g, p)
    ensures Between(WithDestination(g, r), p) ==
              Between(g, p) + (if LinksDestination(g, r, p) then {r.intermediary} else {})
  {
    BetweenMember(g, p, r.intermediary);
    forall m ensures m in Between(WithDestination(g, r), p) <==>
                       m in Between(g, p) + (if LinksDestination(g, r, p) then {r.intermediary} else {})
    {
      BetweenMember(g, p, m);
      BetweenMember(WithDestination(g, r), p, m);
    }
  }

  lemma NewDestination(g: Graph, r: Relation, p: Pair)
    requires r !in g.destinations
    ensures Count(PairCounts(WithDestination(g, r)), p) ==
              Count(PairCounts(g), p) + (if LinksDestination(g, r, p) then 1 else 0)
  {
    CountIsBetween(g, p);
    CountIsBetween(WithDestination(g, r), p);
    BetweenWithDestination(g, r, p);
  }

  // A map of positive counts is determined by what it counts.
  lemma SameCounts(counts: map<Pair, nat>, g: Graph)
    requires forall p :: p in counts ==> counts[p] > 0
    requires forall p :: Count(counts, p) == Count(PairCounts(g), p)
    ensures counts == PairCounts(g)
  {
    forall p ensures p in counts <==> p in PairCounts(g) {
      LinkedIsBetween(g, p);
      assert Count(counts, p) == Count(PairCounts(g), p);
    }
    forall p | p in counts ensures counts[p] == PairCounts(g)[p] {
      assert Count(counts, p) == Count(PairCounts(g), p);
    }
  }

  // Counts with one more for each pair that the new relation links are those of the larger graph.
  lemma CountsWithOrigin(counts: map<Pair, nat>, g: Graph, r: Relation)
    requires r !in g.origins && forall p :: p in counts ==> counts[p] > 0
    requires forall p :: Count(counts, p) == Count(PairCounts(g), p) + (if LinksOrigin(g, r, p) then 1 else 0)
    ensures counts == PairCounts(WithOrigin(g, r))
  {
    forall p ensures Count(counts, p) == Count(PairCounts(WithOrigin(g, r)), p) {
      NewOrigin(g, r, p);
    }
    SameCounts(counts, WithOrigin(g, r));
  }

  lemma CountsWithDestination(counts: map<Pair, nat>, g: Graph, r: Relation)
    requires r !in g.destinations && forall p :: p in counts ==> counts[p] > 0
    requires forall p :: Count(counts, p) == Count(PairCounts(g), p) + (if LinksDestination(g, r, p) then 1 else 0)
    ensures counts == PairCounts(WithDestination(g, r))
  {
    forall p ensures Count(counts, p) == Count(PairCounts(WithDestination(g, r)), p) {
      NewDestination(g, r, p);
    }
    SameCounts(counts, WithDestination(g, r));
  }

  lemma CountsPositive(g: Graph)
    ensures forall p :: p in PairCounts(g) ==> PairCounts(g)[p] > 0
  {
    forall p | p in PairCounts(g) ensures PairCounts(g)[p] > 0 {
      LinkedIsBetween(g, p);
    }
  }
}
