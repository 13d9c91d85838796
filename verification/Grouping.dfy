// Grouping transfers by one side, with small groups left out, and spreading accounts over shards.
module Grouping {
  import opened MapOrder
  import opened Accounts
  import Text

  const MIN_GROUP := 5

  datatype Transfer = Transfer(from: Account, to: Account)

  datatype Link = Link(base: Account, related: Account)

  datatype Group = Group(base: Account, related: seq<Account>)

  function LinkOf(t: Transfer, byOrigin: bool): Link { if byOrigin then Link(t.from, t.to) else Link(t.to, t.from) }

  ghost function Related(links: set<Link>, base: Account): set<Account> {
    set l | l in links && l.base == base :: l.related
  }

  // The groups sent on: one for each base with enough different related accounts, naming each of
  // them once.
  ghost predicate AreGroupsOf(groups: seq<Group>, links: set<Link>) {
    && SomeGroupsOf(groups, links)
    && (forall b :: |Related(links, b)| >= 5 ==> exists g :: g in groups && g.base == b)
  }

  // Nothing else, but perhaps not all of them.
  ghost predicate SomeGroupsOf(groups: seq<Group>, links: set<Link>) {
    && (forall i, j :: 0 <= i < j < |groups| ==> groups[i].base != groups[j].base)
    && (forall g :: g in groups ==> |Related(links, g.base)| >= 5 && Enumerates(g.related, Related(links, g.base)))
  }

  class AccountStore {
    var data: map<Account, set<Account>>

    ghost function Links(): set<Link>
      reads this
    {
      set b, r | b in data.Keys && r in data[b] :: Link(b, r)
    }

    constructor ()
      ensures Links() == {}
    {
      data := map[];
    }

    method Add(account1: Account, account2: Account) returns (added: bool)
      modifies this
      ensures Links() == old(Links()) + {Link(account1, account2)}
      ensures added == (Link(account1, account2) !in old(Links()))
    {
      if account1 !in data {
        data := data[account1 := {}];
      }
      if account2 in data[account1] { return false; }
      data := data[account1 := data[account1] + {account2}];
      return true;
    }

    method Clear()
      modifies this
      ensures Links() == {}
    {
      data := map[];
    }

    lemma RelatedIs(b: Account)
      ensures Related(Links(), b) == if b in data then data[b] else {}
    {
      forall r ensures r in Related(Links(), b) <==> b in data && r in data[b] {
        if b in data && r in data[b] { assert Link(b, r) in Links(); }
      }
    }
  }

  // One client of the grouping by origin or by destination, which differ only in the base.
  class GroupByClient {
    const byOrigin: bool
    const store: AccountStore

    constructor (byOrigin: bool)
      ensures this.byOrigin == byOrigin && fresh(store) && store.Links() == {}
    {
      this.byOrigin := byOrigin;
      store := new AccountStore();
    }

    method Process(t: Transfer)
      modifies store
      ensures store.Links() == old(store.Links()) + {LinkOf(t, byOrigin)}
    {
      if byOrigin {
        var _ := store.Add(t.from, t.to);
      } else {
        var _ := store.Add(t.to, t.from);
      }
    }

    // The groups that are large enough, in any order; then the store is emptied.
    // The consumer may refuse a group: then the store stays as it is.
    method Finalize() returns (ok: bool, groups: seq<Group>, totalGroups: nat)
      modifies store
      ensures ok ==> AreGroupsOf(groups, old(store.Links())) && totalGroups == |groups| && store.Links() == {}
      ensures !ok ==> SomeGroupsOf(groups, old(store.Links())) && totalGroups == 0 && store.Links() == old(store.Links())
    {
      var bases := AnyOrder(store.data.Keys);
      groups, totalGroups := [], 0;
      for i := 0 to |bases|
        invariant unchanged(store) && totalGroups == |groups|
        invariant forall g :: g in groups ==> g.base in bases[..i]
        invariant forall j, k :: 0 <= j < k < |groups| ==> groups[j].base != groups[k].base
        invariant forall g :: g in groups ==>
                    |store.data[g.base]| >= 5 && Enumerates(g.related, store.data[g.base])
        invariant forall b :: b in bases[..i] && |store.data[b]| >= 5 ==> exists g :: g in groups && g.base == b
      {
        NextKey(bases, store.data.Keys, i);
        var base := bases[i];
        if |store.data[base]| < MIN_GROUP { continue; }
        totalGroups := totalGroups + 1;
        var related := AnyOrder(store.data[base]);
        var accepted: bool := *;
        if !accepted {
          RelatedOfAll();
          return false, groups, 0;
        }
        ghost var before := groups;
        groups := groups + [Group(base, related)];
        assert Group(base, related) in groups;
        assert forall g :: g in before ==> g in groups;
      }
      assert bases[..|bases|] == bases;
      RelatedOfAll();
      store.Clear();
      ok := true;
    }

    lemma RelatedOfAll()
      ensures forall b :: Related(store.Links(), b) == if b in store.data then store.data[b] else {}
    {
      forall b ensures Related(store.Links(), b) == if b in store.data then store.data[b] else {} {
        store.RelatedIs(b);
      }
    }
  }

  // ---- Routing ----

  // The shard of an account: the hash of its bank and name, whatever it is, modulo the shards.
  function Shard(hash: Account -> nat, a: Account, shards: nat): (s: nat)
    requires shards >= 1
    ensures s < shards
  {
    hash(a) % shards
  }

  // Two accounts share a shard exactly when their hashes differ by a multiple of the shards.
  lemma SharedShard(hash: Account -> nat, a: Account, b: Account, shards: nat)
    requires shards >= 1
    ensures Shard(hash, a, shards) == Shard(hash, b, shards) <==> exists k: int :: hash(a) == hash(b) + k * shards
  {
    var x, y := hash(a), hash(b);
    if x % shards == y % shards {
      assert x == y + (x / shards - y / shards) * shards;
    }
    if k: int :| x == y + k * shards { SameRemainder(x, y, k, shards); }
  }

  lemma SameRemainder(x: nat, y: nat, k: int, n: nat)
    requires n >= 1 && x == y + k * n
    ensures x % n == y % n
  {
    assert x == n * (x / n) + x % n && y == n * (y / n) + y % n;
    var d := k + y / n - x / n;
    assert x % n - y % n == d * n;
    Text.Multiple(d, n);
  }

  datatype RoutedPair = RoutedPair(route: nat, intermediary: Account, account: Account)

  function Routed(hash: Account -> nat, routes: nat, g: Group): seq<RoutedPair>
    requires routes >= 1
  {
    seq(|g.related|,
        i requires 0 <= i < |g.related| => RoutedPair(Shard(hash, g.related[i], routes), g.related[i], g.base))
  }

  // A group is taken apart again: each related account is an intermediary, and goes where it belongs.
  method RouteGroup(hash: Account -> nat, routes: nat, g: Group) returns (results: seq<RoutedPair>)
    requires routes >= 1
    ensures results == Routed(hash, routes, g)
    ensures |results| == |g.related|
    ensures forall i :: 0 <= i < |results| ==> results[i].intermediary == g.related[i] && results[i].account == g.base
  {
    results := [];
    for i := 0 to |g.related|
      invariant |results| == i
      invariant forall j :: 0 <= j < i ==> results[j] == RoutedPair(Shard(hash, g.related[j], routes), g.related[j], g.base)
    {
      results := results + [RoutedPair(Shard(hash, g.related[i], routes), g.related[i], g.base)];
    }
  }
}
