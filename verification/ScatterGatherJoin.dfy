// The scatter-gather join: partial pair counts are added up, and the tracker logs the difference
// between the counts and a snapshot of them keyed by strings.
module ScatterGatherJoin {
  import opened Text
  import opened MapOrder
  import opened Accounts
  import opened Checkpoint

  const THRESHOLD := 5

  datatype Path = Path(pair: Pair, intermediaryCount: nat)

  datatype Change = PathChange(pair: Pair, count: nat)

  // One client; stored tells whether a store exists for it.
  datatype Join = Join(stored: bool, paths: map<Pair, nat>, dirty: bool, snapshot: map<string, nat>)

  const NOTHING := Join(false, map[], false, map[])

  // ---- Keys ----

  function AccountKey(a: Account): string { DecimalInt(a.bank) + "|" + a.account }

  function PairKey(p: Pair): string { AccountKey(p.origin) + "|" + AccountKey(p.destination) }

  predicate Clean(p: Pair) { Free(p.origin.account, '|') && Free(p.destination.account, '|') }

  lemma CutAt(a: string, c: char, b: string, a': string, b': string)
    requires Free(a, c) && Free(a', c) && a + [c] + b == a' + [c] + b'
    ensures a == a' && b == b'
  {
    IndexOfFirst(a, c, b);
    IndexOfFirst(a', c, b');
    assert a == (a + [c] + b)[..|a|] && a' == (a' + [c] + b')[..|a'|];
    assert b == (a + [c] + b)[|a| + 1..] && b' == (a' + [c] + b')[|a'| + 1..];
  }

  // Account names without the separator make the keys of different pairs different.
  lemma KeyInjective(p: Pair, q: Pair)
    requires Clean(p) && Clean(q) && PairKey(p) == PairKey(q)
    ensures p == q
  {
    var tail := (x: Pair) => x.origin.account + "|" + AccountKey(x.destination);
    assert PairKey(p) == DecimalInt(p.origin.bank) + "|" + tail(p);
    assert PairKey(q) == DecimalInt(q.origin.bank) + "|" + tail(q);
    DecimalIntFree(p.origin.bank, '|');
    DecimalIntFree(q.origin.bank, '|');
    CutAt(DecimalInt(p.origin.bank), '|', tail(p), DecimalInt(q.origin.bank), tail(q));
    CutAt(p.origin.account, '|', AccountKey(p.destination), q.origin.account, AccountKey(q.destination));
    DecimalIntFree(p.destination.bank, '|');
    DecimalIntFree(q.destination.bank, '|');
    CutAt(DecimalInt(p.destination.bank), '|', p.destination.account, DecimalInt(q.destination.bank), q.destination.account);
    DecimalIntInjective(p.origin.bank, q.origin.bank);
    DecimalIntInjective(p.destination.bank, q.destination.bank);
  }

  // With the separator in a name they need not be: whatever the banks and the rest of the names, the
  // bank number and name after a separator in the origin's name can as well start the destination.
  lemma KeysCollide(a: int, b: int, c: int, x: string, y: string, z: string)
    ensures var p := Pair(Account(a, x + "|" + (DecimalInt(b) + "|" + y)), Account(c, z));
            var q := Pair(Account(a, x), Account(b, y + "|" + (DecimalInt(c) + "|" + z)));
            p != q && PairKey(p) == PairKey(q)
  {
    var front, middle, back := DecimalInt(a) + "|", DecimalInt(b) + "|" + y, DecimalInt(c) + "|" + z;
    assert |x + "|" + middle| > |x|;
    Regroup(front, x, "|" + middle);
    Regroup(x, "|", middle);
    Regroup(DecimalInt(b) + "|", y, "|" + back);
    Regroup(y, "|", back);
    assert front + (x + "|" + middle) + "|" + back == front + x + "|" + (DecimalInt(b) + "|" + (y + "|" + back));
  }

  // p's key read another way: what follows a separator in p's origin name is the number of q's
  // destination bank, and the rest of the key is q's destination name.
  ghost predicate Shifted(p: Pair, q: Pair) {
    && p.origin.bank == q.origin.bank
    && var cut := q.origin.account + "|" + DecimalInt(q.destination.bank);
       || (p.origin.account == cut && q.destination.account == AccountKey(p.destination))
       || exists y: string :: p.origin.account == cut + "|" + y && q.destination.account == y + "|" + AccountKey(p.destination)
  }

  // Two pairs have one key exactly when they are the same, or one's key reads as the other.
  lemma KeysCollideIff(p: Pair, q: Pair)
    ensures PairKey(p) == PairKey(q) <==> p == q || Shifted(p, q) || Shifted(q, p)
  {
    if Shifted(p, q) { ShiftedCollide(p, q); }
    if Shifted(q, p) { ShiftedCollide(q, p); }
    if PairKey(p) == PairKey(q) {
      SameBank(p, q);
      if |p.origin.account| >= |q.origin.account| { CollidersAreShifted(p, q); } else { CollidersAreShifted(q, p); }
    }
  }

  lemma ShiftedText<X>(front: seq<X>, a: seq<X>, bar: seq<X>, c: seq<X>, key: seq<X>)
    ensures front + (a + bar + c) + bar + key == front + a + bar + (c + bar + key)
  {
  }

  lemma ShiftedCollide(p: Pair, q: Pair)
    requires Shifted(p, q)
    ensures PairKey(p) == PairKey(q)
  {
    var front, a, c, key := DecimalInt(p.origin.bank) + "|", q.origin.account, DecimalInt(q.destination.bank), AccountKey(p.destination);
    if p.origin.account == a + "|" + c && q.destination.account == key {
      ShiftedText(front, a, "|", c, key);
    } else {
      var y: string :| p.origin.account == a + "|" + c + "|" + y && q.destination.account == y + "|" + key;
      ShiftedText(front, a, "|", c + "|" + y, key);
      Regroup(a + "|", c + "|", y);
      Regroup(c + "|", y, "|" + key);
      assert p.origin.account == a + "|" + (c + "|" + y);
      assert c + "|" + (y + "|" + key) == c + "|" + y + "|" + key;
    }
  }

  // What the key has after the bank of the origin.
  function KeyTail(p: Pair): string { p.origin.account + "|" + AccountKey(p.destination) }

  lemma SameBank(p: Pair, q: Pair)
    requires PairKey(p) == PairKey(q)
    ensures p.origin.bank == q.origin.bank && KeyTail(p) == KeyTail(q)
  {
    assert PairKey(p) == DecimalInt(p.origin.bank) + ['|'] + KeyTail(p);
    assert PairKey(q) == DecimalInt(q.origin.bank) + ['|'] + KeyTail(q);
    DecimalIntFree(p.origin.bank, '|');
    DecimalIntFree(q.origin.bank, '|');
    CutAt(DecimalInt(p.origin.bank), '|', KeyTail(p), DecimalInt(q.origin.bank), KeyTail(q));
    DecimalIntInjective(p.origin.bank, q.origin.bank);
  }

  lemma SameAccount(p: Account, q: Account)
    requires AccountKey(p) == AccountKey(q)
    ensures p == q
  {
    DecimalIntFree(p.bank, '|');
    DecimalIntFree(q.bank, '|');
    CutAt(DecimalInt(p.bank), '|', p.account, DecimalInt(q.bank), q.account);
    DecimalIntInjective(p.bank, q.bank);
  }

  lemma LongerName(x: string, k: string, x': string, k': string)
    requires x + "|" + k == x' + "|" + k' && |x| > |x'|
    ensures var u := x[|x'| + 1..]; x == x' + "|" + u && u + "|" + k == k'
  {
    var whole := x + "|" + k;
    assert x == whole[..|x|] && whole == x' + "|" + k';
    assert x[|x'|] == whole[|x'|] == '|';
    assert x' == whole[..|x'|] == x[..|x'|];
    assert x[|x'| + 1..] + "|" + k == whole[|x'| + 1..] == k';
  }

  lemma SameLength(x: string, k: string, x': string, k': string)
    requires x + "|" + k == x' + "|" + k' && |x| == |x'|
    ensures x == x' && k == k'
  {
    assert x == (x + "|" + k)[..|x|] && k == (x + "|" + k)[|x| + 1..];
    assert x' == (x' + "|" + k')[..|x|] && k' == (x' + "|" + k')[|x| + 1..];
  }

  lemma CollidersAreShifted(p: Pair, q: Pair)
    requires p.origin.bank == q.origin.bank && KeyTail(p) == KeyTail(q) && |p.origin.account| >= |q.origin.account|
    ensures p == q || Shifted(p, q)
  {
    var x, x', c := p.origin.account, q.origin.account, DecimalInt(q.destination.bank);
    if |x| == |x'| {
      SameLength(x, AccountKey(p.destination), x', AccountKey(q.destination));
      SameAccount(p.destination, q.destination);
    } else {
      var u := x[|x'| + 1..];
      LongerName(x, AccountKey(p.destination), x', AccountKey(q.destination));
      DecimalIntFree(q.destination.bank, '|');
      TailOfName(u, AccountKey(p.destination), c, q.destination.account);
      if u != c {
        var y: string :| u == c + "|" + y && q.destination.account == y + "|" + AccountKey(p.destination);
        assert x == x' + "|" + c + "|" + y;
      }
    }
  }

  lemma BarInLonger(u: string, key: string, c: string, name: string)
    requires u + "|" + key == c + "|" + name && |u| < |c|
    ensures !Free(c, '|')
  {
    assert (c + "|" + name)[|u|] == c[|u|] == (u + "|" + key)[|u|];
  }

  lemma TailOfName(u: string, key: string, c: string, name: string)
    requires Free(c, '|') && u + "|" + key == c + "|" + name
    ensures (u == c && name == key) || exists y: string :: u == c + "|" + y && name == y + "|" + key
  {
    var whole := u + "|" + key;
    if |u| < |c| {
      BarInLonger(u, key, c, name);
    } else if |u| == |c| {
      assert u == whole[..|u|] == c && key == whole[|u| + 1..] == name;
    } else {
      var y := u[|c| + 1..];
      assert whole[|c|] == '|' && whole[..|c|] == c && whole[|c| + 1..] == name;
      assert u == c + "|" + y && name == y + "|" + key;
    }
  }

  // ---- The processor ----

  function Added(v: Join, x: Path): Join {
    Join(true, v.paths[x.pair := Count(v.paths, x.pair) + x.intermediaryCount], true, v.snapshot)
  }

  function AddedAll(v: Join, items: seq<Path>): Join {
    if items == [] then v else Added(AddedAll(v, items[..|items| - 1]), items[|items| - 1])
  }

  // ---- The tracker ----

  predicate Changed(prev: map<string, nat>, p: Pair, count: nat) { PairKey(p) !in prev || prev[PairKey(p)] != count }

  function PathChanges(paths: map<Pair, nat>, prev: map<string, nat>, order: seq<Pair>): seq<Change> {
    if order == [] then []
    else
      var p := order[|order| - 1];
      PathChanges(paths, prev, order[..|order| - 1])
      + (if p in paths && Changed(prev, p, paths[p]) then [PathChange(p, paths[p])] else [])
  }

  lemma NextChange(paths: map<Pair, nat>, prev: map<string, nat>, order: seq<Pair>, i: nat)
    requires i < |order| && order[i] in paths
    ensures PathChanges(paths, prev, order[..i + 1]) ==
              if Changed(prev, order[i], paths[order[i]])
              then PathChanges(paths, prev, order[..i]) + [PathChange(order[i], paths[order[i]])]
              else PathChanges(paths, prev, order[..i])
  {
    assert order[..i + 1][..i] == order[..i];
  }

  lemma NextShot(paths: map<Pair, nat>, order: seq<Pair>, i: nat)
    requires i < |order| && order[i] in paths
    ensures Snapshot(paths, order[..i + 1]) == Snapshot(paths, order[..i])[PairKey(order[i]) := paths[order[i]]]
  {
    assert order[..i + 1][..i] == order[..i];
  }

  const ZERO_PAIR := Pair(Account(0, ""), Account(0, ""))

  predicate HasKey(paths: map<Pair, nat>, k: string) { exists p :: p in paths && PairKey(p) == k }

  // A key that no pair has any more is logged as a count of zero, for an empty pair.
  function Removals(paths: map<Pair, nat>, keys: seq<string>): seq<Change> {
    if keys == [] then []
    else Removals(paths, keys[..|keys| - 1]) + (if HasKey(paths, keys[|keys| - 1]) then [] else [PathChange(ZERO_PAIR, 0)])
  }

  function Snapshot(paths: map<Pair, nat>, order: seq<Pair>): map<string, nat> {
    if order == [] then map[]
    else
      var p := order[|order| - 1];
      var s := Snapshot(paths, order[..|order| - 1]);
      if p in paths then s[PairKey(p) := paths[p]] else s
  }

  ghost predicate DrainedTo(v: Join, changes: seq<Change>, v': Join) {
    if !v.dirty || !v.stored then changes == [] && v' == v
    else
      exists o: seq<Pair>, k: seq<string>, s: seq<Pair> :: DrainedIn(v, changes, v', o, k, s)
  }

  // The drain with its three loops in these orders: pairs, old keys, pairs for the new snapshot.
  ghost predicate DrainedIn(v: Join, changes: seq<Change>, v': Join, o: seq<Pair>, k: seq<string>, s: seq<Pair>) {
    && Enumerates(o, v.paths.Keys) && Enumerates(k, v.snapshot.Keys) && Enumerates(s, v.paths.Keys)
    && changes == PathChanges(v.paths, v.snapshot, o) + Removals(v.paths, k)
    && v' == v.(dirty := false, snapshot := Snapshot(v.paths, s))
  }

  function Applied(v: Join, change: Change): Join {
    Join(true, v.paths[change.pair := change.count], v.dirty, v.snapshot[PairKey(change.pair) := change.count])
  }

  function PutBack(v: Join, changes: seq<Change>): Join {
    if changes == [] then v
    else
      var w := PutBack(v, changes[..|changes| - 1]);
      var x := changes[|changes| - 1];
      if x.count == 0 then w.(stored := true) else Join(true, w.paths[x.pair := x.count], true, w.snapshot)
  }

  // A pair that is given back with the count n only, and not with zero.
  ghost predicate GivenBackAs(changes: seq<Change>, p: Pair, n: nat) {
    && n > 0 && (exists x :: x in changes && x.pair == p && x.count == n)
    && forall x :: x in changes && x.pair == p && x.count > 0 ==> x.count == n
  }

  // Pairs given back have the count they were given back with, others keep theirs, the snapshot stays,
  // and the client is dirty again as soon as one count that is not zero was given back.
  lemma {:induction false} PutBackIs(v: Join, changes: seq<Change>, p: Pair)
    ensures var w := PutBack(v, changes);
            && w.snapshot == v.snapshot && (w.stored <==> v.stored || changes != [])
            && (w.dirty <==> v.dirty || exists x :: x in changes && x.count > 0)
            && (forall n :: GivenBackAs(changes, p, n) ==> p in w.paths && w.paths[p] == n)
            && ((forall x :: x in changes && x.pair == p ==> x.count == 0) ==>
                  (p in w.paths <==> p in v.paths) && Count(w.paths, p) == Count(v.paths, p))
  {
    if changes != [] {
      var init, x := changes[..|changes| - 1], changes[|changes| - 1];
      PutBackIs(v, init, p);
      assert changes == init + [x] && x in changes;
      forall n | GivenBackAs(changes, p, n) ensures p in PutBack(v, changes).paths && PutBack(v, changes).paths[p] == n {
        if x.pair != p || x.count == 0 { assert GivenBackAs(init, p, n); }
      }
    }
  }

  // The counts under their keys.
  ghost predicate Mirrors(snapshot: map<string, nat>, paths: map<Pair, nat>) {
    && (forall p :: p in paths ==> PairKey(p) in snapshot && snapshot[PairKey(p)] == paths[p])
    && (forall k :: k in snapshot ==> HasKey(paths, k))
  }

  // The pairs that can occur; over them no two keys are the same.
  type Pairs = Pair -> bool

  ghost predicate AllIn(ps: Pairs, paths: map<Pair, nat>) { forall p :: p in paths ==> ps(p) }

  ghost predicate Injective(ps: Pairs) { forall p, q :: ps(p) && ps(q) && PairKey(p) == PairKey(q) ==> p == q }

  // base is what the log rebuilds: the counts at the last drain. Pairs are never removed.
  ghost predicate AheadBy(ps: Pairs, live: Join, base: Join) {
    && !base.dirty && AllIn(ps, live.paths) && AllIn(ps, base.paths)
    && Mirrors(base.snapshot, base.paths) && live.snapshot == base.snapshot
    && base.paths.Keys <= live.paths.Keys
    && (live.dirty ==> live.stored) && (!live.dirty ==> live.paths == base.paths)
  }

  ghost function JoinProcessor(ps: Pairs): Processor<Join, Path, Change, map<Pair, nat>> {
    Processor(NOTHING,
              (items: seq<Path>) => forall x :: x in items ==> ps(x.pair),
              (x: Path) => false,
              (v, items: seq<Path>) => AddedAll(v, items),
              (v, changes, v') => DrainedTo(v, changes, v'),
              (v, changes, v') => v' == PutBack(v, changes),
              (v, change) => Applied(v, change),
              (v: Join) => v.paths,
              (live, base) => AheadBy(ps, live, base))
  }

  // ---- The laws ----

  lemma {:induction false} AddedStaysAhead(ps: Pairs, live: Join, base: Join, items: seq<Path>)
    requires AheadBy(ps, live, base) && forall x :: x in items ==> ps(x.pair)
    ensures AheadBy(ps, AddedAll(live, items), base)
  {
    if items != [] { AddedStaysAhead(ps, live, base, items[..|items| - 1]); }
  }

  lemma {:induction false} AddedSame(v: Join, w: Join, items: seq<Path>)
    requires v.paths == w.paths
    ensures AddedAll(v, items).paths == AddedAll(w, items).paths
  {
    if items != [] { AddedSame(v, w, items[..|items| - 1]); }
  }

  // Each change names a pair whose count is not the one in the snapshot, with its count.
  lemma {:induction false} PathChangesMember(paths: map<Pair, nat>, prev: map<string, nat>, order: seq<Pair>, x: Change)
    ensures x in PathChanges(paths, prev, order) <==>
              x.pair in order && x.pair in paths && x.count == paths[x.pair] && Changed(prev, x.pair, x.count)
  {
    if order != [] {
      PathChangesMember(paths, prev, order[..|order| - 1], x);
      assert order == order[..|order| - 1] + [order[|order| - 1]];
    }
  }

  lemma {:induction false} NoRemovals(paths: map<Pair, nat>, keys: seq<string>)
    requires forall k :: k in keys ==> HasKey(paths, k)
    ensures Removals(paths, keys) == []
  {
    if keys != [] { NoRemovals(paths, keys[..|keys| - 1]); }
  }

  lemma {:induction false} SnapshotMirrors(ps: Pairs, paths: map<Pair, nat>, order: seq<Pair>, p: Pair)
    requires Injective(ps) && AllIn(ps, paths)
    ensures p in order && p in paths ==> PairKey(p) in Snapshot(paths, order) && Snapshot(paths, order)[PairKey(p)] == paths[p]
    ensures forall k :: k in Snapshot(paths, order) ==> HasKey(paths, k)
  {
    if order != [] {
      var init, q := order[..|order| - 1], order[|order| - 1];
      SnapshotMirrors(ps, paths, init, p);
      assert order == init + [q];
      assert p in paths && q in paths && PairKey(p) == PairKey(q) ==> p == q;
    }
  }

  // Replaying changes of different pairs sets exactly those pairs and their keys.
  ghost predicate Named(changes: seq<Change>, p: Pair) { exists x :: x in changes && x.pair == p }

  lemma {:induction false} AppliedChanges(ps: Pairs, v: Join, changes: seq<Change>, paths: map<Pair, nat>, p: Pair)
    requires forall x :: x in changes ==> x.pair in paths && x.count == paths[x.pair]
    requires Injective(ps) && AllIn(ps, paths) && v.paths.Keys <= paths.Keys && Mirrors(v.snapshot, v.paths)
    ensures var w := ApplyAll(JoinProcessor(ps), v, changes);
            && Mirrors(w.snapshot, w.paths) && w.dirty == v.dirty && w.paths.Keys <= paths.Keys
            && (p in w.paths <==> p in v.paths || Named(changes, p))
            && (p in w.paths ==> w.paths[p] == if Named(changes, p) then paths[p] else v.paths[p])
  {
    if changes != [] {
      var init, x := changes[..|changes| - 1], changes[|changes| - 1];
      assert changes == init + [x];
      AppliedChanges(ps, v, init, paths, p);
      AppliedMirrors(ps, ApplyAll(JoinProcessor(ps), v, init), x, paths);
      assert Named(changes, p) <==> Named(init, p) || x.pair == p by {
        assert x in changes;
      }
    }
  }

  lemma AppliedMirrors(ps: Pairs, u: Join, x: Change, paths: map<Pair, nat>)
    requires Injective(ps) && AllIn(ps, paths) && u.paths.Keys <= paths.Keys && Mirrors(u.snapshot, u.paths) && x.pair in paths
    ensures Mirrors(Applied(u, x).snapshot, Applied(u, x).paths)
  {
    var w := Applied(u, x);
    forall p | p in w.paths ensures PairKey(p) in w.snapshot && w.snapshot[PairKey(p)] == w.paths[p] {
      assert p in paths && (PairKey(p) == PairKey(x.pair) ==> p == x.pair);
    }
    forall k | k in w.snapshot ensures HasKey(w.paths, k) {
      if k != PairKey(x.pair) {
        var p :| p in u.paths && PairKey(p) == k;
        assert p in w.paths;
      }
    }
  }

  // Two snapshots of the same counts are the same.
  lemma MirrorsUnique(a: map<string, nat>, b: map<string, nat>, paths: map<Pair, nat>)
    requires Mirrors(a, paths) && Mirrors(b, paths)
    ensures a == b
  {
    forall k | k in a ensures k in b && a[k] == b[k] {
      var p :| p in paths && PairKey(p) == k;
    }
    forall k | k in b ensures k in a {
      var p :| p in paths && PairKey(p) == k;
    }
  }

  // What a drain of dirty counts hands over: only pairs whose count differs from the last drain,
  // and never a removal.
  lemma DrainedChanges(ps: Pairs, live: Join, base: Join, changes: seq<Change>, live': Join)
    requires Injective(ps) && AheadBy(ps, live, base) && DrainedTo(live, changes, live') && live.dirty
    ensures forall x :: x in changes <==>
              x.pair in live.paths && x.count == live.paths[x.pair]
              && (x.pair !in base.paths || base.paths[x.pair] != x.count)
    ensures Mirrors(live'.snapshot, live.paths) && live' == live.(dirty := false, snapshot := live'.snapshot)
  {
    var o: seq<Pair>, k: seq<string>, s: seq<Pair> :| DrainedIn(live, changes, live', o, k, s);
    NothingRemoved(ps, live, base, k);
    ChangesSince(ps, live, base, o);
    SnapshotOfAll(ps, live.paths, s);
  }

  lemma NothingRemoved(ps: Pairs, live: Join, base: Join, k: seq<string>)
    requires AheadBy(ps, live, base) && Enumerates(k, live.snapshot.Keys)
    ensures Removals(live.paths, k) == []
  {
    forall key | key in k ensures HasKey(live.paths, key) {
      var p :| p in base.paths && PairKey(p) == key;
      assert p in live.paths;
    }
    NoRemovals(live.paths, k);
  }

  lemma ChangesSince(ps: Pairs, live: Join, base: Join, o: seq<Pair>)
    requires Injective(ps) && AheadBy(ps, live, base) && Enumerates(o, live.paths.Keys)
    ensures forall x :: x in PathChanges(live.paths, live.snapshot, o) <==>
              x.pair in live.paths && x.count == live.paths[x.pair]
              && (x.pair !in base.paths || base.paths[x.pair] != x.count)
  {
    forall x ensures x in PathChanges(live.paths, live.snapshot, o) <==>
                       x.pair in live.paths && x.count == live.paths[x.pair]
                       && (x.pair !in base.paths || base.paths[x.pair] != x.count)
    {
      PathChangesMember(live.paths, live.snapshot, o, x);
      if x.pair in live.paths { KeyOfNewPair(ps, live, base, x.pair); }
    }
  }

  lemma SnapshotOfAll(ps: Pairs, paths: map<Pair, nat>, s: seq<Pair>)
    requires Injective(ps) && AllIn(ps, paths) && Enumerates(s, paths.Keys)
    ensures Mirrors(Snapshot(paths, s), paths)
  {
    forall p | p in paths ensures PairKey(p) in Snapshot(paths, s) && Snapshot(paths, s)[PairKey(p)] == paths[p] {
      SnapshotMirrors(ps, paths, s, p);
    }
    SnapshotMirrors(ps, paths, s, ZERO_PAIR);
  }

  lemma KeyOfNewPair(ps: Pairs, live: Join, base: Join, p: Pair)
    requires Injective(ps) && AheadBy(ps, live, base) && p in live.paths
    ensures PairKey(p) in base.snapshot <==> p in base.paths
  {
    if PairKey(p) in base.snapshot {
      var q :| q in base.paths && PairKey(q) == PairKey(p);
      assert ps(p) && ps(q);
    }
  }

  lemma ReplayedPaths(ps: Pairs, live: Join, base: Join, changes: seq<Change>, live': Join)
    requires Injective(ps) && AheadBy(ps, live, base) && DrainedTo(live, changes, live') && live.dirty
    ensures var base' := ApplyAll(JoinProcessor(ps), base, changes);
            base'.paths == live.paths && Mirrors(base'.snapshot, live.paths) && !base'.dirty
  {
    DrainedChanges(ps, live, base, changes, live');
    var base' := ApplyAll(JoinProcessor(ps), base, changes);
    forall p ensures (p in base'.paths <==> p in live.paths) && (p in live.paths ==> base'.paths[p] == live.paths[p]) {
      NamedOrSame(live, base, changes, p);
      AppliedChanges(ps, base, changes, live.paths, p);
    }
    SamePaths(base'.paths, live.paths);
    AppliedChanges(ps, base, changes, live.paths, ZERO_PAIR);
  }

  lemma SamePaths(a: map<Pair, nat>, b: map<Pair, nat>)
    requires forall p :: (p in a <==> p in b) && (p in b ==> a[p] == b[p])
    ensures a == b
  {
    assert a.Keys == b.Keys;
  }

  lemma JoinDrains(ps: Pairs, live: Join, base: Join, changes: seq<Change>, live': Join)
    requires Injective(ps) && AheadBy(ps, live, base) && DrainedTo(live, changes, live')
    ensures Drained(JoinProcessor(ps), live, live', ApplyAll(JoinProcessor(ps), base, changes))
  {
    if !live.dirty {
      assert ApplyAll(JoinProcessor(ps), base, changes) == base;
    } else {
      DrainedChanges(ps, live, base, changes, live');
      ReplayedPaths(ps, live, base, changes, live');
      MirrorsUnique(ApplyAll(JoinProcessor(ps), base, changes).snapshot, live'.snapshot, live.paths);
    }
  }

  lemma NamedOrSame(live: Join, base: Join, changes: seq<Change>, p: Pair)
    requires forall x :: x in changes <==>
               x.pair in live.paths && x.count == live.paths[x.pair]
               && (x.pair !in base.paths || base.paths[x.pair] != x.count)
    ensures p in live.paths ==> Named(changes, p) || (p in base.paths && base.paths[p] == live.paths[p])
    ensures Named(changes, p) ==> p in live.paths
  {
    if p in live.paths && !(p in base.paths && base.paths[p] == live.paths[p]) {
      assert PathChange(p, live.paths[p]) in changes;
    }
  }

  // So the exactly-once results hold for this processor, whatever pairs occur, if their keys differ.
  lemma JoinIsLawful(ps: Pairs)
    requires Injective(ps)
    ensures Lawful(JoinProcessor(ps))
  {
    var p := JoinProcessor(ps);
    forall items | p.admits(items) ensures p.admits(Taken(p, items)) { TakenUpto(p, items); }
    forall live, base, items | p.admits(items) && p.rel(live, base) ensures p.rel(p.process(live, items), base) {
      AddedStaysAhead(ps, live, base, items);
    }
    forall v, w, items | p.sem(v) == p.sem(w) ensures p.sem(p.process(v, items)) == p.sem(p.process(w, items)) {
      AddedSame(v, w, items);
    }
    forall live, base, changes, live' | p.rel(live, base) && p.drains(live, changes, live')
      ensures Drained(p, live, live', ApplyAll(p, base, changes))
    {
      JoinDrains(ps, live, base, changes, live');
    }
  }

  // Names without a separator are such pairs.
  lemma CleanIsInjective()
    ensures Injective(Clean)
  {
    forall p, q | Clean(p) && Clean(q) && PairKey(p) == PairKey(q) ensures p == q {
      KeyInjective(p, q);
    }
  }

  // ---- Where the laws end ----

  lemma DrainedWith(v: Join, o: seq<Pair>, k: seq<string>, changes: seq<Change>, snapshot: map<string, nat>)
    requires v.dirty && v.stored && Enumerates(o, v.paths.Keys) && Enumerates(k, v.snapshot.Keys)
    requires changes == PathChanges(v.paths, v.snapshot, o) && Removals(v.paths, k) == []
    requires snapshot == Snapshot(v.paths, o)
    ensures DrainedTo(v, changes, v.(dirty := false, snapshot := snapshot))
  {
    assert changes == PathChanges(v.paths, v.snapshot, o) + Removals(v.paths, k);
    assert DrainedIn(v, changes, v.(dirty := false, snapshot := snapshot), o, k, o);
  }

  function IfChanged(paths: map<Pair, nat>, prev: map<string, nat>, p: Pair): seq<Change>
    requires p in paths
  {
    if Changed(prev, p, paths[p]) then [PathChange(p, paths[p])] else []
  }

  lemma TwoPaths(paths: map<Pair, nat>, prev: map<string, nat>, p: Pair, q: Pair)
    requires PairKey(p) == PairKey(q) && p in paths && q in paths
    ensures PathChanges(paths, prev, [p, q]) == IfChanged(paths, prev, p) + IfChanged(paths, prev, q)
    ensures Snapshot(paths, [p, q]) == map[PairKey(p) := paths[q]]
  {
    assert [p, q][..1] == [p] && [p][..0] == [];
    assert Snapshot(paths, [p]) == map[PairKey(p) := paths[p]];
    assert PathChanges(paths, prev, [p]) == IfChanged(paths, prev, p);
  }

  lemma TwoDrain(v: Join, p: Pair, q: Pair, keys: seq<string>, changes: seq<Change>)
    requires p != q && PairKey(p) == PairKey(q)
    requires v.dirty && v.stored && v.paths.Keys == {p, q} && Enumerates(keys, v.snapshot.Keys)
    requires forall k :: k in keys ==> k == PairKey(p)
    requires changes == IfChanged(v.paths, v.snapshot, p) + IfChanged(v.paths, v.snapshot, q)
    ensures DrainedTo(v, changes, v.(dirty := false, snapshot := map[PairKey(p) := v.paths[q]]))
  {
    assert Enumerates([p, q], v.paths.Keys);
    assert HasKey(v.paths, PairKey(p));
    NoRemovals(v.paths, keys);
    TwoPaths(v.paths, v.snapshot, p, q);
    DrainedWith(v, [p, q], keys, changes, map[PairKey(p) := v.paths[q]]);
  }

  // Two pairs with one key: after a first drain of counts 1 and 2, a second count of 2 for the
  // first pair looks unchanged, is not logged, and is lost in a replay.
  lemma CollisionLosesUpdate(ps: Pairs, p: Pair, q: Pair)
    requires p != q && PairKey(p) == PairKey(q)
    ensures var live := Added(Added(NOTHING, Path(p, 1)), Path(q, 2));
            var changes := [PathChange(p, 1), PathChange(q, 2)];
            var live' := live.(dirty := false, snapshot := map[PairKey(p) := 2]);
            var live'' := Added(live', Path(p, 1));
            && DrainedTo(live, changes, live')
            && DrainedTo(live'', [], live''.(dirty := false, snapshot := map[PairKey(p) := 2]))
            && Count(live''.paths, p) == 2 && Count(ApplyAll(JoinProcessor(ps), NOTHING, changes).paths, p) == 1
  {
    var live := Added(Added(NOTHING, Path(p, 1)), Path(q, 2));
    var live' := live.(dirty := false, snapshot := map[PairKey(p) := 2]);
    FirstDrain(p, q, live);
    SecondDrain(p, q, Added(live', Path(p, 1)));
    TwoApplied(ps, p, q);
  }

  lemma FirstDrain(p: Pair, q: Pair, live: Join)
    requires p != q && PairKey(p) == PairKey(q) && live == Added(Added(NOTHING, Path(p, 1)), Path(q, 2))
    ensures DrainedTo(live, [PathChange(p, 1), PathChange(q, 2)], live.(dirty := false, snapshot := map[PairKey(p) := 2]))
  {
    assert live.paths.Keys == {p, q};
    TwoDrain(live, p, q, [], [PathChange(p, 1), PathChange(q, 2)]);
  }

  lemma SecondDrain(p: Pair, q: Pair, live: Join)
    requires p != q && PairKey(p) == PairKey(q) && live.dirty && live.stored
    requires live.paths.Keys == {p, q} && live.paths[p] == live.paths[q] == 2 && live.snapshot == map[PairKey(p) := 2]
    ensures DrainedTo(live, [], live.(dirty := false, snapshot := map[PairKey(p) := 2]))
  {
    TwoDrain(live, p, q, [PairKey(p)], []);
  }

  lemma TwoApplied(ps: Pairs, p: Pair, q: Pair)
    requires p != q
    ensures Count(ApplyAll(JoinProcessor(ps), NOTHING, [PathChange(p, 1), PathChange(q, 2)]).paths, p) == 1
  {
    var changes := [PathChange(p, 1), PathChange(q, 2)];
    assert changes[..1] == [PathChange(p, 1)] && [PathChange(p, 1)][..0] == [];
    assert ApplyAll(JoinProcessor(ps), NOTHING, [PathChange(p, 1)]).paths == map[p := 1];
  }

  // And no other account of what a state has logged helps: with two pairs of one key, no relation
  // between live states and logged ones meets the laws.
  lemma LawfulMeansInjective(ps: Pairs, rel: (Join, Join) -> bool)
    requires Lawful(JoinProcessor(ps).(rel := rel))
    ensures Injective(ps)
  {
    forall p, q | ps(p) && ps(q) && PairKey(p) == PairKey(q) ensures p == q {
      if p != q { CollisionBreaksLaws(ps, rel, p, q); }
    }
  }

  // What the laws say about a first drain and, after more items, a second one that hands over nothing.
  lemma TwoDrains<S(!new), T(!new), C(!new), M(!new)>(p: Processor<S, T, C, M>, a: seq<T>, changes: seq<C>, u: S, b: seq<T>, v: S)
    requires Lawful(p) && p.admits(a) && p.admits(b)
    requires p.drains(p.process(p.init, a), changes, u) && p.drains(p.process(u, b), [], v)
    ensures p.sem(ApplyAll(p, p.init, changes)) == p.sem(p.process(u, b))
  {
    var base := ApplyAll(p, p.init, changes);
    assert p.rel(p.process(p.init, a), p.init);
    assert Drained(p, p.process(p.init, a), u, base);
    assert p.rel(p.process(u, b), base);
    assert Drained(p, p.process(u, b), v, ApplyAll(p, base, []));
  }

  lemma DrainsDisagree<S(!new), T(!new), C(!new), M(!new)>(p: Processor<S, T, C, M>, a: seq<T>, changes: seq<C>, u: S, b: seq<T>,
                                                            v: S)
    requires p.admits(a) && p.admits(b)
    requires p.drains(p.process(p.init, a), changes, u) && p.drains(p.process(u, b), [], v)
    requires p.sem(ApplyAll(p, p.init, changes)) != p.sem(p.process(u, b))
    ensures !Lawful(p)
  {
    if Lawful(p) { TwoDrains(p, a, changes, u, b, v); }
  }

  lemma JoinDisagrees(ps: Pairs, rel: (Join, Join) -> bool, a: seq<Path>, changes: seq<Change>, u: Join, b: seq<Path>, v: Join)
    requires (forall x :: x in a ==> ps(x.pair)) && (forall x :: x in b ==> ps(x.pair))
    requires DrainedTo(AddedAll(NOTHING, a), changes, u) && DrainedTo(AddedAll(u, b), [], v)
    requires ApplyAll(JoinProcessor(ps), NOTHING, changes).paths != AddedAll(u, b).paths
    ensures !Lawful(JoinProcessor(ps).(rel := rel))
  {
    var pr := JoinProcessor(ps).(rel := rel);
    SameApply(pr, JoinProcessor(ps), NOTHING, changes);
    DrainsDisagree(pr, a, changes, u, b, v);
  }

  lemma TwoDrainsOfColliders(ps: Pairs, p: Pair, q: Pair, a: seq<Path>, b: seq<Path>, changes: seq<Change>)
    returns (u: Join, v: Join)
    requires p != q && PairKey(p) == PairKey(q)
    requires a == [Path(p, 1), Path(q, 2)] && b == [Path(p, 1)] && changes == [PathChange(p, 1), PathChange(q, 2)]
    ensures DrainedTo(AddedAll(NOTHING, a), changes, u) && DrainedTo(AddedAll(u, b), [], v)
    ensures ApplyAll(JoinProcessor(ps), NOTHING, changes).paths != AddedAll(u, b).paths
  {
    var live := Added(Added(NOTHING, Path(p, 1)), Path(q, 2));
    u := live.(dirty := false, snapshot := map[PairKey(p) := 2]);
    v := Added(u, Path(p, 1)).(dirty := false, snapshot := map[PairKey(p) := 2]);
    TwoItems(NOTHING, Path(p, 1), Path(q, 2));
    OneItem(u, Path(p, 1));
    CollisionLosesUpdate(ps, p, q);
  }

  lemma CollisionBreaksLaws(ps: Pairs, rel: (Join, Join) -> bool, p: Pair, q: Pair)
    requires ps(p) && ps(q) && p != q && PairKey(p) == PairKey(q)
    ensures !Lawful(JoinProcessor(ps).(rel := rel))
  {
    var a, b := [Path(p, 1), Path(q, 2)], [Path(p, 1)];
    var changes := [PathChange(p, 1), PathChange(q, 2)];
    var u, v := TwoDrainsOfColliders(ps, p, q, a, b, changes);
    JoinDisagrees(ps, rel, a, changes, u, b, v);
  }

  lemma {:induction false} SameApply<M, N>(p: Processor<Join, Path, Change, M>, q: Processor<Join, Path, Change, N>, v: Join,
                                             changes: seq<Change>)
    requires p.apply == q.apply
    ensures ApplyAll(p, v, changes) == ApplyAll(q, v, changes)
  {
    if changes != [] { SameApply(p, q, v, changes[..|changes| - 1]); }
  }

  lemma OneItem(v: Join, x: Path)
    ensures AddedAll(v, [x]) == Added(v, x)
  {
    assert [x][..0] == [];
  }

  lemma TwoItems(v: Join, x: Path, y: Path)
    ensures AddedAll(v, [x, y]) == Added(Added(v, x), y)
  {
    assert [x, y][..1] == [x];
    OneItem(v, x);
  }

  // Over the pairs that occur, the laws hold if and only if no two of them have one key.
  lemma JoinIsLawfulIff(ps: Pairs)
    ensures Lawful(JoinProcessor(ps)) <==> Injective(ps)
    ensures forall rel :: Lawful(JoinProcessor(ps).(rel := rel)) ==> Injective(ps)
  {
    if Injective(ps) { JoinIsLawful(ps); }
    forall rel | Lawful(JoinProcessor(ps).(rel := rel)) ensures Injective(ps) {
      LawfulMeansInjective(ps, rel);
    }
    assert JoinProcessor(ps).(rel := JoinProcessor(ps).rel) == JoinProcessor(ps);
  }

  // ---- Giving a drain back ----

  // Giving the changes back puts the counts where they are and says that something is dirty again.
  lemma {:induction false} PutBackSame(v: Join, changes: seq<Change>)
    requires v.stored && forall x :: x in changes ==> x.pair in v.paths && v.paths[x.pair] == x.count
    ensures var w := PutBack(v, changes);
            w.stored && w.paths == v.paths && w.snapshot == v.snapshot
  {
    if changes != [] {
      var init, x := changes[..|changes| - 1], changes[|changes| - 1];
      assert changes == init + [x];
      PutBackSame(v, init);
      assert v.paths[x.pair := x.count] == v.paths;
    }
  }

  // A failed append is given back too late: the snapshot has advanced, so whatever was drained, the
  // next drain hands over nothing, although something is dirty again.
  lemma RestoreForgets(ps: Pairs, live: Join, base: Join, changes: seq<Change>, live': Join, again: seq<Change>, next: Join)
    requires Injective(ps) && AheadBy(ps, live, base) && live.dirty && DrainedTo(live, changes, live')
    requires DrainedTo(PutBack(live', changes), again, next)
    ensures again == []
  {
    DrainedChanges(ps, live, base, changes, live');
    PutBackSame(live', changes);
    var back := PutBack(live', changes);
    if back.dirty {
      var o: seq<Pair>, k: seq<string>, s: seq<Pair> :| DrainedIn(back, again, next, o, k, s);
      NothingToDrain(back.paths, back.snapshot, o, k);
    }
  }

  lemma NothingToDrain(paths: map<Pair, nat>, snapshot: map<string, nat>, o: seq<Pair>, k: seq<string>)
    requires Mirrors(snapshot, paths) && Enumerates(k, snapshot.Keys)
    ensures PathChanges(paths, snapshot, o) == [] && Removals(paths, k) == []
  {
    NoRemovals(paths, k);
    var found := PathChanges(paths, snapshot, o);
    if found != [] {
      PathChangesMember(paths, snapshot, o, found[0]);
    }
  }

  // So giving back is safe exactly when there is nothing to give back.
  lemma RestoreIsSafeIff(ps: Pairs, live: Join, base: Join, changes: seq<Change>, live': Join)
    requires Injective(ps) && AheadBy(ps, live, base) && DrainedTo(live, changes, live')
    ensures AheadBy(ps, PutBack(live', changes), base) <==> changes == []
    ensures TakenBack(JoinProcessor(ps), live, base, PutBack(live', changes)) <==> changes == []
  {
    if live.dirty {
      DrainedChanges(ps, live, base, changes, live');
      PutBackSame(live', changes);
      if changes == [] {
        NothingChanged(ps, live, base, changes);
        MirrorsUnique(live'.snapshot, base.snapshot, live.paths);
      } else {
        assert changes[0] in changes;
        KeyOfNewPair(ps, live, base, changes[0].pair);
      }
    }
  }

  lemma NothingChanged(ps: Pairs, live: Join, base: Join, changes: seq<Change>)
    requires AheadBy(ps, live, base) && changes == []
    requires forall x :: x in changes <==>
               x.pair in live.paths && x.count == live.paths[x.pair]
               && (x.pair !in base.paths || base.paths[x.pair] != x.count)
    ensures live.paths == base.paths
  {
    forall p ensures (p in base.paths <==> p in live.paths) && (p in live.paths ==> base.paths[p] == live.paths[p]) {
      NamedOrSame(live, base, changes, p);
    }
    SamePaths(base.paths, live.paths);
  }

  // ---- The results ----

  // The pairs with at least five intermediaries.
  ghost function Suspicious(paths: map<Pair, nat>): set<Pair> { set p | p in paths && paths[p] >= 5 }

  ghost function Origins(pairs: set<Pair>): set<Account> { set p | p in pairs :: p.origin }

  lemma {:induction false} FewerOrigins(pairs: set<Pair>)
    ensures |Origins(pairs)| <= |pairs|
    ensures |Origins(pairs)| == |pairs| <==>
              forall p, q :: p in pairs && q in pairs && p.origin == q.origin ==> p == q
    decreases pairs
  {
    if pairs != {} {
      var p :| p in pairs;
      var rest := pairs - {p};
      FewerOrigins(rest);
      if q :| q in rest && q.origin == p.origin {
        assert Origins(pairs) == Origins(rest);
      } else {
        assert Origins(pairs) == Origins(rest) + {p.origin};
      }
    }
  }

  // The number announced is that of the pairs; it is that of the accounts sent exactly when no
  // origin has two destinations with five intermediaries or more.
  lemma AnnouncedAndSent(paths: map<Pair, nat>)
    ensures |Origins(Suspicious(paths))| <= |Suspicious(paths)|
    ensures |Origins(Suspicious(paths))| == |Suspicious(paths)| <==>
              forall a, d, e :: Reaches(paths, a, d) && Reaches(paths, a, e) ==> d == e
  {
    FewerOrigins(Suspicious(paths));
    if forall p, q :: p in Suspicious(paths) && q in Suspicious(paths) && p.origin == q.origin ==> p == q {
      forall a, d, e | Reaches(paths, a, d) && Reaches(paths, a, e) ensures d == e {
        assert Pair(a, d) in Suspicious(paths) && Pair(a, e) in Suspicious(paths);
      }
    } else {
      var p, q :| p in Suspicious(paths) && q in Suspicious(paths) && p.origin == q.origin && p != q;
      assert Reaches(paths, p.origin, p.destination) && Reaches(paths, p.origin, q.destination);
    }
  }

  // Through five intermediaries or more.
  predicate Reaches(paths: map<Pair, nat>, origin: Account, destination: Account) {
    Pair(origin, destination) in paths && paths[Pair(origin, destination)] >= 5
  }

  // ---- The objects ----

  class ScatterGatherStore {
    var paths: map<Pair, nat>

    constructor ()
      ensures paths == map[]
    {
      paths := map[];
    }

    method Add(pair: Pair, count: nat)
      modifies this
      ensures paths == old(paths)[pair := Count(old(paths), pair) + count]
    {
      paths := paths[pair := (if pair in paths then paths[pair] else 0) + count];
    }

    method SetPairCount(pair: Pair, count: nat)
      modifies this
      ensures paths == old(paths)[pair := count]
    {
      paths := paths[pair := count];
    }

    method GetPaths() returns (result: map<Pair, nat>)
      ensures result == paths
    {
      result := paths;
    }

    method Clear()
      modifies this
      ensures paths == map[]
    {
      paths := map[];
    }
  }

  // What the processor and its tracker keep for one client.
  class ScatterGatherClient {
    var store: ScatterGatherStore?
    var dirty: bool
    var lastSnapshot: map<string, nat>

    function View(): Join
      reads this, store
    {
      Join(store != null, if store != null then store.paths else map[], dirty, lastSnapshot)
    }

    constructor ()
      ensures View() == NOTHING
    {
      store, dirty, lastSnapshot := null, false, map[];
    }

    method GetOrCreateStore() returns (s: ScatterGatherStore)
      modifies this`store
      ensures store == s && (old(store) != null ==> s == old(store)) && (old(store) == null ==> fresh(s))
      ensures View() == old(View()).(stored := true)
    {
      if store == null {
        store := new ScatterGatherStore();
      }
      s := store;
    }

    method Process(path: Path)
      modifies this, store
      ensures View() == Added(old(View()), path) && (store == old(store) || fresh(store))
    {
      var s := GetOrCreateStore();
      s.Add(path.pair, path.intermediaryCount);
      dirty := true;
    }

    method DrainChanges() returns (changes: seq<Change>)
      modifies this`dirty, this`lastSnapshot
      ensures DrainedTo(old(View()), changes, View())
    {
      if !dirty { return []; }
      if store == null { return []; }
      var paths := store.GetPaths();
      var prev := lastSnapshot;
      var o := AnyOrder(paths.Keys);
      changes := ChangedPaths(paths, prev, o);
      var k := AnyOrder(prev.Keys);
      var removals := MissingKeys(paths, k);
      changes := changes + removals;
      var s := AnyOrder(paths.Keys);
      lastSnapshot := TakeSnapshot(paths, s);
      dirty := false;
      assert DrainedIn(old(View()), changes, View(), o, k, s);
    }

    static method ChangedPaths(paths: map<Pair, nat>, prev: map<string, nat>, o: seq<Pair>) returns (changes: seq<Change>)
      requires Enumerates(o, paths.Keys)
      ensures changes == PathChanges(paths, prev, o)
    {
      changes := [];
      for i := 0 to |o|
        invariant changes == PathChanges(paths, prev, o[..i])
      {
        NextKey(o, paths.Keys, i);
        NextChange(paths, prev, o, i);
        var key := PairKey(o[i]);
        if key !in prev || prev[key] != paths[o[i]] {
          changes := changes + [PathChange(o[i], paths[o[i]])];
        }
      }
      assert o[..|o|] == o;
    }

    static method MissingKeys(paths: map<Pair, nat>, k: seq<string>) returns (changes: seq<Change>)
      ensures changes == Removals(paths, k)
    {
      changes := [];
      for i := 0 to |k|
        invariant changes == Removals(paths, k[..i])
      {
        assert k[..i + 1][..i] == k[..i];
        var found := Find(paths, k[i]);
        if !found {
          changes := changes + [PathChange(ZERO_PAIR, 0)];
        }
      }
      assert k[..|k|] == k;
    }

    static method Find(paths: map<Pair, nat>, key: string) returns (found: bool)
      ensures found == HasKey(paths, key)
    {
      var left := paths.Keys;
      found := false;
      while left != {}
        invariant left <= paths.Keys && forall p :: p in paths && p !in left ==> PairKey(p) != key
        decreases left
      {
        var p :| p in left;
        left := left - {p};
        if PairKey(p) == key { return true; }
      }
    }

    static method TakeSnapshot(paths: map<Pair, nat>, s: seq<Pair>) returns (snapshot: map<string, nat>)
      requires Enumerates(s, paths.Keys)
      ensures snapshot == Snapshot(paths, s)
    {
      snapshot := map[];
      for i := 0 to |s|
        invariant snapshot == Snapshot(paths, s[..i])
      {
        NextKey(s, paths.Keys, i);
        NextShot(paths, s, i);
        snapshot := snapshot[PairKey(s[i]) := paths[s[i]]];
      }
      assert s[..|s|] == s;
    }

    method RestoreChanges(changes: seq<Change>)
      modifies this, store
      ensures View() == PutBack(old(View()), changes) && (store == old(store) || fresh(store))
    {
      for i := 0 to |changes|
        invariant View() == PutBack(old(View()), changes[..i]) && (store == old(store) || fresh(store))
      {
        assert changes[..i + 1][..i] == changes[..i];
        var s := GetOrCreateStore();
        if changes[i].count == 0 { continue; }
        s.SetPairCount(changes[i].pair, changes[i].count);
        dirty := true;
      }
      assert changes[..|changes|] == changes;
    }

    // A count of zero takes a branch of its own, with the same effect.
    method ApplyChange(change: Change)
      modifies this, store
      ensures View() == Applied(old(View()), change) && (store == old(store) || fresh(store))
    {
      var s := GetOrCreateStore();
      if change.count == 0 {
        s.SetPairCount(change.pair, 0);
        lastSnapshot := lastSnapshot[PairKey(change.pair) := 0];
        return;
      }
      s.SetPairCount(change.pair, change.count);
      lastSnapshot := lastSnapshot[PairKey(change.pair) := change.count];
    }

    // Each account that reaches some other through five intermediaries or more is sent once; the
    // number returned counts the pairs. The consumer may refuse an account: then some have been
    // sent and the number is zero, but the store is given up all the same.
    method Finalize() returns (ok: bool, totalPairs: nat, results: seq<Account>)
      modifies this, store
      ensures ok ==> forall a :: a in results <==> exists d :: Reaches(old(View()).paths, a, d)
      ensures ok ==> Enumerates(results, Origins(Suspicious(old(View()).paths)))
      ensures totalPairs == if ok then |Suspicious(old(View()).paths)| else 0
      ensures !ok ==> exists order :: Enumerates(order, Origins(Suspicious(old(View()).paths))) && results < order
      ensures View() == old(View()).(stored := false, paths := map[])
    {
      var s := GetOrCreateStore();
      var paths := s.GetPaths();
      var accounts;
      totalPairs, accounts := Select(paths);
      SelectedReach(paths);
      var order := AnyOrder(accounts);
      ok, results := true, [];
      while ok && |results| < |order|
        invariant |results| <= |order| && results == order[..|results|] && (!ok ==> |results| < |order|)
        decreases ok, |order| - |results|
      {
        ok := *;
        if ok { results := results + [order[|results|]]; }
      }
      if ok {
        assert order[..|order|] == order;
      } else {
        totalPairs := 0;
        assert Enumerates(order, Origins(Suspicious(paths))) && results < order;
      }
      s.Clear();
      store := null;
    }

    // The loop over the pairs.
    static method Select(paths: map<Pair, nat>) returns (totalPairs: nat, accounts: set<Account>)
      ensures totalPairs == |Suspicious(paths)| && accounts == Origins(Suspicious(paths))
    {
      var left := paths.Keys;
      ghost var seen: set<Pair> := {};
      accounts, totalPairs := {}, 0;
      while left != {}
        invariant left <= paths.Keys && seen == set p | p in paths && p !in left && paths[p] >= 5
        invariant totalPairs == |seen| && accounts == Origins(seen)
        decreases left
      {
        var p :| p in left;
        left := left - {p};
        if paths[p] < THRESHOLD { continue; }
        totalPairs := totalPairs + 1;
        accounts := accounts + {p.origin};
        seen := seen + {p};
      }
      assert seen == Suspicious(paths);
    }

    static lemma SelectedReach(paths: map<Pair, nat>)
      ensures forall a :: a in Origins(Suspicious(paths)) <==> exists d :: Reaches(paths, a, d)
    {
      forall a ensures a in Origins(Suspicious(paths)) <==> exists d :: Reaches(paths, a, d) {
        if p :| p in Suspicious(paths) && p.origin == a { assert Reaches(paths, a, p.destination); }
        if d :| Reaches(paths, a, d) { assert Pair(a, d) in Suspicious(paths); }
      }
    }
  }
}
