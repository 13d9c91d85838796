// Entries by client and key, as batches.log and eofs.log hold them, written anew one by one in the
// order of Go maps, up to the first write that fails.
module Rewriting {
  import opened MapOrder

  type Entries<V> = map<string, map<string, V>>

  type Place = (string, string)

  function Of<V>(m: Entries<V>, c: string): map<string, V> { if c in m then m[c] else map[] }

  function Put<V>(m: Entries<V>, c: string, k: string, v: V): Entries<V> { m[c := Of(m, c)[k := v]] }

  predicate Has<V>(m: Entries<V>, p: Place) { p.0 in m && p.1 in m[p.0] }

  function At<V>(m: Entries<V>, p: Place): V
    requires Has(m, p)
  {
    m[p.0][p.1]
  }

  // Where the entry of m is, and is the same.
  predicate SameAt<V(==)>(m: Entries<V>, m': Entries<V>, p: Place)
    requires Has(m, p)
  {
    Has(m', p) && At(m', p) == At(m, p)
  }

  function Places<V>(m: Entries<V>): set<Place> { set c, k | c in m && k in m[c] :: (c, k) }

  // No client without entries, as after loading.
  ghost predicate NoneEmpty<V>(m: Entries<V>) { forall c :: c in m ==> exists k :: k in m[c] }

  // The entries of m at the places in order, put into an empty map.
  function PutAll<V>(m: Entries<V>, order: seq<Place>): Entries<V>
    requires forall p :: p in order ==> Has(m, p)
  {
    if order == [] then map[]
    else
      var p := order[|order| - 1];
      Put(PutAll(m, order[..|order| - 1]), p.0, p.1, At(m, p))
  }

  lemma PutAllNext<V>(m: Entries<V>, order: seq<Place>, p: Place)
    requires (forall q :: q in order ==> Has(m, q)) && Has(m, p)
    ensures PutAll(m, order + [p]) == Put(PutAll(m, order), p.0, p.1, At(m, p))
  {
    assert (order + [p])[..|order|] == order;
  }

  lemma {:induction false} PutAllHas<V>(m: Entries<V>, order: seq<Place>)
    requires forall p :: p in order ==> Has(m, p)
    ensures forall p :: Has(PutAll(m, order), p) <==> p in order
    ensures forall p :: p in order ==> At(PutAll(m, order), p) == At(m, p)
    ensures NoneEmpty(PutAll(m, order))
  {
    if order != [] {
      var last := order[|order| - 1];
      PutAllHas(m, order[..|order| - 1]);
      assert order == order[..|order| - 1] + [last];
      assert last.1 in PutAll(m, order)[last.0];
    }
  }

  lemma SameEntries<V>(m: Entries<V>, m': Entries<V>)
    requires NoneEmpty(m) && NoneEmpty(m') && (forall p :: Has(m, p) <==> Has(m', p))
    requires forall p :: Has(m, p) ==> At(m, p) == At(m', p)
    ensures m == m'
  {
    forall c ensures c in m <==> c in m' {
      if c in m {
        var k :| k in m[c];
        assert Has(m, (c, k));
      }
      if c in m' {
        var k :| k in m'[c];
        assert Has(m', (c, k));
      }
    }
    forall c | c in m ensures m[c] == m'[c] {
      forall k ensures k in m[c] <==> k in m'[c] { assert Has(m, (c, k)) <==> Has(m', (c, k)); }
      forall k | k in m[c] ensures m[c][k] == m'[c][k] { assert Has(m, (c, k)) && At(m, (c, k)) == At(m', (c, k)); }
    }
  }

  // What is put is all of m exactly when no place is left out.
  lemma PutAllIff<V>(m: Entries<V>, order: seq<Place>)
    requires NoneEmpty(m) && forall p :: p in order ==> Has(m, p)
    ensures PutAll(m, order) == m <==> forall p :: Has(m, p) ==> p in order
  {
    PutAllHas(m, order);
    if forall p :: Has(m, p) ==> p in order { SameEntries(PutAll(m, order), m); }
  }

  // In any order of the places: an entry is there again exactly when it is among the first n, and all
  // is as before exactly when none is missing.
  lemma UptoIff<V>(m: Entries<V>, order: seq<Place>, n: nat)
    requires NoneEmpty(m) && Enumerates(order, Places(m)) && n <= |order|
    ensures (forall p :: Has(m, p) <==> p in order) && forall p :: p in order[..n] ==> Has(m, p)
    ensures forall p :: Has(m, p) ==> (SameAt(m, PutAll(m, order[..n]), p) <==> p in order[..n])
    ensures PutAll(m, order[..n]) == m <==> n == |order|
  {
    forall p ensures Has(m, p) <==> p in order { assert p in order <==> p in Places(m); }
    forall p | p in order[..n] ensures Has(m, p) { assert p in order; }
    PutAllHas(m, order[..n]);
    PutAllIff(m, order[..n]);
    if n < |order| {
      NextKey(order, Places(m), n);
      assert Has(m, order[n]) && order[n] !in order[..n];
    } else {
      assert order[..n] == order;
    }
  }

  // The places written before a write failed, and the one at which it did.
  ghost predicate Stopped<V>(m: Entries<V>, written: seq<Place>, next: Place) {
    (forall p :: p in written ==> Has(m, p)) && Has(m, next) && next !in written
  }

  lemma NextMissing<V>(m: Entries<V>, written: seq<Place>, next: Place)
    requires Stopped(m, written, next)
    ensures forall p :: Has(m, p) ==> (SameAt(m, PutAll(m, written), p) <==> p in written)
    ensures (forall p :: Has(PutAll(m, written), p) <==> p in written) && PutAll(m, written) != m
  {
    PutAllHas(m, written);
    assert !Has(PutAll(m, written), next);
  }

  // The next entry is there too, perhaps not as it was.
  lemma NextThere<V>(m: Entries<V>, written: seq<Place>, next: Place, v: V)
    requires NoneEmpty(m) && Stopped(m, written, next)
    ensures var loaded := Put(PutAll(m, written), next.0, next.1, v);
            && (forall p :: Has(m, p) ==> (SameAt(m, loaded, p) <==> p in written || (p == next && v == At(m, next))))
            && (forall p :: Has(loaded, p) <==> p in written || p == next) && At(loaded, next) == v
            && (loaded == m <==> v == At(m, next) && forall p :: Has(m, p) ==> p in written || p == next)
  {
    PutAllHas(m, written);
    var loaded := Put(PutAll(m, written), next.0, next.1, v);
    assert next.1 in loaded[next.0];
    if v == At(m, next) && forall p :: Has(m, p) ==> p in written || p == next { SameEntries(loaded, m); }
    if loaded == m { assert SameAt(m, loaded, next); }
  }

  // ---- Client by client, and key by key ----

  ghost predicate ClientUpto<V>(m: Entries<V>, c: string, keys: seq<string>, before: seq<Place>, written: seq<Place>) {
    && (forall p :: p in written <==> p in before || (p.0 == c && p.1 in keys))
    && (forall p :: p in written ==> Has(m, p))
  }

  ghost predicate ClientWritten<V>(m: Entries<V>, c: string, before: seq<Place>, written: seq<Place>) {
    forall p :: p in written <==> p in before || (p.0 == c && Has(m, p))
  }

  ghost predicate ClientsUpto<V>(m: Entries<V>, ids: seq<string>, written: seq<Place>) {
    forall p :: p in written <==> Has(m, p) && p.0 in ids
  }

  lemma ClientNext<V>(m: Entries<V>, c: string, keys: seq<string>, j: nat, before: seq<Place>, written: seq<Place>)
    requires c in m && Enumerates(keys, m[c].Keys) && j < |keys| && (forall p :: p in before ==> p.0 != c)
    requires ClientUpto(m, c, keys[..j], before, written)
    ensures Stopped(m, written, (c, keys[j])) && ClientUpto(m, c, keys[..j + 1], before, written + [(c, keys[j])])
  {
    NextKey(keys, m[c].Keys, j);
  }

  lemma ClientAll<V>(m: Entries<V>, c: string, keys: seq<string>, before: seq<Place>, written: seq<Place>)
    requires c in m && Enumerates(keys, m[c].Keys) && ClientUpto(m, c, keys[..|keys|], before, written)
    ensures ClientWritten(m, c, before, written)
  {
    assert keys[..|keys|] == keys;
  }

  lemma ClientsNext<V>(m: Entries<V>, ids: seq<string>, i: nat, before: seq<Place>, written: seq<Place>)
    requires Enumerates(ids, m.Keys) && i < |ids|
    requires ClientsUpto(m, ids[..i], before) && ClientWritten(m, ids[i], before, written)
    ensures ClientsUpto(m, ids[..i + 1], written)
  {
    NextKey(ids, m.Keys, i);
  }

  lemma ClientsAll<V>(m: Entries<V>, ids: seq<string>, written: seq<Place>)
    requires Enumerates(ids, m.Keys) && ClientsUpto(m, ids[..|ids|], written)
    ensures forall p :: p in written <==> Has(m, p)
  {
    assert ids[..|ids|] == ids;
  }

  // The entries written into an empty file; a write can fail, and then it is the last.
  method Rewrite<V>(m: Entries<V>) returns (ok: bool, file: Entries<V>, ghost written: seq<Place>, ghost next: Place)
    ensures (forall p :: p in written ==> Has(m, p)) && file == PutAll(m, written)
    ensures if ok then forall p :: Has(m, p) ==> p in written else Stopped(m, written, next)
  {
    ok, file, written, next := true, map[], [], ("", "");
    var ids := AnyOrder(m.Keys);
    for i := 0 to |ids|
      invariant ok && ClientsUpto(m, ids[..i], written) && file == PutAll(m, written)
    {
      NextKey(ids, m.Keys, i);
      ghost var before := written;
      ok, file, written, next := RewriteOne(ids[i], m, file, before);
      if !ok { return; }
      ClientsNext(m, ids, i, before, written);
    }
    ClientsAll(m, ids, written);
  }

  method RewriteOne<V>(c: string, m: Entries<V>, file: Entries<V>, ghost before: seq<Place>)
    returns (ok: bool, file': Entries<V>, ghost written: seq<Place>, ghost next: Place)
    requires c in m && (forall p :: p in before ==> Has(m, p) && p.0 != c) && file == PutAll(m, before)
    ensures (forall p :: p in written ==> Has(m, p)) && file' == PutAll(m, written)
    ensures if ok then ClientWritten(m, c, before, written) else Stopped(m, written, next)
  {
    ok, file', written, next := true, file, before, ("", "");
    var keys := AnyOrder(m[c].Keys);
    for j := 0 to |keys|
      invariant ok && ClientUpto(m, c, keys[..j], before, written) && file' == PutAll(m, written)
    {
      ClientNext(m, c, keys, j, before, written);
      next := (c, keys[j]);
      ok := *;
      if !ok { return; }
      PutAllNext(m, written, next);
      file' := Put(file', c, keys[j], m[c][keys[j]]);
      written := written + [next];
    }
    ClientAll(m, c, keys, before, written);
  }

  // ---- Clearing a client: first one file is written anew, then the other ----

  datatype Clearing =
    | Untouched
    | BatchesCut(written: seq<Place>, next: Place)
    | BatchesDone
    | EOFsCut(written: seq<Place>, next: Place)
    | Cleared

  // m without c was written anew, whole or up to next.
  ghost predicate Rewritten<V>(m: Entries<V>, c: string, file: Entries<V>, written: seq<Place>) {
    (forall p :: p in written ==> Has(m - {c}, p)) && file == PutAll(m - {c}, written)
  }

  ghost predicate Whole<V>(m: Entries<V>, c: string, written: seq<Place>) {
    forall p :: Has(m - {c}, p) ==> p in written
  }

  // Of what a client d had, the places written are there.
  ghost predicate HasOnly<V>(was: map<string, V>, now: map<string, V>, d: string, written: seq<Place>) {
    && (forall k :: k in now <==> k in was && (d, k) in written)
    && (forall k :: k in now ==> now[k] == was[k])
  }

  lemma RewrittenOf<V>(m: Entries<V>, c: string, file: Entries<V>, written: seq<Place>, d: string)
    requires Rewritten(m, c, file, written)
    ensures HasOnly(Of(m, d), Of(file, d), d, written)
    ensures Whole(m, c, written) ==> Of(file, d) == if d == c then map[] else Of(m, d)
  {
    PutAllHas(m - {c}, written);
    forall k ensures k in Of(file, d) <==> k in Of(m, d) && (d, k) in written {
      assert k in Of(file, d) <==> Has(file, (d, k));
    }
    forall k | k in Of(file, d) ensures Of(file, d)[k] == Of(m, d)[k] {
      assert Has(file, (d, k)) && At(file, (d, k)) == At(m - {c}, (d, k));
    }
    if Whole(m, c, written) {
      forall k | k in Of(m, d) && d != c ensures (d, k) in written { assert Has(m - {c}, (d, k)); }
      assert d == c ==> forall k :: k !in Of(file, d);
    }
  }

  lemma StoppedOf<V>(m: Entries<V>, c: string, file: Entries<V>, written: seq<Place>, next: Place)
    requires Rewritten(m, c, file, written) && Stopped(m - {c}, written, next)
    ensures next.0 != c && next.1 in Of(m, next.0) && next.1 !in Of(file, next.0)
  {
    PutAllHas(m - {c}, written);
    assert !Has(file, next);
  }
}
