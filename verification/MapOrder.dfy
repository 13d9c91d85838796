// Visiting the keys of a Go map, or the elements of a set, in an unspecified order.
module MapOrder {
  import Sums

  ghost predicate Enumerates<K(!new)>(order: seq<K>, s: set<K>) {
    && (forall k :: k in order <==> k in s)
    && (forall i, j :: 0 <= i < j < |order| ==> order[i] != order[j])
  }

  ghost function Listing<K(!new)>(s: set<K>): (order: seq<K>)
    ensures Enumerates(order, s)
  {
    if s == {} then []
    else
      var k := Sums.Pick(s);
      [k] + Listing(s - {k})
  }

  method AnyOrder<K(!new,==)>(s: set<K>) returns (order: seq<K>)
    ensures Enumerates(order, s)
  {
    order := [];
    var left := s;
    while left != {}
      invariant left <= s
      invariant Enumerates(order, s - left)
      decreases left
    {
      var k :| k in left;
      left := left - {k};
      order := order + [k];
    }
  }

  lemma {:induction false} EnumerationSize<K(!new)>(order: seq<K>, s: set<K>)
    requires Enumerates(order, s)
    ensures |order| == |s|
  {
    if order == [] {
      assert s == {};
    } else {
      var k := order[|order| - 1];
      assert k in order;
      forall x ensures x in order[..|order| - 1] <==> x in s - {k} {
        assert x in order <==> x in order[..|order| - 1] || x == k;
      }
      EnumerationSize(order[..|order| - 1], s - {k});
    }
  }

  // What visiting one more key means.
  lemma NextKey<K(!new)>(order: seq<K>, s: set<K>, i: nat)
    requires Enumerates(order, s) && i < |order|
    ensures order[i] in s && order[i] !in order[..i] && order[..|order|] == order
    ensures forall k :: k in order[..i + 1] <==> k in order[..i] || k == order[i]
  {
    assert order[i] in order;
    assert order[..i + 1] == order[..i] + [order[i]];
  }

  // The part of m whose keys come before position i of the order.
  ghost function Upto<V>(m: map<string, V>, order: seq<string>, i: nat): map<string, V>
    requires i <= |order|
  {
    map k | k in m && k in order[..i] :: m[k]
  }

  lemma UptoAll<V>(m: map<string, V>, order: seq<string>)
    requires Enumerates(order, m.Keys)
    ensures Upto(m, order, |order|) == m && Upto(m, order, 0) == map[]
  {
    assert order[..|order|] == order;
  }

  lemma UptoNext<V>(m: map<string, V>, order: seq<string>, i: nat)
    requires Enumerates(order, m.Keys) && i < |order|
    ensures order[i] in m && order[i] !in Upto(m, order, i)
    ensures Upto(m, order, i + 1) == Upto(m, order, i)[order[i] := m[order[i]]]
  {
    assert order[..i + 1] == order[..i] + [order[i]];
    assert order[i] in order;
    assert forall j :: 0 <= j < i ==> order[j] != order[i];
  }
}
