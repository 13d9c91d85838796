// Sums of natural-valued maps, and the order that sort.Strings gives to strings.
module Sums {

  // Some element of a non-empty set, always the same one for the same set.
  ghost function Pick<K>(s: set<K>): (k: K)
    requires s != {}
    ensures k in s
  {
    var k :| k in s; k
  }

  // The sum of all the values of a map.
  ghost function Sum<K>(m: map<K, nat>): nat
    decreases m.Keys
  {
    if m.Keys == {} then 0
    else
      var k := Pick(m.Keys);
      m[k] + Sum(m - {k})
  }

  // Any key may be taken out first.
  lemma {:induction false} SumRemove<K>(m: map<K, nat>, k: K)
    requires k in m
    ensures Sum(m) == m[k] + Sum(m - {k})
    decreases m.Keys
  {
    var p := Pick(m.Keys);
    if p != k {
      SumRemove(m - {p}, k);
      SumRemove(m - {k}, p);
      assert (m - {p}) - {k} == (m - {k}) - {p};
    }
  }

  lemma SumAdd<K>(m: map<K, nat>, k: K, v: nat)
    requires k !in m
    ensures Sum(m[k := v]) == Sum(m) + v
  {
    SumRemove(m[k := v], k);
    assert m[k := v] - {k} == m;
  }

  // A map splits into the part on some keys and the rest.
  lemma {:induction false} SumSplit<K>(part: map<K, nat>, whole: map<K, nat>)
    requires forall k :: k in part ==> k in whole && whole[k] == part[k]
    ensures Sum(whole) == Sum(part) + Sum(whole - part.Keys)
    decreases part.Keys
  {
    if part.Keys == {} {
      assert whole - part.Keys == whole;
    } else {
      var p := Pick(part.Keys);
      SumRemove(whole, p);
      SumSplit(part - {p}, whole - {p});
      assert (whole - {p}) - (part - {p}).Keys == whole - part.Keys;
    }
  }

  lemma {:induction false} SumZero<K>(m: map<K, nat>)
    ensures Sum(m) == 0 <==> forall k :: k in m ==> m[k] == 0
    decreases m.Keys
  {
    if m.Keys != {} {
      var p := Pick(m.Keys);
      SumZero(m - {p});
      if k :| k in m && m[k] != 0 {
        SumRemove(m, k);
      }
    }
  }

  // A sum over a union of two maps that share no key.
  lemma SumDisjoint<K>(a: map<K, nat>, b: map<K, nat>)
    requires a.Keys !! b.Keys
    ensures Sum(a + b) == Sum(a) + Sum(b)
  {
    SumSplit(b, a + b);
    assert (a + b) - b.Keys == a;
  }

  // ---- The order of sort.Strings ----

  predicate Leq(a: string, b: string) {
    a == [] || (b != [] && (a[0] < b[0] || (a[0] == b[0] && Leq(a[1..], b[1..]))))
  }

  lemma LeqTotal(a: string, b: string)
    ensures Leq(a, b) || Leq(b, a)
  {
  }

  lemma {:induction false} LeqAntisymmetric(a: string, b: string)
    requires Leq(a, b) && Leq(b, a)
    ensures a == b
  {
    if a != [] && b != [] {
      LeqAntisymmetric(a[1..], b[1..]);
      assert a == [a[0]] + a[1..] && b == [b[0]] + b[1..];
    }
  }

  lemma {:induction false} LeqTransitive(a: string, b: string, c: string)
    requires Leq(a, b) && Leq(b, c)
    ensures Leq(a, c)
  {
    if a != [] && a[0] == b[0] && b[0] == c[0] {
      LeqTransitive(a[1..], b[1..], c[1..]);
    }
  }

  // x is what ends up last when ids is sorted.
  ghost predicate IsLast(x: string, ids: set<string>) {
    x in ids && forall y :: y in ids ==> Leq(y, x)
  }

  lemma LastIsUnique(x: string, y: string, ids: set<string>)
    requires IsLast(x, ids) && IsLast(y, ids)
    ensures x == y
  {
    LeqAntisymmetric(x, y);
  }

  ghost function Last(ids: set<string>): (x: string)
    requires ids != {}
    ensures IsLast(x, ids)
    decreases ids
  {
    var p := Pick(ids);
    if ids == {p} then
      LeqTotal(p, p); p
    else
      var x := Last(ids - {p});
      LeqTotal(x, p);
      if Leq(x, p) then
        (forall y | y in ids ensures Leq(y, p) {
          LeqTotal(p, p);
          if y != p { LeqTransitive(y, x, p); }
        }
        p)
      else x
  }
}
