// The small part of fmt, strconv, strings and bufio that ids, keys and files are made with.
// A string stands for its bytes.
module Text {

  datatype Option<+T> = None | Some(value: T)

  lemma Regroup<X>(a: seq<X>, b: seq<X>, c: seq<X>)
    ensures a + b + c == a + (b + c)
  {
  }

  lemma SeparatorInTail<X>(sep: X, a: seq<X>, b: seq<X>, c: seq<X>, d: seq<X>)
    requires a + [sep] + b == c + [sep] + d && |a| < |c|
    ensures sep in b
  {
    assert (a + [sep] + b)[|c|] == b[|c| - |a| - 1];
  }

  // Where the tails are free of the separator, they are what follows the last one.
  lemma LastSeparator<X>(sep: X, a: seq<X>, b: seq<X>, c: seq<X>, d: seq<X>)
    requires a + [sep] + b == c + [sep] + d && sep !in b && sep !in d
    ensures a == c && b == d
  {
    if |a| < |c| {
      SeparatorInTail(sep, a, b, c, d);
    } else if |c| < |a| {
      SeparatorInTail(sep, c, d, a, b);
    } else {
      var x := a + [sep] + b;
      assert a == x[..|a|] && c == x[..|c|];
      assert b == x[|a| + 1..] && d == x[|c| + 1..];
    }
  }

  lemma TakeOneMore<X>(a: seq<X>, b: seq<X>, i: nat)
    requires i < |b|
    ensures a + b[..i + 1] == a + b[..i] + [b[i]]
  {
  }

  lemma Multiple(d: int, n: nat)
    ensures (d >= 1 ==> d * n >= n) && (d <= -1 ==> d * n + n <= 0)
  {
  }

  lemma Quotient(n: nat, d: nat, q: nat, r: nat)
    requires d > 0 && n == d * q + r && r < d
    ensures n / d == q
  {
    var p := n / d;
    assert n == d * p + n % d;
    assert d * (p - q) == d * p - d * q;
    Multiple(p - q, d);
  }

  // ---- Decimal numbers ----

  function Digit(d: nat): char
    requires d < 10
  {
    "0123456789"[d]
  }

  predicate IsDigit(c: char) { '0' <= c <= '9' }

  function DigitValue(c: char): nat
    requires IsDigit(c)
  {
    (c - '0') as nat
  }

  function Decimal(n: nat): string {
    if n < 10 then [Digit(n)] else Decimal(n / 10) + [Digit(n % 10)]
  }

  function DecimalInt(n: int): string { if n < 0 then "-" + Decimal(-n) else Decimal(n) }

  predicate AllDigits(s: string) { forall i :: 0 <= i < |s| ==> IsDigit(s[i]) }

  function Value(s: string): nat
    requires AllDigits(s)
  {
    if s == "" then 0 else Value(s[..|s| - 1]) * 10 + DigitValue(s[|s| - 1])
  }

  // strconv.ParseUint(s, 10, bits) with values below limit.
  function ParseUint(s: string, limit: nat): Option<nat> {
    if s != "" && AllDigits(s) && Value(s) < limit then Some(Value(s)) else None
  }

  lemma {:induction false} DecimalRoundTrip(n: nat)
    ensures Decimal(n) != "" && AllDigits(Decimal(n)) && Value(Decimal(n)) == n
  {
    var d := Decimal(n);
    if n < 10 {
      assert d[..0] == "";
    } else {
      DecimalRoundTrip(n / 10);
      assert d[..|d| - 1] == Decimal(n / 10);
    }
  }

  lemma DecimalParses(n: nat, limit: nat)
    requires n < limit
    ensures ParseUint(Decimal(n), limit) == Some(n)
  {
    DecimalRoundTrip(n);
  }

  lemma DecimalInjective(m: nat, n: nat)
    requires Decimal(m) == Decimal(n)
    ensures m == n
  {
    DecimalRoundTrip(m);
    DecimalRoundTrip(n);
  }

  lemma DecimalIntInjective(m: int, n: int)
    requires DecimalInt(m) == DecimalInt(n)
    ensures m == n
  {
    DecimalRoundTrip(if m < 0 then -m else m);
    DecimalRoundTrip(if n < 0 then -n else n);
    assert (m < 0 <==> DecimalInt(m)[0] == '-') && (n < 0 <==> DecimalInt(n)[0] == '-');
    if m < 0 {
      assert Decimal(-m) == DecimalInt(m)[1..] == DecimalInt(n)[1..] == Decimal(-n);
      DecimalInjective(-m, -n);
    } else {
      DecimalInjective(m, n);
    }
  }

  predicate Free(s: string, c: char) { forall i :: 0 <= i < |s| ==> s[i] != c }

  lemma DecimalFree(n: nat, c: char)
    requires !IsDigit(c)
    ensures Free(Decimal(n), c)
  {
    DecimalRoundTrip(n);
  }

  lemma DecimalIntFree(n: int, c: char)
    requires !IsDigit(c) && c != '-'
    ensures Free(DecimalInt(n), c)
  {
    DecimalRoundTrip(if n < 0 then -n else n);
  }

  // ---- Finding and splitting ----

  // strings.IndexByte: the first position of c, or -1.
  function IndexOf(s: string, c: char): (i: int)
    ensures -1 <= i < |s|
    ensures i >= 0 ==> s[i] == c && Free(s[..i], c)
    ensures i == -1 ==> Free(s, c)
  {
    if s == "" then -1
    else if s[0] == c then 0
    else
      var j := IndexOf(s[1..], c);
      if j < 0 then (assert forall k :: 0 < k < |s| ==> s[k] == s[1..][k - 1]; -1)
      else (assert forall k :: 0 < k < j + 1 ==> s[k] == s[1..][..j][k - 1]; j + 1)
  }

  lemma {:induction false} IndexOfFirst(a: string, c: char, b: string)
    requires Free(a, c)
    ensures IndexOf(a + [c] + b, c) == |a|
  {
    if a != "" {
      IndexOfFirst(a[1..], c, b);
      assert (a + [c] + b)[1..] == a[1..] + [c] + b;
    }
  }

  // strings.Split.
  function Split(s: string, sep: char): (parts: seq<string>)
    ensures parts != []
    decreases |s|
  {
    var i := IndexOf(s, sep);
    if i < 0 then [s] else [s[..i]] + Split(s[i + 1..], sep)
  }

  lemma SplitOne(a: string, sep: char)
    requires Free(a, sep)
    ensures Split(a, sep) == [a]
  {
    var i := IndexOf(a, sep);
    assert i < 0;
  }

  lemma SplitCons(a: string, sep: char, b: string)
    requires Free(a, sep)
    ensures Split(a + [sep] + b, sep) == [a] + Split(b, sep)
  {
    IndexOfFirst(a, sep, b);
    var s := a + [sep] + b;
    assert s[..|a|] == a && s[|a| + 1..] == b;
  }

  // ---- Lines, as bufio.Scanner reads them ----

  function DropCR(line: string): string {
    if line != "" && line[|line| - 1] == '\r' then line[..|line| - 1] else line
  }

  // The last line counts even without its newline, unless it is empty.
  function Lines(text: string): seq<string>
    decreases |text|
  {
    if text == "" then []
    else
      var i := IndexOf(text, '\n');
      if i < 0 then [DropCR(text)] else [DropCR(text[..i])] + Lines(text[i + 1..])
  }

  lemma LinesCons(line: string, rest: string)
    requires Free(line, '\n')
    ensures Lines(line + "\n" + rest) == [DropCR(line)] + Lines(rest)
  {
    IndexOfFirst(line, '\n', rest);
    var text := line + "\n" + rest;
    assert text == line + ['\n'] + rest;
    assert text[..|line|] == line && text[|line| + 1..] == rest;
  }
}
