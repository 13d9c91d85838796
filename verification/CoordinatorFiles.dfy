// batches.log, eofs.log and flushed.log: lines of fields joined by a bar, of which the last one
// for an id counts, rewritten when a client is cleared. A write that fails can leave a part of its line.
module CoordinatorFiles {
  import opened MapOrder
  import opened Rewriting
  import opened Text
  import opened EofProtocol

  const BAR := '|'
  const UINT64_LIMIT := 0x1_0000_0000_0000_0000

  // An id that a line can carry.
  predicate Name(s: string) { Free(s, '|') && Free(s, '\n') }

  predicate Storable(r: BatchRecord) { Name(r.batchID) && r.processed < UINT64_LIMIT && r.survivors < UINT64_LIMIT }

  function BatchLine(c: string, r: BatchRecord): string {
    c + [BAR] + (r.batchID + [BAR] + (Decimal(r.processed) + [BAR] + Decimal(r.survivors)))
  }

  function EOFLine(c: string, eofID: string, total: nat): string { c + [BAR] + (eofID + [BAR] + Decimal(total)) }

  function FlushedLine(c: string): string { c + [BAR] + "flushed" }

  // ---- Loading, line by line ----

  // A line that is not as expected is passed over.
  function AddBatchLine(m: Entries<BatchRecord>, line: string): Entries<BatchRecord> {
    var parts := Split(line, BAR);
    if |parts| != 4 then m
    else
      match (ParseUint(parts[2], UINT64_LIMIT), ParseUint(parts[3], UINT64_LIMIT))
      case (Some(p), Some(s)) => Put(m, parts[0], parts[1], BatchRecord(parts[1], p, s))
      case _ => m
  }

  function AddEOFLine(m: Entries<nat>, line: string): Entries<nat> {
    var parts := Split(line, BAR);
    if |parts| != 3 then m
    else
      match ParseUint(parts[2], UINT64_LIMIT)
      case Some(n) => Put(m, parts[0], parts[1], n)
      case None => m
  }

  function AddFlushedLine(s: set<string>, line: string): set<string> {
    var parts := Split(line, BAR);
    if |parts| != 2 then s else s + {parts[0]}
  }

  function BatchesIn(lines: seq<string>): Entries<BatchRecord> {
    if lines == [] then map[] else AddBatchLine(BatchesIn(lines[..|lines| - 1]), lines[|lines| - 1])
  }

  function EOFsIn(lines: seq<string>): Entries<nat> {
    if lines == [] then map[] else AddEOFLine(EOFsIn(lines[..|lines| - 1]), lines[|lines| - 1])
  }

  function FlushedIn(lines: seq<string>): set<string> {
    if lines == [] then {} else AddFlushedLine(FlushedIn(lines[..|lines| - 1]), lines[|lines| - 1])
  }

  lemma BatchesNext(lines: seq<string>, i: nat)
    requires i < |lines|
    ensures BatchesIn(lines[..i + 1]) == AddBatchLine(BatchesIn(lines[..i]), lines[i])
  {
    assert lines[..i + 1][..i] == lines[..i];
  }

  lemma EOFsNext(lines: seq<string>, i: nat)
    requires i < |lines|
    ensures EOFsIn(lines[..i + 1]) == AddEOFLine(EOFsIn(lines[..i]), lines[i])
  {
    assert lines[..i + 1][..i] == lines[..i];
  }

  // ---- One line more ----

  predicate Complete(text: string) { text == "" || text[|text| - 1] == '\n' }

  // After complete lines, what follows is read on its own.
  lemma {:induction false} LinesConcat(text: string, rest: string)
    requires Complete(text)
    ensures Lines(text + rest) == Lines(text) + Lines(rest)
    decreases |text|
  {
    if text == "" {
      assert text + rest == rest;
    } else {
      var i := IndexOf(text, '\n');
      var first, more := text[..i], text[i + 1..];
      assert text == first + "\n" + more;
      assert Complete(more);
      LinesConcat(more, rest);
      LinesCons(first, more);
      LinesCons(first, more + rest);
      Regroup(first + "\n", more, rest);
      Regroup([DropCR(first)], Lines(more), Lines(rest));
    }
  }

  lemma OneLine(line: string)
    requires Free(line, '\n')
    ensures Lines(line + "\n") == [DropCR(line)]
  {
    LinesCons(line, "");
    assert line + "\n" + "" == line + "\n";
  }

  lemma OneMoreLine(text: string, line: string)
    requires Complete(text) && Free(line, '\n')
    ensures Lines(text + line + "\n") == Lines(text) + [DropCR(line)] && Complete(text + line + "\n")
  {
    OneLine(line);
    LinesConcat(text, line + "\n");
    Regroup(text, line, "\n");
  }

  lemma SplitThree(a: string, b: string, c: string)
    requires Free(a, BAR) && Free(b, BAR) && Free(c, BAR)
    ensures Split(a + [BAR] + (b + [BAR] + c), BAR) == [a, b, c]
  {
    SplitOne(c, BAR);
    SplitCons(b, BAR, c);
    SplitCons(a, BAR, b + [BAR] + c);
  }

  lemma SplitFour(a: string, b: string, c: string, d: string)
    requires Free(a, BAR) && Free(b, BAR) && Free(c, BAR) && Free(d, BAR)
    ensures Split(a + [BAR] + (b + [BAR] + (c + [BAR] + d)), BAR) == [a, b, c, d]
  {
    SplitThree(b, c, d);
    SplitCons(a, BAR, b + [BAR] + (c + [BAR] + d));
  }

  // The fields of the lines, in the order in which they are written.
  lemma LineFields(c: string, r: BatchRecord, eofID: string, total: nat)
    requires Name(c) && Name(r.batchID) && Name(eofID)
    ensures Split(BatchLine(c, r), '|') == [c, r.batchID, Decimal(r.processed), Decimal(r.survivors)]
    ensures Split(EOFLine(c, eofID, total), '|') == [c, eofID, Decimal(total)]
    ensures Split(FlushedLine(c), '|') == [c, "flushed"]
  {
    DecimalLine(r.processed);
    DecimalLine(r.survivors);
    DecimalLine(total);
    SplitFour(c, r.batchID, Decimal(r.processed), Decimal(r.survivors));
    SplitThree(c, eofID, Decimal(total));
    SplitOne("flushed", BAR);
    SplitCons(c, BAR, "flushed");
  }

  lemma DecimalLine(n: nat)
    ensures Free(Decimal(n), BAR) && Free(Decimal(n), '\n') && Free(Decimal(n), '\r') && Decimal(n) != ""
  {
    DecimalRoundTrip(n);
    DecimalFree(n, BAR);
    DecimalFree(n, '\n');
    DecimalFree(n, '\r');
  }

  // A line that a reader gets back as it was written.
  predicate CleanLine(s: string) { Free(s, '\n') && s != "" && s[|s| - 1] != '\r' }

  lemma CleanJoin(a: string, b: string)
    requires Free(a, '\n') && CleanLine(b)
    ensures CleanLine(a + [BAR] + b)
  {
  }

  lemma BatchLineRead(m: Entries<BatchRecord>, c: string, r: BatchRecord)
    requires Name(c) && Storable(r)
    ensures AddBatchLine(m, BatchLine(c, r)) == Put(m, c, r.batchID, r) && CleanLine(BatchLine(c, r))
  {
    DecimalLine(r.processed);
    DecimalLine(r.survivors);
    DecimalParses(r.processed, UINT64_LIMIT);
    DecimalParses(r.survivors, UINT64_LIMIT);
    SplitFour(c, r.batchID, Decimal(r.processed), Decimal(r.survivors));
    CleanJoin(Decimal(r.processed), Decimal(r.survivors));
    CleanJoin(r.batchID, Decimal(r.processed) + [BAR] + Decimal(r.survivors));
    CleanJoin(c, r.batchID + [BAR] + (Decimal(r.processed) + [BAR] + Decimal(r.survivors)));
  }

  lemma EOFLineRead(m: Entries<nat>, c: string, e: string, n: nat)
    requires Name(c) && Name(e) && n < UINT64_LIMIT
    ensures AddEOFLine(m, EOFLine(c, e, n)) == Put(m, c, e, n) && CleanLine(EOFLine(c, e, n))
  {
    DecimalLine(n);
    DecimalParses(n, UINT64_LIMIT);
    SplitThree(c, e, Decimal(n));
    CleanJoin(e, Decimal(n));
    CleanJoin(c, e + [BAR] + Decimal(n));
  }

  lemma FlushedLineRead(s: set<string>, c: string)
    requires Name(c)
    ensures AddFlushedLine(s, FlushedLine(c)) == s + {c} && CleanLine(FlushedLine(c))
  {
    assert Free("flushed", BAR) && CleanLine("flushed");
    SplitOne("flushed", BAR);
    SplitCons(c, BAR, "flushed");
    CleanJoin(c, "flushed");
  }

  lemma CleanLineLoads(text: string, line: string)
    requires Complete(text) && CleanLine(line)
    ensures Complete(text + line + "\n")
    ensures BatchesIn(Lines(text + line + "\n")) == AddBatchLine(BatchesIn(Lines(text)), line)
    ensures EOFsIn(Lines(text + line + "\n")) == AddEOFLine(EOFsIn(Lines(text)), line)
    ensures FlushedIn(Lines(text + line + "\n")) == AddFlushedLine(FlushedIn(Lines(text)), line)
  {
    OneMoreLine(text, line);
    assert (Lines(text) + [line])[..|Lines(text)|] == Lines(text);
  }

  // Loading after one more write is loading before it, with the new entry put in.
  lemma BatchWritten(text: string, c: string, r: BatchRecord)
    requires Complete(text) && Name(c) && Storable(r)
    ensures Complete(text + BatchLine(c, r) + "\n")
    ensures BatchesIn(Lines(text + BatchLine(c, r) + "\n")) == Put(BatchesIn(Lines(text)), c, r.batchID, r)
  {
    BatchLineRead(BatchesIn(Lines(text)), c, r);
    CleanLineLoads(text, BatchLine(c, r));
  }

  lemma EOFWritten(text: string, c: string, e: string, n: nat)
    requires Complete(text) && Name(c) && Name(e) && n < UINT64_LIMIT
    ensures Complete(text + EOFLine(c, e, n) + "\n")
    ensures EOFsIn(Lines(text + EOFLine(c, e, n) + "\n")) == Put(EOFsIn(Lines(text)), c, e, n)
  {
    EOFLineRead(EOFsIn(Lines(text)), c, e, n);
    CleanLineLoads(text, EOFLine(c, e, n));
  }

  lemma FlushedWritten(text: string, c: string)
    requires Complete(text) && Name(c)
    ensures Complete(text + FlushedLine(c) + "\n")
    ensures FlushedIn(Lines(text + FlushedLine(c) + "\n")) == FlushedIn(Lines(text)) + {c}
  {
    FlushedLineRead(FlushedIn(Lines(text)), c);
    CleanLineLoads(text, FlushedLine(c));
  }

  // ---- A line cut off by a write that failed ----

  lemma CutAt(s: string, i: nat, rest: string)
    requires i < |s|
    ensures s + rest == s[..i] + [s[i]] + (s[i + 1..] + rest)
  {
  }

  lemma {:induction false} SplitSizes(a: string, b: string, sep: char)
    ensures |Split(a + b, sep)| == |Split(a, sep)| + |Split(b, sep)| - 1
    decreases |a|
  {
    var i := IndexOf(a, sep);
    if i >= 0 {
      CutAt(a, i, b);
      SplitCons(a[..i], sep, a[i + 1..] + b);
      SplitSizes(a[i + 1..], b, sep);
    } else {
      SplitAfterFree(a, b, sep);
    }
  }

  lemma SplitAfterFree(a: string, b: string, sep: char)
    requires Free(a, sep)
    ensures |Split(a + b, sep)| == |Split(b, sep)| && |Split(a, sep)| == 1
  {
    SplitOne(a, sep);
    var j := IndexOf(b, sep);
    if j < 0 {
      SplitOne(a + b, sep);
      SplitOne(b, sep);
    } else {
      var first, rest := b[..j], b[j + 1..];
      assert b == first + [sep] + rest;
      SplitLonger(a, first, sep, rest);
    }
  }

  lemma SplitLonger(a: string, b: string, sep: char, c: string)
    requires Free(a, sep) && Free(b, sep)
    ensures |Split(a + (b + [sep] + c), sep)| == |Split(b + [sep] + c, sep)|
  {
    assert a + (b + [sep] + c) == (a + b) + [sep] + c;
    SplitCons(a + b, sep, c);
    SplitCons(b, sep, c);
  }

  // The first digits of a number are a smaller one.
  lemma {:induction false} FirstDigits(n: nat, k: nat)
    requires 0 < k <= |Decimal(n)|
    ensures AllDigits(Decimal(n)[..k])
    ensures if k < |Decimal(n)| then Value(Decimal(n)[..k]) < n else Value(Decimal(n)[..k]) == n
  {
    var d := Decimal(n);
    DecimalRoundTrip(n);
    if k == |d| {
      assert d[..k] == d;
    } else {
      FirstDigits(n / 10, k);
      assert d[..k] == Decimal(n / 10)[..k];
    }
  }

  // Up to the bar before its last number.
  function BatchHead(c: string, r: BatchRecord): string {
    c + [BAR] + (r.batchID + [BAR] + (Decimal(r.processed) + [BAR]))
  }

  function EOFHead(c: string, eofID: string): string { c + [BAR] + (eofID + [BAR]) }

  // What loads for a line cut after k of its bytes: nothing before the last number begins, and then
  // an entry with as much of that number as is there.
  function TornBatch(m: Entries<BatchRecord>, c: string, r: BatchRecord, k: nat): Entries<BatchRecord>
    requires k <= |BatchLine(c, r)|
  {
    DecimalRoundTrip(r.survivors);
    var h := |BatchHead(c, r)|;
    if k <= h then m else Put(m, c, r.batchID, r.(survivors := Value(Decimal(r.survivors)[..k - h])))
  }

  function TornEOF(m: Entries<nat>, c: string, e: string, n: nat, k: nat): Entries<nat>
    requires k <= |EOFLine(c, e, n)|
  {
    DecimalRoundTrip(n);
    var h := |EOFHead(c, e)|;
    if k <= h then m else Put(m, c, e, Value(Decimal(n)[..k - h]))
  }

  // Before its last bar a line has fewer fields.
  lemma FewerFields(head: string, last: string, k: nat)
    requires head != "" && head[|head| - 1] == BAR && k < |head|
    ensures |Split((head + last)[..k], BAR)| < |Split(head + last, BAR)|
  {
    var line := head + last;
    assert line == line[..k] + line[k..];
    assert line[k..][|head| - 1 - k] == BAR;
    SplitSizes(line[..k], line[k..], BAR);
  }

  // A line cut off is read as some beginning of it, and one that ends in a digit as it is.
  lemma ReadTorn(head: string, digits: string, k: nat) returns (k': nat)
    requires head != "" && head[|head| - 1] == BAR && AllDigits(digits) && k <= |head + digits|
    ensures k' <= |head + digits| && DropCR((head + digits)[..k]) == (head + digits)[..k']
    ensures if k >= |head| then k' == k else k' < |head|
  {
    var line := head + digits;
    k' := |DropCR(line[..k])|;
    if k > |head| { assert line[k - 1] == digits[k - 1 - |head|]; }
  }

  lemma TornBatchRead(m: Entries<BatchRecord>, c: string, r: BatchRecord, k: nat)
    requires Name(c) && Storable(r) && k <= |BatchLine(c, r)|
    ensures AddBatchLine(m, DropCR(BatchLine(c, r)[..k])) == TornBatch(m, c, r, k)
  {
    var head, digits := BatchHead(c, r), Decimal(r.survivors);
    BatchParts(c, r);
    var k' := ReadTorn(head, digits, k);
    if k' < |head| {
      FewerFields(head, digits, k');
    } else {
      CutInTail(head, digits, k);
      SomeDigitsOfBatch(m, c, r, k - |head|);
    }
  }

  lemma CutInTail(head: string, last: string, k: nat)
    requires |head| <= k <= |head + last|
    ensures (head + last)[..k] == head + last[..k - |head|]
  {
  }

  lemma BatchParts(c: string, r: BatchRecord)
    requires Name(c) && Storable(r)
    ensures BatchLine(c, r) == BatchHead(c, r) + Decimal(r.survivors) && AllDigits(Decimal(r.survivors))
    ensures |Split(BatchHead(c, r) + Decimal(r.survivors), BAR)| == 4
  {
    DecimalLine(r.processed);
    DecimalLine(r.survivors);
    DecimalRoundTrip(r.survivors);
    SplitFour(c, r.batchID, Decimal(r.processed), Decimal(r.survivors));
    assert BatchHead(c, r) + Decimal(r.survivors) == BatchLine(c, r);
  }

  lemma BatchFields(c: string, r: BatchRecord, some: string)
    requires Name(c) && Name(r.batchID) && AllDigits(some)
    ensures Split(BatchHead(c, r) + some, BAR) == [c, r.batchID, Decimal(r.processed), some]
  {
    DecimalLine(r.processed);
    assert BatchHead(c, r) + some == c + [BAR] + (r.batchID + [BAR] + (Decimal(r.processed) + [BAR] + some));
    SplitFour(c, r.batchID, Decimal(r.processed), some);
  }

  lemma SomeDigitsOfBatch(m: Entries<BatchRecord>, c: string, r: BatchRecord, j: nat)
    requires Name(c) && Storable(r) && j <= |Decimal(r.survivors)|
    ensures |BatchHead(c, r)| + j <= |BatchLine(c, r)|
    ensures AddBatchLine(m, BatchHead(c, r) + Decimal(r.survivors)[..j]) == TornBatch(m, c, r, |BatchHead(c, r)| + j)
  {
    var some := Decimal(r.survivors)[..j];
    BatchParts(c, r);
    BatchFields(c, r, some);
    DecimalParses(r.processed, UINT64_LIMIT);
    if j > 0 { FirstDigits(r.survivors, j); }
    FieldsRead(m, BatchHead(c, r) + some, c, r, some);
  }

  lemma FieldsRead(m: Entries<BatchRecord>, line: string, c: string, r: BatchRecord, some: string)
    requires Split(line, BAR) == [c, r.batchID, Decimal(r.processed), some]
    requires ParseUint(Decimal(r.processed), UINT64_LIMIT) == Some(r.processed)
    ensures AddBatchLine(m, line) ==
              match ParseUint(some, UINT64_LIMIT)
              case Some(n) => Put(m, c, r.batchID, r.(survivors := n))
              case None => m
  {
  }

  lemma TornEOFRead(m: Entries<nat>, c: string, e: string, n: nat, k: nat)
    requires Name(c) && Name(e) && n < UINT64_LIMIT && k <= |EOFLine(c, e, n)|
    ensures AddEOFLine(m, DropCR(EOFLine(c, e, n)[..k])) == TornEOF(m, c, e, n, k)
  {
    var head, digits := EOFHead(c, e), Decimal(n);
    EOFParts(c, e, n);
    var k' := ReadTorn(head, digits, k);
    if k' < |head| {
      FewerFields(head, digits, k');
    } else {
      CutInTail(head, digits, k);
      SomeDigitsOfEOF(m, c, e, n, k - |head|);
    }
  }

  lemma EOFParts(c: string, e: string, n: nat)
    requires Name(c) && Name(e)
    ensures EOFLine(c, e, n) == EOFHead(c, e) + Decimal(n) && AllDigits(Decimal(n))
    ensures |Split(EOFHead(c, e) + Decimal(n), BAR)| == 3
  {
    DecimalLine(n);
    DecimalRoundTrip(n);
    SplitThree(c, e, Decimal(n));
    assert EOFHead(c, e) + Decimal(n) == EOFLine(c, e, n);
  }

  lemma SomeDigitsOfEOF(m: Entries<nat>, c: string, e: string, n: nat, j: nat)
    requires Name(c) && Name(e) && n < UINT64_LIMIT && j <= |Decimal(n)|
    ensures |EOFHead(c, e)| + j <= |EOFLine(c, e, n)|
    ensures AddEOFLine(m, EOFHead(c, e) + Decimal(n)[..j]) == TornEOF(m, c, e, n, |EOFHead(c, e)| + j)
  {
    var some := Decimal(n)[..j];
    DecimalLine(n);
    assert EOFHead(c, e) + some == c + [BAR] + (e + [BAR] + some);
    SplitThree(c, e, some);
    if j > 0 { FirstDigits(n, j); }
  }

  // A last line without its newline is read without the carriage return at its end.
  lemma TailLoads(text: string, tail: string)
    requires Complete(text) && Free(tail, '\n') && tail != ""
    ensures BatchesIn(Lines(text + tail)) == AddBatchLine(BatchesIn(Lines(text)), DropCR(tail))
    ensures EOFsIn(Lines(text + tail)) == AddEOFLine(EOFsIn(Lines(text)), DropCR(tail))
    ensures FlushedIn(Lines(text + tail)) == AddFlushedLine(FlushedIn(Lines(text)), DropCR(tail))
  {
    LinesConcat(text, tail);
    assert Lines(tail) == [DropCR(tail)];
    assert (Lines(text) + [DropCR(tail)])[..|Lines(text)|] == Lines(text);
  }

  // Loading after a write that was cut is loading before it, with what the cut line gives.
  lemma BatchTorn(text: string, c: string, r: BatchRecord, k: nat)
    requires Complete(text) && Name(c) && Storable(r) && k <= |BatchLine(c, r)|
    ensures BatchesIn(Lines(text + BatchLine(c, r)[..k])) == TornBatch(BatchesIn(Lines(text)), c, r, k)
  {
    var tail := BatchLine(c, r)[..k];
    BatchLineRead(map[], c, r);
    if k == 0 {
      assert text + tail == text;
    } else {
      TailLoads(text, tail);
      TornBatchRead(BatchesIn(Lines(text)), c, r, k);
    }
  }

  lemma EOFTorn(text: string, c: string, e: string, n: nat, k: nat)
    requires Complete(text) && Name(c) && Name(e) && n < UINT64_LIMIT && k <= |EOFLine(c, e, n)|
    ensures EOFsIn(Lines(text + EOFLine(c, e, n)[..k])) == TornEOF(EOFsIn(Lines(text)), c, e, n, k)
  {
    var tail := EOFLine(c, e, n)[..k];
    EOFLineRead(map[], c, e, n);
    if k == 0 {
      assert text + tail == text;
    } else {
      TailLoads(text, tail);
      TornEOFRead(EOFsIn(Lines(text)), c, e, n, k);
    }
  }

  lemma NoMark(s: set<string>, c: string, k: nat)
    requires Name(c) && k <= |c|
    ensures AddFlushedLine(s, DropCR(FlushedLine(c)[..k])) == s
  {
    var read := DropCR(c[..k]);
    assert FlushedLine(c)[..k] == c[..k];
    SplitOne(read, BAR);
  }

  lemma SomeMark(s: set<string>, c: string, k: nat)
    requires Name(c) && |c| < k <= |FlushedLine(c)|
    ensures AddFlushedLine(s, DropCR(FlushedLine(c)[..k])) == s + {c}
  {
    var j := k - |c| - 1;
    TornMark(c, j);
    SplitOne("flushed"[..j], BAR);
    SplitCons(c, BAR, "flushed"[..j]);
  }

  lemma TornMark(c: string, j: nat)
    requires j <= |"flushed"|
    ensures FlushedLine(c)[..|c| + 1 + j] == c + [BAR] + "flushed"[..j] && Free("flushed"[..j], BAR)
    ensures DropCR(c + [BAR] + "flushed"[..j]) == c + [BAR] + "flushed"[..j]
  {
    assert forall i :: 0 <= i < |"flushed"| ==> "flushed"[i] != '\r' && "flushed"[i] != BAR;
    CutInTail(c + [BAR], "flushed", |c| + 1 + j);
  }

  lemma FlushedTornRead(s: set<string>, c: string, k: nat)
    requires Name(c) && k <= |FlushedLine(c)|
    ensures AddFlushedLine(s, DropCR(FlushedLine(c)[..k])) == if k <= |c| then s else s + {c}
  {
    if k <= |c| { NoMark(s, c, k); } else { SomeMark(s, c, k); }
  }

  lemma FlushedTorn(text: string, c: string, k: nat)
    requires Complete(text) && Name(c) && k <= |FlushedLine(c)|
    ensures FlushedIn(Lines(text + FlushedLine(c)[..k])) ==
              if k <= |c| then FlushedIn(Lines(text)) else FlushedIn(Lines(text)) + {c}
  {
    FlushedLineRead({}, c);
    FlushedTornRead(FlushedIn(Lines(text)), c, k);
    if k == 0 {
      assert text + FlushedLine(c)[..k] == text;
    } else {
      TailLoads(text, FlushedLine(c)[..k]);
    }
  }

  lemma TwoFields(c: string, rest: string, k: nat, line: string)
    requires Free(c, BAR) && |c| < k <= |c + [BAR] + rest|
    ensures |Split((c + [BAR] + rest)[..k] + line, BAR)| > |Split(line, BAR)|
  {
    var some := rest[..k - |c| - 1];
    CutInTail(c + [BAR], rest, k);
    SplitCons(c, BAR, some);
    SplitSizes(c + [BAR] + some, line, BAR);
  }

  lemma CleanTail(head: string, k: nat, line: string)
    requires Free(head, '\n') && k <= |head| && CleanLine(line)
    ensures CleanLine(head[..k] + line)
  {
  }

  // A line written behind one that was cut: both are lost, or, where only the client of the first had
  // begun, the second is read as one of another client.
  lemma GluedBatchRead(m: Entries<BatchRecord>, c: string, r: BatchRecord, k: nat, d: string, q: BatchRecord)
    requires Name(c) && Storable(r) && k <= |BatchLine(c, r)| && Name(d) && Storable(q)
    ensures AddBatchLine(m, BatchLine(c, r)[..k] + BatchLine(d, q)) ==
              if k <= |c| then Put(m, c[..k] + d, q.batchID, q) else m
  {
    if k <= |c| {
      assert BatchLine(c, r)[..k] + BatchLine(d, q) == BatchLine(c[..k] + d, q);
      BatchLineRead(m, c[..k] + d, q);
    } else {
      BatchParts(d, q);
      TwoFields(c, r.batchID + [BAR] + (Decimal(r.processed) + [BAR] + Decimal(r.survivors)), k, BatchLine(d, q));
    }
  }

  lemma GluedEOFRead(m: Entries<nat>, c: string, e: string, n: nat, k: nat, d: string, e': string, n': nat)
    requires Name(c) && Name(e) && k <= |EOFLine(c, e, n)| && Name(d) && Name(e') && n' < UINT64_LIMIT
    ensures AddEOFLine(m, EOFLine(c, e, n)[..k] + EOFLine(d, e', n')) ==
              if k <= |c| then Put(m, c[..k] + d, e', n') else m
  {
    if k <= |c| {
      assert EOFLine(c, e, n)[..k] + EOFLine(d, e', n') == EOFLine(c[..k] + d, e', n');
      EOFLineRead(m, c[..k] + d, e', n');
    } else {
      EOFParts(d, e', n');
      TwoFields(c, e + [BAR] + Decimal(n), k, EOFLine(d, e', n'));
    }
  }

  lemma PutBehind<V>(m: Entries<V>, some: string, d: string, k: string, v: V)
    ensures Of(Put(m, some + d, k, v), d) == if some == "" then Of(m, d)[k := v] else Of(m, d)
  {
    if some == "" { assert some + d == d; } else { assert |some + d| != |d|; }
  }

  // So what the next process writes behind a line cut off is loaded for its client if and only if
  // nothing of that line had come to the file.
  lemma BatchAfterTorn(text: string, c: string, r: BatchRecord, k: nat, d: string, q: BatchRecord)
    requires Complete(text) && Name(c) && Storable(r) && k <= |BatchLine(c, r)| && Name(d) && Storable(q)
    ensures var loaded, after := BatchesIn(Lines(text)),
                                 BatchesIn(Lines(text + (BatchLine(c, r)[..k] + BatchLine(d, q)) + "\n"));
            && after == (if k <= |c| then Put(loaded, c[..k] + d, q.batchID, q) else loaded)
            && Of(after, d) == (if k == 0 then Of(loaded, d)[q.batchID := q] else Of(loaded, d))
  {
    BatchLineRead(map[], c, r);
    BatchLineRead(map[], d, q);
    CleanTail(BatchLine(c, r), k, BatchLine(d, q));
    CleanLineLoads(text, BatchLine(c, r)[..k] + BatchLine(d, q));
    GluedBatchRead(BatchesIn(Lines(text)), c, r, k, d, q);
    if k <= |c| { PutBehind(BatchesIn(Lines(text)), c[..k], d, q.batchID, q); }
  }

  lemma EOFAfterTorn(text: string, c: string, e: string, n: nat, k: nat, d: string, e': string, n': nat)
    requires Complete(text) && Name(c) && Name(e) && n < UINT64_LIMIT && k <= |EOFLine(c, e, n)|
    requires Name(d) && Name(e') && n' < UINT64_LIMIT
    ensures var loaded, after := EOFsIn(Lines(text)),
                                 EOFsIn(Lines(text + (EOFLine(c, e, n)[..k] + EOFLine(d, e', n')) + "\n"));
            && after == (if k <= |c| then Put(loaded, c[..k] + d, e', n') else loaded)
            && Of(after, d) == (if k == 0 then Of(loaded, d)[e' := n'] else Of(loaded, d))
  {
    EOFLineRead(map[], c, e, n);
    EOFLineRead(map[], d, e', n');
    CleanTail(EOFLine(c, e, n), k, EOFLine(d, e', n'));
    CleanLineLoads(text, EOFLine(c, e, n)[..k] + EOFLine(d, e', n'));
    GluedEOFRead(EOFsIn(Lines(text)), c, e, n, k, d, e', n');
    if k <= |c| { PutBehind(EOFsIn(Lines(text)), c[..k], d, e', n'); }
  }

  // ---- Rewriting ----

  // What can be written for a client and read back.
  ghost predicate StorableBatches(c: string, records: map<string, BatchRecord>) {
    Name(c) && records != map[] && forall id :: id in records ==> Storable(records[id]) && records[id].batchID == id
  }

  ghost predicate StorableEOFs(c: string, eofs: map<string, nat>) {
    Name(c) && eofs != map[] && forall e :: e in eofs ==> Name(e) && eofs[e] < UINT64_LIMIT
  }

  lemma {:induction false} SplitNames(s: string, i: nat)
    requires Free(s, '\n') && i < |Split(s, BAR)|
    ensures Name(Split(s, BAR)[i])
    decreases |s|
  {
    var j := IndexOf(s, BAR);
    if j >= 0 && i > 0 { SplitNames(s[j + 1..], i - 1); }
  }

  lemma {:induction false} LinesAreFree(text: string, i: nat)
    requires i < |Lines(text)|
    ensures Free(Lines(text)[i], '\n')
    decreases |text|
  {
    var j := IndexOf(text, '\n');
    if j >= 0 && i > 0 { LinesAreFree(text[j + 1..], i - 1); }
  }

  lemma BatchLineStorable(m: Entries<BatchRecord>, line: string)
    requires (forall c :: c in m ==> StorableBatches(c, m[c])) && Free(line, '\n')
    ensures forall c :: c in AddBatchLine(m, line) ==> StorableBatches(c, AddBatchLine(m, line)[c])
  {
    var parts := Split(line, BAR);
    if |parts| == 4 && ParseUint(parts[2], UINT64_LIMIT).Some? && ParseUint(parts[3], UINT64_LIMIT).Some? {
      SplitNames(line, 0);
      SplitNames(line, 1);
      var c, id := parts[0], parts[1];
      var r := BatchRecord(id, ParseUint(parts[2], UINT64_LIMIT).value, ParseUint(parts[3], UINT64_LIMIT).value);
      var was := if c in m then m[c] else map[];
      assert id in was[id := r];
      assert StorableBatches(c, was[id := r]);
    }
  }

  lemma EOFLineStorable(m: Entries<nat>, line: string)
    requires (forall c :: c in m ==> StorableEOFs(c, m[c])) && Free(line, '\n')
    ensures forall c :: c in AddEOFLine(m, line) ==> StorableEOFs(c, AddEOFLine(m, line)[c])
  {
    var parts := Split(line, BAR);
    if |parts| == 3 && ParseUint(parts[2], UINT64_LIMIT).Some? {
      SplitNames(line, 0);
      SplitNames(line, 1);
      var was: map<string, nat> := if parts[0] in m then m[parts[0]] else map[];
      var now: map<string, nat> := was[parts[1] := ParseUint(parts[2], UINT64_LIMIT).value];
      assert parts[1] in now;
      assert StorableEOFs(parts[0], now);
    }
  }

  // Whatever the file holds, what is loaded from it can be written again.
  lemma {:induction false} LoadedIsStorable(lines: seq<string>)
    requires forall i :: 0 <= i < |lines| ==> Free(lines[i], '\n')
    ensures forall c :: c in BatchesIn(lines) ==> StorableBatches(c, BatchesIn(lines)[c])
    ensures forall c :: c in EOFsIn(lines) ==> StorableEOFs(c, EOFsIn(lines)[c])
  {
    if lines != [] {
      LoadedIsStorable(lines[..|lines| - 1]);
      BatchLineStorable(BatchesIn(lines[..|lines| - 1]), lines[|lines| - 1]);
      EOFLineStorable(EOFsIn(lines[..|lines| - 1]), lines[|lines| - 1]);
    }
  }

  ghost predicate AllStorableBatches(m: Entries<BatchRecord>) { forall c :: c in m ==> StorableBatches(c, m[c]) }

  ghost predicate AllStorableEOFs(m: Entries<nat>) { forall c :: c in m ==> StorableEOFs(c, m[c]) }

  function LineOfBatch(m: Entries<BatchRecord>, p: Place): string
    requires Has(m, p)
  {
    BatchLine(p.0, At(m, p))
  }

  function LineOfEOF(m: Entries<nat>, p: Place): string
    requires Has(m, p)
  {
    EOFLine(p.0, p.1, At(m, p))
  }

  // The lines of some entries, one after the other.
  function BatchText(m: Entries<BatchRecord>, order: seq<Place>): string
    requires forall p :: p in order ==> Has(m, p)
  {
    if order == [] then "" else BatchText(m, order[..|order| - 1]) + LineOfBatch(m, order[|order| - 1]) + "\n"
  }

  function EOFText(m: Entries<nat>, order: seq<Place>): string
    requires forall p :: p in order ==> Has(m, p)
  {
    if order == [] then "" else EOFText(m, order[..|order| - 1]) + LineOfEOF(m, order[|order| - 1]) + "\n"
  }

  lemma BatchTextNext(m: Entries<BatchRecord>, order: seq<Place>, p: Place)
    requires (forall q :: q in order ==> Has(m, q)) && Has(m, p)
    ensures BatchText(m, order + [p]) == BatchText(m, order) + LineOfBatch(m, p) + "\n"
    ensures BatchText(m, order + [p]) == BatchText(m, order) + (LineOfBatch(m, p) + "\n")
  {
    assert (order + [p])[..|order|] == order;
    Regroup(BatchText(m, order), LineOfBatch(m, p), "\n");
  }

  lemma EOFTextNext(m: Entries<nat>, order: seq<Place>, p: Place)
    requires (forall q :: q in order ==> Has(m, q)) && Has(m, p)
    ensures EOFText(m, order + [p]) == EOFText(m, order) + LineOfEOF(m, p) + "\n"
    ensures EOFText(m, order + [p]) == EOFText(m, order) + (LineOfEOF(m, p) + "\n")
  {
    assert (order + [p])[..|order|] == order;
    Regroup(EOFText(m, order), LineOfEOF(m, p), "\n");
  }

  lemma {:induction false} BatchTextLoads(m: Entries<BatchRecord>, order: seq<Place>)
    requires AllStorableBatches(m) && forall p :: p in order ==> Has(m, p)
    ensures Complete(BatchText(m, order)) && BatchesIn(Lines(BatchText(m, order))) == PutAll(m, order)
  {
    if order != [] {
      var init, p := order[..|order| - 1], order[|order| - 1];
      BatchTextLoads(m, init);
      assert p in order && Has(m, p);
      assert StorableBatches(p.0, m[p.0]);
      BatchWritten(BatchText(m, init), p.0, At(m, p));
    }
  }

  lemma {:induction false} EOFTextLoads(m: Entries<nat>, order: seq<Place>)
    requires AllStorableEOFs(m) && forall p :: p in order ==> Has(m, p)
    ensures Complete(EOFText(m, order)) && EOFsIn(Lines(EOFText(m, order))) == PutAll(m, order)
  {
    if order != [] {
      var init, p := order[..|order| - 1], order[|order| - 1];
      EOFTextLoads(m, init);
      assert p in order && Has(m, p);
      assert StorableEOFs(p.0, m[p.0]);
      EOFWritten(EOFText(m, init), p.0, p.1, At(m, p));
    }
  }

  // The file of m, written anew as far as the line of next, of which torn bytes were written.
  ghost predicate BatchesStopped(text: string, m: Entries<BatchRecord>, written: seq<Place>, next: Place, torn: nat) {
    && Stopped(m, written, next) && torn <= |LineOfBatch(m, next)|
    && text == BatchText(m, written) + LineOfBatch(m, next)[..torn]
  }

  ghost predicate EOFsStopped(text: string, m: Entries<nat>, written: seq<Place>, next: Place, torn: nat) {
    && Stopped(m, written, next) && torn <= |LineOfEOF(m, next)|
    && text == EOFText(m, written) + LineOfEOF(m, next)[..torn]
  }

  // What then loads: the entries written, and of the next one what its cut line gives.
  lemma StoppedBatchesLoad(text: string, m: Entries<BatchRecord>, written: seq<Place>, next: Place, torn: nat)
    requires AllStorableBatches(m) && BatchesStopped(text, m, written, next, torn)
    ensures BatchesIn(Lines(text)) == TornBatch(PutAll(m, written), next.0, At(m, next), torn)
  {
    BatchTextLoads(m, written);
    assert StorableBatches(next.0, m[next.0]);
    BatchTorn(BatchText(m, written), next.0, At(m, next), torn);
  }

  lemma StoppedEOFsLoad(text: string, m: Entries<nat>, written: seq<Place>, next: Place, torn: nat)
    requires AllStorableEOFs(m) && EOFsStopped(text, m, written, next, torn)
    ensures EOFsIn(Lines(text)) == TornEOF(PutAll(m, written), next.0, next.1, At(m, next), torn)
  {
    EOFTextLoads(m, written);
    assert StorableEOFs(next.0, m[next.0]);
    EOFTorn(EOFText(m, written), next.0, next.1, At(m, next), torn);
  }

  // What a load then has of m, entry by entry: those written, and the next one if only its newline
  // is missing; if only a part of its last number is there, a smaller number; if less, nothing.
  lemma StoppedBatchesIff(text: string, m: Entries<BatchRecord>, written: seq<Place>, next: Place, torn: nat)
    requires AllStorableBatches(m) && BatchesStopped(text, m, written, next, torn)
    ensures var loaded, line, head := BatchesIn(Lines(text)), LineOfBatch(m, next), BatchHead(next.0, At(m, next));
            && (forall p :: Has(m, p) ==> (SameAt(m, loaded, p) <==> p in written || (p == next && torn == |line|)))
            && (forall p :: Has(loaded, p) <==> p in written || (p == next && torn > |head|))
            && (|head| < torn < |line| ==>
                  var r, r' := At(m, next), At(loaded, next);
                  r'.survivors < r.survivors && r' == r.(survivors := r'.survivors))
            && (loaded == m <==> torn == |line| && forall p :: Has(m, p) ==> p in written || p == next)
  {
    StoppedBatchesLoad(text, m, written, next, torn);
    assert StorableBatches(next.0, m[next.0]);
    var r := At(m, next);
    var j := torn - |BatchHead(next.0, r)|;
    BatchParts(next.0, r);
    if j <= 0 {
      NextMissing(m, written, next);
    } else {
      FirstDigits(r.survivors, j);
      NextThere(m, written, next, r.(survivors := Value(Decimal(r.survivors)[..j])));
    }
  }

  lemma StoppedEOFsIff(text: string, m: Entries<nat>, written: seq<Place>, next: Place, torn: nat)
    requires AllStorableEOFs(m) && EOFsStopped(text, m, written, next, torn)
    ensures var loaded, line, head := EOFsIn(Lines(text)), LineOfEOF(m, next), EOFHead(next.0, next.1);
            && (forall p :: Has(m, p) ==> (SameAt(m, loaded, p) <==> p in written || (p == next && torn == |line|)))
            && (forall p :: Has(loaded, p) <==> p in written || (p == next && torn > |head|))
            && (|head| < torn < |line| ==> At(loaded, next) < At(m, next))
            && (loaded == m <==> torn == |line| && forall p :: Has(m, p) ==> p in written || p == next)
  {
    StoppedEOFsLoad(text, m, written, next, torn);
    assert StorableEOFs(next.0, m[next.0]);
    var n := At(m, next);
    var j := torn - |EOFHead(next.0, next.1)|;
    EOFParts(next.0, next.1, n);
    if j <= 0 {
      NextMissing(m, written, next);
    } else {
      FirstDigits(n, j);
      NextThere(m, written, next, Value(Decimal(n)[..j]));
    }
  }

  // Right after the file is truncated nothing of any client is left: the records that others had there
  // are lost, and so are their EOFs when it happens to the other file.
  lemma OthersCanBeLost(m: Entries<BatchRecord>, eofs: Entries<nat>, next: Place)
    ensures Has(m, next) ==>
              BatchesStopped("", m, [], next, 0) && BatchesIn(Lines("")) == map[] && !SameAt(m, map[], next)
    ensures Has(eofs, next) ==>
              EOFsStopped("", eofs, [], next, 0) && EOFsIn(Lines("")) == map[] && !SameAt(eofs, map[], next)
  {
    if Has(m, next) { assert LineOfBatch(m, next)[..0] == ""; }
    if Has(eofs, next) { assert LineOfEOF(eofs, next)[..0] == ""; }
  }

  // ---- The object ----

  // A writer that has failed once fails from then on.
  class BatchStorage {
    var batchFile: string
    var eofFile: string
    var flushedFile: string
    var batchBroken: bool
    var eofBroken: bool
    var flushedBroken: bool

    function Batches(): Entries<BatchRecord>
      reads this
    {
      BatchesIn(Lines(batchFile))
    }

    function EOFs(): Entries<nat>
      reads this
    {
      EOFsIn(Lines(eofFile))
    }

    function Flushed(): set<string>
      reads this
    {
      FlushedIn(Lines(flushedFile))
    }

    // The files are as the last process left them.
    constructor (batchFile: string, eofFile: string, flushedFile: string)
      ensures this.batchFile == batchFile && this.eofFile == eofFile && this.flushedFile == flushedFile
      ensures !batchBroken && !eofBroken && !flushedBroken
    {
      this.batchFile, this.eofFile, this.flushedFile := batchFile, eofFile, flushedFile;
      batchBroken, eofBroken, flushedBroken := false, false, false;
    }

    method LoadBatches() returns (result: Entries<BatchRecord>)
      ensures result == Batches()
    {
      result := map[];
      var lines := Lines(batchFile);
      for i := 0 to |lines|
        invariant result == BatchesIn(lines[..i])
      {
        BatchesNext(lines, i);
        var parts := Split(lines[i], BAR);
        if |parts| != 4 { continue; }
        var clientID, batchID := parts[0], parts[1];
        var processed := ParseUint(parts[2], UINT64_LIMIT);
        if processed.None? { continue; }
        var survivors := ParseUint(parts[3], UINT64_LIMIT);
        if survivors.None? { continue; }
        if clientID !in result {
          result := result[clientID := map[]];
        }
        result := result[clientID := result[clientID][batchID := BatchRecord(batchID, processed.value, survivors.value)]];
      }
      assert lines[..|lines|] == lines;
    }

    method LoadEOFs() returns (result: Entries<nat>)
      ensures result == EOFs()
    {
      result := map[];
      var lines := Lines(eofFile);
      for i := 0 to |lines|
        invariant result == EOFsIn(lines[..i])
      {
        EOFsNext(lines, i);
        var parts := Split(lines[i], BAR);
        if |parts| != 3 { continue; }
        var total := ParseUint(parts[2], UINT64_LIMIT);
        if total.None? { continue; }
        var eofs: map<string, nat> := if parts[0] in result then result[parts[0]] else map[];
        eofs := eofs[parts[1] := total.value];
        result := result[parts[0] := eofs];
      }
      assert lines[..|lines|] == lines;
    }

    method LoadFlushed() returns (result: set<string>)
      ensures result == Flushed()
    {
      result := {};
      var lines := Lines(flushedFile);
      for i := 0 to |lines|
        invariant result == FlushedIn(lines[..i])
      {
        assert lines[..i + 1][..i] == lines[..i];
        var parts := Split(lines[i], BAR);
        if |parts| != 2 { continue; }
        result := result + {parts[0]};
      }
      assert lines[..|lines|] == lines;
    }

    // An id with a bar or a newline in it is written too, but does not come back as that id.
    method WriteBatch(c: string, r: BatchRecord) returns (ok: bool, ghost torn: nat)
      modifies this`batchFile, this`batchBroken
      ensures batchBroken == !ok && (old(batchBroken) ==> !ok && torn == 0)
      ensures torn <= |BatchLine(c, r)|
      ensures batchFile == old(batchFile) + (if ok then BatchLine(c, r) + "\n" else BatchLine(c, r)[..torn])
      ensures ok ==> Complete(batchFile)
      ensures Complete(old(batchFile)) && Name(c) && Storable(r) ==>
                Batches() == if ok then Put(old(Batches()), c, r.batchID, r) else TornBatch(old(Batches()), c, r, torn)
    {
      torn := 0;
      if batchBroken { return false, 0; }
      var line := BatchLine(c, r) + "\n";
      var n: nat :| n <= |line|;
      if Complete(batchFile) && Name(c) && Storable(r) { BatchEither(batchFile, c, r, n); }
      batchFile := batchFile + line[..n];
      ok := n == |line|;
      torn := if ok then 0 else n;
      batchBroken := !ok;
    }

    lemma BatchEither(text: string, c: string, r: BatchRecord, n: nat)
      requires Complete(text) && Name(c) && Storable(r) && n <= |BatchLine(c, r) + "\n"|
      ensures var line, loaded := BatchLine(c, r), BatchesIn(Lines(text));
              BatchesIn(Lines(text + (line + "\n")[..n])) ==
                if n <= |line| then TornBatch(loaded, c, r, n) else Put(loaded, c, r.batchID, r)
    {
      var line := BatchLine(c, r);
      if n <= |line| {
        assert (line + "\n")[..n] == line[..n];
        BatchTorn(text, c, r, n);
      } else {
        assert text + (line + "\n")[..n] == text + line + "\n";
        BatchWritten(text, c, r);
      }
    }

    method WriteEOF(c: string, e: string, n: nat) returns (ok: bool, ghost torn: nat)
      modifies this`eofFile, this`eofBroken
      ensures eofBroken == !ok && (old(eofBroken) ==> !ok && torn == 0)
      ensures torn <= |EOFLine(c, e, n)|
      ensures eofFile == old(eofFile) + (if ok then EOFLine(c, e, n) + "\n" else EOFLine(c, e, n)[..torn])
      ensures ok ==> Complete(eofFile)
      ensures Complete(old(eofFile)) && Name(c) && Name(e) && n < UINT64_LIMIT ==>
                EOFs() == if ok then Put(old(EOFs()), c, e, n) else TornEOF(old(EOFs()), c, e, n, torn)
    {
      torn := 0;
      if eofBroken { return false, 0; }
      var line := EOFLine(c, e, n) + "\n";
      var size: nat :| size <= |line|;
      if Complete(eofFile) && Name(c) && Name(e) && n < UINT64_LIMIT { EOFEither(eofFile, c, e, n, size); }
      eofFile := eofFile + line[..size];
      ok := size == |line|;
      torn := if ok then 0 else size;
      eofBroken := !ok;
    }

    lemma EOFEither(text: string, c: string, e: string, n: nat, k: nat)
      requires Complete(text) && Name(c) && Name(e) && n < UINT64_LIMIT && k <= |EOFLine(c, e, n) + "\n"|
      ensures var line, loaded := EOFLine(c, e, n), EOFsIn(Lines(text));
              EOFsIn(Lines(text + (line + "\n")[..k])) ==
                if k <= |line| then TornEOF(loaded, c, e, n, k) else Put(loaded, c, e, n)
    {
      var line := EOFLine(c, e, n);
      if k <= |line| {
        assert (line + "\n")[..k] == line[..k];
        EOFTorn(text, c, e, n, k);
      } else {
        assert text + (line + "\n")[..k] == text + line + "\n";
        EOFWritten(text, c, e, n);
      }
    }

    // The mark counts as soon as its bar is written.
    method WriteFlushed(c: string) returns (ok: bool, ghost torn: nat)
      modifies this`flushedFile, this`flushedBroken
      ensures flushedBroken == !ok && (old(flushedBroken) ==> !ok && torn == 0)
      ensures torn <= |FlushedLine(c)|
      ensures flushedFile == old(flushedFile) + (if ok then FlushedLine(c) + "\n" else FlushedLine(c)[..torn])
      ensures ok ==> Complete(flushedFile)
      ensures Complete(old(flushedFile)) && Name(c) ==>
                Flushed() == if ok || torn > |c| then old(Flushed()) + {c} else old(Flushed())
    {
      torn := 0;
      if flushedBroken { return false, 0; }
      var line := FlushedLine(c) + "\n";
      var n: nat :| n <= |line|;
      if Complete(flushedFile) && Name(c) { FlushedEither(flushedFile, c, n); }
      flushedFile := flushedFile + line[..n];
      ok := n == |line|;
      torn := if ok then 0 else n;
      flushedBroken := !ok;
    }

    lemma FlushedEither(text: string, c: string, k: nat)
      requires Complete(text) && Name(c) && k <= |FlushedLine(c) + "\n"|
      ensures FlushedIn(Lines(text + (FlushedLine(c) + "\n")[..k])) ==
                if k <= |c| then FlushedIn(Lines(text)) else FlushedIn(Lines(text)) + {c}
    {
      var line := FlushedLine(c);
      if k <= |line| {
        assert (line + "\n")[..k] == line[..k];
        FlushedTorn(text, c, k);
      } else {
        assert text + (line + "\n")[..k] == text + line + "\n";
        FlushedWritten(text, c);
      }
    }

    // What is left of the two files when clearing c has come so far, with torn bytes of the next line.
    twostate predicate LeftBy(c: string, new left: Clearing, torn: nat)
      reads this
    {
      var batches, eofs := old(Batches()) - {c}, old(EOFs()) - {c};
      match left
      case Untouched => batchFile == old(batchFile) && eofFile == old(eofFile)
      case BatchesCut(written, next) =>
        BatchesStopped(batchFile, batches, written, next, torn) && eofFile == old(eofFile)
      case BatchesDone => Complete(batchFile) && Batches() == batches && eofFile == old(eofFile)
      case EOFsCut(written, next) =>
        Complete(batchFile) && Batches() == batches && EOFsStopped(eofFile, eofs, written, next, torn)
      case Cleared => Complete(batchFile) && Complete(eofFile) && Batches() == batches && EOFs() == eofs
    }

    // batches.log and eofs.log are written anew without the client, whatever they held before and
    // in any order; flushed.log stays. An error ends it where it is: before a file is truncated, or
    // in the middle of writing one.
    method ClearClient(c: string) returns (ok: bool, ghost left: Clearing, ghost torn: nat)
      modifies this`batchFile, this`eofFile, this`batchBroken, this`eofBroken
      ensures LeftBy(c, left, torn) && (ok <==> left.Cleared?)
      ensures AllStorableBatches(old(Batches()) - {c}) && AllStorableEOFs(old(EOFs()) - {c})
    {
      LoadedBothStorable();
      torn := 0;
      if batchBroken || eofBroken { return false, Untouched, 0; }
      var batches := LoadBatches();
      var eofs := LoadEOFs();
      batches := batches - {c};
      eofs := eofs - {c};
      var truncated: bool := *;
      if !truncated { return false, Untouched, 0; }
      batchFile := "";
      ghost var written, next;
      ok, written, next, torn := RewriteBatches(batches);
      if !ok { return false, BatchesCut(written, next), torn; }
      truncated := *;
      if !truncated { return false, BatchesDone, 0; }
      eofFile := "";
      ok, written, next, torn := RewriteEOFs(eofs);
      if !ok { return false, EOFsCut(written, next), torn; }
      return true, Cleared, 0;
    }

    lemma LoadedBothStorable()
      ensures AllStorableBatches(Batches()) && AllStorableEOFs(EOFs())
    {
      forall i | 0 <= i < |Lines(batchFile)| ensures Free(Lines(batchFile)[i], '\n') { LinesAreFree(batchFile, i); }
      forall i | 0 <= i < |Lines(eofFile)| ensures Free(Lines(eofFile)[i], '\n') { LinesAreFree(eofFile, i); }
      LoadedIsStorable(Lines(batchFile));
      LoadedIsStorable(Lines(eofFile));
    }

    method RewriteBatches(batches: Entries<BatchRecord>)
      returns (ok: bool, ghost written: seq<Place>, ghost next: Place, ghost torn: nat)
      requires batchFile == "" && AllStorableBatches(batches)
      modifies this`batchFile, this`batchBroken
      ensures ok ==> Complete(batchFile) && Batches() == batches
      ensures !ok ==> BatchesStopped(batchFile, batches, written, next, torn)
    {
      ok, written, next, torn := true, [], ("", ""), 0;
      var ids := AnyOrder(batches.Keys);
      for i := 0 to |ids|
        invariant ok && ClientsUpto(batches, ids[..i], written) && batchFile == BatchText(batches, written)
      {
        NextKey(ids, batches.Keys, i);
        ghost var before := written;
        ok, written, next, torn := RewriteClient(ids[i], batches, before);
        if !ok { return; }
        ClientsNext(batches, ids, i, before, written);
      }
      ClientsAll(batches, ids, written);
      BatchTextLoads(batches, written);
      PutAllIff(batches, written);
    }

    method RewriteClient(c: string, batches: Entries<BatchRecord>, ghost before: seq<Place>)
      returns (ok: bool, ghost written: seq<Place>, ghost next: Place, ghost torn: nat)
      requires c in batches && (forall p :: p in before ==> Has(batches, p) && p.0 != c)
      requires AllStorableBatches(batches) && batchFile == BatchText(batches, before)
      modifies this`batchFile, this`batchBroken
      ensures ok ==> ClientWritten(batches, c, before, written) && batchFile == BatchText(batches, written)
      ensures !ok ==> BatchesStopped(batchFile, batches, written, next, torn)
    {
      ok, written, next, torn := true, before, ("", ""), 0;
      var keys := AnyOrder(batches[c].Keys);
      for j := 0 to |keys|
        invariant ok && ClientUpto(batches, c, keys[..j], before, written) && batchFile == BatchText(batches, written)
      {
        ClientNext(batches, c, keys, j, before, written);
        assert StorableBatches(c, batches[c]);
        next := (c, keys[j]);
        BatchTextNext(batches, written, next);
        ok, torn := WriteBatch(c, batches[c][keys[j]]);
        if !ok { return; }
        written := written + [next];
      }
      ClientAll(batches, c, keys, before, written);
    }

    method RewriteEOFs(eofs: Entries<nat>)
      returns (ok: bool, ghost written: seq<Place>, ghost next: Place, ghost torn: nat)
      requires eofFile == "" && AllStorableEOFs(eofs)
      modifies this`eofFile, this`eofBroken
      ensures ok ==> Complete(eofFile) && EOFs() == eofs
      ensures !ok ==> EOFsStopped(eofFile, eofs, written, next, torn)
    {
      ok, written, next, torn := true, [], ("", ""), 0;
      var ids := AnyOrder(eofs.Keys);
      for i := 0 to |ids|
        invariant ok && ClientsUpto(eofs, ids[..i], written) && eofFile == EOFText(eofs, written)
      {
        NextKey(ids, eofs.Keys, i);
        ghost var before := written;
        ok, written, next, torn := RewriteClientEOFs(ids[i], eofs, before);
        if !ok { return; }
        ClientsNext(eofs, ids, i, before, written);
      }
      ClientsAll(eofs, ids, written);
      EOFTextLoads(eofs, written);
      PutAllIff(eofs, written);
    }

    method RewriteClientEOFs(c: string, eofs: Entries<nat>, ghost before: seq<Place>)
      returns (ok: bool, ghost written: seq<Place>, ghost next: Place, ghost torn: nat)
      requires c in eofs && (forall p :: p in before ==> Has(eofs, p) && p.0 != c)
      requires AllStorableEOFs(eofs) && eofFile == EOFText(eofs, before)
      modifies this`eofFile, this`eofBroken
      ensures ok ==> ClientWritten(eofs, c, before, written) && eofFile == EOFText(eofs, written)
      ensures !ok ==> EOFsStopped(eofFile, eofs, written, next, torn)
    {
      ok, written, next, torn := true, before, ("", ""), 0;
      var keys := AnyOrder(eofs[c].Keys);
      for j := 0 to |keys|
        invariant ok && ClientUpto(eofs, c, keys[..j], before, written) && eofFile == EOFText(eofs, written)
      {
        ClientNext(eofs, c, keys, j, before, written);
        assert StorableEOFs(c, eofs[c]);
        next := (c, keys[j]);
        EOFTextNext(eofs, written, next);
        ok, torn := WriteEOF(c, keys[j], eofs[c][keys[j]]);
        if !ok { return; }
        written := written + [next];
      }
      ClientAll(eofs, c, keys, before, written);
    }
  }
}
