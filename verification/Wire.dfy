// The frames between client and gateway: a type byte, a 16-bit count, and each record after its
// own 16-bit length.
module Wire {
  import opened Text
  import Chunks

  type byte = x: int | 0 <= x < 256

  type Record = seq<byte>

  const TRANSACTION_BATCH: byte := 1
  const ACCOUNT_BATCH: byte := 2
  const EOF: byte := 8

  const WORD := 0x1_0000

  datatype Message = Transactions(records: seq<Record>) | Accounts(records: seq<Record>) | EndOfFile

  // ---- Numbers, big end first ----

  // uint16(n) drops what does not fit.
  function Uint16(n: nat): seq<byte> { [(n % WORD) / 256, n % 256] }

  function FromUint16(b: seq<byte>): (n: nat)
    requires |b| == 2
    ensures n < WORD
  {
    (b[0] as int) * 256 + b[1] as int
  }

  lemma Uint16RoundTrip(n: nat)
    ensures FromUint16(Uint16(n)) == n % WORD
  {
    var high, low := n % WORD / 256, n % WORD % 256;
    assert n == 256 * (256 * (n / WORD) + high) + low;
    LowByte(n, 256 * (n / WORD) + high, low);
  }

  lemma LowByte(n: nat, k: nat, low: nat)
    requires n == 256 * k + low && low < 256
    ensures n % 256 == low
  {
  }

  // ---- Sending ----

  function EncodeRecords(records: seq<Record>): seq<byte> {
    if records == [] then [] else Uint16(|records[0]|) + records[0] + EncodeRecords(records[1..])
  }

  function Frame(kind: byte, records: seq<Record>): seq<byte> { [kind] + Uint16(|records|) + EncodeRecords(records) }

  // An empty batch is not sent at all.
  function Encode(m: Message): seq<byte> {
    match m
    case Transactions(records) => if records == [] then [] else Frame(TRANSACTION_BATCH, records)
    case Accounts(records) => if records == [] then [] else Frame(ACCOUNT_BATCH, records)
    case EndOfFile => [EOF]
  }

  // ---- Receiving ----

  datatype Decoded<T> = Decoded(value: T, rest: seq<byte>) | Short | InvalidType

  function DecodeRecord(b: seq<byte>): Decoded<Record> {
    if |b| < 2 then Short
    else
      var n := FromUint16(b[..2]);
      if |b| < 2 + n then Short else Decoded(b[2..2 + n], b[2 + n..])
  }

  function DecodeRecords(n: nat, b: seq<byte>): Decoded<seq<Record>> {
    if n == 0 then Decoded([], b)
    else
      match DecodeRecord(b)
      case Decoded(r, rest) =>
        (match DecodeRecords(n - 1, rest)
         case Decoded(rs, rest') => Decoded([r] + rs, rest')
         case _ => Short)
      case _ => Short
  }

  function DecodeBatch(b: seq<byte>): Decoded<seq<Record>> {
    if |b| < 2 then Short else DecodeRecords(FromUint16(b[..2]), b[2..])
  }

  function Decode(b: seq<byte>): Decoded<Message> {
    if b == [] then Short
    else if b[0] == TRANSACTION_BATCH then
      (match DecodeBatch(b[1..]) case Decoded(rs, rest) => Decoded(Transactions(rs), rest) case _ => Short)
    else if b[0] == ACCOUNT_BATCH then
      (match DecodeBatch(b[1..]) case Decoded(rs, rest) => Decoded(Accounts(rs), rest) case _ => Short)
    else if b[0] == EOF then Decoded(EndOfFile, b[1..])
    else InvalidType
  }

  // ---- Round trips ----

  predicate RecordsFit(records: seq<Record>) { |records| < 65536 && forall r :: r in records ==> |r| < 65536 }

  predicate Fits(m: Message) { m.EndOfFile? || RecordsFit(m.records) }

  predicate Sent(m: Message) { m.EndOfFile? || m.records != [] }

  lemma RecordRoundTrip(r: Record, rest: seq<byte>)
    requires |r| < WORD
    ensures DecodeRecord(Uint16(|r|) + r + rest) == Decoded(r, rest)
  {
    var b := Uint16(|r|) + r + rest;
    Uint16RoundTrip(|r|);
    assert b[..2] == Uint16(|r|);
    assert b[2..2 + |r|] == r && b[2 + |r|..] == rest;
  }

  lemma OneMoreRecord(n: nat, b: seq<byte>, r: Record, mid: seq<byte>, rs: seq<Record>, rest: seq<byte>)
    requires DecodeRecord(b) == Decoded(r, mid) && DecodeRecords(n, mid) == Decoded(rs, rest)
    ensures DecodeRecords(n + 1, b) == Decoded([r] + rs, rest)
  {
  }

  lemma {:induction false} RecordsRoundTrip(records: seq<Record>, rest: seq<byte>)
    requires forall r :: r in records ==> |r| < WORD
    ensures DecodeRecords(|records|, EncodeRecords(records) + rest) == Decoded(records, rest)
  {
    if records != [] {
      var r, tail := records[0], records[1..];
      RecordsRoundTrip(tail, rest);
      var after := EncodeRecords(tail) + rest;
      var b := Uint16(|r|) + r + after;
      RecordRoundTrip(r, after);
      OneMoreRecord(|tail|, b, r, after, tail, rest);
      Regroup(Uint16(|r|) + r, EncodeRecords(tail), rest);
      assert records == [r] + tail;
    } else {
      assert EncodeRecords(records) + rest == rest;
    }
  }

  lemma Prefixed(head: seq<byte>, rest: seq<byte>)
    ensures (head + rest)[..|head|] == head && (head + rest)[|head|..] == rest
  {
  }

  lemma FrameBody(kind: byte, count: seq<byte>, payload: seq<byte>, rest: seq<byte>)
    ensures ([kind] + count + payload + rest)[1..] == count + (payload + rest)
    ensures ([kind] + count + payload + rest)[0] == kind
  {
  }

  lemma CountFirst(count: seq<byte>, payload: seq<byte>)
    requires |count| == 2
    ensures DecodeBatch(count + payload) == DecodeRecords(FromUint16(count), payload)
  {
    Prefixed(count, payload);
  }

  lemma FramedRecords(kind: byte, count: seq<byte>, records: seq<Record>, rest: seq<byte>)
    requires |count| == 2 && FromUint16(count) == |records| && forall r :: r in records ==> |r| < WORD
    ensures DecodeBatch(([kind] + count + EncodeRecords(records) + rest)[1..]) == Decoded(records, rest)
    ensures ([kind] + count + EncodeRecords(records) + rest)[0] == kind
  {
    FrameBody(kind, count, EncodeRecords(records), rest);
    CountFirst(count, EncodeRecords(records) + rest);
    RecordsRoundTrip(records, rest);
  }

  lemma BatchRoundTrip(kind: byte, records: seq<Record>, rest: seq<byte>)
    requires RecordsFit(records)
    ensures DecodeBatch((Frame(kind, records) + rest)[1..]) == Decoded(records, rest)
    ensures (Frame(kind, records) + rest)[0] == kind
  {
    Uint16RoundTrip(|records|);
    FramedRecords(kind, Uint16(|records|), records, rest);
  }

  lemma RoundTrip(m: Message, rest: seq<byte>)
    requires Sent(m) && Fits(m)
    ensures Decode(Encode(m) + rest) == Decoded(m, rest)
  {
    match m
    case Transactions(records) => BatchRoundTrip(TRANSACTION_BATCH, records, rest);
    case Accounts(records) => BatchRoundTrip(ACCOUNT_BATCH, records, rest);
    case EndOfFile => assert ([EOF] + rest)[1..] == rest;
  }

  lemma {:induction false} DecodedRecordsFit(n: nat, b: seq<byte>)
    ensures DecodeRecords(n, b).Decoded? ==>
              |DecodeRecords(n, b).value| == n && forall r :: r in DecodeRecords(n, b).value ==> |r| < WORD
  {
    if n > 0 && DecodeRecord(b).Decoded? {
      DecodedRecordsFit(n - 1, DecodeRecord(b).rest);
    }
  }

  // A message comes back, whatever follows it, exactly when it has fewer than 65536 records of
  // fewer than 65536 bytes each: longer ones are truncated on the way, and nothing tells.
  lemma RoundTripIff(m: Message, rest: seq<byte>)
    requires Sent(m)
    ensures Decode(Encode(m) + rest) == Decoded(m, rest) <==> Fits(m)
  {
    if Fits(m) {
      RoundTrip(m, rest);
    } else {
      var b := Encode(m) + rest;
      DecodedRecordsFit(FromUint16(b[1..][..2]), b[1..][2..]);
    }
  }

  // ---- A stream of messages ----

  function EncodeAll(ms: seq<Message>): seq<byte> { if ms == [] then [] else Encode(ms[0]) + EncodeAll(ms[1..]) }

  lemma {:induction false} RecordsConsumed(n: nat, b: seq<byte>)
    ensures DecodeRecords(n, b).Decoded? ==> |DecodeRecords(n, b).rest| <= |b|
  {
    if n > 0 && DecodeRecord(b).Decoded? { RecordsConsumed(n - 1, DecodeRecord(b).rest); }
  }

  function DecodeAll(b: seq<byte>): Decoded<seq<Message>>
    decreases |b|
  {
    if b == [] then Decoded([], [])
    else
      match Decode(b)
      case Decoded(m, rest) =>
        Consumed(b);
        (match DecodeAll(rest)
         case Decoded(ms, rest') => Decoded([m] + ms, rest')
         case other => other)
      case Short => Short
      case InvalidType => InvalidType
  }

  lemma Consumed(b: seq<byte>)
    ensures Decode(b).Decoded? ==> |Decode(b).rest| < |b|
  {
    if |b| >= 3 { RecordsConsumed(FromUint16(b[1..][..2]), b[1..][2..]); }
  }

  function Nonempty(ms: seq<Message>): seq<Message> {
    if ms == [] then [] else (if Sent(ms[0]) then [ms[0]] else []) + Nonempty(ms[1..])
  }

  // Reading what was written gives the messages that are not empty batches, to the last byte.
  lemma {:induction false} StreamRoundTrip(ms: seq<Message>)
    requires forall m :: m in ms ==> Fits(m)
    ensures DecodeAll(EncodeAll(ms)) == Decoded(Nonempty(ms), [])
  {
    if ms != [] {
      StreamRoundTrip(ms[1..]);
      assert ms[0] in ms && forall m :: m in ms[1..] ==> m in ms;
      if Sent(ms[0]) {
        RoundTrip(ms[0], EncodeAll(ms[1..]));
      } else {
        assert [] + EncodeAll(ms[1..]) == EncodeAll(ms[1..]);
        assert [] + Nonempty(ms[1..]) == Nonempty(ms[1..]);
      }
    }
  }

  // ---- Frame sizes ----

  const HEADER_SIZE := 3

  function RecordSize(r: Record): nat { 2 + |r| }

  lemma {:induction false} WeightFirst(records: seq<Record>)
    requires records != []
    ensures Chunks.Weight(records, RecordSize) == RecordSize(records[0]) + Chunks.Weight(records[1..], RecordSize)
  {
    var n := |records| - 1;
    if n > 0 {
      WeightFirst(records[..n]);
      assert records[..n][1..] == records[1..][..n - 1];
    } else {
      assert records[..0] == [] && records[1..] == [];
    }
  }

  lemma {:induction false} RecordsSize(records: seq<Record>)
    ensures |EncodeRecords(records)| == Chunks.Weight(records, RecordSize)
  {
    if records != [] {
      RecordsSize(records[1..]);
      WeightFirst(records);
    }
  }

  lemma {:induction false} WeightBoundsCount(records: seq<Record>)
    ensures 2 * |records| <= Chunks.Weight(records, RecordSize)
  {
    if records != [] { WeightBoundsCount(records[..|records| - 1]); }
  }

  lemma FrameSize(kind: byte, records: seq<Record>)
    ensures |Frame(kind, records)| == HEADER_SIZE + Chunks.Weight(records, RecordSize)
  {
    RecordsSize(records);
  }

  // The client batches with the weight left beside the header. Each frame is within the limit or
  // holds one record, and under a limit of 128 KB no count is truncated.
  lemma FramesFit(records: seq<Record>, limit: nat, frame: seq<Record>)
    requires limit > HEADER_SIZE && frame in Chunks.BatchesOf(records, limit - HEADER_SIZE, RecordSize)
    ensures frame != [] && (|frame| == 1 || |Encode(Transactions(frame))| <= limit)
    ensures limit <= 131072 ==> |frame| < 65536
  {
    Chunks.BatchesComplete(records, limit - HEADER_SIZE, RecordSize);
    assert Chunks.Bounded(frame, limit - HEADER_SIZE, RecordSize);
    FrameSize(TRANSACTION_BATCH, frame);
    WeightBoundsCount(frame);
  }

  // ---- What is where ----

  // A 16-bit number in two bytes, the high one first.
  predicate IsNumber(b: seq<byte>, at: nat, n: nat) { at + 2 <= |b| && b[at] as int * 256 + b[at + 1] as int == n }

  // Where the k-th record starts: behind the lengths and the bytes of those before it.
  function Offset(records: seq<Record>, k: nat): nat
    requires k <= |records|
  {
    if k == 0 then 0 else Offset(records, k - 1) + 2 + |records[k - 1]|
  }

  ghost predicate IsRecordAt(b: seq<byte>, at: nat, r: Record) {
    IsNumber(b, at, |r|) && at + 2 + |r| <= |b| && b[at + 2..at + 2 + |r|] == r
  }

  lemma {:induction false} OffsetNext(records: seq<Record>, k: nat)
    requires 0 < k <= |records|
    ensures Offset(records, k) == 2 + |records[0]| + Offset(records[1..], k - 1)
  {
    if k > 1 { OffsetNext(records, k - 1); }
  }

  lemma ShortNumber(n: nat)
    requires n < 65536
    ensures IsNumber(Uint16(n), 0, n)
  {
    Uint16RoundTrip(n);
  }

  lemma {:induction false} RecordsLayout(records: seq<Record>, k: nat)
    requires RecordsFit(records) && k < |records|
    ensures IsRecordAt(EncodeRecords(records), Offset(records, k), records[k])
    decreases k
  {
    var r, rest := records[0], EncodeRecords(records[1..]);
    var b := EncodeRecords(records);
    ShortNumber(|r|);
    assert b == Uint16(|r|) + r + rest;
    if k == 0 {
      assert b[2..2 + |r|] == r;
    } else {
      RecordsLayout(records[1..], k - 1);
      OffsetNext(records, k);
      Moved(Uint16(|r|) + r, rest, Offset(records[1..], k - 1), records[k]);
    }
  }

  lemma Moved(head: seq<byte>, b: seq<byte>, at: nat, r: Record)
    requires IsRecordAt(b, at, r)
    ensures IsRecordAt(head + b, |head| + at, r)
  {
    var from := |head| + at;
    assert (head + b)[from + 2..from + 2 + |r|] == b[at + 2..at + 2 + |r|];
  }

  lemma FrameLayout(kind: byte, records: seq<Record>, k: nat)
    requires RecordsFit(records) && k < |records|
    ensures var b := Frame(kind, records);
            && |b| == 3 + Offset(records, |records|) && b[0] == kind && IsNumber(b, 1, |records|)
            && IsRecordAt(b, 3 + Offset(records, k), records[k])
  {
    HeadLayout(kind, |records|, EncodeRecords(records));
    RecordsLayout(records, k);
    Moved([kind] + Uint16(|records|), EncodeRecords(records), Offset(records, k), records[k]);
    AllOffset(records);
  }

  lemma HeadLayout(kind: byte, n: nat, tail: seq<byte>)
    requires n < 65536
    ensures var b := [kind] + Uint16(n) + tail; |b| == 3 + |tail| && b[0] == kind && IsNumber(b, 1, n)
  {
    var two := Uint16(n);
    ShortNumber(n);
    assert ([kind] + two + tail)[1] == two[0] && ([kind] + two + tail)[2] == two[1];
  }

  // Byte by byte: 1 or 2 for a batch, the number of its records, then each record behind its length;
  // 8 for the end; nothing for an empty batch. No other first byte is taken for a message.
  lemma MessageLayout(m: Message, k: nat)
    requires Fits(m) && (!m.EndOfFile? ==> k < |m.records|)
    ensures m.EndOfFile? ==> Encode(m) == [8]
    ensures !m.EndOfFile? ==>
              && |Encode(m)| == 3 + Offset(m.records, |m.records|)
              && Encode(m)[0] == (if m.Transactions? then 1 else 2)
              && IsNumber(Encode(m), 1, |m.records|) && IsRecordAt(Encode(m), 3 + Offset(m.records, k), m.records[k])
    ensures Encode(Transactions([])) == Encode(Accounts([])) == []
    ensures forall b: seq<byte> :: b != [] && b[0] != 1 && b[0] != 2 && b[0] != 8 ==> Decode(b) == InvalidType
  {
    if !m.EndOfFile? { FrameLayout(if m.Transactions? then 1 else 2, m.records, k); }
  }

  lemma {:induction false} AllOffset(records: seq<Record>)
    ensures |EncodeRecords(records)| == Offset(records, |records|)
  {
    if records != [] {
      AllOffset(records[1..]);
      OffsetNext(records, |records|);
    }
  }

  // ---- The protocol object ----

  // What is on the wire after sending b: all of it, or after an error a first part.
  ghost predicate Wrote(before: seq<byte>, after: seq<byte>, b: seq<byte>, ok: bool) {
    before <= after <= before + b && (ok ==> after == before + b)
  }

  class ExternalProtocol {
    var incoming: seq<byte>
    var outgoing: seq<byte>

    constructor (incoming: seq<byte>)
      ensures this.incoming == incoming && outgoing == []
    {
      this.incoming, outgoing := incoming, [];
    }

    // All of b, or a first part of it when the connection fails.
    method WriteAll(b: seq<byte>) returns (ok: bool)
      modifies this`outgoing
      ensures Wrote(old(outgoing), outgoing, b, ok)
    {
      var n :| 0 <= n <= |b|;
      ok := n == |b|;
      assert b[..|b|] == b && outgoing + b[..n] <= outgoing + b;
      outgoing := outgoing + b[..n];
    }

    method SendBatch(kind: byte, records: seq<Record>) returns (ok: bool)
      modifies this`outgoing
      ensures Wrote(old(outgoing), outgoing, if records == [] then [] else Frame(kind, records), ok)
    {
      if |records| == 0 {
        assert outgoing + [] == outgoing;
        return true;
      }
      var buf: seq<byte> := [kind] + Uint16(|records|);
      for i := 0 to |records|
        invariant buf + EncodeRecords(records[i..]) == Frame(kind, records)
      {
        assert records[i..][1..] == records[i + 1..];
        ghost var before := buf;
        buf := buf + Uint16(|records[i]|);
        buf := buf + records[i];
        assert buf + EncodeRecords(records[i + 1..]) == before + (Uint16(|records[i]|) + records[i] + EncodeRecords(records[i + 1..]));
      }
      assert buf + [] == buf;
      ok := WriteAll(buf);
    }

    method Send(m: Message) returns (ok: bool)
      modifies this`outgoing
      ensures Wrote(old(outgoing), outgoing, Encode(m), ok)
    {
      match m
      case Transactions(records) => ok := SendBatch(TRANSACTION_BATCH, records);
      case Accounts(records) => ok := SendBatch(ACCOUNT_BATCH, records);
      case EndOfFile => ok := WriteAll([EOF]);
    }

    // All n bytes, or none when the stream ends before.
    method ReadAll(n: nat) returns (b: Option<seq<byte>>)
      modifies this`incoming
      ensures |old(incoming)| >= n ==> b == Some(old(incoming)[..n]) && incoming == old(incoming)[n..]
      ensures |old(incoming)| < n ==> b == None && incoming == old(incoming)
    {
      if |incoming| < n { return None; }
      b := Some(incoming[..n]);
      incoming := incoming[n..];
    }

    method ReceiveRecord() returns (r: Option<Record>)
      modifies this`incoming
      ensures match DecodeRecord(old(incoming))
              case Decoded(value, rest) => r == Some(value) && incoming == rest
              case _ => r == None
    {
      ghost var b := incoming;
      var length := ReadAll(2);
      if length.None? { return None; }
      var n := FromUint16(length.value);
      r := ReadAll(n);
      if |b| >= 2 + n {
        assert b[2..][..n] == b[2..2 + n] && b[2..][n..] == b[2 + n..];
      }
    }

    method ReceiveBatch() returns (records: Option<seq<Record>>)
      modifies this`incoming
      ensures match DecodeBatch(old(incoming))
              case Decoded(value, rest) => records == Some(value) && incoming == rest
              case _ => records == None
    {
      var count := ReadAll(2);
      if count.None? { return None; }
      var n := FromUint16(count.value);
      var got: seq<Record> := [];
      ghost var start := incoming;
      assert forall more: seq<Record> :: [] + more == more;
      for i := 0 to n
        invariant |got| == i
        invariant DecodeRecords(n, start) ==
                    match DecodeRecords(n - i, incoming)
                    case Decoded(more, rest) => Decoded(got + more, rest)
                    case _ => Short
      {
        var r := ReceiveRecord();
        if r.None? { return None; }
        ghost var before := got;
        got := got + [r.value];
        assert forall more: seq<Record> :: before + ([r.value] + more) == got + more;
      }
      assert got + [] == got;
      return Some(got);
    }

    method ReceiveMsg() returns (m: Option<Message>)
      modifies this`incoming
      ensures match Decode(old(incoming))
              case Decoded(value, rest) => m == Some(value) && incoming == rest
              case _ => m == None
    {
      var kind := ReadAll(1);
      if kind.None? { return None; }
      if kind.value[0] == TRANSACTION_BATCH {
        var records := ReceiveBatch();
        if records.None? { return None; }
        return Some(Transactions(records.value));
      } else if kind.value[0] == ACCOUNT_BATCH {
        var records := ReceiveBatch();
        if records.None? { return None; }
        return Some(Accounts(records.value));
      } else if kind.value[0] == EOF {
        return Some(EndOfFile);
      }
      return None;
    }
  }
}
