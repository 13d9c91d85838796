// The lines of changes.log: length, checksum and payload, and what a reader makes of a file whose
// last line was cut short.
module CheckpointLog {
  import opened Text

  // ---- Hexadecimal ----

  function HexDigit(d: nat): char
    requires d < 16
  {
    "0123456789abcdef"[d]
  }

  function HexValue(c: char): Option<nat> {
    if '0' <= c <= '9' then Some((c - '0') as nat)
    else if 'a' <= c <= 'f' then Some((c - 'a') as nat + 10)
    else if 'A' <= c <= 'F' then Some((c - 'A') as nat + 10)
    else None
  }

  // The last digits of n, so many of them.
  function Hex(n: nat, digits: nat): string {
    if digits == 0 then "" else Hex(n / 16, digits - 1) + [HexDigit(n % 16)]
  }

  function HexNumber(s: string): Option<nat> {
    if s == "" then Some(0)
    else
      match (HexNumber(s[..|s| - 1]), HexValue(s[|s| - 1]))
      case (Some(high), Some(d)) => Some(high * 16 + d)
      case _ => None
  }

  const LIMIT := 0x1_0000_0000

  // strconv.ParseUint(s, 16, 32).
  function ParseHex32(s: string): Option<nat> {
    match HexNumber(s)
    case Some(n) => if s != "" && n < LIMIT then Some(n) else None
    case None => None
  }

  function Power16(k: nat): nat { if k == 0 then 1 else 16 * Power16(k - 1) }

  lemma {:induction false} HexRoundTrip(n: nat, digits: nat)
    requires n < Power16(digits)
    ensures HexNumber(Hex(n, digits)) == Some(n) && |Hex(n, digits)| == digits && Free(Hex(n, digits), ' ')
  {
    if digits > 0 {
      HexRoundTrip(n / 16, digits - 1);
      var s := Hex(n, digits);
      assert s[..|s| - 1] == Hex(n / 16, digits - 1);
      assert HexValue(HexDigit(n % 16)) == Some(n % 16);
    }
  }

  // ---- A line ----

  // crc stands for the CRC-32 of the payload.
  type Checksum = string -> nat

  function Format(crc: Checksum, payload: string): string {
    Decimal(|payload|) + " " + Hex(crc(payload) % LIMIT, 8) + " " + payload
  }

  // strconv.Atoi, where it gives a number that is not negative.
  function ParseLength(s: string): Option<nat> {
    var digits := if s != "" && (s[0] == '+' || s[0] == '-') then s[1..] else s;
    if digits != "" && AllDigits(digits) && (s[0] != '-' || Value(digits) == 0) then Some(Value(digits)) else None
  }

  // The payload of a line, if the line is intact.
  function Parse(crc: Checksum, line: string): Option<string> {
    var first := IndexOf(line, ' ');
    if first <= 0 then None
    else
      var after := line[first + 1..];
      var second := IndexOf(after, ' ');
      if second <= 0 then None
      else
        var payload := after[second + 1..];
        match (ParseLength(line[..first]), ParseHex32(after[..second]))
        case (Some(n), Some(sum)) => if |payload| == n && sum == crc(payload) % LIMIT then Some(payload) else None
        case _ => None
  }

  // A payload that a line can carry: on one line, not empty, and without a carriage return at the
  // end, which the scanner would drop.
  predicate Payload(p: string) { p != "" && Free(p, '\n') && p[|p| - 1] != '\r' }

  lemma LengthParses(n: nat)
    ensures ParseLength(Decimal(n)) == Some(n) && Free(Decimal(n), ' ') && Decimal(n) != ""
  {
    DecimalRoundTrip(n);
    DecimalFree(n, '+');
    DecimalFree(n, '-');
    DecimalFree(n, ' ');
  }

  lemma SumParses(n: nat)
    requires n < LIMIT
    ensures ParseHex32(Hex(n, 8)) == Some(n) && Free(Hex(n, 8), ' ') && |Hex(n, 8)| == 8
  {
    assert Power16(8) == LIMIT;
    HexRoundTrip(n, 8);
  }

  // What parsing finds in a line that starts like a formatted one.
  lemma ParseShape(crc: Checksum, length: string, sum: string, rest: string)
    requires length != "" && Free(length, ' ') && sum != "" && Free(sum, ' ')
    ensures Parse(crc, length + " " + sum + " " + rest) ==
              match (ParseLength(length), ParseHex32(sum))
              case (Some(n), Some(s)) => if |rest| == n && s == crc(rest) % LIMIT then Some(rest) else None
              case _ => None
  {
    var line := length + " " + sum + " " + rest;
    IndexOfFirst(length, ' ', sum + " " + rest);
    assert line == length + [' '] + (sum + " " + rest);
    assert line[..|length|] == length && line[|length| + 1..] == sum + " " + rest;
    IndexOfFirst(sum, ' ', rest);
    assert sum + " " + rest == sum + [' '] + rest;
    assert (sum + " " + rest)[..|sum|] == sum && (sum + " " + rest)[|sum| + 1..] == rest;
  }

  // A line of which the payload was altered is read only if length and checksum happen to be the same.
  lemma AlteredPayload(crc: Checksum, payload: string, other: string)
    ensures |Format(crc, payload)| >= |payload|
    ensures Parse(crc, Format(crc, payload)[..|Format(crc, payload)| - |payload|] + other) ==
              if |other| == |payload| && crc(other) % 0x1_0000_0000 == crc(payload) % 0x1_0000_0000
              then Some(other) else None
  {
    LengthParses(|payload|);
    SumParses(crc(payload) % LIMIT);
    var head := Decimal(|payload|) + " " + Hex(crc(payload) % LIMIT, 8) + " ";
    assert Format(crc, payload)[..|head|] == head;
    ParseShape(crc, Decimal(|payload|), Hex(crc(payload) % LIMIT, 8), other);
  }

  lemma DividedTwice(n: nat, m: nat)
    requires m > 0
    ensures n / 16 / m == n / (16 * m)
  {
    var q, r, s := n / 16 / m, n / 16 % m, n % 16;
    assert n / 16 == m * q + r && n == 16 * (n / 16) + s;
    assert n == 16 * (m * q) + (16 * r + s);
    Quotient(n, 16 * m, q, 16 * r + s) by { assert 16 * (m * q) == (16 * m) * q; }
  }

  // The digits, the first counting most.
  lemma {:induction false} HexDigitAt(n: nat, digits: nat, i: nat)
    requires i < digits
    ensures Power16(digits - 1 - i) > 0 && |Hex(n, digits)| == digits
    ensures Hex(n, digits)[i] == "0123456789abcdef"[n / Power16(digits - 1 - i) % 16]
  {
    if i < digits - 1 {
      HexDigitAt(n / 16, digits - 1, i);
      DividedTwice(n, Power16(digits - 2 - i));
    } else if i > 0 {
      HexDigitAt(n / 16, digits - 1, 0);
    }
  }

  // A line: the digits of the length, eight hexadecimal digits of the checksum, and the payload.
  lemma LineLooksLike(crc: Checksum, payload: string, i: nat) returns (length: string, sum: string)
    requires i < 8
    ensures Format(crc, payload) == length + " " + sum + " " + payload
    ensures length != "" && AllDigits(length) && Value(length) == |payload|
    ensures |sum| == 8 && Power16(7 - i) > 0
    ensures sum[i] == "0123456789abcdef"[crc(payload) % 0x1_0000_0000 / Power16(7 - i) % 16]
  {
    length, sum := Decimal(|payload|), Hex(crc(payload) % LIMIT, 8);
    DecimalRoundTrip(|payload|);
    HexDigitAt(crc(payload) % LIMIT, 8, i);
  }

  lemma LineRoundTrip(crc: Checksum, payload: string)
    ensures Parse(crc, Format(crc, payload)) == Some(payload)
  {
    LengthParses(|payload|);
    SumParses(crc(payload) % LIMIT);
    ParseShape(crc, Decimal(|payload|), Hex(crc(payload) % LIMIT, 8), payload);
  }

  // ---- A file ----

  function FileOf(crc: Checksum, payloads: seq<string>): string {
    if payloads == [] then "" else Format(crc, payloads[0]) + "\n" + FileOf(crc, payloads[1..])
  }

  // Lines are read up to the first that is not intact.
  function ReplayLines(crc: Checksum, lines: seq<string>): seq<string> {
    if lines == [] then []
    else
      match Parse(crc, lines[0])
      case Some(payload) => [payload] + ReplayLines(crc, lines[1..])
      case None => []
  }

  function Replay(crc: Checksum, file: string): seq<string> { ReplayLines(crc, Lines(file)) }

  lemma FormatIsLine(crc: Checksum, payload: string)
    requires Payload(payload)
    ensures Free(Format(crc, payload), '\n') && DropCR(Format(crc, payload)) == Format(crc, payload)
    ensures Format(crc, payload) != ""
  {
    DecimalFree(|payload|, '\n');
    HexFree(crc(payload) % LIMIT, 8);
  }

  lemma {:induction false} HexFree(n: nat, digits: nat)
    ensures Free(Hex(n, digits), '\n')
  {
    if digits > 0 { HexFree(n / 16, digits - 1); }
  }

  lemma OneLineFirst(crc: Checksum, payload: string, rest: string)
    requires Payload(payload)
    ensures Replay(crc, Format(crc, payload) + "\n" + rest) == [payload] + Replay(crc, rest)
  {
    FormatIsLine(crc, payload);
    LinesCons(Format(crc, payload), rest);
    LineRoundTrip(crc, payload);
  }

  // Whatever follows, the complete lines are read first.
  lemma {:induction false} CompleteLinesFirst(crc: Checksum, payloads: seq<string>, tail: string)
    requires forall p :: p in payloads ==> Payload(p)
    ensures Replay(crc, FileOf(crc, payloads) + tail) == payloads + Replay(crc, tail)
  {
    if payloads == [] {
      assert FileOf(crc, payloads) + tail == tail;
    } else {
      var rest := FileOf(crc, payloads[1..]) + tail;
      CompleteLinesFirst(crc, payloads[1..], tail);
      OneLineFirst(crc, payloads[0], rest);
      Regroup(Format(crc, payloads[0]) + "\n", FileOf(crc, payloads[1..]), tail);
      Regroup([payloads[0]], payloads[1..], Replay(crc, tail));
      assert payloads == [payloads[0]] + payloads[1..];
    }
  }

  lemma FileRoundTrip(crc: Checksum, payloads: seq<string>)
    requires forall p :: p in payloads ==> Payload(p)
    ensures Replay(crc, FileOf(crc, payloads)) == payloads
  {
    CompleteLinesFirst(crc, payloads, "");
    assert FileOf(crc, payloads) + "" == FileOf(crc, payloads);
  }

  // ---- A torn tail ----

  lemma NoSpaceRejected(crc: Checksum, line: string)
    requires Free(line, ' ')
    ensures Parse(crc, line) == None
  {
  }

  lemma OneSpaceRejected(crc: Checksum, length: string, sum: string)
    requires Free(length, ' ') && length != "" && Free(sum, ' ')
    ensures Parse(crc, length + " " + sum) == None
  {
    IndexOfFirst(length, ' ', sum);
    var line := length + " " + sum;
    assert line == length + [' '] + sum;
    assert line[|length| + 1..] == sum;
  }

  // No proper beginning of a line passes for a line.
  lemma PrefixRejected(crc: Checksum, payload: string, k: nat)
    requires payload != "" && k < |Format(crc, payload)|
    ensures Parse(crc, Format(crc, payload)[..k]) == None
  {
    var length, sum := Decimal(|payload|), Hex(crc(payload) % LIMIT, 8);
    var line := Format(crc, payload);
    LengthParses(|payload|);
    SumParses(crc(payload) % LIMIT);
    if k <= |length| {
      assert line[..k] == length[..k];
      NoSpaceRejected(crc, line[..k]);
    } else if k <= |length| + 1 + |sum| {
      assert line[..k] == length + " " + sum[..k - |length| - 1];
      OneSpaceRejected(crc, length, sum[..k - |length| - 1]);
    } else {
      var part := payload[..k - |length| - |sum| - 2];
      assert line[..k] == length + " " + sum + " " + part;
      ParseShape(crc, length, sum, part);
    }
  }

  lemma {:induction false} LastLine(text: string)
    requires text != "" && Free(text, '\n')
    ensures Lines(text) == [DropCR(text)]
  {
  }

  lemma ReplayOne(crc: Checksum, line: string)
    ensures ReplayLines(crc, [line]) == if Parse(crc, line).Some? then [Parse(crc, line).value] else []
  {
    assert [line][1..] == [];
    assert ReplayLines(crc, []) == [];
  }

  // When the append of one more line is cut anywhere, the reader still gets every complete line,
  // and the last one too if only its newline is missing.
  lemma TornTail(crc: Checksum, payloads: seq<string>, last: string, k: nat)
    requires (forall p :: p in payloads ==> Payload(p)) && Payload(last) && k <= |Format(crc, last)|
    ensures Replay(crc, FileOf(crc, payloads) + Format(crc, last)[..k]) ==
              if k < |Format(crc, last)| then payloads else payloads + [last]
  {
    CompleteLinesFirst(crc, payloads, Format(crc, last)[..k]);
    TornAlone(crc, last, k);
  }

  lemma TornAlone(crc: Checksum, last: string, k: nat)
    requires Payload(last) && k <= |Format(crc, last)|
    ensures Replay(crc, Format(crc, last)[..k]) == if k < |Format(crc, last)| then [] else [last]
  {
    var tail := Format(crc, last)[..k];
    FormatIsLine(crc, last);
    if k == |Format(crc, last)| {
      assert tail == Format(crc, last);
      LastLine(tail);
      ReplayOne(crc, tail);
      LineRoundTrip(crc, last);
    } else if tail != "" {
      LastLine(tail);
      var read := DropCR(tail);
      assert read == Format(crc, last)[..|read|];
      ReplayOne(crc, read);
      PrefixRejected(crc, last, |read|);
    }
  }

  // ---- Appending after a torn tail ----

  lemma {:induction false} LongerIsLarger(a: string, s: string)
    requires AllDigits(a) && a != "" && a[0] != '0' && AllDigits(s)
    ensures AllDigits(a + s) && Value(a + s) > Value(s)
    decreases |s|
  {
    if s == "" {
      assert a + s == a;
      PositiveValue(a);
    } else {
      LongerIsLarger(a, s[..|s| - 1]);
      assert (a + s)[..|a + s| - 1] == a + s[..|s| - 1];
    }
  }

  lemma {:induction false} PositiveValue(a: string)
    requires AllDigits(a) && a != "" && a[0] != '0'
    ensures Value(a) > 0
  {
    if |a| > 1 {
      PositiveValue(a[..|a| - 1]);
    } else {
      assert a[..0] == "";
    }
  }

  lemma {:induction false} FirstDigit(n: nat)
    requires n > 0
    ensures Decimal(n) != "" && Decimal(n)[0] != '0'
  {
    if n >= 10 { FirstDigit(n / 10); }
  }

  // Cut inside the length: the glued line claims a payload longer than the one it has.
  lemma GluedLength(crc: Checksum, front: string, next: string)
    requires AllDigits(front) && front != "" && front[0] != '0'
    ensures Parse(crc, front + Format(crc, next)) == None
  {
    var length, sum := Decimal(|next|), Hex(crc(next) % LIMIT, 8);
    DecimalRoundTrip(|next|);
    LongerIsLarger(front, length);
    LengthParses(|next|);
    SumParses(crc(next) % LIMIT);
    DigitsHaveNoSpace(front + length);
    Regroup(front, length, " ");
    Regroup(front, length + " ", sum);
    Regroup(front, length + " " + sum, " ");
    Regroup(front, length + " " + sum + " ", next);
    ParseShape(crc, front + length, sum, next);
  }

  lemma DigitsHaveNoSpace(s: string)
    requires AllDigits(s)
    ensures Free(s, ' ')
  {
  }

  // Cut inside the checksum, or just before or after it.
  lemma GluedSum(crc: Checksum, length: string, sum: string, next: string)
    requires length != "" && Free(length, ' ') && Free(sum, ' ')
    ensures var read := Parse(crc, length + " " + sum + Format(crc, next)); read.None? || |read.value| > |next|
  {
    var second, rest := sum + Decimal(|next|), Hex(crc(next) % LIMIT, 8) + " " + next;
    LengthParses(|next|);
    SumParses(crc(next) % LIMIT);
    var line := length + " " + sum + Format(crc, next);
    assert line == length + " " + second + " " + rest;
    ParseShape(crc, length, second, rest);
  }

  // Cut inside the payload, or just before it, or after it.
  lemma GluedPayload(crc: Checksum, length: string, sum: string, part: string, next: string)
    requires length != "" && Free(length, ' ') && sum != "" && Free(sum, ' ')
    ensures var read := Parse(crc, length + " " + sum + " " + part + Format(crc, next)); read.None? || |read.value| > |next|
  {
    Regroup(length + " " + sum + " ", part, Format(crc, next));
    ParseShape(crc, length, sum, part + Format(crc, next));
  }

  // What is appended continues a torn line. The two together do not pass for a line, or for one with
  // a longer payload than the one appended.
  lemma GluedLine(crc: Checksum, last: string, k: nat, next: string)
    requires last != "" && 0 < k <= |Format(crc, last)|
    ensures var read := Parse(crc, Format(crc, last)[..k] + Format(crc, next)); read.None? || |read.value| > |next|
  {
    var length, sum := Decimal(|last|), Hex(crc(last) % LIMIT, 8);
    var line := Format(crc, last);
    LengthParses(|last|);
    SumParses(crc(last) % LIMIT);
    if k <= |length| {
      assert line[..k] == length[..k];
      DecimalRoundTrip(|last|);
      FirstDigit(|last|);
      GluedLength(crc, length[..k], next);
    } else if k <= |length| + 1 + |sum| {
      var part := sum[..k - |length| - 1];
      assert line[..k] == length + " " + part;
      GluedSum(crc, length, part, next);
    } else {
      var part := last[..k - |length| - |sum| - 2];
      assert line[..k] == length + " " + sum + " " + part;
      GluedPayload(crc, length, sum, part, next);
    }
  }

  // What the reader gets from the glued line and the lines after it.
  function ReadAs(payloads: seq<string>, glued: Option<string>, more: seq<string>): seq<string>
    requires more != []
  {
    if glued.Some? then payloads + ([glued.value] + more[1..]) else payloads
  }

  // What the reader gets when lines are appended after a torn one.
  lemma ReadGlued(crc: Checksum, payloads: seq<string>, torn: string, more: seq<string>)
    requires (forall p :: p in payloads ==> Payload(p)) && (forall p :: p in more ==> Payload(p)) && more != []
    requires Free(torn, '\n')
    ensures Replay(crc, FileOf(crc, payloads) + (torn + FileOf(crc, more))) ==
              ReadAs(payloads, Parse(crc, torn + Format(crc, more[0])), more)
  {
    CompleteLinesFirst(crc, payloads, torn + FileOf(crc, more));
    FormatIsLine(crc, more[0]);
    var glued := torn + Format(crc, more[0]);
    Regroup(torn, Format(crc, more[0]), "\n");
    Regroup(torn, Format(crc, more[0]) + "\n", FileOf(crc, more[1..]));
    assert torn + FileOf(crc, more) == glued + "\n" + FileOf(crc, more[1..]);
    assert DropCR(glued) == glued;
    LinesCons(glued, FileOf(crc, more[1..]));
    FileRoundTrip(crc, more[1..]);
  }

  // What is appended after a torn line is read back exactly when nothing of the torn line was
  // written, whatever the checksum function: the first entry appended is always lost otherwise,
  // though it was written and synced, and all of them unless the glued line happens to pass.
  lemma AppendAfterTornTail(crc: Checksum, payloads: seq<string>, last: string, k: nat, more: seq<string>)
    requires (forall p :: p in payloads ==> Payload(p)) && (forall p :: p in more ==> Payload(p)) && more != []
    requires Payload(last) && k <= |Format(crc, last)|
    ensures Replay(crc, FileOf(crc, payloads) + (Format(crc, last)[..k] + FileOf(crc, more))) == payloads + more <==> k == 0
    ensures k > 0 ==> exists glued: Option<string> ::
              && (glued.None? || |glued.value| > |more[0]|)
              && Replay(crc, FileOf(crc, payloads) + (Format(crc, last)[..k] + FileOf(crc, more))) == ReadAs(payloads, glued, more)
  {
    var torn := Format(crc, last)[..k];
    FormatIsLine(crc, last);
    ReadGlued(crc, payloads, torn, more);
    if k == 0 {
      assert torn + Format(crc, more[0]) == Format(crc, more[0]);
      LineRoundTrip(crc, more[0]);
    } else {
      GluedLine(crc, last, k, more[0]);
    }
    ReadMeans(payloads, Parse(crc, torn + Format(crc, more[0])), more, k == 0);
  }

  lemma ReadMeans(payloads: seq<string>, glued: Option<string>, more: seq<string>, whole: bool)
    requires more != [] && if whole then glued == Some(more[0]) else glued.None? || |glued.value| > |more[0]|
    ensures ReadAs(payloads, glued, more) == payloads + more <==> whole
  {
    assert |payloads + more| > |payloads|;
    if whole {
      assert [more[0]] + more[1..] == more;
    } else if glued.Some? {
      assert (payloads + ([glued.value] + more[1..]))[|payloads|] == glued.value;
      assert (payloads + more)[|payloads|] == more[0];
    }
  }

  // ---- Cuts at which everything appended is lost ----

  // When the glued line does not pass for a line, nothing appended is ever read.
  lemma GluedLineEndsLog(crc: Checksum, payloads: seq<string>, torn: string, more: seq<string>)
    requires (forall p :: p in payloads ==> Payload(p)) && (forall p :: p in more ==> Payload(p)) && more != []
    requires Free(torn, '\n') && Parse(crc, torn + Format(crc, more[0])) == None
    ensures Replay(crc, FileOf(crc, payloads) + (torn + FileOf(crc, more))) == payloads
  {
    ReadGlued(crc, payloads, torn, more);
  }

  // A last line that lacks only its newline is read by the next boot; once another line has been
  // appended, both are lost.
  lemma MissingNewlineLosesBoth(crc: Checksum, payloads: seq<string>, last: string, more: seq<string>)
    requires (forall p :: p in payloads ==> Payload(p)) && (forall p :: p in more ==> Payload(p)) && more != []
    requires Payload(last)
    ensures Replay(crc, FileOf(crc, payloads) + Format(crc, last)) == payloads + [last]
    ensures Replay(crc, FileOf(crc, payloads) + (Format(crc, last) + FileOf(crc, more))) == payloads
  {
    var whole := Format(crc, last);
    assert whole[..|whole|] == whole;
    TornTail(crc, payloads, last, |whole|);
    FormatIsLine(crc, last);
    LengthParses(|last|);
    SumParses(crc(last) % LIMIT);
    Regroup(Decimal(|last|) + " " + Hex(crc(last) % LIMIT, 8) + " ", last, Format(crc, more[0]));
    ParseShape(crc, Decimal(|last|), Hex(crc(last) % LIMIT, 8), last + Format(crc, more[0]));
    GluedLineEndsLog(crc, payloads, whole, more);
  }

  // A line torn inside its length, after one digit or more, makes the next line claim a length that
  // it does not have.
  lemma TornDigitsLoseAll(crc: Checksum, payloads: seq<string>, digits: string, more: seq<string>)
    requires (forall p :: p in payloads ==> Payload(p)) && (forall p :: p in more ==> Payload(p)) && more != []
    requires AllDigits(digits) && digits != "" && digits[0] != '0'
    ensures Replay(crc, FileOf(crc, payloads) + (digits + FileOf(crc, more))) == payloads
  {
    GluedLength(crc, digits, more[0]);
    GluedLineEndsLog(crc, payloads, digits, more);
  }
}
