/** Newline-terminated lines in a byte stream: what the manifest writer emits and what
    the bounded line reader of a result yields. */
module Framing {
  import opened Options

  newtype byte = x: int | 0 <= x < 256

  type Bytes = seq<byte>

  const NEWLINE: byte := 10
  const MAX_LINE_BYTES := 256 * 1024
  const MAX_UNCOMPRESSED_BYTES := 1024 * 1024 * 1024
  const MAX_ENTRIES := 250_000

  // ---------- framing ----------

  function Frame(bodies: seq<Bytes>): Bytes {
    if bodies == [] then [] else bodies[0] + [NEWLINE] + Frame(bodies[1..])
  }

  predicate Fits(body: Bytes) {
    |body| + 1 <= MAX_LINE_BYTES && NEWLINE !in body
  }

  /** Lines within both limits. */
  ghost predicate Framable(bodies: seq<Bytes>) {
    (forall b :: b in bodies ==> Fits(b)) && |Frame(bodies)| <= MAX_UNCOMPRESSED_BYTES
  }

  // ---------- reading ----------

  datatype Fault = LineTooLong | Unterminated | TooLarge

  /** The length of what readline(limit) returns. */
  function LineLength(data: Bytes, limit: nat): (n: nat)
    ensures n <= |data| && n <= limit && (data != [] && limit > 0 ==> n > 0)
    decreases |data|
  {
    if data == [] || limit == 0 then 0
    else if data[0] == NEWLINE then 1
    else 1 + LineLength(data[1..], limit - 1)
  }

  /** The lines yielded, the bytes counted, and the fault that ended the reading. */
  datatype Reading = Reading(lines: seq<Bytes>, bytes: nat, fault: Option<Fault>)

  /** One turn of the reader on a stream that is not at its end. */
  datatype Turn = Stop(bytes: nat, fault: Fault) | Line(length: nat)

  function NextTurn(data: Bytes, counted: nat): (t: Turn)
    requires data != []
    ensures t.Line? ==> 0 < t.length <= |data| && counted + t.length <= MAX_UNCOMPRESSED_BYTES
  {
    var n := LineLength(data, MAX_LINE_BYTES + 1);
    if n > MAX_LINE_BYTES then Stop(counted, LineTooLong)
    else if data[n - 1] != NEWLINE then Stop(counted, Unterminated)
    else if counted + n > MAX_UNCOMPRESSED_BYTES then Stop(counted + n, TooLarge)
    else Line(n)
  }

  function Read(data: Bytes, counted: nat): Reading
    decreases |data|
  {
    if data == [] then Reading([], counted, None)
    else
      match NextTurn(data, counted)
      case Stop(bytes, fault) => Reading([], bytes, Some(fault))
      case Line(n) => Later([data[..n - 1]], Read(data[n..], counted + n))
  }

  /** A reading that goes on after some lines. */
  function Later(lines: seq<Bytes>, r: Reading): Reading {
    Reading(lines + r.lines, r.bytes, r.fault)
  }

  lemma LaterTwice(a: seq<Bytes>, b: seq<Bytes>, r: Reading)
    ensures Later(a, Later(b, r)) == Later(a + b, r)
    ensures Later([], r) == r
  {
    assert a + (b + r.lines) == (a + b) + r.lines;
  }

  /** readline, and the checks on what it returns. */
  method ReadLine(data: Bytes, counted: nat) returns (turn: Turn)
    requires data != []
    ensures turn == NextTurn(data, counted)
  {
    var n := LineLength(data, MAX_LINE_BYTES + 1);
    if n > MAX_LINE_BYTES { return Stop(counted, LineTooLong); }
    if data[n - 1] != NEWLINE { return Stop(counted, Unterminated); }
    if counted + n > MAX_UNCOMPRESSED_BYTES { return Stop(counted + n, TooLarge); }
    return Line(n);
  }

  method ReadLines(data: Bytes) returns (reading: Reading)
    ensures reading == Read(data, 0)
  {
    var lines: seq<Bytes>, counted, rest := [], 0, data;
    LaterTwice([], [], Read(data, 0));
    while rest != []
      invariant Read(data, 0) == Later(lines, Read(rest, counted))
      decreases |rest|
    {
      var turn := ReadLine(rest, counted);
      match turn {
        case Stop(bytes, fault) =>
          assert lines + [] == lines;
          return Reading(lines, bytes, Some(fault));
        case Line(n) =>
          LaterTwice(lines, [rest[..n - 1]], Read(rest[n..], counted + n));
          lines := lines + [rest[..n - 1]];
          counted := counted + n;
          rest := rest[n..];
      }
    }
    assert lines + [] == lines;
    return Reading(lines, counted, None);
  }

  // ---------- round trip ----------

  lemma {:induction false} LineOf(body: Bytes, rest: Bytes, limit: nat)
    requires NEWLINE !in body && |body| + 1 <= limit
    ensures LineLength(body + [NEWLINE] + rest, limit) == |body| + 1
    decreases |body|
  {
    if body == [] {
      assert body + [NEWLINE] + rest == [NEWLINE] + rest;
    } else {
      LineOf(body[1..], rest, limit - 1);
      assert (body + [NEWLINE] + rest)[1..] == body[1..] + [NEWLINE] + rest;
    }
  }

  lemma ReadFramedLine(body: Bytes, rest: Bytes, counted: nat)
    requires Fits(body) && counted + |body| + 1 <= MAX_UNCOMPRESSED_BYTES
    ensures Read(body + [NEWLINE] + rest, counted) == Later([body], Read(rest, counted + |body| + 1))
  {
    var data := body + [NEWLINE] + rest;
    LineOf(body, rest, MAX_LINE_BYTES + 1);
    assert data[|body|] == NEWLINE && data[..|body|] == body && data[|body| + 1..] == rest;
    assert NextTurn(data, counted) == Line(|body| + 1);
  }

  /** Framed lines are read back exactly, and their bytes counted exactly. */
  lemma {:induction false} ReadFrame(bodies: seq<Bytes>, counted: nat)
    requires forall b :: b in bodies ==> Fits(b)
    requires counted + |Frame(bodies)| <= MAX_UNCOMPRESSED_BYTES
    ensures Read(Frame(bodies), counted) == Reading(bodies, counted + |Frame(bodies)|, None)
  {
    if bodies != [] {
      var body, rest := bodies[0], bodies[1..];
      assert body in bodies;
      forall b | b in rest ensures Fits(b) { assert b in bodies; }
      ReadFrame(rest, counted + |body| + 1);
      ReadFramed(body, rest, counted);
      assert [body] + rest == bodies;
    }
  }

  lemma ReadFramed(body: Bytes, rest: seq<Bytes>, counted: nat)
    requires Fits(body) && counted + |body| + 1 <= MAX_UNCOMPRESSED_BYTES
    requires Read(Frame(rest), counted + |body| + 1) == Reading(rest, counted + |body| + 1 + |Frame(rest)|, None)
    ensures Read(Frame([body] + rest), counted) == Reading([body] + rest, counted + |Frame([body] + rest)|, None)
  {
    ReadFramedLine(body, Frame(rest), counted);
    FrameLine(body, rest);
  }

  /** A line ends at its first newline. */
  lemma {:induction false} OneNewline(data: Bytes, limit: nat)
    ensures forall i :: 0 <= i < LineLength(data, limit) - 1 ==> data[i] != NEWLINE
    decreases |data|
  {
    if data != [] && limit > 0 && data[0] != NEWLINE {
      OneNewline(data[1..], limit - 1);
      forall i | 0 < i < LineLength(data, limit) - 1 ensures data[i] != NEWLINE { assert data[i] == data[1..][i - 1]; }
    }
  }

  lemma SplitLine(data: Bytes, counted: nat)
    requires data != [] && NextTurn(data, counted).Line?
    ensures var n := NextTurn(data, counted).length;
            data == data[..n - 1] + [NEWLINE] + data[n..] && Fits(data[..n - 1])
  {
    OneNewline(data, MAX_LINE_BYTES + 1);
  }

  lemma FrameLine(body: Bytes, lines: seq<Bytes>)
    ensures Frame([body] + lines) == body + [NEWLINE] + Frame(lines)
  {
    assert ([body] + lines)[1..] == lines;
  }

  /** A stream read without a fault is a framing of the lines it yields. */
  lemma {:induction false} ReadIsFrame(data: Bytes, counted: nat)
    requires Read(data, counted).fault == None
    ensures data == Frame(Read(data, counted).lines)
    decreases |data|
  {
    if data != [] {
      ReadOneLine(data, counted);
      var n := NextTurn(data, counted).length;
      ReadIsFrame(data[n..], counted + n);
      LineAndFrame(data, counted, n, Read(data[n..], counted + n));
    }
  }

  lemma LineCounts(data: Bytes, counted: nat)
    requires data != [] && NextTurn(data, counted).Line?
    ensures var n := NextTurn(data, counted).length;
            1 <= n <= |data| && counted + n <= MAX_UNCOMPRESSED_BYTES && |data| == n + |data[n..]|
  {
  }

  /** The bytes of a stream read without a fault are counted exactly. */
  lemma {:induction false} ReadCountsBytes(data: Bytes, counted: nat)
    requires counted <= MAX_UNCOMPRESSED_BYTES && Read(data, counted).fault == None
    ensures Read(data, counted).bytes == counted + |data| <= MAX_UNCOMPRESSED_BYTES
    decreases |data|
  {
    if data != [] {
      ReadOneLine(data, counted);
      var n := NextTurn(data, counted).length;
      LineCounts(data, counted);
      ReadCountsBytes(data[n..], counted + n);
    }
  }

  lemma ReadOneLine(data: Bytes, counted: nat)
    requires data != [] && Read(data, counted).fault == None
    ensures NextTurn(data, counted).Line?
    ensures var n := NextTurn(data, counted).length;
            Read(data, counted) == Later([data[..n - 1]], Read(data[n..], counted + n))
  {
  }

  lemma LineAndFrame(data: Bytes, counted: nat, n: nat, rest: Reading)
    requires data != [] && NextTurn(data, counted) == Line(n)
    requires data[n..] == Frame(rest.lines)
    ensures data == Frame(Later([data[..n - 1]], rest).lines)
  {
    SplitLine(data, counted);
    FrameLine(data[..n - 1], rest.lines);
  }

  /** Even a faulty stream never yields an over-long line: what it yields is a framed
      prefix of the data. */
  lemma {:induction false} YieldsFramedPrefix(data: Bytes, counted: nat)
    ensures FramedPrefix(Read(data, counted).lines, data)
    decreases |data|
  {
    if data != [] && NextTurn(data, counted).Line? {
      var n := NextTurn(data, counted).length;
      YieldsFramedPrefix(data[n..], counted + n);
      YieldsLine(data, counted, n, Read(data[n..], counted + n));
    }
  }

  ghost predicate FramedPrefix(lines: seq<Bytes>, data: Bytes) {
    (forall b :: b in lines ==> Fits(b)) && Frame(lines) <= data
  }

  lemma YieldsLine(data: Bytes, counted: nat, n: nat, rest: Reading)
    requires data != [] && NextTurn(data, counted) == Line(n) && FramedPrefix(rest.lines, data[n..])
    ensures FramedPrefix(Later([data[..n - 1]], rest).lines, data)
  {
    SplitLine(data, counted);
    FrameLine(data[..n - 1], rest.lines);
  }

  /** A byte string is accepted exactly when it is a concatenation of terminated
      lines within both limits. */
  lemma AcceptsExactly(data: Bytes)
    ensures Read(data, 0).fault == None <==> exists bodies :: Framable(bodies) && data == Frame(bodies)
  {
    if Read(data, 0).fault == None {
      ReadIsFrame(data, 0);
      ReadCountsBytes(data, 0);
      YieldsFramedPrefix(data, 0);
      assert Framable(Read(data, 0).lines);
    }
    forall bodies | Framable(bodies) && data == Frame(bodies) ensures Read(data, 0).fault == None {
      ReadFrame(bodies, 0);
    }
  }

  // ---------- writing ----------

  /** A manifest entry: what is checked of it, and its encoding with its row number.
      JSON text has no raw newline. */
  datatype Entry = Entry(upsert: bool, hashed: bool, reserved: bool, body: Bytes)

  datatype WriteError =
    | CountInvalid | OperationUnsupported | HashRequired | ReservedField | LineLimit | UncompressedLimit

  function EntryError(e: Entry): Option<WriteError> {
    if !e.upsert then Some(OperationUnsupported)
    else if !e.hashed then Some(HashRequired)
    else if e.reserved then Some(ReservedField)
    else if |e.body| + 1 > MAX_LINE_BYTES then Some(LineLimit)
    else None
  }

  function Bodies(entries: seq<Entry>): seq<Bytes> {
    seq(|entries|, i requires 0 <= i < |entries| => entries[i].body)
  }

  /** The first error among the entries, checked in order with the running total. */
  function FirstError(header: Bytes, entries: seq<Entry>): Option<WriteError> {
    if entries == [] then if |header| + 1 > MAX_LINE_BYTES then Some(LineLimit) else None
    else
      var n := |entries| - 1;
      var before := FirstError(header, entries[..n]);
      if before.Some? then before
      else if EntryError(entries[n]).Some? then EntryError(entries[n])
      else if |Frame([header] + Bodies(entries))| > MAX_UNCOMPRESSED_BYTES then Some(UncompressedLimit)
      else None
  }

  lemma {:induction false} FrameSnoc(bodies: seq<Bytes>, body: Bytes)
    ensures Frame(bodies + [body]) == Frame(bodies) + body + [NEWLINE]
  {
    if bodies == [] {
      assert [] + [body] == [body] && [body][1..] == [];
      assert Frame([]) == [];
    } else {
      FrameSnoc(bodies[1..], body);
      assert (bodies + [body])[1..] == bodies[1..] + [body];
    }
  }

  method WriteManifest(header: Bytes, entries: seq<Entry>) returns (r: Result<(Bytes, nat), WriteError>)
    ensures r.Success? <==> 1 <= |entries| <= MAX_ENTRIES && FirstError(header, entries).None?
    ensures r.Success? ==> r.value == (Frame([header] + Bodies(entries)), |Frame([header] + Bodies(entries))|)
    ensures r.Failure? && 1 <= |entries| <= MAX_ENTRIES ==> FirstError(header, entries) == Some(r.error)
  {
    if !(1 <= |entries| <= MAX_ENTRIES) { return Failure(CountInvalid); }
    FirstErrorStays(header, entries, 0);
    if |header| + 1 > MAX_LINE_BYTES { return Failure(LineLimit); }
    var data := header + [NEWLINE];
    var count := |data|;
    assert Bodies(entries[..0]) == [] && [header] + [] == [header] && [header][1..] == [];
    assert Frame([header]) == header + [NEWLINE] + Frame([]);
    for i := 0 to |entries|
      invariant data == Frame([header] + Bodies(entries[..i])) && count == |data|
      invariant FirstError(header, entries[..i]).None?
    {
      FirstErrorStays(header, entries, i + 1);
      assert entries[..i + 1][..i] == entries[..i];
      var error := EntryError(entries[i]);
      if error.Some? { return Failure(error.value); }
      assert [header] + Bodies(entries[..i + 1]) == ([header] + Bodies(entries[..i])) + [entries[i].body];
      FrameSnoc([header] + Bodies(entries[..i]), entries[i].body);
      count := count + |entries[i].body| + 1;
      if count > MAX_UNCOMPRESSED_BYTES { return Failure(UncompressedLimit); }
      data := data + entries[i].body + [NEWLINE];
    }
    assert entries[..|entries|] == entries;
    return Success((data, count));
  }

  lemma {:induction false} FirstErrorStays(header: Bytes, entries: seq<Entry>, i: nat)
    requires i <= |entries|
    ensures FirstError(header, entries[..i]).Some? ==> FirstError(header, entries) == FirstError(header, entries[..i])
  {
    if i == |entries| {
      assert entries[..i] == entries;
    } else {
      FirstErrorStays(header, entries[..|entries| - 1], i);
      assert entries[..|entries| - 1][..i] == entries[..i];
    }
  }

  lemma {:induction false} WrittenFits(header: Bytes, entries: seq<Entry>)
    requires FirstError(header, entries).None?
    requires NEWLINE !in header && forall e :: e in entries ==> NEWLINE !in e.body
    ensures forall b :: b in [header] + Bodies(entries) ==> Fits(b)
    ensures entries != [] ==> |Frame([header] + Bodies(entries))| <= MAX_UNCOMPRESSED_BYTES
  {
    if entries != [] {
      var front, last := entries[..|entries| - 1], entries[|entries| - 1];
      assert entries == front + [last];
      WrittenFits(header, front);
      assert [header] + Bodies(entries) == ([header] + Bodies(front)) + [last.body];
    } else {
      assert [header] + Bodies(entries) == [header];
    }
  }

  /** What the writer emits is read back line by line, with the size it reports. */
  lemma WrittenIsReadBack(header: Bytes, entries: seq<Entry>)
    requires entries != [] && FirstError(header, entries).None?
    requires NEWLINE !in header && forall e :: e in entries ==> NEWLINE !in e.body
    ensures var data := Frame([header] + Bodies(entries));
            Read(data, 0) == Reading([header] + Bodies(entries), |data|, None)
  {
    WrittenFits(header, entries);
    ReadFrame([header] + Bodies(entries), 0);
  }

  // ---------- what is refused, and why ----------

  /** The entries can be written: hashed upserts without reserved fields, each line at
      most 256 KiB, all together at most 1 GiB. */
  ghost predicate Writable(header: Bytes, entries: seq<Entry>) {
    && |header| + 1 <= 262144
    && (forall e :: e in entries ==> e.upsert && e.hashed && !e.reserved && |e.body| + 1 <= 262144)
    && (entries != [] ==> |Frame([header] + Bodies(entries))| <= 1073741824)
  }

  lemma {:induction false} FrameGrows(header: Bytes, entries: seq<Entry>)
    requires entries != []
    ensures |Frame([header] + Bodies(entries[..|entries| - 1]))| <= |Frame([header] + Bodies(entries))|
  {
    var front, last := entries[..|entries| - 1], entries[|entries| - 1];
    assert [header] + Bodies(entries) == ([header] + Bodies(front)) + [last.body];
    FrameSnoc([header] + Bodies(front), last.body);
  }

  /** Exactly such entries are written. */
  lemma {:induction false} WritesExactly(header: Bytes, entries: seq<Entry>)
    ensures FirstError(header, entries).None? <==> Writable(header, entries)
  {
    if entries != [] {
      var front, last := entries[..|entries| - 1], entries[|entries| - 1];
      assert entries == front + [last];
      WritesExactly(header, front);
      FrameGrows(header, entries);
    }
  }

  /** The error tells what is wrong with entry `i`, the first one that cannot be written. */
  ghost predicate Blames(error: WriteError, header: Bytes, entries: seq<Entry>, i: nat)
    requires i < |entries|
  {
    var e := entries[i];
    match error
    case CountInvalid => false
    case OperationUnsupported => !e.upsert
    case HashRequired => e.upsert && !e.hashed
    case ReservedField => e.upsert && e.hashed && e.reserved
    case LineLimit => e.upsert && e.hashed && !e.reserved && |e.body| + 1 > 262144
    case UncompressedLimit =>
      && e.upsert && e.hashed && !e.reserved && |e.body| + 1 <= 262144
      && |Frame([header] + Bodies(entries[..i + 1]))| > 1073741824
  }

  /** A refusal is about the first entry that cannot be written, and says why. */
  lemma {:induction false} FirstIsBlamed(header: Bytes, entries: seq<Entry>) returns (i: nat)
    requires |header| + 1 <= MAX_LINE_BYTES && FirstError(header, entries).Some?
    ensures i < |entries| && Writable(header, entries[..i])
    ensures Blames(FirstError(header, entries).value, header, entries, i)
  {
    var n := |entries| - 1;
    if FirstError(header, entries[..n]).Some? {
      i := FirstIsBlamed(header, entries[..n]);
      assert entries[..n][..i] == entries[..i] && entries[..n][..i + 1] == entries[..i + 1];
    } else {
      i := n;
      WritesExactly(header, entries[..n]);
      assert entries[..n + 1] == entries;
    }
  }

  /** What is left of a stream after the lines it yields, when it ends in a fault. */
  ghost predicate FaultSays(fault: Fault, rest: Bytes, counted: nat) {
    match fault
    case LineTooLong => |rest| > 262144 && NEWLINE !in rest[..262144]
    case Unterminated => 0 < |rest| <= 262144 && NEWLINE !in rest
    case TooLarge =>
      exists n :: 0 < n <= |rest| && EndsLine(rest, n) && n <= 262144 && counted + n > 1073741824
  }

  ghost predicate EndsLine(rest: Bytes, n: nat)
    requires 0 < n <= |rest|
  {
    rest[n - 1] == NEWLINE && NEWLINE !in rest[..n - 1]
  }

  lemma StopSays(data: Bytes, counted: nat)
    requires data != [] && NextTurn(data, counted).Stop?
    ensures FaultSays(NextTurn(data, counted).fault, data, counted)
  {
    var n := LineLength(data, MAX_LINE_BYTES + 1);
    OneNewline(data, MAX_LINE_BYTES + 1);
    WholeLine(data, MAX_LINE_BYTES + 1);
    if NextTurn(data, counted).fault == TooLarge { assert EndsLine(data, n); }
  }

  lemma {:induction false} WholeLine(data: Bytes, limit: nat)
    ensures var n := LineLength(data, limit);
            n > 0 && data[n - 1] != NEWLINE ==> n == |data| || n == limit
    decreases |data|
  {
    if data != [] && limit > 0 && data[0] != NEWLINE {
      var n := LineLength(data[1..], limit - 1);
      WholeLine(data[1..], limit - 1);
      if n > 0 { assert data[n] == data[1..][n - 1]; }
    }
  }

  /** A stream that ends in a fault has one: after the lines it yields comes a line that
      is too long, one that is not terminated, or one too many. */
  lemma {:induction false} FaultsExactly(data: Bytes, counted: nat)
    requires Read(data, counted).fault.Some?
    ensures var lines := Read(data, counted).lines;
            && Frame(lines) <= data
            && FaultSays(Read(data, counted).fault.value, data[|Frame(lines)|..], counted + |Frame(lines)|)
    decreases |data|
  {
    if NextTurn(data, counted).Stop? {
      StopSays(data, counted);
    } else {
      var n := NextTurn(data, counted).length;
      FaultsExactly(data[n..], counted + n);
      YieldsFramedPrefix(data, counted);
      SplitLine(data, counted);
      var rest := Read(data[n..], counted + n).lines;
      FrameLine(data[..n - 1], rest);
      assert Read(data, counted).lines == [data[..n - 1]] + rest;
      assert data[n..][|Frame(rest)|..] == data[n + |Frame(rest)|..];
    }
  }
}
