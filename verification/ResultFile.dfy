/** The result of a bulk import, parsed in memory and streamed.  A file is what its
    line reader yields: decoded records, and the fault that may end them. */
module ResultFiles {
  import opened Options

  const MAX_ENTRIES := 250_000

  // ---------- records ----------

  datatype Json =
    | Null | Bool(b: bool) | Int(n: int) | Number(text: string) | Text(s: string)
    | List(items: seq<Json>) | Object(fields: map<string, Json>)

  datatype Error =
    | LineFault | GzipInvalid | JsonInvalid | DuplicateKey | RecordInvalid | HeaderInvalid | HeaderMissing
    | IdentifierInvalid | ImportMismatch | RowSequenceInvalid | EntryInvalid | EntryCountInvalid
    | EntryLimitExceeded | MemoryLimitExceeded | LimitInvalid | Changed | Unhashable | CursorOutOfRange

  type Fields = map<string, Json>

  /** A decoded line, or why it is not a record. */
  datatype Decoded = Record(fields: Fields) | NotRecord(error: Error)

  datatype File = File(records: seq<Decoded>, fault: Option<Error>)

  datatype Header = Header(
    importId: string, counts: map<string, int>, cursor: Option<string>, acceptedAt: Option<string>)

  datatype ResultEntry = ResultEntry(
    row: int, item: string, outcome: string, occurrence: Option<string>, asset: Option<string>, job: Option<string>,
    uploadRequired: bool, errorCode: Option<string>, errorMessage: Option<string>)

  datatype Verified = Verified(header: Header, entryCount: nat)

  const OUTCOMES: set<string> :=
    {"CreatedOccurrence", "UpdatedOccurrence", "DuplicateLinked", "DeletedOccurrence", "IgnoredDeletion",
     "Unchanged", "Rejected"}

  /** A missing field reads as null. */
  function Get(fields: Fields, name: string): Json {
    if name in fields then fields[name] else Null
  }

  predicate TextOrNull(j: Json) {
    j.Null? || j.Text?
  }

  function TextOf(j: Json): Option<string> {
    if j.Text? then Some(j.s) else None
  }

  /** `uuid` is the canonical text of a value that reads as a UUID. */
  function OptionalUuid(j: Json, uuid: Json -> Option<string>): Result<Option<string>, Error> {
    if j.Null? then Success(None)
    else if uuid(j).None? then Failure(EntryInvalid)
    else Success(uuid(j))
  }

  predicate CountsOk(counts: Fields) {
    forall key :: key in counts ==> key != "" && counts[key].Int? && counts[key].n >= 0
  }

  function CountsOf(counts: Fields): map<string, int>
    requires CountsOk(counts)
  {
    map key | key in counts :: counts[key].n
  }

  // ---------- the streaming validators ----------

  function HeaderOf(fields: Fields, expected: Option<string>, uuid: Json -> Option<string>): Result<Header, Error> {
    if Get(fields, "recordType") != Text("Result") || Get(fields, "schemaVersion") != Text("ManifestResultNdjsonV1")
    then Failure(HeaderInvalid)
    else
      var id := uuid(Get(fields, "importId"));
      if id.None? then Failure(IdentifierInvalid)
      else if expected.Some? && id != expected then Failure(ImportMismatch)
      else
        var counts := Get(fields, "counts");
        if !counts.Object? || !CountsOk(counts.fields) then Failure(HeaderInvalid)
        else if !TextOrNull(Get(fields, "sourceCursor")) || !TextOrNull(Get(fields, "acceptedAtUtc"))
        then Failure(HeaderInvalid)
        else Success(Header(id.value, CountsOf(counts.fields), TextOf(Get(fields, "sourceCursor")),
            TextOf(Get(fields, "acceptedAtUtc"))))
  }

  /** A list or an object cannot be looked up among the outcomes at all. */
  function IdentityError(fields: Fields): Option<Error> {
    var item, outcome := Get(fields, "sourceItemId"), Get(fields, "outcome");
    if !item.Text? || item.s == "" || |item.s| > 512 then Some(EntryInvalid)
    else if outcome.List? || outcome.Object? then Some(Unhashable)
    else if !outcome.Text? || outcome.s !in OUTCOMES then Some(EntryInvalid)
    else None
  }

  function UploadFlag(fields: Fields): Option<bool> {
    if "uploadRequired" !in fields then Some(false)
    else if fields["uploadRequired"].Bool? then Some(fields["uploadRequired"].b)
    else None
  }

  function EntryOf(fields: Fields, expectedRow: int, uuid: Json -> Option<string>): Result<ResultEntry, Error> {
    if Get(fields, "recordType") != Text("EntryResult") then Failure(RecordInvalid)
    else if Get(fields, "rowNumber") != Int(expectedRow) then Failure(RowSequenceInvalid)
    else if IdentityError(fields).Some? then Failure(IdentityError(fields).value)
    else if UploadFlag(fields).None? || !TextOrNull(Get(fields, "errorCode"))
        || !TextOrNull(Get(fields, "errorMessage"))
    then Failure(EntryInvalid)
    else
      var occurrence := OptionalUuid(Get(fields, "occurrenceId"), uuid);
      var asset := OptionalUuid(Get(fields, "mediaAssetId"), uuid);
      var job := OptionalUuid(Get(fields, "descriptionJobId"), uuid);
      if occurrence.Failure? || asset.Failure? || job.Failure? then Failure(EntryInvalid)
      else Success(ResultEntry(expectedRow, Get(fields, "sourceItemId").s, Get(fields, "outcome").s,
                               occurrence.value, asset.value, job.value, UploadFlag(fields).value,
                               TextOf(Get(fields, "errorCode")), TextOf(Get(fields, "errorMessage"))))
  }

  // ---------- what a file says ----------

  /** The records read so far: nothing, or a header with its entries. */
  datatype Content = Content(header: Option<Header>, entries: seq<ResultEntry>)

  datatype Checked = IsHeader(header: Header) | IsEntry(entry: ResultEntry)

  /** Line `n`, counted from zero: a header first, then the entries. */
  function Check(n: nat, record: Decoded, expected: Option<string>,
                 uuid: Json -> Option<string>): (c: Result<Checked, Error>)
    ensures c.Success? ==> (c.value.IsHeader? <==> n == 0)
    ensures c.Success? && n > 0 ==> c.value.entry.row == n
  {
    if record.NotRecord? then Failure(record.error)
    else if n == 0 then
      var header := HeaderOf(record.fields, expected, uuid);
      if header.Failure? then Failure(header.error) else Success(IsHeader(header.value))
    else
      var entry := EntryOf(record.fields, n, uuid);
      if entry.Failure? then Failure(entry.error) else Success(IsEntry(entry.value))
  }

  function Extended(content: Content, c: Checked): Content {
    match c
    case IsHeader(header) => Content(Some(header), [])
    case IsEntry(entry) => content.(entries := content.entries + [entry])
  }

  /** Reading the records in order, the first error ending it. */
  function ContentOf(records: seq<Decoded>, expected: Option<string>,
                     uuid: Json -> Option<string>): (c: Result<Content, Error>)
    ensures c.Success? ==> (c.value.header.Some? <==> records != [])
    ensures c.Success? ==> |c.value.entries| == if records == [] then 0 else |records| - 1
  {
    if records == [] then Success(Content(None, []))
    else
      var n := |records| - 1;
      var before := ContentOf(records[..n], expected, uuid);
      if before.Failure? then before
      else
        var c := Check(n, records[n], expected, uuid);
        if c.Failure? then Failure(c.error) else Success(Extended(before.value, c.value))
  }

  /** The file as a whole, without any limit on its entries. */
  function Whole(f: File, expected: Option<string>, uuid: Json -> Option<string>): (c: Result<Content, Error>)
    ensures c.Success? ==> c.value.header.Some? && c.value.entries != []
  {
    var content := ContentOf(f.records, expected, uuid);
    if content.Failure? then content
    else if f.fault.Some? then Failure(f.fault.value)
    else if f.records == [] then Failure(HeaderMissing)
    else if |f.records| == 1 then Failure(EntryCountInvalid)
    else content
  }

  function VerifiedOf(whole: Result<Content, Error>): Result<Verified, Error>
    requires whole.Success? ==> whole.value.header.Some?
  {
    if whole.Failure? then Failure(whole.error) else Success(Verified(whole.value.header.value, |whole.value.entries|))
  }

  /** The file still has the verified header and the verified number of entries. */
  predicate Unchanged(v: Verified, f: File, content: Content) {
    (f.records != [] ==> content.header == Some(v.header)) && |content.entries| == v.entryCount
  }

  lemma {:induction false} ErrorStays(records: seq<Decoded>, i: nat, expected: Option<string>,
                                      uuid: Json -> Option<string>)
    requires i <= |records| && ContentOf(records[..i], expected, uuid).Failure?
    ensures ContentOf(records, expected, uuid) == ContentOf(records[..i], expected, uuid)
  {
    if i == |records| {
      assert records[..i] == records;
    } else {
      assert records[..|records| - 1][..i] == records[..i];
      ErrorStays(records[..|records| - 1], i, expected, uuid);
    }
  }

  /** One more record, and what it means for the file. */
  lemma NextRecord(records: seq<Decoded>, i: nat, expected: Option<string>, uuid: Json -> Option<string>)
    requires i < |records| && ContentOf(records[..i], expected, uuid).Success?
    ensures var c := Check(i, records[i], expected, uuid);
            if c.Failure? then ContentOf(records, expected, uuid) == Failure(c.error)
            else
              ContentOf(records[..i + 1], expected, uuid)
              == Success(Extended(ContentOf(records[..i], expected, uuid).value, c.value))
  {
    assert records[..i + 1][..i] == records[..i] && records[..i + 1][i] == records[i];
    if ContentOf(records[..i + 1], expected, uuid).Failure? { ErrorStays(records, i + 1, expected, uuid); }
  }

  lemma {:induction false} PrefixContent(records: seq<Decoded>, i: nat, expected: Option<string>,
                                         uuid: Json -> Option<string>)
    requires i <= |records| && ContentOf(records, expected, uuid).Success?
    ensures ContentOf(records[..i], expected, uuid).Success?
    ensures ContentOf(records[..i], expected, uuid).value.entries <= ContentOf(records, expected, uuid).value.entries
    ensures i > 0 ==>
              ContentOf(records[..i], expected, uuid).value.header == ContentOf(records, expected, uuid).value.header
  {
    if i == |records| {
      assert records[..i] == records;
    } else {
      assert records[..|records| - 1][..i] == records[..i];
      PrefixContent(records[..|records| - 1], i, expected, uuid);
    }
  }

  // ---------- streaming ----------

  lemma AllRecords(records: seq<Decoded>)
    ensures records[..|records|] == records
  {
  }

  /** The first `i` records are valid, and have this header and this many entries. */
  ghost predicate CountedTo(records: seq<Decoded>, i: nat, expected: Option<string>, uuid: Json -> Option<string>,
                            header: Option<Header>, entryCount: nat)
  {
    && i <= |records| && ContentOf(records[..i], expected, uuid).Success?
    && var content := ContentOf(records[..i], expected, uuid).value;
       header == content.header && entryCount == |content.entries| && (i > 0 ==> entryCount == i - 1)
  }

  /** Validate one more record. */
  method CheckNext(records: seq<Decoded>, i: nat, expected: Option<string>, uuid: Json -> Option<string>,
                   ghost header: Option<Header>, ghost entryCount: nat)
    returns (checked: Result<Checked, Error>)
    requires i < |records| && CountedTo(records, i, expected, uuid, header, entryCount)
    ensures checked.Failure? ==> ContentOf(records, expected, uuid) == Failure(checked.error)
    ensures checked.Success? ==> (checked.value.IsHeader? <==> i == 0)
    ensures checked.Success? ==>
              if i == 0 then CountedTo(records, 1, expected, uuid, Some(checked.value.header), 0)
              else CountedTo(records, i + 1, expected, uuid, header, entryCount + 1)
  {
    NextRecord(records, i, expected, uuid);
    checked := Check(i, records[i], expected, uuid);
  }

  /** Check every record, keeping only the header and the count. */
  method ReadRecords(f: File, expected: Option<string>, uuid: Json -> Option<string>)
    returns (r: Result<(Option<Header>, nat), Error>)
    ensures r.Success? ==>
              var content := ContentOf(f.records, expected, uuid);
              content.Success? && r.value == (content.value.header, |content.value.entries|) && r.value.1 <= MAX_ENTRIES
    ensures r.Failure? ==> |f.records| > MAX_ENTRIES + 1 || ContentOf(f.records, expected, uuid) == Failure(r.error)
  {
    var header: Option<Header>, entryCount: nat := None, 0;
    for i := 0 to |f.records|
      invariant CountedTo(f.records, i, expected, uuid, header, entryCount) && entryCount <= MAX_ENTRIES
    {
      if i > 0 && entryCount + 1 > MAX_ENTRIES { return Failure(EntryLimitExceeded); }
      var checked := CheckNext(f.records, i, expected, uuid, header, entryCount);
      if checked.Failure? { return Failure(checked.error); }
      if i == 0 { header := Some(checked.value.header); } else { entryCount := entryCount + 1; }
    }
    AllRecords(f.records);
    return Success((header, entryCount));
  }

  /** Verify a file without keeping its entries. */
  method ReadResultHeader(f: File, expected: Option<string>, uuid: Json -> Option<string>)
    returns (r: Result<Verified, Error>)
    ensures |f.records| <= MAX_ENTRIES + 1 ==> r == VerifiedOf(Whole(f, expected, uuid))
    ensures |f.records| > MAX_ENTRIES + 1 ==> r.Failure?
  {
    var read := ReadRecords(f, expected, uuid);
    if read.Failure? { return Failure(read.error); }
    if f.fault.Some? { return Failure(f.fault.value); }
    if read.value.0.None? { return Failure(HeaderMissing); }
    if read.value.1 == 0 { return Failure(EntryCountInvalid); }
    return Success(Verified(read.value.0.value, read.value.1));
  }

  /** The entries after the resume cursor of a file that is as it was verified. */
  function IterOf(v: Verified, f: File, after: int, uuid: Json -> Option<string>): Option<seq<ResultEntry>> {
    var content := ContentOf(f.records, Some(v.header.importId), uuid);
    if !(0 <= after <= v.entryCount) || content.Failure? || f.fault.Some? || !Unchanged(v, f, content.value) then None
    else Some(content.value.entries[after..])
  }

  /** The record is valid at its place, and a header is the verified one. */
  predicate Fine(v: Verified, n: nat, record: Decoded, uuid: Json -> Option<string>) {
    var c := Check(n, record, Some(v.header.importId), uuid);
    c.Success? && (c.value.IsHeader? ==> c.value.header == v.header)
  }

  /** The error a record that is not fine ends the stream with. */
  function FaultOf(v: Verified, n: nat, record: Decoded, uuid: Json -> Option<string>): Error {
    var c := Check(n, record, Some(v.header.importId), uuid);
    if c.Failure? then c.error else Changed
  }

  /** The records before the first one that is not fine. */
  predicate EndsAt(v: Verified, records: seq<Decoded>, uuid: Json -> Option<string>, n: nat) {
    && n <= |records| && (forall i :: 0 <= i < n ==> Fine(v, i, records[i], uuid))
    && (n < |records| ==> !Fine(v, n, records[n], uuid))
  }

  function FineUpTo(v: Verified, records: seq<Decoded>, uuid: Json -> Option<string>): (n: nat)
    ensures EndsAt(v, records, uuid, n)
  {
    if records == [] then 0
    else
      var last := |records| - 1;
      var n := FineUpTo(v, records[..last], uuid);
      if n < last then n else if Fine(v, last, records[last], uuid) then last + 1 else last
  }

  lemma EndsOnce(v: Verified, records: seq<Decoded>, uuid: Json -> Option<string>, n: nat)
    requires EndsAt(v, records, uuid, n)
    ensures FineUpTo(v, records, uuid) == n
  {
    var m := FineUpTo(v, records, uuid);
    assert EndsAt(v, records, uuid, m);
  }

  /** The first `i` records are fine, and their entries after the row are yielded. */
  ghost predicate ReadTo(v: Verified, records: seq<Decoded>, i: nat, after: nat, uuid: Json -> Option<string>,
                         entries: seq<ResultEntry>, observed: nat)
  {
    && i <= |records| && (forall j :: 0 <= j < i ==> Fine(v, j, records[j], uuid))
    && var read := ContentOf(records[..i], Some(v.header.importId), uuid);
       && read.Success? && (i > 0 ==> read.value.header == Some(v.header))
       && entries == After(read.value.entries, after) && observed == |read.value.entries|
  }

  lemma ReadNext(v: Verified, records: seq<Decoded>, i: nat, after: nat, uuid: Json -> Option<string>,
                 entries: seq<ResultEntry>, observed: nat, c: Checked)
    requires ReadTo(v, records, i, after, uuid, entries, observed) && i < |records|
    requires Check(i, records[i], Some(v.header.importId), uuid) == Success(c) && Fine(v, i, records[i], uuid)
    ensures c.IsHeader? ==> ReadTo(v, records, i + 1, after, uuid, entries, observed)
    ensures c.IsEntry? ==>
              ReadTo(v, records, i + 1, after, uuid, if i > after then entries + [c.entry] else entries, observed + 1)
  {
    NextRecord(records, i, Some(v.header.importId), uuid);
    AfterSnoc(ContentOf(records[..i], Some(v.header.importId), uuid).value, c, after);
  }

  /** The stream of the records ends well exactly when the verified header and all the
      entries are still there. */
  ghost predicate Streams(v: Verified, records: seq<Decoded>, after: nat, uuid: Json -> Option<string>,
                          entries: seq<ResultEntry>, observed: nat, error: Option<Error>)
  {
    var n := FineUpTo(v, records, uuid);
    && ReadTo(v, records, n, after, uuid, entries, observed)
    && error == if n < |records| then Some(FaultOf(v, n, records[n], uuid)) else None
  }

  lemma ReadStops(v: Verified, records: seq<Decoded>, i: nat, after: nat, uuid: Json -> Option<string>,
                  entries: seq<ResultEntry>, observed: nat)
    requires ReadTo(v, records, i, after, uuid, entries, observed)
    requires i < |records| ==> !Fine(v, i, records[i], uuid)
    ensures Streams(v, records, after, uuid, entries, observed,
                    if i < |records| then Some(FaultOf(v, i, records[i], uuid)) else None)
  {
    EndsOnce(v, records, uuid, i);
  }

  /** Stream the entries after a row from the records, expecting the same header: what
      is yielded before an error are the entries of the fine records before it. */
  method IterRecords(v: Verified, f: File, after: nat, uuid: Json -> Option<string>)
    returns (entries: seq<ResultEntry>, observed: nat, error: Option<Error>)
    ensures Streams(v, f.records, after, uuid, entries, observed, error)
  {
    entries, observed := [], 0;
    for i := 0 to |f.records|
      invariant ReadTo(v, f.records, i, after, uuid, entries, observed)
    {
      var checked := Check(i, f.records[i], Some(v.header.importId), uuid);
      if checked.Failure? {
        ReadStops(v, f.records, i, after, uuid, entries, observed);
        return entries, observed, Some(checked.error);
      }
      if checked.value.IsHeader? && checked.value.header != v.header {
        ReadStops(v, f.records, i, after, uuid, entries, observed);
        return entries, observed, Some(Changed);
      }
      ReadNext(v, f.records, i, after, uuid, entries, observed, checked.value);
      if checked.value.IsEntry? {
        observed := observed + 1;
        if checked.value.entry.row > after { entries := entries + [checked.value.entry]; }
      }
    }
    ReadStops(v, f.records, |f.records|, after, uuid, entries, observed);
    error := None;
  }

  /** A stream without an error has read the whole content, with the same header. */
  lemma StreamsContent(v: Verified, records: seq<Decoded>, after: nat, uuid: Json -> Option<string>,
                       entries: seq<ResultEntry>, observed: nat, error: Option<Error>)
    requires Streams(v, records, after, uuid, entries, observed, error)
    ensures var content := ContentOf(records, Some(v.header.importId), uuid);
            && (error.None? <==> content.Success? && (records != [] ==> content.value.header == Some(v.header)))
            && (error.None? ==> entries == After(content.value.entries, after) && observed == |content.value.entries|)
  {
    var n, expected := FineUpTo(v, records, uuid), Some(v.header.importId);
    AllRecords(records);
    if n < |records| {
      NextRecord(records, n, expected, uuid);
      if Check(n, records[n], expected, uuid).Success? { HeaderStays(records, n + 1, expected, uuid); }
    }
  }

  /** What a stream ends with when all rows before its end were fine. */
  function StreamError(v: Verified, f: File, uuid: Json -> Option<string>): Option<Error> {
    var n := FineUpTo(v, f.records, uuid);
    if n < |f.records| then Some(FaultOf(v, n, f.records[n], uuid))
    else if f.fault.Some? then f.fault
    else if n == v.entryCount + 1 then None
    else if n == 0 && v.entryCount == 0 then None
    else Some(Changed)
  }

  /** Stream the entries after the resume cursor, checking the file again.  What is
      yielded before an error are the entries, from the cursor on, of the records
      before the first one that is not fine. */
  method IterResultEntries(v: Verified, f: File, after: int, uuid: Json -> Option<string>)
    returns (entries: seq<ResultEntry>, error: Option<Error>)
    ensures !(0 <= after <= v.entryCount) ==> error == Some(CursorOutOfRange) && entries == []
    ensures IterOf(v, f, after, uuid) == if error.None? then Some(entries) else None
    ensures 0 <= after <= v.entryCount ==>
              entries == Yielded(v, f.records, after, uuid) && error == StreamError(v, f, uuid)
  {
    if !(0 <= after <= v.entryCount) { return [], Some(CursorOutOfRange); }
    var observed;
    entries, observed, error := IterRecords(v, f, after, uuid);
    StreamsContent(v, f.records, after, uuid, entries, observed, error);
    if error.Some? { return entries, error; }
    if f.fault.Some? { return entries, f.fault; }
    return entries, if observed != v.entryCount then Some(Changed) else None;
  }

  /** The entries after a row of the records that are read. */
  function Yielded(v: Verified, records: seq<Decoded>, after: nat, uuid: Json -> Option<string>): seq<ResultEntry> {
    var read := ContentOf(records[..FineUpTo(v, records, uuid)], Some(v.header.importId), uuid);
    if read.Success? then After(read.value.entries, after) else []
  }

  function After(entries: seq<ResultEntry>, after: nat): seq<ResultEntry> {
    if after <= |entries| then entries[after..] else []
  }

  lemma AfterSnoc(content: Content, c: Checked, after: nat)
    ensures After(Extended(content, c).entries, after)
         == if c.IsHeader? then []
            else if |content.entries| + 1 > after then After(content.entries, after) + [c.entry]
            else After(content.entries, after)
  {
  }

  lemma HeaderStays(records: seq<Decoded>, i: nat, expected: Option<string>, uuid: Json -> Option<string>)
    requires 0 < i <= |records| && ContentOf(records[..i], expected, uuid).Success?
    ensures ContentOf(records, expected, uuid).Success? ==>
              ContentOf(records, expected, uuid).value.header == ContentOf(records[..i], expected, uuid).value.header
  {
    if ContentOf(records, expected, uuid).Success? { PrefixContent(records, i, expected, uuid); }
  }

  // ---------- in memory ----------

  datatype Parsed = Parsed(header: Header, entries: seq<ResultEntry>)

  function ParsedOf(whole: Result<Content, Error>): Result<Parsed, Error>
    requires whole.Success? ==> whole.value.header.Some?
  {
    if whole.Failure? then Failure(whole.error) else Success(Parsed(whole.value.header.value, whole.value.entries))
  }

  method ParseCounts(raw: Fields) returns (counts: Option<map<string, int>>)
    ensures counts == if CountsOk(raw) then Some(CountsOf(raw)) else None
  {
    var read: map<string, int> := map[];
    var left := raw.Keys;
    while left != {}
      invariant left <= raw.Keys && read.Keys == raw.Keys - left
      invariant forall key :: key in read ==> key != "" && raw[key].Int? && raw[key].n >= 0 && read[key] == raw[key].n
    {
      var key :| key in left;
      left := left - {key};
      if key == "" || !raw[key].Int? || raw[key].n < 0 { return None; }
      read := read[key := raw[key].n];
    }
    assert CountsOk(raw) by {
      forall key | key in raw ensures key != "" && raw[key].Int? && raw[key].n >= 0 { assert key in read; }
    }
    assert read == CountsOf(raw);
    return Some(read);
  }

  method ParseHeader(record: Fields, expected: Option<string>, uuid: Json -> Option<string>)
    returns (r: Result<Header, Error>)
    ensures r == HeaderOf(record, expected, uuid)
  {
    if Get(record, "recordType") != Text("Result") || Get(record, "schemaVersion") != Text("ManifestResultNdjsonV1") {
      return Failure(HeaderInvalid);
    }
    var importId := uuid(Get(record, "importId"));
    if importId.None? { return Failure(IdentifierInvalid); }
    if expected.Some? && importId != expected { return Failure(ImportMismatch); }
    var raw := Get(record, "counts");
    if !raw.Object? { return Failure(HeaderInvalid); }
    var counts := ParseCounts(raw.fields);
    if counts.None? { return Failure(HeaderInvalid); }
    var cursor := Get(record, "sourceCursor");
    if !cursor.Null? && !cursor.Text? { return Failure(HeaderInvalid); }
    var accepted := Get(record, "acceptedAtUtc");
    if !accepted.Null? && !accepted.Text? { return Failure(HeaderInvalid); }
    return Success(Header(importId.value, counts.value, TextOf(cursor), TextOf(accepted)));
  }

  method ParseEntry(record: Fields, expectedRow: nat, uuid: Json -> Option<string>)
    returns (r: Result<ResultEntry, Error>)
    ensures r == EntryOf(record, expectedRow, uuid)
  {
    if Get(record, "recordType") != Text("EntryResult") { return Failure(RecordInvalid); }
    var row := Get(record, "rowNumber");
    if !row.Int? || row.n != expectedRow { return Failure(RowSequenceInvalid); }
    var item, outcome := Get(record, "sourceItemId"), Get(record, "outcome");
    if !item.Text? || item.s == "" || |item.s| > 512 { return Failure(EntryInvalid); }
    if outcome.List? || outcome.Object? { return Failure(Unhashable); }
    if !outcome.Text? || outcome.s !in OUTCOMES { return Failure(EntryInvalid); }
    var upload := if "uploadRequired" in record then record["uploadRequired"] else Bool(false);
    if !upload.Bool? { return Failure(EntryInvalid); }
    var errorCode, errorMessage := Get(record, "errorCode"), Get(record, "errorMessage");
    if !errorCode.Null? && !errorCode.Text? { return Failure(EntryInvalid); }
    if !errorMessage.Null? && !errorMessage.Text? { return Failure(EntryInvalid); }
    var occurrence := OptionalUuid(Get(record, "occurrenceId"), uuid);
    if occurrence.Failure? { return Failure(occurrence.error); }
    var asset := OptionalUuid(Get(record, "mediaAssetId"), uuid);
    if asset.Failure? { return Failure(asset.error); }
    var job := OptionalUuid(Get(record, "descriptionJobId"), uuid);
    if job.Failure? { return Failure(job.error); }
    return Success(ResultEntry(row.n, item.s, outcome.s, occurrence.value, asset.value, job.value, upload.b,
                               TextOf(errorCode), TextOf(errorMessage)));
  }

  /** Line `n` of the in-memory parser. */
  method ParseRecord(n: nat, record: Decoded, expected: Option<string>, uuid: Json -> Option<string>)
    returns (r: Result<Checked, Error>)
    ensures r == Check(n, record, expected, uuid)
  {
    if record.NotRecord? { return Failure(record.error); }
    if n == 0 {
      var header := ParseHeader(record.fields, expected, uuid);
      return if header.Failure? then Failure(header.error) else Success(IsHeader(header.value));
    }
    var entry := ParseEntry(record.fields, n, uuid);
    return if entry.Failure? then Failure(entry.error) else Success(IsEntry(entry.value));
  }

  method ParseRecords(f: File, expected: Option<string>, uuid: Json -> Option<string>, maxEntries: nat)
    returns (r: Result<(Option<Header>, seq<ResultEntry>), Error>)
    ensures r.Success? ==>
              var content := ContentOf(f.records, expected, uuid);
              |f.records| <= maxEntries + 1 && content.Success?
                  && r.value == (content.value.header, content.value.entries)
    ensures r.Failure? ==> |f.records| > maxEntries + 1 || ContentOf(f.records, expected, uuid) == Failure(r.error)
  {
    var header: Option<Header>, entries: seq<ResultEntry> := None, [];
    for i := 0 to |f.records|
      invariant i <= maxEntries + 1
      invariant ContentOf(f.records[..i], expected, uuid) == Success(Content(header, entries))
    {
      NextRecord(f.records, i, expected, uuid);
      var checked := ParseRecord(i, f.records[i], expected, uuid);
      if checked.Failure? { return Failure(checked.error); }
      match checked.value {
        case IsHeader(read) => header, entries := Some(read), [];
        case IsEntry(entry) => entries := entries + [entry];
      }
      if |entries| > maxEntries { return Failure(MemoryLimitExceeded); }
    }
    assert f.records[..|f.records|] == f.records;
    return Success((header, entries));
  }

  /** Parse a small file in memory. */
  method ParseResult(f: File, expected: Option<string>, uuid: Json -> Option<string>, maxEntries: nat)
    returns (r: Result<Parsed, Error>)
    ensures !(1 <= maxEntries <= MAX_ENTRIES) ==> r == Failure(LimitInvalid)
    ensures 1 <= maxEntries <= MAX_ENTRIES && |f.records| <= maxEntries + 1 ==> r == ParsedOf(Whole(f, expected, uuid))
    ensures |f.records| > maxEntries + 1 ==> r.Failure?
  {
    if !(1 <= maxEntries <= MAX_ENTRIES) { return Failure(LimitInvalid); }
    var read := ParseRecords(f, expected, uuid, maxEntries);
    if read.Failure? { return Failure(read.error); }
    if f.fault.Some? { return Failure(f.fault.value); }
    if read.value.0.None? { return Failure(HeaderMissing); }
    if read.value.1 == [] { return Failure(EntryCountInvalid); }
    return Success(Parsed(read.value.0.value, read.value.1));
  }

  // ---------- the readers agree ----------

  /** Naming the import a file belongs to changes nothing. */
  lemma {:induction false} OwnImport(records: seq<Decoded>, expected: Option<string>, uuid: Json -> Option<string>)
    requires ContentOf(records, expected, uuid).Success? && records != []
    ensures var id := ContentOf(records, expected, uuid).value.header.value.importId;
            ContentOf(records, Some(id), uuid) == ContentOf(records, expected, uuid)
  {
    var front := records[..|records| - 1];
    if front != [] {
      OwnImport(front, expected, uuid);
      assert ContentOf(front, expected, uuid).value.header == ContentOf(records, expected, uuid).value.header;
    }
  }

  /** On a verified file that did not change, streaming after row k yields exactly the
      rows after k, and both readers give the same header and count. */
  lemma ResumeIsExact(f: File, expected: Option<string>, uuid: Json -> Option<string>, k: nat)
    requires Whole(f, expected, uuid).Success? && k <= |Whole(f, expected, uuid).value.entries|
    ensures var whole := Whole(f, expected, uuid);
            && IterOf(VerifiedOf(whole).value, f, k, uuid) == Some(whole.value.entries[k..])
            && ParsedOf(whole)
               == Success(Parsed(VerifiedOf(whole).value.header, IterOf(VerifiedOf(whole).value, f, 0, uuid).value))
  {
    OwnImport(f.records, expected, uuid);
    assert Whole(f, expected, uuid).value.entries[0..] == Whole(f, expected, uuid).value.entries;
  }

  lemma {:induction false} RowsAreContiguous(records: seq<Decoded>, expected: Option<string>,
                                             uuid: Json -> Option<string>)
    requires ContentOf(records, expected, uuid).Success?
    ensures var entries := ContentOf(records, expected, uuid).value.entries;
            forall i :: 0 <= i < |entries| ==> entries[i].row == i + 1
  {
    if records != [] {
      RowsAreContiguous(records[..|records| - 1], expected, uuid);
    }
  }

  /** Whatever the file has become, a stream that ends without an error yields exactly
      the rows from the cursor to the verified count. */
  lemma StreamedRows(v: Verified, f: File, k: int, uuid: Json -> Option<string>)
    requires IterOf(v, f, k, uuid).Some?
    ensures var entries := IterOf(v, f, k, uuid).value;
            0 <= k <= v.entryCount && |entries| == v.entryCount - k && forall i :: 0 <= i < |entries| ==>
                entries[i].row == k + 1 + i
  {
    RowsAreContiguous(f.records, Some(v.header.importId), uuid);
  }

  lemma {:induction false} EntriesOfRecords(records: seq<Decoded>, expected: Option<string>,
                                            uuid: Json -> Option<string>)
    requires ContentOf(records, expected, uuid).Success?
    ensures var entries := ContentOf(records, expected, uuid).value.entries;
            forall i :: 0 <= i < |entries| ==>
              Check(i + 1, records[i + 1], expected, uuid) == Success(IsEntry(entries[i]))
  {
    if records != [] {
      EntriesOfRecords(records[..|records| - 1], expected, uuid);
    }
  }

  lemma {:induction false} FineIsRead(v: Verified, records: seq<Decoded>, uuid: Json -> Option<string>)
    requires forall i :: 0 <= i < |records| ==> Fine(v, i, records[i], uuid)
    ensures ContentOf(records, Some(v.header.importId), uuid).Success?
  {
    if records != [] {
      var n := |records| - 1;
      FineIsRead(v, records[..n], uuid);
      assert Fine(v, n, records[n], uuid);
    }
  }

  /** Whatever the file has become, and whatever error ends the stream, the rows it has
      yielded are those of the records from the cursor to the first one that is not
      fine, each as its record says and none left out. */
  lemma YieldedRows(v: Verified, f: File, k: nat, uuid: Json -> Option<string>)
    ensures var n, entries := FineUpTo(v, f.records, uuid), Yielded(v, f.records, k, uuid);
            && |entries| == (if k + 1 < n then n - 1 - k else 0)
            && forall i :: 0 <= i < |entries| ==>
                 var row := k + 1 + i;
                 entries[i].row == row
                 && Check(row, f.records[row], Some(v.header.importId), uuid) == Success(IsEntry(entries[i]))
  {
    var n := FineUpTo(v, f.records, uuid);
    FineIsRead(v, f.records[..n], uuid);
    EntriesOfRecords(f.records[..n], Some(v.header.importId), uuid);
    RowsAreContiguous(f.records[..n], Some(v.header.importId), uuid);
  }

  // ---------- what a record says, field by field ----------

  ghost predicate IdSays(j: Json, id: Option<string>, uuid: Json -> Option<string>) {
    if id.None? then j == Null else j != Null && uuid(j) == id
  }

  ghost predicate TextSays(j: Json, text: Option<string>) {
    if text.None? then j == Null else j == Text(text.value)
  }

  /** The record is the entry: each field of the one is that of the other. */
  ghost predicate EntrySays(fields: Fields, row: int, e: ResultEntry, uuid: Json -> Option<string>) {
    && Get(fields, "recordType") == Text("EntryResult") && Get(fields, "rowNumber") == Int(row) && e.row == row
    && Get(fields, "sourceItemId") == Text(e.item) && 1 <= |e.item| <= 512
    && Get(fields, "outcome") == Text(e.outcome)
    && e.outcome in {"CreatedOccurrence", "UpdatedOccurrence", "DuplicateLinked", "DeletedOccurrence",
                     "IgnoredDeletion", "Unchanged", "Rejected"}
    && IdSays(Get(fields, "occurrenceId"), e.occurrence, uuid) && IdSays(Get(fields, "mediaAssetId"), e.asset, uuid)
    && IdSays(Get(fields, "descriptionJobId"), e.job, uuid)
    && (if "uploadRequired" in fields then fields["uploadRequired"] == Bool(e.uploadRequired) else !e.uploadRequired)
    && TextSays(Get(fields, "errorCode"), e.errorCode) && TextSays(Get(fields, "errorMessage"), e.errorMessage)
  }

  /** A record is accepted at its row exactly for the entry it says, field by field. */
  lemma EntryExactly(fields: Fields, row: int, e: ResultEntry, uuid: Json -> Option<string>)
    ensures EntryOf(fields, row, uuid) == Success(e) <==> EntrySays(fields, row, e, uuid)
  {
  }

  /** The record is the header: of the expected import, if one is expected. */
  ghost predicate HeaderSays(fields: Fields, expected: Option<string>, h: Header, uuid: Json -> Option<string>) {
    && Get(fields, "recordType") == Text("Result") && Get(fields, "schemaVersion") == Text("ManifestResultNdjsonV1")
    && uuid(Get(fields, "importId")) == Some(h.importId) && (expected.Some? ==> expected == Some(h.importId))
    && Get(fields, "counts").Object? && Get(fields, "counts").fields.Keys == h.counts.Keys
    && (forall key :: key in h.counts ==>
          key != "" && h.counts[key] >= 0 && Get(fields, "counts").fields[key] == Int(h.counts[key]))
    && TextSays(Get(fields, "sourceCursor"), h.cursor) && TextSays(Get(fields, "acceptedAtUtc"), h.acceptedAt)
  }

  lemma HeaderExactly(fields: Fields, expected: Option<string>, h: Header, uuid: Json -> Option<string>)
    ensures HeaderOf(fields, expected, uuid) == Success(h) <==> HeaderSays(fields, expected, h, uuid)
  {
    if HeaderSays(fields, expected, h, uuid) {
      assert CountsOf(Get(fields, "counts").fields) == h.counts;
    }
  }

  function IdField(id: Option<string>): Json {
    if id.Some? then Text(id.value) else Null
  }

  /** The record that says an entry. */
  function RecordOf(e: ResultEntry): Fields {
    map["recordType" := Text("EntryResult"), "rowNumber" := Int(e.row), "sourceItemId" := Text(e.item),
        "outcome" := Text(e.outcome), "occurrenceId" := IdField(e.occurrence), "mediaAssetId" := IdField(e.asset),
        "descriptionJobId" := IdField(e.job), "uploadRequired" := Bool(e.uploadRequired),
        "errorCode" := IdField(e.errorCode), "errorMessage" := IdField(e.errorMessage)]
  }

  /** Every entry with an item, a known outcome and canonical identifiers is read back
      from its record as it was. */
  lemma EntryIsReadBack(e: ResultEntry, uuid: Json -> Option<string>)
    requires 1 <= |e.item| <= 512 && e.outcome in OUTCOMES
    requires forall id :: id in {e.occurrence, e.asset, e.job} && id.Some? ==> uuid(Text(id.value)) == id
    ensures EntryOf(RecordOf(e), e.row, uuid) == Success(e)
  {
    EntryExactly(RecordOf(e), e.row, e, uuid);
  }

  ghost predicate RowSays(record: Decoded, row: int, e: ResultEntry, uuid: Json -> Option<string>) {
    record.Record? && EntrySays(record.fields, row, e, uuid)
  }

  ghost predicate RowsSay(rows: seq<Decoded>, entries: seq<ResultEntry>, uuid: Json -> Option<string>) {
    |rows| == |entries| && forall i :: 0 <= i < |rows| ==> RowSays(rows[i], i + 1, entries[i], uuid)
  }

  /** The records are a header and these entries, in the order of their rows. */
  ghost predicate RecordsSay(records: seq<Decoded>, expected: Option<string>, h: Header, entries: seq<ResultEntry>,
                             uuid: Json -> Option<string>)
  {
    && records != [] && records[0].Record? && HeaderSays(records[0].fields, expected, h, uuid)
    && RowsSay(records[1..], entries, uuid)
  }

  lemma HeaderAlone(records: seq<Decoded>, expected: Option<string>, h: Header, entries: seq<ResultEntry>,
                    uuid: Json -> Option<string>)
    requires |records| == 1
    ensures ContentOf(records, expected, uuid) == Success(Content(Some(h), entries))
       <==> RecordsSay(records, expected, h, entries, uuid)
  {
    assert records[..0] == [] && ContentOf([], expected, uuid) == Success(Content(None, []));
    if records[0].Record? { HeaderExactly(records[0].fields, expected, h, uuid); }
  }

  lemma {:induction false} ContentExactly(records: seq<Decoded>, expected: Option<string>, h: Header,
                                          entries: seq<ResultEntry>, uuid: Json -> Option<string>)
    requires records != []
    ensures ContentOf(records, expected, uuid) == Success(Content(Some(h), entries))
       <==> RecordsSay(records, expected, h, entries, uuid)
  {
    var n := |records| - 1;
    if n == 0 {
      HeaderAlone(records, expected, h, entries, uuid);
    } else if entries != [] {
      var front, last := entries[..|entries| - 1], entries[|entries| - 1];
      assert entries == front + [last];
      ContentExactly(records[..n], expected, h, front, uuid);
      LastRecord(records, expected, h, front, last, uuid);
    }
  }

  /** The last record says the last entry. */
  lemma LastRecord(records: seq<Decoded>, expected: Option<string>, h: Header, front: seq<ResultEntry>,
                   last: ResultEntry, uuid: Json -> Option<string>)
    requires |records| > 1
    requires ContentOf(records[..|records| - 1], expected, uuid) == Success(Content(Some(h), front))
        <==> RecordsSay(records[..|records| - 1], expected, h, front, uuid)
    ensures ContentOf(records, expected, uuid) == Success(Content(Some(h), front + [last]))
       <==> RecordsSay(records, expected, h, front + [last], uuid)
  {
    var n := |records| - 1;
    var before := ContentOf(records[..n], expected, uuid);
    if records[n].Record? { EntryExactly(records[n].fields, n, last, uuid); }
    LastSays(records, expected, h, front, last, uuid);
    if ContentOf(records, expected, uuid) == Success(Content(Some(h), front + [last])) {
      AppendedOnce(before.value.entries, front, Check(n, records[n], expected, uuid).value.entry, last);
    }
  }

  lemma AppendedOnce<T>(a: seq<T>, b: seq<T>, x: T, y: T)
    requires a + [x] == b + [y]
    ensures a == b && x == y
  {
    assert (a + [x])[..|a|] == a && (b + [y])[..|b|] == b;
    assert (a + [x])[|a|] == x && (b + [y])[|b|] == y;
  }

  lemma LastSays(records: seq<Decoded>, expected: Option<string>, h: Header, front: seq<ResultEntry>,
                 last: ResultEntry, uuid: Json -> Option<string>)
    requires |records| > 1
    ensures var n := |records| - 1;
            RecordsSay(records, expected, h, front + [last], uuid)
            <==> RecordsSay(records[..n], expected, h, front, uuid) && (n == |front| + 1 ==>
                   RowSays(records[n], n, last, uuid))
  {
    var n := |records| - 1;
    assert records[1..] == records[..n][1..] + [records[n]];
    RowsSnoc(records[..n][1..], records[n], front, last, uuid);
  }

  lemma RowsSnoc(rows: seq<Decoded>, row: Decoded, front: seq<ResultEntry>, last: ResultEntry,
                 uuid: Json -> Option<string>)
    ensures RowsSay(rows + [row], front + [last], uuid)
       <==> RowsSay(rows, front, uuid) && RowSays(row, |front| + 1, last, uuid)
  {
    var all, entries := rows + [row], front + [last];
    if RowsSay(all, entries, uuid) {
      assert all[|front|] == row && entries[|front|] == last;
      forall i | 0 <= i < |rows| ensures RowSays(rows[i], i + 1, front[i], uuid) {
        assert all[i] == rows[i] && entries[i] == front[i];
      }
    }
  }

  /** A file is accepted exactly when its lines can all be read and are a header and at
      least one entry, each at its row, and its content is what they say. */
  lemma FileExactly(f: File, expected: Option<string>, h: Header, entries: seq<ResultEntry>,
                    uuid: Json -> Option<string>)
    ensures Whole(f, expected, uuid) == Success(Content(Some(h), entries))
       <==> f.fault.None? && entries != [] && RecordsSay(f.records, expected, h, entries, uuid)
  {
    if f.records != [] { ContentExactly(f.records, expected, h, entries, uuid); }
  }
}
