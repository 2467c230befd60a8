/** The parallel media scanner: three worker pools whose results arrive in any
    order, a cache of earlier reads, and entries kept in path order. */
module Scanner {
  import opened Options
  import opened Permutations

  const CACHE_WRITE_BATCH_SIZE := 1_000

  datatype Media = Photo | Video | NotMedia

  /** `rank` stands for the casefolded path, by which paths are ordered. */
  datatype Path = Path(text: string, rank: nat, media: Media)

  datatype Stat = StatFailed(error: string) | Stat(size: nat, modified: int)

  datatype Metadata = Extracted(text: string) | Fallback(modified: int)

  datatype Content = ReadFailed(error: string) | Content(sha: string, metadata: Metadata)

  /** What the file system answers during one scan. */
  datatype Disk = Disk(stats: map<Path, Stat>, contents: map<Path, Content>)

  datatype Tree = Tree(dirs: seq<Tree>, files: seq<Path>, errors: seq<string>)

  datatype Candidate = Candidate(path: Path, size: nat, modified: int)

  datatype Record = Record(size: nat, modified: int, sha: string, metadata: Metadata)

  datatype Update = Update(path: Path, record: Record)

  /** The revision is a function of size, time and hash, where there is one. */
  datatype ScanEntry = ScanEntry(path: Path, size: nat, modified: int, sha: Option<string>, metadata: Metadata)

  datatype ScanResult = ScanResult(
    entries: seq<ScanEntry>, seen: set<Path>, scanned: nat, cached: nat, hashed: nat, skipped: nat,
    failed: nat, pendingHash: nat, completeRead: bool, errors: seq<string>)

  type Cache = map<Path, Record>

  // ---------- what one file contributes ----------

  function StatOf(d: Disk, p: Path): Stat {
    if p in d.stats then d.stats[p] else StatFailed(p.text)
  }

  function ContentOf(d: Disk, p: Path): Content {
    if p in d.contents then d.contents[p] else ReadFailed(p.text)
  }

  function MediaOnly(): Path -> Option<Path> {
    (p: Path) => if p.media == NotMedia then None else Some(p)
  }

  function Others(): Path -> Option<Path> {
    (p: Path) => if p.media == NotMedia then Some(p) else None
  }

  /** Empty placeholders are no candidates and no failures. */
  function Candidates(d: Disk): Path -> Option<Candidate> {
    (p: Path) => match StatOf(d, p)
      case StatFailed(_) => None
      case Stat(size, modified) => if size == 0 then None else Some(Candidate(p, size, modified))
  }

  function StatErrors(d: Disk): Path -> Option<string> {
    (p: Path) => match StatOf(d, p)
      case StatFailed(error) => Some(error)
      case Stat(_, _) => None
  }

  function Placeholders(d: Disk): Path -> Option<Path> {
    (p: Path) => if StatOf(d, p).Stat? && StatOf(d, p).size == 0 then Some(p) else None
  }

  predicate Hit(cache: Cache, c: Candidate) {
    c.path in cache && cache[c.path].size == c.size && cache[c.path].modified == c.modified
  }

  function Fresh(d: Disk, c: Candidate): Option<Update> {
    match ContentOf(d, c.path)
    case ReadFailed(_) => None
    case Content(sha, metadata) => Some(Update(c.path, Record(c.size, c.modified, sha, metadata)))
  }

  function EntryOf(c: Candidate, r: Record): ScanEntry {
    ScanEntry(c.path, c.size, c.modified, Some(r.sha), r.metadata)
  }

  function PendingEntry(c: Candidate): ScanEntry {
    ScanEntry(c.path, c.size, c.modified, None, Fallback(c.modified))
  }

  function ReadEntry(d: Disk, c: Candidate): Option<ScanEntry> {
    var u := Fresh(d, c);
    if u.Some? then Some(EntryOf(c, u.value.record)) else None
  }

  function Slot(d: Disk, cache: Cache, fastAdd: bool, c: Candidate): Option<ScanEntry> {
    if Hit(cache, c) then Some(EntryOf(c, cache[c.path]))
    else if fastAdd then Some(PendingEntry(c))
    else ReadEntry(d, c)
  }

  function Slots(d: Disk, cache: Cache, fastAdd: bool): Candidate -> Option<ScanEntry> {
    (c: Candidate) => Slot(d, cache, fastAdd, c)
  }

  function Hits(cache: Cache): Candidate -> Option<Candidate> {
    (c: Candidate) => if Hit(cache, c) then Some(c) else None
  }

  function Misses(cache: Cache): Candidate -> Option<Candidate> {
    (c: Candidate) => if Hit(cache, c) then None else Some(c)
  }

  function Updates(d: Disk): Candidate -> Option<Update> {
    (c: Candidate) => Fresh(d, c)
  }

  function ReadErrors(d: Disk): Candidate -> Option<string> {
    (c: Candidate) => if ContentOf(d, c.path).ReadFailed? then Some(ContentOf(d, c.path).error) else None
  }

  function ByPath(): Path -> int {
    (p: Path) => p.rank
  }

  function ByCandidate(): Candidate -> int {
    (c: Candidate) => c.path.rank
  }

  // ---------- the directory walk ----------

  function Files(t: Tree): seq<Path>
    decreases t, 0
  {
    t.files + FilesIn(t.dirs)
  }

  function FilesIn(ts: seq<Tree>): seq<Path>
    decreases ts, 1
  {
    if ts == [] then [] else FilesIn(ts[..|ts| - 1]) + Files(ts[|ts| - 1])
  }

  function Errors(t: Tree): seq<string>
    decreases t, 0
  {
    t.errors + ErrorsIn(t.dirs)
  }

  function ErrorsIn(ts: seq<Tree>): seq<string>
    decreases ts, 1
  {
    if ts == [] then [] else ErrorsIn(ts[..|ts| - 1]) + Errors(ts[|ts| - 1])
  }

  function Size(t: Tree): nat
    decreases t, 0
  {
    1 + SizeIn(t.dirs)
  }

  function SizeIn(ts: seq<Tree>): nat
    decreases ts, 1
  {
    if ts == [] then 0 else SizeIn(ts[..|ts| - 1]) + Size(ts[|ts| - 1])
  }

  lemma FilesSnoc(ts: seq<Tree>, front: seq<Tree>, last: Tree)
    requires ts == front + [last]
    ensures FilesIn(ts) == FilesIn(front) + Files(last)
  {
    assert ts[..|ts| - 1] == front;
  }

  lemma {:induction false} FilesConcat(a: seq<Tree>, b: seq<Tree>)
    ensures FilesIn(a + b) == FilesIn(a) + FilesIn(b)
  {
    if b == [] {
      assert a + b == a;
    } else {
      var front, last := b[..|b| - 1], b[|b| - 1];
      FilesSnoc(a + b, a + front, last);
      FilesSnoc(b, front, last);
      FilesConcat(a, front);
      Associative(FilesIn(a), FilesIn(front), Files(last));
    }
  }

  lemma ErrorsSnoc(ts: seq<Tree>, front: seq<Tree>, last: Tree)
    requires ts == front + [last]
    ensures ErrorsIn(ts) == ErrorsIn(front) + Errors(last)
  {
    assert ts[..|ts| - 1] == front;
  }

  lemma {:induction false} ErrorsConcat(a: seq<Tree>, b: seq<Tree>)
    ensures ErrorsIn(a + b) == ErrorsIn(a) + ErrorsIn(b)
  {
    if b == [] {
      assert a + b == a;
    } else {
      var front, last := b[..|b| - 1], b[|b| - 1];
      ErrorsSnoc(a + b, a + front, last);
      ErrorsSnoc(b, front, last);
      ErrorsConcat(a, front);
      Associative(ErrorsIn(a), ErrorsIn(front), Errors(last));
    }
  }

  lemma {:induction false} SizeConcat(a: seq<Tree>, b: seq<Tree>)
    ensures SizeIn(a + b) == SizeIn(a) + SizeIn(b)
  {
    if b == [] {
      assert a + b == a;
    } else {
      SizeConcat(a, b[..|b| - 1]);
      assert (a + b)[..|a + b| - 1] == a + b[..|b| - 1];
    }
  }

  lemma InOne(t: Tree)
    ensures FilesIn([t]) == Files(t) && ErrorsIn([t]) == Errors(t) && SizeIn([t]) == Size(t)
  {
    assert [t][..0] == [];
    assert FilesIn([]) == [] && ErrorsIn([]) == [] && SizeIn([]) == 0;
  }

  /** A finished directory is replaced by its subdirectories. */
  lemma FilesFinished(a: seq<Tree>, t: Tree, b: seq<Tree>)
    ensures multiset(FilesIn(a + [t] + b)) == multiset(FilesIn(a + b + t.dirs)) + multiset(t.files)
  {
    FilesConcat(a + [t], b);
    FilesConcat(a, [t]);
    FilesConcat(a + b, t.dirs);
    FilesConcat(a, b);
    InOne(t);
  }

  lemma ErrorsFinished(a: seq<Tree>, t: Tree, b: seq<Tree>)
    ensures multiset(ErrorsIn(a + [t] + b)) == multiset(ErrorsIn(a + b + t.dirs)) + multiset(t.errors)
  {
    ErrorsConcat(a + [t], b);
    ErrorsConcat(a, [t]);
    ErrorsConcat(a + b, t.dirs);
    ErrorsConcat(a, b);
    InOne(t);
  }

  lemma SizeFinished(a: seq<Tree>, t: Tree, b: seq<Tree>)
    ensures SizeIn(a + b + t.dirs) < SizeIn(a + [t] + b)
  {
    SizeConcat(a + [t], b);
    SizeConcat(a, [t]);
    SizeConcat(a + b, t.dirs);
    SizeConcat(a, b);
    InOne(t);
  }

  ghost predicate Walked(root: Tree, pending: seq<Tree>, found: seq<Path>, errors: seq<string>) {
    && multiset(found) + multiset(FilesIn(pending)) == multiset(Files(root))
    && multiset(errors) + multiset(ErrorsIn(pending)) == multiset(Errors(root))
  }

  lemma WalkOne(root: Tree, pending: seq<Tree>, i: nat, found: seq<Path>, errors: seq<string>)
    requires i < |pending| && Walked(root, pending, found, errors)
    ensures var rest := pending[..i] + pending[i + 1..] + pending[i].dirs;
            Walked(root, rest, found + pending[i].files, errors + pending[i].errors) && SizeIn(rest) < SizeIn(pending)
  {
    var a, t, b := pending[..i], pending[i], pending[i + 1..];
    assert pending == a + [t] + b;
    FilesFinished(a, t, b);
    ErrorsFinished(a, t, b);
    SizeFinished(a, t, b);
  }

  /** Directory listings arrive in any order. */
  method Walk(root: Tree) returns (found: seq<Path>, errors: seq<string>)
    ensures multiset(found) == multiset(Files(root))
    ensures multiset(errors) == multiset(Errors(root))
  {
    found, errors := [], [];
    var pending := [root];
    InOne(root);
    while pending != []
      invariant Walked(root, pending, found, errors)
      decreases SizeIn(pending)
    {
      var i :| 0 <= i < |pending|;
      WalkOne(root, pending, i, found, errors);
      found, errors := found + pending[i].files, errors + pending[i].errors;
      pending := pending[..i] + pending[i + 1..] + pending[i].dirs;
    }
  }

  // ---------- reading file metadata ----------

  datatype Stats = Stats(candidates: seq<Candidate>, seen: set<Path>, errors: seq<string>, skipped: nat)

  /** What reading the metadata of these paths gives. */
  ghost predicate Gathers(d: Disk, done: seq<Path>, s: Stats) {
    && s.candidates == Collect(Candidates(d), done)
    && (forall p :: p in s.seen <==> p in done)
    && s.errors == Collect(StatErrors(d), done)
    && s.skipped == |Collect(Placeholders(d), done)|
  }

  lemma GathersOne(d: Disk, done: seq<Path>, p: Path, s: Stats, after: Stats)
    requires Gathers(d, done, s) && after.seen == s.seen + {p}
    requires match StatOf(d, p)
             case StatFailed(error) => after == s.(seen := after.seen, errors := s.errors + [error])
             case Stat(size, modified) =>
               if size == 0 then after == s.(seen := after.seen, skipped := s.skipped + 1)
               else after == s.(seen := after.seen, candidates := s.candidates + [Candidate(p, size, modified)])
    ensures Gathers(d, done + [p], after)
  {
    assert (done + [p])[..|done|] == done;
  }

  lemma GathersPermuted(d: Disk, paths: seq<Path>, done: seq<Path>, s: Stats)
    requires Gathers(d, done, s) && multiset(paths) == multiset(done)
    ensures multiset(s.candidates) == multiset(Collect(Candidates(d), paths))
    ensures s.seen == (set p | p in paths)
    ensures multiset(s.errors) == multiset(Collect(StatErrors(d), paths))
    ensures s.skipped == |Collect(Placeholders(d), paths)|
  {
    AllDone(paths, done);
    CollectPermuted(Candidates(d), done, paths);
    CollectPermuted(StatErrors(d), done, paths);
    CollectPermuted(Placeholders(d), done, paths);
    SameLength(Collect(Placeholders(d), done), Collect(Placeholders(d), paths));
  }

  /** Take some finished futures from the pool, in any order. */
  method GatherFinished(d: Disk, held: seq<Path>, s0: Stats, ghost done0: seq<Path>)
    returns (pending: seq<Path>, s: Stats, ghost done: seq<Path>)
    requires held != [] && Gathers(d, done0, s0)
    ensures |pending| < |held| && multiset(pending) + multiset(done) == multiset(held) + multiset(done0)
    ensures Gathers(d, done, s)
  {
    pending, s, done := held, s0, done0;
    var completions :| 1 <= completions <= |held|;
    while completions > 0
      invariant 0 <= completions <= |pending| <= |held| && (completions == 0 ==> |pending| < |held|)
      invariant multiset(pending) + multiset(done) == multiset(held) + multiset(done0)
      invariant Gathers(d, done, s)
    {
      var i :| 0 <= i < |pending|;
      var p := pending[i];
      WithoutOne(pending, i);
      pending := RemoveAt(pending, i);
      var after := s.(seen := s.seen + {p});
      match StatOf(d, p) {
        case StatFailed(error) => after := after.(errors := s.errors + [error]);
        case Stat(size, modified) =>
          if size == 0 {
            after := after.(skipped := s.skipped + 1);
          } else {
            after := after.(candidates := s.candidates + [Candidate(p, size, modified)]);
          }
      }
      GathersOne(d, done, p, s, after);
      s, done := after, done + [p];
      completions := completions - 1;
    }
  }

  /** `peak` is the largest number of futures in flight. */
  method StatCandidates(d: Disk, paths: seq<Path>, workers: nat) returns (s: Stats, ghost peak: nat)
    requires workers > 0
    ensures peak == Least(|paths|, workers * 8)
    ensures multiset(s.candidates) == multiset(Collect(Candidates(d), paths))
    ensures s.seen == (set p | p in paths)
    ensures multiset(s.errors) == multiset(Collect(StatErrors(d), paths))
    ensures s.skipped == |Collect(Placeholders(d), paths)|
  {
    var ordered := Sort(ByPath(), paths);
    var maxPending := workers * 8;
    s := Stats([], {}, [], 0);
    ghost var done: seq<Path> := [];
    var next, pending := FillPending(ordered, 0, [], maxPending);
    assert ordered[..next] == ordered[0..next];
    peak := |pending|;
    while pending != []
      invariant peak == Least(|ordered|, maxPending)
      invariant next <= |ordered| && |pending| <= maxPending && (pending == [] ==> next == |ordered|)
      invariant multiset(ordered[..next]) == multiset(pending) + multiset(done)
      invariant Gathers(d, done, s)
      decreases |ordered| - next + |pending|
    {
      var held, start := pending, next;
      held, s, done := GatherFinished(d, pending, s, done);
      next, pending := FillPending(ordered, start, held, maxPending);
      Refilled(ordered, start, next, held, done);
      peak := Highest(peak, ordered, next, pending, done);
    }
    assert ordered[..next] == ordered;
    SameLength(ordered, paths);
    GathersPermuted(d, paths, done, s);
  }

  // ---------- the cache ----------

  function Recorded(records: Cache, updates: seq<Update>): Cache {
    if updates == [] then records
    else Recorded(records, updates[..|updates| - 1])[updates[|updates| - 1].path := updates[|updates| - 1].record]
  }

  /** Rows of FileCache for one source; `written` lists every row ever written. */
  class FileCache {
    var records: Cache
    ghost var written: seq<Update>

    constructor ()
      ensures records == map[] && written == []
    {
      records, written := map[], [];
    }

    method CacheFiles(updates: seq<Update>)
      modifies this
      ensures records == Recorded(old(records), updates) && written == old(written) + updates
    {
      for i := 0 to |updates|
        invariant records == Recorded(old(records), updates[..i]) && written == old(written) + updates[..i]
      {
        assert updates[..i + 1][..i] == updates[..i];
        records := records[updates[i].path := updates[i].record];
        written := written + [updates[i]];
      }
      assert updates[..|updates|] == updates;
    }
  }

  method Flush(cache: FileCache, updates: seq<Update>, ghost flushed: seq<Update>, ghost records: Cache,
               ghost written: seq<Update>)
    returns (ghost all: seq<Update>)
    requires cache.written == written + flushed && cache.records == Recorded(records, flushed)
    modifies cache
    ensures all == flushed + updates
    ensures cache.written == written + all && cache.records == Recorded(records, all)
  {
    cache.CacheFiles(updates);
    all := flushed + updates;
    RecordedConcat(records, flushed, updates);
  }

  lemma {:induction false} RecordedConcat(records: Cache, a: seq<Update>, b: seq<Update>)
    ensures Recorded(records, a + b) == Recorded(Recorded(records, a), b)
  {
    if b == [] {
      assert a + b == a;
    } else {
      RecordedConcat(records, a, b[..|b| - 1]);
      assert (a + b)[..|a + b| - 1] == a + b[..|b| - 1];
    }
  }

  // ---------- reading new and changed files ----------

  function UpdatesAt(d: Disk, candidates: seq<Candidate>): nat -> Option<Update> {
    (k: nat) => if k < |candidates| then Fresh(d, candidates[k]) else None
  }

  function ErrorsAt(d: Disk, candidates: seq<Candidate>): nat -> Option<string> {
    (k: nat) => if k < |candidates| then ReadErrors(d)(candidates[k]) else None
  }

  /** The updates not yet written, and the counts so far. */
  datatype Work = Work(updates: seq<Update>, hashed: nat, errors: seq<string>)

  /** The work of these positions: each read file has one update, written before or
      to be written, and each failed one has an error. */
  ghost predicate Works(d: Disk, candidates: seq<Candidate>, done: seq<nat>, flushed: seq<Update>, w: Work) {
    && flushed + w.updates == Collect(UpdatesAt(d, candidates), done)
    && w.hashed == |flushed| + |w.updates|
    && w.errors == Collect(ErrorsAt(d, candidates), done)
  }

  function Worked(d: Disk, c: Candidate, w: Work): Work {
    match ContentOf(d, c.path)
    case ReadFailed(error) => w.(errors := w.errors + [error])
    case Content(sha, metadata) =>
      w.(updates := w.updates + [Update(c.path, Record(c.size, c.modified, sha, metadata))], hashed := w.hashed + 1)
  }

  lemma WorksOne(d: Disk, candidates: seq<Candidate>, done: seq<nat>, k: nat, flushed: seq<Update>, w: Work)
    requires Works(d, candidates, done, flushed, w) && k < |candidates|
    ensures Works(d, candidates, done + [k], flushed, Worked(d, candidates[k], w))
  {
    assert (done + [k])[..|done|] == done;
    assert UpdatesAt(d, candidates)(k) == Fresh(d, candidates[k]);
    assert ErrorsAt(d, candidates)(k) == ReadErrors(d)(candidates[k]);
  }

  /** The slots of finished positions are filled, and no other is touched. */
  ghost predicate Filled(d: Disk, candidates: seq<Candidate>, done: seq<nat>, before: seq<Option<ScanEntry>>,
                         now: seq<Option<ScanEntry>>)
  {
    && |now| == |before| == |candidates|
    && forall k :: 0 <= k < |now| ==> now[k] == if k in done then ReadEntry(d, candidates[k]) else before[k]
  }

  /** The slot of a finished position. */
  method Process(d: Disk, candidates: seq<Candidate>, entries: array<Option<ScanEntry>>, k: nat, w0: Work,
                 ghost done: seq<nat>, ghost before: seq<Option<ScanEntry>>)
    returns (w: Work)
    requires k < |candidates| && Filled(d, candidates, done, before, entries[..]) && before[k] == None
    modifies entries
    ensures w == Worked(d, candidates[k], w0)
    ensures Filled(d, candidates, done + [k], before, entries[..])
  {
    w := w0;
    match ContentOf(d, candidates[k].path)
    case ReadFailed(error) => w := w.(errors := w.errors + [error]);
    case Content(sha, metadata) =>
      var record := Record(candidates[k].size, candidates[k].modified, sha, metadata);
      entries[k] := Some(EntryOf(candidates[k], record));
      w := w.(updates := w.updates + [Update(candidates[k].path, record)], hashed := w.hashed + 1);
  }

  method ProcessFinished(d: Disk, candidates: seq<Candidate>, entries: array<Option<ScanEntry>>, held: seq<nat>,
                         w0: Work,
                         ghost done0: seq<nat>, ghost before: seq<Option<ScanEntry>>, ghost flushed: seq<Update>)
    returns (pending: seq<nat>, w: Work, ghost done: seq<nat>)
    requires held != [] && Works(d, candidates, done0, flushed, w0)
    requires Filled(d, candidates, done0, before, entries[..])
    requires forall k :: k in held ==> k < |candidates| && before[k] == None
    modifies entries
    ensures |pending| < |held| && multiset(pending) + multiset(done) == multiset(held) + multiset(done0)
    ensures Works(d, candidates, done, flushed, w)
    ensures Filled(d, candidates, done, before, entries[..])
  {
    pending, w, done := held, w0, done0;
    var completions :| 1 <= completions <= |held|;
    while completions > 0
      invariant 0 <= completions <= |pending| <= |held| && (completions == 0 ==> |pending| < |held|)
      invariant multiset(pending) + multiset(done) == multiset(held) + multiset(done0)
      invariant forall k :: k in pending ==> k < |candidates| && before[k] == None
      invariant Works(d, candidates, done, flushed, w)
      invariant Filled(d, candidates, done, before, entries[..])
    {
      var i :| 0 <= i < |pending|;
      var k := pending[i];
      assert k in pending;
      WithoutOne(pending, i);
      pending := RemoveAt(pending, i);
      WorksOne(d, candidates, done, k, flushed, w);
      w := Process(d, candidates, entries, k, w, done, before);
      done := done + [k];
      completions := completions - 1;
    }
  }

  /** Write the updates once there are enough of them. */
  method FlushFull(d: Disk, candidates: seq<Candidate>, cache: FileCache, w0: Work,
                   ghost done: seq<nat>, ghost flushed0: seq<Update>, ghost records: Cache, ghost written: seq<Update>)
    returns (w: Work, ghost flushed: seq<Update>)
    requires Works(d, candidates, done, flushed0, w0)
    requires cache.written == written + flushed0 && cache.records == Recorded(records, flushed0)
    modifies cache
    ensures Works(d, candidates, done, flushed, w)
    ensures cache.written == written + flushed && cache.records == Recorded(records, flushed)
  {
    w, flushed := w0, flushed0;
    if |w.updates| >= CACHE_WRITE_BATCH_SIZE {
      flushed := Flush(cache, w.updates, flushed, records, written);
      w := w.(updates := []);
      assert flushed + [] == flushed;
    }
  }

  /** The cache gains each update once: in batches as they fill up, and the rest at
      the end. */
  method ProcessUncached(d: Disk, candidates: seq<Candidate>, tasks: seq<nat>, entries: array<Option<ScanEntry>>,
                         cache: FileCache, workers: nat)
    returns (hashed: nat, errors: seq<string>, ghost added: seq<Update>, ghost peak: nat)
    requires workers > 0 && entries.Length == |candidates|
    requires forall k :: k in tasks ==> k < |candidates| && entries[k] == None
    modifies entries, cache
    ensures peak == Least(|tasks|, workers * 4)
    ensures Filled(d, candidates, tasks, old(entries[..]), entries[..])
    ensures hashed == |Collect(UpdatesAt(d, candidates), tasks)|
    ensures multiset(errors) == multiset(Collect(ErrorsAt(d, candidates), tasks))
    ensures cache.written == old(cache.written) + added && cache.records == Recorded(old(cache.records), added)
    ensures multiset(added) == multiset(Collect(UpdatesAt(d, candidates), tasks))
  {
    ghost var before, records, written := entries[..], cache.records, cache.written;
    var maxPending := workers * 4;
    var w := Work([], 0, []);
    ghost var done: seq<nat>, flushed: seq<Update> := [], [];
    var next, pending := FillPending(tasks, 0, [], maxPending);
    assert tasks[..next] == tasks[0..next];
    peak := |pending|;
    while pending != []
      invariant peak == Least(|tasks|, maxPending)
      invariant next <= |tasks| && |pending| <= maxPending && (pending == [] ==> next == |tasks|)
      invariant multiset(tasks[..next]) == multiset(pending) + multiset(done)
      invariant Works(d, candidates, done, flushed, w)
      invariant Filled(d, candidates, done, before, entries[..])
      invariant cache.written == written + flushed && cache.records == Recorded(records, flushed)
      decreases |tasks| - next + |pending|
    {
      var held, start := pending, next;
      PendingAreTasks(tasks, next, pending, done);
      held, w, done := ProcessFinished(d, candidates, entries, pending, w, done, before, flushed);
      w, flushed := FlushFull(d, candidates, cache, w, done, flushed, records, written);
      next, pending := FillPending(tasks, start, held, maxPending);
      Refilled(tasks, start, next, held, done);
      peak := Highest(peak, tasks, next, pending, done);
    }
    added := flushed + w.updates;
    if w.updates != [] {
      added := Flush(cache, w.updates, flushed, records, written);
    } else {
      assert added == flushed;
    }
    assert tasks[..next] == tasks;
    WorkDone(d, candidates, tasks, done, flushed, w);
    hashed, errors := w.hashed, w.errors;
  }

  lemma PendingAreTasks(tasks: seq<nat>, next: nat, pending: seq<nat>, done: seq<nat>)
    requires next <= |tasks| && multiset(tasks[..next]) == multiset(pending) + multiset(done)
    ensures forall k :: k in pending ==> k in tasks
  {
    forall k | k in pending ensures k in tasks {
      assert k in multiset(pending);
      assert k in multiset(tasks[..next]);
    }
  }

  lemma WorkDone(d: Disk, candidates: seq<Candidate>, tasks: seq<nat>, done: seq<nat>, flushed: seq<Update>, w: Work)
    requires multiset(tasks) == multiset(done) && Works(d, candidates, done, flushed, w)
    ensures multiset(flushed + w.updates) == multiset(Collect(UpdatesAt(d, candidates), tasks))
    ensures w.hashed == |Collect(UpdatesAt(d, candidates), tasks)|
    ensures multiset(w.errors) == multiset(Collect(ErrorsAt(d, candidates), tasks))
    ensures forall k :: k in tasks <==> k in done
  {
    CollectPermuted(UpdatesAt(d, candidates), done, tasks);
    CollectPermuted(ErrorsAt(d, candidates), done, tasks);
    SameLength(flushed + w.updates, Collect(UpdatesAt(d, candidates), tasks));
    AllDone(tasks, done);
  }

  // ---------- the scan ----------

  /** The slots known from the cache, and the positions left to read. */
  ghost predicate Looked(cache: Cache, order: seq<Candidate>, i: nat, entries: seq<Option<ScanEntry>>, cached: nat,
                         uncached: seq<nat>)
  {
    && i <= |order| == |entries|
    && (forall k :: 0 <= k < |entries| ==>
          entries[k] == if k < i && Hit(cache, order[k]) then Some(EntryOf(order[k], cache[order[k].path])) else None)
    && (forall k :: k in uncached <==> 0 <= k < i && !Hit(cache, order[k]))
    && cached == |Collect(Hits(cache), order[..i])|
    && |uncached| == |Collect(Misses(cache), order[..i])|
  }

  /** The work at the uncached positions is the work of the missed candidates. */
  ghost predicate Missed(d: Disk, cache: Cache, order: seq<Candidate>, i: nat, uncached: seq<nat>) {
    && i <= |order|
    && Collect(UpdatesAt(d, order), uncached) == Collect(Updates(d), Collect(Misses(cache), order[..i]))
    && Collect(ErrorsAt(d, order), uncached) == Collect(ReadErrors(d), Collect(Misses(cache), order[..i]))
  }

  lemma LookedOne(cache: Cache, order: seq<Candidate>, i: nat, entries: seq<Option<ScanEntry>>, cached: nat,
                  uncached: seq<nat>)
    requires Looked(cache, order, i, entries, cached, uncached) && i < |order|
    ensures Hit(cache, order[i]) ==>
              Looked(cache, order, i + 1, entries[i := Some(EntryOf(order[i], cache[order[i].path]))], cached + 1,
                  uncached)
    ensures !Hit(cache, order[i]) ==> Looked(cache, order, i + 1, entries, cached, uncached + [i])
  {
    assert order[..i + 1] == order[..i] + [order[i]];
    CollectConcat(Hits(cache), order[..i], [order[i]]);
    CollectConcat(Misses(cache), order[..i], [order[i]]);
    CollectOne(Hits(cache), order[i]);
    CollectOne(Misses(cache), order[i]);
  }

  lemma MissedOne(d: Disk, cache: Cache, order: seq<Candidate>, i: nat, uncached: seq<nat>)
    requires Missed(d, cache, order, i, uncached) && i < |order|
    ensures Hit(cache, order[i]) ==> Missed(d, cache, order, i + 1, uncached)
    ensures !Hit(cache, order[i]) ==> Missed(d, cache, order, i + 1, uncached + [i])
  {
    assert order[..i + 1] == order[..i] + [order[i]];
    CollectConcat(Misses(cache), order[..i], [order[i]]);
    CollectOne(Misses(cache), order[i]);
    var missed := Collect(Misses(cache), order[..i]);
    assert missed + [] == missed;
    if !Hit(cache, order[i]) {
      CollectConcat(Updates(d), missed, [order[i]]);
      CollectConcat(ReadErrors(d), missed, [order[i]]);
      CollectOne(Updates(d), order[i]);
      CollectOne(ReadErrors(d), order[i]);
      CollectConcat(UpdatesAt(d, order), uncached, [i]);
      CollectConcat(ErrorsAt(d, order), uncached, [i]);
      CollectOne(UpdatesAt(d, order), i);
      CollectOne(ErrorsAt(d, order), i);
    }
  }

  method LookUp(d: Disk, cache: Cache, order: seq<Candidate>, entries: array<Option<ScanEntry>>)
    returns (cached: nat, uncached: seq<nat>)
    requires entries.Length == |order| && forall k :: 0 <= k < |order| ==> entries[k] == None
    modifies entries
    ensures Looked(cache, order, |order|, entries[..], cached, uncached)
    ensures Missed(d, cache, order, |order|, uncached)
  {
    cached, uncached := 0, [];
    for i := 0 to |order|
      invariant Looked(cache, order, i, entries[..], cached, uncached)
      invariant Missed(d, cache, order, i, uncached)
    {
      LookedOne(cache, order, i, entries[..], cached, uncached);
      MissedOne(d, cache, order, i, uncached);
      if Hit(cache, order[i]) {
        ghost var before := entries[..];
        entries[i] := Some(EntryOf(order[i], cache[order[i].path]));
        assert entries[..] == before[i := entries[i]];
        cached := cached + 1;
      } else {
        uncached := uncached + [i];
      }
    }
  }

  method FastAdd(order: seq<Candidate>, uncached: seq<nat>, entries: array<Option<ScanEntry>>)
    requires entries.Length == |order| && forall k :: k in uncached ==> k < |order|
    modifies entries
    ensures forall k :: 0 <= k < |order| ==>
            entries[k] == if k in uncached then Some(PendingEntry(order[k])) else old(entries[k])
  {
    for i := 0 to |uncached|
      invariant forall k :: 0 <= k < |order| ==>
                  entries[k] == if k in uncached[..i] then Some(PendingEntry(order[k])) else old(entries[k])
    {
      assert uncached[..i + 1] == uncached[..i] + [uncached[i]] && uncached[i] in uncached;
      entries[uncached[i]] := Some(PendingEntry(order[uncached[i]]));
    }
    assert uncached[..|uncached|] == uncached;
  }

  function Present(): Option<ScanEntry> -> Option<ScanEntry> {
    (e: Option<ScanEntry>) => e
  }

  method Compact(entries: array<Option<ScanEntry>>) returns (present: seq<ScanEntry>)
    ensures present == Collect(Present(), entries[..])
  {
    present := [];
    for i := 0 to entries.Length
      invariant present == Collect(Present(), entries[..i])
    {
      assert entries[..i + 1][..i] == entries[..i];
      if entries[i].Some? { present := present + [entries[i].value]; }
    }
    assert entries[..entries.Length] == entries[..];
  }

  lemma {:induction false} CompactSlots(d: Disk, cache: Cache, fastAdd: bool, order: seq<Candidate>,
                                        entries: seq<Option<ScanEntry>>)
    requires |entries| == |order| && forall k :: 0 <= k < |order| ==> entries[k] == Slot(d, cache, fastAdd, order[k])
    ensures Collect(Present(), entries) == Collect(Slots(d, cache, fastAdd), order)
  {
    if order != [] {
      CompactSlots(d, cache, fastAdd, order[..|order| - 1], entries[..|order| - 1]);
    }
  }

  lemma MissesSnoc(cache: Cache, front: seq<Candidate>, last: Candidate)
    ensures Collect(Misses(cache), front + [last])
         == if Hit(cache, last) then Collect(Misses(cache), front) else Collect(Misses(cache), front) + [last]
  {
    CollectSnoc(Misses(cache), front, last);
  }

  lemma UpdatesSnoc(d: Disk, cache: Cache, front: seq<Candidate>, last: Candidate)
    ensures |Collect(Updates(d), Collect(Misses(cache), front + [last]))|
         == |Collect(Updates(d), Collect(Misses(cache), front))|
            + if !Hit(cache, last) && Fresh(d, last).Some? then 1 else 0
  {
    MissesSnoc(cache, front, last);
    CollectGrows(Updates(d), Collect(Misses(cache), front), last);
  }

  lemma SlotsSnoc(d: Disk, cache: Cache, fastAdd: bool, front: seq<Candidate>, last: Candidate)
    ensures |Collect(Slots(d, cache, fastAdd), front + [last])|
         == |Collect(Slots(d, cache, fastAdd), front)| + if Slot(d, cache, fastAdd, last).Some? then 1 else 0
  {
    CollectGrows(Slots(d, cache, fastAdd), front, last);
  }

  lemma HitsSnoc(cache: Cache, front: seq<Candidate>, last: Candidate)
    ensures |Collect(Hits(cache), front + [last])| == |Collect(Hits(cache), front)| + if Hit(cache, last) then 1 else 0
  {
    CollectGrows(Hits(cache), front, last);
  }

  /** Each entry is cached, newly read, or pending its hash. */
  lemma {:induction false} EntriesCounted(d: Disk, cache: Cache, fastAdd: bool, order: seq<Candidate>)
    ensures var missed := Collect(Misses(cache), order);
            |Collect(Slots(d, cache, fastAdd), order)|
            == |Collect(Hits(cache), order)| + if fastAdd then |missed| else |Collect(Updates(d), missed)|
  {
    if order != [] {
      var front, last := order[..|order| - 1], order[|order| - 1];
      EntriesCounted(d, cache, fastAdd, front);
      SlotsSnoc(d, cache, fastAdd, front, last);
      HitsSnoc(cache, front, last);
      MissesSnoc(cache, front, last);
      UpdatesSnoc(d, cache, front, last);
      LastApart(order);
    }
  }

  method Partition(found: seq<Path>) returns (media: seq<Path>, skipped: nat)
    ensures media == Collect(MediaOnly(), found) && skipped == |Collect(Others(), found)|
  {
    media, skipped := [], 0;
    for i := 0 to |found|
      invariant media == Collect(MediaOnly(), found[..i]) && skipped == |Collect(Others(), found[..i])|
    {
      assert found[..i + 1][..i] == found[..i];
      if found[i].media == NotMedia { skipped := skipped + 1; } else { media := media + [found[i]]; }
    }
    assert found[..|found|] == found;
  }

  function Known(records: Cache, forceRehash: bool): Cache {
    if forceRehash then map[] else records
  }

  /** What a scan adds to the cache: one update for each file it read. */
  function NewlyRead(d: Disk, known: Cache, fastAdd: bool, order: seq<Candidate>): seq<Update> {
    if fastAdd then [] else Collect(Updates(d), Collect(Misses(known), order))
  }

  function ReadFailures(d: Disk, known: Cache, fastAdd: bool, order: seq<Candidate>): seq<string> {
    if fastAdd then [] else Collect(ReadErrors(d), Collect(Misses(known), order))
  }

  function MediaFiles(root: Tree): seq<Path> {
    Collect(MediaOnly(), Files(root))
  }

  /** Fill the slots of the candidates, in their order. */
  method FillSlots(d: Disk, cache: FileCache, order: seq<Candidate>, known: Cache, fastAdd: bool, workers: nat)
    returns (slots: seq<ScanEntry>, cached: nat, hashed: nat, pendingHash: nat, errors: seq<string>,
        ghost added: seq<Update>)
    requires workers > 0
    modifies cache
    ensures slots == Collect(Slots(d, known, fastAdd), order)
    ensures cached + hashed + pendingHash == |slots|
    ensures cached == |Collect(Hits(known), order)| && hashed == |NewlyRead(d, known, fastAdd, order)|
    ensures multiset(errors) == multiset(ReadFailures(d, known, fastAdd, order))
    ensures multiset(added) == multiset(NewlyRead(d, known, fastAdd, order))
    ensures cache.written == old(cache.written) + added && cache.records == Recorded(old(cache.records), added)
  {
    var entries := new Option<ScanEntry>[|order|](_ => None);
    var uncached;
    cached, uncached := LookUp(d, known, order, entries);
    assert order[..|order|] == order;
    hashed, pendingHash, errors, added := 0, 0, [], [];
    EntriesCounted(d, known, fastAdd, order);
    if fastAdd {
      FastAdd(order, uncached, entries);
      pendingHash := |uncached|;
    } else {
      ghost var peak;
      hashed, errors, added, peak := ProcessUncached(d, order, uncached, entries, cache, workers);
    }
    CompactSlots(d, known, fastAdd, order, entries[..]);
    slots := Compact(entries);
  }

  // ---------- what a scan reports, written out ----------

  /** The cache has the candidate's record, at its size and time. */
  predicate Recognized(known: Cache, c: Candidate) {
    c.path in known && known[c.path].size == c.size && known[c.path].modified == c.modified
  }

  /** The entry of a candidate: as recorded, or without a hash, or as the file reads. */
  function EntryFor(d: Disk, known: Cache, fastAdd: bool, c: Candidate): Option<ScanEntry> {
    if Recognized(known, c)
    then Some(ScanEntry(c.path, c.size, c.modified, Some(known[c.path].sha), known[c.path].metadata))
    else if fastAdd then Some(ScanEntry(c.path, c.size, c.modified, None, Fallback(c.modified)))
    else match ContentOf(d, c.path)
      case ReadFailed(_) => None
      case Content(sha, metadata) => Some(ScanEntry(c.path, c.size, c.modified, Some(sha), metadata))
  }

  function EntriesFor(d: Disk, known: Cache, fastAdd: bool): Candidate -> Option<ScanEntry> {
    (c: Candidate) => EntryFor(d, known, fastAdd, c)
  }

  /** How many candidates have to be read, and how many of them can be. */
  function ToRead(known: Cache): Candidate -> bool {
    (c: Candidate) => !Recognized(known, c)
  }

  function Readable(d: Disk, known: Cache): Candidate -> bool {
    (c: Candidate) => !Recognized(known, c) && ContentOf(d, c.path).Content?
  }

  function Unreadable(d: Disk, known: Cache): Candidate -> bool {
    (c: Candidate) => !Recognized(known, c) && ContentOf(d, c.path).ReadFailed?
  }

  function Lost(d: Disk): Path -> bool {
    (p: Path) => p.media != NotMedia && StatOf(d, p).StatFailed?
  }

  /** Files that are no media, and empty placeholders of media. */
  function Ignored(d: Disk): Path -> bool {
    (p: Path) => p.media == NotMedia || (StatOf(d, p).Stat? && StatOf(d, p).size == 0)
  }

  /** Every counter says how many candidates, or files of the tree, it is about. */
  ghost predicate Counted(root: Tree, d: Disk, known: Cache, fastAdd: bool, order: seq<Candidate>, r: ScanResult) {
    && r.entries == Collect(EntriesFor(d, known, fastAdd), order)
    && r.cached == HowMany((c: Candidate) => Recognized(known, c), order)
    && r.hashed == (if fastAdd then 0 else HowMany(Readable(d, known), order))
    && r.pendingHash == (if fastAdd then HowMany(ToRead(known), order) else 0)
    && r.skipped == HowMany(Ignored(d), Files(root))
    && r.failed == |Errors(root)| + HowMany(Lost(d), Files(root))
                   + (if fastAdd then 0 else HowMany(Unreadable(d, known), order))
  }

  lemma ReadErrorsSnoc(d: Disk, known: Cache, front: seq<Candidate>, last: Candidate)
    ensures |Collect(ReadErrors(d), Collect(Misses(known), front + [last]))|
         == |Collect(ReadErrors(d), Collect(Misses(known), front))| + if Unreadable(d, known)(last) then 1 else 0
  {
    MissesSnoc(known, front, last);
    CollectGrows(ReadErrors(d), Collect(Misses(known), front), last);
  }

  lemma {:induction false} ReadsCounted(d: Disk, known: Cache, order: seq<Candidate>)
    ensures |Collect(Updates(d), Collect(Misses(known), order))| == HowMany(Readable(d, known), order)
  {
    if order != [] {
      var front, last := order[..|order| - 1], order[|order| - 1];
      ReadsCounted(d, known, front);
      LastApart(order);
      UpdatesSnoc(d, known, front, last);
      assert Readable(d, known)(last) <==> !Hit(known, last) && Fresh(d, last).Some?;
    }
  }

  lemma {:induction false} ReadErrorsCounted(d: Disk, known: Cache, order: seq<Candidate>)
    ensures |Collect(ReadErrors(d), Collect(Misses(known), order))| == HowMany(Unreadable(d, known), order)
  {
    if order != [] {
      var front, last := order[..|order| - 1], order[|order| - 1];
      ReadErrorsCounted(d, known, front);
      LastApart(order);
      ReadErrorsSnoc(d, known, front, last);
    }
  }

  lemma LastFile(files: seq<Path>)
    requires files != []
    ensures files == files[..|files| - 1] + [files[|files| - 1]]
  {
  }

  lemma MediaSnoc<U>(f: Path -> Option<U>, front: seq<Path>, last: Path)
    ensures |Collect(f, Collect(MediaOnly(), front + [last]))|
         == |Collect(f, Collect(MediaOnly(), front))| + if last.media != NotMedia && f(last).Some? then 1 else 0
  {
    CollectSnoc(MediaOnly(), front, last);
    if last.media != NotMedia { CollectGrows(f, Collect(MediaOnly(), front), last); }
  }

  lemma {:induction false} IgnoredCounted(d: Disk, files: seq<Path>)
    ensures |Collect(Others(), files)| + |Collect(Placeholders(d), Collect(MediaOnly(), files))|
         == HowMany(Ignored(d), files)
  {
    if files != [] {
      var front, last := files[..|files| - 1], files[|files| - 1];
      IgnoredCounted(d, front);
      LastFile(files);
      CollectGrows(Others(), front, last);
      MediaSnoc(Placeholders(d), front, last);
    }
  }

  lemma {:induction false} LostCounted(d: Disk, files: seq<Path>)
    ensures |Collect(StatErrors(d), Collect(MediaOnly(), files))| == HowMany(Lost(d), files)
  {
    if files != [] {
      var front, last := files[..|files| - 1], files[|files| - 1];
      LostCounted(d, front);
      LastFile(files);
      MediaSnoc(StatErrors(d), front, last);
    }
  }

  /** The counts are the same in whatever order the files are found. */
  lemma FilesCounted(d: Disk, files: seq<Path>, found: seq<Path>)
    requires multiset(found) == multiset(files)
    ensures |Collect(Others(), found)| + |Collect(Placeholders(d), Collect(MediaOnly(), found))|
         == HowMany(Ignored(d), files)
    ensures |Collect(StatErrors(d), Collect(MediaOnly(), found))| == HowMany(Lost(d), files)
  {
    IgnoredCounted(d, files);
    LostCounted(d, files);
    CollectPermuted(Others(), found, files);
    SameLength(Collect(Others(), found), Collect(Others(), files));
    CollectPermuted(MediaOnly(), found, files);
    var media, all := Collect(MediaOnly(), found), Collect(MediaOnly(), files);
    CollectPermuted(Placeholders(d), media, all);
    SameLength(Collect(Placeholders(d), media), Collect(Placeholders(d), all));
    CollectPermuted(StatErrors(d), media, all);
    SameLength(Collect(StatErrors(d), media), Collect(StatErrors(d), all));
  }

  lemma SameCounts(d: Disk, known: Cache, fastAdd: bool, order: seq<Candidate>)
    ensures Collect(Slots(d, known, fastAdd), order) == Collect(EntriesFor(d, known, fastAdd), order)
    ensures |Collect(Hits(known), order)| == HowMany((c: Candidate) => Recognized(known, c), order)
    ensures |Collect(Hits(known), order)| + HowMany(ToRead(known), order) == |order|
  {
    SameSlots(d, known, fastAdd, order);
    CollectCounts(Hits(known), (c: Candidate) => Recognized(known, c), order);
    OneOrTheOther(known, order);
  }

  lemma {:induction false} SameSlots(d: Disk, known: Cache, fastAdd: bool, order: seq<Candidate>)
    ensures Collect(Slots(d, known, fastAdd), order) == Collect(EntriesFor(d, known, fastAdd), order)
  {
    if order != [] {
      SameSlots(d, known, fastAdd, order[..|order| - 1]);
      assert Slot(d, known, fastAdd, order[|order| - 1]) == EntryFor(d, known, fastAdd, order[|order| - 1]);
    }
  }

  lemma {:induction false} OneOrTheOther(known: Cache, order: seq<Candidate>)
    ensures HowMany((c: Candidate) => Recognized(known, c), order) + HowMany(ToRead(known), order) == |order|
  {
    if order != [] { OneOrTheOther(known, order[..|order| - 1]); }
  }

  lemma {:induction false} FastSlots(d: Disk, known: Cache, order: seq<Candidate>)
    ensures |Collect(Slots(d, known, true), order)| == |order|
  {
    if order != [] { FastSlots(d, known, order[..|order| - 1]); }
  }

  /** The counters as the scan computes them are the counters written out. */
  lemma ScanCounted(root: Tree, d: Disk, known: Cache, fastAdd: bool, order: seq<Candidate>, found: seq<Path>,
                    r: ScanResult)
    requires multiset(found) == multiset(Files(root))
    requires r.entries == Collect(Slots(d, known, fastAdd), order)
    requires r.cached + r.hashed + r.pendingHash == |r.entries| && r.cached == |Collect(Hits(known), order)|
    requires r.hashed == |NewlyRead(d, known, fastAdd, order)|
    requires r.skipped == |Collect(Others(), found)| + |Collect(Placeholders(d), Collect(MediaOnly(), found))|
    requires r.failed == |Errors(root)| + |Collect(StatErrors(d), Collect(MediaOnly(), found))|
                         + |ReadFailures(d, known, fastAdd, order)|
    ensures Counted(root, d, known, fastAdd, order, r)
  {
    SameCounts(d, known, fastAdd, order);
    ReadsCounted(d, known, order);
    ReadErrorsCounted(d, known, order);
    FilesCounted(d, Files(root), found);
    if fastAdd { FastSlots(d, known, order); } else { EntriesCounted(d, known, false, order); }
  }

  method Scan(root: Tree, d: Disk, cache: FileCache, forceRehash: bool, fastAdd: bool, workers: nat)
    returns (result: ScanResult, ghost order: seq<Candidate>, ghost added: seq<Update>)
    requires 1 <= workers <= 256
    modifies cache
    ensures multiset(order) == multiset(Collect(Candidates(d), MediaFiles(root))) && SortedBy(ByCandidate(), order)
    ensures var known := Known(old(cache.records), forceRehash);
            && result.entries == Collect(Slots(d, known, fastAdd), order)
            && multiset(result.errors) == multiset(Errors(root)) + multiset(Collect(StatErrors(d), MediaFiles(root)))
                                          + multiset(ReadFailures(d, known, fastAdd, order))
            && multiset(added) == multiset(NewlyRead(d, known, fastAdd, order))
    ensures cache.written == old(cache.written) + added && cache.records == Recorded(old(cache.records), added)
    ensures Counted(root, d, Known(old(cache.records), forceRehash), fastAdd, order, result)
    ensures result.cached + result.hashed + result.pendingHash == |result.entries|
    ensures result.failed == |result.errors| && (result.completeRead <==> Errors(root) == [])
    ensures !fastAdd && Sound(Known(old(cache.records), forceRehash), d) && DistinctBy(ByPath(), MediaFiles(root)) ==>
              result.entries == SequentialScan(root, d)
    ensures result.scanned == |MediaFiles(root)| && result.seen == (set p | p in MediaFiles(root))
  {
    var found, walkErrors := Walk(root);
    SameLength(walkErrors, Errors(root));
    var media, skipped := Partition(found);
    CollectPermuted(MediaOnly(), found, Files(root));
    SameLength(media, MediaFiles(root));
    AllDone(media, MediaFiles(root));
    var s, peak := StatCandidates(d, media, workers);
    CollectPermuted(Candidates(d), media, MediaFiles(root));
    CollectPermuted(StatErrors(d), media, MediaFiles(root));
    var sorted := Sort(ByCandidate(), s.candidates);
    SortSorts(ByCandidate(), s.candidates);
    order := sorted;
    var slots, cached, hashed, pendingHash, readErrors;
    slots, cached, hashed, pendingHash, readErrors, added :=
      FillSlots(d, cache, sorted, Known(cache.records, forceRehash), fastAdd, workers);
    if !fastAdd && Sound(Known(old(cache.records), forceRehash), d) && DistinctBy(ByPath(), MediaFiles(root)) {
      ScanIsSequential(root, d, Known(old(cache.records), forceRehash), order);
    }
    var errors := walkErrors + s.errors + readErrors;
    result := ScanResult(slots, s.seen, |media|, cached, hashed, skipped + s.skipped, |errors|, pendingHash,
                         walkErrors == [], errors);
    SameLength(s.errors, Collect(StatErrors(d), media));
    SameLength(readErrors, ReadFailures(d, Known(old(cache.records), forceRehash), fastAdd, order));
    ScanCounted(root, d, Known(old(cache.records), forceRehash), fastAdd, order, found, result);
  }

  // ---------- what the pools do not change ----------

  /** The simple form: read the media files one by one, in path order. */
  function ReadFile(d: Disk): Path -> Option<ScanEntry> {
    (p: Path) => match StatOf(d, p)
      case StatFailed(_) => None
      case Stat(size, modified) =>
        if size == 0 then None
        else match ContentOf(d, p)
          case ReadFailed(_) => None
          case Content(sha, metadata) => Some(ScanEntry(p, size, modified, Some(sha), metadata))
  }

  function SequentialScan(root: Tree, d: Disk): seq<ScanEntry> {
    Collect(ReadFile(d), Sort(ByPath(), MediaFiles(root)))
  }

  /** A record that would be used is what reading the file gives now. */
  ghost predicate Sound(cache: Cache, d: Disk) {
    forall p, size, modified :: Hit(cache, Candidate(p, size, modified)) && StatOf(d, p) == Stat(size, modified) ==>
      ContentOf(d, p) == Content(cache[p].sha, cache[p].metadata)
  }

  lemma {:induction false} CandidatesAreStats(d: Disk, files: seq<Path>)
    ensures forall c :: c in Collect(Candidates(d), files) ==>
            c.path in files && StatOf(d, c.path) == Stat(c.size, c.modified) && c.size > 0
  {
    if files != [] {
      CandidatesAreStats(d, files[..|files| - 1]);
      assert files == files[..|files| - 1] + [files[|files| - 1]];
    }
  }

  lemma {:induction false} SoundSlots(d: Disk, cache: Cache, order: seq<Candidate>)
    requires Sound(cache, d) && forall c :: c in order ==> StatOf(d, c.path) == Stat(c.size, c.modified)
    ensures Collect(Slots(d, cache, false), order) == Collect(Slots(d, map[], false), order)
  {
    if order != [] {
      var front, last := order[..|order| - 1], order[|order| - 1];
      assert order == front + [last];
      assert last in order;
      SoundSlots(d, cache, front);
      assert last == Candidate(last.path, last.size, last.modified);
    }
  }

  lemma {:induction false} SlotsReadFiles(d: Disk, files: seq<Path>)
    ensures Collect(Slots(d, map[], false), Collect(Candidates(d), files)) == Collect(ReadFile(d), files)
  {
    if files != [] {
      var front, last := files[..|files| - 1], files[|files| - 1];
      SlotsReadFiles(d, front);
      var cs := Collect(Candidates(d), front);
      var c := Candidates(d)(last);
      if c.Some? {
        assert Collect(Candidates(d), files) == cs + [c.value];
        assert (cs + [c.value])[..|cs|] == cs;
      } else {
        assert Collect(Candidates(d), files) == cs;
      }
    }
  }

  lemma {:induction false} CandidatesSorted(d: Disk, files: seq<Path>)
    requires SortedBy(ByPath(), files)
    ensures SortedBy(ByCandidate(), Collect(Candidates(d), files))
  {
    if files != [] {
      var front, last := files[..|files| - 1], files[|files| - 1];
      CandidatesSorted(d, front);
      CandidatesAreStats(d, front);
      forall c | c in Collect(Candidates(d), front) ensures c.path.rank <= last.rank {
        var i :| 0 <= i < |front| && front[i] == c.path;
        assert ByPath()(files[i]) <= ByPath()(files[|files| - 1]);
      }
    }
  }

  lemma {:induction false} CandidatesDistinct(d: Disk, files: seq<Path>)
    requires DistinctBy(ByPath(), files)
    ensures DistinctBy(ByCandidate(), Collect(Candidates(d), files))
  {
    if files != [] {
      var front, last := files[..|files| - 1], files[|files| - 1];
      CandidatesDistinct(d, front);
      CandidatesAreStats(d, front);
      forall c | c in Collect(Candidates(d), front) ensures c.path.rank != last.rank {
        var i :| 0 <= i < |front| && front[i] == c.path;
        assert ByPath()(files[i]) != ByPath()(files[|files| - 1]);
      }
    }
  }

  /** With distinct casefolded paths, every completion order gives the candidates in
      the one path order. */
  lemma OrderIsUnique(root: Tree, d: Disk, order: seq<Candidate>)
    requires DistinctBy(ByPath(), MediaFiles(root))
    requires multiset(order) == multiset(Collect(Candidates(d), MediaFiles(root))) && SortedBy(ByCandidate(), order)
    ensures order == Collect(Candidates(d), Sort(ByPath(), MediaFiles(root)))
  {
    var files := Sort(ByPath(), MediaFiles(root));
    SortSorts(ByPath(), MediaFiles(root));
    DistinctAnyOrder(ByPath(), MediaFiles(root), files);
    CandidatesSorted(d, files);
    CandidatesDistinct(d, files);
    CollectPermuted(Candidates(d), files, MediaFiles(root));
    DistinctPermuted(ByCandidate(), Collect(Candidates(d), files), Collect(Candidates(d), files));
    SortedUnique(ByCandidate(), Collect(Candidates(d), files), order);
  }

  /** A full scan gives the sequential uncached scan, for every completion order and
      every sound cache. */
  lemma ScanIsSequential(root: Tree, d: Disk, known: Cache, order: seq<Candidate>)
    requires DistinctBy(ByPath(), MediaFiles(root)) && Sound(known, d)
    requires multiset(order) == multiset(Collect(Candidates(d), MediaFiles(root))) && SortedBy(ByCandidate(), order)
    ensures Collect(Slots(d, known, false), order) == SequentialScan(root, d)
  {
    var files := Sort(ByPath(), MediaFiles(root));
    OrderIsUnique(root, d, order);
    CandidatesAreStats(d, files);
    SoundSlots(d, known, order);
    SlotsReadFiles(d, files);
  }

  /** What a scan writes keeps the cache sound. */
  lemma {:induction false} CacheStaysSound(d: Disk, records: Cache, added: seq<Update>)
    requires Sound(records, d)
    requires forall u :: u in added ==> ContentOf(d, u.path) == Content(u.record.sha, u.record.metadata)
    ensures Sound(Recorded(records, added), d)
  {
    if added != [] {
      var front, last := added[..|added| - 1], added[|added| - 1];
      assert added == front + [last];
      forall u | u in front
        ensures ContentOf(d, u.path) == Content(u.record.sha, u.record.metadata)
      {
        assert u in added;
      }
      CacheStaysSound(d, records, front);
      assert last in added;
      var before, after := Recorded(records, front), Recorded(records, added);
      forall p, size, modified | Hit(after, Candidate(p, size, modified)) && StatOf(d, p) == Stat(size, modified)
        ensures ContentOf(d, p) == Content(after[p].sha, after[p].metadata)
      {
        if p != last.path { assert Hit(before, Candidate(p, size, modified)); }
      }
    }
  }

  /** The order of a scan is fixed if and only if no two of its candidates fold alike:
      any order that is sorted by folded path is what sorting leaves when the
      candidates arrive in it. */
  lemma OrderIsFixedExactly(root: Tree, d: Disk)
    ensures var cs := Collect(Candidates(d), MediaFiles(root));
            && (forall o :: SortOf(ByCandidate(), o, cs) ==> Sort(ByCandidate(), o) == o)
            && ((forall a, b :: SortOf(ByCandidate(), a, cs) && SortOf(ByCandidate(), b, cs) ==> a == b) <==>
                (forall x, y :: x in cs && y in cs && x.path.rank == y.path.rank ==> x == y))
  {
    var cs := Collect(Candidates(d), MediaFiles(root));
    forall o | SortOf(ByCandidate(), o, cs) ensures Sort(ByCandidate(), o) == o {
      SortedStays(ByCandidate(), o);
    }
    OneOrderExactly(ByCandidate(), cs);
    TiesAreRanks(cs);
  }

  lemma TiesAreRanks(cs: seq<Candidate>)
    ensures NoTies(ByCandidate(), cs) <==>
            forall x, y :: x in cs && y in cs && x.path.rank == y.path.rank ==> x == y
  {
    if NoTies(ByCandidate(), cs) {
      forall x, y | x in cs && y in cs && x.path.rank == y.path.rank ensures x == y {
        assert ByCandidate()(x) == ByCandidate()(y);
      }
    }
  }
}
