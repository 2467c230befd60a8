/** The control plane of manifest imports: creating an import, refreshing its upload,
    and completing the upload, with requests and workers interleaved. */
module ImportControl {
  import opened Options
  import opened Outbox

  type ImportId = nat

  /** A row of ManifestImport.  `active` is the marker that at most one row of an
      account and source may carry. */
  datatype ImportRow = ImportRow(
    id: ImportId, account: nat, source: nat, snapshot: nat, key: string, hash: string,
    active: bool, status: ImportStatus, expires: nat)

  datatype Refusal =
    | KeyReused | SourceUnavailable | ImportActive | ImportConflict | UnknownImport | NotAwaitingUpload

  /** The request of a create call. */
  datatype Create = Create(account: nat, source: nat, snapshot: nat, key: string, hash: string, now: nat, ttl: nat)

  predicate Finished(status: ImportStatus) {
    status in {Succeeded, CompletedWithErrors, FailedPermanent, Cancelled, Expired}
  }

  // ---------- reading ----------

  function ByKey(rows: seq<ImportRow>, account: nat, key: string): (i: Option<nat>)
    ensures i.Some? ==> i.value < |rows| && rows[i.value].account == account && rows[i.value].key == key
    ensures i.None? ==> forall r :: r in rows ==> !(r.account == account && r.key == key)
  {
    if rows == [] then None
    else if rows[|rows| - 1].account == account && rows[|rows| - 1].key == key then Some(|rows| - 1)
    else ByKey(rows[..|rows| - 1], account, key)
  }

  function ActiveAt(rows: seq<ImportRow>, account: nat, source: nat): (i: Option<nat>)
    ensures i.Some? ==> i.value < |rows| && rows[i.value].active
                        && rows[i.value].account == account && rows[i.value].source == source
    ensures i.None? ==> forall r :: r in rows ==> !(r.active && r.account == account && r.source == source)
  {
    if rows == [] then None
    else
      var last := rows[|rows| - 1];
      if last.active && last.account == account && last.source == source then Some(|rows| - 1)
      else ActiveAt(rows[..|rows| - 1], account, source)
  }

  function ById(rows: seq<ImportRow>, account: nat, source: nat, id: ImportId): (i: Option<nat>)
    ensures i.Some? ==> i.value < |rows| && rows[i.value].id == id
  {
    if rows == [] then None
    else
      var last := rows[|rows| - 1];
      if last.id == id && last.account == account && last.source == source then Some(|rows| - 1)
      else ById(rows[..|rows| - 1], account, source, id)
  }

  /** Inserting a row that repeats a unique key fails. */
  predicate Conflicts(rows: seq<ImportRow>, row: ImportRow) {
    exists r :: r in rows && r.account == row.account
      && (r.key == row.key || (r.source == row.source && (r.snapshot == row.snapshot || (r.active && row.active))))
  }

  // ---------- transactions ----------

  /** What a create does when the key was not seen: an expired upload gives way, and
      a new row is inserted, or nothing happens at all. */
  function Inserted(rows: seq<ImportRow>, c: Create, id: ImportId, usable: bool): Result<seq<ImportRow>, Refusal> {
    if !usable then Failure(SourceUnavailable)
    else
      var active := ActiveAt(rows, c.account, c.source);
      if active.Some? && !(rows[active.value].status == AwaitingUpload && rows[active.value].expires <= c.now)
      then Failure(ImportActive)
      else
        var freed := if active.None? then rows
                     else rows[active.value := rows[active.value].(status := Expired, active := false)];
        var row := ImportRow(id, c.account, c.source, c.snapshot, c.key, c.hash, true, AwaitingUpload, c.now + c.ttl);
        if Conflicts(freed, row) then Failure(ImportConflict) else Success(freed + [row])
  }

  /** The read of an existing key may be older than the rest of the transaction:
      `seen` is what it found. */
  function Created(rows: seq<ImportRow>, c: Create, seen: Option<ImportRow>, id: ImportId,
                   usable: bool): Result<(seq<ImportRow>, ImportId, bool), Refusal>
  {
    if seen.Some? then
      if seen.value.hash != c.hash then Failure(KeyReused)
      else
        var i := ByKey(rows, c.account, c.key);
        if i.Some? && seen.value.status == AwaitingUpload
        then Success((rows[i.value := rows[i.value].(expires := c.now + c.ttl)], seen.value.id, true))
        else Success((rows, seen.value.id, true))
    else
      var inserted := Inserted(rows, c, id, usable);
      if inserted.Failure? then Failure(inserted.error) else Success((inserted.value, id, false))
  }

  function Refreshed(rows: seq<ImportRow>, account: nat, source: nat, id: ImportId,
                     expires: nat): Result<seq<ImportRow>, Refusal>
  {
    var i := ById(rows, account, source, id);
    if i.None? then Failure(UnknownImport)
    else if rows[i.value].status != AwaitingUpload then Failure(NotAwaitingUpload)
    else Success(rows[i.value := rows[i.value].(expires := expires)])
  }

  /** The second transaction of a completion: queue the import if it still waits. */
  function QueuedOnce(rows: seq<ImportRow>, account: nat, source: nat,
                      id: ImportId): Result<(seq<ImportRow>, bool), Refusal>
  {
    var i := ById(rows, account, source, id);
    if i.None? then Failure(UnknownImport)
    else if rows[i.value].status != AwaitingUpload then Success((rows, false))
    else Success((rows[i.value := rows[i.value].(status := Queued)], true))
  }

  // ---------- the class ----------

  /** The transactions as the service makes them, on the rows in place. */
  class ManifestImports {
    var rows: seq<ImportRow>

    constructor ()
      ensures rows == []
    {
      rows := [];
    }

    method FindKey(account: nat, key: string) returns (i: Option<nat>)
      ensures i == ByKey(rows, account, key)
    {
      var k := |rows|;
      assert rows[..k] == rows;
      while k > 0
        invariant 0 <= k <= |rows| && ByKey(rows, account, key) == ByKey(rows[..k], account, key)
      {
        k := k - 1;
        if rows[k].account == account && rows[k].key == key { return Some(k); }
        assert rows[..k + 1][..k] == rows[..k];
      }
      return None;
    }

    method FindActive(account: nat, source: nat) returns (i: Option<nat>)
      ensures i == ActiveAt(rows, account, source)
    {
      var k := |rows|;
      assert rows[..k] == rows;
      while k > 0
        invariant 0 <= k <= |rows| && ActiveAt(rows, account, source) == ActiveAt(rows[..k], account, source)
      {
        k := k - 1;
        if rows[k].active && rows[k].account == account && rows[k].source == source { return Some(k); }
        assert rows[..k + 1][..k] == rows[..k];
      }
      return None;
    }

    method FindImport(account: nat, source: nat, id: ImportId) returns (i: Option<nat>)
      ensures i == ById(rows, account, source, id)
    {
      var k := |rows|;
      assert rows[..k] == rows;
      while k > 0
        invariant 0 <= k <= |rows| && ById(rows, account, source, id) == ById(rows[..k], account, source, id)
      {
        k := k - 1;
        if rows[k].id == id && rows[k].account == account && rows[k].source == source { return Some(k); }
        assert rows[..k + 1][..k] == rows[..k];
      }
      return None;
    }

    /** Insert, or roll back to `before` when a unique key is repeated. */
    method Insert(row: ImportRow, before: seq<ImportRow>) returns (ok: bool)
      modifies this
      ensures ok <==> !Conflicts(old(rows), row)
      ensures rows == if ok then old(rows) + [row] else before
    {
      for k := 0 to |rows|
        invariant rows == old(rows)
        invariant forall j :: 0 <= j < k ==> !Conflicts([rows[j]], row)
      {
        var r := rows[k];
        var sameSource := r.source == row.source && (r.snapshot == row.snapshot || (r.active && row.active));
        if r.account == row.account && (r.key == row.key || sameSource) {
          assert Conflicts(rows, row);
          rows := before;
          return false;
        }
      }
      forall r | r in rows ensures !Conflicts([r], row) {}
      assert !Conflicts(rows, row) by {
        forall r | r in rows ensures r in [r] && !Conflicts([r], row) {}
      }
      rows := rows + [row];
      return true;
    }

    method CreateImport(c: Create, seen: Option<ImportRow>, id: ImportId, usable: bool)
      returns (r: Result<(ImportId, bool), Refusal>)
      modifies this
      ensures match Created(old(rows), c, seen, id, usable)
              case Success(done) => rows == done.0 && r == Success((done.1, done.2))
              case Failure(error) => rows == old(rows) && r == Failure(error)
    {
      if seen.Some? {
        if seen.value.hash != c.hash { return Failure(KeyReused); }
        var i := FindKey(c.account, c.key);
        if i.Some? && seen.value.status == AwaitingUpload {
          rows := rows[i.value := rows[i.value].(expires := c.now + c.ttl)];
        }
        return Success((seen.value.id, true));
      }
      if !usable { return Failure(SourceUnavailable); }
      var before := rows;
      var active := FindActive(c.account, c.source);
      if active.Some? {
        var held := rows[active.value];
        if held.status != AwaitingUpload || held.expires > c.now { return Failure(ImportActive); }
        rows := rows[active.value := held.(status := Expired, active := false)];
      }
      var row := ImportRow(id, c.account, c.source, c.snapshot, c.key, c.hash, true, AwaitingUpload, c.now + c.ttl);
      var ok := Insert(row, before);
      return if ok then Success((id, false)) else Failure(ImportConflict);
    }

    method RefreshUpload(account: nat, source: nat, id: ImportId, expires: nat) returns (error: Option<Refusal>)
      modifies this
      ensures match Refreshed(old(rows), account, source, id, expires)
              case Success(after) => rows == after && error == None
              case Failure(e) => rows == old(rows) && error == Some(e)
    {
      var i := FindImport(account, source, id);
      if i.None? { return Some(UnknownImport); }
      if rows[i.value].status != AwaitingUpload { return Some(NotAwaitingUpload); }
      rows := rows[i.value := rows[i.value].(expires := expires)];
      return None;
    }

    method QueueUpload(account: nat, source: nat, id: ImportId) returns (queued: Option<bool>)
      modifies this
      ensures match QueuedOnce(old(rows), account, source, id)
              case Success(done) => rows == done.0 && queued == Some(done.1)
              case Failure(_) => rows == old(rows) && queued == None
    {
      var i := FindImport(account, source, id);
      if i.None? { return None; }
      if rows[i.value].status != AwaitingUpload { return Some(false); }
      rows := rows[i.value := rows[i.value].(status := Queued)];
      return Some(true);
    }
  }

  // ---------- requests and workers, interleaved ----------

  /** Where a request is: a create that has read the key, a completion that has seen
      an import awaiting its upload, or one about to dispatch. */
  datatype Call =
    | Creating(request: Create, seen: Option<ImportRow>)
    | Checking(account: nat, source: nat, id: ImportId)
    | Dispatching(id: ImportId)

  /** An answered create. */
  datatype Answer = Answer(account: nat, key: string, hash: string, id: ImportId)

  datatype World = World(
    rows: seq<ImportRow>, calls: map<nat, Call>, nextCall: nat, nextId: ImportId,
    answers: seq<Answer>, queuings: map<ImportId, nat>, dispatches: map<ImportId, nat>)

  datatype Event =
    | ReadKey(request: Create)
    | CommitCreate(call: nat, usable: bool)
    | Refresh(account: nat, source: nat, id: ImportId, expires: nat)
    | ReadStatus(account: nat, source: nat, id: ImportId)
    | CommitComplete(call: nat, objectMatches: bool)
    | Dispatch(call: nat)
    | Abandon(call: nat)                      // the request dies where it is
    | Work(i: nat, status: ImportStatus)      // a worker moves a submitted import

  function Count(m: map<ImportId, nat>, id: ImportId): nat {
    if id in m then m[id] else 0
  }

  function Called(w: World, c: Call): World {
    w.(calls := w.calls[w.nextCall := c], nextCall := w.nextCall + 1)
  }

  function StepReadKey(w: World, c: Create): World {
    var i := ByKey(w.rows, c.account, c.key);
    Called(w, Creating(c, if i.Some? then Some(w.rows[i.value]) else None))
  }

  /** What a create leaves once it is committed. */
  function Committed(w: World, c: Create, seen: Option<ImportRow>, id: ImportId, usable: bool): World {
    match Created(w.rows, c, seen, id, usable)
    case Failure(_) => w
    case Success(r) => w.(rows := r.0, answers := w.answers + [Answer(c.account, c.key, c.hash, r.1)])
  }

  function StepCommitCreate(w: World, call: nat, usable: bool): World {
    if call !in w.calls || !w.calls[call].Creating? then w
    else
      Committed(w.(calls := w.calls - {call}, nextId := w.nextId + 1),
                w.calls[call].request, w.calls[call].seen, w.nextId, usable)
  }

  function StepRefresh(w: World, account: nat, source: nat, id: ImportId, expires: nat): World {
    match Refreshed(w.rows, account, source, id, expires)
    case Failure(_) => w
    case Success(rows) => w.(rows := rows)
  }

  function StepReadStatus(w: World, account: nat, source: nat, id: ImportId): World {
    var i := ById(w.rows, account, source, id);
    if i.None? || w.rows[i.value].status != AwaitingUpload then w else Called(w, Checking(account, source, id))
  }

  function StepCommitComplete(w: World, call: nat, objectMatches: bool): World {
    if call !in w.calls || !w.calls[call].Checking? then w
    else
      var c := w.calls[call];
      var left := w.(calls := w.calls - {call});
      if !objectMatches then left
      else
        match QueuedOnce(w.rows, c.account, c.source, c.id)
        case Failure(_) => left
        case Success(r) =>
          if !r.1 then left
          else left.(rows := r.0, calls := w.calls[call := Dispatching(c.id)],
                     queuings := w.queuings[c.id := Count(w.queuings, c.id) + 1])
  }

  function StepDispatch(w: World, call: nat): World {
    if call !in w.calls || !w.calls[call].Dispatching? then w
    else
      var id := w.calls[call].id;
      w.(calls := w.calls - {call}, dispatches := w.dispatches[id := Count(w.dispatches, id) + 1])
  }

  /** A finished import gives up its marker. */
  function StepWork(w: World, i: nat, status: ImportStatus): World {
    if i >= |w.rows| || w.rows[i].status !in {Queued, Running, RetryDue} || status in {AwaitingUpload, Queued} then w
    else w.(rows := w.rows[i := w.rows[i].(status := status, active := !Finished(status))])
  }

  function Step(w: World, e: Event): World {
    match e
    case ReadKey(request) => StepReadKey(w, request)
    case CommitCreate(call, usable) => StepCommitCreate(w, call, usable)
    case Refresh(account, source, id, expires) => StepRefresh(w, account, source, id, expires)
    case ReadStatus(account, source, id) => StepReadStatus(w, account, source, id)
    case CommitComplete(call, objectMatches) => StepCommitComplete(w, call, objectMatches)
    case Dispatch(call) => StepDispatch(w, call)
    case Abandon(call) => w.(calls := w.calls - {call})
    case Work(i, status) => StepWork(w, i, status)
  }

  const Begin := World([], map[], 0, 0, [], map[], map[])

  function After(events: seq<Event>): World {
    if events == [] then Begin else Step(After(events[..|events| - 1]), events[|events| - 1])
  }
}
