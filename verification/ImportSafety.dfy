/** What every interleaving of creates, refreshes, completions and workers keeps. */
module ImportSafety {
  import opened Options
  import opened Outbox
  import opened ImportControl

  // ---------- the invariant ----------

  ghost predicate UniqueAt(a: ImportRow, b: ImportRow) {
    a.id != b.id
    && (a.account == b.account ==>
          a.key != b.key && (a.source == b.source ==> a.snapshot != b.snapshot && !(a.active && b.active)))
  }

  ghost predicate RowsOk(rows: seq<ImportRow>, nextId: ImportId) {
    && (forall i, j :: 0 <= i < j < |rows| ==> UniqueAt(rows[i], rows[j]))
    && (forall i :: 0 <= i < |rows| ==> rows[i].id < nextId && (rows[i].active <==> !Finished(rows[i].status)))
  }

  /** The row a create read, or an answer named, is still there under its key. */
  ghost predicate Stands(rows: seq<ImportRow>, account: nat, key: string, hash: string, id: ImportId) {
    exists i :: 0 <= i < |rows| && rows[i].account == account && rows[i].key == key && rows[i].hash == hash
        && rows[i].id == id
  }

  ghost predicate CallOk(w: World, c: Call) {
    match c
    case Creating(request, seen) =>
      seen.Some? ==> seen.value.account == request.account && seen.value.key == request.key
                     && Stands(w.rows, request.account, request.key, seen.value.hash, seen.value.id)
    case Checking(_, _, _) => true
    case Dispatching(id) => Count(w.queuings, id) == 1 && Count(w.dispatches, id) == 0
  }

  ghost predicate CallsOk(w: World) {
    && (forall k :: k in w.calls ==> k < w.nextCall && CallOk(w, w.calls[k]))
    && (forall k, l :: k in w.calls && l in w.calls && k != l && w.calls[k].Dispatching? && w.calls[l].Dispatching? ==>
          w.calls[k].id != w.calls[l].id)
  }

  ghost predicate AnswersOk(w: World) {
    forall a :: a in w.answers ==> Stands(w.rows, a.account, a.key, a.hash, a.id)
  }

  ghost predicate CountsOk(w: World) {
    && (forall id: ImportId :: Count(w.dispatches, id) <= Count(w.queuings, id) <= 1)
    && (forall i :: 0 <= i < |w.rows| && w.rows[i].status == AwaitingUpload ==> Count(w.queuings, w.rows[i].id) == 0)
    && (forall id :: id in w.queuings ==> id < w.nextId)
  }

  ghost predicate Inv(w: World) {
    RowsOk(w.rows, w.nextId) && CallsOk(w) && AnswersOk(w) && CountsOk(w)
  }

  // ---------- changing one row ----------

  /** The row keeps its identity, and its status goes no way back to waiting. */
  ghost predicate Follows(a: ImportRow, b: ImportRow) {
    && b == a.(active := b.active, status := b.status, expires := b.expires)
    && (b.active ==> a.active) && (b.active <==> !Finished(b.status))
    && (b.status == AwaitingUpload ==> a.status == AwaitingUpload)
  }

  lemma ChangedRows(rows: seq<ImportRow>, nextId: ImportId, i: nat, row: ImportRow)
    requires RowsOk(rows, nextId) && i < |rows| && Follows(rows[i], row)
    ensures RowsOk(rows[i := row], nextId)
    ensures forall account, key, hash, id :: Stands(rows, account, key, hash, id) ==>
            Stands(rows[i := row], account, key, hash, id)
  {
    var after := rows[i := row];
    forall j, k | 0 <= j < k < |after| ensures UniqueAt(after[j], after[k]) {
      assert UniqueAt(rows[j], rows[k]);
    }
    forall account, key, hash, id | Stands(rows, account, key, hash, id) ensures Stands(after, account, key, hash, id) {
      var j :| 0 <= j < |rows| && rows[j].account == account && rows[j].key == key && rows[j].hash == hash
          && rows[j].id == id;
      assert after[j].key == key;
    }
  }

  lemma ChangedKeeps(w: World, i: nat, row: ImportRow)
    requires Inv(w) && i < |w.rows| && Follows(w.rows[i], row)
    ensures Inv(w.(rows := w.rows[i := row]))
  {
    ChangedRows(w.rows, w.nextId, i, row);
    var after := w.(rows := w.rows[i := row]);
    forall k | k in after.calls ensures CallOk(after, after.calls[k]) { assert CallOk(w, w.calls[k]); }
  }

  lemma FewerCallsKeep(w: World, call: nat)
    requires Inv(w)
    ensures Inv(w.(calls := w.calls - {call}))
  {
    var after := w.(calls := w.calls - {call});
    forall k | k in after.calls ensures CallOk(after, after.calls[k]) { assert CallOk(w, w.calls[k]); }
  }

  // ---------- creating ----------

  lemma FreshRow(rows: seq<ImportRow>, nextId: ImportId, row: ImportRow)
    requires RowsOk(rows, nextId) && row.id == nextId && !Conflicts(rows, row)
             && (row.active <==> !Finished(row.status))
    ensures RowsOk(rows + [row], nextId + 1)
    ensures forall account, key, hash, id :: Stands(rows, account, key, hash, id) ==>
            Stands(rows + [row], account, key, hash, id)
  {
    var after := rows + [row];
    forall j, k | 0 <= j < k < |after| ensures UniqueAt(after[j], after[k]) {
      if k < |rows| { assert UniqueAt(rows[j], rows[k]); } else { assert rows[j] in rows; }
    }
    forall account, key, hash, id | Stands(rows, account, key, hash, id) ensures Stands(after, account, key, hash, id) {
      var j :| 0 <= j < |rows| && rows[j].account == account && rows[j].key == key && rows[j].hash == hash
          && rows[j].id == id;
      assert after[j].key == key;
    }
  }

  lemma InsertedKeeps(w: World, c: Create, usable: bool)
    requires Inv(w) && Inserted(w.rows, c, w.nextId, usable).Success?
    ensures var rows := Inserted(w.rows, c, w.nextId, usable).value;
            Inv(w.(rows := rows, nextId := w.nextId + 1)) && Stands(rows, c.account, c.key, c.hash, w.nextId)
  {
    var active := ActiveAt(w.rows, c.account, c.source);
    var freed := if active.None? then w.rows
                 else w.rows[active.value := w.rows[active.value].(status := Expired, active := false)];
    if active.Some? { ChangedKeeps(w, active.value, w.rows[active.value].(status := Expired, active := false)); }
    var row := ImportRow(w.nextId, c.account, c.source, c.snapshot, c.key, c.hash, true, AwaitingUpload, c.now + c.ttl);
    AppendedKeeps(w.(rows := freed), row);
    assert (freed + [row])[|freed|] == row;
  }

  lemma AppendedKeeps(w: World, row: ImportRow)
    requires Inv(w) && row.id == w.nextId && !Conflicts(w.rows, row) && row.active && row.status == AwaitingUpload
    ensures Inv(w.(rows := w.rows + [row], nextId := w.nextId + 1))
  {
    var after := w.(rows := w.rows + [row], nextId := w.nextId + 1);
    FreshRow(w.rows, w.nextId, row);
    forall k | k in after.calls ensures CallOk(after, after.calls[k]) { assert CallOk(w, w.calls[k]); }
  }

  lemma StandsAtKey(rows: seq<ImportRow>, nextId: ImportId, account: nat, key: string, hash: string, id: ImportId)
    requires RowsOk(rows, nextId) && Stands(rows, account, key, hash, id)
    ensures var i := ByKey(rows, account, key); i.Some? && rows[i.value].id == id && rows[i.value].hash == hash
  {
    var j :| 0 <= j < |rows| && rows[j].account == account && rows[j].key == key && rows[j].hash == hash
        && rows[j].id == id;
    assert rows[j] in rows;
    var i := ByKey(rows, account, key);
    assert i.Some?;
  }

  lemma AnsweredKeeps(w: World, a: Answer)
    requires Inv(w) && Stands(w.rows, a.account, a.key, a.hash, a.id)
    ensures Inv(w.(answers := w.answers + [a]))
  {
    var after := w.(answers := w.answers + [a]);
    forall k | k in after.calls ensures CallOk(after, after.calls[k]) { assert CallOk(w, w.calls[k]); }
  }

  lemma NextIdKeeps(w: World)
    requires Inv(w)
    ensures Inv(w.(nextId := w.nextId + 1))
  {
    var after := w.(nextId := w.nextId + 1);
    forall k | k in after.calls ensures CallOk(after, after.calls[k]) { assert CallOk(w, w.calls[k]); }
  }

  lemma CommitCreateKeeps(w: World, call: nat, usable: bool)
    requires Inv(w)
    ensures Inv(StepCommitCreate(w, call, usable))
  {
    if call in w.calls && w.calls[call].Creating? {
      var c, seen := w.calls[call].request, w.calls[call].seen;
      var left := w.(calls := w.calls - {call});
      assert CallOk(w, w.calls[call]);
      FewerCallsKeep(w, call);
      assert StepCommitCreate(w, call, usable) == Committed(left.(nextId := w.nextId + 1), c, seen, w.nextId, usable);
      CommittedKeeps(left, c, seen, usable);
    }
  }

  lemma CommittedKeeps(w: World, c: Create, seen: Option<ImportRow>, usable: bool)
    requires Inv(w) && (seen.Some? ==> Stands(w.rows, c.account, c.key, seen.value.hash, seen.value.id))
    ensures Inv(Committed(w.(nextId := w.nextId + 1), c, seen, w.nextId, usable))
  {
    if seen.Some? {
      NextIdKeeps(w);
      SeenKeeps(w.(nextId := w.nextId + 1), c, seen.value, w.nextId, usable);
    } else {
      UnseenKeeps(w, c, usable);
    }
  }

  lemma SeenKeeps(w: World, c: Create, seen: ImportRow, id: ImportId, usable: bool)
    requires Inv(w) && Stands(w.rows, c.account, c.key, seen.hash, seen.id)
    ensures Inv(Committed(w, c, Some(seen), id, usable))
  {
    if seen.hash == c.hash {
      ReplayKeeps(w, c, seen);
      var i := ByKey(w.rows, c.account, c.key);
      var answered := w.(answers := w.answers + [Answer(c.account, c.key, c.hash, seen.id)]);
      if seen.status == AwaitingUpload {
        assert Committed(w, c, Some(seen), id, usable)
            == answered.(rows := w.rows[i.value := w.rows[i.value].(expires := c.now + c.ttl)]);
      } else {
        assert Committed(w, c, Some(seen), id, usable) == answered.(rows := w.rows);
      }
    } else {
      assert Committed(w, c, Some(seen), id, usable) == w;
    }
  }

  lemma UnseenKeeps(w: World, c: Create, usable: bool)
    requires Inv(w)
    ensures Inv(Committed(w.(nextId := w.nextId + 1), c, None, w.nextId, usable))
  {
    NextIdKeeps(w);
    if Inserted(w.rows, c, w.nextId, usable).Success? {
      InsertedKeeps(w, c, usable);
      AnsweredKeeps(w.(rows := Inserted(w.rows, c, w.nextId, usable).value, nextId := w.nextId + 1),
                    Answer(c.account, c.key, c.hash, w.nextId));
    }
  }

  lemma ReplayKeeps(w: World, c: Create, seen: ImportRow)
    requires Inv(w) && Stands(w.rows, c.account, c.key, c.hash, seen.id)
    ensures var i := ByKey(w.rows, c.account, c.key);
            && i.Some?
            && Inv(w.(answers := w.answers + [Answer(c.account, c.key, c.hash, seen.id)]))
            && Inv(w.(rows := w.rows[i.value := w.rows[i.value].(expires := c.now + c.ttl)],
                      answers := w.answers + [Answer(c.account, c.key, c.hash, seen.id)]))
  {
    StandsAtKey(w.rows, w.nextId, c.account, c.key, c.hash, seen.id);
    var i := ByKey(w.rows, c.account, c.key).value;
    var row := w.rows[i].(expires := c.now + c.ttl);
    AnsweredKeeps(w, Answer(c.account, c.key, c.hash, seen.id));
    ChangedRows(w.rows, w.nextId, i, row);
    ChangedKeeps(w.(answers := w.answers + [Answer(c.account, c.key, c.hash, seen.id)]), i, row);
  }

  lemma ReadKeyKeeps(w: World, c: Create)
    requires Inv(w)
    ensures Inv(StepReadKey(w, c))
  {
    var after := StepReadKey(w, c);
    forall k | k in after.calls ensures k < after.nextCall && CallOk(after, after.calls[k]) {
      if k != w.nextCall { assert CallOk(w, w.calls[k]); }
    }
  }

  // ---------- completing ----------

  lemma ReadStatusKeeps(w: World, account: nat, source: nat, id: ImportId)
    requires Inv(w)
    ensures Inv(StepReadStatus(w, account, source, id))
  {
    var after := StepReadStatus(w, account, source, id);
    forall k | k in after.calls ensures k < after.nextCall && CallOk(after, after.calls[k]) {
      if k != w.nextCall { assert CallOk(w, w.calls[k]); }
    }
  }

  lemma RefreshKeeps(w: World, account: nat, source: nat, id: ImportId, expires: nat)
    requires Inv(w)
    ensures Inv(StepRefresh(w, account, source, id, expires))
  {
    if Refreshed(w.rows, account, source, id, expires).Success? {
      var i := ById(w.rows, account, source, id).value;
      ChangedKeeps(w, i, w.rows[i].(expires := expires));
    }
  }

  lemma SameId(rows: seq<ImportRow>, nextId: ImportId, i: nat, j: nat)
    requires RowsOk(rows, nextId) && i < |rows| && j < |rows| && i != j
    ensures rows[i].id != rows[j].id
  {
    assert if i < j then UniqueAt(rows[i], rows[j]) else UniqueAt(rows[j], rows[i]);
  }

  /** Queueing an import that waits: it was never queued nor dispatched before. */
  lemma QueuedKeeps(w: World, call: nat, i: nat)
    requires Inv(w) && i < |w.rows| && w.rows[i].status == AwaitingUpload && call in w.calls && w.calls[call].Checking?
    ensures var id := w.rows[i].id;
            Inv(w.(rows := w.rows[i := w.rows[i].(status := Queued)], calls := w.calls[call := Dispatching(id)],
                   queuings := w.queuings[id := Count(w.queuings, id) + 1]))
  {
    var id := w.rows[i].id;
    var row := w.rows[i].(status := Queued);
    var after := w.(rows := w.rows[i := row], calls := w.calls[call := Dispatching(id)],
                    queuings := w.queuings[id := Count(w.queuings, id) + 1]);
    ChangedRows(w.rows, w.nextId, i, row);
    assert Count(w.queuings, id) == 0;
    assert Count(w.dispatches, id) <= Count(w.queuings, id);
    forall k | k in after.calls ensures k < after.nextCall && CallOk(after, after.calls[k]) {
      if k != call { assert CallOk(w, w.calls[k]); }
    }
    forall k, l | k in after.calls && l in after.calls && k != l && after.calls[k].Dispatching?
        && after.calls[l].Dispatching?
      ensures after.calls[k].id != after.calls[l].id
    {
      if k != call { assert CallOk(w, w.calls[k]); }
      if l != call { assert CallOk(w, w.calls[l]); }
    }
    forall j | 0 <= j < |after.rows| && after.rows[j].status == AwaitingUpload
      ensures Count(after.queuings, after.rows[j].id) == 0
    {
      SameId(w.rows, w.nextId, i, j);
    }
    forall other: ImportId ensures Count(after.dispatches, other) <= Count(after.queuings, other) <= 1 {
      assert Count(w.dispatches, other) <= Count(w.queuings, other) <= 1;
    }
  }

  lemma CommitCompleteKeeps(w: World, call: nat, objectMatches: bool)
    requires Inv(w)
    ensures Inv(StepCommitComplete(w, call, objectMatches))
  {
    FewerCallsKeep(w, call);
    if call in w.calls && w.calls[call].Checking? && objectMatches {
      var c := w.calls[call];
      var i := ById(w.rows, c.account, c.source, c.id);
      if i.Some? && w.rows[i.value].status == AwaitingUpload { QueuedKeeps(w, call, i.value); }
    }
  }

  lemma DispatchKeeps(w: World, call: nat)
    requires Inv(w)
    ensures Inv(StepDispatch(w, call))
  {
    if call in w.calls && w.calls[call].Dispatching? {
      var id := w.calls[call].id;
      var after := StepDispatch(w, call);
      assert CallOk(w, w.calls[call]);
      forall k | k in after.calls ensures CallOk(after, after.calls[k]) {
        assert CallOk(w, w.calls[k]);
        if w.calls[k].Dispatching? { assert w.calls[k].id != id; }
      }
      forall other: ImportId ensures Count(after.dispatches, other) <= Count(after.queuings, other) <= 1 {
        assert Count(w.dispatches, other) <= Count(w.queuings, other) <= 1;
      }
    }
  }

  // ---------- every step, every run ----------

  lemma StepKeeps(w: World, e: Event)
    requires Inv(w)
    ensures Inv(Step(w, e))
  {
    match e
    case ReadKey(request) => ReadKeyKeeps(w, request);
    case CommitCreate(call, usable) => CommitCreateKeeps(w, call, usable);
    case Refresh(account, source, id, expires) => RefreshKeeps(w, account, source, id, expires);
    case ReadStatus(account, source, id) => ReadStatusKeeps(w, account, source, id);
    case CommitComplete(call, objectMatches) => CommitCompleteKeeps(w, call, objectMatches);
    case Dispatch(call) => DispatchKeeps(w, call);
    case Abandon(call) => FewerCallsKeep(w, call);
    case Work(i, status) =>
      if i < |w.rows| && w.rows[i].status in {Queued, Running, RetryDue} && status !in {AwaitingUpload, Queued} {
        ChangedKeeps(w, i, w.rows[i].(status := status, active := !Finished(status)));
      }
  }

  lemma {:induction false} RunKeeps(events: seq<Event>)
    ensures Inv(After(events))
  {
    if events != [] {
      RunKeeps(events[..|events| - 1]);
      StepKeeps(After(events[..|events| - 1]), events[|events| - 1]);
    }
  }

  /** At most one import of an account and source is unfinished. */
  lemma OneActiveImport(events: seq<Event>)
    ensures var rows := After(events).rows;
            forall i, j :: 0 <= i < j < |rows|
                           && rows[i].account == rows[j].account && rows[i].source == rows[j].source ==>
              Finished(rows[i].status) || Finished(rows[j].status)
  {
    RunKeeps(events);
    var rows := After(events).rows;
    forall i, j | 0 <= i < j < |rows| && rows[i].account == rows[j].account && rows[i].source == rows[j].source
      ensures Finished(rows[i].status) || Finished(rows[j].status)
    {
      assert UniqueAt(rows[i], rows[j]);
    }
  }

  /** Every answered create of one key names the same import and the same request,
      even when its read of the key was stale. */
  lemma SameKeySameImport(events: seq<Event>)
    ensures var answers := After(events).answers;
            forall a, b :: a in answers && b in answers && a.account == b.account && a.key == b.key ==>
                a.id == b.id && a.hash == b.hash
  {
    RunKeeps(events);
    var w := After(events);
    forall a, b | a in w.answers && b in w.answers && a.account == b.account && a.key == b.key
      ensures a.id == b.id && a.hash == b.hash
    {
      StandsAtKey(w.rows, w.nextId, a.account, a.key, a.hash, a.id);
      StandsAtKey(w.rows, w.nextId, b.account, b.key, b.hash, b.id);
    }
  }

  /** An import is queued at most once, and dispatched by completions at most once. */
  lemma QueuedAndDispatchedOnce(events: seq<Event>, id: ImportId)
    ensures Count(After(events).dispatches, id) <= Count(After(events).queuings, id) <= 1
  {
    RunKeeps(events);
  }

  /** A submitted import never waits for an upload again. */
  lemma NeverAwaitsAgain(w: World, e: Event, i: nat)
    requires i < |w.rows| && w.rows[i].status != AwaitingUpload
    ensures var after := Step(w, e).rows;
            i < |after| && after[i].id == w.rows[i].id && after[i].status != AwaitingUpload
  {
    match e
    case CommitCreate(call, usable) => CommitNeverAwaits(w, call, usable, i);
    case CommitComplete(call, objectMatches) =>
    case _ =>
  }

  lemma CommitNeverAwaits(w: World, call: nat, usable: bool, i: nat)
    requires i < |w.rows| && w.rows[i].status != AwaitingUpload
    ensures var after := StepCommitCreate(w, call, usable).rows;
            i < |after| && after[i].id == w.rows[i].id && after[i].status != AwaitingUpload
  {
  }

  // ---------- refreshing and queueing an import ----------

  /** The active row of an account and source is the one that is not finished. */
  lemma HeldIsActive(rows: seq<ImportRow>, nextId: ImportId, i: nat)
    requires RowsOk(rows, nextId) && i < |rows| && !Finished(rows[i].status)
    ensures ActiveAt(rows, rows[i].account, rows[i].source) == Some(i)
  {
    assert rows[i] in rows;
  }

  lemma FoundAgain(rows: seq<ImportRow>, nextId: ImportId, account: nat, source: nat, id: ImportId, i: nat,
                   row: ImportRow)
    requires RowsOk(rows, nextId) && ById(rows, account, source, id) == Some(i) && Follows(rows[i], row)
    ensures ById(rows[i := row], account, source, id) == Some(i)
    ensures rows[i].account == account && rows[i].source == source
  {
    ByIdMatches(rows, account, source, id);
    ChangedRows(rows, nextId, i, row);
    IdIsFound(rows[i := row], nextId, i);
  }

  lemma {:induction false} ByIdMatches(rows: seq<ImportRow>, account: nat, source: nat, id: ImportId)
    ensures var i := ById(rows, account, source, id);
            i.Some? ==> rows[i.value].account == account && rows[i.value].source == source && rows[i.value].id == id
  {
    if rows != [] { ByIdMatches(rows[..|rows| - 1], account, source, id); }
  }

  lemma {:induction false} IdIsFound(rows: seq<ImportRow>, nextId: ImportId, i: nat)
    requires RowsOk(rows, nextId) && i < |rows|
    ensures ById(rows, rows[i].account, rows[i].source, rows[i].id) == Some(i)
  {
    if i < |rows| - 1 {
      assert UniqueAt(rows[i], rows[|rows| - 1]);
      IdIsFound(rows[..|rows| - 1], nextId, i);
    }
  }

  /** Only one row changes, and only in its status and expiry. */
  ghost predicate OneRow(rows: seq<ImportRow>, after: seq<ImportRow>, i: nat) {
    && i < |rows| && |after| == |rows| && (forall k :: 0 <= k < |rows| && k != i ==> after[k] == rows[k])
    && after[i] == rows[i].(status := after[i].status, expires := after[i].expires)
  }

  lemma RefreshedRow(rows: seq<ImportRow>, nextId: ImportId, account: nat, source: nat, id: ImportId, expires: nat)
    returns (i: nat)
    requires RowsOk(rows, nextId) && Refreshed(rows, account, source, id, expires).Success?
    ensures i < |rows| && rows[i].account == account && rows[i].source == source && rows[i].status == AwaitingUpload
    ensures var after := Refreshed(rows, account, source, id, expires).value;
            && RowsOk(after, nextId) && OneRow(rows, after, i) && ActiveAt(after, account, source) == Some(i)
            && after[i].expires == expires && after[i].status == AwaitingUpload
  {
    i := ById(rows, account, source, id).value;
    var row := rows[i].(expires := expires);
    FoundAgain(rows, nextId, account, source, id, i, row);
    ChangedRows(rows, nextId, i, row);
    HeldIsActive(rows[i := row], nextId, i);
  }

  /** In every reachable state, a refreshed import holds its place against creates with
      another key until the new expiry, and from then on gives way to them; no other
      import changes. */
  lemma RefreshHolds(events: seq<Event>, account: nat, source: nat, id: ImportId, expires: nat, c: Create,
                     newId: ImportId)
    returns (i: nat)
    requires Refreshed(After(events).rows, account, source, id, expires).Success?
    requires c.account == account && c.source == source
    ensures var after := Refreshed(After(events).rows, account, source, id, expires).value;
            && OneRow(After(events).rows, after, i) && after[i].status == AwaitingUpload
            && (Inserted(after, c, newId, true) == Failure(ImportActive) <==> c.now < expires)
  {
    RunKeeps(events);
    i := RefreshedRow(After(events).rows, After(events).nextId, account, source, id, expires);
  }

  lemma QueuedRow(rows: seq<ImportRow>, nextId: ImportId, account: nat, source: nat, id: ImportId) returns (i: nat)
    requires RowsOk(rows, nextId)
    requires QueuedOnce(rows, account, source, id).Success? && QueuedOnce(rows, account, source, id).value.1
    ensures i < |rows| && rows[i].status == AwaitingUpload
    ensures var after := QueuedOnce(rows, account, source, id).value.0;
            && OneRow(rows, after, i) && after[i].status == Queued && ActiveAt(after, account, source) == Some(i)
            && ById(after, account, source, id) == Some(i)
  {
    i := ById(rows, account, source, id).value;
    var row := rows[i].(status := Queued);
    FoundAgain(rows, nextId, account, source, id, i, row);
    ChangedRows(rows, nextId, i, row);
    HeldIsActive(rows[i := row], nextId, i);
  }

  /** In every reachable state, queueing an import happens once: a repeated completion
      finds it queued and changes nothing, its upload can no longer be refreshed, no
      create with another key supersedes it at any time, and no other import changes. */
  lemma QueuedHolds(events: seq<Event>, account: nat, source: nat, id: ImportId, expires: nat, c: Create,
                    newId: ImportId)
    returns (i: nat)
    requires QueuedOnce(After(events).rows, account, source, id).Success?
    requires QueuedOnce(After(events).rows, account, source, id).value.1
    requires c.account == account && c.source == source
    ensures var after := QueuedOnce(After(events).rows, account, source, id).value.0;
            && OneRow(After(events).rows, after, i) && after[i].status == Queued
            && QueuedOnce(after, account, source, id) == Success((after, false))
            && Refreshed(after, account, source, id, expires) == Failure(NotAwaitingUpload)
            && Inserted(after, c, newId, true) == Failure(ImportActive)
  {
    RunKeeps(events);
    i := QueuedRow(After(events).rows, After(events).nextId, account, source, id);
  }

  // ---------- what a create answers ----------

  ghost predicate SameKey(row: ImportRow, c: Create) {
    row.account == c.account && row.key == c.key
  }

  ghost predicate Unfinished(row: ImportRow, c: Create) {
    row.account == c.account && row.source == c.source && row.status in {AwaitingUpload, Queued, Running, RetryDue}
  }

  ghost predicate SameSnapshot(row: ImportRow, c: Create) {
    row.account == c.account && row.source == c.source && row.snapshot == c.snapshot
  }

  /** What a create comes to: its key replayed, refused for another request, or, when
      the key is new, a new import unless one is in the way or has its snapshot. */
  ghost predicate CreatedAs(rows: seq<ImportRow>, c: Create, id: ImportId, usable: bool,
                            r: Result<(seq<ImportRow>, ImportId, bool), ImportControl.Refusal>)
  {
    if exists i :: 0 <= i < |rows| && SameKey(rows[i], c) then
      forall i :: 0 <= i < |rows| && SameKey(rows[i], c) ==> r == Replayed(rows, c, i)
    else if !usable then r == Failure(SourceUnavailable)
    else if exists i :: 0 <= i < |rows| && Unfinished(rows[i], c)
                        && (rows[i].status != AwaitingUpload || c.now < rows[i].expires)
    then r == Failure(ImportActive)
    else if exists i :: 0 <= i < |rows| && SameSnapshot(rows[i], c) then r == Failure(ImportConflict)
    else r.Success? && r.value.1 == id && !r.value.2 && InsertedRow(rows, r.value.0, c, id)
  }

  /** A repeated request is answered with its import, whose upload may go on until the
      new expiry if it was not made yet. */
  ghost function Replayed(rows: seq<ImportRow>, c: Create,
                          i: nat): Result<(seq<ImportRow>, ImportId, bool), ImportControl.Refusal>
    requires i < |rows|
  {
    if rows[i].hash != c.hash then Failure(KeyReused)
    else if rows[i].status == AwaitingUpload
    then Success((rows[i := rows[i].(expires := c.now + c.ttl)], rows[i].id, true))
    else Success((rows, rows[i].id, true))
  }

  /** The new row awaits its upload until its expiry, an expired one gives way to it, and
      every other row stays. */
  ghost predicate InsertedRow(rows: seq<ImportRow>, after: seq<ImportRow>, c: Create, id: ImportId) {
    && |after| == |rows| + 1
    && after[|rows|] == ImportRow(id, c.account, c.source, c.snapshot, c.key, c.hash, true, AwaitingUpload,
                                  c.now + c.ttl)
    && forall k :: 0 <= k < |rows| ==>
         after[k] == if Unfinished(rows[k], c) then rows[k].(status := Expired, active := false) else rows[k]
  }

  /** A read of the key that nothing has changed since. */
  function ReadOf(rows: seq<ImportRow>, c: Create): Option<ImportRow> {
    var i := ByKey(rows, c.account, c.key);
    if i.Some? then Some(rows[i.value]) else None
  }

  lemma KeyIsUnique(rows: seq<ImportRow>, nextId: ImportId, c: Create, i: nat)
    requires RowsOk(rows, nextId) && i < |rows| && SameKey(rows[i], c)
    ensures ByKey(rows, c.account, c.key) == Some(i)
  {
    assert rows[i] in rows;
  }

  lemma UnfinishedIsUnique(rows: seq<ImportRow>, nextId: ImportId, c: Create, i: nat)
    requires RowsOk(rows, nextId) && i < |rows| && Unfinished(rows[i], c)
    ensures ActiveAt(rows, c.account, c.source) == Some(i)
    ensures forall k :: 0 <= k < |rows| && k != i ==> !Unfinished(rows[k], c)
  {
    HeldIsActive(rows, nextId, i);
    forall k | 0 <= k < |rows| && k != i ensures !Unfinished(rows[k], c) {
      assert if i < k then UniqueAt(rows[i], rows[k]) else UniqueAt(rows[k], rows[i]);
    }
  }

  lemma ConflictsExactly(rows: seq<ImportRow>, row: ImportRow, c: Create)
    requires row.account == c.account && row.source == c.source && row.snapshot == c.snapshot && row.key == c.key
    requires row.active && forall k :: 0 <= k < |rows| ==> !SameKey(rows[k], c)
    requires forall k :: 0 <= k < |rows| && rows[k].account == c.account && rows[k].source == c.source ==>
             !rows[k].active
    ensures Conflicts(rows, row) <==> exists k :: 0 <= k < |rows| && SameSnapshot(rows[k], c)
  {
    if k :| 0 <= k < |rows| && SameSnapshot(rows[k], c) { assert rows[k] in rows; }
  }

  lemma StatusCases(status: ImportStatus)
    ensures Finished(status) || status in {AwaitingUpload, Queued, Running, RetryDue}
  {
    match status {
      case AwaitingUpload =>
      case _ =>
    }
  }

  lemma NewCreate(rows: seq<ImportRow>, nextId: ImportId, c: Create, id: ImportId)
    requires RowsOk(rows, nextId) && forall i :: 0 <= i < |rows| ==> !SameKey(rows[i], c)
    requires forall i :: 0 <= i < |rows| && Unfinished(rows[i], c) ==>
               rows[i].status == AwaitingUpload && rows[i].expires <= c.now
    ensures var r := Inserted(rows, c, id, true);
            if exists i :: 0 <= i < |rows| && SameSnapshot(rows[i], c) then r == Failure(ImportConflict)
            else r.Success? && InsertedRow(rows, r.value, c, id)
  {
    var active := ActiveAt(rows, c.account, c.source);
    var freed := if active.None? then rows
                 else rows[active.value := rows[active.value].(status := Expired, active := false)];
    var row := ImportRow(id, c.account, c.source, c.snapshot, c.key, c.hash, true, AwaitingUpload, c.now + c.ttl);
    if active.Some? {
      StatusCases(rows[active.value].status);
      UnfinishedIsUnique(rows, nextId, c, active.value);
    }
    forall k | 0 <= k < |freed|
      ensures freed[k] == if Unfinished(rows[k], c) then rows[k].(status := Expired, active := false) else rows[k]
    {
      assert rows[k] in rows;
    }
    ConflictsExactly(freed, row, c);
    if i :| 0 <= i < |rows| && SameSnapshot(rows[i], c) { assert SameSnapshot(freed[i], c); }
  }

  /** In every reachable state, a create whose read of the key is fresh answers exactly
      by cases: a repeated key gives its import with a new expiry, or is refused for
      another request; a new key is refused while an import of the source is unfinished
      and not an expired upload, or when its snapshot was imported before; otherwise a
      new import awaits its upload, and an expired one is given up for it. */
  lemma CreateExactly(events: seq<Event>, c: Create, usable: bool)
    ensures var rows, id := After(events).rows, After(events).nextId;
            CreatedAs(rows, c, id, usable, Created(rows, c, ReadOf(rows, c), id, usable))
  {
    RunKeeps(events);
    var rows, id := After(events).rows, After(events).nextId;
    if i :| 0 <= i < |rows| && SameKey(rows[i], c) {
      forall i | 0 <= i < |rows| && SameKey(rows[i], c) ensures ByKey(rows, c.account, c.key) == Some(i) {
        KeyIsUnique(rows, id, c, i);
      }
    } else if i :| 0 <= i < |rows| && Unfinished(rows[i], c)
                   && (rows[i].status != AwaitingUpload || c.now < rows[i].expires) {
      UnfinishedIsUnique(rows, id, c, i);
    } else {
      NewCreate(rows, id, c, id);
    }
  }

  lemma RenewedHolds(rows: seq<ImportRow>, nextId: ImportId, k: nat, expires: nat, other: Create, newId: ImportId)
    requires RowsOk(rows, nextId) && k < |rows| && rows[k].status == AwaitingUpload
    requires other.account == rows[k].account && other.source == rows[k].source
    ensures var after := rows[k := rows[k].(expires := expires)];
            Inserted(after, other, newId, true) == Failure(ImportActive) <==> other.now < expires
  {
    ChangedRows(rows, nextId, k, rows[k].(expires := expires));
    HeldIsActive(rows[k := rows[k].(expires := expires)], nextId, k);
  }

  lemma AddedHolds(rows: seq<ImportRow>, nextId: ImportId, k: nat, other: Create, newId: ImportId)
    requires RowsOk(rows, nextId) && k < |rows| && rows[k].status == AwaitingUpload
    requires other.account == rows[k].account && other.source == rows[k].source
    ensures Inserted(rows, other, newId, true) == Failure(ImportActive) <==> other.now < rows[k].expires
  {
    HeldIsActive(rows, nextId, k);
  }

  /** Whatever a create made or renewed holds its place, against creates with another
      key, exactly until the expiry it was given. */
  lemma CreatedHolds(events: seq<Event>, c: Create, usable: bool, other: Create, newId: ImportId) returns (i: nat)
    requires Created(After(events).rows, c, ReadOf(After(events).rows, c), After(events).nextId, usable).Success?
    requires other.account == c.account && other.source == c.source
    requires var rows := After(events).rows;
             forall k :: 0 <= k < |rows| && SameKey(rows[k], c) ==>
               rows[k].source == c.source && rows[k].status == AwaitingUpload
    ensures var r := Created(After(events).rows, c, ReadOf(After(events).rows, c), After(events).nextId, usable).value;
            && i < |r.0| && r.0[i].id == r.1 && r.0[i].expires == c.now + c.ttl && r.0[i].status == AwaitingUpload
            && (Inserted(r.0, other, newId, true) == Failure(ImportActive) <==> other.now < c.now + c.ttl)
  {
    RunKeeps(events);
    CreateExactly(events, c, usable);
    var rows, id := After(events).rows, After(events).nextId;
    if k :| 0 <= k < |rows| && SameKey(rows[k], c) {
      i := k;
      RenewedHolds(rows, id, k, c.now + c.ttl, other, newId);
    } else {
      i := |rows|;
      InsertedKeeps(After(events), c, usable);
      AddedHolds(Inserted(rows, c, id, usable).value, id + 1, i, other, newId);
    }
  }

  ghost predicate Waits(row: ImportRow, c: Call)
    requires c.Checking?
  {
    row.account == c.account && row.source == c.source && row.id == c.id && row.status == AwaitingUpload
  }

  lemma WaitingIsFound(rows: seq<ImportRow>, nextId: ImportId, c: Call, i: nat)
    requires RowsOk(rows, nextId) && c.Checking? && i < |rows| && Waits(rows[i], c)
    ensures ById(rows, c.account, c.source, c.id) == Some(i)
    ensures forall k :: 0 <= k < |rows| && k != i ==> !Waits(rows[k], c)
  {
    IdIsFound(rows, nextId, i);
    forall k | 0 <= k < |rows| && k != i ensures !Waits(rows[k], c) { SameId(rows, nextId, i, k); }
  }

  /** Completing, with the import of the call at `i`, or none that waits. */
  lemma CompletedParts(w: World, call: nat, i: Option<nat>)
    requires call in w.calls && w.calls[call].Checking?
    requires var c := w.calls[call];
             i == ById(w.rows, c.account, c.source, c.id)
    ensures var after := StepCommitComplete(w, call, true);
            var id := w.calls[call].id;
            if i.Some? && w.rows[i.value].status == AwaitingUpload then
              && after.rows == w.rows[i.value := w.rows[i.value].(status := Queued)]
              && Count(StepDispatch(after, call).dispatches, id) == Count(w.dispatches, id) + 1
            else after == w.(calls := w.calls - {call})
  {
  }

  /** In every reachable state, a completion whose object matches queues the import it
      is about if that still waits, and goes on to dispatch it, the first time it ever
      is; in any other case it changes no import and dispatches nothing. */
  lemma CompletesExactly(events: seq<Event>, call: nat, objectMatches: bool)
    requires call in After(events).calls && After(events).calls[call].Checking?
    ensures var w, after := After(events), Step(After(events), CommitComplete(call, objectMatches));
            var c := w.calls[call];
            if objectMatches && exists i :: 0 <= i < |w.rows| && Waits(w.rows[i], c) then
              && |after.rows| == |w.rows|
              && (forall k :: 0 <= k < |w.rows| ==>
                    after.rows[k] == if Waits(w.rows[k], c) then w.rows[k].(status := Queued) else w.rows[k])
              && Count(w.dispatches, c.id) == 0 && Count(Step(after, Dispatch(call)).dispatches, c.id) == 1
            else after.rows == w.rows && after.dispatches == w.dispatches && call !in after.calls
  {
    RunKeeps(events);
    var w := After(events);
    var c := w.calls[call];
    CompletedParts(w, call, ById(w.rows, c.account, c.source, c.id));
    ByIdMatches(w.rows, c.account, c.source, c.id);
    if i :| 0 <= i < |w.rows| && Waits(w.rows[i], c) {
      WaitingIsFound(w.rows, w.nextId, c, i);
      NeverDispatched(w, i);
    }
  }

  lemma NeverDispatched(w: World, i: nat)
    requires CountsOk(w) && i < |w.rows| && w.rows[i].status == AwaitingUpload
    ensures Count(w.dispatches, w.rows[i].id) == 0
  {
    assert Count(w.dispatches, w.rows[i].id) <= Count(w.queuings, w.rows[i].id);
  }
}
