/** The journal of paid description calls made with the owner's own key. */
module ByokJournals {
  import opened Options

  type Job = nat
  type Month = nat

  /** Amounts are in millionths of a dollar, the unit charges are rounded up to. */
  type Amount = nat

  datatype Model = Terra | Luna | Sol

  /** What one call reserves before it is made. */
  function Reservation(model: Model): Amount {
    match model
    case Terra => 10_000
    case Luna => 10_000
    case Sol => 20_000
  }

  datatype State = Ready | Calling | ResultReady | Synced | NeedsAttention | Uncertain | Skipped

  /** A row of ByokAnalysis; a job has at most one. */
  datatype Analysis = Analysis(
    job: Job, source: nat, claim: nat, model: Model, state: State,
    result: Option<string>, error: string, month: Option<Month>, cost: Amount)

  /** A row of ByokPastAttempt. */
  datatype Attempt = Attempt(job: Job, model: Model, month: Option<Month>, cost: Amount, error: string)

  /** The rows are kept in rowid order. */
  datatype Journal = Journal(rows: seq<Analysis>, past: seq<Attempt>)

  ghost predicate UniqueJobs(rows: seq<Analysis>) {
    forall i, j :: 0 <= i < j < |rows| ==> rows[i].job != rows[j].job
  }

  // ---------- reading ----------

  function RowOf(rows: seq<Analysis>, job: Job): (r: Option<Analysis>)
    ensures r.Some? ==> r.value in rows && r.value.job == job
    ensures r.None? ==> forall row :: row in rows ==> row.job != job
  {
    if rows == [] then None
    else if rows[|rows| - 1].job == job then Some(rows[|rows| - 1])
    else RowOf(rows[..|rows| - 1], job)
  }

  function In(month: Option<Month>, m: Month, cost: Amount): Amount {
    if month == Some(m) then cost else 0
  }

  function Spent(rows: seq<Analysis>, m: Month): Amount {
    if rows == [] then 0
    else Spent(rows[..|rows| - 1], m) + In(rows[|rows| - 1].month, m, rows[|rows| - 1].cost)
  }

  function SpentBefore(past: seq<Attempt>, m: Month): Amount {
    if past == [] then 0
    else SpentBefore(past[..|past| - 1], m) + In(past[|past| - 1].month, m, past[|past| - 1].cost)
  }

  /** The month's ledger: current and archived attempts of every source. */
  function Total(j: Journal, m: Month): Amount {
    Spent(j.rows, m) + SpentBefore(j.past, m)
  }

  function Archived(past: seq<Attempt>, job: Job): nat {
    if past == [] then 0
    else Archived(past[..|past| - 1], job) + if past[|past| - 1].job == job then 1 else 0
  }

  function Matching(rows: seq<Analysis>, source: nat, states: set<State>, exclude: set<Job>): seq<Analysis> {
    if rows == [] then []
    else
      var last := rows[|rows| - 1];
      Matching(rows[..|rows| - 1], source, states, exclude)
      + if last.source == source && last.state in states && last.job !in exclude then [last] else []
  }

  function Page(rows: seq<Analysis>, source: nat, states: set<State>, limit: nat, exclude: set<Job>): seq<Analysis> {
    var all := Matching(rows, source, states, exclude);
    if |all| <= limit then all else all[..limit]
  }

  // ---------- transactions ----------

  /** Replace the row of `row.job`. */
  function Put(rows: seq<Analysis>, row: Analysis): seq<Analysis> {
    seq(|rows|, i requires 0 <= i < |rows| => if rows[i].job == row.job then row else rows[i])
  }

  function Write(row: Analysis, state: State, error: string, result: Option<string>, cost: Option<Amount>): Analysis {
    row.(state := state, error := error,
         result := if result.Some? then result else row.result,
         cost := if cost.Some? then cost.value else row.cost)
  }

  function Set(j: Journal, job: Job, state: State, error: string, result: Option<string>, cost: Option<Amount>): Journal
  {
    var row := RowOf(j.rows, job);
    if row.None? then j else j.(rows := Put(j.rows, Write(row.value, state, error, result, cost)))
  }

  function Reserved(row: Analysis, amount: Amount, month: Month): Analysis {
    row.(state := Calling, month := Some(month), cost := amount)
  }

  /** The answer is whether the month's limit allows the amount; a row that is not
      ready is left as it is. */
  function Reserve(j: Journal, job: Job, amount: Amount, cap: Amount, month: Month): (Journal, bool) {
    if Total(j, month) + amount > cap then (j, false)
    else
      var row := RowOf(j.rows, job);
      if row.None? || row.value.state != Ready then (j, true)
      else (j.(rows := Put(j.rows, Reserved(row.value, amount, month))), true)
  }

  predicate MayRequeue(row: Analysis, includeUncertain: bool) {
    row.result.None? && (row.state == NeedsAttention || (includeUncertain && row.state == Uncertain))
  }

  function Requeued(row: Analysis): Analysis {
    row.(state := Ready, error := "", month := None, cost := 0)
  }

  function AttemptOf(row: Analysis): Attempt {
    Attempt(row.job, row.model, row.month, row.cost, row.error)
  }

  /** Archive the attempt, then make the job ready again. */
  function Requeue(j: Journal, job: Job, includeUncertain: bool): (Journal, bool) {
    var row := RowOf(j.rows, job);
    if row.None? || !MayRequeue(row.value, includeUncertain) then (j, false)
    else (Journal(Put(j.rows, Requeued(row.value)), j.past + [AttemptOf(row.value)]), true)
  }

  function Interrupted(row: Analysis, source: nat): Analysis {
    if row.source == source && row.state == Calling then row.(state := Uncertain, error := "INTERRUPTED_CALL") else row
  }

  function InterruptedRows(rows: seq<Analysis>, source: nat): seq<Analysis> {
    seq(|rows|, i requires 0 <= i < |rows| => Interrupted(rows[i], source))
  }

  function Recover(j: Journal, source: nat): Journal {
    j.(rows := InterruptedRows(j.rows, source))
  }

  function Add(j: Journal, source: nat, job: Job, claim: nat, model: Model): Journal {
    if RowOf(j.rows, job).Some? then j
    else j.(rows := j.rows + [Analysis(job, source, claim, model, Ready, None, "", None, 0)])
  }

  // ---------- the class ----------

  class ByokJournal {
    var rows: seq<Analysis>
    var past: seq<Attempt>

    constructor ()
      ensures Value() == Journal([], [])
    {
      rows, past := [], [];
    }

    ghost function Value(): Journal
      reads this
    {
      Journal(rows, past)
    }

    method Find(job: Job) returns (row: Option<Analysis>)
      ensures row == RowOf(rows, job)
    {
      var k := |rows|;
      assert rows[..k] == rows;
      while k > 0
        invariant 0 <= k <= |rows| && RowOf(rows, job) == RowOf(rows[..k], job)
      {
        k := k - 1;
        if rows[k].job == job { return Some(rows[k]); }
        assert rows[..k + 1][..k] == rows[..k];
      }
      return None;
    }

    method Replace(row: Analysis)
      modifies this`rows
      ensures rows == Put(old(rows), row)
    {
      var before := rows;
      for i := 0 to |before|
        invariant |rows| == |before|
        invariant forall k :: 0 <= k < |before| ==>
                  rows[k] == if k < i && before[k].job == row.job then row else before[k]
      {
        if rows[i].job == row.job { rows := rows[i := row]; }
      }
    }

    method SetState(job: Job, state: State, error: string, result: Option<string>, cost: Option<Amount>)
      modifies this`rows
      ensures Value() == Set(old(Value()), job, state, error, result, cost)
    {
      var row := Find(job);
      if row.Some? { Replace(Write(row.value, state, error, result, cost)); }
    }

    method Ledger(month: Month) returns (total: Amount)
      ensures total == Total(Value(), month)
    {
      total := 0;
      for i := 0 to |rows|
        invariant total == Spent(rows[..i], month)
      {
        assert rows[..i + 1][..i] == rows[..i];
        if rows[i].month == Some(month) { total := total + rows[i].cost; }
      }
      assert rows[..|rows|] == rows;
      for i := 0 to |past|
        invariant total == Spent(rows, month) + SpentBefore(past[..i], month)
      {
        assert past[..i + 1][..i] == past[..i];
        if past[i].month == Some(month) { total := total + past[i].cost; }
      }
      assert past[..|past|] == past;
    }

    method TryReserve(job: Job, amount: Amount, cap: Amount, month: Month) returns (ok: bool)
      modifies this`rows
      ensures (Value(), ok) == Reserve(old(Value()), job, amount, cap, month)
    {
      var total := Ledger(month);
      if total + amount > cap { return false; }
      var row := Find(job);
      if row.Some? && row.value.state == Ready { Replace(Reserved(row.value, amount, month)); }
      return true;
    }

    method RequeueFailure(job: Job, includeUncertain: bool) returns (done: bool)
      modifies this
      ensures (Value(), done) == Requeue(old(Value()), job, includeUncertain)
    {
      var row := Find(job);
      if row.None? || !MayRequeue(row.value, includeUncertain) { return false; }
      past := past + [AttemptOf(row.value)];
      Replace(Requeued(row.value));
      return true;
    }

    method RecoverCalls(source: nat)
      modifies this`rows
      ensures Value() == Recover(old(Value()), source)
    {
      var before := rows;
      for i := 0 to |before|
        invariant |rows| == |before|
        invariant forall k :: 0 <= k < |before| ==>
                  rows[k] == if k < i then Interrupted(before[k], source) else before[k]
      {
        if rows[i].source == source && rows[i].state == Calling {
          rows := rows[i := rows[i].(state := Uncertain, error := "INTERRUPTED_CALL")];
        }
      }
    }

    method AddTask(source: nat, job: Job, claim: nat, model: Model)
      modifies this`rows
      ensures Value() == Add(old(Value()), source, job, claim, model)
    {
      var row := Find(job);
      if row.None? { rows := rows + [Analysis(job, source, claim, model, Ready, None, "", None, 0)]; }
    }

    method RowsFor(source: nat, states: set<State>, limit: nat, exclude: set<Job>) returns (page: seq<Analysis>)
      ensures page == Page(rows, source, states, limit, exclude)
    {
      page := [];
      var i := 0;
      while i < |rows| && |page| < limit
        invariant 0 <= i <= |rows| && |page| <= limit
        invariant page == Matching(rows[..i], source, states, exclude)
      {
        assert rows[..i + 1][..i] == rows[..i];
        if rows[i].source == source && rows[i].state in states && rows[i].job !in exclude { page := page + [rows[i]]; }
        i := i + 1;
      }
      MatchingPrefix(rows, i, source, states, exclude);
    }
  }

  /** The matches of a prefix begin the matches of the whole. */
  lemma {:induction false} MatchingPrefix(rows: seq<Analysis>, i: nat, source: nat, states: set<State>,
                                          exclude: set<Job>)
    requires i <= |rows|
    ensures Matching(rows[..i], source, states, exclude) <= Matching(rows, source, states, exclude)
    ensures i == |rows| ==> Matching(rows[..i], source, states, exclude) == Matching(rows, source, states, exclude)
  {
    if i == |rows| {
      assert rows[..i] == rows;
    } else {
      MatchingPrefix(rows[..|rows| - 1], i, source, states, exclude);
      assert rows[..|rows| - 1][..i] == rows[..i];
    }
  }

  // ---------- rows ----------

  lemma {:induction false} RowOfPut(rows: seq<Analysis>, row: Analysis, job: Job)
    ensures RowOf(Put(rows, row), job)
         == if job == row.job && RowOf(rows, job).Some? then Some(row) else RowOf(rows, job)
  {
    if rows != [] {
      RowOfPut(rows[..|rows| - 1], row, job);
      assert Put(rows, row)[..|rows| - 1] == Put(rows[..|rows| - 1], row);
    }
  }

  lemma {:induction false} RowOfInterrupted(rows: seq<Analysis>, source: nat, job: Job)
    ensures var row := RowOf(rows, job);
            RowOf(InterruptedRows(rows, source), job)
                == if row.Some? then Some(Interrupted(row.value, source)) else None
  {
    if rows != [] {
      RowOfInterrupted(rows[..|rows| - 1], source, job);
      assert InterruptedRows(rows, source)[..|rows| - 1] == InterruptedRows(rows[..|rows| - 1], source);
    }
  }

  /** The row of a job found anywhere is the row of that job. */
  lemma {:induction false} RowIsUnique(rows: seq<Analysis>, row: Analysis)
    requires UniqueJobs(rows) && row in rows
    ensures RowOf(rows, row.job) == Some(row)
  {
    var front, last := rows[..|rows| - 1], rows[|rows| - 1];
    assert rows == front + [last];
    if row != last {
      var i :| 0 <= i < |front| && front[i] == row;
      assert rows[i].job != rows[|rows| - 1].job;
      RowIsUnique(front, row);
    }
  }

  predicate Matches(row: Analysis, source: nat, states: set<State>, exclude: set<Job>) {
    row.source == source && row.state in states && row.job !in exclude
  }

  lemma {:induction false} MatchingMembers(rows: seq<Analysis>, source: nat, states: set<State>, exclude: set<Job>)
    ensures forall row :: row in Matching(rows, source, states, exclude) <==>
            row in rows && Matches(row, source, states, exclude)
  {
    if rows != [] {
      MatchingMembers(rows[..|rows| - 1], source, states, exclude);
      assert rows == rows[..|rows| - 1] + [rows[|rows| - 1]];
    }
  }

  lemma {:induction false} MatchingUnique(rows: seq<Analysis>, source: nat, states: set<State>, exclude: set<Job>)
    requires UniqueJobs(rows)
    ensures UniqueJobs(Matching(rows, source, states, exclude))
  {
    if rows != [] {
      var front, last := rows[..|rows| - 1], rows[|rows| - 1];
      MatchingUnique(front, source, states, exclude);
      MatchingMembers(front, source, states, exclude);
      forall row | row in front ensures row.job != last.job {
        var i :| 0 <= i < |front| && front[i] == row;
        assert rows[i].job != rows[|rows| - 1].job;
      }
    }
  }

  // ---------- the ledger ----------

  lemma {:induction false} SpentPut(rows: seq<Analysis>, row: Analysis, m: Month)
    requires UniqueJobs(rows) && RowOf(rows, row.job).Some?
    ensures var prior := RowOf(rows, row.job).value;
            Spent(Put(rows, row), m) + In(prior.month, m, prior.cost) == Spent(rows, m) + In(row.month, m, row.cost)
  {
    var front, last := rows[..|rows| - 1], rows[|rows| - 1];
    assert Put(rows, row)[..|rows| - 1] == Put(front, row);
    if last.job == row.job {
      assert Put(front, row) == front;
    } else {
      SpentPut(front, row, m);
    }
  }

  lemma {:induction false} InterruptedKeepsSpent(rows: seq<Analysis>, source: nat, m: Month)
    ensures Spent(InterruptedRows(rows, source), m) == Spent(rows, m)
  {
    if rows != [] {
      InterruptedKeepsSpent(rows[..|rows| - 1], source, m);
      assert InterruptedRows(rows, source)[..|rows| - 1] == InterruptedRows(rows[..|rows| - 1], source);
    }
  }

  /** Explicit requeueing preserves every month's total exactly. */
  lemma RequeueKeepsTotals(j: Journal, job: Job, includeUncertain: bool, m: Month)
    requires UniqueJobs(j.rows)
    ensures Total(Requeue(j, job, includeUncertain).0, m) == Total(j, m)
  {
    var row := RowOf(j.rows, job);
    if row.Some? && MayRequeue(row.value, includeUncertain) {
      SpentPut(j.rows, Requeued(row.value), m);
      var past := j.past + [AttemptOf(row.value)];
      assert past[..|past| - 1] == j.past;
    }
  }

  /** A reservation of a ready row commits with the month's total within the cap,
      and adds to no other month. */
  lemma ReserveWithinCap(j: Journal, job: Job, amount: Amount, cap: Amount, month: Month, m: Month)
    requires UniqueJobs(j.rows) && Reserve(j, job, amount, cap, month).1
    ensures var after := Reserve(j, job, amount, cap, month).0;
            && (m == month ==> Total(after, m) <= cap)
            && (m != month ==> Total(after, m) <= Total(j, m))
  {
    var row := RowOf(j.rows, job);
    if row.Some? && row.value.state == Ready {
      SpentPut(j.rows, Reserved(row.value, amount, month), m);
    }
  }

  /** A reservation is refused exactly when the month's ledger has no room, and
      the journal changes exactly when a ready row is reserved. */
  lemma ReserveExactly(j: Journal, job: Job, amount: Amount, cap: Amount, month: Month)
    requires UniqueJobs(j.rows)
    ensures var r, row := Reserve(j, job, amount, cap, month), RowOf(j.rows, job);
            && (r.1 <==> Total(j, month) + amount <= cap)
            && (RowOf(r.0.rows, job) != row <==> r.1 && row.Some? && row.value.state == Ready)
            && (forall other :: other != job ==> RowOf(r.0.rows, other) == RowOf(j.rows, other))
            && r.0.past == j.past
  {
    var row := RowOf(j.rows, job);
    if row.Some? {
      forall other ensures RowOf(Put(j.rows, Reserved(row.value, amount, month)), other)
                        == if other == job then Some(Reserved(row.value, amount, month)) else RowOf(j.rows, other)
      {
        RowOfPut(j.rows, Reserved(row.value, amount, month), other);
      }
    }
  }

  // ---------- requeueing and adding ----------

  lemma ArchivedSnoc(past: seq<Attempt>, a: Attempt, job: Job)
    ensures Archived(past + [a], job) == Archived(past, job) + if a.job == job then 1 else 0
  {
    assert (past + [a])[..|past|] == past;
  }

  lemma RequeuedRow(j: Journal, job: Job, includeUncertain: bool, other: Job)
    requires Requeue(j, job, includeUncertain).1
    ensures var after := Requeue(j, job, includeUncertain).0;
            && RowOf(j.rows, job).Some? && MayRequeue(RowOf(j.rows, job).value, includeUncertain)
            && RowOf(after.rows, other)
               == (if other == job then Some(Requeued(RowOf(j.rows, job).value)) else RowOf(j.rows, other))
            && Archived(after.past, other) == Archived(j.past, other) + if other == job then 1 else 0
  {
    var row := RowOf(j.rows, job).value;
    RowOfPut(j.rows, Requeued(row), other);
    ArchivedSnoc(j.past, AttemptOf(row), other);
  }

  /** A requeue is done exactly for an unanswered job that needs attention, or is
      uncertain and may be retried.  It archives one attempt of that job and leaves the
      job ready with nothing reserved; no other job changes, and a second requeue is
      refused until the job was called again. */
  lemma RequeueExactly(j: Journal, job: Job, includeUncertain: bool, again: bool, other: Job)
    requires other != job
    ensures var (after, done) := Requeue(j, job, includeUncertain);
            && (done <==> exists row :: RowOf(j.rows, job) == Some(row) && row.result.None?
                            && (row.state == NeedsAttention || (row.state == Uncertain && includeUncertain)))
            && (!done ==> after == j)
            && (done ==>
                  && RowOf(after.rows, job).Some? && RowOf(after.rows, job).value.state == Ready
                  && RowOf(after.rows, job).value.result.None?
                  && (forall m :: In(RowOf(after.rows, job).value.month, m, RowOf(after.rows, job).value.cost) == 0)
                  && Archived(after.past, job) == Archived(j.past, job) + 1
                  && RowOf(after.rows, other) == RowOf(j.rows, other)
                  && Archived(after.past, other) == Archived(j.past, other)
                  && Requeue(after, job, again) == (after, false))
  {
    var (after, done) := Requeue(j, job, includeUncertain);
    if done {
      RequeuedRow(j, job, includeUncertain, job);
      RequeuedRow(j, job, includeUncertain, other);
    }
    var row := RowOf(j.rows, job);
    assert done <==> row.Some? && MayRequeue(row.value, includeUncertain);
  }

  lemma RowOfSnoc(rows: seq<Analysis>, row: Analysis, job: Job)
    ensures RowOf(rows + [row], job) == if row.job == job then Some(row) else RowOf(rows, job)
  {
    assert (rows + [row])[..|rows|] == rows;
  }

  lemma SpentSnoc(rows: seq<Analysis>, row: Analysis, m: Month)
    ensures Spent(rows + [row], m) == Spent(rows, m) + In(row.month, m, row.cost)
  {
    assert (rows + [row])[..|rows|] == rows;
  }

  /** Adding a job makes sure it has a row, and touches nothing else: every row there
      stays in place, jobs stay unique, no month's total changes, and adding the job
      again, even with other details, changes nothing. */
  lemma AddedOnce(j: Journal, source: nat, job: Job, claim: nat, model: Model, source': nat, claim': nat, model': Model,
                  m: Month)
    ensures var after := Add(j, source, job, claim, model);
            && RowOf(after.rows, job).Some? && j.rows <= after.rows && after.past == j.past
            && (RowOf(j.rows, job).None? ==> RowOf(after.rows, job).value.state == Ready)
            && (UniqueJobs(j.rows) ==> UniqueJobs(after.rows))
            && Total(after, m) == Total(j, m)
            && Add(after, source', job, claim', model') == after
  {
    if RowOf(j.rows, job).None? {
      var row := Analysis(job, source, claim, model, Ready, None, "", None, 0);
      RowOfSnoc(j.rows, row, job);
      SpentSnoc(j.rows, row, m);
      NewJobIsUnique(j.rows, row);
    }
  }

  lemma NewJobIsUnique(rows: seq<Analysis>, row: Analysis)
    requires RowOf(rows, row.job).None?
    ensures UniqueJobs(rows) ==> UniqueJobs(rows + [row])
  {
    forall i | 0 <= i < |rows| ensures rows[i].job != row.job { assert rows[i] in rows; }
  }
}
