/** What every interleaving of the worker pools keeps: calls are paid at most once,
    no job is worked on twice at a time, and the ledger respects the monthly cap. */
module ByokSafety {
  import opened Options
  import opened ByokJournals
  import opened ByokProtocol

  // ---------- the invariant ----------

  /** What a worker knows of its row at each point. */
  ghost predicate WorkerOk(w: World, k: nat)
    requires k in w.workers
  {
    var v := w.workers[k];
    var row := RowOf(w.journal.rows, v.job);
    && k < w.nextWorker && v.source in w.processes && !w.processes[v.source].flushing
    && row.Some? && row.value.source == v.source
    && match v.point
       case Claiming => w.processes[v.source].mode == Run ==> row.value.state == Ready
       case Requeueing => w.processes[v.source].mode.Retry?
       case Previewing => row.value.state == Ready
       case Reserving => row.value.state == Ready
       case Paid => Held(row.value) && Calls(w, v.job) <= Archived(w.journal.past, v.job)
       case InCall => Held(row.value)
       case Returned(o) => Held(row.value)
           && (!PossiblyBilled(o) ==> Calls(w, v.job) <= Archived(w.journal.past, v.job))
       case Saved => row.value.state == ResultReady
       case Finished => true
  }

  /** The row holds a committed reservation. */
  ghost predicate Held(row: Analysis) {
    row.state == Calling && row.month.Some? && row.cost == Reservation(row.model)
  }

  ghost predicate Billed(w: World, job: Job) {
    var row := RowOf(w.journal.rows, job);
    && Calls(w, job) <= Archived(w.journal.past, job) + 1
    && (row.None? || row.value.state == Ready ==> Calls(w, job) <= Archived(w.journal.past, job))
  }

  ghost predicate QueueOk(w: World, source: nat)
    requires source in w.processes
  {
    var p := w.processes[source];
    && (forall i, j :: 0 <= i < j < |p.queue| ==> p.queue[i] != p.queue[j])
    && (forall job :: job in p.queue ==> QueuedJob(w, source, job))
    && (p.flushing ==> p.queue == [])
  }

  ghost predicate QueuedJob(w: World, source: nat, job: Job)
    requires source in w.processes
  {
    var row := RowOf(w.journal.rows, job);
    && row.Some? && row.value.source == source
    && (w.processes[source].mode == Run ==> row.value.state == Ready)
    && forall k :: k in w.workers ==> w.workers[k].job != job
  }

  ghost predicate PoolsOk(w: World) {
    && UniqueJobs(w.journal.rows)
    && (forall k :: k in w.workers ==> WorkerOk(w, k))
    && (forall k, l :: k in w.workers && l in w.workers && k != l ==> w.workers[k].job != w.workers[l].job)
    && (forall s :: s in w.processes ==> QueueOk(w, s))
  }

  ghost predicate Capped(w: World, cap: Amount) {
    && (forall m: Month :: Total(w.journal, m) <= cap + w.overrun)
    && (forall s :: s in w.processes ==> w.processes[s].cap <= cap)
  }

  ghost predicate Inv(w: World, cap: Amount) {
    PoolsOk(w) && (forall job: Job :: Billed(w, job)) && Capped(w, cap)
  }

  // ---------- a step of one worker ----------

  ghost predicate SameProcess(p: Process, q: Process) {
    q == p.(stop := q.stop)
  }

  /** Only the worker, its row, its job's counters and stop flags change. */
  ghost predicate Local(w: World, after: World, k: nat)
    requires k in w.workers
  {
    && after.nextWorker == w.nextWorker
    && after.workers.Keys == w.workers.Keys
    && (forall l :: l in w.workers && l != k ==> after.workers[l] == w.workers[l])
    && after.workers[k].job == w.workers[k].job && after.workers[k].source == w.workers[k].source
    && after.processes.Keys == w.processes.Keys
    && (forall s :: s in w.processes ==> SameProcess(w.processes[s], after.processes[s]))
    && UniqueJobs(after.journal.rows)
    && (forall job :: job != w.workers[k].job ==>
          RowOf(after.journal.rows, job) == RowOf(w.journal.rows, job) && Calls(after, job) == Calls(w, job)
          && Archived(after.journal.past, job) == Archived(w.journal.past, job))
  }

  lemma LocalKeepsWorkers(w: World, after: World, k: nat)
    requires PoolsOk(w) && k in w.workers && Local(w, after, k) && WorkerOk(after, k)
    ensures forall l :: l in after.workers ==> WorkerOk(after, l)
    ensures forall i, j :: i in after.workers && j in after.workers && i != j ==>
            after.workers[i].job != after.workers[j].job
  {
    forall l | l in after.workers ensures WorkerOk(after, l) && after.workers[l].job == w.workers[l].job {
      assert WorkerOk(w, l);
    }
  }

  lemma LocalKeepsQueues(w: World, after: World, k: nat, s: nat)
    requires PoolsOk(w) && k in w.workers && Local(w, after, k) && s in after.processes
    ensures QueueOk(after, s)
  {
    assert QueueOk(w, s) && SameProcess(w.processes[s], after.processes[s]);
    forall job | job in after.processes[s].queue ensures QueuedJob(after, s, job) {
      assert QueuedJob(w, s, job);
      assert w.workers[k].job != job;
      forall l | l in after.workers ensures after.workers[l].job != job { assert w.workers[l].job != job; }
    }
  }

  lemma LocalKeepsProcesses(w: World, after: World, k: nat, cap: Amount)
    requires PoolsOk(w) && Capped(w, cap) && k in w.workers && Local(w, after, k)
    ensures forall s :: s in after.processes ==> QueueOk(after, s) && after.processes[s].cap <= cap
  {
    forall s | s in after.processes ensures QueueOk(after, s) && after.processes[s].cap <= cap {
      LocalKeepsQueues(w, after, k, s);
      assert SameProcess(w.processes[s], after.processes[s]);
    }
  }

  lemma LocalKeepsBilled(w: World, after: World, k: nat)
    requires k in w.workers && Local(w, after, k) && Billed(after, w.workers[k].job)
    requires forall job: Job :: Billed(w, job)
    ensures forall job: Job :: Billed(after, job)
  {
    forall job: Job ensures Billed(after, job) {
      assert Billed(w, job);
    }
  }

  lemma LocalKeeps(w: World, after: World, k: nat, cap: Amount)
    requires Inv(w, cap) && k in w.workers && Local(w, after, k)
    requires WorkerOk(after, k) && Billed(after, w.workers[k].job)
    requires forall m: Month :: Total(after.journal, m) <= cap + after.overrun
    ensures Inv(after, cap)
  {
    LocalKeepsWorkers(w, after, k);
    LocalKeepsProcesses(w, after, k, cap);
    LocalKeepsBilled(w, after, k);
  }

  lemma {:induction false} PutIsUnique(rows: seq<Analysis>, row: Analysis)
    requires UniqueJobs(rows)
    ensures UniqueJobs(Put(rows, row))
  {
  }

  /** Writing the row of one job touches no other job. */
  lemma PutIsLocal(rows: seq<Analysis>, row: Analysis)
    requires UniqueJobs(rows) && RowOf(rows, row.job).Some?
    ensures UniqueJobs(Put(rows, row)) && RowOf(Put(rows, row), row.job) == Some(row)
    ensures forall job :: job != row.job ==> RowOf(Put(rows, row), job) == RowOf(rows, job)
  {
    PutIsUnique(rows, row);
    forall job ensures RowOf(Put(rows, row), job) == if job == row.job then Some(row) else RowOf(rows, job) {
      RowOfPut(rows, row, job);
    }
  }

  // ---------- steps that only move a worker ----------

  lemma MoveKeeps(w: World, k: nat, point: Point, cap: Amount)
    requires Inv(w, cap) && k in w.workers && WorkerOk(Moved(w, k, point), k)
    ensures Inv(Moved(w, k, point), cap)
  {
    assert Billed(w, w.workers[k].job);
    LocalKeeps(w, Moved(w, k, point), k, cap);
  }

  lemma StopKeeps(w: World, source: nat, cap: Amount)
    requires Inv(w, cap)
    ensures Inv(Stopped(w, source), cap)
  {
    var after := Stopped(w, source);
    forall k | k in after.workers ensures WorkerOk(after, k) { assert WorkerOk(w, k); }
    StopKeepsQueues(w, source);
    forall job: Job ensures Billed(after, job) { assert Billed(w, job); }
  }

  lemma StopKeepsQueues(w: World, source: nat)
    requires forall s :: s in w.processes ==> QueueOk(w, s)
    ensures forall s :: s in Stopped(w, source).processes ==> QueueOk(Stopped(w, source), s)
  {
    var after := Stopped(w, source);
    forall s | s in after.processes ensures QueueOk(after, s) {
      assert QueueOk(w, s);
      forall job | job in after.processes[s].queue ensures QueuedJob(after, s, job) { assert QueuedJob(w, s, job); }
    }
  }

  // ---------- steps that write the worker's row ----------

  /** Writing a row is fine when the worker's point, the job's calls and the ledger
      fit the new row. */
  lemma WriteKeeps(w: World, k: nat, row: Analysis, point: Point, overrun: Amount, cap: Amount)
    requires Inv(w, cap) && k in w.workers && row.job == w.workers[k].job
    requires var prior := RowOf(w.journal.rows, row.job);
             && prior.Some? && row.source == prior.value.source
             && forall m: Month :: In(row.month, m, row.cost) <= In(prior.value.month, m, prior.value.cost) + overrun
    requires var after := Rewritten(w, k, row, point, overrun);
             RowOf(after.journal.rows, row.job) == Some(row) ==> WorkerOk(after, k) && Billed(after, row.job)
    ensures Inv(Rewritten(w, k, row, point, overrun), cap)
  {
    var after := Rewritten(w, k, row, point, overrun);
    PutIsLocal(w.journal.rows, row);
    forall m: Month ensures Total(after.journal, m) <= cap + after.overrun {
      assert Total(w.journal, m) <= cap + w.overrun;
      SpentPut(w.journal.rows, row, m);
    }
    LocalKeeps(w, after, k, cap);
  }

  ghost function Rewritten(w: World, k: nat, row: Analysis, point: Point, overrun: Amount): World
    requires k in w.workers
  {
    Moved(w.(journal := w.journal.(rows := Put(w.journal.rows, row)), overrun := w.overrun + overrun), k, point)
  }

  lemma ClaimKeeps(w: World, k: nat, answer: Claim, cap: Amount)
    requires Inv(w, cap)
    ensures Inv(StepClaim(w, k, answer), cap)
  {
    if At(w, k, Claiming) {
      var v := w.workers[k];
      var row := RowOf(w.journal.rows, v.job).value;
      assert WorkerOk(w, k) && Billed(w, v.job);
      MoveKeeps(w, k, Finished, cap);
      StopKeeps(Moved(w, k, Finished), v.source, cap);
      if row.model == w.processes[v.source].model {
        match answer
        case Granted => MoveKeeps(w, k, if w.processes[v.source].mode.Retry? then Requeueing else Previewing, cap);
        case Succeeded => WriteKeeps(w, k, Write(row, Synced, "", None, None), Finished, 0, cap);
        case Unavailable => WriteKeeps(w, k, Write(row, Skipped, "EXISTING_CLOUD_WORK", None, None), Finished, 0, cap);
        case Broken =>
      }
    }
  }

  lemma PreviewKeeps(w: World, k: nat, failure: Option<string>, cap: Amount)
    requires Inv(w, cap)
    ensures Inv(StepPreview(w, k, failure), cap)
  {
    if At(w, k, Previewing) {
      assert WorkerOk(w, k) && Billed(w, w.workers[k].job);
      if failure.Some? {
        var row := RowOf(w.journal.rows, w.workers[k].job).value;
        WriteKeeps(w, k, Write(row, NeedsAttention, failure.value, None, Some(0)), Finished, 0, cap);
      } else {
        MoveKeeps(w, k, Reserving, cap);
      }
    }
  }

  lemma RequeueKeeps(w: World, k: nat, cap: Amount)
    requires Inv(w, cap)
    ensures Inv(StepRequeue(w, k), cap)
  {
    if At(w, k, Requeueing) && w.processes[w.workers[k].source].mode.Retry? {
      var job := w.workers[k].job;
      var uncertain := w.processes[w.workers[k].source].mode.includeUncertain;
      var row := RowOf(w.journal.rows, job).value;
      assert WorkerOk(w, k) && Billed(w, job);
      if MayRequeue(row, uncertain) {
        RequeuedKeeps(w, k, row, uncertain, cap);
      } else {
        MoveKeeps(w, k, Finished, cap);
      }
    }
  }

  lemma ArchivedSnoc(past: seq<Attempt>, a: Attempt, job: Job)
    ensures Archived(past + [a], job) == Archived(past, job) + if a.job == job then 1 else 0
  {
    assert (past + [a])[..|past|] == past;
  }

  lemma RequeuedRows(j: Journal, row: Analysis, uncertain: bool)
    requires UniqueJobs(j.rows) && RowOf(j.rows, row.job) == Some(row) && MayRequeue(row, uncertain)
    ensures var after := Requeue(j, row.job, uncertain).0;
            && UniqueJobs(after.rows) && RowOf(after.rows, row.job) == Some(Requeued(row))
            && Archived(after.past, row.job) == Archived(j.past, row.job) + 1
            && forall job :: job != row.job ==>
                 RowOf(after.rows, job) == RowOf(j.rows, job) && Archived(after.past, job) == Archived(j.past, job)
  {
    PutIsLocal(j.rows, Requeued(row));
    forall job
      ensures Archived(j.past + [AttemptOf(row)], job) == Archived(j.past, job) + if row.job == job then 1 else 0
    {
      ArchivedSnoc(j.past, AttemptOf(row), job);
    }
  }

  lemma RequeuedLocal(w: World, k: nat, row: Analysis, uncertain: bool)
    requires UniqueJobs(w.journal.rows) && At(w, k, Requeueing)
    requires RowOf(w.journal.rows, w.workers[k].job) == Some(row) && MayRequeue(row, uncertain)
    ensures var after := Moved(w.(journal := Requeue(w.journal, row.job, uncertain).0), k, Previewing);
            Local(w, after, k)
  {
    RequeuedRows(w.journal, row, uncertain);
  }

  lemma RequeuedWorker(w: World, k: nat, row: Analysis, uncertain: bool)
    requires PoolsOk(w) && At(w, k, Requeueing) && Billed(w, row.job)
    requires RowOf(w.journal.rows, w.workers[k].job) == Some(row) && MayRequeue(row, uncertain)
    ensures var after := Moved(w.(journal := Requeue(w.journal, row.job, uncertain).0), k, Previewing);
            WorkerOk(after, k) && Billed(after, row.job)
  {
    assert WorkerOk(w, k);
    RequeuedRows(w.journal, row, uncertain);
  }

  lemma RequeuedKeeps(w: World, k: nat, row: Analysis, uncertain: bool, cap: Amount)
    requires Inv(w, cap) && At(w, k, Requeueing)
    requires RowOf(w.journal.rows, w.workers[k].job) == Some(row) && MayRequeue(row, uncertain)
    ensures Inv(Moved(w.(journal := Requeue(w.journal, row.job, uncertain).0), k, Previewing), cap)
  {
    var after := Moved(w.(journal := Requeue(w.journal, row.job, uncertain).0), k, Previewing);
    assert Billed(w, row.job);
    RequeuedLocal(w, k, row, uncertain);
    RequeuedWorker(w, k, row, uncertain);
    forall m: Month ensures Total(after.journal, m) <= cap + after.overrun {
      assert Total(w.journal, m) <= cap + w.overrun;
      RequeueKeepsTotals(w.journal, row.job, uncertain, m);
    }
    LocalKeeps(w, after, k, cap);
  }

  lemma ReserveKeeps(w: World, k: nat, month: Month, cap: Amount)
    requires Inv(w, cap)
    ensures Inv(StepReserve(w, k, month), cap)
  {
    if At(w, k, Reserving) {
      var v := w.workers[k];
      var row := RowOf(w.journal.rows, v.job).value;
      assert WorkerOk(w, k) && Billed(w, v.job);
      var r := Reserve(w.journal, v.job, Reservation(row.model), w.processes[v.source].cap, month);
      if r.1 {
        ReservedKeeps(w, k, row, month, cap);
      } else {
        MoveKeeps(w, k, Finished, cap);
        StopKeeps(Moved(w, k, Finished), v.source, cap);
      }
    }
  }

  lemma ReservedLocal(w: World, k: nat, row: Analysis, month: Month)
    requires PoolsOk(w) && At(w, k, Reserving) && Billed(w, row.job)
             && RowOf(w.journal.rows, w.workers[k].job) == Some(row)
    ensures var reserved := Reserved(row, Reservation(row.model), month);
            var after := Moved(w.(journal := w.journal.(rows := Put(w.journal.rows, reserved))), k, Paid);
            Local(w, after, k) && WorkerOk(after, k) && Billed(after, row.job)
  {
    assert WorkerOk(w, k);
    PutIsLocal(w.journal.rows, Reserved(row, Reservation(row.model), month));
  }

  lemma ReservedKeeps(w: World, k: nat, row: Analysis, month: Month, cap: Amount)
    requires Inv(w, cap) && At(w, k, Reserving) && RowOf(w.journal.rows, w.workers[k].job) == Some(row)
    requires Reserve(w.journal, row.job, Reservation(row.model), w.processes[w.workers[k].source].cap, month).1
    ensures var r := Reserve(w.journal, row.job, Reservation(row.model), w.processes[w.workers[k].source].cap, month);
            Inv(Moved(w.(journal := r.0), k, Paid), cap)
  {
    var limit := w.processes[w.workers[k].source].cap;
    var reserved := Reserved(row, Reservation(row.model), month);
    var after := Moved(w.(journal := w.journal.(rows := Put(w.journal.rows, reserved))), k, Paid);
    assert WorkerOk(w, k) && Billed(w, row.job);
    assert after.journal == Reserve(w.journal, row.job, Reservation(row.model), limit, month).0;
    ReservedLocal(w, k, row, month);
    forall m: Month ensures Total(after.journal, m) <= cap + after.overrun {
      assert Total(w.journal, m) <= cap + w.overrun;
      ReserveWithinCap(w.journal, row.job, Reservation(row.model), limit, month, m);
    }
    LocalKeeps(w, after, k, cap);
  }

  function Counted(w: World, k: nat, calls: nat, point: Point): World
    requires k in w.workers
  {
    Moved(w.(calls := w.calls[w.workers[k].job := calls]), k, point)
  }

  lemma CountedIsLocal(w: World, k: nat, calls: nat, point: Point)
    requires UniqueJobs(w.journal.rows) && k in w.workers
    ensures Local(w, Counted(w, k, calls, point), k)
  {
  }

  /** Only the calls of the worker's job are counted anew. */
  lemma CountedKeeps(w: World, k: nat, calls: nat, point: Point, cap: Amount)
    requires Inv(w, cap) && k in w.workers
    requires WorkerOk(Counted(w, k, calls, point), k) && Billed(Counted(w, k, calls, point), w.workers[k].job)
    ensures Inv(Counted(w, k, calls, point), cap)
  {
    CountedIsLocal(w, k, calls, point);
    LocalKeeps(w, Counted(w, k, calls, point), k, cap);
  }

  lemma InvokeKeeps(w: World, k: nat, cap: Amount)
    requires Inv(w, cap)
    ensures Inv(StepInvoke(w, k), cap)
  {
    if At(w, k, Paid) {
      var job := w.workers[k].job;
      assert WorkerOk(w, k) && Billed(w, job);
      assert StepInvoke(w, k) == Counted(w, k, Calls(w, job) + 1, InCall);
      CountedKeeps(w, k, Calls(w, job) + 1, InCall, cap);
    }
  }

  lemma ReturnedBilled(w: World, k: nat, outcome: Outcome, cap: Amount)
    requires Inv(w, cap) && At(w, k, InCall) && (PossiblyBilled(outcome) || Calls(w, w.workers[k].job) == 0)
    ensures Inv(Moved(w, k, Returned(outcome)), cap)
  {
    assert WorkerOk(w, k) && Billed(w, w.workers[k].job);
    MoveKeeps(w, k, Returned(outcome), cap);
  }

  lemma UncountedCall(w: World, k: nat, outcome: Outcome)
    requires k in w.workers && WorkerOk(w, k) && Billed(w, w.workers[k].job) && w.workers[k].point == InCall
    requires !PossiblyBilled(outcome) && Calls(w, w.workers[k].job) > 0
    ensures var after := Counted(w, k, Calls(w, w.workers[k].job) - 1, Returned(outcome));
            WorkerOk(after, k) && Billed(after, w.workers[k].job)
  {
  }

  lemma ReturnedUnbilled(w: World, k: nat, outcome: Outcome, cap: Amount)
    requires Inv(w, cap) && At(w, k, InCall) && !PossiblyBilled(outcome) && Calls(w, w.workers[k].job) > 0
    ensures Inv(Counted(w, k, Calls(w, w.workers[k].job) - 1, Returned(outcome)), cap)
  {
    var job := w.workers[k].job;
    assert WorkerOk(w, k) && Billed(w, job);
    UncountedCall(w, k, outcome);
    CountedKeeps(w, k, Calls(w, job) - 1, Returned(outcome), cap);
  }

  lemma ReturnKeeps(w: World, k: nat, outcome: Outcome, cap: Amount)
    requires Inv(w, cap)
    ensures Inv(StepReturn(w, k, outcome), cap)
  {
    if At(w, k, InCall) {
      if PossiblyBilled(outcome) || Calls(w, w.workers[k].job) == 0 {
        ReturnedBilled(w, k, outcome, cap);
      } else {
        ReturnedUnbilled(w, k, outcome, cap);
      }
    }
  }

  lemma WrittenIsRewritten(w: World, k: nat, state: State, error: string, result: Option<string>, cost: Option<Amount>,
                           point: Point, overrun: Amount)
    requires k in w.workers && RowOf(w.journal.rows, w.workers[k].job).Some?
    ensures var row := Write(RowOf(w.journal.rows, w.workers[k].job).value, state, error, result, cost);
            && Written(w, k, state, error, result, cost, point).(overrun := w.overrun + overrun)
               == Rewritten(w, k, row, point, overrun)
            && Written(w, k, state, error, result, cost, point) == Rewritten(w, k, row, point, 0)
  {
  }

  lemma EndedCall(w: World, k: nat, row: Analysis, point: Point, overrun: Amount)
    requires k in w.workers && WorkerOk(w, k) && Billed(w, w.workers[k].job) && w.workers[k].point.Returned?
    requires var prior := RowOf(w.journal.rows, w.workers[k].job).value;
             row.job == prior.job && row.source == prior.source
    requires (point == Finished && row.state != Ready) || (point == Saved && row.state == ResultReady)
             || (point == Finished && row.state == Ready && !PossiblyBilled(w.workers[k].point.outcome))
    requires RowOf(Rewritten(w, k, row, point, overrun).journal.rows, row.job) == Some(row)
    ensures WorkerOk(Rewritten(w, k, row, point, overrun), k) && Billed(Rewritten(w, k, row, point, overrun), row.job)
  {
  }

  /** Ending a call: the reservation is replaced by `cost`, or kept. */
  lemma EndCallKeeps(w: World, k: nat, state: State, error: string, result: Option<string>, cost: Option<Amount>,
                     point: Point, overrun: Amount, cap: Amount)
    requires Inv(w, cap) && k in w.workers && w.workers[k].point.Returned?
    requires RowOf(w.journal.rows, w.workers[k].job).Some?
    requires cost.Some? ==> cost.value <= Reservation(RowOf(w.journal.rows, w.workers[k].job).value.model) + overrun
    requires (point == Finished && state != Ready) || (point == Saved && state == ResultReady)
             || (point == Finished && state == Ready && !PossiblyBilled(w.workers[k].point.outcome))
    ensures Inv(Written(w, k, state, error, result, cost, point).(overrun := w.overrun + overrun), cap)
    ensures overrun == 0 ==> Inv(Written(w, k, state, error, result, cost, point), cap)
  {
    var prior := RowOf(w.journal.rows, w.workers[k].job).value;
    var row := Write(prior, state, error, result, cost);
    assert WorkerOk(w, k) && Billed(w, row.job);
    PutIsLocal(w.journal.rows, row);
    EndedCall(w, k, row, point, overrun);
    WriteKeeps(w, k, row, point, overrun, cap);
    WrittenIsRewritten(w, k, state, error, result, cost, point, overrun);
  }

  lemma DescribedKeeps(w: World, k: nat, cap: Amount)
    requires Inv(w, cap) && k in w.workers && w.workers[k].point.Returned? && w.workers[k].point.outcome.Described?
    ensures Inv(StepSettle(w, k), cap)
  {
    if At(w, k, w.workers[k].point) {
      var outcome := w.workers[k].point.outcome;
      var reserved := Reservation(RowOf(w.journal.rows, w.workers[k].job).value.model);
      var cost := if outcome.charge.Some? then outcome.charge.value else reserved;
      var overrun := if cost > reserved then cost - reserved else 0;
      EndCallKeeps(w, k, ResultReady, "", Some(outcome.text), Some(cost), Saved, overrun, cap);
      var written := Written(w, k, ResultReady, "", Some(outcome.text), Some(cost), Saved);
      assert StepSettle(w, k) == written.(overrun := w.overrun + overrun);
    }
  }

  lemma FailedKeeps(w: World, k: nat, cap: Amount)
    requires Inv(w, cap) && k in w.workers && w.workers[k].point.Returned? && !w.workers[k].point.outcome.Described?
    ensures Inv(StepSettle(w, k), cap)
  {
    if At(w, k, w.workers[k].point) {
      match w.workers[k].point.outcome
      case ProviderError(rejected, called, image) =>
        var state := if rejected then Ready else if !called then NeedsAttention else Uncertain;
        var cost := if (rejected && !image) || !called then Some(0) else None;
        FailureKeeps(w, k, state, if image then "IMAGE" else "PROVIDER", cost, cap);
      case UnknownOutcome =>
        FailureKeeps(w, k, Uncertain, "PROVIDER_OUTCOME_UNKNOWN", None, cap);
    }
  }

  lemma FailureKeeps(w: World, k: nat, state: State, error: string, cost: Option<Amount>, cap: Amount)
    requires Inv(w, cap) && k in w.workers && w.workers[k].point.Returned?
             && RowOf(w.journal.rows, w.workers[k].job).Some?
    requires (cost.Some? ==> cost.value == 0) && (state == Ready ==> !PossiblyBilled(w.workers[k].point.outcome))
    ensures Inv(Written(w, k, state, error, None, cost, Finished), cap)
    ensures Inv(Stopped(Written(w, k, state, error, None, cost, Finished), w.workers[k].source), cap)
  {
    EndCallKeeps(w, k, state, error, None, cost, Finished, 0, cap);
    StopKeeps(Written(w, k, state, error, None, cost, Finished), w.workers[k].source, cap);
  }

  lemma SyncKeeps(w: World, k: nat, ok: bool, cap: Amount)
    requires Inv(w, cap)
    ensures Inv(StepSync(w, k, ok), cap)
  {
    if At(w, k, Saved) {
      var row := RowOf(w.journal.rows, w.workers[k].job).value;
      assert WorkerOk(w, k) && Billed(w, row.job);
      WriteKeeps(w, k, Write(row, Synced, "", None, None), Finished, 0, cap);
      MoveKeeps(w, k, Finished, cap);
      StopKeeps(Moved(w, k, Finished), w.workers[k].source, cap);
    }
  }

  // ---------- steps of a process ----------

  /** Opening, changing or queueing in one process, with the journal's jobs as they
      were. */
  lemma ProcessKeeps(w: World, source: nat, p: Process, cap: Amount)
    requires Inv(w, cap) && p.cap <= cap
    requires source in w.processes ==>
               p.mode == w.processes[source].mode && (w.processes[source].flushing || !p.flushing)
    requires source !in w.processes || w.processes[source].flushing ==> forall k :: k in w.workers ==>
             w.workers[k].source != source
    requires forall i, j :: 0 <= i < j < |p.queue| ==> p.queue[i] != p.queue[j]
    requires forall job :: job in p.queue ==> QueuedJob(Opened(w, source, p), source, job)
    requires p.flushing ==> p.queue == []
    ensures Inv(Opened(w, source, p), cap)
  {
    var after := Opened(w, source, p);
    forall k | k in after.workers ensures WorkerOk(after, k) { assert WorkerOk(w, k); }
    forall s | s in after.processes ensures QueueOk(after, s) {
      if s != source {
        assert QueueOk(w, s);
        forall job | job in after.processes[s].queue ensures QueuedJob(after, s, job) { assert QueuedJob(w, s, job); }
      }
    }
    forall job: Job ensures Billed(after, job) { assert Billed(w, job); }
  }

  /** Without a process of the source there are no workers for its jobs, and no
      other process has queued them. */
  lemma RecoverKeeps(w: World, source: nat, cap: Amount)
    requires Inv(w, cap) && source !in w.processes
    ensures Inv(w.(journal := Recover(w.journal, source)), cap)
  {
    var after := w.(journal := Recover(w.journal, source));
    forall job ensures RowOf(after.journal.rows, job)
                    == (var row := RowOf(w.journal.rows, job);
                        if row.Some? then Some(Interrupted(row.value, source)) else None)
    {
      RowOfInterrupted(w.journal.rows, source, job);
    }
    forall k | k in after.workers ensures WorkerOk(after, k) { assert WorkerOk(w, k); }
    forall s | s in after.processes ensures QueueOk(after, s) {
      assert QueueOk(w, s);
      forall job | job in after.processes[s].queue ensures QueuedJob(after, s, job) { assert QueuedJob(w, s, job); }
    }
    forall job: Job ensures Billed(after, job) { assert Billed(w, job); }
    forall m: Month ensures Total(after.journal, m) <= cap + after.overrun {
      InterruptedKeepsSpent(w.journal.rows, source, m);
      assert Total(w.journal, m) <= cap + w.overrun;
    }
  }

  lemma NoWorkersWithoutProcess(w: World, source: nat)
    requires PoolsOk(w) && (source !in w.processes || w.processes[source].flushing)
    ensures forall k :: k in w.workers ==> w.workers[k].source != source
  {
    forall k | k in w.workers ensures w.workers[k].source != source { assert WorkerOk(w, k); }
  }

  lemma StartRunKeeps(w: World, source: nat, model: Model, width: nat, limit: Amount, cap: Amount)
    requires Inv(w, cap) && limit <= cap
    ensures Inv(StepStartRun(w, source, model, width, limit), cap)
  {
    if source !in w.processes {
      RecoverKeeps(w, source, cap);
      NoWorkersWithoutProcess(w, source);
      ProcessKeeps(w.(journal := Recover(w.journal, source)), source,
          Process(Run, model, width, limit, false, true, []), cap);
    }
  }

  lemma {:induction false} OfModelMembers(rows: seq<Analysis>, model: Model)
    ensures forall row :: row in OfModel(rows, model) ==> row in rows
    ensures UniqueJobs(rows) ==> UniqueJobs(OfModel(rows, model))
  {
    if rows != [] {
      var front, last := rows[..|rows| - 1], rows[|rows| - 1];
      OfModelMembers(front, model);
      assert rows == front + [last];
      if UniqueJobs(rows) {
        forall row | row in front ensures row.job != last.job {
          var i :| 0 <= i < |front| && front[i] == row;
          assert rows[i].job != rows[|rows| - 1].job;
        }
      }
    }
  }

  lemma PageMembers(rows: seq<Analysis>, source: nat, states: set<State>, limit: nat, exclude: set<Job>)
    requires UniqueJobs(rows)
    ensures var page := Page(rows, source, states, limit, exclude);
            && UniqueJobs(page) && |page| <= limit
            && forall row :: row in page ==>
               row in rows && row.source == source && row.state in states && row.job !in exclude
  {
    var all := Matching(rows, source, states, exclude);
    MatchingMembers(rows, source, states, exclude);
    MatchingUnique(rows, source, states, exclude);
    var page := Page(rows, source, states, limit, exclude);
    forall row | row in page ensures row in all {}
    forall i, j | 0 <= i < j < |page|
      ensures page[i].job != page[j].job
    {
      assert page[i] == all[i] && page[j] == all[j];
    }
  }

  lemma StartRetryKeeps(w: World, e: Event, cap: Amount)
    requires Inv(w, cap) && e.StartRetry? && e.cap <= cap
    ensures Inv(Step(w, e), cap)
  {
    if e.source !in w.processes {
      var states := if e.includeUncertain then {NeedsAttention, Uncertain} else {NeedsAttention};
      var page := Page(w.journal.rows, e.source, states, e.limit, {});
      var rows := OfModel(page, e.model);
      PageMembers(w.journal.rows, e.source, states, e.limit, {});
      OfModelMembers(page, e.model);
      NoWorkersWithoutProcess(w, e.source);
      var p := Process(Retry(e.includeUncertain), e.model, e.width, e.cap, false, false, JobsOf(rows));
      forall job | job in p.queue ensures QueuedJob(Opened(w, e.source, p), e.source, job) {
        var i :| 0 <= i < |rows| && rows[i].job == job;
        assert rows[i] in rows;
        RowIsUnique(w.journal.rows, rows[i]);
        forall k | k in w.workers ensures w.workers[k].job != job { assert WorkerOk(w, k); }
      }
      ProcessKeeps(w, e.source, p, cap);
    }
  }

  lemma TakePageKeeps(w: World, source: nat, capacity: nat, cap: Amount)
    requires Inv(w, cap)
    ensures Inv(StepTakePage(w, source, capacity), cap)
  {
    if Taking(w, source) && w.processes[source].queue == [] {
      var page := Page(w.journal.rows, source, {Ready}, capacity, JobsInFlight(w, source));
      PageMembers(w.journal.rows, source, {Ready}, capacity, JobsInFlight(w, source));
      var p := w.processes[source].(queue := JobsOf(page));
      assert QueueOk(w, source);
      forall job | job in p.queue ensures QueuedJob(Opened(w, source, p), source, job) {
        var i :| 0 <= i < |page| && page[i].job == job;
        assert page[i] in page;
        RowIsUnique(w.journal.rows, page[i]);
        forall k | k in w.workers ensures w.workers[k].job != job {
          assert WorkerOk(w, k);
          if w.workers[k].source == source { assert k in InFlight(w, source); }
        }
      }
      ProcessKeeps(w, source, p, cap);
    }
  }

  lemma ShorterQueueKeeps(w: World, source: nat, rest: Process, cap: Amount)
    requires Inv(w, cap) && source in w.processes && w.processes[source].queue != []
    requires rest == w.processes[source].(queue := rest.queue)
    requires rest.queue == [] || rest.queue == w.processes[source].queue[1..]
    ensures Inv(Opened(w, source, rest), cap)
  {
    assert QueueOk(w, source);
    forall job | job in rest.queue ensures QueuedJob(Opened(w, source, rest), source, job) {
      assert job in w.processes[source].queue;
      assert QueuedJob(w, source, job);
    }
    ProcessKeeps(w, source, rest, cap);
  }

  lemma SubmitKeeps(w: World, source: nat, cap: Amount)
    requires Inv(w, cap)
    ensures Inv(StepSubmit(w, source), cap)
  {
    if source in w.processes && w.processes[source].queue != [] {
      var p := w.processes[source];
      assert QueueOk(w, source);
      var rest := p.(queue := if p.stop then [] else p.queue[1..]);
      ShorterQueueKeeps(w, source, rest, cap);
      if p.stop {
        assert StepSubmit(w, source) == Opened(w, source, rest);
      } else if |InFlight(w, source)| < 2 * p.width {
        assert StepSubmit(w, source) == Submitted(Opened(w, source, rest), source, p.queue[0], w.nextWorker);
        SubmittedKeeps(w, Opened(w, source, rest), source, cap);
      }
    }
  }

  function Submitted(taken: World, source: nat, job: Job, k: nat): World {
    taken.(workers := taken.workers[k := Worker(source, job, Claiming)], nextWorker := k + 1)
  }

  lemma SubmittedKeeps(w: World, taken: World, source: nat, cap: Amount)
    requires Inv(w, cap) && Inv(taken, cap) && source in w.processes && w.processes[source].queue != []
    requires taken == Opened(w, source, w.processes[source].(queue := w.processes[source].queue[1..]))
    ensures Inv(Submitted(taken, source, w.processes[source].queue[0], w.nextWorker), cap)
  {
    var head := w.processes[source].queue[0];
    var after := Submitted(taken, source, head, w.nextWorker);
    assert QueueOk(w, source);
    assert head in w.processes[source].queue && QueuedJob(w, source, head);
    forall k | k in w.workers ensures k < w.nextWorker { assert WorkerOk(w, k); }
    SubmittedWorkers(w, taken, source);
    forall s | s in after.processes ensures QueueOk(after, s) {
      SubmittedQueue(w, taken, after, source, s);
    }
    forall job: Job ensures Billed(after, job) { assert Billed(taken, job); }
  }

  lemma SubmittedWorkers(w: World, taken: World, source: nat)
    requires PoolsOk(w) && PoolsOk(taken) && source in w.processes && w.processes[source].queue != []
    requires taken == Opened(w, source, w.processes[source].(queue := w.processes[source].queue[1..]))
    requires forall k :: k in w.workers ==> k < w.nextWorker
    ensures var after := Submitted(taken, source, w.processes[source].queue[0], w.nextWorker);
            forall k :: k in after.workers ==> WorkerOk(after, k)
  {
    var head := w.processes[source].queue[0];
    var after := Submitted(taken, source, head, w.nextWorker);
    assert QueueOk(w, source);
    assert head in w.processes[source].queue && QueuedJob(w, source, head);
    forall k | k in after.workers ensures WorkerOk(after, k) {
      if k != w.nextWorker { assert WorkerOk(taken, k); }
    }
  }

  lemma SubmittedQueue(w: World, taken: World, after: World, source: nat, s: nat)
    requires PoolsOk(w) && PoolsOk(taken) && source in w.processes && w.processes[source].queue != []
    requires taken == Opened(w, source, w.processes[source].(queue := w.processes[source].queue[1..]))
    requires after == Submitted(taken, source, w.processes[source].queue[0], w.nextWorker)
    requires s in after.processes
    ensures QueueOk(after, s)
  {
    var head := w.processes[source].queue[0];
    assert QueueOk(w, source) && QueueOk(taken, s);
    assert head in w.processes[source].queue && QueuedJob(w, source, head);
    forall job | job in after.processes[s].queue ensures QueuedJob(after, s, job) {
      assert QueuedJob(taken, s, job);
      assert job != head;
    }
  }

  lemma FlushKeeps(w: World, source: nat, ok: bool, cap: Amount)
    requires Inv(w, cap)
    ensures Inv(StepFlush(w, source, ok), cap)
  {
    if source in w.processes && w.processes[source].flushing && !w.processes[source].stop {
      var page := Page(w.journal.rows, source, {ResultReady}, PAGE, {});
      assert QueueOk(w, source);
      NoWorkersWithoutProcess(w, source);
      StopKeeps(w, source, cap);
      if page == [] {
        ProcessKeeps(w, source, w.processes[source].(flushing := false), cap);
      } else {
        PageMembers(w.journal.rows, source, {ResultReady}, PAGE, {});
        assert page[0] in page;
        RowIsUnique(w.journal.rows, page[0]);
        SavedKeeps(w, page[0], cap);
      }
    }
  }

  /** Sending a saved result outside the pool. */
  lemma SavedKeeps(w: World, row: Analysis, cap: Amount)
    requires Inv(w, cap) && RowOf(w.journal.rows, row.job) == Some(row) && row.state == ResultReady
    requires forall k :: k in w.workers ==> w.workers[k].source != row.source
    ensures Inv(w.(journal := Set(w.journal, row.job, Synced, "", None, None)), cap)
  {
    var sent := Write(row, Synced, "", None, None);
    var after := w.(journal := w.journal.(rows := Put(w.journal.rows, sent)));
    PutIsLocal(w.journal.rows, sent);
    forall k | k in after.workers ensures WorkerOk(after, k) { assert WorkerOk(w, k); }
    forall s | s in after.processes ensures QueueOk(after, s) {
      assert QueueOk(w, s);
      forall job | job in after.processes[s].queue ensures QueuedJob(after, s, job) { assert QueuedJob(w, s, job); }
    }
    forall job: Job ensures Billed(after, job) { assert Billed(w, job); }
    forall m: Month ensures Total(after.journal, m) <= cap + after.overrun {
      SpentPut(w.journal.rows, sent, m);
      assert Total(w.journal, m) <= cap + w.overrun;
    }
  }

  function WithRow(w: World, added: Analysis): World {
    w.(journal := w.journal.(rows := w.journal.rows + [added]))
  }

  lemma AddKeeps(w: World, source: nat, job: Job, claim: nat, cap: Amount)
    requires Inv(w, cap)
    ensures Inv(StepAdd(w, source, job, claim), cap)
  {
    if Taking(w, source) && RowOf(w.journal.rows, job).None? {
      var added := Analysis(job, source, claim, w.processes[source].model, Ready, None, "", None, 0);
      AddedPools(w, added);
      AddedBills(w, added);
      AddedCaps(w, added, cap);
      assert StepAdd(w, source, job, claim) == WithRow(w, added);
    }
  }

  lemma AddedPools(w: World, added: Analysis)
    requires PoolsOk(w) && RowOf(w.journal.rows, added.job).None?
    ensures PoolsOk(WithRow(w, added))
  {
    var after := WithRow(w, added);
    AddedRow(w.journal.rows, added);
    forall k | k in after.workers ensures WorkerOk(after, k) { assert WorkerOk(w, k); }
    forall s | s in after.processes ensures QueueOk(after, s) {
      assert QueueOk(w, s);
      forall x | x in after.processes[s].queue ensures QueuedJob(after, s, x) { assert QueuedJob(w, s, x); }
    }
  }

  lemma AddedBills(w: World, added: Analysis)
    requires UniqueJobs(w.journal.rows) && RowOf(w.journal.rows, added.job).None? && added.state == Ready
    requires forall x: Job :: Billed(w, x)
    ensures forall x: Job :: Billed(WithRow(w, added), x)
  {
    AddedRow(w.journal.rows, added);
    forall x: Job ensures Billed(WithRow(w, added), x) { assert Billed(w, x); }
  }

  lemma AddedCaps(w: World, added: Analysis, cap: Amount)
    requires Capped(w, cap) && added.month.None?
    ensures Capped(WithRow(w, added), cap)
  {
    forall m: Month ensures Total(WithRow(w, added).journal, m) <= cap + w.overrun {
      SpentSnoc(w.journal.rows, added, m);
      assert Total(w.journal, m) <= cap + w.overrun;
    }
  }

  lemma AddedRow(rows: seq<Analysis>, added: Analysis)
    requires UniqueJobs(rows) && RowOf(rows, added.job).None?
    ensures UniqueJobs(rows + [added])
    ensures forall job :: RowOf(rows + [added], job) == if job == added.job then Some(added) else RowOf(rows, job)
  {
    assert (rows + [added])[..|rows|] == rows;
  }

  lemma FewerWorkersKeeps(w: World, gone: set<nat>, processes: map<nat, Process>, cap: Amount)
    requires Inv(w, cap) && processes.Keys <= w.processes.Keys
             && (forall s :: s in processes ==> processes[s] == w.processes[s])
    requires forall k :: k in w.workers && k !in gone ==> w.workers[k].source in processes
    ensures Inv(w.(processes := processes, workers := w.workers - gone), cap)
  {
    var after := w.(processes := processes, workers := w.workers - gone);
    forall k | k in after.workers ensures WorkerOk(after, k) { assert WorkerOk(w, k); }
    forall s | s in after.processes ensures QueueOk(after, s) {
      assert QueueOk(w, s);
      forall job | job in after.processes[s].queue ensures QueuedJob(after, s, job) { assert QueuedJob(w, s, job); }
    }
    forall job: Job ensures Billed(after, job) { assert Billed(w, job); }
  }

  lemma EndKeeps(w: World, source: nat, cap: Amount)
    requires Inv(w, cap)
    ensures Inv(StepEnd(w, source), cap)
  {
    if source in w.processes && InFlight(w, source) == {} {
      forall k | k in w.workers ensures w.workers[k].source in w.processes - {source} {
        assert WorkerOk(w, k) && k !in InFlight(w, source);
      }
      FewerWorkersKeeps(w, {}, w.processes - {source}, cap);
      assert w.workers - {} == w.workers;
    }
  }

  lemma CrashKeeps(w: World, source: nat, cap: Amount)
    requires Inv(w, cap)
    ensures Inv(StepCrash(w, source), cap)
  {
    forall k | k in w.workers && k !in InFlight(w, source) ensures w.workers[k].source in w.processes - {source} {
      assert WorkerOk(w, k);
    }
    FewerWorkersKeeps(w, InFlight(w, source), w.processes - {source}, cap);
  }

  lemma ReapKeeps(w: World, k: nat, cap: Amount)
    requires Inv(w, cap)
    ensures Inv(StepReap(w, k), cap)
  {
    forall l | l in w.workers ensures w.workers[l].source in w.processes { assert WorkerOk(w, l); }
    FewerWorkersKeeps(w, {k}, w.processes, cap);
  }

  lemma HaltKeeps(w: World, k: nat, cap: Amount)
    requires Inv(w, cap)
    ensures Inv(StepHalt(w, k), cap)
  {
    if k in w.workers {
      assert WorkerOk(w, k);
      MoveKeeps(w, k, Finished, cap);
    }
  }

  // ---------- every event, every run ----------

  /** Commands use a monthly cap of at most `cap`. */
  predicate CapsWithin(events: seq<Event>, cap: Amount) {
    forall e :: e in events ==> (e.StartRun? || e.StartRetry? ==> e.cap <= cap)
  }

  predicate ProcessEvent(e: Event) {
    e.StartRun? || e.StartRetry? || e.FlushResult? || e.AddJob? || e.TakePage? || e.Submit? || e.Reap? || e.End?
        || e.Crash?
  }

  lemma ProcessStepKeeps(w: World, e: Event, cap: Amount)
    requires Inv(w, cap) && ProcessEvent(e) && (e.StartRun? || e.StartRetry? ==> e.cap <= cap)
    ensures Inv(Step(w, e), cap)
  {
    match e
    case StartRun(source, model, width, limit) => StartRunKeeps(w, source, model, width, limit, cap);
    case StartRetry(_, _, _, _, _, _) => StartRetryKeeps(w, e, cap);
    case FlushResult(source, ok) => FlushKeeps(w, source, ok, cap);
    case AddJob(source, job, claim) => AddKeeps(w, source, job, claim, cap);
    case TakePage(source, capacity) => TakePageKeeps(w, source, capacity, cap);
    case Submit(source) => SubmitKeeps(w, source, cap);
    case Reap(k) => ReapKeeps(w, k, cap);
    case End(source) => EndKeeps(w, source, cap);
    case Crash(source) => CrashKeeps(w, source, cap);
  }

  lemma WorkerStepKeeps(w: World, e: Event, cap: Amount)
    requires Inv(w, cap) && !ProcessEvent(e)
    ensures Inv(Step(w, e), cap)
  {
    match e
    case Halt(k) => HaltKeeps(w, k, cap);
    case ClaimJob(k, answer) => ClaimKeeps(w, k, answer, cap);
    case RequeueJob(k) => RequeueKeeps(w, k, cap);
    case Preview(k, failure) => PreviewKeeps(w, k, failure, cap);
    case ReserveCall(k, month) => ReserveKeeps(w, k, month, cap);
    case Invoke(k) => InvokeKeeps(w, k, cap);
    case Return(k, outcome) => ReturnKeeps(w, k, outcome, cap);
    case Settle(k) => SettleKeeps(w, k, cap);
    case SyncResult(k, ok) => SyncKeeps(w, k, ok, cap);
  }

  lemma SettleKeeps(w: World, k: nat, cap: Amount)
    requires Inv(w, cap)
    ensures Inv(StepSettle(w, k), cap)
  {
    if k in w.workers && w.workers[k].point.Returned? {
      if w.workers[k].point.outcome.Described? { DescribedKeeps(w, k, cap); } else { FailedKeeps(w, k, cap); }
    }
  }

  lemma StepKeeps(w: World, e: Event, cap: Amount)
    requires Inv(w, cap) && CapsWithin([e], cap)
    ensures Inv(Step(w, e), cap)
  {
    assert e in [e];
    if ProcessEvent(e) { ProcessStepKeeps(w, e, cap); } else { WorkerStepKeeps(w, e, cap); }
  }

  lemma {:induction false} RunKeeps(events: seq<Event>, cap: Amount)
    requires CapsWithin(events, cap)
    ensures Inv(After(events), cap)
  {
    if events != [] {
      var front, last := events[..|events| - 1], events[|events| - 1];
      assert events == front + [last];
      RunKeeps(front, cap);
      StepKeeps(After(front), last, cap);
    }
  }

  lemma {:induction false} SomeCap(events: seq<Event>) returns (cap: Amount)
    ensures CapsWithin(events, cap)
  {
    if events == [] {
      cap := 0;
    } else {
      var front, last := events[..|events| - 1], events[|events| - 1];
      assert events == front + [last];
      cap := SomeCap(front);
      if (last.StartRun? || last.StartRetry?) && last.cap > cap { cap := last.cap; }
    }
  }

  /** Calls are paid at most once: in every reachable state the possibly billed calls
      of a job exceed its archived attempts by at most one, and by none while the job
      is ready. */
  lemma PaidAtMostOnce(events: seq<Event>, job: Job)
    ensures var w := After(events);
            var row := RowOf(w.journal.rows, job);
            && Calls(w, job) <= Archived(w.journal.past, job) + 1
            && (row.None? || row.value.state == Ready ==> Calls(w, job) <= Archived(w.journal.past, job))
  {
    var cap := SomeCap(events);
    RunKeeps(events, cap);
    assert Billed(After(events), job);
  }

  /** No job is in flight in two workers, and a worker that calls holds a committed
      reservation for its job. */
  lemma NoJobTwice(events: seq<Event>)
    ensures var w := After(events);
            && (forall k, l :: k in w.workers && l in w.workers && k != l ==> w.workers[k].job != w.workers[l].job)
            && (forall k :: k in w.workers && w.workers[k].point in {Paid, InCall} ==>
                  var row := RowOf(w.journal.rows, w.workers[k].job); row.Some? && Held(row.value))
  {
    var cap := SomeCap(events);
    RunKeeps(events, cap);
    var w := After(events);
    forall k | k in w.workers && w.workers[k].point in {Paid, InCall}
      ensures RowOf(w.journal.rows, w.workers[k].job).Some? && Held(RowOf(w.journal.rows, w.workers[k].job).value)
    {
      assert WorkerOk(w, k);
    }
  }

  /** Every month's ledger stays within the cap, up to what charges exceeded their
      reservations by. */
  lemma LedgerWithinCap(events: seq<Event>, cap: Amount, m: Month)
    requires CapsWithin(events, cap)
    ensures Total(After(events).journal, m) <= cap + After(events).overrun
  {
    RunKeeps(events, cap);
  }

  // ---------- without retries, without overruns ----------

  ghost predicate OnlyRuns(w: World) {
    w.journal.past == [] && forall s :: s in w.processes ==> w.processes[s].mode == Run
  }

  lemma ProcessStepArchivesNothing(w: World, e: Event)
    requires OnlyRuns(w)
    requires e.StartRun? || e.FlushResult? || e.AddJob? || e.TakePage? || e.Submit? || e.Reap? || e.End? || e.Crash?
             || e.Halt?
    ensures OnlyRuns(Step(w, e))
  {
  }

  lemma ClaimArchivesNothing(w: World, e: Event)
    requires OnlyRuns(w) && (e.ClaimJob? || e.RequeueJob? || e.Preview?)
    ensures OnlyRuns(Step(w, e))
  {
  }

  lemma CallArchivesNothing(w: World, e: Event)
    requires OnlyRuns(w) && (e.ReserveCall? || e.Invoke? || e.Return? || e.SyncResult?)
    ensures OnlyRuns(Step(w, e))
  {
  }

  lemma SettleArchivesNothing(w: World, k: nat)
    requires OnlyRuns(w)
    ensures OnlyRuns(StepSettle(w, k))
  {
  }

  lemma {:induction false} NothingArchived(events: seq<Event>)
    requires forall e :: e in events ==> !e.StartRetry?
    ensures OnlyRuns(After(events))
  {
    if events != [] {
      var front, last := events[..|events| - 1], events[|events| - 1];
      assert events == front + [last];
      NothingArchived(front);
      if last.ClaimJob? || last.RequeueJob? || last.Preview? {
        ClaimArchivesNothing(After(front), last);
      } else if last.ReserveCall? || last.Invoke? || last.Return? || last.SyncResult? {
        CallArchivesNothing(After(front), last);
      } else if last.Settle? {
        SettleArchivesNothing(After(front), last.k);
      } else {
        ProcessStepArchivesNothing(After(front), last);
      }
    }
  }

  /** Without an explicit retry, no job is ever paid for twice. */
  lemma NeverPaidTwice(events: seq<Event>, job: Job)
    requires forall e :: e in events ==> !e.StartRetry?
    ensures Calls(After(events), job) <= 1
  {
    PaidAtMostOnce(events, job);
    NothingArchived(events);
  }

  /** The charge being settled is at most its reservation. */
  ghost predicate SettlesWithin(w: World, e: Event) {
    e.Settle? && e.k in w.workers ==>
      var row := RowOf(w.journal.rows, w.workers[e.k].job);
      match w.workers[e.k].point
      case Returned(Described(_, charge)) => charge.Some? && row.Some? ==> charge.value <= Reservation(row.value.model)
      case _ => true
  }

  lemma StepKeepsOverrun(w: World, e: Event)
    requires SettlesWithin(w, e)
    ensures Step(w, e).overrun == w.overrun
  {
    if e.Settle? { SettleKeepsOverrun(w, e.k); }
  }

  lemma SettleKeepsOverrun(w: World, k: nat)
    requires SettlesWithin(w, Settle(k))
    ensures StepSettle(w, k).overrun == w.overrun
  {
  }

  lemma {:induction false} NoOverrun(events: seq<Event>)
    requires forall i :: 0 <= i < |events| ==> SettlesWithin(After(events[..i]), events[i])
    ensures After(events).overrun == 0
  {
    if events != [] {
      var n := |events| - 1;
      forall i | 0 <= i < n ensures SettlesWithin(After(events[..n][..i]), events[..n][i]) {
        assert events[..n][..i] == events[..i];
        assert SettlesWithin(After(events[..i]), events[i]);
      }
      NoOverrun(events[..n]);
      StepKeepsOverrun(After(events[..n]), events[n]);
    }
  }

  /** When every settled charge is at most its reservation, every month's ledger is
      within the cap in every reachable state. */
  lemma LedgerIsCapped(events: seq<Event>, cap: Amount, m: Month)
    requires CapsWithin(events, cap)
    requires forall i :: 0 <= i < |events| ==> SettlesWithin(After(events[..i]), events[i])
    ensures Total(After(events).journal, m) <= cap
  {
    NoOverrun(events);
    LedgerWithinCap(events, cap, m);
  }
}
