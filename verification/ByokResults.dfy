/** A finished description is saved at once and never lost: in every interleaving its
    text stays as it was saved, and its job is not worked on again. */
module ByokResults {
  import opened Options
  import opened ByokJournals
  import opened ByokProtocol
  import opened ByokSafety
  import opened ByokLedger

  // ---------- the invariant ----------

  /** A result is saved before it is sent, and a row with one is only sent. */
  ghost predicate ResultOk(row: Analysis) {
    && (row.result.Some? ==> row.state in {ResultReady, Synced})
    && (row.state == ResultReady ==> row.result.Some?)
  }

  ghost predicate Unanswered(w: World, job: Job) {
    var row := RowOf(w.journal.rows, job);
    row.Some? ==> row.value.result.None?
  }

  ghost predicate ResultsOk(w: World) {
    && (forall job: Job :: RowOf(w.journal.rows, job).Some? ==> ResultOk(RowOf(w.journal.rows, job).value))
    && (forall k :: k in w.workers && w.workers[k].point == Claiming ==> Unanswered(w, w.workers[k].job))
    && (forall s :: s in w.processes ==> forall job :: job in w.processes[s].queue ==> Unanswered(w, job))
  }

  // ---------- rows ----------

  /** A result stays as it is; only the job whose call is settled gets one. */
  ghost predicate RowGoesOn(before: Option<Analysis>, after: Option<Analysis>, own: bool) {
    if before.Some? then
      && after.Some? && ResultOk(after.value)
      && (after.value.result == before.value.result || (own && before.value.result.None?))
    else after.Some? ==> ResultOk(after.value) && after.value.result.None?
  }

  predicate Settles(w: World, e: Event, job: Job) {
    e.Settle? && e.k in w.workers && w.workers[e.k].job == job && w.workers[e.k].point.Returned?
  }

  ghost predicate RowsGoOn(w: World, e: Event) {
    forall job: Job ::
      RowGoesOn(RowOf(w.journal.rows, job), RowOf(Step(w, e).journal.rows, job), Settles(w, e, job))
  }

  /** Writing a state that keeps the result keeps every result. */
  lemma SetGoesOn(j: Journal, job: Job, state: State, error: string, cost: Option<Amount>, other: Job)
    requires forall x: Job :: RowOf(j.rows, x).Some? ==> ResultOk(RowOf(j.rows, x).value)
    requires RowOf(j.rows, job).Some? ==>
               state == Synced || (RowOf(j.rows, job).value.result.None? && state != ResultReady)
    ensures RowGoesOn(RowOf(j.rows, other), RowOf(Set(j, job, state, error, None, cost).rows, other), false)
  {
    var row := RowOf(j.rows, job);
    if row.Some? { RowOfPut(j.rows, Write(row.value, state, error, None, cost), other); }
  }

  lemma RecoverGoesOn(j: Journal, source: nat, job: Job)
    requires RowOf(j.rows, job).Some? ==> ResultOk(RowOf(j.rows, job).value)
    ensures RowGoesOn(RowOf(j.rows, job), RowOf(Recover(j, source).rows, job), false)
  {
    RowOfInterrupted(j.rows, source, job);
  }

  lemma AddGoesOn(j: Journal, source: nat, job: Job, claim: nat, model: Model, other: Job)
    requires RowOf(j.rows, other).Some? ==> ResultOk(RowOf(j.rows, other).value)
    ensures RowGoesOn(RowOf(j.rows, other), RowOf(Add(j, source, job, claim, model).rows, other), false)
  {
    RowOfSnoc(j.rows, Analysis(job, source, claim, model, Ready, None, "", None, 0), other);
  }

  lemma ProcessGoesOn(w: World, e: Event, job: Job)
    requires ResultsOk(w) && (ProcessEvent(e) || e.Halt?)
    ensures RowGoesOn(RowOf(w.journal.rows, job), RowOf(Step(w, e).journal.rows, job), false)
  {
    match e
    case StartRun(source, _, _, _) => RecoverGoesOn(w.journal, source, job);
    case AddJob(source, added, claim) =>
      if source in w.processes { AddGoesOn(w.journal, source, added, claim, w.processes[source].model, job); }
    case FlushResult(source, _) =>
      var page := Page(w.journal.rows, source, {ResultReady}, PAGE, {});
      if page != [] { SetGoesOn(w.journal, page[0].job, Synced, "", None, job); }
    case _ =>
  }

  lemma ClaimGoesOn(w: World, k: nat, answer: Claim, job: Job)
    requires ResultsOk(w)
    ensures RowGoesOn(RowOf(w.journal.rows, job), RowOf(StepClaim(w, k, answer).journal.rows, job), false)
  {
    if At(w, k, Claiming) {
      SetGoesOn(w.journal, w.workers[k].job, Synced, "", None, job);
      SetGoesOn(w.journal, w.workers[k].job, Skipped, "EXISTING_CLOUD_WORK", None, job);
    }
  }

  lemma PutGoesOn(rows: seq<Analysis>, row: Analysis, job: Job)
    requires RowOf(rows, row.job).Some? && RowOf(rows, row.job).value.result.None? && row.result.None?
    requires row.state != ResultReady && (RowOf(rows, job).Some? ==> ResultOk(RowOf(rows, job).value))
    ensures RowGoesOn(RowOf(rows, job), RowOf(Put(rows, row), job), false)
  {
    RowOfPut(rows, row, job);
  }

  lemma WorkerUnanswered(w: World, k: nat)
    requires PoolsOk(w) && ResultsOk(w) && k in w.workers
    requires w.workers[k].point in {Previewing, Reserving} || w.workers[k].point.Returned?
    ensures RowOf(w.journal.rows, w.workers[k].job).Some?
    ensures RowOf(w.journal.rows, w.workers[k].job).value.result.None?
  {
    assert WorkerOk(w, k);
    assert ResultOk(RowOf(w.journal.rows, w.workers[k].job).value);
  }

  lemma RequeueGoesOn(w: World, k: nat, job: Job)
    requires ResultsOk(w)
    ensures RowGoesOn(RowOf(w.journal.rows, job), RowOf(StepRequeue(w, k).journal.rows, job), false)
  {
    if At(w, k, Requeueing) {
      var row := RowOf(w.journal.rows, w.workers[k].job).value;
      if row.result.None? { PutGoesOn(w.journal.rows, Requeued(row), job); }
    }
  }

  lemma PreviewGoesOn(w: World, k: nat, failure: Option<string>, job: Job)
    requires PoolsOk(w) && ResultsOk(w)
    ensures RowGoesOn(RowOf(w.journal.rows, job), RowOf(StepPreview(w, k, failure).journal.rows, job), false)
  {
    if At(w, k, Previewing) && failure.Some? {
      WorkerUnanswered(w, k);
      SetGoesOn(w.journal, w.workers[k].job, NeedsAttention, failure.value, Some(0), job);
    }
  }

  lemma ReserveGoesOn(w: World, k: nat, month: Month, job: Job)
    requires PoolsOk(w) && ResultsOk(w)
    ensures RowGoesOn(RowOf(w.journal.rows, job), RowOf(StepReserve(w, k, month).journal.rows, job), false)
  {
    if At(w, k, Reserving) {
      var row := RowOf(w.journal.rows, w.workers[k].job).value;
      WorkerUnanswered(w, k);
      PutGoesOn(w.journal.rows, Reserved(row, Reservation(row.model), month), job);
    }
  }

  lemma WorkerGoesOn(w: World, e: Event, job: Job)
    requires PoolsOk(w) && ResultsOk(w) && (e.RequeueJob? || e.Preview? || e.ReserveCall? || e.Invoke? || e.Return?)
    ensures RowGoesOn(RowOf(w.journal.rows, job), RowOf(Step(w, e).journal.rows, job), false)
  {
    match e
    case RequeueJob(k) => RequeueGoesOn(w, k, job);
    case Preview(k, failure) => PreviewGoesOn(w, k, failure, job);
    case ReserveCall(k, month) => ReserveGoesOn(w, k, month, job);
    case _ =>
  }

  lemma SyncGoesOn(w: World, k: nat, ok: bool, job: Job)
    requires ResultsOk(w)
    ensures RowGoesOn(RowOf(w.journal.rows, job), RowOf(StepSync(w, k, ok).journal.rows, job), false)
  {
    if At(w, k, Saved) { SetGoesOn(w.journal, w.workers[k].job, Synced, "", None, job); }
  }

  lemma SettledResult(row: Analysis, o: Outcome)
    requires row.result.None?
    ensures SettledRow(row, o).job == row.job && ResultOk(SettledRow(row, o))
    ensures o.Described? ==> SettledRow(row, o).result == Some(o.text) && SettledRow(row, o).state == ResultReady
  {
  }

  lemma PutOwn(rows: seq<Analysis>, row: Analysis, job: Job)
    requires RowOf(rows, row.job).Some? && RowOf(rows, row.job).value.result.None? && ResultOk(row)
    requires RowOf(rows, job).Some? ==> ResultOk(RowOf(rows, job).value)
    ensures RowGoesOn(RowOf(rows, job), RowOf(Put(rows, row), job), job == row.job)
  {
    RowOfPut(rows, row, job);
  }

  /** The end of a call saves its text, if it has one. */
  lemma SettleGoesOn(w: World, k: nat, job: Job)
    requires PoolsOk(w) && ResultsOk(w)
    ensures RowGoesOn(RowOf(w.journal.rows, job), RowOf(StepSettle(w, k).journal.rows, job), Settles(w, Settle(k), job))
  {
    if k in w.workers && w.workers[k].point.Returned? && At(w, k, w.workers[k].point) {
      var row := RowOf(w.journal.rows, w.workers[k].job).value;
      WorkerUnanswered(w, k);
      SettledParts(w, k, row);
      SettledResult(row, w.workers[k].point.outcome);
      PutOwn(w.journal.rows, SettledRow(row, w.workers[k].point.outcome), job);
    }
  }

  lemma StepGoesOn(w: World, e: Event)
    requires PoolsOk(w) && ResultsOk(w)
    ensures RowsGoOn(w, e)
  {
    forall job: Job
      ensures RowGoesOn(RowOf(w.journal.rows, job), RowOf(Step(w, e).journal.rows, job), Settles(w, e, job))
    {
      match e
      case ClaimJob(k, answer) => ClaimGoesOn(w, k, answer, job);
      case SyncResult(k, ok) => SyncGoesOn(w, k, ok, job);
      case Settle(k) => SettleGoesOn(w, k, job);
      case Halt(_) => ProcessGoesOn(w, e, job);
      case RequeueJob(_) => WorkerGoesOn(w, e, job);
      case Preview(_, _) => WorkerGoesOn(w, e, job);
      case ReserveCall(_, _) => WorkerGoesOn(w, e, job);
      case Invoke(_) => WorkerGoesOn(w, e, job);
      case Return(_, _) => WorkerGoesOn(w, e, job);
      case _ => ProcessGoesOn(w, e, job);
    }
  }

  // ---------- queues ----------

  lemma StaysUnanswered(w: World, e: Event, job: Job)
    requires RowsGoOn(w, e) && Unanswered(w, job) && !Settles(w, e, job)
    ensures Unanswered(Step(w, e), job)
  {
    assert RowGoesOn(RowOf(w.journal.rows, job), RowOf(Step(w, e).journal.rows, job), Settles(w, e, job));
  }

  lemma JobsIn(rows: seq<Analysis>, job: Job) returns (row: Analysis)
    requires job in JobsOf(rows)
    ensures row in rows && row.job == job
  {
    var i :| 0 <= i < |rows| && JobsOf(rows)[i] == job;
    row := rows[i];
  }

  lemma PageUnanswered(w: World, source: nat, states: set<State>, limit: nat, exclude: set<Job>, row: Analysis)
    requires PoolsOk(w) && ResultsOk(w) && states <= {Ready, NeedsAttention, Uncertain}
    requires row in Page(w.journal.rows, source, states, limit, exclude)
    ensures Unanswered(w, row.job)
  {
    PageMembers(w.journal.rows, source, states, limit, exclude);
    RowIsUnique(w.journal.rows, row);
    assert ResultOk(RowOf(w.journal.rows, row.job).value);
  }

  /** A queue takes jobs without a result, or keeps some of those it had. */
  lemma QueueUnanswered(w: World, e: Event, s: nat, job: Job)
    requires PoolsOk(w) && ResultsOk(w)
    requires s in Step(w, e).processes && job in Step(w, e).processes[s].queue
    ensures Unanswered(w, job)
  {
    if s in w.processes && job in w.processes[s].queue {
      assert Unanswered(w, job);
    } else if e.TakePage? {
      var page := Page(w.journal.rows, s, {Ready}, e.capacity, JobsInFlight(w, s));
      var row := JobsIn(page, job);
      PageUnanswered(w, s, {Ready}, e.capacity, JobsInFlight(w, s), row);
    } else if e.StartRetry? {
      var states := if e.includeUncertain then {NeedsAttention, Uncertain} else {NeedsAttention};
      var page := Page(w.journal.rows, s, states, e.limit, {});
      var row := JobsIn(OfModel(page, e.model), job);
      OfModelMembers(page, e.model);
      PageUnanswered(w, s, states, e.limit, {}, row);
    } else {
      NoNewJobs(w, e, s, job);
    }
  }

  lemma NoNewJobs(w: World, e: Event, s: nat, job: Job)
    requires !e.TakePage? && !e.StartRetry?
    requires s in Step(w, e).processes && job in Step(w, e).processes[s].queue
    ensures s in w.processes && job in w.processes[s].queue
  {
    if e.Settle? { SettleKeepsQueues(w, e.k, s); } else if !ProcessEvent(e) { WorkerKeepsQueues(w, e, s); }
  }

  lemma SettleKeepsQueues(w: World, k: nat, s: nat)
    requires s in StepSettle(w, k).processes
    ensures s in w.processes && StepSettle(w, k).processes[s].queue == w.processes[s].queue
  {
  }

  lemma WorkerKeepsQueues(w: World, e: Event, s: nat)
    requires !ProcessEvent(e) && !e.Settle? && s in Step(w, e).processes
    ensures s in w.processes && Step(w, e).processes[s].queue == w.processes[s].queue
  {
  }

  // ---------- claims ----------

  /** A worker that claims was claiming, or has just been given a queued job. */
  lemma ClaimingUnanswered(w: World, e: Event, k: nat)
    requires PoolsOk(w) && ResultsOk(w) && k in Step(w, e).workers && Step(w, e).workers[k].point == Claiming
    ensures Unanswered(w, Step(w, e).workers[k].job) && !Settles(w, e, Step(w, e).workers[k].job)
  {
    if e.Submit? && k !in w.workers {
      assert QueueOk(w, e.source);
      assert w.processes[e.source].queue[0] in w.processes[e.source].queue;
    } else {
      StillClaiming(w, e, k);
    }
  }

  lemma StillClaiming(w: World, e: Event, k: nat)
    requires k in Step(w, e).workers && Step(w, e).workers[k].point == Claiming && (e.Submit? ==> k in w.workers)
    requires e.Submit? ==> k != w.nextWorker
    ensures k in w.workers && Step(w, e).workers[k] == w.workers[k]
  {
    if e.Settle? { SettledWorkers(w, e.k, k); } else if !ProcessEvent(e) { MovedWorkers(w, e, k); }
  }

  lemma SettledWorkers(w: World, l: nat, k: nat)
    requires k in StepSettle(w, l).workers && StepSettle(w, l).workers[k].point == Claiming
    ensures k in w.workers && StepSettle(w, l).workers[k] == w.workers[k]
  {
  }

  lemma MovedWorkers(w: World, e: Event, k: nat)
    requires !ProcessEvent(e) && !e.Settle? && k in Step(w, e).workers && Step(w, e).workers[k].point == Claiming
    ensures k in w.workers && Step(w, e).workers[k] == w.workers[k]
  {
  }

  // ---------- every step, every run ----------

  lemma StepKeepsResults(w: World, e: Event)
    requires PoolsOk(w) && ResultsOk(w)
    ensures ResultsOk(Step(w, e))
  {
    var after := Step(w, e);
    StepGoesOn(w, e);
    forall job: Job | RowOf(after.journal.rows, job).Some? ensures ResultOk(RowOf(after.journal.rows, job).value) {
      assert RowGoesOn(RowOf(w.journal.rows, job), RowOf(after.journal.rows, job), Settles(w, e, job));
    }
    forall k | k in after.workers && after.workers[k].point == Claiming
      ensures Unanswered(after, after.workers[k].job)
    {
      ClaimingUnanswered(w, e, k);
      StaysUnanswered(w, e, after.workers[k].job);
    }
    forall s, job | s in after.processes && job in after.processes[s].queue ensures Unanswered(after, job) {
      QueueUnanswered(w, e, s, job);
      QueuedSettlesNot(w, e, s, job);
      StaysUnanswered(w, e, job);
    }
  }

  /** A job that is queued after a step is in no worker's hands whose call is settled. */
  lemma QueuedSettlesNot(w: World, e: Event, s: nat, job: Job)
    requires PoolsOk(w) && s in Step(w, e).processes && job in Step(w, e).processes[s].queue
    ensures !Settles(w, e, job)
  {
    if e.Settle? {
      SettleKeepsQueues(w, e.k, s);
      assert QueueOk(w, s) && QueuedJob(w, s, job);
    }
  }

  lemma {:induction false} RunKeepsResults(events: seq<Event>)
    ensures ResultsOk(After(events)) && PoolsOk(After(events))
  {
    var cap := SomeCap(events);
    RunKeeps(events, cap);
    if events != [] {
      var front := events[..|events| - 1];
      RunKeepsResults(front);
      StepKeepsResults(After(front), events[|events| - 1]);
    }
  }

  lemma SettlingSaves(w: World, k: nat)
    requires PoolsOk(w) && ResultsOk(w) && k in w.workers && w.workers[k].point.Returned?
    requires w.workers[k].point.outcome.Described? && At(w, k, w.workers[k].point)
    ensures var row := RowOf(StepSettle(w, k).journal.rows, w.workers[k].job);
            row.Some? && row.value.result == Some(w.workers[k].point.outcome.text) && row.value.state == ResultReady
  {
    WorkerUnanswered(w, k);
    var row := RowOf(w.journal.rows, w.workers[k].job).value;
    SettledParts(w, k, row);
    SettledResult(row, w.workers[k].point.outcome);
    RowOfPut(w.journal.rows, SettledRow(row, w.workers[k].point.outcome), w.workers[k].job);
  }

  /** In every reachable state, settling a call that was answered saves its text, and the
      result is ready to be sent. */
  lemma DescribedIsSaved(events: seq<Event>, k: nat)
    requires var w := After(events);
             && k in w.workers && w.workers[k].point.Returned? && w.workers[k].point.outcome.Described?
             && At(w, k, w.workers[k].point)
    ensures var w := After(events);
            var row := RowOf(StepSettle(w, k).journal.rows, w.workers[k].job);
            row.Some? && row.value.result == Some(w.workers[k].point.outcome.text) && row.value.state == ResultReady
  {
    RunKeepsResults(events);
    SettlingSaves(After(events), k);
  }

  /** In every run, a text that was saved stays as it was saved, through failed sends,
      crashes, restarts and retries, and its job is only sent, never called again. */
  lemma {:induction false} ResultIsKept(events: seq<Event>, n: nat, job: Job, text: string)
    requires n <= |events|
    requires var row := RowOf(After(events[..n]).journal.rows, job); row.Some? && row.value.result == Some(text)
    ensures var row := RowOf(After(events).journal.rows, job);
            row.Some? && row.value.result == Some(text) && row.value.state in {ResultReady, Synced}
    decreases |events|
  {
    RunKeepsResults(events);
    if n == |events| {
      assert events[..n] == events;
    } else {
      var front, last := events[..|events| - 1], events[|events| - 1];
      assert front[..n] == events[..n];
      ResultIsKept(front, n, job, text);
      RunKeepsResults(front);
      StepGoesOn(After(front), last);
      assert RowGoesOn(RowOf(After(front).journal.rows, job), RowOf(After(events).journal.rows, job),
                       Settles(After(front), last, job));
    }
  }
}
