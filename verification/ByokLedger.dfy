/** What the monthly ledger counts: in every interleaving it covers every call that may
    have been billed, and it holds nothing else. */
module ByokLedger {
  import opened Options
  import opened ByokJournals
  import opened ByokProtocol
  import opened ByokSafety

  // ---------- what calls cost, read off the events ----------

  /** The provider turned the call away, or was never reached. */
  predicate Unbilled(o: Outcome) {
    o.ProviderError? && (o.rejected || !o.called)
  }

  predicate Reserves(front: seq<Event>, e: Event, k: nat) {
    && e.ReserveCall? && e.k == k && At(After(front), k, Reserving)
    && k in Step(After(front), e).workers && Step(After(front), e).workers[k].point == Paid
  }

  /** The month in which a worker reserved its call. */
  function MonthOf(events: seq<Event>, k: nat): Option<Month> {
    if events == [] then None
    else
      var front, last := events[..|events| - 1], events[|events| - 1];
      if Reserves(front, last, k) then Some(last.month) else MonthOf(front, k)
  }

  /** What a call of the job reserves. */
  function Price(w: World, job: Job): Amount {
    var row := RowOf(w.journal.rows, job);
    if row.Some? then Reservation(row.value.model) else 0
  }

  /** The worker is at a call of this job, reserved in this month. */
  predicate CallsFor(front: seq<Event>, k: nat, job: Job, m: Month) {
    var w := After(front);
    k in w.workers && At(w, k, w.workers[k].point) && w.workers[k].job == job && MonthOf(front, k) == Some(m)
  }

  /** The charge takes the place of the reservation. */
  function Reported(o: Outcome, price: int): int {
    match o
    case Described(_, Some(charge)) => charge - price
    case _ => 0
  }

  /** What one more event adds to the cost of the calls that may be billed: a call costs
      its reservation from when it is made until its charge is reported, and nothing
      when it turns out unbilled. */
  function Adds(front: seq<Event>, e: Event, job: Job, m: Month): int {
    var w := After(front);
    var price: int := Price(w, job);
    match e
    case Invoke(k) => if CallsFor(front, k, job, m) && w.workers[k].point == Paid then price else 0
    case Return(k, o) =>
      if CallsFor(front, k, job, m) && w.workers[k].point == InCall && Unbilled(o) then -price else 0
    case Settle(k) =>
      if CallsFor(front, k, job, m) && w.workers[k].point.Returned? then Reported(w.workers[k].point.outcome, price)
      else 0
    case _ => 0
  }

  /** What the calls of a job that may be billed cost in a month. */
  function Owed(events: seq<Event>, job: Job, m: Month): int {
    if events == [] then 0
    else Owed(events[..|events| - 1], job, m) + Adds(events[..|events| - 1], events[|events| - 1], job, m)
  }

  /** The one end of a call that is not billed and leaves the job ready with its
      reservation: an image the provider turned away after a call. */
  predicate KeepsReservation(o: Outcome) {
    o.ProviderError? && o.rejected && o.called && o.image
  }

  /** What one more event adds to what such ends have left on a job: it stays until the
      job is reserved anew, or its preview fails. */
  function Leaves(front: seq<Event>, e: Event, job: Job, m: Month): int
    decreases |front|, 1
  {
    var w := After(front);
    var price: int := Price(w, job);
    match e
    case ReserveCall(k, _) => if Reserves(front, e, k) && w.workers[k].job == job then -Left(front, job, m) else 0
    case Preview(k, failure) =>
      if At(w, k, Previewing) && failure.Some? && w.workers[k].job == job then -Left(front, job, m) else 0
    case Settle(k) =>
      if CallsFor(front, k, job, m) && w.workers[k].point.Returned? && KeepsReservation(w.workers[k].point.outcome)
      then price else 0
    case _ => 0
  }

  function Left(events: seq<Event>, job: Job, m: Month): int
    decreases |events|, 0
  {
    if events == [] then 0
    else Left(events[..|events| - 1], job, m) + Leaves(events[..|events| - 1], events[|events| - 1], job, m)
  }

  /** What one more event adds to what is held for a job: a reservation is held from
      when it is made, and replaced by the charge, or freed by an unbilled end, at once
      or later. */
  function Holds(front: seq<Event>, e: Event, job: Job, m: Month): int {
    var w := After(front);
    var price: int := Price(w, job);
    match e
    case ReserveCall(k, month) =>
      Leaves(front, e, job, m) + if Reserves(front, e, k) && w.workers[k].job == job && month == m then price else 0
    case Preview(_, _) => Leaves(front, e, job, m)
    case Settle(k) =>
      if CallsFor(front, k, job, m) && w.workers[k].point.Returned? then
        if KeepsReservation(w.workers[k].point.outcome) then 0
        else if Unbilled(w.workers[k].point.outcome) then -price
        else Reported(w.workers[k].point.outcome, price)
      else 0
    case _ => 0
  }

  function Kept(events: seq<Event>, job: Job, m: Month): int {
    if events == [] then 0
    else Kept(events[..|events| - 1], job, m) + Holds(events[..|events| - 1], events[|events| - 1], job, m)
  }

  function PastCost(past: seq<Attempt>, job: Job, m: Month): Amount {
    if past == [] then 0
    else
      PastCost(past[..|past| - 1], job, m)
      + if past[|past| - 1].job == job then In(past[|past| - 1].month, m, past[|past| - 1].cost) else 0
  }

  predicate AddsNone(front: seq<Event>, e: Event, job: Job, m: Month) {
    Adds(front, e, job, m) == 0 && Holds(front, e, job, m) == 0 && Leaves(front, e, job, m) == 0
  }

  // ---------- the invariant ----------

  /** A row that is called, or whose call may have been billed, holds its reservation in
      its month; a row that needs attention holds nothing. */
  ghost predicate RowHolds(row: Analysis) {
    && (row.state in {Calling, Uncertain} ==> row.month.Some? && row.cost == Reservation(row.model))
    && (row.state == NeedsAttention ==> row.cost == 0)
  }

  ghost predicate Fits(row: Option<Analysis>, past: Amount, owed: int, held: int, left: int, m: Month) {
    var current := if row.Some? then In(row.value.month, m, row.value.cost) else 0;
    && owed <= past + current
    && (row.None? || row.value.state == Ready ==> owed <= past)
    && held == past + current
    && (row.None? ==> left == 0)
    && (row.Some? && row.value.state == Ready ==> left == current)
    && (row.Some? && row.value.state !in {Ready, Synced, Skipped} ==> left == 0)
  }

  /** The amounts of a job fit a row of it. */
  ghost predicate FitsIn(events: seq<Event>, past: seq<Attempt>, row: Option<Analysis>, job: Job, m: Month) {
    Fits(row, PastCost(past, job, m), Owed(events, job, m), Kept(events, job, m), Left(events, job, m), m)
  }

  ghost predicate JobFits(w: World, events: seq<Event>, job: Job) {
    forall m: Month ::
      FitsIn(events, w.journal.past, RowOf(w.journal.rows, job), job, m)
  }

  ghost predicate NothingOwed(w: World, events: seq<Event>, job: Job) {
    forall m: Month :: Owed(events, job, m) <= PastCost(w.journal.past, job, m)
  }

  ghost predicate WorkerFits(w: World, events: seq<Event>, k: nat)
    requires k in w.workers
  {
    var v := w.workers[k];
    var row := RowOf(w.journal.rows, v.job);
    match v.point
    case Paid => row.Some? && row.value.month == MonthOf(events, k) && NothingOwed(w, events, v.job)
    case InCall => row.Some? && row.value.month == MonthOf(events, k)
    case Returned(o) =>
      && row.Some? && row.value.month == MonthOf(events, k)
      && (Unbilled(o) ==> NothingOwed(w, events, v.job))
    case _ => true
  }

  ghost predicate LedgerFits(w: World, events: seq<Event>) {
    && (forall job: Job :: JobFits(w, events, job))
    && (forall job: Job :: RowOf(w.journal.rows, job).Some? ==> RowHolds(RowOf(w.journal.rows, job).value))
    && (forall k :: k in w.workers ==> WorkerFits(w, events, k))
  }

  // ---------- one more event ----------

  lemma OneMore(front: seq<Event>, e: Event)
    ensures After(front + [e]) == Step(After(front), e)
    ensures forall k :: MonthOf(front + [e], k) == if Reserves(front, e, k) then Some(e.month) else MonthOf(front, k)
    ensures forall job, m :: Owed(front + [e], job, m) == Owed(front, job, m) + Adds(front, e, job, m)
    ensures forall job, m :: Kept(front + [e], job, m) == Kept(front, job, m) + Holds(front, e, job, m)
    ensures forall job, m :: Left(front + [e], job, m) == Left(front, job, m) + Leaves(front, e, job, m)
  {
    assert (front + [e])[..|front|] == front;
  }

  predicate EventOf(e: Event, k: nat) {
    match e
    case Halt(l) => l == k
    case ClaimJob(l, _) => l == k
    case RequeueJob(l) => l == k
    case Preview(l, _) => l == k
    case ReserveCall(l, _) => l == k
    case Invoke(l) => l == k
    case Return(l, _) => l == k
    case Settle(l) => l == k
    case SyncResult(l, _) => l == k
    case _ => false
  }

  /** An event of a worker changes what is owed and kept for its own job only. */
  lemma OthersOwe(front: seq<Event>, e: Event, k: nat, job: Job, m: Month)
    requires k in After(front).workers && After(front).workers[k].job != job && EventOf(e, k)
    ensures AddsNone(front, e, job, m)
  {
  }

  /** The step of a worker leaves other workers and the records of other jobs alone. */
  ghost predicate OwnStep(w: World, after: World, k: nat)
    requires k in w.workers
  {
    && after.workers.Keys == w.workers.Keys && after.workers[k].job == w.workers[k].job
    && (forall l :: l in w.workers && l != k ==> after.workers[l] == w.workers[l])
    && forall job :: job != w.workers[k].job ==> SameRecords(w, after, job)
  }

  ghost predicate SameRecords(w: World, after: World, job: Job) {
    && RowOf(after.journal.rows, job) == RowOf(w.journal.rows, job)
    && forall m: Month :: PastCost(after.journal.past, job, m) == PastCost(w.journal.past, job, m)
  }

  /** The worker's own job and row fit after its step. */
  ghost predicate OwnFits(after: World, events: seq<Event>, k: nat)
    requires k in after.workers
  {
    var job := after.workers[k].job;
    && JobFits(after, events, job) && WorkerFits(after, events, k)
    && (RowOf(after.journal.rows, job).Some? ==> RowHolds(RowOf(after.journal.rows, job).value))
  }

  lemma OthersFit(front: seq<Event>, e: Event, k: nat)
    requires PoolsOk(After(front)) && LedgerFits(After(front), front) && EventOf(e, k)
    requires k in After(front).workers && OwnStep(After(front), After(front + [e]), k)
    ensures var after, job := After(front + [e]), After(front).workers[k].job;
            && (forall other: Job :: other != job ==> JobFits(after, front + [e], other))
            && (forall l :: l in after.workers && l != k ==> WorkerFits(after, front + [e], l))
  {
    var w, after, job := After(front), After(front + [e]), After(front).workers[k].job;
    OneMore(front, e);
    forall other: Job, m: Month | other != job
      ensures AddsNone(front, e, other, m)
    {
      OthersOwe(front, e, k, other, m);
    }
    forall other: Job | other != job ensures JobFits(after, front + [e], other) {
      assert JobFits(w, front, other) && SameRecords(w, after, other);
      OtherJobFits(front, e, other);
    }
    forall l | l in after.workers && l != k ensures WorkerFits(after, front + [e], l) {
      assert WorkerFits(w, front, l) && w.workers[l].job != job;
      assert SameRecords(w, after, w.workers[l].job) && !Reserves(front, e, l);
      OtherWorkerFits(front, e, l);
    }
  }

  lemma OtherJobFits(front: seq<Event>, e: Event, job: Job)
    requires JobFits(After(front), front, job) && SameRecords(After(front), After(front + [e]), job)
    requires forall m: Month :: AddsNone(front, e, job, m)
    ensures JobFits(After(front + [e]), front + [e], job)
  {
    var w, after := After(front), After(front + [e]);
    OneMore(front, e);
    forall m: Month
      ensures FitsIn(front + [e], after.journal.past, RowOf(after.journal.rows, job), job, m)
    {
      assert AddsNone(front, e, job, m);
      assert FitsIn(front, w.journal.past, RowOf(w.journal.rows, job), job, m);
    }
  }

  lemma OtherWorkerFits(front: seq<Event>, e: Event, l: nat)
    requires l in After(front).workers && l in After(front + [e]).workers
    requires After(front + [e]).workers[l] == After(front).workers[l] && WorkerFits(After(front), front, l)
    requires SameRecords(After(front), After(front + [e]), After(front).workers[l].job) && !Reserves(front, e, l)
    requires forall m: Month :: AddsNone(front, e, After(front).workers[l].job, m)
    ensures WorkerFits(After(front + [e]), front + [e], l)
  {
    var w, after, job := After(front), After(front + [e]), After(front).workers[l].job;
    OneMore(front, e);
    if NothingOwed(w, front, job) {
      forall m: Month ensures Owed(front + [e], job, m) <= PastCost(after.journal.past, job, m) {
        assert AddsNone(front, e, job, m) && Owed(front, job, m) <= PastCost(w.journal.past, job, m);
        assert PastCost(after.journal.past, job, m) == PastCost(w.journal.past, job, m);
      }
    }
  }

  lemma WorkerStepFits(front: seq<Event>, e: Event, k: nat)
    requires PoolsOk(After(front)) && LedgerFits(After(front), front) && EventOf(e, k)
    requires k in After(front).workers && OwnStep(After(front), After(front + [e]), k)
    requires OwnFits(After(front + [e]), front + [e], k)
    ensures LedgerFits(After(front + [e]), front + [e])
  {
    var w, after := After(front), After(front + [e]);
    OthersFit(front, e, k);
    forall job: Job | RowOf(after.journal.rows, job).Some?
      ensures RowHolds(RowOf(after.journal.rows, job).value)
    {
      if job != w.workers[k].job { assert SameRecords(w, after, job); }
    }
  }

  // ---------- steps that change no amount ----------

  /** A row is new and ready, or keeps its amounts in a state that is not ready. */
  ghost predicate Milder(before: Option<Analysis>, after: Option<Analysis>) {
    || after == before
    || (before.None? && after.Some? && after.value.state == Ready && after.value.month.None? && after.value.cost == 0)
    || (before.Some? && after.Some?
        && after.value == before.value.(state := after.value.state, error := after.value.error)
        && (after.value.state in {Synced, Skipped}
            || (after.value.state == Uncertain && before.value.state == Calling)))
  }

  /** A worker that has no reservation in hand. */
  predicate Unpaid(point: Point) {
    point != Paid && point != InCall && !point.Returned?
  }

  /** Nothing is owed or kept anew. */
  ghost predicate AddsNothing(front: seq<Event>, e: Event) {
    && (forall job, m :: AddsNone(front, e, job, m))
    && forall l :: !Reserves(front, e, l)
  }

  ghost predicate MilderRows(w: World, after: World) {
    && after.journal.past == w.journal.past
    && forall job :: Milder(RowOf(w.journal.rows, job), RowOf(after.journal.rows, job))
  }

  /** No worker has a reservation in hand that had none. */
  ghost predicate MilderWorkers(w: World, after: World) {
    forall l :: l in after.workers ==>
      Unpaid(after.workers[l].point) || (l in w.workers && after.workers[l] == w.workers[l])
  }

  ghost predicate Quiet(front: seq<Event>, e: Event) {
    AddsNothing(front, e) && MilderRows(After(front), Step(After(front), e))
    && MilderWorkers(After(front), Step(After(front), e))
  }

  lemma QuietFits(front: seq<Event>, e: Event)
    requires LedgerFits(After(front), front) && Quiet(front, e)
    ensures LedgerFits(After(front + [e]), front + [e])
  {
    var w, after := After(front), After(front + [e]);
    OneMore(front, e);
    forall job: Job ensures JobFits(after, front + [e], job) { QuietJob(front, e, job); }
    forall l | l in after.workers ensures WorkerFits(after, front + [e], l) {
      if !Unpaid(after.workers[l].point) { QuietWorker(front, e, l); }
    }
    MilderHolds(w, after);
  }

  lemma MilderHolds(w: World, after: World)
    requires MilderRows(w, after)
    requires forall job: Job :: RowOf(w.journal.rows, job).Some? ==> RowHolds(RowOf(w.journal.rows, job).value)
    ensures forall job: Job :: RowOf(after.journal.rows, job).Some? ==>
              RowHolds(RowOf(after.journal.rows, job).value)
  {
    forall job: Job | RowOf(after.journal.rows, job).Some?
      ensures RowHolds(RowOf(after.journal.rows, job).value)
    {
      assert Milder(RowOf(w.journal.rows, job), RowOf(after.journal.rows, job));
    }
  }

  lemma QuietJob(front: seq<Event>, e: Event, job: Job)
    requires JobFits(After(front), front, job) && Quiet(front, e)
    ensures JobFits(After(front + [e]), front + [e], job)
  {
    var w, after := After(front), After(front + [e]);
    OneMore(front, e);
    assert Milder(RowOf(w.journal.rows, job), RowOf(after.journal.rows, job));
    forall m: Month
      ensures FitsIn(front + [e], after.journal.past, RowOf(after.journal.rows, job), job, m)
    {
      assert AddsNone(front, e, job, m);
      assert FitsIn(front, w.journal.past, RowOf(w.journal.rows, job), job, m);
    }
  }

  lemma QuietWorker(front: seq<Event>, e: Event, l: nat)
    requires LedgerFits(After(front), front) && Quiet(front, e)
    requires l in After(front + [e]).workers && !Unpaid(After(front + [e]).workers[l].point)
    ensures WorkerFits(After(front + [e]), front + [e], l)
  {
    OneMore(front, e);
    var w, after, job := After(front), After(front + [e]), After(front).workers[l].job;
    assert WorkerFits(w, front, l);
    assert Milder(RowOf(w.journal.rows, job), RowOf(after.journal.rows, job));
    if NothingOwed(w, front, job) {
      forall m: Month ensures Owed(front + [e], job, m) <= PastCost(after.journal.past, job, m) {
        assert AddsNone(front, e, job, m) && Owed(front, job, m) <= PastCost(w.journal.past, job, m);
      }
    }
  }

  lemma OtherEventsAddNothing(front: seq<Event>, e: Event)
    requires !e.ReserveCall? && !e.Invoke? && !e.Return? && !e.Settle?
    requires e.Preview? ==> !(At(After(front), e.k, Previewing) && e.failure.Some?)
    ensures AddsNothing(front, e)
  {
  }

  lemma RefusalAddsNothing(front: seq<Event>, e: Event)
    requires e.ReserveCall? && !Reserves(front, e, e.k)
    ensures AddsNothing(front, e)
  {
  }

  lemma SyncedIsMilder(j: Journal, job: Job, state: State, error: string)
    requires state in {Synced, Skipped}
    ensures var after := Set(j, job, state, error, None, None);
            after.past == j.past && forall other :: Milder(RowOf(j.rows, other), RowOf(after.rows, other))
  {
    var row := RowOf(j.rows, job);
    forall other ensures Milder(RowOf(j.rows, other), RowOf(Set(j, job, state, error, None, None).rows, other)) {
      if row.Some? { RowOfPut(j.rows, Write(row.value, state, error, None, None), other); }
    }
  }

  lemma RecoveredIsMilder(j: Journal, source: nat)
    ensures forall job :: Milder(RowOf(j.rows, job), RowOf(Recover(j, source).rows, job))
  {
    forall job ensures Milder(RowOf(j.rows, job), RowOf(Recover(j, source).rows, job)) {
      RowOfInterrupted(j.rows, source, job);
    }
  }

  lemma AddedIsMilder(j: Journal, source: nat, job: Job, claim: nat, model: Model)
    ensures var after := Add(j, source, job, claim, model);
            after.past == j.past && forall other :: Milder(RowOf(j.rows, other), RowOf(after.rows, other))
  {
    var row := Analysis(job, source, claim, model, Ready, None, "", None, 0);
    forall other ensures Milder(RowOf(j.rows, other), RowOf(Add(j, source, job, claim, model).rows, other)) {
      RowOfSnoc(j.rows, row, other);
    }
  }

  /** The journal before and after an event that changes no amount. */
  ghost predicate MilderJournal(j: Journal, after: Journal) {
    after.past == j.past && forall job :: Milder(RowOf(j.rows, job), RowOf(after.rows, job))
  }

  lemma ProcessRows(w: World, e: Event)
    requires ProcessEvent(e) || e.Halt?
    ensures MilderJournal(w.journal, Step(w, e).journal)
  {
    match e
    case StartRun(source, _, _, _) => RecoveredIsMilder(w.journal, source);
    case AddJob(source, job, claim) =>
      if source in w.processes { AddedIsMilder(w.journal, source, job, claim, w.processes[source].model); }
    case FlushResult(source, _) =>
      var page := Page(w.journal.rows, source, {ResultReady}, PAGE, {});
      if page != [] { SyncedIsMilder(w.journal, page[0].job, Synced, ""); }
    case _ =>
  }

  lemma ProcessWorkers(w: World, e: Event)
    requires ProcessEvent(e) || e.Halt?
    ensures MilderWorkers(w, Step(w, e))
  {
  }

  lemma ProcessFits(front: seq<Event>, e: Event)
    requires LedgerFits(After(front), front) && (ProcessEvent(e) || e.Halt?)
    ensures LedgerFits(After(front + [e]), front + [e])
  {
    OtherEventsAddNothing(front, e);
    ProcessRows(After(front), e);
    ProcessWorkers(After(front), e);
    QuietFits(front, e);
  }

  lemma ClaimRows(w: World, k: nat, answer: Claim)
    ensures MilderJournal(w.journal, StepClaim(w, k, answer).journal)
  {
    if At(w, k, Claiming) {
      SyncedIsMilder(w.journal, w.workers[k].job, Synced, "");
      SyncedIsMilder(w.journal, w.workers[k].job, Skipped, "EXISTING_CLOUD_WORK");
    }
  }

  lemma ClaimWorkers(w: World, k: nat, answer: Claim)
    ensures MilderWorkers(w, StepClaim(w, k, answer))
  {
  }

  lemma ClaimFits(front: seq<Event>, e: Event)
    requires LedgerFits(After(front), front) && e.ClaimJob?
    ensures LedgerFits(After(front + [e]), front + [e])
  {
    OtherEventsAddNothing(front, e);
    ClaimRows(After(front), e.k, e.answer);
    ClaimWorkers(After(front), e.k, e.answer);
    QuietFits(front, e);
  }

  lemma SyncFits(front: seq<Event>, e: Event)
    requires LedgerFits(After(front), front) && e.SyncResult?
    ensures LedgerFits(After(front + [e]), front + [e])
  {
    var w := After(front);
    OtherEventsAddNothing(front, e);
    if At(w, e.k, Saved) { SyncedIsMilder(w.journal, w.workers[e.k].job, Synced, ""); }
    QuietFits(front, e);
  }

  /** A step that leaves the journal alone and brings no reservation. */
  lemma StillFits(front: seq<Event>, e: Event)
    requires LedgerFits(After(front), front) && AddsNothing(front, e)
    requires Step(After(front), e).journal == After(front).journal && MilderWorkers(After(front), Step(After(front), e))
    ensures LedgerFits(After(front + [e]), front + [e])
  {
    QuietFits(front, e);
  }

  // ---------- steps that change an amount ----------

  lemma WrittenRow(w: World, row: Analysis)
    requires RowOf(w.journal.rows, row.job).Some?
    ensures forall job :: RowOf(Put(w.journal.rows, row), job) == if job == row.job then Some(row)
                                                                  else RowOf(w.journal.rows, job)
  {
    forall job
      ensures RowOf(Put(w.journal.rows, row), job) == if job == row.job then Some(row) else RowOf(w.journal.rows, job)
    {
      RowOfPut(w.journal.rows, row, job);
    }
  }

  /** The worker's own row is replaced by `row`. */
  ghost predicate Rewrites(w: World, after: World, k: nat, row: Analysis)
    requires k in w.workers
  {
    && row.job == w.workers[k].job && RowOf(w.journal.rows, row.job).Some?
    && after.journal == w.journal.(rows := Put(w.journal.rows, row))
    && after.workers.Keys == w.workers.Keys && after.workers[k].job == w.workers[k].job
    && forall l :: l in w.workers && l != k ==> after.workers[l] == w.workers[l]
  }

  lemma RewriteIsOwn(w: World, after: World, k: nat, row: Analysis)
    requires k in w.workers && Rewrites(w, after, k, row)
    ensures OwnStep(w, after, k) && RowOf(after.journal.rows, row.job) == Some(row)
  {
    WrittenRow(w, row);
  }

  /** The amounts of a job fit its row as rewritten. */
  ghost predicate FitsRow(events: seq<Event>, past: seq<Attempt>, row: Analysis) {
    && RowHolds(row)
    && forall m: Month ::
         FitsIn(events, past, Some(row), row.job, m)
  }

  lemma RewriteFits(front: seq<Event>, e: Event, k: nat, row: Analysis)
    requires PoolsOk(After(front)) && LedgerFits(After(front), front) && EventOf(e, k)
    requires k in After(front).workers && Rewrites(After(front), After(front + [e]), k, row)
    requires FitsRow(front + [e], After(front).journal.past, row)
    requires RowOf(After(front + [e]).journal.rows, row.job) == Some(row) ==>
               WorkerFits(After(front + [e]), front + [e], k)
    ensures LedgerFits(After(front + [e]), front + [e])
  {
    RewriteIsOwn(After(front), After(front + [e]), k, row);
    WorkerStepFits(front, e, k);
  }

  /** What is known of the amounts of a job. */
  lemma KnownAmounts(w: World, events: seq<Event>, job: Job, m: Month)
    requires LedgerFits(w, events)
    ensures FitsIn(events, w.journal.past, RowOf(w.journal.rows, job), job, m)
  {
    assert JobFits(w, events, job);
  }

  lemma PreviewFits(front: seq<Event>, e: Event)
    requires PoolsOk(After(front)) && LedgerFits(After(front), front) && e.Preview?
    ensures LedgerFits(After(front + [e]), front + [e])
  {
    var w := After(front);
    OneMore(front, e);
    if At(w, e.k, Previewing) && e.failure.Some? {
      FailedPreviewFits(front, e);
    } else {
      OtherEventsAddNothing(front, e);
      StillFits(front, e);
    }
  }

  lemma FailedPreviewFits(front: seq<Event>, e: Event)
    requires PoolsOk(After(front)) && LedgerFits(After(front), front)
    requires e.Preview? && At(After(front), e.k, Previewing) && e.failure.Some?
    ensures LedgerFits(After(front + [e]), front + [e])
  {
    var w := After(front);
    var prior := RowOf(w.journal.rows, w.workers[e.k].job).value;
    var row := Write(prior, NeedsAttention, e.failure.value, None, Some(0));
    OneMore(front, e);
    assert WorkerOk(w, e.k);
    forall m: Month
      ensures FitsIn(front + [e], w.journal.past, Some(row), row.job, m)
    {
      KnownAmounts(w, front, row.job, m);
      assert Adds(front, e, row.job, m) == 0 && Leaves(front, e, row.job, m) == -Left(front, row.job, m);
      assert Holds(front, e, row.job, m) == Leaves(front, e, row.job, m);
    }
    RewriteFits(front, e, e.k, row);
  }

  // ---------- a reservation, a call, its answer ----------

  lemma ReserveFits(front: seq<Event>, e: Event)
    requires PoolsOk(After(front)) && LedgerFits(After(front), front) && e.ReserveCall?
    ensures LedgerFits(After(front + [e]), front + [e])
  {
    OneMore(front, e);
    if Reserves(front, e, e.k) {
      ReservedFits(front, e);
    } else {
      RefusalAddsNothing(front, e);
      StillFits(front, e);
    }
  }

  lemma ReservedParts(w: World, k: nat, month: Month, row: Analysis)
    requires PoolsOk(w) && At(w, k, Reserving) && RowOf(w.journal.rows, w.workers[k].job) == Some(row)
    requires StepReserve(w, k, month).workers[k].point == Paid
    ensures row.state == Ready
    ensures Rewrites(w, StepReserve(w, k, month), k, Reserved(row, Reservation(row.model), month))
  {
    assert WorkerOk(w, k);
  }

  lemma ReservedFits(front: seq<Event>, e: Event)
    requires PoolsOk(After(front)) && LedgerFits(After(front), front)
    requires e.ReserveCall? && Reserves(front, e, e.k)
    ensures LedgerFits(After(front + [e]), front + [e])
  {
    var w := After(front);
    var prior := RowOf(w.journal.rows, w.workers[e.k].job).value;
    var row := Reserved(prior, Reservation(prior.model), e.month);
    OneMore(front, e);
    ReservedParts(w, e.k, e.month, prior);
    forall m: Month
      ensures FitsIn(front + [e], w.journal.past, Some(row), row.job, m)
      ensures Owed(front + [e], row.job, m) <= PastCost(w.journal.past, row.job, m)
    {
      KnownAmounts(w, front, row.job, m);
      assert Adds(front, e, row.job, m) == 0 && Leaves(front, e, row.job, m) == -Left(front, row.job, m);
      assert Holds(front, e, row.job, m)
          == (if m == e.month then Reservation(prior.model) else 0) - Left(front, row.job, m);
    }
    RewriteFits(front, e, e.k, row);
  }

  /** A step of a worker that leaves the journal alone. */
  lemma MovedFits(front: seq<Event>, e: Event, k: nat)
    requires PoolsOk(After(front)) && LedgerFits(After(front), front) && EventOf(e, k)
    requires k in After(front).workers && After(front + [e]).journal == After(front).journal
    requires OwnStep(After(front), After(front + [e]), k)
    requires JobFits(After(front + [e]), front + [e], After(front).workers[k].job)
    requires WorkerFits(After(front + [e]), front + [e], k)
    ensures LedgerFits(After(front + [e]), front + [e])
  {
    WorkerStepFits(front, e, k);
  }

  lemma InvokeFits(front: seq<Event>, e: Event)
    requires PoolsOk(After(front)) && LedgerFits(After(front), front) && e.Invoke?
    ensures LedgerFits(After(front + [e]), front + [e])
  {
    OneMore(front, e);
    if At(After(front), e.k, Paid) {
      InvokedFits(front, e.k);
    } else {
      StillFits(front, e);
    }
  }

  lemma InvokedAfter(front: seq<Event>, k: nat)
    requires At(After(front), k, Paid)
    ensures var w, after := After(front), After(front + [Invoke(k)]);
            && after.journal == w.journal && OwnStep(w, after, k) && after.workers[k].point == InCall
            && MonthOf(front + [Invoke(k)], k) == MonthOf(front, k)
  {
    OneMore(front, Invoke(k));
  }

  lemma InvokedJob(front: seq<Event>, k: nat, m: Month)
    requires PoolsOk(After(front)) && LedgerFits(After(front), front) && At(After(front), k, Paid)
    ensures var w, job, events := After(front), After(front).workers[k].job, front + [Invoke(k)];
            FitsIn(events, w.journal.past, RowOf(w.journal.rows, job), job, m)
  {
    var w, job := After(front), After(front).workers[k].job;
    OneMore(front, Invoke(k));
    assert WorkerOk(w, k) && WorkerFits(w, front, k);
    KnownAmounts(w, front, job, m);
    assert Owed(front, job, m) <= PastCost(w.journal.past, job, m);
    assert Adds(front, Invoke(k), job, m) == if MonthOf(front, k) == Some(m) then Price(w, job) else 0;
    assert Holds(front, Invoke(k), job, m) == 0;
  }

  lemma InvokedFits(front: seq<Event>, k: nat)
    requires PoolsOk(After(front)) && LedgerFits(After(front), front) && At(After(front), k, Paid)
    ensures LedgerFits(After(front + [Invoke(k)]), front + [Invoke(k)])
  {
    InvokedAfter(front, k);
    forall m: Month
      ensures var w, job, events := After(front), After(front).workers[k].job, front + [Invoke(k)];
              FitsIn(events, w.journal.past, RowOf(w.journal.rows, job), job, m)
    {
      InvokedJob(front, k, m);
    }
    assert WorkerFits(After(front), front, k);
    MovedFits(front, Invoke(k), k);
  }

  lemma ReturnFits(front: seq<Event>, e: Event)
    requires PoolsOk(After(front)) && LedgerFits(After(front), front) && e.Return?
    ensures LedgerFits(After(front + [e]), front + [e])
  {
    OneMore(front, e);
    if At(After(front), e.k, InCall) {
      ReturnedFits(front, e.k, e.outcome);
    } else {
      StillFits(front, e);
    }
  }

  lemma ReturnedAfter(front: seq<Event>, k: nat, o: Outcome)
    requires At(After(front), k, InCall)
    ensures var w, after := After(front), After(front + [Return(k, o)]);
            && after.journal == w.journal && OwnStep(w, after, k) && after.workers[k].point == Returned(o)
            && MonthOf(front + [Return(k, o)], k) == MonthOf(front, k)
  {
    OneMore(front, Return(k, o));
  }

  lemma ReturnedJob(front: seq<Event>, k: nat, o: Outcome, m: Month)
    requires PoolsOk(After(front)) && LedgerFits(After(front), front) && At(After(front), k, InCall)
    ensures var w, job, events := After(front), After(front).workers[k].job, front + [Return(k, o)];
            && FitsIn(events, w.journal.past, RowOf(w.journal.rows, job), job, m)
            && (Unbilled(o) ==> Owed(events, job, m) <= PastCost(w.journal.past, job, m))
  {
    var w, job := After(front), After(front).workers[k].job;
    OneMore(front, Return(k, o));
    assert WorkerOk(w, k) && WorkerFits(w, front, k);
    KnownAmounts(w, front, job, m);
    assert Adds(front, Return(k, o), job, m)
        == if MonthOf(front, k) == Some(m) && Unbilled(o) then 0 - Price(w, job) else 0;
    assert Holds(front, Return(k, o), job, m) == 0;
  }

  lemma ReturnedFits(front: seq<Event>, k: nat, o: Outcome)
    requires PoolsOk(After(front)) && LedgerFits(After(front), front)
    requires At(After(front), k, InCall)
    ensures LedgerFits(After(front + [Return(k, o)]), front + [Return(k, o)])
  {
    ReturnedAfter(front, k, o);
    forall m: Month
      ensures var w, job, events := After(front), After(front).workers[k].job, front + [Return(k, o)];
              && FitsIn(events, w.journal.past, RowOf(w.journal.rows, job), job, m)
              && (Unbilled(o) ==> Owed(events, job, m) <= PastCost(w.journal.past, job, m))
    {
      ReturnedJob(front, k, o, m);
    }
    assert WorkerFits(After(front), front, k);
    MovedFits(front, Return(k, o), k);
  }

  // ---------- the end of a call ----------

  /** The row a settled call leaves. */
  function SettledRow(row: Analysis, o: Outcome): Analysis {
    match o
    case Described(text, charge) =>
      Write(row, ResultReady, "", Some(text), Some(if charge.Some? then charge.value else Reservation(row.model)))
    case ProviderError(rejected, called, image) =>
      var state := if rejected then Ready else if !called then NeedsAttention else Uncertain;
      var freed := if image then !called else rejected || !called;
      Write(row, state, if image then "IMAGE" else "PROVIDER", None, if freed then Some(0) else None)
    case UnknownOutcome => Write(row, Uncertain, "PROVIDER_OUTCOME_UNKNOWN", None, None)
  }

  lemma SettledParts(w: World, k: nat, row: Analysis)
    requires k in w.workers && w.workers[k].point.Returned? && At(w, k, w.workers[k].point)
    requires RowOf(w.journal.rows, w.workers[k].job) == Some(row)
    ensures Rewrites(w, StepSettle(w, k), k, SettledRow(row, w.workers[k].point.outcome))
    ensures Unpaid(StepSettle(w, k).workers[k].point)
  {
  }

  /** The charge replaces the reservation, an unbilled end frees it, or leaves it on the
      job, and any other end keeps it. */
  lemma SettledAmounts(row: Analysis, o: Outcome, past: Amount, owed: int, held: int, left: int, m: Month)
    requires Held(row) && Fits(Some(row), past, owed, held, left, m) && (Unbilled(o) ==> owed <= past)
    ensures var price: int := if row.month == Some(m) then Reservation(row.model) else 0;
            var adds := if row.month == Some(m) then Reported(o, price) else 0;
            var holds := if KeepsReservation(o) then 0 else if Unbilled(o) then -price else adds;
            Fits(Some(SettledRow(row, o)), past, owed + adds, held + holds,
                 left + if KeepsReservation(o) then price else 0, m)
    ensures RowHolds(SettledRow(row, o))
  {
  }

  lemma SettleFits(front: seq<Event>, e: Event)
    requires PoolsOk(After(front)) && LedgerFits(After(front), front) && e.Settle?
    ensures LedgerFits(After(front + [e]), front + [e])
  {
    var w := After(front);
    OneMore(front, e);
    if e.k in w.workers && w.workers[e.k].point.Returned? && At(w, e.k, w.workers[e.k].point) {
      SettledFits(front, e.k);
    } else {
      StillFits(front, e);
    }
  }

  /** What a settled call adds to the amounts of its job. */
  lemma SettledAdds(front: seq<Event>, k: nat, m: Month)
    requires k in After(front).workers && After(front).workers[k].point.Returned?
    requires At(After(front), k, After(front).workers[k].point)
    ensures var w := After(front);
            var job, o := w.workers[k].job, w.workers[k].point.outcome;
            var price: int := if MonthOf(front, k) == Some(m) then Price(w, job) else 0;
            var adds := if MonthOf(front, k) == Some(m) then Reported(o, price) else 0;
            && Adds(front, Settle(k), job, m) == adds
            && Holds(front, Settle(k), job, m)
               == (if KeepsReservation(o) then 0 else if Unbilled(o) then -price else adds)
            && Leaves(front, Settle(k), job, m) == if KeepsReservation(o) then price else 0
  {
  }

  lemma SettledJob(front: seq<Event>, k: nat, row: Analysis, m: Month)
    requires LedgerFits(After(front), front) && Held(row)
    requires k in After(front).workers && After(front).workers[k].point.Returned?
    requires At(After(front), k, After(front).workers[k].point)
    requires RowOf(After(front).journal.rows, After(front).workers[k].job) == Some(row)
    ensures var o := After(front).workers[k].point.outcome;
            && FitsIn(front + [Settle(k)], After(front).journal.past, Some(SettledRow(row, o)), row.job, m)
            && RowHolds(SettledRow(row, o))
  {
    var w := After(front);
    OneMore(front, Settle(k));
    assert WorkerFits(w, front, k);
    KnownAmounts(w, front, row.job, m);
    SettledAdds(front, k, m);
    SettledAmounts(row, w.workers[k].point.outcome, PastCost(w.journal.past, row.job, m), Owed(front, row.job, m),
                   Kept(front, row.job, m), Left(front, row.job, m), m);
  }

  lemma SettledAfter(front: seq<Event>, k: nat, row: Analysis)
    requires k in After(front).workers && After(front).workers[k].point.Returned?
    requires At(After(front), k, After(front).workers[k].point)
    requires RowOf(After(front).journal.rows, After(front).workers[k].job) == Some(row)
    ensures var w, after := After(front), After(front + [Settle(k)]);
            Rewrites(w, after, k, SettledRow(row, w.workers[k].point.outcome)) && Unpaid(after.workers[k].point)
  {
    OneMore(front, Settle(k));
    SettledParts(After(front), k, row);
  }

  lemma SettledAmountsFit(front: seq<Event>, k: nat, prior: Analysis)
    requires LedgerFits(After(front), front) && Held(prior)
    requires k in After(front).workers && After(front).workers[k].point.Returned?
    requires At(After(front), k, After(front).workers[k].point)
    requires RowOf(After(front).journal.rows, After(front).workers[k].job) == Some(prior)
    ensures FitsRow(front + [Settle(k)], After(front).journal.past,
                    SettledRow(prior, After(front).workers[k].point.outcome))
  {
    forall m: Month
      ensures var row := SettledRow(prior, After(front).workers[k].point.outcome);
              && FitsIn(front + [Settle(k)], After(front).journal.past, Some(row), row.job, m)
              && RowHolds(row)
    {
      SettledJob(front, k, prior, m);
    }
  }

  lemma RewrittenUnpaid(front: seq<Event>, e: Event, k: nat, row: Analysis)
    requires PoolsOk(After(front)) && LedgerFits(After(front), front) && EventOf(e, k)
    requires k in After(front).workers && Rewrites(After(front), After(front + [e]), k, row)
    requires Unpaid(After(front + [e]).workers[k].point) && FitsRow(front + [e], After(front).journal.past, row)
    ensures LedgerFits(After(front + [e]), front + [e])
  {
    RewriteFits(front, e, k, row);
  }

  lemma SettledFits(front: seq<Event>, k: nat)
    requires PoolsOk(After(front)) && LedgerFits(After(front), front)
    requires k in After(front).workers && After(front).workers[k].point.Returned?
    requires At(After(front), k, After(front).workers[k].point)
    ensures LedgerFits(After(front + [Settle(k)]), front + [Settle(k)])
  {
    var w := After(front);
    var prior := RowOf(w.journal.rows, w.workers[k].job).value;
    assert WorkerOk(w, k);
    SettledAfter(front, k, prior);
    SettledAmountsFit(front, k, prior);
    RewrittenUnpaid(front, Settle(k), k, SettledRow(prior, w.workers[k].point.outcome));
  }

  // ---------- an explicit retry ----------

  lemma PastSnoc(past: seq<Attempt>, a: Attempt, job: Job, m: Month)
    ensures PastCost(past + [a], job, m) == PastCost(past, job, m) + if a.job == job then In(a.month, m, a.cost) else 0
  {
    assert (past + [a])[..|past|] == past;
  }

  lemma RequeueFits(front: seq<Event>, e: Event)
    requires PoolsOk(After(front)) && LedgerFits(After(front), front) && e.RequeueJob?
    ensures LedgerFits(After(front + [e]), front + [e])
  {
    var w := After(front);
    OneMore(front, e);
    OtherEventsAddNothing(front, e);
    if At(w, e.k, Requeueing) && w.processes[w.workers[e.k].source].mode.Retry?
       && MayRequeue(RowOf(w.journal.rows, w.workers[e.k].job).value,
                     w.processes[w.workers[e.k].source].mode.includeUncertain)
    {
      RequeuedFits(front, e);
    } else {
      RequeueRefused(w, e.k);
      StillFits(front, e);
    }
  }

  lemma RequeueRefused(w: World, k: nat)
    requires !(At(w, k, Requeueing) && w.processes[w.workers[k].source].mode.Retry?
               && MayRequeue(RowOf(w.journal.rows, w.workers[k].job).value,
                             w.processes[w.workers[k].source].mode.includeUncertain))
    ensures StepRequeue(w, k).journal == w.journal && MilderWorkers(w, StepRequeue(w, k))
  {
  }

  lemma RequeuedParts(w: World, k: nat, row: Analysis)
    requires PoolsOk(w) && At(w, k, Requeueing) && w.processes[w.workers[k].source].mode.Retry?
    requires RowOf(w.journal.rows, w.workers[k].job) == Some(row)
    requires MayRequeue(row, w.processes[w.workers[k].source].mode.includeUncertain)
    ensures var after := StepRequeue(w, k);
            && OwnStep(w, after, k) && after.workers[k].point == Previewing
            && after.journal.past == w.journal.past + [AttemptOf(row)]
            && RowOf(after.journal.rows, row.job) == Some(Requeued(row))
  {
    WrittenRow(w, Requeued(row));
    forall job, m ensures PastCost(w.journal.past + [AttemptOf(row)], job, m)
                       == PastCost(w.journal.past, job, m) + if row.job == job then In(row.month, m, row.cost) else 0
    {
      PastSnoc(w.journal.past, AttemptOf(row), job, m);
    }
  }

  lemma RequeuedJob(front: seq<Event>, e: Event, row: Analysis, m: Month)
    requires LedgerFits(After(front), front) && e.RequeueJob? && row.state in {NeedsAttention, Uncertain}
    requires RowOf(After(front).journal.rows, row.job) == Some(row)
    ensures FitsIn(front + [e], After(front).journal.past + [AttemptOf(row)], Some(Requeued(row)), row.job, m)
  {
    OneMore(front, e);
    KnownAmounts(After(front), front, row.job, m);
    PastSnoc(After(front).journal.past, AttemptOf(row), row.job, m);
    assert AddsNone(front, e, row.job, m);
  }

  lemma RequeuedFits(front: seq<Event>, e: Event)
    requires PoolsOk(After(front)) && LedgerFits(After(front), front) && e.RequeueJob?
    requires At(After(front), e.k, Requeueing)
    requires After(front).processes[After(front).workers[e.k].source].mode.Retry?
    requires MayRequeue(RowOf(After(front).journal.rows, After(front).workers[e.k].job).value,
                        After(front).processes[After(front).workers[e.k].source].mode.includeUncertain)
    ensures LedgerFits(After(front + [e]), front + [e])
  {
    var w := After(front);
    var row := RowOf(w.journal.rows, w.workers[e.k].job).value;
    RequeuedAfter(front, e, row);
    forall m: Month
      ensures FitsIn(front + [e], w.journal.past + [AttemptOf(row)], Some(Requeued(row)), row.job, m)
    {
      RequeuedJob(front, e, row, m);
    }
    WorkerStepFits(front, e, e.k);
  }

  lemma RequeuedAfter(front: seq<Event>, e: Event, row: Analysis)
    requires PoolsOk(After(front)) && e.RequeueJob? && At(After(front), e.k, Requeueing)
    requires After(front).processes[After(front).workers[e.k].source].mode.Retry?
    requires RowOf(After(front).journal.rows, After(front).workers[e.k].job) == Some(row)
    requires MayRequeue(row, After(front).processes[After(front).workers[e.k].source].mode.includeUncertain)
    ensures var w, after := After(front), After(front + [e]);
            && OwnStep(w, after, e.k) && after.workers[e.k].point == Previewing
            && after.journal.past == w.journal.past + [AttemptOf(row)]
            && RowOf(after.journal.rows, row.job) == Some(Requeued(row))
  {
    OneMore(front, e);
    RequeuedParts(After(front), e.k, row);
  }

  // ---------- every run ----------

  lemma StepFits(front: seq<Event>, e: Event)
    requires PoolsOk(After(front)) && LedgerFits(After(front), front)
    ensures LedgerFits(After(front + [e]), front + [e])
  {
    assert e in [e];
    match e
    case ClaimJob(_, _) => ClaimFits(front, e);
    case RequeueJob(_) => RequeueFits(front, e);
    case Preview(_, _) => PreviewFits(front, e);
    case ReserveCall(_, _) => ReserveFits(front, e);
    case Invoke(_) => InvokeFits(front, e);
    case Return(_, _) => ReturnFits(front, e);
    case Settle(_) => SettleFits(front, e);
    case SyncResult(_, _) => SyncFits(front, e);
    case _ => ProcessFits(front, e);
  }

  lemma {:induction false} RunFits(events: seq<Event>)
    ensures LedgerFits(After(events), events)
  {
    if events != [] {
      var front, last := events[..|events| - 1], events[|events| - 1];
      assert events == front + [last];
      RunFits(front);
      var cap := SomeCap(front);
      RunKeeps(front, cap);
      StepFits(front, last);
    }
  }

  /** In every reachable state, a row that is called, or whose call may have been billed
      without an answer, holds its reservation in its month, and a row that needs
      attention holds nothing. */
  lemma OpenCallsAreHeld(events: seq<Event>, job: Job)
    requires RowOf(After(events).journal.rows, job).Some?
    ensures var row := RowOf(After(events).journal.rows, job).value;
            && (row.state in {Calling, Uncertain} ==> row.month.Some? && row.cost == Reservation(row.model))
            && (row.state == NeedsAttention ==> row.cost == 0)
  {
    RunFits(events);
  }

  // ---------- the ledger of a month ----------

  function Sum(jobs: seq<Job>, amount: Job -> int): int {
    if jobs == [] then 0 else Sum(jobs[..|jobs| - 1], amount) + amount(jobs[|jobs| - 1])
  }

  ghost predicate Distinct(jobs: seq<Job>) {
    forall i, j :: 0 <= i < j < |jobs| ==> jobs[i] != jobs[j]
  }

  lemma {:induction false} SumAdds(jobs: seq<Job>, f: Job -> int, g: Job -> int, job: Job, d: int)
    requires Distinct(jobs)
    requires forall j :: j in jobs ==> g(j) == f(j) + if j == job then d else 0
    ensures Sum(jobs, g) == Sum(jobs, f) + if job in jobs then d else 0
  {
    if jobs != [] {
      var front, last := jobs[..|jobs| - 1], jobs[|jobs| - 1];
      assert jobs == front + [last];
      SumAdds(front, f, g, job, d);
      if job in front {
        var i :| 0 <= i < |front| && jobs[i] == job;
        assert jobs[i] != jobs[|jobs| - 1];
      }
    }
  }

  lemma {:induction false} SumSame(jobs: seq<Job>, f: Job -> int, g: Job -> int)
    requires forall j :: j in jobs ==> g(j) == f(j)
    ensures Sum(jobs, g) == Sum(jobs, f)
  {
    if jobs != [] { SumSame(jobs[..|jobs| - 1], f, g); }
  }

  /** The job whose call an event is about. */
  function CallOf(front: seq<Event>, e: Event): Option<Job> {
    var w := After(front);
    var k := match e
      case ReserveCall(l, _) => Some(l)
      case Preview(l, _) => Some(l)
      case Invoke(l) => Some(l)
      case Return(l, _) => Some(l)
      case Settle(l) => Some(l)
      case _ => None;
    if k.Some? && k.value in w.workers
        && At(w, k.value, w.workers[k.value].point) then Some(w.workers[k.value].job) else None
  }

  /** What the calls that may be billed cost in a month. */
  function BilledIn(events: seq<Event>, m: Month): int {
    if events == [] then 0
    else
      var front, last := events[..|events| - 1], events[|events| - 1];
      BilledIn(front, m) + if CallOf(front, last).Some? then Adds(front, last, CallOf(front, last).value, m) else 0
  }

  /** What is held of a month. */
  function HeldIn(events: seq<Event>, m: Month): int {
    if events == [] then 0
    else
      var front, last := events[..|events| - 1], events[|events| - 1];
      HeldIn(front, m) + if CallOf(front, last).Some? then Holds(front, last, CallOf(front, last).value, m) else 0
  }

  lemma OneMoreCall(front: seq<Event>, e: Event, m: Month)
    ensures var job := CallOf(front, e);
            && BilledIn(front + [e], m) == BilledIn(front, m) + (if job.Some? then Adds(front, e, job.value, m) else 0)
            && HeldIn(front + [e], m) == HeldIn(front, m) + (if job.Some? then Holds(front, e, job.value, m) else 0)
  {
    assert (front + [e])[..|front|] == front;
  }

  /** Only the job the event is about has amounts added. */
  lemma AddsOnlyTo(front: seq<Event>, e: Event, job: Job, m: Month)
    requires CallOf(front, e) != Some(job)
    ensures AddsNone(front, e, job, m)
  {
  }

  lemma CallsHaveRows(front: seq<Event>, e: Event)
    requires CallOf(front, e).Some?
    ensures RowOf(After(front).journal.rows, CallOf(front, e).value).Some?
  {
  }

  /** Rows never lose their place. */
  ghost predicate Longer(rows: seq<Analysis>, after: seq<Analysis>) {
    |rows| <= |after| && forall i :: 0 <= i < |rows| ==> after[i].job == rows[i].job
  }

  lemma ProcessKeepsRows(w: World, e: Event)
    requires ProcessEvent(e)
    ensures Longer(w.journal.rows, Step(w, e).journal.rows)
  {
  }

  lemma PutIsLonger(rows: seq<Analysis>, row: Analysis)
    ensures Longer(rows, Put(rows, row))
  {
  }

  lemma SettleKeepsRows(w: World, k: nat)
    ensures Longer(w.journal.rows, StepSettle(w, k).journal.rows)
  {
    if k in w.workers && w.workers[k].point.Returned? && At(w, k, w.workers[k].point) {
      var row := RowOf(w.journal.rows, w.workers[k].job).value;
      SettledParts(w, k, row);
      PutIsLonger(w.journal.rows, SettledRow(row, w.workers[k].point.outcome));
    }
  }

  lemma WorkerKeepsRows(w: World, e: Event)
    requires !ProcessEvent(e)
    ensures Longer(w.journal.rows, Step(w, e).journal.rows)
  {
    if e.Settle? { SettleKeepsRows(w, e.k); }
  }

  lemma {:induction false} LaterRows(events: seq<Event>, n: nat)
    requires n <= |events|
    ensures Longer(After(events[..n]).journal.rows, After(events).journal.rows)
    decreases |events|
  {
    if n == |events| {
      assert events[..n] == events;
    } else {
      var front, last := events[..|events| - 1], events[|events| - 1];
      assert front[..n] == events[..n];
      LaterRows(front, n);
      if ProcessEvent(last) { ProcessKeepsRows(After(front), last); } else { WorkerKeepsRows(After(front), last); }
    }
  }

  lemma RowStays(rows: seq<Analysis>, after: seq<Analysis>, job: Job)
    requires Longer(rows, after) && RowOf(rows, job).Some?
    ensures job in JobsOf(after)
  {
    var i :| 0 <= i < |rows| && rows[i] == RowOf(rows, job).value;
    assert JobsOf(after)[i] == job;
  }

  /** The amounts of a month are the sums over the jobs. */
  lemma {:induction false} AmountsByJob(events: seq<Event>, n: nat, jobs: seq<Job>, m: Month)
    requires n <= |events| && Distinct(jobs) && jobs == JobsOf(After(events).journal.rows)
    ensures BilledIn(events[..n], m) == Sum(jobs, (job: Job) => Owed(events[..n], job, m))
    ensures HeldIn(events[..n], m) == Sum(jobs, (job: Job) => Kept(events[..n], job, m))
  {
    if n == 0 {
      SumNothing(jobs, (job: Job) => Owed([], job, m));
      SumNothing(jobs, (job: Job) => Kept([], job, m));
      SumSame(jobs, (job: Job) => Owed([], job, m), (job: Job) => Owed(events[..n], job, m));
      SumSame(jobs, (job: Job) => Kept([], job, m), (job: Job) => Kept(events[..n], job, m));
    } else {
      AmountsByJob(events, n - 1, jobs, m);
      assert events[..n] == events[..n - 1] + [events[n - 1]];
      AmountsOneMore(events, n - 1, jobs, m);
    }
  }

  lemma {:induction false} SumNothing(jobs: seq<Job>, f: Job -> int)
    requires forall j :: f(j) == 0
    ensures Sum(jobs, f) == 0
  {
    if jobs != [] { SumNothing(jobs[..|jobs| - 1], f); }
  }

  lemma AmountsOneMore(events: seq<Event>, n: nat, jobs: seq<Job>, m: Month)
    requires n < |events| && Distinct(jobs) && jobs == JobsOf(After(events).journal.rows)
    ensures var longer := events[..n] + [events[n]];
            BilledIn(longer, m) - Sum(jobs, (job: Job) => Owed(longer, job, m))
            == BilledIn(events[..n], m) - Sum(jobs, (job: Job) => Owed(events[..n], job, m))
    ensures var longer := events[..n] + [events[n]];
            HeldIn(longer, m) - Sum(jobs, (job: Job) => Kept(longer, job, m))
            == HeldIn(events[..n], m) - Sum(jobs, (job: Job) => Kept(events[..n], job, m))
  {
    var front, e := events[..n], events[n];
    var longer := front + [e];
    OneMore(front, e);
    OneMoreCall(front, e, m);
    forall job: Job | CallOf(front, e) != Some(job)
      ensures AddsNone(front, e, job, m)
    {
      AddsOnlyTo(front, e, job, m);
    }
    var owed, owed' := (job: Job) => Owed(front, job, m), (job: Job) => Owed(longer, job, m);
    var kept, kept' := (job: Job) => Kept(front, job, m), (job: Job) => Kept(longer, job, m);
    if CallOf(front, e).Some? {
      var job := CallOf(front, e).value;
      CallsHaveRows(front, e);
      LaterRows(events, n);
      RowStays(After(front).journal.rows, After(events).journal.rows, job);
      SumAdds(jobs, owed, owed', job, Adds(front, e, job, m));
      SumAdds(jobs, kept, kept', job, Holds(front, e, job, m));
    } else {
      SumSame(jobs, owed, owed');
      SumSame(jobs, kept, kept');
    }
  }

  // ---------- what a month's total says ----------

  /** What a row holds in a month, over the current and the archived attempts. */
  function HoldsOf(row: Analysis, past: seq<Attempt>, m: Month): Amount {
    PastCost(past, row.job, m) + In(row.month, m, row.cost)
  }

  lemma {:induction false} SumOfRows(rows: seq<Analysis>, past: seq<Attempt>, amount: Job -> int, m: Month, exact: bool)
    requires forall row :: row in rows ==>
               amount(row.job) <= HoldsOf(row, past, m) && (exact ==> amount(row.job) == HoldsOf(row, past, m))
    ensures var all := Spent(rows, m) + Sum(JobsOf(rows), (job: Job) => PastCost(past, job, m));
            Sum(JobsOf(rows), amount) <= all && (exact ==> Sum(JobsOf(rows), amount) == all)
  {
    if rows != [] {
      var front, last := rows[..|rows| - 1], rows[|rows| - 1];
      assert rows == front + [last];
      SumOfRows(front, past, amount, m, exact);
      assert JobsOf(rows)[..|rows| - 1] == JobsOf(front);
      assert last in rows;
    }
  }

  lemma {:induction false} PastByJob(jobs: seq<Job>, past: seq<Attempt>, m: Month)
    requires Distinct(jobs)
    ensures Sum(jobs, (job: Job) => PastCost(past, job, m)) <= SpentBefore(past, m)
    ensures (forall a :: a in past ==> a.job in jobs) ==>
              Sum(jobs, (job: Job) => PastCost(past, job, m)) == SpentBefore(past, m)
  {
    if past == [] {
      SumNothing(jobs, (job: Job) => PastCost([], job, m));
    } else {
      var front, last := past[..|past| - 1], past[|past| - 1];
      assert past == front + [last];
      PastByJob(jobs, front, m);
      SumAdds(jobs, (job: Job) => PastCost(front, job, m), (job: Job) => PastCost(past, job, m), last.job,
              In(last.month, m, last.cost));
    }
  }

  lemma UniqueIsDistinct(rows: seq<Analysis>)
    requires UniqueJobs(rows)
    ensures Distinct(JobsOf(rows))
  {
  }

  lemma RowAmounts(events: seq<Event>, row: Analysis, m: Month)
    requires LedgerFits(After(events), events) && UniqueJobs(After(events).journal.rows)
    requires row in After(events).journal.rows
    ensures Owed(events, row.job, m) <= HoldsOf(row, After(events).journal.past, m)
    ensures Kept(events, row.job, m) == HoldsOf(row, After(events).journal.past, m)
  {
    RowIsUnique(After(events).journal.rows, row);
    KnownAmounts(After(events), events, row.job, m);
  }

  /** The ledger counts every call that may have been billed: in every reachable state,
      the total of a month is at least what the calls reserved in it cost, each its
      charge, or its reservation as long as no charge is reported. */
  lemma LedgerCoversCalls(events: seq<Event>, m: Month)
    ensures BilledIn(events, m) <= Total(After(events).journal, m)
  {
    var rows, past := After(events).journal.rows, After(events).journal.past;
    var cap := SomeCap(events);
    RunKeeps(events, cap);
    RunFits(events);
    UniqueIsDistinct(rows);
    assert events[..|events|] == events;
    AmountsByJob(events, |events|, JobsOf(rows), m);
    SumSame(JobsOf(rows), (job: Job) => Owed(events[..|events|], job, m), (job: Job) => Owed(events, job, m));
    forall row | row in rows ensures Owed(events, row.job, m) <= HoldsOf(row, past, m) {
      RowAmounts(events, row, m);
    }
    SumOfRows(rows, past, (job: Job) => Owed(events, job, m), m, false);
    PastByJob(JobsOf(rows), past, m);
  }

  /** So the calls that may have been billed cost at most the cap, up to what charges
      exceeded their reservations by. */
  lemma BilledWithinCap(events: seq<Event>, cap: Amount, m: Month)
    requires CapsWithin(events, cap)
    ensures BilledIn(events, m) <= cap + After(events).overrun
  {
    LedgerCoversCalls(events, m);
    LedgerWithinCap(events, cap, m);
  }

  // ---------- the exact total ----------

  ghost predicate PastHasRows(j: Journal) {
    forall a :: a in j.past ==> a.job in JobsOf(j.rows)
  }

  lemma LongerKeepsJobs(rows: seq<Analysis>, after: seq<Analysis>)
    requires Longer(rows, after)
    ensures forall job :: job in JobsOf(rows) ==> job in JobsOf(after)
  {
    forall job | job in JobsOf(rows) ensures job in JobsOf(after) {
      var i :| 0 <= i < |rows| && JobsOf(rows)[i] == job;
      assert JobsOf(after)[i] == job;
    }
  }

  lemma RequeueArchives(w: World, k: nat)
    ensures var past := StepRequeue(w, k).journal.past;
            past == w.journal.past
            || exists row :: row in w.journal.rows && past == w.journal.past + [AttemptOf(row)]
  {
  }

  lemma OthersArchiveNothing(w: World, e: Event)
    requires !e.RequeueJob?
    ensures Step(w, e).journal.past == w.journal.past
  {
    if e.Settle? { SettleArchives(w, e.k); }
  }

  lemma SettleArchives(w: World, k: nat)
    ensures StepSettle(w, k).journal.past == w.journal.past
  {
  }

  lemma StepHasRows(w: World, e: Event)
    requires PastHasRows(w.journal)
    ensures PastHasRows(Step(w, e).journal)
  {
    var after := Step(w, e);
    if ProcessEvent(e) { ProcessKeepsRows(w, e); } else { WorkerKeepsRows(w, e); }
    LongerKeepsJobs(w.journal.rows, after.journal.rows);
    if e.RequeueJob? {
      RequeueArchives(w, e.k);
      if after.journal.past != w.journal.past {
        var row :| row in w.journal.rows && after.journal.past == w.journal.past + [AttemptOf(row)];
        var i :| 0 <= i < |w.journal.rows| && w.journal.rows[i] == row;
        assert JobsOf(w.journal.rows)[i] == row.job;
      }
    } else {
      OthersArchiveNothing(w, e);
    }
  }

  lemma {:induction false} RunHasRows(events: seq<Event>)
    ensures PastHasRows(After(events).journal)
  {
    if events != [] {
      RunHasRows(events[..|events| - 1]);
      StepHasRows(After(events[..|events| - 1]), events[|events| - 1]);
    }
  }

  /** The ledger counts nothing else: the total of a month is exactly what is held for
      the reservations made in it, each its charge once that is reported, the
      reservation otherwise, and nothing once the call is known to be unbilled; where
      that end leaves the reservation on the job, from when the job is reserved anew or
      its preview fails. */
  lemma LedgerIsExact(events: seq<Event>, m: Month)
    ensures Total(After(events).journal, m) == HeldIn(events, m)
  {
    var rows, past := After(events).journal.rows, After(events).journal.past;
    var cap := SomeCap(events);
    RunKeeps(events, cap);
    RunFits(events);
    RunHasRows(events);
    UniqueIsDistinct(rows);
    assert events[..|events|] == events;
    AmountsByJob(events, |events|, JobsOf(rows), m);
    SumSame(JobsOf(rows), (job: Job) => Kept(events[..|events|], job, m), (job: Job) => Kept(events, job, m));
    forall row | row in rows ensures Kept(events, row.job, m) == HoldsOf(row, past, m) {
      RowAmounts(events, row, m);
    }
    SumOfRows(rows, past, (job: Job) => Kept(events, job, m), m, true);
    PastByJob(JobsOf(rows), past, m);
  }
}
