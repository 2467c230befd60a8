/** The worker pools that make paid description calls.  Processes of different
    sources share one journal; a lock admits one process a source.  One event is
    one transaction, one request, one submission to a pool, or a crash. */
module ByokProtocol {
  import opened Options
  import opened ByokJournals

  /** How the provider's answer ends a call. */
  datatype Outcome =
    | Described(text: string, charge: Option<Amount>)
    | ProviderError(rejected: bool, called: bool, image: bool)
    | UnknownOutcome

  /** A call is certainly unbilled when the provider turned it away, or was never
      reached. */
  predicate PossiblyBilled(o: Outcome) {
    o.ProviderError? ==> !o.rejected && o.called
  }

  datatype Claim = Granted | Succeeded | Unavailable | Broken

  datatype Point =
    | Claiming | Requeueing | Previewing | Reserving | Paid | InCall | Returned(outcome: Outcome) | Saved | Finished

  datatype Worker = Worker(source: nat, job: Job, point: Point)

  datatype Mode = Run | Retry(includeUncertain: bool)

  /** `queue` holds the jobs taken for submission and not yet submitted. */
  datatype Process = Process(
    mode: Mode, model: Model, width: nat, cap: Amount, stop: bool, flushing: bool, queue: seq<Job>)

  /** `calls` counts the possibly billed calls of a job, and `overrun` what charges
      exceeded their reservations by. */
  datatype World = World(
    journal: Journal, processes: map<nat, Process>, workers: map<nat, Worker>, nextWorker: nat,
    calls: map<Job, nat>, overrun: Amount)

  datatype Event =
    | StartRun(source: nat, model: Model, width: nat, cap: Amount)
    | StartRetry(source: nat, model: Model, width: nat, cap: Amount, includeUncertain: bool, limit: nat)
    | FlushResult(source: nat, ok: bool)
    | AddJob(source: nat, job: Job, claim: nat)
    | TakePage(source: nat, capacity: nat)
    | Submit(source: nat)
    | Reap(k: nat)
    | End(source: nat)
    | Crash(source: nat)
    | Halt(k: nat)
    | ClaimJob(k: nat, answer: Claim)
    | RequeueJob(k: nat)
    | Preview(k: nat, failure: Option<string>)
    | ReserveCall(k: nat, month: Month)
    | Invoke(k: nat)
    | Return(k: nat, outcome: Outcome)
    | Settle(k: nat)
    | SyncResult(k: nat, ok: bool)

  const PAGE := 64

  // ---------- reading ----------

  function InFlight(w: World, source: nat): set<nat> {
    set k | k in w.workers && w.workers[k].source == source
  }

  function JobsInFlight(w: World, source: nat): set<Job> {
    set k | k in InFlight(w, source) :: w.workers[k].job
  }

  function Calls(w: World, job: Job): nat {
    if job in w.calls then w.calls[job] else 0
  }

  function OfModel(rows: seq<Analysis>, model: Model): seq<Analysis> {
    if rows == [] then []
    else OfModel(rows[..|rows| - 1], model) + if rows[|rows| - 1].model == model then [rows[|rows| - 1]] else []
  }

  function JobsOf(rows: seq<Analysis>): seq<Job> {
    seq(|rows|, i requires 0 <= i < |rows| => rows[i].job)
  }

  // ---------- steps of a process ----------

  function Opened(w: World, source: nat, p: Process): World {
    w.(processes := w.processes[source := p])
  }

  /** A run first marks interrupted calls as uncertain. */
  function StepStartRun(w: World, source: nat, model: Model, width: nat, cap: Amount): World {
    if source in w.processes || !(1 <= width <= 64) || cap == 0 then w
    else Opened(w.(journal := Recover(w.journal, source)), source, Process(Run, model, width, cap, false, true, []))
  }

  function StepStartRetry(w: World, source: nat, model: Model, width: nat, cap: Amount, includeUncertain: bool,
                          limit: nat): World
  {
    if source in w.processes || !(1 <= width <= 64) || cap == 0 then w
    else
      var states := if includeUncertain then {NeedsAttention, Uncertain} else {NeedsAttention};
      var rows := OfModel(Page(w.journal.rows, source, states, limit, {}), model);
      Opened(w, source, Process(Retry(includeUncertain), model, width, cap, false, false, JobsOf(rows)))
  }

  /** Saved results are sent before any new work is taken. */
  function StepFlush(w: World, source: nat, ok: bool): World {
    if source !in w.processes || !w.processes[source].flushing || w.processes[source].stop then w
    else
      var page := Page(w.journal.rows, source, {ResultReady}, PAGE, {});
      if page == [] then Opened(w, source, w.processes[source].(flushing := false))
      else if !ok then Stopped(w, source)
      else w.(journal := Set(w.journal, page[0].job, Synced, "", None, None))
  }

  predicate Taking(w: World, source: nat) {
    source in w.processes && w.processes[source].mode == Run
    && !w.processes[source].flushing && !w.processes[source].stop
  }

  function StepAdd(w: World, source: nat, job: Job, claim: nat): World {
    if !Taking(w, source) then w
    else w.(journal := Add(w.journal, source, job, claim, w.processes[source].model))
  }

  /** The next ready jobs, except those in flight. */
  function StepTakePage(w: World, source: nat, capacity: nat): World {
    if !Taking(w, source) || w.processes[source].queue != [] || !(1 <= capacity <= PAGE)
       || capacity + |InFlight(w, source)| > 2 * w.processes[source].width then w
    else
      var page := Page(w.journal.rows, source, {Ready}, capacity, JobsInFlight(w, source));
      Opened(w, source, w.processes[source].(queue := JobsOf(page)))
  }

  function StepSubmit(w: World, source: nat): World {
    if source !in w.processes || w.processes[source].queue == [] then w
    else
      var p := w.processes[source];
      if p.stop then Opened(w, source, p.(queue := []))
      else if |InFlight(w, source)| >= 2 * p.width then w
      else
        Opened(w, source, p.(queue := p.queue[1..])).(
          workers := w.workers[w.nextWorker := Worker(source, p.queue[0], Claiming)], nextWorker := w.nextWorker + 1)
  }

  function StepReap(w: World, k: nat): World {
    if k in w.workers && w.workers[k].point == Finished then w.(workers := w.workers - {k}) else w
  }

  /** Leaving the pool waits for every worker. */
  function StepEnd(w: World, source: nat): World {
    if source in w.processes && InFlight(w, source) == {} then w.(processes := w.processes - {source}) else w
  }

  function StepCrash(w: World, source: nat): World {
    w.(processes := w.processes - {source}, workers := w.workers - InFlight(w, source))
  }

  // ---------- steps of a worker ----------

  function Moved(w: World, k: nat, point: Point): World
    requires k in w.workers
  {
    w.(workers := w.workers[k := w.workers[k].(point := point)])
  }

  function Stopped(w: World, source: nat): World {
    if source in w.processes then w.(processes := w.processes[source := w.processes[source].(stop := true)]) else w
  }

  function Written(w: World, k: nat, state: State, error: string, result: Option<string>, cost: Option<Amount>,
                   point: Point): World
    requires k in w.workers
  {
    Moved(w.(journal := Set(w.journal, w.workers[k].job, state, error, result, cost)), k, point)
  }

  predicate At(w: World, k: nat, point: Point) {
    k in w.workers && w.workers[k].point == point && w.workers[k].source in w.processes
    && RowOf(w.journal.rows, w.workers[k].job).Some?
  }

  /** A stopped pool lets a worker return where it looks at the stop flag. */
  function StepHalt(w: World, k: nat): World {
    if k in w.workers && w.workers[k].point in {Claiming, Previewing, Reserving}
       && w.workers[k].source in w.processes && w.processes[w.workers[k].source].stop
    then Moved(w, k, Finished) else w
  }

  function StepClaim(w: World, k: nat, answer: Claim): World {
    if !At(w, k, Claiming) then w
    else
      var v := w.workers[k];
      var p := w.processes[v.source];
      if RowOf(w.journal.rows, v.job).value.model != p.model then Stopped(Moved(w, k, Finished), v.source)
      else match answer
        case Granted => Moved(w, k, if p.mode.Retry? then Requeueing else Previewing)
        case Succeeded => Written(w, k, Synced, "", None, None, Finished)
        case Unavailable => Written(w, k, Skipped, "EXISTING_CLOUD_WORK", None, None, Finished)
        case Broken => Stopped(Moved(w, k, Finished), v.source)
  }

  function StepRequeue(w: World, k: nat): World {
    if !At(w, k, Requeueing) || !w.processes[w.workers[k].source].mode.Retry? then w
    else
      var r := Requeue(w.journal, w.workers[k].job, w.processes[w.workers[k].source].mode.includeUncertain);
      Moved(w.(journal := r.0), k, if r.1 then Previewing else Finished)
  }

  function StepPreview(w: World, k: nat, failure: Option<string>): World {
    if !At(w, k, Previewing) then w
    else if failure.Some? then Written(w, k, NeedsAttention, failure.value, None, Some(0), Finished)
    else Moved(w, k, Reserving)
  }

  function StepReserve(w: World, k: nat, month: Month): World {
    if !At(w, k, Reserving) then w
    else
      var v := w.workers[k];
      var amount := Reservation(RowOf(w.journal.rows, v.job).value.model);
      var r := Reserve(w.journal, v.job, amount, w.processes[v.source].cap, month);
      if r.1 then Moved(w.(journal := r.0), k, Paid) else Stopped(Moved(w, k, Finished), v.source)
  }

  function StepInvoke(w: World, k: nat): World {
    if !At(w, k, Paid) then w
    else
      var job := w.workers[k].job;
      Moved(w.(calls := w.calls[job := Calls(w, job) + 1]), k, InCall)
  }

  /** A call turns out unbilled. */
  function StepReturn(w: World, k: nat, outcome: Outcome): World {
    if !At(w, k, InCall) then w
    else
      var job := w.workers[k].job;
      var calls := if PossiblyBilled(outcome) || Calls(w, job) == 0 then w.calls else w.calls[job := Calls(w, job) - 1];
      Moved(w.(calls := calls), k, Returned(outcome))
  }

  function StepSettle(w: World, k: nat): World {
    if k !in w.workers || !w.workers[k].point.Returned? || !At(w, k, w.workers[k].point) then w
    else
      var v := w.workers[k];
      match v.point.outcome
      case Described(text, charge) =>
        var reserved := Reservation(RowOf(w.journal.rows, v.job).value.model);
        var cost := if charge.Some? then charge.value else reserved;
        Written(w, k, ResultReady, "", Some(text), Some(cost), Saved).(
          overrun := w.overrun + if cost > reserved then cost - reserved else 0)
      case ProviderError(rejected, called, image) =>
        var state := if rejected then Ready else if !called then NeedsAttention else Uncertain;
        if image then Written(w, k, state, "IMAGE", None, if called then None else Some(0), Finished)
        else
          var cost := if rejected || !called then Some(0) else None;
          Stopped(Written(w, k, state, "PROVIDER", None, cost, Finished), v.source)
      case UnknownOutcome =>
        Stopped(Written(w, k, Uncertain, "PROVIDER_OUTCOME_UNKNOWN", None, None, Finished), v.source)
  }

  function StepSync(w: World, k: nat, ok: bool): World {
    if !At(w, k, Saved) then w
    else if ok then Written(w, k, Synced, "", None, None, Finished)
    else Stopped(Moved(w, k, Finished), w.workers[k].source)
  }

  function Step(w: World, e: Event): World {
    match e
    case StartRun(source, model, width, cap) => StepStartRun(w, source, model, width, cap)
    case StartRetry(source, model, width, cap, includeUncertain, limit) =>
      StepStartRetry(w, source, model, width, cap, includeUncertain, limit)
    case FlushResult(source, ok) => StepFlush(w, source, ok)
    case AddJob(source, job, claim) => StepAdd(w, source, job, claim)
    case TakePage(source, capacity) => StepTakePage(w, source, capacity)
    case Submit(source) => StepSubmit(w, source)
    case Reap(k) => StepReap(w, k)
    case End(source) => StepEnd(w, source)
    case Crash(source) => StepCrash(w, source)
    case Halt(k) => StepHalt(w, k)
    case ClaimJob(k, answer) => StepClaim(w, k, answer)
    case RequeueJob(k) => StepRequeue(w, k)
    case Preview(k, failure) => StepPreview(w, k, failure)
    case ReserveCall(k, month) => StepReserve(w, k, month)
    case Invoke(k) => StepInvoke(w, k)
    case Return(k, outcome) => StepReturn(w, k, outcome)
    case Settle(k) => StepSettle(w, k)
    case SyncResult(k, ok) => StepSync(w, k, ok)
  }

  /** Before the first command: an empty journal. */
  const Begin := World(Journal([], []), map[], map[], 0, map[], 0)

  function After(events: seq<Event>): World {
    if events == [] then Begin else Step(After(events[..|events| - 1]), events[|events| - 1])
  }
}
