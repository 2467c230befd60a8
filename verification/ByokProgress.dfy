/** Jobs get described: from every reachable state, whatever has happened, a process can
    work off what is ready and what failed, one call for each job. */
module ByokProgress {
  import opened Options
  import opened ByokJournals
  import opened ByokProtocol
  import opened ByokSafety

  // ---------- running on ----------

  function Onward(w: World, events: seq<Event>): World
    decreases |events|
  {
    if events == [] then w else Onward(Step(w, events[0]), events[1..])
  }

  lemma {:induction false} AfterMore(events: seq<Event>, more: seq<Event>)
    ensures After(events + more) == Onward(After(events), more)
    decreases |more|
  {
    if more == [] {
      assert events + more == events;
    } else {
      assert (events + [more[0]])[..|events|] == events && events + more == (events + [more[0]]) + more[1..];
      AfterMore(events + [more[0]], more[1..]);
    }
  }

  lemma {:induction false} OnwardMore(w: World, a: seq<Event>, b: seq<Event>)
    ensures Onward(w, a + b) == Onward(Onward(w, a), b)
    decreases |a|
  {
    if a == [] {
      assert a + b == b;
    } else {
      assert (a + b)[0] == a[0] && (a + b)[1..] == a[1..] + b;
      OnwardMore(Step(w, a[0]), a[1..], b);
    }
  }

  lemma OnwardOne(w: World, e: Event)
    ensures Onward(w, [e]) == Step(w, e)
  {
    assert [e][1..] == [];
  }

  lemma OnwardNext(w: World, events: seq<Event>, e: Event)
    ensures Onward(w, events + [e]) == Step(Onward(w, events), e)
  {
    OnwardMore(w, events, [e]);
    OnwardOne(Onward(w, events), e);
  }

  // ---------- what stays ----------

  function ReadyOf(w: World, source: nat): seq<Analysis> {
    Matching(w.journal.rows, source, {Ready}, {})
  }

  /** No job is added to or taken from what is ready, failed or paid for. */
  ghost predicate Kept(w: World, after: World, source: nat) {
    && UniqueJobs(after.journal.rows) && after.calls == w.calls && after.journal.past == w.journal.past
    && (forall m: Month :: Total(after.journal, m) == Total(w.journal, m))
    && (forall job: Job :: RowOf(w.journal.rows, job).Some? && RowOf(w.journal.rows, job).value.state == Ready ==>
          RowOf(after.journal.rows, job) == RowOf(w.journal.rows, job))
    && (forall job: Job :: RowOf(w.journal.rows, job).None? ==> RowOf(after.journal.rows, job).None?)
    && ReadyOf(after, source) == ReadyOf(w, source)
  }

  lemma KeptOn(a: World, b: World, c: World, source: nat)
    requires Kept(a, b, source) && Kept(b, c, source)
    ensures Kept(a, c, source)
  {
  }

  lemma {:induction false} RecoverKeepsReady(rows: seq<Analysis>, source: nat)
    ensures Matching(InterruptedRows(rows, source), source, {Ready}, {}) == Matching(rows, source, {Ready}, {})
  {
    if rows != [] {
      RecoverKeepsReady(rows[..|rows| - 1], source);
      assert InterruptedRows(rows, source)[..|rows| - 1] == InterruptedRows(rows[..|rows| - 1], source);
    }
  }

  lemma {:induction false} AbsentPut(rows: seq<Analysis>, row: Analysis)
    requires forall r :: r in rows ==> r.job != row.job
    ensures Put(rows, row) == rows
  {
  }

  /** A row that leaves the matching ones makes them fewer, and one that was not among
      them leaves them as they are. */
  lemma {:induction false} MatchingPut(rows: seq<Analysis>, row: Analysis, source: nat, states: set<State>)
    requires UniqueJobs(rows) && RowOf(rows, row.job).Some? && !Matches(row, source, states, {})
    ensures var prior := RowOf(rows, row.job).value;
            if Matches(prior, source, states, {})
            then |Matching(Put(rows, row), source, states, {})| < |Matching(rows, source, states, {})|
            else Matching(Put(rows, row), source, states, {}) == Matching(rows, source, states, {})
  {
    var front, last := rows[..|rows| - 1], rows[|rows| - 1];
    assert Put(rows, row)[..|rows| - 1] == Put(front, row);
    if last.job == row.job {
      AbsentPut(front, row);
    } else {
      MatchingPut(front, row, source, states);
    }
  }

  /** A row that was not ready is written in another state that is not. */
  lemma RewriteKeeps(w: World, row: Analysis, source: nat)
    requires UniqueJobs(w.journal.rows) && RowOf(w.journal.rows, row.job).Some?
    requires var prior := RowOf(w.journal.rows, row.job).value;
             prior.state != Ready && row.state != Ready && row.month == prior.month && row.cost == prior.cost
    ensures Kept(w, w.(journal := w.journal.(rows := Put(w.journal.rows, row))), source)
  {
    PutIsUnique(w.journal.rows, row);
    MatchingPut(w.journal.rows, row, source, {Ready});
    forall job ensures RowOf(Put(w.journal.rows, row), job)
                    == if job == row.job then Some(row) else RowOf(w.journal.rows, job)
    {
      RowOfPut(w.journal.rows, row, job);
    }
    forall m { SpentPut(w.journal.rows, row, m); }
  }

  lemma RecoverKeepsAll(w: World, source: nat)
    requires UniqueJobs(w.journal.rows)
    ensures Kept(w, w.(journal := Recover(w.journal, source)), source)
  {
    RecoverKeepsReady(w.journal.rows, source);
    forall job { RowOfInterrupted(w.journal.rows, source, job); }
    forall m { InterruptedKeepsSpent(w.journal.rows, source, m); }
  }

  // ---------- a process starts ----------

  /** A process of one worker with nothing taken and nothing in flight. */
  ghost predicate Standing(w: World, source: nat, p: Process) {
    source in w.processes && w.processes[source] == p && p.width == 1 && !p.stop && InFlight(w, source) == {}
  }

  function Runner(model: Model, cap: Amount, flushing: bool): Process {
    Process(Run, model, 1, cap, false, flushing, [])
  }

  lemma Restarts(w: World, source: nat, model: Model, cap: Amount)
    requires UniqueJobs(w.journal.rows) && cap > 0
    ensures var after := Step(Step(w, Crash(source)), StartRun(source, model, 1, cap));
            Standing(after, source, Runner(model, cap, true)) && Kept(w, after, source)
  {
    RecoverKeepsAll(w, source);
  }

  function Unsent(w: World, source: nat): seq<Analysis> {
    Matching(w.journal.rows, source, {ResultReady}, {})
  }

  /** One saved result is sent. */
  lemma Flushes(w: World, source: nat, p: Process)
    requires Standing(w, source, p) && p.flushing && UniqueJobs(w.journal.rows) && Unsent(w, source) != []
    ensures var after := Step(w, FlushResult(source, true));
            Standing(after, source, p) && Kept(w, after, source) && |Unsent(after, source)| < |Unsent(w, source)|
  {
    var first := Unsent(w, source)[0];
    MatchingMembers(w.journal.rows, source, {ResultReady}, {});
    assert first in Unsent(w, source);
    RowIsUnique(w.journal.rows, first);
    var row := Write(first, Synced, "", None, None);
    RewriteKeeps(w, row, source);
    MatchingPut(w.journal.rows, row, source, {ResultReady});
    assert Step(w, FlushResult(source, true)) == w.(journal := w.journal.(rows := Put(w.journal.rows, row)));
  }

  lemma {:induction false} FlushesAll(w: World, source: nat, model: Model, cap: Amount) returns (events: seq<Event>)
    requires Standing(w, source, Runner(model, cap, true)) && UniqueJobs(w.journal.rows)
    ensures Standing(Onward(w, events), source, Runner(model, cap, false)) && Kept(w, Onward(w, events), source)
    decreases |Unsent(w, source)|
  {
    var flush := FlushResult(source, true);
    if Unsent(w, source) == [] {
      events := [flush];
      OnwardOne(w, flush);
      assert Step(w, flush) == Opened(w, source, Runner(model, cap, false));
    } else {
      Flushes(w, source, Runner(model, cap, true));
      var rest := FlushesAll(Step(w, flush), source, model, cap);
      events := [flush] + rest;
      OnwardOne(w, flush);
      OnwardMore(w, [flush], rest);
      KeptOn(w, Step(w, flush), Onward(w, events), source);
    }
  }

  /** A process of the source can be started that has sent what was saved. */
  lemma Opens(w: World, source: nat, model: Model, cap: Amount) returns (events: seq<Event>)
    requires UniqueJobs(w.journal.rows) && cap > 0
    ensures Standing(Onward(w, events), source, Runner(model, cap, false)) && Kept(w, Onward(w, events), source)
  {
    var opening := [Crash(source)] + [StartRun(source, model, 1, cap)];
    OnwardOne(w, Crash(source));
    OnwardNext(w, [Crash(source)], StartRun(source, model, 1, cap));
    Restarts(w, source, model, cap);
    var flushes := FlushesAll(Onward(w, opening), source, model, cap);
    events := opening + flushes;
    OnwardMore(w, opening, flushes);
    KeptOn(w, Onward(w, opening), Onward(w, events), source);
  }

  // ---------- a worker starts ----------

  function Claims(w: World, source: nat, job: Job): World {
    w.(workers := w.workers[w.nextWorker := Worker(source, job, Claiming)], nextWorker := w.nextWorker + 1)
  }

  /** The first ready job of the source is taken and submitted. */
  lemma TakesFirst(w: World, source: nat, model: Model, cap: Amount)
    requires Standing(w, source, Runner(model, cap, false)) && ReadyOf(w, source) != []
    ensures Onward(w, [TakePage(source, 1)] + [Submit(source)]) == Claims(w, source, ReadyOf(w, source)[0].job)
  {
    var first := ReadyOf(w, source)[0].job;
    TakesPage(w, source, model, cap);
    SubmitsTaken(w, source, Runner(model, cap, false), first);
    OnwardOne(w, TakePage(source, 1));
    OnwardNext(w, [TakePage(source, 1)], Submit(source));
  }

  lemma TakesPage(w: World, source: nat, model: Model, cap: Amount)
    requires Standing(w, source, Runner(model, cap, false)) && ReadyOf(w, source) != []
    ensures Step(w, TakePage(source, 1))
         == Opened(w, source, Runner(model, cap, false).(queue := [ReadyOf(w, source)[0].job]))
  {
    var page := Page(w.journal.rows, source, {Ready}, 1, {});
    assert JobsInFlight(w, source) == {};
    assert page == [ReadyOf(w, source)[0]];
    assert JobsOf(page) == [ReadyOf(w, source)[0].job];
  }

  lemma SubmitsTaken(w: World, source: nat, p: Process, job: Job)
    requires Standing(w, source, p) && p.queue == []
    ensures Step(Opened(w, source, p.(queue := [job])), Submit(source)) == Claims(w, source, job)
  {
    var q := p.(queue := [job]);
    var taken := Opened(w, source, q);
    assert InFlight(taken, source) == InFlight(w, source);
    Submits(taken, source, q);
    assert q.(queue := q.queue[1..]) == p;
    assert w.processes[source := q][source := p] == w.processes;
  }

  lemma Submits(w: World, source: nat, p: Process)
    requires Standing(w, source, p) && p.queue != []
    ensures Step(w, Submit(source))
         == Claims(Opened(w, source, p.(queue := p.queue[1..])), source, p.queue[0])
  {
  }

  /** A job whose work the server already has is done with. */
  lemma Answered(w: World, k: nat, row: Analysis)
    requires At(w, k, Claiming) && RowOf(w.journal.rows, w.workers[k].job) == Some(row)
    requires row.model == w.processes[w.workers[k].source].model
    ensures var rows := Put(w.journal.rows, Write(row, Synced, "", None, None));
            Step(w, ClaimJob(k, Succeeded)) == Moved(w.(journal := w.journal.(rows := rows)), k, Finished)
  {
  }

  /** What is done with one job leaves the others, and all that was paid. */
  ghost predicate Passed(w: World, after: World, job: Job) {
    && UniqueJobs(after.journal.rows) && after.calls == w.calls && after.journal.past == w.journal.past
    && (forall m: Month :: Total(after.journal, m) == Total(w.journal, m))
    && forall other: Job :: other != job ==> RowOf(after.journal.rows, other) == RowOf(w.journal.rows, other)
  }

  lemma SyncedPasses(w: World, row: Analysis)
    requires UniqueJobs(w.journal.rows) && RowOf(w.journal.rows, row.job) == Some(row)
    ensures var rows := Put(w.journal.rows, Write(row, Synced, "", None, None));
            Passed(w, w.(journal := w.journal.(rows := rows)), row.job)
  {
    var written := Write(row, Synced, "", None, None);
    PutIsUnique(w.journal.rows, written);
    forall other { RowOfPut(w.journal.rows, written, other); }
    forall m { SpentPut(w.journal.rows, written, m); }
  }

  // ---------- a call ----------

  function Charged(row: Analysis, charge: Option<Amount>): Amount {
    if charge.Some? then charge.value else Reservation(row.model)
  }

  /** The row of a job that was described and sent. */
  function DoneRow(row: Analysis, month: Month, text: string, charge: Option<Amount>): Analysis {
    row.(state := Synced, result := Some(text), error := "", month := Some(month), cost := Charged(row, charge))
  }

  function CallEvents(k: nat, month: Month, text: string, charge: Option<Amount>): seq<Event> {
    [Preview(k, None), ReserveCall(k, month), Invoke(k), Return(k, Described(text, charge)), Settle(k),
     SyncResult(k, true)]
  }

  ghost predicate Previews(w: World, k: nat, row: Analysis) {
    && At(w, k, Previewing) && w.workers[k].job == row.job
    && RowOf(w.journal.rows, row.job) == Some(row) && row.state == Ready
  }

  ghost predicate HasRoom(w: World, source: nat, month: Month, model: Model) {
    source in w.processes && Total(w.journal, month) + Reservation(model) <= w.processes[source].cap
  }

  /** The point at which the call is reserved. */
  function Paying(w: World, k: nat, row: Analysis, month: Month): World
    requires k in w.workers
  {
    Moved(w.(journal := w.journal.(rows := Put(w.journal.rows, Reserved(row, Reservation(row.model), month)))), k, Paid)
  }

  lemma ReservesCall(w: World, k: nat, row: Analysis, month: Month)
    requires Previews(w, k, row) && HasRoom(w, w.workers[k].source, month, row.model)
    ensures Step(Step(w, Preview(k, None)), ReserveCall(k, month)) == Paying(w, k, row, month)
  {
    var reserving := Moved(w, k, Reserving);
    assert Step(w, Preview(k, None)) == reserving;
    assert Step(reserving, ReserveCall(k, month)) == StepReserve(reserving, k, month);
  }

  lemma MakesCall(w: World, k: nat, outcome: Outcome)
    requires At(w, k, Paid) && PossiblyBilled(outcome)
    ensures Step(Step(w, Invoke(k)), Return(k, outcome))
         == Moved(w.(calls := w.calls[w.workers[k].job := Calls(w, w.workers[k].job) + 1]), k, Returned(outcome))
  {
    var called := Moved(w.(calls := w.calls[w.workers[k].job := Calls(w, w.workers[k].job) + 1]), k, InCall);
    assert Step(w, Invoke(k)) == called;
    assert Step(called, Return(k, outcome)) == StepReturn(called, k, outcome);
  }

  function Settled(row: Analysis, text: string, charge: Option<Amount>): Analysis {
    Write(row, ResultReady, "", Some(text), Some(Charged(row, charge)))
  }

  lemma SettlesCall(w: World, k: nat, row: Analysis, text: string, charge: Option<Amount>)
    requires At(w, k, Returned(Described(text, charge))) && RowOf(w.journal.rows, w.workers[k].job) == Some(row)
    ensures var after := Step(w, Settle(k));
            && after.journal == w.journal.(rows := Put(w.journal.rows, Settled(row, text, charge)))
            && after.calls == w.calls && after.processes == w.processes
            && after.workers == w.workers[k := w.workers[k].(point := Saved)]
  {
    assert Step(w, Settle(k)) == StepSettle(w, k);
  }

  lemma SendsResult(w: World, k: nat, row: Analysis)
    requires At(w, k, Saved) && RowOf(w.journal.rows, w.workers[k].job) == Some(row)
    ensures var after := Step(w, SyncResult(k, true));
            && after.journal == w.journal.(rows := Put(w.journal.rows, Write(row, Synced, "", None, None)))
            && after.calls == w.calls
  {
    assert Step(w, SyncResult(k, true)) == StepSync(w, k, true);
  }

  lemma PutTwice(rows: seq<Analysis>, a: Analysis, b: Analysis)
    requires a.job == b.job && RowOf(rows, a.job).Some?
    ensures Put(Put(rows, a), b) == Put(rows, b) && RowOf(Put(rows, a), a.job) == Some(a)
  {
    RowOfPut(rows, a, a.job);
  }

  /** What one call leaves: the row of a job that is done, and one call more. */
  ghost predicate CalledOnce(w: World, after: World, row: Analysis, done: Analysis) {
    && after.journal == w.journal.(rows := Put(w.journal.rows, done))
    && after.calls == w.calls[row.job := Calls(w, row.job) + 1]
  }

  /** The point at which the provider has answered. */
  function Answering(w: World, k: nat, row: Analysis, month: Month, text: string, charge: Option<Amount>): World
    requires k in w.workers
  {
    Moved(w.(journal := w.journal.(rows := Put(w.journal.rows, Reserved(row, Reservation(row.model), month))),
             calls := w.calls[row.job := Calls(w, row.job) + 1]),
          k, Returned(Described(text, charge)))
  }

  lemma ReachesAnswer(w: World, k: nat, row: Analysis, month: Month, text: string, charge: Option<Amount>)
    requires Previews(w, k, row) && HasRoom(w, w.workers[k].source, month, row.model)
    ensures Step(Step(Step(Step(w, Preview(k, None)), ReserveCall(k, month)), Invoke(k)),
                 Return(k, Described(text, charge)))
         == Answering(w, k, row, month, text, charge)
  {
    var paid := Paying(w, k, row, month);
    ReservesCall(w, k, row, month);
    PaysAt(w, k, row, month);
    MakesCall(paid, k, Described(text, charge));
    MovedTwice(w, k, Paid, Returned(Described(text, charge)));
  }

  lemma MovedTwice(w: World, k: nat, first: Point, second: Point)
    requires k in w.workers
    ensures Moved(w, k, first).workers[k := Moved(w, k, first).workers[k].(point := second)]
         == Moved(w, k, second).workers
  {
  }

  lemma PaysAt(w: World, k: nat, row: Analysis, month: Month)
    requires Previews(w, k, row)
    ensures At(Paying(w, k, row, month), k, Paid)
  {
    RowOfPut(w.journal.rows, Reserved(row, Reservation(row.model), month), row.job);
  }

  /** An answer that arrived is saved and sent. */
  lemma EndsCall(w: World, k: nat, row: Analysis, text: string, charge: Option<Amount>)
    requires At(w, k, Returned(Described(text, charge))) && RowOf(w.journal.rows, w.workers[k].job) == Some(row)
    ensures var after := Step(Step(w, Settle(k)), SyncResult(k, true));
            && after.journal == w.journal.(rows := Put(w.journal.rows,
                                                       Write(Settled(row, text, charge), Synced, "", None, None)))
            && after.calls == w.calls
  {
    var settled := Settled(row, text, charge);
    SettlesCall(w, k, row, text, charge);
    PutTwice(w.journal.rows, settled, Write(settled, Synced, "", None, None));
    SendsResult(Step(w, Settle(k)), k, settled);
  }

  lemma EndsAnswer(w: World, k: nat, row: Analysis, month: Month, text: string, charge: Option<Amount>)
    requires Previews(w, k, row)
    ensures var answering := Answering(w, k, row, month, text, charge);
            CalledOnce(w, Step(Step(answering, Settle(k)), SyncResult(k, true)), row,
                       DoneRow(row, month, text, charge))
  {
    var reserved := Reserved(row, Reservation(row.model), month);
    PutTwice(w.journal.rows, reserved, DoneRow(row, month, text, charge));
    EndsCall(Answering(w, k, row, month, text, charge), k, reserved, text, charge);
  }

  /** A ready job whose image is there is called once, and its text is saved and sent. */
  lemma Describes(w: World, k: nat, row: Analysis, month: Month, text: string, charge: Option<Amount>)
    requires Previews(w, k, row) && HasRoom(w, w.workers[k].source, month, row.model)
    ensures CalledOnce(w, Onward(w, CallEvents(k, month, text, charge)), row, DoneRow(row, month, text, charge))
  {
    ReachesAnswer(w, k, row, month, text, charge);
    EndsAnswer(w, k, row, month, text, charge);
    SixSteps(w, Preview(k, None), ReserveCall(k, month), Invoke(k), Return(k, Described(text, charge)), Settle(k),
             SyncResult(k, true));
  }

  lemma SixSteps(w: World, a: Event, b: Event, c: Event, d: Event, e: Event, f: Event)
    ensures Onward(w, [a, b, c, d, e, f]) == Step(Step(Step(Step(Step(Step(w, a), b), c), d), e), f)
  {
    OnwardOne(w, a);
    OnwardNext(w, [a], b);
    OnwardNext(w, [a] + [b], c);
    OnwardNext(w, [a] + [b] + [c], d);
    OnwardNext(w, [a] + [b] + [c] + [d], e);
    OnwardNext(w, [a] + [b] + [c] + [d] + [e], f);
    assert [a, b, c, d, e, f] == [a] + [b] + [c] + [d] + [e] + [f];
  }

  // ---------- ready jobs ----------

  /** The job is ready, and a month has room for its call. */
  ghost predicate Waits(w: World, row: Analysis, month: Month, cap: Amount) {
    && UniqueJobs(w.journal.rows) && RowOf(w.journal.rows, row.job) == Some(row) && row.state == Ready
    && Total(w.journal, month) + Reservation(row.model) <= cap
  }

  /** The job is described and sent, after one call more and no other call. */
  ghost predicate DescribedOnce(w: World, after: World, row: Analysis, done: Analysis) {
    && RowOf(after.journal.rows, row.job) == Some(done)
    && forall job: Job :: Calls(after, job) == Calls(w, job) + if job == row.job then 1 else 0
  }

  /** The first ready job is described. */
  lemma DescribesFirst(w: World, row: Analysis, month: Month, cap: Amount, text: string, charge: Option<Amount>)
    returns (events: seq<Event>)
    requires Standing(w, row.source, Runner(row.model, cap, false)) && Waits(w, row, month, cap)
    requires ReadyOf(w, row.source) != [] && ReadyOf(w, row.source)[0] == row
    ensures DescribedOnce(w, Onward(w, events), row, DoneRow(row, month, text, charge))
  {
    var k, taking := w.nextWorker, [TakePage(row.source, 1)] + [Submit(row.source)];
    var claiming := Claims(w, row.source, row.job);
    TakesFirst(w, row.source, row.model, cap);
    var previewing := Moved(claiming, k, Previewing);
    assert Step(claiming, ClaimJob(k, Granted)) == previewing;
    OnwardNext(w, taking, ClaimJob(k, Granted));
    Describes(previewing, k, row, month, text, charge);
    OnwardMore(w, taking + [ClaimJob(k, Granted)], CallEvents(k, month, text, charge));
    events := taking + [ClaimJob(k, Granted)] + CallEvents(k, month, text, charge);
    RowOfPut(w.journal.rows, DoneRow(row, month, text, charge), row.job);
  }

  /** The first ready job is done with, without a call. */
  lemma PassesFirst(w: World, source: nat, cap: Amount, first: Analysis) returns (events: seq<Event>)
    requires Standing(w, source, Runner(first.model, cap, false)) && UniqueJobs(w.journal.rows)
    requires ReadyOf(w, source) != [] && ReadyOf(w, source)[0] == first
    ensures Passed(w, Onward(w, events), first.job)
    ensures |ReadyOf(Onward(w, events), source)| < |ReadyOf(w, source)|
  {
    var k, taking := w.nextWorker, [TakePage(source, 1)] + [Submit(source)];
    MatchingMembers(w.journal.rows, source, {Ready}, {});
    assert first in ReadyOf(w, source);
    RowIsUnique(w.journal.rows, first);
    TakesFirst(w, source, first.model, cap);
    Answered(Claims(w, source, first.job), k, first);
    OnwardNext(w, taking, ClaimJob(k, Succeeded));
    SyncedPasses(w, first);
    MatchingPut(w.journal.rows, Write(first, Synced, "", None, None), source, {Ready});
    events := taking + [ClaimJob(k, Succeeded)];
  }

  lemma {:induction false} WorksUpTo(w: World, row: Analysis, month: Month, cap: Amount, text: string,
                                     charge: Option<Amount>)
    returns (events: seq<Event>)
    requires Waits(w, row, month, cap)
    ensures DescribedOnce(w, Onward(w, events), row, DoneRow(row, month, text, charge))
    decreases |ReadyOf(w, row.source)|
  {
    MatchingMembers(w.journal.rows, row.source, {Ready}, {});
    assert row in ReadyOf(w, row.source);
    var first := ReadyOf(w, row.source)[0];
    assert first in ReadyOf(w, row.source);
    var opening := Opens(w, row.source, first.model, cap);
    var standing := Onward(w, opening);
    if first.job == row.job {
      RowIsUnique(w.journal.rows, first);
      var rest := DescribesFirst(standing, row, month, cap, text, charge);
      OnwardMore(w, opening, rest);
      events := opening + rest;
    } else {
      var passing := PassesFirst(standing, row.source, cap, first);
      OnwardMore(w, opening, passing);
      var passed := Onward(w, opening + passing);
      var rest := WorksUpTo(passed, row, month, cap, text, charge);
      OnwardMore(w, opening + passing, rest);
      events := opening + passing + rest;
    }
  }

  /** From every reachable state, every ready job whose call a month has room for can be
      described and sent, with exactly one call, and no call of any other job. */
  lemma EveryReadyJobIsDescribed(events: seq<Event>, row: Analysis, month: Month, cap: Amount, text: string,
                                 charge: Option<Amount>)
    returns (more: seq<Event>)
    requires RowOf(After(events).journal.rows, row.job) == Some(row) && row.state == Ready
    requires Total(After(events).journal, month) + Reservation(row.model) <= cap
    ensures DescribedOnce(After(events), After(events + more), row, DoneRow(row, month, text, charge))
  {
    var limit := SomeCap(events);
    RunKeeps(events, limit);
    more := WorksUpTo(After(events), row, month, cap, text, charge);
    AfterMore(events, more);
  }

  /** From every reachable state, a job without a row can be added, ready. */
  lemma EveryOfferedJobIsReady(events: seq<Event>, source: nat, job: Job, claim: nat, model: Model)
    returns (more: seq<Event>)
    requires RowOf(After(events).journal.rows, job).None?
    ensures RowOf(After(events + more).journal.rows, job)
         == Some(Analysis(job, source, claim, model, Ready, None, "", None, 0))
  {
    var limit := SomeCap(events);
    RunKeeps(events, limit);
    var opening := Opens(After(events), source, model, 1);
    var standing := Onward(After(events), opening);
    RowOfSnoc(standing.journal.rows, Analysis(job, source, claim, model, Ready, None, "", None, 0), job);
    OnwardNext(After(events), opening, AddJob(source, job, claim));
    more := opening + [AddJob(source, job, claim)];
    AfterMore(events, more);
  }

  // ---------- failed jobs ----------

  function Retrier(model: Model, cap: Amount, queue: seq<Job>): Process {
    Process(Retry(true), model, 1, cap, false, false, queue)
  }

  /** The failed jobs of a source with one model, in order. */
  function FailedOf(w: World, source: nat, model: Model): seq<Analysis> {
    OfModel(Matching(w.journal.rows, source, {NeedsAttention, Uncertain}, {}), model)
  }

  /** A retry takes the failed jobs of the model, all when its limit allows. */
  lemma TakesFailed(w: World, source: nat, model: Model, cap: Amount)
    requires cap > 0
    ensures var after := Step(Step(w, Crash(source)), StartRetry(source, model, 1, cap, true, |w.journal.rows|));
            && Standing(after, source, Retrier(model, cap, JobsOf(FailedOf(w, source, model))))
            && after.journal == w.journal && after.calls == w.calls
  {
    var crashed := Step(w, Crash(source));
    assert source !in crashed.processes && InFlight(crashed, source) == {} && crashed.journal == w.journal;
    StartsRetry(crashed, source, model, cap);
  }

  lemma StartsRetry(w: World, source: nat, model: Model, cap: Amount)
    requires source !in w.processes && cap > 0
    ensures Step(w, StartRetry(source, model, 1, cap, true, |w.journal.rows|))
         == Opened(w, source, Retrier(model, cap, JobsOf(FailedOf(w, source, model))))
  {
    var states := {NeedsAttention, Uncertain};
    MatchingIsShort(w.journal.rows, source, states);
    assert Page(w.journal.rows, source, states, |w.journal.rows|, {}) == Matching(w.journal.rows, source, states, {});
  }

  lemma {:induction false} MatchingIsShort(rows: seq<Analysis>, source: nat, states: set<State>)
    ensures |Matching(rows, source, states, {})| <= |rows|
  {
    if rows != [] { MatchingIsShort(rows[..|rows| - 1], source, states); }
  }

  /** The queue of a retry: jobs of the model, each once. */
  ghost predicate Queued(w: World, p: Process) {
    && (forall i, j :: 0 <= i < j < |p.queue| ==> p.queue[i] != p.queue[j])
    && forall job :: job in p.queue ==>
         RowOf(w.journal.rows, job).Some? && RowOf(w.journal.rows, job).value.model == p.model
  }

  lemma {:induction false} OfModelUnique(rows: seq<Analysis>, model: Model)
    requires UniqueJobs(rows)
    ensures UniqueJobs(OfModel(rows, model))
    ensures forall row :: row in OfModel(rows, model) <==> row in rows && row.model == model
  {
    if rows != [] {
      var front, last := rows[..|rows| - 1], rows[|rows| - 1];
      assert rows == front + [last];
      OfModelUnique(front, model);
      forall row | row in OfModel(front, model) ensures row.job != last.job {
        var i :| 0 <= i < |front| && front[i] == row;
        assert rows[i].job != rows[|rows| - 1].job;
      }
    }
  }

  lemma FailedAreQueued(w: World, source: nat, model: Model, cap: Amount)
    requires UniqueJobs(w.journal.rows)
    ensures Queued(w, Retrier(model, cap, JobsOf(FailedOf(w, source, model))))
  {
    var all := Matching(w.journal.rows, source, {NeedsAttention, Uncertain}, {});
    var failed := OfModel(all, model);
    MatchingUnique(w.journal.rows, source, {NeedsAttention, Uncertain}, {});
    MatchingMembers(w.journal.rows, source, {NeedsAttention, Uncertain}, {});
    OfModelUnique(all, model);
    forall job | job in JobsOf(failed)
      ensures RowOf(w.journal.rows, job).Some? && RowOf(w.journal.rows, job).value.model == model
    {
      var i :| 0 <= i < |failed| && failed[i].job == job;
      assert failed[i] in failed;
      RowIsUnique(w.journal.rows, failed[i]);
    }
  }

  lemma FailedIsQueued(w: World, row: Analysis)
    requires RowOf(w.journal.rows, row.job) == Some(row) && row.state in {NeedsAttention, Uncertain}
    requires UniqueJobs(w.journal.rows)
    ensures row.job in JobsOf(FailedOf(w, row.source, row.model))
  {
    var all := Matching(w.journal.rows, row.source, {NeedsAttention, Uncertain}, {});
    MatchingUnique(w.journal.rows, row.source, {NeedsAttention, Uncertain}, {});
    MatchingMembers(w.journal.rows, row.source, {NeedsAttention, Uncertain}, {});
    OfModelUnique(all, row.model);
    var failed := OfModel(all, row.model);
    var i :| 0 <= i < |failed| && failed[i] == row;
    assert JobsOf(failed)[i] == row.job;
  }

  /** A failed job without an answer, and a month with room for its call. */
  ghost predicate Failed(w: World, row: Analysis, month: Month, cap: Amount) {
    && UniqueJobs(w.journal.rows) && RowOf(w.journal.rows, row.job) == Some(row)
    && row.state in {NeedsAttention, Uncertain} && row.result.None?
    && Total(w.journal, month) + Reservation(row.model) <= cap
  }

  /** The attempt is archived, and the job is ready and looked at. */
  lemma Requeues(w: World, k: nat, row: Analysis)
    requires At(w, k, Requeueing) && w.workers[k].job == row.job && RowOf(w.journal.rows, row.job) == Some(row)
    requires w.processes[w.workers[k].source].mode == Retry(true) && MayRequeue(row, true)
    requires UniqueJobs(w.journal.rows)
    ensures var after := Step(w, RequeueJob(k));
            && Previews(after, k, Requeued(row)) && after.processes == w.processes && after.calls == w.calls
            && after.journal == Requeue(w.journal, row.job, true).0 && after.workers[k].source == w.workers[k].source
            && forall m: Month :: Total(after.journal, m) == Total(w.journal, m)
  {
    forall m { RequeueKeepsTotals(w.journal, row.job, true, m); }
    RowOfPut(w.journal.rows, Requeued(row), row.job);
  }

  function Retrying(k: nat, source: nat): seq<Event> {
    [Submit(source)] + [ClaimJob(k, Granted)] + [RequeueJob(k)]
  }

  /** The first job of the queue is made ready again. */
  lemma ReadiesFirst(w: World, row: Analysis, p: Process)
    requires Standing(w, row.source, p) && p.queue != [] && p.queue[0] == row.job
    requires p.mode == Retry(true) && p.model == row.model
    requires UniqueJobs(w.journal.rows) && RowOf(w.journal.rows, row.job) == Some(row) && MayRequeue(row, true)
    ensures var k, after := w.nextWorker, Onward(w, Retrying(w.nextWorker, row.source));
            && Previews(after, k, Requeued(row)) && after.workers[k].source == row.source
            && row.source in after.processes && after.processes[row.source].cap == p.cap
            && after.calls == w.calls && after.journal == Requeue(w.journal, row.job, true).0
            && forall m: Month :: Total(after.journal, m) == Total(w.journal, m)
  {
    var k := w.nextWorker;
    var claiming := Claims(Opened(w, row.source, p.(queue := p.queue[1..])), row.source, row.job);
    Submits(w, row.source, p);
    assert Step(claiming, ClaimJob(k, Granted)) == Moved(claiming, k, Requeueing);
    Requeues(Moved(claiming, k, Requeueing), k, row);
    OnwardOne(w, Submit(row.source));
    OnwardNext(w, [Submit(row.source)], ClaimJob(k, Granted));
    OnwardNext(w, [Submit(row.source)] + [ClaimJob(k, Granted)], RequeueJob(k));
  }

  /** The first job of the queue is tried again, and described. */
  lemma RetriesFirst(w: World, row: Analysis, month: Month, cap: Amount, p: Process, text: string,
                     charge: Option<Amount>)
    returns (events: seq<Event>)
    requires Failed(w, row, month, cap) && Standing(w, row.source, p) && p == Retrier(row.model, cap, p.queue)
    requires p.queue != [] && p.queue[0] == row.job
    ensures DescribedOnce(w, Onward(w, events), row, DoneRow(Requeued(row), month, text, charge))
    ensures Onward(w, events).journal.past == w.journal.past + [AttemptOf(row)]
  {
    var k := w.nextWorker;
    ReadiesFirst(w, row, p);
    var ready := Onward(w, Retrying(k, row.source));
    Describes(ready, k, Requeued(row), month, text, charge);
    OnwardMore(w, Retrying(k, row.source), CallEvents(k, month, text, charge));
    events := Retrying(k, row.source) + CallEvents(k, month, text, charge);
    CalledAgain(w, ready, Onward(w, events), row, DoneRow(Requeued(row), month, text, charge));
  }

  lemma CalledAgain(w: World, ready: World, after: World, row: Analysis, done: Analysis)
    requires RowOf(w.journal.rows, row.job) == Some(row) && MayRequeue(row, true) && done.job == row.job
    requires ready.calls == w.calls && ready.journal == Requeue(w.journal, row.job, true).0
    requires CalledOnce(ready, after, Requeued(row), done)
    ensures DescribedOnce(w, after, row, done) && after.journal.past == w.journal.past + [AttemptOf(row)]
  {
    RowOfPut(w.journal.rows, Requeued(row), row.job);
    RowOfPut(ready.journal.rows, done, row.job);
  }

  /** The first job of the queue is done with, without a call. */
  lemma PassesQueued(w: World, source: nat, p: Process, first: Analysis) returns (events: seq<Event>)
    requires Standing(w, source, p) && p.queue != [] && p.queue[0] == first.job && p.model == first.model
    requires UniqueJobs(w.journal.rows) && RowOf(w.journal.rows, first.job) == Some(first)
    ensures Passed(w, Onward(w, events), first.job)
    ensures Standing(Onward(w, events), source, p.(queue := p.queue[1..]))
    ensures RowOf(Onward(w, events).journal.rows, first.job).Some?
    ensures RowOf(Onward(w, events).journal.rows, first.job).value.model == first.model
  {
    var k := w.nextWorker;
    var left := Opened(w, source, p.(queue := p.queue[1..]));
    var claiming := Claims(left, source, first.job);
    Submits(w, source, p);
    Answered(claiming, k, first);
    SyncedPasses(w, first);
    OnwardOne(w, Submit(source));
    OnwardNext(w, [Submit(source)], ClaimJob(k, Succeeded));
    OnwardNext(w, [Submit(source)] + [ClaimJob(k, Succeeded)], Reap(k));
    events := [Submit(source)] + [ClaimJob(k, Succeeded)] + [Reap(k)];
    RowOfPut(w.journal.rows, Write(first, Synced, "", None, None), first.job);
  }

  lemma {:induction false} RetriesUpTo(w: World, row: Analysis, month: Month, cap: Amount, p: Process, text: string,
                                       charge: Option<Amount>)
    returns (events: seq<Event>)
    requires Failed(w, row, month, cap) && Standing(w, row.source, p) && Queued(w, p)
    requires p == Retrier(row.model, cap, p.queue) && row.job in p.queue
    ensures DescribedOnce(w, Onward(w, events), row, DoneRow(Requeued(row), month, text, charge))
    ensures Onward(w, events).journal.past == w.journal.past + [AttemptOf(row)]
    decreases |p.queue|
  {
    if p.queue[0] == row.job {
      events := RetriesFirst(w, row, month, cap, p, text, charge);
    } else {
      var first := RowOf(w.journal.rows, p.queue[0]).value;
      var passing := PassesQueued(w, row.source, p, first);
      var rest := RetriesUpTo(Onward(w, passing), row, month, cap, p.(queue := p.queue[1..]), text, charge);
      OnwardMore(w, passing, rest);
      events := passing + rest;
    }
  }

  /** From every reachable state, every failed job without an answer can be tried again,
      also when its outcome is uncertain: its attempt is archived, and it is described
      and sent with exactly one call more, and no call of any other job. */
  lemma EveryFailedJobIsRetried(events: seq<Event>, row: Analysis, month: Month, cap: Amount, text: string,
                                charge: Option<Amount>)
    returns (more: seq<Event>)
    requires RowOf(After(events).journal.rows, row.job) == Some(row)
    requires row.state in {NeedsAttention, Uncertain} && row.result.None?
    requires Total(After(events).journal, month) + Reservation(row.model) <= cap
    ensures DescribedOnce(After(events), After(events + more), row, DoneRow(Requeued(row), month, text, charge))
    ensures After(events + more).journal.past == After(events).journal.past + [AttemptOf(row)]
  {
    var limit := SomeCap(events);
    RunKeeps(events, limit);
    var w := After(events);
    var crash, start := Crash(row.source), StartRetry(row.source, row.model, 1, cap, true, |w.journal.rows|);
    TakesFailed(w, row.source, row.model, cap);
    FailedAreQueued(w, row.source, row.model, cap);
    FailedIsQueued(w, row);
    OnwardOne(w, crash);
    OnwardNext(w, [crash], start);
    var p := Retrier(row.model, cap, JobsOf(FailedOf(w, row.source, row.model)));
    var rest := RetriesUpTo(Onward(w, [crash] + [start]), row, month, cap, p, text, charge);
    OnwardMore(w, [crash] + [start], rest);
    more := [crash] + [start] + rest;
    AfterMore(events, more);
  }
}
