/** What happens to the row of one description job: how it starts, which photo it
    names, which events change its state, and when it goes. */
module DescriptionLaws {
  import opened Descriptions

  // ---------- the photo a row names ----------

  /** The row names an existing candidate of its job, the newest one; of equally new
      ones the one with the first occurrence. */
  ghost predicate NamesNewest(t: Tables, job: nat) {
    job in t.jobs && exists k :: k in t.candidates && NewestOf(t.candidates, k, job)
                                 && t.jobs[job].source == t.candidates[k].source
                                 && t.jobs[job].identity == t.candidates[k].identity
  }

  ghost predicate NewestOf(candidates: map<CandidateKey, Candidate>, k: CandidateKey, job: nat)
    requires k in candidates
  {
    k.job == job && forall other :: other in candidates && other.job == job ==>
      || candidates[other].updatedAt < candidates[k].updatedAt
      || (candidates[other].updatedAt == candidates[k].updatedAt && k.occurrence <= other.occurrence)
  }

  /** A job that lost candidates: its row goes exactly when no candidate is left, and
      otherwise names the newest one left, in the state it had. */
  ghost predicate Follows(t: Tables, after: Tables, job: nat)
    requires job in t.jobs
  {
    if exists k :: k in after.candidates && k.job == job
    then NamesNewest(after, job) && after.jobs[job].state == t.jobs[job].state
    else job !in after.jobs
  }

  ghost predicate SameCandidates(a: map<CandidateKey, Candidate>, b: map<CandidateKey, Candidate>, job: nat) {
    && (forall k :: k in a && k.job == job ==> k in b && b[k] == a[k])
    && (forall k :: k in b && k.job == job ==> k in a)
  }

  lemma ReselectedFollows(t: Tables, jobs: set<nat>, after: Tables, job: nat)
    requires job in t.jobs && job in jobs && SameCandidates(t.candidates, after.candidates, job)
    requires var moved := ReselectAll(t, jobs);
             (job in after.jobs <==> job in moved.jobs) && (job in moved.jobs ==> after.jobs[job] == moved.jobs[job])
    ensures Follows(t, after, job)
  {
    if HasCandidate(t.candidates, job) {
      var k := Selected(t.candidates, job);
      assert k in after.candidates && NewestOf(after.candidates, k, job);
    }
  }

  // ---------- queueing a photo ----------

  predicate Describable(photo: bool, job: nat, id: Identity) {
    && photo && job != 0
    && id.occurrence != 0 && id.asset != 0 && id.item != "" && id.path != "" && id.hash != "" && id.fileName != ""
  }

  /** The item is held by another job than the photo's new one. */
  predicate Replaced(c: Candidate, k: CandidateKey, source: nat, job: nat, item: string) {
    c.source == source && c.identity.item == item && k.job != job
  }

  /** A job without a row gets one that waits, for this photo; a job with a row keeps
      it.  The photo becomes a candidate of the job, the newest one; candidates of the
      same item for other jobs go, and no other candidate changes. */
  lemma QueuedRow(t: Tables, source: nat, photo: bool, job: nat, id: Identity)
    ensures var r := Queue(t, source, photo, job, id);
            if !Describable(photo, job, id) then r == t
            else
              && job in r.jobs
              && r.jobs[job] == (if job in t.jobs then t.jobs[job] else Job(source, id, Waiting))
              && var added := CandidateKey(job, id.occurrence);
                 && added in r.candidates && r.candidates[added] == Candidate(source, id, t.clock)
                    && r.clock == t.clock + 1
                 && forall k :: k != added ==>
                      (k in r.candidates
                       <==> k in t.candidates && !Replaced(t.candidates[k], k, source, job, id.item))
                      && (k in r.candidates ==> r.candidates[k] == t.candidates[k])
  {
    if Describable(photo, job, id) {
      var replaced := JobsOfItem(t.candidates, source, id.item, job);
      assert job !in replaced;
    }
  }

  /** The rows of other jobs: one whose candidate was replaced follows what is left,
      any other one stays. */
  lemma ReplacedRow(t: Tables, source: nat, photo: bool, job: nat, id: Identity, other: nat)
    requires Describable(photo, job, id) && other != job
    ensures var r := Queue(t, source, photo, job, id);
            if other !in t.jobs then other !in r.jobs
            else if (exists k :: k in t.candidates && k.job == other
                                 && Replaced(t.candidates[k], k, source, job, id.item))
            then Follows(t, r, other)
            else other in r.jobs && r.jobs[other] == t.jobs[other]
  {
    var r := Queue(t, source, photo, job, id);
    var replaced := JobsOfItem(t.candidates, source, id.item, job);
    var kept := t.(candidates := WithoutItem(t.candidates, source, id.item, job));
    if other in t.jobs && other in replaced { ReselectedFollows(kept, replaced, r, other); }
  }

  // ---------- deletions ----------

  /** After the deletion of an item, the jobs it supplied follow what is left. */
  lemma DroppedRow(t: Tables, source: nat, item: string, job: nat)
    requires Named(t)
    ensures var r := DropItem(t, source, item);
            if job !in t.jobs then job !in r.jobs
            else if exists k :: k in t.candidates && k.job == job && t.candidates[k].source == source
                                && t.candidates[k].identity.item == item
            then Follows(t, r, job)
            else job in r.jobs && r.jobs[job] == t.jobs[job]
  {
    var r := DropItem(t, source, item);
    var dropped := JobsOfItem(t.candidates, source, item, 0);
    var kept := t.(candidates := WithoutItem(t.candidates, source, item, 0));
    if job in t.jobs && job in dropped { ReselectedFollows(kept, dropped, r, job); }
  }

  /** After the removal of a source, the jobs it supplied follow what is left, rows of
      the source without any candidate go, and the others stay. */
  lemma RemovedRow(t: Tables, source: nat, job: nat)
    ensures var r := RemoveSource(t, source);
            if job !in t.jobs then job !in r.jobs
            else if exists k :: k in t.candidates && k.job == job && t.candidates[k].source == source
            then Follows(t, r, job)
            else if t.jobs[job].source == source && !(exists k :: k in t.candidates && k.job == job)
            then job !in r.jobs
            else job in r.jobs && r.jobs[job] == t.jobs[job]
  {
    var left := t.(candidates := map k | k in t.candidates && t.candidates[k].source != source :: t.candidates[k]);
    var supplied := set k | k in t.candidates && t.candidates[k].source == source :: k.job;
    var r, moved := RemoveSource(t, source), ReselectAll(left, supplied);
    assert r.candidates == left.candidates;
    if job in t.jobs && job in supplied {
      assert job in moved.jobs ==> HasCandidate(moved.candidates, job);
      ReselectedFollows(left, supplied, r, job);
    }
  }

  // ---------- prepared tasks ----------

  /** A prepared task brings the row of its job up to date: the row names its
      photo, and waits again unless its description was already sent.  Without a row
      the job gets one that waits, if it names a whole photo. */
  lemma TaskRow(t: Tables, source: nat, task: Task)
    ensures var r := QueueTask(t, source, task);
            if task.job in t.jobs then
              task.job in r.jobs
              && r.jobs[task.job].source == source && r.jobs[task.job].identity == task.identity
              && r.jobs[task.job].state == (if t.jobs[task.job].state == Sent then Sent else Waiting)
            else if Describable(true, task.job, task.identity) then
              task.job in r.jobs && r.jobs[task.job] == Job(source, task.identity, Waiting)
            else r == t
  {
    QueuedRow(t, source, true, task.job, task.identity);
  }

  // ---------- the state of a row ----------

  /** The events that may change the state of the row of a job. */
  predicate Touches(e: Event, job: nat) {
    match e
    case StateChanged(j, _) => j == job
    case MarkedSkipped(j) => j == job
    case Prepared(_, tasks) => exists task :: task in tasks && task.job == job
    case _ => false
  }

  /** The state of a row that was there before stays, and a new row waits. */
  ghost predicate KeepsState(t: Tables, after: Tables, job: nat) {
    job in after.jobs ==> after.jobs[job].state == if job in t.jobs then t.jobs[job].state else Waiting
  }

  lemma QueueKeepsState(t: Tables, source: nat, photo: bool, job: nat, id: Identity, other: nat)
    ensures KeepsState(t, Queue(t, source, photo, job, id), other)
  {
    QueuedRow(t, source, photo, job, id);
    if Describable(photo, job, id) && other != job { ReplacedRow(t, source, photo, job, id, other); }
  }

  lemma {:induction false} TasksKeepState(t: Tables, source: nat, tasks: seq<Task>, job: nat)
    requires forall task :: task in tasks ==> task.job != job
    ensures KeepsState(t, QueueTasks(t, source, tasks), job)
  {
    if tasks != [] {
      var front, last := tasks[..|tasks| - 1], tasks[|tasks| - 1];
      assert tasks == front + [last];
      TasksKeepState(t, source, front, job);
      QueueKeepsState(QueueTasks(t, source, front), source, true, last.job, last.identity, job);
    }
  }

  /** Only an event of its own job changes the state of a row, and every new row waits. */
  lemma EventKeepsState(t: Tables, e: Event, job: nat)
    requires !Touches(e, job)
    ensures KeepsState(t, Apply(t, e), job)
  {
    match e
    case Accepted(source, photo, j, id) => QueueKeepsState(t, source, photo, j, id, job);
    case Prepared(source, tasks) => TasksKeepState(t, source, tasks, job);
    case _ =>
  }

  /** The states that other code gives a row, and a skip, are what the row then has. */
  lemma EventOnItsJob(t: Tables, job: nat, state: JobState)
    ensures job in t.jobs ==>
              && Apply(t, StateChanged(job, state)).jobs == t.jobs[job := t.jobs[job].(state := state)]
              && Apply(t, MarkedSkipped(job)).jobs == t.jobs[job := t.jobs[job].(state := Skipped)]
    ensures Apply(t, Confirmed(job)).jobs == t.jobs && Apply(t, StateChanged(job, state)).candidates == t.candidates
    ensures forall k :: (k in Apply(t, Confirmed(job)).candidates <==> k in t.candidates && k.job != job)
                        && (k in Apply(t, MarkedSkipped(job)).candidates <==> k in t.candidates && k.job != job)
  {
  }

  lemma {:induction false} TasksLeaveWaiting(t: Tables, source: nat, tasks: seq<Task>, job: nat)
    requires job in t.jobs ==> t.jobs[job].state == Waiting
    ensures var r := QueueTasks(t, source, tasks); job in r.jobs ==> r.jobs[job].state == Waiting
  {
    if tasks != [] {
      var before, last := QueueTasks(t, source, tasks[..|tasks| - 1]), tasks[|tasks| - 1];
      TasksLeaveWaiting(t, source, tasks[..|tasks| - 1], job);
      TaskRow(before, source, last);
      if last.job != job { QueueKeepsState(before, source, true, last.job, last.identity, job); }
    }
  }

  /** In every run, a row waits until its own state is changed: whatever is queued,
      replaced, deleted, prepared, confirmed or removed before. */
  lemma {:induction false} WaitsUntilChanged(events: seq<Event>, job: nat)
    requires forall e :: e in events ==> !(e.StateChanged? && e.job == job) && !(e.MarkedSkipped? && e.job == job)
    ensures job in Run(events).jobs ==> Run(events).jobs[job].state == Waiting
  {
    if events != [] {
      var front, last := events[..|events| - 1], events[|events| - 1];
      assert events == front + [last];
      WaitsUntilChanged(front, job);
      if last.Prepared? {
        TasksLeaveWaiting(Run(front), last.source, last.tasks, job);
      } else {
        EventKeepsState(Run(front), last, job);
      }
    }
  }

  // ---------- no photo is lost ----------

  /** In every run, an accepted photo is waited on: as long as it is a candidate, its
      job has a row, and the row waits unless its own state was changed. */
  lemma AcceptedWaits(events: seq<Event>, k: CandidateKey)
    requires k in Run(events).candidates
    requires forall e :: e in events ==> !(e.StateChanged? && e.job == k.job) && !(e.MarkedSkipped? && e.job == k.job)
    ensures k.job in Run(events).jobs && Run(events).jobs[k.job].state == Waiting
  {
    EveryRunIsConsistent(events);
    WaitsUntilChanged(events, k.job);
  }

  /** Every candidate is older than what is queued next. */
  ghost predicate Timely(t: Tables) {
    forall k :: k in t.candidates ==> t.candidates[k].updatedAt < t.clock
  }

  lemma {:induction false} TasksKeepTimely(t: Tables, source: nat, tasks: seq<Task>)
    requires Timely(t)
    ensures Timely(QueueTasks(t, source, tasks))
  {
    if tasks != [] { TasksKeepTimely(t, source, tasks[..|tasks| - 1]); }
  }

  /** In every run, the photo queued last is the newest candidate of its job. */
  lemma {:induction false} EveryRunIsTimely(events: seq<Event>)
    ensures Timely(Run(events))
  {
    if events != [] {
      var t, last := Run(events[..|events| - 1]), events[|events| - 1];
      EveryRunIsTimely(events[..|events| - 1]);
      if last.Prepared? { TasksKeepTimely(t, last.source, last.tasks); }
    }
  }
}
