/** The two scene-description tables of the local database: DescriptionCandidate
    (which occurrences could supply the preview of a job) and DescriptionOutbox
    (one row per job).  Every function below is the effect of one committed
    transaction, or of the part of it that touches these tables. */
module Descriptions {

  // A missing identifier is 0, a missing text is "".
  datatype Identity = Identity(occurrence: nat, asset: nat, item: string, path: string, hash: string, fileName: string)

  datatype CandidateKey = CandidateKey(job: nat, occurrence: nat)
  datatype Candidate = Candidate(source: nat, identity: Identity, updatedAt: nat)

  datatype JobState = Waiting | Deferred | Failed | Sent | Skipped
  datatype Job = Job(source: nat, identity: Identity, state: JobState)

  datatype Tables = Tables(candidates: map<CandidateKey, Candidate>, jobs: map<nat, Job>, clock: nat)

  /** A scene task prepared by the server. */
  datatype Task = Task(source: nat, job: nat, identity: Identity)

  predicate Complete(id: Identity) {
    id.occurrence != 0 && id.asset != 0 && id.item != "" && id.path != "" && id.hash != "" && id.fileName != ""
  }

  predicate HasCandidate(candidates: map<CandidateKey, Candidate>, job: nat) {
    exists k :: k in candidates && k.job == job
  }

  // ---------- choosing the candidate that supplies a job ----------

  /** The order of the reselection query: newest first, then occurrence. */
  predicate Before(candidates: map<CandidateKey, Candidate>, a: CandidateKey, b: CandidateKey)
    requires a in candidates && b in candidates
  {
    candidates[b].updatedAt < candidates[a].updatedAt
    || (candidates[b].updatedAt == candidates[a].updatedAt && a.occurrence <= b.occurrence)
  }

  predicate First(candidates: map<CandidateKey, Candidate>, k: CandidateKey)
    requires k in candidates
  {
    forall other :: other in candidates && other.job == k.job ==> Before(candidates, k, other)
  }

  lemma FirstExists(candidates: map<CandidateKey, Candidate>, keys: set<CandidateKey>, job: nat)
    requires keys != {} && forall k :: k in keys ==> k in candidates && k.job == job
    ensures exists k :: k in keys && forall other :: other in keys ==> Before(candidates, k, other)
    decreases |keys|
  {
    var k :| k in keys;
    var rest := keys - {k};
    if rest != {} {
      FirstExists(candidates, rest, job);
      var best :| best in rest && forall other :: other in rest ==> Before(candidates, best, other);
      if Before(candidates, k, best) {
        assert forall other :: other in keys ==> other == k || other in rest;
        assert k in keys && forall other :: other in keys ==> Before(candidates, k, other);
      } else {
        assert best in keys && forall other :: other in keys ==> Before(candidates, best, other);
      }
    } else {
      assert keys == {k};
      assert k in keys && forall other :: other in keys ==> Before(candidates, k, other);
    }
  }

  function Selected(candidates: map<CandidateKey, Candidate>, job: nat): (k: CandidateKey)
    requires HasCandidate(candidates, job)
    ensures k in candidates && k.job == job && First(candidates, k)
  {
    var keys := set k | k in candidates && k.job == job;
    assert exists k :: k in keys by {
      var witnessKey :| witnessKey in candidates && witnessKey.job == job;
      assert witnessKey in keys;
    }
    FirstExists(candidates, keys, job);
    var k :| k in candidates && k.job == job && First(candidates, k);
    k
  }

  /** The row a reselected job is left with, if it keeps one. */
  function Reselected(candidates: map<CandidateKey, Candidate>, job: nat, row: Job): Job
    requires HasCandidate(candidates, job)
  {
    var c := candidates[Selected(candidates, job)];
    row.(source := c.source, identity := c.identity)
  }

  function Reselect(t: Tables, job: nat): Tables {
    if !HasCandidate(t.candidates, job) then t.(jobs := t.jobs - {job})
    else if job in t.jobs then t.(jobs := t.jobs[job := Reselected(t.candidates, job, t.jobs[job])])
    else t
  }

  /** The joint effect of reselecting each of a set of jobs, in any order. */
  function ReselectAll(t: Tables, jobs: set<nat>): Tables {
    t.(jobs := map j | j in t.jobs && (j in jobs ==> HasCandidate(t.candidates, j)) ::
         if j in jobs then Reselected(t.candidates, j, t.jobs[j]) else t.jobs[j])
  }

  method ReselectEach(t: Tables, jobs: set<nat>) returns (r: Tables)
    ensures r == ReselectAll(t, jobs)
  {
    r := t;
    var left := jobs;
    while left != {}
      invariant left <= jobs
      invariant r == ReselectAll(t, jobs - left)
    {
      var j :| j in left;
      assert jobs - (left - {j}) == (jobs - left) + {j};
      r := Reselect(r, j);
      left := left - {j};
    }
    assert jobs - left == jobs;
  }

  // ---------- transactions ----------

  function WithoutItem(candidates: map<CandidateKey, Candidate>, source: nat, item: string,
                       keep: nat): map<CandidateKey, Candidate>
  {
    map k | k in candidates
      && !(candidates[k].source == source && candidates[k].identity.item == item && k.job != keep) :: candidates[k]
  }

  function JobsOfItem(candidates: map<CandidateKey, Candidate>, source: nat, item: string, keep: nat): set<nat> {
    set k | k in candidates
      && candidates[k].source == source && candidates[k].identity.item == item && k.job != keep :: k.job
  }

  /** A photo with a job becomes the candidate of its occurrence, and the job gets a row. */
  function Queue(t: Tables, source: nat, photo: bool, job: nat, id: Identity): Tables {
    if job == 0 || !photo || !Complete(id) then t
    else
      var kept := t.(candidates := WithoutItem(t.candidates, source, id.item, job));
      var moved := ReselectAll(kept, JobsOfItem(t.candidates, source, id.item, job));
      Tables(moved.candidates[CandidateKey(job, id.occurrence) := Candidate(source, id, t.clock)],
             if job in moved.jobs then moved.jobs else moved.jobs[job := Job(source, id, Waiting)],
             t.clock + 1)
  }

  method QueueInTransaction(t: Tables, source: nat, photo: bool, job: nat, id: Identity) returns (r: Tables)
    ensures r == Queue(t, source, photo, job, id)
  {
    if job == 0 || !photo || !Complete(id) { return t; }
    var replaced := JobsOfItem(t.candidates, source, id.item, job);
    r := t.(candidates := WithoutItem(t.candidates, source, id.item, job));
    r := ReselectEach(r, replaced);
    r := r.(candidates := r.candidates[CandidateKey(job, id.occurrence) := Candidate(source, id, t.clock)]);
    if job !in r.jobs {
      r := r.(jobs := r.jobs[job := Job(source, id, Waiting)]);
    }
    r := r.(clock := t.clock + 1);
  }

  /** Forget an item whose deletion the server applied.  No job is kept, so the
      job spared by WithoutItem is the missing one. */
  function DropItem(t: Tables, source: nat, item: string): Tables {
    ReselectAll(t.(candidates := WithoutItem(t.candidates, source, item, 0)), JobsOfItem(t.candidates, source, item, 0))
  }

  function RemoveSource(t: Tables, source: nat): Tables {
    var left := t.(candidates := map k | k in t.candidates && t.candidates[k].source != source :: t.candidates[k]);
    var moved := ReselectAll(left, set k | k in t.candidates && t.candidates[k].source == source :: k.job);
    moved.(jobs := map j | j in moved.jobs
        && !(moved.jobs[j].source == source && !HasCandidate(moved.candidates, j)) :: moved.jobs[j])
  }

  function WithoutJob(candidates: map<CandidateKey, Candidate>, job: nat): map<CandidateKey, Candidate> {
    map k | k in candidates && k.job != job :: candidates[k]
  }

  function SetState(t: Tables, job: nat, state: JobState): Tables {
    if job in t.jobs then t.(jobs := t.jobs[job := t.jobs[job].(state := state)]) else t
  }

  function Confirm(t: Tables, job: nat): Tables {
    t.(candidates := WithoutJob(t.candidates, job))
  }

  function Skip(t: Tables, job: nat): Tables {
    Confirm(SetState(t, job, Skipped), job)
  }

  /** One explicitly prepared task: queue it, then bring an existing row up to date. */
  function QueueTask(t: Tables, source: nat, task: Task): Tables {
    var queued := Queue(t, source, true, task.job, task.identity);
    if task.job !in t.jobs || task.job !in queued.jobs then queued
    else
      var before := t.jobs[task.job];
      var reset := before.state != Sent
                   && (task.identity != before.identity || before.state in {Deferred, Failed, Skipped});
      queued.(jobs := queued.jobs[task.job :=
        Job(source, task.identity, if reset then Waiting else queued.jobs[task.job].state)])
  }

  function QueueTasks(t: Tables, source: nat, tasks: seq<Task>): Tables {
    if tasks == [] then t else QueueTask(QueueTasks(t, source, tasks[..|tasks| - 1]), source, tasks[|tasks| - 1])
  }

  // ---------- what every reachable state keeps ----------

  ghost predicate SingleJob(t: Tables) {
    forall a, b | a in t.candidates && b in t.candidates && t.candidates[a].source == t.candidates[b].source
                  && t.candidates[a].identity.item == t.candidates[b].identity.item :: a.job == b.job
  }

  ghost predicate Covered(t: Tables) {
    forall k :: k in t.candidates ==> k.job in t.jobs
  }

  /** Only complete identities of real jobs become candidates. */
  ghost predicate Named(t: Tables) {
    forall k :: k in t.candidates ==>
        k.job != 0 && k.occurrence == t.candidates[k].identity.occurrence && Complete(t.candidates[k].identity)
  }

  ghost predicate Consistent(t: Tables) {
    SingleJob(t) && Covered(t) && Named(t)
  }

  lemma QueueKeepsConsistent(t: Tables, source: nat, photo: bool, job: nat, id: Identity)
    requires Consistent(t)
    ensures Consistent(Queue(t, source, photo, job, id))
    ensures forall j :: j in Queue(t, source, photo, job, id).jobs ==> j in t.jobs || j == job
  {
    if job != 0 && photo && Complete(id) {
      var r := Queue(t, source, photo, job, id);
      var kept := WithoutItem(t.candidates, source, id.item, job);
      forall k | k in r.candidates ensures k.job in r.jobs {
        if k.job != job { assert k in kept; }
      }
    }
  }

  lemma DropItemKeepsConsistent(t: Tables, source: nat, item: string)
    requires Consistent(t)
    ensures Consistent(DropItem(t, source, item))
    ensures forall k :: k in DropItem(t, source, item).candidates <==>
              k in t.candidates && !(t.candidates[k].source == source && t.candidates[k].identity.item == item)
  {
    var kept := WithoutItem(t.candidates, source, item, 0);
    forall k | k in kept ensures k.job in DropItem(t, source, item).jobs {
      assert HasCandidate(kept, k.job);
    }
  }

  /** After a removal no candidate of the source is left, and every row that the
      removed source still owns is supplied by none of its own candidates. */
  lemma RemoveSourceKeepsConsistent(t: Tables, source: nat)
    requires Consistent(t)
    ensures Consistent(RemoveSource(t, source))
    ensures forall k :: k in RemoveSource(t, source).candidates ==>
            RemoveSource(t, source).candidates[k].source != source
    ensures forall j :: j in RemoveSource(t, source).jobs && RemoveSource(t, source).jobs[j].source == source
              ==> HasCandidate(RemoveSource(t, source).candidates, j)
  {
    var r := RemoveSource(t, source);
    forall k | k in r.candidates ensures k.job in r.jobs {
      assert HasCandidate(r.candidates, k.job);
    }
  }

  // ---------- runs ----------

  datatype Event =
    | Accepted(source: nat, photo: bool, job: nat, identity: Identity)
    | Deletion(source: nat, item: string)
    | Prepared(source: nat, tasks: seq<Task>)
    | Confirmed(job: nat)
    | MarkedSkipped(job: nat)
    | StateChanged(job: nat, state: JobState)
    | SourceRemoved(source: nat)

  function Apply(t: Tables, e: Event): Tables {
    match e
    case Accepted(source, photo, job, id) => Queue(t, source, photo, job, id)
    case Deletion(source, item) => DropItem(t, source, item)
    case Prepared(source, tasks) => QueueTasks(t, source, tasks)
    case Confirmed(job) => Confirm(t, job)
    case MarkedSkipped(job) => Skip(t, job)
    case StateChanged(job, state) => SetState(t, job, state)
    case SourceRemoved(source) => RemoveSource(t, source)
  }

  function Run(events: seq<Event>): Tables {
    if events == [] then Tables(map[], map[], 0)
    else Apply(Run(events[..|events| - 1]), events[|events| - 1])
  }

  lemma {:induction false} QueueTasksKeepsConsistent(t: Tables, source: nat, tasks: seq<Task>)
    requires Consistent(t)
    ensures Consistent(QueueTasks(t, source, tasks))
  {
    if tasks != [] {
      var before := QueueTasks(t, source, tasks[..|tasks| - 1]);
      var task := tasks[|tasks| - 1];
      QueueTasksKeepsConsistent(t, source, tasks[..|tasks| - 1]);
      QueueKeepsConsistent(before, source, true, task.job, task.identity);
    }
  }

  /** In every reachable state all candidates of one source item carry a single
      job, and the job of every candidate has its outbox row. */
  lemma {:induction false} EveryRunIsConsistent(events: seq<Event>)
    ensures Consistent(Run(events))
  {
    if events != [] {
      var t := Run(events[..|events| - 1]);
      EveryRunIsConsistent(events[..|events| - 1]);
      match events[|events| - 1]
      case Accepted(source, photo, job, id) => QueueKeepsConsistent(t, source, photo, job, id);
      case Deletion(source, item) => DropItemKeepsConsistent(t, source, item);
      case Prepared(source, tasks) => QueueTasksKeepsConsistent(t, source, tasks);
      case SourceRemoved(source) => RemoveSourceKeepsConsistent(t, source);
      case _ =>
    }
  }
}
