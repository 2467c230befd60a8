/** The engine gets its work done: from every reachable state, whatever has happened, a
    run drains what waits. */
module SyncProgress {
  import opened Options
  import opened Manifest
  import opened Outbox
  import opened Planning
  import opened SyncProtocol
  import opened SyncInvariant
  import opened SyncSteps
  import opened SyncTables
  import opened SyncClient
  import opened SyncTheorems
  import SyncExact

  // ---------- runs one after the other ----------

  lemma {:induction false} RunOn(start: World, a: seq<Event>, b: seq<Event>)
    ensures Run(start, a + b) == Run(Run(start, a), b)
  {
    if b == [] {
      assert a + b == a;
    } else {
      assert (a + b)[..|a + b| - 1] == a + b[..|b| - 1];
      RunOn(start, a, b[..|b| - 1]);
    }
  }

  lemma RunOne(start: World, e: Event)
    ensures Run(start, [e]) == Step(start, e)
  {
    assert [e][..0] == [] && Run(start, []) == start;
  }

  lemma RunOneMore(start: World, events: seq<Event>, e: Event)
    ensures Run(start, events + [e]) == Step(Run(start, events), e)
  {
    RunOn(start, events, [e]);
    RunOne(Run(start, events), e);
  }

  // ---------- sending ----------

  /** The answers to the batches, one after the other. */
  function Rounds(verdicts: seq<Verdict>, expired: bool): seq<Event> {
    if verdicts == [] then []
    else Round(verdicts[0], expired) + Rounds(verdicts[1..], expired)
  }

  lemma RoundClient(w: World, v: Verdict, expired: bool)
    requires ClientAt(w, -1) && w.pc == Sending && PendingOf(w.db.outbox) != []
    ensures var sent := Step(w, SubmitBatch(false, v, expired));
            && sent.pc.Answered? && sent.pc.batch == PendingOf(w.db.outbox)[0] && sent.db == w.db && ClientAt(sent, -1)
  {
    var h := StepKeeps(w, -1, SubmitBatch(false, v, expired));
    assert Step(w, SubmitBatch(false, v, expired)) == StepSubmit(w, false, v, expired);
  }

  /** One answer takes the first pending batch off, whatever it says. */
  lemma RoundDelivers(w: World, v: Verdict, expired: bool)
    requires ClientAt(w, -1) && w.pc == Sending && PendingOf(w.db.outbox) != []
    ensures var after := Step(Step(w, SubmitBatch(false, v, expired)), Commit);
            && after.pc == Sending && ClientAt(after, -1)
            && PendingOf(after.db.outbox) == PendingOf(w.db.outbox)[1..]
  {
    var sent := Step(w, SubmitBatch(false, v, expired));
    var b := PendingOf(w.db.outbox)[0];
    RoundClient(w, v, expired);
    StoredClient(sent, -1);
    StoredParts(sent, b, sent.pc.response);
    assert Step(sent, Commit) == StepCommit(sent);
    UniqueById(w.db.outbox, w.db.nextId, b);
    SyncExact.HeadResolved(w.db.outbox, Stored(w.db, b, sent.pc.response).outbox, b);
  }

  function Round(v: Verdict, expired: bool): seq<Event> {
    [SubmitBatch(false, v, expired), Commit]
  }

  ghost predicate Sends(w: World, pending: seq<Batch>) {
    w.pc == Sending && ClientAt(w, -1) && PendingOf(w.db.outbox) == pending
  }

  lemma OneRound(w: World, pending: seq<Batch>, v: Verdict, expired: bool)
    requires Sends(w, pending) && pending != []
    ensures Sends(Run(w, Round(v, expired)), pending[1..])
  {
    RoundDelivers(w, v, expired);
    RunOne(w, SubmitBatch(false, v, expired));
    RunOneMore(w, [SubmitBatch(false, v, expired)], Commit);
    assert Round(v, expired) == [SubmitBatch(false, v, expired)] + [Commit];
  }

  /** As many answers as batches wait, whatever they say, drain the queue. */
  lemma {:induction false} RoundsDrain(w: World, pending: seq<Batch>, verdicts: seq<Verdict>, expired: bool)
    requires Sends(w, pending) && |verdicts| == |pending|
    ensures Sends(Run(w, Rounds(verdicts, expired)), [])
    decreases |verdicts|
  {
    if verdicts == [] {
      assert Run(w, []) == w;
    } else {
      OneRound(w, pending, verdicts[0], expired);
      RoundsDrain(Run(w, Round(verdicts[0], expired)), pending[1..], verdicts[1..], expired);
      RunOn(w, Round(verdicts[0], expired), Rounds(verdicts[1..], expired));
    }
  }

  lemma DrainedScans(w: World, v: Verdict, expired: bool)
    requires Sends(w, [])
    ensures Step(w, SubmitBatch(false, v, expired)) == w.(pc := Scanning)
  {
    assert Step(w, SubmitBatch(false, v, expired)) == StepSubmit(w, false, v, expired);
  }

  // ---------- from any state to sending ----------

  const ACCEPTING := Verdict({}, {})
  const FILE := Artifact("digest", 1, 1)

  lemma WholePrefix(batches: seq<Batch>)
    ensures IsBoundedPrefix(batches, None, batches)
  {
  }

  /** A process that starts with work to do, on batches, is about to send them, or asks
      for the status of an import first. */
  lemma StartsOver(w: World, h: int) returns (events: seq<Event>)
    requires ClientAt(w, h) && PendingOf(w.db.outbox) != []
    ensures Run(w, events).pc == Flushing || Run(w, events).pc.EscapeReading?
  {
    var pending := PendingOf(w.db.outbox);
    var choose := Choose(BatchOnly, None, pending, FILE);
    events := [Crash] + [Start] + [choose];
    RunOne(w, Crash);
    RunOneMore(w, [Crash], Start);
    var idle := w.(pc := Idle);
    assert Run(w, [Crash] + [Start]) == w.(pc := Delivering) by {
      assert Step(w, Crash) == idle;
      assert Step(idle, Start) == w.(pc := Delivering);
    }
    RunOneMore(w, [Crash] + [Start], choose);
    WholePrefix(pending);
    ChoosesBatches(w.(pc := Delivering), h, choose);
  }

  lemma ChoosesBatches(w: World, h: int, e: Event)
    requires TablesOk(w.db) && HotClient(w.db, h) && w.pc == Delivering && PendingOf(w.db.outbox) != []
    requires e == Choose(BatchOnly, None, PendingOf(w.db.outbox), FILE)
    ensures Step(w, e).pc == Flushing || Step(w, e).pc.EscapeReading?
  {
    WholePrefix(PendingOf(w.db.outbox));
    assert Step(w, e) == StepChoose(w, e);
    if ActiveBulk(w.db.bulks).Some? {
      ActiveIsHot(w.db, h);
      HeldItem(w, h, w.db.bulks[h].id);
      FallBackParts(w, h, w.db.bulks[h].id, Cancelled);
    }
  }

  lemma GivesUpReading(w: World, h: int)
    requires ClientAt(w, h) && w.pc.EscapeReading?
    ensures Step(w, StatusUnusable).pc == Flushing
  {
    HeldItem(w, h, w.pc.bulk);
    FallBackParts(w, h, w.pc.bulk, Cancelled);
    assert Step(w, StatusUnusable) == StepStatusUnusable(w);
  }

  lemma {:induction false} RunClient(w: World, h: int, events: seq<Event>) returns (h': int)
    requires ClientAt(w, h)
    ensures ClientAt(Run(w, events), h')
  {
    if events == [] {
      h' := h;
    } else {
      h' := RunClient(w, h, events[..|events| - 1]);
      h' := StepKeeps(Run(w, events[..|events| - 1]), h', events[|events| - 1]);
    }
  }

  lemma ReachesFlushing(w: World, h: int) returns (events: seq<Event>)
    requires ClientAt(w, h) && PendingOf(w.db.outbox) != []
    ensures Run(w, events).pc == Flushing
  {
    events := StartsOver(w, h);
    if Run(w, events).pc.EscapeReading? {
      var h' := RunClient(w, h, events);
      GivesUpReading(Run(w, events), h');
      RunOneMore(w, events, StatusUnusable);
      events := events + [StatusUnusable];
    }
  }

  lemma SplitsToSend(w: World, h: int)
    requires ClientAt(w, h) && w.pc == Flushing
    ensures Step(w, SplitBatches).pc == Sending && ClientAt(Step(w, SplitBatches), -1)
  {
    SplitClient(w);
    assert Step(w, SplitBatches) == World(Split(w.db, MANIFEST_BATCH_SIZE), w.server, Sending);
  }

  lemma ReachesSending(w: World, h: int) returns (events: seq<Event>)
    requires ClientAt(w, h) && PendingOf(w.db.outbox) != []
    ensures Run(w, events).pc == Sending && ClientAt(Run(w, events), -1)
  {
    events := ReachesFlushing(w, h);
    var h' := RunClient(w, h, events);
    SplitsToSend(Run(w, events), h');
    RunOneMore(w, events, SplitBatches);
    events := events + [SplitBatches];
  }

  /** From every reachable state, whatever has happened, a run of the engine goes on to
      where nothing is left to deliver and the next scan is due. */
  lemma EveryStateDrains(start: World, events: seq<Event>) returns (more: seq<Event>)
    requires Fresh(start)
    ensures Run(start, events + more).pc == Scanning && PendingOf(Run(start, events + more).db.outbox) == []
  {
    var w := Run(start, events);
    var h := ClientRunKeeps(start, events);
    if PendingOf(w.db.outbox) == [] {
      more := [Crash] + [Start];
      RunOne(w, Crash);
      RunOneMore(w, [Crash], Start);
    } else {
      var sending := ReachesSending(w, h);
      var pending := PendingOf(Run(w, sending).db.outbox);
      var verdicts := seq(|pending|, i => ACCEPTING);
      var rounds := Rounds(verdicts, false);
      RoundsDrain(Run(w, sending), pending, verdicts, false);
      RunOn(w, sending, rounds);
      DrainedScans(Run(w, sending + rounds), ACCEPTING, false);
      RunOneMore(w, sending + rounds, SubmitBatch(false, ACCEPTING, false));
      more := sending + rounds + [SubmitBatch(false, ACCEPTING, false)];
    }
    RunOn(start, events, more);
  }
}
