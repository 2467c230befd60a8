/** The migration runner: each statement and each ledger row commits by itself, and a
    run may stop after any of them. */
module Migrations {
  import opened Options

  datatype Version = V012 | V013 | V014

  datatype Column = CircuitState | CircuitOpenedAt | CircuitFailureCode

  datatype Table = Absent | Partial | Complete

  /** What the migrations look at: the circuit columns, the widths of the two location
      columns, the four import tables, and the deletion-state index. */
  datatype Schema = Schema(circuit: set<Column>, placeId: nat, postal: nat, tables: seq<Table>, deletionIndex: bool)

  /** The ledger lists the recorded versions in order. */
  datatype Database = Database(schema: Schema, ledger: seq<Version>)

  datatype Ddl = AddCircuit | WidenLocation | CreateTable(k: nat) | AddDeletionIndex

  datatype Write = Change(ddl: Ddl) | Record(version: Version)

  datatype Outcome =
    | Done | BaseMissing | Busy | Incomplete(at: Version) | DdlFailed(at: Version) | NotProduced(at: Version)

  const TABLES := 4
  const CIRCUIT: set<Column> := {CircuitState, CircuitOpenedAt, CircuitFailureCode}
  const VERSIONS: seq<Version> := [V012, V013, V014]

  predicate Satisfied(s: Schema, v: Version) {
    match v
    case V012 => CIRCUIT <= s.circuit
    case V013 => s.placeId >= 500 && s.postal >= 50
    case V014 => (forall k :: 0 <= k < |s.tables| ==> s.tables[k] == Complete) && s.deletionIndex
  }

  // ---------- one write ----------

  /** A column or an index that exists cannot be added again; a table that exists is
      left as it is. */
  function Execute(s: Schema, d: Ddl): Option<Schema> {
    match d
    case AddCircuit => if s.circuit * CIRCUIT != {} then None else Some(s.(circuit := s.circuit + CIRCUIT))
    case WidenLocation => Some(s.(placeId := 500, postal := 50))
    case CreateTable(k) =>
      if k < |s.tables| && s.tables[k] == Absent then Some(s.(tables := s.tables[k := Complete])) else Some(s)
    case AddDeletionIndex => if s.deletionIndex then None else Some(s.(deletionIndex := true))
  }

  function Perform(db: Database, w: Write): Database {
    match w
    case Change(d) =>
      var after := Execute(db.schema, d);
      if after.Some? then db.(schema := after.value) else db
    case Record(v) => db.(ledger := db.ledger + [v])
  }

  function PerformAll(db: Database, writes: seq<Write>): Database {
    if writes == [] then db else Perform(PerformAll(db, writes[..|writes| - 1]), writes[|writes| - 1])
  }

  // ---------- one run ----------

  /** The statements of a migration; the index is added only when it is missing. */
  function Statements(s: Schema, v: Version): seq<Ddl> {
    match v
    case V012 => [AddCircuit]
    case V013 => [WidenLocation]
    case V014 =>
      [CreateTable(0), CreateTable(1), CreateTable(2), CreateTable(3)]
          + if s.deletionIndex then [] else [AddDeletionIndex]
  }

  /** The statements that commit, up to the first that fails. */
  function Committed(s: Schema, ds: seq<Ddl>): (r: (seq<Ddl>, bool))
    ensures r.0 <= ds && (r.1 <==> r.0 == ds)
    decreases |ds|
  {
    if ds == [] then ([], true)
    else
      var after := Execute(s, ds[0]);
      if after.None? then ([], false)
      else
        var rest := Committed(after.value, ds[1..]);
        ([ds[0]] + rest.0, rest.1)
  }

  function Changes(ds: seq<Ddl>): seq<Write> {
    seq(|ds|, i requires 0 <= i < |ds| => Change(ds[i]))
  }

  /** What one version commits, and whether the run goes on. */
  function VersionRun(db: Database, v: Version): (seq<Write>, Outcome) {
    if v in db.ledger then ([], if Satisfied(db.schema, v) then Done else Incomplete(v))
    else if Satisfied(db.schema, v) then ([Record(v)], Done)
    else
      var done := Committed(db.schema, Statements(db.schema, v));
      if !done.1 then (Changes(done.0), DdlFailed(v))
      else if !Satisfied(PerformAll(db, Changes(done.0)).schema, v) then (Changes(done.0), NotProduced(v))
      else (Changes(done.0) + [Record(v)], Done)
  }

  function RunFrom(db: Database, versions: seq<Version>): (seq<Write>, Outcome)
    decreases |versions|
  {
    if versions == [] then ([], Done)
    else
      var first := VersionRun(db, versions[0]);
      if first.1 != Done then first
      else
        var rest := RunFrom(PerformAll(db, first.0), versions[1..]);
        (first.0 + rest.0, rest.1)
  }

  predicate RequiresIdle(db: Database) {
    exists v :: v in {V012, V013} && v !in db.ledger && !Satisfied(db.schema, v)
  }

  /** A run that applies: everything it commits, in order, and how it ends. */
  function ApplyRun(db: Database, baseRecorded: bool, idle: bool): (seq<Write>, Outcome) {
    if !baseRecorded then ([], BaseMissing)
    else if RequiresIdle(db) && !idle then ([], Busy)
    else RunFrom(db, VERSIONS)
  }

  // ---------- the runner ----------

  /** The connection; `log` lists what was committed. */
  class Connection {
    var schema: Schema
    var ledger: seq<Version>
    ghost var log: seq<Write>

    constructor (db: Database)
      ensures Value() == db && log == []
    {
      schema, ledger, log := db.schema, db.ledger, [];
    }

    ghost function Value(): Database
      reads this
    {
      Database(schema, ledger)
    }

    method ExecuteDdl(d: Ddl) returns (ok: bool)
      modifies this
      ensures ok <==> Execute(old(schema), d).Some?
      ensures ok ==> Some(schema) == Execute(old(schema), d) && log == old(log) + [Change(d)] && ledger == old(ledger)
      ensures !ok ==> Value() == old(Value()) && log == old(log)
    {
      ok := true;
      match d {
        case AddCircuit =>
          if schema.circuit * CIRCUIT != {} { return false; }
          schema := schema.(circuit := schema.circuit + CIRCUIT);
        case WidenLocation => schema := schema.(placeId := 500, postal := 50);
        case CreateTable(k) =>
          if k < |schema.tables| && schema.tables[k] == Absent {
            schema := schema.(tables := schema.tables[k := Complete]);
          }
        case AddDeletionIndex =>
          if schema.deletionIndex { return false; }
          schema := schema.(deletionIndex := true);
      }
      log := log + [Change(d)];
    }

    /** Commit the statements one by one. */
    method ExecuteEach(ds: seq<Ddl>) returns (ok: bool)
      modifies this
      ensures var done := Committed(old(schema), ds);
              ok == done.1 && Value() == PerformAll(old(Value()), Changes(done.0)) && log == old(log) + Changes(done.0)
    {
      ghost var start := Value();
      var i := 0;
      CommitBegins(start.schema, ds);
      while i < |ds|
        invariant 0 <= i <= |ds|
        invariant Value() == PerformAll(start, Changes(ds[..i])) && log == old(log) + Changes(ds[..i])
        invariant CommitsOn(start.schema, ds, i, schema)
      {
        CommitGoesOn(start.schema, ds, i, schema);
        ChangesSnoc(start, ds, i);
        assert old(log) + Changes(ds[..i]) + [Change(ds[i])] == old(log) + (Changes(ds[..i]) + [Change(ds[i])]);
        var executed := ExecuteDdl(ds[i]);
        if !executed { return false; }
        i := i + 1;
      }
      CommitEnds(start.schema, ds, schema);
      assert ds[..i] == ds;
      return true;
    }

    method ApplyMigration(v: Version) returns (ok: bool)
      modifies this
      ensures var done := Committed(old(schema), Statements(old(schema), v));
              ok == done.1 && Value() == PerformAll(old(Value()), Changes(done.0)) && log == old(log) + Changes(done.0)
    {
      ok := ExecuteEach(Statements(schema, v));
    }

    method RunVersion(v: Version) returns (outcome: Outcome)
      modifies this
      ensures var run := VersionRun(old(Value()), v);
              outcome == run.1 && Value() == PerformAll(old(Value()), run.0) && log == old(log) + run.0
    {
      if v in ledger {
        if !Satisfied(schema, v) { return Incomplete(v); }
        return Done;
      }
      ghost var changes: seq<Write> := [];
      if !Satisfied(schema, v) {
        changes := Changes(Committed(schema, Statements(schema, v)).0);
        var ok := ApplyMigration(v);
        if !ok { return DdlFailed(v); }
        if !Satisfied(schema, v) { return NotProduced(v); }
      }
      PerformSnoc(old(Value()), changes, Record(v));
      assert [] + [Record(v)] == [Record(v)];
      ledger := ledger + [v];
      log := log + [Record(v)];
      return Done;
    }

    method Run(baseRecorded: bool, idle: bool) returns (outcome: Outcome)
      modifies this
      ensures var run := ApplyRun(old(Value()), baseRecorded, idle);
              outcome == run.1 && Value() == PerformAll(old(Value()), run.0) && log == old(log) + run.0
    {
      if !baseRecorded { return BaseMissing; }
      var pending12 := V012 !in ledger && !Satisfied(schema, V012);
      var pending13 := V013 !in ledger && !Satisfied(schema, V013);
      assert pending12 || pending13 <==> RequiresIdle(Value()) by {
        if pending12 { assert V012 in {V012, V013}; }
        if pending13 { assert V013 in {V012, V013}; }
      }
      if (pending12 || pending13) && !idle { return Busy; }
      outcome := RunVersions();
    }

    /** One version of a run, whatever was committed before it. */
    method RunNext(v: Version, ghost start: Database, ghost earlier: seq<Write>, ghost done: seq<Write>)
      returns (outcome: Outcome)
      requires Value() == PerformAll(start, done) && log == earlier + done
      modifies this
      ensures var run := VersionRun(PerformAll(start, done), v);
              outcome == run.1 && Value() == PerformAll(start, done + run.0) && log == earlier + (done + run.0)
    {
      ghost var run := VersionRun(Value(), v);
      PerformConcat(start, done, run.0);
      assert earlier + done + run.0 == earlier + (done + run.0);
      outcome := RunVersion(v);
    }

    method RunVersions() returns (outcome: Outcome)
      modifies this
      ensures var run := RunFrom(old(Value()), VERSIONS);
              outcome == run.1 && Value() == PerformAll(old(Value()), run.0) && log == old(log) + run.0
    {
      ghost var start, earlier, done: seq<Write> := Value(), log, [];
      var i := 0;
      RunBegins(start);
      while i < |VERSIONS|
        invariant 0 <= i <= |VERSIONS|
        invariant Value() == PerformAll(start, done) && log == earlier + done
        invariant RunsOn(start, done, Value(), i)
      {
        ghost var run := VersionRun(Value(), VERSIONS[i]);
        RunGoesOn(start, done, Value(), i);
        PerformConcat(start, done, run.0);
        outcome := RunNext(VERSIONS[i], start, earlier, done);
        if outcome != Done { return; }
        done := done + run.0;
        i := i + 1;
      }
      RunEnds(start, done, Value());
      return Done;
    }
  }

  /** With the first `i` statements committed, the schema is `now`. */
  ghost predicate CommitsOn(start: Schema, ds: seq<Ddl>, i: nat, now: Schema)
    requires i <= |ds|
  {
    var rest := Committed(now, ds[i..]);
    Committed(start, ds) == (ds[..i] + rest.0, rest.1)
  }

  lemma CommitBegins(start: Schema, ds: seq<Ddl>)
    ensures CommitsOn(start, ds, 0, start)
  {
    assert ds[0..] == ds && ds[..0] + Committed(start, ds).0 == Committed(start, ds).0;
  }

  lemma CommitGoesOn(start: Schema, ds: seq<Ddl>, i: nat, now: Schema)
    requires i < |ds| && CommitsOn(start, ds, i, now)
    ensures var after := Execute(now, ds[i]);
            if after.Some? then CommitsOn(start, ds, i + 1, after.value) else Committed(start, ds) == (ds[..i], false)
  {
    assert ds[i..][0] == ds[i] && ds[i..][1..] == ds[i + 1..];
    var after := Execute(now, ds[i]);
    if after.Some? {
      var rest := Committed(after.value, ds[i + 1..]);
      assert ds[..i] + ([ds[i]] + rest.0) == ds[..i + 1] + rest.0;
    } else {
      assert ds[..i] + [] == ds[..i];
    }
  }

  lemma CommitEnds(start: Schema, ds: seq<Ddl>, now: Schema)
    requires CommitsOn(start, ds, |ds|, now)
    ensures Committed(start, ds) == (ds, true)
  {
    assert ds[|ds|..] == [] && ds[..|ds|] + [] == ds;
  }

  lemma ChangesSnoc(db: Database, ds: seq<Ddl>, i: nat)
    requires i < |ds|
    ensures Changes(ds[..i + 1]) == Changes(ds[..i]) + [Change(ds[i])]
    ensures PerformAll(db, Changes(ds[..i + 1])) == Perform(PerformAll(db, Changes(ds[..i])), Change(ds[i]))
    ensures ds[..|ds|] == ds
  {
    assert Changes(ds[..i + 1]) == Changes(ds[..i]) + [Change(ds[i])];
    PerformSnoc(db, Changes(ds[..i]), Change(ds[i]));
  }

  /** With `done` committed, the run is at version `i`. */
  ghost predicate RunsOn(start: Database, done: seq<Write>, now: Database, i: nat)
    requires i <= |VERSIONS|
  {
    var rest := RunFrom(now, VERSIONS[i..]);
    RunFrom(start, VERSIONS) == (done + rest.0, rest.1)
  }

  lemma RunBegins(start: Database)
    ensures RunsOn(start, [], start, 0)
  {
    assert VERSIONS[0..] == VERSIONS && [] + RunFrom(start, VERSIONS).0 == RunFrom(start, VERSIONS).0;
  }

  lemma RunGoesOn(start: Database, done: seq<Write>, now: Database, i: nat)
    requires i < |VERSIONS| && RunsOn(start, done, now, i)
    ensures var run := VersionRun(now, VERSIONS[i]);
            if run.1 == Done then RunsOn(start, done + run.0, PerformAll(now, run.0), i + 1)
            else RunFrom(start, VERSIONS) == (done + run.0, run.1)
  {
    var run := VersionRun(now, VERSIONS[i]);
    assert VERSIONS[i..][0] == VERSIONS[i] && VERSIONS[i..][1..] == VERSIONS[i + 1..];
    var rest := RunFrom(PerformAll(now, run.0), VERSIONS[i + 1..]);
    assert done + (run.0 + rest.0) == (done + run.0) + rest.0;
  }

  lemma RunEnds(start: Database, done: seq<Write>, now: Database)
    requires RunsOn(start, done, now, |VERSIONS|)
    ensures RunFrom(start, VERSIONS) == (done, Done)
  {
    assert VERSIONS[|VERSIONS|..] == [] && done + [] == done;
  }

  lemma PerformSnoc(db: Database, writes: seq<Write>, w: Write)
    ensures PerformAll(db, writes + [w]) == Perform(PerformAll(db, writes), w)
  {
    assert (writes + [w])[..|writes|] == writes;
  }

  lemma {:induction false} PerformConcat(db: Database, a: seq<Write>, b: seq<Write>)
    ensures PerformAll(db, a + b) == PerformAll(PerformAll(db, a), b)
  {
    if b == [] {
      assert a + b == a;
    } else {
      PerformConcat(db, a, b[..|b| - 1]);
      assert (a + b)[..|a + b| - 1] == a + b[..|b| - 1];
    }
  }
}
