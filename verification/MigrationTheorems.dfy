/** Runs of the migration runner that stop anywhere, and one that does not. */
module MigrationTheorems {
  import opened Migrations

  // ---------- what every write keeps ----------

  /** A version is recorded at most once, and only with its schema satisfied. */
  ghost predicate Sound(db: Database) {
    && |db.schema.tables| == TABLES
    && (forall v :: v in db.ledger ==> Satisfied(db.schema, v))
    && (forall i, j :: 0 <= i < j < |db.ledger| ==> db.ledger[i] != db.ledger[j])
  }

  /** The writes a run may make: each one that must not be repeated only while it was
      not made. */
  ghost predicate Allowed(db: Database, w: Write) {
    match w
    case Change(AddCircuit) => db.schema.circuit * CIRCUIT == {}
    case Change(WidenLocation) => !Satisfied(db.schema, V013)
    case Change(CreateTable(_)) => true
    case Change(AddDeletionIndex) => !db.schema.deletionIndex
    case Record(v) => v !in db.ledger && Satisfied(db.schema, v)
  }

  ghost predicate AllAllowed(db: Database, writes: seq<Write>) {
    forall i :: 0 <= i < |writes| ==> Allowed(PerformAll(db, writes[..i]), writes[i])
  }

  lemma AllowedKeepsSound(db: Database, w: Write)
    requires Sound(db) && Allowed(db, w)
    ensures Sound(Perform(db, w))
  {
  }

  lemma {:induction false} AllAllowedKeepsSound(db: Database, writes: seq<Write>)
    requires Sound(db) && AllAllowed(db, writes)
    ensures Sound(PerformAll(db, writes))
  {
    if writes != [] {
      var n := |writes| - 1;
      FewerAllowed(db, writes, n);
      AllAllowedKeepsSound(db, writes[..n]);
      assert Allowed(PerformAll(db, writes[..n]), writes[n]);
      AllowedKeepsSound(PerformAll(db, writes[..n]), writes[n]);
    }
  }

  lemma FewerAllowed(db: Database, writes: seq<Write>, n: nat)
    requires n <= |writes| && AllAllowed(db, writes)
    ensures AllAllowed(db, writes[..n])
  {
    forall i | 0 <= i < n ensures Allowed(PerformAll(db, writes[..n][..i]), writes[..n][i]) {
      assert writes[..n][..i] == writes[..i];
    }
  }

  lemma MoreAllowed(db: Database, a: seq<Write>, b: seq<Write>)
    requires AllAllowed(db, a) && AllAllowed(PerformAll(db, a), b)
    ensures AllAllowed(db, a + b)
  {
    forall i | 0 <= i < |a + b| ensures Allowed(PerformAll(db, (a + b)[..i]), (a + b)[i]) {
      if i < |a| {
        assert (a + b)[..i] == a[..i];
      } else {
        assert (a + b)[..i] == a + b[..i - |a|];
        PerformConcat(db, a, b[..i - |a|]);
      }
    }
  }

  lemma OneAllowed(db: Database, w: Write)
    requires Allowed(db, w)
    ensures AllAllowed(db, [w]) && PerformAll(db, [w]) == Perform(db, w)
  {
    assert [w][..0] == [];
  }

  // ---------- the statements of one version ----------

  /** The schema after the import tables are created. */
  function WithTables(s: Schema): Schema
    requires |s.tables| == TABLES
  {
    s.(tables := seq(TABLES, k requires 0 <= k < TABLES => if s.tables[k] == Absent then Complete else s.tables[k]))
  }

  function Creates(n: nat): seq<Ddl> {
    seq(n, k requires 0 <= k < n => CreateTable(k))
  }

  lemma CreatesSnoc(n: nat)
    requires n > 0
    ensures Changes(Creates(n)) == Changes(Creates(n - 1)) + [Change(CreateTable(n - 1))]
  {
  }

  lemma {:induction false} CreatesAllowed(db: Database, n: nat)
    ensures AllAllowed(db, Changes(Creates(n)))
  {
    if n > 0 {
      CreatesAllowed(db, n - 1);
      CreatesSnoc(n);
      OneAllowed(PerformAll(db, Changes(Creates(n - 1))), Change(CreateTable(n - 1)));
      MoreAllowed(db, Changes(Creates(n - 1)), [Change(CreateTable(n - 1))]);
    }
  }

  /** The first `n` tables exist, and nothing else changed. */
  ghost predicate TablesMade(before: Database, after: Database, n: nat) {
    && |before.schema.tables| == TABLES == |after.schema.tables|
    && after == before.(schema := before.schema.(tables := after.schema.tables))
    && forall k :: 0 <= k < TABLES ==>
         after.schema.tables[k]
         == if k < n && before.schema.tables[k] == Absent then Complete else before.schema.tables[k]
  }

  lemma OneMoreTable(before: Database, after: Database, n: nat)
    requires TablesMade(before, after, n) && n < TABLES
    ensures TablesMade(before, Perform(after, Change(CreateTable(n))), n + 1)
  {
  }

  lemma {:induction false} CreatesCommit(db: Database, n: nat)
    requires |db.schema.tables| == TABLES && n <= TABLES
    ensures TablesMade(db, PerformAll(db, Changes(Creates(n))), n)
  {
    if n > 0 {
      CreatesCommit(db, n - 1);
      CreatesSnoc(n);
      PerformSnoc(db, Changes(Creates(n - 1)), Change(CreateTable(n - 1)));
      OneMoreTable(db, PerformAll(db, Changes(Creates(n - 1))), n - 1);
    }
  }

  /** Creating tables never fails. */
  lemma {:induction false} CreatesNeverFail(s: Schema, ds: seq<Ddl>, rest: seq<Ddl>)
    requires forall d :: d in ds ==> d.CreateTable?
    requires forall d :: d in rest ==> d == AddDeletionIndex
    requires |rest| <= 1 && (rest != [] ==> !s.deletionIndex)
    ensures Committed(s, ds + rest) == (ds + rest, true)
    decreases |ds|
  {
    if ds == [] {
      assert ds + rest == rest;
      if rest != [] {
        assert rest[0] in rest && rest[1..] == [];
        assert Committed(s.(deletionIndex := true), []) == ([], true);
        assert rest == [rest[0]];
      }
    } else {
      assert ds[0] in ds;
      var after := Execute(s, ds[0]).value;
      CreatesNeverFail(after, ds[1..], rest);
      assert (ds + rest)[1..] == ds[1..] + rest && (ds + rest)[0] == ds[0];
      assert ds + rest == [ds[0]] + (ds[1..] + rest);
    }
  }

  function IndexDdl(s: Schema): seq<Ddl> {
    if s.deletionIndex then [] else [AddDeletionIndex]
  }

  lemma ImportDdls(s: Schema)
    requires |s.tables| == TABLES
    ensures Statements(s, V014) == Creates(TABLES) + IndexDdl(s)
    ensures Committed(s, Statements(s, V014)) == (Statements(s, V014), true)
  {
    assert Creates(TABLES) == [CreateTable(0), CreateTable(1), CreateTable(2), CreateTable(3)];
    CreatesNeverFail(s, Creates(TABLES), IndexDdl(s));
  }

  /** What migration 014 commits on its own. */
  lemma ImportStatements(db: Database)
    requires |db.schema.tables| == TABLES
    ensures var ds := Creates(TABLES) + IndexDdl(db.schema);
            && AllAllowed(db, Changes(ds))
            && PerformAll(db, Changes(ds)) == db.(schema := WithTables(db.schema).(deletionIndex := true))
  {
    var creates, rest := Creates(TABLES), IndexDdl(db.schema);
    CreatesCommit(db, TABLES);
    CreatesAllowed(db, TABLES);
    var made := PerformAll(db, Changes(creates));
    assert made.schema.tables == WithTables(db.schema).tables;
    if rest == [] {
      assert creates + rest == creates;
    } else {
      assert Changes(creates + rest) == Changes(creates) + [Change(AddDeletionIndex)];
      OneAllowed(made, Change(AddDeletionIndex));
      MoreAllowed(db, Changes(creates), [Change(AddDeletionIndex)]);
      PerformSnoc(db, Changes(creates), Change(AddDeletionIndex));
    }
  }

  lemma OneStatement(s: Schema, d: Ddl)
    ensures Committed(s, [d]) == if Execute(s, d).Some? then ([d], true) else ([], false)
  {
    if Execute(s, d).Some? {
      assert [d][1..] == [] && [d] + [] == [d];
      assert Committed(Execute(s, d).value, []) == ([], true);
    }
  }

  // ---------- one version ----------

  /** Nothing half-made stands in the way of the version. */
  ghost predicate MendableAt(db: Database, v: Version) {
    if v in db.ledger then Satisfied(db.schema, v)
    else match v
      case V012 => db.schema.circuit * CIRCUIT == {} || CIRCUIT <= db.schema.circuit
      case V013 => true
      case V014 => forall k :: 0 <= k < |db.schema.tables| ==> db.schema.tables[k] != Partial
  }

  /** The version is done, and what the other versions look at is as it was. */
  ghost predicate Finishes(db: Database, after: Database, v: Version) {
    && v in after.ledger && Satisfied(after.schema, v)
    && (forall u :: u in after.ledger <==> u in db.ledger || u == v)
    && |after.schema.tables| == |db.schema.tables|
    && (forall u :: u != v ==> (MendableAt(after, u) <==> MendableAt(db, u)))
    && (forall u :: u != v ==> (Satisfied(after.schema, u) <==> Satisfied(db.schema, u)))
  }

  /** A version that is recorded or already satisfied. */
  lemma SettledVersion(db: Database, v: Version)
    requires Sound(db) && (v in db.ledger || Satisfied(db.schema, v))
    ensures var run := VersionRun(db, v);
            && AllAllowed(db, run.0) && run.1 == Done && MendableAt(db, v) && Finishes(db, PerformAll(db, run.0), v)
  {
    if v !in db.ledger { OneAllowed(db, Record(v)); }
  }

  lemma Recorded(db: Database, made: Database, changes: seq<Write>, v: Version)
    requires AllAllowed(db, changes) && made == PerformAll(db, changes) && v !in made.ledger
             && Satisfied(made.schema, v)
    ensures AllAllowed(db, changes + [Record(v)])
    ensures PerformAll(db, changes + [Record(v)]) == made.(ledger := made.ledger + [v])
  {
    OneAllowed(made, Record(v));
    MoreAllowed(db, changes, [Record(v)]);
    PerformSnoc(db, changes, Record(v));
  }

  lemma CircuitVersion(db: Database)
    requires Sound(db) && V012 !in db.ledger && !Satisfied(db.schema, V012)
    ensures var run := VersionRun(db, V012);
            && AllAllowed(db, run.0)
            && (run.1 == Done <==> MendableAt(db, V012))
            && (run.1 == Done ==> Finishes(db, PerformAll(db, run.0), V012))
  {
    OneStatement(db.schema, AddCircuit);
    if db.schema.circuit * CIRCUIT == {} {
      var changes := Changes([AddCircuit]);
      assert changes == [Change(AddCircuit)];
      OneAllowed(db, Change(AddCircuit));
      Recorded(db, PerformAll(db, changes), changes, V012);
    } else {
      assert Changes([]) == [];
    }
  }

  lemma LocationVersion(db: Database)
    requires Sound(db) && V013 !in db.ledger && !Satisfied(db.schema, V013)
    ensures var run := VersionRun(db, V013);
            AllAllowed(db, run.0) && run.1 == Done && Finishes(db, PerformAll(db, run.0), V013)
  {
    OneStatement(db.schema, WidenLocation);
    var changes := Changes([WidenLocation]);
    assert changes == [Change(WidenLocation)];
    OneAllowed(db, Change(WidenLocation));
    Recorded(db, PerformAll(db, changes), changes, V013);
  }

  lemma ImportMade(db: Database)
    requires |db.schema.tables| == TABLES && V014 !in db.ledger
    ensures Satisfied(WithTables(db.schema).(deletionIndex := true), V014) <==> MendableAt(db, V014)
  {
    var made := WithTables(db.schema);
    forall k | 0 <= k < TABLES ensures made.tables[k] == Complete <==> db.schema.tables[k] != Partial {}
    if forall k :: 0 <= k < TABLES ==> made.tables[k] == Complete {
      forall k | 0 <= k < TABLES ensures db.schema.tables[k] != Partial { assert made.tables[k] == Complete; }
    }
  }

  lemma ImportVersion(db: Database)
    requires Sound(db) && V014 !in db.ledger && !Satisfied(db.schema, V014)
    ensures var run := VersionRun(db, V014);
            && AllAllowed(db, run.0)
            && (run.1 == Done <==> MendableAt(db, V014))
            && (run.1 == Done ==> Finishes(db, PerformAll(db, run.0), V014))
  {
    ImportDdls(db.schema);
    ImportStatements(db);
    ImportMade(db);
    var changes := Changes(Statements(db.schema, V014));
    var made := PerformAll(db, changes);
    if Satisfied(made.schema, V014) {
      Recorded(db, made, changes, V014);
      ImportFinishes(db, made);
    }
  }

  lemma ImportFinishes(db: Database, made: Database)
    requires |db.schema.tables| == TABLES && V014 !in db.ledger
    requires made == db.(schema := WithTables(db.schema).(deletionIndex := true)) && Satisfied(made.schema, V014)
    ensures Finishes(db, made.(ledger := made.ledger + [V014]), V014)
  {
  }

  lemma VersionResult(db: Database, v: Version)
    requires Sound(db)
    ensures var run := VersionRun(db, v);
            && AllAllowed(db, run.0)
            && (run.1 == Done <==> MendableAt(db, v))
            && (run.1 == Done ==> Finishes(db, PerformAll(db, run.0), v))
  {
    if v in db.ledger || Satisfied(db.schema, v) {
      SettledVersion(db, v);
    } else {
      match v
      case V012 => CircuitVersion(db);
      case V013 => LocationVersion(db);
      case V014 => ImportVersion(db);
    }
  }

  // ---------- one run ----------

  ghost predicate Mendable(db: Database) {
    forall v :: MendableAt(db, v)
  }

  lemma {:induction false} RunResult(db: Database, versions: seq<Version>)
    requires Sound(db)
    requires forall i, j :: 0 <= i < j < |versions| ==> versions[i] != versions[j]
    ensures var run := RunFrom(db, versions);
            && AllAllowed(db, run.0)
            && (run.1 == Done <==> forall v :: v in versions ==> MendableAt(db, v))
            && (run.1 == Done ==> forall v :: v in versions || (v in db.ledger && Satisfied(db.schema, v)) ==>
                  v in PerformAll(db, run.0).ledger && Satisfied(PerformAll(db, run.0).schema, v))
    decreases |versions|
  {
    if versions != [] {
      var v, rest := versions[0], versions[1..];
      assert versions == [v] + rest;
      VersionResult(db, v);
      var first := VersionRun(db, v);
      if first.1 == Done {
        var middle := PerformAll(db, first.0);
        AllAllowedKeepsSound(db, first.0);
        RunResult(middle, rest);
        var last := RunFrom(middle, rest);
        MoreAllowed(db, first.0, last.0);
        PerformConcat(db, first.0, last.0);
        assert v !in rest;
      }
    }
  }

  /** An uninterrupted run ends with every version satisfied and recorded exactly
      when nothing half-made stands in its way. */
  lemma RunEndsDone(db: Database)
    requires Sound(db)
    ensures var run := RunFrom(db, VERSIONS);
            && (run.1 == Done <==> Mendable(db))
            && (run.1 == Done ==>
                  Sound(PerformAll(db, run.0)) && forall v :: v in PerformAll(db, run.0).ledger)
  {
    RunResult(db, VERSIONS);
    AllAllowedKeepsSound(db, RunFrom(db, VERSIONS).0);
    forall v: Version ensures v in VERSIONS {
      match v case V012 => case V013 => case V014 =>
    }
  }

  // ---------- any number of runs, stopped anywhere ----------

  /** A run that commits at most `writes` of its writes. */
  datatype Attempt = Attempt(baseRecorded: bool, idle: bool, writes: nat)

  function Attempted(db: Database, a: Attempt): seq<Write> {
    var all := ApplyRun(db, a.baseRecorded, a.idle).0;
    if a.writes < |all| then all[..a.writes] else all
  }

  /** Everything a sequence of attempts commits. */
  function History(db: Database, attempts: seq<Attempt>): seq<Write> {
    if attempts == [] then []
    else
      var before := History(db, attempts[..|attempts| - 1]);
      before + Attempted(PerformAll(db, before), attempts[|attempts| - 1])
  }

  lemma AttemptAllowed(db: Database, a: Attempt)
    requires Sound(db)
    ensures AllAllowed(db, Attempted(db, a))
  {
    RunResult(db, VERSIONS);
    var all := ApplyRun(db, a.baseRecorded, a.idle).0;
    assert AllAllowed(db, all);
    if a.writes < |all| { FewerAllowed(db, all, a.writes); }
  }

  /** A version is recorded only when its schema is satisfied, at every crash point. */
  lemma {:induction false} HistoryIsSound(db: Database, attempts: seq<Attempt>)
    requires Sound(db)
    ensures AllAllowed(db, History(db, attempts)) && Sound(PerformAll(db, History(db, attempts)))
  {
    if attempts != [] {
      var front := attempts[..|attempts| - 1];
      HistoryIsSound(db, front);
      var before := History(db, front);
      var last := attempts[|attempts| - 1];
      AttemptAllowed(PerformAll(db, before), last);
      MoreAllowed(db, before, Attempted(PerformAll(db, before), last));
    }
    AllAllowedKeepsSound(db, History(db, attempts));
  }

  lemma AllowedKeepsMendable(db: Database, w: Write)
    requires Sound(db) && Allowed(db, w) && Mendable(db)
    ensures Mendable(Perform(db, w))
  {
    var after := Perform(db, w);
    forall v ensures MendableAt(after, v) {
      assert MendableAt(db, v);
    }
  }

  lemma {:induction false} AllAllowedKeepsMendable(db: Database, writes: seq<Write>)
    requires Sound(db) && AllAllowed(db, writes) && Mendable(db)
    ensures Mendable(PerformAll(db, writes))
  {
    if writes != [] {
      var n := |writes| - 1;
      FewerAllowed(db, writes, n);
      AllAllowedKeepsSound(db, writes[..n]);
      AllAllowedKeepsMendable(db, writes[..n]);
      assert Allowed(PerformAll(db, writes[..n]), writes[n]);
      AllowedKeepsMendable(PerformAll(db, writes[..n]), writes[n]);
    }
  }

  /** After any number of runs stopped at any write, one uninterrupted run ends with
      every version satisfied and recorded exactly once. */
  lemma OneRunMends(db: Database, attempts: seq<Attempt>)
    requires Sound(db) && Mendable(db)
    ensures var now := PerformAll(db, History(db, attempts));
            var run := ApplyRun(now, true, true);
            && run.1 == Done && Sound(PerformAll(now, run.0)) && Migrated(PerformAll(now, run.0))
  {
    HistoryIsSound(db, attempts);
    AllAllowedKeepsMendable(db, History(db, attempts));
    RunEndsDone(PerformAll(db, History(db, attempts)));
    DoneIsMigrated(PerformAll(PerformAll(db, History(db, attempts)),
                              ApplyRun(PerformAll(db, History(db, attempts)), true, true).0));
  }

  /** The schema has what the three migrations bring, and the ledger lists them. */
  ghost predicate Migrated(db: Database) {
    && CircuitState in db.schema.circuit && CircuitOpenedAt in db.schema.circuit
    && CircuitFailureCode in db.schema.circuit
    && db.schema.placeId >= 500 && db.schema.postal >= 50
    && |db.schema.tables| == 4 && (forall k :: 0 <= k < 4 ==> db.schema.tables[k] == Complete)
    && db.schema.deletionIndex
    && V012 in db.ledger && V013 in db.ledger && V014 in db.ledger && |db.ledger| == 3
  }

  lemma ThreeVersions(ledger: seq<Version>)
    requires V012 in ledger && V013 in ledger && V014 in ledger
    requires forall i, j :: 0 <= i < j < |ledger| ==> ledger[i] != ledger[j]
    ensures |ledger| == 3
  {
    var a :| 0 <= a < |ledger| && ledger[a] == V012;
    var b :| 0 <= b < |ledger| && ledger[b] == V013;
    var c :| 0 <= c < |ledger| && ledger[c] == V014;
    if |ledger| > 3 { OneTwice(ledger[0], ledger[1], ledger[2], ledger[3]); }
  }

  lemma OneTwice(a: Version, b: Version, c: Version, d: Version)
    ensures a == b || a == c || a == d || b == c || b == d || c == d
  {
    match a case V012 => case V013 => case V014 =>
  }

  lemma DoneIsMigrated(db: Database)
    requires Sound(db) && forall v :: v in db.ledger
    ensures Migrated(db)
  {
    assert V012 in db.ledger && V013 in db.ledger && V014 in db.ledger;
    ThreeVersions(db.ledger);
  }

  /** An ALTER is due: one of the first two versions is not recorded, and its columns
      are not there yet. */
  ghost predicate AlterDue(db: Database) {
    || (V012 !in db.ledger && !({CircuitState, CircuitOpenedAt, CircuitFailureCode} <= db.schema.circuit))
    || (V013 !in db.ledger && !(db.schema.placeId >= 500 && db.schema.postal >= 50))
  }

  /** Without an idle service a run is refused exactly when an ALTER is due, and then
      commits nothing. */
  lemma BusyExactly(db: Database)
    ensures ApplyRun(db, true, false).1 == Busy <==> AlterDue(db)
    ensures AlterDue(db) ==> ApplyRun(db, true, false).0 == []
    ensures !AlterDue(db) ==> ApplyRun(db, true, false) == ApplyRun(db, true, true)
  {
    assert RequiresIdle(db) <==> AlterDue(db) by {
      assert V012 in {V012, V013} && V013 in {V012, V013};
    }
    if !AlterDue(db) { NotBusy(db, VERSIONS); }
  }

  lemma {:induction false} NotBusy(db: Database, versions: seq<Version>)
    ensures RunFrom(db, versions).1 != Busy
    decreases |versions|
  {
    if versions != [] && VersionRun(db, versions[0]).1 == Done {
      NotBusy(PerformAll(db, VersionRun(db, versions[0]).0), versions[1..]);
    }
  }

  // ---------- nothing is repeated ----------

  function Count(writes: seq<Write>, w: Write): nat {
    if writes == [] then 0
    else Count(writes[..|writes| - 1], w) + if writes[|writes| - 1] == w then 1 else 0
  }

  /** The write has been made. */
  ghost predicate Made(db: Database, w: Write) {
    match w
    case Change(AddCircuit) => CIRCUIT <= db.schema.circuit
    case Change(WidenLocation) => Satisfied(db.schema, V013)
    case Change(CreateTable(_)) => true
    case Change(AddDeletionIndex) => db.schema.deletionIndex
    case Record(v) => v in db.ledger
  }

  lemma MadeStays(db: Database, w: Write, next: Write)
    requires Allowed(db, next) && !(w.Change? && w.ddl.CreateTable?)
    ensures Made(db, w) ==> Made(Perform(db, next), w) && w != next
    ensures Made(Perform(db, w), w) || !Allowed(db, w)
  {
    assert CircuitState in CIRCUIT;
    if Made(db, Change(AddCircuit)) { assert CircuitState in db.schema.circuit * CIRCUIT; }
  }

  lemma {:induction false} MadeOnce(db: Database, writes: seq<Write>, w: Write)
    requires AllAllowed(db, writes) && !(w.Change? && w.ddl.CreateTable?)
    ensures Count(writes, w) <= 1 && (Count(writes, w) == 1 ==> Made(PerformAll(db, writes), w))
  {
    if writes != [] {
      var n := |writes| - 1;
      FewerAllowed(db, writes, n);
      MadeOnce(db, writes[..n], w);
      assert Allowed(PerformAll(db, writes[..n]), writes[n]);
      MadeStays(PerformAll(db, writes[..n]), w, writes[n]);
    }
  }

  /** Over all runs together, no ALTER and no ledger row is committed twice. */
  lemma NothingRepeats(db: Database, attempts: seq<Attempt>, w: Write)
    requires Sound(db) && !(w.Change? && w.ddl.CreateTable?)
    ensures Count(History(db, attempts), w) <= 1
  {
    HistoryIsSound(db, attempts);
    MadeOnce(db, History(db, attempts), w);
  }
}
