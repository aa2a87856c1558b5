/** The database adapter of package `object`: how the connection strings for
    the two SQL dialects are derived, how the target database is provisioned,
    how the adapter opens its engine and synchronises the entity tables, and
    how a listing query is built from request parameters.

    xorm and the database server behind it are not part of this model. Their
    answers are fixed in advance by a `Replies` value, and a `Server` object
    records every request the adapter makes, so that the order and the effect
    of those requests can be stated. Where the Go code panics, the model
    returns an `Error`. */
module Object {
  import opened Wrappers
  import opened GoStrings

  /* ----------------------------------------------------------------------
     Connection strings
     ---------------------------------------------------------------------- */

  /** The driver name that selects the Postgres rules; every other driver
      name takes the MySQL path. */
  const Postgres := "postgres"

  /** The keyword of a Postgres keyword/value connection string that names
      the database. */
  const DbNameKey := "dbname="

  /** The setting that points a Postgres connection at database `name`. */
  function DbName(name: string): string
  {
    DbNameKey + name
  }

  /** The setting that points a Postgres connection at the maintenance
      database `postgres`. */
  const AdminDbName := "dbname=postgres"

  /** The connection string createDatabase uses on Postgres. */
  function AdminDsn(dataSourceName: string, dbName: string): string
  {
    if Contains(dataSourceName, DbNameKey) then
      ReplaceFirst(dataSourceName, DbName(dbName), AdminDbName)
    else
      dataSourceName + " " + AdminDbName
  }

  /** The admin connection string points the first `dbname=<dbName>` at the
      `postgres` database and keeps the rest; a string with `dbname=` but
      without `dbname=<dbName>` is kept as it is; a string without any
      `dbname=` gets ` dbname=postgres` appended. */
  lemma AdminDsnSpec(dataSourceName: string, dbName: string)
    ensures !Contains(dataSourceName, DbNameKey) ==>
              AdminDsn(dataSourceName, dbName) == dataSourceName + " " + AdminDbName
    ensures Contains(dataSourceName, DbNameKey) && Absent(dataSourceName, DbName(dbName)) ==>
              AdminDsn(dataSourceName, dbName) == dataSourceName
    ensures forall i :: FirstOccurrence(dataSourceName, DbName(dbName), i) ==>
              AdminDsn(dataSourceName, dbName) ==
              dataSourceName[..i] + AdminDbName + dataSourceName[i + |DbName(dbName)|..]
  {
    ReplaceFirstSpec(dataSourceName, DbName(dbName), AdminDbName);
    forall i | FirstOccurrence(dataSourceName, DbName(dbName), i)
      ensures Contains(dataSourceName, DbNameKey)
    {
      OccursAtPrefix(dataSourceName, DbNameKey, dbName, i);
      IndexIsFirst(dataSourceName, DbNameKey);
    }
  }

  /** The connection string open uses for the data connection. */
  function DataDsn(driverName: string, dataSourceName: string, dbName: string): string
  {
    if driverName == Postgres then
      if Contains(dataSourceName, DbNameKey) then
        ReplaceFirst(dataSourceName, AdminDbName, DbName(dbName))
      else
        dataSourceName + " " + DbName(dbName)
    else
      dataSourceName + dbName
  }

  /** For every driver but Postgres the data connection string is the string
      followed by `dbName`. On Postgres the first `dbname=postgres` is pointed
      at `dbName` and the rest is kept; a string with `dbname=` but without
      `dbname=postgres` is kept as it is; a string without any `dbname=` gets
      ` dbname=<dbName>` appended. */
  lemma DataDsnSpec(driverName: string, dataSourceName: string, dbName: string)
    ensures driverName != Postgres ==> DataDsn(driverName, dataSourceName, dbName) == dataSourceName + dbName
    ensures driverName == Postgres && !Contains(dataSourceName, DbNameKey) ==>
              DataDsn(driverName, dataSourceName, dbName) == dataSourceName + " " + DbName(dbName)
    ensures driverName == Postgres && Contains(dataSourceName, DbNameKey) && Absent(dataSourceName, AdminDbName) ==>
              DataDsn(driverName, dataSourceName, dbName) == dataSourceName
    ensures forall i :: driverName == Postgres && FirstOccurrence(dataSourceName, AdminDbName, i) ==>
              DataDsn(driverName, dataSourceName, dbName) ==
              dataSourceName[..i] + DbName(dbName) + dataSourceName[i + |AdminDbName|..]
  {
    ReplaceFirstSpec(dataSourceName, AdminDbName, DbName(dbName));
    forall i | FirstOccurrence(dataSourceName, AdminDbName, i)
      ensures Contains(dataSourceName, DbNameKey)
    {
      assert AdminDbName == DbName("postgres");
      OccursAtPrefix(dataSourceName, DbNameKey, "postgres", i);
      IndexIsFirst(dataSourceName, DbNameKey);
    }
  }

  /** A Postgres connection string without `dbname=`: admin and data
      connection strings each append their database. */
  lemma DsnsWithoutDbName(dataSourceName: string, dbName: string)
    requires !Contains(dataSourceName, DbNameKey)
    ensures AdminDsn(dataSourceName, dbName) == dataSourceName + " " + AdminDbName
    ensures DataDsn(Postgres, dataSourceName, dbName) == dataSourceName + " " + DbName(dbName)
  {
    AdminDsnSpec(dataSourceName, dbName);
    DataDsnSpec(Postgres, dataSourceName, dbName);
  }

  /** A Postgres connection string that already names `postgres` (and not
      `dbName`) is used as it is for the admin connection, and its first
      `dbname=postgres` is pointed at `dbName` for the data connection. */
  lemma {:induction false} DsnsNamingPostgres(dataSourceName: string, dbName: string)
    returns (before: string, after: string)
    requires Contains(dataSourceName, AdminDbName) && !Contains(dataSourceName, DbName(dbName))
    ensures AdminDsn(dataSourceName, dbName) == dataSourceName
    ensures AdminDsn(dataSourceName, dbName) == before + AdminDbName + after
    ensures DataDsn(Postgres, dataSourceName, dbName) == before + DbName(dbName) + after
  {
    var dsn := dataSourceName;
    var i := Index(dsn, AdminDbName);
    IndexSpec(dsn, AdminDbName);
    IndexSpec(dsn, DbNameKey);
    assert AdminDbName == DbName("postgres");
    OccursAtPrefix(dsn, DbNameKey, "postgres", i);
    assert Contains(dsn, DbNameKey);
    before, after := dsn[..i], dsn[i + |AdminDbName|..];
    assert AdminDsn(dsn, dbName) == dsn;
    assert DataDsn(Postgres, dsn, dbName) == before + DbName(dbName) + after;
    assert dsn == before + AdminDbName + after;
  }

  /** A Postgres connection string that names `dbName` (and not `postgres`)
      has its first `dbname=<dbName>` pointed at `postgres` for the admin
      connection and is used as it is for the data connection. */
  lemma {:induction false} DsnsNamingTarget(dataSourceName: string, dbName: string)
    returns (before: string, after: string)
    requires Contains(dataSourceName, DbName(dbName)) && !Contains(dataSourceName, AdminDbName)
    ensures AdminDsn(dataSourceName, dbName) == before + AdminDbName + after
    ensures DataDsn(Postgres, dataSourceName, dbName) == dataSourceName
    ensures DataDsn(Postgres, dataSourceName, dbName) == before + DbName(dbName) + after
  {
    var dsn := dataSourceName;
    var tok := DbName(dbName);
    var i := Index(dsn, tok);
    IndexSpec(dsn, tok);
    IndexSpec(dsn, DbNameKey);
    OccursAtPrefix(dsn, DbNameKey, dbName, i);
    assert Contains(dsn, DbNameKey);
    before, after := dsn[..i], dsn[i + |tok|..];
    assert dsn == before + tok + after;
  }

  /** For the three shapes of Postgres connection string the two rules are
      meant for, the admin and the data connection strings are one and the
      same string except that the first names the `postgres` database where
      the second names `dbName`. */
  lemma AdminAndDataDsnDifferOnlyInDatabase(dataSourceName: string, dbName: string)
    returns (before: string, after: string)
    requires !Contains(dataSourceName, DbNameKey)
          || (Contains(dataSourceName, AdminDbName) && !Contains(dataSourceName, DbName(dbName)))
          || (Contains(dataSourceName, DbName(dbName)) && !Contains(dataSourceName, AdminDbName))
    ensures AdminDsn(dataSourceName, dbName) == before + AdminDbName + after
    ensures DataDsn(Postgres, dataSourceName, dbName) == before + DbName(dbName) + after
  {
    if !Contains(dataSourceName, DbNameKey) {
      DsnsWithoutDbName(dataSourceName, dbName);
      before, after := dataSourceName + " ", "";
    } else if Contains(dataSourceName, AdminDbName) && !Contains(dataSourceName, DbName(dbName)) {
      before, after := DsnsNamingPostgres(dataSourceName, dbName);
    } else {
      before, after := DsnsNamingTarget(dataSourceName, dbName);
    }
  }

  /** The admin rule looks for `dbname=<dbName>` as a plain substring, so a
      database name that is a prefix of the one in the string rewrites only
      part of it: with `dbName` = "my", "dbname=mydb" becomes
      "dbname=postgresdb". */
  lemma AdminDsnMatchesSubstring()
    ensures AdminDsn("dbname=mydb", "my") == "dbname=postgresdb"
  {
    var dsn := "dbname=mydb";
    assert FirstOccurrence(dsn, DbNameKey, 0);
    IndexIsFirst(dsn, DbNameKey);
    assert FirstOccurrence(dsn, DbName("my"), 0);
    AdminDsnSpec(dsn, "my");
    assert dsn[9..] == "db";
  }

  /* ----------------------------------------------------------------------
     Requests to the database and their answers
     ---------------------------------------------------------------------- */

  /** The tables of the application's entities. */
  datatype Table = Asset | Provider | Machine | Record | Session

  /** The order in which createTable synchronises the tables. */
  const SyncOrder: seq<Table> := [Asset, Provider, Machine, Record, Session]

  /** An xorm engine: the driver and connection string it was created with. */
  datatype Engine = Engine(driverName: string, dsn: string)

  /** A request the adapter makes of xorm, in the order it makes them. All but
      the first name the connection string of the engine they go through. */
  datatype Call =
    | NewEngine(driverName: string, dsn: string)
    | CountDatabases(dsn: string, name: string)  // SELECT count(*) FROM pg_database WHERE datname = ?
    | Exec(dsn: string, statement: string)
    | Sync2(dsn: string, table: Table)
    | CloseEngine(dsn: string)

  /** How xorm and the server answer each request: whether creating an
      engine fails, the catalog count (None when the query fails), whether
      a statement fails, whether synchronising a table fails. */
  datatype Replies = Replies(
    newEngineFails: (string, string) -> bool,
    databaseCount: (string, string) -> Option<int>,
    execFails: (string, string) -> bool,
    syncFails: (string, Table) -> bool)

  /** The error that stops provisioning or opening (a panic in the source). */
  datatype Error =
    | NewEngineFailed(dsn: string)
    | CountFailed(dsn: string)
    | ExecFailed(statement: string)
    | SyncFailed(table: Table)

  /** What one step asks of the server and the error it ends with. */
  datatype Run = Run(calls: seq<Call>, err: Option<Error>)

  /** The statements a sequence of requests executes, in order. */
  function Statements(calls: seq<Call>): seq<string>
  {
    if calls == [] then []
    else (if calls[0].Exec? then [calls[0].statement] else []) + Statements(calls[1..])
  }

  lemma {:induction false} StatementsAppend(a: seq<Call>, b: seq<Call>)
    ensures Statements(a + b) == Statements(a) + Statements(b)
    decreases |a|
  {
    if a == [] {
      assert a + b == b;
    } else {
      assert (a + b)[0] == a[0];
      assert (a + b)[1..] == a[1..] + b;
      StatementsAppend(a[1..], b);
    }
  }

  lemma StatementsOne(c: Call)
    ensures Statements([c]) == if c.Exec? then [c.statement] else []
  {
    assert [c][1..] == [];
  }

  /** Postgres: CREATE DATABASE is not idempotent, so it runs only after the
      catalog says the database does not exist. */
  function CreateStatement(dbName: string): string
  {
    "CREATE DATABASE " + dbName
  }

  /** MySQL: the statement is idempotent by itself; charset and collation
      are fixed. */
  function CreateIfMissingStatement(dbName: string): string
  {
    "CREATE DATABASE IF NOT EXISTS " + dbName + " default charset utf8 COLLATE utf8_general_ci"
  }

  /** Adapter.createDatabase: the requests it makes and the error it returns. */
  function CreateDatabaseRun(driverName: string, dataSourceName: string, dbName: string,
                             replies: Replies): Run
  {
    if driverName == Postgres then
      var admin := AdminDsn(dataSourceName, dbName);
      if replies.newEngineFails(driverName, admin) then
        Run([NewEngine(driverName, admin)], Some(NewEngineFailed(admin)))
      else
        var started := [NewEngine(driverName, admin), CountDatabases(admin, dbName)];
        match replies.databaseCount(admin, dbName)
        case None => Run(started + [CloseEngine(admin)], Some(CountFailed(admin)))
        case Some(count) =>
          if count == 0 then
            var statement := CreateStatement(dbName);
            Run(started + [Exec(admin, statement), CloseEngine(admin)],
                if replies.execFails(admin, statement) then Some(ExecFailed(statement)) else None)
          else
            Run(started + [CloseEngine(admin)], None)
    else
      if replies.newEngineFails(driverName, dataSourceName) then
        Run([NewEngine(driverName, dataSourceName)], Some(NewEngineFailed(dataSourceName)))
      else
        var statement := CreateIfMissingStatement(dbName);
        Run([NewEngine(driverName, dataSourceName), Exec(dataSourceName, statement), CloseEngine(dataSourceName)],
            if replies.execFails(dataSourceName, statement) then Some(ExecFailed(statement)) else None)
  }

  /** Postgres provisioning, once the admin engine exists, issues CREATE
      DATABASE exactly when the catalog count is 0, through the admin
      connection, and then succeeds exactly when that statement does; a
      non-zero count is success with no statement at all; a failed catalog
      query is that error, with no statement. */
  lemma PostgresCreatesOnlyWhenCountIsZero(dataSourceName: string, dbName: string, replies: Replies)
    requires !replies.newEngineFails(Postgres, AdminDsn(dataSourceName, dbName))
    ensures var admin := AdminDsn(dataSourceName, dbName);
            var run := CreateDatabaseRun(Postgres, dataSourceName, dbName, replies);
            var count := replies.databaseCount(admin, dbName);
            (count.None? ==> Statements(run.calls) == [] && run.err == Some(CountFailed(admin))) &&
            (count.Some? && count.value != 0 ==> Statements(run.calls) == [] && run.err == None) &&
            (count == Some(0) ==>
               Statements(run.calls) == [CreateStatement(dbName)] &&
               Exec(admin, CreateStatement(dbName)) in run.calls &&
               (run.err == None <==> !replies.execFails(admin, CreateStatement(dbName))))
  {
    var admin := AdminDsn(dataSourceName, dbName);
    var started := [NewEngine(Postgres, admin), CountDatabases(admin, dbName)];
    StatementsAppend([NewEngine(Postgres, admin)], [CountDatabases(admin, dbName)]);
    StatementsOne(NewEngine(Postgres, admin));
    StatementsOne(CountDatabases(admin, dbName));
    StatementsOne(CloseEngine(admin));
    if replies.databaseCount(admin, dbName) == Some(0) {
      var statement := CreateStatement(dbName);
      StatementsAppend(started, [Exec(admin, statement), CloseEngine(admin)]);
      StatementsAppend([Exec(admin, statement)], [CloseEngine(admin)]);
      StatementsOne(Exec(admin, statement));
    } else {
      StatementsAppend(started, [CloseEngine(admin)]);
    }
  }

  /** MySQL provisioning, once the engine exists, executes exactly one
      statement: the self-guarding CREATE DATABASE IF NOT EXISTS, and
      succeeds exactly when that statement does. */
  lemma MySqlCreatesIfMissingOnce(driverName: string, dataSourceName: string, dbName: string, replies: Replies)
    requires driverName != Postgres
    requires !replies.newEngineFails(driverName, dataSourceName)
    ensures var run := CreateDatabaseRun(driverName, dataSourceName, dbName, replies);
            Statements(run.calls) == [CreateIfMissingStatement(dbName)] &&
            (run.err == None <==> !replies.execFails(dataSourceName, CreateIfMissingStatement(dbName)))
  {
    var statement := CreateIfMissingStatement(dbName);
    StatementsAppend([NewEngine(driverName, dataSourceName)],
                     [Exec(dataSourceName, statement), CloseEngine(dataSourceName)]);
    StatementsAppend([Exec(dataSourceName, statement)], [CloseEngine(dataSourceName)]);
    StatementsOne(NewEngine(driverName, dataSourceName));
    StatementsOne(Exec(dataSourceName, statement));
    StatementsOne(CloseEngine(dataSourceName));
  }

  /** The administrative engine is scoped: provisioning starts by creating
      it, and whenever that succeeds, the last request closes it, on the
      error paths as well. Every statement goes through it. */
  lemma AdminEngineIsAlwaysClosed(driverName: string, dataSourceName: string, dbName: string, replies: Replies)
    ensures var run := CreateDatabaseRun(driverName, dataSourceName, dbName, replies);
            var admin := if driverName == Postgres then AdminDsn(dataSourceName, dbName) else dataSourceName;
            |run.calls| >= 1 && run.calls[0] == NewEngine(driverName, admin) &&
            (replies.newEngineFails(driverName, admin) <==> |run.calls| == 1) &&
            (|run.calls| == 1 ==> run.err == Some(NewEngineFailed(admin))) &&
            (|run.calls| > 1 ==> run.calls[|run.calls| - 1] == CloseEngine(admin)) &&
            (forall c :: c in run.calls && c.Exec? ==> c.dsn == admin)
  {
  }

  /** Adapter.createTable: the tables are synchronised in the given order
      and the first failure stops the sequence. */
  function SyncRun(dsn: string, tables: seq<Table>, replies: Replies): Run
  {
    SyncFrom(dsn, tables, 0, replies)
  }

  /** The synchronisation of `tables[i..]`. */
  function SyncFrom(dsn: string, tables: seq<Table>, i: nat, replies: Replies): Run
    requires i <= |tables|
    decreases |tables| - i
  {
    if i == |tables| then Run([], None)
    else if replies.syncFails(dsn, tables[i]) then Run([Sync2(dsn, tables[i])], Some(SyncFailed(tables[i])))
    else
      var rest := SyncFrom(dsn, tables, i + 1, replies);
      Run([Sync2(dsn, tables[i])] + rest.calls, rest.err)
  }

  /** SyncStopsAtFirstFailure for the tables from position `i` on. */
  lemma {:induction false} SyncFromStopsAtFirstFailure(dsn: string, tables: seq<Table>, i: nat, replies: Replies)
    requires i <= |tables|
    ensures var run := SyncFrom(dsn, tables, i, replies);
            |run.calls| <= |tables| - i &&
            (forall k :: 0 <= k < |run.calls| ==> run.calls[k] == Sync2(dsn, tables[i + k])) &&
            (forall k :: i <= k < i + |run.calls| - 1 ==> !replies.syncFails(dsn, tables[k])) &&
            (run.err == None <==> forall k :: i <= k < |tables| ==> !replies.syncFails(dsn, tables[k])) &&
            (run.err == None ==> |run.calls| == |tables| - i) &&
            (run.err != None ==> |run.calls| >= 1 && replies.syncFails(dsn, tables[i + |run.calls| - 1]) &&
                                 run.err == Some(SyncFailed(tables[i + |run.calls| - 1])))
    decreases |tables| - i
  {
    if i < |tables| && !replies.syncFails(dsn, tables[i]) {
      var rest := SyncFrom(dsn, tables, i + 1, replies);
      SyncFromStopsAtFirstFailure(dsn, tables, i + 1, replies);
      var run := SyncFrom(dsn, tables, i, replies);
      assert run.calls == [Sync2(dsn, tables[i])] + rest.calls;
      forall k | 1 <= k < |run.calls| ensures run.calls[k] == Sync2(dsn, tables[i + k]) {
        assert run.calls[k] == rest.calls[k - 1];
      }
    }
  }

  /** Synchronisation attempts a prefix of the tables, in order, through one
      engine. It succeeds exactly when no table fails, and then attempts them
      all; otherwise the last table attempted is the first that failed, every
      one before it succeeded, and the error names it. */
  lemma SyncStopsAtFirstFailure(dsn: string, tables: seq<Table>, replies: Replies)
    ensures var run := SyncRun(dsn, tables, replies);
            |run.calls| <= |tables| &&
            (forall k :: 0 <= k < |run.calls| ==> run.calls[k] == Sync2(dsn, tables[k])) &&
            (forall k :: 0 <= k < |run.calls| - 1 ==> !replies.syncFails(dsn, tables[k])) &&
            (run.err == None <==> forall k :: 0 <= k < |tables| ==> !replies.syncFails(dsn, tables[k])) &&
            (run.err == None ==> |run.calls| == |tables|) &&
            (run.err != None ==> |run.calls| >= 1 && replies.syncFails(dsn, tables[|run.calls| - 1]) &&
                                 run.err == Some(SyncFailed(tables[|run.calls| - 1])))
  {
    SyncFromStopsAtFirstFailure(dsn, tables, 0, replies);
  }

  /** What open asks of the server, the error it ends with, and the engine it
      installs (None when it installs none). */
  datatype OpenRun = OpenRun(calls: seq<Call>, err: Option<Error>, engine: Option<Engine>)

  /** Adapter.open: provision, then carry on with the data connection
      string. */
  function OpenRunOf(driverName: string, dataSourceName: string, dbName: string, replies: Replies): OpenRun
  {
    OpenRunAfter(CreateDatabaseRun(driverName, dataSourceName, dbName, replies), driverName,
                 DataDsn(driverName, dataSourceName, dbName), replies)
  }

  /** The rest of Adapter.open once createDatabase has made the requests of
      `provision`: stop on its error, otherwise create the engine for `dsn`,
      install it and synchronise the tables through it. */
  function OpenRunAfter(provision: Run, driverName: string, dsn: string, replies: Replies): OpenRun
  {
    if provision.err.Some? then
      OpenRun(provision.calls, provision.err, None)
    else if replies.newEngineFails(driverName, dsn) then
      OpenRun(provision.calls + [NewEngine(driverName, dsn)], Some(NewEngineFailed(dsn)), None)
    else
      var sync := SyncRun(dsn, SyncOrder, replies);
      OpenRun(provision.calls + [NewEngine(driverName, dsn)] + sync.calls, sync.err, Some(Engine(driverName, dsn)))
  }

  /** open installs an engine only when provisioning returned no error and
      the data engine could be created, and then it is the engine for the
      data connection string. A sync failure leaves the engine installed. */
  lemma OpenInstallsEngineOnlyAfterProvisioning(driverName: string, dataSourceName: string, dbName: string,
                                                replies: Replies)
    ensures var run := OpenRunOf(driverName, dataSourceName, dbName, replies);
            var dsn := DataDsn(driverName, dataSourceName, dbName);
            (run.engine.Some? <==>
               CreateDatabaseRun(driverName, dataSourceName, dbName, replies).err == None &&
               !replies.newEngineFails(driverName, dsn)) &&
            (run.engine.Some? ==> run.engine == Some(Engine(driverName, dsn)))
  {
  }

  /** open succeeds exactly when it installs an engine and no table fails to
      synchronise. */
  lemma OpenSucceedsIff(driverName: string, dataSourceName: string, dbName: string, replies: Replies)
    ensures var run := OpenRunOf(driverName, dataSourceName, dbName, replies);
            var dsn := DataDsn(driverName, dataSourceName, dbName);
            run.err == None <==>
              run.engine.Some? && forall t :: t in SyncOrder ==> !replies.syncFails(dsn, t)
  {
    var run := OpenRunOf(driverName, dataSourceName, dbName, replies);
    var dsn := DataDsn(driverName, dataSourceName, dbName);
    if run.engine.Some? {
      SyncStopsAtFirstFailure(dsn, SyncOrder, replies);
      if forall t :: t in SyncOrder ==> !replies.syncFails(dsn, t) {
        assert forall k :: 0 <= k < |SyncOrder| ==> !replies.syncFails(dsn, SyncOrder[k]);
      } else {
        var t :| t in SyncOrder && replies.syncFails(dsn, t);
        var k :| 0 <= k < |SyncOrder| && SyncOrder[k] == t;
      }
    }
  }

  /** Provisioning makes no table requests. */
  lemma ProvisioningNeverSyncs(driverName: string, dataSourceName: string, dbName: string, replies: Replies)
    ensures forall c :: c in CreateDatabaseRun(driverName, dataSourceName, dbName, replies).calls ==> !c.Sync2?
  {
  }

  /** In `before + [x] + syncs`, where only `syncs` holds table requests and
      they follow `order`, each table request sits after `x` at the place
      its table has in `order`. */
  lemma SyncRequestsFollow(before: seq<Call>, x: Call, syncs: seq<Call>, dsn: string, order: seq<Table>)
    requires forall c :: c in before ==> !c.Sync2?
    requires !x.Sync2?
    requires |syncs| <= |order| && forall k :: 0 <= k < |syncs| ==> syncs[k] == Sync2(dsn, order[k])
    ensures var calls := before + [x] + syncs;
            forall k :: 0 <= k < |calls| && calls[k].Sync2? ==>
              |before| < k && calls[k] == Sync2(dsn, order[k - |before| - 1])
  {
    var calls := before + [x] + syncs;
    forall k | 0 <= k < |calls| && calls[k].Sync2?
      ensures |before| < k && calls[k] == Sync2(dsn, order[k - |before| - 1])
    {
      if k > |before| {
        assert calls[k] == syncs[k - |before| - 1];
      }
    }
  }

  /** OpenSyncsOnlyThroughDataEngine for any provisioning run that makes no
      table requests. */
  lemma SyncsOnlyAfterProvisioning(provision: Run, driverName: string, dsn: string, replies: Replies)
    requires forall c :: c in provision.calls ==> !c.Sync2?
    ensures var run := OpenRunAfter(provision, driverName, dsn, replies);
            var n := |provision.calls| + 1;
            |provision.calls| <= |run.calls| && run.calls[..|provision.calls|] == provision.calls &&
            (forall k :: 0 <= k < |run.calls| && run.calls[k].Sync2? ==>
               run.engine.Some? && n <= k < n + |SyncOrder| && run.calls[n - 1] == NewEngine(driverName, run.engine.value.dsn) &&
               run.calls[k] == Sync2(run.engine.value.dsn, SyncOrder[k - n]))
  {
    var run := OpenRunAfter(provision, driverName, dsn, replies);
    if run.engine.Some? {
      var sync := SyncRun(dsn, SyncOrder, replies);
      SyncStopsAtFirstFailure(dsn, SyncOrder, replies);
      assert run.calls == provision.calls + [NewEngine(driverName, dsn)] + sync.calls;
      SyncRequestsFollow(provision.calls, NewEngine(driverName, dsn), sync.calls, dsn, SyncOrder);
    } else if provision.err.Some? {
      assert run.calls == provision.calls;
    } else {
      assert run.calls == provision.calls + [NewEngine(driverName, dsn)];
      SyncRequestsFollow(provision.calls, NewEngine(driverName, dsn), [], dsn, SyncOrder);
    }
  }

  /** Every table request open makes comes after all of provisioning's
      requests and after the data engine is created, goes through that
      engine, and follows the sync order. */
  lemma OpenSyncsOnlyThroughDataEngine(driverName: string, dataSourceName: string, dbName: string,
                                       replies: Replies)
    ensures var run := OpenRunOf(driverName, dataSourceName, dbName, replies);
            var provision := CreateDatabaseRun(driverName, dataSourceName, dbName, replies);
            var n := |provision.calls| + 1;
            |provision.calls| <= |run.calls| && run.calls[..|provision.calls|] == provision.calls &&
            (forall k :: 0 <= k < |run.calls| && run.calls[k].Sync2? ==>
               run.engine.Some? && n <= k < n + |SyncOrder| && run.calls[n - 1] == NewEngine(driverName, run.engine.value.dsn) &&
               run.calls[k] == Sync2(run.engine.value.dsn, SyncOrder[k - n]))
  {
    ProvisioningNeverSyncs(driverName, dataSourceName, dbName, replies);
    SyncsOnlyAfterProvisioning(CreateDatabaseRun(driverName, dataSourceName, dbName, replies), driverName,
                               DataDsn(driverName, dataSourceName, dbName), replies);
  }

  /* ----------------------------------------------------------------------
     The adapter object
     ---------------------------------------------------------------------- */

  /** xorm and the database server, as the adapter sees them: each request is
      answered from `replies` and appended to `calls`. */
  class Server {
    const replies: Replies
    var calls: seq<Call>

    constructor (replies: Replies)
      ensures this.replies == replies && calls == []
    {
      this.replies := replies;
      calls := [];
    }

    method NewEngine(driverName: string, dsn: string) returns (engine: Option<Engine>)
      modifies this
      ensures calls == old(calls) + [Call.NewEngine(driverName, dsn)]
      ensures engine == if replies.newEngineFails(driverName, dsn) then None else Some(Engine(driverName, dsn))
    {
      calls := calls + [Call.NewEngine(driverName, dsn)];
      engine := if replies.newEngineFails(driverName, dsn) then None else Some(Engine(driverName, dsn));
    }

    method CountDatabases(engine: Engine, name: string) returns (count: Option<int>)
      modifies this
      ensures calls == old(calls) + [Call.CountDatabases(engine.dsn, name)]
      ensures count == replies.databaseCount(engine.dsn, name)
    {
      calls := calls + [Call.CountDatabases(engine.dsn, name)];
      count := replies.databaseCount(engine.dsn, name);
    }

    method Exec(engine: Engine, statement: string) returns (ok: bool)
      modifies this
      ensures calls == old(calls) + [Call.Exec(engine.dsn, statement)]
      ensures ok == !replies.execFails(engine.dsn, statement)
    {
      calls := calls + [Call.Exec(engine.dsn, statement)];
      ok := !replies.execFails(engine.dsn, statement);
    }

    method Sync2(engine: Engine, table: Table) returns (ok: bool)
      modifies this
      ensures calls == old(calls) + [Call.Sync2(engine.dsn, table)]
      ensures ok == !replies.syncFails(engine.dsn, table)
    {
      calls := calls + [Call.Sync2(engine.dsn, table)];
      ok := !replies.syncFails(engine.dsn, table);
    }

    method Close(engine: Engine)
      modifies this
      ensures calls == old(calls) + [CloseEngine(engine.dsn)]
    {
      calls := calls + [CloseEngine(engine.dsn)];
    }
  }

  /** The adapter: its driver, its connection string, and the engine it
      holds once open has installed one. */
  class Adapter {
    const driverName: string
    const dataSourceName: string
    var engine: Option<Engine>

    constructor (driverName: string, dataSourceName: string)
      ensures this.driverName == driverName && this.dataSourceName == dataSourceName
      ensures engine == None
    {
      this.driverName := driverName;
      this.dataSourceName := dataSourceName;
      engine := None;
    }

    /** createDatabase: makes sure the target database exists, through an
        administrative engine that is closed before returning. */
    method CreateDatabase(dbName: string, server: Server) returns (err: Option<Error>)
      modifies server
      ensures server.calls == old(server.calls) +
                CreateDatabaseRun(driverName, dataSourceName, dbName, server.replies).calls
      ensures err == CreateDatabaseRun(driverName, dataSourceName, dbName, server.replies).err
    {
      if driverName == Postgres {
        var admin := AdminDsn(dataSourceName, dbName);
        var e := server.NewEngine(driverName, admin);
        if e.None? {
          return Some(NewEngineFailed(admin));
        }
        var count := server.CountDatabases(e.value, dbName);
        if count.None? {
          server.Close(e.value);
          return Some(CountFailed(admin));
        }
        if count.value == 0 {
          var statement := CreateStatement(dbName);
          var ok := server.Exec(e.value, statement);
          server.Close(e.value);
          return if ok then None else Some(ExecFailed(statement));
        }
        server.Close(e.value);
        return None;
      }
      var e := server.NewEngine(driverName, dataSourceName);
      if e.None? {
        return Some(NewEngineFailed(dataSourceName));
      }
      var statement := CreateIfMissingStatement(dbName);
      var ok := server.Exec(e.value, statement);
      server.Close(e.value);
      return if ok then None else Some(ExecFailed(statement));
    }

    /** open: provision the database, create the data engine, install it,
        then synchronise the tables. */
    method Open(dbName: string, server: Server) returns (err: Option<Error>)
      modifies this, server
      ensures var run := OpenRunOf(driverName, dataSourceName, dbName, server.replies);
              server.calls == old(server.calls) + run.calls && err == run.err &&
              engine == (if run.engine.Some? then run.engine else old(engine))
    {
      err := CreateDatabase(dbName, server);
      if err.Some? {
        return;
      }
      var dsn := DataDsn(driverName, dataSourceName, dbName);
      var e := server.NewEngine(driverName, dsn);
      if e.None? {
        return Some(NewEngineFailed(dsn));
      }
      engine := e;
      err := CreateTable(server);
    }

    /** close: releases the engine and forgets it. Nothing guards a second
        call, so the engine must be there. */
    method Close(server: Server)
      requires engine.Some?
      modifies this, server
      ensures engine == None
      ensures server.calls == old(server.calls) + [CloseEngine(old(engine).value.dsn)]
    {
      server.Close(engine.value);
      engine := None;
    }

    /** createTable: the five tables in a fixed order, stopping at the first
        failure. */
    method CreateTable(server: Server) returns (err: Option<Error>)
      requires engine.Some?
      modifies server
      ensures server.calls == old(server.calls) + SyncRun(engine.value.dsn, SyncOrder, server.replies).calls
      ensures err == SyncRun(engine.value.dsn, SyncOrder, server.replies).err
    {
      var e := engine.value;
      var ok := server.Sync2(e, Asset);
      if !ok {
        return Some(SyncFailed(Asset));
      }
      ok := server.Sync2(e, Provider);
      if !ok {
        return Some(SyncFailed(Provider));
      }
      ok := server.Sync2(e, Machine);
      if !ok {
        return Some(SyncFailed(Machine));
      }
      ok := server.Sync2(e, Record);
      if !ok {
        return Some(SyncFailed(Record));
      }
      ok := server.Sync2(e, Session);
      if !ok {
        return Some(SyncFailed(Session));
      }
      return None;
    }
  }

  /** NewAdapter: a new adapter, opened at once. */
  method NewAdapter(driverName: string, dataSourceName: string, dbName: string, server: Server)
    returns (a: Adapter, err: Option<Error>)
    modifies server
    ensures fresh(a) && a.driverName == driverName && a.dataSourceName == dataSourceName
    ensures var run := OpenRunOf(driverName, dataSourceName, dbName, server.replies);
            server.calls == old(server.calls) + run.calls && err == run.err && a.engine == run.engine
  {
    a := new Adapter(driverName, dataSourceName);
    err := a.Open(dbName, server);
  }

  /* ----------------------------------------------------------------------
     Listing queries
     ---------------------------------------------------------------------- */

  /** LIMIT and OFFSET of a listing. */
  datatype Page = Page(limit: int, offset: int)

  /** A WHERE condition: SQL text with `?` placeholders and the values bound
      to them. */
  datatype Condition = Condition(sql: string, args: seq<string>)

  datatype Direction = Ascending | Descending

  /** What GetSession prepares on an xorm session: an optional page, the
      conditions (joined with AND, in order) and the ordering. */
  datatype QuerySpec = QuerySpec(page: Option<Page>, conditions: seq<Condition>,
                                 orderBy: string, direction: Direction)

  /** The column listings are sorted by when the request names no sorting. */
  const DefaultSortField := "created_time"

  /** The only sort order that sorts ascending. */
  const Ascend := "ascend"

  /** The condition that keeps the rows of one owner. */
  function OwnerCondition(owner: string): Condition
  {
    Condition("owner=?", [owner])
  }

  /** The condition that keeps the rows whose `column` contains `value`;
      the value is bound, never part of the SQL text. */
  function LikeCondition(column: string, value: string): Condition
  {
    Condition(column + " like ?", ["%" + value + "%"])
  }

  /** The request filters on `field`: both field and value are given and
      the field is one that may be filtered on. */
  predicate FiltersOn(field: string, value: string, filterField: string -> bool)
  {
    field != "" && value != "" && filterField(field)
  }

  /** GetSession, with util.FilterField and util.SnakeString as parameters. */
  function GetSession(owner: string, offset: int, limit: int, field: string, value: string,
                      sortField: string, sortOrder: string,
                      filterField: string -> bool, snakeString: string -> string): (q: QuerySpec)
    ensures q.page.Some? <==> offset != -1 && limit != -1
    ensures q.page.Some? ==> q.page.value == Page(limit, offset)
    ensures |q.conditions| == (if owner != "" then 1 else 0) + (if FiltersOn(field, value, filterField) then 1 else 0)
    ensures owner != "" ==> q.conditions[0] == OwnerCondition(owner)
    ensures FiltersOn(field, value, filterField) ==>
              q.conditions[|q.conditions| - 1] == LikeCondition(snakeString(field), value)
    ensures sortField == "" || sortOrder == "" ==> q.orderBy == snakeString(DefaultSortField)
    ensures sortField != "" && sortOrder != "" ==> q.orderBy == snakeString(sortField)
    ensures q.direction == Ascending <==> sortOrder == Ascend
  {
    var page := if offset != -1 && limit != -1 then Some(Page(limit, offset)) else None;
    var byOwner := if owner != "" then [OwnerCondition(owner)] else [];
    var byField := if field != "" && value != "" && filterField(field)
                   then [LikeCondition(snakeString(field), value)] else [];
    var sortBy := if sortField == "" || sortOrder == "" then DefaultSortField else sortField;
    QuerySpec(page, byOwner + byField, snakeString(sortBy),
              if sortOrder == Ascend then Ascending else Descending)
  }

  /** The SQL texts of a query's conditions. */
  function SqlTexts(q: QuerySpec): seq<string>
  {
    seq(|q.conditions|, k requires 0 <= k < |q.conditions| => q.conditions[k].sql)
  }

  /** The filter value reaches the query only as a bound argument: two
      requests that differ only in a (non-empty) value produce the same SQL
      text, and the value's condition binds it wrapped in `%`. */
  lemma ValueIsOnlyEverBound(owner: string, offset: int, limit: int, field: string, value: string,
                             otherValue: string, sortField: string, sortOrder: string,
                             filterField: string -> bool, snakeString: string -> string)
    requires value != "" && otherValue != ""
    ensures var q := GetSession(owner, offset, limit, field, value, sortField, sortOrder, filterField, snakeString);
            var q' := GetSession(owner, offset, limit, field, otherValue, sortField, sortOrder, filterField, snakeString);
            SqlTexts(q) == SqlTexts(q') && q.orderBy == q'.orderBy && q.page == q'.page
  {
    var q := GetSession(owner, offset, limit, field, value, sortField, sortOrder, filterField, snakeString);
    var q' := GetSession(owner, offset, limit, field, otherValue, sortField, sortOrder, filterField, snakeString);
    assert |q.conditions| == |q'.conditions|;
    forall k | 0 <= k < |q.conditions| ensures q.conditions[k].sql == q'.conditions[k].sql {
    }
  }

  /** A field that may not be filtered on is ignored without an error: the
      query is the one the request would give with no filter at all, so the
      field's text never reaches the conditions. */
  lemma UnlistedFieldIsIgnored(owner: string, offset: int, limit: int, field: string, value: string,
                               sortField: string, sortOrder: string,
                               filterField: string -> bool, snakeString: string -> string)
    requires !filterField(field)
    ensures var q := GetSession(owner, offset, limit, field, value, sortField, sortOrder, filterField, snakeString);
            q == GetSession(owner, offset, limit, "", "", sortField, sortOrder, filterField, snakeString) &&
            forall c :: c in q.conditions ==> c == OwnerCondition(owner)
  {
  }

  /** The sort column is not checked against the list of filterable fields:
      whatever that list is, the ordering is the same, and a sort field the
      list rejects still becomes the sort column. */
  lemma SortFieldIsNotAllowListed(owner: string, offset: int, limit: int, field: string, value: string,
                                  sortField: string, sortOrder: string,
                                  filterField: string -> bool, otherFilterField: string -> bool,
                                  snakeString: string -> string)
    requires sortField != "" && sortOrder != "" && !filterField(sortField)
    ensures var q := GetSession(owner, offset, limit, field, value, sortField, sortOrder, filterField, snakeString);
            var q' := GetSession(owner, offset, limit, field, value, sortField, sortOrder, otherFilterField, snakeString);
            q.orderBy == q'.orderBy == snakeString(sortField) && q.direction == q'.direction
  {
  }

  /** A first page of one owner's rows with no filter and no sorting given:
      one owner condition, limit 10 at offset 0, newest first. */
  lemma OwnerPageExample(filterField: string -> bool, snakeString: string -> string)
    ensures GetSession("acme", 0, 10, "", "", "", "", filterField, snakeString)
            == QuerySpec(Some(Page(10, 0)), [OwnerCondition("acme")], snakeString("created_time"), Descending)
  {
  }

  /** No paging, a filter on an allowed field, ascending on that field. */
  lemma FilterAndSortExample(filterField: string -> bool, snakeString: string -> string)
    requires filterField("name") && snakeString("name") == "name"
    ensures GetSession("", -1, -1, "name", "foo", "name", "ascend", filterField, snakeString)
            == QuerySpec(None, [Condition("name like ?", ["%foo%"])], "name", Ascending)
  {
    assert "name" + " like ?" == "name like ?";
    assert "%" + "foo" + "%" == "%foo%";
  }
}
