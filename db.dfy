/** cdls/db.py: the SQLite warehouse. The `Store` stands for the module
    together with the database file: the tables, whether the lazily opened
    `_conn` exists yet, and the `uuid1` clock that stamps every warehoused
    record. */
module Db {
  import opened Outcomes
  import opened Text
  import opened Dates
  import opened Documents
  import opened Errors
  import opened Serialize

  /** The statement `warehouse` runs, as `_execute_query` strips it. */
  const InsertQuery :=
    "INSERT INTO warehouse\n"
    + "\t( guid,  source_identifier,  record_date,  json)\n"
    + "VALUES\n"
    + "\t(:guid, :source_identifier, :record_date, :json)"

  /** The statement as `warehouse` writes it, between two line breaks. */
  const InsertSql := "\n" + InsertQuery + "\n"

  /** `_DDL_CREATE_WAREHOUSE`, stripped. */
  const CreateWarehouseQuery :=
    "CREATE TABLE `WAREHOUSE`\n"
    + "(\n"
    + "\t `GUID`               TEXT(40)\n"
    + "\t,`SOURCE_IDENTIFIER`  TEXT(64)\n"
    + "\t,`RECORD_DATE`        TEXT(20)\n"
    + "\t,`JSON`               TEXT(16000)\n"
    + ")"

  /** `_DDL_CREATE_WAREHOUSE`. */
  const CreateWarehouseSql := "\n" + CreateWarehouseQuery + "\n"

  /** `_DDL_DROP_WAREHOUSE`. */
  const DropWarehouseSql := "DROP TABLE `WAREHOUSE`"

  /** `_DDL_CREATE_LOADSTATS`, stripped. */
  const CreateLoadStatsQuery :=
    "CREATE TABLE `CDLS_LOAD_STATS`\n"
    + "(\n"
    + "\t `IDENTIFIER`         TEXT(64)\n"
    + "\t,`ATTEMPTED_ON`       TEXT(24)\n"
    + "\t,`SUCCESSFUL`         INT\n"
    + "\t,`TOTAL_RECORDS`      INT\n"
    + "\t,`LATEST_RECORD_DATE` TEXT(24)\n"
    + "\t,`REMARKS`            TEXT(200)\n"
    + ")"

  /** `_DDL_CREATE_LOADSTATS`. */
  const CreateLoadStatsSql := "\n" + CreateLoadStatsQuery + "\n"

  /** `_DDL_DROP_LOADSTATS`. */
  const DropLoadStatsSql := "DROP TABLE `CDLS_LOAD_STATS`"

  /** One row of the `WAREHOUSE` table. */
  datatype Row = Row(guid: string, sourceIdentifier: string, recordDate: string, json: Json)

  /** Which of the two tables exist, and the warehouse rows. The load-stats
      table is never written by the core, so only its existence is kept. */
  datatype Tables = Tables(loadStats: bool, warehouse: bool, rows: seq<Row>)

  /** The statements the core sends to SQLite. */
  datatype Statement =
    | DropLoadStats
    | CreateLoadStats
    | DropWarehouse
    | CreateWarehouse
    | Insert(row: Row)

  /** The text `_execute_query` receives for a statement it runs. */
  function Sql(s: Statement): string {
    match s
    case CreateWarehouse => CreateWarehouseSql
    case Insert(_) => InsertSql
    case DropLoadStats => DropLoadStatsSql
    case CreateLoadStats => CreateLoadStatsSql
    case DropWarehouse => DropWarehouseSql
  }

  /** The text `_execute_query` runs for a statement: the statement stripped. */
  function Query(s: Statement): string {
    match s
    case CreateWarehouse => CreateWarehouseQuery
    case Insert(_) => InsertQuery
    case DropLoadStats => DropLoadStatsSql
    case CreateLoadStats => CreateLoadStatsQuery
    case DropWarehouse => DropWarehouseSql
  }

  /** `query.strip()` of every statement the core sends is its `Query`. */
  lemma QueryIsStripped(s: Statement)
    ensures Strip(Sql(s)) == Query(s)
  {
    match s
    case CreateWarehouse => CreateWarehouseStripped();
    case Insert(_) => InsertStripped();
    case DropLoadStats => DropLoadStatsStripped();
    case CreateLoadStats => CreateLoadStatsStripped();
    case DropWarehouse => DropWarehouseStripped();
  }

  /** The insert sits between two line breaks that `strip` removes. */
  lemma InsertStripped()
    ensures Strip(InsertSql) == InsertQuery
  {
    assert InsertQuery[0] == 'I' && InsertQuery[|InsertQuery| - 1] == ')';
    StripLines(InsertQuery);
  }

  /** So does `_DDL_CREATE_WAREHOUSE`. */
  lemma CreateWarehouseStripped()
    ensures Strip(CreateWarehouseSql) == CreateWarehouseQuery
  {
    assert CreateWarehouseQuery[0] == 'C' && CreateWarehouseQuery[|CreateWarehouseQuery| - 1] == ')';
    StripLines(CreateWarehouseQuery);
  }

  /** So does `_DDL_CREATE_LOADSTATS`. */
  lemma CreateLoadStatsStripped()
    ensures Strip(CreateLoadStatsSql) == CreateLoadStatsQuery
  {
    assert CreateLoadStatsQuery[0] == 'C' && CreateLoadStatsQuery[|CreateLoadStatsQuery| - 1] == ')';
    StripLines(CreateLoadStatsQuery);
  }

  /** The drop statements have no whitespace at either end. */
  lemma DropLoadStatsStripped()
    ensures Strip(DropLoadStatsSql) == DropLoadStatsSql
  {
    assert DropLoadStatsSql[0] == 'D' && DropLoadStatsSql[|DropLoadStatsSql| - 1] == '`';
  }

  lemma DropWarehouseStripped()
    ensures Strip(DropWarehouseSql) == DropWarehouseSql
  {
    assert DropWarehouseSql[0] == 'D' && DropWarehouseSql[|DropWarehouseSql| - 1] == '`';
  }

  /** What SQLite does with one statement: the `OperationalError` message it
      raises, or the tables afterwards. A statement that fails changes nothing. */
  function Run(s: Statement, t: Tables): (r: (Outcome<string>, Tables))
    ensures r.0.Fail? ==> r.1 == t
    ensures r.0.Pass? <==> match s
                            case DropLoadStats => t.loadStats
                            case CreateLoadStats => !t.loadStats
                            case DropWarehouse => t.warehouse
                            case CreateWarehouse => !t.warehouse
                            case Insert(_) => t.warehouse
    ensures r.0.Pass? && s.Insert? ==> r.1 == t.(rows := t.rows + [s.row])
    ensures r.0.Pass? && (s.DropWarehouse? || s.CreateWarehouse?) ==> r.1.rows == []
    ensures !s.Insert? ==> r.1.rows == t.rows || r.1.rows == []
  {
    match s
    case DropLoadStats =>
      if t.loadStats then (Pass, t.(loadStats := false))
      else (Fail("no such table: CDLS_LOAD_STATS"), t)
    case CreateLoadStats =>
      if t.loadStats then (Fail("table `CDLS_LOAD_STATS` already exists"), t)
      else (Pass, t.(loadStats := true))
    case DropWarehouse =>
      if t.warehouse then (Pass, t.(warehouse := false, rows := []))
      else (Fail("no such table: WAREHOUSE"), t)
    case CreateWarehouse =>
      if t.warehouse then (Fail("table `WAREHOUSE` already exists"), t)
      else (Pass, t.(warehouse := true, rows := []))
    case Insert(row) =>
      if t.warehouse then (Pass, t.(rows := t.rows + [row]))
      else (Fail("no such table: warehouse"), t)
  }

  /** The error `_execute_query` raises when SQLite rejects the query. */
  function QueryError(query: string, message: string, params: Option<SqlParams>): CdlsError {
    DatabaseError("sqlite3: " + message, Some(query), params)
  }

  /** The error of inserting a row when there is no warehouse table. */
  function NoWarehouse(row: Row): Failure {
    Cdls(QueryError(InsertQuery, "no such table: warehouse", Some(InsertParams(row))))
  }

  /** The insert `warehouse` makes: the row is appended when the warehouse
      table exists, and otherwise nothing changes. */
  function InsertRow(t: Tables, row: Row): (Outcome<Failure>, Tables) {
    if t.warehouse then (Pass, t.(rows := t.rows + [row])) else (Fail(NoWarehouse(row)), t)
  }

  /** `InsertRow` is what `_execute_query` does with the insert statement and
      its parameters: SQLite's outcome, with its error turned into a
      `DatabaseError` that names the stripped query and the parameters. */
  lemma InsertRowRuns(t: Tables, row: Row)
    ensures var run := Run(Insert(row), t);
      InsertRow(t, row)
      == (if run.0.Pass? then Pass else Fail(Cdls(QueryError(Query(Insert(row)), run.0.error, Some(InsertParams(row))))), run.1)
  {
  }

  /** `str(uuid.uuid1()).upper()` for the `k`-th stamp of the uuid clock. */
  function Guid(k: nat): string {
    Upper(Hex(k))
  }

  /** Two stamps of the uuid clock give the same guid only if they are the same stamp. */
  lemma GuidInjective(a: nat, b: nat)
    requires Guid(a) == Guid(b)
    ensures a == b
  {
    UpperHexInjective(a, b);
  }

  predicate GuidsUnique(rows: seq<Row>) {
    forall i, j :: 0 <= i < j < |rows| ==> rows[i].guid != rows[j].guid
  }

  /** The clock will not issue guid `g` from stamp `clock` on. */
  ghost predicate Unissued(g: string, clock: nat) {
    forall k :: clock <= k ==> g != Guid(k)
  }

  /** No row carries a guid the clock will issue from stamp `clock` on. */
  ghost predicate GuidsBefore(rows: seq<Row>, clock: nat) {
    forall i :: 0 <= i < |rows| ==> Unissued(rows[i].guid, clock)
  }

  /** Appending a row stamped with the clock's current value, and advancing the
      clock, keeps the guids unique and all of them behind the clock. */
  lemma StampedAppend(rows: seq<Row>, row: Row, clock: nat)
    requires GuidsUnique(rows) && GuidsBefore(rows, clock)
    requires row.guid == Guid(clock)
    ensures GuidsUnique(rows + [row]) && GuidsBefore(rows + [row], clock + 1)
  {
    var rs := rows + [row];
    forall i | 0 <= i < |rs| ensures Unissued(rs[i].guid, clock + 1) {
      forall k | clock + 1 <= k ensures rs[i].guid != Guid(k) {
        if i == |rows| {
          if Guid(clock) == Guid(k) { GuidInjective(clock, k); }
        } else {
          assert Unissued(rows[i].guid, clock);
        }
      }
    }
  }

  /** The parameter dict of the warehouse insert, in the order it is filled. */
  function InsertParams(row: Row): SqlParams {
    [("json", SqlDocument(row.json)), ("guid", SqlText(row.guid)),
     ("source_identifier", SqlText(row.sourceIdentifier)), ("record_date", SqlText(row.recordDate))]
  }

  /** The module globals of cdls/db.py together with the database file. */
  class Store {
    /** The tables of the database file. */
    var tables: Tables
    /** Whether `_conn` has been opened. */
    var connected: bool
    /** The stamp the next `uuid.uuid1()` call uses. */
    var uuidClock: nat
    /** How many times `sqlite3.connect` has opened the database file. */
    ghost var opens: nat

    /** Every row in the warehouse has its own guid, no guid the clock has
        yet to issue is already in use, and the file has been opened once if
        `_conn` is set and never otherwise. */
    ghost predicate Valid()
      reads this
    {
      && GuidsUnique(tables.rows) && GuidsBefore(tables.rows, uuidClock)
      && opens == (if connected then 1 else 0)
    }

    constructor(file: Tables, clock: nat)
      requires GuidsUnique(file.rows) && GuidsBefore(file.rows, clock)
      ensures Valid()
      ensures tables == file && !connected && uuidClock == clock && opens == 0
    {
      tables := file;
      connected := false;
      uuidClock := clock;
      opens := 0;
    }

    /** `_connect()`: opens the database file on the first call; every later
        call returns that same connection. Opening reads nothing and writes
        nothing. */
    method Connect()
      modifies this
      ensures connected && tables == old(tables) && uuidClock == old(uuidClock)
      ensures opens == if old(connected) then old(opens) else old(opens) + 1
    {
      if !connected {
        connected := true;
        opens := opens + 1;
      }
    }

    /** `connection.execute(sql)` on the open connection. */
    method Execute(s: Statement) returns (o: Outcome<string>)
      requires connected
      modifies this
      ensures (o, tables) == Run(s, old(tables))
      ensures connected && uuidClock == old(uuidClock) && opens == old(opens)
    {
      var r := Run(s, tables);
      o := r.0;
      tables := r.1;
    }

    /** `_execute_query(connection, query, params)`: runs the statement and
        turns SQLite's `OperationalError` into a `DatabaseError` carrying the
        stripped query and the parameters. */
    method ExecuteQuery(s: Statement, params: Option<SqlParams>) returns (o: Outcome<Failure>)
      requires connected
      modifies this
      ensures var r := Run(s, old(tables));
        && tables == r.1
        && o == (if r.0.Pass? then Pass else Fail(Cdls(QueryError(Query(s), r.0.error, params))))
      ensures connected && uuidClock == old(uuidClock) && opens == old(opens)
    {
      var query := Strip(Sql(s));
      QueryIsStripped(s);
      var e := Execute(s);
      if e.Fail? {
        return Fail(Cdls(DatabaseError("sqlite3: " + e.error, Some(query), params)));
      }
      return Pass;
    }

    /** `install()`: drops both tables when they exist and creates them again,
        leaving an empty warehouse. */
    method Install() returns (o: Outcome<Failure>)
      requires Valid()
      modifies this
      ensures Valid() && o == Pass
      ensures connected && tables == Tables(true, true, [])
      ensures uuidClock == old(uuidClock) && opens == 1
    {
      Connect();
      var dropped := Execute(DropLoadStats);
      var created := Execute(CreateLoadStats);
      assert created == Pass;
      dropped := Execute(DropWarehouse);
      o := ExecuteQuery(CreateWarehouse, None);
    }

    /** `warehouse(data, source, record_date)`: packages the data with its
        class name, serialises it, stamps it with a new guid, and inserts it
        with the stripped, upper-cased source identifier and the formatted
        record date. */
    method Warehouse(data: PyValue, source: string, recordDate: PyValue) returns (o: Outcome<Failure>)
      requires Valid()
      modifies this
      ensures Valid()
      ensures WarehouseEffect(this, data, source, recordDate, o)
    {
      var doc := ToJson(Package(data));
      if doc.Err? {
        if doc.error == TypeError {
          return Fail(Cdls(DatabaseError("JSON-serialization failed on data", None, None)));
        }
        return Fail(Builtin(doc.error));
      }
      var guid := Guid(uuidClock);
      uuidClock := uuidClock + 1;
      var sourceIdentifier := Upper(Strip(source));
      if !recordDate.PyDateTime? {
        return Fail(Builtin(AttributeError));
      }
      var row := Row(guid, sourceIdentifier, DateToString(recordDate.d), doc.value);
      var params := InsertParams(row);
      StampedAppend(tables.rows, row, uuidClock - 1);
      Connect();
      InsertRowRuns(tables, row);
      o := ExecuteQuery(Insert(row), Some(params));
    }
  }

  /** A warehoused record reads back: its date is the record date it was given
      and its document names the data's class and holds the data's document. */
  lemma WarehousedRowReadsBack(data: PyValue, d: DateTime, row: Row)
    requires row.recordDate == DateToString(d) && ToJson(Package(data)) == Ok(row.json)
    ensures ParseDateText(row.recordDate) == Some(d)
    ensures ToJson(data).Ok? && row.json == JObject([("$class", JString(TypeName(data))), ("$contents", ToJson(data).value)])
  {
    DateTextRoundTrip(d);
    PackageShape(data);
  }

  /** What `warehouse` does to the store and what it returns. */
  twostate predicate WarehouseEffect(store: Store, data: PyValue, source: string, recordDate: PyValue, new o: Outcome<Failure>)
    reads store
  {
    var doc := ToJson(Package(data));
    && (doc.Err? ==> unchanged(store))
    && (doc.Err? && doc.error == TypeError ==>
          o == Fail(Cdls(DatabaseError("JSON-serialization failed on data", None, None))))
    && (doc.Err? && doc.error != TypeError ==> o == Fail(Builtin(doc.error)))
    && (doc.Ok? ==> store.uuidClock == old(store.uuidClock) + 1)
    && (doc.Ok? && !recordDate.PyDateTime? ==>
          o == Fail(Builtin(AttributeError)) && store.connected == old(store.connected) && store.tables == old(store.tables))
    && (doc.Ok? && recordDate.PyDateTime? ==>
          var row := Row(Guid(old(store.uuidClock)), Upper(Strip(source)), DateToString(recordDate.d), doc.value);
          && store.connected && (o, store.tables) == InsertRow(old(store.tables), row))
  }
}
