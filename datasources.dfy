/** cdls/datasources.py: the data sources the CDLS loads from, the load
    metrics each keeps, and the configuration parameters they read. */
module DataSources {
  import opened Outcomes
  import opened Text
  import opened Dates
  import opened Documents
  import opened Errors
  import opened Sorting
  import opened Serialize
  import opened Db
  import Logging

  /** `time.time()` and `datetime.datetime.now()`. Every reading takes the next
      tick; `seconds` and `wall` say what each tick reads as. */
  class Clock {
    var ticks: nat
    const seconds: nat -> int
    const wall: nat -> DateTime

    constructor(seconds: nat -> int, wall: nat -> DateTime)
      ensures ticks == 0 && this.seconds == seconds && this.wall == wall
    {
      ticks := 0;
      this.seconds := seconds;
      this.wall := wall;
    }

    /** `time.time()`. */
    method Time() returns (t: int)
      modifies this
      ensures t == seconds(old(ticks)) && ticks == old(ticks) + 1
    {
      t := seconds(ticks);
      ticks := ticks + 1;
    }

    /** `datetime.datetime.now()`. */
    method Now() returns (d: DateTime)
      modifies this
      ensures d == wall(old(ticks)) && ticks == old(ticks) + 1
    {
      d := wall(ticks);
      ticks := ticks + 1;
    }
  }

  /** `LoadReport`: the metrics of the loads of one data source. */
  class LoadReport {
    const identifier: string
    var latestRecord: DateTime
    var numberProcessed: int
    var numberSuccesses: int
    var successful: bool
    /** Seconds; `-1` until a load finishes. */
    var timeElapsed: int

    constructor(identifier: string)
      ensures this.identifier == identifier
      ensures latestRecord == MinDate && numberProcessed == 0 && numberSuccesses == 0
      ensures !successful && timeElapsed == -1
    {
      this.identifier := identifier;
      latestRecord := MinDate;
      numberProcessed := 0;
      numberSuccesses := 0;
      successful := false;
      timeElapsed := -1;
    }
  }

  /** A data-source class a configuration node can name. Classes found in
      other modules run the base initialiser, and their `execute` either
      returns the report untouched or raises a fixed exception. */
  datatype SourceClass =
    | BaseDataSourceClass
    | LocalFileDataSourceClass
    | PluginClass(name: string, raises: Option<Failure>)

  /** `type(self).__name__`. */
  function ClassName(c: SourceClass): string {
    match c
    case BaseDataSourceClass => "BaseDataSource"
    case LocalFileDataSourceClass => "LocalFileDataSource"
    case PluginClass(name, _) => name
  }

  /** A configuration value Python finds truthy: present and non-empty. */
  predicate Present(node: ConfigNode, key: string) {
    key in node && node[key] != ""
  }

  /** The error for a required parameter the node lacks. */
  function MissingParam(key: string, node: ConfigNode): CdlsError {
    SourceConfigurationError("Required config parameter '" + key + "' is missing", Some(node))
  }

  /** `_get_config_param(key, required, default)`: the node's value for `key`,
      else `default`; a required parameter whose value is missing or empty is an
      error that carries the whole node. */
  function GetConfigParam(node: ConfigNode, key: string, required: bool, default: Option<string>): (r: Result<Option<string>, CdlsError>)
    ensures r.Err? <==> required && !(Present(node, key) || (key !in node && default.Some? && default.value != ""))
    ensures r.Err? ==> r.error == MissingParam(key, node)
    ensures r.Ok? && key in node ==> r.value == Some(node[key])
    ensures r.Ok? && key !in node ==> r.value == default
  {
    var value := if key in node then Some(node[key]) else default;
    if required && !TruthyText(value) then Err(MissingParam(key, node))
    else Ok(value)
  }

  /** The parameters a class requires, in the order its initialiser reads them. */
  function RequiredKeys(c: SourceClass): seq<string> {
    ["id", "description"] + (if c.LocalFileDataSourceClass? then ["queue_path", "archive_path"] else [])
  }

  /** What a data source keeps of its configuration. */
  datatype Variant =
    | Base
    | LocalFile(queue: string, archive: string)
    | Plugin(name: string, raises: Option<Failure>)

  datatype Settings = Settings(identifier: string, description: string, variant: Variant)

  /** Reads the required parameter `key`. */
  function Require(node: ConfigNode, key: string): (r: Result<string, CdlsError>)
    ensures r.Ok? <==> Present(node, key)
    ensures r.Ok? ==> r.value == node[key]
    ensures r.Err? ==> r.error == MissingParam(key, node)
  {
    match GetConfigParam(node, key, true, None)
    case Ok(v) => Ok(v.value)
    case Err(e) => Err(e)
  }

  /** The initialiser of a data-source class: the base class reads `id` and
      `description`, the local-file class then `queue_path` and `archive_path`. */
  function Configure(c: SourceClass, node: ConfigNode): (r: Result<Settings, CdlsError>)
    ensures var keys := RequiredKeys(c);
      r.Ok? <==> forall i :: 0 <= i < |keys| ==> Present(node, keys[i])
    ensures var keys := RequiredKeys(c);
      r.Err? ==> exists i :: 0 <= i < |keys| && !Present(node, keys[i]) && r.error == MissingParam(keys[i], node)
                               && forall j :: 0 <= j < i ==> Present(node, keys[j])
    ensures r.Ok? ==> Present(node, "id") && Present(node, "description")
                      && r.value.identifier == node["id"] && r.value.description == node["description"]
    ensures r.Ok? && c.LocalFileDataSourceClass? ==> Present(node, "queue_path") && Present(node, "archive_path")
    ensures r.Ok? ==> match c
                        case BaseDataSourceClass => r.value.variant == Base
                        case LocalFileDataSourceClass =>
                          r.value.variant == LocalFile(node["queue_path"], node["archive_path"])
                        case PluginClass(name, raises) => r.value.variant == Plugin(name, raises)
  {
    var keys := RequiredKeys(c);
    assert keys[0] == "id" && keys[1] == "description";
    assert c.LocalFileDataSourceClass? ==> keys[2] == "queue_path" && keys[3] == "archive_path";
    match Require(node, "id")
    case Err(e) => Err(e)
    case Ok(id) =>
      match Require(node, "description")
      case Err(e) => Err(e)
      case Ok(description) =>
        match c
        case BaseDataSourceClass => Ok(Settings(id, description, Base))
        case PluginClass(name, raises) => Ok(Settings(id, description, Plugin(name, raises)))
        case LocalFileDataSourceClass =>
          match Require(node, "queue_path")
          case Err(e) => Err(e)
          case Ok(queue) =>
            match Require(node, "archive_path")
            case Err(e) => Err(e)
            case Ok(archive) => Ok(Settings(id, description, LocalFile(queue, archive)))
  }

  /** The `FakeData` record the local-file source saves on iteration `i`. */
  function FakeRecord(i: int, createdOn: DateTime): PyValue {
    PyObject("FakeData", [("id", PyInt(i)), ("title", PyStr("lorem ipsum")),
                          ("payload", PyStr("this is some fake data")), ("created_on", PyDateTime(createdOn))])
  }

  /** The document a fake record is warehoused as: the class name, then the
      record's attributes in key order, its date written as text. */
  function FakeDocument(i: int, createdOn: DateTime): Json {
    JObject([("$class", JString("FakeData")),
             ("$contents", JObject([("created_on", JString(DateToString(createdOn))), ("id", JInt(i)),
                                    ("payload", JString("this is some fake data")),
                                    ("title", JString("lorem ipsum"))]))])
  }

  /** Four pairs whose keys compare as a fake record's do: the last key is the
      least, the third comes before the second, and the first between them. */
  lemma SortFour<V>(a: (string, V), b: (string, V), c: (string, V), d: (string, V))
    requires StrLt(d.0, a.0) && StrLt(d.0, b.0) && StrLt(d.0, c.0) && StrLt(c.0, b.0) && !StrLt(c.0, a.0)
    ensures SortByKey([a, b, c, d]) == [d, a, c, b]
  {
    Shapes(a, b, c, d);
    SortStep(d, []);
    InsertInFront(d, []);
    SortStep(c, [d]);
    InsertPast(c, d, []);
    InsertInFront(c, []);
    SortStep(b, [c, d]);
    InsertPast(b, d, [c]);
    InsertPast(b, c, []);
    InsertInFront(b, []);
    SortStep(a, [b, c, d]);
    InsertPast(a, d, [c, b]);
    InsertInFront(a, [c, b]);
  }

  /** The ways of writing the four-element sequences `SortFour` goes through. */
  lemma Shapes<T>(a: T, b: T, c: T, d: T)
    ensures [d] + [] == [d] && [c] + [] == [c] && [b] + [] == [b]
    ensures [c] + [d] == [c, d] && [d] + [c] == [d, c] && [b] + [c, d] == [b, c, d]
    ensures [c] + [b] == [c, b] && [d] + [c, b] == [d, c, b] && [a] + [b, c, d] == [a, b, c, d]
    ensures [d] + ([a] + [c, b]) == [d, a, c, b]
  {
  }

  /** The attribute names of a fake record in the order `sort_keys` puts them. */
  lemma FakeKeyOrder()
    ensures StrLt("created_on", "id") && StrLt("created_on", "title") && StrLt("created_on", "payload")
    ensures StrLt("payload", "title") && !StrLt("payload", "id")
  {
  }

  /** An object of four members whose keys compare as a fake record's do. */
  lemma ObjectOfFour(a: (string, Result<Json, BuiltinKind>), b: (string, Result<Json, BuiltinKind>),
                     c: (string, Result<Json, BuiltinKind>), d: (string, Result<Json, BuiltinKind>))
    requires StrLt(d.0, a.0) && StrLt(d.0, b.0) && StrLt(d.0, c.0) && StrLt(c.0, b.0) && !StrLt(c.0, a.0)
    requires a.1.Ok? && b.1.Ok? && c.1.Ok? && d.1.Ok?
    ensures ObjectOf([a, b, c, d]) == Ok(JObject([(d.0, d.1.value), (a.0, a.1.value), (c.0, c.1.value), (b.0, b.1.value)]))
  {
    var ms := [a, b, c, d];
    assert forall i :: 0 <= i < |ms| ==> ms[i] in {a, b, c, d};
    ObjectOfOk(ms);
    SortFour(a, b, c, d);
    MembersOfFour(ObjectOf(ms).value.members, [d, a, c, b]);
  }

  /** Written members that match four sorted pairs one by one are those pairs
      with their values encoded. */
  lemma MembersOfFour(out: seq<(string, Json)>, sorted: seq<(string, Result<Json, BuiltinKind>)>)
    requires |out| == |sorted| == 4
    requires forall i :: 0 <= i < |out| ==> out[i].0 == sorted[i].0 && sorted[i].1 == Ok(out[i].1)
    ensures out == [(sorted[0].0, sorted[0].1.value), (sorted[1].0, sorted[1].1.value),
                    (sorted[2].0, sorted[2].1.value), (sorted[3].0, sorted[3].1.value)]
  {
  }

  /** A fake record, whatever its title, payload and date, is written with its
      attributes in key order. */
  lemma FakeObject(i: int, title: string, payload: string, date: PyValue, created: Json)
    requires ToJson(date) == Ok(created)
    ensures ToJson(PyObject("FakeData", [("id", PyInt(i)), ("title", PyStr(title)),
                                         ("payload", PyStr(payload)), ("created_on", date)]))
         == Ok(JObject([("created_on", created), ("id", JInt(i)),
                        ("payload", JString(payload)), ("title", JString(title))]))
  {
    var attrs := [("id", PyInt(i)), ("title", PyStr(title)), ("payload", PyStr(payload)), ("created_on", date)];
    var ms: seq<(string, Result<Json, BuiltinKind>)> :=
      [("id", Ok(JInt(i))), ("title", Ok(JString(title))), ("payload", Ok(JString(payload))), ("created_on", Ok(created))];
    assert ToJson(attrs[0].1) == Ok(JInt(i)) && ToJson(attrs[1].1) == Ok(JString(title));
    assert ToJson(attrs[2].1) == Ok(JString(payload));
    ObjectEncodes("FakeData", attrs, ms);
    FakeMembers(i, title, payload, created);
  }

  /** The encoded attributes of a fake record, put in key order. */
  lemma FakeMembers(i: int, title: string, payload: string, created: Json)
    ensures ObjectOf([("id", Ok(JInt(i))), ("title", Ok(JString(title))), ("payload", Ok(JString(payload))), ("created_on", Ok(created))])
         == Ok(JObject([("created_on", created), ("id", JInt(i)), ("payload", JString(payload)), ("title", JString(title))]))
  {
    FakeKeyOrder();
    ObjectOfFour(("id", Ok(JInt(i))), ("title", Ok(JString(title))), ("payload", Ok(JString(payload))), ("created_on", Ok(created)));
  }

  /** The encoder writes a fake record's attributes in key order, its date as text. */
  lemma FakeRecordContents(i: int, createdOn: DateTime)
    ensures ToJson(FakeRecord(i, createdOn)) == Ok(FakeDocument(i, createdOn).members[1].1)
  {
    DateTimeIsItsText(createdOn);
    FakeObject(i, "lorem ipsum", "this is some fake data", PyDateTime(createdOn), JString(DateToString(createdOn)));
  }

  /** The encoder writes a packaged fake record as `FakeDocument`. */
  lemma FakeRecordDocument(i: int, createdOn: DateTime)
    ensures ToJson(Package(FakeRecord(i, createdOn))) == Ok(FakeDocument(i, createdOn))
  {
    FakeRecordContents(i, createdOn);
    PackageShape(FakeRecord(i, createdOn));
  }

  /** A fake record is dated by its `created_on` attribute. */
  lemma FakeRecordCreatedOn(i: int, createdOn: DateTime)
    ensures Attr(FakeRecord(i, createdOn), "created_on") == Some(PyDateTime(createdOn))
  {
    var attrs := FakeRecord(i, createdOn).attrs;
    assert attrs[0].0 != "created_on" && attrs[1].0 != "created_on" && attrs[2].0 != "created_on";
    assert attrs[1..][1..][1..][0] == ("created_on", PyDateTime(createdOn));
  }

  /** The warehouse row the fake record of iteration `i` becomes, stamped with
      uuid stamp `stamp`; `FakeRowFields` says what it holds. */
  function FakeRow(i: int, stamp: nat, identifier: string, createdOn: DateTime): Row {
    FakeRowAfter(1, i, stamp, identifier, createdOn)
  }

  /** Proof device, not part of the source: the fields of `FakeRow`, built
      `steps` recursive steps down. Kept one step below `FakeRow`, the fields
      stay folded in the proofs about whole rows (the loading loop) and are
      opened only by `FakeRowFields`, which states what a fake row holds. */
  function FakeRowAfter(steps: nat, i: int, stamp: nat, identifier: string, createdOn: DateTime): Row {
    if steps == 0 then Row(Guid(stamp), Upper(Strip(identifier)), DateToString(createdOn), FakeDocument(i, createdOn))
    else FakeRowAfter(steps - 1, i, stamp, identifier, createdOn)
  }

  /** The fields of a fake row: the guid of its stamp, the normalised source
      identifier, the date as text, and the fake record's document. */
  lemma FakeRowFields(i: int, stamp: nat, identifier: string, createdOn: DateTime)
    ensures FakeRow(i, stamp, identifier, createdOn)
            == Row(Guid(stamp), Upper(Strip(identifier)), DateToString(createdOn), FakeDocument(i, createdOn))
  {
    assert FakeRowAfter(0, i, stamp, identifier, createdOn)
           == Row(Guid(stamp), Upper(Strip(identifier)), DateToString(createdOn), FakeDocument(i, createdOn));
  }

  /** The rows of the first `n` iterations of a local-file load that started
      with uuid stamp `stamp` and read the wall clock from tick `tick` on. */
  function FakeRows(n: nat, stamp: nat, identifier: string, wall: nat -> DateTime, tick: nat): (r: seq<Row>)
    ensures |r| == n
  {
    if n == 0 then [] else FakeRows(n - 1, stamp, identifier, wall, tick) + [FakeRow(n - 1, stamp + n - 1, identifier, wall(tick + n - 1))]
  }

  /** Appending the row of iteration `n` to rows that end in those of the
      first `n` iterations gives the rows that end in those of `n + 1`. */
  lemma FakeRowsNext(prefix: seq<Row>, n: nat, stamp: nat, identifier: string, wall: nat -> DateTime, tick: nat, s: nat, d: DateTime)
    requires s == stamp + n && d == wall(tick + n)
    ensures prefix + FakeRows(n, stamp, identifier, wall, tick) + [FakeRow(n, s, identifier, d)]
            == prefix + FakeRows(n + 1, stamp, identifier, wall, tick)
  {
    assert prefix + FakeRows(n, stamp, identifier, wall, tick) + [FakeRow(n, s, identifier, d)]
        == prefix + (FakeRows(n, stamp, identifier, wall, tick) + [FakeRow(n, s, identifier, d)]);
  }

  /** Value of attribute `name` of an instance, `None` when it has none. */
  function Attr(v: PyValue, name: string): (r: Option<PyValue>)
    ensures r.Some? ==> v.PyObject? && exists i :: 0 <= i < |v.attrs| && v.attrs[i] == (name, r.value)
    ensures r.None? ==> !v.PyObject? || forall i :: 0 <= i < |v.attrs| ==> v.attrs[i].0 != name
  {
    if v.PyObject? then AttrIn(v.attrs, name) else None
  }

  function AttrIn(attrs: seq<(string, PyValue)>, name: string): (r: Option<PyValue>)
    ensures r.Some? ==> exists i :: 0 <= i < |attrs| && attrs[i] == (name, r.value)
    ensures r.None? ==> forall i :: 0 <= i < |attrs| ==> attrs[i].0 != name
  {
    if attrs == [] then None
    else if attrs[0].0 == name then Some(attrs[0].1)
    else
      var r := AttrIn(attrs[1..], name);
      assert forall k :: 0 <= k < |attrs| - 1 ==> attrs[1..][k] == attrs[k + 1];
      r
  }

  /** A data source: its configuration, its load report, and the logger and
      database it has been given. */
  class DataSource {
    const config: ConfigNode
    const cls: SourceClass
    const identifier: string
    const description: string
    const variant: Variant
    const report: LoadReport
    var timeStarted: int
    var db: Store?
    var logger: Logging.Logger?

    ghost predicate Valid()
      reads this, db
    {
      report.identifier == identifier && (db != null ==> db.Valid())
    }

    /** `_DataSourceClassReference(config_node)` once the initialiser has read
        every parameter it requires. */
    constructor(cls: SourceClass, config: ConfigNode, s: Settings)
      requires Configure(cls, config) == Ok(s)
      ensures Valid() && fresh(report)
      ensures this.cls == cls && this.config == config
      ensures identifier == s.identifier && description == s.description && variant == s.variant
      ensures timeStarted == 0 && db == null && logger == null
      ensures report.latestRecord == MinDate && report.numberProcessed == 0 && report.numberSuccesses == 0
      ensures !report.successful && report.timeElapsed == -1
    {
      this.cls := cls;
      this.config := config;
      identifier := s.identifier;
      description := s.description;
      variant := s.variant;
      timeStarted := 0;
      db := null;
      logger := null;
      report := new LoadReport(s.identifier);
    }

    /** `get_type()`. */
    function GetType(): string {
      ClassName(cls)
    }

    /** Whether `self._logger` has the attribute `name`; `None` has none of
        the logging attributes. */
    predicate LoggerHas(name: string)
      reads this
    {
      logger != null && name in logger.attributes
    }

    /** `register_database(db)`. */
    method RegisterDatabase(store: Store?)
      requires (store != null ==> store.Valid()) && report.identifier == identifier
      modifies this
      ensures Valid() && db == store
      ensures timeStarted == old(timeStarted) && logger == old(logger)
    {
      db := store;
    }

    /** `register_logger(logger)`. */
    method RegisterLogger(l: Logging.Logger?)
      modifies this
      ensures logger == l
      ensures timeStarted == old(timeStarted) && db == old(db)
    {
      logger := l;
    }

    /** `_start_timer()`. */
    method StartTimer(clock: Clock)
      modifies this, clock
      ensures timeStarted == clock.seconds(old(clock.ticks)) && clock.ticks == old(clock.ticks) + 1
      ensures db == old(db) && logger == old(logger)
    {
      timeStarted := clock.Time();
    }

    /** `_increment_number_processed()`. */
    method IncrementNumberProcessed()
      modifies report
      ensures report.numberProcessed == old(report.numberProcessed) + 1
      ensures report.numberSuccesses == old(report.numberSuccesses)
      ensures report.latestRecord == old(report.latestRecord)
      ensures report.successful == old(report.successful) && report.timeElapsed == old(report.timeElapsed)
    {
      report.numberProcessed := report.numberProcessed + 1;
    }

    /** `_increment_number_successes()`. */
    method IncrementNumberSuccesses()
      modifies report
      ensures report.numberSuccesses == old(report.numberSuccesses) + 1
      ensures report.numberProcessed == old(report.numberProcessed)
      ensures report.latestRecord == old(report.latestRecord)
      ensures report.successful == old(report.successful) && report.timeElapsed == old(report.timeElapsed)
    {
      report.numberSuccesses := report.numberSuccesses + 1;
    }

    /** `_update_latest_record_date(new_date)` for a datetime argument: the
        latest record becomes `max(new_date, latest_record)`. */
    method UpdateLatestRecordDate(newDate: DateTime)
      modifies report
      ensures report.latestRecord == Later(newDate, old(report.latestRecord))
      ensures report.numberProcessed == old(report.numberProcessed)
      ensures report.numberSuccesses == old(report.numberSuccesses)
      ensures report.successful == old(report.successful) && report.timeElapsed == old(report.timeElapsed)
    {
      var previous := report.latestRecord;
      report.latestRecord := Later(newDate, previous);
    }

    /** `_finalize_report(successful)`: the report itself, with the time since
        the timer started and the verdict filled in. */
    method FinalizeReport(successful: bool, clock: Clock) returns (r: LoadReport)
      modifies report, clock
      ensures r == report
      ensures r.timeElapsed == clock.seconds(old(clock.ticks)) - timeStarted && r.successful == successful
      ensures r.numberProcessed == old(report.numberProcessed) && r.numberSuccesses == old(report.numberSuccesses)
      ensures r.latestRecord == old(report.latestRecord)
      ensures clock.ticks == old(clock.ticks) + 1
    {
      r := report;
      var now := clock.Time();
      r.timeElapsed := now - timeStarted;
      r.successful := successful;
    }

    /** `_save(data)`: warehouses the record under this source's identifier,
        dated by its `created_on` attribute. Without a database, looking up
        `warehouse` on `None` raises `AttributeError` first. */
    method Save(data: PyValue) returns (o: Outcome<Failure>)
      requires Valid()
      modifies db
      ensures Valid()
      ensures db == null ==> o == Fail(Builtin(AttributeError))
      ensures db != null && Attr(data, "created_on").None? ==> o == Fail(Builtin(AttributeError)) && unchanged(db)
      ensures var created := Attr(data, "created_on");
        db != null && created.Some? ==> WarehouseEffect(db, data, identifier, created.value, o)
    {
      if db == null {
        return Fail(Builtin(AttributeError));
      }
      var created := Attr(data, "created_on");
      if created.None? {
        return Fail(Builtin(AttributeError));
      }
      o := db.Warehouse(data, identifier, created.value);
    }

    /** One pass of the local-file loop: the record dated by the next wall-clock
        reading is saved; once it is saved the pass is logged through the
        logger's `info`, and once that is done the record is counted as
        processed and as a success. `stamp` and `createdOn` are the uuid stamp
        and the date the record received. Without a database the save raises
        `AttributeError` once the record is dated. */
    method LoadFakeRecord(i: int, clock: Clock) returns (o: Outcome<Failure>, ghost stamp: nat, ghost createdOn: DateTime)
      requires Valid()
      modifies report, clock, db
      ensures Valid()
      ensures createdOn == clock.wall(old(clock.ticks)) && clock.ticks == old(clock.ticks) + 1
      ensures db == null ==> o == Fail(Builtin(AttributeError))
      ensures db != null ==> stamp == old(db.uuidClock) && db.uuidClock == old(db.uuidClock) + 1
      ensures db != null ==>
        var (saved, tables) := InsertRow(old(db.tables), FakeRow(i, stamp, identifier, createdOn));
        && db.tables == tables
        && o == if saved.Fail? then saved else if LoggerHas("info") then Pass else Fail(Builtin(AttributeError))
      ensures o.Pass? ==> report.numberProcessed == old(report.numberProcessed) + 1
                          && report.numberSuccesses == old(report.numberSuccesses) + 1
      ensures o.Fail? ==> unchanged(report)
      ensures report.latestRecord == old(report.latestRecord)
      ensures report.successful == old(report.successful) && report.timeElapsed == old(report.timeElapsed)
    {
      stamp := if db != null then db.uuidClock else 0;
      var now := clock.Now();
      createdOn := now;
      var fake := FakeRecord(i, now);
      FakeRecordCreatedOn(i, now);
      FakeRecordDocument(i, now);
      FakeRowFields(i, stamp, identifier, now);
      o := Save(fake);
      if o.Fail? {
        return;
      }
      if !LoggerHas("info") {
        o := Fail(Builtin(AttributeError));
        return;
      }
      IncrementNumberProcessed();
      IncrementNumberSuccesses();
    }

    /** The `for i in range(2)` loop of the local-file source. With a warehouse
        table and a logger that has `info`, both records are inserted and
        counted. Without a warehouse table the first insert fails and nothing
        is inserted; without `info` the first record is inserted, but its pass
        fails before it is counted. Without a database the first save fails. */
    method LoadFakeRecords(clock: Clock) returns (o: Outcome<Failure>)
      requires Valid()
      modifies report, clock, db
      ensures Valid()
      ensures db == null ==>
                o == Fail(Builtin(AttributeError)) && unchanged(report) && clock.ticks == old(clock.ticks) + 1
      ensures db != null && old(db.tables).warehouse && LoggerHas("info") ==>
                && o == Pass
                && db.tables == old(db.tables).(rows := old(db.tables).rows
                                     + FakeRows(2, old(db.uuidClock), identifier, clock.wall, old(clock.ticks)))
                && clock.ticks == old(clock.ticks) + 2 && db.uuidClock == old(db.uuidClock) + 2
                && report.numberProcessed == old(report.numberProcessed) + 2
                && report.numberSuccesses == old(report.numberSuccesses) + 2
                && report.latestRecord == old(report.latestRecord)
                && report.successful == old(report.successful) && report.timeElapsed == old(report.timeElapsed)
      ensures db != null && old(db.tables).warehouse && !LoggerHas("info") ==>
                && o == Fail(Builtin(AttributeError))
                && db.tables == old(db.tables).(rows := old(db.tables).rows
                                     + FakeRows(1, old(db.uuidClock), identifier, clock.wall, old(clock.ticks)))
                && unchanged(report)
                && clock.ticks == old(clock.ticks) + 1 && db.uuidClock == old(db.uuidClock) + 1
      ensures db != null && !old(db.tables).warehouse ==>
                var row := FakeRow(0, old(db.uuidClock), identifier, clock.wall(old(clock.ticks)));
                && o == Fail(NoWarehouse(row))
                && db.tables == old(db.tables) && unchanged(report)
                && clock.ticks == old(clock.ticks) + 1 && db.uuidClock == old(db.uuidClock) + 1
    {
      ghost var tick := clock.ticks;
      ghost var stamp, before := if db != null then db.uuidClock else 0, if db != null then db.tables else Tables(false, false, []);
      var i := 0;
      while i < 2
        invariant 0 <= i <= 2 && (i > 0 ==> db != null && before.warehouse && LoggerHas("info"))
        invariant Valid()
        invariant clock.ticks == tick + i
        invariant db != null ==> db.uuidClock == stamp + i
        invariant db != null ==> db.tables == before.(rows := before.rows + FakeRows(i, stamp, identifier, clock.wall, tick))
        invariant report.numberProcessed == old(report.numberProcessed) + i
        invariant report.numberSuccesses == old(report.numberSuccesses) + i
        invariant report.latestRecord == old(report.latestRecord)
        invariant report.successful == old(report.successful) && report.timeElapsed == old(report.timeElapsed)
        invariant i == 0 ==> unchanged(report) && (db != null ==> db.tables == before)
      {
        ghost var s, d;
        o, s, d := LoadFakeRecord(i, clock);
        if db != null {
          FakeRowsNext(before.rows, i, stamp, identifier, clock.wall, tick, s, d);
        }
        if o.Fail? {
          return;
        }
        i := i + 1;
      }
      o := Pass;
    }

    /** `LocalFileDataSource.execute()`: starts the timer, logs a banner, loads
        two fake records and returns the finalised report. */
    method LoadLocalFiles(clock: Clock) returns (r: Result<LoadReport, Failure>)
      requires Valid()
      modifies this, report, clock, db
      ensures Valid() && db == old(db) && logger == old(logger)
      ensures LocalFileLoad(this, clock, r)
    {
      StartTimer(clock);
      if !LoggerHas("banner") {
        return Err(Builtin(AttributeError));
      }
      var o := LoadFakeRecords(clock);
      if o.Fail? {
        return Err(o.error);
      }
      var finished := FinalizeReport(true, clock);
      r := Ok(finished);
    }

    /** `execute()`, seen from a caller that needs only what `Returned` says. */
    method Load(clock: Clock) returns (r: Result<LoadReport, Failure>)
      requires Valid()
      modifies this, report, clock, db
      ensures Valid() && db == old(db) && logger == old(logger)
      ensures Returned(this, r)
    {
      r := Execute(clock);
    }

    /** `execute()`. The base class raises; a class from another module does
        what it was given; the local-file source loads its fake records. */
    method Execute(clock: Clock) returns (r: Result<LoadReport, Failure>)
      requires Valid()
      modifies this, report, clock, db
      ensures Valid() && db == old(db) && logger == old(logger)
      ensures variant.Base? ==>
                r == Err(Cdls(BaseError("Not yet implemented")))
                && unchanged(this, report, clock) && (db != null ==> unchanged(db))
      ensures variant.Plugin? ==>
                r == (if variant.raises.Some? then Err(variant.raises.value) else Ok(report))
                && unchanged(this, report, clock) && (db != null ==> unchanged(db))
      ensures variant.LocalFile? ==> LocalFileLoad(this, clock, r)
      ensures Ran(this, r)
    {
      match variant
      case Base =>
        r := Err(Cdls(BaseError("Not yet implemented")));
      case Plugin(_, raises) =>
        r := if raises.Some? then Err(raises.value) else Ok(report);
      case LocalFile(_, _) =>
        r := LoadLocalFiles(clock);
    }
  }

  /** What `LocalFileDataSource.execute()` does to its source, the clock and
      the database, and what it returns. The timer reads the first tick. A
      logger without `banner` (or no logger) fails with `AttributeError` at
      once; a source without a database fails with `AttributeError` when it
      saves the first record, dated by the second tick. Otherwise the records are dated by
      the next two ticks and the report is finalised by the fourth; a missing
      warehouse table fails the first insert, and a logger without `info`
      fails the first pass after its record is inserted. No failure touches
      the report. */
  twostate predicate LocalFileLoad(ds: DataSource, clock: Clock, new r: Result<LoadReport, Failure>)
    reads ds, ds.report, clock, ds.db
  {
    var t := old(clock.ticks);
    && ds.db == old(ds.db)
    && ds.timeStarted == clock.seconds(t)
    && (!ds.LoggerHas("banner") ==>
          r == Err(Builtin(AttributeError)) && unchanged(ds.report) && clock.ticks == t + 1
          && (ds.db != null ==> unchanged(ds.db)))
    && (ds.LoggerHas("banner") && old(ds.db) == null ==>
          r == Err(Builtin(AttributeError)) && unchanged(ds.report) && clock.ticks == t + 2)
    && (ds.LoggerHas("banner") && old(ds.db) != null ==>
          var db := ds.db;
          var before := old(ds.db.tables);
          var stamp := old(ds.db.uuidClock);
          && (before.warehouse && ds.LoggerHas("info") ==>
                && r == Ok(ds.report)
                && ds.report.numberProcessed == old(ds.report.numberProcessed) + 2
                && ds.report.numberSuccesses == old(ds.report.numberSuccesses) + 2
                && ds.report.successful && ds.report.latestRecord == old(ds.report.latestRecord)
                && ds.report.timeElapsed == clock.seconds(t + 3) - clock.seconds(t)
                && db.tables == before.(rows := before.rows + FakeRows(2, stamp, ds.identifier, clock.wall, t + 1))
                && db.uuidClock == stamp + 2 && clock.ticks == t + 4)
          && (before.warehouse && !ds.LoggerHas("info") ==>
                && r == Err(Builtin(AttributeError)) && unchanged(ds.report)
                && db.tables == before.(rows := before.rows + FakeRows(1, stamp, ds.identifier, clock.wall, t + 1))
                && db.uuidClock == stamp + 1 && clock.ticks == t + 2)
          && (!before.warehouse ==>
                && r == Err(NoWarehouse(FakeRow(0, stamp, ds.identifier, clock.wall(t + 1))))
                && unchanged(ds.report) && db.tables == before
                && db.uuidClock == stamp + 1 && clock.ticks == t + 2))
  }

  /** What `execute()` of a source can return, whatever the clock and the
      database held: a returned report is the source's own; the base class
      raises its fixed error, a class of another module returns the report or
      raises what it was given, and the local-file source raises only an
      `AttributeError` or a `DatabaseError`. */
  predicate Returned(ds: DataSource, r: Result<LoadReport, Failure>) {
    && (r.Ok? ==> r.value == ds.report)
    && match ds.variant
       case Base => r == Err(Cdls(BaseError("Not yet implemented")))
       case Plugin(_, raises) => r == (if raises.Some? then Err(raises.value) else Ok(ds.report))
       case LocalFile(_, _) =>
         r.Err? ==> r.error == Builtin(AttributeError) || (r.error.Cdls? && r.error.error.DatabaseError?)
  }

  /** What one `execute()` returns and does to the source's report, whatever
      the clock and the database held: a returned report is the source's own;
      the base class and the classes of other modules leave it alone; the
      local-file source either counts two more records and marks the load
      successful, or fails with an `AttributeError` or a `DatabaseError` and
      leaves the report as it was. */
  twostate predicate Ran(ds: DataSource, new r: Result<LoadReport, Failure>)
    reads ds, ds.report
  {
    && (r.Ok? ==> r.value == ds.report)
    && match ds.variant
       case Base => r == Err(Cdls(BaseError("Not yet implemented"))) && unchanged(ds.report)
       case Plugin(_, raises) =>
         r == (if raises.Some? then Err(raises.value) else Ok(ds.report)) && unchanged(ds.report)
       case LocalFile(_, _) =>
         && (r.Err? ==> unchanged(ds.report)
                        && (r.error == Builtin(AttributeError) || (r.error.Cdls? && r.error.error.DatabaseError?)))
         && (r.Ok? ==> ds.report.numberProcessed == old(ds.report.numberProcessed) + 2
                       && ds.report.numberSuccesses == old(ds.report.numberSuccesses) + 2
                       && ds.report.successful)
  }
}
