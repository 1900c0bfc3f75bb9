# cdls in Dafny

A model of the Cloudy Data Load Subsystem (`cdls`), a small Python package.
It keeps a registry of data sources and runs their loads. It records load
metrics in a per-source load report and warehouses every record into SQLite
as a JSON document. Its failures are raised as a small family of `CDLSError`
exceptions, and it logs through banner and log-entry formatters.

The model follows the package file by file:

- `registry.dfy`: the module globals of `cdls/__init__.py`.
  - Class `Registry.Registry` holds the logger, the database and the registry
    of data sources. The registry is a `map` plus the identifiers in dict
    insertion order.
  - Its methods are the registration, listing and load operations.
  - Registration from configuration nodes is modelled too. It resolves a
    `@QualifiedClassName` against an abstract table of importable modules,
    the way the code is written: a class missing from its module raises
    `UnboundLocalError` (see "Findings"), which ends registration unlogged.
- `datasources.dfy`:
  - `BaseDataSource` and `LocalFileDataSource` are one class,
    `DataSources.DataSource`. Classes from other modules are a third
    variant, whose behaviour is fixed by the module table.
  - `LoadReport` is a class.
  - `Clock` stands for `time.time()` and `datetime.now()`.
  - The config lookup is a function over the config node.
- `db.dfy`: `cdls/db.py`.
  - Class `Db.Store` holds the two tables, the lazily opened connection and a
    counter that stands for `uuid1`.
  - `Db.Run` gives SQLite's effect of each statement the package sends.
- `serialize.dfy`: `json.dumps(..., default=_tojson, sort_keys=True)` over a
  model of Python values (`Documents.PyValue`). It produces a structured
  JSON value, or the exception the encoder raises.
- `dates.dfy`: naive datetimes, their order, `max`, and
  `strftime("%Y-%m-%d %H:%M:%S.%f")` with a parser that reads it back.
- `errors.dfy`: the error kinds of `cdls/errors.py`, their messages and
  their `details()`.
- `logging.dfy`: the line layout of `banner`, the context, tag and level
  composition of `_log_entry`, and the message of `exception`.
- `text.dfy`, `sorting.dfy`, `outcomes.dfy`, `documents.dfy`: the Python
  string operations the package relies on, the key sort that `sorted` and
  `sort_keys` perform, result types, and Python values.

Exceptions are values:

- a `Failure` is either a `CDLSError` (`Cdls`) or a built-in exception
  (`Builtin`), such as the `AttributeError` of a missing logger;
- operations return `Result`/`Outcome` values instead of raising.

`exit(1)` in `register_logger` is the failure `Builtin(SystemExit)`.

`perform_all_loads` iterates the registry in insertion order. An identifier
registered again keeps its original position and its new data source. The
model keeps that order in `keys`.

## Model

| member | source | states |
|---|---|---|
| Errors.UnregisteredMessageNamesSource | cdls/errors.py:91-92 | the message of `UnregisteredSourceError(id)` is exactly `Source `, the identifier, ` is not registered` |
| Errors.Details | cdls/errors.py:17-80 | base, extract and unregistered errors have no details; a `DatabaseError` has details exactly when its query is truthy; a `SourceConfigurationError` has details exactly when its node is truthy, and they are `Config Node:\n` followed by the node's pretty-printed form |
| Errors.DatabaseDetails | cdls/errors.py:37-47 | details exist exactly when the query is truthy; they start with `SQL Query:\n` and the query; without parameters that is all; with parameters, `Parameters:\n` and the parameter lines follow the query directly |
| Errors.DatabaseErrorDetails | cdls/errors.py:37-47 | the loop that appends one line per parameter computes exactly `DatabaseDetails` |
| Errors.ParamLinesAppend | cdls/errors.py:44-45 | each parameter contributes its own `key : value` line, in dict order: the lines of two runs of parameters are the lines of the first run followed by those of the second |
| Errors.ParamLinesFirst | cdls/errors.py:44-45 | the parameter text opens with the first parameter's line |
| Text.Strip | cdls/__init__.py:115 | `strip()` never lengthens a string, leaves no whitespace at either end, and leaves an already stripped string as it is |
| Text.StripIsTrim | cdls/__init__.py:115 | the stripped string is the part of the string that follows its leading whitespace, and only whitespace follows it in the string |
| Text.StripIsOnlyTrim | cdls/__init__.py:115 | any slice with whitespace only outside it and none at its own ends is the stripped string, so `strip()` removes exactly the surrounding whitespace |
| Text.StripIdempotent | cdls/__init__.py:115 | stripping twice is stripping once |
| Text.Upper | cdls/db.py:102 | `upper()` maps every character in place and keeps the length |
| Text.UpperIsUpper | cdls/db.py:102 | no lower-case ASCII letter survives `upper()`, and `upper()` is idempotent |
| Text.Words | cdls/logging.py:58 | `split()` yields only non-empty, whitespace-free words |
| Text.WordsJoin | cdls/logging.py:58-60 | splitting words joined by single spaces gives back the same words |
| Text.Repeat | cdls/logging.py:45-46 | `c * n` has `max(n, 0)` copies of `c` |
| Text.PadRight | cdls/errors.py:45 | `{0:16s}` keeps the text at the front and fills with spaces up to the width |
| Text.PadLeft | cdls/config.py:3 | `{level:>5}` keeps the text at the end and fills in front with spaces up to the width |
| Text.Center | cdls/logging.py:47 | `{:^w}` puts the text at offset `(w - len) / 2` with spaces on both sides, and never cuts it |
| Text.StrLtTotal | cdls/__init__.py:64 | Python's string order compares any two distinct strings |
| Text.StrLtTransitive | cdls/__init__.py:64 | the string order is transitive |
| Text.StrLtIrreflexive | cdls/__init__.py:64 | no string is below itself |
| Text.ZeroPad | cdls/db.py:119 | a zero-padded field has exactly its width, all digits |
| Text.ParseZeroPad | cdls/db.py:119 | a zero-padded field reads back as its number |
| Text.UpperHexInjective | cdls/db.py:100 | different counter values give different upper-cased hex texts |
| Sorting.SortByKey | cdls/__init__.py:64 | sorting by key is a permutation of its input |
| Sorting.SortIsSorted | cdls/__init__.py:64 | the result is in ascending key order |
| Sorting.SortKeepsDistinct | cdls/__init__.py:64 | distinct keys stay distinct |
| Sorting.SortSortedIsIdentity | cdls/__init__.py:64 | an already sorted sequence is left as it is |
| Sorting.SortedDistinctIsStrict | cdls/__init__.py:64 | sorted and distinct means strictly ascending |
| Dates.BeforeTotal | cdls/datasources.py:220 | datetimes are totally, strictly ordered |
| Dates.BeforeTransitive | cdls/datasources.py:220 | the datetime order is transitive |
| Dates.MinDateIsLeast | cdls/datasources.py:296 | `datetime.min` is no later than any datetime |
| Dates.Later | cdls/datasources.py:220 | `max(new_date, previous_date)` is one of the two and no earlier than either |
| Dates.LatestAfterIsMaximum | cdls/datasources.py:219-220 | after any run of updates, the latest record date is no earlier than the initial date or any supplied date, and is one of them |
| Dates.LatestAfterOrderIndependent | cdls/datasources.py:219-220 | the result of a run of updates does not depend on their order |
| Dates.DateTextFields | cdls/db.py:116-119 | `%Y-%m-%d %H:%M:%S.%f` is 26 characters, with each field zero-padded at its fixed position |
| Dates.ParseDateText | cdls/db.py:119 | only a text in that layout parses |
| Dates.DateTextRoundTrip | cdls/db.py:116-119 | the formatted date parses back to the same datetime |
| Dates.DateToStringInjective | cdls/db.py:116-119 | different datetimes never share a text |
| Serialize.Collect | cdls/db.py:93 | a sequence encodes exactly when every element does, in order; otherwise the first error is raised |
| Serialize.ObjectOfErr | cdls/db.py:93 | an object fails to encode exactly when one of its members does |
| Serialize.ToJsonFailsIffNotSerializable | cdls/db.py:144-154 | encoding fails exactly when the value holds, at any depth, an instance without `__dict__` or a dict key of a type `json` cannot write (in the model, any key that is not a string) |
| Serialize.ToJsonCanonical | cdls/db.py:93 | with `sort_keys`, every object written from well-formed data has strictly ascending keys |
| Serialize.ToJsonFromJson | cdls/db.py:93 | every such document is the encoding of a Python value |
| Serialize.ObjectIsItsDict | cdls/db.py:153-154 | an instance is written exactly as its `__dict__` would be |
| Serialize.DateTimeIsItsText | cdls/db.py:151-152 | a nested datetime is written as its `_date_to_string` text, which reads back to the datetime |
| Serialize.PackageShape | cdls/db.py:85-94 | the package is `{"$class": type name, "$contents": data}`, written `$class` first; it fails exactly when the data does, with the same error |
| Db.QueryIsStripped | cdls/db.py:134 | the text `_execute_query` runs is the stripped form of each statement |
| Db.Run | cdls/db.py:13-36 | a drop needs its table and a create needs it absent; an insert needs the warehouse and appends exactly its row; a failure changes nothing |
| Db.InsertRowRuns | cdls/db.py:134-141 | an insert that SQLite refuses becomes a `DatabaseError` carrying the stripped query and the params |
| Db.GuidInjective | cdls/db.py:100 | distinct clock values give distinct guids |
| Db.StampedAppend | cdls/db.py:100 | a row stamped with the next clock value keeps all guids distinct |
| Db.Store.Connect | cdls/db.py:108-113 | the database file is opened on the first call only: the open count rises by one when no connection exists and stays put otherwise; the tables and the clock are untouched |
| Db.Store.Install | cdls/db.py:41-59 | from any state, `install` succeeds and leaves both tables present, the warehouse empty, and the file opened exactly once |
| Db.Store.ExecuteQuery | cdls/db.py:122-141 | runs the statement; an `OperationalError` becomes a `DatabaseError` carrying the query and params; the clock is untouched |
| Db.Store.Warehouse | cdls/db.py:62-105 | a `TypeError` while serialising becomes a `DatabaseError` and changes nothing; otherwise one new guid is used, and exactly one row is appended (stripped, upper-cased source; formatted date; packaged document) or the insert's error is raised |
| Db.WarehousedRowReadsBack | cdls/db.py:97-105 | a stored row reads back: its date parses to the record date and its document holds the data's class and contents |
| DataSources.Clock.Time | cdls/datasources.py:203 | `time.time()` reads the current tick and advances the clock |
| DataSources.LoadReport.constructor | cdls/datasources.py:294-300 | a new report has the source's identifier, `datetime.min`, zero counters, `successful` false and `time_elapsed` -1 |
| DataSources.GetConfigParam | cdls/datasources.py:113-135 | returns `config.get(key, default)`; raises a `SourceConfigurationError` naming the key and carrying the node exactly when the parameter is required and that value is falsy |
| DataSources.Require | cdls/datasources.py:38-39 | a required parameter succeeds exactly when present and non-empty |
| DataSources.Configure | cdls/datasources.py:236-239 | construction succeeds exactly when every required key (`id`, `description`, plus `queue_path` and `archive_path` for local files) is present; otherwise it fails on the first missing one |
| DataSources.DataSource.constructor | cdls/datasources.py:33-46 | keeps the node and settings, no database or logger, and a fresh report for the source |
| DataSources.DataSource.RegisterDatabase | cdls/datasources.py:73-80 | sets the database and nothing else |
| DataSources.DataSource.RegisterLogger | cdls/datasources.py:83-90 | sets the logger and nothing else |
| DataSources.DataSource.StartTimer | cdls/datasources.py:201-203 | records the current time as the start |
| DataSources.DataSource.IncrementNumberProcessed | cdls/datasources.py:138-140 | adds exactly one to the processed count and changes nothing else in the report |
| DataSources.DataSource.IncrementNumberSuccesses | cdls/datasources.py:143-145 | adds exactly one to the success count and changes nothing else in the report |
| DataSources.DataSource.UpdateLatestRecordDate | cdls/datasources.py:206-220 | the latest record date becomes the later of the two; nothing else changes |
| DataSources.DataSource.FinalizeReport | cdls/datasources.py:93-110 | returns the very report the source holds, with the flag set and the elapsed time since the start; the counters and date are unchanged |
| DataSources.DataSource.Save | cdls/datasources.py:188-198 | without a database, looking up `warehouse` raises `AttributeError`; data without `created_on` fails with `AttributeError` and touches nothing; otherwise it is warehoused under the source's identifier and its `created_on` |
| DataSources.Attr | cdls/datasources.py:198 | an attribute that is found belongs to the instance, and an attribute that is not found is not among the instance's attributes |
| DataSources.FakeRecordDocument | cdls/datasources.py:253-265 | a fake record is warehoused as the packaged `FakeData` document with its four attributes in key order |
| DataSources.FakeRecordCreatedOn | cdls/datasources.py:265 | a fake record's `created_on` is the time it was made |
| DataSources.FakeRowFields | cdls/datasources.py:260-268 | the row a fake record becomes: guid, stripped upper-cased identifier, formatted date, document |
| DataSources.DataSource.LoadFakeRecord | cdls/datasources.py:260-271 | one iteration: the record is dated by one clock reading and saved, then both counters increase by one; without a database the save raises `AttributeError`; a failed save or log leaves the report as it was |
| DataSources.DataSource.LoadFakeRecords | cdls/datasources.py:260-271 | the loop saves two rows and counts two processed and two successes, or stops at the first failure with the rows written so far; without a database the first save raises `AttributeError` after one clock reading |
| DataSources.DataSource.LoadLocalFiles | cdls/datasources.py:241-276 | `LocalFileDataSource.execute`: the timer starts, two records are warehoused and counted, the report is finalised as successful; a logger without `banner` fails at the banner, and a source without a database fails at the first save after a second clock reading; any failure leaves the report alone |
| DataSources.DataSource.Execute | cdls/datasources.py:53-55 | the base class raises `CDLSError("Not yet implemented")` and changes nothing; local files load as above; a returned report is the source's own, so repeated runs accumulate into it |
| DataSources.DataSource.Load | cdls/__init__.py:86 | what any `execute()` returns: the source's own report, or one of the errors its class can raise |
| Registry.RSplitDot | cdls/__init__.py:204 | `rsplit(".", 1)` fails exactly when there is no dot; otherwise module + `.` + class is the original and the class part has no dot |
| Registry.RSplitDotOfJoin | cdls/__init__.py:204 | a module name and a dot-free class name split back into themselves |
| Registry.ImportModule | cdls/__init__.py:207 | an empty or relative name raises; otherwise the module table decides |
| Registry.LocateClass | cdls/__init__.py:203-217 | a missing key raises `SourceConfigurationError` with the node; a name without a dot raises `ValueError`; an import failure raises `SourceConfigurationError` with the node |
| Registry.ResolveClassAsWritten | cdls/__init__.py:190-217 | as written: a module without the class raises `UnboundLocalError` (line 213 uses an unbound `e`) |
| Registry.ResolveClass | cdls/__init__.py:190-217 | as intended: a module without the class raises `SourceConfigurationError`; a result is the class the module holds under that name |
| Registry.ResolveClassReadings | cdls/__init__.py:210-213 | the two readings differ exactly when the module lacks the class |
| Registry.MissingClassIsUnboundLocal | cdls/__init__.py:213 | a concrete node on which line 213 raises `UnboundLocalError` instead of `SourceConfigurationError` |
| Registry.Admit | cdls/__init__.py:262-266 | resolution as written: a non-class raises `TypeError`; a class that is not a data source fails the assert with `AssertionError`; a module without the class raises `UnboundLocalError`; resolution and construction errors pass through |
| Registry.MissingClassEscapesRegistration | cdls/__init__.py:211-213 | a node naming a class its module lacks raises `UnboundLocalError`, which the handler of line 269 does not catch, so it escapes registration unlogged |
| Registry.Reraised | cdls/__init__.py:269-271 | the error is re-raised unchanged, unless logging it hits a missing logger |
| Registry.Admissions | cdls/__init__.py:260-271 | without a failure (including the `UnboundLocalError` of a missing class) every node is admitted |
| Registry.AdmissionsElems | cdls/__init__.py:260-271 | nodes are admitted in order up to the first failure, which is the first node that fails |
| Registry.AdmissionsStop | cdls/__init__.py:260-271 | nothing after the first failure is looked at |
| Registry.IndexedStore | cdls/__init__.py:162 | storing under an identifier keeps the key order consistent: a new key goes last and a known key keeps its place |
| Registry.StoredKeys | cdls/__init__.py:162 | after a run of registrations, the keys are distinct, cover exactly the old and new identifiers, and keep the old ones first |
| Registry.StoredLast | cdls/__init__.py:162 | last write wins: an identifier maps to a source stored under it no earlier than any other |
| Registry.SuccessesCount | cdls/__init__.py:84-98 | the reports collected are the outcomes that succeeded: as many as the sources minus the failures |
| Registry.SuccessesOfAllOk | cdls/__init__.py:84-98 | when nothing fails, every outcome's report is collected, in order |
| Registry.UnstrippedKeyUnreachable | cdls/__init__.py:115-119 | a source registered under an identifier with surrounding whitespace can never be looked up by `perform_load` |
| Registry.Listing | cdls/__init__.py:61-62 | one `(identifier, type, description)` triple per entry |
| Registry.ListingDescribes | cdls/__init__.py:61-64 | the listing has one triple per registered entry, in strictly ascending identifier order, and describes every registered source |
| Registry.Registry.constructor | cdls/__init__.py:25-27 | an empty registry with no logger and no database |
| Registry.Registry.RegisterLogger | cdls/__init__.py:168-187 | a logger with `info`, `error`, `warn` and `exception` is installed; otherwise the program exits and nothing changes |
| Registry.Registry.RegisterDatabase | cdls/__init__.py:131-146 | sets the shared database and nothing else |
| Registry.Registry.RegisterDatasource | cdls/__init__.py:149-165 | gives the source the shared logger and database, stores it under its untrimmed identifier, replacing an earlier entry in place, and leaves every other entry unchanged |
| Registry.Registry.Items | cdls/__init__.py:64 | the registry's items in insertion order |
| Registry.Registry.ListRegisteredSources | cdls/__init__.py:53-64 | one triple per registered source, sorted strictly by identifier, each describing the source under that identifier |
| Registry.Registry.ListingOfItems | cdls/__init__.py:64 | sorting the items gives the listing's order |
| Registry.Registry.PerformLoad | cdls/__init__.py:101-128 | strips the identifier; an unknown one raises `UnregisteredSourceError` naming the stripped identifier; otherwise the source runs once and its report or error is returned unchanged |
| Registry.Registry.LoadAt | cdls/__init__.py:84-90 | one iteration: runs one source and leaves every other report untouched |
| Registry.Registry.PerformAllLoads | cdls/__init__.py:67-98 | with no logger it raises `AttributeError` and runs nothing; otherwise it runs the sources in insertion order, each once, stopping after the first `CDLSError` when halting; without halting it returns the successful reports in order |
| Registry.Registry.LoadAll | cdls/__init__.py:84-98 | the loop: outcomes in insertion order, no source after a halting one runs, the collected reports are the successes |
| Registry.Registry.RegisterNode | cdls/__init__.py:261-267 | one node, resolved as written: it is admitted and registered with the shared logger and database, or its failure (a missing class being `UnboundLocalError`) is raised and the registry is unchanged |
| Registry.Registry.RegisterStep | cdls/__init__.py:261-267 | one iteration of the registration loop keeps the loop's state: admitted nodes registered in order |
| Registry.Registry.RegisterAll | cdls/__init__.py:249-271 | nodes are registered in order up to the first failure, which is re-raised (a missing class as `UnboundLocalError`, unlogged); the sources registered before it stay registered |
| Registry.Registry.Initialize | cdls/__init__.py:29-50 | installs the logger (or exits), the database, then registers every configured source, resolving class names as written; an unreadable configuration raises its error |
| Logging.BannerTexts | cdls/logging.py:57-67 | the greedy loop lays out the message's words: each exactly once and in order, no line of several words wider than `width - 4`, and no first line of several words wider than `width - 5` (its buffer starts with a space), a line broken only when the next line's first word would not fit after it, an empty first line exactly when the first word is wider than `width - 5` |
| Logging.GreedyFlush | cdls/logging.py:59-63 | a line is flushed only because the word that starts the next line does not fit in the buffer |
| Logging.WrappingStep | cdls/logging.py:58-63 | one iteration of the loop, appending or flushing, keeps the layout so far and the late line breaks |
| Text.WordLengthOfJoin | cdls/logging.py:58-60 | the first word of a line made of words joined by spaces is its first word |
| Logging.AppendStep | cdls/logging.py:59-60 | a word that fits is appended to the buffer |
| Logging.FlushStep | cdls/logging.py:61-63 | a word that does not fit flushes the buffer and starts a new one |
| Logging.FinalStep | cdls/logging.py:65-67 | a non-empty buffer is flushed at the end |
| Logging.Banner | cdls/logging.py:27-71 | the body texts are the greedy layout of `BannerTexts`; the lines are border, empty line, one centred line per body text, empty line, border; with a width below 4 and a body, formatting raises `ValueError` after the top two lines |
| Logging.BannerLineWidths | cdls/logging.py:45-47 | every banner line is exactly the width wide, unless it holds a single word too long for it |
| Logging.ExplicitContextIgnoresCaller | cdls/logging.py:224 | an explicit context replaces the caller's name |
| Logging.TaggedContext | cdls/logging.py:227-229 | a truthy tag gives `tag.context`; a falsy one leaves the context alone |
| Logging.EntryMessageFields | cdls/logging.py:232 | the message reads `[context:] ` followed by the stripped message |
| Logging.TemplateFields | cdls/config.py:3 | a line is the timestamp, a space, the level right-aligned in five characters, ` - ` and the message |
| Logging.TimestampStartsWithDigit | cdls/logging.py:179-181 | a timestamp starts with a digit |
| Logging.LogLineUnstripped | cdls/logging.py:235-237 | for a non-blank message, stripping the formatted line changes nothing; the level is stripped and upper-cased in it |
| Logging.ExceptionMessage | cdls/logging.py:147-158 | the message is `str(e)`, followed by `\n\n` and the details exactly when `details()` is not None |

## Left out

- Printing and the log file (`print`, `_append_to_logfile`): I/O. The model gives the lines that would be written.
- `message.format(*args)` in `banner` and `_log_entry`: messages are taken with their arguments already substituted.
- `inspect.stack` in `_get_invoking_method_name`: the caller's name is a parameter of `Logging.Context`.
- The assembled exception report (`traceback.format_exc`, the `!!!` template): only the message with its details is modelled.
- Configuration nodes are maps from strings to strings (`Errors.ConfigNode`). JSON values of other types are not modelled: an integer `id`, or a `@QualifiedClassName` that is not a string, on which `rsplit` raises `AttributeError`.
- Dict keys (`Documents.DictKey`) are strings or keys `json` cannot write. Integer, float, boolean and `None` keys, which `json.dumps` converts to strings, are not modelled.
- `_get_source_configurations`: file and JSON parsing. `Registry.Registry.Initialize` receives the decoded nodes, or the error reading them raised.
- `importlib.import_module` and `getattr`: an abstract table from module name to its attributes. Classes outside `cdls.datasources` have a fixed behaviour: they return their report untouched or raise a given failure.
- `time.time()`, `datetime.now()` and `time.sleep`: a `Clock` whose ticks are functions given at construction; sleeping is not modelled.
- `uuid1`: the store's counter, issued in upper-case hex, stands in for the clock-derived guid.
- SQLite: a table store (`Db.Tables`) that refuses to drop a missing table, create an existing one, or insert without the warehouse. Failures other than `OperationalError` are not modelled.
- The `with _connect() as connection` transaction and commit: a single-writer model, so commits are not visible.
- The JSON text (`indent=4`, escaping, and `strip()` of the result): documents are structured values; `dumps` and `pprint.pformat` are function parameters where text is needed.
- `%Y` is modelled as four digits; how `strftime` pads years below 1000 depends on the platform.
- `upper()` maps only the ASCII letters `a`-`z`; Unicode case mapping is not modelled.
- `_string_to_date` and the string branch of `_update_latest_record_date`: they depend on `strptime`, `mktime` and the host timezone. Dates are already parsed.
- `LoadReport.__str__` and the logging loop at the end of `perform_all_loads`: float formatting of the elapsed time.
- `_log` and `_logbanner` are modelled only as the attribute lookups on the logger that can fail (`DataSources.DataSource.LoggerHas`); the text they log is not.
- `execute_load.py` and `cdls/config.py`: command-line handling and constants. `LOGGING_FORMAT` is used by `Logging.Template`.
- Registry.Registry.PerformAllLoads: states for every source run the result `Returned` describes (its own report, or the errors its class can raise), not the counter effects of each run; `Registry.Registry.PerformLoad` states those through `Ran` and `LocalFileLoad`.
- Registry.Registry.LoadAll: same as `PerformAllLoads`.
- Registry.Registry.LoadAt: same as `PerformAllLoads`.
- Registry.Registry.RegisterAll: states each registered source's class and settings (`Builts`) and shared logger and database, not the config node it keeps; `Registry.Registry.RegisterNode` states the node.
- Registry.Registry.RegisterDatabase: the `DatabaseError` handler around a plain assignment can never run and is not modelled.
- DataSources.DataSource.LoadLocalFiles: `time.sleep(0.125)` and the banner and log text are not modelled.

## Findings

| source | as written | input that shows it | evidently intended | confidence | as-written member | corrected member |
|---|---|---|---|---|---|---|
| cdls/__init__.py:213 | the `AttributeError` handler raises `SourceConfigurationError(str(e))`, but `e` is bound only by the later `except ImportError as e`, so it raises `UnboundLocalError`, which `_register_all_datasources` does not catch | `{"@QualifiedClassName": "cdls.datasources.Missing"}` with a `cdls.datasources` module that has no `Missing` (`Registry.MissingClassIsUnboundLocal`) | a `SourceConfigurationError` with the `AttributeError`'s message | not executed | Registry.ResolveClassAsWritten | Registry.ResolveClass |
