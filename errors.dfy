/** The exceptions of cdls/errors.py, their messages and their `details()`
    renderings, plus the built-in Python exceptions the core lets escape. */
module Errors {
  import opened Outcomes
  import opened Text
  import opened Documents

  /** A decoded source configuration node: string keys to string values. */
  type ConfigNode = map<string, string>

  /** Built-in Python exceptions that escape the core unconverted. */
  datatype BuiltinKind =
    | ValueError          // unpacking a `rsplit` that found no '.', or `import_module("")`
    | TypeError           // `issubclass` of a non-class, or a relative module name
    | AttributeError      // `o.__dict__` of an object that has none, `strftime` of a non-date
    | AssertionError      // the `issubclass` assertion failing
    | UnboundLocalError   // the reference to `e` in `_get_qualified_class_ref`
    | SystemExit          // `exit(1)` when the logger lacks a logging method

  /** A bound SQL parameter: plain text, or the JSON text of a document. */
  datatype SqlParam = SqlText(text: string) | SqlDocument(doc: Json)

  /** A parameter dict in insertion order. */
  type SqlParams = seq<(string, SqlParam)>

  /** The `CDLSError` hierarchy. */
  datatype CdlsError =
    | BaseError(message: string)
    | DatabaseError(message: string, query: Option<string>, params: Option<SqlParams>)
    | ExtractError(message: string)
    | SourceConfigurationError(message: string, node: Option<ConfigNode>)
    | UnregisteredSourceError(identifier: string)

  /** Anything `raise`d: a `CDLSError`, or a built-in exception. */
  datatype Failure = Cdls(error: CdlsError) | Builtin(kind: BuiltinKind)

  /** `str(e)`: the message given to `Exception.__init__`. */
  function Message(e: CdlsError): string {
    match e
    case BaseError(m) => m
    case DatabaseError(m, _, _) => m
    case ExtractError(m) => m
    case SourceConfigurationError(m, _) => m
    case UnregisteredSourceError(id) => "Source " + id + " is not registered"
  }

  /** The message of an unregistered-source error names the identifier between
      the fixed prefix and suffix, so the identifier can be read back from it. */
  lemma UnregisteredMessageNamesSource(id: string)
    ensures var m := Message(UnregisteredSourceError(id));
      |m| == |id| + 25 && m[..7] == "Source " && m[7..7 + |id|] == id
      && m[7 + |id|..] == " is not registered"
  {
  }

  /** `type(e).__name__`. */
  function ExceptionName(e: CdlsError): string {
    match e
    case BaseError(_) => "CDLSError"
    case DatabaseError(_, _, _) => "DatabaseError"
    case ExtractError(_) => "ExtractError"
    case SourceConfigurationError(_, _) => "SourceConfigurationError"
    case UnregisteredSourceError(_) => "UnregisteredSourceError"
  }

  /** Python truthiness of an optional string: present and non-empty. */
  predicate TruthyText(s: Option<string>) {
    s.Some? && s.value != ""
  }

  /** `"{1}".format(v)` for a parameter value; a document is rendered as its
      JSON text by `dumps`. */
  function ParamText(v: SqlParam, dumps: Json -> string): string {
    match v
    case SqlText(t) => t
    case SqlDocument(d) => dumps(d)
  }

  /** `"{0:16s} : {1}\n".format(k, v)`. */
  function ParamLine(p: (string, SqlParam), dumps: Json -> string): string {
    PadRight(p.0, 16) + " : " + ParamText(p.1, dumps) + "\n"
  }

  /** The parameter lines, one per parameter, in dict order. */
  function ParamLines(ps: SqlParams, dumps: Json -> string): string {
    if ps == [] then "" else ParamLines(ps[..|ps| - 1], dumps) + ParamLine(ps[|ps| - 1], dumps)
  }

  /** The lines of two parameter runs, one after the other, are the lines of the
      joined run: each parameter contributes exactly its own line, in order. */
  lemma {:induction false} ParamLinesAppend(a: SqlParams, b: SqlParams, dumps: Json -> string)
    ensures ParamLines(a + b, dumps) == ParamLines(a, dumps) + ParamLines(b, dumps)
    decreases |b|
  {
    if b != [] {
      var b' := b[..|b| - 1];
      assert (a + b)[..|a + b| - 1] == a + b';
      ParamLinesAppend(a, b', dumps);
    } else {
      assert a + b == a;
    }
  }

  /** The first parameter's line opens the parameter lines. */
  lemma ParamLinesFirst(ps: SqlParams, dumps: Json -> string)
    requires ps != []
    ensures ParamLines(ps, dumps) == ParamLine(ps[0], dumps) + ParamLines(ps[1..], dumps)
  {
    assert ps == [ps[0]] + ps[1..];
    ParamLinesAppend([ps[0]], ps[1..], dumps);
    assert [ps[0]][..0] == [];
  }

  /** `DatabaseError.details()`: nothing without a query; otherwise the query,
      followed by the parameters when there are any. */
  function DatabaseDetails(query: Option<string>, params: Option<SqlParams>, dumps: Json -> string): (r: Option<string>)
    ensures r.Some? <==> TruthyText(query)
    ensures r.Some? ==> |r.value| >= 11 + |query.value| && r.value[..11] == "SQL Query:\n"
                        && r.value[11..11 + |query.value|] == query.value
    ensures r.Some? && (params.None? || params.value == []) ==> r.value == "SQL Query:\n" + query.value
    ensures r.Some? && params.Some? && params.value != [] ==>
              r.value[11 + |query.value|..] == "Parameters:\n" + ParamLines(params.value, dumps)
  {
    if !TruthyText(query) then None
    else
      var head := "SQL Query:\n" + query.value;
      assert |head| == 11 + |query.value| && head[..11] == "SQL Query:\n" && head[11..] == query.value;
      if params.Some? && params.value != [] then
        var r := head + "Parameters:\n" + ParamLines(params.value, dumps);
        assert r[..|head|] == head && r[|head|..] == "Parameters:\n" + ParamLines(params.value, dumps);
        Some(r)
      else Some(head)
  }

  /** `DatabaseError.details()` as the source computes it, appending to
      `output` one parameter at a time. */
  method DatabaseErrorDetails(query: Option<string>, params: Option<SqlParams>, dumps: Json -> string)
    returns (r: Option<string>)
    ensures r == DatabaseDetails(query, params, dumps)
  {
    var output := "";
    if TruthyText(query) {
      output := output + "SQL Query:\n" + query.value;
      assert output == "SQL Query:\n" + query.value;
      if params.Some? && params.value != [] {
        output := output + "Parameters:\n";
        var ps := params.value;
        var i := 0;
        while i < |ps|
          invariant 0 <= i <= |ps|
          invariant output == "SQL Query:\n" + query.value + "Parameters:\n" + ParamLines(ps[..i], dumps)
        {
          assert ps[..i + 1][..i] == ps[..i];
          output := output + ParamLine(ps[i], dumps);
          i := i + 1;
        }
        assert ps[..i] == ps;
      }
      return Some(output);
    }
    return None;
  }

  /** Python truthiness of an optional node: present and non-empty. */
  predicate TruthyNode(node: Option<ConfigNode>) {
    node.Some? && |node.value| > 0
  }

  /** `e.details()`. `pformat` stands for `pprint.pformat`; `dumps` for the
      JSON text of a document parameter. */
  function Details(e: CdlsError, dumps: Json -> string, pformat: ConfigNode -> string): (r: Option<string>)
    ensures (e.BaseError? || e.ExtractError? || e.UnregisteredSourceError?) ==> r.None?
    ensures e.DatabaseError? ==> (r.Some? <==> TruthyText(e.query))
    ensures e.SourceConfigurationError? ==>
              (r.Some? <==> TruthyNode(e.node))
              && (r.Some? ==> r.value == "Config Node:\n" + pformat(e.node.value))
  {
    match e
    case DatabaseError(_, q, ps) => DatabaseDetails(q, ps, dumps)
    case SourceConfigurationError(_, node) =>
      if TruthyNode(node) then Some("Config Node:\n" + pformat(node.value)) else None
    case _ => None
  }
}
