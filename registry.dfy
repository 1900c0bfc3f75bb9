/** cdls/__init__.py: the registry of data sources the package keeps in its
    module globals, the logger and database it hands to every source, the
    registration of sources from configuration nodes, and the load entry
    points. */
module Registry {
  import opened Outcomes
  import opened Text
  import opened Errors
  import opened Sorting
  import opened Db
  import opened DataSources
  import Logging

  /** The configuration key naming a source's class. */
  const ClassKey := "@QualifiedClassName"

  /** What `getattr(module, name)` finds in a module. */
  datatype Attribute =
    | SourceClassAttr(cls: SourceClass)   // a subclass of `BaseDataSource`
    | OtherClass(name: string)             // a class that is not one
    | NotAClass                            // a function, a constant, a submodule

  /** A module as `importlib.import_module` sees it: its attributes, or the
      message of the `ImportError` importing it raises. */
  datatype Module = Loaded(attrs: map<string, Attribute>) | Unimportable(message: string)

  /** The modules that can be asked for, by absolute name. */
  type ModuleTable = string -> Module

  /** `s.rsplit(".", 1)` unpacked into two names: the text before the last
      dot and the text after it; `None` when there is no dot and the unpacking
      fails. */
  function RSplitDot(s: string): (r: Option<(string, string)>)
    ensures r.None? <==> '.' !in s
    ensures r.Some? ==> r.value.0 + "." + r.value.1 == s && '.' !in r.value.1
  {
    if s == [] then None
    else
      var init, last := s[..|s| - 1], s[|s| - 1];
      assert s == init + [last];
      if last == '.' then Some((init, ""))
      else match RSplitDot(init)
        case None => None
        case Some(split) =>
          assert split.0 + "." + (split.1 + [last]) == split.0 + "." + split.1 + [last];
          Some((split.0, split.1 + [last]))
  }

  /** Splitting a module name, a dot and a name without dots gives back the
      module name and the name: the split is at the last dot. */
  lemma {:induction false} RSplitDotOfJoin(m: string, c: string)
    requires '.' !in c
    ensures RSplitDot(m + "." + c) == Some((m, c))
    decreases |c|
  {
    var s := m + "." + c;
    if c == [] {
      assert s[..|s| - 1] == m;
    } else {
      var c' := c[..|c| - 1];
      assert s[..|s| - 1] == m + "." + c';
      assert c == c' + [c[|c| - 1]];
      RSplitDotOfJoin(m, c');
    }
  }

  /** What `importlib.import_module(name)` gives. */
  datatype Imported =
    | Found(attrs: map<string, Attribute>)
    | ImportFailed(message: string)        // an `ImportError`
    | ImportRaised(kind: BuiltinKind)      // any other exception

  /** `importlib.import_module(name)` with no package: an empty name is a
      `ValueError`, a relative name a `TypeError`; other names are looked up. */
  function ImportModule(name: string, modules: ModuleTable): (r: Imported)
    ensures r.Found? ==> name != "" && name[0] != '.' && modules(name) == Loaded(r.attrs)
    ensures r.ImportFailed? ==> name != "" && name[0] != '.' && modules(name) == Unimportable(r.message)
    ensures r.ImportRaised? ==> r.kind == (if name == "" then ValueError else TypeError)
  {
    if name == "" then ImportRaised(ValueError)
    else if name[0] == '.' then ImportRaised(TypeError)
    else match modules(name)
      case Loaded(attrs) => Found(attrs)
      case Unimportable(message) => ImportFailed(message)
  }

  /** `_get_qualified_class_ref` up to its `getattr`: the module name, the
      class name and the module's attributes, or what it raises on the way.
      The `SourceConfigurationError`s raised so far carry the node. */
  function LocateClass(node: ConfigNode, modules: ModuleTable): (r: Result<(string, string, map<string, Attribute>), Failure>)
    ensures r.Ok? <==> ClassKey in node && RSplitDot(node[ClassKey]).Some?
                       && ImportModule(RSplitDot(node[ClassKey]).value.0, modules).Found?
    ensures r.Ok? ==> r.value.0 + "." + r.value.1 == node[ClassKey] && '.' !in r.value.1
                      && modules(r.value.0) == Loaded(r.value.2)
    ensures ClassKey !in node ==>
              r == Err(Cdls(SourceConfigurationError("@QualifiedClassName property is missing", Some(node))))
    ensures ClassKey in node && '.' !in node[ClassKey] ==> r == Err(Builtin(ValueError))
    ensures r.Err? && r.error.Cdls? ==> r.error.error.SourceConfigurationError? && r.error.error.node == Some(node)
  {
    if ClassKey !in node then Err(Cdls(SourceConfigurationError("@QualifiedClassName property is missing", Some(node))))
    else match RSplitDot(node[ClassKey])
      case None => Err(Builtin(ValueError))
      case Some((m, c)) =>
        match ImportModule(m, modules)
        case Found(attrs) => Ok((m, c, attrs))
        case ImportFailed(message) => Err(Cdls(SourceConfigurationError(message, Some(node))))
        case ImportRaised(kind) => Err(Builtin(kind))
  }

  /** `_get_qualified_class_ref(config_node)` as written: when the module
      lacks the class, the handler refers to `e`, which no handler has bound
      yet, and Python raises `UnboundLocalError` instead of the configuration
      error the handler builds. */
  function ResolveClassAsWritten(node: ConfigNode, modules: ModuleTable): (r: Result<Attribute, Failure>)
    ensures LocateClass(node, modules).Err? ==> r == Err(LocateClass(node, modules).error)
    ensures LocateClass(node, modules).Ok? ==>
              var (_, c, attrs) := LocateClass(node, modules).value;
              r == if c in attrs then Ok(attrs[c]) else Err(Builtin(UnboundLocalError))
  {
    match LocateClass(node, modules)
    case Err(f) => Err(f)
    case Ok((_, c, attrs)) => if c in attrs then Ok(attrs[c]) else Err(Builtin(UnboundLocalError))
  }

  /** `str(e)` of the `AttributeError` `getattr(module, name)` raises. */
  function NoAttributeMessage(m: string, c: string): string {
    "module '" + m + "' has no attribute '" + c + "'"
  }

  /** `_get_qualified_class_ref(config_node)` as its handler means it: a
      module that lacks the class is a `SourceConfigurationError` with the
      `AttributeError`'s message (and no node). Every CDLS error it raises is
      a `SourceConfigurationError`. */
  function ResolveClass(node: ConfigNode, modules: ModuleTable): (r: Result<Attribute, Failure>)
    ensures r.Ok? ==> ClassKey in node && RSplitDot(node[ClassKey]).Some?
                      && var (m, c) := RSplitDot(node[ClassKey]).value;
                         modules(m).Loaded? && c in modules(m).attrs && r.value == modules(m).attrs[c]
    ensures r.Err? && r.error.Cdls? ==> r.error.error.SourceConfigurationError?
    ensures LocateClass(node, modules).Ok? && r.Err? ==>
              var (m, c, _) := LocateClass(node, modules).value;
              r.error == Cdls(SourceConfigurationError(NoAttributeMessage(m, c), None))
  {
    match LocateClass(node, modules)
    case Err(f) => Err(f)
    case Ok((m, c, attrs)) =>
      if c in attrs then Ok(attrs[c]) else Err(Cdls(SourceConfigurationError(NoAttributeMessage(m, c), None)))
  }

  /** The two readings differ exactly when the module lacks the class; there
      the written one raises `UnboundLocalError`. */
  lemma ResolveClassReadings(node: ConfigNode, modules: ModuleTable)
    ensures ResolveClassAsWritten(node, modules) != ResolveClass(node, modules) <==>
              LocateClass(node, modules).Ok? && LocateClass(node, modules).value.1 !in LocateClass(node, modules).value.2
    ensures ResolveClassAsWritten(node, modules) != ResolveClass(node, modules) ==>
              ResolveClassAsWritten(node, modules) == Err(Builtin(UnboundLocalError))
  {
  }

  /** A node naming a class its module does not define. */
  function MissingClassNode(): ConfigNode {
    map[ClassKey := "cdls.datasources.Missing", "id" := "files", "description" := "Local files"]
  }

  /** A table holding the data-source module of the package. */
  function PackageModules(name: string): Module {
    if name == "cdls.datasources" then
      Loaded(map["BaseDataSource" := SourceClassAttr(BaseDataSourceClass),
                 "LocalFileDataSource" := SourceClassAttr(LocalFileDataSourceClass)])
    else Unimportable("No module named '" + name + "'")
  }

  /** For that node, the code as written raises `UnboundLocalError`, which
      the `SourceConfigurationError` handler of `_register_all_datasources`
      does not catch; the intended reading raises the configuration error. */
  lemma MissingClassIsUnboundLocal()
    ensures ResolveClassAsWritten(MissingClassNode(), PackageModules) == Err(Builtin(UnboundLocalError))
    ensures ResolveClass(MissingClassNode(), PackageModules)
            == Err(Cdls(SourceConfigurationError(NoAttributeMessage("cdls.datasources", "Missing"), None)))
  {
    var q := "cdls.datasources.Missing";
    assert q == "cdls.datasources" + "." + "Missing";
    RSplitDotOfJoin("cdls.datasources", "Missing");
    assert MissingClassNode()[ClassKey] == q;
  }

  /** What one iteration of `_register_all_datasources` does before
      registering: resolve the class as `_get_qualified_class_ref` is
      written, check it subclasses `BaseDataSource` (`issubclass` of a
      non-class is a `TypeError`, a failed assertion an `AssertionError`), and
      run its initialiser on the node. A class missing from its module is the
      `UnboundLocalError` of line 213. */
  function Admit(node: ConfigNode, modules: ModuleTable): (r: Result<(SourceClass, Settings), Failure>)
    ensures r.Ok? ==> ResolveClassAsWritten(node, modules) == Ok(SourceClassAttr(r.value.0))
                      && Configure(r.value.0, node) == Ok(r.value.1)
    ensures ResolveClassAsWritten(node, modules) == Ok(NotAClass) ==> r == Err(Builtin(TypeError))
    ensures ResolveClassAsWritten(node, modules).Ok? && ResolveClassAsWritten(node, modules).value.OtherClass? ==>
              r == Err(Builtin(AssertionError))
    ensures ResolveClassAsWritten(node, modules).Err? ==> r == Err(ResolveClassAsWritten(node, modules).error)
    ensures LocateClass(node, modules).Ok? && LocateClass(node, modules).value.1 !in LocateClass(node, modules).value.2 ==>
              r == Err(Builtin(UnboundLocalError))
    ensures r.Err? && r.error.Cdls? ==> r.error.error.SourceConfigurationError?
  {
    match ResolveClassAsWritten(node, modules)
    case Err(f) => Err(f)
    case Ok(attr) =>
      match attr
      case NotAClass => Err(Builtin(TypeError))
      case OtherClass(_) => Err(Builtin(AssertionError))
      case SourceClassAttr(c) =>
        match Configure(c, node)
        case Err(e) => Err(Cdls(e))
        case Ok(s) => Ok((c, s))
  }

  /** What leaves `_register_all_datasources` for a failure `f`: a
      `SourceConfigurationError` is logged and re-raised, and logging it
      through a missing logger raises `AttributeError` instead. */
  function Reraised(f: Failure, logger: Logging.Logger?): (r: Failure)
    ensures r == f || (logger == null && r == Builtin(AttributeError))
    ensures f.Builtin? ==> r == f
  {
    if f.Cdls? && f.error.SourceConfigurationError? && logger == null then Builtin(AttributeError) else f
  }

  /** Registering the node that names a missing class stops with the
      `UnboundLocalError`, which leaves `_register_all_datasources` as it
      is, with or without a logger. */
  lemma MissingClassEscapesRegistration(logger: Logging.Logger?)
    ensures Admit(MissingClassNode(), PackageModules) == Err(Builtin(UnboundLocalError))
    ensures Reraised(Admit(MissingClassNode(), PackageModules).error, logger) == Builtin(UnboundLocalError)
  {
    MissingClassIsUnboundLocal();
  }

  /** The class and settings a source was built with. */
  function Built(ds: DataSource): (SourceClass, Settings) {
    (ds.cls, Settings(ds.identifier, ds.description, ds.variant))
  }

  /** The class and settings of each source, in order. */
  function Builts(added: seq<DataSource>): (r: seq<(SourceClass, Settings)>)
    ensures |r| == |added| && forall j :: 0 <= j < |added| ==> r[j] == Built(added[j])
  {
    if added == [] then [] else Builts(added[..|added| - 1]) + [Built(added[|added| - 1])]
  }

  /** Every source in `added` holds the logger `l` and the database `d`. */
  ghost predicate Share(added: seq<DataSource>, l: Logging.Logger?, d: Store?)
    reads added
  {
    forall j :: 0 <= j < |added| ==> added[j].logger == l && added[j].db == d
  }

  lemma ShareNext(added: seq<DataSource>, ds: DataSource, l: Logging.Logger?, d: Store?)
    requires Share(added, l, d) && ds.logger == l && ds.db == d
    ensures Share(added + [ds], l, d)
  {
    assert forall j :: 0 <= j < |added| ==> (added + [ds])[j] == added[j];
  }

  /** What `_register_all_datasources` admits from `nodes`, in order: the
      class and settings of every node admitted before the first failure,
      and that failure, if there is one. */
  function Admissions(nodes: seq<ConfigNode>, modules: ModuleTable): (r: (seq<(SourceClass, Settings)>, Option<Failure>))
    ensures |r.0| <= |nodes| && (r.1.None? ==> |r.0| == |nodes|)
    decreases |nodes|
  {
    if nodes == [] then ([], None)
    else
      var (admits, failure) := Admissions(nodes[..|nodes| - 1], modules);
      if failure.Some? then (admits, failure)
      else
        match Admit(nodes[|nodes| - 1], modules)
        case Err(f) => (admits, Some(f))
        case Ok(a) => (admits + [a], None)
  }

  /** The nodes before the first failure are each admitted, and the first
      failure is what admitting the next node fails with. */
  lemma {:induction false} AdmissionsElems(nodes: seq<ConfigNode>, modules: ModuleTable)
    ensures var r := Admissions(nodes, modules);
      && (forall j :: 0 <= j < |r.0| ==> Admit(nodes[j], modules) == Ok(r.0[j]))
      && (r.1.None? <==> |r.0| == |nodes|)
      && (r.1.Some? ==> Admit(nodes[|r.0|], modules) == Err(r.1.value))
    decreases |nodes|
  {
    if nodes != [] {
      var init := nodes[..|nodes| - 1];
      AdmissionsElems(init, modules);
      var prev := Admissions(init, modules);
      assert |prev.0| <= |init|;
      forall j | 0 <= j < |init|
        ensures nodes[j] == init[j]
      {
      }
      if prev.1.None? {
        assert nodes[|init|] == nodes[|nodes| - 1];
      }
    }
  }

  /** One more node: admitting it extends the admissions or ends them. */
  lemma AdmissionsNext(nodes: seq<ConfigNode>, i: nat, modules: ModuleTable)
    requires i < |nodes| && Admissions(nodes[..i], modules).1.None?
    ensures Admissions(nodes[..i + 1], modules) ==
      match Admit(nodes[i], modules)
      case Err(f) => (Admissions(nodes[..i], modules).0, Some(f))
      case Ok(a) => (Admissions(nodes[..i], modules).0 + [a], None)
  {
    assert nodes[..i + 1][..i] == nodes[..i];
  }

  /** Once a node fails, the nodes after it are not looked at. */
  lemma {:induction false} AdmissionsStop(nodes: seq<ConfigNode>, n: nat, modules: ModuleTable)
    requires n <= |nodes| && Admissions(nodes[..n], modules).1.Some?
    ensures Admissions(nodes, modules) == Admissions(nodes[..n], modules)
    decreases |nodes|
  {
    if n == |nodes| {
      assert nodes[..n] == nodes;
    } else {
      var init := nodes[..|nodes| - 1];
      assert init[..n] == nodes[..n];
      AdmissionsStop(init, n, modules);
    }
  }

  /** The registry after storing `added` one after another under their
      identifiers, a later source replacing an earlier one. */
  function Stored(m: map<string, DataSource>, added: seq<DataSource>): map<string, DataSource> {
    if added == [] then m
    else Stored(m, added[..|added| - 1])[added[|added| - 1].identifier := added[|added| - 1]]
  }

  /** The keys of a dict in insertion order after storing `added`: a new key
      goes last, an existing key keeps its place. */
  function AddKeys(keys: seq<string>, added: seq<DataSource>): seq<string> {
    if added == [] then keys
    else
      var ks := AddKeys(keys, added[..|added| - 1]);
      var k := added[|added| - 1].identifier;
      if k in ks then ks else ks + [k]
  }

  predicate DistinctSeq(keys: seq<string>) {
    forall i, j :: 0 <= i < j < |keys| ==> keys[i] != keys[j]
  }

  /** The keys are those of the dict, each once, and each source is stored
      under its identifier. */
  ghost predicate IndexedBy(keys: seq<string>, sources: map<string, DataSource>) {
    && DistinctSeq(keys) && (forall k :: k in sources <==> k in keys)
    && (forall k :: k in sources ==> sources[k].identifier == k)
  }

  /** Storing a source under its identifier keeps the keys and the dict in
      step: a new identifier goes last, a known one keeps its place. */
  lemma IndexedStore(keys: seq<string>, sources: map<string, DataSource>, ds: DataSource)
    requires IndexedBy(keys, sources)
    ensures IndexedBy(if ds.identifier in sources then keys else keys + [ds.identifier], sources[ds.identifier := ds])
  {
    var keys' := if ds.identifier in sources then keys else keys + [ds.identifier];
    assert forall i :: 0 <= i < |keys| ==> keys'[i] == keys[i];
  }

  /** Storing sources keeps the order of keys free of repeats and in step
      with the keys of the registry, which gains exactly the stored
      identifiers. */
  lemma {:induction false} StoredKeys(keys: seq<string>, m: map<string, DataSource>, added: seq<DataSource>)
    requires DistinctSeq(keys) && forall k :: k in m <==> k in keys
    ensures DistinctSeq(AddKeys(keys, added))
    ensures forall k :: k in Stored(m, added) <==> k in AddKeys(keys, added)
    ensures forall k :: k in Stored(m, added) <==>
              k in m || exists j :: 0 <= j < |added| && added[j].identifier == k
    ensures |keys| <= |AddKeys(keys, added)| && AddKeys(keys, added)[..|keys|] == keys
    decreases |added|
  {
    if added != [] {
      var init := added[..|added| - 1];
      StoredKeys(keys, m, init);
      var ks := AddKeys(keys, init);
      var d := added[|added| - 1];
      if d.identifier !in ks {
        assert (ks + [d.identifier])[..|keys|] == ks[..|keys|];
      }
      forall k | k in Stored(m, added)
        ensures k in m || exists j :: 0 <= j < |added| && added[j].identifier == k
      {
        if k != d.identifier {
          assert k in Stored(m, init);
          if !(k in m) {
            var j :| 0 <= j < |init| && init[j].identifier == k;
            assert added[j] == init[j];
          }
        }
      }
      forall k | k in m || (exists j :: 0 <= j < |added| && added[j].identifier == k)
        ensures k in Stored(m, added)
      {
        if k != d.identifier && !(k in m) {
          var j :| 0 <= j < |added| && added[j].identifier == k;
          assert j < |init| && init[j] == added[j];
        }
      }
    }
  }

  /** Storing one more source. */
  lemma StoredNext(keys: seq<string>, m: map<string, DataSource>, added: seq<DataSource>, ds: DataSource)
    ensures Stored(m, added + [ds]) == Stored(m, added)[ds.identifier := ds]
    ensures AddKeys(keys, added + [ds]) ==
      if ds.identifier in AddKeys(keys, added) then AddKeys(keys, added) else AddKeys(keys, added) + [ds.identifier]
    ensures Builts(added + [ds]) == Builts(added) + [Built(ds)]
  {
    assert (added + [ds])[..|added|] == added;
  }

  /** A source stored later replaces the ones stored before it under the same
      identifier; a registered source no stored source replaces stays. */
  lemma {:induction false} StoredLast(m: map<string, DataSource>, added: seq<DataSource>, k: string)
    requires k in Stored(m, added)
    ensures (forall j :: 0 <= j < |added| ==> added[j].identifier != k) ==> k in m && Stored(m, added)[k] == m[k]
    ensures forall j :: 0 <= j < |added| && added[j].identifier == k ==>
              exists l :: j <= l < |added| && Stored(m, added)[k] == added[l]
    decreases |added|
  {
    if added != [] {
      var init := added[..|added| - 1];
      var d := added[|added| - 1];
      if k != d.identifier {
        StoredLast(m, init, k);
        forall j | 0 <= j < |added| && added[j].identifier == k
          ensures exists l :: j <= l < |added| && Stored(m, added)[k] == added[l]
        {
          assert init[j] == added[j];
          var l :| j <= l < |init| && Stored(m, init)[k] == init[l];
          assert added[l] == init[l];
        }
      } else {
        assert Stored(m, added)[k] == added[|added| - 1];
      }
    }
  }

  /** Whether an outcome of `execute()` ends `perform_all_loads`: an
      exception that is not a `CDLSError` always escapes, a `CDLSError` only
      when halting on errors. */
  predicate Halts(o: Result<LoadReport, Failure>, halt: bool) {
    o.Err? && (halt || o.error.Builtin?)
  }

  /** The reports of the outcomes that returned one, in order. */
  function Successes(os: seq<Result<LoadReport, Failure>>): seq<LoadReport> {
    if os == [] then []
    else
      var rest := Successes(os[..|os| - 1]);
      if os[|os| - 1].Ok? then rest + [os[|os| - 1].value] else rest
  }

  /** The number of outcomes that raised. */
  function Failures(os: seq<Result<LoadReport, Failure>>): nat {
    if os == [] then 0 else Failures(os[..|os| - 1]) + (if os[|os| - 1].Err? then 1 else 0)
  }

  /** Each outcome contributes either its report or a failure: as many
      reports come back as loads did not raise, and each is the report of an
      outcome, in order. */
  lemma {:induction false} SuccessesCount(os: seq<Result<LoadReport, Failure>>)
    ensures |Successes(os)| == |os| - Failures(os)
    ensures forall i :: 0 <= i < |Successes(os)| ==>
              exists j :: 0 <= j < |os| && os[j] == Ok(Successes(os)[i])
    decreases |os|
  {
    if os != [] {
      var init := os[..|os| - 1];
      SuccessesCount(init);
      var rest := Successes(init);
      forall i | 0 <= i < |Successes(os)|
        ensures exists j :: 0 <= j < |os| && os[j] == Ok(Successes(os)[i])
      {
        if i < |rest| {
          var j :| 0 <= j < |init| && init[j] == Ok(rest[i]);
          assert os[j] == init[j];
        } else {
          assert os[|os| - 1] == Ok(Successes(os)[i]);
        }
      }
    }
  }

  /** When every load returns its report, all the reports come back in the
      order of the loads. */
  lemma {:induction false} SuccessesOfAllOk(os: seq<Result<LoadReport, Failure>>)
    requires forall j :: 0 <= j < |os| ==> os[j].Ok?
    ensures Successes(os) == seq(|os|, j requires 0 <= j < |os| => os[j].value)
    decreases |os|
  {
    if os != [] {
      SuccessesOfAllOk(os[..|os| - 1]);
    }
  }

  /** A source registered under an identifier with surrounding whitespace is
      never found by `perform_load`, whose lookup key is stripped. */
  lemma UnstrippedKeyUnreachable(key: string, identifier: string)
    requires Strip(key) != key
    ensures Strip(identifier) != key
  {
  }

  /** `(get_identifier(), get_type(), get_description())`. */
  function Describe(ds: DataSource): (string, string, string) {
    (ds.identifier, ds.GetType(), ds.description)
  }

  /** `sorted` lists the entries of `sources` in strictly ascending order of
      key, each key with its own source, which carries that key as its
      identifier. */
  ghost predicate SortedItems(sorted: seq<(string, DataSource)>, sources: map<string, DataSource>) {
    && |sorted| == |sources|
    && (forall i, j :: 0 <= i < j < |sorted| ==> StrLt(sorted[i].0, sorted[j].0))
    && (forall i :: 0 <= i < |sorted| ==>
          sorted[i].0 in sources && sorted[i].1 == sources[sorted[i].0] && sorted[i].1.identifier == sorted[i].0)
    && (forall k :: k in sources ==> exists i :: 0 <= i < |sorted| && sorted[i] == (k, sources[k]))
  }

  /** The triple of each sorted source, in the same order. */
  function Listing(sorted: seq<(string, DataSource)>): (r: seq<(string, string, string)>)
    ensures |r| == |sorted| && forall i :: 0 <= i < |sorted| ==> r[i] == Describe(sorted[i].1)
  {
    if sorted == [] then [] else [Describe(sorted[0].1)] + Listing(sorted[1..])
  }

  /** Describing the sorted entries of the dict gives each source once, in
      ascending order of identifier. */
  lemma ListingDescribes(sorted: seq<(string, DataSource)>, sources: map<string, DataSource>)
    requires SortedItems(sorted, sources)
    ensures var r := Listing(sorted);
      && |r| == |sources|
      && (forall i, j :: 0 <= i < j < |r| ==> StrLt(r[i].0, r[j].0))
      && (forall i :: 0 <= i < |r| ==> r[i].0 in sources && r[i] == Describe(sources[r[i].0]))
      && (forall k :: k in sources ==> exists i :: 0 <= i < |r| && r[i] == Describe(sources[k]))
  {
    var r := Listing(sorted);
    forall k | k in sources
      ensures exists i :: 0 <= i < |r| && r[i] == Describe(sources[k])
    {
      var i :| 0 <= i < |sorted| && sorted[i] == (k, sources[k]);
      assert r[i] == Describe(sources[k]);
    }
  }

  /** The package globals: `_datasources` (its keys in insertion order, and
      the sources under them), `_logger` and `_db`. */
  class Registry {
    var keys: seq<string>
    var sources: map<string, DataSource>
    var logger: Logging.Logger?
    var db: Store?

    ghost function Sources(): set<DataSource>
      reads this
    {
      set k | k in sources :: sources[k]
    }

    ghost function Reports(): set<LoadReport>
      reads this
    {
      set k | k in sources :: sources[k].report
    }

    ghost function Dbs(): set<Store>
      reads this, Sources()
    {
      set k | k in sources && sources[k].db != null :: sources[k].db
    }

    /** What loading the source under `k` may change besides the clock. */
    ghost function Footprint(k: string): set<object>
      reads this, Sources()
    {
      if k in sources then {sources[k], sources[k].report} + (if sources[k].db != null then {sources[k].db} else {})
      else {}
    }

    ghost predicate Indexed()
      reads this
    {
      IndexedBy(keys, sources)
    }

    /** Every registered source keeps its own invariant. */
    ghost predicate SourcesValid()
      reads this, Sources(), Dbs()
    {
      forall k :: k in sources ==> sources[k].Valid()
    }

    ghost predicate Valid()
      reads this, Sources(), Dbs(), db
    {
      && Indexed()
      && SourcesValid()
      && (logger != null ==> logger.CanLog())
      && (db != null ==> db.Valid())
    }

    /** The state at import: no sources, no logger, no database. */
    constructor()
      ensures Valid() && keys == [] && sources == map[] && logger == null && db == null
    {
      keys := [];
      sources := map[];
      logger := null;
      db := null;
    }

    /** `register_logger(logger)`: an object lacking one of the logging
        methods fails an assertion, which ends the program through
        `exit(1)`. */
    method RegisterLogger(l: Logging.Logger?) returns (o: Outcome<Failure>)
      requires Valid()
      modifies this
      ensures Valid() && keys == old(keys) && sources == old(sources) && db == old(db)
      ensures o.Pass? <==> l != null && l.CanLog()
      ensures o.Pass? ==> logger == l
      ensures o.Fail? ==> o.error == Builtin(SystemExit) && unchanged(this)
    {
      if l == null || !l.CanLog() {
        return Fail(Builtin(SystemExit));
      }
      logger := l;
      o := Pass;
    }

    /** `register_database(db)`. */
    method RegisterDatabase(store: Store?)
      requires Valid() && (store != null ==> store.Valid())
      modifies this
      ensures Valid() && db == store
      ensures keys == old(keys) && sources == old(sources) && logger == old(logger)
    {
      db := store;
    }

    /** `register_datasource(datasource)`: the source gets the shared logger
        and database and is stored under its identifier, as it is; a source
        with the same identifier is replaced, in its place in the order. */
    method RegisterDatasource(ds: DataSource)
      requires Valid() && ds.report.identifier == ds.identifier
      modifies this, ds
      ensures Valid()
      ensures ds.logger == logger && ds.db == db && ds.timeStarted == old(ds.timeStarted)
      ensures sources == old(sources)[ds.identifier := ds]
      ensures keys == if ds.identifier in old(sources) then old(keys) else old(keys) + [ds.identifier]
      ensures logger == old(logger) && db == old(db)
    {
      ds.RegisterLogger(logger);
      ds.RegisterDatabase(db);
      IndexedStore(keys, sources, ds);
      ghost var before := sources;
      if ds.identifier !in sources {
        keys := keys + [ds.identifier];
      }
      sources := sources[ds.identifier := ds];
      forall k | k in sources
        ensures sources[k].Valid()
      {
        if k != ds.identifier {
          assert sources[k] == before[k] && before[k].identifier == k;
        }
      }
    }

    /** `_datasources.items()`, in insertion order. */
    function Items(): (r: seq<(string, DataSource)>)
      reads this
      requires Indexed()
      ensures |r| == |keys| && forall i :: 0 <= i < |keys| ==> r[i] == (keys[i], sources[keys[i]])
    {
      var ks, srcs := keys, sources;
      seq(|ks|, i requires 0 <= i < |ks| && ks[i] in srcs => (ks[i], srcs[ks[i]]))
    }

    /** `list_registered_sources()`: one triple per registered source, in
        ascending order of identifier. */
    function ListRegisteredSources(): (r: seq<(string, string, string)>)
      reads this
      requires Indexed()
      ensures |r| == |sources|
      ensures forall i, j :: 0 <= i < j < |r| ==> StrLt(r[i].0, r[j].0)
      ensures forall i :: 0 <= i < |r| ==> r[i].0 in sources && r[i] == Describe(sources[r[i].0])
      ensures forall k :: k in sources ==> exists i :: 0 <= i < |r| && r[i] == Describe(sources[k])
    {
      var sorted := SortByKey(Items());
      ListingOfItems();
      ListingDescribes(sorted, sources);
      Listing(sorted)
    }

    /** The items of the dict, sorted: in ascending order of key, each key
        with its own source, every key once. */
    lemma ListingOfItems()
      requires Indexed()
      ensures SortedItems(SortByKey(Items()), sources)
    {
      var items := Items();
      var sorted := SortByKey(items);
      assert DistinctKeys(items);
      SortIsSorted(items);
      SortKeepsDistinct(items);
      SortedDistinctIsStrict(sorted);
      assert |sources| == |keys| by {
        DistinctCard(keys);
        assert sources.Keys == set i | 0 <= i < |keys| :: keys[i];
      }
      forall i | 0 <= i < |sorted|
        ensures sorted[i].0 in sources && sorted[i].1 == sources[sorted[i].0]
      {
        assert sorted[i] in multiset(items);
        var j :| 0 <= j < |items| && items[j] == sorted[i];
      }
      forall k | k in sources
        ensures exists i :: 0 <= i < |sorted| && sorted[i] == (k, sources[k])
      {
        var j :| 0 <= j < |keys| && keys[j] == k;
        assert items[j] in multiset(sorted);
        var i :| 0 <= i < |sorted| && sorted[i] == items[j];
      }
    }

    /** `perform_load(identifier)`: the stripped identifier is looked up;
        an unknown one is an `UnregisteredSourceError` naming it. The source
        found is executed once through the registered logger, and what it
        returns or raises is what `perform_load` returns or raises. */
    method PerformLoad(identifier: string, clock: Clock) returns (r: Result<LoadReport, Failure>)
      requires Valid()
      modifies clock, Footprint(Strip(identifier))
      ensures Valid() && unchanged(this)
      ensures var id := Strip(identifier);
        && (id !in sources ==> r == Err(Cdls(UnregisteredSourceError(id))) && unchanged(clock))
        && (id in sources && logger == null ==>
              r == Err(Builtin(AttributeError)) && unchanged(clock) && unchanged(sources[id], sources[id].report))
        && (id in sources && logger != null ==>
              && Ran(sources[id], r)
              && (sources[id].variant.LocalFile? ==> LocalFileLoad(sources[id], clock, r)))
    {
      var id := Strip(identifier);
      if id !in sources {
        return Err(Cdls(UnregisteredSourceError(id)));
      }
      if logger == null {
        return Err(Builtin(AttributeError));
      }
      var ds := sources[id];
      r := ds.Execute(clock);
    }

    /** One pass of the loop in `perform_all_loads`: the source under the
        `i`-th key is executed; every other report stays as it was. */
    method LoadAt(i: nat, clock: Clock) returns (o: Result<LoadReport, Failure>)
      requires Valid() && i < |keys|
      modifies clock, Footprint(keys[i])
      ensures Valid() && unchanged(this)
      ensures forall k :: k in sources ==> sources[k].db == old(sources[k].db)
      ensures Returned(sources[keys[i]], o)
      ensures forall j :: 0 <= j < |keys| && j != i ==> unchanged(sources[keys[j]].report)
    {
      var ds := sources[keys[i]];
      o := ds.Load(clock);
    }

    /** `perform_all_loads(halt_on_error)`: every source, in the order it was
        first registered, is executed once until one raises an exception that
        ends the batch (`Halts`), which is then re-raised; otherwise the
        reports of the loads that returned one come back in order. `outcomes`
        holds what each executed source returned or raised. */
    method PerformAllLoads(halt: bool, clock: Clock) returns (r: Result<seq<LoadReport>, Failure>, ghost outcomes: seq<Result<LoadReport, Failure>>)
      requires Valid()
      modifies Sources(), Reports(), Dbs(), clock
      ensures Valid() && unchanged(this)
      ensures logger == null ==>
                r == Err(Builtin(AttributeError)) && outcomes == [] && unchanged(old(Sources()), old(Reports()), old(Dbs()), clock)
      ensures logger != null ==>
                && |outcomes| <= |keys|
                && (forall j :: 0 <= j < |outcomes| ==> Returned(sources[keys[j]], outcomes[j]))
                && (forall j :: 0 <= j < |outcomes| - 1 ==> !Halts(outcomes[j], halt))
                && (forall j :: |outcomes| <= j < |keys| ==> unchanged(sources[keys[j]].report))
                && (r.Err? <==> outcomes != [] && Halts(outcomes[|outcomes| - 1], halt))
                && (r.Err? ==> r.error == outcomes[|outcomes| - 1].error)
                && (r.Ok? ==> |outcomes| == |keys| && r.value == Successes(outcomes))
    {
      if logger == null {
        return Err(Builtin(AttributeError)), [];
      }
      r, outcomes := LoadAll(halt, clock);
    }

    /** The loop of `perform_all_loads`, once the logger is known to be set. */
    method LoadAll(halt: bool, clock: Clock) returns (r: Result<seq<LoadReport>, Failure>, ghost outcomes: seq<Result<LoadReport, Failure>>)
      requires Valid()
      modifies Sources(), Reports(), Dbs(), clock
      ensures Valid() && unchanged(this)
      ensures |outcomes| <= |keys|
      ensures forall j :: 0 <= j < |outcomes| ==> Returned(sources[keys[j]], outcomes[j])
      ensures forall j :: 0 <= j < |outcomes| - 1 ==> !Halts(outcomes[j], halt)
      ensures forall j :: |outcomes| <= j < |keys| ==> unchanged(sources[keys[j]].report)
      ensures r.Err? <==> outcomes != [] && Halts(outcomes[|outcomes| - 1], halt)
      ensures r.Err? ==> r.error == outcomes[|outcomes| - 1].error
      ensures r.Ok? ==> |outcomes| == |keys| && r.value == Successes(outcomes)
    {
      var reports: seq<LoadReport> := [];
      outcomes := [];
      var i := 0;
      while i < |keys|
        invariant 0 <= i <= |keys| && |outcomes| == i
        invariant Valid() && unchanged(this)
        invariant forall k :: k in sources ==> sources[k].db == old(sources[k].db)
        invariant forall j :: 0 <= j < i ==> Returned(sources[keys[j]], outcomes[j])
        invariant forall j :: 0 <= j < i ==> !Halts(outcomes[j], halt)
        invariant forall j :: i <= j < |keys| ==> unchanged(sources[keys[j]].report)
        invariant reports == Successes(outcomes)
      {
        var o := LoadAt(i, clock);
        outcomes := outcomes + [o];
        if Halts(o, halt) {
          return Err(o.error), outcomes;
        }
        if o.Ok? {
          reports := reports + [o.value];
        }
        i := i + 1;
      }
      r := Ok(reports);
    }

    /** One pass of the loop in `_register_all_datasources`: the node is
        admitted and its source registered, or the failure admitting it is
        re-raised with nothing registered. */
    method RegisterNode(node: ConfigNode, modules: ModuleTable) returns (r: Result<DataSource, Failure>)
      requires Valid()
      modifies this
      ensures Valid() && logger == old(logger) && db == old(db)
      ensures r.Err? ==>
                && Admit(node, modules).Err? && r.error == Reraised(Admit(node, modules).error, logger)
                && keys == old(keys) && sources == old(sources)
      ensures r.Ok? ==>
                && fresh(r.value) && Admit(node, modules) == Ok(Built(r.value)) && r.value.config == node
                && r.value.logger == logger && r.value.db == db
                && sources == old(sources)[r.value.identifier := r.value]
                && keys == if r.value.identifier in old(sources) then old(keys) else old(keys) + [r.value.identifier]
    {
      var admitted := Admit(node, modules);
      if admitted.Err? {
        return Err(Reraised(admitted.error, logger));
      }
      var (cls, settings) := admitted.value;
      var ds := new DataSource(cls, node, settings);
      RegisterDatasource(ds);
      r := Ok(ds);
    }

    /** The state of the loop of `_register_all_datasources` once the nodes `added` stands for were
        admitted and registered in order, starting from `keys0`/`sources0`. */
    ghost predicate Registered(nodes: seq<ConfigNode>, modules: ModuleTable,
                               keys0: seq<string>, sources0: map<string, DataSource>,
                               l0: Logging.Logger?, d0: Store?, added: seq<DataSource>)
      reads this, Sources(), Dbs(), db, added
    {
      && Valid() && logger == l0 && db == d0
      && |added| <= |nodes|
      && Admissions(nodes[..|added|], modules) == (Builts(added), None)
      && Share(added, l0, d0)
      && keys == AddKeys(keys0, added) && sources == Stored(sources0, added)
    }

    /** One iteration of `_register_all_datasources`: the next node is admitted and
        registered, or its failure ends the registration. */
    method RegisterStep(nodes: seq<ConfigNode>, i: nat, modules: ModuleTable,
                        ghost keys0: seq<string>, ghost sources0: map<string, DataSource>,
                        ghost added: seq<DataSource>)
      returns (r: Result<DataSource, Failure>)
      requires Registered(nodes, modules, keys0, sources0, logger, db, added) && i == |added| < |nodes|
      modifies this
      ensures logger == old(logger) && db == old(db)
      ensures r.Err? ==>
                && Valid() && Share(added, logger, db)
                && Admissions(nodes, modules).0 == Builts(added) && Admissions(nodes, modules).1.Some?
                && r.error == Reraised(Admissions(nodes, modules).1.value, logger)
                && keys == AddKeys(keys0, added) && sources == Stored(sources0, added)
      ensures r.Ok? ==> fresh(r.value) && Registered(nodes, modules, keys0, sources0, logger, db, added + [r.value])
    {
      AdmissionsNext(nodes, i, modules);
      r := RegisterNode(nodes[i], modules);
      if r.Err? {
        AdmissionsStop(nodes, i + 1, modules);
        return;
      }
      StoredNext(keys0, sources0, added, r.value);
      ShareNext(added, r.value, logger, db);
      assert (added + [r.value])[..] == added + [r.value];
    }

    /** `_register_all_datasources(configs)`: the sources are admitted and registered in
        order; the first failure is re-raised and ends the registration,
        keeping the sources registered before it. */
    method RegisterAll(nodes: seq<ConfigNode>, modules: ModuleTable) returns (o: Outcome<Failure>, ghost added: seq<DataSource>)
      requires Valid()
      modifies this
      ensures Valid() && logger == old(logger) && db == old(db)
      ensures Builts(added) == Admissions(nodes, modules).0 && fresh(added)
      ensures Share(added, logger, db)
      ensures o == if Admissions(nodes, modules).1.Some? then Fail(Reraised(Admissions(nodes, modules).1.value, logger)) else Pass
      ensures keys == AddKeys(old(keys), added) && sources == Stored(old(sources), added)
    {
      added := [];
      var i := 0;
      while i < |nodes|
        invariant i == |added| && fresh(added)
        invariant Registered(nodes, modules, old(keys), old(sources), old(logger), old(db), added)
      {
        var r := RegisterStep(nodes, i, modules, old(keys), old(sources), added);
        if r.Err? {
          return Fail(r.error), added;
        }
        added := added + [r.value];
        i := i + 1;
      }
      assert nodes[..i] == nodes;
      o := Pass;
    }

    /** `initialize()`, given the logger and database to register, the nodes
        read from the source configuration file (or the error reading it
        raised) and the modules that can be imported. */
    method Initialize(l: Logging.Logger?, store: Store?, configs: Result<seq<ConfigNode>, CdlsError>, modules: ModuleTable)
      returns (o: Outcome<Failure>, ghost added: seq<DataSource>)
      requires Valid() && (store != null ==> store.Valid())
      modifies this
      ensures Valid()
      ensures (l == null || !l.CanLog()) ==>
                o == Fail(Builtin(SystemExit)) && added == [] && unchanged(this)
      ensures l != null && l.CanLog() ==> logger == l && db == store
      ensures l != null && l.CanLog() && configs.Err? ==>
                o == Fail(Cdls(configs.error)) && added == [] && keys == old(keys) && sources == old(sources)
      ensures l != null && l.CanLog() && configs.Ok? ==>
                && Builts(added) == Admissions(configs.value, modules).0 && fresh(added)
                && Share(added, l, store)
                && o == (if Admissions(configs.value, modules).1.Some?
                         then Fail(Reraised(Admissions(configs.value, modules).1.value, l)) else Pass)
                && keys == AddKeys(old(keys), added) && sources == Stored(old(sources), added)
    {
      added := [];
      o := RegisterLogger(l);
      if o.Fail? {
        return;
      }
      RegisterDatabase(store);
      if configs.Err? {
        return Fail(Cdls(configs.error)), [];
      }
      o, added := RegisterAll(configs.value, modules);
    }
  }

  /** A sequence without repeats has as many elements as the set of them. */
  lemma {:induction false} DistinctCard(keys: seq<string>)
    requires DistinctSeq(keys)
    ensures |set i | 0 <= i < |keys| :: keys[i]| == |keys|
    decreases |keys|
  {
    if keys != [] {
      var init := keys[..|keys| - 1];
      DistinctCard(init);
      var s := set i | 0 <= i < |keys| :: keys[i];
      var s' := set i | 0 <= i < |init| :: init[i];
      assert s == s' + {keys[|keys| - 1]};
      assert keys[|keys| - 1] !in s';
    }
  }
}
