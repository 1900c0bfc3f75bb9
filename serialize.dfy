/** `json.dumps(obj, default=_tojson, sort_keys=True)` as cdls/db.py uses it:
    the JSON document a Python value becomes, or the exception the encoder
    raises. `_tojson` turns a datetime into its `_date_to_string` text and any
    other object into its `__dict__`. */
module Serialize {
  import opened Outcomes
  import opened Text
  import opened Dates
  import opened Sorting
  import opened Documents
  import opened Errors

  /** All results succeed exactly when the collected result does; it then
      lists their values in order, and otherwise carries the first error. */
  function Collect<T>(rs: seq<Result<T, BuiltinKind>>): (r: Result<seq<T>, BuiltinKind>)
    ensures r.Ok? <==> forall i :: 0 <= i < |rs| ==> rs[i].Ok?
    ensures r.Ok? ==> |r.value| == |rs| && forall i :: 0 <= i < |rs| ==> r.value[i] == rs[i].value
    ensures r.Err? ==> exists i :: 0 <= i < |rs| && rs[i] == Err(r.error)
                                   && forall k :: 0 <= k < i ==> rs[k].Ok?
  {
    if rs == [] then Ok([])
    else if rs[0].Err? then Err(rs[0].error)
    else
      match Collect(rs[1..])
      case Ok(vs) => Ok([rs[0].value] + vs)
      case Err(e) =>
        assert forall k :: 1 <= k < |rs| ==> rs[k] == rs[1..][k - 1];
        Err(e)
  }

  /** When every result succeeds, the collected result lists their values. */
  lemma CollectAllOk<T>(rs: seq<Result<T, BuiltinKind>>)
    requires forall i :: 0 <= i < |rs| ==> rs[i].Ok?
    ensures Collect(rs) == Ok(seq(|rs|, i requires 0 <= i < |rs| => rs[i].value))
  {
    var r := Collect(rs);
    assert r.value == seq(|rs|, i requires 0 <= i < |rs| => rs[i].value);
  }

  /** One written object member, or the error its value raised. */
  function JsonMember(p: (string, Result<Json, BuiltinKind>)): Result<(string, Json), BuiltinKind> {
    match p.1
    case Ok(j) => Ok((p.0, j))
    case Err(e) => Err(e)
  }

  /** An object written with `sort_keys`: its members in key order, each value
      already encoded; the first member in that order to fail decides the error. */
  function ObjectOf(ms: seq<(string, Result<Json, BuiltinKind>)>): Result<Json, BuiltinKind> {
    var sorted := SortByKey(ms);
    match Collect(seq(|sorted|, i requires 0 <= i < |sorted| => JsonMember(sorted[i])))
    case Ok(members) => Ok(JObject(members))
    case Err(e) => Err(e)
  }

  predicate HasOtherKey(entries: seq<(DictKey, PyValue)>) {
    exists i :: 0 <= i < |entries| && entries[i].0.OtherKey?
  }

  /** The encoder on one value. A dict with a key that is not a string raises
      `TypeError` before any of its values is written; an instance without a
      `__dict__` makes `_tojson` raise `AttributeError`. */
  function ToJson(v: PyValue): Result<Json, BuiltinKind>
    decreases v
  {
    match v
    case PyNone => Ok(JNull)
    case PyBool(b) => Ok(JBool(b))
    case PyInt(i) => Ok(JInt(i))
    case PyStr(s) => Ok(JString(s))
    case PyList(items) =>
      (match Collect(seq(|items|, i requires 0 <= i < |items| => ToJson(items[i])))
       case Ok(js) => Ok(JArray(js))
       case Err(e) => Err(e))
    case PyDict(entries) =>
      if HasOtherKey(entries) then Err(TypeError)
      else ObjectOf(seq(|entries|, i requires 0 <= i < |entries| => (entries[i].0.s, ToJson(entries[i].1))))
    case PyDateTime(d) => Ok(JString(DateToString(d)))
    case PyObject(_, attrs) =>
      ObjectOf(seq(|attrs|, i requires 0 <= i < |attrs| => (attrs[i].0, ToJson(attrs[i].1))))
    case PySlotted(_) => Err(AttributeError)
  }

  /** The values the encoder accepts: no instance without a `__dict__` and no
      dict key that is not a string, at any depth. */
  predicate Serializable(v: PyValue)
    decreases v
  {
    match v
    case PyList(items) => forall i :: 0 <= i < |items| ==> Serializable(items[i])
    case PyDict(entries) =>
      !HasOtherKey(entries) && forall i :: 0 <= i < |entries| ==> Serializable(entries[i].1)
    case PyObject(_, attrs) => forall i :: 0 <= i < |attrs| ==> Serializable(attrs[i].1)
    case PySlotted(_) => false
    case _ => true
  }

  /** Python dicts and instance dicts never repeat a key. */
  predicate WellFormed(v: PyValue)
    decreases v
  {
    match v
    case PyList(items) => forall i :: 0 <= i < |items| ==> WellFormed(items[i])
    case PyDict(entries) =>
      (forall i, j :: 0 <= i < j < |entries| ==> entries[i].0 != entries[j].0)
      && forall i :: 0 <= i < |entries| ==> WellFormed(entries[i].1)
    case PyObject(_, attrs) =>
      DistinctKeys(attrs) && forall i :: 0 <= i < |attrs| ==> WellFormed(attrs[i].1)
    case _ => true
  }

  /** The documents `sort_keys` writes: every object's members in strictly
      ascending key order. */
  predicate Canonical(j: Json)
    decreases j
  {
    match j
    case JArray(items) => forall i :: 0 <= i < |items| ==> Canonical(items[i])
    case JObject(ms) =>
      SortedByKey(ms) && DistinctKeys(ms) && forall i :: 0 <= i < |ms| ==> Canonical(ms[i].1)
    case _ => true
  }

  /** The object written for members whose values all encode: the members in
      key order with their encoded values. */
  lemma ObjectOfOk(ms: seq<(string, Result<Json, BuiltinKind>)>)
    requires forall i :: 0 <= i < |ms| ==> ms[i].1.Ok?
    ensures ObjectOf(ms).Ok? && ObjectOf(ms).value.JObject?
    ensures var out := ObjectOf(ms).value.members;
      var sorted := SortByKey(ms);
      |out| == |ms| && forall i :: 0 <= i < |out| ==> out[i].0 == sorted[i].0 && sorted[i].1 == Ok(out[i].1)
  {
    var sorted := SortByKey(ms);
    forall i | 0 <= i < |sorted| ensures sorted[i].1.Ok? {
      assert sorted[i] in multiset(ms);
    }
  }

  /** The object written fails exactly when one of its values fails. */
  lemma ObjectOfErr(ms: seq<(string, Result<Json, BuiltinKind>)>)
    ensures ObjectOf(ms).Err? <==> exists i :: 0 <= i < |ms| && ms[i].1.Err?
  {
    var sorted := SortByKey(ms);
    var rs := seq(|sorted|, i requires 0 <= i < |sorted| => JsonMember(sorted[i]));
    if exists i :: 0 <= i < |ms| && ms[i].1.Err? {
      var i :| 0 <= i < |ms| && ms[i].1.Err?;
      assert ms[i] in multiset(sorted);
      var k :| 0 <= k < |sorted| && sorted[k] == ms[i];
      assert rs[k].Err?;
    } else {
      forall k | 0 <= k < |sorted| ensures rs[k].Ok? {
        assert sorted[k] in multiset(ms);
      }
    }
  }

  /** The encoder fails exactly on the values it cannot write. */
  lemma {:induction false} ToJsonFailsIffNotSerializable(v: PyValue)
    ensures ToJson(v).Err? <==> !Serializable(v)
    decreases v
  {
    match v
    case PyList(items) =>
      var rs := seq(|items|, i requires 0 <= i < |items| => ToJson(items[i]));
      forall i | 0 <= i < |items| ensures rs[i].Err? <==> !Serializable(items[i]) {
        ToJsonFailsIffNotSerializable(items[i]);
      }
    case PyDict(entries) =>
      forall i | 0 <= i < |entries|
        ensures ToJson(entries[i].1).Err? <==> !Serializable(entries[i].1)
      {
        ToJsonFailsIffNotSerializable(entries[i].1);
      }
      if !HasOtherKey(entries) {
        var ms := seq(|entries|, i requires 0 <= i < |entries| => (entries[i].0.s, ToJson(entries[i].1)));
        ObjectOfErr(ms);
        assert forall i :: 0 <= i < |entries| ==> ms[i].1 == ToJson(entries[i].1);
      }
    case PyObject(_, attrs) =>
      forall i | 0 <= i < |attrs| ensures ToJson(attrs[i].1).Err? <==> !Serializable(attrs[i].1) {
        ToJsonFailsIffNotSerializable(attrs[i].1);
      }
      var ms := seq(|attrs|, i requires 0 <= i < |attrs| => (attrs[i].0, ToJson(attrs[i].1)));
      ObjectOfErr(ms);
      assert forall i :: 0 <= i < |attrs| ==> ms[i].1 == ToJson(attrs[i].1);
    case _ =>
  }

  /** Encoding the members of one object: when the pairs have distinct keys
      and every value encodes to a canonical document, the object is canonical. */
  lemma ObjectOfCanonical(ms: seq<(string, Result<Json, BuiltinKind>)>, j: Json)
    requires DistinctKeys(ms)
    requires forall i :: 0 <= i < |ms| ==> ms[i].1.Ok? ==> Canonical(ms[i].1.value)
    requires ObjectOf(ms) == Ok(j)
    ensures Canonical(j)
  {
    var sorted := SortByKey(ms);
    ObjectOfErr(ms);
    ObjectOfOk(ms);
    SortIsSorted(ms);
    SortKeepsDistinct(ms);
    var out := j.members;
    assert forall i :: 0 <= i < |out| ==> out[i].0 == sorted[i].0;
    forall i | 0 <= i < |out| ensures Canonical(out[i].1) {
      assert sorted[i] in multiset(ms);
    }
  }

  /** Everything the encoder writes for a well-formed value is canonical. */
  lemma {:induction false} ToJsonCanonical(v: PyValue)
    requires WellFormed(v) && ToJson(v).Ok?
    ensures Canonical(ToJson(v).value)
    decreases v
  {
    match v
    case PyList(items) =>
      var rs := seq(|items|, i requires 0 <= i < |items| => ToJson(items[i]));
      forall i | 0 <= i < |items| ensures Canonical(ToJson(v).value.items[i]) {
        assert rs[i].Ok?;
        ToJsonCanonical(items[i]);
      }
    case PyDict(entries) =>
      var ms := seq(|entries|, i requires 0 <= i < |entries| => (entries[i].0.s, ToJson(entries[i].1)));
      forall i | 0 <= i < |ms| && ms[i].1.Ok? ensures Canonical(ms[i].1.value) {
        ToJsonCanonical(entries[i].1);
      }
      forall i, k | 0 <= i < k < |ms| ensures ms[i].0 != ms[k].0 {
        assert entries[i].0 != entries[k].0;
        assert !entries[i].0.OtherKey? && !entries[k].0.OtherKey?;
      }
      ObjectOfCanonical(ms, ToJson(v).value);
    case PyObject(_, attrs) =>
      var ms := seq(|attrs|, i requires 0 <= i < |attrs| => (attrs[i].0, ToJson(attrs[i].1)));
      forall i | 0 <= i < |ms| && ms[i].1.Ok? ensures Canonical(ms[i].1.value) {
        ToJsonCanonical(attrs[i].1);
      }
      assert forall i, k :: 0 <= i < k < |ms| ==> ms[i].0 == attrs[i].0 && ms[k].0 == attrs[k].0;
      ObjectOfCanonical(ms, ToJson(v).value);
    case _ =>
  }

  /** The Python value `json.loads` makes of a document: objects become dicts. */
  function FromJson(j: Json): PyValue
    decreases j
  {
    match j
    case JNull => PyNone
    case JBool(b) => PyBool(b)
    case JInt(i) => PyInt(i)
    case JString(s) => PyStr(s)
    case JArray(items) => PyList(seq(|items|, i requires 0 <= i < |items| => FromJson(items[i])))
    case JObject(ms) => PyDict(seq(|ms|, i requires 0 <= i < |ms| => (StrKey(ms[i].0), FromJson(ms[i].1))))
  }

  /** Writing back what was read from a canonical document gives the document itself. */
  lemma {:induction false} ToJsonFromJson(j: Json)
    requires Canonical(j)
    ensures ToJson(FromJson(j)) == Ok(j)
    decreases j
  {
    match j
    case JArray(items) =>
      forall i | 0 <= i < |items| ensures ToJson(FromJson(items[i])) == Ok(items[i]) {
        ToJsonFromJson(items[i]);
      }
      ArrayReadsBack(items);
    case JObject(ms) =>
      forall i | 0 <= i < |ms| ensures ToJson(FromJson(ms[i].1)) == Ok(ms[i].1) {
        ToJsonFromJson(ms[i].1);
      }
      ObjectReadsBack(ms);
    case _ =>
  }

  /** An array whose items read back reads back. */
  lemma ArrayReadsBack(items: seq<Json>)
    requires forall i :: 0 <= i < |items| ==> ToJson(FromJson(items[i])) == Ok(items[i])
    ensures ToJson(FromJson(JArray(items))) == Ok(JArray(items))
  {
    var vs := seq(|items|, i requires 0 <= i < |items| => FromJson(items[i]));
    var rs := seq(|vs|, i requires 0 <= i < |vs| => ToJson(vs[i]));
    assert forall i :: 0 <= i < |items| ==> rs[i] == Ok(items[i]);
    assert Collect(rs).value == items;
  }

  /** A canonical object whose values read back reads back. */
  lemma ObjectReadsBack(ms: seq<(string, Json)>)
    requires Canonical(JObject(ms))
    requires forall i :: 0 <= i < |ms| ==> ToJson(FromJson(ms[i].1)) == Ok(ms[i].1)
    ensures ToJson(FromJson(JObject(ms))) == Ok(JObject(ms))
  {
    var entries := seq(|ms|, i requires 0 <= i < |ms| => (StrKey(ms[i].0), FromJson(ms[i].1)));
    assert FromJson(JObject(ms)) == PyDict(entries);
    assert !HasOtherKey(entries);
    var rms := seq(|entries|, i requires 0 <= i < |entries| => (entries[i].0.s, ToJson(entries[i].1)));
    assert forall i :: 0 <= i < |ms| ==> rms[i] == (ms[i].0, Ok(ms[i].1));
    assert SortedByKey(rms);
    SortSortedIsIdentity(rms);
    ObjectOfOk(rms);
    assert ObjectOf(rms).value.members == ms;
  }

  /** An instance is written as its `__dict__` would be. */
  lemma ObjectIsItsDict(className: string, attrs: seq<(string, PyValue)>)
    ensures ToJson(PyObject(className, attrs))
         == ToJson(PyDict(seq(|attrs|, i requires 0 <= i < |attrs| => (StrKey(attrs[i].0), attrs[i].1))))
  {
    var entries := seq(|attrs|, i requires 0 <= i < |attrs| => (StrKey(attrs[i].0), attrs[i].1));
    assert !HasOtherKey(entries);
    var a := seq(|attrs|, i requires 0 <= i < |attrs| => (attrs[i].0, ToJson(attrs[i].1)));
    var b := seq(|entries|, i requires 0 <= i < |entries| => (entries[i].0.s, ToJson(entries[i].1)));
    assert a == b;
  }

  /** A datetime is written as its `record_date` text, which reads back as the
      same datetime. */
  lemma DateTimeIsItsText(d: DateTime)
    ensures ToJson(PyDateTime(d)) == Ok(JString(DateToString(d)))
    ensures ParseDateText(ToJson(PyDateTime(d)).value.s) == Some(d)
  {
    DateTextRoundTrip(d);
  }

  /** An instance is written as the object of its attributes' encodings. */
  lemma ObjectEncodes(className: string, attrs: seq<(string, PyValue)>, ms: seq<(string, Result<Json, BuiltinKind>)>)
    requires |ms| == |attrs| && forall k :: 0 <= k < |ms| ==> ms[k] == (attrs[k].0, ToJson(attrs[k].1))
    ensures ToJson(PyObject(className, attrs)) == ObjectOf(ms)
  {
    assert ms == seq(|attrs|, k requires 0 <= k < |attrs| => (attrs[k].0, ToJson(attrs[k].1)));
  }

  /** `{"$class": type(data).__name__, "$contents": data}` (cdls/db.py). */
  function Package(data: PyValue): PyValue {
    PyDict([(StrKey("$class"), PyStr(TypeName(data))), (StrKey("$contents"), data)])
  }

  /** `"$class"` sorts before `"$contents"`. */
  lemma ClassKeyFirst()
    ensures StrLt("$class", "$contents")
  {
    assert "$class"[1..] == "class" && "$contents"[1..] == "contents";
    assert "class"[1..] == "lass" && "contents"[1..] == "ontents";
  }

  /** An object of two members whose keys are already in order. */
  lemma ObjectOfTwo(k1: string, r1: Result<Json, BuiltinKind>, k2: string, r2: Result<Json, BuiltinKind>)
    requires StrLt(k1, k2)
    ensures r1.Ok? && r2.Ok? ==> ObjectOf([(k1, r1), (k2, r2)]) == Ok(JObject([(k1, r1.value), (k2, r2.value)]))
    ensures r1.Err? ==> ObjectOf([(k1, r1), (k2, r2)]) == Err(r1.error)
    ensures r1.Ok? && r2.Err? ==> ObjectOf([(k1, r1), (k2, r2)]) == Err(r2.error)
  {
    var ms := [(k1, r1), (k2, r2)];
    assert SortedByKey(ms) by {
      StrLtAsymmetric(k1, k2);
    }
    SortSortedIsIdentity(ms);
    CollectTwo(JsonMember(ms[0]), JsonMember(ms[1]));
    assert seq(|ms|, i requires 0 <= i < |ms| => JsonMember(ms[i])) == [JsonMember(ms[0]), JsonMember(ms[1])];
  }

  lemma CollectTwo<T>(a: Result<T, BuiltinKind>, b: Result<T, BuiltinKind>)
    ensures a.Ok? && b.Ok? ==> Collect([a, b]) == Ok([a.value, b.value])
    ensures a.Err? ==> Collect([a, b]) == Err(a.error)
    ensures a.Ok? && b.Err? ==> Collect([a, b]) == Err(b.error)
  {
    var rs := [a, b];
    var r := Collect(rs);
    if r.Ok? {
      assert r.value == [rs[0].value, rs[1].value];
    }
  }

  /** The packaged document names the class first, then holds the data's own
      document; it fails exactly when the data does, with the same error. */
  lemma PackageShape(data: PyValue)
    ensures ToJson(data).Ok? ==>
      ToJson(Package(data)) == Ok(JObject([("$class", JString(TypeName(data))), ("$contents", ToJson(data).value)]))
    ensures ToJson(data).Err? ==> ToJson(Package(data)) == Err(ToJson(data).error)
  {
    PackageMembers(data);
    ClassKeyFirst();
    ObjectOfTwo("$class", Ok(JString(TypeName(data))), "$contents", ToJson(data));
  }

  /** The package is written as the object of its two encoded members. */
  lemma PackageMembers(data: PyValue)
    ensures ToJson(Package(data)) == ObjectOf([("$class", Ok(JString(TypeName(data)))), ("$contents", ToJson(data))])
  {
    var entries := [(StrKey("$class"), PyStr(TypeName(data))), (StrKey("$contents"), data)];
    assert !HasOtherKey(entries);
    var ms: seq<(string, Result<Json, BuiltinKind>)> := [("$class", Ok(JString(TypeName(data)))), ("$contents", ToJson(data))];
    assert ms[0] == (entries[0].0.s, ToJson(entries[0].1)) && ms[1] == (entries[1].0.s, ToJson(entries[1].1));
    DictEncodes(entries, ms);
  }

  /** A dict with string keys only is written as the object of its entries' encodings. */
  lemma DictEncodes(entries: seq<(DictKey, PyValue)>, ms: seq<(string, Result<Json, BuiltinKind>)>)
    requires !HasOtherKey(entries)
    requires |ms| == |entries| && forall k :: 0 <= k < |ms| ==> ms[k] == (entries[k].0.s, ToJson(entries[k].1))
    ensures ToJson(PyDict(entries)) == ObjectOf(ms)
  {
    assert ms == seq(|entries|, k requires 0 <= k < |entries| => (entries[k].0.s, ToJson(entries[k].1)));
  }
}
