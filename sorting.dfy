/** Python's `sorted(d.items())` for a dict with string keys: the key/value
    pairs in ascending key order. Dict keys are distinct, so the values are
    never compared. */
module Sorting {
  import opened Text

  predicate SortedByKey<V>(s: seq<(string, V)>) {
    forall i, j :: 0 <= i < j < |s| ==> !StrLt(s[j].0, s[i].0)
  }

  predicate DistinctKeys<V>(s: seq<(string, V)>) {
    forall i, j :: 0 <= i < j < |s| ==> s[i].0 != s[j].0
  }

  /** Puts `e` in front of the first pair whose key is not smaller than its own. */
  function InsertByKey<V>(e: (string, V), s: seq<(string, V)>): (r: seq<(string, V)>)
    ensures multiset(r) == multiset(s) + multiset{e}
    ensures |r| == |s| + 1
  {
    if s == [] || !StrLt(s[0].0, e.0) then [e] + s
    else
      assert s == [s[0]] + s[1..];
      [s[0]] + InsertByKey(e, s[1..])
  }

  /** A pair whose key is not above the first key goes in front. */
  lemma InsertInFront<V>(e: (string, V), s: seq<(string, V)>)
    requires s == [] || !StrLt(s[0].0, e.0)
    ensures InsertByKey(e, s) == [e] + s
  {
  }

  /** A pair whose key is above the first key goes after it. */
  lemma InsertPast<V>(e: (string, V), x: (string, V), s: seq<(string, V)>)
    requires StrLt(x.0, e.0)
    ensures InsertByKey(e, [x] + s) == [x] + InsertByKey(e, s)
  {
    assert ([x] + s)[0] == x && ([x] + s)[1..] == s;
  }

  lemma NotBelowFirst<V>(e: (string, V), s: seq<(string, V)>)
    requires SortedByKey(s) && s != [] && !StrLt(s[0].0, e.0)
    ensures forall j :: 0 <= j < |s| ==> !StrLt(s[j].0, e.0)
  {
    forall j | 0 < j < |s| ensures !StrLt(s[j].0, e.0) {
      if StrLt(s[j].0, e.0) {
        StrLtTotal(s[0].0, e.0);
        if s[0].0 != e.0 {
          StrLtTransitive(s[j].0, e.0, s[0].0);
        }
      }
    }
  }

  /** Inserting into key-sorted pairs keeps them sorted. */
  lemma {:induction false} InsertKeepsSorted<V>(e: (string, V), s: seq<(string, V)>)
    requires SortedByKey(s)
    ensures SortedByKey(InsertByKey(e, s))
  {
    if s == [] {
    } else if !StrLt(s[0].0, e.0) {
      NotBelowFirst(e, s);
    } else {
      var rest := InsertByKey(e, s[1..]);
      InsertKeepsSorted(e, s[1..]);
      forall j | 0 <= j < |rest| ensures !StrLt(rest[j].0, s[0].0) {
        assert rest[j] in multiset(rest);
        if rest[j] == e {
          StrLtAsymmetric(s[0].0, e.0);
        } else {
          assert rest[j] in s[1..];
          var k :| 0 <= k < |s[1..]| && s[1..][k] == rest[j];
          assert s[k + 1] == rest[j];
        }
      }
    }
  }

  /** Inserting a pair with a new key into pairs with distinct keys keeps the
      keys distinct. */
  lemma {:induction false} InsertKeepsDistinct<V>(e: (string, V), s: seq<(string, V)>)
    requires DistinctKeys(s) && forall j :: 0 <= j < |s| ==> s[j].0 != e.0
    ensures DistinctKeys(InsertByKey(e, s))
  {
    if s != [] && StrLt(s[0].0, e.0) {
      var rest := InsertByKey(e, s[1..]);
      InsertKeepsDistinct(e, s[1..]);
      forall j | 0 <= j < |rest| ensures rest[j].0 != s[0].0 {
        assert rest[j] in multiset(rest);
        if rest[j] != e {
          assert rest[j] in s[1..];
          var k :| 0 <= k < |s[1..]| && s[1..][k] == rest[j];
          assert s[k + 1] == rest[j];
        }
      }
    }
  }

  /** Insertion sort by key; stable, so pairs with equal keys keep their order. */
  function SortByKey<V>(s: seq<(string, V)>): (r: seq<(string, V)>)
    ensures multiset(r) == multiset(s)
    ensures |r| == |s|
  {
    if s == [] then []
    else
      assert s == [s[0]] + s[1..];
      InsertByKey(s[0], SortByKey(s[1..]))
  }

  /** Sorting puts the first pair into the sorted rest. */
  lemma SortStep<V>(x: (string, V), s: seq<(string, V)>)
    ensures SortByKey([x] + s) == InsertByKey(x, SortByKey(s))
  {
    assert ([x] + s)[0] == x && ([x] + s)[1..] == s;
  }

  /** `sorted` returns its pairs in ascending key order. */
  lemma {:induction false} SortIsSorted<V>(s: seq<(string, V)>)
    ensures SortedByKey(SortByKey(s))
  {
    if s != [] {
      SortIsSorted(s[1..]);
      InsertKeepsSorted(s[0], SortByKey(s[1..]));
    }
  }

  /** Sorting pairs with distinct keys leaves the keys distinct. */
  lemma {:induction false} SortKeepsDistinct<V>(s: seq<(string, V)>)
    requires DistinctKeys(s)
    ensures DistinctKeys(SortByKey(s))
  {
    if s != [] {
      var rest := SortByKey(s[1..]);
      SortKeepsDistinct(s[1..]);
      forall j | 0 <= j < |rest| ensures rest[j].0 != s[0].0 {
        assert rest[j] in multiset(s[1..]);
        assert rest[j] in s[1..];
        var k :| 0 <= k < |s[1..]| && s[1..][k] == rest[j];
        assert s[k + 1] == rest[j];
      }
      InsertKeepsDistinct(s[0], rest);
    }
  }

  /** Sorting pairs that are already in key order changes nothing. */
  lemma {:induction false} SortSortedIsIdentity<V>(s: seq<(string, V)>)
    requires SortedByKey(s)
    ensures SortByKey(s) == s
  {
    if s != [] {
      SortSortedIsIdentity(s[1..]);
      assert s == [s[0]] + s[1..];
      if |s| > 1 {
        assert !StrLt(s[1].0, s[0].0);
        assert s[1..][0] == s[1];
      }
    }
  }

  /** Sorted pairs with distinct keys are in strictly ascending key order. */
  lemma SortedDistinctIsStrict<V>(s: seq<(string, V)>)
    requires SortedByKey(s) && DistinctKeys(s)
    ensures forall i, j :: 0 <= i < j < |s| ==> StrLt(s[i].0, s[j].0)
  {
    forall i, j | 0 <= i < j < |s| ensures StrLt(s[i].0, s[j].0) {
      StrLtTotal(s[i].0, s[j].0);
    }
  }

}
