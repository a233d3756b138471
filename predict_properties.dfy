/** What the `/predict` and `/model-info` handlers promise, stated over all
    inputs and all models. */
module PredictProperties {
  import opened Wrappers
  import opened JsonValues
  import opened KeyOrder
  import opened NdArrays
  import opened Decimal
  import opened Serving

  // ---------------------------------------------------------------------------
  // Order of the checks
  // ---------------------------------------------------------------------------

  /** A request that is turned away — empty body, a body the normaliser cannot
      turn into an array, or a failed feature-count check — gets the same
      response whatever `predict` and `predict_proba` would do: neither is
      called. */
  lemma RejectedWithoutInvoking(m: Model, payload: Json,
                                p: Option<NdArray -> Result<seq<Json>>>,
                                q: Option<NdArray -> Result<seq<Json>>>)
    requires Falsy(payload) || Normalize(payload).Err? || ValidateCount(m, Normalize(payload).value).Some?
    ensures Predict(Some(m), payload) == Predict(Some(m.(predict := p, proba := q)), payload)
    ensures Predict(Some(m), payload).status != 200
  {
  }

  /** Without a model every request gets the same 500, whatever its body. */
  lemma NotLoadedIgnoresBody(x: Json, y: Json)
    ensures Predict(None, x) == Predict(None, y)
    ensures "success" !in Predict(None, x).body
  {
  }

  // ---------------------------------------------------------------------------
  // The feature-count check
  // ---------------------------------------------------------------------------

  /** Reads the two counts back out of a mismatch message. */
  function ParseMismatch(msg: string): (r: Option<(nat, nat)>)
  {
    if !("Expected " <= msg) then None
    else
      var rest := msg[9..];
      var expected := DigitPrefix(rest);
      var tail := rest[|expected|..];
      if expected == [] || !(" features, got " <= tail) then None
      else
        var got := tail[15..];
        if IsDigits(got) then Some((ParseDigits(expected), ParseDigits(got))) else None
  }

  /** The mismatch message names both the expected and the actual count, and
      each can be read back from it. */
  lemma MismatchMessageReadsBack(expected: nat, got: nat)
    ensures ParseMismatch(MismatchMessage(expected, got)) == Some((expected, got))
  {
    var e, g := NatToString(expected), NatToString(got);
    var msg := MismatchMessage(expected, got);
    assert msg == "Expected " + (e + (" features, got " + g));
    var rest := msg[9..];
    assert rest == e + (" features, got " + g);
    DigitPrefixOf(e, " features, got " + g);
    assert rest[|e|..] == " features, got " + g;
    assert (" features, got " + g)[15..] == g;
    ParseNatToString(expected);
    ParseNatToString(got);
  }

  /** Two mismatch messages are equal only for equal counts. */
  lemma MismatchMessageInjective(e1: nat, g1: nat, e2: nat, g2: nat)
    requires MismatchMessage(e1, g1) == MismatchMessage(e2, g2)
    ensures e1 == e2 && g1 == g2
  {
    MismatchMessageReadsBack(e1, g1);
    MismatchMessageReadsBack(e2, g2);
  }

  /** A model that declares its feature count rejects an array with another
      column count with a 400 that names both counts. */
  lemma CountMismatchRejects(m: Model, payload: Json, a: NdArray)
    requires !Falsy(payload) && Normalize(payload) == Ok(a)
    requires m.nFeatures.Some? && |a.shape| >= 2 && a.shape[1] != m.nFeatures.value
    ensures Predict(Some(m), payload) == CountMismatch(m.nFeatures.value, a.shape[1])
    ensures Predict(Some(m), payload).status == 400
    ensures Predict(Some(m), payload).body["error"].Str?
    ensures ParseMismatch(Predict(Some(m), payload).body["error"].s) == Some((m.nFeatures.value, a.shape[1]))
  {
    MismatchMessageReadsBack(m.nFeatures.value, a.shape[1]);
  }

  /** When the count agrees, or the model declares none, the model is called. */
  lemma CountAcceptedInvokes(m: Model, payload: Json, a: NdArray)
    requires !Falsy(payload) && Normalize(payload) == Ok(a)
    requires m.nFeatures.None? || (|a.shape| >= 2 && a.shape[1] == m.nFeatures.value)
    ensures Predict(Some(m), payload) == Invoke(m, a)
  {
  }

  // ---------------------------------------------------------------------------
  // Shapes of the body
  // ---------------------------------------------------------------------------

  /** A body that cannot be made into an array raises on the way, and the
      handler's final `except` answers the 500 with the exception text. */
  lemma NormalizeErrorIs500(m: Model, payload: Json)
    requires !Falsy(payload) && Normalize(payload).Err?
    ensures Predict(Some(m), payload) == PredictionFailed(Normalize(payload).error)
    ensures Predict(Some(m), payload).status == 500
  {
  }

  /** A ragged `data` body fails with the 500, not a validation error. */
  lemma RaggedDataIs500(m: Model, fields: seq<(string, Json)>, rows: seq<seq<Json>>, k: nat)
    requires "features" !in Keys(fields) && "data" in Keys(fields)
    requires Get(fields, "data") == RowsJson(rows)
    requires forall i :: 0 <= i < |rows| ==> AllLeaves(rows[i])
    requires 0 < k < |rows| && |rows[k]| != |rows[0]|
    ensures FromJson(RowsJson(rows)).Err?
    ensures Predict(Some(m), Obj(fields)) == PredictionFailed(FromJson(RowsJson(rows)).error)
    ensures Predict(Some(m), Obj(fields)).status == 500
  {
    RaggedRowsFail(rows, k);
    DataIsNpArray(fields);
    assert !Falsy(Obj(fields)) by {
      assert Keys(fields) != [];
    }
    NormalizeErrorIs500(m, Obj(fields));
  }

  /** A `features` value numpy refuses raises at the reshape line, and the
      request ends in the caught 500. */
  lemma FeaturesFailureIs500(m: Model, fields: seq<(string, Json)>)
    requires "features" in Keys(fields) && FromJson(Get(fields, "features")).Err?
    ensures Predict(Some(m), Obj(fields)) == PredictionFailed(FromJson(Get(fields, "features")).error)
  {
  }

  /** A bare list numpy refuses ends in the caught 500 too. */
  lemma BareListFailureIs500(m: Model, xs: seq<Json>)
    requires xs != [] && Str("features") !in xs && Str("data") !in xs && FromJson(Arr(xs)).Err?
    ensures Predict(Some(m), Arr(xs)) == PredictionFailed(FromJson(Arr(xs)).error)
  {
  }

  /** `{"data": x}` is `np.array(x)` exactly, whatever its depth: nothing is
      reshaped, so `shape[1]` is the second dimension numpy gives. */
  lemma DataIsNpArray(fields: seq<(string, Json)>)
    requires "features" !in Keys(fields) && "data" in Keys(fields)
    ensures Normalize(Obj(fields)) == FromJson(Get(fields, "data"))
  {
  }

  /** A bare list is `np.array(data)`, reshaped to one row only when it is
      1-dimensional; arrays of two or more dimensions pass unchanged. */
  lemma BareListIsNpArray(xs: seq<Json>, a: NdArray)
    requires Str("features") !in xs && Str("data") !in xs && FromJson(Arr(xs)) == Ok(a)
    ensures Normalize(Arr(xs)) == if |a.shape| == 1 then Ok(NdArray([1, |a.flat|], a.flat)) else Ok(a)
  {
  }

  /** Whatever `np.array` makes of the `features` value, `reshape(1, -1)`
      flattens it into one row of all its elements, in row-major order. */
  lemma FeaturesFlattened(fields: seq<(string, Json)>, a: NdArray)
    requires "features" in Keys(fields) && FromJson(Get(fields, "features")) == Ok(a)
    ensures Normalize(Obj(fields)) == Ok(NdArray([1, |a.flat|], a.flat))
  {
  }

  /** A nested `features` value is not refused: its rows are concatenated. */
  lemma NestedFeaturesConcatenated(fields: seq<(string, Json)>, rows: seq<seq<Json>>, n: nat)
    requires "features" in Keys(fields) && Get(fields, "features") == RowsJson(rows)
    requires |rows| > 0 && forall i :: 0 <= i < |rows| ==> |rows[i]| == n && AllLeaves(rows[i])
    ensures Normalize(Obj(fields)) == Ok(NdArray([1, |rows| * n], Flatten(rows)))
  {
    var a := NdArray([|rows|, n], Flatten(rows));
    MatrixOfRows(rows, n);
    assert FromJson(Get(fields, "features")) == Ok(a);
    FlattenLength(rows, n);
    FeaturesFlattened(fields, a);
  }

  /** A string body that mentions neither key is a 0-dimensional array of
      itself. */
  lemma PlainStringIsScalar(s: string)
    requires !IsSubstring("features", s) && !IsSubstring("data", s)
    ensures Normalize(Str(s)) == Ok(NdArray([], [Str(s)]))
  {
  }

  /** `{"features": xs, ...}` with a flat `xs` is exactly one row equal to `xs`,
      whatever other keys the object has (a `data` key included). */
  lemma FeaturesIsOneRow(fields: seq<(string, Json)>, xs: seq<Json>)
    requires "features" in Keys(fields) && Get(fields, "features") == Arr(xs)
    requires AllLeaves(xs)
    ensures Normalize(Obj(fields)) == Ok(NdArray([1, |xs|], xs))
  {
    VectorOfLeaves(xs);
  }

  /** `{"data": rows}` without `features`, rows all of length n: one row per
      inner list, in order, and n columns. */
  lemma DataIsRowPerList(fields: seq<(string, Json)>, rows: seq<seq<Json>>, n: nat)
    requires "features" !in Keys(fields) && "data" in Keys(fields)
    requires Get(fields, "data") == RowsJson(rows)
    requires |rows| > 0 && forall i :: 0 <= i < |rows| ==> |rows[i]| == n && AllLeaves(rows[i])
    ensures Normalize(Obj(fields)) == Ok(NdArray([|rows|, n], Flatten(rows)))
  {
    MatrixOfRows(rows, n);
    DataIsNpArray(fields);
  }

  /** `{"data": xs}` with a flat `xs` is not reshaped: it stays 1-dimensional,
      and a model that declares its feature count makes the request fail with
      a 500 when `shape[1]` is read. */
  lemma FlatDataIsNotReshaped(m: Model, fields: seq<(string, Json)>, xs: seq<Json>)
    requires "features" !in Keys(fields) && "data" in Keys(fields)
    requires Get(fields, "data") == Arr(xs) && AllLeaves(xs)
    ensures Normalize(Obj(fields)) == Ok(NdArray([|xs|], xs))
    ensures m.nFeatures.Some? ==> Predict(Some(m), Obj(fields)) == PredictionFailed(TupleIndexError)
  {
    VectorOfLeaves(xs);
  }

  /** The row of an object of numbers is a one-row array of those numbers. */
  lemma NumericRowIsOneRow(fields: seq<(string, Json)>)
    requires AllNumeric(fields)
    ensures OneRow(Arr(KeyOrderRow(fields))) == Ok(NdArray([1, |fields|], KeyOrderRow(fields)))
  {
    var row := KeyOrderRow(fields);
    forall i | 0 <= i < |row| ensures IsLeaf(row[i]) {
      var k :| 0 <= k < |fields| && fields[k] == (SortedKeys(fields)[i], row[i]);
      assert IsNumber(fields[k].1);
    }
    VectorOfLeaves(row);
  }

  /** An object of numbers (booleans included) without `features` or `data` is
      one row holding its values in ascending key order. */
  lemma NumericObjectIsSortedRow(fields: seq<(string, Json)>)
    requires "features" !in Keys(fields) && "data" !in Keys(fields)
    requires AllNumeric(fields)
    ensures FromObject(fields) == Ok(NdArray([1, |fields|], KeyOrderRow(fields)))
    ensures Sorted(SortedKeys(fields)) && multiset(SortedKeys(fields)) == multiset(Keys(fields))
    ensures forall i :: 0 <= i < |fields| ==> (SortedKeys(fields)[i], KeyOrderRow(fields)[i]) in fields
  {
    NumericRowIsOneRow(fields);
  }

  /** The body `{"b": 2, "a": true}`. */
  const ExampleFields: seq<(string, Json)> := [("b", Num(2.0)), ("a", Bool(true))]

  /** `{"b": 2, "a": true}` is the row `[true, 2]`: the keys are sorted and a
      boolean passes the number test. */
  lemma BooleanCountsAsNumber()
    ensures FromObject(ExampleFields) == Ok(NdArray([1, 2], [Bool(true), Num(2.0)]))
  {
    ExampleIsNumericRow();
    ExampleRow();
  }

  lemma ExampleIsNumericRow()
    ensures FromObject(ExampleFields) == Ok(NdArray([1, 2], KeyOrderRow(ExampleFields)))
  {
    assert Keys(ExampleFields) == ["b", "a"];
    NumericObjectIsSortedRow(ExampleFields);
  }

  lemma ExampleRow()
    ensures KeyOrderRow(ExampleFields) == [Bool(true), Num(2.0)]
  {
    ExampleKeysSorted();
    var row := KeyOrderRow(ExampleFields);
    assert ("a", row[0]) in ExampleFields && ("b", row[1]) in ExampleFields;
  }

  lemma ExampleKeysSorted()
    ensures SortedKeys(ExampleFields) == ["a", "b"]
  {
    assert Keys(ExampleFields) == ["b", "a"];
    assert Less("a", "b");
  }

  /** `features` is tested before the all-numbers branch: a number under
      `features` is a 1-by-1 array, whatever the other values are. */
  lemma FeaturesWinsOverNumbers(fields: seq<(string, Json)>)
    requires "features" in Keys(fields) && IsLeaf(Get(fields, "features"))
    ensures Normalize(Obj(fields)) == Ok(NdArray([1, 1], [Get(fields, "features")]))
  {
  }

  /** `data` is tested before the all-numbers branch too: a number under
      `data` is used alone as a 0-dimensional array. */
  lemma DataWinsOverNumbers(fields: seq<(string, Json)>)
    requires "features" !in Keys(fields) && "data" in Keys(fields) && IsLeaf(Get(fields, "data"))
    ensures Normalize(Obj(fields)) == Ok(NdArray([], [Get(fields, "data")]))
  {
  }

  /** On a list body `'features' in data` and `'data' in data` test for an
      element; when one is found the string subscript that follows raises. */
  lemma KeyInListRaises(xs: seq<Json>)
    requires Str("features") in xs || Str("data") in xs
    ensures Normalize(Arr(xs)) == Err(ListIndexError)
  {
  }

  /** On a string body the same tests look for a substring, and a match makes
      the subscript raise. */
  lemma KeyInStringRaises(s: string)
    requires (exists i :: OccursAt("features", s, i)) || (exists i :: OccursAt("data", s, i))
    ensures Normalize(Str(s)) == Err(StrIndexError)
  {
    SubstringOccurs("features", s);
    SubstringOccurs("data", s);
  }

  /** An object with a value that is not a number, and without `features` or
      `data`, becomes a 0-dimensional array, which a model that declares its
      feature count cannot index. */
  lemma NonNumericObjectFails(m: Model, fields: seq<(string, Json)>)
    requires "features" !in Keys(fields) && "data" !in Keys(fields)
    requires !AllNumeric(fields)
    ensures Normalize(Obj(fields)) == Ok(NdArray([], [Obj(fields)]))
    ensures m.nFeatures.Some? ==> Predict(Some(m), Obj(fields)) == PredictionFailed(TupleIndexError)
  {
  }

  /** A bare flat list is one row of the same length. */
  lemma BareVectorIsOneRow(xs: seq<Json>)
    requires AllLeaves(xs) && Str("features") !in xs && Str("data") !in xs
    ensures Normalize(Arr(xs)) == Ok(NdArray([1, |xs|], xs))
  {
    VectorOfLeaves(xs);
  }

  /** A bare list of equal-length lists is used as it is. */
  lemma BareMatrixIsUnchanged(rows: seq<seq<Json>>, n: nat)
    requires |rows| > 0 && forall i :: 0 <= i < |rows| ==> |rows[i]| == n && AllLeaves(rows[i])
    ensures Normalize(RowsJson(rows)) == Ok(NdArray([|rows|, n], Flatten(rows)))
  {
    MatrixOfRows(rows, n);
    var j := RowsJson(rows);
    assert Str("features") !in j.elems && Str("data") !in j.elems;
  }

  // ---------------------------------------------------------------------------
  // Insertion order of an object
  // ---------------------------------------------------------------------------

  /** In a sequence without repeats every element occurs once. */
  lemma {:induction false} OnceEach(s: seq<string>, x: string)
    requires NoDuplicates(s)
    ensures multiset(s)[x] == if x in s then 1 else 0
  {
    if s != [] {
      assert s == [s[0]] + s[1..];
      assert NoDuplicates(s[1..]) by {
        forall i, j | 0 <= i < j < |s[1..]| ensures s[1..][i] != s[1..][j] {
          assert s[1..][i] == s[i + 1] && s[1..][j] == s[j + 1];
        }
      }
      OnceEach(s[1..], x);
      if x == s[0] {
        assert x !in s[1..] by {
          forall i | 0 <= i < |s[1..]| ensures s[1..][i] != x {
            assert s[1..][i] == s[i + 1];
          }
        }
      }
    }
  }

  /** Two dicts that map the same keys to the same values, in whatever
      insertion order, have the same sorted keys and the same value row. */
  lemma SameMappingSameRow(f1: seq<(string, Json)>, f2: seq<(string, Json)>)
    requires DistinctKeys(f1) && DistinctKeys(f2)
    requires forall k :: Lookup(f1, k) == Lookup(f2, k)
    ensures SortedKeys(f1) == SortedKeys(f2)
    ensures KeyOrderRow(f1) == KeyOrderRow(f2)
  {
    var k1, k2 := Keys(f1), Keys(f2);
    assert NoDuplicates(k1) && NoDuplicates(k2);
    forall x ensures multiset(k1)[x] == multiset(k2)[x] {
      OnceEach(k1, x);
      OnceEach(k2, x);
      assert (x in k1) == Lookup(f1, x).Some?;
    }
    assert multiset(k1) == multiset(k2);
    SortedUnique(SortedKeys(f1), SortedKeys(f2));
    var ks := SortedKeys(f1);
    forall i | 0 <= i < |ks| ensures KeyOrderRow(f1)[i] == KeyOrderRow(f2)[i] {
      LookupMember(f1, ks[i], KeyOrderRow(f1)[i]);
      LookupMember(f2, ks[i], KeyOrderRow(f2)[i]);
    }
  }

  /** The same two dicts agree on which values are numbers. */
  lemma SameMappingSameNumeric(f1: seq<(string, Json)>, f2: seq<(string, Json)>)
    requires DistinctKeys(f1) && DistinctKeys(f2)
    requires forall k :: Lookup(f1, k) == Lookup(f2, k)
    requires AllNumeric(f1)
    ensures AllNumeric(f2)
  {
    forall i | 0 <= i < |f2| ensures IsNumber(f2[i].1) {
      LookupMember(f2, f2[i].0, f2[i].1);
      assert Lookup(f1, f2[i].0) == Some(f2[i].1);
      var k :| 0 <= k < |f1| && f1[k] == (f2[i].0, f2[i].1);
    }
  }

  /** Two dicts with the same mapping agree on the two key tests and on
      emptiness. */
  lemma SameMappingSameTests(f1: seq<(string, Json)>, f2: seq<(string, Json)>)
    requires forall k :: Lookup(f1, k) == Lookup(f2, k)
    ensures ("features" in Keys(f1)) == ("features" in Keys(f2))
    ensures ("data" in Keys(f1)) == ("data" in Keys(f2))
    ensures (f1 == []) == (f2 == [])
  {
    assert Lookup(f1, "features") == Lookup(f2, "features");
    assert Lookup(f1, "data") == Lookup(f2, "data");
    if f1 != [] { assert Lookup(f1, f1[0].0).Some?; }
    if f2 != [] { assert Lookup(f2, f2[0].0).Some?; }
  }

  /** The dict branches of the normaliser read an object only through its
      mapping, in the three key-driven branches. */
  lemma SameMappingSameArray(f1: seq<(string, Json)>, f2: seq<(string, Json)>)
    requires DistinctKeys(f1) && DistinctKeys(f2)
    requires forall k :: Lookup(f1, k) == Lookup(f2, k)
    requires "features" in Keys(f1) || "data" in Keys(f1) || AllNumeric(f1)
    ensures FromObject(f1) == FromObject(f2)
  {
    SameMappingSameTests(f1, f2);
    if "features" in Keys(f1) {
      assert Lookup(f1, "features") == Lookup(f2, "features");
    } else if "data" in Keys(f1) {
      assert Lookup(f1, "data") == Lookup(f2, "data");
    } else {
      SameMappingSameNumeric(f1, f2);
      SameMappingSameRow(f1, f2);
    }
  }

  /** Reordering the members of an object whose row the handler builds from
      its keys — `features`, `data`, or all values numbers — changes nothing
      in the response. */
  lemma InsertionOrderIrrelevant(held: Option<Model>, f1: seq<(string, Json)>, f2: seq<(string, Json)>)
    requires DistinctKeys(f1) && DistinctKeys(f2)
    requires forall k :: Lookup(f1, k) == Lookup(f2, k)
    requires "features" in Keys(f1) || "data" in Keys(f1) || AllNumeric(f1)
    ensures Normalize(Obj(f1)) == Normalize(Obj(f2))
    ensures Predict(held, Obj(f1)) == Predict(held, Obj(f2))
  {
    SameMappingSameTests(f1, f2);
    SameMappingSameArray(f1, f2);
    assert Normalize(Obj(f1)) == FromObject(f1) && Normalize(Obj(f2)) == FromObject(f2);
    assert Falsy(Obj(f1)) == Falsy(Obj(f2));
  }

  // ---------------------------------------------------------------------------
  // Error policy of the model call
  // ---------------------------------------------------------------------------

  /** A `predict_proba` that raises is indistinguishable from none at all. */
  lemma FailingProbaIsAbsentProba(m: Model, a: NdArray, q: NdArray -> Result<seq<Json>>)
    requires q(a).Err?
    ensures Invoke(m.(proba := Some(q)), a) == Invoke(m.(proba := None), a)
  {
  }

  /** When `predict` raises or is missing, the request fails with a 500
      whatever `predict_proba` would do. */
  lemma FailingPredictIgnoresProba(m: Model, a: NdArray, q: Option<NdArray -> Result<seq<Json>>>)
    requires m.predict.None? || m.predict.value(a).Err?
    ensures Invoke(m, a) == Invoke(m.(proba := q), a)
    ensures Invoke(m, a).status == 500 && Invoke(m, a).body["success"] == Bool(false)
  {
  }

  /** A model whose `predict` answers once per row of a 2-dimensional array. */
  ghost predicate OnePerRow(m: Model) {
    m.predict.Some? &&
    forall a: NdArray {:trigger m.predict.value(a)} ::
      |a.shape| == 2 && m.predict.value(a).Ok? ==> |m.predict.value(a).value| == a.shape[0]
  }

  /** Given such a model, a successful `{"features": xs}` request gets one
      prediction. */
  lemma OnePredictionForFeatures(m: Model, fields: seq<(string, Json)>, xs: seq<Json>)
    requires OnePerRow(m)
    requires "features" in Keys(fields) && Get(fields, "features") == Arr(xs) && AllLeaves(xs)
    requires Predict(Some(m), Obj(fields)).status == 200
    ensures Predict(Some(m), Obj(fields)).body["predictions"].Arr?
    ensures |Predict(Some(m), Obj(fields)).body["predictions"].elems| == 1
  {
    FeaturesIsOneRow(fields, xs);
    var a := NdArray([1, |xs|], xs);
    assert m.predict.value(a).Ok?;
  }

  /** Given such a model, a successful `{"data": rows}` request gets one
      prediction per row. */
  lemma OnePredictionPerDataRow(m: Model, fields: seq<(string, Json)>, rows: seq<seq<Json>>, n: nat)
    requires OnePerRow(m)
    requires "features" !in Keys(fields) && "data" in Keys(fields)
    requires Get(fields, "data") == RowsJson(rows)
    requires |rows| > 0 && forall i :: 0 <= i < |rows| ==> |rows[i]| == n && AllLeaves(rows[i])
    requires Predict(Some(m), Obj(fields)).status == 200
    ensures Predict(Some(m), Obj(fields)).body["predictions"].Arr?
    ensures |Predict(Some(m), Obj(fields)).body["predictions"].elems| == |rows|
  {
    DataIsRowPerList(fields, rows, n);
    var a := NdArray([|rows|, n], Flatten(rows));
    assert m.predict.value(a).Ok?;
  }

  // ---------------------------------------------------------------------------
  // Model information
  // ---------------------------------------------------------------------------

  /** `/model-info` reads metadata only: the capabilities do not affect it. */
  lemma ModelInfoIgnoresCapabilities(m: Model,
                                     p: Option<NdArray -> Result<seq<Json>>>,
                                     q: Option<NdArray -> Result<seq<Json>>>)
    ensures ModelInfo(Some(m)) == ModelInfo(Some(m.(predict := p, proba := q)))
  {
  }
}
