/** The request handlers of the prediction service: `/predict`, `/health` and
    `/model-info`. Each is a function of the model the holder currently has
    (`None` before a successful load) and, for `/predict`, of the parsed body. */
module Serving {
  import opened Wrappers
  import opened JsonValues
  import opened KeyOrder
  import opened NdArrays
  import opened Decimal

  /** The loaded model object, reduced to what the handlers consult. Each
      attribute the Python code probes with `hasattr` is optional. The two
      capabilities are functions of the array they are given; `Err` stands for
      the exception they raise. */
  datatype Model = Model(
    typeName: string,                               // type(model).__name__
    predict: Option<NdArray -> Result<seq<Json>>>,  // model.predict(X).tolist()
    proba: Option<NdArray -> Result<seq<Json>>>,    // model.predict_proba(X).tolist()
    nFeatures: Option<nat>,                         // model.n_features_in_
    classes: Option<seq<Json>>)                     // model.classes_.tolist()

  /** An HTTP status and the JSON object `jsonify` sends. */
  datatype Response = Response(status: int, body: map<string, Json>)

  // ---------------------------------------------------------------------------
  // Responses and error texts
  // ---------------------------------------------------------------------------

  /** Neither of these two bodies carries a `success` key. */
  const ModelNotLoaded := Response(500, map["error" := Str("Model not loaded")])
  const NoDataProvided := Response(400, map["error" := Str("No data provided")])

  /** Whatever is raised while the request is handled, caught at the end. */
  function PredictionFailed(cause: string): (r: Response)
    ensures r.status == 500 && r.body.Keys == {"error", "success"}
    ensures r.body["error"] == Str("Prediction failed: " + cause) && r.body["success"] == Bool(false)
  {
    Response(500, map["error" := Str("Prediction failed: " + cause), "success" := Bool(false)])
  }

  /** The text of the 400: the expected count and then the column count,
      each the leading digit run of what follows its fixed prefix. */
  function MismatchMessage(expected: nat, got: nat): (msg: string)
    ensures |msg| > 9 && msg[..9] == "Expected "
    ensures DigitPrefix(msg[9..]) == NatToString(expected)
    ensures msg[9 + |NatToString(expected)|..] == " features, got " + NatToString(got)
  {
    var e, tail := NatToString(expected), " features, got " + NatToString(got);
    var msg := "Expected " + (e + tail);
    DigitPrefixOf(e, tail);
    assert msg[9..] == e + tail;
    assert msg[9 + |e|..] == (e + tail)[|e|..] == tail;
    assert "Expected " + e + tail == msg;
    msg
  }

  function CountMismatch(expected: nat, got: nat): Response {
    Response(400, map["error" := Str(MismatchMessage(expected, got)), "success" := Bool(false)])
  }

  /** The 200 body: exactly `predictions`, `success` and, when computed,
      `probabilities`. */
  function Succeeded(predictions: seq<Json>, probabilities: Option<seq<Json>>): (r: Response)
    ensures r.status == 200
    ensures r.body.Keys == {"predictions", "success"} + (if probabilities.Some? then {"probabilities"} else {})
    ensures r.body["predictions"] == Arr(predictions) && r.body["success"] == Bool(true)
    ensures probabilities.Some? ==> r.body["probabilities"] == Arr(probabilities.value)
  {
    var body := map["predictions" := Arr(predictions), "success" := Bool(true)];
    Response(200, if probabilities.Some? then body["probabilities" := Arr(probabilities.value)] else body)
  }

  /** The exceptions Python raises on the way, by their message. */
  const ListIndexError := "list indices must be integers or slices, not str"
  const StrIndexError := "string indices must be integers"
  const TupleIndexError := "tuple index out of range"

  function NotIterable(j: Json): string {
    "argument of type '" + TypeName(j) + "' is not iterable"
  }

  function NoPredictAttribute(m: Model): string {
    "'" + m.typeName + "' object has no attribute 'predict'"
  }

  // ---------------------------------------------------------------------------
  // Input normalisation
  // ---------------------------------------------------------------------------

  /** `sorted(data.keys())`. */
  function SortedKeys(fields: seq<(string, Json)>): (ks: seq<string>)
    ensures Sorted(ks) && multiset(ks) == multiset(Keys(fields))
  {
    Sort(Keys(fields))
  }

  /** `[data[key] for key in sorted(data.keys())]`: the values of the object,
      read in ascending key order. */
  function KeyOrderRow(fields: seq<(string, Json)>): (row: seq<Json>)
    ensures |row| == |fields|
    ensures forall i :: 0 <= i < |row| ==> (SortedKeys(fields)[i], row[i]) in fields
  {
    var ks := SortedKeys(fields);
    seq(|ks|, i requires 0 <= i < |ks| =>
      assert ks[i] in multiset(Keys(fields));
      Get(fields, ks[i]))
  }

  /** `features = np.array(data)`, reshaped to one row when it is 1-dimensional. */
  function BareArray(payload: Json): (r: Result<NdArray>)
    ensures r.Ok? ==> Valid(r.value) && |r.value.shape| != 1
    ensures FromJson(payload).Err? ==> r == FromJson(payload)
    ensures FromJson(payload).Ok? && |FromJson(payload).value.shape| != 1 ==> r == FromJson(payload)
    ensures FromJson(payload).Ok? && |FromJson(payload).value.shape| == 1 ==>
              r == Ok(NdArray([1, |FromJson(payload).value.flat|], FromJson(payload).value.flat))
  {
    var a := FromJson(payload);
    if a.Err? then a
    else if |a.value.shape| == 1 then Ok(Reshape(a.value))
    else a
  }

  /** `np.array(x).reshape(1, -1)`. */
  function OneRow(x: Json): (r: Result<NdArray>)
    ensures r.Ok? ==> Valid(r.value) && |r.value.shape| == 2 && r.value.shape[0] == 1
    ensures r.Err? <==> FromJson(x).Err?
    ensures r.Err? ==> r.error == FromJson(x).error
    ensures r.Ok? ==> r.value.flat == FromJson(x).value.flat
  {
    var a := FromJson(x);
    if a.Err? then Err(a.error) else Ok(Reshape(a.value))
  }

  /** The feature array built from a dict body. First match wins: a
      `features` key, a `data` key, all values numbers, and otherwise the dict
      itself, which numpy makes a 0-dimensional array. */
  function FromObject(fields: seq<(string, Json)>): (r: Result<NdArray>)
    ensures r.Ok? ==> Valid(r.value)
    ensures r.Ok? && "features" in Keys(fields) ==> |r.value.shape| == 2 && r.value.shape[0] == 1
    ensures "features" in Keys(fields) && FromJson(Get(fields, "features")).Ok? ==>
              r == Ok(NdArray([1, |FromJson(Get(fields, "features")).value.flat|],
                              FromJson(Get(fields, "features")).value.flat))
  {
    if "features" in Keys(fields) then OneRow(Get(fields, "features"))
    else if "data" in Keys(fields) then FromJson(Get(fields, "data"))
    else if AllNumeric(fields) then OneRow(Arr(KeyOrderRow(fields)))
    else BareArray(Obj(fields))
  }

  /** The feature array built from a non-empty request body; `Err` is the
      exception raised while building it. On a list `'features' in data` asks
      for an element and on a string for a substring; in both cases the
      indexing that follows raises. A number or a boolean cannot be searched. */
  function Normalize(payload: Json): (r: Result<NdArray>)
    ensures r.Ok? ==> Valid(r.value)
    ensures payload.Null? || payload.Bool? || payload.Num? ==> r.Err?
    ensures r.Ok? && payload.Arr? ==> |r.value.shape| >= 2
  {
    match payload
    case Obj(fields) => FromObject(fields)
    case Arr(elems) =>
      if Str("features") in elems || Str("data") in elems then Err(ListIndexError)
      else BareArray(payload)
    case Str(s) =>
      if IsSubstring("features", s) || IsSubstring("data", s) then Err(StrIndexError)
      else BareArray(payload)
    case _ => Err(NotIterable(payload))
  }

  // ---------------------------------------------------------------------------
  // Validation and inference
  // ---------------------------------------------------------------------------

  /** The feature-count check: `None` lets the request through to the model;
      otherwise the response it ends with. An array with fewer than two
      dimensions has no `shape[1]`, which raises. */
  function ValidateCount(m: Model, a: NdArray): (r: Option<Response>)
    ensures m.nFeatures.None? ==> r.None?
    ensures m.nFeatures.Some? && |a.shape| < 2 ==> r == Some(PredictionFailed(TupleIndexError))
    ensures m.nFeatures.Some? && |a.shape| >= 2 ==>
              (r.None? <==> a.shape[1] == m.nFeatures.value)
    ensures m.nFeatures.Some? && |a.shape| >= 2 && a.shape[1] != m.nFeatures.value ==>
              r == Some(CountMismatch(m.nFeatures.value, a.shape[1]))
    ensures r.Some? && r.value.status == 400 ==>
              m.nFeatures.Some? && |a.shape| >= 2 &&
              r.value == CountMismatch(m.nFeatures.value, a.shape[1])
  {
    match m.nFeatures
    case None => None
    case Some(expected) =>
      if |a.shape| < 2 then Some(PredictionFailed(TupleIndexError))
      else if a.shape[1] != expected then Some(CountMismatch(expected, a.shape[1]))
      else None
  }

  /** `predict_proba` if the model has it and it does not raise. */
  function Probabilities(m: Model, a: NdArray): (r: Option<seq<Json>>)
    ensures r.Some? <==> m.proba.Some? && m.proba.value(a).Ok?
    ensures r.Some? ==> r.value == m.proba.value(a).value
  {
    match m.proba
    case None => None
    case Some(q) => if q(a).Ok? then Some(q(a).value) else None
  }

  /** Calling the model: an exception from `predict` (or its absence) fails the
      request; an exception from `predict_proba` only drops `probabilities`. */
  function Invoke(m: Model, a: NdArray): (r: Response)
    ensures m.predict.None? ==> r == PredictionFailed(NoPredictAttribute(m))
    ensures m.predict.Some? && m.predict.value(a).Err? ==>
              r == PredictionFailed(m.predict.value(a).error)
    ensures m.predict.Some? && m.predict.value(a).Ok? ==>
              r.status == 200 &&
              r.body.Keys == {"predictions", "success"} +
                             (if m.proba.Some? && m.proba.value(a).Ok? then {"probabilities"} else {}) &&
              r.body["predictions"] == Arr(m.predict.value(a).value) &&
              r.body["success"] == Bool(true) &&
              "error" !in r.body &&
              ("probabilities" in r.body <==> m.proba.Some? && m.proba.value(a).Ok?) &&
              ("probabilities" in r.body ==> r.body["probabilities"] == Arr(m.proba.value(a).value))
  {
    match m.predict
    case None => PredictionFailed(NoPredictAttribute(m))
    case Some(p) =>
      if p(a).Err? then PredictionFailed(p(a).error)
      else Succeeded(p(a).value, Probabilities(m, a))
  }

  // ---------------------------------------------------------------------------
  // The three endpoints
  // ---------------------------------------------------------------------------

  /** `POST /predict`. */
  function Predict(held: Option<Model>, payload: Json): (r: Response)
    ensures held.None? ==> r == ModelNotLoaded
    ensures held.Some? && Falsy(payload) ==> r == NoDataProvided
    ensures held.Some? && !Falsy(payload) && Normalize(payload).Err? ==>
              r == PredictionFailed(Normalize(payload).error)
    ensures r.status == 200 || r.status == 400 || r.status == 500
    ensures r.status == 200 <==> "predictions" in r.body
    ensures "success" in r.body ==> r.body["success"] == Bool(r.status == 200)
    ensures "probabilities" in r.body ==> r.status == 200
  {
    match held
    case None => ModelNotLoaded
    case Some(m) =>
      if Falsy(payload) then NoDataProvided
      else
        var a := Normalize(payload);
        if a.Err? then PredictionFailed(a.error)
        else
          var rejected := ValidateCount(m, a.value);
          if rejected.Some? then rejected.value else Invoke(m, a.value)
  }

  /** `GET /health`. */
  function HealthCheck(held: Option<Model>): (r: Response)
    ensures r.status == 200
    ensures r.body.Keys == {"status", "model_loaded"}
    ensures r.body["status"] == Str("healthy")
    ensures r.body["model_loaded"] == Bool(held.Some?)
  {
    Response(200, map["status" := Str("healthy"), "model_loaded" := Bool(held.Some?)])
  }

  /** `GET /model-info`. */
  function ModelInfo(held: Option<Model>): (r: Response)
    ensures held.None? ==> r == ModelNotLoaded
    ensures held.Some? ==>
              r.status == 200 &&
              {"model_type", "success"} <= r.body.Keys <= {"model_type", "success", "n_features", "classes"} &&
              r.body["model_type"] == Str(held.value.typeName) &&
              r.body["success"] == Bool(true) &&
              ("n_features" in r.body <==> held.value.nFeatures.Some?) &&
              ("classes" in r.body <==> held.value.classes.Some?)
    ensures held.Some? && held.value.nFeatures.Some? ==>
              r.body["n_features"] == Num(held.value.nFeatures.value as real)
    ensures held.Some? && held.value.classes.Some? ==>
              r.body["classes"] == Arr(held.value.classes.value)
  {
    match held
    case None => ModelNotLoaded
    case Some(m) =>
      var info := map["model_type" := Str(m.typeName), "success" := Bool(true)];
      var info := if m.nFeatures.Some? then info["n_features" := Num(m.nFeatures.value as real)] else info;
      var info := if m.classes.Some? then info["classes" := Arr(m.classes.value)] else info;
      Response(200, info)
  }
}
