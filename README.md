# Loan-approval model server: request handling

This project models the request handling of a small Flask service that
serves a pre-trained scikit-learn model (`app.py`). It covers four parts.

- **Model holder.** A process-wide `model` reference, `None` until
  `load_model()` succeeds. The load is a ladder of checks: the file exists,
  it is not empty, and it deserialises.
- **Input normaliser.** It turns the JSON body of `POST /predict` into a numpy
  feature array. The first match wins: a `features` key, a `data` key, an
  object whose values are all numbers (read in sorted key order), and
  otherwise the body itself.
- **Inference invoker.** The feature-count check runs before the model is
  called. An exception from `predict` fails the request with a 500. An
  exception from `predict_proba` only drops the `probabilities` key.
- **Reporters.** `GET /health` and `GET /model-info` read the holder and
  nothing else.

Modules, one per concern:

- `Wrappers` (wrappers.dfy): `Option` and `Result`. `Err` carries the text of
  a Python exception.
- `JsonValues` (json.dfy): the parsed body. It covers Python truthiness, dict
  lookup, and the `isinstance(v, (int, float))` test, which accepts
  booleans.
- `KeyOrder` (key_order.dfy): Python's string order and `sorted()`. The sort
  is an insertion sort, proved ascending and a permutation. The sorted
  result is proved to depend only on the multiset of keys.
- `Decimal` (decimal.dfy): `str()` of a count in an f-string, and reading it
  back.
- `NdArrays` (ndarray.dfy): `np.array(x)` as a shape plus row-major elements,
  and `reshape(1, -1)`.
- `Serving` (serving.dfy): the model record, responses, the normaliser, the
  count check, the invoker and the three endpoints. Each endpoint is a
  function of the held model.
- `PredictProperties` (predict_properties.dfy): lemmas about the endpoints
  over all bodies and all models.
- `Holder` (holder.dfy): the `ModelHolder` class with its nullable field and
  the `LoadModel` ladder, plus a start-up-then-serve method.

The model object is a record of optional capabilities. `predict` and
`predict_proba` are arbitrary functions from the feature array to a
`Result`; an `Err` stands for the exception they raise. `n_features_in_` and
`classes_` are optional values. `predict` is optional too, because
`load_model()` accepts an object without it. The file system and `joblib` are
one input to the load ladder: whether the file exists, its size, and what
deserialising it yields.

Where the code differs from the documented interface of the service, the
model follows the code:

- The 500 "Model not loaded" (lines 75 and 144) and the 400 "No data
  provided" (line 81) carry only `error`, with no `success: false`.
- The shape of the array is not validated beyond the count check, and no
  body is refused as malformed with a 400:
  - A number or boolean body, a body that contains the string "features" or "data", and a ragged list raise before any check and get the 500.
  - A 0- or 1-dimensional array gets the `shape[1]` 500 when the model declares `n_features_in_`. Otherwise it is passed to `predict` as it is.
  - An array of three or more dimensions is checked on `shape[1]` like a matrix. It gets the 400 when that differs from the declared count, and otherwise reaches `predict`.
- `features` is always reshaped to one row, so a nested `features` value is
  flattened into that row rather than refused.
- A failed load leaves the held reference as it was. It does not reset it.
- A file that deserialises to `None` counts as a successful load
  (`load_model()` returns `True`), yet the service then has no model:
  `/health` reports `model_loaded: false`.

## Model

| member | source | states |
|---|---|---|
| Holder.ModelHolder.constructor | app.py:15 | the holder starts with no model |
| Holder.Loads | app.py:25-49 | the ladder accepts the artifact exactly when the file exists, is non-empty and deserialises, whatever the object is |
| Holder.ModelHolder.LoadModel | app.py:17-53 | returns true exactly when the file exists, is non-empty and deserialises; then the held reference is the deserialised object, even one without `predict` (that is only logged) and even `None`; on a missing file, an empty file or a deserialisation error it returns false and the held reference is unchanged |
| Holder.StartAndServe | app.py:55-68 | after one start-up load attempt, `/health` reports `model_loaded` exactly when the load succeeded with an object other than `None`; otherwise `/predict` and `/model-info` both answer the 500 "Model not loaded", so a load that returns true on a `None` artifact still leaves the service without a model |
| JsonValues.FalsyValues | app.py:80 | `not data` holds exactly for None, False, 0, "", [] and {} |
| JsonValues.IsNumber | app.py:90 | `isinstance(v, (int, float))` holds exactly for values whose Python type is `int`, `float` or `bool`, since `bool` is a subclass of `int` |
| JsonValues.AllNumeric | app.py:90 | every value of the dict is a number, so every value read back by key is one |
| JsonValues.SubstringOccurs | app.py:84 | `'features' in data` on a string body holds exactly when the text occurs at some offset |
| JsonValues.Lookup | app.py:84-89 | `data[k]` on a dict finds a value exactly when `k` is a key, and the pair is a member of the dict |
| JsonValues.LookupMember | app.py:94 | in a dict with distinct keys, the lookup of a key returns the value stored under it |
| KeyOrder.LessIsLexicographic | app.py:93 | Python's string `<`: either a proper prefix, or the smaller code point at the first position where the strings differ |
| KeyOrder.LessIrreflexive | app.py:93 | no string sorts before itself |
| KeyOrder.LessTransitive | app.py:93 | the string order is transitive |
| KeyOrder.LessTotal | app.py:93 | of two different strings one sorts first |
| KeyOrder.Sort | app.py:93 | `sorted()` returns an ascending permutation of its input |
| KeyOrder.SortedUnique | app.py:93 | two ascending sequences with the same elements are equal, so the order of the input to `sorted()` cannot be seen in its output |
| Decimal.NatToString | app.py:107 | `str()` of a count is a non-empty run of decimal digits with no leading zero |
| Decimal.ParseNatToString | app.py:107 | the decimal text of a count reads back as that count |
| Decimal.DigitPrefixOf | app.py:107 | a count written before a non-digit is exactly the leading digit run |
| NdArrays.FromJson | app.py:98 | `np.array` gives an array whose element count matches its shape; a non-list is 0-dimensional with itself as the one element; a list adds a leading dimension of its length |
| NdArrays.ListShape | app.py:89 | the array of a non-empty list has shape `[length] + ` the first item's shape, so `shape[1]` is the length of the first item |
| NdArrays.Stack | app.py:98 | stacking list items succeeds exactly when all items have the same shape; the result has the item shape under a new leading dimension, and holds the items' elements one after another |
| NdArrays.FlattenLength | app.py:86 | rows of `n` elements each give `n` times the number of rows in all |
| NdArrays.VectorOfLeaves | app.py:98-100 | a flat list is a 1-dimensional array of the same elements in order |
| NdArrays.MatrixOfRows | app.py:89 | a rectangular list of lists is a 2-dimensional array with one row per inner list, in order |
| NdArrays.RaggedRowsFail | app.py:89 | inner lists of different lengths make numpy fail |
| NdArrays.Reshape | app.py:86 | `reshape(1, -1)` is one row holding every element in order |
| Serving.SortedKeys | app.py:93 | the dict's keys, ascending, each kept as often as it occurs |
| Serving.KeyOrderRow | app.py:93-94 | one value per key, the i-th being the value stored under the i-th sorted key |
| Serving.BareArray | app.py:97-100 | a numpy failure stays that error; a 1-dimensional array becomes one row of its elements; an array of any other dimension is used unchanged |
| Serving.OneRow | app.py:86 | `np.array(x).reshape(1, -1)` fails exactly when `np.array` does, with its error, and otherwise is one row of all the elements |
| Serving.FromObject | app.py:84-98 | a dict with a `features` key yields one row whenever `np.array` succeeds on its value, and that row holds every element of the array in row-major order |
| Serving.Normalize | app.py:83-100 | a number, boolean or None body raises; a bare list, when it is made into an array, yields one with at least two dimensions |
| Serving.ValidateCount | app.py:102-109 | with no declared count the request passes; with one, a 0- or 1-dimensional array fails with 500, and one of two or more dimensions passes exactly when its column count equals the declared count, a 400 naming both counts otherwise |
| Serving.MismatchMessage | app.py:107 | the message is "Expected " then the declared count as its leading digit run, then " features, got " and the column count |
| Serving.Probabilities | app.py:114-120 | probabilities are present exactly when `predict_proba` exists and does not raise |
| Serving.Succeeded | app.py:123-131 | a 200 whose body has exactly `predictions`, `success: true` and, only when computed, `probabilities` |
| Serving.PredictionFailed | app.py:133-138 | a 500 whose body has exactly `error` "Prediction failed: " plus the exception text, and `success: false` |
| Serving.Invoke | app.py:111-138 | a missing or raising `predict` gives a 500 "Prediction failed: ..." with `success: false`; otherwise a 200 whose body has exactly the predictions, `success: true`, and `probabilities` exactly when `predict_proba` exists and succeeded |
| Serving.Predict | app.py:70-138 | no model gives a 500 whatever the body; a falsy body gives a 400; a body that cannot be made into an array gives the 500 "Prediction failed: ..." with the exception text; every answer is 200, 400 or 500; `predictions` is in the body exactly on a 200; `success` when present is true exactly on a 200 |
| Serving.HealthCheck | app.py:62-68 | always 200, `status` "healthy", `model_loaded` exactly when a model is held |
| Serving.ModelInfo | app.py:140-160 | 500 "Model not loaded" without a model; otherwise 200 with the type name, `n_features` exactly when the model declares it and `classes` exactly when it has them |
| PredictProperties.RejectedWithoutInvoking | app.py:74-109 | an empty body, a body that cannot be made into an array, or a failed count check gets the same non-200 answer whatever `predict` and `predict_proba` do: neither is called |
| PredictProperties.NotLoadedIgnoresBody | app.py:74-78 | without a model the answer does not depend on the body and has no `success` key |
| PredictProperties.MismatchMessageReadsBack | app.py:107 | both the expected and the actual count can be read back from the mismatch message |
| PredictProperties.MismatchMessageInjective | app.py:107 | different count pairs give different messages |
| PredictProperties.CountMismatchRejects | app.py:103-109 | a declared count that differs from the column count gives a 400 whose message holds both counts |
| PredictProperties.CountAcceptedInvokes | app.py:102-112 | when the counts agree, or none is declared, the model is called |
| PredictProperties.KeyInListRaises | app.py:84 | a list body holding the string "features" or "data" raises when it is subscripted with a string |
| PredictProperties.KeyInStringRaises | app.py:84 | a string body containing "features" or "data" raises when it is subscripted with a string |
| PredictProperties.FeaturesWinsOverNumbers | app.py:84-90 | `features` is tested before the all-numbers branch: a number under `features` becomes a 1-by-1 array whatever the other values are |
| PredictProperties.DataWinsOverNumbers | app.py:87-90 | `data` is tested before the all-numbers branch: a number under `data` becomes a 0-dimensional array on its own |
| PredictProperties.NormalizeErrorIs500 | app.py:83-100 | a non-empty body that cannot be made into an array gets the caught-exception 500, never a validation 400 |
| PredictProperties.RaggedDataIs500 | app.py:87-89 | a `data` value whose rows differ in length makes numpy raise, and the answer is that 500 |
| PredictProperties.FeaturesFailureIs500 | app.py:84-86 | a `features` value numpy refuses ends the request in the caught 500 with numpy's error |
| PredictProperties.BareListFailureIs500 | app.py:96-98 | a bare list numpy refuses ends the request in the caught 500 with numpy's error |
| PredictProperties.DataIsNpArray | app.py:87-89 | `{"data": x}` is `np.array(x)` exactly, whatever its depth, so nothing is reshaped |
| PredictProperties.BareListIsNpArray | app.py:96-100 | a bare list is `np.array(data)`, reshaped to one row only when it is 1-dimensional |
| PredictProperties.FeaturesFlattened | app.py:84-86 | whatever array `np.array` makes of the `features` value, the request uses one row of all its elements, in order |
| PredictProperties.NestedFeaturesConcatenated | app.py:84-86 | a rectangular list of lists under `features` becomes one row of its rows concatenated |
| PredictProperties.PlainStringIsScalar | app.py:96-98 | a string body that contains neither key is a 0-dimensional array of itself |
| PredictProperties.FeaturesIsOneRow | app.py:84-86 | `{"features": xs}` with a flat `xs` is exactly one row equal to `xs`, whatever other keys are present |
| PredictProperties.DataIsRowPerList | app.py:87-89 | `{"data": rows}` without `features` is one row per inner list, in order |
| PredictProperties.FlatDataIsNotReshaped | app.py:87-89 | a flat `data` list stays 1-dimensional and, with a declared count, ends in a 500 |
| PredictProperties.NumericRowIsOneRow | app.py:90-94 | the values of an all-number dict form one row |
| PredictProperties.NumericObjectIsSortedRow | app.py:90-94 | an all-number dict without `features` or `data` is one row of its values in ascending key order |
| PredictProperties.ExampleKeysSorted | app.py:93 | the keys "b", "a" sort to "a", "b" |
| PredictProperties.ExampleIsNumericRow | app.py:90-94 | `{"b": 2, "a": true}` takes the all-numbers branch and becomes one row of its values in key order |
| PredictProperties.ExampleRow | app.py:93-94 | in key order the values of `{"b": 2, "a": true}` are `[true, 2]` |
| PredictProperties.BooleanCountsAsNumber | app.py:90-94 | `{"b": 2, "a": true}` is the row `[true, 2]` |
| PredictProperties.NonNumericObjectFails | app.py:96-98 | a dict with a non-number value and no special key is a 0-dimensional array, which fails with 500 under a declared count |
| PredictProperties.BareVectorIsOneRow | app.py:96-100 | a bare flat list is one row of the same length |
| PredictProperties.BareMatrixIsUnchanged | app.py:96-98 | a bare rectangular list of lists is used as it is |
| PredictProperties.OnceEach | app.py:93 | in a sequence without repeats each element occurs once |
| PredictProperties.SameMappingSameRow | app.py:93-94 | two dicts with the same key-to-value mapping, in any insertion order, have the same sorted keys and the same row |
| PredictProperties.SameMappingSameNumeric | app.py:90 | two such dicts agree on the all-numbers test |
| PredictProperties.SameMappingSameTests | app.py:84-87 | two dicts with the same mapping agree on the `features` and `data` tests and on emptiness |
| PredictProperties.SameMappingSameArray | app.py:84-94 | in the three key-driven branches, two dicts with the same mapping give the same array |
| PredictProperties.InsertionOrderIrrelevant | app.py:84-94 | reordering the members of a dict with `features`, `data` or only numbers changes neither the array nor the response |
| PredictProperties.FailingProbaIsAbsentProba | app.py:114-120 | a `predict_proba` that raises gives the same response as none at all |
| PredictProperties.FailingPredictIgnoresProba | app.py:111-138 | a missing or raising `predict` gives a 500 with `success: false`, whatever `predict_proba` does |
| PredictProperties.OnePredictionForFeatures | app.py:84-86 | with a model that answers once per row, a successful `features` request gets exactly one prediction |
| PredictProperties.OnePredictionPerDataRow | app.py:87-89 | with such a model, a successful `data` request gets one prediction per row |
| PredictProperties.ModelInfoIgnoresCapabilities | app.py:140-160 | `/model-info` reads metadata only and does not depend on `predict` or `predict_proba` |

## Left out

- Flask routing, `request.get_json()` and `jsonify`, which are framework plumbing. The body is the already-parsed JSON value, and a response is a status plus a map. A body that fails to parse as JSON is not modelled.
- `os.path.exists`, `os.path.getsize` and `joblib.load`, which are foreign I/O. They are one `ArtifactFile` input: present, size, and deserialisation result.
- Logging, which is a side effect only. This includes the warning for a model without `predict`.
- The module-level start-up load and `exit(1)` under `__main__` (lines 55-59, 169-175), which are process lifecycle. `Holder.StartAndServe` models only one load followed by requests.
- The numerics of `predict` and `predict_proba`, which are floating point in an opaque library. They are arbitrary functions, so "the same input twice gives the same predictions" holds by construction.
- numpy dtype promotion, because it only matters to the opaque model. The array keeps the JSON values as its elements, so a boolean is not turned into 1 and a number in a list of strings is not turned into a string.
- numpy before 1.24, which built object arrays from ragged lists. Ragged input fails here, as in current numpy.
- Exception texts follow Python's wording but are not guaranteed to be byte-for-byte `str(e)`. JSON integers and floats are one kind of number, so `TypeName` calls an integral float "int".
- The `except` of `/model-info` (lines 162-167), because reading `type(model).__name__`, `n_features_in_` and `classes_.tolist()` is taken never to raise.
- Bodies that repeat a key. `Obj` is a list of members, so it can hold one key twice, which a parsed dict cannot. `Lookup` then takes the first value, where `json.loads` keeps the last. The order-independence lemmas assume distinct keys.
- Concurrency, because the model is read-only after load and requests are handled one at a time here.
