/** The process-wide model reference and the ladder of checks that loads it. */
module Holder {
  import opened Wrappers
  import opened JsonValues
  import opened Serving

  /** What the file system and the deserialiser report about the model
      artifact: whether the file exists, its size in bytes, and what loading
      its contents yields: `Err` for the exception `joblib.load` raises,
      `Ok(None)` for a file that holds a pickled `None`. */
  datatype ArtifactFile = ArtifactFile(present: bool, size: nat, contents: Result<Option<Model>>)

  /** Whether the ladder accepts the artifact: it exists, is not empty and
      deserialises. A model without `predict` is accepted, and so is a
      deserialised `None`: neither is checked, the first is only logged. */
  predicate Loads(file: ArtifactFile) {
    file.present && file.size > 0 && file.contents.Ok?
  }

  /** Holds the global `model`, `None` until a load succeeds. */
  class ModelHolder {
    var model: Option<Model>

    constructor ()
      ensures model == None
    {
      model := None;
    }

    /** `load_model()`: every failing check returns `false` and leaves the
        held model as it was; a successful load replaces it, with `None` when
        the file deserialises to `None`, and returns `true`. */
    method LoadModel(file: ArtifactFile) returns (loaded: bool)
      modifies this
      ensures loaded == Loads(file)
      ensures loaded ==> model == file.contents.value
      ensures !loaded ==> model == old(model)
    {
      if !file.present {
        return false;
      }
      if file.size == 0 {
        return false;
      }
      match file.contents
      case Err(_) =>
        return false;
      case Ok(m) =>
        model := m;
        return true;
    }
  }

  /** Start-up followed by one request to each endpoint: a fresh holder, one
      load attempt, then `/health`, `/predict` and `/model-info` against what
      it holds. A load that succeeds on a file holding `None` reports success
      and yet leaves the service without a model. */
  method StartAndServe(file: ArtifactFile, payload: Json)
    returns (loaded: bool, health: Response, prediction: Response, info: Response)
    ensures loaded == Loads(file)
    ensures health.status == 200 && "model_loaded" in health.body
    ensures health.body["model_loaded"] == Bool(loaded && file.contents.value.Some?)
    ensures !loaded || file.contents.value.None? ==> prediction == ModelNotLoaded && info == ModelNotLoaded
    ensures loaded && file.contents.value.Some? ==>
              prediction == Predict(file.contents.value, payload) &&
              info.status == 200 && "model_type" in info.body &&
              info.body["model_type"] == Str(file.contents.value.value.typeName)
  {
    var holder := new ModelHolder();
    loaded := holder.LoadModel(file);
    health := HealthCheck(holder.model);
    prediction := Predict(holder.model, payload);
    info := ModelInfo(holder.model);
  }
}
