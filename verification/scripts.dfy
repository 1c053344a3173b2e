/**
 * The request flow of `streamlit_app_emi.py`: load the bundle at start-up,
 * then for an uploaded file read it, clean its labels, align it to the
 * feature list and run the preprocessor and the model.
 *
 * Whether `transform`/`predict` raise is the oracle `runs`.
 */
module EmiScript {
  import opened Wrappers
  import opened PyObjects
  import opened Tables
  import opened ColumnNames
  import opened TableReader
  import opened BundleLoader
  import opened Inference

  datatype Response =
    | Crashed                                // an exception outside any `try`
    | LoadFailed(error: LoadError)           // `st.error` then `st.stop`
    | NoUpload
    | CouldNotParse                          // every encoding failed
    | ReadFailed                             // caught by the outer `try` (reindex refused the labels)
    | Predicted(x: Table, plan: Plan)
    | PredictFailed(plan: Plan, report: Report)

  /** The response of lines 88-114 to an uploaded file: read, clean, align, transform and predict. */
  function EmiResponse(parse: Encoding -> Option<Table>, featureNames: seq<string>, u: Unpacked, runs: Plan -> bool)
    : Response
    requires ParsesWellFormed(parse)
  {
    FirstParseWellFormed(Candidates, parse);
    match FirstParse(Candidates, parse)
    case None => CouldNotParse
    case Some(t) =>
      match Reindex(NormalizeCols(t), featureNames)
      case Err(_) => ReadFailed
      case Ok(x) =>
        var plan := EmiPlan(u, x);
        if runs(plan) then Predicted(x, plan) else PredictFailed(plan, Report(Sample(featureNames), Sample(x.header)))
  }

  /** Lines 88-114 for an uploaded file, given the loaded feature list and bundle parts. */
  method HandleUpload(parse: Encoding -> Option<Table>, featureNames: seq<string>, u: Unpacked, runs: Plan -> bool)
    returns (resp: Response)
    requires ParsesWellFormed(parse)
    requires CallsCanRun(runs)
    ensures resp == EmiResponse(parse, featureNames, u, runs)
    ensures FirstParse(Candidates, parse).None? <==> resp == CouldNotParse
    ensures FirstParse(Candidates, parse).Some? ==>
      var df := NormalizeCols(FirstParse(Candidates, parse).value);
      WellFormed(df) &&
      match Reindex(df, featureNames)
      case Err(_) => resp == ReadFailed
      case Ok(x) =>
        var plan := EmiPlan(u, x);
        resp == if runs(plan) then Predicted(x, plan)
                else PredictFailed(plan, Report(Sample(featureNames), Sample(x.header)))
  {
    var parsed, _ := ReadWithFallback(parse);
    FirstParseWellFormed(Candidates, parse);
    if parsed.None? {
      return CouldNotParse;
    }
    var df := NormalizeCols(parsed.value);
    var aligned := Reindex(df, featureNames);
    if aligned.Err? {
      return ReadFailed;
    }
    var x := aligned.value;
    var plan := EmiPlan(u, x);
    if runs(plan) {
      resp := Predicted(x, plan);
    } else {
      resp := PredictFailed(plan, Report(Sample(featureNames), Sample(x.header)));
    }
  }

  /**
   * Labels that clean to the same name make alignment fail, unless the cleaned
   * labels already are the feature list: the upload is then reported unreadable.
   */
  lemma CollidingLabelsFail(t: Table, featureNames: seq<string>, i: nat, j: nat)
    requires WellFormed(t)
    requires i < j < |t.header| && CleanColName(t.header[i]) == CleanColName(t.header[j])
    requires NormalizeCols(t).header != featureNames
    ensures Reindex(NormalizeCols(t), featureNames).Err?
  {
    var df := NormalizeCols(t);
    assert df.header[i] == df.header[j];
  }

  /**
   * With no preprocessor in the bundle, `preprocessor.transform` is called on
   * `None` and raises: an upload that reaches prediction always fails.
   */
  lemma NoPreprocessorAlwaysFails(parse: Encoding -> Option<Table>, featureNames: seq<string>, u: Unpacked,
                                  runs: Plan -> bool)
    requires ParsesWellFormed(parse) && CallsCanRun(runs)
    requires u.preprocessor == PyNone
    ensures var r := EmiResponse(parse, featureNames, u, runs);
      r.CouldNotParse? || r.ReadFailed? || r.PredictFailed?
  {
    FirstParseWellFormed(Candidates, parse);
    if FirstParse(Candidates, parse).Some? {
      var t := FirstParse(Candidates, parse).value;
      var aligned := Reindex(NormalizeCols(t), featureNames);
      if aligned.Ok? {
        assert !runs(EmiPlan(u, aligned.value));
      }
    }
  }

  /** The column names of a list or tuple feature object; other shapes are not modelled. */
  function FeatureItems(features: PyObj): Option<seq<string>> {
    match features
    case PyList(items) => Some(items)
    case PyTuple(items) => Some(items)
    case _ => None
  }

  datatype Upload = Upload(parse: Encoding -> Option<Table>)

  /**
   * One run of the script: load (a missing secrets store crashes, a load error
   * stops with a message), unpack the bundle with `[]` (crashes unless it is a
   * dict with both keys), then handle the upload if there is one.
   */
  method Run(w: World, appDir: string, kind: ModelType, upload: Option<Upload>, runs: Plan -> bool)
    returns (resp: Response)
    requires upload.Some? ==> ParsesWellFormed(upload.value.parse)
    requires CallsCanRun(runs)
    requires var l := EmiStartup(w, appDir, kind).value; l.Ok? ==> FeatureItems(l.value.features).Some?
    ensures var l := EmiStartup(w, appDir, kind).value;
      && (l == Err(SecretsUnavailable) ==> resp == Crashed)
      && (l.Err? && l != Err(SecretsUnavailable) ==> resp == LoadFailed(l.error))
      && (l.Ok? && EmiUnpack(l.value.bundle).None? ==> resp == Crashed)
      && (l.Ok? && EmiUnpack(l.value.bundle).Some? && upload.None? ==> resp == NoUpload)
      && (l.Ok? && EmiUnpack(l.value.bundle).Some? && upload.Some? ==>
            resp == EmiResponse(upload.value.parse, FeatureItems(l.value.features).value,
                                EmiUnpack(l.value.bundle).value, runs))
    ensures resp.Predicted? || resp.PredictFailed? || resp.ReadFailed? || resp.CouldNotParse? ==>
      EmiStartup(w, appDir, kind).value.Ok? && upload.Some?
  {
    var loaded := EmiStartup(w, appDir, kind).value;
    if loaded.Err? {
      return if loaded.error == SecretsUnavailable then Crashed else LoadFailed(loaded.error);
    }
    var parts := EmiUnpack(loaded.value.bundle);
    if parts.None? {
      return Crashed;
    }
    if upload.None? {
      return NoUpload;
    }
    resp := HandleUpload(upload.value.parse, FeatureItems(loaded.value.features).value, parts.value, runs);
  }
}

/**
 * The request flow of `app.py`: module-level flags record whether the model
 * was loaded by a button click, and gate the upload and prediction section.
 */
module AppScript {
  import opened Wrappers
  import opened PyObjects
  import opened Tables
  import opened HeaderStrip
  import opened TableReader
  import opened BundleLoader
  import opened Inference

  const LocalBundle := "best_bundle_classification.pkl"
  const LocalFeat := "feature_names_classification.pkl"

  datatype Response =
    | NotLoaded                              // the info message asking to load the model
    | NoUpload
    | ParseStopped                           // every encoding failed: `st.error` then `st.stop`
    | Crashed                                // reindex raised outside any `try`
    | Shown(x: Table, plan: Plan)
    | PredictionFailed(plan: Plan, report: Report)

  /** `app.py` loads what `streamlit_app_emi.py` selects for classification. */
  lemma ClassifierSelection()
    ensures Select(Classification) == Selection(LocalBundle, LocalFeat, BundleKey, FeatKey)
  {
  }

  datatype Upload = Upload(defaultParse: Option<Table>, parse: Encoding -> Option<Table>)

  ghost predicate UploadWellFormed(up: Upload) {
    (up.defaultParse.Some? ==> WellFormed(up.defaultParse.value)) && ParsesWellFormed(up.parse)
  }

  /** The response of lines 90-135 to an uploaded file, given the loaded bundle and feature object. */
  function AppResponse(bundle: PyObj, featureNames: PyObj, up: Upload, runs: Plan -> bool): Response
    requires UploadWellFormed(up)
  {
    FirstParseWellFormed(Candidates, up.parse);
    var df := if up.defaultParse.Some? then up.defaultParse else FirstParse(Candidates, up.parse);
    match df
    case None => ParseStopped
    case Some(t0) =>
      var t := StripHeader(t0);
      var required := RequiredColumns(featureNames, t.header);
      match Reindex(t, required)
      case Err(_) => Crashed
      case Ok(x) =>
        var plan := AppPlan(bundle, x);
        if runs(plan) then Shown(x, plan) else PredictionFailed(plan, Report(Sample(required), Sample(x.header)))
  }

  /**
   * A dict bundle without a usable `model` entry cannot predict: `predict` is
   * called on `None`, so an upload that reaches prediction always fails.
   */
  lemma MissingModelAlwaysFails(entries: seq<(string, PyObj)>, featureNames: PyObj, up: Upload, runs: Plan -> bool)
    requires UploadWellFormed(up) && CallsCanRun(runs)
    requires DictGet(entries, "model") == PyNone
    ensures !AppResponse(PyDict(entries), featureNames, up, runs).Shown?
  {
    FirstParseWellFormed(Candidates, up.parse);
    var df := if up.defaultParse.Some? then up.defaultParse else FirstParse(Candidates, up.parse);
    if df.Some? {
      var t := StripHeader(df.value);
      var aligned := Reindex(t, RequiredColumns(featureNames, t.header));
      if aligned.Ok? {
        assert !runs(AppPlan(PyDict(entries), aligned.value));
      }
    }
  }

  /** The module-level state `model_loaded`, `bundle` and `feature_names`. */
  class Session {
    var modelLoaded: bool
    var bundle: PyObj
    var featureNames: PyObj

    constructor ()
      ensures !modelLoaded && bundle == PyNone && featureNames == PyNone
    {
      modelLoaded := false;
      bundle := PyNone;
      featureNames := PyNone;
    }

    /**
     * The button's handler: on success the loaded pair is stored and
     * `model_loaded` set; a failed load leaves every flag as it was.
     */
    method ClickLoad(w: World)
      modifies this
      ensures var l := LoadModelAndPreprocessor(w, LocalBundle, LocalFeat, None, None).value;
        if l.Ok? then modelLoaded && bundle == l.value.bundle && featureNames == l.value.features
        else modelLoaded == old(modelLoaded) && bundle == old(bundle) && featureNames == old(featureNames)
    {
      var l := LoadModelAndPreprocessor(w, LocalBundle, LocalFeat, None, None).value;
      if l.Ok? {
        bundle, featureNames := l.value.bundle, l.value.features;
        modelLoaded := true;
      }
    }

    /** The gate of the prediction section. */
    predicate PredictionEnabled()
      reads this
      ensures PredictionEnabled() <==> modelLoaded && bundle != PyNone && featureNames != PyNone
    {
      modelLoaded && bundle != PyNone && featureNames != PyNone
    }

    /** The upload section (lines 90-135) for an uploaded file. */
    method HandleUpload(up: Upload, runs: Plan -> bool) returns (resp: Response)
      requires UploadWellFormed(up)
      requires CallsCanRun(runs)
      ensures resp == AppResponse(bundle, featureNames, up, runs)
      ensures var df := if up.defaultParse.Some? then up.defaultParse else FirstParse(Candidates, up.parse);
        && (df.None? <==> resp == ParseStopped)
        && (df.Some? ==>
          var t := StripHeader(df.value);
          var required := RequiredColumns(featureNames, t.header);
          WellFormed(t) &&
          match Reindex(t, required)
          case Err(_) => resp == Crashed
          case Ok(x) =>
            var plan := AppPlan(bundle, x);
            resp == if runs(plan) then Shown(x, plan)
                    else PredictionFailed(plan, Report(Sample(required), Sample(x.header))))
    {
      var parsed, _ := ReadUpload(up.defaultParse, up.parse);
      FirstParseWellFormed(Candidates, up.parse);
      if parsed.None? {
        return ParseStopped;
      }
      var t := StripHeader(parsed.value);
      var required := RequiredColumns(featureNames, t.header);
      var aligned := Reindex(t, required);
      if aligned.Err? {
        return Crashed;
      }
      var x := aligned.value;
      var plan := AppPlan(bundle, x);
      if runs(plan) {
        resp := Shown(x, plan);
      } else {
        resp := PredictionFailed(plan, Report(Sample(required), Sample(x.header)));
      }
    }
  }

  /**
   * One run of the script: the upload section is reached only when the button
   * was clicked, the load succeeded, and neither loaded object is `None`.
   */
  method Run(clicked: bool, w: World, upload: Option<Upload>, runs: Plan -> bool) returns (resp: Response)
    requires upload.Some? ==> UploadWellFormed(upload.value)
    requires CallsCanRun(runs)
    ensures var l := LoadModelAndPreprocessor(w, LocalBundle, LocalFeat, None, None).value;
      var enabled := clicked && l.Ok? && l.value.bundle != PyNone && l.value.features != PyNone;
      && (!enabled <==> resp == NotLoaded)
      && (enabled && upload.None? ==> resp == NoUpload)
      && (enabled && upload.Some? ==> resp == AppResponse(l.value.bundle, l.value.features, upload.value, runs))
  {
    var session := new Session();
    if clicked {
      session.ClickLoad(w);
    }
    if !session.PredictionEnabled() {
      return NotLoaded;
    }
    if upload.None? {
      return NoUpload;
    }
    resp := session.HandleUpload(upload.value, runs);
  }
}
