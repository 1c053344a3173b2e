/**
 * What the scripts do with the loaded objects: derive the list of required
 * columns, split the bundle into preprocessor and model, and decide which
 * foreign calls (`transform`, `predict`) run on which table.
 */
module Inference {
  import opened Wrappers
  import opened PyObjects
  import opened Tables

  /**
   * `required` in `app.py`: a list or tuple as it is, a dict's keys in order,
   * any other iterable through `list(...)` (a string gives its characters), and
   * when `list(...)` raises (a non-iterable object, or one indexable by name
   * only) the uploaded table's own columns.
   */
  function RequiredColumns(featureNames: PyObj, uploaded: seq<string>): (r: seq<string>)
    ensures featureNames.PyList? || featureNames.PyTuple? || featureNames.PyIterable? ==> r == featureNames.items
    ensures featureNames.PyDict? ==> r == Keys(featureNames.entries)
    ensures featureNames.PyStr? ==>
      |r| == |featureNames.text| && forall i :: 0 <= i < |r| ==> r[i] == [featureNames.text[i]]
    ensures featureNames.PyNone? || featureNames.PyKeyed? || featureNames.PyOpaque? ==> r == uploaded
  {
    match featureNames
    case PyList(items) => items
    case PyTuple(items) => items
    case PyDict(entries) => Keys(entries)
    case PyIterable(items) => items
    case PyStr(text) => seq(|text|, i requires 0 <= i < |text| => [text[i]])
    case PyNone => uploaded
    case PyKeyed(_) => uploaded
    case PyOpaque(_) => uploaded
  }

  datatype Unpacked = Unpacked(preprocessor: PyObj, model: PyObj)

  /**
   * `app.py`: a dict bundle supplies `bundle.get("model")` and
   * `bundle.get("preprocessor")` (`None` when absent); any other bundle is
   * itself the model and there is no preprocessor.
   */
  function UnpackBundle(bundle: PyObj): (u: Unpacked)
    ensures bundle.PyDict? ==>
      u.model == DictGet(bundle.entries, "model") && u.preprocessor == DictGet(bundle.entries, "preprocessor")
    ensures !bundle.PyDict? ==> u == Unpacked(PyNone, bundle)
  {
    match bundle
    case PyDict(entries) => Unpacked(DictGet(entries, "preprocessor"), DictGet(entries, "model"))
    case _ => Unpacked(PyNone, bundle)
  }

  /** What `model.predict` is applied to: `preprocessor.transform(X)` or `X.values`. */
  datatype ModelInput = Transformed(transformer: PyObj, x: Table) | RawValues(x: Table)

  /** The foreign calls of one prediction: `model.predict(input)`. */
  datatype Plan = Plan(model: PyObj, input: ModelInput)

  /** `app.py`: `transform` runs exactly when the preprocessor is not `None`. */
  function AppPlan(bundle: PyObj, x: Table): (p: Plan)
    ensures p.model == UnpackBundle(bundle).model && p.input.x == x
    ensures p.input.Transformed? <==> UnpackBundle(bundle).preprocessor != PyNone
    ensures p.input.Transformed? ==> p.input.transformer == UnpackBundle(bundle).preprocessor
  {
    var u := UnpackBundle(bundle);
    Plan(u.model, if u.preprocessor != PyNone then Transformed(u.preprocessor, x) else RawValues(x))
  }

  /** A bundle that is not a dict is used as the model on the raw values. */
  lemma NonDictBundleIsModel(bundle: PyObj, x: Table)
    requires !bundle.PyDict?
    ensures AppPlan(bundle, x) == Plan(bundle, RawValues(x))
  {
  }

  /** A dict bundle without a `preprocessor` entry predicts on the raw values. */
  lemma NoPreprocessorEntryMeansRaw(entries: seq<(string, PyObj)>, x: Table)
    requires "preprocessor" !in Keys(entries)
    ensures AppPlan(PyDict(entries), x).input == RawValues(x)
  {
  }

  /** Whether `obj[key]` accepts string keys: a dict or another object indexable by name. */
  predicate IndexableByName(obj: PyObj) {
    obj.PyDict? || obj.PyKeyed?
  }

  /**
   * `streamlit_app_emi.py`: `bundle["preprocessor"]` and `bundle["model"]`,
   * which raise (outside any `try`) unless the bundle is indexable by name and
   * holds both keys. Unlike `app.py`, no `isinstance(bundle, dict)` test is made.
   */
  function EmiUnpack(bundle: PyObj): (r: Option<Unpacked>)
    ensures r.Some? <==>
      IndexableByName(bundle) && "preprocessor" in Keys(bundle.entries) && "model" in Keys(bundle.entries)
    ensures r.Some? ==>
      r.value == Unpacked(DictGet(bundle.entries, "preprocessor"), DictGet(bundle.entries, "model"))
    ensures r.Some? && bundle.PyDict? ==> r.value == UnpackBundle(bundle)
  {
    if !IndexableByName(bundle) then None
    else
      var p := DictIndex(bundle.entries, "preprocessor");
      var m := DictIndex(bundle.entries, "model");
      if p.Some? && m.Some? then Some(Unpacked(p.value, m.value)) else None
  }

  /** `streamlit_app_emi.py` always calls `preprocessor.transform`, even on `None`. */
  function EmiPlan(u: Unpacked, x: Table): (p: Plan)
    ensures p.input.Transformed? && p.input.transformer == u.preprocessor && p.input.x == x
    ensures p.model == u.model
  {
    Plan(u.model, Transformed(u.preprocessor, x))
  }

  /**
   * The two scripts part ways on a bundle that is indexable by name but is not a
   * dict: `streamlit_app_emi.py` unpacks it, `app.py` takes it whole as the model.
   */
  lemma KeyedBundleDiverges(entries: seq<(string, PyObj)>, x: Table)
    requires "preprocessor" in Keys(entries) && "model" in Keys(entries)
    ensures EmiUnpack(PyKeyed(entries)) == Some(Unpacked(DictGet(entries, "preprocessor"), DictGet(entries, "model")))
    ensures AppPlan(PyKeyed(entries), x) == Plan(PyKeyed(entries), RawValues(x))
  {
  }

  /**
   * The other half of that divergence: a dict bundle with a model and no
   * `preprocessor` entry gives `app.py` a plan that calls nothing on `None`, so
   * a `predict` that accepts the raw values can succeed.
   */
  lemma RawPlanCanRun(entries: seq<(string, PyObj)>, x: Table)
    requires "preprocessor" !in Keys(entries) && DictGet(entries, "model") != PyNone
    ensures var plan := AppPlan(PyDict(entries), x);
      plan.input == RawValues(x) && CallsCanRun(p => p == plan)
  {
  }

  /**
   * Whether the foreign calls of a plan can succeed at all: `None` has neither
   * `transform` nor `predict`, so a plan calling either on `None` always raises.
   */
  ghost predicate CallsCanRun(runs: Plan -> bool) {
    forall p :: runs(p) ==> p.model != PyNone && (p.input.Transformed? ==> p.input.transformer != PyNone)
  }

  /** `names[:20]`, the sample shown when transform or predict fails. */
  function Sample(names: seq<string>): (r: seq<string>)
    ensures |r| == if |names| < 20 then |names| else 20
    ensures r == names[..|r|]
  {
    if |names| <= 20 then names else names[..20]
  }

  /** The diagnostic shown on a failed prediction: expected and provided columns. */
  datatype Report = Report(expected: seq<string>, provided: seq<string>)
}
