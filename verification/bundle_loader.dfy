/**
 * Where the model bundle and the feature-name list come from: local pickle
 * files when both exist, otherwise two HTTP downloads whose URLs come from
 * configuration, otherwise `FileNotFoundError`.
 *
 * The file system, the HTTP client, Streamlit's secrets store and the process
 * environment are one `World` value; every function returns, beside its
 * result, the trace of the I/O calls it made, in order.
 */
module BundleLoader {
  import opened Wrappers
  import opened PyObjects

  /** A pickled file or HTTP body: something `joblib.load` can read, or not. */
  datatype Blob = Pickle(obj: PyObj) | Corrupt

  datatype HttpResponse = HttpResponse(status: int, body: Blob)

  /** Streamlit's `st.secrets`: absent (every lookup raises) or a table of entries. */
  datatype SecretStore = NoSecretsFile | Secrets(entries: map<string, string>)

  datatype World = World(
    files: map<string, Blob>,          // existing paths and their contents
    http: map<string, HttpResponse>,   // URLs that answer; any other URL fails to connect
    secrets: SecretStore,
    env: map<string, string>)

  datatype Io =
    | PathExists(path: string)
    | LoadFile(path: string)
    | SecretsGet(key: string)
    | EnvGet(key: string)
    | HttpGet(url: string)

  datatype Traced<T> = Traced(value: T, trace: seq<Io>)

  datatype LoadError =
    | FileNotFound                          // neither local files nor both URLs
    | HttpError(url: string, status: int)   // `raise_for_status` on a 4xx/5xx answer
    | ConnectionError(url: string)          // `requests.get` itself raised
    | UnpickleError                         // `joblib.load` raised
    | SecretsUnavailable                    // `st.secrets.get` raised outside any `try`

  datatype Artifacts = Artifacts(bundle: PyObj, features: PyObj)

  /** The URLs requested over HTTP, in order; none for a trace without HTTP calls. */
  function Fetches(trace: seq<Io>): (urls: seq<string>)
    ensures (forall i :: 0 <= i < |trace| ==> !trace[i].HttpGet?) ==> urls == []
  {
    if trace == [] then []
    else (if trace[0].HttpGet? then [trace[0].url] else []) + Fetches(trace[1..])
  }

  /** No secrets-store or environment lookup happened. */
  predicate NoConfigLookup(trace: seq<Io>) {
    forall i :: 0 <= i < |trace| ==> !trace[i].SecretsGet? && !trace[i].EnvGet?
  }

  lemma {:induction false} FetchesAppend(a: seq<Io>, b: seq<Io>)
    ensures Fetches(a + b) == Fetches(a) + Fetches(b)
  {
    if a == [] {
      assert a + b == b;
    } else {
      assert (a + b)[0] == a[0];
      assert (a + b)[1..] == a[1..] + b;
      FetchesAppend(a[1..], b);
    }
  }

  /** Three traces without downloads make one without downloads. */
  lemma NoFetchesJoined(a: seq<Io>, b: seq<Io>, c: seq<Io>)
    requires Fetches(a) == [] && Fetches(b) == [] && Fetches(c) == []
    ensures Fetches(a + b + c) == []
  {
    FetchesAppend(a, b);
    FetchesAppend(a + b, c);
  }

  // ---------------------------------------------------------------- configuration

  /** Whether `st.secrets.get(key)` gives a truthy value (it raises when there is no store). */
  predicate SecretTruthy(s: SecretStore, key: string) {
    s.Secrets? && key in s.entries && s.entries[key] != ""
  }

  /** `m.get(key)` on a string table: `os.environ.get` and the value side of `st.secrets.get`. */
  function Lookup(m: map<string, string>, key: string): Option<string> {
    if key in m then Some(m[key]) else None
  }

  /**
   * `get_secret(key)`: the secrets-store value when it is truthy; otherwise,
   * also when the store raises, the environment value (possibly `None`).
   */
  function GetSecret(w: World, key: string): (r: Traced<Option<string>>)
    ensures SecretTruthy(w.secrets, key) ==>
      r.value == Some(w.secrets.entries[key]) && r.trace == [SecretsGet(key)]
    ensures !SecretTruthy(w.secrets, key) ==>
      r.value == Lookup(w.env, key) && r.trace == [SecretsGet(key), EnvGet(key)]
  {
    var fromSecrets := match w.secrets
      case NoSecretsFile => None
      case Secrets(entries) => if key in entries then Some(entries[key]) else None;
    if Truthy(fromSecrets) then Traced(fromSecrets, [SecretsGet(key)])
    else Traced(Lookup(w.env, key), [SecretsGet(key), EnvGet(key)])
  }

  /** The value is truthy exactly when the secrets store or the environment holds a non-empty one. */
  lemma GetSecretTruthy(w: World, key: string)
    ensures Truthy(GetSecret(w, key).value) <==>
      SecretTruthy(w.secrets, key) || (key in w.env && w.env[key] != "")
  {
  }

  /** `param or get_secret(key)`: a truthy parameter wins and no lookup is made. */
  function ResolveUrl(w: World, param: Option<string>, key: string): (r: Traced<Option<string>>)
    ensures Truthy(param) ==> r.value == param && r.trace == []
    ensures !Truthy(param) ==> r == GetSecret(w, key)
    ensures Fetches(r.trace) == []
  {
    if Truthy(param) then Traced(param, []) else GetSecret(w, key)
  }

  // ---------------------------------------------------------------- loading

  function Unpickle(b: Blob): Result<PyObj, LoadError> {
    match b
    case Pickle(o) => Ok(o)
    case Corrupt => Err(UnpickleError)
  }

  /** `a.exists() and b.exists()`, with Python's short circuit. */
  function BothExist(w: World, a: string, b: string): (r: Traced<bool>)
    ensures r.value <==> a in w.files && b in w.files
    ensures Fetches(r.trace) == [] && NoConfigLookup(r.trace)
  {
    if a in w.files then Traced(b in w.files, [PathExists(a), PathExists(b)])
    else Traced(false, [PathExists(a)])
  }

  /** `b = joblib.load(bundle_path); f = joblib.load(feat_path)`. */
  function LoadLocal(w: World, bundlePath: string, featPath: string): (r: Traced<Result<Artifacts, LoadError>>)
    requires bundlePath in w.files && featPath in w.files
    ensures Fetches(r.trace) == [] && NoConfigLookup(r.trace)
    ensures r.value.Ok? <==> w.files[bundlePath].Pickle? && w.files[featPath].Pickle?
    ensures r.value.Ok? ==> r.value.value == Artifacts(w.files[bundlePath].obj, w.files[featPath].obj)
  {
    match Unpickle(w.files[bundlePath])
    case Err(e) => Traced(Err(e), [LoadFile(bundlePath)])
    case Ok(b) =>
      match Unpickle(w.files[featPath])
      case Err(e) => Traced(Err(e), [LoadFile(bundlePath), LoadFile(featPath)])
      case Ok(f) => Traced(Ok(Artifacts(b, f)), [LoadFile(bundlePath), LoadFile(featPath)])
  }

  /** Whether `requests.get(url).raise_for_status()` raises for this status. */
  predicate IsHttpError(status: int) {
    400 <= status < 600
  }

  /** `r = requests.get(url, timeout=...); r.raise_for_status(); joblib.load(io.BytesIO(r.content))`. */
  function FetchPickle(w: World, url: string): (r: Traced<Result<PyObj, LoadError>>)
    ensures Fetches(r.trace) == [url] && NoConfigLookup(r.trace)
    ensures r.value.Ok? <==>
      url in w.http && !IsHttpError(w.http[url].status) && w.http[url].body.Pickle?
    ensures r.value.Ok? ==> r.value.value == w.http[url].body.obj
  {
    var trace := [HttpGet(url)];
    if url !in w.http then Traced(Err(ConnectionError(url)), trace)
    else if IsHttpError(w.http[url].status) then Traced(Err(HttpError(url, w.http[url].status)), trace)
    else Traced(Unpickle(w.http[url].body), trace)
  }

  /**
   * Download the bundle, then the feature list. A failed bundle download or
   * load ends the operation before the feature URL is requested.
   */
  function FetchBoth(w: World, bundleUrl: string, featUrl: string): (r: Traced<Result<Artifacts, LoadError>>)
    ensures NoConfigLookup(r.trace)
    ensures Fetches(r.trace) == if FetchPickle(w, bundleUrl).value.Ok? then [bundleUrl, featUrl] else [bundleUrl]
    ensures r.value.Ok? <==> FetchPickle(w, bundleUrl).value.Ok? && FetchPickle(w, featUrl).value.Ok?
    ensures r.value.Ok? ==>
      r.value.value == Artifacts(FetchPickle(w, bundleUrl).value.value, FetchPickle(w, featUrl).value.value)
    ensures FetchPickle(w, bundleUrl).value.Err? ==> r.value == Err(FetchPickle(w, bundleUrl).value.error)
  {
    var b := FetchPickle(w, bundleUrl);
    if b.value.Err? then Traced(Err(b.value.error), b.trace)
    else
      var f := FetchPickle(w, featUrl);
      FetchesAppend(b.trace, f.trace);
      var trace := b.trace + f.trace;
      if f.value.Err? then Traced(Err(f.value.error), trace)
      else Traced(Ok(Artifacts(b.value.value, f.value.value)), trace)
  }

  /** The decision both loaders make. */
  datatype Source = Local | Remote(bundleUrl: string, featUrl: string) | Missing

  // ---------------------------------------------------------------- streamlit_app_emi.py

  /** `APP_DIR.joinpath(rel)` for a relative path. */
  function JoinPath(dir: string, rel: string): string {
    dir + "/" + rel
  }

  /** The decision of `load_bundle_with_feature_names`. */
  function EmiSource(w: World, bundlePath: string, featPath: string,
                     remoteBundle: Option<string>, remoteFeat: Option<string>): (r: Source)
    ensures r.Local? <==> bundlePath in w.files && featPath in w.files
    ensures r.Missing? <==> !r.Local? && !(Truthy(remoteBundle) && Truthy(remoteFeat))
    ensures r.Remote? ==> r == Remote(remoteBundle.value, remoteFeat.value)
  {
    if bundlePath in w.files && featPath in w.files then Local
    else if Truthy(remoteBundle) && Truthy(remoteFeat) then Remote(remoteBundle.value, remoteFeat.value)
    else Missing
  }

  /**
   * `load_bundle_with_feature_names`: the local pair whenever both files exist,
   * without a network call; otherwise the downloaded pair when both URLs are
   * truthy, the bundle first; otherwise `FileNotFoundError` with no download.
   */
  function LoadBundleWithFeatureNames(w: World, appDir: string, bundleRel: string, featRel: string,
                                      remoteBundle: Option<string>, remoteFeat: Option<string>)
    : (r: Traced<Result<Artifacts, LoadError>>)
    ensures NoConfigLookup(r.trace)
    ensures var bp, fp := JoinPath(appDir, bundleRel), JoinPath(appDir, featRel);
      match EmiSource(w, bp, fp, remoteBundle, remoteFeat)
      case Local => Fetches(r.trace) == [] && r.value == LoadLocal(w, bp, fp).value
      case Remote(bu, fu) => Fetches(r.trace) == Fetches(FetchBoth(w, bu, fu).trace)
                             && r.value == FetchBoth(w, bu, fu).value
      case Missing => Fetches(r.trace) == [] && r.value == Err(FileNotFound)
  {
    var bp := JoinPath(appDir, bundleRel);
    var fp := JoinPath(appDir, featRel);
    var local := BothExist(w, bp, fp);
    if local.value then
      var l := LoadLocal(w, bp, fp);
      FetchesAppend(local.trace, l.trace);
      Traced(l.value, local.trace + l.trace)
    else if Truthy(remoteBundle) && Truthy(remoteFeat) then
      var f := FetchBoth(w, remoteBundle.value, remoteFeat.value);
      FetchesAppend(local.trace, f.trace);
      Traced(f.value, local.trace + f.trace)
    else Traced(Err(FileNotFound), local.trace)
  }

  datatype ModelType = Classification | Regression

  /** The file names and secret keys the script picks for a model type. */
  datatype Selection = Selection(bundleRel: string, featRel: string, bundleKey: string, featKey: string)

  function Select(kind: ModelType): (r: Selection)
    ensures r.bundleRel != r.featRel && r.bundleKey != r.featKey
  {
    match kind
    case Classification =>
      Selection("best_bundle_classification.pkl", "feature_names_classification.pkl",
                "CLASSIFIER_BUNDLE_URL", "CLASSIFIER_FEAT_URL")
    case Regression =>
      Selection("best_bundle_regression.pkl", "feature_names_regression.pkl",
                "REGRESSOR_BUNDLE_URL", "REGRESSOR_FEAT_URL")
  }

  /**
   * The start of `streamlit_app_emi.py`: look both URLs up in `st.secrets`
   * (no environment fallback, and a missing store raises outside any `try`),
   * then load.
   */
  function EmiStartup(w: World, appDir: string, kind: ModelType): (r: Traced<Result<Artifacts, LoadError>>)
    ensures w.secrets.NoSecretsFile? ==> r.value == Err(SecretsUnavailable) && Fetches(r.trace) == []
    ensures w.secrets.Secrets? ==>
      var sel := Select(kind);
      r.value == LoadBundleWithFeatureNames(w, appDir, sel.bundleRel, sel.featRel,
                   Lookup(w.secrets.entries, sel.bundleKey), Lookup(w.secrets.entries, sel.featKey)).value
  {
    var sel := Select(kind);
    match w.secrets
    case NoSecretsFile => Traced(Err(SecretsUnavailable), [SecretsGet(sel.bundleKey)])
    case Secrets(entries) =>
      var lookups := [SecretsGet(sel.bundleKey), SecretsGet(sel.featKey)];
      var l := LoadBundleWithFeatureNames(w, appDir, sel.bundleRel, sel.featRel,
                 Lookup(entries, sel.bundleKey), Lookup(entries, sel.featKey));
      Traced(l.value, lookups + l.trace)
  }

  // ---------------------------------------------------------------- app.py

  const BundleKey := "CLASSIFIER_BUNDLE_URL"
  const FeatKey := "CLASSIFIER_FEAT_URL"

  /** The decision of `load_model_and_preprocessor`. */
  function AppSource(w: World, localBundle: string, localFeat: string,
                     paramBundle: Option<string>, paramFeat: Option<string>): (r: Source)
    ensures r.Local? <==> localBundle in w.files && localFeat in w.files
    ensures !r.Local? ==>
      var bu := if Truthy(paramBundle) then paramBundle else GetSecret(w, BundleKey).value;
      var fu := if Truthy(paramFeat) then paramFeat else GetSecret(w, FeatKey).value;
      if Truthy(bu) && Truthy(fu) then r == Remote(bu.value, fu.value) else r.Missing?
  {
    if localBundle in w.files && localFeat in w.files then Local
    else
      var bu := ResolveUrl(w, paramBundle, BundleKey).value;
      var fu := ResolveUrl(w, paramFeat, FeatKey).value;
      if Truthy(bu) && Truthy(fu) then Remote(bu.value, fu.value) else Missing
  }

  /**
   * `load_model_and_preprocessor`: with both local files present it loads them
   * and neither resolves a URL nor downloads; otherwise it resolves both URLs
   * (parameter, then secret) and raises `FileNotFoundError` before any download
   * when either is falsy; otherwise it downloads the bundle, then the features.
   */
  function LoadModelAndPreprocessor(w: World, localBundle: string, localFeat: string,
                                    paramBundle: Option<string>, paramFeat: Option<string>)
    : (r: Traced<Result<Artifacts, LoadError>>)
    ensures match AppSource(w, localBundle, localFeat, paramBundle, paramFeat)
      case Local => Fetches(r.trace) == [] && NoConfigLookup(r.trace)
                    && r.value == LoadLocal(w, localBundle, localFeat).value
      case Remote(bu, fu) => Fetches(r.trace) == Fetches(FetchBoth(w, bu, fu).trace)
                             && r.value == FetchBoth(w, bu, fu).value
      case Missing => Fetches(r.trace) == [] && r.value == Err(FileNotFound)
  {
    var local := BothExist(w, localBundle, localFeat);
    if local.value then
      var l := LoadLocal(w, localBundle, localFeat);
      FetchesAppend(local.trace, l.trace);
      Traced(l.value, local.trace + l.trace)
    else
      var bu := ResolveUrl(w, paramBundle, BundleKey);
      var fu := ResolveUrl(w, paramFeat, FeatKey);
      var lookups := local.trace + bu.trace + fu.trace;
      NoFetchesJoined(local.trace, bu.trace, fu.trace);
      if !(Truthy(bu.value) && Truthy(fu.value)) then Traced(Err(FileNotFound), lookups)
      else
        var f := FetchBoth(w, bu.value.value, fu.value.value);
        FetchesAppend(lookups, f.trace);
        Traced(f.value, lookups + f.trace)
  }

  /**
   * The download order: the bundle URL is requested first, and the feature URL
   * is requested only when the bundle was downloaded and loaded.
   */
  lemma RemoteFetchOrder(w: World, localBundle: string, localFeat: string,
                         paramBundle: Option<string>, paramFeat: Option<string>)
    requires AppSource(w, localBundle, localFeat, paramBundle, paramFeat).Remote?
    ensures var src := AppSource(w, localBundle, localFeat, paramBundle, paramFeat);
      var fetched := Fetches(LoadModelAndPreprocessor(w, localBundle, localFeat, paramBundle, paramFeat).trace);
      && fetched[0] == src.bundleUrl
      && (|fetched| == 2 <==> FetchPickle(w, src.bundleUrl).value.Ok?)
      && (|fetched| == 2 ==> fetched[1] == src.featUrl)
      && |fetched| <= 2
  {
  }
}
