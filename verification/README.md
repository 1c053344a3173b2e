# EMI model demo: loader and input pipeline, modelled in Dafny

The EMI repository holds two Streamlit scripts, `streamlit_app_emi.py` and `app.py`. Both load a
pickled model bundle together with its feature-name list, then run predictions on an uploaded CSV
file. Most of their code is UI calls, pickle loading and HTTP downloads. This project models the
deterministic logic between those calls:

- **Column-name canonicaliser** (`ColumnNames`, `ColumnNameLemmas`): `clean_col_name` and
  `normalize_cols`. `clean_col_name` is a pipeline of seven rewrites over `seq<char>`. The lemmas
  prove the shape of its output and that it is idempotent over ASCII.
- **Label stripping** (`HeaderStrip`): `str(c).strip()`, the only label cleaning `app.py` does.
- **Feature alignment** (`Tables`): `DataFrame.reindex(columns=..., fill_value=0)` on an abstract
  table. A table is a header, one column of cells per label, and a row count.
- **Encoding fallback** (`TableReader`): a loop that tries `utf-8`, `utf-8-sig`, `cp1252` and
  `latin1` in that order and keeps the first table that parses. The loop is a method, proved
  against a first-success search function. The parse for each encoding is an oracle.
- **Bundle source** (`BundleLoader`): the rule "local files, else two downloads, else
  `FileNotFoundError`", plus `get_secret` and URL resolution. The file system, HTTP, Streamlit's
  secrets store and the environment are one `World` value. Every operation also returns the trace
  of I/O calls it made. That trace is how the model states "no download when the local files
  exist" and "the bundle is downloaded before the features".
- **Unpacking** (`Inference`): the case analysis that derives `required` from the loaded feature
  object, splits the bundle into preprocessor and model, and decides whether `transform` runs.
- **Script flows** (`EmiScript`, `AppScript`): each script's request handling built from the parts
  above. In `app.py` the module-level flags `model_loaded`, `bundle` and `feature_names` are the
  fields of the class `Session`.

The two scripts differ in ways the model keeps:

- `streamlit_app_emi.py` reads the URLs from `st.secrets` only. There is no environment fallback,
  and a missing secrets store raises outside any `try`.
- It always calls `preprocessor.transform`, even on `None`, so a bundle without a preprocessor
  never predicts there. `app.py` predicts on the raw values instead.
- It indexes the bundle by name without checking that it is a dict. `app.py` takes any non-dict
  bundle whole as the model.
- It normalises labels with `clean_col_name`. `app.py` only strips whitespace.
- `app.py` uses the classifier file names and secret keys. It calls the loader without URL
  parameters.

Three behaviours of the code that a reader might not expect, all kept by the model:

- A missing URL raises `FileNotFoundError`, not a separate configuration error.
- An absent preprocessor means raw values only in `app.py`.
- In `streamlit_app_emi.py`, a `reindex` failure is caught by the outer `try` and reported as an
  unreadable upload. In `app.py` it is not caught.

`streamlit_app_emi.py` lacks the `unicodedata`, `re` and `pandas` imports. The model follows the
evident intent and not the `NameError` those missing imports would cause.

## Model

| member | source | states |
|---|---|---|
| `ColumnNames.Nfkc` | streamlit_app_emi.py:13 | compatibility normalisation leaves ASCII text unchanged |
| `ColumnNames.StripControl` | streamlit_app_emi.py:14 | no character of `[\x00-\x1f\x7f-\x9f﻿]` remains, and the result is no longer than the input |
| `ColumnNames.AsciiPunctuation` | streamlit_app_emi.py:15 | each character is kept, except that curly double quotes become `"`, the right single quote becomes `'` and en/em dashes become `-` |
| `ColumnNames.Underscored` | streamlit_app_emi.py:16 | each non-word character becomes `_` and word characters are kept, so only word characters remain |
| `ColumnNames.Collapse` | streamlit_app_emi.py:17 | the result has no two adjacent underscores and keeps the first character (with `CollapseRun` and `CollapseNoop`: each run of underscores becomes exactly one) |
| `ColumnNames.TrimUnderscores` | streamlit_app_emi.py:18 | the result neither starts nor ends with `_`; no-double-underscore and word-only inputs stay so |
| `ColumnNames.Lower` | streamlit_app_emi.py:18 | each character is lower-cased on its own (ASCII letters) |
| `ColumnNames.CleanColName` | streamlit_app_emi.py:11-19 | the canonical name never contains `__`, never starts or ends with `_`, and the empty label maps to the empty name |
| `ColumnNames.NormalizeCols` | streamlit_app_emi.py:21-24 | a new table with as many labels as before, in order, each label cleaned; the columns and row count are unchanged (the input is a value and is not modified) |
| `ColumnNameLemmas.CleanCharset` | streamlit_app_emi.py:16-18 | over ASCII input every output character is in `[a-z0-9_]` |
| `ColumnNameLemmas.ControlCharsDeleted` | streamlit_app_emi.py:14 | a control or BOM character anywhere in the label is deleted, not replaced: removing it does not change the result |
| `ColumnNameLemmas.ControlBetweenAlnums` | streamlit_app_emi.py:14 | a control character between two lower-case ASCII letters or digits disappears, leaving the two characters side by side |
| `ColumnNameLemmas.TabExample` | streamlit_app_emi.py:14 | `"a\tb"` becomes `"ab"`, not `"a_b"` |
| `ColumnNameLemmas.TypographyIrrelevant` | streamlit_app_emi.py:15-16 | dropping the quote/dash replacement step gives the same canonical name |
| `ColumnNameLemmas.CleanKeepsAlnums` | streamlit_app_emi.py:11-19 | the non-underscore characters of the canonical name are exactly the label's ASCII letters and digits, in order, lower-cased |
| `ColumnNameLemmas.CanonicalFixed` | streamlit_app_emi.py:11-19 | a name of `[a-z0-9_]` without `__` and without edge underscores is its own canonical form |
| `ColumnNameLemmas.CleanIdempotent` | streamlit_app_emi.py:11-19 | over ASCII input, cleaning a cleaned name returns it unchanged |
| `ColumnNameLemmas.CollapseNonUnderscores` | streamlit_app_emi.py:17 | collapsing underscore runs changes no other character |
| `ColumnNameLemmas.CollapseShortensRun` | streamlit_app_emi.py:17 | two adjacent underscores anywhere give the same result as one |
| `ColumnNameLemmas.CollapseRun` | streamlit_app_emi.py:17 | a run of one or more underscores collapses to a single underscore, not to none |
| `ColumnNameLemmas.GapBetweenAlnums` | streamlit_app_emi.py:16-17 | any non-empty gap of non-word, non-control characters between two lower-case ASCII letters or digits becomes exactly one `_` |
| `ColumnNameLemmas.TwoSpacesBetweenAlnums` | streamlit_app_emi.py:16-17 | two spaces between two lower-case ASCII letters or digits become one `_` |
| `ColumnNameLemmas.SpacedExample` | streamlit_app_emi.py:16-17 | `"a  b"` becomes `"a_b"` |
| `ColumnNameLemmas.StripControlAppend` | streamlit_app_emi.py:14 | control-character deletion works character by character: it distributes over concatenation |
| `HeaderStrip.Strip` | app.py:108 | the stripped label neither starts nor ends with whitespace (Python's `isspace` set) and is a prefix of the left-stripped label |
| `HeaderStrip.StripSlice` | app.py:108 | the stripped label is the contiguous part of the label that starts after the leading whitespace |
| `HeaderStrip.StripRemovesOnlySpace` | app.py:108 | the stripped label is a contiguous part of the label, and every removed character is whitespace |
| `HeaderStrip.StripHeader` | app.py:108 | every label is stripped, in order; the columns and row count are unchanged |
| `Tables.Reindex` | streamlit_app_emi.py:102 | (also app.py:120) alignment succeeds iff the labels are distinct or already equal the feature list; the result has exactly the feature list's labels in order, the same row count, each column taken from the upload when present and all zeros otherwise |
| `Tables.ExtraColumnsDropped` | app.py:120 | an uploaded column that is not a feature is absent from the aligned table |
| `Tables.MissingFeaturesZeroFilled` | app.py:120 | a feature missing from the upload becomes a zero column with one cell per row |
| `Tables.ReindexIdempotent` | app.py:120 | aligning an aligned table to the same features changes nothing |
| `Tables.AlignExample` | streamlit_app_emi.py:102 | features `a, b, c` against columns `b, z` give `a, b, c`, with `a` and `c` zero, `b` from the upload and `z` dropped |
| `TableReader.ReadWithFallback` | streamlit_app_emi.py:91-99 | the loop returns the first encoding's table that parses, and calls the parser on exactly the encodings up to that one |
| `TableReader.FirstParseNoneIffAllFail` | streamlit_app_emi.py:92-98 | the search yields no table iff all four encodings fail |
| `TableReader.FirstParseIsFirstSuccess` | streamlit_app_emi.py:92-95 | when `k` is the first encoding that parses, the result is its table and the encodings tried are the first `k+1` |
| `TableReader.AllTriedOnFailure` | streamlit_app_emi.py:92-97 | when every encoding fails, all four were tried |
| `TableReader.ReadUpload` | app.py:91-104 | the encoding loop runs only when the default parse fails; otherwise the default table is used and no encoding is tried |
| `BundleLoader.GetSecret` | app.py:29-36 | the secrets-store value when it is truthy, after one lookup; otherwise, including when the store raises, the environment value, after a second lookup |
| `BundleLoader.GetSecretTruthy` | app.py:29-36 | the secret is truthy iff the store or the environment holds a non-empty value |
| `BundleLoader.ResolveUrl` | app.py:52-53 | a truthy URL parameter wins with no lookup; otherwise `get_secret` decides |
| `BundleLoader.BothExist` | app.py:46 | true iff both paths exist; the second path is checked only if the first exists; no network or configuration access |
| `BundleLoader.LoadLocal` | streamlit_app_emi.py:36-39 | succeeds iff both files unpickle, and then gives their contents; no network or configuration access |
| `BundleLoader.FetchPickle` | app.py:59-61 | one request to the URL; it succeeds iff the URL answers with a status outside 400-599 and a loadable body, and then gives that body's object |
| `BundleLoader.FetchBoth` | app.py:59-67 | the bundle URL is requested first; the feature URL only if the bundle loaded; succeeds iff both load; a failed bundle is the error |
| `BundleLoader.EmiSource` | streamlit_app_emi.py:35-54 | local iff both files exist; otherwise remote iff both URLs are truthy; otherwise missing |
| `BundleLoader.LoadBundleWithFeatureNames` | streamlit_app_emi.py:27-54 | local: the local pair and no download; remote: the downloaded pair with the downloads of `FetchBoth`; missing: `FileNotFoundError` and no download; never consults configuration |
| `BundleLoader.EmiStartup` | streamlit_app_emi.py:57-74 | without a secrets store the script fails before loading or downloading; otherwise it loads with the selected files and the URLs found in the store |
| `BundleLoader.Select` | streamlit_app_emi.py:59-68 | for either model type the bundle and the feature list come from different files and different secret keys |
| `BundleLoader.AppSource` | app.py:45-56 | local iff both files exist; otherwise remote with each URL taken from its parameter when truthy and from `get_secret` otherwise, when both are truthy; otherwise missing |
| `BundleLoader.LoadModelAndPreprocessor` | app.py:39-67 | local: the local pair, with no URL resolution and no download; missing: `FileNotFoundError` before any download; remote: the result and downloads of `FetchBoth` |
| `BundleLoader.RemoteFetchOrder` | app.py:59-65 | the first download is the bundle URL; a second one (the feature URL) happens iff the bundle loaded; at most two |
| `PyObjects.DictGet` | app.py:122-123 | `dict.get`: `None` for an absent key, otherwise the value stored under it |
| `PyObjects.DictIndex` | streamlit_app_emi.py:82-83 | `d[key]` fails iff the key is absent, and otherwise agrees with `get` |
| `PyObjects.Keys` | app.py:113 | `list(d.keys())`: one key per entry, in insertion order |
| `Inference.RequiredColumns` | app.py:109-118 | a list or tuple is used as is, a dict yields its keys in order, another iterable is listed (a string gives its characters), and an object that `list(...)` rejects (non-iterable, or indexable by name only) falls back to the upload's columns |
| `Inference.UnpackBundle` | app.py:122-123 | a dict bundle supplies `model` and `preprocessor` through `get`; any other bundle is the model, with no preprocessor |
| `Inference.AppPlan` | app.py:122-128 | `predict` gets `transform(X)` iff the preprocessor is not `None`, else the raw values of `X`, using the unpacked model |
| `Inference.NonDictBundleIsModel` | app.py:122-127 | a non-dict bundle predicts on the raw values with itself as the model |
| `Inference.NoPreprocessorEntryMeansRaw` | app.py:122-127 | a dict bundle without a `preprocessor` entry predicts on the raw values |
| `Inference.EmiUnpack` | streamlit_app_emi.py:82-83 | unpacking succeeds iff the bundle accepts `obj[name]` (a dict or another object indexable by name) and holds both keys; it then gives the two stored values, which for a dict agree with `app.py`'s unpacking |
| `Inference.EmiPlan` | streamlit_app_emi.py:105-106 | `transform` is always called, on the stored preprocessor whatever it is, and `predict` on the stored model |
| `Inference.KeyedBundleDiverges` | streamlit_app_emi.py:82-83 | (and app.py:122-123) a non-dict bundle indexable by name is unpacked by `streamlit_app_emi.py` but used whole as the model on raw values by `app.py` |
| `Inference.RawPlanCanRun` | app.py:122-128 | a dict bundle with a model and no `preprocessor` entry gives a raw-values plan that calls nothing on `None` |
| `Inference.Sample` | streamlit_app_emi.py:111-112 | `names[:20]`: the first `min(20, n)` names |
| `EmiScript.HandleUpload` | streamlit_app_emi.py:88-114 | the response is `EmiResponse` of the upload, the feature list and the bundle parts: "could not parse" iff every encoding fails; otherwise the cleaned table is aligned; a refused alignment is reported as an unreadable file; otherwise transform and predict run on the aligned table, and a failure reports the first 20 expected and provided columns |
| `EmiScript.NoPreprocessorAlwaysFails` | streamlit_app_emi.py:104-112 | with `None` as preprocessor no upload is ever predicted: one that gets past parsing and alignment always ends in the transform/predict failure report |
| `EmiScript.CollidingLabelsFail` | streamlit_app_emi.py:101-102 | two labels that clean to the same name make the alignment fail unless the cleaned labels already equal the feature list |
| `EmiScript.Run` | streamlit_app_emi.py:57-116 | a missing secrets store or a bundle without both keys crashes; a load error stops the script; without an upload nothing is predicted; with a successful load and an upload the response is `EmiResponse` of that upload, the loaded feature list and the unpacked bundle |
| `AppScript.Session.constructor` | app.py:70-72 | not loaded, no bundle, no feature list |
| `AppScript.Session.ClickLoad` | app.py:74-85 | a successful load stores the pair and sets `model_loaded`; a failed load leaves all three flags as they were |
| `AppScript.Session.PredictionEnabled` | app.py:88 | the upload section is open iff `model_loaded` is set and neither `bundle` nor `feature_names` is `None` |
| `AppScript.Session.HandleUpload` | app.py:89-135 | the response is `AppResponse` of the session's `bundle` and `feature_names`: the script stops iff no parse succeeds; otherwise the stripped table is aligned to `required`; a refused alignment crashes; otherwise the plan from `AppPlan` runs, and a failure reports the first 20 required and provided columns |
| `AppScript.MissingModelAlwaysFails` | app.py:121-135 | a dict bundle whose `model` entry is missing or `None` never shows predictions |
| `AppScript.ClassifierSelection` | app.py:40-41 | (and app.py:52-53) `app.py` uses the classification files and secret keys of `streamlit_app_emi.py` |
| `AppScript.Run` | app.py:70-137 | the prediction section is reached iff the button was clicked, the load succeeded and neither loaded object is `None`; past it, without an upload nothing happens, and with one the response is `AppResponse` of the loaded pair and the upload |

## Left out

- ColumnNames.CleanColName: treats every non-ASCII character as a non-word character that lower-casing leaves alone. NFKC normalisation is the identity. So the model matches the source on ASCII labels only. Python keeps non-ASCII letters and digits, and `str.lower` can expand a character (`'İ'` gives two), which breaks idempotence outside ASCII.
- ColumnNames.Nfkc: the identity. Unicode compatibility normalisation is not modelled.
- Streamlit rendering, widgets, message texts, `st.stop` as a process action, and the row count shown at app.py:106: UI only.
- The `@st.cache_resource` memoisation of both loaders: it is framework behaviour.
- The dependency probe at app.py:8-16: it inspects the runtime through `importlib`.
- The HTTP timeouts (30 s and 60 s) and redirects: an answer that does not come in time counts as a failed connection, like a URL missing from `World.http`.
- Pickle decoding: a file or body either holds an object or is corrupt.
- Path resolution: `APP_DIR.joinpath` is string concatenation with `/`. `app.py`'s paths are relative to the working directory and are used as given.
- CSV byte decoding and tokenisation: each encoding's parse is an oracle. The stream position after a failed first read at app.py:92-95 is not modelled: the fallback gets its own parse oracle.
- `preprocessor.transform` and `model.predict`: foreign calls. The model records which object they are called on and with which table. Whether they raise is the oracle `runs`. The prediction values and the `out.head(50)` display are not modelled.
- Python object shapes: list, tuple and iterable items and dictionary keys are strings. Other element types would never match a column name.
- EmiScript.Run: requires the loaded feature object to be a list or tuple of names. For any other object, pandas' handling at streamlit_app_emi.py:102 is not modelled. Neither is whether `feature_names[:20]` at line 111 works: an array slices, but a set raises `TypeError`, which the handler at line 113 would report as an unreadable file.
- The `runs` oracle is constrained only by `CallsCanRun`: a plan that calls `transform` or `predict` on `None` fails. Which other objects accept which tables is not modelled.
- AppScript.Run: treats a button click and an uploaded file in the same script run as reachable. Under Streamlit's rerun model `st.button` is true only on the run right after the click. The uploader first appears on that run, and uploading a file starts a new run in which `model_loaded` is false again. So in `app.py` predictions are plausibly never reached. Reruns are framework behaviour and are not modelled.
- Cell values and dtypes, and the numeric coercion mentioned at streamlit_app_emi.py:103: cells are abstract values and the fill value is the integer 0.
- The `NameError` the missing imports in streamlit_app_emi.py would raise.
