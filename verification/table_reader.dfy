/**
 * The encoding-tolerant CSV reader: try `pd.read_csv` with each candidate
 * encoding in a fixed order and keep the first table that parses.
 *
 * Byte decoding and CSV tokenisation are not modelled: `parse(e)` is what
 * `pd.read_csv(io.BytesIO(raw), encoding=e)` gives for the uploaded bytes,
 * `None` when it raises.
 */
module TableReader {
  import opened Wrappers
  import opened Tables

  datatype Encoding = Utf8 | Utf8Sig | Cp1252 | Latin1

  /** The order both scripts try: utf-8, utf-8-sig, cp1252, latin1. */
  const Candidates: seq<Encoding> := [Utf8, Utf8Sig, Cp1252, Latin1]

  /** The result of the first encoding in `encs` whose parse succeeds. */
  function FirstParse(encs: seq<Encoding>, parse: Encoding -> Option<Table>): (r: Option<Table>)
  {
    if encs == [] then None
    else if parse(encs[0]).Some? then parse(encs[0])
    else FirstParse(encs[1..], parse)
  }

  /** The encodings tried before the search stops: up to and including the first success. */
  function Tried(encs: seq<Encoding>, parse: Encoding -> Option<Table>): (r: seq<Encoding>)
  {
    if encs == [] then []
    else if parse(encs[0]).Some? then [encs[0]]
    else [encs[0]] + Tried(encs[1..], parse)
  }

  /** Every table the parser produces is well formed. */
  ghost predicate ParsesWellFormed(parse: Encoding -> Option<Table>) {
    forall e :: parse(e).Some? ==> WellFormed(parse(e).value)
  }

  lemma {:induction false} FirstParseWellFormed(encs: seq<Encoding>, parse: Encoding -> Option<Table>)
    requires ParsesWellFormed(parse)
    ensures FirstParse(encs, parse).Some? ==> WellFormed(FirstParse(encs, parse).value)
  {
    if encs != [] && parse(encs[0]).None? {
      FirstParseWellFormed(encs[1..], parse);
    }
  }

  /** The search yields nothing exactly when every encoding fails. */
  lemma {:induction false} FirstParseNoneIffAllFail(encs: seq<Encoding>, parse: Encoding -> Option<Table>)
    ensures FirstParse(encs, parse).None? <==> forall k :: 0 <= k < |encs| ==> parse(encs[k]).None?
  {
    if encs != [] {
      FirstParseNoneIffAllFail(encs[1..], parse);
      assert forall k :: 1 <= k < |encs| ==> encs[k] == encs[1..][k - 1];
    }
  }

  /**
   * A found table is the parse of encoding `encs[k]`, where `k` is the first
   * position that parses, and the search tried exactly `encs[..k+1]`.
   */
  lemma {:induction false} FirstParseIsFirstSuccess(encs: seq<Encoding>, parse: Encoding -> Option<Table>, k: nat)
    requires k < |encs| && parse(encs[k]).Some?
    requires forall j :: 0 <= j < k ==> parse(encs[j]).None?
    ensures FirstParse(encs, parse) == parse(encs[k])
    ensures Tried(encs, parse) == encs[..k + 1]
  {
    if k > 0 {
      FirstParseIsFirstSuccess(encs[1..], parse, k - 1);
      assert encs[..k + 1] == [encs[0]] + encs[1..][..k];
    }
  }

  /** When every encoding fails, all of them were tried. */
  lemma {:induction false} AllTriedOnFailure(encs: seq<Encoding>, parse: Encoding -> Option<Table>)
    requires forall k :: 0 <= k < |encs| ==> parse(encs[k]).None?
    ensures Tried(encs, parse) == encs
  {
    if encs != [] {
      AllTriedOnFailure(encs[1..], parse);
      assert forall k :: 1 <= k < |encs| ==> encs[k] == encs[1..][k - 1];
    }
  }

  /**
   * The loop `for enc in (...): try: df = pd.read_csv(...); break except: df = None`.
   * `attempts` lists the encodings it called `read_csv` with, in order.
   */
  method ReadWithFallback(parse: Encoding -> Option<Table>) returns (df: Option<Table>, attempts: seq<Encoding>)
    ensures df == FirstParse(Candidates, parse)
    ensures attempts == Tried(Candidates, parse)
  {
    df := None;
    attempts := [];
    var i := 0;
    while i < |Candidates|
      invariant 0 <= i <= |Candidates|
      invariant df == None
      invariant FirstParse(Candidates, parse) == FirstParse(Candidates[i..], parse)
      invariant Tried(Candidates, parse) == attempts + Tried(Candidates[i..], parse)
    {
      var enc := Candidates[i];
      attempts := attempts + [enc];
      var r := parse(enc);
      if r.Some? {
        df := r;
        break;
      }
      df := None;
      assert Candidates[i..][1..] == Candidates[i + 1..];
      i := i + 1;
    }
  }

  /**
   * The reader of `app.py`: a first `pd.read_csv(uploaded)` with pandas'
   * defaults, and the encoding loop only when that raises.
   */
  method ReadUpload(defaultParse: Option<Table>, parse: Encoding -> Option<Table>)
    returns (df: Option<Table>, attempts: seq<Encoding>)
    ensures defaultParse.Some? ==> df == defaultParse && attempts == []
    ensures defaultParse.None? ==> df == FirstParse(Candidates, parse) && attempts == Tried(Candidates, parse)
  {
    if defaultParse.Some? {
      return defaultParse, [];
    }
    df, attempts := ReadWithFallback(parse);
  }
}
