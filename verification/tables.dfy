/**
 * An abstract pandas DataFrame and `DataFrame.reindex(columns=..., fill_value=0)`,
 * the feature-alignment step of both scripts.
 */
module Tables {
  import opened Wrappers

  datatype Cell = Int(i: int) | Real(r: real) | Text(s: string) | Missing

  /**
   * A table: its column labels in order, one column of cells per label, and a
   * row count. Labels may repeat (after normalisation two labels can collide).
   */
  datatype Table = Table(header: seq<string>, columns: seq<seq<Cell>>, rows: nat)

  ghost predicate WellFormed(t: Table) {
    && |t.columns| == |t.header|
    && forall j :: 0 <= j < |t.columns| ==> |t.columns[j]| == t.rows
  }

  predicate Distinct(s: seq<string>) {
    forall i, j :: 0 <= i < j < |s| ==> s[i] != s[j]
  }

  /** The value `reindex` fills a missing column with (`fill_value=0`). */
  const Fill: Cell := Int(0)

  function Zeros(n: nat): (z: seq<Cell>)
    ensures |z| == n && forall k :: 0 <= k < n ==> z[k] == Fill
  {
    seq(n, _ => Fill)
  }

  /** Position of the first occurrence of `x` in `s`. */
  function IndexOf(s: seq<string>, x: string): (k: nat)
    requires x in s
    ensures k < |s| && s[k] == x
    ensures forall j :: 0 <= j < k ==> s[j] != x
  {
    if s[0] == x then 0 else 1 + IndexOf(s[1..], x)
  }

  /** The column that alignment places under `name`. */
  function ColumnFor(t: Table, name: string): (c: seq<Cell>)
    requires WellFormed(t)
    ensures |c| == t.rows
  {
    if name in t.header then t.columns[IndexOf(t.header, name)] else Zeros(t.rows)
  }

  datatype ReindexError = DuplicateLabels

  /**
   * `t.reindex(columns=labels, fill_value=0)`. Reindexing to the table's own
   * labels is the identity; otherwise pandas refuses a table whose labels
   * repeat ("cannot reindex on an axis with duplicate labels").
   */
  function Reindex(t: Table, labels: seq<string>): (r: Result<Table, ReindexError>)
    requires WellFormed(t)
    ensures r.Ok? <==> t.header == labels || Distinct(t.header)
    ensures t.header == labels ==> r == Ok(t)
    ensures r.Ok? ==> WellFormed(r.value)
    ensures r.Ok? ==> r.value.header == labels && r.value.rows == t.rows
    ensures r.Ok? && Distinct(t.header) ==>
      forall i :: 0 <= i < |labels| ==>
        r.value.columns[i] == (if labels[i] in t.header then t.columns[IndexOf(t.header, labels[i])] else Zeros(t.rows))
  {
    if t.header == labels then
      assert Distinct(t.header) ==> forall i :: 0 <= i < |labels| ==> IndexOf(t.header, labels[i]) == i;
      Ok(t)
    else if !Distinct(t.header) then Err(DuplicateLabels)
    else Ok(Table(labels, seq(|labels|, i requires 0 <= i < |labels| => ColumnFor(t, labels[i])), t.rows))
  }

  /** A label of the uploaded table that is not a feature is absent from the aligned table. */
  lemma ExtraColumnsDropped(t: Table, labels: seq<string>, name: string)
    requires WellFormed(t) && Distinct(t.header)
    requires name in t.header && name !in labels
    ensures Reindex(t, labels).Ok? && name !in Reindex(t, labels).value.header
  {
  }

  /** A feature the upload lacks becomes a column of zeros, one per row. */
  lemma MissingFeaturesZeroFilled(t: Table, labels: seq<string>, i: nat)
    requires WellFormed(t) && Distinct(t.header)
    requires i < |labels| && labels[i] !in t.header
    ensures Reindex(t, labels).Ok?
    ensures Reindex(t, labels).value.columns[i] == Zeros(t.rows)
  {
  }

  /** Reindexing an aligned table to the same labels changes nothing. */
  lemma {:induction false} ReindexIdempotent(t: Table, labels: seq<string>)
    requires WellFormed(t) && Reindex(t, labels).Ok?
    ensures Reindex(Reindex(t, labels).value, labels) == Reindex(t, labels)
  {
  }

  /**
   * Features `a, b, c` against an upload with columns `b, z`: the result has
   * columns `a, b, c`, `a` and `c` zero, `b` the uploaded column, `z` gone.
   */
  lemma AlignExample(b: seq<Cell>, z: seq<Cell>)
    requires |b| == |z|
    ensures
      var t := Table(["b", "z"], [b, z], |b|);
      Reindex(t, ["a", "b", "c"]) == Ok(Table(["a", "b", "c"], [Zeros(|b|), b, Zeros(|b|)], |b|))
  {
    var t := Table(["b", "z"], [b, z], |b|);
    assert IndexOf(t.header, "b") == 0;
    var r := Reindex(t, ["a", "b", "c"]);
    assert r.value.columns == [Zeros(|b|), b, Zeros(|b|)];
  }
}
