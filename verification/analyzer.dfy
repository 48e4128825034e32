/** The structural summary the recommender works from (`analyze_data`):
    column-role lists, per-column missing and distinct counts, and which
    descriptive statistics and correlations would be present. */
module Analyzer {
  import opened Base
  import opened Tables

  /** `statColumns` are the columns the descriptive-statistics table covers and
      `correlated` the columns keying both axes of the correlation matrix; the
      statistics and correlation values themselves are floating point and not
      modelled. */
  datatype Summary = Summary(
    rows: nat,
    cols: nat,
    columnNames: seq<string>,
    numeric: seq<string>,
    categorical: seq<string>,
    datetime: seq<string>,
    missing: map<string, nat>,
    unique: map<string, nat>,
    statColumns: seq<string>,
    correlated: seq<string>)

  /** `names` lists exactly the columns of kind `k`, in column order. */
  ghost predicate ListsKind(names: seq<string>, cols: seq<Column>, k: Kind) {
    && IsSubseq(names, Names(cols))
    && forall n :: n in names <==> exists i :: 0 <= i < |cols| && cols[i].name == n && cols[i].kind == k
  }

  /** No later column carries the name of column `i`. */
  predicate IsLastNamed(cols: seq<Column>, i: int)
    requires 0 <= i < |cols|
  {
    forall j :: i < j < |cols| ==> cols[j].name != cols[i].name
  }

  /** Every categorical column has a distinct-value count, as the bar and pie rules need. */
  predicate CardinalityKnown(s: Summary) {
    forall n :: n in s.categorical ==> n in s.unique
  }

  /** The names of the columns of kind `k`, in column order (`select_dtypes`). */
  function NamesOfKind(cols: seq<Column>, k: Kind): (r: seq<string>)
    ensures |r| <= |cols|
  {
    if |cols| == 0 then []
    else if cols[0].kind == k then [cols[0].name] + NamesOfKind(cols[1..], k)
    else NamesOfKind(cols[1..], k)
  }

  /** The role list of kind `k` names exactly the columns of that kind, in column order. */
  lemma {:induction false} NamesOfKindListsKind(cols: seq<Column>, k: Kind)
    ensures ListsKind(NamesOfKind(cols, k), cols, k)
  {
    if |cols| > 0 {
      NamesOfKindListsKind(cols[1..], k);
      var rest := NamesOfKind(cols[1..], k);
      assert Names(cols) == [cols[0].name] + Names(cols[1..]);
      assert forall i :: 0 < i < |cols| ==> cols[i] == cols[1..][i - 1];
      if cols[0].kind == k {
        var r := [cols[0].name] + rest;
        assert r[1..] == rest;
      }
    }
  }

  /** The position of the last column called `n`, or -1 when there is none. */
  function LastIndex(cols: seq<Column>, n: string): (i: int)
    ensures -1 <= i < |cols|
    ensures i >= 0 ==> cols[i].name == n && IsLastNamed(cols, i)
    ensures i < 0 ==> forall j :: 0 <= j < |cols| ==> cols[j].name != n
  {
    if |cols| == 0 then -1
    else if cols[|cols| - 1].name == n then |cols| - 1
    else
      var init := cols[..|cols| - 1];
      assert forall j :: 0 <= j < |init| ==> init[j] == cols[j];
      LastIndex(init, n)
  }

  /** A dictionary keyed by column name, as Python builds it in column order:
      a repeated name keeps the value of its last column. */
  function LastWins<V>(cols: seq<Column>, f: Column -> V): map<string, V> {
    if |cols| == 0 then map[]
    else
      var later := LastWins(cols[1..], f);
      if cols[0].name in later then later else later[cols[0].name := f(cols[0])]
  }

  /** The dictionary has one key per column name, and each key holds the value
      of the last column carrying that name. */
  lemma {:induction false} LastWinsByName<V>(cols: seq<Column>, f: Column -> V)
    ensures forall n :: n in LastWins(cols, f) <==> n in Names(cols)
    ensures forall i :: 0 <= i < |cols| && IsLastNamed(cols, i) ==> LastWins(cols, f)[cols[i].name] == f(cols[i])
  {
    if |cols| > 0 {
      var tail := cols[1..];
      LastWinsByName(tail, f);
      assert Names(cols) == [cols[0].name] + Names(tail);
      forall i | 0 <= i < |cols| && IsLastNamed(cols, i)
        ensures LastWins(cols, f)[cols[i].name] == f(cols[i])
      {
        if i > 0 {
          assert tail[i - 1] == cols[i];
          assert IsLastNamed(tail, i - 1);
        } else {
          assert forall j :: 0 <= j < |tail| ==> tail[j].name == Names(tail)[j];
          assert cols[0].name !in Names(tail);
        }
      }
    }
  }

  function Analyze(t: Table): (r: Summary)
    ensures r.rows == t.rows && r.cols == |t.columns|
    ensures r.columnNames == Names(t.columns)
    ensures |r.numeric| <= r.cols && |r.categorical| <= r.cols && |r.datetime| <= r.cols
  {
    var cols := t.columns;
    var numeric := NamesOfKind(cols, Numeric);
    Summary(
      t.rows,
      |cols|,
      Names(cols),
      numeric,
      NamesOfKind(cols, Categorical),
      NamesOfKind(cols, Datetime),
      LastWins(cols, (c: Column) => MissingCount(c.cells)),
      LastWins(cols, (c: Column) => DistinctCount(c.cells)),
      numeric,
      if |numeric| > 1 then numeric else [])
  }

  /** The numeric, categorical and datetime lists each name exactly the
      columns of their kind, in column order. */
  lemma AnalyzeRoles(t: Table)
    ensures ListsKind(Analyze(t).numeric, t.columns, Numeric)
    ensures ListsKind(Analyze(t).categorical, t.columns, Categorical)
    ensures ListsKind(Analyze(t).datetime, t.columns, Datetime)
  {
    NamesOfKindListsKind(t.columns, Numeric);
    NamesOfKindListsKind(t.columns, Categorical);
    NamesOfKindListsKind(t.columns, Datetime);
  }

  /** `missing_values` and `unique_counts` are keyed by exactly the column
      names, and hold each column's missing and distinct counts (the last
      column's, should a name repeat). Every categorical column therefore has
      a distinct count. */
  lemma AnalyzeCounts(t: Table)
    ensures var s := Analyze(t);
      && (forall n :: n in s.missing <==> n in s.columnNames)
      && (forall n :: n in s.unique <==> n in s.columnNames)
      && (forall i :: 0 <= i < |t.columns| && IsLastNamed(t.columns, i) ==>
            && s.missing[t.columns[i].name] == MissingCount(t.columns[i].cells)
            && s.unique[t.columns[i].name] == DistinctCount(t.columns[i].cells))
    ensures CardinalityKnown(Analyze(t))
  {
    var s := Analyze(t);
    LastWinsByName(t.columns, (c: Column) => MissingCount(c.cells));
    LastWinsByName(t.columns, (c: Column) => DistinctCount(c.cells));
    AnalyzeRoles(t);
    forall n | n in s.categorical ensures n in s.unique {
      var i :| 0 <= i < |t.columns| && t.columns[i].name == n && t.columns[i].kind == Categorical;
      assert s.columnNames[i] == n;
    }
  }

  /** Some column has kind `k`. */
  predicate HasKind(cols: seq<Column>, k: Kind) {
    exists i :: 0 <= i < |cols| && cols[i].kind == k
  }

  /** Two different columns have kind `k`. */
  predicate HasTwoOfKind(cols: seq<Column>, k: Kind) {
    exists i, j :: 0 <= i < j < |cols| && cols[i].kind == k && cols[j].kind == k
  }

  /** The role list of kind `k` is empty exactly when no column has that kind,
      and has two entries or more exactly when two columns have it. */
  lemma {:induction false} NamesOfKindCount(cols: seq<Column>, k: Kind)
    ensures |NamesOfKind(cols, k)| == 0 <==> !HasKind(cols, k)
    ensures |NamesOfKind(cols, k)| >= 2 <==> HasTwoOfKind(cols, k)
  {
    if |cols| > 0 {
      var tail := cols[1..];
      NamesOfKindCount(tail, k);
      assert forall i :: 0 < i < |cols| ==> cols[i] == tail[i - 1];
      if HasKind(tail, k) {
        var j :| 0 <= j < |tail| && tail[j].kind == k;
        assert cols[j + 1].kind == k;
      }
      if HasTwoOfKind(tail, k) {
        var i, j :| 0 <= i < j < |tail| && tail[i].kind == k && tail[j].kind == k;
        assert cols[i + 1].kind == k && cols[j + 1].kind == k;
      }
      if HasTwoOfKind(cols, k) {
        var i, j :| 0 <= i < j < |cols| && cols[i].kind == k && cols[j].kind == k;
        if i > 0 {
          assert tail[i - 1].kind == k && tail[j - 1].kind == k;
        } else {
          assert tail[j - 1].kind == k;
        }
      }
      if HasKind(cols, k) && cols[0].kind != k {
        var i :| 0 <= i < |cols| && cols[i].kind == k;
        assert tail[i - 1].kind == k;
      }
    }
  }

  /** The descriptive statistics cover exactly the numeric columns, in
      column order, and are absent exactly when the table has no numeric
      column; the correlation matrix is absent exactly when fewer than two
      columns are numeric and otherwise is keyed by all of them. */
  lemma AnalyzeStatistics(t: Table)
    ensures var s := Analyze(t);
      && ListsKind(s.statColumns, t.columns, Numeric)
      && (|s.statColumns| == 0 <==> !HasKind(t.columns, Numeric))
      && (|s.correlated| == 0 <==> !HasTwoOfKind(t.columns, Numeric))
      && (HasTwoOfKind(t.columns, Numeric) ==> ListsKind(s.correlated, t.columns, Numeric))
  {
    NamesOfKindListsKind(t.columns, Numeric);
    NamesOfKindCount(t.columns, Numeric);
  }

  /** With unique names no column is listed under two roles. */
  lemma RolesDisjoint(t: Table)
    requires UniqueNames(t.columns)
    ensures var s := Analyze(t);
      && (forall n :: n in s.numeric ==> n !in s.categorical && n !in s.datetime)
      && (forall n :: n in s.categorical ==> n !in s.datetime)
  {
    var s := Analyze(t);
    AnalyzeRoles(t);
    forall n | n in s.numeric || n in s.categorical
      ensures n in s.numeric ==> n !in s.categorical && n !in s.datetime
      ensures n in s.categorical ==> n !in s.datetime
    {
      var i :| 0 <= i < |t.columns| && t.columns[i].name == n && t.columns[i].kind in {Numeric, Categorical};
      assert forall j :: 0 <= j < |t.columns| && t.columns[j].name == n ==> t.columns[j].kind == t.columns[i].kind;
    }
  }

  /** With unique names each role list names every column at most once. */
  lemma {:induction false} NamesOfKindDistinct(cols: seq<Column>, k: Kind)
    requires UniqueNames(cols)
    ensures Distinct(NamesOfKind(cols, k))
  {
    if |cols| > 0 {
      assert UniqueNames(cols[1..]) by {
        assert forall i :: 0 <= i < |cols| - 1 ==> cols[1..][i] == cols[i + 1];
      }
      NamesOfKindDistinct(cols[1..], k);
      NamesOfKindListsKind(cols[1..], k);
      var rest := NamesOfKind(cols[1..], k);
      assert forall i :: 0 <= i < |cols| - 1 ==> cols[1..][i].name != cols[0].name;
      assert cols[0].name !in rest;
    }
  }

  /** The three role lists together never outnumber the columns. */
  lemma {:induction false} RolesFitColumns(cols: seq<Column>)
    ensures |NamesOfKind(cols, Numeric)| + |NamesOfKind(cols, Categorical)| + |NamesOfKind(cols, Datetime)| <= |cols|
  {
    if |cols| > 0 {
      RolesFitColumns(cols[1..]);
    }
  }

  /** In a rectangular table each column name's distinct and missing counts
      together fit in the rows (both dictionaries hold the same, last, column). */
  lemma CountsFitRows(t: Table)
    requires Rectangular(t)
    ensures var s := Analyze(t);
      forall n :: n in s.missing ==> n in s.unique && s.unique[n] + s.missing[n] <= t.rows
  {
    var s := Analyze(t);
    AnalyzeCounts(t);
    forall n | n in s.missing
      ensures n in s.unique && s.unique[n] + s.missing[n] <= t.rows
    {
      var i := LastIndex(t.columns, n);
      assert i >= 0;
      DistinctAndMissingFit(t.columns[i].cells);
    }
  }
}
