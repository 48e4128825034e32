/** The tabular data handed to the analyzer: an ordered sequence of named,
    typed columns whose cells may be missing. Column kinds are taken as
    declared; the reader's dtype inference is not part of this model. */
module Tables {
  import opened Base

  /** A present cell value. Numbers are exact reals; floating point is not modelled. */
  datatype Value = Number(x: real) | Text(s: string) | Timestamp(t: int) | Flag(b: bool)

  /** The dtype family of a column. Numeric excludes booleans, which fall in
      Other together with every dtype the analyzer does not select. */
  datatype Kind = Numeric | Categorical | Datetime | Other

  datatype Column = Column(name: string, kind: Kind, cells: seq<Option<Value>>)

  /** `rows` is the length of the frame's index, kept apart from the columns
      so that a frame without columns may still have rows. */
  datatype Table = Table(rows: nat, columns: seq<Column>)

  /** The column names in column order. */
  function Names(cols: seq<Column>): (r: seq<string>)
    ensures |r| == |cols|
    ensures forall i :: 0 <= i < |cols| ==> r[i] == cols[i].name
  {
    if |cols| == 0 then [] else [cols[0].name] + Names(cols[1..])
  }

  predicate UniqueNames(cols: seq<Column>) {
    forall i, j :: 0 <= i < j < |cols| ==> cols[i].name != cols[j].name
  }

  /** Every column has exactly one cell per row. */
  predicate Rectangular(t: Table) {
    forall i :: 0 <= i < |t.columns| ==> |t.columns[i].cells| == t.rows
  }

  /** The number of missing cells (the source's `isnull().sum()` per column). */
  function MissingCount(cells: seq<Option<Value>>): (r: nat)
    ensures r <= |cells|
    ensures r == 0 <==> forall i :: 0 <= i < |cells| ==> cells[i].Some?
    ensures r == |cells| <==> forall i :: 0 <= i < |cells| ==> cells[i].None?
  {
    if |cells| == 0 then 0
    else (if cells[0].None? then 1 else 0) + MissingCount(cells[1..])
  }

  /** The set of distinct present values; its size is the source's `nunique()`,
      which ignores missing cells. */
  function PresentValues(cells: seq<Option<Value>>): (r: set<Value>)
    ensures forall v :: v in r <==> exists i :: 0 <= i < |cells| && cells[i] == Some(v)
  {
    if |cells| == 0 then {}
    else
      var rest := PresentValues(cells[1..]);
      assert forall v, i :: 0 < i < |cells| && cells[i] == Some(v) ==> cells[1..][i - 1] == Some(v);
      if cells[0].Some? then {cells[0].value} + rest else rest
  }

  function DistinctCount(cells: seq<Option<Value>>): nat {
    |PresentValues(cells)|
  }

  /** Distinct present values and missing cells together never outnumber the cells. */
  lemma {:induction false} DistinctAndMissingFit(cells: seq<Option<Value>>)
    ensures DistinctCount(cells) + MissingCount(cells) <= |cells|
  {
    if |cells| > 0 {
      DistinctAndMissingFit(cells[1..]);
      var rest := PresentValues(cells[1..]);
      if cells[0].Some? {
        assert PresentValues(cells) == {cells[0].value} + rest;
        assert |{cells[0].value} + rest| <= 1 + |rest|;
      } else {
        assert PresentValues(cells) == rest;
      }
    }
  }

  /** The first column called `name`, the one `data[name]` selects when names are unique. */
  function Lookup(cols: seq<Column>, name: string): (r: Option<Column>)
    ensures r.Some? <==> name in Names(cols)
    ensures r.Some? ==> r.value in cols && r.value.name == name
  {
    if |cols| == 0 then None
    else if cols[0].name == name then Some(cols[0])
    else Lookup(cols[1..], name)
  }
}
