/**
 * The abstract table that both front-ends load from a CSV file.
 *
 * The parser and pandas' dtype inference are not modelled: a loaded table is
 * given as a map from column name to its inferred kind and its cells.
 */
module Table {

  /** The kind pandas infers for a column. `Categorical` stands for a
      categorical or object (text) dtype; `Other` for anything else
      (datetimes, for instance), which the availability rule ignores. */
  datatype Kind = Numeric | Categorical | Other

  /** A present cell value: a number or a piece of text. */
  datatype Value = Num(n: real) | Str(s: string)

  /** A cell either holds a value or is missing (NaN). */
  datatype Cell = Missing | Present(value: Value)

  datatype Column = Column(kind: Kind, cells: seq<Cell>)

  /** A loaded dataset, keyed by column name. */
  type Frame = map<string, Column>

  /** Every selected X and Y column belongs to the frame: the selection lists
      are filled from the frame's own column names (tool.py:175-176). */
  predicate Selectable(frame: Frame, xs: seq<string>, ys: seq<string>)
  {
    (forall c :: c in xs ==> c in frame) && (forall c :: c in ys ==> c in frame)
  }

  /** The frequency of every present value of a column, as pandas'
      `value_counts` computes it: missing cells are not counted. */
  function ValueCounts(cells: seq<Cell>): (counts: map<Value, nat>)
    ensures forall v :: v in counts <==> Present(v) in cells
    ensures forall v :: v in counts ==> counts[v] == multiset(cells)[Present(v)] > 0
  {
    if cells == [] then map[]
    else
      var init, last := cells[..|cells| - 1], cells[|cells| - 1];
      assert cells == init + [last];
      var rest := ValueCounts(init);
      match last
      case Missing => rest
      case Present(v) => rest[v := if v in rest then rest[v] + 1 else 1]
  }
}
