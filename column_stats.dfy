/**
 * Per-column statistics of `DataReasoningEngine` (lib/data-reasoning.ts):
 * the distinct-value count of `getUniqueValueCount` and the missing-value
 * count of `assessDataQuality`, both over the aligned rows.
 */
module ColumnStats {
  import opened Seqs
  import opened Records

  /** `rows.map(row => row[index])`. */
  function ColumnAt(rows: seq<seq<Cell>>, index: int): (col: seq<Cell>)
    ensures |col| == |rows| && forall i :: 0 <= i < |rows| ==> col[i] == At(rows[i], index)
  {
    seq(|rows|, i requires 0 <= i < |rows| => At(rows[i], index))
  }

  predicate NotBlank(v: Cell)
  {
    !IsBlank(v)
  }

  /** The values of the column named `column` other than null, undefined and ''. */
  function ColumnValues(headers: seq<string>, rows: seq<seq<Cell>>, column: string): seq<Cell>
  {
    Filter(NotBlank, ColumnAt(rows, IndexOf(headers, column)))
  }

  /** A nested array or object, which a JavaScript `Set` tells apart from every other value by reference. */
  predicate IsComposite(v: Cell)
  {
    v.Composite?
  }

  /** A value a `Set` compares by content: null, undefined, a boolean, a number or a string. */
  predicate IsPrimitive(v: Cell)
  {
    !v.Composite?
  }

  /**
   * The size of `new Set(vals)`: a value adds one unless it is primitive and
   * already among the earlier values. A `Set` merges equal primitive values
   * but keeps every nested array or object apart, and each cell of a parsed
   * JSON document is an object of its own, so each composite cell counts
   * once, whatever its text.
   */
  function SetSize(vals: seq<Cell>): (n: nat)
    ensures n <= |vals|
  {
    if vals == [] then 0
    else
      var init := vals[..|vals| - 1];
      var last := vals[|vals| - 1];
      SetSize(init) + (if IsPrimitive(last) && last in init then 0 else 1)
  }

  /** The `Set` counts the distinct primitive values, in order of first appearance, and every composite value. */
  lemma {:induction false} SetSizeSplits(vals: seq<Cell>)
    ensures SetSize(vals) == |Dedup(Filter(IsPrimitive, vals))| + |Filter(IsComposite, vals)|
  {
    if vals != [] {
      var init := vals[..|vals| - 1];
      var last := vals[|vals| - 1];
      assert vals == init + [last];
      SetSizeSplits(init);
      var prims := Filter(IsPrimitive, init);
      var comps := Filter(IsComposite, init);
      FilterSnoc(IsPrimitive, init, last);
      FilterSnoc(IsComposite, init, last);
      if IsPrimitive(last) {
        assert Filter(IsPrimitive, vals) == prims + [last];
        assert Filter(IsComposite, vals) == comps;
        DedupSnoc(prims, last);
        assert last in prims <==> last in init;
      } else {
        assert Filter(IsPrimitive, vals) == prims;
        assert Filter(IsComposite, vals) == comps + [last];
      }
    }
  }

  /**
   * `getUniqueValueCount`: the size of `new Set(values)` over the column's
   * values other than null, undefined and ''. A column not among the headers
   * counts 0.
   */
  function UniqueValueCount(headers: seq<string>, rows: seq<seq<Cell>>, column: string): (n: nat)
    ensures n <= |rows|
    ensures column !in headers ==> n == 0
  {
    AbsentColumnHasNoValues(rows);
    SetSize(ColumnValues(headers, rows, column))
  }

  /** `getUniqueValueCount` as a function of the column name. */
  function UniqueCounts(headers: seq<string>, rows: seq<seq<Cell>>): string -> nat
  {
    column => UniqueValueCount(headers, rows, column)
  }

  /** The count is the size of the set of the column's primitive values, plus one per nested array or object. */
  lemma UniqueValueCountIsSetSize(headers: seq<string>, rows: seq<seq<Cell>>, column: string)
    ensures UniqueValueCount(headers, rows, column)
         == |Elements(Filter(IsPrimitive, ColumnValues(headers, rows, column)))|
          + |Filter(IsComposite, ColumnValues(headers, rows, column))|
  {
    SetSizeSplits(ColumnValues(headers, rows, column));
    DedupSize(Filter(IsPrimitive, ColumnValues(headers, rows, column)));
  }

  /** A column of primitive values counts its distinct values: equal cells are one value. */
  lemma PrimitiveColumnCountsDistinct(headers: seq<string>, rows: seq<seq<Cell>>, column: string)
    requires forall i :: 0 <= i < |rows| ==> IsPrimitive(At(rows[i], IndexOf(headers, column)))
    ensures UniqueValueCount(headers, rows, column) == |Elements(ColumnValues(headers, rows, column))|
  {
    var vals := ColumnValues(headers, rows, column);
    SetSizeSplits(vals);
    FilterAllPass(IsPrimitive, vals);
    FilterNone(IsComposite, vals);
    DedupSize(vals);
  }

  /** A column whose non-blank values are all nested arrays or objects counts every one of them, equal text or not. */
  lemma CompositeColumnCountsEach(headers: seq<string>, rows: seq<seq<Cell>>, column: string)
    requires forall i :: 0 <= i < |rows| ==> IsBlank(At(rows[i], IndexOf(headers, column))) || IsComposite(At(rows[i], IndexOf(headers, column)))
    ensures UniqueValueCount(headers, rows, column) == |ColumnValues(headers, rows, column)|
  {
    var vals := ColumnValues(headers, rows, column);
    SetSizeSplits(vals);
    FilterNone(IsPrimitive, vals);
    FilterAllPass(IsComposite, vals);
  }

  /** `row[-1]` is undefined in every row. */
  lemma AbsentColumnHasNoValues(rows: seq<seq<Cell>>)
    ensures Filter(NotBlank, ColumnAt(rows, -1)) == []
  {
    FilterNone(NotBlank, ColumnAt(rows, -1));
  }

  /** The number of rows whose cell at `index` is null, undefined or ''. */
  function NullCount(rows: seq<seq<Cell>>, index: int): (n: nat)
    ensures n <= |rows|
  {
    |Filter(IsBlank, ColumnAt(rows, index))|
  }
}
