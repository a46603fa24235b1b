/**
 * `assessDataQuality` of `DataReasoningEngine` (lib/data-reasoning.ts): the
 * missing-value warnings, the high-cardinality warnings and the small-dataset
 * warning, in that order. The percentage thresholds are compared exactly, by
 * cross-multiplication.
 */
module Quality {
  import opened Seqs
  import opened Records
  import opened TypeInference
  import opened ColumnStats

  /** A warning; the message text around its numbers is not modelled. */
  datatype QualityIssue =
    | MissingValues(header: string, nullCount: nat, rowCount: nat)  // the percentage is nullCount / rowCount * 100
    | HighCardinality(column: string, uniqueCount: nat)
    | SmallDataset

  /**
   * `(nullCount / rows.length) * 100 > 10`. With no rows the count is 0 too,
   * the source's quotient is NaN and the comparison false, as here.
   */
  predicate ManyMissing(nullCount: nat, rowCount: nat)
  {
    10 * nullCount > rowCount
  }

  /** `uniqueCount > rows.length * 0.8`. */
  predicate ManyDistinct(uniqueCount: nat, rowCount: nat)
  {
    5 * uniqueCount > 4 * rowCount
  }

  /** The number of rows in which the column of `h` (its first position) is null, undefined or ''. */
  function MissingIn(headers: seq<string>, rows: seq<seq<Cell>>, h: string): nat
  {
    NullCount(rows, IndexOf(headers, h))
  }

  /** The missing-value warnings of the headers `hs`, in order. */
  function MissingIssues(hs: seq<string>, headers: seq<string>, rows: seq<seq<Cell>>): seq<QualityIssue>
  {
    if hs == [] then []
    else
      var h := hs[|hs| - 1];
      var n := MissingIn(headers, rows, h);
      MissingIssues(hs[..|hs| - 1], headers, rows) + (if ManyMissing(n, |rows|) then [MissingValues(h, n, |rows|)] else [])
  }

  /** The high-cardinality warnings of the string columns `cols`, `uniq` giving their distinct-value counts. */
  function CardinalityIssues(cols: seq<string>, uniq: string -> nat, rowCount: nat): seq<QualityIssue>
  {
    if cols == [] then []
    else
      var c := cols[|cols| - 1];
      CardinalityIssues(cols[..|cols| - 1], uniq, rowCount)
        + (if ManyDistinct(uniq(c), rowCount) then [HighCardinality(c, uniq(c))] else [])
  }

  function SmallIssue(rowCount: nat): seq<QualityIssue>
  {
    if rowCount < 10 then [SmallDataset] else []
  }

  /** The warnings `assessDataQuality` returns. */
  function QualityIssues(headers: seq<string>, rows: seq<seq<Cell>>, types: map<string, ColumnType>): seq<QualityIssue>
  {
    MissingIssues(headers, headers, rows)
      + CardinalityIssues(CategoryColumns(headers, types), UniqueCounts(headers, rows), |rows|)
      + SmallIssue(|rows|)
  }

  /** `assessDataQuality`: the `forEach` over the headers, the one over the string columns, then the size check. */
  method AssessDataQuality(headers: seq<string>, rows: seq<seq<Cell>>, types: map<string, ColumnType>)
    returns (issues: seq<QualityIssue>)
    ensures issues == QualityIssues(headers, rows, types)
  {
    issues := CheckMissing(headers, rows);
    var categoryColumns := CategoryColumns(headers, types);
    var high := CheckCardinality(headers, rows, categoryColumns);
    issues := issues + high;
    if |rows| < 10 {
      issues := issues + [SmallDataset];
    }
  }

  /** The `forEach` over the headers that counts each column's blank cells. */
  method CheckMissing(headers: seq<string>, rows: seq<seq<Cell>>) returns (issues: seq<QualityIssue>)
    ensures issues == MissingIssues(headers, headers, rows)
  {
    issues := [];
    for j := 0 to |headers|
      invariant issues == MissingIssues(headers[..j], headers, rows)
    {
      var header := headers[j];
      var nullCount := NullCount(rows, IndexOf(headers, header));
      if 10 * nullCount > |rows| {
        issues := issues + [MissingValues(header, nullCount, |rows|)];
      }
      assert headers[..j + 1][..j] == headers[..j];
    }
    assert headers[..|headers|] == headers;
  }

  /** The `forEach` over the string columns that counts each one's distinct values. */
  method CheckCardinality(headers: seq<string>, rows: seq<seq<Cell>>, categoryColumns: seq<string>)
    returns (issues: seq<QualityIssue>)
    ensures issues == CardinalityIssues(categoryColumns, UniqueCounts(headers, rows), |rows|)
  {
    issues := [];
    for k := 0 to |categoryColumns|
      invariant issues == CardinalityIssues(categoryColumns[..k], UniqueCounts(headers, rows), |rows|)
    {
      var col := categoryColumns[k];
      var uniqueCount := UniqueValueCount(headers, rows, col);
      if 5 * uniqueCount > 4 * |rows| {
        issues := issues + [HighCardinality(col, uniqueCount)];
      }
      assert categoryColumns[..k + 1][..k] == categoryColumns[..k];
    }
    assert categoryColumns[..|categoryColumns|] == categoryColumns;
  }

  // ----- What the warnings say -----

  /** Every missing-value warning of `hs` is of a header of `hs` whose column misses more than 10% of the rows, with its counts. */
  lemma {:induction false} MissingIssuesSound(hs: seq<string>, headers: seq<string>, rows: seq<seq<Cell>>)
    ensures forall i :: 0 <= i < |MissingIssues(hs, headers, rows)| ==>
      MissingIssues(hs, headers, rows)[i].MissingValues?
      && MissingIssues(hs, headers, rows)[i].header in hs
      && MissingIssues(hs, headers, rows)[i].nullCount == MissingIn(headers, rows, MissingIssues(hs, headers, rows)[i].header)
      && MissingIssues(hs, headers, rows)[i].rowCount == |rows|
      && ManyMissing(MissingIssues(hs, headers, rows)[i].nullCount, |rows|)
  {
    if hs != [] {
      var init := hs[..|hs| - 1];
      MissingIssuesSound(init, headers, rows);
      var prev := MissingIssues(init, headers, rows);
      var ws := MissingIssues(hs, headers, rows);
      assert forall i :: 0 <= i < |prev| ==> ws[i] == prev[i];
      assert forall x :: x in init ==> x in hs;
    }
  }

  /** A header of `hs` whose column misses more than 10% of the rows has a warning. */
  lemma {:induction false} MissingIssuesComplete(hs: seq<string>, headers: seq<string>, rows: seq<seq<Cell>>, h: string)
    requires h in hs && ManyMissing(MissingIn(headers, rows, h), |rows|)
    ensures exists i :: 0 <= i < |MissingIssues(hs, headers, rows)|
                        && MissingIssues(hs, headers, rows)[i] == MissingValues(h, MissingIn(headers, rows, h), |rows|)
  {
    var init := hs[..|hs| - 1];
    if hs[|hs| - 1] == h {
      var ws := MissingIssues(hs, headers, rows);
      assert ws[|ws| - 1] == MissingValues(h, MissingIn(headers, rows, h), |rows|);
    } else {
      var k :| 0 <= k < |hs| && hs[k] == h;
      assert init[k] == h;
      MissingIssuesComplete(init, headers, rows, h);
      MissingIssuesExtend(hs, headers, rows);
      var prev := MissingIssues(init, headers, rows);
      var i :| 0 <= i < |prev| && prev[i] == MissingValues(h, MissingIn(headers, rows, h), |rows|);
      assert MissingIssues(hs, headers, rows)[i] == prev[i];
    }
  }

  /** The warnings of all but the last header are a prefix of those of all headers. */
  lemma MissingIssuesExtend(hs: seq<string>, headers: seq<string>, rows: seq<seq<Cell>>)
    requires hs != []
    ensures forall i :: 0 <= i < |MissingIssues(hs[..|hs| - 1], headers, rows)| ==>
      i < |MissingIssues(hs, headers, rows)| && MissingIssues(hs, headers, rows)[i] == MissingIssues(hs[..|hs| - 1], headers, rows)[i]
  {
    var h := hs[|hs| - 1];
    var n := MissingIn(headers, rows, h);
    assert MissingIssues(hs, headers, rows)
        == MissingIssues(hs[..|hs| - 1], headers, rows) + (if ManyMissing(n, |rows|) then [MissingValues(h, n, |rows|)] else []);
  }

  /** Every high-cardinality warning of `cols` is of a column of `cols` with more distinct values than 80% of the rows. */
  lemma {:induction false} CardinalityIssuesSound(cols: seq<string>, uniq: string -> nat, rowCount: nat)
    ensures forall i :: 0 <= i < |CardinalityIssues(cols, uniq, rowCount)| ==>
      CardinalityIssues(cols, uniq, rowCount)[i].HighCardinality?
      && CardinalityIssues(cols, uniq, rowCount)[i].column in cols
      && CardinalityIssues(cols, uniq, rowCount)[i].uniqueCount == uniq(CardinalityIssues(cols, uniq, rowCount)[i].column)
      && ManyDistinct(CardinalityIssues(cols, uniq, rowCount)[i].uniqueCount, rowCount)
  {
    if cols != [] {
      var init := cols[..|cols| - 1];
      CardinalityIssuesSound(init, uniq, rowCount);
      var prev := CardinalityIssues(init, uniq, rowCount);
      var ws := CardinalityIssues(cols, uniq, rowCount);
      assert forall i :: 0 <= i < |prev| ==> ws[i] == prev[i];
      assert forall x :: x in init ==> x in cols;
    }
  }

  /** A column of `cols` with more distinct values than 80% of the rows has a warning. */
  lemma {:induction false} CardinalityIssuesComplete(cols: seq<string>, uniq: string -> nat, rowCount: nat, c: string)
    requires c in cols && ManyDistinct(uniq(c), rowCount)
    ensures exists i :: 0 <= i < |CardinalityIssues(cols, uniq, rowCount)|
                        && CardinalityIssues(cols, uniq, rowCount)[i] == HighCardinality(c, uniq(c))
  {
    var init := cols[..|cols| - 1];
    if cols[|cols| - 1] == c {
      var ws := CardinalityIssues(cols, uniq, rowCount);
      assert ws[|ws| - 1] == HighCardinality(c, uniq(c));
    } else {
      var k :| 0 <= k < |cols| && cols[k] == c;
      assert init[k] == c;
      CardinalityIssuesComplete(init, uniq, rowCount, c);
      CardinalityIssuesExtend(cols, uniq, rowCount);
      var prev := CardinalityIssues(init, uniq, rowCount);
      var i :| 0 <= i < |prev| && prev[i] == HighCardinality(c, uniq(c));
      assert CardinalityIssues(cols, uniq, rowCount)[i] == prev[i];
    }
  }

  /** The warnings of all but the last column are a prefix of those of all columns. */
  lemma CardinalityIssuesExtend(cols: seq<string>, uniq: string -> nat, rowCount: nat)
    requires cols != []
    ensures forall i :: 0 <= i < |CardinalityIssues(cols[..|cols| - 1], uniq, rowCount)| ==>
      i < |CardinalityIssues(cols, uniq, rowCount)|
      && CardinalityIssues(cols, uniq, rowCount)[i] == CardinalityIssues(cols[..|cols| - 1], uniq, rowCount)[i]
  {
    var c := cols[|cols| - 1];
    assert CardinalityIssues(cols, uniq, rowCount)
        == CardinalityIssues(cols[..|cols| - 1], uniq, rowCount)
           + (if ManyDistinct(uniq(c), rowCount) then [HighCardinality(c, uniq(c))] else []);
  }

  /** 0 for the missing-value warnings, 1 for high cardinality, 2 for the small dataset. */
  function KindRank(issue: QualityIssue): nat
  {
    match issue
    case MissingValues(_, _, _) => 0
    case HighCardinality(_, _) => 1
    case SmallDataset => 2
  }

  /** The missing-value warnings of all headers. */
  function MissingRun(headers: seq<string>, rows: seq<seq<Cell>>): seq<QualityIssue>
  {
    MissingIssues(headers, headers, rows)
  }

  /** The high-cardinality warnings of all string columns. */
  function HighRun(headers: seq<string>, rows: seq<seq<Cell>>, types: map<string, ColumnType>): seq<QualityIssue>
  {
    CardinalityIssues(CategoryColumns(headers, types), UniqueCounts(headers, rows), |rows|)
  }

  /** The warnings are the missing-value run, then the high-cardinality run, then the small-dataset warning. */
  lemma IssueRuns(headers: seq<string>, rows: seq<seq<Cell>>, types: map<string, ColumnType>)
    ensures |QualityIssues(headers, rows, types)| == |MissingRun(headers, rows)| + |HighRun(headers, rows, types)| + |SmallIssue(|rows|)|
    ensures forall i :: 0 <= i < |MissingRun(headers, rows)| ==> QualityIssues(headers, rows, types)[i] == MissingRun(headers, rows)[i]
    ensures forall i :: 0 <= i < |HighRun(headers, rows, types)| ==>
      QualityIssues(headers, rows, types)[|MissingRun(headers, rows)| + i] == HighRun(headers, rows, types)[i]
  {
    RunPositions(MissingRun(headers, rows), HighRun(headers, rows, types), SmallIssue(|rows|));
  }

  /** Where the elements of three runs sit in their concatenation. */
  lemma RunPositions(a: seq<QualityIssue>, b: seq<QualityIssue>, c: seq<QualityIssue>)
    ensures |a + b + c| == |a| + |b| + |c|
    ensures forall i :: 0 <= i < |a| ==> (a + b + c)[i] == a[i]
    ensures forall i :: 0 <= i < |b| ==> (a + b + c)[|a| + i] == b[i]
  {
    forall i | 0 <= i < |b| ensures (a + b + c)[|a| + i] == b[i] {
      assert (a + b + c)[|a| + i] == (a + b)[|a| + i];
    }
  }

  /** The kind of a warning follows from its position among the three runs. */
  lemma IssueRanks(headers: seq<string>, rows: seq<seq<Cell>>, types: map<string, ColumnType>)
    ensures forall i :: 0 <= i < |QualityIssues(headers, rows, types)| ==>
      KindRank(QualityIssues(headers, rows, types)[i])
        == if i < |MissingRun(headers, rows)| then 0
           else if i < |MissingRun(headers, rows)| + |HighRun(headers, rows, types)| then 1 else 2
  {
    var missing := MissingRun(headers, rows);
    var high := HighRun(headers, rows, types);
    MissingRanks(headers, rows);
    HighRanks(CategoryColumns(headers, types), UniqueCounts(headers, rows), |rows|);
    RanksOfRuns(missing, high, SmallIssue(|rows|));
    assert QualityIssues(headers, rows, types) == missing + high + SmallIssue(|rows|);
  }

  /** Every warning of the missing-value run has rank 0. */
  lemma MissingRanks(headers: seq<string>, rows: seq<seq<Cell>>)
    ensures forall i :: 0 <= i < |MissingRun(headers, rows)| ==> KindRank(MissingRun(headers, rows)[i]) == 0
  {
    MissingIssuesSound(headers, headers, rows);
  }

  /** Every warning of a high-cardinality run has rank 1. */
  lemma HighRanks(cols: seq<string>, uniq: string -> nat, rowCount: nat)
    ensures forall i :: 0 <= i < |CardinalityIssues(cols, uniq, rowCount)| ==> KindRank(CardinalityIssues(cols, uniq, rowCount)[i]) == 1
  {
    CardinalityIssuesSound(cols, uniq, rowCount);
  }

  /** The position of a warning in three runs of ranks 0, 1 and 2 tells its rank. */
  lemma RanksOfRuns(a: seq<QualityIssue>, b: seq<QualityIssue>, c: seq<QualityIssue>)
    requires forall i :: 0 <= i < |a| ==> KindRank(a[i]) == 0
    requires forall i :: 0 <= i < |b| ==> KindRank(b[i]) == 1
    requires forall i :: 0 <= i < |c| ==> KindRank(c[i]) == 2
    ensures forall i :: 0 <= i < |a + b + c| ==>
      KindRank((a + b + c)[i]) == if i < |a| then 0 else if i < |a| + |b| then 1 else 2
  {
    var ws := a + b + c;
    forall i | 0 <= i < |ws|
      ensures KindRank(ws[i]) == if i < |a| then 0 else if i < |a| + |b| then 1 else 2
    {
      if i < |a| {
        assert ws[i] == a[i];
      } else if i < |a| + |b| {
        assert ws[i] == b[i - |a|];
      } else {
        assert ws[i] == c[i - |a| - |b|];
      }
    }
  }

  /**
   * A header gets a missing-value warning exactly when more than 10% of the
   * rows are null, undefined or '' in its column; the warning carries that
   * count and the row count.
   */
  lemma MissingValuesWarning(headers: seq<string>, rows: seq<seq<Cell>>, types: map<string, ColumnType>, h: string)
    ensures (exists i :: 0 <= i < |QualityIssues(headers, rows, types)| &&
               QualityIssues(headers, rows, types)[i].MissingValues? && QualityIssues(headers, rows, types)[i].header == h)
      <==> h in headers && 10 * NullCount(rows, IndexOf(headers, h)) > |rows|
    ensures forall i :: 0 <= i < |QualityIssues(headers, rows, types)| && QualityIssues(headers, rows, types)[i].MissingValues? ==>
      QualityIssues(headers, rows, types)[i]
        == MissingValues(QualityIssues(headers, rows, types)[i].header,
                         NullCount(rows, IndexOf(headers, QualityIssues(headers, rows, types)[i].header)), |rows|)
  {
    var missing := MissingRun(headers, rows);
    var ws := QualityIssues(headers, rows, types);
    IssueRuns(headers, rows, types);
    IssueRanks(headers, rows, types);
    MissingIssuesSound(headers, headers, rows);
    if h in headers && ManyMissing(MissingIn(headers, rows, h), |rows|) {
      MissingIssuesComplete(headers, headers, rows, h);
      var i :| 0 <= i < |missing| && missing[i] == MissingValues(h, MissingIn(headers, rows, h), |rows|);
      assert ws[i] == missing[i];
    }
    forall i | 0 <= i < |ws| && ws[i].MissingValues?
      ensures i < |missing| && ws[i] == missing[i]
    {
      assert KindRank(ws[i]) == 0;
    }
  }

  /**
   * A column gets a high-cardinality warning exactly when it is a string
   * column with more distinct non-blank values than 80% of the rows.
   */
  lemma HighCardinalityWarning(headers: seq<string>, rows: seq<seq<Cell>>, types: map<string, ColumnType>, c: string)
    ensures (exists i :: 0 <= i < |QualityIssues(headers, rows, types)| &&
               QualityIssues(headers, rows, types)[i].HighCardinality? && QualityIssues(headers, rows, types)[i].column == c)
      <==> c in headers && TypeOf(types, c) == StringType && 5 * UniqueValueCount(headers, rows, c) > 4 * |rows|
  {
    if c in headers && TypeOf(types, c) == StringType && 5 * UniqueValueCount(headers, rows, c) > 4 * |rows| {
      HighCardinalityWarned(headers, rows, types, c);
    }
    forall i | 0 <= i < |QualityIssues(headers, rows, types)| && QualityIssues(headers, rows, types)[i].HighCardinality?
      ensures var w := QualityIssues(headers, rows, types)[i];
        w.column in headers && TypeOf(types, w.column) == StringType && 5 * UniqueValueCount(headers, rows, w.column) > 4 * |rows|
    {
      HighCardinalityReason(headers, rows, types, i);
    }
  }

  /** The string column with many distinct values is warned about. */
  lemma HighCardinalityWarned(headers: seq<string>, rows: seq<seq<Cell>>, types: map<string, ColumnType>, c: string)
    requires c in headers && TypeOf(types, c) == StringType && 5 * UniqueValueCount(headers, rows, c) > 4 * |rows|
    ensures exists i :: 0 <= i < |QualityIssues(headers, rows, types)|
                        && QualityIssues(headers, rows, types)[i] == HighCardinality(c, UniqueValueCount(headers, rows, c))
  {
    var cats := CategoryColumns(headers, types);
    var high := HighRun(headers, rows, types);
    IssueRuns(headers, rows, types);
    CardinalityIssuesComplete(cats, UniqueCounts(headers, rows), |rows|, c);
    var i :| 0 <= i < |high| && high[i] == HighCardinality(c, UniqueValueCount(headers, rows, c));
    assert QualityIssues(headers, rows, types)[|MissingRun(headers, rows)| + i] == high[i];
  }

  /** A high-cardinality warning is of a string column with many distinct values, and carries their count. */
  lemma HighCardinalityReason(headers: seq<string>, rows: seq<seq<Cell>>, types: map<string, ColumnType>, i: nat)
    requires i < |QualityIssues(headers, rows, types)| && QualityIssues(headers, rows, types)[i].HighCardinality?
    ensures var w := QualityIssues(headers, rows, types)[i];
      && w.column in headers && TypeOf(types, w.column) == StringType
      && w.uniqueCount == UniqueValueCount(headers, rows, w.column)
      && 5 * w.uniqueCount > 4 * |rows|
  {
    var high := HighRun(headers, rows, types);
    var m := |MissingRun(headers, rows)|;
    HighIssueInHighRun(headers, rows, types, i);
    CardinalityIssuesSound(CategoryColumns(headers, types), UniqueCounts(headers, rows), |rows|);
    assert high[i - m].column in CategoryColumns(headers, types);
  }

  /** A high-cardinality warning sits in the high-cardinality run. */
  lemma HighIssueInHighRun(headers: seq<string>, rows: seq<seq<Cell>>, types: map<string, ColumnType>, i: nat)
    requires i < |QualityIssues(headers, rows, types)| && QualityIssues(headers, rows, types)[i].HighCardinality?
    ensures |MissingRun(headers, rows)| <= i < |MissingRun(headers, rows)| + |HighRun(headers, rows, types)|
    ensures QualityIssues(headers, rows, types)[i] == HighRun(headers, rows, types)[i - |MissingRun(headers, rows)|]
  {
    var m := |MissingRun(headers, rows)|;
    IssueRuns(headers, rows, types);
    IssueRanks(headers, rows, types);
    assert KindRank(QualityIssues(headers, rows, types)[i]) == 1;
  }

  /** Every high-cardinality warning carries its column's distinct-value count. */
  lemma HighCardinalityCounts(headers: seq<string>, rows: seq<seq<Cell>>, types: map<string, ColumnType>)
    ensures forall i :: 0 <= i < |QualityIssues(headers, rows, types)| && QualityIssues(headers, rows, types)[i].HighCardinality? ==>
      QualityIssues(headers, rows, types)[i].uniqueCount
        == UniqueValueCount(headers, rows, QualityIssues(headers, rows, types)[i].column)
  {
    forall i | 0 <= i < |QualityIssues(headers, rows, types)| && QualityIssues(headers, rows, types)[i].HighCardinality?
      ensures QualityIssues(headers, rows, types)[i].uniqueCount
        == UniqueValueCount(headers, rows, QualityIssues(headers, rows, types)[i].column)
    {
      HighCardinalityReason(headers, rows, types, i);
    }
  }

  /** The small-dataset warning is there exactly when there are fewer than 10 rows, and it comes last. */
  lemma SmallDatasetWarning(headers: seq<string>, rows: seq<seq<Cell>>, types: map<string, ColumnType>)
    ensures SmallDataset in QualityIssues(headers, rows, types) <==> |rows| < 10
    ensures |rows| < 10 ==> QualityIssues(headers, rows, types)[|QualityIssues(headers, rows, types)| - 1] == SmallDataset
  {
    var ws := QualityIssues(headers, rows, types);
    IssueRuns(headers, rows, types);
    IssueRanks(headers, rows, types);
    if SmallDataset in ws {
      var i :| 0 <= i < |ws| && ws[i] == SmallDataset;
      assert KindRank(ws[i]) == 2;
    }
  }

  /** All missing-value warnings come first, then the high-cardinality ones, then the small-dataset one. */
  lemma IssueOrder(headers: seq<string>, rows: seq<seq<Cell>>, types: map<string, ColumnType>)
    ensures forall i, j :: 0 <= i < j < |QualityIssues(headers, rows, types)| ==>
      KindRank(QualityIssues(headers, rows, types)[i]) <= KindRank(QualityIssues(headers, rows, types)[j])
  {
    IssueRanks(headers, rows, types);
  }

  /** A dataset without rows has the small-dataset warning and no other. */
  lemma NoRowsOnlySmall(headers: seq<string>, rows: seq<seq<Cell>>, types: map<string, ColumnType>)
    requires |rows| == 0
    ensures QualityIssues(headers, rows, types) == [SmallDataset]
  {
    NoRowsNoMissing(headers, headers, rows);
    NoRowsNoHighCardinality(CategoryColumns(headers, types), headers, rows);
  }

  lemma {:induction false} NoRowsNoMissing(hs: seq<string>, headers: seq<string>, rows: seq<seq<Cell>>)
    requires |rows| == 0
    ensures MissingIssues(hs, headers, rows) == []
  {
    if hs != [] {
      NoRowsNoMissing(hs[..|hs| - 1], headers, rows);
    }
  }

  lemma {:induction false} NoRowsNoHighCardinality(cols: seq<string>, headers: seq<string>, rows: seq<seq<Cell>>)
    requires |rows| == 0
    ensures CardinalityIssues(cols, UniqueCounts(headers, rows), |rows|) == []
  {
    if cols != [] {
      NoRowsNoHighCardinality(cols[..|cols| - 1], headers, rows);
      assert UniqueCounts(headers, rows)(cols[|cols| - 1]) == UniqueValueCount(headers, rows, cols[|cols| - 1]);
    }
  }
}
