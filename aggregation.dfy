/**
 * The "Sum for <province>" section: for each chosen province, the total of each
 * chosen column over its rows of the filtered view, and, when several columns are
 * chosen, their combined sum.
 */
module Aggregation {
  import opened Wrappers
  import opened Dataset

  /** One entry of the per-province dictionary: a column and its total. */
  datatype ColumnTotal = ColumnTotal(column: Column, total: real)

  /** What is shown for one province; `combined` is present only for two or more columns. */
  datatype ProvinceSummary = ProvinceSummary(province: string, totals: seq<ColumnTotal>, combined: Option<real>)

  /** The dictionary `{col: rows[col].sum() for col in cols}`, in column order. */
  function ColumnTotals(rows: Table, cols: seq<Column>): seq<ColumnTotal> {
    seq(|cols|, j requires 0 <= j < |cols| => ColumnTotal(cols[j], ColumnSum(rows, cols[j])))
  }

  /** `rows[cols].sum().sum()`: the per-column sums, then the sum of those. */
  function CombinedSum(rows: Table, cols: seq<Column>): (total: real)
    ensures rows == [] ==> total == 0.0
    ensures |cols| == 1 ==> total == ColumnSum(rows, cols[0])
  {
    if cols == [] then 0.0 else ColumnSum(rows, cols[0]) + CombinedSum(rows, cols[1..])
  }

  /** The totals of a dictionary, added up in order. */
  function SumOfTotals(ts: seq<ColumnTotal>): real {
    if ts == [] then 0.0 else ts[0].total + SumOfTotals(ts[1..])
  }

  /** The combined figure is the sum of the per-column totals shown beside it. */
  lemma {:induction false} CombinedIsSumOfTotals(rows: Table, cols: seq<Column>)
    ensures CombinedSum(rows, cols) == SumOfTotals(ColumnTotals(rows, cols))
  {
    if cols != [] {
      CombinedIsSumOfTotals(rows, cols[1..]);
      assert ColumnTotals(rows, cols)[1..] == ColumnTotals(rows, cols[1..]);
    }
  }

  /** The values of one row, added up over `cols`. */
  function RowTotal(r: Record, cols: seq<Column>): real {
    if cols == [] then 0.0 else Value(r, cols[0]) + RowTotal(r, cols[1..])
  }

  /** Row by row: each row's total over `cols`, added up over the rows. */
  function GrandTotal(rows: Table, cols: seq<Column>): real {
    if rows == [] then 0.0 else RowTotal(rows[0], cols) + GrandTotal(rows[1..], cols)
  }

  /** Peeling the first row off the combined sum. */
  lemma {:induction false} CombinedSumFirstRow(rows: Table, cols: seq<Column>)
    requires rows != []
    ensures CombinedSum(rows, cols) == RowTotal(rows[0], cols) + CombinedSum(rows[1..], cols)
  {
    if cols != [] {
      CombinedSumFirstRow(rows, cols[1..]);
    }
  }

  /** The combined sum counts every chosen value of every row once: it equals the row-by-row total. */
  lemma {:induction false} CombinedIsGrandTotal(rows: Table, cols: seq<Column>)
    ensures CombinedSum(rows, cols) == GrandTotal(rows, cols)
  {
    if rows == [] {
    } else {
      CombinedSumFirstRow(rows, cols);
      CombinedIsGrandTotal(rows[1..], cols);
    }
  }

  /** The summary of one province: its rows of the view, their column totals and combined sum. */
  function SummaryFor(view: Table, name: string, cols: seq<Column>): (summary: ProvinceSummary)
    ensures summary.province == name
    ensures |summary.totals| == |cols|
    ensures forall j :: 0 <= j < |cols| ==> summary.totals[j].column == cols[j]
    ensures summary.combined.Some? <==> |cols| > 1
    ensures summary.combined.Some? ==> summary.combined.value == SumOfTotals(summary.totals)
  {
    var rows := Where(view, Province, name);
    CombinedIsSumOfTotals(rows, cols);
    ProvinceSummary(name, ColumnTotals(rows, cols), if |cols| > 1 then Some(CombinedSum(rows, cols)) else None)
  }

  /**
   * The per-province section. Without chosen columns there is nothing but a prompt
   * (`None`); otherwise one summary per selected province, in selection order, whatever
   * the comparison level.
   */
  method SumByProvince(view: Table, province: seq<string>, cols: seq<Column>)
    returns (summaries: Option<seq<ProvinceSummary>>)
    ensures summaries.None? <==> cols == []
    ensures summaries.Some? ==> |summaries.value| == |province|
    ensures summaries.Some? ==> forall i :: 0 <= i < |province| ==>
      && summaries.value[i].province == province[i]
      && |summaries.value[i].totals| == |cols|
      && (summaries.value[i].combined.Some? <==> |cols| > 1)
    ensures summaries.Some? ==> forall i, j :: 0 <= i < |province| && 0 <= j < |cols| ==>
      summaries.value[i].totals[j] == ColumnTotal(cols[j], ColumnSum(Where(view, Province, province[i]), cols[j]))
    ensures summaries.Some? ==> forall i :: 0 <= i < |province| && summaries.value[i].combined.Some? ==>
      summaries.value[i].combined.value == SumOfTotals(summaries.value[i].totals)
  {
    if cols == [] {
      return None;
    }
    var out: seq<ProvinceSummary> := [];
    for i := 0 to |province|
      invariant |out| == i
      invariant forall k :: 0 <= k < i ==> out[k] == SummaryFor(view, province[k], cols)
    {
      var provinceData := Where(view, Province, province[i]);
      var summed := ColumnTotals(provinceData, cols);
      var combined := if |cols| > 1 then Some(CombinedSum(provinceData, cols)) else None;
      out := out + [ProvinceSummary(province[i], summed, combined)];
    }
    return Some(out);
  }

  /** A selected province with no rows in the view gets 0 for every column and in the combined sum. */
  lemma AbsentProvinceSumsToZero(view: Table, name: string, cols: seq<Column>)
    requires forall r :: r in view ==> r.province != name
    ensures forall j :: 0 <= j < |cols| ==> SummaryFor(view, name, cols).totals[j].total == 0.0
    ensures CombinedSum(Where(view, Province, name), cols) == 0.0
  {
    AbsentKeySumsToZero(view, Province, name, NowPopulation);
  }

  /** Scenario: 1000 and 600 in the two chosen columns combine to 1600. */
  lemma CombinedScenario(rows: Table)
    requires ColumnSum(rows, NowPopulation) == 1000.0 && ColumnSum(rows, MalePopulation) == 600.0
    ensures CombinedSum(rows, [NowPopulation, MalePopulation]) == 1600.0
  {
    assert [NowPopulation, MalePopulation][1..] == [MalePopulation];
  }
}
