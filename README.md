# Population dashboard: selection and aggregation core

This project models, in Dafny, the logic of the Streamlit dashboard `app.py`. The dashboard
explores census data organised in a four-level administrative hierarchy (province, division,
district, tehsil). The model covers the computation that sits between the widgets:

- **Cascading options** (`Filters`): what each sidebar multiselect offers. Every distinct
  province is offered. A lower level offers nothing while the level above has nothing
  chosen. Otherwise it offers the distinct values, in order of first appearance, of the rows
  whose ancestors are all chosen. Distinctness is pandas `unique`, `Collections.Distinct`.
- **Filter chain** (`Filters`): the table is narrowed once per level, and a level with
  nothing chosen is skipped. This is an imperative method over four steps, proved to yield
  `Filtered`, the order-preserving selection of the rows that pass every level.
- **Breadcrumb** (`Breadcrumbs`): each non-empty list is joined with `", "`, the pieces are
  joined with `" > "`, and the text falls back to `"All Data"`.
- **Per-province sums** (`Aggregation`): for each selected province, the total of each
  chosen column over its rows of the filtered view. When two or more columns are chosen,
  the combined sum is added.
- **Chart data and traces** (`Charts`): for each chosen column, one total per label chosen
  at the comparison level. There is one trace per column. Bar and line traces are coloured
  by cycling through the palette; pie traces take no colour, and their slices are pulled
  out by 0.1.

Shared definitions:

- `Dataset` holds the records and the eleven summable columns, under the source's exact
  header names.
- `Dataset` also holds the per-key row selection `Where` (pandas `df[df[level] == key]`)
  and the column sum.
- `Wrappers` holds `Option`.

Numbers are exact `real`s. The empty sum is 0, as pandas gives for an empty selection.

Chart titles are represented by the `Charts.Heading` datatype. `Heading.Text` spells each
title out exactly as the source formats it:

- the bar trace name is the column;
- the per-column title is `"Sum of <column> by <Level>"`;
- the line and pie title is `"Sum of <column> by <LEVEL>"`.

Definitions stated by the lemmas about them rather than by a contract of their own:

- `Dataset.ColumnSum` is pandas `rows[col].sum()` (app.py:80, 136, 142, 148, 154).
- `Dataset.LabelSums` is the inner loop's list of per-label totals (app.py:131-155).
- `Dataset.Total` adds a list of totals up.
- `Aggregation.ColumnTotals` is the dictionary `{col: ...sum() for col in selected_columns}` (app.py:80).
- `Charts.ColumnSeries`, `Charts.ColumnTitles` and `Charts.TracesUpTo` are the lists that
  `chart_data`, `chart_titles` and the figure loops build (app.py:127-189).

## Model

| member | source | states |
|---|---|---|
| Collections.Distinct | app.py:21-27 | pandas `unique`: holds exactly the values of the input, each once |
| Collections.DistinctKeepsFirstAppearanceOrder | app.py:21-27 | the distinct values are listed in the order of their first occurrence in the input |
| Collections.DistinctOfDistinct | app.py:21-27 | a list without repetitions is its own `unique` |
| Collections.FirstIndex | app.py:21-27 | position of the first occurrence: the value is there and not before it |
| Collections.JoinShowsSeparator | app.py:44 | joining two or more parts puts the separator's characters into the text |
| Collections.Join | app.py:44-52 | `str.join`: the joined text opens with the first part |
| Collections.JoinLength | app.py:44-52 | the joined text is as long as all the parts plus one separator per gap |
| Dataset.Where | app.py:78 | `df[df[level] == key]` keeps exactly the rows carrying `key`, never more rows than it had |
| Dataset.Without | app.py:78 | the rows not carrying `key` are exactly the rest |
| Dataset.WhereCounts | app.py:78 | `df[df[level] == key]` keeps every copy of a row carrying `key` and no copy of any other row |
| Dataset.WhereWithoutPartition | app.py:78 | the rows carrying `key` and the rest together are the table again, copy for copy |
| Dataset.ColumnSumAppend | app.py:80 | a column's sum is additive over a split of the rows |
| Dataset.ColumnSumNonNegative | app.py:80 | `.sum()` of a column without negative values is not negative |
| Dataset.AbsentKeySumsToZero | app.py:78-80 | a key no row carries selects no rows, and every column sums to 0 over them |
| Dataset.ColumnSumSplits | app.py:78-80 | a column's total is the total over one key's rows plus the total over all other rows |
| Dataset.WhereAfterWithout | app.py:78 | removing one key's rows leaves the rows of every other key unchanged |
| Dataset.LabelSumsWithout | app.py:133-155 | the per-key totals over a key list, added up, ignore rows of a key outside the list |
| Dataset.LabelsPartitionTotal | app.py:133-155 | when every row's field is one of the listed keys, none twice, the per-key totals add up to the whole column's total |
| Filters.KeepIn | app.py:33-39 | `isin` keeps exactly the rows whose field is in the list |
| Filters.FilteredUpTo | app.py:30-39 | the rows passing the outermost `k` levels are exactly the table's rows that match them |
| Filters.Filtered | app.py:30-39 | the filtered view holds exactly the table's rows that pass every level with a non-empty list |
| Filters.ApplyFilters | app.py:30-39 | the filter chain returns the filtered view of the table |
| Filters.Narrow | app.py:32-39 | one `if` of the chain turns the view filtered down to the parent level into the view filtered down to this level |
| Filters.FilteredViewProperties | app.py:30-39 | the filtered view is an order-preserving subsequence of the table; a row is in it iff it is in the table and passes every level with a non-empty list; every copy of a passing row is kept |
| Filters.FilterKeepsMatchingTable | app.py:30-39 | a table whose rows all pass the filters comes through unchanged |
| Filters.NoSelectionShowsAllData | app.py:30-39 | with all four lists empty the view is the whole table |
| Filters.NarrowStep | app.py:32-39 | a level with an empty list leaves the view as it is; otherwise its `isin` narrows it to the rows passing that level too |
| Filters.FilteredIsSubsequence | app.py:30-39 | every intermediate view keeps the table's row order |
| Filters.FilteredCounts | app.py:30-39 | each intermediate view keeps as many copies of a passing row as the table has, and none of a failing one |
| Filters.WideningKeepsRows | app.py:30-39 | adding values to lists that already constrain their level never removes a row: the narrower view is a subsequence of the wider one |
| Filters.Candidates | app.py:23-27 | the ancestor mask keeps exactly the rows whose every ancestor field is in its list (an empty list admits nothing) |
| Filters.FieldValues | app.py:23-27 | `rows[level]`: entry i is row i's field, so the values come in row order; exactly the rows' field values occur |
| Filters.OptionsFor | app.py:21-27 | options have no repetitions; a level under a parent with nothing chosen offers nothing; otherwise a value is offered iff some row under the ancestor mask carries it |
| Filters.EmptyAncestorEmptiesOptions | app.py:23-27 | an empty list at any level above, not only the parent, leaves nothing to offer |
| Filters.NoCandidatesUnderEmptyAncestor | app.py:23-27 | under an empty ancestor list the ancestor mask keeps no row |
| Filters.CandidatesAreAncestorView | app.py:23-39 | once every ancestor has a choice, the ancestor mask equals the filter chain down to the parent level |
| Filters.OptionsComeFromAncestorView | app.py:21-39 | once every ancestor has a choice, a level offers exactly the distinct values, in first-appearance order, of the view filtered by the levels above |
| Filters.OfferedOptionShowsData | app.py:21-39 | choosing any offered value (with nothing chosen below) leaves a non-empty filtered view |
| Breadcrumbs.ChosenLists | app.py:43-50 | the breadcrumb's pieces come from the non-empty lists only |
| Breadcrumbs.CrumbsJoinChosenLists | app.py:43-50 | there is one crumb per non-empty list, in hierarchy order, each the list joined with ", " |
| Breadcrumbs.BreadcrumbText | app.py:52 | with nothing chosen the text is "All Data"; with provinces chosen it opens with them, comma-joined |
| Breadcrumbs.BuildBreadcrumb | app.py:42-52 | the appended crumbs joined with " > ", or "All Data" when there are none |
| Breadcrumbs.AllDataExactly | app.py:52 | the text is "All Data" iff nothing is chosen or the only non-empty list is the single value "All Data" |
| Breadcrumbs.AllDataMeansNothingChosen | app.py:52 | when no chosen value is literally "All Data", the text is "All Data" iff all four lists are empty |
| Breadcrumbs.BreadcrumbExample | app.py:42-52 | two provinces and one division read "Punjab, Sindh > Lahore" |
| Aggregation.CombinedIsSumOfTotals | app.py:80-89 | the combined sum equals the sum of the per-column totals shown for the province |
| Aggregation.CombinedSum | app.py:89 | `.sum().sum()` over no rows is 0, and over one column it is that column's total |
| Aggregation.CombinedSumFirstRow | app.py:89 | the combined sum peels off the first row's values over the chosen columns |
| Aggregation.CombinedIsGrandTotal | app.py:89 | the combined sum counts every chosen value of every row once (it equals the row-by-row total) |
| Aggregation.SumByProvince | app.py:75-92 | nothing but the prompt when no column is chosen; otherwise one summary per selected province in order, each column's total over that province's rows of the view, and a combined sum exactly when two or more columns are chosen, equal to the sum of the totals |
| Aggregation.AbsentProvinceSumsToZero | app.py:76-90 | a selected province with no rows in the view gets 0 in every column and in the combined sum |
| Aggregation.CombinedScenario | app.py:88-90 | 1000 and 600 in the two chosen columns combine to 1600 |
| Aggregation.SummaryFor | app.py:76-90 | a province's summary names it, keys one total per chosen column in order, and carries a combined sum exactly for two or more columns, equal to the sum of its totals |
| Charts.ColumnSeriesEntries | app.py:129-157 | one list per chosen column, in order, and list j is the per-label totals of column j |
| Charts.SeriesShape | app.py:129-157 | each column's list has one entry per label, and entry i is the column's total over the rows carrying label i |
| Charts.ColumnTitlesEntries | app.py:137-155 | one title per chosen column, in order, "Sum of <column> by <Level>" |
| Charts.BuildSeries | app.py:126-192 | no chart data unless columns are chosen and the view has rows; otherwise the chosen level's labels, one list of per-label totals per column and one title per column |
| Charts.SumPerLabel | app.py:131-155 | the inner loop yields, per label in order, the column's total over the rows carrying it |
| Charts.LevelTotalsCoverView | app.py:126-157 | with a non-empty list at the comparison level and no label twice, the totals per label add up to the column's total over the whole filtered view |
| Charts.ColorFor | app.py:130 | `palette[idx % len(palette)]` is always a palette colour, and the first columns take the palette in order |
| Charts.ColorsCycle | app.py:130-182 | columns whose positions differ by a multiple of the palette length share a colour |
| Charts.ModOfShift | app.py:130 | adding a multiple of n does not change the remainder modulo n |
| Charts.FourthColumnReusesFirstColour | app.py:130 | with three colours the fourth column takes the first column's colour |
| Charts.MakeTrace | app.py:116-189 | a trace draws the labels against one column's totals; bars are named after the column, lines and pies titled "Sum of <column> by <LEVEL>"; bars and lines take colour `palette[idx mod len]`, pies none; a pie's pull list has one 0.1 per value, other traces none |
| Charts.TracesUpToEntries | app.py:160-189 | trace i is built from column i's totals, column i and colour position i |
| Charts.BuildTraces | app.py:160-189 | the figures' loops give one trace per column's list of totals, in column order |

## Left out

- Streamlit widgets, headers, `st.write` output, the data table display and the footer are
  not modelled. The selections and column choices are parameters of the model (`Selection`,
  `seq<Column>`, `ChartKind`, `Level`).
- Reading `df2.csv` and the CSV download are left out. They are file I/O through a library
  serialiser. The table is a parameter.
- The bar figure's "Comparison of ..." title (app.py:168), the axis titles, the dark
  template, `barmode` and `hole=0.3` are left out. The line and pie figures' layout titles
  (app.py:117, 122) are modelled as `Trace.title`, alongside the categories, values, bar
  name, colour and pull list.
- The colour palette is a generic non-empty sequence rather than the library's `Set1`.
- Charts.BuildTraces: it returns the traces of all three chart kinds through one `ChartKind`
  parameter. Creating figures and handing them to the page is not modelled.
- Floating-point rounding and the NaN-skipping of pandas `sum` are left out. Sums are exact
  `real` arithmetic.
- The `pd.DataFrame` display of a province's sums is not modelled separately. It shows the
  same totals as `Aggregation.ColumnTotal`.
- The dictionary of per-column sums collapses repeated keys. The multiselect never yields a
  column twice, so the model keeps one entry per chosen column, in order.
- Breadcrumbs.AllDataMeansNothingChosen: the "All Data iff nothing is chosen" reading holds
  only when no chosen label is literally "All Data". `Breadcrumbs.AllDataExactly` states the
  unconditional characterisation.
- A comparison level with nothing chosen yields chart data with no labels, as the code does.
  A plainer reading would be "no chart at all".
- The per-column titles (`chart_titles`) are computed but never shown. They are modelled in
  `Series.titles` because the loop builds them.
