# DashGen core, modelled and verified in Dafny

DashGen turns an uploaded table (CSV, JSON or a spreadsheet) into a prompt
for a dashboard generator. This project models the deterministic core of
that pipeline in Dafny 4.11 and proves what it promises:

- **Import** (`Records`, `TypeInference`, `DataParser`, `ImportRoute`,
  `UploadRoute`):
  - the uploaded file's extension and the upload whitelist;
  - the stored name `fileId + extension`, which the importer finds again by its id prefix;
  - the dispatch on the extension;
  - the three accepted JSON shapes;
  - the alignment of every record to the first record's keys;
  - column-type inference by a fixed rule order over the first 100 non-empty values;
  - the dataset summary and the data prompt;
  - the server route that rebuilds each row as an object.
- **Dashboard reasoning** (`KeywordRules`, `ColumnStats`, `Kpis`, `Charts`,
  `Layout`, `Quality`, `Insights`, `Engine`): the `DataReasoningEngine`
  class and everything it derives from a dataset:
  - the business context;
  - KPI cards, sorted stably by importance;
  - chart recommendations numbered by a decreasing priority counter;
  - sections, filters and layout;
  - analytical insights;
  - data-quality warnings;
  - the prompt that lists them, with its caps of 4 KPIs, 4 charts and 3 filters.
- **Pattern memory** (`Memory`):
  - the weighted Jaccard similarity between the current schema and a stored one;
  - the ranking of fetched patterns: above 0.3, best first, at most five;
  - the memory-enhanced prompt, with deduplicated and capped lists;
  - the keyword extraction of successful elements and common mistakes;
  - the enhanced memory context;
  - the store of patterns, as a class whose table the store appends to.
- **Small rules**:
  - follow-up intent detection and instructions (`FollowUp`);
  - the two dashboard validators and the chart-type lists (`DashboardRules`);
  - the chat-history window of the completion route (`CompletionRoute`).

Where the source changes things step by step, the model is imperative too:

- `forEach` loops that push into a list, a string built with `+=`, and the
  `priority--` counter all become methods with loops or stepwise
  assignments. Each such method is proved equal to a specification function.
- The engine is a class whose constructor runs the analysis once.
- The pattern table is a class field that `StoreDashboardPattern` appends to.
- Pure expressions (classification, aggregation choice, similarity, the
  ranking chain, the validators, the window) are functions.

The properties are proved as lemmas about those functions.

Modelling choices:

- **Cells and coercion.**
  - Cell values are a datatype (`Null`, `Undefined`, `Bool`, `Num`, `Str`, `Composite`), so the emptiness test `null`/`undefined`/`''` is exact.
  - Two `Composite` cells (nested arrays or objects) are always different values for a `Set`, which compares objects by reference; their text only serves `String(v)`.
  - `Number()` and `Date.parse` are parameters of the model (the `Coercion` datatype).
  - The parsing libraries are functions from bytes to records (the `Decoders` datatype).
- **Duplicated code.** `analyzeDataTypes` and `generateDataSummary` exist twice in the source, with the same text. They are modelled once, and both copies are cited.
- **NaN.**
  - A Jaccard ratio with an empty union is `None`, standing for NaN.
  - NaN fails the `> 0.3` filter, as in JavaScript.
- **Percentages.** The thresholds are compared by integer cross-multiplication:
  - `10 * nulls > rows` for more than 10% missing;
  - `5 * unique > 4 * rows` for more than 0.8 × rows.
- **Sorting.** `Array.prototype.sort` is stable, so it is modelled as a stable
  insertion sort on a real-valued key (`Seqs.SortDesc`).
- **Prompt text.** Prompts and summaries are sequences of line values that
  carry the numbers and elements they show. Their wording is not modelled.

## Model

| member | source | states |
|---|---|---|
| Records.Keys | lib/data-parser.ts:39 | `Object.keys` of a record lists each property name once, and exactly the record's names |
| Records.Get | lib/data-parser.ts:40 | `row[header]` is the record's value for that name, `undefined` when the record has none |
| Records.Column | lib/data-parser.ts:107 | the column of a header has one cell per record, each that record's value for the header |
| Records.AlignRows | lib/data-parser.ts:40 | one row per record, each with one cell per header, holding record i's value for header j |
| Records.FileExtension | app/api/import-data/route.ts:33-35 | the lowercased text after the last '.'; the whole lowercased name when there is no '.'; '' when the name ends with '.'; never contains '.' |
| Records.KindOf | lib/data-parser.ts:14-24 | csv, json, and xlsx/xls select the three parsers, each exactly for those extensions; every other extension selects none |
| Records.FindMember | lib/data-parser.ts:62 | `jsonData.data` is the first member called `data`, absent exactly when no member has that name |
| Records.KeyValueRows | lib/data-parser.ts:66 | a plain object becomes one `{key, value}` row per distinct member name |
| Records.KeyValueKeys | lib/data-parser.ts:66 | a key/value row has the properties `key` and `value`, in that order |
| Records.ItemRecords | lib/data-parser.ts:75-76 | an array of objects is read as those records; a `null` first item, or a `null` item under a first item with properties, is a TypeError; a `null` item no header reads is an empty row |
| Records.JsonRecords | lib/data-parser.ts:58-76 | a top-level array is the data; else an array under `data`; else an object's entries as key/value rows; null or a scalar is an error; the array's items are read as records, with the TypeError of a `null` item |
| Records.KeyValueRowCount | lib/data-parser.ts:64-66 | an object with distinct member names and no array under `data` gives exactly one row per member |
| Records.DecodeRecords | lib/data-parser.ts:35-37 | the importers go on only with non-empty records; empty CSV, Excel or JSON data are the 'empty' and 'no data' errors |
| TypeInference.TypeNameInjective | lib/data-parser.ts:110-132 | the six type names are distinct |
| TypeInference.Present | lib/data-parser.ts:107 | the values kept are non-blank values of the column, in order |
| TypeInference.PresentEmpty | lib/data-parser.ts:109-112 | no value is kept exactly when every value is null, undefined or '' |
| TypeInference.Sample | lib/data-parser.ts:114 | the sample holds at most 100 values |
| TypeInference.InferenceRules | lib/data-parser.ts:109-133 | unknown exactly for a blank column; float exactly when all samples are numeric and one shows a '.'; integer when all are numeric and none does; date exactly when not all are numeric and some is a date; boolean and string in that order after that |
| TypeInference.InferIgnoresLaterValues | lib/data-parser.ts:114 | once a column has 100 non-empty values, appending values never changes its type |
| TypeInference.SampleIgnoresLaterValues | lib/data-parser.ts:114 | once a column has 100 non-empty values, appending values leaves the sample unchanged |
| TypeInference.TypeMapUnknown | lib/data-parser.ts:103-113 | the type map has exactly the headers as keys, and a header is 'unknown' exactly when all its values are blank |
| TypeInference.AnalyzeDataTypes | lib/data-parser.ts:103-137 | the loop gives every header exactly one entry, the inferred type of its own column |
| TypeInference.TypeMapSnoc | lib/data-parser.ts:106-134 | processing one more header adds (or overwrites) just that header's entry |
| TypeInference.NumericColumns | lib/data-parser.ts:159 | the numeric columns are exactly the headers typed integer or float |
| TypeInference.ColumnsOfType | lib/data-parser.ts:160-161 | the columns of a type are exactly the headers of that type |
| TypeInference.TypeValues | lib/data-parser.ts:143 | `Object.values(dataTypes)` has one value per header |
| TypeInference.Distribution | lib/data-parser.ts:143-146 | one entry per distinct type, in order of first appearance, with its number of occurrences |
| TypeInference.DistributionSums | lib/data-parser.ts:143-154 | the type counts add up to the number of values counted |
| TypeInference.SummaryCountsHeaders | lib/data-parser.ts:143-154 | the type-count lines of the summary count every header exactly once |
| TypeInference.TypeCountLines | lib/data-parser.ts:152-154 | one summary line per distinct type with its count |
| TypeInference.GenerateDataSummary | lib/data-parser.ts:139-174 | the appended lines are the summary: size, columns, a line per type, then the insight lines |
| TypeInference.TypeCountLoop | lib/data-parser.ts:152-154 | the `forEach` writes one line per entry of the distribution |
| TypeInference.SummaryShape | lib/data-parser.ts:148-171 | the summary starts with the size line; it has the numeric, date or categorical line exactly when such a column exists |
| TypeInference.InsightLinesKinds | lib/data-parser.ts:163-171 | each insight line is present exactly for a non-zero count of its kind |
| TypeInference.CountOverAll | lib/data-parser.ts:143-146 | over a duplicate-free list of all types, the counts add up to the number of values |
| DataParser.Tabulate | lib/data-parser.ts:39-42 | the common tail of the parsers computes headers, rows, type map and summary as specified |
| DataParser.TabulatedRows | lib/data-parser.ts:39-40 | the headers are the first record's keys, each once; one row per record, each with one cell per header, holding that record's value |
| DataParser.TabulatedTypes | lib/data-parser.ts:41 | one type per header, 'unknown' exactly for a column whose every value is blank |
| DataParser.FileRecords | lib/data-parser.ts:11-25 | `parseDataFile` tabulates only non-empty records |
| DataParser.ParseDataFile | lib/data-parser.ts:11-25 | a decoding or shape error is passed on; otherwise the result is the tabulation of the decoded records |
| DataParser.DispatchByExtension | lib/data-parser.ts:22-23 | an extension other than csv, json, xlsx or xls fails with 'Unsupported file type' and that extension |
| DataParser.JsonArraysAreTheData | lib/data-parser.ts:58-76 | a non-empty top-level array, or else a non-empty array under `data`, is what gets read as the records |
| DataParser.JsonNullItemFails | lib/data-parser.ts:75-76 | a JSON array whose first item is `null`, or whose first item has properties and some item is `null`, fails to import with the TypeError |
| DataParser.JsonObjectBecomesKeyValueRows | lib/data-parser.ts:64-66 | a plain object becomes one row per member, under the headers `key` and `value` |
| DataParser.SampleValues | lib/data-parser.ts:186 | samples come from the first three rows, with null and undefined removed |
| DataParser.Details | lib/data-parser.ts:184-188 | one detail per given header |
| DataParser.GenerateDataPrompt | lib/data-parser.ts:176-198 | the prompt is the request, the summary, one detail per header, then the chart guidance |
| DataParser.DetailLines | lib/data-parser.ts:184-188 | the `forEach` writes one detail per header, in header order |
| DataParser.PromptDetailsFollowHeaders | lib/data-parser.ts:184-188 | with distinct headers, detail j is header j with its type and the shown values of its own column in the first three rows |
| ImportRoute.FindStoredFile | app/api/import-data/route.ts:21 | no file is found exactly when no name starts with the id; a found file is one of the directory's |
| ImportRoute.StoredUnderIdIsFound | app/api/import-data/route.ts:21 | a file named `fileId + ext` is found when no earlier name starts with the id |
| ImportRoute.WithFileId | app/api/import-data/route.ts:77-84 | `totalRows` is the number of rows |
| ImportRoute.ImportDataFromStoredFile | app/api/import-data/route.ts:37-56 | a missing file is 'File not found' before any dispatch; otherwise the result is the dispatch and tabulation of the stored bytes, with the id and `totalRows == rows.length` |
| ImportRoute.LastIndex | app/api/import-data/route.ts:245-247 | the header's last position, the assignment that wins |
| ImportRoute.ObjectOfAssigns | app/api/import-data/route.ts:244-247 | the object has a property for each header, holding the cell at its last position |
| ImportRoute.RowToObject | app/api/import-data/route.ts:244-248 | assigning `obj[header] = row[index]` in header order builds that object |
| ImportRoute.AssignStep | app/api/import-data/route.ts:246 | one assignment sets the next header to the next cell, whatever the header held before |
| ImportRoute.ObjectReadsBack | app/api/import-data/route.ts:243-249 | with distinct headers, reading the object back at `headers[j]` gives cell j of the row |
| ImportRoute.RowsToObjects | app/api/import-data/route.ts:243-249 | one object per row, in order |
| ImportRoute.Post | app/api/import-data/route.ts:229-268 | a missing `fileId` or `fileName` is 400 before any import; a missing stored file is a 500 with 'File not found'; a found file that fails to dispatch or parse is a 500 with exactly that error; a found file that parses is a 200 with the tabulated import and every row rebuilt as its object |
| ImportRoute.ImportedObjectsReadBack | app/api/import-data/route.ts:243-249 | the object of row i, read at header j, is record i's value for that header |
| UploadRoute.UploadExtension | app/api/upload-data/route.ts:41 | '.' followed by the importer's extension of the same name; '.' and the whole lowercased name when there is no dot |
| UploadRoute.UploadDecision | app/api/upload-data/route.ts:9-58 | a file is stored exactly when the directory is ready, there is a file, its extension is allowed and the write succeeds; a directory failure is a 500 before any other test; then no file or an extension off the whitelist is a 400, and a failed write a 500; nothing is written otherwise |
| UploadRoute.StoredUnderId | app/api/upload-data/route.ts:51-68 | an accepted file is stored as the last entry under `fileId + extension`, a name that starts with `fileId` |
| UploadRoute.AllowedExtensionsDispatch | app/api/upload-data/route.ts:40 | every allowed extension, without its dot, is one the importer's dispatch handles |
| UploadRoute.UploadThenImport | app/api/upload-data/route.ts:51-58 | a stored upload is found again by its id and read back with its bytes, and its original name dispatches to a parser |
| KeywordRules.HasColumns | lib/data-reasoning.ts:106-110 | never true for an empty keyword or column list; always true for the keyword '' over some column, as `includes('')` is |
| KeywordRules.HasColumnsConcat | lib/data-reasoning.ts:106-110 | `some` over two joined keyword lists matches exactly when one of the lists does |
| KeywordRules.FirstMatch | lib/data-reasoning.ts:85-103 | the first rule that matches, with no earlier rule matching |
| KeywordRules.LowerAll | lib/data-reasoning.ts:82 | the headers, each lowercased |
| KeywordRules.InferBusinessContext | lib/data-reasoning.ts:80-110 | 'general-business' exactly when no group has a keyword inside a lowercased header; otherwise the context of the first group that has one |
| KeywordRules.ContextDescription | lib/data-reasoning.ts:561-575 | one fixed description per context; the general-business fallback is never needed, since every context has its entry (no contract beyond the definition) |
| KeywordRules.RevenueMeansSales | lib/data-reasoning.ts:85-86 | a header containing 'revenue' makes the data sales-commerce, whatever the other headers say |
| KeywordRules.FindColumnsByKeywords | lib/data-reasoning.ts:447-453 | exactly the headers that mention a keyword, ignoring case, in header order |
| KeywordRules.AggregationFor | lib/data-reasoning.ts:461-472 | the aggregation is sum, avg or count, never max, min or median |
| KeywordRules.AggregationByFirstMatch | lib/data-reasoning.ts:463-471 | 'avg' exactly with a rate/average/score keyword and no sum keyword; 'count' exactly with a count/number keyword and neither of the others |
| KeywordRules.AggregationOfTotals | lib/data-reasoning.ts:463-464 | a column that mentions revenue, sales or total is summed |
| KeywordRules.Capitalize | lib/data-reasoning.ts:457 | capitalising a word keeps its length |
| KeywordRules.FormatColumnName | lib/data-reasoning.ts:455-459 | the result has the name's length; each separator becomes a space, a word's first letter is upper-cased and its other letters lower-cased |
| KeywordRules.FormatIsTitleCase | lib/data-reasoning.ts:456-458 | splitting at `[-_\s]`, capitalising each word and joining with spaces is that character-by-character rule |
| KeywordRules.TitleCasePointwise | lib/data-reasoning.ts:456-458 | the character-by-character rule, stated for each position |
| ColumnStats.ColumnAt | lib/data-reasoning.ts:443 | `rows.map(row => row[index])`, undefined past a row's end |
| ColumnStats.SetSize | lib/data-reasoning.ts:444 | `new Set(values).size` is at most the number of values |
| ColumnStats.SetSizeSplits | lib/data-reasoning.ts:444 | the `Set` holds the distinct primitive values plus every nested array or object, which it compares by reference |
| ColumnStats.UniqueValueCount | lib/data-reasoning.ts:441-445 | at most one distinct value per row; 0 for a name that is not a header |
| ColumnStats.UniqueValueCountIsSetSize | lib/data-reasoning.ts:444 | the count is the size of the set of the column's non-blank primitive values, plus one per nested array or object |
| ColumnStats.PrimitiveColumnCountsDistinct | lib/data-reasoning.ts:441-445 | a column of primitive values counts each distinct non-blank value once |
| ColumnStats.CompositeColumnCountsEach | lib/data-reasoning.ts:441-445 | a column of nested arrays or objects counts every non-blank cell, equal text or not |
| ColumnStats.AbsentColumnHasNoValues | lib/data-reasoning.ts:442-444 | index -1 reads undefined in every row, so a missing column has no values |
| ColumnStats.NullCount | lib/data-reasoning.ts:413-416 | at most one blank per row |
| Kpis.RevenueKpis | lib/data-reasoning.ts:119-140 | every revenue column has its high 'Total' card; growth cards pair their column with the first date column |
| Kpis.AverageKpis | lib/data-reasoning.ts:153-164 | medium average cards, only for the given columns that are not revenue columns, at most one per column |
| Kpis.BuildKpis | lib/data-reasoning.ts:119-177 | the pushes build the cards in the source's order |
| Kpis.RevenueLoop | lib/data-reasoning.ts:120-140 | the `forEach` over the revenue columns builds their cards |
| Kpis.AverageLoop | lib/data-reasoning.ts:153-164 | the `forEach` over the first three numeric columns builds their cards |
| Kpis.IdentifyKeyMetrics | lib/data-reasoning.ts:112-183 | the result is the stable importance sort of the built cards: all high cards in construction order, then all medium ones |
| Kpis.SortedKpisGrouped | lib/data-reasoning.ts:179-182 | the stable sort puts the high cards first and keeps construction order within each importance |
| Kpis.SortedKpiOrigin | lib/data-reasoning.ts:119-177 | every sorted card comes from the revenue run, the conversion card, the record count or the averages |
| Kpis.KpiCards | lib/data-reasoning.ts:119-182 | every revenue column has its 'Total' card; growth cards exist only with a date column and pair their column with the first one; no card is low |
| Kpis.HighBeforeMedium | lib/data-reasoning.ts:179-182 | no high card comes after a medium one |
| Kpis.KpiKindCounts | lib/data-reasoning.ts:179-182 | sorting keeps the number of cards of every kind |
| Kpis.OneTotalRecordsCard | lib/data-reasoning.ts:143-150 | exactly one card is 'Total Records' |
| Kpis.RevenueRunKinds | lib/data-reasoning.ts:120-140 | the revenue run holds no record count, average or conversion card |
| Kpis.AverageRunKinds | lib/data-reasoning.ts:153-164 | the average run holds no record count or conversion card |
| Kpis.AtMostOneConversionCard | lib/data-reasoning.ts:167-177 | at most one card is the conversion rate |
| Kpis.AverageCardCount | lib/data-reasoning.ts:153 | at most one average card per column among the first three numeric ones |
| Kpis.AverageCardColumns | lib/data-reasoning.ts:153-164 | an average card shows one of those columns, never a revenue column |
| Kpis.RevenueHeadersHaveTotals | lib/data-reasoning.ts:119-128 | every header that mentions a revenue keyword has its 'Total' card, whatever its type |
| Charts.LinePlots | lib/data-reasoning.ts:196-207 | one line chart per given column, over the date column, with that column's aggregation |
| Charts.Numbered | lib/data-reasoning.ts:192-205 | the i-th chart pushed takes priority start − i from the decreasing counter |
| Charts.NumberedSnoc | lib/data-reasoning.ts:205 | one more push takes the next lower priority |
| Charts.Push | lib/data-reasoning.ts:197-205 | a push with `priority--` keeps charts numbered from 10 and the counter at 10 minus the number pushed |
| Charts.PushTrendLines | lib/data-reasoning.ts:195-208 | the time-series block pushes the trend lines, numbered from 10 |
| Charts.PushCharts | lib/data-reasoning.ts:192-281 | the five conditional blocks push the plots in order with priorities 10, 9, … |
| Charts.RecommendCharts | lib/data-reasoning.ts:185-284 | the result is the recommended charts of the dataset |
| Charts.NumberedOrdered | lib/data-reasoning.ts:283 | priorities strictly decrease, so the sort changes nothing |
| Charts.PlotCount | lib/data-reasoning.ts:194-281 | at most six charts, at most two from the trend block |
| Charts.ChartsInOrder | lib/data-reasoning.ts:192-283 | priorities 10, 9, … in construction order, none below 5; line charts only first, only with a date column, over the first date column; no chart without a numeric column |
| Charts.LinesFirst | lib/data-reasoning.ts:195-208 | only the trend block makes line charts, over the first date column and a numeric column |
| Charts.TrendLines | lib/data-reasoning.ts:196-207 | every trend chart is a line over the first date column |
| Charts.NoLaterLines | lib/data-reasoning.ts:211-281 | none of the later blocks makes a line chart |
| Charts.PieOrBar | lib/data-reasoning.ts:211-237 | with a numeric and a string column the category chart is a pie exactly for at most 8 distinct values, otherwise a bar, over the first string and numeric columns |
| Charts.EmittedKinds | lib/data-reasoning.ts:197-279 | every chart is a line, pie, bar, scatter or histogram |
| Charts.NoNumericNoCharts | lib/data-reasoning.ts:195-281 | a dataset without integer or float columns gets no chart |
| Charts.PieForFewCategories | lib/data-reasoning.ts:211-237 | some chart is a pie exactly when the first string column has at most 8 distinct non-blank values |
| Layout.DesignSections | lib/data-reasoning.ts:345-377 | the section pushes give the sections of the dataset |
| Layout.SectionPositions | lib/data-reasoning.ts:345-377 | positions strictly increase: kpi-row at 1 and chart-grid at 3 always, trend-analysis at 2 exactly with a date column, detailed-table at 4 exactly beyond 8 headers |
| Layout.CategoryFilters | lib/data-reasoning.ts:391-398 | one filter per given string column, in order |
| Layout.CategoryFilterLoop | lib/data-reasoning.ts:391-398 | the `forEach` over the first three string columns builds their filters |
| Layout.DesignFilters | lib/data-reasoning.ts:379-398 | the filter pushes give the date range, then the category filters |
| Layout.FilterPriorities | lib/data-reasoning.ts:379-398 | at most four filters, in strictly decreasing priority: 10, 9, 8, 7 with a date column, 9, 8, 7 without |
| Layout.DateRangeFilter | lib/data-reasoning.ts:382-388 | a date-range filter exists exactly with a date column, and is then first, over the first date column, at priority 10 |
| Layout.CategoryFilterKinds | lib/data-reasoning.ts:391-398 | the i-th string column (i < 3) gets priority 9 − i, a dropdown exactly for at most 20 distinct values, otherwise a search box |
| Layout.FiltersSorted | lib/data-reasoning.ts:403 | sorting by priority leaves the filters as pushed |
| Layout.LayoutFor | lib/data-reasoning.ts:401 | 'grid' exactly beyond four numeric columns, otherwise 'two-column' |
| Layout.DesignDashboardStructure | lib/data-reasoning.ts:339-405 | the result is the structure of the dataset: sections, sorted filters and layout |
| Quality.AssessDataQuality | lib/data-reasoning.ts:407-439 | the result is the warnings of the dataset |
| Quality.CheckMissing | lib/data-reasoning.ts:412-422 | the `forEach` over the headers builds the missing-value warnings |
| Quality.CheckCardinality | lib/data-reasoning.ts:425-431 | the `forEach` over the string columns builds the high-cardinality warnings |
| Quality.MissingIssuesSound | lib/data-reasoning.ts:412-422 | each missing-value warning is of a header whose column misses more than 10%, with its counts |
| Quality.MissingIssuesComplete | lib/data-reasoning.ts:412-422 | each header whose column misses more than 10% has a warning |
| Quality.MissingIssuesExtend | lib/data-reasoning.ts:412-422 | the warnings of all but the last header are a prefix of the warnings of all headers |
| Quality.CardinalityIssuesSound | lib/data-reasoning.ts:426-431 | each high-cardinality warning is of a column with more distinct values than 0.8 × rows |
| Quality.CardinalityIssuesComplete | lib/data-reasoning.ts:426-431 | each such column has a warning |
| Quality.CardinalityIssuesExtend | lib/data-reasoning.ts:426-431 | the warnings of all but the last column are a prefix of the warnings of all columns |
| Quality.IssueRuns | lib/data-reasoning.ts:407-438 | the warnings are the missing-value run, then the high-cardinality run, then the small-dataset warning |
| Quality.IssueRanks | lib/data-reasoning.ts:407-438 | a warning's kind follows from its position |
| Quality.MissingValuesWarning | lib/data-reasoning.ts:412-422 | a header is warned about exactly when more than 10% of its column's rows are blank; the warning carries those counts |
| Quality.HighCardinalityWarning | lib/data-reasoning.ts:425-431 | a column is warned about exactly when it is a string column with more distinct non-blank values than 0.8 × rows |
| Quality.HighCardinalityWarned | lib/data-reasoning.ts:426-430 | a string column with many distinct values is warned about |
| Quality.HighCardinalityReason | lib/data-reasoning.ts:426-430 | a high-cardinality warning is of such a column and carries its count |
| Quality.HighIssueInHighRun | lib/data-reasoning.ts:425-431 | a high-cardinality warning sits in the high-cardinality run |
| Quality.HighCardinalityCounts | lib/data-reasoning.ts:427-429 | every high-cardinality warning carries its column's distinct-value count |
| Quality.SmallDatasetWarning | lib/data-reasoning.ts:434-436 | the small-dataset warning is present exactly below 10 rows, and comes last |
| Quality.IssueOrder | lib/data-reasoning.ts:407-438 | missing-value warnings come first, then high cardinality, then the small dataset |
| Quality.NoRowsOnlySmall | lib/data-reasoning.ts:413-435 | with no rows the 0/0 comparisons are false and the only warning is the small-dataset one |
| Quality.NoRowsNoMissing | lib/data-reasoning.ts:418-419 | with no rows there is no missing-value warning |
| Quality.NoRowsNoHighCardinality | lib/data-reasoning.ts:427-428 | with no rows there is no high-cardinality warning |
| Insights.CountTypes | lib/data-reasoning.ts:294-297 | the `reduce` gives every type its number of occurrences among the values |
| Insights.GenerateAnalyticalInsights | lib/data-reasoning.ts:286-337 | the pushes give the insights of the dataset |
| Insights.TypeCountInsights | lib/data-reasoning.ts:294-309 | the type count and the three pushes report the integer+float, date and string counts |
| Insights.KindInsights | lib/data-reasoning.ts:299-309 | the three pushes of the type counts |
| Insights.CountIsColumnsOfType | lib/data-reasoning.ts:294-297 | counting a type among the type map's values counts the headers of that type |
| Insights.NumericCountIsNumericColumns | lib/data-reasoning.ts:299-300 | the integer and float counts together are the number of numeric columns |
| Insights.InsightLinesMembers | lib/data-reasoning.ts:291-334 | the volume line first; a kind line exactly for a non-zero count; one advice line; the rich-numeric line exactly when asked for |
| Insights.KindLinesMembers | lib/data-reasoning.ts:299-309 | each kind line is present exactly for its non-zero count |
| Insights.InsightsShape | lib/data-reasoning.ts:286-337 | the volume line first; a numeric, date or categorical line for n exactly when the dataset has n > 0 such columns; exactly the context's advice; the rich-numeric line exactly beyond five numeric columns |
| Insights.GeneralAdviceOtherwise | lib/data-reasoning.ts:313-328 | only sales, web analytics, HR and marketing get their own advice; every other context gets the general one |
| Engine.AnalyzeData | lib/data-reasoning.ts:62-78 | the six analyses of the same dataset |
| Engine.Listed | lib/data-reasoning.ts:502-504 | one line per element, numbered from 1 |
| Engine.ListLoop | lib/data-reasoning.ts:502-504 | the `forEach` writes one numbered line per element |
| Engine.DataReasoningEngine.constructor | lib/data-reasoning.ts:57-60 | the engine keeps the dataset and its analysis, computed once |
| Engine.DataReasoningEngine.GenerateIntelligentPrompt | lib/data-reasoning.ts:491-559 | the lines are the prompt of the kept analysis and headers |
| Engine.CreateDataReasoningEngine | lib/data-reasoning.ts:578-580 | a new engine holding the dataset and its analysis |
| Engine.PromptEnds | lib/data-reasoning.ts:494-556 | the prompt opens with the user's request and ends with the closing sentence |
| Engine.PromptKpis | lib/data-reasoning.ts:501-504 | the KPI lines are exactly the first up to four KPIs, numbered in order |
| Engine.PromptCharts | lib/data-reasoning.ts:508-513 | the chart lines are exactly the first up to four charts, numbered in order |
| Engine.PromptFilterHeading | lib/data-reasoning.ts:524-530 | the filters heading is written exactly when there are filters |
| Engine.PromptFilters | lib/data-reasoning.ts:526-528 | the filter lines are exactly the first up to three filters |
| Engine.PromptInsights | lib/data-reasoning.ts:533-536 | an insight has a line exactly when it is among the analytical insights |
| Engine.PromptQualityHeading | lib/data-reasoning.ts:540-546 | the quality notes are written exactly when there are issues |
| Engine.PromptQuality | lib/data-reasoning.ts:542-544 | an issue has a line exactly when it is among the quality issues |
| Engine.ListedKinds | lib/data-reasoning.ts:501-546 | each listed block holds lines of its own kind only |
| Memory.Jaccard | lib/memory.ts:117-123 | NaN (None) exactly when both sets are empty; otherwise in [0, 1] |
| Memory.JaccardOne | lib/memory.ts:104-106 | the ratio is 1 exactly for equal, non-empty sets |
| Memory.JaccardZero | lib/memory.ts:104-106 | the ratio is 0 exactly for disjoint sets that are not both empty |
| Memory.Similarity | lib/memory.ts:99-115 | NaN exactly when the column ratio is; otherwise in [0, 1] |
| Memory.SimilarityDefined | lib/memory.ts:106-114 | the similarity is NaN exactly when both column lists or both type records are empty |
| Memory.SelfSimilarity | lib/memory.ts:99-115 | a schema with columns and types has similarity exactly 1 with itself |
| Memory.SimilarityOne | lib/memory.ts:99-115 | similarity 1 implies equal lowercased column names and equal type-value sets |
| Memory.WeightedOne | lib/memory.ts:114 | 0.7 c + 0.3 t = 1 with c, t in [0, 1] only when both are 1 |
| Memory.DisjointColumnsIrrelevant | lib/memory.ts:79 | with no common lowercased column name the similarity is at most 0.3, so the pattern is never kept |
| Memory.Scores | lib/memory.ts:74-78 | one scored entry per fetched pattern, in order |
| Memory.Unscored | lib/memory.ts:82-90 | the patterns of the scored entries, in order |
| Memory.RelevantPatterns | lib/memory.ts:93-96 | a failed query gives no patterns |
| Memory.RankedFrom | lib/memory.ts:73-81 | each ranked entry is a relevant score of a fetched pattern |
| Memory.RankingBounds | lib/memory.ts:79-81 | at most five patterns, each fetched and with similarity above 0.3 |
| Memory.RankingOrdered | lib/memory.ts:80 | the returned patterns come in non-increasing similarity |
| Memory.RankingStable | lib/memory.ts:80 | ties keep the fetched (most recent first) order |
| Memory.RankingComplete | lib/memory.ts:79-81 | with at most five relevant patterns fetched, each of them is returned |
| Memory.PatternStore.constructor | lib/memory.ts:40 | the table starts empty |
| Memory.PatternStore.StoreDashboardPattern | lib/memory.ts:26-53 | a successful write appends the pattern with the context's schema and prompt; a failed one is swallowed and changes nothing |
| Memory.FlatMapMembers | lib/memory.ts:137 | an item is in the flattened list exactly when some pattern lists it |
| Memory.Items | lib/memory.ts:142-144 | one item line per element |
| Memory.Collect | lib/memory.ts:137 | the loop over the patterns computes the `flatMap` |
| Memory.ItemLoop | lib/memory.ts:142-144 | the `forEach` writes one line per capped item |
| Memory.WriteBlock | lib/memory.ts:137-146 | a block is its heading and the capped, deduplicated items |
| Memory.GenerateMemoryEnhancedPrompt | lib/memory.ts:125-175 | the lines are the memory prompt of the patterns |
| Memory.MemoryPromptEnds | lib/memory.ts:129-172 | without patterns the prompt is the original; otherwise it starts with it and ends with the closing request |
| Memory.BlockBounds | lib/memory.ts:140-146 | a block lists distinct items, at most its cap (5 successes, 3 mistakes, 3 practices) |
| Memory.BlockParts | lib/memory.ts:140-170 | a block holds its heading and items of its own list only |
| Memory.BlockItems | lib/memory.ts:138-144 | an item is listed exactly when it is among the first cap-many distinct items |
| Memory.MemoryPromptItems | lib/memory.ts:137-170 | an item line appears exactly when the item is among the first cap-many distinct items the patterns list, in first-occurrence order |
| Memory.MemoryItemsFromPatterns | lib/memory.ts:137-170 | every listed item was listed by some pattern |
| Memory.Matching | lib/memory.ts:182-198 | at most one message per rule |
| Memory.MatchingMembers | lib/memory.ts:182-198 | a message is produced exactly when one of its rules' tests holds |
| Memory.MatchingNoDups | lib/memory.ts:182-198 | with distinct messages no message is produced twice |
| Memory.SuccessRulesDistinct | lib/memory.ts:182-198 | the 13 success messages are distinct |
| Memory.MistakeRulesDistinct | lib/memory.ts:208-222 | the five mistake messages are distinct |
| Memory.ExtractSuccessfulElements | lib/memory.ts:178-201 | the pushes give the messages of the rules that hold, in rule order |
| Memory.ChartElements | lib/memory.ts:182-186 | the chart `if`s push the messages of the chart rules that hold |
| Memory.CardElements | lib/memory.ts:189-190 | the card and filter `if`s push their messages |
| Memory.LayoutElements | lib/memory.ts:191-193 | the date, grid and responsive `if`s push their messages |
| Memory.DataElements | lib/memory.ts:196-198 | the data-pattern `if`s push their messages |
| Memory.MatchingConcat | lib/memory.ts:182-198 | consecutive groups of `if`s produce their messages in turn |
| Memory.SuccessfulElementsFacts | lib/memory.ts:178-201 | the elements are distinct, at most 13, and a message is present exactly when its test holds on the code |
| Memory.MistakesOfError | lib/memory.ts:208-222 | the five `if`s push the messages of the rules that hold on the error |
| Memory.AccessMistakes | lib/memory.ts:208-213 | the data-access `if`s push their messages |
| Memory.SetupMistakes | lib/memory.ts:214-222 | the chart-setup `if`s push their messages |
| Memory.ExtractCommonMistakes | lib/memory.ts:204-226 | the mistakes of every error in turn, without repetitions, in first-occurrence order |
| Memory.MistakesOfMembers | lib/memory.ts:207-223 | a message is collected exactly when its test holds on some error |
| Memory.CommonMistakesFacts | lib/memory.ts:204-226 | the mistakes are distinct, at most five of the fixed messages, and a message is present exactly when its test holds on some error |
| Memory.CreateEnhancedMemoryContext | lib/memory.ts:229-252 | the columns, types and prompt are kept; the reasoning fields are set exactly when insights are given, from those insights |
| FollowUp.MatchesAreDistinct | lib/follow-up-helpers.ts:17-20 | over a list without repetitions, the count is the number of distinct keywords occurring |
| FollowUp.KeywordListsDistinct | lib/follow-up-helpers.ts:11-14 | no keyword list repeats a keyword |
| FollowUp.CountsAreDistinctKeywords | lib/follow-up-helpers.ts:8-20 | each intent's count is the number of its distinct keywords in the lowercased message |
| FollowUp.Confidence | lib/follow-up-helpers.ts:37 | in (0, 1] for a positive total, 1 from three matches on, 0 for none |
| FollowUp.DetectFollowUpIntent | lib/follow-up-helpers.ts:3-44 | a follow-up exactly for a positive total; no match gives general with confidence 0; otherwise the primary intent, never general, with confidence min(total/3, 1) |
| FollowUp.DetectFromCounts | lib/follow-up-helpers.ts:22-43 | the same decision, for given counts |
| FollowUp.KeywordCounts | lib/follow-up-helpers.ts:8-20 | the four counts of the lowercased message |
| FollowUp.PrimaryIntent | lib/follow-up-helpers.ts:28-35 | the intent of the strictly greatest count, ties going to the earliest of add, modify, fix and style |
| FollowUp.PrimaryUnique | lib/follow-up-helpers.ts:28-35 | the primary intent is determined by the counts |
| FollowUp.TaskFor | lib/follow-up-helpers.ts:53-97 | the default block exactly for a string other than the four intent names |
| FollowUp.FollowUpInstructions | lib/follow-up-helpers.ts:46-98 | the instructions start with the base block, followed by the block of the intent |
| FollowUp.InstructionsQuoteRequest | lib/follow-up-helpers.ts:47-51 | the instructions quote the user's request, whatever the intent |
| FollowUp.DetectedIntentTask | lib/follow-up-helpers.ts:53-97 | a detected intent selects its own block, and 'general' the default one |
| DashboardRules.ValidateDashboardStructure | lib/dashboard-rules.ts:142-149 | a header, KPI cards, charts and a grid are each mentioned in one of their two spellings (no contract beyond the definition; `StructureMonotone` is its property) |
| DashboardRules.ValidateChartTypes | lib/dashboard-rules.ts:151-156 | no forbidden type occurs in the lowercased text (no contract beyond the definition; `ChartTypesExactly` and `ChartTypesMonotone` are its properties) |
| DashboardRules.ChartTypesExactly | lib/dashboard-rules.ts:151-156 | the check passes exactly when none of progress, gauge and speedometer occurs in the lowercased text |
| DashboardRules.SomeIncludedAppend | lib/dashboard-rules.ts:153-155 | a contained type stays contained after text is appended |
| DashboardRules.StructureMonotone | lib/dashboard-rules.ts:142-149 | appending text keeps a valid structure valid |
| DashboardRules.ChartTypesMonotone | lib/dashboard-rules.ts:151-156 | appending text never turns a failed chart-type check into a pass |
| DashboardRules.AllowedForbiddenDisjoint | lib/dashboard-rules.ts:19-33 | no type is both allowed and forbidden |
| DashboardRules.ChartTypesAllowed | lib/dashboard-rules.ts:19-33 | every chart type name is allowed and none is forbidden |
| DashboardRules.RecommendedChartsAllowed | lib/data-reasoning.ts:197-279 | every recommended chart's type is allowed, not forbidden, and one of line, bar, pie, scatter and histogram |
| CompletionRoute.TrimHistory | app/api/get-next-completion-stream-promise/route.ts:35-37 | up to ten messages are kept as they are; more become exactly ten |
| CompletionRoute.Kept | app/api/get-next-completion-stream-promise/route.ts:35-37 | the kept positions: all of them up to ten, otherwise ten |
| CompletionRoute.WindowIsSubsequence | app/api/get-next-completion-stream-promise/route.ts:36 | the window is the input at strictly increasing kept positions: the first three, then the last seven |
| CompletionRoute.KeptPositions | app/api/get-next-completion-stream-promise/route.ts:36 | beyond ten messages a position is kept exactly when it is among the first three or the last seven |
| CompletionRoute.EndsKept | app/api/get-next-completion-stream-promise/route.ts:35-37 | the first and the last message are always kept |
| CompletionRoute.NothingFabricated | app/api/get-next-completion-stream-promise/route.ts:36 | every message of the window is one of the input's |
| Seqs.SortDescOrders | lib/data-reasoning.ts:179-182 | the stable sort yields non-increasing keys |
| Seqs.SortDescPermutes | lib/data-reasoning.ts:179-182 | the sort is a permutation |
| Seqs.SortDescStable | lib/data-reasoning.ts:179-182 | elements with the same key keep their order |
| Seqs.Dedup | lib/memory.ts:138 | `[...new Set(xs)]`: the elements without repetition, in first-occurrence order |
| Text.Lower | lib/data-reasoning.ts:82 | `toLowerCase` character by character, keeping the length |
| Text.LastSegment | lib/data-parser.ts:12 | the text after the last '.'; all of the text when it has no dot |

## Left out

- Parsing libraries: Papa.parse, `JSON.parse`, `XLSX.read` and `sheet_to_json` are not modelled. They are opaque functions from the file's bytes to records (`Records.Decoders`), because they are foreign code.
- JavaScript coercions: `Number()`, `Date.parse` and `isNaN` are not modelled. Their rules are engine-specific, so they are parameters (`TypeInference.Coercion`); only the rule order is modelled.
- Case mapping: `toLowerCase` and `toUpperCase` change ASCII letters only. Other characters are left as they are.
- Exact wording: prompts, summaries, warnings and instructions are not modelled as text. They are lists of line values carrying the numbers and elements they show, and `toFixed`/`toLocaleString` are not modelled.
  - FollowUp.BaseInstructions: models only the opening sentence and the quoted request of the base block.
  - FollowUp.TaskText: models only the first words of each task block.
- Chart labels: chart titles, descriptions and reasoning texts are not modelled. Neither are the KPI description and formula texts. They follow from the modelled plot and metric and carry no decision.
- Memory.CreateEnhancedMemoryContext: keeps the chart and KPI recommendations themselves instead of their `type: title` and `metric (cardType)` labels.
- Prisma: the write of `storeDashboardPattern` is reduced to whether it succeeds. Fetching is reduced to the fetched list, or None for a failed query. The 30-day window with its clock, the newest-first order and the limit of 20 belong to the database query.
- JSON of stored patterns: the (de)serialisation is not modelled. Patterns hold their decoded fields.
- Filesystem: the reads, the writes and the directory creation of the two routes are not modelled. The directory listing is an input. The outcomes of `ensureUploadDir` and of writing the file are two booleans (`dirReady`, tested first, and `written`). A read failure is an entry whose content is None.
- nanoid: the new `fileId` is a parameter.
- Responses: NextRequest/NextResponse plumbing is modelled only as the status decision and the returned values. The response's size, MIME type, path and date fields are left out.
- Upload errors: the 500 of an upload is reported as `DirFailed` or `WriteFailed`, without the error's message. A failure of `request.formData()` is not modelled.
- Memory.Similarity: computes `0.7 * columnSimilarity + 0.3 * typeSimilarity` in exact rationals, while the source computes it, and the Jaccard ratios, in IEEE doubles. Two scores equal as rationals can differ as doubles (0.7 × 4/7 + 0.3 × 1/3 gives 0.49999999999999994, 0.7 × 1/2 + 0.3 × 1/2 gives 0.5), so the source's sort can order patterns that `Memory.Ranked` keeps in fetched order. `Memory.RankingOrdered` and `Memory.RankingStable` are statements about exact scores. The `> 0.3` threshold agrees with double arithmetic.
- Memory.SelfSimilarity: requires a non-empty type record. With an empty one the source's type ratio is 0/0, NaN, so the similarity is NaN and there is nothing to prove.
- Insights: the type counts are taken over `Object.values(dataTypes)`, which the model takes to be one entry per header in header order. Every importer builds the type record that way.
- Insights.InsightsOf: computes the business context with `inferBusinessContext` directly. The source's `this.insights?.businessContext` is always unset at that point, because `generateAnalyticalInsights` runs only inside the constructor, before `this.insights` is assigned.
- Records.JsonRecords: JSON array items other than objects and `null` (numbers, strings, booleans, nested arrays) are not modelled. JavaScript reads them through `Object.keys` and indexing as objects with index properties; the model's decoder yields only objects and `null`.
- Records.Keys: a record that repeats a property name is read at the name's first occurrence. The decoders are taken to yield JavaScript objects, which never repeat a name; how `JSON.parse` settles a repeated member (it keeps the last value) belongs to the decoder.
- `extractDashboardContext`: not modelled, because it would need a regex engine.
- The GET handlers of the two routes: not modelled, because they only return static text.
- Model calls: the Together AI and Helicone calls and the zod validation of the completion route are not modelled. They are remote calls and schema plumbing.
- UI and configuration: the components, the example and documentation files, and the configuration are not modelled.
