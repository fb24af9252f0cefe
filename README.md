# Snowflake credit-usage analyzer: detection engine in Dafny

This project models the analysis engine of the Streamlit "Snowflake Credit
Usage Analyzer". Given one snapshot of query-history records, the analyzer
runs six heuristic detectors. Each detector returns a table of issues, and
every issue has a severity (CRITICAL, HIGH, MEDIUM or LOW):

- cartesian joins: a lexical test on the upper-cased SQL text, plus a
  rows-produced versus bytes-scanned "row explosion" test;
- memory spilling: to local or remote storage;
- warehouse sizing: records are grouped by (warehouse, size) and each group
  can yield "Oversized Warehouse" and "Warehouse Queuing";
- poor partition pruning;
- low cache usage;
- long compilation.

The dashboard then builds a "Key Recommendations Summary" with one line per
non-empty table, or an all-clear message. It also shows the 20 records with
the longest execution time.

Modules, one per component:

- `Telemetry` (telemetry.dfy): the record and issue datatypes, `Option` for
  missing values, and the derived EXECUTION_TIME_SEC column. All times are
  integer milliseconds, as the warehouse reports them.
- `SqlText` (sql_text.dfy): upper-casing and Python's substring test
  `p in s`. The test is computed by a left-to-right scan and proved equal to
  "some index starts an occurrence".
- `RowDetectors` (row_detectors.dfy): the five per-row detectors. Each is a
  method whose loop appends at most one issue per record. It is proved equal
  to `Collect(f, rs)`, where `f` is that detector's per-record firing
  function. Generic lemmas about `Collect` give the shape of every such
  table.
- `WarehouseSizing` (warehouse_sizing.dfy): grouping by key, dropping records
  whose warehouse name or size is missing, with groups in ascending key
  order. Then the per-group aggregates (mean and count of execution time,
  sum of overload-queue time) and the loop that emits the group issues.
- `TopOffenders` (top_offenders.dfy): the top-20 selection. Execution time
  is largest first and missing times go last. The model breaks ties by
  input order. Bytes scanned are converted to GB.
- `Analysis` (analysis.dfy): running every detector once over the same
  snapshot, the summary rollup, and the empty-snapshot "no data" state.

Ratios are written in `real`, as the source writes them (`a / b * 100 > 50`).
Lemmas restate each threshold as an integer cross-multiplication. A missing
value takes the default the source gives it: `0` or `1` through
`x if pd.notna(x) else d`. Where the source gives no default, a missing
value is a NaN, and every comparison with a NaN is false.

The thresholds are those streamlit_app.py uses (lines 103, 174, 185, 209, 233
and 258).

## Model

| member | source | states |
|---|---|---|
| `Telemetry.ExecutionSeconds` | streamlit_app.py:58 | EXECUTION_TIME_SEC is present iff the execution time is, and equals it divided by 1000 |
| `SqlText.UpperText` | streamlit_app.py:93 | the text the tests read is the query text, or "None" when it is missing, with each letter a to z upper-cased and every other character kept; a missing text becomes "NONE" |
| `SqlText.ContainsIffMentions` | streamlit_app.py:95-98 | the scanning substring test `p in s` holds iff some index of `s` starts an occurrence of `p` |
| `SqlText.MissingTextHasNoJoin` | streamlit_app.py:93-98 | a missing query text prints as "None", so neither JOIN nor CROSS JOIN is found in it |
| `RowDetectors.Collect` | streamlit_app.py:92-128 | the table a per-row scan builds is no longer than the snapshot; its shape is given by `CollectShape` |
| `RowDetectors.CollectShape` | streamlit_app.py:92-128 | a per-row scan emits at most one issue per record: the picked indices ascend, the k-th issue is the one found in the k-th picked record, a record is picked iff its firing test fires, and the table is no longer than the input |
| `RowDetectors.CollectEmptyIff` | streamlit_app.py:90-128 | a scan's table is empty iff no record fires, so an empty snapshot gives an empty table |
| `RowDetectors.CollectQueryIds` | streamlit_app.py:116-117 | when a detector copies the record's QUERY_ID, the k-th issue carries the QUERY_ID of the k-th picked record |
| `RowDetectors.PerRowDetectorsKeepQueryIds` | streamlit_app.py:117 | each of the five per-row detectors copies the flagged record's QUERY_ID into its issue |
| `RowDetectors.CartesianFinding` | streamlit_app.py:105-126 | a cartesian issue is a CartesianJoin row with the record's QUERY_ID |
| `RowDetectors.RowExplosionIff` | streamlit_app.py:100-103 | row explosion holds iff the row count is present and rows > 1 000 000 and rows > 10 * max(bytes, 1), with missing bytes counted as 1; it never fires on a missing row count |
| `RowDetectors.CartesianFindingIff` | streamlit_app.py:93-114 | a record is flagged iff (JOIN and neither ON nor USING) or CROSS JOIN appears in the upper-cased text, or row explosion holds; severity is CRITICAL iff one of the textual tests fired, else HIGH; the reasons are non-empty and name exactly the tests that fired |
| `RowDetectors.AnalyzeCartesianJoins` | streamlit_app.py:88-128 | the loop's table equals `Collect(CartesianFinding, rs)` and is no longer than the input |
| `RowDetectors.SpillFinding` | streamlit_app.py:135-150 | a spill issue is raised iff local or remote spill bytes are present and positive; it is CRITICAL iff remote spill is positive, otherwise MEDIUM |
| `RowDetectors.AnalyzeSpilling` | streamlit_app.py:130-155 | the loop's table equals `Collect(SpillFinding, rs)` and is no longer than the input |
| `RowDetectors.PruningFinding` | streamlit_app.py:206-218 | a pruning issue is a MEDIUM PoorPruning row with the record's QUERY_ID |
| `RowDetectors.PruningFindingIff` | streamlit_app.py:203-209 | a record is flagged iff partitions total is present and > 100, and scanned * 100 > 50 * total (missing scanned counts as 0); a missing or zero total never fires, so nothing is divided by zero |
| `RowDetectors.AnalyzePoorPruning` | streamlit_app.py:198-223 | the loop's table equals `Collect(PruningFinding, rs)` |
| `RowDetectors.CacheFinding` | streamlit_app.py:233-240 | a cache issue is a LOW LowCacheUsage row with the record's QUERY_ID |
| `RowDetectors.CacheFindingIff` | streamlit_app.py:230-233 | a record is flagged iff its cache percentage (missing counts as 0) is < 20 and its execution time is present and > 10 000 ms |
| `RowDetectors.AnalyzeCacheEfficiency` | streamlit_app.py:225-245 | the loop's table equals `Collect(CacheFinding, rs)` |
| `RowDetectors.CompilationFinding` | streamlit_app.py:258-264 | a compilation issue is a MEDIUM LongCompilation row with the record's QUERY_ID |
| `RowDetectors.CompilationFindingIff` | streamlit_app.py:252-258 | a record is flagged iff compile time is present and > 5 000 ms and compile * 100 > 30 * max(total, 1), with a missing total counted as 1 |
| `RowDetectors.AnalyzeLongCompilation` | streamlit_app.py:247-269 | the loop's table equals `Collect(CompilationFinding, rs)` |
| `WarehouseSizing.GroupKeys` | streamlit_app.py:161 | there are no more group keys than records; `GroupKeysCorrect` states which keys they are and their order |
| `WarehouseSizing.InsertKeyCorrect` | streamlit_app.py:161 | adding a key to the ascending, duplicate-free group list keeps it ascending and adds exactly that key |
| `WarehouseSizing.GroupKeysCorrect` | streamlit_app.py:161-164 | the groups are exactly the (warehouse, size) keys some record carries, each once, in ascending order; a record with a missing name or size forms no group |
| `WarehouseSizing.Grouped` | streamlit_app.py:161-164 | one aggregate row per group key, in key order, carrying that key's sum of present execution times, its count of present execution times and its sum of overload-queue time |
| `WarehouseSizing.MeanExecSeconds` | streamlit_app.py:169 | the group mean is defined iff some execution time was counted, and mean * 1000 * count equals the summed milliseconds |
| `WarehouseSizing.MeanBelowFiveSeconds` | streamlit_app.py:169-174 | the group's mean EXECUTION_TIME_SEC is defined and < 5 iff it has a counted execution time and the summed milliseconds are < 5 000 per counted query |
| `WarehouseSizing.GroupIssues` | streamlit_app.py:174-194 | a group yields at most two issues, each naming that group's warehouse and size and its query count; `GroupIssuesIff` states when each appears |
| `WarehouseSizing.GroupIssuesIff` | streamlit_app.py:166-194 | a group yields at most two issues: "Oversized Warehouse" (MEDIUM, carrying the group mean) first iff its mean is under 5 s and its size is LARGE to 4X-LARGE, then "Warehouse Queuing" (HIGH, carrying the queue sum) iff its summed overload-queue time exceeds 30 000 ms; both name the group and its query count |
| `WarehouseSizing.SizingIssuesBounded` | streamlit_app.py:166-196 | the sizing table has at most two issues per group, and each issue names the warehouse and size of one of the groups |
| `WarehouseSizing.SizingIssuesEmptyIff` | streamlit_app.py:166-196 | the sizing table is empty iff no group yields an issue |
| `WarehouseSizing.AnalyzeWarehouseSizing` | streamlit_app.py:157-196 | the loop's table equals the group-by-group issues of the grouped snapshot, at most two per distinct key |
| `WarehouseSizing.SizingAsWritten` | streamlit_app.py:166-174 | the sizing detector as written: when it stops with an error, the group it stops at has a mean under 5 s |
| `WarehouseSizing.SizingAsWrittenAgrees` | streamlit_app.py:166-174 | as written, the detector returns a table iff no group has a mean under 5 s, and that table is then the intended one; otherwise it stops at the first such group in key order |
| `WarehouseSizing.OneFastLargeQueryRaises` | streamlit_app.py:161-174 | for one 1 000 ms query on a LARGE warehouse, the intended detector reports one oversized warehouse, while the code as written stops with an error |
| `TopOffenders.InsertByTimeCorrect` | streamlit_app.py:425 | inserting a record into a list ordered by descending execution time keeps it ordered and adds exactly that record |
| `TopOffenders.SortByTime` | streamlit_app.py:425 | the ordering has as many records as the snapshot; `SortByTimeCorrect` states it is descending and a permutation |
| `TopOffenders.SortByTimeCorrect` | streamlit_app.py:425 | the ordering of the snapshot is descending by execution time (missing last) and is a permutation of the snapshot |
| `TopOffenders.Selected` | streamlit_app.py:425 | the shown records are the first min(20, n) of the ordering |
| `TopOffenders.SelectedCorrect` | streamlit_app.py:425-427 | the table holds min(20, n) records in descending order; shown and left-out records together are the whole snapshot; no left-out record ran longer than any shown record |
| `TopOffenders.ToOffender` | streamlit_app.py:426-430 | a top-offender row keeps the record's QUERY_ID and execution time, and its GB value times 1024^3 equals the bytes scanned |
| `TopOffenders.TopQueries` | streamlit_app.py:425-430 | the top-offenders table has min(20, n) rows, the i-th being the i-th selected record |
| `Analysis.RunDetectors` | streamlit_app.py:341-346 | every detector runs once over the same snapshot; each per-row table is no longer than the snapshot, and the sizing table has at most two issues per group |
| `Analysis.CriticalCount` | streamlit_app.py:498 | the CRITICAL count is at most the table size, and is zero iff no row is CRITICAL |
| `Analysis.CriticalSpillsAreRemoteSpills` | streamlit_app.py:498 | the number of CRITICAL spill issues equals the number of records whose remote spill bytes are positive |
| `Analysis.LinesUpToReported` | streamlit_app.py:492-511 | the summary lines list exactly the non-empty tables, each once, in table order, each with its table's size; the spilling line carries the CRITICAL count |
| `Analysis.SummaryLinesCorrect` | streamlit_app.py:492-517 | the full list of summary lines reports every non-empty table and is empty iff all six tables are empty |
| `Analysis.ReportedEmptyIff` | streamlit_app.py:513-517 | a complete summary has no line iff all six tables are empty |
| `Analysis.Summarize` | streamlit_app.py:492-517 | the all-clear message appears iff every table is empty; otherwise there is one line per non-empty table, in table order, with its size and the CRITICAL spill count |
| `Analysis.AllClearIff` | streamlit_app.py:494-517 | all six tables are empty iff no record fires any per-row detector and no warehouse group yields a sizing issue |
| `Analysis.AnalyzeSnapshot` | streamlit_app.py:271-532 | an empty snapshot shows only "no data"; otherwise the dashboard shows the detector tables and the top 20; the summary is the all-clear message iff every table is empty, and otherwise has one line per non-empty table, in table order, with its size; the spilling line's critical count equals the number of records with remote spill |

## Left out

- Loading data is not modelled: `load_query_history` and `load_warehouse_metering`, the Snowpark session and the 300-second `st.cache_data` cache. These are I/O against the warehouse. The snapshot is a parameter.
- Rendering is not modelled: Streamlit metrics, tabs, data frames, Plotly charts and the best-practices text. The warehouse-metering credit totals are shown only. The hourly trend needs pandas timestamp `floor('H')`.
- The REASON text with its `' | '` joins, the RECOMMENDATION strings and the display rounding (`round(..., 1|2)`) are not modelled. Reasons are kept as a sequence of reason tags in the same order. GB and percentage values are exact reals, not rounded.
- The `max` aggregate of the sizing detector is not modelled. It is computed but never used by an issue.
- Floating point is not modelled: the ratios and means are exact reals, so rounding right at a threshold is not captured.
- `SqlText.Upper`: maps only the letters a to z. Python's `str.upper` also maps non-ASCII letters, and can change the length (for example ß becomes SS).
- A missing QUERY_TEXT is taken to print as "None" (the value `str(None)`). A NaN would print as "nan". Neither contains JOIN, so detection is the same.
- `TopOffenders.SelectedCorrect`: does not state the order of records with equal execution times. With more than 20 records (missing times included), `nlargest(keep='first')` keeps them in input order. With 20 or fewer records, pandas sorts with an unstable sort, and their order is unspecified. The model breaks ties by input order in both cases, and proves no order among ties.
- The pandas data-frame machinery itself is not modelled: `iterrows`, dtype conversion of integer columns holding NaN, and the `groupby` internals. Grouping is modelled as dropping missing keys, with groups sorted by key. Warehouse size matches LARGE to 4X-LARGE only when it is spelled exactly so.
- `WarehouseSizing.AnalyzeWarehouseSizing`, `Analysis.RunDetectors`, `Analysis.AnalyzeSnapshot`: these model the intended sizing detector, not the code as written (see Findings). As written, the script stops inside the sizing detector (line 343) whenever some group's mean is under 5 s. That snapshot then shows no pruning, cache or compilation table, no top 20 and no summary. `SizingAsWrittenAgrees` states when this happens.
- As written, the WAREHOUSE and SIZE cells of a "Warehouse Queuing" row hold one-element Series, not strings. The model puts the strings there.
- serve_docs.py is not part of this model. It is a static HTTP file server.

## Findings

| source | as written | input that shows it | evidently intended | confidence | as-written member | corrected member |
|---|---|---|---|---|---|---|
| streamlit_app.py:161-174 | after the two-level aggregation, `row['WAREHOUSE_SIZE']` is a one-element Series, so `size in [...]` raises as soon as a group's mean is under 5 s | one record on warehouse "WH", size "LARGE", execution time 1 000 ms | compare the size string, and report "Oversized Warehouse" (MEDIUM) for that group | medium, from reading pandas' column indexing; not executed | `WarehouseSizing.SizingAsWritten`, `WarehouseSizing.OneFastLargeQueryRaises` | `WarehouseSizing.GroupIssues`, `WarehouseSizing.GroupIssuesIff` |
