# Process dashboard: verified model of its sequential logic

The dashboard is a Next.js application. It has a process-flow editor, a
generic data table, a charts panel and a report panel that exports a PDF, plus
a report endpoint that condenses a simulation dataset before asking a language
model for a write-up. Most of it is rendering. This project models the parts
that compute, in Dafny, and proves what they promise:

- **Process-flow editor** (`process_flow.dfy`). The node and edge lists form a
  class with `seq` fields. Its six handlers assign the results of pure list
  functions. Every handler keeps every edge endpoint a node id (referential
  integrity) and keeps ids distinct. Each one states what it changes and that
  nothing else changes.
- **Table view** (`table.dfy`). The data flows filter → sort → paginate.
  - Filtering keeps an order-preserving subsequence.
  - Sorting is a sorted, stable permutation (`stable_sort.dfy` holds the
    generic stable insertion sort it relies on).
  - The pages lie in bounds and concatenate back to the sorted list.
  - A `TableView` class holds the page, sort and filter state. Its handlers
    keep the page within 1..total pages.
- **Report endpoint** (`report_route.dfy`). It covers the no-key branch with
  its fixed text, the KPI statistics (min, max, mean, count) and the stable
  top five by descending KPI, with a missing KPI counting as 0.
- **Charts panel** (`charts.dfy`).
  - The loading/error gate.
  - The label and KPI series.
  - The fuel-temperature scatter loop and the nested aggregation loops, each a
    method proved equal to a specification function.
  - The guarded average, which lies between the least and greatest value
    collected.
- **Report panel** (`report_gen.dfy`).
  - The PDF export is a trace of the calls made on the document, driven by the
    vertical cursor `y`.
  - Wrapped body lines are always drawn between heights 10 and 280.
  - The footer gets its own page exactly when the cursor is past 270.
  - The panel also covers the AI-report request's state changes and the
    five-scenario sample.

Shared pieces: `wrappers.dfy` (Option), `seqs.dfy` (find-first and filter over
sequences), `stats.dfy` (sum, min, max and mean bounds over reals) and
`mock_data.dfy` (the dataset shape the panels and the endpoint read).

## Model

| member | source | states |
|---|---|---|
| ProcessFlow.InitialNodes | components/ProcessFlowEditor.tsx:23-26 | the initial node list holds two nodes with distinct ids ("n1" Tank A of type 1, "n2" Pump B of type 2) |
| ProcessFlow.Editor.constructor | components/ProcessFlowEditor.tsx:23-28 | the editor starts with the two initial nodes and no edges, with integrity and distinct ids holding |
| ProcessFlow.Changed | components/ProcessFlowEditor.tsx:42 | an update keeps the node's id and changes only the chosen field (name or type) to the new value |
| ProcessFlow.UpdateNodes | components/ProcessFlowEditor.tsx:39-45 | same length and ids in the same order; the node with the id gets the change, every other node is unchanged |
| ProcessFlow.UpdateUnknownNodeIsNoop | components/ProcessFlowEditor.tsx:39-45 | updating an id that no node has leaves the list unchanged |
| ProcessFlow.UpdateNodesKeepsIds | components/ProcessFlowEditor.tsx:39-45 | the set of node ids is the same after an update, so no edge loses its endpoint |
| ProcessFlow.Retargeted | components/ProcessFlowEditor.tsx:75 | an edge update keeps the edge id and the other endpoint and sets the chosen endpoint to the target |
| ProcessFlow.UpdateEdges | components/ProcessFlowEditor.tsx:68-78 | same length and ids; the edge with the id is retargeted, every other edge is unchanged |
| ProcessFlow.UpdateUnknownEdgeIsNoop | components/ProcessFlowEditor.tsx:68-78 | updating an id that no edge has leaves the edge list unchanged |
| ProcessFlow.EdgesWithout | components/ProcessFlowEditor.tsx:81 | no edge with the id remains, every edge with another id stays, and nothing new appears |
| ProcessFlow.NewEdge | components/ProcessFlowEditor.tsx:56-63 | an edge is made exactly when there are at least two nodes, and it runs from the first node to the second |
| ProcessFlow.FilterKeepsDistinct | components/ProcessFlowEditor.tsx:48-53 | removing entries by a filter keeps ids distinct |
| ProcessFlow.RemoveNodeKeepsIntact | components/ProcessFlowEditor.tsx:47-54 | removing a node together with every edge that touches it keeps all remaining edge endpoints node ids |
| ProcessFlow.RemoveNodeEffects | components/ProcessFlowEditor.tsx:47-54 | after `NodesWithout` and `EdgesAvoiding`: no node has the id, no edge touches it, every other node and untouched edge remains, both lists are subsequences of the old ones, integrity and distinct ids hold |
| ProcessFlow.Editor.AddNode | components/ProcessFlowEditor.tsx:30-37 | given a fresh id, exactly one node (empty name, type 1) is appended; earlier nodes and all edges are unchanged; integrity holds |
| ProcessFlow.Editor.UpdateNode | components/ProcessFlowEditor.tsx:39-45 | nodes become the updated list, edges are unchanged, integrity and distinct ids hold |
| ProcessFlow.Editor.RemoveNode | components/ProcessFlowEditor.tsx:47-54 | no node has the id and no edge touches it; every other node and every untouched edge survives, in the original order; integrity holds |
| ProcessFlow.Editor.AddEdge | components/ProcessFlowEditor.tsx:56-66 | with fewer than two nodes nothing changes; otherwise one edge from the first to the second node is appended; nodes are unchanged |
| ProcessFlow.Editor.UpdateEdge | components/ProcessFlowEditor.tsx:68-78 | given a target that is a node id, only the chosen endpoint of the matching edge changes; nodes are unchanged; integrity holds |
| ProcessFlow.Editor.RemoveEdge | components/ProcessFlowEditor.tsx:80-82 | no edge keeps the id, every other edge survives in order, nodes are unchanged |
| Table.Lower | components/table.tsx:21 | lowercasing keeps the length and maps each character on its own |
| Table.FilteredSpec | components/table.tsx:18-24 | `Filtered` keeps a row exactly when some field, lowercased, contains the lowercased filter, and keeps it as many times as it occurs in the data; the kept rows are an order-preserving subsequence of the data |
| Table.EmptyFilterMatches | components/table.tsx:19-22 | the empty filter matches a row exactly when the row has at least one field |
| Table.EmptyFilterKeepsAll | components/table.tsx:18-24 | with empty filter text every row that has a field is kept, so the data comes back unchanged |
| StableSort.SortFacts | components/table.tsx:28-35 | the stable sort yields a permutation, ordered by key, in which the rows sharing a key keep their input order |
| Table.ToggleSort | components/table.tsx:43-50 | clicking selects the column; on the current column the direction flips, on another it becomes ascending |
| Table.ToggleTwiceRestores | components/table.tsx:43-50 | two clicks on the current column restore the sort state |
| Table.SortedView | components/table.tsx:26-36 | the `sorted` memo has as many rows as the filtered rows; it sorts only for a non-empty column name |
| Table.SortedViewPermutes | components/table.tsx:28-35 | sorting by any column is a permutation of the filtered rows, and keeps the column on every row when every row had it |
| Table.SortedViewOrdered | components/table.tsx:28-35 | ascending order is non-decreasing on the column and descending order non-increasing |
| Table.SortedViewStable | components/table.tsx:28-35 | rows with equal keys keep their filtered order |
| Table.UnsortedViewIsFiltered | components/table.tsx:27 | with no sort column, or with the empty column name (falsy), the view is the filtered rows unsorted |
| Table.TotalPages | components/table.tsx:38 | at least one page, enough pages to hold every row, and the last page holds a row unless there is just one page |
| Table.SafePage | components/table.tsx:39 | the safe page is the requested page or the last page, whichever is smaller, so a page ≥ 1 gives a safe page within 1..total pages |
| Table.PageStart | components/table.tsx:40 | page 1 starts at row 0 and page k ends at row k·rows per page, where page k + 1 starts |
| Table.VisibleRows | components/table.tsx:39-41 | the visible rows are the contiguous slice at (safe page − 1)·rows per page, at most one page long, and non-empty when the list is |
| Table.Pages | components/table.tsx:38-41 | one entry per page number 1..total pages |
| Table.PageSlice | components/table.tsx:40-41 | page k is the slice from (k − 1)·rows per page, cut at the page size or the end of the list |
| Table.PagesPrefix | components/table.tsx:38-41 | the first k pages concatenate to the first k·rows per page rows |
| Table.PagesPartition | components/table.tsx:38-41 | all pages concatenate back to the sorted list |
| Table.PrevPage | components/table.tsx:118 | "previous" never goes below 1 and never moves forward |
| Table.NextPage | components/table.tsx:119 | "next" never goes past the total and moves forward while there is a later page |
| Table.PrevNextInverse | components/table.tsx:118-119 | away from the clamps, next undoes previous and previous undoes next |
| Table.TableView.constructor | components/table.tsx:12-16 | page 1, no sort column, ascending, empty filter |
| Table.TableView.Visible | components/table.tsx:38-41 | the rows shown fit on one page and are non-empty whenever the sorted rows are |
| Table.TableView.HandleSort | components/table.tsx:43-50 | the sort state becomes the toggled one; page and filter are unchanged; the page stays in range |
| Table.TableView.SetFilterText | components/table.tsx:57-60 | a filter change resets the page to 1 and keeps the sort |
| Table.TableView.Prev | components/table.tsx:118 | the page becomes the clamped previous page and stays within 1..total pages |
| Table.TableView.Next | components/table.tsx:119 | the page becomes the clamped next page and stays within 1..total pages |
| ReportRoute.Handle | app/api/report/route.ts:7-75 | with no key the answer is the fixed demonstration text; with a key and no dataset the request fails; otherwise the KPI statistics and top scenarios of the simulated list are forwarded |
| MockData.SimulatedData | app/api/report/route.ts:33 | a missing simulated list, at any level, reads as empty |
| ReportRoute.KpiValues | app/api/report/route.ts:35-37 | the numeric KPI values are exactly the present values of the entries, and none exist exactly when no entry has one |
| ReportRoute.KpiValuesAlign | app/api/report/route.ts:35-37 | the values line up index by index with the entries that have a numeric KPI value, so a value carried by several entries is counted once per entry |
| ReportRoute.StatsAbsentIff | app/api/report/route.ts:39-40 | `StatsOf` is absent exactly when no entry has a numeric KPI value |
| ReportRoute.StatsPresentSpec | app/api/report/route.ts:40-53 | for `StatsOf`: count is the number of all entries; min and max are KPI values bounding all of them; min ≤ avg ≤ max; avg is their sum over their number |
| ReportRoute.Ranked | app/api/report/route.ts:55-57 | the ranked copy has as many entries as the input |
| ReportRoute.TopScenariosSpec | app/api/report/route.ts:55-63 | the ranking is a stable permutation, non-increasing in `KpiOrZero` (missing as 0); `TopScenarios` has min(5, n) entries, each the `Project` of the entry ranked at its place, and no entry left out ranks above a kept one |
| Seqs.Find | components/Charts.tsx:135-140 | find returns the element at the first index that satisfies the test, and nothing exactly when no element does |
| Charts.ScenarioLabels | components/Charts.tsx:100 | one label per scenario, index by index |
| Charts.KpiSeries | components/Charts.tsx:101 | one KPI value per scenario, index by index |
| Charts.FirstValue | components/Charts.tsx:138-140 | the value of the first variable with the name, absent exactly when none has it |
| Charts.FuelTemperature | components/Charts.tsx:135-140 | the fuel temperature is read from the first "Fuel" equipment only, and is absent when there is none |
| Charts.ScatterOfOne | components/Charts.tsx:134-147 | `PointsOf` gives a scenario one point, (its fuel temperature, its KPI value), exactly when it has a fuel temperature, and none otherwise |
| Charts.ScatterStep | components/Charts.tsx:134-147 | the points of one more scenario extend those of the scenarios before it |
| Charts.ScatterAppend | components/Charts.tsx:134-147 | `ScatterPoints` of consecutive scenario runs are concatenated in scenario order |
| Charts.FuelScatterPoints | components/Charts.tsx:134-147 | the loop pushes exactly the scatter points of the scenarios |
| Charts.HitOf | components/Charts.tsx:183-206 | an equipment entry adds at most one value to a bucket |
| Charts.StepCollects | components/Charts.tsx:183-206 | one update of a bucket keeps it equal to the sum and count of what it has collected |
| Charts.StepNext | components/Charts.tsx:182-207 | visiting the next equipment entry extends the collected values by that entry's hit |
| Charts.AddScenario | components/Charts.tsx:182-207 | the inner loop adds one scenario's hits to each of the three buckets |
| Charts.Aggregate | components/Charts.tsx:174-209 | each bucket ends as `Bucket`: the sum and count of `Hits`, the first matching variable of every matching equipment entry of every scenario |
| Charts.BucketAverage | components/Charts.tsx:211 | `Average` of a bucket is 0 when it collected nothing and otherwise lies between the least and greatest value collected |
| Charts.ChartsOf | components/Charts.tsx:211-218 | three bars in the order Fuel, Air, Cold Fluid, each the mean of its bucket's values or 0 for an empty bucket; one label and one KPI value per scenario |
| Charts.PanelView | components/Charts.tsx:82-101 | loading shows the loading note; charts exactly when loading is over, there is no error and the list is present; else the error text, or the default text when there is no error; series line up with the scenarios; three bars |
| Charts.Render | components/Charts.tsx:82-218 | the component body computes exactly the panel view |
| ReportGen.LinesInBounds | components/ReportGen.tsx:79-86 | `LinesLayout` from any cursor at or below the top margin draws every wrapped line at a height in [10, 280], the cursor stays at or below 10, and after a non-empty run it is at most 285 |
| ReportGen.LinesTexts | components/ReportGen.tsx:78-86 | the strings drawn are exactly the wrapped lines in order |
| ReportGen.LinesWithoutBreak | components/ReportGen.tsx:79-86 | while the lines fit above the limit no page is added and each line moves the cursor down 5 |
| ReportGen.LinesStep | components/ReportGen.tsx:79-86 | one line: a page break and a reset to 10 when the cursor is past 280, then the line, then 5 down |
| ReportGen.DrawStep | components/ReportGen.tsx:79-86 | one turn of the per-line loop: after a page break and a reset to 10 when the cursor is past 280, the line drawn and the layout of the remaining lines still make up the whole run |
| ReportGen.DrawLines | components/ReportGen.tsx:79-86 | the per-line loop makes exactly the calls of the lines' layout and leaves the cursor where it says |
| ReportGen.SectionCursor | components/ReportGen.tsx:70-89 | `SectionLayout` of a missing or empty text draws nothing and keeps the cursor; otherwise the cursor ends 10 lower when there are no lines and at most 289 when there are; it never rises above 10 |
| ReportGen.SectionDraws | components/ReportGen.tsx:70-89 | a drawn section opens with font size 11, bold, the heading at the cursor, normal font; its lines lie within [10, 280]; it never ends on a page break |
| ReportGen.SectionTexts | components/ReportGen.tsx:70-89 | a drawn section draws its heading and then exactly its wrapped lines |
| ReportGen.AddWrappedText | components/ReportGen.tsx:70-89 | the closure makes exactly the section's calls and leaves the cursor where the section layout says |
| ReportGen.SectionsSnoc | components/ReportGen.tsx:96-102 | one more section continues from where the earlier ones left the cursor |
| ReportGen.SectionsBounds | components/ReportGen.tsx:96-102 | after the sections the cursor is at or below the top margin and the last call is not a page break |
| ReportGen.SectionsOnPage | components/ReportGen.tsx:96-102 | sections that start on the page, with wrapping that keeps non-empty text non-empty, draw every string within [10, 289] and leave the cursor there |
| ReportGen.SectionsTexts | components/ReportGen.tsx:96-102 | however pages break, the sections draw their headings and lines section by section, skipping missing or empty texts |
| ReportGen.ExtendBody | components/ReportGen.tsx:96-102 | one more `addWrappedText` call extends the body laid out so far by that section |
| ReportGen.WriteSections | components/ReportGen.tsx:96-102 | the four calls make exactly the calls of the body layout and leave the cursor where it says |
| ReportGen.FrameTexts | components/ReportGen.tsx:91-110 | the title draws only the title text, and the footer, with or without its page break, only the footer text |
| ReportGen.ExportTexts | components/ReportGen.tsx:64-113 | the export draws the title, then the `ReportSections` in order (main, top and impact summaries, then the AI report), each with its heading and only when its text is set, then the footer |
| ReportGen.ExportFrame | components/ReportGen.tsx:64-113 | `ExportOps` draws nothing without data; otherwise the title comes first at height 10; `FooterOps` puts the footer at 290 and the save last; a page is added just before the footer exactly when the cursor is past 270 |
| ReportGen.SectionKeepsOnPage | components/ReportGen.tsx:70-89 | a section that starts on the page draws every string on the page and leaves the cursor on it |
| ReportGen.ExportOnPage | components/ReportGen.tsx:64-113 | when wrapping keeps every non-empty text non-empty, every string of the export, headings included, is drawn between 10 and 290 |
| ReportGen.SampleScenarios | components/ReportGen.tsx:180 | the sample is the first min(5, n) scenarios in file order |
| ReportGen.TotalScenarios | components/ReportGen.tsx:115 | the total is the number of scenarios, 0 when the list is missing |
| ReportGen.ReportPanel.constructor | components/ReportGen.tsx:22-25 | the panel starts with the loaded data and no AI summary |
| ReportGen.ReportPanel.GenerateReport | components/ReportGen.tsx:44-62 | without data nothing changes; otherwise the summary shows the pending text and then `FinalSummary`: the returned report or the failure text |
| ReportGen.ReportPanel.ExportPdf | components/ReportGen.tsx:64-113 | the handler makes exactly the export's calls on the document |

## Left out

- Rendering, styling and the Chart.js and jsPDF internals. The model records the calls made on the PDF document as a trace. Font choice and `save` are kept only as entries of that trace.
- Loading the mock results file and the `useEffect` lifecycle. The panels take the loaded data, or its absence, as parameters.
- The request to the report endpoint. The AI-report handler takes the request's outcome as a parameter: a reply carrying an optional `report`, or a failure.
- The language-model client, the prompt text built with `JSON.stringify`, and the streaming of the answer. `ReportRoute.Handle` stops at the condensed data it would send.
- The condensed data's `top_impact`, `top_variables`, `setpoint_impact_summary` and `condition_impact_summary` fields are copied through unchanged and are not modelled.
- `doc.splitTextToSize` is not part of this model. Wrapping is a function parameter from text to lines.
- `crypto.randomUUID` is not part of this model. The add handlers take the new id as a parameter that must not already be in use.
- Floating point: numbers are mathematical reals, and the average is real division.
- Lowercasing is ASCII only. JavaScript's `toLowerCase` also folds other letters.
- A table cell's `String(val)` rendering is a given text carried beside its sort key.
- Table.SortedViewOrdered and Table.SortedViewStable require every row to have the sort column. When a row lacks it, the JavaScript comparator is inconsistent and the resulting order depends on the engine. The model gives such rows the key 0. Both also take a non-empty column name: the empty name is falsy, so the rows stay unsorted, as Table.UnsortedViewIsFiltered states.
- The table's `rowsPerPage` is taken to be positive, as its default 5 is.
- Variable values are taken to be numbers, as their declared type says, so the scatter loop's `typeof` check always passes.
- The components rendered only for display are not part of this model: pagination, node table, edge table, process canvas and page.
- The report endpoint with a key but no dataset throws when it reads the summaries. The model reports this as `Crash` rather than the HTTP error the framework would send.
- ReportGen.ExportOnPage assumes that wrapping never turns a non-empty text into no lines. Without that, an empty wrap still moves the cursor 10 lower, so a later heading can fall below the footer.
