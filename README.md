# CloudConvert node: a verified model of its logic

The CloudConvert node lets an automation workflow talk to the CloudConvert REST API. For each input
item, `execute` does one of the following, then turns the answer into output items:

- lists jobs or tasks (optionally with `filter[...]` query parameters), or creates one from JSON typed into a field;
- builds a job for one of the `file` operations: convert, capture website, thumbnail, watermark, merge, archive.

A file job is a graph that maps stage names to task objects. It is posted to `/jobs`. When the run waits
for the job and asks for a download, the node finds the job's `export/url` task and takes its files.

The request helper chooses one of four API hosts, from the credentials' sandbox flag and the request's sync flag.
The pagination helper requests page after page until the last page comes back. The
format and job/task dropdown helpers shape the catalogue into labelled options.

The model is written in Dafny. The HTTP collaborator becomes data: a job response value, or the
sequence of pages the API serves.

| file | module | what it holds |
|---|---|---|
| `values.dfy` | `Values` | JavaScript values (`undefined`, `null`, JSON), truthiness, `?.`, `.length`, `${}` |
| `text.dfy` | `Text` | `split(',')`, `trim()`, `toUpperCase()`, the name order of the sort |
| `task_graph.dfy` | `TaskGraph` | the six job graphs and the conversion-option loop |
| `extraction.dfy` | `Extraction` | finding the export files, fan-out for convert, first file for the rest |
| `generic_functions.dfy` | `GenericFunctions` | base URL and request options, the pagination loop, formats, job and task labels |
| `execution.dfy` | `Execution` | filter queries, list requests, create bodies, job submission, the item loop |

Each place where the source fills a dictionary by successive assignment or loops is a `method`:
- the `tasks` and `convertTask` objects;
- the option loop;
- the `fileIndex` loop;
- the do-while of the pagination;
- the `seen`-set loop of the format catalogue;
- the `for i` loop over the items.

Each such method is tied to a specification function, and the properties are proved as lemmas about that function. The pure parts are functions:
- the literal graphs of capture and merge;
- `split`/`trim`;
- `find`;
- the label `map`s.

Several behaviours below may surprise a reader; the model follows the code:
- **A later `sheet` wins.** The source's comment says the sheet name takes precedence (CloudConvert.node.ts:1364), but a `sheet_name` overrides `sheet` only when the option loop visits it after the `sheet` entry. A `sheet` visited later overwrites it (`TaskGraph.SheetNameOrder`).
- **`all_sheets: false` is dropped.** The source's comment says all_sheets is passed even if false (CloudConvert.node.ts:1355), but the code sets it only when it is `true` (`TaskGraph.AllSheetsOnlyTrue`).
- **`null` is kept.** The catch-all option test lets `null` through. A `sheet_name: null` entry is copied under its own key (`TaskGraph.NoSheetNameUnlessNull`).
- **Negative `sheet` values are kept.** A negative `sheet` falls through to the catch-all test and is copied. Only `0` is dropped.
- **Formats are deduplicated by exact string, not case-insensitively.** For the catalogue pdf to jpg, png and PDF the list is JPG, PDF, PNG (`GenericFunctions.FormatsExactDedup`).
- **Dangling `input: 'import'`.** Watermark and archive with a non-URL source have no `import` stage, yet their task still says `input: 'import'`.
- **Thumbnail from a task id.** The thumbnail `import` stage for a task source has no operation.
- **Convert from binary.** With no upload form URL, convert from binary data has no `import-file` stage.
- **A task id is imported as a URL.** Convert imports a task source as `import/url` with the task id as its URL.
- **Missing `data` throws.** With a download requested and no `data` in the job response, the non-convert operations throw a TypeError. That failing item becomes an `{error}` record under continue-on-fail.
- **One file goes into the JSON.** A single downloaded file is placed inside the item's JSON (`binary: {data: …}` inside `json`), not in the item's binary slot.
- **Several files are not paired.** Multi-file convert outputs carry no paired item, because they skip the common response handling.

## Model

| member | source | states |
|---|---|---|
| `Values.FalsyValues` | nodes/CloudConvert/CloudConvert.node.ts:1189-1190 | the only falsy values are undefined, null, false, 0 and '' |
| `Values.NatString` | nodes/CloudConvert/GenericFunctions.ts:153 | a number is written as decimal digits without leading zeros, and those digits denote exactly that number |
| `Text.Split` | nodes/CloudConvert/CloudConvert.node.ts:1686 | splitting gives one more piece than there are commas, and no piece contains a comma |
| `Text.JoinSplit` | nodes/CloudConvert/CloudConvert.node.ts:1686 | joining the pieces again gives back the string |
| `Text.SplitJoin` | nodes/CloudConvert/CloudConvert.node.ts:1686 | comma-free pieces are recovered by splitting their join |
| `Text.Trim` | nodes/CloudConvert/CloudConvert.node.ts:1686 | the result is the slice between leading and trailing whitespace and starts and ends with non-whitespace |
| `Text.ToUpper` | nodes/CloudConvert/GenericFunctions.ts:131 | same length, each letter upper-cased, everything else kept |
| `Text.CodePointOrder` | nodes/CloudConvert/GenericFunctions.ts:137 | the model's stand-in for localeCompare compares names by code point, so U+E000 sorts before U+10000, unlike UTF-16 code-unit order and unlike locale collation |
| `Text.LexLeTotal` | nodes/CloudConvert/GenericFunctions.ts:137 | any two names are comparable |
| `Text.LexLeTransitive` | nodes/CloudConvert/GenericFunctions.ts:137 | the name order is transitive |
| `Text.LexLeAntisymmetric` | nodes/CloudConvert/GenericFunctions.ts:137 | names ordered both ways are equal |
| `Text.LexLeReflexive` | nodes/CloudConvert/GenericFunctions.ts:137 | every name is ordered before itself |
| `TaskGraph.PassesFilterIsTruthyOrNull` | nodes/CloudConvert/CloudConvert.node.ts:1366 | the catch-all option test is truthiness plus null |
| `TaskGraph.WritesCharacterized` | nodes/CloudConvert/CloudConvert.node.ts:1354-1369 | which entries set all_sheets, sheet, sheet_name and any other key |
| `TaskGraph.LastWriter` | nodes/CloudConvert/CloudConvert.node.ts:1354-1369 | the last entry that sets a key, and that no later entry sets it |
| `TaskGraph.ApplyOptionAt` | nodes/CloudConvert/CloudConvert.node.ts:1356-1368 | one iteration sets the key it writes to the entry's value and leaves every other key alone |
| `TaskGraph.ApplyOptionsAt` | nodes/CloudConvert/CloudConvert.node.ts:1354-1369 | after the loop each key holds the value of its last writer, or what it held before |
| `TaskGraph.NoSheetNameUnlessNull` | nodes/CloudConvert/CloudConvert.node.ts:1363-1368 | sheet_name is in the output if and only if some entry is sheet_name: null |
| `TaskGraph.AllSheetsOnlyTrue` | nodes/CloudConvert/CloudConvert.node.ts:1356-1359 | all_sheets is present if and only if an entry all_sheets: true exists, and then it is true |
| `TaskGraph.OtherOptionCopiedUnlessFalsy` | nodes/CloudConvert/CloudConvert.node.ts:1366-1367 | any other option is present if and only if its value is not '', 0, undefined or false, and then unchanged |
| `TaskGraph.SheetFromLastPassing` | nodes/CloudConvert/CloudConvert.node.ts:1360-1366 | sheet is present if and only if some entry wrote it, and it holds the last such entry's value |
| `TaskGraph.SheetNameOrder` | nodes/CloudConvert/CloudConvert.node.ts:1360-1366 | sheet 0 is dropped; sheet_name wins only when it comes after sheet |
| `TaskGraph.AddConversionOptions` | nodes/CloudConvert/CloudConvert.node.ts:1354-1369 | the loop computes the fold of the per-entry rule over the entries in order |
| `TaskGraph.ConvertTaskKeeps` | nodes/CloudConvert/CloudConvert.node.ts:1343-1369 | options from the form never disturb operation, input, output_format or input_format |
| `TaskGraph.ConvertGraphShape` | nodes/CloudConvert/CloudConvert.node.ts:1287-1377 | url and task sources give exactly import-file, convert-file, export-file, with import/url, convert reading import-file and export/url reading convert-file, and a task id imported as a URL |
| `TaskGraph.ConvertFormats` | nodes/CloudConvert/CloudConvert.node.ts:1343-1351 | input_format is present if and only if the input format is non-empty; output_format is always the output format |
| `TaskGraph.ConvertImportStage` | nodes/CloudConvert/CloudConvert.node.ts:1290-1340 | the job fails if and only if the source is binary without binary data, with its message; otherwise import-file exists if and only if the source is url, task, or binary with an upload URL, and for binary it is exactly {operation: 'import/upload'} |
| `TaskGraph.ConvertWellFormed` | nodes/CloudConvert/CloudConvert.node.ts:1290-1377 | the convert job is well formed if and only if it has its import-file stage |
| `TaskGraph.ConvertStages` | nodes/CloudConvert/CloudConvert.node.ts:1290-1377 | a graph laid out like the convert job is well formed if and only if it has the import stage |
| `TaskGraph.BuildConvertTasks` | nodes/CloudConvert/CloudConvert.node.ts:1287-1377 | the stage-by-stage construction yields the convert graph or the missing-binary error |
| `TaskGraph.CaptureGraphShape` | nodes/CloudConvert/CloudConvert.node.ts:1466-1477 | capture and export stages; the capture task is exactly operation capture-website, url, output_format and the copied options; export reads capture; well formed |
| `TaskGraph.ThumbnailGraphShape` | nodes/CloudConvert/CloudConvert.node.ts:1529-1552 | an import stage exactly for url and task sources: import/url of the file URL, or only input for a task; the thumbnail task is operation thumbnail, input import, the thumbnail format and the copied options, and nothing else; export reads thumbnail |
| `TaskGraph.ThumbnailWellFormed` | nodes/CloudConvert/CloudConvert.node.ts:1529-1552 | the thumbnail job is well formed if and only if the source is a URL; a task source's import stage has no operation |
| `TaskGraph.BuildThumbnailTasks` | nodes/CloudConvert/CloudConvert.node.ts:1529-1552 | the stage-by-stage construction yields the thumbnail graph |
| `TaskGraph.WatermarkGraphShape` | nodes/CloudConvert/CloudConvert.node.ts:1604-1637 | import exists exactly for a URL source and import-watermark exactly for a non-text watermark, both import/url; export reads watermark |
| `TaskGraph.WatermarkWellFormed` | nodes/CloudConvert/CloudConvert.node.ts:1604-1637 | the watermark job is well formed if and only if the source is a URL |
| `TaskGraph.WatermarkStages` | nodes/CloudConvert/CloudConvert.node.ts:1604-1637 | a graph laid out like the watermark job is well formed if and only if it imports its input |
| `TaskGraph.WatermarkTaskShape` | nodes/CloudConvert/CloudConvert.node.ts:1614-1630 | the task's keys are exactly operation, input, output_format, the watermark option keys and one layer key; every option is copied unless the layer key overwrites it; text sets layer_text, any other type sets layer_input to import-watermark |
| `TaskGraph.BuildWatermarkTasks` | nodes/CloudConvert/CloudConvert.node.ts:1604-1637 | the stage-by-stage construction yields the watermark graph |
| `TaskGraph.MergeGraphShape` | nodes/CloudConvert/CloudConvert.node.ts:1686-1698 | the merge task is exactly operation merge, one trimmed input per comma-separated piece in order, and output format pdf; export reads merge |
| `TaskGraph.MergeInputsLoseNothing` | nodes/CloudConvert/CloudConvert.node.ts:1686 | the pieces re-join to the string and no trimmed id contains a comma |
| `TaskGraph.ArchiveGraphShape` | nodes/CloudConvert/CloudConvert.node.ts:1748-1767 | the import stage, import/url of the file URL, exists only for a URL source; the archive task is exactly operation archive, input import and the archive format; export reads archive |
| `TaskGraph.ArchiveWellFormed` | nodes/CloudConvert/CloudConvert.node.ts:1748-1767 | the archive job is well formed if and only if the source is a URL |
| `TaskGraph.BuildArchiveTasks` | nodes/CloudConvert/CloudConvert.node.ts:1748-1767 | the stage-by-stage construction yields the archive graph |
| `TaskGraph.GraphValueRoundTrip` | nodes/CloudConvert/CloudConvert.node.ts:1379-1386 | the request's tasks object carries the graph without loss: reading it back gives the same stages |
| `Extraction.FindExportTask` | nodes/CloudConvert/CloudConvert.node.ts:1395 | the index of the first task whose operation is export/url, or none if there is none |
| `Extraction.ExportFiles` | nodes/CloudConvert/CloudConvert.node.ts:1393-1398 | there are files exactly when the first export task has a files list |
| `Extraction.ExportFilesFromFirst` | nodes/CloudConvert/CloudConvert.node.ts:1395-1398 | the files are those of the first export task, whatever later ones hold |
| `Extraction.FanOutFiles` | nodes/CloudConvert/CloudConvert.node.ts:1401-1430 | n unpaired items in file order with fileIndex 0..n-1, totalFiles n and the file attached |
| `Extraction.ConvertResult` | nodes/CloudConvert/CloudConvert.node.ts:1392-1456 | no download or no data or no files passes the response through; n > 1 files fan out into n unpaired items in file order; exactly one is attached to the job data |
| `Extraction.ConvertItemResult` | nodes/CloudConvert/CloudConvert.node.ts:1392-1456 | the step-by-step result handling, fan-out loop included, yields that result |
| `Extraction.FirstFileResult` | nodes/CloudConvert/CloudConvert.node.ts:1490-1519 | other operations fail exactly when a download meets a response without data, and otherwise use only the first file when there is one |
| `Extraction.NoFilesPassThrough` | nodes/CloudConvert/CloudConvert.node.ts:1496-1498 | without an export task or with no files the response is unchanged |
| `Extraction.FirstFileOnly` | nodes/CloudConvert/CloudConvert.node.ts:1497-1500 | with several files only the first is used |
| `GenericFunctions.BaseUrl` | nodes/CloudConvert/GenericFunctions.ts:27-36 | one of four hosts, each selected by exactly one combination of sandbox and sync |
| `GenericFunctions.SyncHostReplacesPlainHost` | nodes/CloudConvert/GenericFunctions.ts:31-36 | the sync host is the plain host with sync. in front |
| `GenericFunctions.BuildRequest` | nodes/CloudConvert/GenericFunctions.ts:27-55 | url is base plus endpoint; body present if and only if it has a key, qs likewise |
| `GenericFunctions.PageQueryShape` | nodes/CloudConvert/GenericFunctions.ts:81-91 | each page query keeps the caller's keys and sets per_page 100 and page k+1 |
| `GenericFunctions.NextPageQuery` | nodes/CloudConvert/GenericFunctions.ts:91 | incrementing page turns the k-th query into the next one |
| `GenericFunctions.LastRequestIndex` | nodes/CloudConvert/GenericFunctions.ts:92-95 | the first page that stops the loop, every earlier one continuing it |
| `GenericFunctions.RequestPage` | nodes/CloudConvert/GenericFunctions.ts:85-95 | one request of the loop: the page query with per_page 100, the page's data array, and whether the loop goes on |
| `GenericFunctions.RequestAllItems` | nodes/CloudConvert/GenericFunctions.ts:71-98 | requests pages 1, 2, … with per_page 100 up to the first page without a next link or full data, and returns their data arrays concatenated in order |
| `GenericFunctions.ServedPages` | nodes/CloudConvert/GenericFunctions.ts:84-95 | N items served 100 at a time take N / 100 + 1 pages |
| `GenericFunctions.ServedPagesStop` | nodes/CloudConvert/GenericFunctions.ts:84-95 | with no next links every full page continues the loop and the loop stops at request N / 100 |
| `GenericFunctions.ServedPagesConcat` | nodes/CloudConvert/GenericFunctions.ts:84-95 | the collected data arrays of the served pages are all N items in order |
| `GenericFunctions.FirstOccurrencesDistinct` | nodes/CloudConvert/GenericFunctions.ts:124-135 | each distinct non-empty format appears once and nothing else appears |
| `GenericFunctions.FirstOccurrencesOrdered` | nodes/CloudConvert/GenericFunctions.ts:126-135 | formats keep the order of their first occurrence |
| `GenericFunctions.CollectFormats` | nodes/CloudConvert/GenericFunctions.ts:123-135 | the loop with its seen set yields the options of the first occurrences |
| `GenericFunctions.SeenStep` | nodes/CloudConvert/GenericFunctions.ts:128-134 | one round appends a new non-empty format and adds it to seen; any other round changes nothing |
| `GenericFunctions.InsertByNamePermutes` | nodes/CloudConvert/GenericFunctions.ts:137 | insertion adds exactly one option |
| `GenericFunctions.InsertByNameSorted` | nodes/CloudConvert/GenericFunctions.ts:137 | insertion keeps the list sorted by name |
| `GenericFunctions.InsertByNameDistinct` | nodes/CloudConvert/GenericFunctions.ts:137 | inserting a new value keeps values distinct |
| `GenericFunctions.SortByName` | nodes/CloudConvert/GenericFunctions.ts:137 | the result is sorted by name and a permutation of the input |
| `GenericFunctions.GetFormats` | nodes/CloudConvert/GenericFunctions.ts:103-137 | filter[input_format] is sent if and only if an input format is given; the result is sorted, free of duplicates, and a permutation of the first occurrences |
| `GenericFunctions.GetFormatsContents` | nodes/CloudConvert/GenericFunctions.ts:123-137 | every option is named by its upper-cased non-empty value, and every non-empty format is listed |
| `GenericFunctions.FormatsExactDedup` | nodes/CloudConvert/GenericFunctions.ts:124-137 | pdf to jpg, png, PDF gives JPG, PDF, PNG: values differing in case are both kept |
| `GenericFunctions.JobOption` | nodes/CloudConvert/GenericFunctions.ts:152-155 | the label is id (status), extended by " - tag" exactly when the tag is truthy; the value is the id |
| `GenericFunctions.GetJobs` | nodes/CloudConvert/GenericFunctions.ts:143-156 | one job option per collected job, same order and length |
| `GenericFunctions.GetTasks` | nodes/CloudConvert/GenericFunctions.ts:161-174 | one task option per collected task, same order and length |
| `Execution.JobFilters` | nodes/CloudConvert/CloudConvert.node.ts:1188-1190 | filter[status] and filter[tag] are present if and only if their filter is truthy, with its value |
| `Execution.TaskFilters` | nodes/CloudConvert/CloudConvert.node.ts:1239-1242 | filter[status], filter[operation] and filter[job_id] are present if and only if truthy |
| `Execution.OperationFilters` | nodes/CloudConvert/CloudConvert.node.ts:1817-1820 | filter[operation], filter[input_format] and filter[output_format] are present if and only if truthy |
| `Execution.NoFiltersNoQuery` | nodes/CloudConvert/CloudConvert.node.ts:1188-1190 | with no truthy filter the job list query is empty |
| `Execution.ListItems` | nodes/CloudConvert/CloudConvert.node.ts:1192-1199 | returnAll pages through and answers {data: items}; otherwise one request with per_page equal to the limit |
| `Execution.JobCreateBody` | nodes/CloudConvert/CloudConvert.node.ts:1164-1174 | invalid JSON fails with its message; the body is tasks plus the additional fields, which win |
| `Execution.JobCreateRequest` | nodes/CloudConvert/CloudConvert.node.ts:1160-1177 | POST /jobs with that body on the plain host, or the invalid-JSON error |
| `Execution.TaskCreateRequest` | nodes/CloudConvert/CloudConvert.node.ts:1216-1228 | invalid JSON fails with its message; otherwise POST /taskType with the task data as body when it has keys |
| `Execution.SubmitJob` | nodes/CloudConvert/CloudConvert.node.ts:1379-1386 | POST /jobs with {tasks}, on the sync host exactly when waiting for completion |
| `Execution.RunConvert` | nodes/CloudConvert/CloudConvert.node.ts:1278-1456 | a graph error ends the item before any request; otherwise the job is submitted and the item's outcome is the convert result handling of the response, which passes it through without wait and download |
| `Execution.RunFileJob` | nodes/CloudConvert/CloudConvert.node.ts:1479-1519 | the job is submitted and the answer uses at most the first file; it can fail only when downloading |
| `Execution.CollectStaysFailed` | nodes/CloudConvert/CloudConvert.node.ts:1849 | once an error escapes, later items change nothing |
| `Execution.Execute` | nodes/CloudConvert/CloudConvert.node.ts:1154-1853 | the item loop computes the collected outputs, or the first error that is not captured |
| `Execution.ContinueOnFailNeverFails` | nodes/CloudConvert/CloudConvert.node.ts:1840-1847 | with continue-on-fail the run always succeeds |
| `Execution.FirstErrorPropagates` | nodes/CloudConvert/CloudConvert.node.ts:1840-1849 | without continue-on-fail the run fails if and only if some item fails, with the first failure's message |
| `Execution.ErrorRecordsInPosition` | nodes/CloudConvert/CloudConvert.node.ts:1840-1847 | with one output per item, output i belongs to item i and each failing item leaves exactly one {error: message} record there |
| `Execution.ConvertResultUnpaired` | nodes/CloudConvert/CloudConvert.node.ts:1401-1430 | the items the convert fan-out pushes carry no paired item |
| `Execution.OutputsPairedWithItem` | nodes/CloudConvert/CloudConvert.node.ts:1834-1849 | under continue-on-fail, with answers of any size, the outputs paired with item i are exactly its own; a failing item has exactly one, its {error: message} record; no output is paired with an item that does not exist |

Definitions of JavaScript and host-library meaning, used by the members above and carrying no claim of their own:
- `Values.Field`, `Values.Prop`, `Values.JsLength`: property access `r.key`, optional chaining `v?.key` and `v?.length`. `Prop` also stands for the plain reads `job.id` and `task.id` in the label loaders.
- `TaskGraph.GraphValue`: the graph as the JSON object sent under `tasks` (see `GraphValueRoundTrip`).
- `GenericFunctions.TaskOption`: the task label of GenericFunctions.ts:170-173 (used by `GetTasks`).
- `Execution.JsonItems`: `returnJsonArray` with `constructExecutionMetaData` (used by `Execute`).

## Left out

- HTTP I/O is not modelled. This covers the authenticated request, the multipart upload handshake, and the file downloads with `prepareBinaryData`. Responses are parameters: a job response value, the upload form URL, and the sequence of pages. An output file is represented by its url and filename, not its bytes.
- Errors raised by the HTTP layer (`NodeApiError`) and by downloads appear only as failed item outcomes given to `Execute`.
- `JSON.parse` is modelled as its outcome: an `Option` that is `None` when the text is not JSON.
- Execution.TaskCreateRequest: task data that parses to something other than an object is not modelled. `null` makes `Object.keys` throw. Anything with no own keys (a number, a boolean, an empty string or an empty array) goes out with no body, because the body is deleted when `Object.keys` is empty (GenericFunctions.ts:49-51). A non-empty string or array would be sent as it is.
- These operations are not modelled: job get, delete and wait; task get, delete, cancel, retry and wait; user getMe. Each sends one request, which the model's `BuildRequest` covers. All but getMe put an id in the endpoint; getMe sends `GET /users/me` with no id (CloudConvert.node.ts:1829). Job delete and task delete replace the API's answer with `{ success: true }` (CloudConvert.node.ts:1205, 1257).
- The declarative UI description, the `loadOptions` wrappers and the credentials file are configuration, not behaviour.
- Numbers are integers. NaN, fractions and JavaScript's distinction of integer-like keys are not modelled.
- Objects are maps, so the key order of JSON objects and of `Object.entries` over a record is not modelled. The order of the conversion options is given as a sequence of entries.
- Text.ToUpper: only ASCII letters are upper-cased. Full Unicode case mapping, such as `ß` becoming `SS`, is out of scope.
- GenericFunctions.RequestAllItems: the do-while at GenericFunctions.ts:84-95 never ends when the server keeps answering with a `links.next` or with full pages. The model requires a stopping page among the served pages (`Terminates`), so a server that never stops is assumed away, here and in `ListItems`, `GetJobs` and `GetTasks`.
- Execution.ErrorRecordsInPosition: the positional form (output i belongs to item i) needs every item to yield exactly one output. Array answers and fanned-out files break positions, and for them the model states the pairing instead (`OutputsPairedWithItem`).
- Text.CodePointOrder: this member records where the model departs from GenericFunctions.ts:137, not what that line does. Under the Unicode Collation Algorithm, `localeCompare` would put the private-use U+E000 after every assigned character, so U+10000 would come first.
- GenericFunctions.SortByName: the locale collation of `localeCompare` is replaced by code-point order on names. This is not UTF-16 code-unit order either: U+10000 sorts after U+E000 here. The model proves it is a total order. The result is sorted and a permutation, but the stability of the engine's sort is not stated.
- GenericFunctions.GetJobs: list elements are assumed to be objects. A `null` job makes `job.id` throw a TypeError at GenericFunctions.ts:153; the model reads it as `undefined`.
- GenericFunctions.GetTasks: likewise, a `null` task makes `task.id` throw at GenericFunctions.ts:171; the model reads it as `undefined`.
- GenericFunctions.GetFormats: catalogue entries whose format is not a string are not modelled. A missing format is the empty string.
- Execution.JsonItems: `returnJsonArray` also unwraps items that already carry a `json` key. API responses never do, so this is not modelled.
- The requests of `ListItems` mutate the caller's query object in the source. The model states each request's query instead.
