/** What the `file` operations do with the job response when the result is to be downloaded:
    find the export task, take its files, and shape the items the node outputs. Downloading
    and preparing the bytes is the collaborator's; an output here carries the file reference. */
module Extraction {
  import opened Values

  datatype ExportFile = ExportFile(url: string, filename: string)

  /** One task of the job response; `files` is `result.files`, `None` when absent. */
  datatype JobTask = JobTask(operation: string, files: Option<seq<ExportFile>>)

  /** The job response's `data`: its `tasks` list (absent is `None`) and its other properties. */
  datatype JobData = JobData(tasks: Option<seq<JobTask>>, fields: Record)

  datatype JobResponse = JobResponse(data: Option<JobData>)

  /** The JSON of one output item. */
  datatype ItemJson =
    | Response(response: JobResponse)                 // the job response, unchanged
    | JobWithBinary(job: JobData, file: ExportFile)   // `{...jobData, binary: {data: <file>}}`
    | JobFile(job: JobData, fileIndex: nat, filename: string, totalFiles: nat)
    | Data(value: Value)                             // any other response of the API
    | ErrorRecord(message: string)                   // `{error: message}`

  /** An output item: its JSON, its binary attachment and the input item it is paired with. */
  datatype OutputItem = OutputItem(json: ItemJson, binary: Option<ExportFile>, pairedItem: Option<nat>)

  /** What one input item produced: one JSON response, or output items pushed as they are. */
  datatype ItemResult = Json(json: ItemJson) | Items(items: seq<OutputItem>)

  const ExportUrl := "export/url"

  /** `jobData.tasks || []`. */
  function TasksOf(job: JobData): seq<JobTask> {
    if job.tasks.Some? then job.tasks.value else []
  }

  /** `jobTasks.find((t) => t.operation === 'export/url')`, as an index. */
  function FindExportTask(tasks: seq<JobTask>): (r: Option<nat>)
    ensures r.Some? ==> r.value < |tasks| && tasks[r.value].operation == ExportUrl
    ensures r.Some? ==> forall j :: 0 <= j < r.value ==> tasks[j].operation != ExportUrl
    ensures r.None? ==> forall j :: 0 <= j < |tasks| ==> tasks[j].operation != ExportUrl
    decreases |tasks|
  {
    if tasks == [] then None
    else if tasks[0].operation == ExportUrl then Some(0)
    else match FindExportTask(tasks[1..])
      case Some(k) => Some(k + 1)
      case None => None
  }

  /** The `files` of the first export task, `None` when there is no export task or it has no files. */
  function ExportFiles(job: JobData): (files: Option<seq<ExportFile>>)
    ensures files.Some? <==>
      exists k :: 0 <= k < |TasksOf(job)| && TasksOf(job)[k].operation == ExportUrl && TasksOf(job)[k].files.Some? &&
        forall j :: 0 <= j < k ==> TasksOf(job)[j].operation != ExportUrl
  {
    match FindExportTask(TasksOf(job))
    case None => None
    case Some(k) => TasksOf(job)[k].files
  }

  /** The export files come from the first export task, even when a later one also has files. */
  lemma ExportFilesFromFirst(job: JobData, k: nat)
    requires k < |TasksOf(job)| && TasksOf(job)[k].operation == ExportUrl
    requires forall j :: 0 <= j < k ==> TasksOf(job)[j].operation != ExportUrl
    ensures ExportFiles(job) == TasksOf(job)[k].files
  {
    var r := FindExportTask(TasksOf(job));
    assert r.Some?;
    assert !(r.value < k) && !(k < r.value);
  }

  /** The items of the multi-file branch: one per file, in file order, none paired with the input item. */
  function FanOut(job: JobData, files: seq<ExportFile>): seq<OutputItem> {
    seq(|files|, k requires 0 <= k < |files| => OutputItem(JobFile(job, k, files[k].filename, |files|), Some(files[k]), None))
  }

  /** The multi-file loop of the convert operation: one item per file, in order, none paired. */
  method FanOutFiles(job: JobData, files: seq<ExportFile>) returns (out: seq<OutputItem>)
    ensures |out| == |files|
    ensures forall k :: 0 <= k < |files| ==>
      out[k] == OutputItem(JobFile(job, k, files[k].filename, |files|), Some(files[k]), None)
    ensures out == FanOut(job, files)
  {
    out := [];
    var fileIndex := 0;
    while fileIndex < |files|
      invariant 0 <= fileIndex <= |files| && |out| == fileIndex
      invariant forall k :: 0 <= k < fileIndex ==>
        out[k] == OutputItem(JobFile(job, k, files[k].filename, |files|), Some(files[k]), None)
    {
      var fileData := files[fileIndex];
      out := out + [OutputItem(JobFile(job, fileIndex, fileData.filename, |files|), Some(fileData), None)];
      fileIndex := fileIndex + 1;
    }
  }

  /** The result handling of the convert operation. With more than one export file it fans out;
      with exactly one it attaches it to the job data; otherwise the response passes through. */
  function ConvertResult(response: JobResponse, downloadResult: bool): (r: ItemResult)
    ensures !downloadResult || response.data.None? ==> r == Json(Response(response))
    ensures downloadResult && response.data.Some? ==>
      match ExportFiles(response.data.value)
      case None => r == Json(Response(response))
      case Some(files) =>
        if |files| > 1 then
          r.Items? && |r.items| == |files| &&
          forall k :: 0 <= k < |files| ==>
            r.items[k] == OutputItem(JobFile(response.data.value, k, files[k].filename, |files|), Some(files[k]), None)
        else if |files| == 1 then r == Json(JobWithBinary(response.data.value, files[0]))
        else r == Json(Response(response))
  {
    if !downloadResult || response.data.None? then Json(Response(response))
    else
      match ExportFiles(response.data.value)
      case None => Json(Response(response))
      case Some(files) =>
        if |files| > 1 then Items(FanOut(response.data.value, files))
        else if |files| == 1 then Json(JobWithBinary(response.data.value, files[0]))
        else Json(Response(response))
  }

  /** The convert operation's result handling, step by step as the node does it. */
  method ConvertItemResult(response: JobResponse, downloadResult: bool) returns (r: ItemResult)
    ensures r == ConvertResult(response, downloadResult)
  {
    r := Json(Response(response));
    if downloadResult && response.data.Some? {
      var jobData := response.data.value;
      var files := ExportFiles(jobData);
      if files.Some? {
        if |files.value| > 1 {
          var items := FanOutFiles(jobData, files.value);
          r := Items(items);
        } else if |files.value| == 1 {
          r := Json(JobWithBinary(jobData, files.value[0]));
        }
      }
    }
  }

  /** The message JavaScript throws for `jobData.tasks` when the response has no `data`. */
  const MissingDataMessage := "Cannot read properties of undefined (reading 'tasks')"

  /** The result handling of capture website, thumbnail, watermark, merge and archive: only the first
      export file is used. These operations read `data.tasks` without checking `data`. */
  function FirstFileResult(response: JobResponse, downloadResult: bool): (r: Result<ItemResult>)
    ensures r.Err? <==> downloadResult && response.data.None?
    ensures r.Err? ==> r.message == MissingDataMessage
    ensures r.Ok? && r.value != Json(Response(response)) ==>
      downloadResult && ExportFiles(response.data.value).Some? && |ExportFiles(response.data.value).value| > 0 &&
      r.value == Json(JobWithBinary(response.data.value, ExportFiles(response.data.value).value[0]))
  {
    if !downloadResult then Ok(Json(Response(response)))
    else if response.data.None? then Err(MissingDataMessage)
    else
      var files := ExportFiles(response.data.value);
      if files.Some? && |files.value| > 0 then Ok(Json(JobWithBinary(response.data.value, files.value[0])))
      else Ok(Json(Response(response)))
  }

  /** Without an export task, or with an export task that has no files or an empty file list,
      the response is returned unchanged. */
  lemma NoFilesPassThrough(response: JobResponse, downloadResult: bool)
    requires response.data.Some?
    requires ExportFiles(response.data.value).None? || ExportFiles(response.data.value) == Some([])
    ensures FirstFileResult(response, downloadResult) == Ok(Json(Response(response)))
  {
  }

  /** With several export files, the non-convert operations use the first one only. */
  lemma FirstFileOnly(response: JobResponse, files: seq<ExportFile>)
    requires response.data.Some? && ExportFiles(response.data.value) == Some(files) && |files| > 0
    ensures FirstFileResult(response, true) == Ok(Json(JobWithBinary(response.data.value, files[0])))
  {
  }
}
