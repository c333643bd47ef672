/** The job payloads the `file` operations of the node send to `POST /jobs`: a map from
    stage name to task object, one graph per operation (convert, capture website,
    thumbnail, watermark, merge, archive). */
module TaskGraph {
  import opened Values
  import Text

  /** A job's `tasks` object: stage name to task object. */
  type Graph = map<string, Record>

  /** One `[key, value]` pair of `Object.entries(conversionOptions)`. */
  type Entry = (string, Value)

  /** The task references of an `input` property: one stage name or a list of them. */
  function Refs(input: Value): set<string> {
    match input
    case Str(s) => {s}
    case Arr(items) => set k | 0 <= k < |items| && items[k].Str? :: items[k].s
    case _ => {}
  }

  /** The stage names an operation and its `input` names stages of the same graph. */
  predicate StageOk(g: Graph, name: string)
    requires name in g
  {
    "operation" in g[name] && Refs(Field(g[name], "input")) <= g.Keys
  }

  /** Every stage names an operation and every `input` names a stage of the same graph. */
  ghost predicate WellFormed(g: Graph) {
    forall name :: name in g ==> StageOk(g, name)
  }

  /** A stage with an operation and no `input` is fine. */
  lemma StageWithoutInput(g: Graph, name: string)
    requires name in g && "operation" in g[name] && "input" !in g[name]
    ensures StageOk(g, name)
  {
  }

  /** A stage with an operation and one stage name as `input` is fine exactly when that stage exists. */
  lemma StageWithInput(g: Graph, name: string, ref: string)
    requires name in g && "operation" in g[name] && "input" in g[name] && g[name]["input"] == Str(ref)
    ensures StageOk(g, name) <==> ref in g
  {
    assert Refs(Field(g[name], "input")) == {ref};
  }

  function ImportUrlTask(url: Value): (t: Record)
    ensures t.Keys == {"operation", "url"} && t["operation"] == Str("import/url") && t["url"] == url
  {
    map["operation" := Str("import/url"), "url" := url]
  }

  function ExportTask(input: string): (t: Record)
    ensures t.Keys == {"operation", "input"} && t["operation"] == Str("export/url") && t["input"] == Str(input)
  {
    map["operation" := Str("export/url"), "input" := Str(input)]
  }

  // ---------------------------------------------------------------- conversion options

  /** The catch-all test of the option loop: the value is not `''`, `0`, `undefined` or `false`.
      Unlike truthiness it lets `null` through. */
  predicate PassesFilter(v: Value) {
    v != Str("") && v != Num(0) && v != Undefined && v != Bool(false)
  }

  lemma PassesFilterIsTruthyOrNull(v: Value)
    ensures PassesFilter(v) <==> Truthy(v) || v == Null
  {
  }

  /** What one iteration of the option loop does to the convert task. */
  function ApplyOption(task: Record, key: string, value: Value): Record {
    if key == "all_sheets" then
      (if value == Bool(true) then task["all_sheets" := Bool(true)] else task)
    else if key == "sheet" && value.Num? && value.n > 0 then task["sheet" := value]
    else if key == "sheet_name" && Truthy(value) && value != Str("") then task["sheet" := value]
    else if PassesFilter(value) then task[key := value]
    else task
  }

  /** The convert task after the option loop has visited `entries` in order. */
  function ApplyOptions(task: Record, entries: seq<Entry>): Record
    decreases |entries|
  {
    if entries == [] then task
    else
      var last := entries[|entries| - 1];
      ApplyOption(ApplyOptions(task, entries[..|entries| - 1]), last.0, last.1)
  }

  /** Entry `e` assigns property `k` of the convert task (and then always with `e`'s value). */
  predicate Writes(e: Entry, k: string) {
    if e.0 == "all_sheets" then k == "all_sheets" && e.1 == Bool(true)
    else if e.0 == "sheet_name" && Truthy(e.1) then k == "sheet"
    else if e.0 == "sheet" && e.1.Num? && e.1.n > 0 then k == "sheet"
    else k == e.0 && PassesFilter(e.1)
  }

  /** Which entries write which key, per key. */
  lemma WritesCharacterized(e: Entry, k: string)
    ensures k == "all_sheets" ==> (Writes(e, k) <==> e == ("all_sheets", Bool(true)))
    ensures k == "sheet_name" ==> (Writes(e, k) <==> e == ("sheet_name", Null))
    ensures k == "sheet" ==> (Writes(e, k) <==> (e.0 == "sheet" && PassesFilter(e.1)) || (e.0 == "sheet_name" && Truthy(e.1)))
    ensures k !in {"all_sheets", "sheet", "sheet_name"} ==> (Writes(e, k) <==> e.0 == k && PassesFilter(e.1))
  {
  }

  /** The index of the last entry that writes `k`, if any. */
  function LastWriter(entries: seq<Entry>, k: string): (j: Option<nat>)
    ensures j.Some? ==> j.value < |entries| && Writes(entries[j.value], k)
    ensures j.Some? ==> forall i :: j.value < i < |entries| ==> !Writes(entries[i], k)
    ensures j.None? ==> forall i :: 0 <= i < |entries| ==> !Writes(entries[i], k)
    decreases |entries|
  {
    if entries == [] then None
    else if Writes(entries[|entries| - 1], k) then Some(|entries| - 1)
    else LastWriter(entries[..|entries| - 1], k)
  }

  lemma ApplyOptionAt(task: Record, e: Entry, k: string)
    ensures Writes(e, k) ==> k in ApplyOption(task, e.0, e.1) && ApplyOption(task, e.0, e.1)[k] == e.1
    ensures !Writes(e, k) ==> (k in ApplyOption(task, e.0, e.1) <==> k in task)
    ensures !Writes(e, k) && k in task ==> ApplyOption(task, e.0, e.1)[k] == task[k]
  {
  }

  /** The value of every property after the loop: the value of the last entry that writes it,
      or else what the task held before the loop. */
  lemma {:induction false} ApplyOptionsAt(task: Record, entries: seq<Entry>, k: string)
    ensures LastWriter(entries, k).Some? ==>
      k in ApplyOptions(task, entries) && ApplyOptions(task, entries)[k] == entries[LastWriter(entries, k).value].1
    ensures LastWriter(entries, k).None? ==>
      (k in ApplyOptions(task, entries) <==> k in task) &&
      (k in task ==> ApplyOptions(task, entries)[k] == task[k])
    decreases |entries|
  {
    if entries != [] {
      var n := |entries|;
      var init := entries[..n - 1];
      ApplyOptionsAt(task, init, k);
      ApplyOptionAt(ApplyOptions(task, init), entries[n - 1], k);
      if !Writes(entries[n - 1], k) {
        assert LastWriter(entries, k) == LastWriter(init, k);
        if LastWriter(init, k).Some? {
          assert entries[LastWriter(init, k).value] == init[LastWriter(init, k).value];
        }
      }
    }
  }

  /** The loop never leaves a `sheet_name` property, except for a `sheet_name` entry whose value
      is `null`: that one fails the truthiness test and passes the catch-all test. */
  lemma NoSheetNameUnlessNull(task: Record, entries: seq<Entry>)
    requires "sheet_name" !in task
    ensures "sheet_name" in ApplyOptions(task, entries) <==>
      exists j :: 0 <= j < |entries| && entries[j] == ("sheet_name", Null)
  {
    ApplyOptionsAt(task, entries, "sheet_name");
    forall j | 0 <= j < |entries| ensures Writes(entries[j], "sheet_name") <==> entries[j] == ("sheet_name", Null) {
      WritesCharacterized(entries[j], "sheet_name");
    }
  }

  /** `all_sheets` is set only to `true`, and only by an entry `all_sheets: true`. */
  lemma AllSheetsOnlyTrue(task: Record, entries: seq<Entry>)
    requires "all_sheets" !in task
    ensures "all_sheets" in ApplyOptions(task, entries) <==>
      exists j :: 0 <= j < |entries| && entries[j] == ("all_sheets", Bool(true))
    ensures "all_sheets" in ApplyOptions(task, entries) ==> ApplyOptions(task, entries)["all_sheets"] == Bool(true)
  {
    ApplyOptionsAt(task, entries, "all_sheets");
    forall j | 0 <= j < |entries| ensures Writes(entries[j], "all_sheets") <==> entries[j] == ("all_sheets", Bool(true)) {
      WritesCharacterized(entries[j], "all_sheets");
    }
  }

  predicate DistinctKeys(entries: seq<Entry>) {
    forall i, j :: 0 <= i < j < |entries| ==> entries[i].0 != entries[j].0
  }

  /** The falsy-omits rule: any other option is copied unchanged unless its value is
      `''`, `0`, `undefined` or `false`, in which case it is absent. */
  lemma OtherOptionCopiedUnlessFalsy(task: Record, entries: seq<Entry>, j: nat)
    requires DistinctKeys(entries)
    requires j < |entries| && entries[j].0 !in {"all_sheets", "sheet", "sheet_name"}
    requires entries[j].0 !in task
    ensures entries[j].0 in ApplyOptions(task, entries) <==>
      entries[j].1 !in [Str(""), Num(0), Undefined, Bool(false)]
    ensures entries[j].0 in ApplyOptions(task, entries) ==> ApplyOptions(task, entries)[entries[j].0] == entries[j].1
  {
    var k := entries[j].0;
    ApplyOptionsAt(task, entries, k);
    forall i | 0 <= i < |entries| ensures Writes(entries[i], k) <==> i == j && PassesFilter(entries[j].1) {
      WritesCharacterized(entries[i], k);
    }
  }

  /** The final `sheet` comes from the last entry that passed its own test: a `sheet` entry that
      passes the catch-all test (a positive number among others), or a truthy `sheet_name`. */
  lemma SheetFromLastPassing(task: Record, entries: seq<Entry>)
    requires "sheet" !in task
    ensures "sheet" in ApplyOptions(task, entries) <==> exists j :: 0 <= j < |entries| && Writes(entries[j], "sheet")
    ensures forall j :: 0 <= j < |entries| && Writes(entries[j], "sheet") && LastWriterIs(entries, "sheet", j) ==>
      "sheet" in ApplyOptions(task, entries) && ApplyOptions(task, entries)["sheet"] == entries[j].1
  {
    ApplyOptionsAt(task, entries, "sheet");
    forall j | 0 <= j < |entries| && Writes(entries[j], "sheet") && LastWriterIs(entries, "sheet", j)
      ensures LastWriter(entries, "sheet") == Some(j)
    {
      var w := LastWriter(entries, "sheet");
      assert w.Some?;
      assert !(w.value < j) && !(j < w.value);
    }
  }

  /** A `sheet` entry equal to 0 is dropped and a `sheet_name` wins over a `sheet` only when the
      loop visits it later; visited first, it is overwritten by a positive `sheet`. */
  lemma SheetNameOrder()
    ensures ApplyOptions(map[], [("sheet", Num(0))]) == map[]
    ensures ApplyOptions(map[], [("sheet", Num(3)), ("sheet_name", Str("Sheet2"))]) == map["sheet" := Str("Sheet2")]
    ensures ApplyOptions(map[], [("sheet_name", Str("Sheet2")), ("sheet", Num(3))]) == map["sheet" := Num(3)]
  {
    var twoA: seq<Entry> := [("sheet", Num(3)), ("sheet_name", Str("Sheet2"))];
    var twoB: seq<Entry> := [("sheet_name", Str("Sheet2")), ("sheet", Num(3))];
    assert twoA[..1] == [("sheet", Num(3))];
    assert twoB[..1] == [("sheet_name", Str("Sheet2"))];
  }

  /** No entry after the `j`th writes `k`. */
  predicate LastWriterIs(entries: seq<Entry>, k: string, j: nat) {
    forall i :: j < i < |entries| ==> !Writes(entries[i], k)
  }

  /** The option loop (`for (const [key, value] of Object.entries(conversionOptions))`). */
  method AddConversionOptions(task: Record, entries: seq<Entry>) returns (r: Record)
    ensures r == ApplyOptions(task, entries)
  {
    r := task;
    for i := 0 to |entries|
      invariant r == ApplyOptions(task, entries[..i])
    {
      var (key, value) := entries[i];
      if key == "all_sheets" {
        if value == Bool(true) {
          r := r[key := Bool(true)];
        }
      } else if key == "sheet" && value.Num? && value.n > 0 {
        r := r[key := value];
      } else if key == "sheet_name" && Truthy(value) && value != Str("") {
        r := r["sheet" := value];
      } else if value != Str("") && value != Num(0) && value != Undefined && value != Bool(false) {
        r := r[key := value];
      }
      assert entries[..i + 1][..i] == entries[..i];
    }
    assert entries[..|entries|] == entries;
  }

  // ---------------------------------------------------------------- convert

  /** The parameters of the convert operation. `hasBinary` says whether the item carries the
      binary property; `uploadUrl` is the form URL of the upload task the collaborator created
      (`''` when its response has none). */
  datatype ConvertParams = ConvertParams(
    inputSource: string,
    fileUrl: string,
    inputTaskId: string,
    binaryProperty: string,
    hasBinary: bool,
    uploadUrl: string,
    inputFormat: string,
    outputFormat: string,
    options: seq<Entry>)

  /** The `import-file` stage, if any, for the input source. */
  function ImportFileStages(p: ConvertParams): Graph {
    if p.inputSource == "url" then map["import-file" := ImportUrlTask(Str(p.fileUrl))]
    else if p.inputSource == "task" then map["import-file" := ImportUrlTask(Str(p.inputTaskId))]
    else if p.inputSource == "binary" && p.uploadUrl != "" then map["import-file" := map["operation" := Str("import/upload")]]
    else map[]
  }

  /** The convert task before the option loop. */
  function ConvertBase(p: ConvertParams): Record {
    var base := map["operation" := Str("convert"), "input" := Str("import-file"), "output_format" := Str(p.outputFormat)];
    if p.inputFormat != "" then base["input_format" := Str(p.inputFormat)] else base
  }

  function ConvertTask(p: ConvertParams): Record {
    ApplyOptions(ConvertBase(p), p.options)
  }

  /** The convert job, or the error thrown when the binary input is missing. */
  function ConvertGraph(p: ConvertParams): Result<Graph> {
    if p.inputSource == "binary" && !p.hasBinary then
      Err("No binary data found for property \"" + p.binaryProperty + "\"")
    else
      Ok(ImportFileStages(p)["convert-file" := ConvertTask(p)]["export-file" := ExportTask("convert-file")])
  }

  /** None of the options writes the properties the node itself sets on the convert task
      (the option fields of the node's form never do). */
  predicate NoReservedOptions(entries: seq<Entry>, reserved: set<string>) {
    forall j, k :: 0 <= j < |entries| && k in reserved ==> !Writes(entries[j], k)
  }

  const ConvertReserved: set<string> := {"operation", "input", "output_format", "input_format"}

  lemma ConvertTaskKeeps(p: ConvertParams, k: string)
    requires NoReservedOptions(p.options, ConvertReserved) && k in ConvertReserved
    ensures (k in ConvertTask(p) <==> k in ConvertBase(p)) && (k in ConvertBase(p) ==> ConvertTask(p)[k] == ConvertBase(p)[k])
  {
    ApplyOptionsAt(ConvertBase(p), p.options, k);
  }

  /** With a URL or task source the job is exactly import-file, convert-file, export-file,
      chained by their `input`s (so well formed, by `ConvertWellFormed`); a task source is
      imported as a URL equal to the task id. */
  lemma ConvertGraphShape(p: ConvertParams)
    requires p.inputSource == "url" || p.inputSource == "task"
    requires NoReservedOptions(p.options, ConvertReserved)
    ensures ConvertGraph(p).Ok?
    ensures ConvertGraph(p).value.Keys == {"import-file", "convert-file", "export-file"}
    ensures ConvertGraph(p).value["import-file"] ==
      ImportUrlTask(Str(if p.inputSource == "url" then p.fileUrl else p.inputTaskId))
    ensures "operation" in ConvertGraph(p).value["convert-file"] && ConvertGraph(p).value["convert-file"]["operation"] == Str("convert")
    ensures "input" in ConvertGraph(p).value["convert-file"] && ConvertGraph(p).value["convert-file"]["input"] == Str("import-file")
    ensures ConvertGraph(p).value["export-file"] == ExportTask("convert-file")
  {
    ConvertTaskKeeps(p, "operation");
    ConvertTaskKeeps(p, "input");
    var imports := map["import-file" := ImportUrlTask(Str(if p.inputSource == "url" then p.fileUrl else p.inputTaskId))];
    assert ImportFileStages(p) == imports;
    StagesAfterImport(imports, ConvertTask(p));
  }

  /** The two stages the convert job adds after its `import-file` stage. */
  lemma StagesAfterImport(imports: Graph, task: Record)
    requires imports.Keys == {"import-file"}
    ensures imports["convert-file" := task]["export-file" := ExportTask("convert-file")].Keys == {"import-file", "convert-file", "export-file"}
    ensures imports["convert-file" := task]["export-file" := ExportTask("convert-file")]["import-file"] == imports["import-file"]
    ensures imports["convert-file" := task]["export-file" := ExportTask("convert-file")]["convert-file"] == task
  {
  }

  /** `input_format` is sent exactly when the input format is non-empty; `output_format` always. */
  lemma ConvertFormats(p: ConvertParams)
    requires NoReservedOptions(p.options, ConvertReserved)
    ensures "input_format" in ConvertTask(p) <==> p.inputFormat != ""
    ensures "input_format" in ConvertTask(p) ==> ConvertTask(p)["input_format"] == Str(p.inputFormat)
    ensures "output_format" in ConvertTask(p) && ConvertTask(p)["output_format"] == Str(p.outputFormat)
  {
    ConvertTaskKeeps(p, "input_format");
    ConvertTaskKeeps(p, "output_format");
  }

  /** A binary source fails without binary data; with it, the job has an `import-file` stage, `{operation: 'import/upload'}`, only
      when the upload task returned a form URL. Any other source emits no `import-file` stage. */
  lemma ConvertImportStage(p: ConvertParams)
    ensures ConvertGraph(p).Err? <==> p.inputSource == "binary" && !p.hasBinary
    ensures ConvertGraph(p).Err? ==> ConvertGraph(p).message == "No binary data found for property \"" + p.binaryProperty + "\""
    ensures ConvertGraph(p).Ok? ==>
      ("import-file" in ConvertGraph(p).value <==>
        p.inputSource in {"url", "task"} || (p.inputSource == "binary" && p.uploadUrl != ""))
    ensures p.inputSource == "binary" && p.hasBinary && p.uploadUrl != "" ==>
      ConvertGraph(p).value["import-file"] == map["operation" := Str("import/upload")]
  {
  }

  /** The convert job is well formed exactly when it has its `import-file` stage; without it
      the convert task's input dangles. */
  lemma ConvertWellFormed(p: ConvertParams)
    requires NoReservedOptions(p.options, ConvertReserved)
    requires ConvertGraph(p).Ok?
    ensures WellFormed(ConvertGraph(p).value) <==> "import-file" in ConvertGraph(p).value
  {
    var g := ConvertGraph(p).value;
    var imports := ImportFileStages(p);
    ConvertTaskKeeps(p, "operation");
    ConvertTaskKeeps(p, "input");
    if "import-file" in g {
      assert imports.Keys == {"import-file"};
      StagesAfterImport(imports, ConvertTask(p));
    } else {
      assert imports == map[];
    }
    ConvertStages(g, "import-file" in g);
  }

  /** Any graph laid out like the convert job is well formed exactly when it has its import stage. */
  lemma ConvertStages(g: Graph, imported: bool)
    requires g.Keys == (if imported then {"import-file"} else {}) + {"convert-file", "export-file"}
    requires imported ==> "operation" in g["import-file"] && "input" !in g["import-file"]
    requires "operation" in g["convert-file"] && "input" in g["convert-file"] && g["convert-file"]["input"] == Str("import-file")
    requires g["export-file"] == ExportTask("convert-file")
    ensures WellFormed(g) <==> imported
  {
    StageWithInput(g, "convert-file", "import-file");
    if imported {
      StageWithoutInput(g, "import-file");
      StageWithInput(g, "export-file", "convert-file");
    }
  }

  /** The convert branch of `execute`: the graph is filled in stage by stage. */
  method BuildConvertTasks(p: ConvertParams) returns (r: Result<Graph>)
    ensures r == ConvertGraph(p)
  {
    var tasks: Graph := map[];
    if p.inputSource == "url" {
      tasks := tasks["import-file" := ImportUrlTask(Str(p.fileUrl))];
    } else if p.inputSource == "task" {
      tasks := tasks["import-file" := ImportUrlTask(Str(p.inputTaskId))];
    } else if p.inputSource == "binary" {
      if !p.hasBinary {
        return Err("No binary data found for property \"" + p.binaryProperty + "\"");
      }
      if p.uploadUrl != "" {
        tasks := tasks["import-file" := map["operation" := Str("import/upload")]];
      }
    }
    assert tasks == ImportFileStages(p);
    var convertTask: Record := map["operation" := Str("convert"), "input" := Str("import-file"), "output_format" := Str(p.outputFormat)];
    if p.inputFormat != "" {
      convertTask := convertTask["input_format" := Str(p.inputFormat)];
    }
    assert convertTask == ConvertBase(p);
    convertTask := AddConversionOptions(convertTask, p.options);
    tasks := tasks["convert-file" := convertTask];
    tasks := tasks["export-file" := ExportTask("convert-file")];
    r := Ok(tasks);
  }

  // ---------------------------------------------------------------- capture website

  /** The capture job. The capture options are spread after the fixed fields, so they win. */
  function CaptureGraph(websiteUrl: string, captureFormat: string, options: Record): Graph {
    map[
      "capture" := map["operation" := Str("capture-website"), "url" := Str(websiteUrl), "output_format" := Str(captureFormat)] + options,
      "export" := ExportTask("capture")]
  }

  lemma CaptureGraphShape(websiteUrl: string, captureFormat: string, options: Record)
    requires options.Keys !! {"operation", "url", "output_format", "input"}
    ensures CaptureGraph(websiteUrl, captureFormat, options).Keys == {"capture", "export"}
    ensures CaptureGraph(websiteUrl, captureFormat, options)["capture"].Keys == {"operation", "url", "output_format"} + options.Keys
    ensures CaptureGraph(websiteUrl, captureFormat, options)["capture"]["operation"] == Str("capture-website")
    ensures CaptureGraph(websiteUrl, captureFormat, options)["capture"]["url"] == Str(websiteUrl)
    ensures CaptureGraph(websiteUrl, captureFormat, options)["capture"]["output_format"] == Str(captureFormat)
    ensures forall k :: k in options ==> CaptureGraph(websiteUrl, captureFormat, options)["capture"][k] == options[k]
    ensures CaptureGraph(websiteUrl, captureFormat, options)["export"] == ExportTask("capture")
    ensures WellFormed(CaptureGraph(websiteUrl, captureFormat, options))
  {
    var g := CaptureGraph(websiteUrl, captureFormat, options);
    StageWithoutInput(g, "capture");
    StageWithInput(g, "export", "capture");
  }

  // ---------------------------------------------------------------- thumbnail

  datatype ThumbnailParams = ThumbnailParams(
    inputSource: string, fileUrl: string, inputTaskId: string, thumbnailFormat: string, options: Record)

  function ThumbnailGraph(p: ThumbnailParams): Graph {
    var imports: Graph :=
      if p.inputSource == "url" then map["import" := ImportUrlTask(Str(p.fileUrl))]
      else if p.inputSource == "task" then map["import" := map["input" := Str(p.inputTaskId)]]
      else map[];
    imports["thumbnail" := map["operation" := Str("thumbnail"), "input" := Str("import"), "output_format" := Str(p.thumbnailFormat)] + p.options]
      ["export" := ExportTask("thumbnail")]
  }

  /** The thumbnail job. A task source gives an `import` stage that has no operation, only
      `input = inputTaskId`; any source other than a URL or a task gives none. */
  lemma ThumbnailGraphShape(p: ThumbnailParams)
    requires p.options.Keys !! {"operation", "input", "output_format"}
    ensures ThumbnailGraph(p).Keys == (if p.inputSource in {"url", "task"} then {"import"} else {}) + {"thumbnail", "export"}
    ensures p.inputSource == "url" ==> ThumbnailGraph(p)["import"] == ImportUrlTask(Str(p.fileUrl))
    ensures p.inputSource == "task" ==> ThumbnailGraph(p)["import"] == map["input" := Str(p.inputTaskId)]
    ensures ThumbnailGraph(p)["thumbnail"].Keys == {"operation", "input", "output_format"} + p.options.Keys
    ensures ThumbnailGraph(p)["thumbnail"]["operation"] == Str("thumbnail")
    ensures ThumbnailGraph(p)["thumbnail"]["input"] == Str("import")
    ensures ThumbnailGraph(p)["thumbnail"]["output_format"] == Str(p.thumbnailFormat)
    ensures forall k :: k in p.options ==> ThumbnailGraph(p)["thumbnail"][k] == p.options[k]
    ensures ThumbnailGraph(p)["export"] == ExportTask("thumbnail")
  {
  }

  /** Only a URL source gives a well-formed thumbnail job. */
  lemma ThumbnailWellFormed(p: ThumbnailParams)
    requires p.options.Keys !! {"operation", "input", "output_format"}
    ensures WellFormed(ThumbnailGraph(p)) <==> p.inputSource == "url"
  {
    var g := ThumbnailGraph(p);
    StageWithInput(g, "thumbnail", "import");
    if p.inputSource == "url" {
      StageWithoutInput(g, "import");
      StageWithInput(g, "export", "thumbnail");
      assert g.Keys == {"import", "thumbnail", "export"};
    } else if p.inputSource == "task" {
      assert !StageOk(g, "import");
    }
  }

  method BuildThumbnailTasks(p: ThumbnailParams) returns (tasks: Graph)
    ensures tasks == ThumbnailGraph(p)
  {
    tasks := map[];
    if p.inputSource == "url" {
      tasks := tasks["import" := ImportUrlTask(Str(p.fileUrl))];
    } else if p.inputSource == "task" {
      tasks := tasks["import" := map["input" := Str(p.inputTaskId)]];
    }
    tasks := tasks["thumbnail" := map["operation" := Str("thumbnail"), "input" := Str("import"), "output_format" := Str(p.thumbnailFormat)] + p.options];
    tasks := tasks["export" := ExportTask("thumbnail")];
  }

  // ---------------------------------------------------------------- watermark

  datatype WatermarkParams = WatermarkParams(
    inputSource: string, fileUrl: string, watermarkType: string, watermarkText: string,
    watermarkImageUrl: string, outputFormat: string, options: Record)

  function WatermarkTask(p: WatermarkParams): Record {
    var base := map["operation" := Str("watermark"), "input" := Str("import"), "output_format" := Str(p.outputFormat)] + p.options;
    if p.watermarkType == "text" then base["layer_text" := Str(p.watermarkText)]
    else base["layer_input" := Str("import-watermark")]
  }

  function WatermarkGraph(p: WatermarkParams): Graph {
    var imports: Graph := if p.inputSource == "url" then map["import" := ImportUrlTask(Str(p.fileUrl))] else map[];
    var layers: Graph := if p.watermarkType == "text" then imports else imports["import-watermark" := ImportUrlTask(Str(p.watermarkImageUrl))];
    layers["watermark" := WatermarkTask(p)]["export" := ExportTask("watermark")]
  }

  /** Text watermarks add no stage; any other type imports the image as `import-watermark`.
      The main input is imported only from a URL. */
  lemma WatermarkGraphShape(p: WatermarkParams)
    requires p.options.Keys !! {"operation", "input", "output_format"}
    ensures WatermarkGraph(p).Keys ==
      (if p.inputSource == "url" then {"import"} else {}) + (if p.watermarkType == "text" then {} else {"import-watermark"}) + {"watermark", "export"}
    ensures p.inputSource == "url" ==> WatermarkGraph(p)["import"] == ImportUrlTask(Str(p.fileUrl))
    ensures p.watermarkType != "text" ==> WatermarkGraph(p)["import-watermark"] == ImportUrlTask(Str(p.watermarkImageUrl))
    ensures WatermarkGraph(p)["watermark"] == WatermarkTask(p)
    ensures WatermarkGraph(p)["export"] == ExportTask("watermark")
  {
  }

  /** The watermark job is well formed exactly for a URL source. */
  lemma WatermarkWellFormed(p: WatermarkParams)
    requires p.options.Keys !! {"operation", "input", "output_format"}
    ensures WellFormed(WatermarkGraph(p)) <==> p.inputSource == "url"
  {
    WatermarkGraphShape(p);
    WatermarkTaskShape(p);
    WatermarkStages(WatermarkGraph(p), p.inputSource == "url", p.watermarkType == "text");
  }

  /** Any graph laid out like the watermark job is well formed exactly when it imports its input. */
  lemma WatermarkStages(g: Graph, url: bool, text: bool)
    requires g.Keys == (if url then {"import"} else {}) + (if text then {} else {"import-watermark"}) + {"watermark", "export"}
    requires url ==> "operation" in g["import"] && "input" !in g["import"]
    requires !text ==> "operation" in g["import-watermark"] && "input" !in g["import-watermark"]
    requires "operation" in g["watermark"] && "input" in g["watermark"] && g["watermark"]["input"] == Str("import")
    requires g["export"] == ExportTask("watermark")
    ensures WellFormed(g) <==> url
  {
    StageWithInput(g, "watermark", "import");
    if url {
      StageWithoutInput(g, "import");
      StageWithInput(g, "export", "watermark");
      if !text {
        StageWithoutInput(g, "import-watermark");
      }
    }
  }

  /** The watermark task: the literal keys, the spread watermark options, then either a text layer
      or a reference to the imported image; the layer key overwrites an option of the same name. */
  lemma WatermarkTaskShape(p: WatermarkParams)
    requires p.options.Keys !! {"operation", "input", "output_format"}
    ensures "operation" in WatermarkTask(p) && WatermarkTask(p)["operation"] == Str("watermark")
    ensures "input" in WatermarkTask(p) && WatermarkTask(p)["input"] == Str("import")
    ensures "output_format" in WatermarkTask(p) && WatermarkTask(p)["output_format"] == Str(p.outputFormat)
    ensures p.watermarkType == "text" ==> "layer_text" in WatermarkTask(p) && WatermarkTask(p)["layer_text"] == Str(p.watermarkText)
    ensures p.watermarkType != "text" ==> "layer_input" in WatermarkTask(p) && WatermarkTask(p)["layer_input"] == Str("import-watermark")
    ensures WatermarkTask(p).Keys ==
      {"operation", "input", "output_format"} + p.options.Keys + (if p.watermarkType == "text" then {"layer_text"} else {"layer_input"})
    ensures forall k :: k in p.options && k != (if p.watermarkType == "text" then "layer_text" else "layer_input") ==>
      WatermarkTask(p)[k] == p.options[k]
  {
  }

  method BuildWatermarkTasks(p: WatermarkParams) returns (tasks: Graph)
    ensures tasks == WatermarkGraph(p)
  {
    tasks := map[];
    if p.inputSource == "url" {
      tasks := tasks["import" := ImportUrlTask(Str(p.fileUrl))];
    }
    var watermarkTask := map["operation" := Str("watermark"), "input" := Str("import"), "output_format" := Str(p.outputFormat)] + p.options;
    if p.watermarkType == "text" {
      watermarkTask := watermarkTask["layer_text" := Str(p.watermarkText)];
    } else {
      tasks := tasks["import-watermark" := ImportUrlTask(Str(p.watermarkImageUrl))];
      watermarkTask := watermarkTask["layer_input" := Str("import-watermark")];
    }
    tasks := tasks["watermark" := watermarkTask];
    tasks := tasks["export" := ExportTask("watermark")];
  }

  // ---------------------------------------------------------------- merge

  /** `mergeTasks.split(',').map((t) => t.trim())`. */
  function MergeInputs(mergeTasks: string): (ids: seq<string>)
    ensures |ids| == |Text.Split(mergeTasks, ',')|
    ensures forall k :: 0 <= k < |ids| ==> ids[k] == Text.Trim(Text.Split(mergeTasks, ',')[k])
  {
    var pieces := Text.Split(mergeTasks, ',');
    seq(|pieces|, k requires 0 <= k < |pieces| => Text.Trim(pieces[k]))
  }

  function MergeGraph(mergeTasks: string): Graph {
    var ids := MergeInputs(mergeTasks);
    map[
      "merge" := map["operation" := Str("merge"), "input" := Arr(seq(|ids|, k requires 0 <= k < |ids| => Str(ids[k]))), "output_format" := Str("pdf")],
      "export" := ExportTask("merge")]
  }

  /** The merge job: one input per comma-separated piece (empty pieces kept), in order, each
      trimmed; the output is always PDF and the export reads the merge. */
  lemma MergeGraphShape(mergeTasks: string)
    ensures MergeGraph(mergeTasks).Keys == {"merge", "export"}
    ensures MergeGraph(mergeTasks)["merge"].Keys == {"operation", "input", "output_format"}
    ensures MergeGraph(mergeTasks)["merge"]["operation"] == Str("merge")
    ensures MergeGraph(mergeTasks)["merge"]["input"].Arr?
    ensures |MergeGraph(mergeTasks)["merge"]["input"].items| == Text.Count(mergeTasks, ',') + 1
    ensures forall k :: 0 <= k < |MergeGraph(mergeTasks)["merge"]["input"].items| ==>
      MergeGraph(mergeTasks)["merge"]["input"].items[k] == Str(Text.Trim(Text.Split(mergeTasks, ',')[k]))
    ensures MergeGraph(mergeTasks)["merge"]["output_format"] == Str("pdf")
    ensures MergeGraph(mergeTasks)["export"] == ExportTask("merge")
  {
    var ids := MergeInputs(mergeTasks);
    var input := MergeGraph(mergeTasks)["merge"]["input"];
    assert input == Arr(seq(|ids|, k requires 0 <= k < |ids| => Str(ids[k])));
  }

  /** The pieces, trimmed, are the comma-separated parts of the string: re-joining the untrimmed
      pieces gives the string back, so no id is lost or reordered. */
  lemma MergeInputsLoseNothing(mergeTasks: string)
    ensures Text.Join(Text.Split(mergeTasks, ','), ',') == mergeTasks
    ensures forall k :: 0 <= k < |MergeInputs(mergeTasks)| ==> ',' !in MergeInputs(mergeTasks)[k]
  {
    Text.JoinSplit(mergeTasks, ',');
    var pieces := Text.Split(mergeTasks, ',');
    forall k | 0 <= k < |pieces| ensures ',' !in Text.Trim(pieces[k]) {
      var t := Text.Trim(pieces[k]);
      var i, j :| 0 <= i <= j <= |pieces[k]| && t == pieces[k][i..j];
      assert forall x :: x in pieces[k][i..j] ==> x in pieces[k];
    }
  }

  // ---------------------------------------------------------------- archive

  function ArchiveGraph(inputSource: string, fileUrl: string, archiveFormat: string): Graph {
    var imports: Graph := if inputSource == "url" then map["import" := ImportUrlTask(Str(fileUrl))] else map[];
    imports["archive" := map["operation" := Str("archive"), "input" := Str("import"), "output_format" := Str(archiveFormat)]]
      ["export" := ExportTask("archive")]
  }

  /** The archive job: the import stage exists only for a URL source. */
  lemma ArchiveGraphShape(inputSource: string, fileUrl: string, archiveFormat: string)
    ensures ArchiveGraph(inputSource, fileUrl, archiveFormat).Keys ==
      (if inputSource == "url" then {"import"} else {}) + {"archive", "export"}
    ensures inputSource == "url" ==> ArchiveGraph(inputSource, fileUrl, archiveFormat)["import"] == ImportUrlTask(Str(fileUrl))
    ensures ArchiveGraph(inputSource, fileUrl, archiveFormat)["archive"].Keys == {"operation", "input", "output_format"}
    ensures ArchiveGraph(inputSource, fileUrl, archiveFormat)["archive"]["operation"] == Str("archive")
    ensures ArchiveGraph(inputSource, fileUrl, archiveFormat)["archive"]["input"] == Str("import")
    ensures ArchiveGraph(inputSource, fileUrl, archiveFormat)["archive"]["output_format"] == Str(archiveFormat)
    ensures ArchiveGraph(inputSource, fileUrl, archiveFormat)["export"] == ExportTask("archive")
  {
  }

  /** The archive job is well formed exactly for a URL source; otherwise `input: 'import'` dangles. */
  lemma ArchiveWellFormed(inputSource: string, fileUrl: string, archiveFormat: string)
    ensures WellFormed(ArchiveGraph(inputSource, fileUrl, archiveFormat)) <==> inputSource == "url"
  {
    var g := ArchiveGraph(inputSource, fileUrl, archiveFormat);
    StageWithInput(g, "archive", "import");
    if inputSource == "url" {
      StageWithoutInput(g, "import");
      StageWithInput(g, "export", "archive");
      assert g.Keys == {"import", "archive", "export"};
    }
  }

  method BuildArchiveTasks(inputSource: string, fileUrl: string, archiveFormat: string) returns (tasks: Graph)
    ensures tasks == ArchiveGraph(inputSource, fileUrl, archiveFormat)
  {
    tasks := map[];
    if inputSource == "url" {
      tasks := tasks["import" := ImportUrlTask(Str(fileUrl))];
    }
    tasks := tasks["archive" := map["operation" := Str("archive"), "input" := Str("import"), "output_format" := Str(archiveFormat)]];
    tasks := tasks["export" := ExportTask("archive")];
  }

  /** The graph as the JSON value sent in the request body under `tasks`. */
  function GraphValue(g: Graph): (v: Value)
    ensures v.Obj? && v.fields.Keys == g.Keys
    ensures forall name :: name in g ==> v.fields[name] == Obj(g[name])
  {
    Obj(map name | name in g :: Obj(g[name]))
  }

  /** Reading a `tasks` object back as a graph: it must be an object whose properties are all objects. */
  function StagesOf(v: Value): Option<Graph> {
    if v.Obj? && forall name :: name in v.fields ==> v.fields[name].Obj? then
      Some(map name | name in v.fields :: v.fields[name].fields)
    else None
  }

  /** The request body carries the graph without loss: reading it back gives the same stages. */
  lemma GraphValueRoundTrip(g: Graph)
    ensures StagesOf(GraphValue(g)) == Some(g)
  {
    var v := GraphValue(g);
    assert forall name :: name in v.fields ==> v.fields[name].Obj?;
    var back := map name | name in v.fields :: v.fields[name].fields;
    assert back.Keys == g.Keys;
    assert forall name :: name in g ==> back[name] == g[name];
    assert back == g;
    assert StagesOf(v) == Some(back);
  }
}
