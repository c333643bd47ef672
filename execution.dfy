/** The per-item work of `execute`: the `filter[...]` queries of the list operations, the list
    requests, the job submission of the `file` operations, the JSON bodies of the create
    operations, and the loop over the input items with its continue-on-fail capture. */
module Execution {
  import opened Values
  import opened Extraction
  import TaskGraph
  import GenericFunctions

  // ---------------------------------------------------------------- filters

  /** `if (filters.prop) query[key] = filters.prop`, as the query ends up. */
  predicate FilterSet(query: Record, filters: Record, key: string, prop: string) {
    && (key in query <==> Truthy(Field(filters, prop)))
    && (key in query ==> query[key] == Field(filters, prop))
  }

  /** The query of the job list: status and tag, each only when truthy. */
  method JobFilters(filters: Record) returns (query: Record)
    ensures query.Keys <= {"filter[status]", "filter[tag]"}
    ensures FilterSet(query, filters, "filter[status]", "status")
    ensures FilterSet(query, filters, "filter[tag]", "tag")
  {
    query := map[];
    if Truthy(Field(filters, "status")) {
      query := query["filter[status]" := Field(filters, "status")];
    }
    if Truthy(Field(filters, "tag")) {
      query := query["filter[tag]" := Field(filters, "tag")];
    }
  }

  /** The query of the task list: status, operation and job id, each only when truthy. */
  method TaskFilters(filters: Record) returns (query: Record)
    ensures query.Keys <= {"filter[status]", "filter[operation]", "filter[job_id]"}
    ensures FilterSet(query, filters, "filter[status]", "status")
    ensures FilterSet(query, filters, "filter[operation]", "operation")
    ensures FilterSet(query, filters, "filter[job_id]", "job_id")
  {
    query := map[];
    if Truthy(Field(filters, "status")) {
      query := query["filter[status]" := Field(filters, "status")];
    }
    if Truthy(Field(filters, "operation")) {
      query := query["filter[operation]" := Field(filters, "operation")];
    }
    if Truthy(Field(filters, "job_id")) {
      query := query["filter[job_id]" := Field(filters, "job_id")];
    }
  }

  /** The query of the format lookup: operation, input and output format, each only when truthy. */
  method OperationFilters(filters: Record) returns (query: Record)
    ensures query.Keys <= {"filter[operation]", "filter[input_format]", "filter[output_format]"}
    ensures FilterSet(query, filters, "filter[operation]", "operation")
    ensures FilterSet(query, filters, "filter[input_format]", "input_format")
    ensures FilterSet(query, filters, "filter[output_format]", "output_format")
  {
    query := map[];
    if Truthy(Field(filters, "operation")) {
      query := query["filter[operation]" := Field(filters, "operation")];
    }
    if Truthy(Field(filters, "input_format")) {
      query := query["filter[input_format]" := Field(filters, "input_format")];
    }
    if Truthy(Field(filters, "output_format")) {
      query := query["filter[output_format]" := Field(filters, "output_format")];
    }
  }

  /** With no filter set, the list is requested unfiltered. */
  lemma NoFiltersNoQuery(filters: Record, query: Record)
    requires forall p :: p in filters ==> !Truthy(filters[p])
    requires FilterSet(query, filters, "filter[status]", "status")
    requires FilterSet(query, filters, "filter[tag]", "tag")
    requires query.Keys <= {"filter[status]", "filter[tag]"}
    ensures query == map[]
  {
    assert "filter[status]" !in query && "filter[tag]" !in query;
    assert query.Keys == {};
  }

  // ---------------------------------------------------------------- list requests

  /** The `getAll` operations: with `returnAll`, every page through the pagination loop, answered
      as `{data: items}`; otherwise one request with `per_page` set to the limit, whose response
      is the answer. `pages` are the responses, in request order. */
  method ListItems(sandbox: bool, endpoint: string, query: Record, returnAll: bool, limit: int, pages: seq<GenericFunctions.Page>)
    returns (requests: seq<GenericFunctions.RequestOptions>, responseData: Value)
    requires if returnAll then GenericFunctions.Terminates(pages) else pages != []
    ensures returnAll ==>
      && |requests| == GenericFunctions.LastRequestIndex(pages) + 1
      && GenericFunctions.PageRequests(requests, sandbox, "GET", endpoint, map[], query)
      && responseData == Obj(map["data" := Arr(GenericFunctions.Concat(pages[..|requests|]))])
    ensures !returnAll ==>
      && |requests| == 1
      && requests[0].url == GenericFunctions.BaseUrl(sandbox, false) + endpoint
      && requests[0].verb == "GET" && requests[0].body.None?
      && requests[0].qs == Some(query["per_page" := Num(limit)])
      && responseData == Obj(pages[0])
  {
    if returnAll {
      var items;
      items, requests := GenericFunctions.RequestAllItems(sandbox, "GET", endpoint, map[], query, pages);
      responseData := Obj(map["data" := Arr(items)]);
    } else {
      var q := query["per_page" := Num(limit)];
      assert "per_page" in q.Keys;
      var request := GenericFunctions.BuildRequest(sandbox, "GET", endpoint, map[], q, false);
      requests := [request];
      responseData := Obj(pages[0]);
    }
  }

  // ---------------------------------------------------------------- create bodies

  const InvalidTasksJson := "Invalid JSON in Tasks field"
  const InvalidTaskDataJson := "Invalid JSON in Task Data field"

  /** The body of the job create operation: `{tasks, ...additionalFields}`, where `parsed` is
      what `JSON.parse` made of the Tasks field (`None` when it threw). An additional field
      named `tasks` wins over the parsed tasks. */
  function JobCreateBody(parsed: Option<Value>, additionalFields: Record): (r: Result<Record>)
    ensures r.Err? <==> parsed.None?
    ensures r.Err? ==> r.message == InvalidTasksJson
    ensures r.Ok? ==> r.value.Keys == {"tasks"} + additionalFields.Keys
    ensures r.Ok? ==> forall k :: k in additionalFields ==> r.value[k] == additionalFields[k]
    ensures r.Ok? && "tasks" !in additionalFields ==> r.value["tasks"] == parsed.value
  {
    if parsed.None? then Err(InvalidTasksJson)
    else Ok(map["tasks" := parsed.value] + additionalFields)
  }

  /** The job create request: `POST /jobs` with that body, on the plain host. */
  method JobCreateRequest(sandbox: bool, parsed: Option<Value>, additionalFields: Record)
    returns (r: Result<GenericFunctions.RequestOptions>)
    ensures r.Err? <==> parsed.None?
    ensures r.Err? ==> r.message == InvalidTasksJson
    ensures r.Ok? ==> r.value.url == GenericFunctions.BaseUrl(sandbox, false) + "/jobs" && r.value.verb == "POST"
    ensures r.Ok? ==> r.value.body == Some(JobCreateBody(parsed, additionalFields).value) && r.value.qs.None?
  {
    var body := JobCreateBody(parsed, additionalFields);
    if body.Err? {
      return Err(body.message);
    }
    assert "tasks" in body.value.Keys;
    var request := GenericFunctions.BuildRequest(sandbox, "POST", "/jobs", body.value, map[], false);
    return Ok(request);
  }

  /** The task create request: `POST /<taskType>` with the parsed task data as body (left out
      when it has no keys). `parsed` is `None` when `JSON.parse` threw. */
  method TaskCreateRequest(sandbox: bool, taskType: string, parsed: Option<Record>)
    returns (r: Result<GenericFunctions.RequestOptions>)
    ensures r.Err? <==> parsed.None?
    ensures r.Err? ==> r.message == InvalidTaskDataJson
    ensures r.Ok? ==> r.value.url == GenericFunctions.BaseUrl(sandbox, false) + "/" + taskType && r.value.verb == "POST"
    ensures r.Ok? ==> (r.value.body.Some? <==> |parsed.value| > 0) && r.value.qs.None?
    ensures r.Ok? && r.value.body.Some? ==> r.value.body.value == parsed.value
  {
    if parsed.None? {
      return Err(InvalidTaskDataJson);
    }
    var request := GenericFunctions.BuildRequest(sandbox, "POST", "/" + taskType, parsed.value, map[], false);
    return Ok(request);
  }

  // ---------------------------------------------------------------- file operations

  /** The job submission every `file` operation ends with: `POST /jobs` with `{tasks}`, on the
      sync host when waiting for completion. */
  method SubmitJob(sandbox: bool, tasks: TaskGraph.Graph, waitForCompletion: bool)
    returns (request: GenericFunctions.RequestOptions)
    ensures request.url == GenericFunctions.BaseUrl(sandbox, waitForCompletion) + "/jobs"
    ensures request.verb == "POST" && request.qs.None?
    ensures request.body == Some(map["tasks" := TaskGraph.GraphValue(tasks)])
  {
    var body: Record := map["tasks" := TaskGraph.GraphValue(tasks)];
    assert "tasks" in body.Keys;
    request := GenericFunctions.BuildRequest(sandbox, "POST", "/jobs", body, map[], waitForCompletion);
  }

  /** The convert operation for one item: build the graph (which can fail), submit it, and shape
      the answer. Files are downloaded only when the job was awaited and a download was asked for. */
  method RunConvert(sandbox: bool, p: TaskGraph.ConvertParams, waitForCompletion: bool, downloadParam: bool, response: JobResponse)
    returns (request: Option<GenericFunctions.RequestOptions>, outcome: Result<ItemResult>)
    ensures TaskGraph.ConvertGraph(p).Err? ==> request.None? && outcome == Err(TaskGraph.ConvertGraph(p).message)
    ensures TaskGraph.ConvertGraph(p).Ok? ==>
      && request.Some? && outcome.Ok?
      && request.value.url == GenericFunctions.BaseUrl(sandbox, waitForCompletion) + "/jobs"
      && request.value.body == Some(map["tasks" := TaskGraph.GraphValue(TaskGraph.ConvertGraph(p).value)])
    ensures TaskGraph.ConvertGraph(p).Ok? ==> outcome == Ok(ConvertResult(response, waitForCompletion && downloadParam))
    ensures TaskGraph.ConvertGraph(p).Ok? && !(waitForCompletion && downloadParam) ==>
      outcome == Ok(Json(Response(response)))
  {
    var tasks := TaskGraph.BuildConvertTasks(p);
    if tasks.Err? {
      return None, Err(tasks.message);
    }
    var r := SubmitJob(sandbox, tasks.value, waitForCompletion);
    var downloadResult := waitForCompletion && downloadParam;
    var result := ConvertItemResult(response, downloadResult);
    return Some(r), Ok(result);
  }

  /** Capture website, thumbnail, watermark, merge and archive for one item: submit the graph the
      operation built, then use at most the first export file. */
  method RunFileJob(sandbox: bool, tasks: TaskGraph.Graph, waitForCompletion: bool, downloadParam: bool, response: JobResponse)
    returns (request: GenericFunctions.RequestOptions, outcome: Result<ItemResult>)
    ensures request.url == GenericFunctions.BaseUrl(sandbox, waitForCompletion) + "/jobs"
    ensures request.body == Some(map["tasks" := TaskGraph.GraphValue(tasks)])
    ensures outcome == FirstFileResult(response, waitForCompletion && downloadParam)
    ensures outcome.Err? ==> waitForCompletion && downloadParam
  {
    request := SubmitJob(sandbox, tasks, waitForCompletion);
    outcome := FirstFileResult(response, waitForCompletion && downloadParam);
  }

  // ---------------------------------------------------------------- the item loop

  /** `returnJsonArray` and `constructExecutionMetaData` with `{item: i}`: an array answer gives
      one item per element, any other answer one item; all are paired with item `i`. */
  function JsonItems(json: ItemJson, i: nat): (out: seq<OutputItem>)
    ensures forall k :: 0 <= k < |out| ==> out[k].pairedItem == Some(i) && out[k].binary.None?
    ensures json.Data? && json.value.Arr? ==>
      |out| == |json.value.items| && forall k :: 0 <= k < |out| ==> out[k].json == Data(json.value.items[k])
    ensures !(json.Data? && json.value.Arr?) ==> |out| == 1 && out[0].json == json
  {
    if json.Data? && json.value.Arr? then
      seq(|json.value.items|, k requires 0 <= k < |json.value.items| => OutputItem(Data(json.value.items[k]), None, Some(i)))
    else [OutputItem(json, None, Some(i))]
  }

  /** What the item at position `i` adds to the output, or the error that ends the run. */
  function ItemOutputs(outcome: Result<ItemResult>, i: nat, continueOnFail: bool): Result<seq<OutputItem>> {
    match outcome
    case Ok(Json(j)) => Ok(JsonItems(j, i))
    case Ok(Items(xs)) => Ok(xs)
    case Err(m) => if continueOnFail then Ok([OutputItem(ErrorRecord(m), None, Some(i))]) else Err(m)
  }

  /** The output of the item loop for the given per-item outcomes: each item's outputs in item order,
      or the first error that is not captured. */
  function Collect(outcomes: seq<Result<ItemResult>>, continueOnFail: bool): Result<seq<OutputItem>>
    decreases |outcomes|
  {
    if outcomes == [] then Ok([])
    else
      var n := |outcomes| - 1;
      match Collect(outcomes[..n], continueOnFail)
      case Err(m) => Err(m)
      case Ok(prev) =>
        match ItemOutputs(outcomes[n], n, continueOnFail)
        case Err(m) => Err(m)
        case Ok(more) => Ok(prev + more)
  }

  /** Once an error escapes, no later item changes the result. */
  lemma {:induction false} CollectStaysFailed(outcomes: seq<Result<ItemResult>>, continueOnFail: bool, k: nat)
    requires k <= |outcomes| && Collect(outcomes[..k], continueOnFail).Err?
    ensures Collect(outcomes, continueOnFail) == Collect(outcomes[..k], continueOnFail)
    decreases |outcomes| - k
  {
    if k < |outcomes| {
      var next := outcomes[..k + 1];
      assert next[..k] == outcomes[..k];
      CollectStaysFailed(outcomes, continueOnFail, k + 1);
    } else {
      assert outcomes[..k] == outcomes;
    }
  }

  /** The loop over the input items: each outcome is pushed as its items; a failure is captured as
      an `{error}` item under continue-on-fail and otherwise rethrown, ending the run. */
  method Execute(outcomes: seq<Result<ItemResult>>, continueOnFail: bool) returns (r: Result<seq<OutputItem>>)
    ensures r == Collect(outcomes, continueOnFail)
  {
    var returnData: seq<OutputItem> := [];
    for i := 0 to |outcomes|
      invariant Collect(outcomes[..i], continueOnFail) == Ok(returnData)
    {
      assert outcomes[..i + 1][..i] == outcomes[..i];
      match outcomes[i] {
        case Ok(Json(j)) =>
          returnData := returnData + JsonItems(j, i);
        case Ok(Items(xs)) =>
          returnData := returnData + xs;
        case Err(m) =>
          if continueOnFail {
            returnData := returnData + [OutputItem(ErrorRecord(m), None, Some(i))];
          } else {
            CollectStaysFailed(outcomes, continueOnFail, i + 1);
            return Err(m);
          }
      }
    }
    assert outcomes[..|outcomes|] == outcomes;
    return Ok(returnData);
  }

  /** With continue-on-fail the run never fails. */
  lemma {:induction false} ContinueOnFailNeverFails(outcomes: seq<Result<ItemResult>>)
    ensures Collect(outcomes, true).Ok?
    decreases |outcomes|
  {
    if outcomes != [] {
      ContinueOnFailNeverFails(outcomes[..|outcomes| - 1]);
    }
  }

  /** Without continue-on-fail the run fails exactly when some item fails, with the first failure's message. */
  lemma {:induction false} FirstErrorPropagates(outcomes: seq<Result<ItemResult>>)
    ensures Collect(outcomes, false).Err? <==> exists i :: 0 <= i < |outcomes| && outcomes[i].Err?
    ensures Collect(outcomes, false).Err? ==>
      exists i :: 0 <= i < |outcomes| && outcomes[i].Err? && Collect(outcomes, false).message == outcomes[i].message &&
        forall j :: 0 <= j < i ==> outcomes[j].Ok?
    decreases |outcomes|
  {
    if outcomes != [] {
      var n := |outcomes| - 1;
      var init := outcomes[..n];
      FirstErrorPropagates(init);
      assert forall i :: 0 <= i < n ==> init[i] == outcomes[i];
      if Collect(init, false).Err? {
        var i :| 0 <= i < n && init[i].Err? && Collect(init, false).message == init[i].message &&
          forall j :: 0 <= j < i ==> init[j].Ok?;
        assert outcomes[i].Err?;
      } else {
        assert forall i :: 0 <= i < n ==> outcomes[i].Ok?;
        if outcomes[n].Err? {
          assert Collect(outcomes, false) == Err(outcomes[n].message);
        }
      }
    }
  }

  /** An item that yields exactly one output: an answer that is not an array. */
  predicate SingleOutput(outcome: Result<ItemResult>) {
    outcome.Err? || (outcome.value.Json? && !(outcome.value.json.Data? && outcome.value.json.value.Arr?))
  }

  /** With continue-on-fail and one output per item, output `i` belongs to item `i`, and each failing
      item leaves exactly one `{error: message}` record, in its own position. */
  lemma {:induction false} ErrorRecordsInPosition(outcomes: seq<Result<ItemResult>>)
    requires forall i :: 0 <= i < |outcomes| ==> SingleOutput(outcomes[i])
    ensures Collect(outcomes, true).Ok? && |Collect(outcomes, true).value| == |outcomes|
    ensures forall i :: 0 <= i < |outcomes| ==> Collect(outcomes, true).value[i].pairedItem == Some(i)
    ensures forall i :: 0 <= i < |outcomes| && outcomes[i].Err? ==>
      Collect(outcomes, true).value[i] == OutputItem(ErrorRecord(outcomes[i].message), None, Some(i))
    ensures forall i :: 0 <= i < |outcomes| && outcomes[i].Ok? && outcomes[i].value.Json? ==>
      Collect(outcomes, true).value[i].json == outcomes[i].value.json
    decreases |outcomes|
  {
    if outcomes != [] {
      var n := |outcomes| - 1;
      var init := outcomes[..n];
      assert forall i :: 0 <= i < n ==> init[i] == outcomes[i];
      ErrorRecordsInPosition(init);
      SingleOutputItem(outcomes[n], n);
      var prev := Collect(init, true).value;
      var x := ItemOutputs(outcomes[n], n, true).value[0];
      assert ItemOutputs(outcomes[n], n, true).value == [x];
      var all := prev + [x];
      assert Collect(outcomes, true) == Ok(all);
      assert forall i :: 0 <= i < n ==> all[i] == prev[i];
    }
  }

  /** Under continue-on-fail an item with a single output adds exactly one item, paired with it. */
  lemma SingleOutputItem(outcome: Result<ItemResult>, n: nat)
    requires SingleOutput(outcome)
    ensures ItemOutputs(outcome, n, true).Ok? && |ItemOutputs(outcome, n, true).value| == 1
    ensures ItemOutputs(outcome, n, true).value[0].pairedItem == Some(n)
    ensures outcome.Err? ==> ItemOutputs(outcome, n, true).value[0] == OutputItem(ErrorRecord(outcome.message), None, Some(n))
    ensures outcome.Ok? && outcome.value.Json? ==> ItemOutputs(outcome, n, true).value[0].json == outcome.value.json
  {
  }

  /** The outputs paired with input item `i`, in output order. */
  function PairedWith(out: seq<OutputItem>, i: nat): seq<OutputItem>
    decreases |out|
  {
    if out == [] then [] else Kept(out[0], i) + PairedWith(out[1..], i)
  }

  function Kept(x: OutputItem, i: nat): seq<OutputItem> {
    if x.pairedItem == Some(i) then [x] else []
  }

  lemma PairedWithCons(x: OutputItem, rest: seq<OutputItem>, i: nat)
    ensures PairedWith([x] + rest, i) == Kept(x, i) + PairedWith(rest, i)
  {
    assert ([x] + rest)[1..] == rest;
  }

  lemma {:induction false} PairedWithConcat(a: seq<OutputItem>, b: seq<OutputItem>, i: nat)
    ensures PairedWith(a + b, i) == PairedWith(a, i) + PairedWith(b, i)
    decreases |a|
  {
    if a == [] {
      assert a + b == b;
    } else {
      var x, rest := a[0], a[1..];
      assert a == [x] + rest && a + b == [x] + (rest + b);
      PairedWithCons(x, rest + b, i);
      PairedWithCons(x, rest, i);
      PairedWithConcat(rest, b, i);
      assert Kept(x, i) + (PairedWith(rest, i) + PairedWith(b, i)) == (Kept(x, i) + PairedWith(rest, i)) + PairedWith(b, i);
    }
  }

  lemma {:induction false} PairedWithAll(xs: seq<OutputItem>, i: nat)
    requires forall k :: 0 <= k < |xs| ==> xs[k].pairedItem == Some(i)
    ensures PairedWith(xs, i) == xs
    decreases |xs|
  {
    if xs != [] {
      PairedWithAll(xs[1..], i);
    }
  }

  lemma {:induction false} PairedWithNone(xs: seq<OutputItem>, i: nat)
    requires forall k :: 0 <= k < |xs| ==> xs[k].pairedItem != Some(i)
    ensures PairedWith(xs, i) == []
    decreases |xs|
  {
    if xs != [] {
      PairedWithNone(xs[1..], i);
    }
  }

  /** Items pushed as they are carry no paired item, as the fanned-out files of convert do. */
  predicate UnpairedItems(outcome: Result<ItemResult>) {
    outcome.Ok? && outcome.value.Items? ==> forall k :: 0 <= k < |outcome.value.items| ==> outcome.value.items[k].pairedItem.None?
  }

  /** The outputs item `i` contributes and pairs with itself under continue-on-fail. */
  function OwnOutputs(outcome: Result<ItemResult>, i: nat): seq<OutputItem> {
    match outcome
    case Ok(Json(j)) => JsonItems(j, i)
    case Ok(Items(_)) => []
    case Err(m) => [OutputItem(ErrorRecord(m), None, Some(i))]
  }

  /** The fan-out of the convert operation pushes only unpaired items. */
  lemma ConvertResultUnpaired(response: JobResponse, downloadResult: bool)
    ensures UnpairedItems(Ok(ConvertResult(response, downloadResult)))
  {
  }

  /** What the item at `n` adds is paired with `n`, or with nothing. */
  lemma ItemOutputsPaired(outcome: Result<ItemResult>, n: nat, i: nat)
    requires UnpairedItems(outcome)
    ensures PairedWith(ItemOutputs(outcome, n, true).value, i) == if i == n then OwnOutputs(outcome, n) else []
  {
    var more := ItemOutputs(outcome, n, true).value;
    if outcome.Ok? && outcome.value.Items? {
      PairedWithNone(more, i);
    } else if i == n {
      PairedWithAll(more, i);
    } else {
      PairedWithNone(more, i);
    }
  }

  /** Appending item `n`'s outputs adds its own outputs to those paired with `n`, and nothing to any other. */
  lemma PairedSnoc(prev: seq<OutputItem>, outcome: Result<ItemResult>, n: nat, i: nat)
    requires UnpairedItems(outcome)
    ensures PairedWith(prev + ItemOutputs(outcome, n, true).value, i) == PairedWith(prev, i) + (if i == n then OwnOutputs(outcome, n) else [])
  {
    PairedWithConcat(prev, ItemOutputs(outcome, n, true).value, i);
    ItemOutputsPaired(outcome, n, i);
  }

  /** With continue-on-fail, whatever each answer's size: the outputs paired with item `i` are exactly
      its own, so a failing item leaves exactly one `{error: message}` record paired with it, and no
      output is paired with an item that does not exist. */
  lemma {:induction false} OutputsPairedWithItem(outcomes: seq<Result<ItemResult>>)
    requires forall i :: 0 <= i < |outcomes| ==> UnpairedItems(outcomes[i])
    ensures Collect(outcomes, true).Ok?
    ensures forall i: nat :: i < |outcomes| ==> PairedWith(Collect(outcomes, true).value, i) == OwnOutputs(outcomes[i], i)
    ensures forall i :: 0 <= i < |outcomes| && outcomes[i].Err? ==>
      PairedWith(Collect(outcomes, true).value, i) == [OutputItem(ErrorRecord(outcomes[i].message), None, Some(i))]
    ensures forall i: nat :: i >= |outcomes| ==> PairedWith(Collect(outcomes, true).value, i) == []
    decreases |outcomes|
  {
    ContinueOnFailNeverFails(outcomes);
    if outcomes != [] {
      var n := |outcomes| - 1;
      var init := outcomes[..n];
      assert forall i :: 0 <= i < n ==> init[i] == outcomes[i];
      OutputsPairedWithItem(init);
      var prev := Collect(init, true).value;
      var more := ItemOutputs(outcomes[n], n, true).value;
      assert Collect(outcomes, true) == Ok(prev + more);
      forall i: nat ensures PairedWith(prev + more, i) == (if i < |outcomes| then OwnOutputs(outcomes[i], i) else []) {
        PairedSnoc(prev, outcomes[n], n, i);
      }
    }
  }
}
