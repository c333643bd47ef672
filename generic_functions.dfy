/** The request helpers of the node: shaping one API request, collecting all pages of a list
    endpoint, the format catalogue and the job and task option labels. The HTTP collaborator
    is given as data: the pages it returns, in request order. */
module GenericFunctions {
  import opened Values
  import Text

  const Scheme := "https://"
  const ApiUrl := Scheme + "api.cloudconvert.com/v2"
  const SandboxApiUrl := Scheme + "api.sandbox.cloudconvert.com/v2"
  const SyncApiUrl := Scheme + "sync." + "api.cloudconvert.com/v2"
  const SyncSandboxApiUrl := Scheme + "sync." + "api.sandbox.cloudconvert.com/v2"

  /** The options handed to the authenticated request; `None` for a property that was deleted. */
  datatype RequestOptions = RequestOptions(
    headers: map<string, string>,
    verb: string,
    body: Option<Record>,
    qs: Option<Record>,
    url: string,
    json: bool)

  /** The API host for the credentials' sandbox flag and the request's sync flag. */
  function BaseUrl(sandbox: bool, sync: bool): (url: string)
    ensures url in {ApiUrl, SandboxApiUrl, SyncApiUrl, SyncSandboxApiUrl}
    ensures url == SandboxApiUrl <==> sandbox && !sync
    ensures url == SyncApiUrl <==> !sandbox && sync
    ensures url == SyncSandboxApiUrl <==> sandbox && sync
  {
    if sync then (if sandbox then SyncSandboxApiUrl else SyncApiUrl)
    else if sandbox then SandboxApiUrl else ApiUrl
  }

  /** The sync host is the plain host with `sync.` in front of it. */
  lemma SyncHostReplacesPlainHost(sandbox: bool)
    ensures BaseUrl(sandbox, true) == Scheme + "sync." + BaseUrl(sandbox, false)[|Scheme|..]
  {
    var host := if sandbox then "api.sandbox.cloudconvert.com/v2" else "api.cloudconvert.com/v2";
    assert BaseUrl(sandbox, false) == Scheme + host;
    assert (Scheme + host)[|Scheme|..] == host;
  }

  /** `cloudConvertApiRequest`: base URL, then the options with empty `body` and `qs` deleted. */
  method BuildRequest(sandbox: bool, verb: string, endpoint: string, body: Record, query: Record, sync: bool)
    returns (options: RequestOptions)
    ensures options.url == BaseUrl(sandbox, sync) + endpoint
    ensures options.verb == verb
    ensures options.headers == map["Content-Type" := "application/json"] && options.json
    ensures options.body.Some? <==> |body| > 0
    ensures options.body.Some? ==> options.body.value == body
    ensures options.qs.Some? <==> |query| > 0
    ensures options.qs.Some? ==> options.qs.value == query
  {
    var baseUrl := if sandbox then SandboxApiUrl else ApiUrl;
    if sync {
      baseUrl := if sandbox then SyncSandboxApiUrl else SyncApiUrl;
    }
    options := RequestOptions(map["Content-Type" := "application/json"], verb, Some(body), Some(query), baseUrl + endpoint, true);
    if |body.Keys| == 0 {
      options := options.(body := None);
    }
    if |query.Keys| == 0 {
      options := options.(qs := None);
    }
  }

  // ---------------------------------------------------------------- pagination

  const PageSize := 100

  /** The response object of one page request. */
  type Page = Record

  /** `responseData.data`, when it is an array. */
  function PageItems(page: Page): seq<Value> {
    var data := Field(page, "data");
    if data.Arr? then data.items else []
  }

  /** The do-while condition: `links?.next` is truthy, or `data?.length === per_page`. */
  predicate Continues(page: Page) {
    Truthy(Prop(Field(page, "links"), "next")) || JsLength(Field(page, "data")) == Num(PageSize)
  }

  /** Some page stops the loop, so the loop ends. */
  predicate Terminates(pages: seq<Page>) {
    exists k :: 0 <= k < |pages| && !Continues(pages[k])
  }

  /** The index of the first page that stops the loop. */
  function LastRequestIndex(pages: seq<Page>): (n: nat)
    requires Terminates(pages)
    ensures n < |pages| && !Continues(pages[n])
    ensures forall j :: 0 <= j < n ==> Continues(pages[j])
    decreases |pages|
  {
    if !Continues(pages[0]) then 0
    else
      var k :| 0 <= k < |pages| && !Continues(pages[k]);
      assert k > 0 && !Continues(pages[1..][k - 1]);
      1 + LastRequestIndex(pages[1..])
  }

  /** The items of the pages, concatenated in order; pages without an array contribute nothing. */
  function Concat(pages: seq<Page>): seq<Value>
    decreases |pages|
  {
    if pages == [] then [] else Concat(pages[..|pages| - 1]) + PageItems(pages[|pages| - 1])
  }

  /** The query of the `k`th request (from 0): the caller's query with `per_page` and `page` set. */
  function PageQuery(query: Record, k: nat): Record {
    query["per_page" := Num(PageSize)]["page" := Num(k + 1)]
  }

  /** The `k`th query keeps the caller's filters and sets the page size and the page number. */
  lemma PageQueryShape(query: Record, k: nat)
    ensures PageQuery(query, k).Keys == query.Keys + {"per_page", "page"}
    ensures PageQuery(query, k)["per_page"] == Num(PageSize) && PageQuery(query, k)["page"] == Num(k + 1)
    ensures forall key :: key in query && key !in {"per_page", "page"} ==> PageQuery(query, k)[key] == query[key]
  {
  }

  /** The `k`th request (from 0) of the pagination loop. */
  predicate IsPageRequest(request: RequestOptions, sandbox: bool, verb: string, endpoint: string, body: Record, query: Record, k: nat) {
    && request.qs == Some(PageQuery(query, k))
    && request.url == BaseUrl(sandbox, false) + endpoint
    && request.verb == verb
    && (request.body.Some? <==> |body| > 0)
  }

  lemma NextPageQuery(query: Record, k: nat)
    ensures PageQuery(query, k)["page" := Num(k + 2)] == PageQuery(query, k + 1)
  {
  }

  lemma ConcatSnoc(pages: seq<Page>, i: nat)
    requires i < |pages|
    ensures Concat(pages[..i + 1]) == Concat(pages[..i]) + PageItems(pages[i])
  {
    assert pages[..i + 1][..i] == pages[..i];
  }

  predicate PageRequests(requests: seq<RequestOptions>, sandbox: bool, verb: string, endpoint: string, body: Record, query: Record) {
    forall k :: 0 <= k < |requests| ==> IsPageRequest(requests[k], sandbox, verb, endpoint, body, query, k)
  }

  lemma AppendPageRequest(requests: seq<RequestOptions>, r: RequestOptions, sandbox: bool, verb: string, endpoint: string, body: Record, query: Record)
    requires PageRequests(requests, sandbox, verb, endpoint, body, query)
    requires IsPageRequest(r, sandbox, verb, endpoint, body, query, |requests|)
    ensures PageRequests(requests + [r], sandbox, verb, endpoint, body, query)
  {
    var all := requests + [r];
    forall k | 0 <= k < |all| ensures IsPageRequest(all[k], sandbox, verb, endpoint, body, query, k) {
      if k < |requests| { assert all[k] == requests[k]; }
    }
  }

  /** `cloudConvertApiRequestAllItems`: request page after page, starting at page 1 with 100 per page,
      until a page has neither a next link nor a full `data` array. */
  method RequestAllItems(sandbox: bool, verb: string, endpoint: string, body: Record, query: Record, pages: seq<Page>)
    returns (items: seq<Value>, requests: seq<RequestOptions>)
    requires Terminates(pages)
    ensures |requests| == LastRequestIndex(pages) + 1
    ensures PageRequests(requests, sandbox, verb, endpoint, body, query)
    ensures items == Concat(pages[..|requests|])
  {
    items, requests := [], [];
    var q := query["per_page" := Num(PageSize)]["page" := Num(1)];
    var page := 1;
    var i := 0;
    var more := true;
    assert q == PageQuery(query, 0);
    assert pages[..0] == [];
    while more
      invariant more ==> i <= LastRequestIndex(pages)
      invariant !more ==> i == LastRequestIndex(pages) + 1
      invariant |requests| == i && page == i + 1
      invariant q == PageQuery(query, i)
      invariant PageRequests(requests, sandbox, verb, endpoint, body, query)
      invariant items == Concat(pages[..i])
      decreases |pages| - i
    {
      var request, data, next := RequestPage(sandbox, verb, endpoint, body, query, q, i, pages[i]);
      AppendPageRequest(requests, request, sandbox, verb, endpoint, body, query);
      requests := requests + [request];
      ConcatSnoc(pages, i);
      items := items + data;
      NextPageQuery(query, i);
      page := page + 1;
      q := q["page" := Num(page)];
      more := next;
      i := i + 1;
    }
  }

  /** One round of the do-while: the request for page `i + 1`, the items its response adds, and
      whether the loop goes on. */
  method RequestPage(sandbox: bool, verb: string, endpoint: string, body: Record, query: Record, q: Record, i: nat, responseData: Page)
    returns (request: RequestOptions, data: seq<Value>, more: bool)
    requires q == PageQuery(query, i)
    ensures IsPageRequest(request, sandbox, verb, endpoint, body, query, i)
    ensures data == PageItems(responseData)
    ensures more == Continues(responseData)
  {
    request := BuildRequest(sandbox, verb, endpoint, body, q, false);
    assert |q| > 0 by { assert "page" in q.Keys; }
    var d := Field(responseData, "data");
    data := [];
    if Truthy(d) && d.Arr? {
      data := d.items;
    }
    more := Truthy(Prop(Field(responseData, "links"), "next")) || JsLength(d) == q["per_page"];
  }

  /** A source of `items` served 100 at a time with no next links: full pages, then one short
      page (possibly empty). */
  function ServedPages(items: seq<Value>): (pages: seq<Page>)
    ensures |pages| == |items| / PageSize + 1
    decreases |items|
  {
    if |items| < PageSize then [map["data" := Arr(items)]]
    else [map["data" := Arr(items[..PageSize])]] + ServedPages(items[PageSize..])
  }

  lemma {:induction false} ConcatPrepend(first: Page, rest: seq<Page>)
    ensures Concat([first] + rest) == PageItems(first) + Concat(rest)
    decreases |rest|
  {
    if rest != [] {
      var all := [first] + rest;
      assert all[..|all| - 1] == [first] + rest[..|rest| - 1];
      ConcatPrepend(first, rest[..|rest| - 1]);
    } else {
      assert [first][..0] == [];
    }
  }

  /** Every full page continues the loop and the short last page stops it. */
  lemma {:induction false} ServedPagesStop(items: seq<Value>)
    ensures Terminates(ServedPages(items))
    ensures LastRequestIndex(ServedPages(items)) == |items| / PageSize
    decreases |items|
  {
    var pages := ServedPages(items);
    if |items| < PageSize {
      assert !Continues(pages[0]);
    } else {
      var rest := ServedPages(items[PageSize..]);
      ServedPagesStop(items[PageSize..]);
      assert pages[1..] == rest;
      assert Continues(pages[0]);
    }
  }

  /** The served pages hold the items, in order. */
  lemma {:induction false} ServedPagesConcat(items: seq<Value>)
    ensures Concat(ServedPages(items)) == items
    decreases |items|
  {
    var pages := ServedPages(items);
    if |items| < PageSize {
      assert pages[..0] == [];
    } else {
      var rest := ServedPages(items[PageSize..]);
      ServedPagesConcat(items[PageSize..]);
      assert pages == [pages[0]] + rest;
      ConcatPrepend(pages[0], rest);
      assert items[..PageSize] + items[PageSize..] == items;
    }
  }

  // ---------------------------------------------------------------- formats

  /** One operation of `GET /operations`; a missing format is the empty string. */
  datatype Operation = Operation(input_format: string, output_format: string)

  datatype FormatOption = FormatOption(name: string, value: string)

  /** The format each operation contributes: the output format when an input format is given. */
  function Picked(ops: seq<Operation>, inputFormat: string): (formats: seq<string>)
    ensures |formats| == |ops|
    ensures forall k :: 0 <= k < |ops| ==>
      formats[k] == if inputFormat != "" then ops[k].output_format else ops[k].input_format
  {
    seq(|ops|, k requires 0 <= k < |ops| => if inputFormat != "" then ops[k].output_format else ops[k].input_format)
  }

  /** The non-empty values of `xs`, each where it first occurs. */
  function FirstOccurrences(xs: seq<string>): seq<string>
    decreases |xs|
  {
    if xs == [] then []
    else
      var seen := FirstOccurrences(xs[..|xs| - 1]);
      var x := xs[|xs| - 1];
      if x == "" || x in seen then seen else seen + [x]
  }

  /** Each distinct non-empty value appears once and nothing else appears. */
  lemma {:induction false} FirstOccurrencesDistinct(xs: seq<string>)
    ensures forall i, j :: 0 <= i < j < |FirstOccurrences(xs)| ==> FirstOccurrences(xs)[i] != FirstOccurrences(xs)[j]
    ensures forall x :: x in FirstOccurrences(xs) <==> x != "" && x in xs
    decreases |xs|
  {
    if xs != [] {
      var init := xs[..|xs| - 1];
      FirstOccurrencesDistinct(init);
      assert forall x :: x in xs <==> x in init || x == xs[|xs| - 1];
    }
  }

  /** The index of the first occurrence of `x` in `xs`. */
  function IndexOf(xs: seq<string>, x: string): (i: nat)
    requires x in xs
    ensures i < |xs| && xs[i] == x && forall j :: 0 <= j < i ==> xs[j] != x
    decreases |xs|
  {
    if xs[0] == x then 0 else 1 + IndexOf(xs[1..], x)
  }

  lemma {:induction false} IndexOfPrefix(xs: seq<string>, n: nat, x: string)
    requires n <= |xs| && x in xs[..n]
    ensures x in xs && IndexOf(xs, x) == IndexOf(xs[..n], x)
  {
    var i := IndexOf(xs[..n], x);
    assert xs[i] == x;
    var k := IndexOf(xs, x);
    assert !(k < i) && !(i < k);
  }

  /** The values of `r` all occur in `xs`, in the order of their first occurrences there. */
  predicate InFirstOccurrenceOrder(r: seq<string>, xs: seq<string>) {
    forall i, j :: 0 <= i < j < |r| ==> FirstOccursBefore(r, xs, i, j)
  }

  predicate FirstOccursBefore(r: seq<string>, xs: seq<string>, i: nat, j: nat)
    requires i < j < |r|
  {
    r[i] in xs && r[j] in xs && IndexOf(xs, r[i]) < IndexOf(xs, r[j])
  }

  /** The values keep the order in which they first occur. */
  lemma {:induction false} FirstOccurrencesOrdered(xs: seq<string>)
    ensures InFirstOccurrenceOrder(FirstOccurrences(xs), xs)
    decreases |xs|
  {
    if xs != [] {
      var n := |xs| - 1;
      var init := xs[..n];
      var r := FirstOccurrences(xs);
      var s := FirstOccurrences(init);
      FirstOccurrencesOrdered(init);
      FirstOccurrencesDistinct(init);
      assert r == s || (r == s + [xs[n]] && xs[n] !in s && xs[n] != "");
      forall i, j | 0 <= i < j < |r|
        ensures FirstOccursBefore(r, xs, i, j)
      {
        assert r[i] == s[i] && s[i] in s;
        IndexOfPrefix(xs, n, r[i]);
        if j < |s| {
          assert r[j] == s[j] && s[j] in s;
          IndexOfPrefix(xs, n, r[j]);
          assert FirstOccursBefore(s, init, i, j);
        } else {
          assert r[j] == xs[n] && r[j] !in init;
          var k := IndexOf(xs, r[j]);
          assert xs[k] == r[j];
        }
      }
    }
  }

  /** A format value with its display name, `value.toUpperCase()`. */
  function AsOptions(values: seq<string>): (options: seq<FormatOption>)
    ensures |options| == |values|
    ensures forall k :: 0 <= k < |values| ==> options[k] == FormatOption(Text.ToUpper(values[k]), values[k])
  {
    seq(|values|, k requires 0 <= k < |values| => FormatOption(Text.ToUpper(values[k]), values[k]))
  }

  /** The collecting loop of `getFormats`, with its `seen` set. */
  method CollectFormats(ops: seq<Operation>, inputFormat: string) returns (formats: seq<FormatOption>)
    ensures formats == AsOptions(FirstOccurrences(Picked(ops, inputFormat)))
  {
    ghost var picked := Picked(ops, inputFormat);
    ghost var values: seq<string> := [];
    formats := [];
    var seen: set<string> := {};
    for i := 0 to |ops|
      invariant values == FirstOccurrences(picked[..i])
      invariant formats == AsOptions(values)
      invariant forall x :: x in seen <==> x in values
    {
      var format := if inputFormat != "" then ops[i].output_format else ops[i].input_format;
      assert format == picked[i];
      SeenStep(picked, i, seen);
      if format != "" && format !in seen {
        seen := seen + {format};
        AsOptionsSnoc(values, format);
        formats := formats + [FormatOption(Text.ToUpper(format), format)];
        values := values + [format];
      }
    }
    assert picked[..|ops|] == picked;
  }

  /** One round of the `seen` loop: a new non-empty format is appended and remembered, any other
      changes nothing. */
  lemma SeenStep(xs: seq<string>, i: nat, seen: set<string>)
    requires i < |xs|
    requires forall x :: x in seen <==> x in FirstOccurrences(xs[..i])
    ensures xs[i] != "" && xs[i] !in seen ==>
      FirstOccurrences(xs[..i + 1]) == FirstOccurrences(xs[..i]) + [xs[i]] &&
      forall x :: x in seen + {xs[i]} <==> x in FirstOccurrences(xs[..i + 1])
    ensures !(xs[i] != "" && xs[i] !in seen) ==> FirstOccurrences(xs[..i + 1]) == FirstOccurrences(xs[..i])
  {
    assert xs[..i + 1][..i] == xs[..i];
  }

  lemma AsOptionsSnoc(values: seq<string>, x: string)
    ensures AsOptions(values + [x]) == AsOptions(values) + [FormatOption(Text.ToUpper(x), x)]
  {
  }

  predicate SortedByName(formats: seq<FormatOption>) {
    forall i, j :: 0 <= i < j < |formats| ==> Text.LexLe(formats[i].name, formats[j].name)
  }

  predicate DistinctValues(formats: seq<FormatOption>) {
    forall i, j :: 0 <= i < j < |formats| ==> formats[i].value != formats[j].value
  }

  /** Stable insertion of one option after every option whose name is not greater. */
  function InsertByName(sorted: seq<FormatOption>, x: FormatOption): seq<FormatOption>
    decreases |sorted|
  {
    if sorted == [] then [x]
    else if Text.LexLe(sorted[0].name, x.name) then [sorted[0]] + InsertByName(sorted[1..], x)
    else [x] + sorted
  }

  /** Insertion adds exactly the one option. */
  lemma {:induction false} InsertByNamePermutes(sorted: seq<FormatOption>, x: FormatOption)
    ensures multiset(InsertByName(sorted, x)) == multiset(sorted) + multiset{x}
    decreases |sorted|
  {
    if sorted != [] && Text.LexLe(sorted[0].name, x.name) {
      InsertByNamePermutes(sorted[1..], x);
      assert sorted == [sorted[0]] + sorted[1..];
    }
  }

  /** Insertion into a sorted list keeps it sorted. */
  lemma {:induction false} InsertByNameSorted(sorted: seq<FormatOption>, x: FormatOption)
    requires SortedByName(sorted)
    ensures SortedByName(InsertByName(sorted, x))
    decreases |sorted|
  {
    if sorted == [] {
    } else if Text.LexLe(sorted[0].name, x.name) {
      var rest := InsertByName(sorted[1..], x);
      InsertByNameSorted(sorted[1..], x);
      forall y | y in rest ensures Text.LexLe(sorted[0].name, y.name) {
        InsertedFrom(sorted[1..], x, y);
        if y != x {
          var k :| 0 <= k < |sorted[1..]| && sorted[1..][k] == y;
          assert sorted[k + 1] == y;
        }
      }
      SortedCons(sorted[0], rest);
    } else {
      Text.LexLeTotal(sorted[0].name, x.name);
      forall y | y in sorted ensures Text.LexLe(x.name, y.name) {
        var k :| 0 <= k < |sorted| && sorted[k] == y;
        if k > 0 { Text.LexLeTransitive(x.name, sorted[0].name, y.name); }
      }
      SortedCons(x, sorted);
    }
  }

  /** An option no greater than every option of a sorted list can go in front of it. */
  lemma SortedCons(h: FormatOption, rest: seq<FormatOption>)
    requires SortedByName(rest)
    requires forall y :: y in rest ==> Text.LexLe(h.name, y.name)
    ensures SortedByName([h] + rest)
  {
    var all := [h] + rest;
    forall i, j | 0 <= i < j < |all| ensures Text.LexLe(all[i].name, all[j].name) {
      if i == 0 { assert all[j] == rest[j - 1]; } else { assert all[i] == rest[i - 1] && all[j] == rest[j - 1]; }
    }
  }

  /** Inserting an option whose value is new keeps the values distinct. */
  lemma {:induction false} InsertByNameDistinct(sorted: seq<FormatOption>, x: FormatOption)
    requires DistinctValues(sorted) && forall y :: y in sorted ==> y.value != x.value
    ensures DistinctValues(InsertByName(sorted, x))
    decreases |sorted|
  {
    if sorted == [] {
    } else if Text.LexLe(sorted[0].name, x.name) {
      var tail := sorted[1..];
      DistinctTail(sorted);
      InsertByNameDistinct(tail, x);
      var rest := InsertByName(tail, x);
      forall y | y in rest ensures y.value != sorted[0].value {
        InsertedFrom(tail, x, y);
      }
      var all := [sorted[0]] + rest;
      forall i, j | 0 <= i < j < |all| ensures all[i].value != all[j].value {
        assert all[j] == rest[j - 1];
        if i > 0 { assert all[i] == rest[i - 1]; }
      }
    } else {
      var all := [x] + sorted;
      forall i, j | 0 <= i < j < |all| ensures all[i].value != all[j].value {
        assert all[j] == sorted[j - 1];
        if i > 0 { assert all[i] == sorted[i - 1]; }
      }
    }
  }

  /** Past its head, a list with distinct values still has them, and none equals the head's. */
  lemma DistinctTail(sorted: seq<FormatOption>)
    requires DistinctValues(sorted) && sorted != []
    ensures DistinctValues(sorted[1..])
    ensures forall y :: y in sorted[1..] ==> y.value != sorted[0].value && y in sorted
  {
    var tail := sorted[1..];
    forall i, j | 0 <= i < j < |tail| ensures tail[i].value != tail[j].value {
      assert tail[i] == sorted[i + 1] && tail[j] == sorted[j + 1];
    }
    forall y | y in tail ensures y.value != sorted[0].value && y in sorted {
      var k :| 0 <= k < |tail| && tail[k] == y;
      assert sorted[k + 1] == y;
    }
  }

  /** What insertion yields is the inserted option or one of the list's. */
  lemma InsertedFrom(sorted: seq<FormatOption>, x: FormatOption, y: FormatOption)
    requires y in InsertByName(sorted, x)
    ensures y == x || y in sorted
  {
    InsertByNamePermutes(sorted, x);
    assert y in multiset(InsertByName(sorted, x));
  }

  /** `formats.sort((a, b) => a.name.localeCompare(b.name))`, with code-point order for the collation:
      a sorted permutation of its input. */
  function SortByName(formats: seq<FormatOption>): (r: seq<FormatOption>)
    ensures SortedByName(r)
    ensures multiset(r) == multiset(formats)
    ensures DistinctValues(formats) ==> DistinctValues(r)
    decreases |formats|
  {
    if formats == [] then []
    else
      var n := |formats| - 1;
      var init := formats[..n];
      assert formats == init + [formats[n]];
      var sorted := SortByName(init);
      InsertByNameSorted(sorted, formats[n]);
      InsertByNamePermutes(sorted, formats[n]);
      assert DistinctValues(formats) ==> forall y :: y in sorted ==> y.value != formats[n].value by {
        if DistinctValues(formats) {
          forall y | y in sorted ensures y.value != formats[n].value {
            assert y in multiset(init);
            var k :| 0 <= k < n && init[k] == y;
          }
        }
      }
      if DistinctValues(formats) then
        InsertByNameDistinct(sorted, formats[n]);
        InsertByName(sorted, formats[n])
      else InsertByName(sorted, formats[n])
  }

  /** `getFormats`: the catalogue query (`filter[input_format]` only when an input format is given),
      then the distinct formats as options, sorted by name. `data` is `operations.data`, `None`
      when absent. */
  method GetFormats(sandbox: bool, inputFormat: string, data: Option<seq<Operation>>)
    returns (request: RequestOptions, formats: seq<FormatOption>)
    ensures request.url == BaseUrl(sandbox, false) + "/operations" && request.verb == "GET" && request.body == None
    ensures request.qs.Some? && "filter[operation]" in request.qs.value && request.qs.value["filter[operation]"] == Str("convert")
    ensures request.qs.value.Keys == {"filter[operation]"} + (if inputFormat != "" then {"filter[input_format]"} else {})
    ensures inputFormat != "" ==> request.qs.value["filter[input_format]"] == Str(inputFormat)
    ensures SortedByName(formats) && DistinctValues(formats)
    ensures multiset(formats) == multiset(AsOptions(FirstOccurrences(Picked(if data.Some? then data.value else [], inputFormat))))
  {
    var query: Record := map["filter[operation]" := Str("convert")];
    if inputFormat != "" {
      query := query["filter[input_format]" := Str(inputFormat)];
    }
    request := BuildRequest(sandbox, "GET", "/operations", map[], query, false);
    var ops := if data.Some? then data.value else [];
    var collected := CollectFormats(ops, inputFormat);
    FirstOccurrencesDistinct(Picked(ops, inputFormat));
    formats := SortByName(collected);
  }

  /** What `getFormats` lists: every non-empty format of the catalogue exactly once, named by its
      upper-case form. */
  lemma GetFormatsContents(ops: seq<Operation>, inputFormat: string, formats: seq<FormatOption>)
    requires multiset(formats) == multiset(AsOptions(FirstOccurrences(Picked(ops, inputFormat))))
    ensures forall f :: f in formats ==> f.name == Text.ToUpper(f.value) && f.value != ""
    ensures forall v :: v in Picked(ops, inputFormat) && v != "" ==> FormatOption(Text.ToUpper(v), v) in formats
  {
    var values := FirstOccurrences(Picked(ops, inputFormat));
    var opts := AsOptions(values);
    FirstOccurrencesDistinct(Picked(ops, inputFormat));
    forall f | f in formats ensures f.name == Text.ToUpper(f.value) && f.value != "" {
      assert f in multiset(opts);
      var k :| 0 <= k < |opts| && opts[k] == f;
      assert values[k] in values;
    }
    forall v | v in Picked(ops, inputFormat) && v != "" ensures FormatOption(Text.ToUpper(v), v) in formats {
      var k :| 0 <= k < |values| && values[k] == v;
      assert opts[k] in multiset(formats);
    }
  }

  /** Deduplication compares exact strings: `PDF` and `pdf` are two formats. For the catalogue
      pdf to jpg, png and PDF the list is JPG, PDF, PNG. */
  lemma FormatsExactDedup()
    ensures var ops := [Operation("pdf", "jpg"), Operation("pdf", "png"), Operation("pdf", "PDF")];
      FirstOccurrences(Picked(ops, "pdf")) == ["jpg", "png", "PDF"]
    ensures SortByName(AsOptions(["jpg", "png", "PDF"])) ==
      [FormatOption("JPG", "jpg"), FormatOption("PDF", "PDF"), FormatOption("PNG", "png")]
  {
    var ops := [Operation("pdf", "jpg"), Operation("pdf", "png"), Operation("pdf", "PDF")];
    assert Picked(ops, "pdf") == ["jpg", "png", "PDF"];
    DedupExample();
    UpperExamples();
    var opts := AsOptions(["jpg", "png", "PDF"]);
    assert opts == [FormatOption("JPG", "jpg"), FormatOption("PNG", "png"), FormatOption("PDF", "PDF")];
    SortExample();
  }

  lemma DedupExample()
    ensures FirstOccurrences(["jpg", "png", "PDF"]) == ["jpg", "png", "PDF"]
  {
    var xs := ["jpg", "png", "PDF"];
    assert xs[..2] == ["jpg", "png"] && xs[..2][..1] == ["jpg"] && xs[..2][..1][..0] == [];
    assert FirstOccurrences(xs[..2][..1]) == ["jpg"];
    assert "png" != "jpg" by { assert "png"[0] != "jpg"[0]; }
    assert FirstOccurrences(xs[..2]) == ["jpg", "png"];
    assert "PDF"[0] != "jpg"[0] && "PDF"[0] != "png"[0];
  }

  lemma SortExample()
    ensures SortByName([FormatOption("JPG", "jpg"), FormatOption("PNG", "png"), FormatOption("PDF", "PDF")]) ==
      [FormatOption("JPG", "jpg"), FormatOption("PDF", "PDF"), FormatOption("PNG", "png")]
  {
    var jpg, png, pdf := FormatOption("JPG", "jpg"), FormatOption("PNG", "png"), FormatOption("PDF", "PDF");
    var opts := [jpg, png, pdf];
    NameOrderExample();
    assert opts[..2] == [jpg, png];
    SortPrefixExample();
    assert InsertByName([png], pdf) == [pdf, png];
    assert InsertByName([jpg, png], pdf) == [jpg, pdf, png];
  }

  lemma SortPrefixExample()
    ensures SortByName([FormatOption("JPG", "jpg"), FormatOption("PNG", "png")]) ==
      [FormatOption("JPG", "jpg"), FormatOption("PNG", "png")]
  {
    var jpg, png := FormatOption("JPG", "jpg"), FormatOption("PNG", "png");
    NameOrderExample();
    assert [jpg, png][..1] == [jpg] && [jpg][..0] == [];
    assert SortByName([jpg]) == [jpg];
    assert InsertByName([jpg], png) == [jpg, png];
  }

  lemma NameOrderExample()
    ensures Text.LexLe("JPG", "PNG") && Text.LexLe("JPG", "PDF") && !Text.LexLe("PNG", "PDF")
  {
    assert "JPG"[0] < "PNG"[0] && "JPG"[0] < "PDF"[0];
    assert "PDF"[0] == "PNG"[0] && "PNG"[1..] == "NG" && "PDF"[1..] == "DF" && "NG"[0] > "DF"[0];
  }

  lemma UpperExamples()
    ensures Text.ToUpper("jpg") == "JPG" && Text.ToUpper("png") == "PNG" && Text.ToUpper("PDF") == "PDF"
  {
    assert Text.ToUpper("jpg")[0] == 'J' && Text.ToUpper("jpg")[1] == 'P' && Text.ToUpper("jpg")[2] == 'G';
    assert Text.ToUpper("png")[0] == 'P' && Text.ToUpper("png")[1] == 'N' && Text.ToUpper("png")[2] == 'G';
    assert Text.ToUpper("PDF")[0] == 'P' && Text.ToUpper("PDF")[1] == 'D' && Text.ToUpper("PDF")[2] == 'F';
  }

  // ---------------------------------------------------------------- job and task labels

  /** An entry of a dropdown list: its label and the id it selects. */
  datatype PropertyOption = PropertyOption(name: string, value: Value)

  /** `${job.id} (${job.status})`. */
  function JobHead(job: Value): string {
    JsString(Prop(job, "id")) + " (" + JsString(Prop(job, "status")) + ")"
  }

  /** `${job.id} (${job.status})`, then ` - ${job.tag}` when the tag is truthy. */
  function JobOption(job: Value): (o: PropertyOption)
    ensures o.value == Prop(job, "id")
    ensures |JobHead(job)| <= |o.name| && o.name[..|JobHead(job)|] == JobHead(job)
    ensures Truthy(Prop(job, "tag")) <==> |o.name| > |JobHead(job)|
    ensures Truthy(Prop(job, "tag")) ==> o.name[|JobHead(job)|..] == " - " + JsString(Prop(job, "tag"))
  {
    var head := JobHead(job);
    var name := head + (if Truthy(Prop(job, "tag")) then " - " + JsString(Prop(job, "tag")) else "");
    assert name[..|head|] == head;
    PropertyOption(name, Prop(job, "id"))
  }

  /** `${task.id} (${task.operation}) - ${task.status}`. */
  function TaskOption(task: Value): (o: PropertyOption)
    ensures o.value == Prop(task, "id")
    ensures o.name == JsString(Prop(task, "id")) + " (" + JsString(Prop(task, "operation")) + ") - " + JsString(Prop(task, "status"))
  {
    PropertyOption(JsString(Prop(task, "id")) + " (" + JsString(Prop(task, "operation")) + ") - " + JsString(Prop(task, "status")), Prop(task, "id"))
  }

  /** `getJobs`: all pages of `/jobs`, one option per job, in the order served. */
  method GetJobs(sandbox: bool, pages: seq<Page>) returns (options: seq<PropertyOption>)
    requires Terminates(pages)
    ensures |options| == |Concat(pages[..LastRequestIndex(pages) + 1])|
    ensures forall k :: 0 <= k < |options| ==> options[k] == JobOption(Concat(pages[..LastRequestIndex(pages) + 1])[k])
  {
    var jobs, _ := RequestAllItems(sandbox, "GET", "/jobs", map[], map[], pages);
    options := seq(|jobs|, k requires 0 <= k < |jobs| => JobOption(jobs[k]));
  }

  /** `getTasks`: all pages of `/tasks`, one option per task, in the order served. */
  method GetTasks(sandbox: bool, pages: seq<Page>) returns (options: seq<PropertyOption>)
    requires Terminates(pages)
    ensures |options| == |Concat(pages[..LastRequestIndex(pages) + 1])|
    ensures forall k :: 0 <= k < |options| ==> options[k] == TaskOption(Concat(pages[..LastRequestIndex(pages) + 1])[k])
  {
    var tasks, _ := RequestAllItems(sandbox, "GET", "/tasks", map[], map[], pages);
    options := seq(|tasks|, k requires 0 <= k < |tasks| => TaskOption(tasks[k]));
  }
}
