/** Database tools. `query_database` forwards the query and reshapes every
    returned row into a summary with a display title; `create_database` and
    `update_database` build their payloads from the arguments. */
module NotionDatabases {
  import opened Js
  import opened Remote
  import opened Envelopes
  import opened NotionApi

  /** `prop?.title?.[0]?.plain_text` */
  function PlainTitle(prop: Value): Value {
    Get(First(Get(prop, "title")), "plain_text")
  }

  /** `page.properties.Name?.title?.[0]?.plain_text ||
       page.properties.Title?.title?.[0]?.plain_text || 'Untitled'`; reading
      `properties` of a nullish page, or `Name` of nullish properties, throws. */
  function RowTitle(page: Value): (r: Result<Value>)
    ensures r.Ok? <==> !Nullish(page) && !Nullish(Get(page, "properties"))
  {
    var props :- Member(page, "properties");
    var name :- Member(props, "Name");
    Ok(Or(Or(PlainTitle(name), PlainTitle(Get(props, "Title"))), Str("Untitled")))
  }

  /** The title fallback: the `Name` title text when it is truthy, otherwise
      the `Title` title text when that is truthy, otherwise 'Untitled'. An
      empty text counts as missing. */
  lemma TitleFallback(page: Value)
    requires !Nullish(page) && !Nullish(Get(page, "properties"))
    ensures var props := Get(page, "properties");
      var name := PlainTitle(Get(props, "Name"));
      var title := PlainTitle(Get(props, "Title"));
      && (Truthy(name) ==> RowTitle(page) == Ok(name))
      && (!Truthy(name) && Truthy(title) ==> RowTitle(page) == Ok(title))
      && (!Truthy(name) && !Truthy(title) ==> RowTitle(page) == Ok(Str("Untitled")))
  {
  }

  /** A row whose properties hold a one-run `Name` title gets that text as
      its title, whatever its `Title` says. */
  lemma NameWins(page: Value, text: string)
    requires page.Obj? && Get(page, "properties").Obj?
    requires Get(Get(page, "properties"), "Name") == Obj(map["title" := Arr([Obj(map["plain_text" := Str(text)])])])
    requires text != ""
    ensures RowTitle(page) == Ok(Str(text))
  {
  }

  /** The summary of one result row. */
  function Row(page: Value): (r: Result<Value>)
    ensures r.Ok? <==> RowTitle(page).Ok?
    ensures r.Ok? ==> Get(r.value, "title") == RowTitle(page).value
    ensures r.Ok? ==> forall k :: k in RowFields ==> Get(r.value, k) == Get(page, k)
  {
    var title :- RowTitle(page);
    Ok(Obj(map[
      "id" := Get(page, "id"), "url" := Get(page, "url"), "title" := title,
      "properties" := Get(page, "properties"), "created_time" := Get(page, "created_time"),
      "last_edited_time" := Get(page, "last_edited_time")]))
  }

  /** The fields a summary copies from its row unchanged. */
  const RowFields: set<string> := {"id", "url", "properties", "created_time", "last_edited_time"}

  /** `results.map(row)`: the first row that throws ends the mapping. */
  function Rows(pages: seq<Value>): (r: Result<seq<Value>>)
    ensures r.Ok? <==> forall i :: 0 <= i < |pages| ==> Row(pages[i]).Ok?
    ensures r.Ok? ==> |r.value| == |pages|
    ensures r.Ok? ==> forall i :: 0 <= i < |pages| ==> r.value[i] == Row(pages[i]).value
  {
    if |pages| == 0 then Ok([])
    else
      match Row(pages[0])
      case Err(f) => Err(f)
      case Ok(first) =>
        match Rows(pages[1..])
        case Err(f) =>
          assert forall i :: 1 <= i < |pages| ==> pages[i] == pages[1..][i - 1];
          Err(f)
        case Ok(rest) =>
          assert forall i :: 1 <= i < |pages| ==> pages[i] == pages[1..][i - 1];
          Ok([first] + rest)
  }

  /** `response.results.map(...)`: the listing must be an array. */
  function ResultRows(response: Value): Result<seq<Value>> {
    var results :- Member(response, "results");
    if results.Arr? then Rows(results.items)
    else if Nullish(results) then Err(TypeError("Cannot read properties of " + Show(results) + " (reading 'map')"))
    else Err(TypeError("response.results.map is not a function"))
  }

  /** The reshaped answer: the summaries, the paging fields and the count. */
  function Reshape(response: Value): Result<Value> {
    var rows :- ResultRows(response);
    Ok(Obj(map[
      "results" := Arr(rows), "has_more" := Get(response, "has_more"),
      "next_cursor" := Get(response, "next_cursor"), "total_results" := Num(|rows|)]))
  }

  /** The query the tool sends: the arguments' database, filter, sorts,
      cursor and page size. */
  function QueryOf(args: Value): Request {
    QueryDatabaseRequest(map[
      "database_id" := Get(args, "database_id"), "filter" := Get(args, "filter"), "sorts" := Get(args, "sorts"),
      "start_cursor" := Get(args, "start_cursor"), "page_size" := Get(args, "page_size")])
  }

  /** `query_database`: one query, then the reshaped answer. */
  function QueryDatabase(args: Value, oracle: Oracle): (run: Run<Request, Envelope>)
    ensures run.trace == [QueryOf(args)]
    ensures oracle(QueryOf(args)).Failure? ==> run.outcome == Err(oracle(QueryOf(args)).fault)
    ensures oracle(QueryOf(args)).Answer? ==>
      (run.outcome.Ok? <==> Reshape(oracle(QueryOf(args)).body).Ok?)
    ensures oracle(QueryOf(args)).Answer? && run.outcome.Ok? ==>
      Payload(run.outcome.value) == Some(Reshape(oracle(QueryOf(args)).body).value)
  {
    var query := QueryOf(args);
    match oracle(query)
    case Failure(f) => Run([query], Err(f))
    case Answer(response) =>
      match Reshape(response)
      case Err(f) => Run([query], Err(f))
      case Ok(v) => Run([query], Ok(JsonEnvelope(v)))
  }

  /** The query carries the filter and sorts exactly as given, and asks for
      100 rows per page unless told otherwise. */
  lemma QuerySends(args: Value)
    ensures QueryOf(args).endpoint == DatabasesQuery
    ensures Get(QueryOf(args).params, "database_id") == Get(args, "database_id")
    ensures Get(QueryOf(args).params, "filter") == Get(args, "filter")
    ensures Get(QueryOf(args).params, "sorts") == Get(args, "sorts")
    ensures Get(QueryOf(args).params, "page_size") == Default(Get(args, "page_size"), Num(100))
  {
  }

  /** The answer lists one summary per returned row, in the same order,
      counts them in `total_results`, and passes `has_more` and
      `next_cursor` through. */
  lemma ReshapeRows(response: Value, rows: seq<Value>)
    requires response.Obj? && Get(response, "results") == Arr(rows)
    requires forall i :: 0 <= i < |rows| ==> !Nullish(rows[i]) && !Nullish(Get(rows[i], "properties"))
    ensures Reshape(response).Ok?
    ensures var answer := Reshape(response).value;
      && Get(answer, "total_results") == Num(|rows|)
      && Get(answer, "has_more") == Get(response, "has_more")
      && Get(answer, "next_cursor") == Get(response, "next_cursor")
      && Get(answer, "results").Arr?
      && |Get(answer, "results").items| == |rows|
      && forall i :: 0 <= i < |rows| ==>
           && Get(Get(answer, "results").items[i], "title") == RowTitle(rows[i]).value
           && forall k :: k in RowFields ==> Get(Get(answer, "results").items[i], k) == Get(rows[i], k)
  {
    assert ResultRows(response) == Rows(rows);
  }

  function ListDatabases(oracle: Oracle): Run<Request, Envelope> {
    JsonReply(ListDatabasesRequest(), oracle)
  }

  function GetDatabase(args: Value, oracle: Oracle): Run<Request, Envelope> {
    JsonReply(GetDatabaseRequest(Get(args, "database_id")), oracle)
  }

  /** The `create_database` payload: under the given page, titled with the
      given text. */
  function CreateDatabasePayload(args: Value): (p: Value)
    ensures Get(Get(p, "parent"), "type") == Str("page_id")
    ensures Get(Get(p, "parent"), "page_id") == Get(args, "parent_page_id")
    ensures TextRuns(Get(p, "title")) == Some([Get(args, "title")])
    ensures Get(p, "properties") == Get(args, "properties") && Get(p, "icon") == Get(args, "icon")
  {
    Obj(map[
      "parent" := Obj(map["type" := Str("page_id"), "page_id" := Get(args, "parent_page_id")]),
      "title" := BuildRichText(Get(args, "title")),
      "properties" := Get(args, "properties"), "icon" := Get(args, "icon")])
  }

  function CreateDatabase(args: Value, oracle: Oracle): Run<Request, Envelope> {
    JsonReply(CreateDatabaseRequest(CreateDatabasePayload(args)), oracle)
  }

  /** The `update_database` changes: each of title, properties and icon only
      when it is truthy, the title as rich text. */
  function UpdateData(args: Value): (m: map<string, Value>)
    ensures forall k :: k in m <==> k in {"title", "properties", "icon"} && Truthy(Get(args, k))
    ensures "title" in m ==> TextRuns(m["title"]) == Some([Get(args, "title")])
    ensures "properties" in m ==> m["properties"] == Get(args, "properties")
    ensures "icon" in m ==> m["icon"] == Get(args, "icon")
  {
    var title := Get(args, "title");
    var properties := Get(args, "properties");
    var icon := Get(args, "icon");
    var m1 := PutIf(map[], Truthy(title), "title", BuildRichText(title));
    var m2 := PutIf(m1, Truthy(properties), "properties", properties);
    PutIf(m2, Truthy(icon), "icon", icon)
  }

  function UpdateDatabase(args: Value, oracle: Oracle): Run<Request, Envelope> {
    JsonReply(UpdateDatabaseRequest(Get(args, "database_id"), Obj(UpdateData(args))), oracle)
  }

  /** The update names the database and carries exactly the truthy changes. */
  lemma UpdateDatabaseSends(args: Value, oracle: Oracle)
    ensures var run := UpdateDatabase(args, oracle);
      var sent := run.trace[0].params;
      && run.trace == [run.trace[0]]
      && run.trace[0].endpoint == DatabasesUpdate
      && Get(sent, "database_id") == Get(args, "database_id")
      && sent.fields.Keys == {"database_id"} + UpdateData(args).Keys
      && forall k :: k in UpdateData(args) ==> Get(sent, k) == UpdateData(args)[k]
  {
  }
}
