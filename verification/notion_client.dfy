/** The workspace client: the request each client method sends through the
    workspace SDK, and the value builders the tools share (rich text and
    typed property values). A request is the SDK endpoint called together
    with the parameter object handed to it. */
module NotionApi {
  import opened Js
  import opened Remote
  import NotionIds

  datatype Endpoint =
    | Search
    | PagesRetrieve | PagesCreate | PagesUpdate | PagePropertiesRetrieve
    | DatabasesRetrieve | DatabasesQuery | DatabasesCreate | DatabasesUpdate
    | BlocksRetrieve | BlockChildrenList | BlockChildrenAppend | BlocksUpdate | BlocksDelete
    | CommentsCreate | CommentsList
    | UsersList | UsersRetrieve | UsersMe

  datatype Request = Request(endpoint: Endpoint, params: Value)

  type Oracle = Request -> Reply

  /** The page size the listing methods use when none is given. */
  const DefaultPageSize: Value := Num(100)

  // ---------------------------------------------------------------------
  // Client methods

  function SearchRequest(query: Value, filter: Value, sort: Value, startCursor: Value, pageSize: Value): Request {
    Request(Search, Obj(map["query" := query, "filter" := filter, "sort" := sort,
                            "start_cursor" := startCursor, "page_size" := Default(pageSize, DefaultPageSize)]))
  }

  function GetPageRequest(pageId: Value): Request {
    Request(PagesRetrieve, Obj(map["page_id" := pageId]))
  }

  function CreatePageRequest(params: Value): Request {
    Request(PagesCreate, params)
  }

  /** `const { page_id, ...rest } = params; update({ page_id, ...rest })` */
  function UpdatePageRequest(params: map<string, Value>): Request {
    Request(PagesUpdate, Obj(params["page_id" := Get(Obj(params), "page_id")]))
  }

  /** Deleting a page archives it. */
  function DeletePageRequest(pageId: Value): Request {
    Request(PagesUpdate, Obj(map["page_id" := pageId, "archived" := Bool(true)]))
  }

  function PagePropertyRequest(pageId: Value, propertyId: Value): Request {
    Request(PagePropertiesRetrieve, Obj(map["page_id" := pageId, "property_id" := propertyId]))
  }

  /** The search filter that selects databases. */
  const DatabaseFilter: Value := Obj(map["property" := Str("object"), "value" := Str("database")])

  predicate SelectsDatabases(filter: Value) {
    Get(filter, "property") == Str("object") && Get(filter, "value") == Str("database")
  }

  /** `listDatabases` as written: it hands `search` the object
      `{ filter: { property, value } }` as its `filter` argument, so the
      database filter ends up one level too deep. */
  function ListDatabasesAsWritten(): Request {
    SearchRequest(Str(""), Obj(map["filter" := DatabaseFilter]), Undef, Undef, Undef)
  }

  /** The filter the search receives from `listDatabases` as written does not
      select databases itself; only its nested `filter` field would. */
  lemma ListDatabasesFilterNested()
    ensures var filter := Get(ListDatabasesAsWritten().params, "filter");
      && !SelectsDatabases(filter)
      && SelectsDatabases(Get(filter, "filter"))
  {
  }

  /** `listDatabases`, with the filter passed as the search filter itself. */
  function ListDatabasesRequest(): (r: Request)
    ensures r.endpoint == Search
    ensures Get(r.params, "query") == Str("")
    ensures SelectsDatabases(Get(r.params, "filter"))
    ensures Get(r.params, "page_size") == DefaultPageSize
  {
    SearchRequest(Str(""), DatabaseFilter, Undef, Undef, Undef)
  }

  function GetDatabaseRequest(databaseId: Value): Request {
    Request(DatabasesRetrieve, Obj(map["database_id" := databaseId]))
  }

  /** `const { database_id, filter, sorts, start_cursor, page_size = 100 } = params` */
  function QueryDatabaseRequest(params: map<string, Value>): Request {
    var p := Obj(params);
    Request(DatabasesQuery, Obj(map[
      "database_id" := Get(p, "database_id"), "filter" := Get(p, "filter"), "sorts" := Get(p, "sorts"),
      "start_cursor" := Get(p, "start_cursor"), "page_size" := Default(Get(p, "page_size"), DefaultPageSize)]))
  }

  function CreateDatabaseRequest(params: Value): Request {
    Request(DatabasesCreate, params)
  }

  /** `{ database_id: databaseId, ...params }`: the spread fields come last
      and win. */
  function UpdateDatabaseRequest(databaseId: Value, params: Value): Request {
    Request(DatabasesUpdate, Obj(map["database_id" := databaseId] + Own(params)))
  }

  function GetBlockRequest(blockId: Value): Request {
    Request(BlocksRetrieve, Obj(map["block_id" := blockId]))
  }

  function BlockChildrenRequest(blockId: Value, startCursor: Value, pageSize: Value): Request {
    Request(BlockChildrenList, Obj(map["block_id" := blockId, "start_cursor" := startCursor,
                                       "page_size" := Default(pageSize, DefaultPageSize)]))
  }

  function AppendBlocksRequest(blockId: Value, children: Value): Request {
    Request(BlockChildrenAppend, Obj(map["block_id" := blockId, "children" := children]))
  }

  /** `{ block_id: blockId, ...block }` */
  function UpdateBlockRequest(blockId: Value, block: Value): Request {
    Request(BlocksUpdate, Obj(map["block_id" := blockId] + Own(block)))
  }

  function DeleteBlockRequest(blockId: Value): Request {
    Request(BlocksDelete, Obj(map["block_id" := blockId]))
  }

  function CreateCommentRequest(pageId: Value, richText: Value): Request {
    Request(CommentsCreate, Obj(map["parent" := Obj(map["page_id" := pageId]), "rich_text" := richText]))
  }

  function CommentsRequest(blockId: Value, startCursor: Value): Request {
    Request(CommentsList, Obj(map["block_id" := blockId, "start_cursor" := startCursor]))
  }

  function ListUsersRequest(startCursor: Value, pageSize: Value): Request {
    Request(UsersList, Obj(map["start_cursor" := startCursor, "page_size" := Default(pageSize, DefaultPageSize)]))
  }

  function GetUserRequest(userId: Value): Request {
    Request(UsersRetrieve, Obj(map["user_id" := userId]))
  }

  function BotRequest(): Request {
    Request(UsersMe, Obj(map[]))
  }

  /** The listing methods send the page size they are given, and 100 when it
      is undefined (a default parameter replaces `undefined` only). */
  lemma PageSizes(pageSize: Value, params: map<string, Value>, v: Value)
    ensures Get(SearchRequest(v, v, v, v, pageSize).params, "page_size") == if pageSize.Undef? then Num(100) else pageSize
    ensures Get(BlockChildrenRequest(v, v, pageSize).params, "page_size") == if pageSize.Undef? then Num(100) else pageSize
    ensures Get(ListUsersRequest(v, pageSize).params, "page_size") == if pageSize.Undef? then Num(100) else pageSize
    ensures var given := Get(Obj(params), "page_size");
      Get(QueryDatabaseRequest(params).params, "page_size") == if given.Undef? then Num(100) else given
  {
  }

  /** The query carries the database id, filter, sorts and cursor it is
      given, unchanged. */
  lemma QueryForwards(params: map<string, Value>)
    ensures var sent := QueryDatabaseRequest(params).params;
      forall k :: k in ["database_id", "filter", "sorts", "start_cursor"] ==> Get(sent, k) == Get(Obj(params), k)
  {
  }

  /** Deleting a page is an update of that page that archives it, and nothing
      else. */
  lemma DeleteArchives(pageId: Value)
    ensures DeletePageRequest(pageId).endpoint == PagesUpdate
    ensures DeletePageRequest(pageId).params.fields.Keys == {"page_id", "archived"}
    ensures Get(DeletePageRequest(pageId).params, "page_id") == pageId
    ensures Get(DeletePageRequest(pageId).params, "archived") == Bool(true)
  {
  }

  /** `url.match(...)`: only strings have the method. */
  function ExtractIdFromUrl(url: Value): (r: Result<Option<string>>)
    ensures r.Ok? <==> url.Str?
    ensures r.Ok? && r.value.Some? ==> NotionIds.IsId(r.value.value)
  {
    if url.Str? then Ok(NotionIds.ExtractId(url.s))
    else if Nullish(url) then Err(TypeError("Cannot read properties of " + Show(url) + " (reading 'match')"))
    else Err(TypeError("url.match is not a function"))
  }

  // ---------------------------------------------------------------------
  // Rich text

  /** A run of plain text: `{ type: 'text', text: { content } }`. */
  predicate IsTextRun(v: Value) {
    Get(v, "type") == Str("text") && Get(v, "text").Obj? && "content" in Get(v, "text").fields
  }

  /** The contents of a rich-text array of text runs, in order. */
  function TextRuns(v: Value): Option<seq<Value>> {
    if v.Arr? && forall i :: 0 <= i < |v.items| ==> IsTextRun(v.items[i]) then
      Some(seq(|v.items|, i requires 0 <= i < |v.items| => Get(Get(v.items[i], "text"), "content")))
    else None
  }

  /** `[{ type: 'text', text: { content: text } }]` */
  function BuildRichText(text: Value): (r: Value)
    ensures TextRuns(r) == Some([text])
  {
    var run := Obj(map["type" := Str("text"), "text" := Obj(map["content" := text])]);
    assert IsTextRun(run);
    assert TextRuns(Arr([run])).value == [text];
    Arr([run])
  }

  // ---------------------------------------------------------------------
  // Typed property values

  /** The property types `buildProperty` supports. */
  const PropertyTypes: seq<string> := [
    "title", "rich_text", "number", "select", "multi_select", "date",
    "people", "checkbox", "url", "email", "phone_number", "status"]

  /** `Array.isArray(value) ? value.map(v => ({ [key]: v })) : [{ [key]: value }]` */
  function ListOf(value: Value, key: string): (r: Value)
    ensures r.Arr? && |r.items| == (if value.Arr? then |value.items| else 1)
    ensures forall i :: 0 <= i < |r.items| ==>
      r.items[i] == Obj(map[key := if value.Arr? then value.items[i] else value])
  {
    if value.Arr? then Arr(seq(|value.items|, i requires 0 <= i < |value.items| => Obj(map[key := value.items[i]])))
    else Arr([Obj(map[key := value])])
  }

  /** The payload of a supported property type, or nothing for any other
      type. */
  function PropertyPayload(tag: string, value: Value): Option<Value> {
    if tag == "title" then Some(BuildRichText(value))
    else if tag == "rich_text" then Some(BuildRichText(value))
    else if tag == "number" then Some(value)
    else if tag == "select" then Some(Obj(map["name" := value]))
    else if tag == "multi_select" then Some(ListOf(value, "name"))
    else if tag == "date" then Some(if value.Str? then Obj(map["start" := value]) else value)
    else if tag == "people" then Some(ListOf(value, "id"))
    else if tag == "checkbox" then Some(value)
    else if tag == "url" then Some(value)
    else if tag == "email" then Some(value)
    else if tag == "phone_number" then Some(value)
    else if tag == "status" then Some(Obj(map["name" := value]))
    else None
  }

  lemma PayloadSupported(tag: Value, value: Value)
    ensures tag.Str? ==> (PropertyPayload(tag.s, value).Some? <==> tag.s in PropertyTypes)
  {
  }

  /** `buildProperty(type, value)`: `{ [type]: payload }`, or an error naming
      an unsupported type. */
  function BuildProperty(tag: Value, value: Value): (r: Result<Value>)
    ensures r.Ok? <==> tag.Str? && tag.s in PropertyTypes
    ensures r.Ok? ==> r.value.Obj? && r.value.fields.Keys == {tag.s}
    ensures r.Err? ==> r.fault == Raise("Unsupported property type: " + Show(tag))
  {
    PayloadSupported(tag, value);
    match (if tag.Str? then PropertyPayload(tag.s, value) else None)
    case Some(payload) => Ok(Obj(map[tag.s := payload]))
    case None => Err(Raise("Unsupported property type: " + Show(tag)))
  }

  /** Reads back the value a property of type `tag` carries: the text of a
      title or rich-text run, the option name of a select or status, the names
      or ids of a list, the start of a date given as text, or the raw value. */
  function ReadProperty(tag: string, p: Value): Option<Value> {
    var v := Get(p, tag);
    if !(p.Obj? && p.fields.Keys == {tag}) then None
    else if tag == "title" || tag == "rich_text" then
      match TextRuns(v)
      case Some(runs) => if |runs| == 1 then Some(runs[0]) else None
      case None => None
    else if tag == "select" || tag == "status" then Some(Get(v, "name"))
    else if tag == "multi_select" then Some(Field(v, "name"))
    else if tag == "people" then Some(Field(v, "id"))
    else if tag == "date" then Some(Get(v, "start"))
    else Some(v)
  }

  /** One field of every element of a list. */
  function Field(list: Value, key: string): Value {
    if list.Arr? then Arr(seq(|list.items|, i requires 0 <= i < |list.items| => Get(list.items[i], key)))
    else Undef
  }

  lemma ListRoundTrip(value: Value, key: string)
    ensures Field(ListOf(value, key), key) == if value.Arr? then value else Arr([value])
  {
    var r := ListOf(value, key);
    if value.Arr? {
      assert Field(r, key).items == value.items;
    } else {
      assert Field(r, key).items == [value];
    }
  }

  /** Every supported property reads back as the value it was built from;
      a list type wraps a single value as a one-element list, and a date is
      read back as text when it was given as text (any other date value is
      sent as it is). */
  lemma PropertyRoundTrip(tag: string, value: Value)
    requires tag in PropertyTypes
    requires tag == "date" ==> value.Str?
    ensures ReadProperty(tag, BuildProperty(Str(tag), value).value)
         == Some(if (tag == "multi_select" || tag == "people") && !value.Arr? then Arr([value]) else value)
  {
    ListRoundTrip(value, "name");
    ListRoundTrip(value, "id");
  }

  /** A date that is not text is sent unchanged. */
  lemma DatePassesThrough(value: Value)
    requires !value.Str?
    ensures BuildProperty(Str("date"), value) == Ok(Obj(map["date" := value]))
  {
  }
}
