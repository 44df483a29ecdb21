/** Page tools. `create_page` chooses the parent and the default properties
    and wraps the content as one paragraph; `fetch_by_url` takes the ID out of
    a URL and reads it as a page, falling back to a database. */
module NotionPages {
  import opened Js
  import opened Remote
  import opened Envelopes
  import opened NotionApi

  /** `get_page_content`: the page, then its blocks. */
  function GetPageContent(args: Value, oracle: Oracle): (run: Run<Request, Envelope>)
    ensures var id := Get(args, "page_id");
      && 1 <= |run.trace| <= 2
      && run.trace[0] == GetPageRequest(id)
      && (|run.trace| == 2 <==> oracle(GetPageRequest(id)).Answer?)
      && (|run.trace| == 2 ==> run.trace[1] == BlockChildrenRequest(id, Undef, Undef))
      && (run.outcome.Ok? <==>
            oracle(GetPageRequest(id)).Answer? && oracle(BlockChildrenRequest(id, Undef, Undef)).Answer?)
      && (run.outcome.Ok? ==>
            && oracle(GetPageRequest(id)).Answer? && oracle(BlockChildrenRequest(id, Undef, Undef)).Answer?
            && Payload(run.outcome.value) == Some(Obj(map[
                 "page" := oracle(GetPageRequest(id)).body,
                 "blocks" := oracle(BlockChildrenRequest(id, Undef, Undef)).body])))
  {
    var id := Get(args, "page_id");
    var pageRequest := GetPageRequest(id);
    match oracle(pageRequest)
    case Failure(f) => Run([pageRequest], Err(f))
    case Answer(page) =>
      var blocksRequest := BlockChildrenRequest(id, Undef, Undef);
      match oracle(blocksRequest)
      case Failure(f) => Run([pageRequest, blocksRequest], Err(f))
      case Answer(blocks) =>
        Run([pageRequest, blocksRequest], Ok(JsonEnvelope(Obj(map["page" := page, "blocks" := blocks]))))
  }

  /** The parent of a new page: the page when a parent page is named (by a
      truthy id), otherwise the database, named or not. */
  function PageParent(args: Value): Value {
    var pageId := Get(args, "parent_page_id");
    if Truthy(pageId) then Obj(map["type" := Str("page_id"), "page_id" := pageId])
    else Obj(map["type" := Str("database_id"), "database_id" := Get(args, "parent_database_id")])
  }

  /** `args.properties || { title: buildProperty('title', args.title) }` */
  function PageProperties(args: Value): Value {
    var given := Get(args, "properties");
    if Truthy(given) then given
    else Obj(map["title" := BuildProperty(Str("title"), Get(args, "title")).value])
  }

  /** The `children` of a new page: one paragraph holding the content when
      the content is truthy, otherwise none (undefined). */
  function PageChildren(args: Value): Value {
    var content := Get(args, "content");
    if Truthy(content) then
      Arr([Obj(map["object" := Str("block"), "type" := Str("paragraph"),
                   "paragraph" := Obj(map["rich_text" := BuildRichText(content)])])])
    else Undef
  }

  function CreatePagePayload(args: Value): Value {
    Obj(map["parent" := PageParent(args), "properties" := PageProperties(args),
            "children" := PageChildren(args), "icon" := Get(args, "icon")])
  }

  function CreatePage(args: Value, oracle: Oracle): Run<Request, Envelope> {
    JsonReply(CreatePageRequest(CreatePagePayload(args)), oracle)
  }

  /** The page is created under the page named by a truthy `parent_page_id`,
      and otherwise under `parent_database_id` even when that is missing.
      Given properties are sent as they are; without them the page gets a
      title property whose text is the given title. Truthy content becomes
      exactly one paragraph whose text is the content; otherwise no children
      are sent. */
  lemma CreatePageSends(args: Value, oracle: Oracle)
    ensures var run := CreatePage(args, oracle);
      var p := run.trace[0].params;
      && run.trace == [CreatePageRequest(CreatePagePayload(args))]
      && run.trace[0].endpoint == PagesCreate
      && (Truthy(Get(args, "parent_page_id")) ==>
            Get(p, "parent") == Obj(map["type" := Str("page_id"), "page_id" := Get(args, "parent_page_id")]))
      && (!Truthy(Get(args, "parent_page_id")) ==>
            Get(p, "parent") == Obj(map["type" := Str("database_id"), "database_id" := Get(args, "parent_database_id")]))
      && (Truthy(Get(args, "properties")) ==> Get(p, "properties") == Get(args, "properties"))
      && (!Truthy(Get(args, "properties")) ==>
            ReadProperty("title", Get(Get(p, "properties"), "title")) == Some(Get(args, "title")))
      && Get(p, "icon") == Get(args, "icon")
  {
    PropertyRoundTrip("title", Get(args, "title"));
  }

  lemma CreatePageChildren(args: Value)
    ensures var children := Get(CreatePagePayload(args), "children");
      && (!Truthy(Get(args, "content")) ==> children == Undef)
      && (Truthy(Get(args, "content")) ==>
            && children.Arr? && |children.items| == 1
            && Get(children.items[0], "type") == Str("paragraph")
            && TextRuns(Get(Get(children.items[0], "paragraph"), "rich_text")) == Some([Get(args, "content")]))
  {
  }

  function UpdatePage(args: Value, oracle: Oracle): Run<Request, Envelope> {
    JsonReply(UpdatePageRequest(map[
      "page_id" := Get(args, "page_id"), "properties" := Get(args, "properties"),
      "archived" := Get(args, "archived"), "icon" := Get(args, "icon")]), oracle)
  }

  function DeletePage(args: Value, oracle: Oracle): Run<Request, Envelope> {
    JsonReply(DeletePageRequest(Get(args, "page_id")), oracle)
  }

  function GetPageProperty(args: Value, oracle: Oracle): Run<Request, Envelope> {
    JsonReply(PagePropertyRequest(Get(args, "page_id"), Get(args, "property_id")), oracle)
  }

  /** The database lookup `fetch_by_url` falls back to. */
  function AsDatabase(id: string, oracle: Oracle): Run<Request, Envelope> {
    var request := GetDatabaseRequest(Str(id));
    match oracle(request)
    case Failure(f) => Run([request], Err(f))
    case Answer(database) => Run([request], Ok(JsonEnvelope(Obj(map["type" := Str("database"), "database" := database]))))
  }

  /** Reading `id` as a page: the page, then its blocks; a failure of either
      is caught and the database lookup runs instead. */
  function AsPage(id: string, oracle: Oracle): Run<Request, Envelope> {
    var pageRequest := GetPageRequest(Str(id));
    match oracle(pageRequest)
    case Failure(_) => After([pageRequest], AsDatabase(id, oracle))
    case Answer(page) =>
      var blocksRequest := BlockChildrenRequest(Str(id), Undef, Undef);
      match oracle(blocksRequest)
      case Failure(_) => After([pageRequest, blocksRequest], AsDatabase(id, oracle))
      case Answer(blocks) =>
        Run([pageRequest, blocksRequest],
            Ok(JsonEnvelope(Obj(map["type" := Str("page"), "page" := page, "blocks" := blocks]))))
  }

  /** `fetch_by_url`. */
  function FetchByUrl(args: Value, oracle: Oracle): Run<Request, Envelope> {
    match ExtractIdFromUrl(Get(args, "url"))
    case Err(f) => Fail(f)
    case Ok(None) => Fail(Raise("Invalid Notion URL"))
    case Ok(Some(id)) => AsPage(id, oracle)
  }

  /** A URL holding no ID fails with 'Invalid Notion URL' before any request.
      Otherwise the page is read first and, when both the page and its blocks
      arrive, the answer is tagged 'page'. Any failure on that path falls
      back to one database lookup, tagged 'database', whose own failure is
      the tool's failure. */
  lemma FetchOrder(url: string, args: Value, oracle: Oracle)
    requires Get(args, "url") == Str(url)
    ensures var run := FetchByUrl(args, oracle);
      && (NotionIds.ExtractId(url).None? ==> run == Run([], Err(Raise("Invalid Notion URL"))))
      && (NotionIds.ExtractId(url).Some? ==>
            var id := Str(NotionIds.ExtractId(url).value);
            var pageRequest := GetPageRequest(id);
            var blocksRequest := BlockChildrenRequest(id, Undef, Undef);
            var dbRequest := GetDatabaseRequest(id);
            && run.trace[0] == pageRequest
            && (oracle(pageRequest).Failure? ==> run.trace == [pageRequest, dbRequest])
            && (oracle(pageRequest).Answer? && oracle(blocksRequest).Failure? ==>
                  run.trace == [pageRequest, blocksRequest, dbRequest])
            && (oracle(pageRequest).Answer? && oracle(blocksRequest).Answer? ==>
                  && run.trace == [pageRequest, blocksRequest]
                  && Payload(run.outcome.value) == Some(Obj(map[
                       "type" := Str("page"), "page" := oracle(pageRequest).body,
                       "blocks" := oracle(blocksRequest).body])))
            && (dbRequest in run.trace ==>
                  && (oracle(dbRequest).Failure? ==> run.outcome == Err(oracle(dbRequest).fault))
                  && (oracle(dbRequest).Answer? ==>
                        Payload(run.outcome.value) == Some(Obj(map["type" := Str("database"),
                                                                   "database" := oracle(dbRequest).body])))))
  {
  }
}
