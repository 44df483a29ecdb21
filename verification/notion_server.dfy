/** The workspace server's request handling: the registry of tools (the six
    tool groups merged into one table), the search, comment and user tools,
    routing a name to its handler, and the `catch` that turns a thrown error
    into an error reply. An unknown name is not caught: it is thrown to the
    transport. */
module NotionServer {
  import opened Js
  import opened Remote
  import opened Envelopes
  import opened Registry
  import opened NotionApi
  import NotionPages
  import NotionDatabases
  import NotionBlocks

  // ---------------------------------------------------------------------
  // The search, comment and user tools

  /** `search_notion` */
  function SearchNotion(args: Value, oracle: Oracle): Run<Request, Envelope> {
    JsonReply(SearchRequest(Get(args, "query"), Get(args, "filter"), Get(args, "sort"),
                            Get(args, "start_cursor"), Get(args, "page_size")), oracle)
  }

  /** `create_comment`: the text as one rich-text run. */
  function CreateComment(args: Value, oracle: Oracle): Run<Request, Envelope> {
    JsonReply(CreateCommentRequest(Get(args, "page_id"), BuildRichText(Get(args, "text"))), oracle)
  }

  function GetComments(args: Value, oracle: Oracle): Run<Request, Envelope> {
    JsonReply(CommentsRequest(Get(args, "block_id"), Get(args, "start_cursor")), oracle)
  }

  function ListUsers(args: Value, oracle: Oracle): Run<Request, Envelope> {
    JsonReply(ListUsersRequest(Get(args, "start_cursor"), Get(args, "page_size")), oracle)
  }

  function GetUser(args: Value, oracle: Oracle): Run<Request, Envelope> {
    JsonReply(GetUserRequest(Get(args, "user_id")), oracle)
  }

  function GetSelf(oracle: Oracle): Run<Request, Envelope> {
    JsonReply(BotRequest(), oracle)
  }

  /** A search forwards the query, filter, sort and cursor as given and asks
      for 100 results unless told otherwise. */
  lemma SearchForwards(args: Value, oracle: Oracle)
    ensures var sent := SearchNotion(args, oracle).trace;
      && |sent| == 1 && sent[0].endpoint == Search
      && Get(sent[0].params, "query") == Get(args, "query")
      && Get(sent[0].params, "filter") == Get(args, "filter")
      && Get(sent[0].params, "sort") == Get(args, "sort")
      && Get(sent[0].params, "start_cursor") == Get(args, "start_cursor")
      && Get(sent[0].params, "page_size") == Default(Get(args, "page_size"), Num(100))
  {
  }

  /** A comment is posted on the given page with the text as its one
      rich-text run. */
  lemma CommentPosted(args: Value, oracle: Oracle)
    ensures var sent := CreateComment(args, oracle).trace;
      && |sent| == 1 && sent[0].endpoint == CommentsCreate
      && Get(Get(sent[0].params, "parent"), "page_id") == Get(args, "page_id")
      && TextRuns(Get(sent[0].params, "rich_text")) == Some([Get(args, "text")])
  {
  }

  // ---------------------------------------------------------------------
  // Tools and the registry

  datatype Tool =
    | SearchNotionTool
    | GetPageContent | CreatePage | UpdatePage | DeletePage | GetPageProperty | FetchByUrl
    | ListDatabases | GetDatabase | QueryDatabase | CreateDatabase | UpdateDatabase
    | GetBlock | GetBlockChildren | AppendBlocks | AppendRichContent | UpdateBlock | DeleteBlock
    | CreateCommentTool | GetCommentsTool
    | ListUsersTool | GetUserTool | GetSelfTool

  function NameOf(t: Tool): string {
    match t
    case SearchNotionTool => "search_notion"
    case GetPageContent => "get_page_content"
    case CreatePage => "create_page"
    case UpdatePage => "update_page"
    case DeletePage => "delete_page"
    case GetPageProperty => "get_page_property"
    case FetchByUrl => "fetch_by_url"
    case ListDatabases => "list_databases"
    case GetDatabase => "get_database"
    case QueryDatabase => "query_database"
    case CreateDatabase => "create_database"
    case UpdateDatabase => "update_database"
    case GetBlock => "get_block"
    case GetBlockChildren => "get_block_children"
    case AppendBlocks => "append_blocks"
    case AppendRichContent => "append_rich_content"
    case UpdateBlock => "update_block"
    case DeleteBlock => "delete_block"
    case CreateCommentTool => "create_comment"
    case GetCommentsTool => "get_comments"
    case ListUsersTool => "list_users"
    case GetUserTool => "get_user"
    case GetSelfTool => "get_self"
  }

  const SearchTools: seq<Tool> := [SearchNotionTool]
  const PageTools: seq<Tool> := [GetPageContent, CreatePage, UpdatePage, DeletePage, GetPageProperty, FetchByUrl]
  const DatabaseTools: seq<Tool> := [ListDatabases, GetDatabase, QueryDatabase, CreateDatabase, UpdateDatabase]
  const BlockTools: seq<Tool> :=
    [GetBlock, GetBlockChildren, AppendBlocks, AppendRichContent, UpdateBlock, DeleteBlock]
  const CommentTools: seq<Tool> := [CreateCommentTool, GetCommentsTool]
  const UserTools: seq<Tool> := [ListUsersTool, GetUserTool, GetSelfTool]

  /** `{ ...search, ...pages, ...databases, ...blocks, ...comments, ...users }`:
      the groups in this order. A later group would override an earlier
      tool of the same name; `RegistryDistinct` shows none does. */
  const Registered: seq<Tool> := SearchTools + PageTools + DatabaseTools + BlockTools + CommentTools + UserTools

  /** The names `ListTools` answers with, in the registry's order. */
  function ListedNames(): seq<string> {
    Names(Registered, NameOf)
  }

  /** `allTools[name]` among the registry's own tools. */
  function Route(name: string): Option<Tool> {
    FirstNamed(name, Registered, NameOf)
  }

  /** Tells the tool names apart by their length and one letter: a cheap
      witness that no two tools share a name. */
  function Recognise(name: string): Option<Tool> {
    var n := |name|;
    if n == 8 then (if name[4] == 'u' then Some(GetUserTool) else Some(GetSelfTool))
    else if n == 9 then Some(GetBlock)
    else if n == 10 then Some(ListUsersTool)
    else if n == 11 then
      (if name[0] == 'c' then Some(CreatePage) else if name[0] == 'u' then Some(UpdatePage) else Some(DeletePage))
    else if n == 12 then
      (if name[0] == 'f' then Some(FetchByUrl)
       else if name[0] == 'u' then Some(UpdateBlock)
       else if name[0] == 'd' then Some(DeleteBlock)
       else if name[4] == 'd' then Some(GetDatabase)
       else Some(GetCommentsTool))
    else if n == 13 then (if name[0] == 's' then Some(SearchNotionTool) else Some(AppendBlocks))
    else if n == 14 then
      (if name[0] == 'l' then Some(ListDatabases) else if name[0] == 'q' then Some(QueryDatabase) else Some(CreateCommentTool))
    else if n == 15 then (if name[0] == 'c' then Some(CreateDatabase) else Some(UpdateDatabase))
    else if n == 16 then Some(GetPageContent)
    else if n == 17 then Some(GetPageProperty)
    else if n == 18 then Some(GetBlockChildren)
    else if n == 19 then Some(AppendRichContent)
    else None
  }

  lemma RecogniseNames(t: Tool)
    ensures Recognise(NameOf(t)) == Some(t)
  {
  }

  /** No two tools have the same name. */
  lemma NamesDistinct(t: Tool, u: Tool)
    ensures NameOf(t) == NameOf(u) ==> t == u
  {
    RecogniseNames(t);
    RecogniseNames(u);
  }

  /** Where a tool stands in the registry. */
  function Rank(t: Tool): nat {
    match t
    case SearchNotionTool => 0
    case GetPageContent => 1
    case CreatePage => 2
    case UpdatePage => 3
    case DeletePage => 4
    case GetPageProperty => 5
    case FetchByUrl => 6
    case ListDatabases => 7
    case GetDatabase => 8
    case QueryDatabase => 9
    case CreateDatabase => 10
    case UpdateDatabase => 11
    case GetBlock => 12
    case GetBlockChildren => 13
    case AppendBlocks => 14
    case AppendRichContent => 15
    case UpdateBlock => 16
    case DeleteBlock => 17
    case CreateCommentTool => 18
    case GetCommentsTool => 19
    case ListUsersTool => 20
    case GetUserTool => 21
    case GetSelfTool => 22
  }

  lemma RankOfRegistered(i: nat)
    requires i < |Registered|
    ensures Rank(Registered[i]) == i
  {
  }

  /** Merging the six groups loses nothing: the registry lists 23 tools
      under 23 different names. */
  lemma RegistryDistinct()
    ensures |ListedNames()| == 23
    ensures forall i, j :: 0 <= i < j < |ListedNames()| ==> ListedNames()[i] != ListedNames()[j]
  {
    forall i, j | 0 <= i < j < |ListedNames()|
      ensures ListedNames()[i] != ListedNames()[j]
    {
      RankOfRegistered(i);
      RankOfRegistered(j);
      NamesDistinct(Registered[i], Registered[j]);
    }
  }

  /** Every tool is listed and found under its own name. */
  lemma RouteInvertsNames(t: Tool)
    ensures Route(NameOf(t)) == Some(t)
    ensures t in Registered
  {
    assert t in Registered by {
      assert Registered[Rank(t)] == t;
    }
    NamesDistinct(t, Route(NameOf(t)).value);
  }

  /** A name is found exactly when it is listed. */
  lemma RoutedIsListed(name: string)
    ensures Route(name).Some? <==> name in ListedNames()
  {
    if name in ListedNames() {
      var i :| 0 <= i < |Registered| && ListedNames()[i] == name;
      RouteInvertsNames(Registered[i]);
    }
    if Route(name).Some? {
      RouteInvertsNames(Route(name).value);
      var i :| 0 <= i < |Registered| && Registered[i] == Route(name).value;
      assert ListedNames()[i] == name;
    }
  }

  // ---------------------------------------------------------------------
  // Replies

  /** The handler of one tool. */
  function Handle(t: Tool, args: Value, oracle: Oracle): (run: Run<Request, Envelope>)
    ensures run.outcome.Ok? ==> !run.outcome.value.isError
  {
    match t
    case SearchNotionTool => SearchNotion(args, oracle)
    case GetPageContent => NotionPages.GetPageContent(args, oracle)
    case CreatePage => NotionPages.CreatePage(args, oracle)
    case UpdatePage => NotionPages.UpdatePage(args, oracle)
    case DeletePage => NotionPages.DeletePage(args, oracle)
    case GetPageProperty => NotionPages.GetPageProperty(args, oracle)
    case FetchByUrl => NotionPages.FetchByUrl(args, oracle)
    case ListDatabases => NotionDatabases.ListDatabases(oracle)
    case GetDatabase => NotionDatabases.GetDatabase(args, oracle)
    case QueryDatabase => NotionDatabases.QueryDatabase(args, oracle)
    case CreateDatabase => NotionDatabases.CreateDatabase(args, oracle)
    case UpdateDatabase => NotionDatabases.UpdateDatabase(args, oracle)
    case GetBlock => NotionBlocks.GetBlock(args, oracle)
    case GetBlockChildren => NotionBlocks.GetBlockChildren(args, oracle)
    case AppendBlocks => NotionBlocks.AppendBlocks(args, oracle)
    case AppendRichContent => NotionBlocks.AppendRichContent(args, oracle)
    case UpdateBlock => NotionBlocks.UpdateBlock(args, oracle)
    case DeleteBlock => NotionBlocks.DeleteBlock(args, oracle)
    case CreateCommentTool => CreateComment(args, oracle)
    case GetCommentsTool => GetComments(args, oracle)
    case ListUsersTool => ListUsers(args, oracle)
    case GetUserTool => GetUser(args, oracle)
    case GetSelfTool => GetSelf(oracle)
  }

  /** The error reply: the message and the stack. */
  function ErrorEnvelope(f: Fault): Envelope {
    Envelope([TextBlock([Lit("Error: " + f.message + "\n\nStack: " + f.stack)])], true)
  }

  /** The error reply is flagged and its one text reads the message, a blank
      line, and the stack. */
  lemma ErrorText(f: Fault, stringify: Value -> string)
    ensures ErrorEnvelope(f).isError && |ErrorEnvelope(f).content| == 1
    ensures Render(ErrorEnvelope(f).content[0], stringify) == "Error: " + f.message + "\n\nStack: " + f.stack
  {
    var text := "Error: " + f.message + "\n\nStack: " + f.stack;
    assert [Lit(text)][1..] == [];
    assert RenderParts([Lit(text)], stringify) == text + RenderParts([], stringify);
  }

  /** The `catch` around a request, with this server's error reply. */
  function Catch(run: Run<Request, Envelope>): Run<Request, Envelope> {
    Recover(run, ErrorEnvelope)
  }

  /** One `CallTool` request: arguments default to `{}`. */
  function CallTool(name: string, args: Value, oracle: Oracle): Run<Request, Envelope> {
    match Route(name)
    case None => Fail(Raise("Unknown tool: " + name))
    case Some(t) => Catch(Handle(t, Or(args, Obj(map[])), oracle))
  }

  /** A request fails exactly when the name is not listed, and then before
      any call and with 'Unknown tool'. For a listed tool the reply is the
      handler's own on success and an error reply built from the thrown
      error otherwise; an error reply comes from nothing else. */
  lemma ServedReplies(name: string, args: Value, oracle: Oracle)
    ensures var served := CallTool(name, args, oracle);
      && (served.outcome.Err? <==> name !in ListedNames())
      && (served.outcome.Err? ==> served == Run([], Err(Raise("Unknown tool: " + name))))
      && (served.outcome.Ok? ==>
            var run := Handle(Route(name).value, Or(args, Obj(map[])), oracle);
            && served.trace == run.trace
            && (run.outcome.Ok? ==> served.outcome.value == run.outcome.value)
            && (run.outcome.Err? ==> served.outcome.value == ErrorEnvelope(run.outcome.fault))
            && (served.outcome.value.isError <==> run.outcome.Err?))
  {
    RoutedIsListed(name);
  }

  /** Missing or falsy arguments are handled as an empty argument object. */
  lemma FalsyArguments(name: string, args: Value, oracle: Oracle)
    requires !Truthy(args)
    ensures CallTool(name, args, oracle) == CallTool(name, Obj(map[]), oracle)
  {
  }

  // ---------------------------------------------------------------------
  // The lookup as written

  /** Names every plain JavaScript object inherits from `Object.prototype`. */
  const InheritedNames: set<string> := {
    "constructor", "hasOwnProperty", "isPrototypeOf", "propertyIsEnumerable",
    "toLocaleString", "toString", "valueOf", "__proto__",
    "__defineGetter__", "__defineSetter__", "__lookupGetter__", "__lookupSetter__"}

  datatype Lookup = Found(tool: Tool) | Inherited | Missing

  /** `allTools[toolName]` as written: a registry tool, else an inherited
      member (a function or the prototype object, truthy either way), else
      undefined. */
  function LookupAsWritten(name: string): Lookup {
    match Route(name)
    case Some(t) => Found(t)
    case None => if name in InheritedNames then Inherited else Missing
  }

  /** `CallTool` as written: an inherited member passes the `!tool` test, and
      calling its missing `handler` throws inside the `try`. */
  function CallToolAsWritten(name: string, args: Value, oracle: Oracle): Run<Request, Envelope> {
    match LookupAsWritten(name)
    case Missing => Fail(Raise("Unknown tool: " + name))
    case Inherited => Catch(Fail(TypeError("tool.handler is not a function")))
    case Found(t) => Catch(Handle(t, Or(args, Obj(map[])), oracle))
  }

  /** A request for `toString`, which names no tool, is answered with an
      error reply about a missing handler instead of failing as an unknown
      tool, as it does in `CallTool`. */
  lemma InheritedNameAnswered(args: Value, oracle: Oracle)
    ensures "toString" !in ListedNames()
    ensures CallToolAsWritten("toString", args, oracle)
         == Run([], Ok(ErrorEnvelope(TypeError("tool.handler is not a function"))))
    ensures CallTool("toString", args, oracle) == Run([], Err(Raise("Unknown tool: toString")))
  {
    forall i | 0 <= i < |Registered|
      ensures NameOf(Registered[i]) != "toString"
    {
      assert NameOf(Registered[i])[0] != 't';
    }
    RoutedIsListed("toString");
    assert "Unknown tool: " + "toString" == "Unknown tool: toString";
  }

  /** Outside the inherited names the lookup as written and `CallTool` agree. */
  lemma AsWrittenElsewhere(name: string, args: Value, oracle: Oracle)
    requires name !in InheritedNames
    ensures CallToolAsWritten(name, args, oracle) == CallTool(name, args, oracle)
  {
  }
}
