/** Board tools: read-only Agile requests. Their endpoints carry query
    parameters with defaults (`maxResults` 50, `startAt` 0), and optional
    parameters are appended only when the argument is truthy. */
module Boards {
  import opened Js
  import opened JiraApi
  import opened Remote
  import opened QueryStrings

  const DefaultMaxResults: Value := Num(50)
  const DefaultStartAt: Value := Num(0)

  function BoardPath(boardId: Value): string {
    "/board/" + Show(boardId)
  }

  /** `/board?maxResults=…`, then `&projectKeyOrId=…`, then `&type=…`. */
  function BoardsEndpoint(args: Value): string {
    var projectKeyOrId := Get(args, "projectKeyOrId");
    var boardType := Get(args, "type");
    var maxResults := Default(Get(args, "maxResults"), DefaultMaxResults);
    var e0 := Begin("/board", "maxResults", Show(maxResults));
    var e1 := if Truthy(projectKeyOrId) then Append(e0, "projectKeyOrId", Show(projectKeyOrId)) else e0;
    if Truthy(boardType) then Append(e1, "type", Show(boardType)) else e1
  }

  /** `${path}?maxResults=…&startAt=…`, then `&jql=${encodeURIComponent(jql)}`;
      shared by the board issue, board backlog and sprint issue listings. */
  function PagedEndpoint(cfg: Config, path: string, args: Value): string {
    var jql := Get(args, "jql");
    var maxResults := Default(Get(args, "maxResults"), DefaultMaxResults);
    var startAt := Default(Get(args, "startAt"), DefaultStartAt);
    var e0 := Append(Begin(path, "maxResults", Show(maxResults)), "startAt", Show(startAt));
    if Truthy(jql) then Append(e0, "jql", cfg.encode(Show(jql))) else e0
  }

  lemma BoardsQuery(args: Value)
    ensures BoardsEndpoint(args) == Render("/board",
      [("maxResults", Show(Default(Get(args, "maxResults"), Num(50))))]
      + When(Get(args, "projectKeyOrId"), "projectKeyOrId", Show(Get(args, "projectKeyOrId")))
      + When(Get(args, "type"), "type", Show(Get(args, "type"))))
  {
    var m := [("maxResults", Show(Default(Get(args, "maxResults"), Num(50))))];
    var p := When(Get(args, "projectKeyOrId"), "projectKeyOrId", Show(Get(args, "projectKeyOrId")));
    RenderOne("/board", m[0].0, m[0].1);
    RenderWhen("/board", m, Get(args, "projectKeyOrId"), "projectKeyOrId", Show(Get(args, "projectKeyOrId")));
    RenderWhen("/board", m + p, Get(args, "type"), "type", Show(Get(args, "type")));
  }

  lemma PagedQuery(cfg: Config, path: string, args: Value)
    ensures PagedEndpoint(cfg, path, args) == Render(path,
      [("maxResults", Show(Default(Get(args, "maxResults"), Num(50)))),
       ("startAt", Show(Default(Get(args, "startAt"), Num(0))))]
      + When(Get(args, "jql"), "jql", cfg.encode(Show(Get(args, "jql")))))
  {
    var m := Show(Default(Get(args, "maxResults"), Num(50)));
    var s := Show(Default(Get(args, "startAt"), Num(0)));
    RenderOne(path, "maxResults", m);
    assert [("maxResults", m), ("startAt", s)] == [("maxResults", m)] + [("startAt", s)];
    RenderAppend(path, [("maxResults", m)], "startAt", s);
    RenderWhen(path, [("maxResults", m), ("startAt", s)], Get(args, "jql"), "jql", cfg.encode(Show(Get(args, "jql"))));
  }

  /** A tool that destructures its arguments and makes one GET. */
  function GetOne(cfg: Config, args: Value, endpoint: string, oracle: Oracle): Run<Call, Value> {
    match Destructure(args)
    case Err(f) => Fail(f)
    case Ok(_) => Send(AgileCall(cfg, GET, endpoint, Undef), oracle)
  }

  function GetBoards(cfg: Config, args: Value, oracle: Oracle): Run<Call, Value> {
    GetOne(cfg, args, BoardsEndpoint(args), oracle)
  }

  function GetBoard(cfg: Config, args: Value, oracle: Oracle): Run<Call, Value> {
    GetOne(cfg, args, BoardPath(Get(args, "boardId")), oracle)
  }

  function GetBoardConfiguration(cfg: Config, args: Value, oracle: Oracle): Run<Call, Value> {
    GetOne(cfg, args, BoardPath(Get(args, "boardId")) + "/configuration", oracle)
  }

  function GetBoardIssues(cfg: Config, args: Value, oracle: Oracle): Run<Call, Value> {
    GetOne(cfg, args, PagedEndpoint(cfg, BoardPath(Get(args, "boardId")) + "/issue", args), oracle)
  }

  function GetBoardBacklog(cfg: Config, args: Value, oracle: Oracle): Run<Call, Value> {
    GetOne(cfg, args, PagedEndpoint(cfg, BoardPath(Get(args, "boardId")) + "/backlog", args), oracle)
  }

  /** `run` made exactly one GET, to `endpoint` below the Agile prefix, and
      answered with that request's body verbatim or failed with its failure. */
  predicate OneGet(cfg: Config, run: Run<Call, Value>, endpoint: string, oracle: Oracle) {
    && run.trace == [AgileCall(cfg, GET, endpoint, Undef)]
    && EndpointOf(cfg.host, run.trace[0].url) == Some(endpoint)
    && (oracle(run.trace[0]).Answer? ==> run.outcome == Ok(oracle(run.trace[0]).body))
    && (oracle(run.trace[0]).Failure? ==> run.outcome == Err(oracle(run.trace[0]).fault))
  }

  /** The board readers each make exactly one GET, to the endpoint below the
      Agile prefix that names the board, and answer with the body verbatim. */
  lemma BoardRequests(cfg: Config, args: Value, oracle: Oracle)
    requires args.Obj?
    ensures var board := "/board/" + Show(Get(args, "boardId"));
      && OneGet(cfg, GetBoard(cfg, args, oracle), board, oracle)
      && OneGet(cfg, GetBoardConfiguration(cfg, args, oracle), board + "/configuration", oracle)
      && OneGet(cfg, GetBoardIssues(cfg, args, oracle), PagedEndpoint(cfg, board + "/issue", args), oracle)
      && OneGet(cfg, GetBoardBacklog(cfg, args, oracle), PagedEndpoint(cfg, board + "/backlog", args), oracle)
  {
  }
}
