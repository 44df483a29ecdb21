/** The tracker server's request handling: the advertised tool list, routing a
    tool name to its handler, the issue tools implemented in the server itself
    (search, read, update, transition, comment, projects, transitions, current
    user), and the conversion of every outcome into a reply envelope. No
    failure escapes: a thrown error becomes an error envelope. */
module JiraServer {
  import opened Js
  import Api = JiraApi
  import opened Remote
  import opened Envelopes
  import opened Registry
  import Adf
  import Boards
  import Sprints
  import IssuesEnhanced

  /** The projects issues may be created in. */
  const AvailableProjects: seq<string> := ["AD", "AN", "PROD", "TEST", "TRIAL"]

  /** The configuration the server hands its tools; `encode` stands for
      `encodeURIComponent`. */
  function Deployed(host: string, encode: string -> string): (cfg: Api.Config)
    ensures cfg.availableProjects == AvailableProjects
  {
    Api.Config(host, AvailableProjects, encode)
  }

  /** With the deployed configuration, creating an issue in a project outside
      AD, AN, PROD, TEST and TRIAL fails before any request with a message
      naming the project and listing those five; a listed project goes on to
      the creation request. */
  lemma DeployedAllowList(host: string, encode: string -> string, args: Value, oracle: Api.Oracle, p: string)
    requires args.Obj? && Get(args, "project") == Str(p)
    ensures var run := IssuesEnhanced.CreateIssueEnhanced(Deployed(host, encode), args, oracle);
      && (p !in {"AD", "AN", "PROD", "TEST", "TRIAL"} ==>
            run == Run([], Err(Raise("Invalid project \"" + p + "\". Available projects: AD, AN, PROD, TEST, TRIAL"))))
      && (p in {"AD", "AN", "PROD", "TEST", "TRIAL"} && IssuesEnhanced.IssueFields(args).Ok? ==>
            |run.trace| >= 1 && run.trace[0] == Api.CreateIssue(Obj(IssuesEnhanced.IssueFields(args).value)))
  {
    AllowListText(host, encode, p);
    assert p in AvailableProjects <==> p in {"AD", "AN", "PROD", "TEST", "TRIAL"};
  }

  lemma AllowListText(host: string, encode: string -> string, p: string)
    ensures IssuesEnhanced.InvalidProject(Deployed(host, encode), Str(p))
      == Raise("Invalid project \"" + p + "\". Available projects: AD, AN, PROD, TEST, TRIAL")
  {
    var j := Join(AvailableProjects, ", ");
    InvalidProjectUnfolds(host, encode, p);
    AllowListJoin();
    AvailableText("Invalid project \"" + p, j);
  }

  lemma InvalidProjectUnfolds(host: string, encode: string -> string, p: string)
    ensures IssuesEnhanced.InvalidProject(Deployed(host, encode), Str(p))
      == Raise("Invalid project \"" + p + "\". Available projects: " + Join(AvailableProjects, ", "))
  {
    assert Show(Str(p)) == p;
  }

  lemma AvailableText(head: string, j: string)
    requires j == "AD" + ", " + ("AN" + ", " + ("PROD" + ", " + ("TEST" + ", " + "TRIAL")))
    ensures head + "\". Available projects: " + j == head + "\". Available projects: AD, AN, PROD, TEST, TRIAL"
  {
    assert j == "AD, AN, PROD, TEST, TRIAL";
    assert "\". Available projects: " + "AD, AN, PROD, TEST, TRIAL" == "\". Available projects: AD, AN, PROD, TEST, TRIAL";
    assert head + "\". Available projects: " + j == head + ("\". Available projects: " + j);
  }

  lemma AllowListJoin()
    ensures Join(AvailableProjects, ", ") == "AD" + ", " + ("AN" + ", " + ("PROD" + ", " + ("TEST" + ", " + "TRIAL")))
  {
    var a := AvailableProjects;
    assert a[1..] == ["AN", "PROD", "TEST", "TRIAL"];
    assert a[1..][1..] == ["PROD", "TEST", "TRIAL"];
    assert a[1..][1..][1..] == ["TEST", "TRIAL"];
    assert a[1..][1..][1..][1..] == ["TRIAL"];
  }

  // ---------------------------------------------------------------------
  // Tools and routing

  datatype Tool =
    | SearchIssues | GetIssue | CreateIssue | UpdateIssue | TransitionIssue | AddComment
    | GetProjects | GetTransitions | GetCurrentUser
    | GetBoards | GetBoard | GetBoardConfiguration | GetBoardIssues | GetBoardBacklog
    | GetBoardSprints | GetSprint | CreateSprint | UpdateSprint | StartSprint | CloseSprint
    | GetSprintIssues | AddIssuesToSprint | MoveIssuesToBacklog | RemoveIssuesFromSprint

  function NameOf(t: Tool): string {
    match t
    case SearchIssues => "jira_search_issues"
    case GetIssue => "jira_get_issue"
    case CreateIssue => "jira_create_issue"
    case UpdateIssue => "jira_update_issue"
    case TransitionIssue => "jira_transition_issue"
    case AddComment => "jira_add_comment"
    case GetProjects => "jira_get_projects"
    case GetTransitions => "jira_get_transitions"
    case GetCurrentUser => "jira_get_current_user"
    case GetBoards => "jira_get_boards"
    case GetBoard => "jira_get_board"
    case GetBoardConfiguration => "jira_get_board_configuration"
    case GetBoardIssues => "jira_get_board_issues"
    case GetBoardBacklog => "jira_get_board_backlog"
    case GetBoardSprints => "jira_get_board_sprints"
    case GetSprint => "jira_get_sprint"
    case CreateSprint => "jira_create_sprint"
    case UpdateSprint => "jira_update_sprint"
    case StartSprint => "jira_start_sprint"
    case CloseSprint => "jira_close_sprint"
    case GetSprintIssues => "jira_get_sprint_issues"
    case AddIssuesToSprint => "jira_add_issues_to_sprint"
    case MoveIssuesToBacklog => "jira_move_issues_to_backlog"
    case RemoveIssuesFromSprint => "jira_remove_issues_from_sprint"
  }

  /** The tool list `ListTools` answers: the issue tools, then the board
      tools, then the sprint tools. */
  const Advertised: seq<Tool> := [
    SearchIssues, GetIssue, CreateIssue, UpdateIssue, TransitionIssue, AddComment,
    GetProjects, GetTransitions, GetCurrentUser,
    GetBoards, GetBoard, GetBoardConfiguration, GetBoardIssues, GetBoardBacklog,
    GetBoardSprints, GetSprint, CreateSprint, UpdateSprint, StartSprint, CloseSprint,
    GetSprintIssues, AddIssuesToSprint, MoveIssuesToBacklog, RemoveIssuesFromSprint]

  function AdvertisedNames(): seq<string> {
    Names(Advertised, NameOf)
  }

  /** The order in which `CallTool` compares the requested name: the board
      tools, the sprint tools, then the issue tools' `switch`. */
  const DispatchOrder: seq<Tool> := [
    GetBoards, GetBoard, GetBoardConfiguration, GetBoardIssues, GetBoardBacklog,
    GetBoardSprints, GetSprint, CreateSprint, UpdateSprint, StartSprint, CloseSprint,
    GetSprintIssues, AddIssuesToSprint, MoveIssuesToBacklog, RemoveIssuesFromSprint,
    SearchIssues, GetIssue, CreateIssue, UpdateIssue, TransitionIssue, AddComment,
    GetProjects, GetTransitions, GetCurrentUser]

  /** The chain of `if (name === ...)` tests and the `switch` after them. */
  function Route(name: string): Option<Tool> {
    FirstNamed(name, DispatchOrder, NameOf)
  }

  /** Tells the tool names apart by their length and one or two letters:
      a cheap witness that no two tools share a name. */
  function Recognise(name: string): Option<Tool> {
    var n := |name|;
    if n == 14 then (if name[9] == 'i' then Some(GetIssue) else Some(GetBoard))
    else if n == 15 then (if name[9] == 'b' then Some(GetBoards) else Some(GetSprint))
    else if n == 16 then Some(AddComment)
    else if n == 17 then
      (if name[5] == 'u' then Some(UpdateIssue)
       else if name[5] == 'g' then Some(GetProjects)
       else if name[5] == 's' then Some(StartSprint)
       else if name[6] == 'r' then Some(CreateIssue)
       else Some(CloseSprint))
    else if n == 18 then
      (if name[5] == 's' then Some(SearchIssues) else if name[5] == 'c' then Some(CreateSprint) else Some(UpdateSprint))
    else if n == 20 then Some(GetTransitions)
    else if n == 21 then
      (if name[5] == 't' then Some(TransitionIssue) else if name[9] == 'c' then Some(GetCurrentUser) else Some(GetBoardIssues))
    else if n == 22 then
      (if name[15] == 'b' then Some(GetBoardBacklog) else if name[15] == 's' then Some(GetBoardSprints) else Some(GetSprintIssues))
    else if n == 25 then Some(AddIssuesToSprint)
    else if n == 27 then Some(MoveIssuesToBacklog)
    else if n == 28 then Some(GetBoardConfiguration)
    else if n == 30 then Some(RemoveIssuesFromSprint)
    else None
  }

  lemma RecogniseNames(t: Tool)
    ensures Recognise(NameOf(t)) == Some(t)
  {
    if t in {SearchIssues, GetIssue, CreateIssue, UpdateIssue, TransitionIssue, AddComment,
             GetProjects, GetTransitions, GetCurrentUser} {
      RecogniseIssueTools(t);
    } else if t in {GetBoards, GetBoard, GetBoardConfiguration, GetBoardIssues, GetBoardBacklog, GetBoardSprints} {
      RecogniseBoardTools(t);
    } else {
      RecogniseSprintTools(t);
    }
  }

  lemma RecogniseIssueTools(t: Tool)
    requires t in {SearchIssues, GetIssue, CreateIssue, UpdateIssue, TransitionIssue, AddComment,
                   GetProjects, GetTransitions, GetCurrentUser}
    ensures Recognise(NameOf(t)) == Some(t)
  {
  }

  lemma RecogniseBoardTools(t: Tool)
    requires t in {GetBoards, GetBoard, GetBoardConfiguration, GetBoardIssues, GetBoardBacklog, GetBoardSprints}
    ensures Recognise(NameOf(t)) == Some(t)
  {
  }

  lemma RecogniseSprintTools(t: Tool)
    requires t in {GetSprint, CreateSprint, UpdateSprint, StartSprint, CloseSprint, GetSprintIssues,
                   AddIssuesToSprint, MoveIssuesToBacklog, RemoveIssuesFromSprint}
    ensures Recognise(NameOf(t)) == Some(t)
  {
  }

  /** No two tools have the same name. */
  lemma NamesDistinct(t: Tool, u: Tool)
    ensures NameOf(t) == NameOf(u) ==> t == u
  {
    RecogniseNames(t);
    RecogniseNames(u);
  }

  /** Every tool is advertised and routed to its own handler. */
  lemma RouteInvertsNames(t: Tool)
    ensures Route(NameOf(t)) == Some(t)
    ensures t in Advertised
  {
    assert t in DispatchOrder;
    NamesDistinct(t, Route(NameOf(t)).value);
  }

  /** A name is routed exactly when it is advertised. */
  lemma RoutedIsAdvertised(name: string)
    ensures Route(name).Some? <==> name in AdvertisedNames()
  {
    if name in AdvertisedNames() {
      var i :| 0 <= i < |Advertised| && AdvertisedNames()[i] == name;
      RouteInvertsNames(Advertised[i]);
    }
    if Route(name).Some? {
      RouteInvertsNames(Route(name).value);
      var i :| 0 <= i < |Advertised| && Advertised[i] == Route(name).value;
      assert AdvertisedNames()[i] == name;
    }
  }

  /** Where a tool stands in the advertised list. */
  function Rank(t: Tool): nat {
    match t
    case SearchIssues => 0
    case GetIssue => 1
    case CreateIssue => 2
    case UpdateIssue => 3
    case TransitionIssue => 4
    case AddComment => 5
    case GetProjects => 6
    case GetTransitions => 7
    case GetCurrentUser => 8
    case GetBoards => 9
    case GetBoard => 10
    case GetBoardConfiguration => 11
    case GetBoardIssues => 12
    case GetBoardBacklog => 13
    case GetBoardSprints => 14
    case GetSprint => 15
    case CreateSprint => 16
    case UpdateSprint => 17
    case StartSprint => 18
    case CloseSprint => 19
    case GetSprintIssues => 20
    case AddIssuesToSprint => 21
    case MoveIssuesToBacklog => 22
    case RemoveIssuesFromSprint => 23
  }

  lemma RankOfAdvertised(i: nat)
    requires i < |Advertised|
    ensures Rank(Advertised[i]) == i
  {
  }

  /** The list has 24 entries and no name twice. */
  lemma AdvertisedDistinct()
    ensures |AdvertisedNames()| == 24
    ensures forall i, j :: 0 <= i < j < |AdvertisedNames()| ==> AdvertisedNames()[i] != AdvertisedNames()[j]
  {
    forall i, j | 0 <= i < j < |AdvertisedNames()|
      ensures AdvertisedNames()[i] != AdvertisedNames()[j]
    {
      RankOfAdvertised(i);
      RankOfAdvertised(j);
      NamesDistinct(Advertised[i], Advertised[j]);
    }
  }

  // ---------------------------------------------------------------------
  // Transitions

  /** `t.name.toLowerCase() === transitionName.toLowerCase()`, evaluated left
      operand first; either side may throw. */
  function NameMatches(t: Value, wanted: Value): Result<bool> {
    var name :- Member(t, "name");
    var have :- ToLowerCase(name);
    var want :- ToLowerCase(wanted);
    Ok(have == want)
  }

  /** A transition whose name is a string equal to `wanted` up to case. */
  predicate Matches(t: Value, wanted: string) {
    Get(t, "name").Str? && Lower(Get(t, "name").s) == Lower(wanted)
  }

  predicate WellNamed(t: Value) {
    !Nullish(t) && Get(t, "name").Str?
  }

  /** `transitions.find(...)`: the first element whose name matches. */
  function FindTransition(ts: seq<Value>, wanted: Value): (r: Result<Option<Value>>)
    ensures r.Ok? && r.value.Some? ==> r.value.value in ts && wanted.Str? && Matches(r.value.value, wanted.s)
    ensures (forall i :: 0 <= i < |ts| ==> WellNamed(ts[i])) && (|ts| > 0 ==> wanted.Str?) ==> r.Ok?
    ensures r.Ok? && r.value.None? ==> forall i :: 0 <= i < |ts| ==> wanted.Str? && !Matches(ts[i], wanted.s)
    ensures r.Ok? && r.value.Some? ==>
      exists i :: 0 <= i < |ts| && ts[i] == r.value.value && forall j :: 0 <= j < i ==> !Matches(ts[j], wanted.s)
  {
    if |ts| == 0 then Ok(None)
    else
      match NameMatches(ts[0], wanted)
      case Err(f) => Err(f)
      case Ok(hit) =>
        if hit then Ok(Some(ts[0]))
        else
          var rest := FindTransition(ts[1..], wanted);
          if rest.Ok? && rest.value.Some? then
            var i :| 0 <= i < |ts[1..]| && ts[1..][i] == rest.value.value
              && forall j :: 0 <= j < i ==> !Matches(ts[1..][j], wanted.s);
            assert ts[i + 1] == rest.value.value;
            assert forall j :: 0 <= j < i + 1 ==> !Matches(ts[j], wanted.s) by {
              forall j | 0 <= j < i + 1 ensures !Matches(ts[j], wanted.s) {
                if j > 0 { assert ts[j] == ts[1..][j - 1]; }
              }
            }
            rest
          else
            assert forall i :: 1 <= i < |ts| ==> ts[i] == ts[1..][i - 1];
            rest
  }

  /** The search ignores letter case in the requested name. */
  lemma {:induction false} FindIgnoresCase(ts: seq<Value>, w1: string, w2: string)
    requires Lower(w1) == Lower(w2)
    ensures FindTransition(ts, Str(w1)).Ok? ==> FindTransition(ts, Str(w2)) == FindTransition(ts, Str(w1))
  {
    if |ts| > 0 {
      FindIgnoresCase(ts[1..], w1, w2);
    }
  }

  function TransitionNotFound(wanted: Value, available: string): Fault {
    Raise("Transition \"" + Show(wanted) + "\" not found. Available: " + available)
  }

  function TransitionNames(ts: seq<Value>): seq<Value> {
    seq(|ts|, i requires 0 <= i < |ts| => Get(ts[i], "name"))
  }

  /** `jira_transition_issue`: look the transition up by name, then apply it;
      the result is the confirmation text. */
  function Transition(args: Value, oracle: Api.Oracle): (run: Run<Api.Call, string>)
    ensures Destructure(args).Ok? ==> |run.trace| >= 1 && run.trace[0] == Api.GetTransitions(Get(args, "issueKey"))
    ensures Destructure(args).Err? ==> run.trace == []
    ensures forall k :: 1 <= k < |run.trace| ==> run.trace[k].DoTransition?
  {
    match Destructure(args)
    case Err(f) => Fail(f)
    case Ok(_) =>
      var issueKey := Get(args, "issueKey");
      var transitionName := Get(args, "transitionName");
      var look := Api.GetTransitions(issueKey);
      match oracle(look)
      case Failure(f) => Run([look], Err(f))
      case Answer(transitions) =>
        match Member(transitions, "transitions")
        case Err(f) => Run([look], Err(f))
        case Ok(listing) =>
          if Nullish(listing) then Run([look], Err(TransitionNotFound(transitionName, "undefined")))
          else if !listing.Arr? then
            Run([look], Err(TypeError("transitions.transitions?.find is not a function")))
          else
            match FindTransition(listing.items, transitionName)
            case Err(f) => Run([look], Err(f))
            case Ok(None) =>
              Run([look], Err(TransitionNotFound(transitionName, JoinValues(TransitionNames(listing.items), ", "))))
            case Ok(Some(t)) =>
              var apply := Api.DoTransition(issueKey, Get(t, "id"));
              match oracle(apply)
              case Failure(f) => Run([look, apply], Err(f))
              case Answer(_) =>
                Run([look, apply], Ok("Issue " + Show(issueKey) + " transitioned to \"" + Show(transitionName) + "\""))
  }

  /** With a listing of well-named transitions: the first one whose name
      matches up to case is applied by id and nothing else is; when none
      matches no transition is applied and the error names the available
      ones. */
  lemma TransitionChoice(args: Value, wanted: string, ts: seq<Value>, oracle: Api.Oracle)
    requires args.Obj? && Get(args, "transitionName") == Str(wanted)
    requires oracle(Api.GetTransitions(Get(args, "issueKey"))) == Answer(Obj(map["transitions" := Arr(ts)]))
    requires forall i :: 0 <= i < |ts| ==> WellNamed(ts[i])
    ensures var run := Transition(args, oracle);
      && ((exists i :: 0 <= i < |ts| && Matches(ts[i], wanted)) <==> |run.trace| == 2)
      && (|run.trace| == 2 ==>
            exists i :: 0 <= i < |ts| && Matches(ts[i], wanted)
              && (forall j :: 0 <= j < i ==> !Matches(ts[j], wanted))
              && run.trace[1] == Api.DoTransition(Get(args, "issueKey"), Get(ts[i], "id")))
      && (|run.trace| == 1 ==>
            run.outcome == Err(TransitionNotFound(Str(wanted), JoinValues(TransitionNames(ts), ", "))))
  {
    var r := FindTransition(ts, Str(wanted));
    assert r.Ok?;
  }

  // ---------------------------------------------------------------------
  // The other issue tools

  /** `jira_update_issue`'s fields: summary, description (as a document) and
      assignee, each only when truthy. */
  function UpdateFields(args: Value): (fields: map<string, Value>)
    ensures forall k :: k in fields <==>
      (k == "summary" && Truthy(Get(args, "summary")))
      || (k == "description" && Truthy(Get(args, "description")))
      || (k == "assignee" && Truthy(Get(args, "assignee")))
    ensures "summary" in fields ==> fields["summary"] == Get(args, "summary")
    ensures "description" in fields ==> Adf.DocText(fields["description"]) == Some(Get(args, "description"))
    ensures "assignee" in fields ==> fields["assignee"] == Obj(map["emailAddress" := Get(args, "assignee")])
  {
    var summary := Get(args, "summary");
    var description := Get(args, "description");
    var assignee := Get(args, "assignee");
    var f0: map<string, Value> := map[];
    var f1 := if Truthy(summary) then f0["summary" := summary] else f0;
    var f2 := if Truthy(description) then f1["description" := Adf.Doc(description)] else f1;
    if Truthy(assignee) then f2["assignee" := Obj(map["emailAddress" := assignee])] else f2
  }

  /** A tool that answers with fixed text once its one call is answered. */
  function Acknowledge(c: Api.Call, text: string, oracle: Api.Oracle): (run: Run<Api.Call, string>)
    ensures run.trace == [c]
    ensures run.outcome.Ok? <==> oracle(c).Answer?
    ensures run.outcome.Ok? ==> run.outcome.value == text
  {
    match oracle(c)
    case Failure(f) => Run([c], Err(f))
    case Answer(_) => Run([c], Ok(text))
  }

  /** `jira_update_issue` */
  function UpdateIssueTool(args: Value, oracle: Api.Oracle): Run<Api.Call, string> {
    match Destructure(args)
    case Err(f) => Fail(f)
    case Ok(_) =>
      var issueKey := Get(args, "issueKey");
      Acknowledge(Api.EditIssue(issueKey, Obj(UpdateFields(args))),
                  "Issue " + Show(issueKey) + " updated successfully", oracle)
  }

  /** `jira_add_comment` */
  function AddCommentTool(args: Value, oracle: Api.Oracle): Run<Api.Call, string> {
    match Destructure(args)
    case Err(f) => Fail(f)
    case Ok(_) =>
      var issueKey := Get(args, "issueKey");
      Acknowledge(Api.AddComment(issueKey, Adf.Doc(Get(args, "comment"))),
                  "Comment added to " + Show(issueKey), oracle)
  }

  /** A tool that destructures its arguments and relays one client call. */
  function Relay(args: Value, c: Api.Call, oracle: Api.Oracle): Run<Api.Call, Value> {
    match Destructure(args)
    case Err(f) => Fail(f)
    case Ok(_) => Send(c, oracle)
  }

  /** `jira_search_issues`, with at most 50 results unless told otherwise. */
  function SearchTool(args: Value, oracle: Api.Oracle): Run<Api.Call, Value> {
    Relay(args, Api.SearchJql(Get(args, "jql"), Default(Get(args, "maxResults"), Num(50))), oracle)
  }

  /** The update and comment tools send the text as a one-paragraph document,
      an update sends only the truthy fields, and a search asks for 50
      results unless told otherwise. */
  lemma IssueEdits(args: Value, oracle: Api.Oracle)
    requires args.Obj?
    ensures UpdateIssueTool(args, oracle).trace == [Api.EditIssue(Get(args, "issueKey"), Obj(UpdateFields(args)))]
    ensures var run := AddCommentTool(args, oracle);
      && |run.trace| == 1 && run.trace[0].AddComment?
      && Adf.DocText(run.trace[0].comment) == Some(Get(args, "comment"))
    ensures SearchTool(args, oracle).trace
      == [Api.SearchJql(Get(args, "jql"), if Get(args, "maxResults").Undef? then Num(50) else Get(args, "maxResults"))]
  {
  }

  // ---------------------------------------------------------------------
  // Replies

  /** The handler of one routed tool. */
  function Handle(cfg: Api.Config, t: Tool, args: Value, oracle: Api.Oracle): (run: Run<Api.Call, Envelope>)
    ensures run.outcome.Ok? ==> !run.outcome.value.isError
  {
    match t
    case GetBoards => AsJson(Boards.GetBoards(cfg, args, oracle))
    case GetBoard => AsJson(Boards.GetBoard(cfg, args, oracle))
    case GetBoardConfiguration => AsJson(Boards.GetBoardConfiguration(cfg, args, oracle))
    case GetBoardIssues => AsJson(Boards.GetBoardIssues(cfg, args, oracle))
    case GetBoardBacklog => AsJson(Boards.GetBoardBacklog(cfg, args, oracle))
    case GetBoardSprints => AsJson(Sprints.GetBoardSprints(cfg, args, oracle))
    case GetSprint => AsJson(Sprints.GetSprint(cfg, args, oracle))
    case CreateSprint => AsJson(Sprints.CreateSprint(cfg, args, oracle))
    case UpdateSprint => AsJson(Sprints.UpdateSprint(cfg, args, oracle))
    case StartSprint => AsJson(Sprints.StartSprint(cfg, args, oracle))
    case CloseSprint => AsJson(Sprints.CloseSprint(cfg, args, oracle))
    case GetSprintIssues => AsJson(Sprints.GetSprintIssues(cfg, args, oracle))
    case AddIssuesToSprint => AsJson(Sprints.AddIssuesToSprint(cfg, args, oracle))
    case MoveIssuesToBacklog => AsJson(Sprints.MoveIssuesToBacklog(cfg, args, oracle))
    case RemoveIssuesFromSprint => AsJson(Sprints.RemoveIssuesFromSprint(cfg, args, oracle))
    case SearchIssues => AsJson(SearchTool(args, oracle))
    case GetIssue => AsJson(Relay(args, Api.GetIssue(Get(args, "issueKey")), oracle))
    case CreateIssue => AsJson(IssuesEnhanced.CreateIssueEnhanced(cfg, args, oracle))
    case UpdateIssue => AsText(UpdateIssueTool(args, oracle))
    case TransitionIssue => AsText(Transition(args, oracle))
    case AddComment => AsText(AddCommentTool(args, oracle))
    case GetProjects => AsJson(Send(Api.SearchProjects, oracle))
    case GetTransitions => AsJson(Relay(args, Api.GetTransitions(Get(args, "issueKey")), oracle))
    case GetCurrentUser => AsJson(Send(Api.GetCurrentUser, oracle))
  }

  /** Every tool but the project list and the current user destructures its
      arguments first, so without arguments it fails before any call. */
  lemma MissingArguments(cfg: Api.Config, t: Tool, args: Value, oracle: Api.Oracle)
    requires Nullish(args)
    ensures t != GetProjects && t != GetCurrentUser ==> Handle(cfg, t, args, oracle).trace == []
    ensures t == GetProjects ==> Handle(cfg, t, args, oracle).trace == [Api.SearchProjects]
    ensures t == GetCurrentUser ==> Handle(cfg, t, args, oracle).trace == [Api.GetCurrentUser]
  {
  }

  /** The error reply: the message, the HTTP status if any, and the response
      details serialised (the response's `data`, else the response, else `{}`). */
  function ErrorEnvelope(f: Fault): Envelope {
    var status := Or(Or(f.status, f.statusCode), Str("unknown"));
    var details := Or(Or(Get(f.response, "data"), f.response), Obj(map[]));
    Envelope([TextBlock([Lit("Error: " + f.message + "\nStatus: " + Show(status) + "\nDetails: "),
                         Json(details)])], true)
  }

  /** The error reply is flagged, and its one text reads the message, then
      the status (`unknown` when neither status field is set), then the
      serialised details. */
  lemma ErrorText(f: Fault, stringify: Value -> string)
    ensures ErrorEnvelope(f).isError && |ErrorEnvelope(f).content| == 1
    ensures Render(ErrorEnvelope(f).content[0], stringify)
      == "Error: " + f.message + "\nStatus: " + Show(Or(Or(f.status, f.statusCode), Str("unknown")))
         + "\nDetails: " + stringify(Or(Or(Get(f.response, "data"), f.response), Obj(map[])))
  {
    var parts := ErrorEnvelope(f).content[0].parts;
    var details := Or(Or(Get(f.response, "data"), f.response), Obj(map[]));
    assert parts[1..] == [Json(details)];
    assert [Json(details)][1..] == [];
    assert RenderParts([Json(details)], stringify) == stringify(details) + RenderParts([], stringify);
  }

  /** The `catch` around a request, with this server's error reply. */
  function Catch(run: Run<Api.Call, Envelope>): Run<Api.Call, Envelope> {
    Recover(run, ErrorEnvelope)
  }

  /** One `CallTool` request. */
  function CallTool(cfg: Api.Config, name: string, args: Value, oracle: Api.Oracle): Run<Api.Call, Envelope> {
    Catch(match Route(name)
      case None => Fail(Raise("Unknown tool: " + name))
      case Some(t) => Handle(cfg, t, args, oracle))
  }

  /** A served reply is an error reply exactly when the tool is unknown or its
      handler threw; an unknown tool makes no call. A success reply is the
      handler's own. */
  lemma ServedReplies(cfg: Api.Config, name: string, args: Value, oracle: Api.Oracle)
    ensures var served := CallTool(cfg, name, args, oracle);
      && served.outcome.Ok?
      && (Route(name).None? ==>
            served == Run([], Ok(ErrorEnvelope(Raise("Unknown tool: " + name)))))
      && (Route(name).Some? ==>
            var run := Handle(cfg, Route(name).value, args, oracle);
            && served.trace == run.trace
            && (served.outcome.value.isError <==> run.outcome.Err?)
            && (run.outcome.Err? ==> served.outcome.value == ErrorEnvelope(run.outcome.fault))
            && (run.outcome.Ok? ==> served.outcome.value == run.outcome.value))
  {
  }
}
