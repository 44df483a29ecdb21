/** `jira_create_issue`: validates the project against the configured
    allow-list, builds the issue fields, creates the issue, and then places it
    in a sprint — the one named, or the active sprint of the board named, or
    none. */
module IssuesEnhanced {
  import opened Js
  import opened JiraApi
  import opened Remote
  import opened QueryStrings
  import Adf
  import Boards
  import Sprints

  /** `config.availableProjects.includes(project)` */
  predicate Allowed(cfg: Config, project: Value) {
    project.Str? && project.s in cfg.availableProjects
  }

  function InvalidProject(cfg: Config, project: Value): Fault {
    Raise("Invalid project \"" + Show(project) + "\". Available projects: " + Join(cfg.availableProjects, ", "))
  }

  /** `components.map(name => ({ name }))`, which only arrays support. */
  function ComponentRefs(components: Value): (r: Result<Value>)
    ensures r.Ok? <==> components.Arr?
    ensures r.Ok? ==> r.value.Arr? && |r.value.items| == |components.items|
    ensures r.Ok? ==> forall i :: 0 <= i < |components.items| ==> r.value.items[i] == Obj(map["name" := components.items[i]])
  {
    if components.Arr? then
      Ok(Arr(seq(|components.items|, i requires 0 <= i < |components.items| => Obj(map["name" := components.items[i]]))))
    else if Nullish(components) then
      Err(TypeError("Cannot read properties of " + Show(components) + " (reading 'map')"))
    else
      Err(TypeError("components.map is not a function"))
  }

  /** The fields every created issue carries. */
  function RequiredFields(args: Value): map<string, Value> {
    map[
      "project" := Obj(map["key" := Get(args, "project")]),
      "summary" := Get(args, "summary"),
      "description" := Adf.Doc(Default(Get(args, "description"), Str(""))),
      "issuetype" := Obj(map["name" := Default(Get(args, "issueType"), Str("Task"))])]
  }

  /** `if (components && components.length > 0) m.components = components.map(...)` */
  function WithComponents(m: map<string, Value>, components: Value): (r: Result<map<string, Value>>)
    ensures r.Ok? <==> !NonEmpty(components) || components.Arr?
    ensures r.Ok? ==> forall j :: j in r.value <==> j in m || (j == "components" && NonEmpty(components))
    ensures r.Ok? ==> forall j :: j in m && j != "components" ==> r.value[j] == m[j]
    ensures r.Ok? && NonEmpty(components) ==>
      ComponentRefs(components).Ok? && r.value["components"] == ComponentRefs(components).value
  {
    if NonEmpty(components) then
      var refs :- ComponentRefs(components);
      Ok(m["components" := refs])
    else Ok(m)
  }

  /** The `fields` object sent to the issue-creation endpoint. */
  function IssueFields(args: Value): Result<map<string, Value>> {
    var priority := Get(args, "priority");
    var assignee := Get(args, "assignee");
    var labels := Get(args, "labels");
    var epicKey := Get(args, "epicKey");
    var f1 := PutIf(RequiredFields(args), Truthy(priority), "priority", Obj(map["name" := priority]));
    var f2 := PutIf(f1, Truthy(assignee), "assignee", Obj(map["emailAddress" := assignee]));
    var f3 := PutIf(f2, NonEmpty(labels), "labels", labels);
    var f4 :- WithComponents(f3, Get(args, "components"));
    Ok(PutIf(f4, Truthy(epicKey), "customfield_10014", epicKey))
  }

  /** Building the fields fails only on a non-empty `components` that is not
      an array. */
  lemma IssueFieldsFail(args: Value)
    ensures IssueFields(args).Ok? <==> !NonEmpty(Get(args, "components")) || Get(args, "components").Arr?
  {
  }

  /** The four required fields are always there, with the description as a
      one-paragraph document (empty text by default) and the issue type
      `Task` by default. */
  lemma IssueFieldsRequired(args: Value)
    requires IssueFields(args).Ok?
    ensures IssueFields(args).value["project"] == Obj(map["key" := Get(args, "project")])
    ensures IssueFields(args).value["summary"] == Get(args, "summary")
    ensures Adf.DocText(IssueFields(args).value["description"]) == Some(Default(Get(args, "description"), Str("")))
    ensures IssueFields(args).value["issuetype"] == Obj(map["name" := Default(Get(args, "issueType"), Str("Task"))])
  {
    var f0 := RequiredFields(args);
    var f1 := PutIf(f0, Truthy(Get(args, "priority")), "priority", Obj(map["name" := Get(args, "priority")]));
    var f2 := PutIf(f1, Truthy(Get(args, "assignee")), "assignee", Obj(map["emailAddress" := Get(args, "assignee")]));
    var f3 := PutIf(f2, NonEmpty(Get(args, "labels")), "labels", Get(args, "labels"));
    var f4 := WithComponents(f3, Get(args, "components")).value;
    assert f3["project"] == f0["project"] && f4["project"] == f0["project"];
    assert f3["summary"] == f0["summary"] && f4["summary"] == f0["summary"];
    assert f3["description"] == f0["description"] && f4["description"] == f0["description"];
    assert f3["issuetype"] == f0["issuetype"] && f4["issuetype"] == f0["issuetype"];
  }

  /** Each optional field is present exactly when its argument passes the
      handler's test (truthy, or non-empty for the two lists), and then holds
      the argument in the shape the tracker expects. */
  lemma IssueFieldsOptional(args: Value)
    requires IssueFields(args).Ok?
    ensures var f := IssueFields(args).value;
      && ("priority" in f <==> Truthy(Get(args, "priority")))
      && ("assignee" in f <==> Truthy(Get(args, "assignee")))
      && ("labels" in f <==> NonEmpty(Get(args, "labels")))
      && ("components" in f <==> NonEmpty(Get(args, "components")))
      && ("customfield_10014" in f <==> Truthy(Get(args, "epicKey")))
      && ("customfield_10014" in f ==> f["customfield_10014"] == Get(args, "epicKey"))
      && ("assignee" in f ==> f["assignee"] == Obj(map["emailAddress" := Get(args, "assignee")]))
      && ("labels" in f ==> f["labels"] == Get(args, "labels"))
      && ("priority" in f ==> f["priority"] == Obj(map["name" := Get(args, "priority")]))
      && ("components" in f ==>
            ComponentRefs(Get(args, "components")).Ok?
            && f["components"] == ComponentRefs(Get(args, "components")).value)
  {
  }

  /** `GET /board/${boardId}/sprint?state=active` */
  function ActiveSprintsCall(cfg: Config, boardId: Value): Call {
    AgileCall(cfg, GET, Begin(Boards.BoardPath(boardId) + "/sprint", "state", "active"), Undef)
  }

  /** `sprints.values && sprints.values.length > 0 ? sprints.values[0] : null` */
  function ActiveSprint(sprints: Value): Result<Value> {
    var values :- Member(sprints, "values");
    Ok(if NonEmpty(values) then First(values) else Null)
  }

  /** The sprint placement after the issue `issueKey` exists: the calls it
      makes and the `sprint` field of the answer. */
  function Placement(cfg: Config, args: Value, issueKey: Value, oracle: Oracle): Run<Call, Value> {
    var sprintId := Get(args, "sprintId");
    var boardId := Get(args, "boardId");
    if Truthy(sprintId) then
      var add := Sprints.ToSprintCall(cfg, sprintId, Arr([issueKey]));
      match oracle(add)
      case Failure(f) => Run([add], Err(f))
      case Answer(_) => Run([add], Ok(Obj(map["sprintId" := sprintId, "method" := Str("direct")])))
    else if Truthy(boardId) then
      var look := ActiveSprintsCall(cfg, boardId);
      match oracle(look)
      case Failure(f) => Run([look], Err(f))
      case Answer(sprints) =>
        match ActiveSprint(sprints)
        case Err(f) => Run([look], Err(f))
        case Ok(active) =>
          if Truthy(active) then
            var add := Sprints.ToSprintCall(cfg, Get(active, "id"), Arr([issueKey]));
            match oracle(add)
            case Failure(f) => Run([look, add], Err(f))
            case Answer(_) =>
              Run([look, add], Ok(Obj(map["sprintId" := Get(active, "id"), "sprintName" := Get(active, "name"),
                                         "method" := Str("auto-active")])))
          else
            Run([look], Ok(Obj(map["method" := Str("no-active-sprint"),
                                   "message" := Str("No active sprint found on board " + Show(boardId))])))
    else
      Run([], Ok(Null))
  }

  function CreateIssueEnhanced(cfg: Config, args: Value, oracle: Oracle): (run: Run<Call, Value>)
    ensures Destructure(args).Ok? && !Allowed(cfg, Get(args, "project")) ==>
      run == Run([], Err(InvalidProject(cfg, Get(args, "project"))))
    ensures Destructure(args).Ok? && Allowed(cfg, Get(args, "project")) && IssueFields(args).Ok? ==>
      |run.trace| >= 1 && run.trace[0] == CreateIssue(Obj(IssueFields(args).value))
    ensures run.trace == [] <==>
      Destructure(args).Err? || !Allowed(cfg, Get(args, "project")) || IssueFields(args).Err?
  {
    match Destructure(args)
    case Err(f) => Fail(f)
    case Ok(_) =>
      var project := Get(args, "project");
      if !Allowed(cfg, project) then Fail(InvalidProject(cfg, project))
      else
        match IssueFields(args)
        case Err(f) => Fail(f)
        case Ok(fields) =>
          var create := CreateIssue(Obj(fields));
          match oracle(create)
          case Failure(f) => Run([create], Err(f))
          case Answer(result) =>
            match Member(result, "key")
            case Err(f) => Run([create], Err(f))
            case Ok(issueKey) =>
              var placed := Placement(cfg, args, issueKey, oracle);
              After([create], match placed.outcome
                case Err(f) => Run(placed.trace, Err(f))
                case Ok(sprintInfo) => Run(placed.trace, Ok(Obj(Own(result)["sprint" := sprintInfo]))))
  }

  /** The placement policy. A truthy `sprintId` adds the new issue to that
      sprint; otherwise a truthy `boardId` looks up the board's active sprints
      and adds the issue to the first, or reports that there is none;
      otherwise nothing is sent and `sprint` is null. */
  lemma PlacementPolicy(cfg: Config, args: Value, issueKey: Value, oracle: Oracle)
    ensures var run := Placement(cfg, args, issueKey, oracle);
      var sprintId := Get(args, "sprintId");
      var boardId := Get(args, "boardId");
      && (Truthy(sprintId) ==>
            && run.trace == [Sprints.ToSprintCall(cfg, sprintId, Arr([issueKey]))]
            && (oracle(run.trace[0]).Answer? ==>
                  run.outcome == Ok(Obj(map["sprintId" := sprintId, "method" := Str("direct")]))))
      && (!Truthy(sprintId) && Truthy(boardId) ==>
            && 1 <= |run.trace| <= 2
            && run.trace[0] == ActiveSprintsCall(cfg, boardId)
            && (oracle(run.trace[0]).Answer? && ActiveSprint(oracle(run.trace[0]).body).Ok? ==>
                  var active := ActiveSprint(oracle(run.trace[0]).body).value;
                  && (Truthy(active) ==>
                        && run.trace == [ActiveSprintsCall(cfg, boardId),
                                         Sprints.ToSprintCall(cfg, Get(active, "id"), Arr([issueKey]))]
                        && (oracle(run.trace[1]).Answer? ==>
                              run.outcome == Ok(Obj(map["sprintId" := Get(active, "id"), "sprintName" := Get(active, "name"),
                                                        "method" := Str("auto-active")]))))
                  && (!Truthy(active) ==>
                        run == Run([ActiveSprintsCall(cfg, boardId)],
                                   Ok(Obj(map["method" := Str("no-active-sprint"),
                                              "message" := Str("No active sprint found on board " + Show(boardId))]))))))
      && (!Truthy(sprintId) && !Truthy(boardId) ==> run == Run([], Ok(Null)))
  {
  }

  /** The active sprint is the first listed one, and there is none exactly
      when the listing has no non-empty `values`. */
  lemma ActiveSprintIsFirst(sprints: seq<Value>)
    ensures ActiveSprint(Obj(map["values" := Arr(sprints)])) ==
      Ok(if |sprints| > 0 then sprints[0] else Null)
  {
  }

  /** A created issue's answer is the creation response with one more field,
      `sprint`, holding the placement report; nothing else is changed. */
  lemma CreatedAnswer(cfg: Config, args: Value, oracle: Oracle)
    requires args.Obj? && Allowed(cfg, Get(args, "project")) && IssueFields(args).Ok?
    requires oracle(CreateIssue(Obj(IssueFields(args).value))).Answer?
    requires var result := oracle(CreateIssue(Obj(IssueFields(args).value))).body;
      !Nullish(result)
    ensures var create := CreateIssue(Obj(IssueFields(args).value));
      var result := oracle(create).body;
      var placed := Placement(cfg, args, Get(result, "key"), oracle);
      var run := CreateIssueEnhanced(cfg, args, oracle);
      && run.trace == [create] + placed.trace
      && (run.outcome.Ok? <==> placed.outcome.Ok?)
      && (run.outcome.Ok? ==>
            && run.outcome.value.Obj?
            && run.outcome.value.fields.Keys == Own(result).Keys + {"sprint"}
            && Get(run.outcome.value, "sprint") == placed.outcome.value
            && forall k :: k in Own(result) && k != "sprint" ==> Get(run.outcome.value, k) == Own(result)[k])
  {
  }
}
