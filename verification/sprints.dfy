/** Sprint tools. All of them go through the Agile API; the one with local
    policy is `closeSprint`, which lists the sprint's issues, closes the
    sprint, and then migrates the issues that are not "Done". */
module Sprints {
  import opened Js
  import opened JiraApi
  import opened Remote
  import opened QueryStrings
  import Boards

  function SprintPath(sprintId: Value): string {
    "/sprint/" + Show(sprintId)
  }

  // ---------------------------------------------------------------------
  // Endpoints and request bodies

  /** `/board/${boardId}/sprint?maxResults=…`, then `&state=…` when given. */
  function BoardSprintsEndpoint(args: Value): string {
    var state := Get(args, "state");
    var maxResults := Default(Get(args, "maxResults"), Boards.DefaultMaxResults);
    var e0 := Begin(Boards.BoardPath(Get(args, "boardId")) + "/sprint", "maxResults", Show(maxResults));
    if Truthy(state) then Append(e0, "state", Show(state)) else e0
  }

  lemma BoardSprintsQuery(args: Value)
    ensures BoardSprintsEndpoint(args) == Render("/board/" + Show(Get(args, "boardId")) + "/sprint",
      [("maxResults", Show(Default(Get(args, "maxResults"), Num(50))))]
      + When(Get(args, "state"), "state", Show(Get(args, "state"))))
  {
    var path := "/board/" + Show(Get(args, "boardId")) + "/sprint";
    var m := [("maxResults", Show(Default(Get(args, "maxResults"), Num(50))))];
    RenderOne(path, m[0].0, m[0].1);
    RenderWhen(path, m, Get(args, "state"), "state", Show(Get(args, "state")));
  }

  /** `if (x) data.x = x` for each name in turn. */
  function Optionals(args: Value, names: seq<string>, data: map<string, Value>): (r: map<string, Value>)
    ensures forall k :: k in r <==> k in data || (k in names && Truthy(Get(args, k)))
    ensures forall k :: k in names && Truthy(Get(args, k)) ==> r[k] == Get(args, k)
    ensures forall k :: k in data && k !in names ==> r[k] == data[k]
  {
    if |names| == 0 then data
    else
      var k := names[0];
      var next := if Truthy(Get(args, k)) then data[k := Get(args, k)] else data;
      Optionals(args, names[1..], next)
  }

  /** `{ name, originBoardId: boardId }` plus startDate, endDate, goal when truthy. */
  function CreateSprintData(args: Value): map<string, Value> {
    Optionals(args, ["startDate", "endDate", "goal"],
      map["name" := Get(args, "name"), "originBoardId" := Get(args, "boardId")])
  }

  /** name, goal, startDate, endDate, state, each only when truthy. */
  function UpdateSprintData(args: Value): map<string, Value> {
    Optionals(args, ["name", "goal", "startDate", "endDate", "state"], map[])
  }

  /** `{ state: 'active' }` plus startDate and endDate when truthy. */
  function StartSprintData(args: Value): map<string, Value> {
    Optionals(args, ["startDate", "endDate"], map["state" := Str("active")])
  }

  /** Starting a sprint always asks for the active state and otherwise sends
      only the truthy dates. */
  lemma StartSprintBody(args: Value)
    ensures StartSprintData(args)["state"] == Str("active")
    ensures forall k :: k in StartSprintData(args) <==>
      k == "state" || ((k == "startDate" || k == "endDate") && Truthy(Get(args, k)))
  {
  }

  /** An update sends exactly the truthy fields among name, goal, the dates
      and state, each with the value given. */
  lemma UpdateSprintBody(args: Value)
    ensures forall k :: k in UpdateSprintData(args) <==>
      (k == "name" || k == "goal" || k == "startDate" || k == "endDate" || k == "state") && Truthy(Get(args, k))
    ensures forall k :: k in UpdateSprintData(args) ==> UpdateSprintData(args)[k] == Get(args, k)
  {
  }

  /** A new sprint always names itself and its board; the dates and the goal
      are sent when truthy. */
  lemma CreateSprintBody(args: Value)
    ensures CreateSprintData(args)["name"] == Get(args, "name")
    ensures CreateSprintData(args)["originBoardId"] == Get(args, "boardId")
    ensures forall k :: k in CreateSprintData(args) <==>
      k == "name" || k == "originBoardId" || ((k == "startDate" || k == "endDate" || k == "goal") && Truthy(Get(args, k)))
  {
  }

  // ---------------------------------------------------------------------
  // Closing a sprint

  /** `issue.fields.status.name`, which throws when a link is missing. */
  function StatusName(issue: Value): Result<Value> {
    var fields :- Member(issue, "fields");
    var status :- Member(fields, "status");
    Member(status, "name")
  }

  /** Completed means the status name is exactly the string "Done". */
  predicate IsDone(issue: Value) {
    StatusName(issue) == Ok(Str("Done"))
  }

  /** `a` is `b` with some elements left out, the rest in their order. */
  predicate IsSubsequence(a: seq<Value>, b: seq<Value>)
    decreases |b|
  {
    if |a| == 0 then true
    else if |b| == 0 then false
    else (a[0] == b[0] && IsSubsequence(a[1..], b[1..])) || IsSubsequence(a, b[1..])
  }

  /** `issues.filter(issue => issue.fields.status.name !== 'Done')` */
  function FilterIncomplete(issues: seq<Value>): (r: Result<seq<Value>>)
    ensures r.Ok? <==> forall i :: 0 <= i < |issues| ==> StatusName(issues[i]).Ok?
    ensures r.Ok? ==> forall x :: multiset(r.value)[x] == if IsDone(x) then 0 else multiset(issues)[x]
    ensures r.Ok? ==> IsSubsequence(r.value, issues)
  {
    if |issues| == 0 then Ok([])
    else
      var head := issues[0];
      assert issues == [head] + issues[1..];
      match StatusName(head)
      case Err(f) => Err(f)
      case Ok(name) =>
        match FilterIncomplete(issues[1..])
        case Err(f) =>
          assert exists i :: 0 <= i < |issues[1..]| && !StatusName(issues[1..][i]).Ok?;
          Err(f)
        case Ok(rest) =>
          assert forall i :: 1 <= i < |issues| ==> issues[i] == issues[1..][i - 1];
          if name != Str("Done") then
            assert ([head] + rest)[1..] == rest;
            Ok([head] + rest)
          else
            Ok(rest)
  }

  /** `sprintIssues.issues?.filter(...)`: None when the listing has no issues. */
  function IncompleteOf(listing: Value): Result<Option<seq<Value>>> {
    var issues :- Member(listing, "issues");
    if Nullish(issues) then Ok(None)
    else if issues.Arr? then
      var kept :- FilterIncomplete(issues.items);
      Ok(Some(kept))
    else Err(TypeError("sprintIssues.issues?.filter is not a function"))
  }

  /** `incompleteIssues.map(i => i.key)` */
  function Keys(issues: seq<Value>): seq<Value> {
    seq(|issues|, i requires 0 <= i < |issues| => Get(issues[i], "key"))
  }

  function ListingCall(cfg: Config, sprintId: Value): Call {
    AgileCall(cfg, GET, SprintPath(sprintId) + "/issue", Undef)
  }

  function CloseCall(cfg: Config, sprintId: Value): Call {
    AgileCall(cfg, POST, SprintPath(sprintId), Obj(map["state" := Str("closed")]))
  }

  function ToSprintCall(cfg: Config, sprintId: Value, issues: Value): Call {
    AgileCall(cfg, POST, SprintPath(sprintId) + "/issue", Obj(map["issues" := issues]))
  }

  function ToBacklogCall(cfg: Config, issues: Value): Call {
    AgileCall(cfg, POST, "/backlog/issue", Obj(map["issues" := issues]))
  }

  /** The migration step: sent only when there are incomplete issues, and then
      to another sprint if one is named, else to the backlog if asked. */
  function Migration(cfg: Config, incomplete: Option<seq<Value>>, moveToSprintId: Value, moveToBacklog: Value)
    : Option<Call>
  {
    if incomplete.Some? && |incomplete.value| > 0 then
      var issueKeys := Arr(Keys(incomplete.value));
      if Truthy(moveToSprintId) then Some(ToSprintCall(cfg, moveToSprintId, issueKeys))
      else if Truthy(moveToBacklog) then Some(ToBacklogCall(cfg, issueKeys))
      else None
    else None
  }

  /** `moveToSprintId ? 'sprint' : moveToBacklog ? 'backlog' : 'none'` */
  function MovedTo(moveToSprintId: Value, moveToBacklog: Value): string {
    if Truthy(moveToSprintId) then "sprint" else if Truthy(moveToBacklog) then "backlog" else "none"
  }

  /** `{ ...result, incompleteIssues: incompleteIssues?.length || 0, movedTo }` */
  function CloseSummary(result: Value, incomplete: Option<seq<Value>>, movedTo: string): Value {
    var count := if incomplete.Some? then |incomplete.value| else 0;
    Obj(Own(result)["incompleteIssues" := Num(count)]["movedTo" := Str(movedTo)])
  }

  function CloseSprint(cfg: Config, args: Value, oracle: Oracle): (run: Run<Call, Value>)
    ensures Destructure(args).Ok? ==>
      && 1 <= |run.trace| <= 3
      && run.trace[0] == ListingCall(cfg, Get(args, "sprintId"))
      && (|run.trace| >= 2 ==> run.trace[1] == CloseCall(cfg, Get(args, "sprintId")))
    ensures Destructure(args).Err? ==> run.trace == [] && run.outcome.Err?
  {
    match Destructure(args)
    case Err(f) => Fail(f)
    case Ok(_) =>
      var sprintId := Get(args, "sprintId");
      var moveToBacklog := Default(Get(args, "moveToBacklog"), Bool(true));
      var moveToSprintId := Get(args, "moveToSprintId");
      var listing := ListingCall(cfg, sprintId);
      match oracle(listing)
      case Failure(f) => Run([listing], Err(f))
      case Answer(sprintIssues) =>
        match IncompleteOf(sprintIssues)
        case Err(f) => Run([listing], Err(f))
        case Ok(incomplete) =>
          var close := CloseCall(cfg, sprintId);
          match oracle(close)
          case Failure(f) => Run([listing, close], Err(f))
          case Answer(result) =>
            var summary := CloseSummary(result, incomplete, MovedTo(moveToSprintId, moveToBacklog));
            match Migration(cfg, incomplete, moveToSprintId, moveToBacklog)
            case None => Run([listing, close], Ok(summary))
            case Some(move) =>
              match oracle(move)
              case Failure(f) => Run([listing, close, move], Err(f))
              case Answer(_) => Run([listing, close, move], Ok(summary))
  }

  /** Once the listing and the close have been answered, the run is the
      listing, the close, then the migration request if the policy sends one;
      the summary is the close response's own fields with the count of
      incomplete issues and the reported destination added. */
  lemma CloseSprintRun(cfg: Config, args: Value, oracle: Oracle)
    requires args.Obj?
    requires oracle(ListingCall(cfg, Get(args, "sprintId"))).Answer?
    requires IncompleteOf(oracle(ListingCall(cfg, Get(args, "sprintId"))).body).Ok?
    requires oracle(CloseCall(cfg, Get(args, "sprintId"))).Answer?
    ensures var incomplete := IncompleteOf(oracle(ListingCall(cfg, Get(args, "sprintId"))).body).value;
      var moveToBacklog := Default(Get(args, "moveToBacklog"), Bool(true));
      var move := Migration(cfg, incomplete, Get(args, "moveToSprintId"), moveToBacklog);
      var run := CloseSprint(cfg, args, oracle);
      && run.trace == [ListingCall(cfg, Get(args, "sprintId")), CloseCall(cfg, Get(args, "sprintId"))]
                      + (if move.Some? then [move.value] else [])
      && (run.outcome.Ok? <==> move.None? || oracle(move.value).Answer?)
      && (run.outcome.Ok? ==>
            && Get(run.outcome.value, "incompleteIssues")
               == Num(if incomplete.Some? then |incomplete.value| else 0)
            && Get(run.outcome.value, "movedTo") == Str(MovedTo(Get(args, "moveToSprintId"), moveToBacklog)))
      && (run.outcome.Ok? ==>
            var result := oracle(CloseCall(cfg, Get(args, "sprintId"))).body;
            && run.outcome.value.Obj?
            && run.outcome.value.fields.Keys == Own(result).Keys + {"incompleteIssues", "movedTo"}
            && forall k :: k in Own(result) && k != "incompleteIssues" && k != "movedTo" ==>
                 Get(run.outcome.value, k) == Own(result)[k])
  {
  }

  /** The migration policy, from the arguments alone: with incomplete issues,
      a truthy `moveToSprintId` sends them to that sprint, else a truthy
      `moveToBacklog` sends them to the backlog, else
      nothing is sent; without incomplete issues nothing is sent. The keys
      are those of the incomplete issues, in listing order. */
  lemma MigrationPolicy(cfg: Config, incomplete: Option<seq<Value>>, moveToSprintId: Value, moveToBacklog: Value)
    ensures var move := Migration(cfg, incomplete, moveToSprintId, moveToBacklog);
      var keys := if incomplete.Some? then Arr(Keys(incomplete.value)) else Undef;
      && (incomplete.None? || |incomplete.value| == 0 ==> move.None?)
      && (incomplete.Some? && |incomplete.value| > 0 ==>
            && (Truthy(moveToSprintId) ==> move == Some(ToSprintCall(cfg, moveToSprintId, keys)))
            && (!Truthy(moveToSprintId) && Truthy(moveToBacklog) ==> move == Some(ToBacklogCall(cfg, keys)))
            && (!Truthy(moveToSprintId) && !Truthy(moveToBacklog) ==> move.None?))
  {
  }

  /** The reported destination agrees with the request actually sent whenever
      something was migrated; it is reported even when nothing was. */
  lemma {:induction false} MovedToAgrees(cfg: Config, incomplete: seq<Value>, moveToSprintId: Value, moveToBacklog: Value)
    requires |incomplete| > 0
    ensures var move := Migration(cfg, Some(incomplete), moveToSprintId, moveToBacklog);
      var moved := MovedTo(moveToSprintId, moveToBacklog);
      && (moved == "sprint" <==>
            move.Some? && EndpointOf(cfg.host, move.value.url) == Some(SprintPath(moveToSprintId) + "/issue"))
      && (moved == "backlog" <==>
            move.Some? && EndpointOf(cfg.host, move.value.url) == Some("/backlog/issue"))
      && (moved == "none" <==> move.None?)
  {
    var keys := Arr(Keys(incomplete));
    if Truthy(moveToSprintId) {
      var url := AgileUrl(cfg.host, SprintPath(moveToSprintId) + "/issue");
      assert EndpointOf(cfg.host, url) == Some(SprintPath(moveToSprintId) + "/issue");
      BacklogIsNotSprintPath(moveToSprintId);
    } else if Truthy(moveToBacklog) {
      var url := AgileUrl(cfg.host, "/backlog/issue");
      assert EndpointOf(cfg.host, url) == Some("/backlog/issue");
      BacklogIsNotSprintPath(moveToSprintId);
    }
  }

  lemma BacklogIsNotSprintPath(sprintId: Value)
    ensures SprintPath(sprintId) + "/issue" != "/backlog/issue"
  {
    var p := SprintPath(sprintId) + "/issue";
    assert p[1] == 's';
    assert "/backlog/issue"[1] == 'b';
  }

  /** The keys of the issues whose status is not "Done", in listing order,
      read off the listing one issue at a time. */
  function IncompleteKeys(issues: seq<Value>): seq<Value> {
    if |issues| == 0 then []
    else (if IsDone(issues[0]) then [] else [Get(issues[0], "key")]) + IncompleteKeys(issues[1..])
  }

  /** The migrated keys are exactly the keys of the issues whose status is
      not "Done", each as often as in the listing, in listing order. */
  lemma {:induction false} MigratedKeys(issues: seq<Value>)
    requires FilterIncomplete(issues).Ok?
    ensures var kept := FilterIncomplete(issues).value;
      && (forall x :: x in kept <==> x in issues && !IsDone(x))
      && IsSubsequence(kept, issues)
      && Keys(kept) == IncompleteKeys(issues)
  {
    var kept := FilterIncomplete(issues).value;
    forall x
      ensures x in kept <==> x in issues && !IsDone(x)
    {
      assert x in kept <==> multiset(kept)[x] > 0;
      assert x in issues <==> multiset(issues)[x] > 0;
    }
    KeysFollowFilter(issues);
  }

  lemma {:induction false} KeysFollowFilter(issues: seq<Value>)
    requires FilterIncomplete(issues).Ok?
    ensures Keys(FilterIncomplete(issues).value) == IncompleteKeys(issues)
  {
    if |issues| > 0 {
      FilterStep(issues);
      KeysFollowFilter(issues[1..]);
      var head: seq<Value> := if IsDone(issues[0]) then [] else [issues[0]];
      var rest := FilterIncomplete(issues[1..]).value;
      KeysAppend(head, rest);
      assert Keys(head) == if IsDone(issues[0]) then [] else [Get(issues[0], "key")];
    }
  }

  lemma KeysAppend(a: seq<Value>, b: seq<Value>)
    ensures Keys(a + b) == Keys(a) + Keys(b)
  {
  }

  /** One step of the filter: the first issue is kept exactly when it is not
      done, in front of the filtered rest. */
  lemma FilterStep(issues: seq<Value>)
    requires |issues| > 0 && FilterIncomplete(issues).Ok?
    ensures FilterIncomplete(issues[1..]).Ok?
    ensures FilterIncomplete(issues).value ==
      (if IsDone(issues[0]) then [] else [issues[0]]) + FilterIncomplete(issues[1..]).value
  {
    var tail := issues[1..];
    forall i | 0 <= i < |tail|
      ensures StatusName(tail[i]).Ok?
    {
      assert tail[i] == issues[i + 1];
    }
  }

  // ---------------------------------------------------------------------
  // The remaining sprint tools

  function GetBoardSprints(cfg: Config, args: Value, oracle: Oracle): Run<Call, Value> {
    Boards.GetOne(cfg, args, BoardSprintsEndpoint(args), oracle)
  }

  function GetSprint(cfg: Config, args: Value, oracle: Oracle): Run<Call, Value> {
    Boards.GetOne(cfg, args, SprintPath(Get(args, "sprintId")), oracle)
  }

  function GetSprintIssues(cfg: Config, args: Value, oracle: Oracle): Run<Call, Value> {
    Boards.GetOne(cfg, args, Boards.PagedEndpoint(cfg, SprintPath(Get(args, "sprintId")) + "/issue", args), oracle)
  }

  /** A tool that destructures its arguments and makes one POST. */
  function PostOne(cfg: Config, args: Value, endpoint: string, data: map<string, Value>, oracle: Oracle): Run<Call, Value> {
    match Destructure(args)
    case Err(f) => Fail(f)
    case Ok(_) => Send(AgileCall(cfg, POST, endpoint, Obj(data)), oracle)
  }

  function CreateSprint(cfg: Config, args: Value, oracle: Oracle): Run<Call, Value> {
    PostOne(cfg, args, "/sprint", CreateSprintData(args), oracle)
  }

  function UpdateSprint(cfg: Config, args: Value, oracle: Oracle): Run<Call, Value> {
    PostOne(cfg, args, SprintPath(Get(args, "sprintId")), UpdateSprintData(args), oracle)
  }

  function StartSprint(cfg: Config, args: Value, oracle: Oracle): Run<Call, Value> {
    PostOne(cfg, args, SprintPath(Get(args, "sprintId")), StartSprintData(args), oracle)
  }

  /** `{ success: true, <countKey>: issues.length }`, read after the request. */
  function BatchReport(countKey: string, issues: Value): Result<Value> {
    var _ :- Member(issues, "length");
    Ok(Obj(map["success" := Bool(true), countKey := LengthOf(issues)]))
  }

  /** Posts `{ issues }` and reports how many keys were given. */
  function Batch(cfg: Config, args: Value, endpoint: string, countKey: string, oracle: Oracle): Run<Call, Value> {
    match Destructure(args)
    case Err(f) => Fail(f)
    case Ok(_) =>
      var issues := Get(args, "issues");
      var c := AgileCall(cfg, POST, endpoint, Obj(map["issues" := issues]));
      match oracle(c)
      case Failure(f) => Run([c], Err(f))
      case Answer(_) => Run([c], BatchReport(countKey, issues))
  }

  function AddIssuesToSprint(cfg: Config, args: Value, oracle: Oracle): Run<Call, Value> {
    Batch(cfg, args, SprintPath(Get(args, "sprintId")) + "/issue", "issuesAdded", oracle)
  }

  function MoveIssuesToBacklog(cfg: Config, args: Value, oracle: Oracle): Run<Call, Value> {
    Batch(cfg, args, "/backlog/issue", "issuesMoved", oracle)
  }

  /** Removing from a sprint is moving to the backlog. */
  function RemoveIssuesFromSprint(cfg: Config, args: Value, oracle: Oracle): Run<Call, Value> {
    MoveIssuesToBacklog(cfg, args, oracle)
  }

  /** The batch tools send the key list unchanged in one POST and, once it is
      answered, report a count equal to the number of keys given. */
  lemma BatchCounts(cfg: Config, args: Value, keys: seq<string>, oracle: Oracle)
    requires args.Obj? && Get(args, "issues") == Arr(StrValues(keys))
    ensures var add := AddIssuesToSprint(cfg, args, oracle);
      && add.trace == [ToSprintCall(cfg, Get(args, "sprintId"), Arr(StrValues(keys)))]
      && (oracle(add.trace[0]).Answer? ==>
            add.outcome == Ok(Obj(map["success" := Bool(true), "issuesAdded" := Num(|keys|)])))
    ensures var move := MoveIssuesToBacklog(cfg, args, oracle);
      && move.trace == [ToBacklogCall(cfg, Arr(StrValues(keys)))]
      && (oracle(move.trace[0]).Answer? ==>
            move.outcome == Ok(Obj(map["success" := Bool(true), "issuesMoved" := Num(|keys|)])))
  {
  }

  /** `removeIssuesFromSprint` ignores `sprintId`: two argument objects that
      differ only there give the same run. */
  lemma RemoveIgnoresSprint(cfg: Config, fields: map<string, Value>, s1: Value, s2: Value, oracle: Oracle)
    ensures RemoveIssuesFromSprint(cfg, Obj(fields["sprintId" := s1]), oracle)
         == RemoveIssuesFromSprint(cfg, Obj(fields["sprintId" := s2]), oracle)
  {
  }
}
