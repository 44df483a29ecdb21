# Tracker and workspace tool servers, modelled in Dafny

This project models the request handling of two Model Context Protocol
servers:

- **The tracker server** (`jira-mcp-server`) has issue, board and sprint
  tools over the Jira REST and Agile APIs.
- **The workspace server** (`notion-mcp-enhanced`) has search, page,
  database, block, comment and user tools over the Notion API.

Each tool handler is a pure function from its arguments and a response
oracle to a `Run`. A `Run` holds the ordered list of remote requests the
handler makes and its outcome: a value, or the JavaScript error it throws.
The contracts state which requests go out, in which order, with which
contents, and what the tool answers.

Modules:

- `Js`: JavaScript values and the operators the handlers use:
  - truthiness and `||`;
  - destructuring defaults;
  - property reads that throw on `null`/`undefined`;
  - object spread;
  - template-literal conversion and `join`.
- `Remote`: a request appended to the trace, with the oracle's answer or
  failure.
- `Envelopes`: the `{ content: [{ type: 'text', text }], isError }` reply.
  `JSON.stringify` is kept symbolic.
- `Registry`: looking a tool up by name in a tool list.
- The tracker side:
  - `QueryStrings` and `Adf` (the one-paragraph rich-text document);
  - `JiraApi`, `Boards`, `Sprints` and `IssuesEnhanced`;
  - `JiraServer` (tool list, dispatch, transitions, issue edits, error
    reply).
- The workspace side:
  - `NotionIds` (ID extraction and formatting);
  - `NotionApi` (client methods, rich text, typed property values);
  - `NotionBlocks`, `NotionDatabases` and `NotionPages`;
  - `NotionServer` (registry, search/comment/user tools, dispatch, error
    reply).

## Model

| member | source | states |
|---|---|---|
| Js.PutIf | jira-mcp-server/src/tools/issues-enhanced.ts:125-144 | `if (cond) o.k = v` adds the key exactly when the condition holds, with that value, and leaves every other key as it was |
| Remote.Send | jira-mcp-server/src/tools/boards.ts:23-43 | one remote request is recorded; its answer is the result, and its failure is the thrown error |
| Envelopes.AsJson | jira-mcp-server/src/index.ts:231-234 | a data tool's reply serialises exactly the tool's result, is not flagged as an error, and a thrown error passes through unchanged |
| Envelopes.AsText | jira-mcp-server/src/index.ts:343-346 | a confirming tool's reply is its sentence as one text block; errors pass through |
| Envelopes.JsonReply | notion-mcp-enhanced/src/tools/blocks.ts:19-28 | a pass-through tool makes exactly one request and answers with that response serialised, or fails with the request's failure |
| Adf.Doc | jira-mcp-server/src/index.ts:334-340 | the document written for a description or comment is version 1 and reads back as exactly the given text (doc, one paragraph, one text run) |
| JiraApi.AgileUrl | jira-mcp-server/src/tools/boards.ts:29 | the full URL addresses exactly the given endpoint below `https://<host>/rest/agile/1.0` |
| QueryStrings.RenderAppend | jira-mcp-server/src/tools/boards.ts:56-62 | appending `&name=value` to a rendered endpoint renders the parameter list extended by that one parameter |
| QueryStrings.RenderWhen | jira-mcp-server/src/tools/boards.ts:57-62 | a parameter guarded by `if (x)` is in the query string exactly when its argument is truthy |
| Boards.BoardsQuery | jira-mcp-server/src/tools/boards.ts:54-62 | the board listing's query is `maxResults` (50 by default), then `projectKeyOrId`, then `type`, the last two only when given |
| Boards.PagedQuery | jira-mcp-server/src/tools/boards.ts:102-107 | the paged listings' query is `maxResults` (default 50), `startAt` (default 0), then the encoded `jql` only when given |
| Boards.BoardRequests | jira-mcp-server/src/tools/boards.ts:72-131 | each board reader makes one GET to `/board/<id>`, `/board/<id>/configuration`, or the paged issue or backlog listing of that board, and answers with the body verbatim |
| Sprints.BoardSprintsQuery | jira-mcp-server/src/tools/sprints.ts:53-58 | the board's sprint listing asks for 50 by default and adds `state` only when given |
| Sprints.Optionals | jira-mcp-server/src/tools/sprints.ts:116-121 | a run of `if (x) data.x = x` adds exactly the truthy named arguments with their values and keeps the fixed fields |
| Sprints.CreateSprintBody | jira-mcp-server/src/tools/sprints.ts:87-96 | a new sprint always carries its name and board; the dates and goal are sent only when truthy |
| Sprints.UpdateSprintBody | jira-mcp-server/src/tools/sprints.ts:114-121 | an update sends exactly the truthy fields among name, goal, the dates and state, each with the value given |
| Sprints.StartSprintBody | jira-mcp-server/src/tools/sprints.ts:136-143 | starting always asks for the active state and otherwise sends only the truthy dates |
| Sprints.FilterIncomplete | jira-mcp-server/src/tools/sprints.ts:162-164 | the filter succeeds exactly when every issue has a status name to read, and keeps exactly the issues whose status name is not the string "Done" |
| Sprints.MigratedKeys | jira-mcp-server/src/tools/sprints.ts:162-175 | the migrated key list equals `IncompleteKeys`, the keys of the non-Done issues read off the listing one by one in order; the kept issues are exactly the non-Done ones |
| Sprints.CloseSprint | jira-mcp-server/src/tools/sprints.ts:153-171 | closing lists the sprint's issues first and only then posts the close; missing arguments fail before any request |
| Sprints.CloseSprintRun | jira-mcp-server/src/tools/sprints.ts:153-195 | the requests are listing, close, then the migration if any; the answer keeps the close response's own fields and adds the count of incomplete issues (0 without an `issues` field) and the destination, its keys being exactly the response's plus those two; `moveToBacklog` is true by default |
| Sprints.MigrationPolicy | jira-mcp-server/src/tools/sprints.ts:174-188 | with incomplete issues, a truthy target sprint receives them, else the backlog when `moveToBacklog` is truthy, else nothing is sent; without incomplete issues nothing is sent |
| Sprints.MovedToAgrees | jira-mcp-server/src/tools/sprints.ts:177-193 | the reported destination names the endpoint the migration was actually posted to, and 'none' exactly when nothing was posted |
| Sprints.BatchCounts | jira-mcp-server/src/tools/sprints.ts:222-245 | the batch tools post the key list unchanged in one request and report a count equal to the number of keys |
| Sprints.RemoveIgnoresSprint | jira-mcp-server/src/tools/sprints.ts:251-257 | removing from a sprint does not depend on the sprint id: it is the move to the backlog |
| IssuesEnhanced.ComponentRefs | jira-mcp-server/src/tools/issues-enhanced.ts:137-139 | components become `{name}` objects one for one, in order; a non-array throws |
| IssuesEnhanced.WithComponents | jira-mcp-server/src/tools/issues-enhanced.ts:137-139 | the components field is added exactly when the list is non-empty, and then holds the components mapped in order to `{name}` objects; no other field changes |
| IssuesEnhanced.IssueFieldsFail | jira-mcp-server/src/tools/issues-enhanced.ts:104-144 | building the fields fails only on a non-empty `components` that is not an array |
| IssuesEnhanced.IssueFieldsRequired | jira-mcp-server/src/tools/issues-enhanced.ts:82-123 | project, summary, the description document (empty text by default) and the issue type (`Task` by default) are always sent |
| IssuesEnhanced.IssueFieldsOptional | jira-mcp-server/src/tools/issues-enhanced.ts:125-144 | priority, assignee and the epic link are sent exactly when truthy, and labels and components exactly when non-empty; priority as `{name}`, assignee as `{emailAddress}`, components as in-order `{name}` objects, labels and the epic key as given |
| IssuesEnhanced.CreateIssueEnhanced | jira-mcp-server/src/tools/issues-enhanced.ts:96-147 | a project outside the allow-list fails with a message naming it and the allowed keys, before any request; otherwise the first request creates the issue with the built fields |
| IssuesEnhanced.PlacementPolicy | jira-mcp-server/src/tools/issues-enhanced.ts:151-174 | a truthy sprint id wins with one direct add and no board lookup; else a board's first active sprint receives the issue and is reported with its id, its name and 'auto-active', or 'no-active-sprint' is reported; else `sprint` is null |
| IssuesEnhanced.ActiveSprintIsFirst | jira-mcp-server/src/tools/issues-enhanced.ts:46-54 | the active sprint is the first listed one, and null when none is listed |
| IssuesEnhanced.CreatedAnswer | jira-mcp-server/src/tools/issues-enhanced.ts:146-179 | the answer is an object whose keys are exactly the create response's own keys plus `sprint`, which holds the placement report; every other value is the response's |
| JiraServer.DeployedAllowList | jira-mcp-server/src/index.ts:38-44 | with the deployed configuration, a project outside AD, AN, PROD, TEST, TRIAL fails before any request with "Invalid project \"<p>\". Available projects: AD, AN, PROD, TEST, TRIAL"; a listed project reaches the creation request |
| JiraServer.NamesDistinct | jira-mcp-server/src/index.ts:85-218 | no two tools share a name |
| JiraServer.AdvertisedDistinct | jira-mcp-server/src/index.ts:85-218 | the advertised list holds 24 tools under 24 different names |
| JiraServer.RouteInvertsNames | jira-mcp-server/src/index.ts:231-411 | every tool is advertised and its name dispatches to its own handler |
| JiraServer.RoutedIsAdvertised | jira-mcp-server/src/index.ts:221-414 | a name reaches a handler exactly when it is advertised, so no advertised name reaches the default case |
| JiraServer.FindTransition | jira-mcp-server/src/index.ts:356-358 | the transition found is the first whose name equals the requested one ignoring case; none found means none matches |
| JiraServer.FindIgnoresCase | jira-mcp-server/src/index.ts:356-358 | requested names that differ only in case find the same transition |
| JiraServer.Transition | jira-mcp-server/src/index.ts:349-374 | the transitions are read first; any later request is the transition itself |
| JiraServer.TransitionChoice | jira-mcp-server/src/index.ts:355-369 | a transition is applied exactly when one matches, and it is the first match's id; otherwise the error lists every available name joined by ", " |
| JiraServer.UpdateFields | jira-mcp-server/src/index.ts:332-341 | an edit carries exactly the truthy fields among summary, description and assignee, with the description as a document and the assignee as `{emailAddress}` |
| JiraServer.Acknowledge | jira-mcp-server/src/index.ts:343-346 | a confirming tool makes its one request and answers with its sentence exactly when that request is answered |
| JiraServer.IssueEdits | jira-mcp-server/src/index.ts:296-389 | updates send only the truthy fields, a comment is sent as a one-paragraph document, and a search asks for 50 results unless told otherwise |
| JiraServer.Handle | jira-mcp-server/src/index.ts:231-411 | a handler's success reply is never flagged as an error |
| JiraServer.MissingArguments | jira-mcp-server/src/index.ts:227-411 | without arguments every tool except the project list and the current user fails before any request |
| JiraServer.ErrorText | jira-mcp-server/src/index.ts:425-433 | the error reply is one flagged text block: the message, the status (`unknown` when neither status field is set), then the serialised details |
| Envelopes.Recover | jira-mcp-server/src/index.ts:229-434 | no error escapes a request: a thrown error becomes the server's error reply, a success is kept, and the calls made are unchanged (the workspace server's `try … catch` at notion-mcp-enhanced/src/index.ts lines 90-102 has the same shape) |
| JiraServer.ServedReplies | jira-mcp-server/src/index.ts:226-435 | an unknown name gets the 'Unknown tool' error reply without any request; a known tool's reply is its handler's, or the error reply built from what it threw |
| NotionIds.StripDashes | notion-mcp-enhanced/src/notion-client.ts:176 | removing the dashes leaves no dash and never lengthens the text |
| NotionIds.StripJoin | notion-mcp-enhanced/src/notion-client.ts:183-184 | joining dash-free pieces with dashes and removing the dashes gives the pieces one after the other |
| NotionIds.ExtractFrom | notion-mcp-enhanced/src/notion-client.ts:174-175 | the search finds nothing exactly when nothing matches at or after the start, and otherwise returns the leftmost match |
| NotionIds.ExtractId | notion-mcp-enhanced/src/notion-client.ts:173-177 | no ID is found exactly when the URL holds neither 32 hex digits nor an 8-4-4-4-12 hyphenated group, in either letter case; what is found is 32 hex digits from the leftmost match |
| NotionIds.MatchIsId | notion-mcp-enhanced/src/notion-client.ts:174-176 | either alternative of the pattern, once its dashes are removed, is 32 hex digits with the URL's letter case |
| NotionIds.Slice | notion-mcp-enhanced/src/notion-client.ts:184 | `slice` clamps both ends to the text |
| NotionIds.FormatId | notion-mcp-enhanced/src/notion-client.ts:182-185 | formatting adds four dashes and keeps the digits: removing the dashes again gives the input's digits |
| NotionIds.FormatShape | notion-mcp-enhanced/src/notion-client.ts:182-185 | an ID is formatted as its 8-4-4-4-12 groups joined by dashes, which is a hyphenated ID |
| NotionIds.DashedStrip | notion-mcp-enhanced/src/notion-client.ts:174-185 | removing the dashes of a hyphenated ID gives an ID, and formatting that gives back the hyphenated text |
| NotionIds.FormatIdempotent | notion-mcp-enhanced/src/notion-client.ts:182-185 | formatting is idempotent, and it leaves a hyphenated ID unchanged |
| NotionIds.EmbeddedId | notion-mcp-enhanced/src/notion-client.ts:173-177 | the same ID embedded bare or hyphenated is extracted identically after any text with no ID that ends in a separator (`…/<id>`) or in a title slug's dash (`…/Page-Title-<id>`) |
| NotionIds.SlugUrl | notion-mcp-enhanced/src/notion-client.ts:173-177 | `https://www.notion.so/Page-Title-<id>` gives back the ID, bare or hyphenated |
| NotionIds.ExtractFormatted | notion-mcp-enhanced/src/notion-client.ts:173-185 | an ID and its formatted form both extract to the ID itself |
| NotionApi.PageSizes | notion-mcp-enhanced/src/notion-client.ts:21-157 | search, block children, users and database queries send the page size given, and 100 only when it is undefined |
| NotionApi.QueryForwards | notion-mcp-enhanced/src/notion-client.ts:80-90 | the query carries the database id, filter, sorts and cursor unchanged |
| NotionApi.DeleteArchives | notion-mcp-enhanced/src/notion-client.ts:49-54 | deleting a page is an update of that page that sets `archived` and nothing else |
| NotionApi.ListDatabasesFilterNested | notion-mcp-enhanced/src/notion-client.ts:65-71 | the search filter sent by `listDatabases` as written does not select databases; only its nested field would |
| NotionApi.ListDatabasesRequest | notion-mcp-enhanced/src/notion-client.ts:65-71 | listing databases is an empty-query search whose filter selects databases, 100 per page |
| NotionApi.ExtractIdFromUrl | notion-mcp-enhanced/src/notion-client.ts:173-177 | extraction throws exactly on a non-string URL, and a found ID is 32 hex digits |
| NotionApi.BuildRichText | notion-mcp-enhanced/src/notion-client.ts:190-192 | rich text is exactly one text run whose content is the input, unchanged |
| NotionApi.ListOf | notion-mcp-enhanced/src/notion-client.ts:207-212 | an array maps element-wise, in order, to one-key objects; a scalar becomes a one-element list |
| NotionApi.PayloadSupported | notion-mcp-enhanced/src/notion-client.ts:197-226 | a property payload exists exactly for the twelve handled types |
| NotionApi.BuildProperty | notion-mcp-enhanced/src/notion-client.ts:197-226 | a property value is built exactly for the twelve handled type tags, as an object whose only key is the tag; any other tag throws 'Unsupported property type' |
| NotionApi.ListRoundTrip | notion-mcp-enhanced/src/notion-client.ts:207-212 | reading the field back from a mapped list gives the array's elements, or the one scalar |
| NotionApi.PropertyRoundTrip | notion-mcp-enhanced/src/notion-client.ts:197-222 | reading a built property back through its tag gives the original value |
| NotionApi.DatePassesThrough | notion-mcp-enhanced/src/notion-client.ts:209-210 | a date string is wrapped as `{start}` and any other date value passes through unchanged |
| NotionBlocks.BodySupported | notion-mcp-enhanced/src/tools/blocks.ts:128-176 | a block body exists exactly for the ten supported content types, and it always carries the given rich text |
| NotionBlocks.RichBlock | notion-mcp-enhanced/src/tools/blocks.ts:128-176 | a supported type gives a block whose type tag is the content type and whose body carries the rich text; any other type throws 'Unsupported content type' |
| NotionBlocks.BlockDefaults | notion-mcp-enhanced/src/tools/blocks.ts:147-172 | to-do, code and callout take their setting from the options when truthy, else unchecked, 'plain text' and the light-bulb emoji |
| NotionBlocks.AppendRichContentRun | notion-mcp-enhanced/src/tools/blocks.ts:119-182 | an unsupported type fails before any request; a supported one appends exactly one block of that type under `block_id`, whose text reads back as given |
| NotionDatabases.RowTitle | notion-mcp-enhanced/src/tools/databases.ts:142-146 | a row's title can be read exactly when the row and its properties are present |
| NotionDatabases.TitleFallback | notion-mcp-enhanced/src/tools/databases.ts:143-146 | the title is the `Name` text when truthy, else the `Title` text when truthy, else 'Untitled'; empty texts fall through |
| NotionDatabases.NameWins | notion-mcp-enhanced/src/tools/databases.ts:143-146 | a populated `Name` title wins whatever `Title` holds |
| NotionDatabases.Row | notion-mcp-enhanced/src/tools/databases.ts:142-155 | a summary carries the row's title and copies id, url, properties and both timestamps unchanged |
| NotionDatabases.Rows | notion-mcp-enhanced/src/tools/databases.ts:142-156 | reshaping succeeds exactly when every row does, and keeps the rows' number and order |
| NotionDatabases.QueryDatabase | notion-mcp-enhanced/src/tools/databases.ts:126-175 | the tool sends one query; its failure is the tool's; otherwise it succeeds exactly when the rows can be reshaped, and answers with the reshaped listing |
| NotionDatabases.QuerySends | notion-mcp-enhanced/src/tools/databases.ts:133-139 | the query forwards the database, filter and sorts verbatim and asks for 100 rows unless told otherwise |
| NotionDatabases.ReshapeRows | notion-mcp-enhanced/src/tools/databases.ts:141-171 | the answer has one summary per row in order, `total_results` equal to their count, and `has_more` and `next_cursor` passed through |
| NotionDatabases.CreateDatabasePayload | notion-mcp-enhanced/src/tools/databases.ts:208-213 | a new database is placed under the given page, titled with the given text as rich text, with the given properties and icon |
| NotionDatabases.UpdateData | notion-mcp-enhanced/src/tools/databases.ts:256-266 | the changes hold exactly the truthy ones among title, properties and icon, with the title as rich text |
| NotionDatabases.UpdateDatabaseSends | notion-mcp-enhanced/src/tools/databases.ts:256-268 | the update names the database and carries exactly the truthy changes |
| NotionPages.GetPageContent | notion-mcp-enhanced/src/tools/pages.ts:19-31 | the page is read first and its blocks only after it is answered; the answer pairs the two responses |
| NotionPages.CreatePageSends | notion-mcp-enhanced/src/tools/pages.ts:73-97 | the parent is the page when `parent_page_id` is truthy, else the database even when no id is given; given properties are sent as they are, and otherwise a title property reads back as the title |
| NotionPages.CreatePageChildren | notion-mcp-enhanced/src/tools/pages.ts:81-95 | truthy content becomes exactly one paragraph whose text is the content; otherwise no children are sent |
| NotionPages.FetchOrder | notion-mcp-enhanced/src/tools/pages.ts:224-254 | no ID in the URL fails with 'Invalid Notion URL' before any request; the page and its blocks are tried first, tagged 'page'; any failure there falls back to one database lookup tagged 'database', whose failure is the tool's |
| NotionServer.SearchForwards | notion-mcp-enhanced/src/tools/search.ts:42-48 | a search forwards query, filter, sort and cursor, with 100 results unless told otherwise |
| NotionServer.CommentPosted | notion-mcp-enhanced/src/tools/comments.ts:23-25 | a comment is posted on the given page with the text as its one rich-text run |
| NotionServer.NamesDistinct | notion-mcp-enhanced/src/index.ts:61-68 | no two tools share a name |
| NotionServer.RegistryDistinct | notion-mcp-enhanced/src/index.ts:61-68 | merging the six groups loses no tool: the registry lists 23 tools under 23 different names |
| NotionServer.RouteInvertsNames | notion-mcp-enhanced/src/index.ts:84 | every tool is registered and found under its own name |
| NotionServer.RoutedIsListed | notion-mcp-enhanced/src/index.ts:71-88 | a name is found exactly when `list_tools` lists it |
| NotionServer.Handle | notion-mcp-enhanced/src/index.ts:91 | a handler's success reply is never flagged as an error |
| NotionServer.ErrorText | notion-mcp-enhanced/src/index.ts:92-101 | the error reply is one flagged text block: 'Error: ', the message, a blank line, and the stack |
| NotionServer.ServedReplies | notion-mcp-enhanced/src/index.ts:82-103 | a request fails exactly when the name is not listed, and then with 'Unknown tool' before any request and unwrapped; a listed tool's reply is its handler's, or the error reply built from what it threw |
| NotionServer.FalsyArguments | notion-mcp-enhanced/src/index.ts:91 | missing or falsy arguments are handled as `{}` |
| NotionServer.InheritedNameAnswered | notion-mcp-enhanced/src/index.ts:84-91 | with the lookup as written, `toString` names no tool yet gets an error reply about a missing handler instead of failing as an unknown tool |
| NotionServer.AsWrittenElsewhere | notion-mcp-enhanced/src/index.ts:84-91 | outside the inherited names, the lookup as written and the modelled dispatch agree |

## Left out

- Tool descriptions and input schemas are not modelled. The tool lists are
  modelled by name only.
- Process startup, environment variables, the stdio transport and
  `console.error` logging are not modelled; they are I/O.
- The remote clients (axios, the Jira client library, the Notion SDK) are
  foreign code. Each call is a request record; the oracle supplies its answer
  or failure.
- The Basic credential header and its base64 encoding are not modelled.
- `encodeURIComponent` is a parameter of the configuration.
- `JSON.stringify` stays symbolic: a reply holds the value it serialises.
- Object key order is not kept, because objects are maps.
- Js.NonEmpty: `x && x.length > 0` counts only a numeric `length`. An
  object whose `length` is a string, a boolean or an array (which
  JavaScript's `>` would convert to a number) is treated as empty. So
  `labels` or `components` with such a `length` are left out of the
  created issue's fields, where the program would send them or throw.
- Numbers are integers only, and their text form is decimal.
- `toLowerCase` folds ASCII letters only.
- The messages of errors the JavaScript engine raises itself (reading a
  property of `undefined`, calling a non-function) follow V8's wording but
  are approximate.
- An error's stack is kept as its first line.
- Spreading a string or an array into an object (which copies indices) is
  modelled as spreading nothing.
- Filters, sorts, block children and property schemas are opaque values
  passed through; their grammar has no local meaning.
- `formatId` is modelled and proved, but no tool calls it.
- jira-mcp-server/src/index-old.ts is not part of this model. It is an
  earlier entry point that is not wired in.
- notion-mcp-enhanced/src/types.ts is not part of this model. It holds type
  declarations only.
- async/await: every step is sequential and is modelled as such.
- NotionDatabases.ListDatabases: serves the corrected search filter
  (`ListDatabasesRequest`), not the nested filter that
  notion-mcp-enhanced/src/notion-client.ts:65-71 sends.
  `NotionApi.ListDatabasesAsWritten` keeps the request as written (see
  Findings). So `NotionServer.Handle` and `NotionServer.ServedReplies`
  describe `list_databases` as intended, not as written.
- NotionServer.CallTool: looks tools up among the registry's own names.
  For the twelve names inherited from `Object.prototype` it throws
  'Unknown tool', where the program answers with an error reply.
  `NotionServer.CallToolAsWritten` keeps the lookup as written (see
  Findings). So `NotionServer.ServedReplies` and
  `NotionServer.FalsyArguments` describe the corrected server on those
  twelve names.

## Findings

| source | as written | input that shows it | evidently intended | confidence | as-written member | corrected member |
|---|---|---|---|---|---|---|
| notion-mcp-enhanced/src/notion-client.ts:65-71 | `listDatabases` passes `{ filter: { property: 'object', value: 'database' } }` as the `filter` argument of `search`, which puts it under `filter.filter` | `list_databases` with any arguments: the search filter has no `property`/`value` of its own | the search filter is `{ property: 'object', value: 'database' }` itself, so that only databases are listed | not executed | NotionApi.ListDatabasesFilterNested | NotionApi.ListDatabasesRequest |
| notion-mcp-enhanced/src/index.ts:84-88 | `allTools[toolName]` with a `!tool` test also finds members inherited from `Object.prototype` | tool name `toString`: the `!tool` test passes and calling `tool.handler` throws inside the `try`, giving an error reply | an unregistered name is thrown as 'Unknown tool: <name>' | not executed | NotionServer.InheritedNameAnswered | NotionServer.ServedReplies |

In the model, `NotionDatabases.ListDatabases` uses the corrected request, and
`NotionServer.CallTool` looks tools up among the registry's own names.
`NotionServer.CallToolAsWritten` keeps the lookup as written.
`NotionServer.AsWrittenElsewhere` shows that the two differ only on the
inherited names.
