/** The tracker's remote interface as the server uses it: each remote call is
    a `Call` record, and Agile calls address a URL below the Agile prefix. */
module JiraApi {
  import opened Js
  import opened Remote

  /** Connection settings the handlers read. `encode` is `encodeURIComponent`,
      left uninterpreted. The Basic credential header is not modelled. */
  datatype Config = Config(host: string, availableProjects: seq<string>, encode: string -> string)

  datatype Method = GET | POST

  datatype Call =
    | Agile(verb: Method, url: string, data: Value)
    | SearchJql(jql: Value, maxResults: Value)
    | GetIssue(issueIdOrKey: Value)
    | CreateIssue(fields: Value)
    | EditIssue(issueIdOrKey: Value, fields: Value)
    | GetTransitions(issueIdOrKey: Value)
    | DoTransition(issueIdOrKey: Value, transitionId: Value)
    | AddComment(issueIdOrKey: Value, comment: Value)
    | SearchProjects
    | GetCurrentUser

  type Oracle = Call -> Reply

  const AgilePrefix := "/rest/agile/1.0"

  function AgileBase(host: string): string {
    "https://" + host + AgilePrefix
  }

  /** The endpoint a full Agile URL addresses on `host`, if it is one. */
  function EndpointOf(host: string, url: string): Option<string> {
    var base := AgileBase(host);
    if |base| <= |url| && url[..|base|] == base then Some(url[|base|..]) else None
  }

  /** `https://${host}/rest/agile/1.0${endpoint}` */
  function AgileUrl(host: string, endpoint: string): (url: string)
    ensures EndpointOf(host, url) == Some(endpoint)
  {
    var url := "https://" + host + AgilePrefix + endpoint;
    assert url[..|AgileBase(host)|] == AgileBase(host);
    assert url[|AgileBase(host)|..] == endpoint;
    url
  }

  function AgileCall(cfg: Config, verb: Method, endpoint: string, data: Value): Call {
    Agile(verb, AgileUrl(cfg.host, endpoint), data)
  }
}
