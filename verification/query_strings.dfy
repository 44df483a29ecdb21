/** Agile endpoints are a path plus a query string. A query string here is an
    ordered list of already rendered `name=value` parameters; the endpoint
    builders append to a string one parameter at a time, and the lemmas about
    them say which parameter list that string renders. */
module QueryStrings {
  import opened Js

  type Param = (string, string)

  function Pairs(params: seq<Param>): seq<string> {
    seq(|params|, i requires 0 <= i < |params| => params[i].0 + "=" + params[i].1)
  }

  /** `path?n1=v1&n2=v2...`, or the bare path when there are no parameters. */
  function Render(path: string, params: seq<Param>): string {
    if |params| == 0 then path else path + "?" + Join(Pairs(params), "&")
  }

  /** `${path}?${name}=${value}`: the first parameter of an endpoint. */
  function Begin(path: string, name: string, value: string): string {
    path + "?" + name + "=" + value
  }

  /** `endpoint += `&${name}=${value}``: one more parameter. */
  function Append(endpoint: string, name: string, value: string): string {
    endpoint + "&" + name + "=" + value
  }

  /** A parameter sent only when its argument is truthy. */
  function When(cond: Value, name: string, rendered: string): seq<Param> {
    if Truthy(cond) then [(name, rendered)] else []
  }

  lemma {:induction false} JoinAppend(parts: seq<string>, sep: string, last: string)
    requires |parts| > 0
    ensures Join(parts + [last], sep) == Join(parts, sep) + sep + last
  {
    if |parts| == 1 {
      assert parts + [last] == [parts[0], last];
      assert Join([last], sep) == last;
    } else {
      assert (parts + [last])[1..] == parts[1..] + [last];
      JoinAppend(parts[1..], sep, last);
    }
  }

  /** Appending `&name=value` to a rendered endpoint appends the parameter. */
  lemma RenderAppend(path: string, params: seq<Param>, name: string, value: string)
    requires |params| > 0
    ensures Render(path, params + [(name, value)]) == Append(Render(path, params), name, value)
  {
    assert Pairs(params + [(name, value)]) == Pairs(params) + [name + "=" + value];
    JoinAppend(Pairs(params), "&", name + "=" + value);
  }

  lemma RenderWhen(path: string, params: seq<Param>, cond: Value, name: string, value: string)
    requires |params| > 0
    ensures Render(path, params + When(cond, name, value))
         == if Truthy(cond) then Append(Render(path, params), name, value) else Render(path, params)
  {
    if Truthy(cond) {
      RenderAppend(path, params, name, value);
    } else {
      assert params + When(cond, name, value) == params;
    }
  }

  lemma RenderOne(path: string, name: string, value: string)
    ensures Render(path, [(name, value)]) == Begin(path, name, value)
  {
    assert Pairs([(name, value)]) == [name + "=" + value];
  }
}
