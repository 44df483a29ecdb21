/** Looking a tool up by name in a list of tools, as both servers do. */
module Registry {
  import opened Js

  /** The first of `tools` whose name is `name`. */
  function FirstNamed<T>(name: string, tools: seq<T>, nameOf: T -> string): (r: Option<T>)
    ensures r.Some? ==> r.value in tools && nameOf(r.value) == name
    ensures r.None? <==> forall i :: 0 <= i < |tools| ==> nameOf(tools[i]) != name
  {
    if |tools| == 0 then None
    else if nameOf(tools[0]) == name then Some(tools[0])
    else
      assert forall i :: 1 <= i < |tools| ==> tools[i] == tools[1..][i - 1];
      FirstNamed(name, tools[1..], nameOf)
  }

  /** The names of `tools`, in order. */
  function Names<T>(tools: seq<T>, nameOf: T -> string): (names: seq<string>)
    ensures |names| == |tools|
    ensures forall i :: 0 <= i < |tools| ==> names[i] == nameOf(tools[i])
  {
    seq(|tools|, i requires 0 <= i < |tools| => nameOf(tools[i]))
  }
}
