/** The tracker's rich-text document format: every rich-text field the server
    writes (issue descriptions and comments) is one document, version 1,
    holding one paragraph holding one text run. */
module Adf {
  import opened Js

  /** The text of a one-paragraph, one-run document; None for any other shape. */
  function DocText(doc: Value): Option<Value> {
    if Get(doc, "type") != Str("doc") || Get(doc, "version") != Num(1) then None
    else match Get(doc, "content")
      case Arr(paragraphs) =>
        if |paragraphs| != 1 || Get(paragraphs[0], "type") != Str("paragraph") then None
        else (match Get(paragraphs[0], "content")
          case Arr(runs) =>
            if |runs| != 1 || Get(runs[0], "type") != Str("text") then None
            else Some(Get(runs[0], "text"))
          case _ => None)
      case _ => None
  }

  /** `{ type: 'doc', version: 1, content: [{ type: 'paragraph', content: [{ type: 'text', text }] }] }` */
  function Doc(text: Value): (doc: Value)
    ensures DocText(doc) == Some(text)
    ensures Get(doc, "type") == Str("doc") && Get(doc, "version") == Num(1)
  {
    var run := Obj(map["type" := Str("text"), "text" := text]);
    var paragraph := Obj(map["type" := Str("paragraph"), "content" := Arr([run])]);
    Obj(map["type" := Str("doc"), "version" := Num(1), "content" := Arr([paragraph])])
  }
}
