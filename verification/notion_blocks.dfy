/** Block tools. Most relay one block request; `append_rich_content` builds a
    single block of one of ten types around a text, with per-type defaults,
    and appends it. */
module NotionBlocks {
  import opened Js
  import opened Remote
  import opened Envelopes
  import opened NotionApi

  /** The block types `append_rich_content` builds. */
  const ContentTypes: seq<string> := [
    "paragraph", "heading_1", "heading_2", "heading_3", "bulleted_list_item",
    "numbered_list_item", "to_do", "code", "quote", "callout"]

  /** The callout icon when none is given: the light-bulb emoji. */
  const DefaultIcon: Value := Obj(map["type" := Str("emoji"), "emoji" := Str("\U{1F4A1}")])

  /** The body of a block of type `tag`: the text, plus the type's own
      setting where it has one. */
  function BlockBody(tag: string, richText: Value, options: Value): Option<Value> {
    if tag == "to_do" then
      Some(Obj(map["rich_text" := richText, "checked" := Or(Get(options, "checked"), Bool(false))]))
    else if tag == "code" then
      Some(Obj(map["rich_text" := richText, "language" := Or(Get(options, "language"), Str("plain text"))]))
    else if tag == "callout" then
      Some(Obj(map["rich_text" := richText, "icon" := Or(Get(options, "icon"), DefaultIcon)]))
    else if tag == "paragraph" || tag == "heading_1" || tag == "heading_2" || tag == "heading_3"
         || tag == "bulleted_list_item" || tag == "numbered_list_item" || tag == "quote" then
      Some(Obj(map["rich_text" := richText]))
    else None
  }

  lemma BodySupported(tag: Value, richText: Value, options: Value)
    ensures tag.Str? ==> (BlockBody(tag.s, richText, options).Some? <==> tag.s in ContentTypes)
    ensures tag.Str? && BlockBody(tag.s, richText, options).Some? ==>
      Get(BlockBody(tag.s, richText, options).value, "rich_text") == richText
  {
  }

  /** The `switch (content_type)`: `{ type, [type]: body }`, or an error for
      any other type. */
  function RichBlock(contentType: Value, richText: Value, options: Value): (r: Result<Value>)
    ensures r.Ok? <==> contentType.Str? && contentType.s in ContentTypes
    ensures r.Ok? ==> r.value.Obj? && r.value.fields.Keys == {"type", contentType.s}
    ensures r.Ok? ==> Get(r.value, "type") == contentType
    ensures r.Ok? ==> Get(Get(r.value, contentType.s), "rich_text") == richText
    ensures r.Err? ==> r.fault == Raise("Unsupported content type: " + Show(contentType))
  {
    BodySupported(contentType, richText, options);
    match (if contentType.Str? then BlockBody(contentType.s, richText, options) else None)
    case Some(body) => Ok(Obj(map["type" := contentType, contentType.s := body]))
    case None => Err(Raise("Unsupported content type: " + Show(contentType)))
  }

  /** The text a block carries, read back through its type tag. */
  function BlockText(block: Value): Option<Value> {
    var tag := Get(block, "type");
    if !tag.Str? then None
    else
      match TextRuns(Get(Get(block, tag.s), "rich_text"))
      case Some(runs) => if |runs| == 1 then Some(runs[0]) else None
      case None => None
  }

  /** The three types with a setting take it from the options when it is
      truthy, and fall back to unchecked, plain text and the light bulb. */
  lemma BlockDefaults(richText: Value, options: Value)
    ensures Get(Get(RichBlock(Str("to_do"), richText, options).value, "to_do"), "checked")
         == Or(Get(options, "checked"), Bool(false))
    ensures Get(Get(RichBlock(Str("code"), richText, options).value, "code"), "language")
         == Or(Get(options, "language"), Str("plain text"))
    ensures Get(Get(RichBlock(Str("callout"), richText, options).value, "callout"), "icon")
         == Or(Get(options, "icon"), DefaultIcon)
  {
  }

  /** `append_rich_content`. */
  function AppendRichContent(args: Value, oracle: Oracle): Run<Request, Envelope> {
    var richText := BuildRichText(Get(args, "text"));
    match RichBlock(Get(args, "content_type"), richText, Get(args, "options"))
    case Err(f) => Fail(f)
    case Ok(block) => JsonReply(AppendBlocksRequest(Get(args, "block_id"), Arr([block])), oracle)
  }

  /** An unsupported type fails before any request. A supported one appends
      exactly one block under `block_id`: a block of that type whose text
      reads back as the given text. */
  lemma AppendRichContentRun(args: Value, oracle: Oracle)
    ensures var ct := Get(args, "content_type");
      var run := AppendRichContent(args, oracle);
      && (!(ct.Str? && ct.s in ContentTypes) ==>
            run == Run([], Err(Raise("Unsupported content type: " + Show(ct)))))
      && (ct.Str? && ct.s in ContentTypes ==>
            && |run.trace| == 1
            && run.trace[0].endpoint == BlockChildrenAppend
            && Get(run.trace[0].params, "block_id") == Get(args, "block_id")
            && Get(run.trace[0].params, "children").Arr?
            && |Get(run.trace[0].params, "children").items| == 1
            && Get(Get(run.trace[0].params, "children").items[0], "type") == ct
            && BlockText(Get(run.trace[0].params, "children").items[0]) == Some(Get(args, "text")))
  {
    var ct := Get(args, "content_type");
    var richText := BuildRichText(Get(args, "text"));
    var r := RichBlock(ct, richText, Get(args, "options"));
    if r.Ok? {
      assert TextRuns(Get(Get(r.value, ct.s), "rich_text")) == Some([Get(args, "text")]);
    }
  }

  function GetBlock(args: Value, oracle: Oracle): Run<Request, Envelope> {
    JsonReply(GetBlockRequest(Get(args, "block_id")), oracle)
  }

  function GetBlockChildren(args: Value, oracle: Oracle): Run<Request, Envelope> {
    JsonReply(BlockChildrenRequest(Get(args, "block_id"), Get(args, "start_cursor"), Get(args, "page_size")), oracle)
  }

  function AppendBlocks(args: Value, oracle: Oracle): Run<Request, Envelope> {
    JsonReply(AppendBlocksRequest(Get(args, "block_id"), Get(args, "children")), oracle)
  }

  function UpdateBlock(args: Value, oracle: Oracle): Run<Request, Envelope> {
    JsonReply(UpdateBlockRequest(Get(args, "block_id"), Get(args, "content")), oracle)
  }

  function DeleteBlock(args: Value, oracle: Oracle): Run<Request, Envelope> {
    JsonReply(DeleteBlockRequest(Get(args, "block_id")), oracle)
  }
}
