/** The uniform result shape both servers hand back to the client: a list of
    content blocks and an error flag. `JSON.stringify(v, null, 2)` is kept
    symbolic: a text block is a list of parts, each either literal text or the
    serialisation of a value, and `Render` takes the serialiser as a parameter. */
module Envelopes {
  import opened Js
  import opened Remote

  datatype Part = Lit(text: string) | Json(value: Value)

  datatype Block = TextBlock(parts: seq<Part>)

  datatype Envelope = Envelope(content: seq<Block>, isError: bool)

  function RenderParts(parts: seq<Part>, stringify: Value -> string): string {
    if |parts| == 0 then ""
    else
      (match parts[0]
       case Lit(t) => t
       case Json(v) => stringify(v)) + RenderParts(parts[1..], stringify)
  }

  /** The `text` of a block, given the serialiser. */
  function Render(b: Block, stringify: Value -> string): string {
    RenderParts(b.parts, stringify)
  }

  /** `{ content: [{ type: 'text', text: JSON.stringify(v, null, 2) }] }` */
  function JsonEnvelope(v: Value): Envelope {
    Envelope([TextBlock([Json(v)])], false)
  }

  /** `{ content: [{ type: 'text', text: s }] }` */
  function TextEnvelope(s: string): Envelope {
    Envelope([TextBlock([Lit(s)])], false)
  }

  /** The value a success envelope serialises, when it is of the JSON kind. */
  function Payload(e: Envelope): Option<Value> {
    if |e.content| == 1 && |e.content[0].parts| == 1 && e.content[0].parts[0].Json?
    then Some(e.content[0].parts[0].value)
    else None
  }

  lemma JsonEnvelopePayload(v: Value)
    ensures Payload(JsonEnvelope(v)) == Some(v)
    ensures !JsonEnvelope(v).isError
  {
  }

  /** A data tool's reply: its result serialised. */
  function AsJson<C>(run: Run<C, Value>): (r: Run<C, Envelope>)
    ensures r.trace == run.trace
    ensures r.outcome.Err? <==> run.outcome.Err?
    ensures run.outcome.Err? ==> r.outcome.fault == run.outcome.fault
    ensures run.outcome.Ok? ==> Payload(r.outcome.value) == Some(run.outcome.value) && !r.outcome.value.isError
  {
    Run(run.trace, match run.outcome case Ok(v) => Ok(JsonEnvelope(v)) case Err(f) => Err(f))
  }

  /** A confirming tool's reply: its sentence. */
  function AsText<C>(run: Run<C, string>): (r: Run<C, Envelope>)
    ensures r.trace == run.trace
    ensures r.outcome.Err? <==> run.outcome.Err?
    ensures run.outcome.Err? ==> r.outcome.fault == run.outcome.fault
    ensures run.outcome.Ok? ==> r.outcome.value == TextEnvelope(run.outcome.value) && !r.outcome.value.isError
  {
    Run(run.trace, match run.outcome case Ok(text) => Ok(TextEnvelope(text)) case Err(f) => Err(f))
  }

  /** A tool that makes one call and answers with the response serialised. */
  function JsonReply<C>(c: C, oracle: C -> Reply): (r: Run<C, Envelope>)
    ensures r.trace == [c]
    ensures oracle(c).Answer? ==> r.outcome == Ok(JsonEnvelope(oracle(c).body))
    ensures oracle(c).Failure? ==> r.outcome == Err(oracle(c).fault)
  {
    AsJson(Send(c, oracle))
  }

  /** The `try … catch` around a request: a thrown error becomes the reply
      `onError` builds from it, a success is kept, and nothing is thrown
      further. Each server supplies its own error reply. */
  function Recover<C>(run: Run<C, Envelope>, onError: Fault -> Envelope): (served: Run<C, Envelope>)
    ensures served.trace == run.trace && served.outcome.Ok?
    ensures run.outcome.Ok? ==> served.outcome.value == run.outcome.value
    ensures run.outcome.Err? ==> served.outcome.value == onError(run.outcome.fault)
  {
    match run.outcome
    case Ok(e) => Run(run.trace, Ok(e))
    case Err(f) => Run(run.trace, Ok(onError(f)))
  }
}
