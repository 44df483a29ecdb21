/** Remote services as the handlers see them. Each remote call is a request
    record of the service's own kind; an oracle supplies the reply (the decoded
    response body, or the error the client library throws), and every handler
    returns the requests it made, in order, together with its outcome. */
module Remote {
  import opened Js

  datatype Reply = Answer(body: Value) | Failure(fault: Fault)

  datatype Run<+C, +T> = Run(trace: seq<C>, outcome: Result<T>)

  /** One awaited remote call. */
  function Send<C>(c: C, oracle: C -> Reply): (run: Run<C, Value>)
    ensures run.trace == [c]
    ensures oracle(c).Answer? ==> run.outcome == Ok(oracle(c).body)
    ensures oracle(c).Failure? ==> run.outcome == Err(oracle(c).fault)
  {
    match oracle(c)
    case Answer(body) => Run([c], Ok(body))
    case Failure(f) => Run([c], Err(f))
  }

  /** A run that made no call and threw. */
  function Fail<C, T>(f: Fault): Run<C, T> {
    Run([], Err(f))
  }

  /** The earlier calls of a sequence, followed by the rest of the run. */
  function After<C, T>(earlier: seq<C>, rest: Run<C, T>): Run<C, T> {
    Run(earlier + rest.trace, rest.outcome)
  }
}
