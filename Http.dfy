/**
 * The shape of an HTTP exchange as the services see it: `fetch` may throw,
 * the response has a status, and `response.json()` may throw or give a
 * body of a per-service shape.
 */
module Http {
  import opened Wrappers

  /** What a `catch` clause receives: an `Error` instance with its message, or anything else. */
  datatype Thrown = Error(message: string) | NonError

  /** The body as `response.json()` reads it. */
  datatype Body<B> = Unparsable(thrown: Thrown) | Json(value: B)

  /** The result of `fetch`: a rejected promise, or a response. */
  datatype Reply<B> = FetchFailed(thrown: Thrown) | Response(status: nat, body: Body<B>)

  /** `response.ok`. */
  predicate IsOk(status: nat) {
    200 <= status <= 299
  }

  /** A string field of a JSON object: absent, or present with what `parseFloat` reads from it. */
  datatype NumberText = Absent | Text(parsed: Option<real>)

  /** `parseFloat(field)`; an absent field reads as NaN. */
  function ParseFloat(t: NumberText): Option<real> {
    if t.Text? then t.parsed else None
  }

  /** The message Node's `fetch` rejects with when it cannot connect. */
  const FetchFailedText: string := "fetch failed"
}
