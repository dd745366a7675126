/**
 * What an upstream call can come to, with the HTTP client abstracted away:
 * either a response (status, body, and the lines the body yields when read
 * as a stream) or no response at all (refused connection, timeout, ...).
 */
module Upstream {
  import opened Wrappers
  import opened Json
  import Relay

  /** A response body: its text, and what `response.json()` decodes it to; None when it is not JSON. */
  datatype Body = Body(text: string, json: Option<Value>)

  /** A response from the upstream; `lines` is what `iter_lines()` yields when the body is read as a stream. */
  datatype Reply = Reply(status: int, body: Body, lines: seq<Relay.Item>)

  /** The outcome of one upstream call; `message` is the str() of the RequestException raised. */
  datatype Outcome = Responded(reply: Reply) | NoResponse(message: string)

  /** The statuses for which `raise_for_status()` raises: client and server errors. */
  predicate IsErrorStatus(status: int) {
    400 <= status < 600
  }

  /** Whether the call fails inside the `try` block: no response, or an error status. */
  predicate Failed(o: Outcome) {
    o.NoResponse? || IsErrorStatus(o.reply.status)
  }
}
