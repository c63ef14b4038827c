/**
 * What the load-test script sees of one HTTP exchange with the completion server:
 * the status, the body as the result of a JSON parse, and the measured duration.
 * The server itself is a scripted sequence of responses, one consumed per post.
 */
module Http {
  import opened Wrappers

  /** The `usage` object of a completion response; an absent field is `None`. */
  datatype Usage = Usage(promptTokens: Option<int>, completionTokens: Option<int>, totalTokens: Option<int>)

  /** No `usage` object at all: every field falls back. */
  const NoUsage := Usage(None, None, None)

  /**
   * The body after JSON.parse: `Parsed` carries `choices[0].text` ("" when that text is
   * missing or empty) and the usage fields; `Malformed` is a body that does not parse.
   */
  datatype Body = Parsed(text: string, usage: Usage) | Malformed

  /** One response: HTTP status, parsed body and `timings.duration` in milliseconds. */
  datatype Response = Response(status: int, body: Body, durationMs: real)

  /** The completion endpoint, answering each post with the next scripted response. */
  class Server {
    var pending: seq<Response>
    var posts: nat

    constructor (script: seq<Response>)
      ensures pending == script && posts == 0
    {
      pending := script;
      posts := 0;
    }

    /** http.post: one request, answered by the next response. */
    method Post() returns (resp: Response)
      requires pending != []
      modifies this
      ensures resp == old(pending)[0]
      ensures pending == old(pending)[1..] && posts == old(posts) + 1
    {
      resp := pending[0];
      pending := pending[1..];
      posts := posts + 1;
    }
  }
}
