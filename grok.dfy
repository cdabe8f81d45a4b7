/**
 * The AI client's reduction of an HTTP response to the pair
 * `(content, intent)`. The request itself and the JSON decoding are not
 * modelled: a response is its status code and its first choice's message.
 */
module Grok {
  import opened Wrappers

  /** The message of `choices[0]`: its `content` and its optional `intent`. */
  datatype Choice = Choice(content: string, intent: Option<string>)

  /** An HTTP response of the chat-completion endpoint. */
  datatype Response = Response(status: int, first: Choice)

  const Apology: string := "Sorry, I couldn't understand that. Try again!"

  /**
   * `get_grok_response` after the POST: on status 200 the first choice's
   * content and intent (None when the message has none); on any other
   * status the fixed apology and no intent.
   */
  function AiResult(resp: Response): (r: (string, Option<string>))
    ensures resp.status == 200 ==> r.0 == resp.first.content && r.1 == resp.first.intent
    ensures resp.status != 200 ==> r == (Apology, None)
    ensures r.1.Some? ==> resp.status == 200
  {
    if resp.status == 200 then (resp.first.content, resp.first.intent)
    else (Apology, None)
  }

  /**
   * A caller cannot tell a failed call from a successful one whose reply is
   * the apology text with no intent, nor two failures with different
   * statuses or bodies apart.
   */
  lemma FailureIndistinguishable(failed: Response, other: Response)
    requires failed.status != 200
    ensures AiResult(failed) == AiResult(Response(200, Choice(Apology, None)))
    ensures other.status != 200 ==> AiResult(failed) == AiResult(other)
  {
  }
}
