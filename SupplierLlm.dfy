/**
 * The supplier simulator's language-model client. Its streaming loop also collects the
 * forwarded tokens in a local list; otherwise it follows the same protocol as the agent's, so
 * it is specified by the same functions. Its one-shot completion is the agent's `ChatCompletion`.
 */
module SupplierLlm {
  import opened Wrappers
  import opened Llm

  /** The tokens carried by a list of callbacks, one per callback. */
  function TokenList(calls: seq<Callback>): (ts: seq<string>)
    ensures |ts| == |calls| && forall k :: 0 <= k < |calls| ==> ts[k] == calls[k].token
  {
    seq(|calls|, k requires 0 <= k < |calls| => calls[k].token)
  }

  /**
   * `streamCompletion(messages, onToken)` of the supplier service: every non-empty token is
   * pushed onto `chunks`, appended to `full` and forwarded; `failAt` as for the agent.
   */
  method StreamCompletion(stream: seq<Chunk>, failAt: Option<nat>) returns (calls: seq<Callback>, full: string)
    ensures calls == StreamCalls(stream, failAt)
    ensures full == StreamText(stream, failAt)
  {
    calls, full := [], "";
    var chunks: seq<string> := [];
    var i := 0;
    while i < |stream| && failAt != Some(i)
      invariant 0 <= i <= Delivered(stream, failAt)
      invariant calls == Forwarded(stream[..i]) && full == Contents(stream[..i])
      invariant chunks == TokenList(calls)
    {
      var token := Token(stream[i]);
      assert stream[..i + 1][..i] == stream[..i];
      if token != "" {
        chunks := chunks + [token];
        full := full + token;
        calls := calls + [Callback(token, IsLast(stream[i]))];
      }
      i := i + 1;
    }
    assert i == Delivered(stream, failAt);
    assert failAt.None? ==> stream[..i] == stream;
    if failAt.Some? {
      calls := calls + [Callback(Unavailable, true)];
      full := Unavailable;
    } else {
      ForwardedTokens(stream);
      assert full == Tokens(calls);
      calls := calls + [Callback("", true)];
    }
  }
}
