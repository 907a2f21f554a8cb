/**
 * The buyer agent's language-model client: the streaming callback protocol, the one-shot
 * completion used for quote extraction, and the buyer persona prompt. The model endpoint is
 * replaced by what it delivered: the list of stream chunks and the point, if any, at which the
 * stream threw.
 */
module Llm {
  import opened Wrappers
  import opened Text

  /** One streamed chunk: `choices[0]?.delta?.content` and `choices[0]?.finish_reason`. */
  datatype Chunk = Chunk(content: Option<string>, finishReason: Option<string>)

  /** One call of `onToken(token, last)`. */
  datatype Callback = Callback(token: string, last: bool)

  /** What a one-shot completion request did: answered (content possibly absent) or threw. */
  datatype ChatOutcome = Answered(content: Option<string>) | Failed

  /** The text sent, with `last = true`, in place of a reply when the request fails. */
  const Unavailable: string := " [LLM unavailable] "

  /** `chunk.choices[0]?.delta?.content ?? ""`. */
  function Token(c: Chunk): (t: string) {
    c.content.GetOr("")
  }

  /** `finish_reason != null`. */
  predicate IsLast(c: Chunk) {
    c.finishReason.Some?
  }

  /** The callbacks the for-await loop issues: one per chunk with a non-empty token, in order. */
  function Forwarded(chunks: seq<Chunk>): (calls: seq<Callback>)
    ensures |calls| <= |chunks|
  {
    if chunks == [] then []
    else
      var c := chunks[|chunks| - 1];
      Forwarded(chunks[..|chunks| - 1]) + (if Token(c) != "" then [Callback(Token(c), IsLast(c))] else [])
  }

  /** All chunk tokens, concatenated. */
  function Contents(chunks: seq<Chunk>): (text: string) {
    if chunks == [] then "" else Contents(chunks[..|chunks| - 1]) + Token(chunks[|chunks| - 1])
  }

  /** The concatenation of the tokens of a list of callbacks: what a listener accumulates. */
  function Tokens(calls: seq<Callback>): (text: string) {
    if calls == [] then "" else Tokens(calls[..|calls| - 1]) + calls[|calls| - 1].token
  }

  /** How many chunks the stream delivers before it throws at `failAt` (all of them otherwise). */
  function Delivered(chunks: seq<Chunk>, failAt: Option<nat>): (n: nat)
    ensures n <= |chunks|
    ensures failAt.None? ==> n == |chunks|
  {
    if failAt.Some? && failAt.value < |chunks| then failAt.value else |chunks|
  }

  /**
   * Every `onToken` call `streamCompletion` makes: the forwarded chunks, then `("", true)` after
   * a normal end, or the placeholder with `last = true` after a failure.
   */
  function StreamCalls(chunks: seq<Chunk>, failAt: Option<nat>): (calls: seq<Callback>) {
    var sent := Forwarded(chunks[..Delivered(chunks, failAt)]);
    if failAt.None? then sent + [Callback("", true)] else sent + [Callback(Unavailable, true)]
  }

  /** The text `streamCompletion` resolves to: everything received, or the placeholder alone. */
  function StreamText(chunks: seq<Chunk>, failAt: Option<nat>): (text: string) {
    if failAt.None? then Contents(chunks) else Unavailable
  }

  /**
   * `streamCompletion(messages, onToken)`: the loop accumulates `full` and forwards each
   * non-empty token; `failAt == Some(k)` stands for the request or the stream throwing instead
   * of delivering chunk `k`.
   */
  method StreamCompletion(chunks: seq<Chunk>, failAt: Option<nat>) returns (calls: seq<Callback>, full: string)
    ensures calls == StreamCalls(chunks, failAt)
    ensures full == StreamText(chunks, failAt)
  {
    calls, full := [], "";
    var i := 0;
    while i < |chunks| && failAt != Some(i)
      invariant 0 <= i <= Delivered(chunks, failAt)
      invariant calls == Forwarded(chunks[..i]) && full == Contents(chunks[..i])
    {
      var token := Token(chunks[i]);
      assert chunks[..i + 1][..i] == chunks[..i];
      if token != "" {
        full := full + token;
        calls := calls + [Callback(token, IsLast(chunks[i]))];
      }
      i := i + 1;
    }
    assert i == Delivered(chunks, failAt);
    assert failAt.None? ==> chunks[..i] == chunks;
    if failAt.Some? {
      calls := calls + [Callback(Unavailable, true)];
      full := Unavailable;
    } else {
      calls := calls + [Callback("", true)];
    }
  }

  lemma {:induction false} TokensAppend(a: seq<Callback>, b: seq<Callback>)
    ensures Tokens(a + b) == Tokens(a) + Tokens(b)
    decreases |b|
  {
    if b != [] {
      var b' := b[..|b| - 1];
      assert (a + b)[..|a + b| - 1] == a + b';
      assert (a + b)[|a + b| - 1] == b[|b| - 1];
      TokensAppend(a, b');
      var t := b[|b| - 1].token;
      assert Tokens(a + b) == Tokens(a) + Tokens(b') + t;
      assert Tokens(b) == Tokens(b') + t;
    } else {
      assert a + b == a;
    }
  }

  /** The forwarded tokens, concatenated, are the whole reply: dropping empty chunks loses nothing. */
  lemma {:induction false} ForwardedTokens(chunks: seq<Chunk>)
    ensures Tokens(Forwarded(chunks)) == Contents(chunks)
  {
    if chunks != [] {
      var init := chunks[..|chunks| - 1];
      var c := chunks[|chunks| - 1];
      ForwardedTokens(init);
      TokensAppend(Forwarded(init), if Token(c) != "" then [Callback(Token(c), IsLast(c))] else []);
    }
  }

  /** Forwarding respects order: the callbacks of two runs of chunks follow each other. */
  lemma {:induction false} ForwardedAppend(a: seq<Chunk>, b: seq<Chunk>)
    ensures Forwarded(a + b) == Forwarded(a) + Forwarded(b)
    decreases |b|
  {
    if b != [] {
      var b' := b[..|b| - 1];
      assert (a + b)[..|a + b| - 1] == a + b';
      assert (a + b)[|a + b| - 1] == b[|b| - 1];
      ForwardedAppend(a, b');
      var c := b[|b| - 1];
      var last := if Token(c) != "" then [Callback(Token(c), IsLast(c))] else [];
      assert Forwarded(a + b) == Forwarded(a) + Forwarded(b') + last;
      assert Forwarded(b) == Forwarded(b') + last;
    } else {
      assert a + b == a;
    }
  }

  /** A single chunk is forwarded iff its token is non-empty, with `last` = finish reason present. */
  lemma ForwardedOne(c: Chunk)
    ensures Forwarded([c]) == if Token(c) != "" then [Callback(Token(c), IsLast(c))] else []
  {
    assert [c][..0] == [];
  }

  /** Every forwarded token is non-empty. */
  lemma {:induction false} ForwardedNonEmpty(chunks: seq<Chunk>)
    ensures forall k :: 0 <= k < |Forwarded(chunks)| ==> Forwarded(chunks)[k].token != ""
  {
    if chunks != [] {
      ForwardedNonEmpty(chunks[..|chunks| - 1]);
    }
  }

  /** Whatever happens, the final callback carries `last = true`. */
  lemma FinalCallbackIsLast(chunks: seq<Chunk>, failAt: Option<nat>)
    ensures var calls := StreamCalls(chunks, failAt); |calls| >= 1 && calls[|calls| - 1].last
  {
  }

  /** After a normal end the returned text is exactly what the callbacks carried. */
  lemma SuccessTextIsTokens(chunks: seq<Chunk>)
    ensures StreamText(chunks, None) == Tokens(StreamCalls(chunks, None))
  {
    assert chunks[..Delivered(chunks, None)] == chunks;
    ForwardedTokens(chunks);
    TokensAppend(Forwarded(chunks), [Callback("", true)]);
    assert Tokens([Callback("", true)]) == "";
  }

  /**
   * After a failure the return value is the placeholder alone, while a listener that
   * accumulates tokens has the partial reply followed by the placeholder.
   */
  lemma FailureText(chunks: seq<Chunk>, k: nat)
    ensures StreamText(chunks, Some(k)) == Unavailable
    ensures Tokens(StreamCalls(chunks, Some(k))) == Contents(chunks[..Delivered(chunks, Some(k))]) + Unavailable
  {
    var pre := chunks[..Delivered(chunks, Some(k))];
    ForwardedTokens(pre);
    TokensAppend(Forwarded(pre), [Callback(Unavailable, true)]);
    assert Tokens([Callback(Unavailable, true)]) == [] + Unavailable;
  }

  /** `last = true` is not unique: a final chunk with a finish reason is followed by `("", true)`. */
  lemma LastTwice()
    ensures StreamCalls([Chunk(Some("Goodbye."), Some("stop"))], None)
         == [Callback("Goodbye.", true), Callback("", true)]
  {
    var c := Chunk(Some("Goodbye."), Some("stop"));
    assert [c][..1] == [c];
    ForwardedOne(c);
  }

  /** `chatCompletion`: the message content, or "" when it is absent or the request threw. */
  function ChatCompletion(outcome: ChatOutcome): (r: string)
    ensures outcome.Failed? ==> r == ""
    ensures outcome.Answered? && outcome.content.None? ==> r == ""
    ensures outcome.Answered? && outcome.content.Some? ==> r == outcome.content.value
  {
    match outcome
    case Failed => ""
    case Answered(content) => content.GetOr("")
  }

  /** The line the prompt tells the model to say once it has the final terms. */
  const ClosingLine: string := "Thank you, I have your final offer. Goodbye."

  const PromptIntro: string :=
    "You are an AI procurement agent representing a merchant buyer. Your job is to negotiate with suppliers to get the best possible price and terms for your client.\n\nRFQ Details:\n"

  const PromptRules: string :=
    "\nYour objectives:\n"
    + "1. Get a clear unit price, minimum order quantity (MOQ), and lead time.\n"
    + "2. Negotiate for better pricing if possible, but remain professional.\n"
    + "3. Once you have a firm offer, confirm it clearly and wrap up the call.\n"
    + "4. Say goodbye after getting the final offer.\n\n"
    + "Instructions:\n"
    + "- Keep each response under 3 sentences \U{2014} this is a phone call.\n"
    + "- Be professional, friendly but firm.\n"
    + "- Don't reveal your budget unless necessary.\n"
    + "- When you have the final terms, say: \""

  /** The budget line falls back to a fixed phrase when no budget is given. */
  function BudgetText(budget: Option<string>): (r: string) {
    budget.GetOr("flexible, prefer best value")
  }

  /** The four RFQ lines of the prompt. */
  function DetailLines(item: string, quantity: int, region: string, budget: Option<string>): (r: seq<string>) {
    ["- Item: " + item + "\n",
     "- Quantity needed: " + IntToString(quantity) + " units\n",
     "- Delivery region: " + region + "\n",
     "- Budget: " + BudgetText(budget) + "\n"]
  }

  /** `buildBuyerSystemPrompt(rfqDetails)`: the persona, the RFQ lines, then the rules. */
  function BuildBuyerSystemPrompt(item: string, quantity: int, region: string, budget: Option<string>): (r: string)
    ensures forall k :: 0 <= k < 4 ==> Contains(r, DetailLines(item, quantity, region, budget)[k])
    ensures EndsWith(r, ClosingLine + "\"")
  {
    var d := DetailLines(item, quantity, region, budget);
    PromptShape(PromptIntro, d, PromptRules, ClosingLine + "\"");
    PromptIntro + d[0] + d[1] + d[2] + d[3] + PromptRules + (ClosingLine + "\"")
  }

  lemma PromptShape(a: string, d: seq<string>, m: string, c: string)
    requires |d| == 4
    ensures forall k :: 0 <= k < 4 ==> Contains(a + d[0] + d[1] + d[2] + d[3] + m + c, d[k])
    ensures EndsWith(a + d[0] + d[1] + d[2] + d[3] + m + c, c)
  {
    var s := a + d[0] + d[1] + d[2] + d[3] + m + c;
    var b := m + c;
    ContainsWithin(a, d[0], d[1] + d[2] + d[3] + b);
    assert a + d[0] + (d[1] + d[2] + d[3] + b) == s;
    ContainsWithin(a + d[0], d[1], d[2] + d[3] + b);
    assert a + d[0] + d[1] + (d[2] + d[3] + b) == s;
    ContainsWithin(a + d[0] + d[1], d[2], d[3] + b);
    assert a + d[0] + d[1] + d[2] + (d[3] + b) == s;
    ContainsWithin(a + d[0] + d[1] + d[2], d[3], b);
    assert a + d[0] + d[1] + d[2] + d[3] + b == s;
  }
}
