/**
 * The ConversationRelay websocket protocol both services speak: the events the telephony side
 * sends after `JSON.parse`, and the frames a service sends back.
 */
module Relay {
  import opened Wrappers
  import opened Llm

  /** A parsed message, by its `type` field; `interrupt` and unknown types are `OtherEvent`. */
  datatype RelayEvent =
    | Setup(callSid: Option<string>)
    | Prompt(voicePrompt: Option<string>)
    | Close
    | OtherEvent

  /** `{type: "text", token, last}` or `{type: "end"}`. */
  datatype Frame = TextFrame(token: string, last: bool) | EndFrame

  /** The frames the token callback sends, one per callback, in order. */
  function TextFrames(calls: seq<Callback>): (fs: seq<Frame>)
    ensures |fs| == |calls|
    ensures forall k :: 0 <= k < |calls| ==> fs[k] == TextFrame(calls[k].token, calls[k].last)
  {
    seq(|calls|, k requires 0 <= k < |calls| => TextFrame(calls[k].token, calls[k].last))
  }
}
