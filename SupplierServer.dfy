/**
 * The supplier simulator's HTTP and websocket surface: the per-connection handler that plays a
 * supplier persona on a call, the transcript route, and the websocket URL written into the
 * TwiML answer. The model stream and the clock are replaced by what they delivered.
 */
module SupplierServer {
  import opened Wrappers
  import opened Text
  import opened Conversation
  import opened Llm
  import opened Relay
  import opened Config
  import SupplierLlm
  import SupplierTranscript

  /** A supplier persona: its route id, display name, TwiML greeting and model instructions. */
  datatype Persona = Persona(id: string, name: string, greeting: string, systemPrompt: string)

  /** `replace(/^https?:\/\//, "")`: one leading "https://" or "http://" is removed. */
  function StripScheme(s: string): (r: string)
    ensures |r| <= |s| && r == s[|s| - |r|..]
    ensures StartsWith(s, "https://") ==> r == s[8..]
    ensures StartsWith(s, "http://") ==> r == s[7..]
    ensures r != s <==> StartsWith(s, "https://") || StartsWith(s, "http://")
  {
    if StartsWith(s, "https://") then
      assert !StartsWith(s, "http://") by { assert s[4] == "https://"[4]; }
      s[8..]
    else if StartsWith(s, "http://") then s[7..] else s
  }

  /**
   * The websocket URL of `buildTwiML`: NGROK_URL (empty when unset) without one trailing "/",
   * then without its scheme, between "wss://" and "/ws/<persona id>".
   */
  function WsUrl(ngrokUrl: Option<string>, id: string): (r: string) {
    "wss://" + StripScheme(StripTrailingSlash(ngrokUrl.GetOr(""))) + "/ws/" + id
  }

  /** A public https URL, with or without a trailing slash, or an http URL, yields `wss://<host>/ws/<id>`. */
  lemma WsUrlOfHost(host: string, id: string)
    requires host != [] && host[|host| - 1] != '/'
    ensures WsUrl(Some("https://" + host + "/"), id) == "wss://" + host + "/ws/" + id
    ensures WsUrl(Some("https://" + host), id) == "wss://" + host + "/ws/" + id
    ensures WsUrl(Some("http://" + host), id) == "wss://" + host + "/ws/" + id
  {
    HttpsHost(host);
    HttpHost(host);
  }

  lemma HttpsHost(host: string)
    requires host != [] && host[|host| - 1] != '/'
    ensures StripScheme(StripTrailingSlash("https://" + host + "/")) == host
    ensures StripScheme(StripTrailingSlash("https://" + host)) == host
  {
    var a, b := "https://" + host + "/", "https://" + host;
    assert b[|b| - 1] == host[|host| - 1];
    assert EndsWith(a, "/") && !EndsWith(b, "/");
    assert a[..|a| - 1] == b;
    assert StartsWith(b, "https://") && b[8..] == host;
  }

  lemma HttpHost(host: string)
    requires host != [] && host[|host| - 1] != '/'
    ensures StripScheme(StripTrailingSlash("http://" + host)) == host
  {
    var c := "http://" + host;
    assert c[|c| - 1] == host[|host| - 1];
    assert !EndsWith(c, "/");
    assert !StartsWith(c, "https://") by { assert c[4] != 's'; }
    assert StartsWith(c, "http://") && c[7..] == host;
  }

  /** Without NGROK_URL the URL has an empty host. */
  lemma WsUrlUnset(id: string)
    ensures WsUrl(None, id) == "wss:///ws/" + id
  {
  }

  /** The answer of `GET /transcript/:callSid`. */
  datatype TranscriptReply = NotFound(error: string) | Entries(entries: seq<TranscriptEntry>)

  /** `/transcript/:callSid`: 404 when no entry is stored under the id, the entries otherwise. */
  function TranscriptRoute(store: SupplierTranscript.TranscriptStore, callSid: string): (r: TranscriptReply)
    reads store
    ensures r.NotFound? <==> store.GetTranscript(callSid) == []
    ensures r.Entries? ==> r.entries == store.GetTranscript(callSid)
  {
    var es := store.GetTranscript(callSid);
    if es == [] then NotFound("No transcript found") else Entries(es)
  }

  /** An id never appended to answers 404. */
  lemma UnknownCallNotFound(store: SupplierTranscript.TranscriptStore, callSid: string)
    requires callSid !in store.store
    ensures TranscriptRoute(store, callSid) == NotFound("No transcript found")
  {
  }

  /** The persona's trimmed reply as a transcript entry, when it is not blank. */
  function ReplyEntries(reply: string, repliedAt: int): (es: seq<TranscriptEntry>)
    ensures |es| <= 1 && (es != [] <==> Trim(reply) != "")
    ensures es != [] ==> es[0] == TranscriptEntry(Supplier, Trim(reply), repliedAt)
  {
    if Trim(reply) != "" then [TranscriptEntry(Supplier, Trim(reply), repliedAt)] else []
  }

  /** The persona's trimmed reply as an assistant turn, when it is not blank. */
  function ReplyTurns(reply: string): (ms: seq<Message>)
    ensures |ms| <= 1 && (ms != [] <==> Trim(reply) != "")
    ensures ms != [] ==> ms[0] == Message(Assistant, Trim(reply))
  {
    if Trim(reply) != "" then [Message(Assistant, Trim(reply))] else []
  }

  /** What one prompt adds to the transcript: the agent's words as heard, then the persona's reply. */
  function Exchange(heard: string, heardAt: int, reply: string, repliedAt: int): (es: seq<TranscriptEntry>)
    ensures 1 <= |es| <= 2 && es[0] == TranscriptEntry(Agent, heard, heardAt)
    ensures |es| == 2 <==> Trim(reply) != ""
    ensures |es| == 2 ==> es[1] == TranscriptEntry(Supplier, Trim(reply), repliedAt)
  {
    [TranscriptEntry(Agent, heard, heardAt)] + ReplyEntries(reply, repliedAt)
  }

  /** What one prompt adds to the model history: a user turn, then the reply as the assistant's. */
  function Turns(heard: string, reply: string): (ms: seq<Message>)
    ensures 1 <= |ms| <= 2 && ms[0] == Message(User, heard)
    ensures |ms| == 2 <==> Trim(reply) != ""
    ensures |ms| == 2 ==> ms[1] == Message(Assistant, Trim(reply))
  {
    [Message(User, heard)] + ReplyTurns(reply)
  }

  /** The history and the transcript of one prompt agree turn by turn: the agent is the user. */
  lemma TurnsMatchExchange(heard: string, heardAt: int, reply: string, repliedAt: int)
    ensures var ms, es := Turns(heard, reply), Exchange(heard, heardAt, reply, repliedAt);
      |ms| == |es| && forall k :: 0 <= k < |ms| ==>
        ms[k].content == es[k].text && (ms[k].role == User <==> es[k].speaker == Agent)
  {
  }

  /** One websocket connection on `/ws/<persona id>`, with the state its handler closes over. */
  class SupplierConnection {
    const persona: Persona
    var history: seq<Message>
    var callSid: string
    var sent: seq<Frame>
    var closed: bool

    /** The history opens with the persona prompt, and every later turn fits the one before it. */
    predicate Valid()
      reads this`history
    {
      |history| >= 1 && history[0] == Message(System, persona.systemPrompt) && Dialogue(history)
    }

    /** A connection's starting state: only the persona prompt, under a clock-stamped placeholder id. */
    constructor (persona: Persona, now: int)
      ensures this.persona == persona && history == [Message(System, persona.systemPrompt)]
      ensures callSid == "unknown-" + IntToString(now) && sent == [] && !closed
      ensures Valid()
    {
      this.persona := persona;
      history := [Message(System, persona.systemPrompt)];
      callSid := "unknown-" + IntToString(now);
      sent := [];
      closed := false;
    }

    /** `history.push({role: "user", ...})` for a non-blank utterance. */
    method PushHeard(text: string)
      requires Valid() && !IsBlank(text)
      modifies this
      ensures history == old(history) + [Message(User, text)]
      ensures Valid()
      ensures callSid == old(callSid) && closed == old(closed) && sent == old(sent)
    {
      BlankIffAllSpace(text);
      DialogueAppend(history, Message(User, text));
      history := history + [Message(User, text)];
    }

    /** `history.push({role: "assistant", ...})` for a trimmed reply right after the user turn it answers. */
    method PushReply(reply: string)
      requires Valid() && Unpadded(reply) && history[|history| - 1].role == User
      modifies this
      ensures history == old(history) + [Message(Assistant, reply)]
      ensures callSid == old(callSid) && closed == old(closed) && sent == old(sent)
      ensures Valid()
    {
      DialogueAppend(history, Message(Assistant, reply));
      history := history + [Message(Assistant, reply)];
    }

    /** `setup`: only the call id is rebound (kept when the event has none). */
    method OnSetup(sid: Option<string>)
      modifies this
      ensures callSid == sid.GetOr(old(callSid))
      ensures history == old(history) && sent == old(sent) && closed == old(closed)
    {
      callSid := sid.GetOr(callSid);
    }

    /** The utterance goes to the transcript under the current call id, then into the history. */
    method Hear(store: SupplierTranscript.TranscriptStore, text: string, heardAt: int)
      requires Valid() && !IsBlank(text)
      modifies this, store
      ensures Valid() && history[|history| - 1].role == User && callSid in store.store
      ensures callSid == old(callSid) && closed == old(closed) && sent == old(sent)
      ensures history == old(history) + [Message(User, text)]
      ensures store.store == old(store.store)[callSid := old(store.GetTranscript(callSid)) + [TranscriptEntry(Agent, text, heardAt)]]
    {
      store.AppendEntry(callSid, TranscriptEntry(Agent, text, heardAt));
      PushHeard(text);
    }

    /** A trimmed, non-blank reply goes to the transcript as the persona's, then into the history. */
    method Speak(store: SupplierTranscript.TranscriptStore, reply: string, repliedAt: int)
      requires Valid() && history[|history| - 1].role == User && Unpadded(reply)
      modifies this, store
      ensures Valid()
      ensures callSid == old(callSid) && closed == old(closed) && sent == old(sent)
      ensures history == old(history) + [Message(Assistant, reply)]
      ensures store.store == old(store.store)[callSid := old(store.GetTranscript(callSid)) + [TranscriptEntry(Supplier, reply, repliedAt)]]
    {
      store.AppendEntry(callSid, TranscriptEntry(Supplier, reply, repliedAt));
      PushReply(reply);
    }

    /** The trimmed reply, when not blank, goes to the transcript as the persona's, then into the history. */
    method Answer(store: SupplierTranscript.TranscriptStore, reply: string, repliedAt: int)
      requires Valid() && history[|history| - 1].role == User && callSid in store.store
      modifies this, store
      ensures Valid()
      ensures callSid == old(callSid) && closed == old(closed) && sent == old(sent)
      ensures history == old(history) + ReplyTurns(reply)
      ensures store.store == old(store.store)[callSid := old(store.GetTranscript(callSid)) + ReplyEntries(reply, repliedAt)]
    {
      var r := Trim(reply);
      if r != "" {
        TrimEdges(reply);
        Speak(store, r, repliedAt);
        assert ReplyEntries(reply, repliedAt) == [TranscriptEntry(Supplier, r, repliedAt)];
        assert ReplyTurns(reply) == [Message(Assistant, r)];
      } else {
        assert ReplyEntries(reply, repliedAt) == [] && ReplyTurns(reply) == [];
        MapKeep(store.store, callSid);
      }
    }

    /** Streaming the reply: every token is sent as a text frame, then the reply is recorded. */
    method Reply(store: SupplierTranscript.TranscriptStore, chunks: seq<Chunk>, failAt: Option<nat>, repliedAt: int)
      requires Valid() && history[|history| - 1].role == User && callSid in store.store
      modifies this, store
      ensures Valid()
      ensures callSid == old(callSid) && closed == old(closed)
      ensures history == old(history) + ReplyTurns(Tokens(StreamCalls(chunks, failAt)))
      ensures sent == old(sent) + TextFrames(StreamCalls(chunks, failAt))
      ensures store.store == old(store.store)[callSid := old(store.GetTranscript(callSid))
                + ReplyEntries(Tokens(StreamCalls(chunks, failAt)), repliedAt)]
    {
      var calls, _ := SupplierLlm.StreamCompletion(chunks, failAt);
      sent := sent + TextFrames(calls);
      Answer(store, Tokens(calls), repliedAt);
    }

    /**
     * `prompt`, once the utterance is known to be non-blank: the utterance is appended to the
     * transcript under the current call id (stamped `heardAt`) before the model is asked, and
     * pushed as a user turn; every token is forwarded as a text frame; the trimmed reply, if
     * any, is appended as the persona's (stamped `repliedAt`) and pushed as an assistant turn.
     * No other call id's transcript changes.
     */
    method OnPrompt(store: SupplierTranscript.TranscriptStore, text: string, heardAt: int,
                    chunks: seq<Chunk>, failAt: Option<nat>, repliedAt: int)
      requires Valid() && !IsBlank(text)
      modifies this, store
      ensures Valid()
      ensures callSid == old(callSid) && closed == old(closed)
      ensures history == old(history) + Turns(text, Tokens(StreamCalls(chunks, failAt)))
      ensures sent == old(sent) + TextFrames(StreamCalls(chunks, failAt))
      ensures store.store == old(store.store)[callSid := old(store.GetTranscript(callSid))
                + Exchange(text, heardAt, Tokens(StreamCalls(chunks, failAt)), repliedAt)]
    {
      ghost var h0, m0, t0 := history, store.store, store.GetTranscript(callSid);
      var heard := TranscriptEntry(Agent, text, heardAt);
      Hear(store, text, heardAt);
      Reply(store, chunks, failAt, repliedAt);
      ghost var reply := Tokens(StreamCalls(chunks, failAt));
      AppendAssoc(h0, [Message(User, text)], ReplyTurns(reply));
      AppendAssoc(t0, [heard], ReplyEntries(reply, repliedAt));
      MapOverride(m0, callSid, t0 + [heard], t0 + [heard] + ReplyEntries(reply, repliedAt));
    }

    /** `close`: the socket is closed; the transcript stays stored. */
    method OnClose()
      modifies this
      ensures closed
      ensures callSid == old(callSid) && history == old(history) && sent == old(sent)
    {
      closed := true;
    }

    /**
     * The message handler: `event` is the parse result (`None` when `JSON.parse` threw).
     * Unparseable messages, `interrupt` and other types change nothing, and neither do blank
     * prompts; a prompt before `setup` is recorded under the placeholder id. Each message is
     * handled to completion before the next one.
     */
    method OnMessage(store: SupplierTranscript.TranscriptStore, event: Option<RelayEvent>, heardAt: int,
                     chunks: seq<Chunk>, failAt: Option<nat>, repliedAt: int)
      requires Valid()
      modifies this, store
      ensures Valid()
      ensures event.None? || event.value.OtherEvent? || event.value.Setup? || event.value.Close? ==>
                store.store == old(store.store) && history == old(history) && sent == old(sent)
      ensures event.None? || event.value.OtherEvent? ==> callSid == old(callSid) && closed == old(closed)
      ensures event.Some? && event.value.Setup? ==>
                callSid == event.value.callSid.GetOr(old(callSid)) && closed == old(closed)
      ensures event.Some? && event.value.Close? ==> closed && callSid == old(callSid)
      ensures event.Some? && event.value.Prompt? && IsBlank(event.value.voicePrompt.GetOr("")) ==>
                store.store == old(store.store) && history == old(history) && sent == old(sent)
                && callSid == old(callSid) && closed == old(closed)
      ensures event.Some? && event.value.Prompt? && !IsBlank(event.value.voicePrompt.GetOr("")) ==>
                var calls := StreamCalls(chunks, failAt);
                var text := event.value.voicePrompt.GetOr("");
                callSid == old(callSid) && closed == old(closed)
                && history == old(history) + Turns(text, Tokens(calls))
                && sent == old(sent) + TextFrames(calls)
                && store.store == old(store.store)[callSid := old(store.GetTranscript(callSid))
                   + Exchange(text, heardAt, Tokens(calls), repliedAt)]
    {
      match event {
        case None =>
        case Some(Setup(sid)) =>
          OnSetup(sid);
        case Some(Prompt(voicePrompt)) =>
          var text := voicePrompt.GetOr("");
          if !IsBlank(text) {
            OnPrompt(store, text, heardAt, chunks, failAt, repliedAt);
          }
        case Some(Close) =>
          OnClose();
        case Some(OtherEvent) =>
      }
    }
  }

  lemma MapOverride<K, V>(m: map<K, V>, k: K, a: V, b: V)
    ensures m[k := a][k := b] == m[k := b]
  {
  }

  lemma MapKeep<K, V>(m: map<K, seq<V>>, k: K)
    requires k in m
    ensures m[k := m[k] + []] == m
  {
    assert m[k] + [] == m[k];
  }

  /** Neither end of the text is whitespace, and it is not empty. */
  predicate Unpadded(s: string) {
    s != [] && !IsSpace(s[0]) && !IsSpace(s[|s| - 1])
  }

  /** Some character of the text is not whitespace: the text does not trim to nothing. */
  predicate Spoken(s: string) {
    exists i :: 0 <= i < |s| && !IsSpace(s[i])
  }

  /**
   * A turn after the system prompt: a user turn is a non-blank utterance; an assistant turn
   * answers the user turn right before it and is non-empty text without whitespace at either end.
   */
  predicate Fits(m: Message, previous: Role) {
    match m.role
    case System => false
    case User => Spoken(m.content)
    case Assistant => previous == User && Unpadded(m.content)
  }

  /** Every turn after the first fits the turn before it. */
  predicate Dialogue(h: seq<Message>)
    decreases |h|
  {
    |h| <= 1 || (Dialogue(h[..|h| - 1]) && Fits(h[|h| - 1], h[|h| - 2].role))
  }

  lemma DialogueAppend(h: seq<Message>, m: Message)
    requires |h| >= 1 && Dialogue(h) && Fits(m, h[|h| - 1].role)
    ensures Dialogue(h + [m])
  {
    var g := h + [m];
    assert g[..|g| - 1] == h && g[|g| - 1] == m && g[|g| - 2] == h[|h| - 1];
  }

  /** Each turn of a dialogue fits its predecessor: no system turn after the first, no blank user turn. */
  lemma {:induction false} DialogueTurn(h: seq<Message>, k: nat)
    requires Dialogue(h) && 1 <= k < |h|
    ensures Fits(h[k], h[k - 1].role)
    decreases |h|
  {
    var p := h[..|h| - 1];
    assert Dialogue(p);
    if k < |h| - 1 {
      assert p[k] == h[k] && p[k - 1] == h[k - 1];
      DialogueTurn(p, k);
    }
  }

  /** In a valid connection the model never answers twice in a row, nor before the first utterance. */
  lemma NoReplyTwice(c: SupplierConnection, k: nat)
    requires c.Valid() && 1 <= k < |c.history| && c.history[k].role == Assistant
    ensures c.history[k - 1].role == User && k >= 2 && Unpadded(c.history[k].content)
  {
    DialogueTurn(c.history, k);
  }

  /** In a valid connection only the first turn is the system prompt, and no user turn is blank. */
  lemma OnlyFirstIsSystem(c: SupplierConnection, k: nat)
    requires c.Valid() && 1 <= k < |c.history|
    ensures c.history[k].role != System
    ensures c.history[k].role == User ==> !IsBlank(c.history[k].content)
  {
    DialogueTurn(c.history, k);
    BlankIffAllSpace(c.history[k].content);
  }
}
