/**
 * The buyer agent's side of a phone call: the session registry keyed by call id, the seeding
 * of a session when a call is placed, the poll for a terminal call status, the form-body
 * parser, and the websocket handler that records both sides of the conversation and decides
 * when to hang up. Telephony and the model are replaced by what they returned.
 */
module Caller {
  import opened Wrappers
  import opened Text
  import opened Conversation
  import opened Llm
  import opened Relay

  datatype RFQDetails = RFQDetails(rfqId: string, item: string, quantity: int, region: string, budget: Option<string>)

  /** `buildWelcomeGreeting(item, quantity)`: the opening line, naming the quantity and the item. */
  function BuildWelcomeGreeting(item: string, quantity: int): (r: string)
    ensures StartsWith(r, GreetingLead)
    ensures Contains(r, IntToString(quantity) + " units of " + item + ".")
  {
    var p := IntToString(quantity) + " units of " + item + ".";
    var r := GreetingLead + p + GreetingTail;
    ContainsWithin(GreetingLead, p, GreetingTail);
    assert r[..|GreetingLead|] == GreetingLead;
    r
  }

  const GreetingLead: string := "Hello, I am an AI procurement agent calling to request a quote for "
  const GreetingTail: string := " Could you please share your unit price, minimum order quantity, and lead time?"

  function SystemPrompt(rfq: RFQDetails): (r: string) {
    BuildBuyerSystemPrompt(rfq.item, rfq.quantity, rfq.region, rfq.budget)
  }

  /** The history a session starts with: the buyer prompt, then the greeting as already said. */
  function InitialHistory(rfq: RFQDetails): (h: seq<Message>)
  {
    [Message(System, SystemPrompt(rfq)), Message(Assistant, BuildWelcomeGreeting(rfq.item, rfq.quantity))]
  }

  /** The chat turn a transcript entry is sent as: supplier speech is the user, the agent the assistant. */
  function TurnOf(e: TranscriptEntry): (m: Message)
    ensures m.role == User <==> e.speaker == Supplier
    ensures m.role != System && m.content == e.text
  {
    Message(if e.speaker == Supplier then User else Assistant, e.text)
  }

  /** The chat turns a run of transcript entries is sent as, entry for entry. */
  function TurnsOf(es: seq<TranscriptEntry>): (h: seq<Message>)
    ensures |h| == |es| && forall k :: 0 <= k < |es| ==> h[k] == TurnOf(es[k])
  {
    seq(|es|, k requires 0 <= k < |es| => TurnOf(es[k]))
  }

  /** Turning two runs of entries into turns one after the other is turning their concatenation. */
  lemma TurnsOfAppend(a: seq<TranscriptEntry>, b: seq<TranscriptEntry>)
    ensures TurnsOf(a + b) == TurnsOf(a) + TurnsOf(b)
  {
    assert forall k :: 0 <= k < |a| + |b| ==> TurnsOf(a + b)[k] == (TurnsOf(a) + TurnsOf(b))[k];
  }

  /** The details a session gets when the websocket connects for a call nobody registered. */
  function FallbackDetails(rfqId: string): (d: RFQDetails)
    ensures d.rfqId == rfqId && d.item == "procurement item" && d.quantity == 1000 && d.region == "US"
    ensures d.budget.None?
  {
    RFQDetails(rfqId, "procurement item", 1000, "US", None)
  }

  /** One call's conversation, shared between the registry and the websocket that serves it. */
  class Session {
    var history: seq<Message>
    var transcript: seq<TranscriptEntry>
    const rfqDetails: RFQDetails

    /**
     * The history is the two seed turns followed by the transcript, entry for entry: every
     * recorded utterance was also sent to the model, and nothing else was.
     */
    predicate Valid()
      reads this
    {
      |history| == |transcript| + 2
      && forall k :: 0 <= k < |transcript| ==> history[k + 2] == TurnOf(transcript[k])
    }

    /** A session holding the seed turns `history`, with nothing recorded yet. */
    constructor (history: seq<Message>, rfq: RFQDetails)
      requires |history| == 2
      ensures this.history == history && transcript == [] && rfqDetails == rfq
      ensures Valid()
    {
      this.history := history;
      transcript := [];
      rfqDetails := rfq;
    }

    /** Recording utterances in both lists keeps them in step. */
    method Record(es: seq<TranscriptEntry>)
      requires Valid()
      modifies this
      ensures transcript == old(transcript) + es && history == old(history) + TurnsOf(es)
      ensures Valid()
    {
      transcript := transcript + es;
      history := history + TurnsOf(es);
    }
  }

  /** The module-level `sessions` map. */
  class SessionStore {
    var sessions: map<string, Session>

    /** Every registered session keeps its history and transcript in step. */
    predicate Valid()
      reads this, sessions.Values
    {
      forall s :: s in sessions.Values ==> s.Valid()
    }

    constructor ()
      ensures sessions == map[] && Valid()
    {
      sessions := map[];
    }

    /**
     * `initiateCall`: once the telephony API returned a call id (`created`), the session for
     * it is registered with the buyer prompt and the greeting and an empty transcript. When
     * the API threw (`None`), nothing is registered.
     */
    method InitiateCall(created: Option<string>, rfq: RFQDetails) returns (r: Result<string>)
      requires Valid()
      modifies this
      ensures Valid()
      ensures created.None? ==> r.Err? && sessions == old(sessions)
      ensures created.Some? ==> r == Ok(created.value)
      ensures created.Some? ==>
                created.value in sessions && fresh(sessions[created.value])
                && sessions == old(sessions)[created.value := sessions[created.value]]
      ensures created.Some? ==> var s := sessions[created.value];
                s.history == InitialHistory(rfq) && s.transcript == [] && s.rfqDetails == rfq && s.Valid()
    {
      if created.None? {
        return Err("call creation failed");
      }
      var _ := Register(created.value, rfq);
      r := Ok(created.value);
    }

    /** Registering a session seeded for `rfq` under `callSid`, replacing any session there. */
    method Register(callSid: string, rfq: RFQDetails) returns (s: Session)
      requires Valid()
      modifies this
      ensures Valid() && fresh(s) && sessions == old(sessions)[callSid := s]
      ensures s.history == InitialHistory(rfq) && s.transcript == [] && s.rfqDetails == rfq && s.Valid()
    {
      s := new Session(InitialHistory(rfq), rfq);
      sessions := sessions[callSid := s];
    }

    /** `getAgentTranscript`: the session's transcript, or none for an unknown call id. */
    function GetAgentTranscript(callSid: string): (t: seq<TranscriptEntry>)
      reads this, sessions.Values
      ensures callSid !in sessions ==> t == []
      ensures callSid in sessions ==> t == sessions[callSid].transcript
    {
      if callSid in sessions then sessions[callSid].transcript else []
    }

    /** `clearSession`: removes that call id only. */
    method ClearSession(callSid: string)
      requires Valid()
      modifies this
      ensures Valid()
      ensures sessions == old(sessions) - {callSid}
      ensures GetAgentTranscript(callSid) == []
    {
      sessions := sessions - {callSid};
    }
  }

  /** The statuses at which `waitForCall` stops polling. */
  predicate IsTerminal(status: string) {
    status == "completed" || status == "failed" || status == "no-answer" || status == "canceled"
  }

  /**
   * The clock readings and status fetches of a poll: `clock[i]` is read before the `i`-th
   * fetch, `fetched[i]` is the status that fetch returned or `None` when it rejected, and the
   * last reading is past the deadline.
   */
  predicate PollInputs(start: int, clock: seq<int>, fetched: seq<Option<string>>, timeoutMs: int) {
    |clock| == |fetched| + 1 && clock[|fetched|] - start >= timeoutMs
  }

  /** The `m`-th poll ran before the deadline and fetched a status that is not terminal. */
  predicate PolledOn(start: int, clock: seq<int>, fetched: seq<Option<string>>, timeoutMs: int, m: nat)
    requires m < |fetched| < |clock|
  {
    clock[m] - start < timeoutMs && fetched[m].Some? && !IsTerminal(fetched[m].value)
  }

  /** Polls `i` up to `j` (exclusive) all ran and kept the loop going. */
  predicate PolledThrough(start: int, clock: seq<int>, fetched: seq<Option<string>>, timeoutMs: int, i: nat, j: nat)
    requires PollInputs(start, clock, fetched, timeoutMs) && i <= j <= |fetched|
  {
    forall m :: i <= m < j ==> PolledOn(start, clock, fetched, timeoutMs, m)
  }

  /**
   * The result of polling from the `i`-th reading on: a terminal status, "timeout", or an
   * error when a fetch rejects.
   */
  function WaitOutcome(start: int, clock: seq<int>, fetched: seq<Option<string>>, timeoutMs: int, i: nat): (r: Result<string>)
    requires PollInputs(start, clock, fetched, timeoutMs) && i <= |fetched|
    decreases |fetched| - i
  {
    if clock[i] - start >= timeoutMs then Ok("timeout")
    else if fetched[i].None? then Err(FetchFailed)
    else if IsTerminal(fetched[i].value) then Ok(fetched[i].value)
    else WaitOutcome(start, clock, fetched, timeoutMs, i + 1)
  }

  const FetchFailed: string := "call status fetch failed"

  /**
   * `waitForCall(callSid, timeoutMs)`: poll until a terminal status or the deadline; a
   * rejected fetch makes the whole wait reject.
   */
  method WaitForCall(start: int, clock: seq<int>, fetched: seq<Option<string>>, timeoutMs: int) returns (r: Result<string>)
    requires PollInputs(start, clock, fetched, timeoutMs)
    ensures r == WaitOutcome(start, clock, fetched, timeoutMs, 0)
  {
    var i := 0;
    while clock[i] - start < timeoutMs
      invariant 0 <= i <= |fetched|
      invariant WaitOutcome(start, clock, fetched, timeoutMs, i) == WaitOutcome(start, clock, fetched, timeoutMs, 0)
      decreases |fetched| - i
    {
      var call := fetched[i];
      if call.None? {
        return Err(FetchFailed);
      }
      if IsTerminal(call.value) {
        return Ok(call.value);
      }
      i := i + 1;
    }
    return Ok("timeout");
  }

  /**
   * A poll that does not reject never reports a non-terminal status: it yields "timeout", or
   * the first status it fetched that is terminal, fetched before the deadline.
   */
  lemma {:induction false} WaitOutcomeTerminal(start: int, clock: seq<int>, fetched: seq<Option<string>>, timeoutMs: int, i: nat)
    requires PollInputs(start, clock, fetched, timeoutMs) && i <= |fetched|
    ensures var r := WaitOutcome(start, clock, fetched, timeoutMs, i);
      r.Ok? ==>
      r.value == "timeout" ||
      exists j :: i <= j < |fetched| && fetched[j] == Some(r.value) && IsTerminal(r.value) && clock[j] - start < timeoutMs
                  && PolledThrough(start, clock, fetched, timeoutMs, i, j)
    decreases |fetched| - i
  {
    if clock[i] - start < timeoutMs && fetched[i].Some? && !IsTerminal(fetched[i].value) {
      var r := WaitOutcome(start, clock, fetched, timeoutMs, i + 1);
      WaitOutcomeTerminal(start, clock, fetched, timeoutMs, i + 1);
      if r.Ok? && r.value != "timeout" {
        var j :| i + 1 <= j < |fetched| && fetched[j] == Some(r.value) && IsTerminal(r.value) && clock[j] - start < timeoutMs
                 && PolledThrough(start, clock, fetched, timeoutMs, i + 1, j);
        assert PolledThrough(start, clock, fetched, timeoutMs, i, j);
      }
    }
  }

  /** A terminal status fetched before the deadline, after only non-terminal ones, is returned. */
  lemma {:induction false} WaitOutcomeFirst(start: int, clock: seq<int>, fetched: seq<Option<string>>, timeoutMs: int, i: nat, j: nat)
    requires PollInputs(start, clock, fetched, timeoutMs) && i <= j < |fetched|
    requires PolledThrough(start, clock, fetched, timeoutMs, i, j)
    requires clock[j] - start < timeoutMs && fetched[j].Some? && IsTerminal(fetched[j].value)
    ensures WaitOutcome(start, clock, fetched, timeoutMs, i) == Ok(fetched[j].value)
    decreases j - i
  {
    if i < j {
      assert PolledOn(start, clock, fetched, timeoutMs, i);
      WaitOutcomeFirst(start, clock, fetched, timeoutMs, i + 1, j);
    }
  }

  /**
   * The wait rejects exactly when some fetch before the deadline rejects after only
   * non-terminal statuses; `handleRFQ` then stops before it reads the transcript.
   */
  lemma {:induction false} WaitFails(start: int, clock: seq<int>, fetched: seq<Option<string>>, timeoutMs: int, i: nat)
    requires PollInputs(start, clock, fetched, timeoutMs) && i <= |fetched|
    ensures WaitOutcome(start, clock, fetched, timeoutMs, i).Err? <==>
      exists j :: i <= j < |fetched| && clock[j] - start < timeoutMs && fetched[j].None?
                  && PolledThrough(start, clock, fetched, timeoutMs, i, j)
    decreases |fetched| - i
  {
    if clock[i] - start < timeoutMs && fetched[i].None? {
      assert PolledThrough(start, clock, fetched, timeoutMs, i, i);
    } else if clock[i] - start < timeoutMs && !IsTerminal(fetched[i].value) {
      WaitFails(start, clock, fetched, timeoutMs, i + 1);
      if WaitOutcome(start, clock, fetched, timeoutMs, i + 1).Err? {
        var j :| i + 1 <= j < |fetched| && clock[j] - start < timeoutMs && fetched[j].None?
                 && PolledThrough(start, clock, fetched, timeoutMs, i + 1, j);
        assert PolledThrough(start, clock, fetched, timeoutMs, i, j);
      }
      forall j | i <= j < |fetched| && clock[j] - start < timeoutMs && fetched[j].None?
                 && PolledThrough(start, clock, fetched, timeoutMs, i, j)
        ensures WaitOutcome(start, clock, fetched, timeoutMs, i + 1).Err?
      {
        assert j != i;
        assert PolledThrough(start, clock, fetched, timeoutMs, i + 1, j);
      }
    } else {
      assert i < |fetched| ==> !PolledOn(start, clock, fetched, timeoutMs, i);
    }
  }

  /** What one `key=value` pair does to the parameters. */
  datatype PairEffect = Skip | Assign(key: string, value: string) | Throw

  /** Assigning a string to `params["__proto__"]` on a plain object is ignored. */
  const ProtoKey: string := "__proto__"

  /**
   * One pair of a form body: `[k, v] = pair.split("=")`, skipped when `k` is empty. `decode`
   * is `decodeURIComponent`, `None` where it throws a `URIError` (a malformed escape such as
   * "%" or "%E0%A4%A"); the key is decoded first, then the value, and either throwing makes
   * the pair throw. A key that decodes to "__proto__" stores nothing.
   */
  function FormPair(pair: string, decode: string -> Option<string>): (r: PairEffect)
    ensures r.Assign? ==> r.key != ProtoKey
  {
    var parts := Split(pair, '=');
    if parts[0] == "" then Skip
    else
      var k := decode(parts[0]);
      var v := decode(if |parts| > 1 then parts[1] else "");
      if k.None? || v.None? then Throw
      else if k.value == ProtoKey then Skip
      else Assign(k.value, v.value)
  }

  /** What the thrown `URIError` is reported as. */
  const MalformedEscape: string := "URIError: URI malformed"

  /**
   * The parameters the body parser builds from its pairs, later pairs overwriting earlier
   * ones; the parser throws when some pair does, and never stores "__proto__".
   */
  function FormParams(pairs: seq<string>, decode: string -> Option<string>): (r: Result<map<string, string>>)
    ensures r.Err? <==> exists i :: 0 <= i < |pairs| && FormPair(pairs[i], decode).Throw?
    ensures r.Ok? ==> ProtoKey !in r.value
    ensures r.Err? ==> r.error == MalformedEscape
  {
    if pairs == [] then Ok(map[])
    else
      var init := pairs[..|pairs| - 1];
      assert forall i :: 0 <= i < |init| ==> init[i] == pairs[i];
      match FormParams(init, decode)
      case Err(e) => Err(e)
      case Ok(m) =>
        match FormPair(pairs[|pairs| - 1], decode)
        case Skip => Ok(m)
        case Assign(k, v) => Ok(m[k := v])
        case Throw => Err(MalformedEscape)
  }

  /**
   * The `application/x-www-form-urlencoded` content-type parser: the parameter map, or the
   * `URIError` of the first pair that throws.
   */
  method ParseForm(body: string, decode: string -> Option<string>) returns (r: Result<map<string, string>>)
    ensures r == FormParams(Split(body, '&'), decode)
  {
    var pairs := Split(body, '&');
    var params := map[];
    for i := 0 to |pairs|
      invariant FormParams(pairs[..i], decode) == Ok(params)
    {
      assert pairs[..i + 1][..i] == pairs[..i];
      match FormPair(pairs[i], decode) {
        case Skip =>
        case Assign(k, v) =>
          params := params[k := v];
        case Throw =>
          assert FormParams(pairs, decode).Err?;
          return Err(MalformedEscape);
      }
    }
    assert pairs[..|pairs|] == pairs;
    r := Ok(params);
  }

  /** A later pair for the same key overwrites the earlier value; a skipped pair changes nothing; a throwing one fails the parse. */
  lemma FormParamsAppend(pairs: seq<string>, pair: string, decode: string -> Option<string>)
    ensures FormParams(pairs, decode).Ok? ==>
      var m := FormParams(pairs, decode).value;
      match FormPair(pair, decode)
      case Skip => FormParams(pairs + [pair], decode) == Ok(m)
      case Assign(k, v) => FormParams(pairs + [pair], decode) == Ok(m[k := v])
      case Throw => FormParams(pairs + [pair], decode).Err?
  {
    assert (pairs + [pair])[..|pairs|] == pairs;
  }

  /** Splitting `k=v` on "=" yields `k` and `v`. */
  lemma SplitPair(k: string, v: string)
    requires '=' !in k && '=' !in v
    ensures Split(k + "=" + v, '=') == [k, v]
  {
    assert k + "=" + v == k + ['='] + v;
    SplitCons(k, '=', v);
  }

  /** Splitting `k=v=w` on "=" yields `k` and `v` first. */
  lemma SplitTriple(k: string, v: string, rest: string)
    requires '=' !in k && '=' !in v
    ensures var parts := Split(k + "=" + v + "=" + rest, '='); |parts| > 1 && parts[0] == k && parts[1] == v
  {
    var tail := v + ['='] + rest;
    assert k + "=" + v + "=" + rest == k + ['='] + tail;
    SplitCons(k, '=', tail);
    SplitCons(v, '=', rest);
  }

  /**
   * `k=v`, and `k=v=w` with the text after the second "=" dropped, both assign the decoded
   * value to the decoded key, unless that key is "__proto__"; a malformed escape in either
   * throws.
   */
  lemma FormPairValue(k: string, v: string, rest: string, decode: string -> Option<string>)
    requires k != "" && '=' !in k && '=' !in v
    ensures var e := if decode(k).None? || decode(v).None? then Throw
                     else if decode(k).value == ProtoKey then Skip
                     else Assign(decode(k).value, decode(v).value);
      FormPair(k + "=" + v, decode) == e && FormPair(k + "=" + v + "=" + rest, decode) == e
  {
    SplitPair(k, v);
    SplitTriple(k, v, rest);
  }

  /** A pair without "=" acts as `k=`, with the empty value; a pair starting with "=" (or empty) is skipped. */
  lemma FormPairEdges(k: string, v: string, decode: string -> Option<string>)
    requires k != "" && '=' !in k
    ensures FormPair(k, decode) == FormPair(k + "=", decode)
    ensures FormPair("=" + v, decode).Skip? && FormPair("", decode).Skip?
  {
    SplitPair(k, "");
    assert k + "=" + "" == k + "=";
    SplitCons("", '=', v);
    assert "" + ['='] + v == "=" + v;
  }

  /** The hang-up test, on the untrimmed reply. */
  predicate EndsCall(reply: string) {
    Contains(Lower(reply), "goodbye") || Contains(Lower(reply), "thank you, i have your final offer")
  }

  /** A reply that says the prompt's mandated closing line ends the call. */
  lemma ClosingLineEndsCall(before: string, after: string)
    ensures EndsCall(before + ClosingLine + after)
  {
    var head, tail := ClosingHead, ". Goodbye.";
    assert ClosingLine == head + tail;
    LowerClosingHead();
    LowerAppend(before + head, tail + after);
    LowerAppend(before, head);
    assert before + ClosingLine + after == before + head + (tail + after);
    ContainsWithin(Lower(before), Lower(head), Lower(tail + after));
  }

  const ClosingHead: string := "Thank you, I have your final offer"

  lemma LowerClosingHead()
    ensures Lower(ClosingHead) == "thank you, i have your final offer"
  {
  }

  /**
   * What one prompt adds to the transcript: the supplier's words as heard, then the agent's
   * trimmed reply when it is not blank.
   */
  function Exchange(heard: string, heardAt: int, reply: string, repliedAt: int): (es: seq<TranscriptEntry>)
    ensures 1 <= |es| <= 2 && es[0] == TranscriptEntry(Supplier, heard, heardAt)
    ensures |es| == 2 <==> Trim(reply) != ""
    ensures |es| == 2 ==> es[1] == TranscriptEntry(Agent, Trim(reply), repliedAt)
  {
    [TranscriptEntry(Supplier, heard, heardAt)] + Answer(reply, repliedAt)
  }

  /** The agent's part of an exchange: its trimmed reply, unless that is blank. */
  function Answer(reply: string, repliedAt: int): (es: seq<TranscriptEntry>)
    ensures |es| <= 1 && (|es| == 1 <==> Trim(reply) != "")
    ensures |es| == 1 ==> es[0] == TranscriptEntry(Agent, Trim(reply), repliedAt)
  {
    if Trim(reply) != "" then [TranscriptEntry(Agent, Trim(reply), repliedAt)] else []
  }

  /** The turns an exchange goes to the model as: a user turn, then an assistant turn for a non-blank reply. */
  lemma ExchangeTurns(heard: string, heardAt: int, reply: string, repliedAt: int)
    ensures TurnsOf(Exchange(heard, heardAt, reply, repliedAt))
            == [Message(User, heard)] + if Trim(reply) != "" then [Message(Assistant, Trim(reply))] else []
  {
    var es := Exchange(heard, heardAt, reply, repliedAt);
    var ts := TurnsOf(es);
    assert ts[0] == Message(User, heard);
    if Trim(reply) != "" {
      assert ts[1] == Message(Assistant, Trim(reply));
      assert ts == [ts[0], ts[1]];
    } else {
      assert ts == [ts[0]];
    }
  }

  /** The frames one reply produces: each token in order, then an end frame if it ends the call. */
  function ReplyFrames(calls: seq<Callback>): (frames: seq<Frame>) {
    TextFrames(calls) + if EndsCall(Tokens(calls)) then [EndFrame] else []
  }

  /**
   * The body of a prompt once it is accepted: record what was heard, stream the reply, record
   * the trimmed reply when there is one, and return the frames for the socket.
   */
  method Respond(s: Session, text: string, heardAt: int, chunks: seq<Chunk>, failAt: Option<nat>, repliedAt: int)
    returns (frames: seq<Frame>)
    requires s.Valid()
    modifies s
    ensures s.transcript == old(s.transcript) + Exchange(text, heardAt, Tokens(StreamCalls(chunks, failAt)), repliedAt)
    ensures s.history == old(s.history) + TurnsOf(Exchange(text, heardAt, Tokens(StreamCalls(chunks, failAt)), repliedAt))
    ensures frames == ReplyFrames(StreamCalls(chunks, failAt))
    ensures s.Valid()
  {
    ghost var t0, h0 := s.transcript, s.history;
    var heard := [TranscriptEntry(Supplier, text, heardAt)];
    s.Record(heard);
    var calls, _ := StreamCompletion(chunks, failAt);
    var answer := Answer(Tokens(calls), repliedAt);
    s.Record(answer);
    TurnsOfAppend(heard, answer);
    AppendAssoc(t0, heard, answer);
    AppendAssoc(h0, TurnsOf(heard), TurnsOf(answer));
    frames := ReplyFrames(calls);
  }

  /** One websocket connection on `/ws/agent`, with the state its handler closes over. */
  class AgentConnection {
    const rfqId: string
    var callSid: string
    var session: Session?
    var closed: bool

    /**
     * A new connection: `rfqId` is the decoded `rfqId` query parameter (or ""), `now` the
     * clock. The placeholder call id is looked up at once.
     */
    constructor (store: SessionStore, rfqId: string, now: int)
      ensures this.rfqId == rfqId && callSid == "agent-" + IntToString(now)
      ensures session == if callSid in store.sessions then store.sessions[callSid] else null
      ensures !closed
    {
      this.rfqId := rfqId;
      callSid := "agent-" + IntToString(now);
      session := if "agent-" + IntToString(now) in store.sessions then store.sessions["agent-" + IntToString(now)] else null;
      closed := false;
    }

    /**
     * `setup`: bind the call id (kept when the event has none), register the fallback session
     * only when the registry has none for it, and bind the connection to the registered one.
     */
    method OnSetup(store: SessionStore, sid: Option<string>)
      requires store.Valid()
      modifies this, store
      ensures store.Valid() && session != null && session.Valid()
      ensures callSid == sid.GetOr(old(callSid))
      ensures callSid in store.sessions && session == store.sessions[callSid]
      ensures callSid in old(store.sessions) ==> store.sessions == old(store.sessions)
      ensures callSid !in old(store.sessions) ==>
                fresh(session) && store.sessions == old(store.sessions)[callSid := session]
                && session.history == InitialHistory(FallbackDetails(rfqId)) && session.transcript == []
                && session.rfqDetails == FallbackDetails(rfqId) && session.Valid()
      ensures closed == old(closed)
    {
      callSid := sid.GetOr(callSid);
      if callSid !in store.sessions {
        var _ := store.Register(callSid, FallbackDetails(rfqId));
      }
      session := store.sessions[callSid];
    }

    /**
     * `prompt`, once the utterance is known to be non-blank and a session is bound: the
     * utterance is recorded in the transcript (stamped `heardAt`) and the history; the reply is
     * streamed as text frames, which are returned in the order they are written to the socket;
     * its trimmed text, if any, is recorded as the agent's (stamped `repliedAt`); an end frame
     * follows when the reply ends the call.
     */
    method OnPrompt(store: SessionStore, text: string, heardAt: int, chunks: seq<Chunk>, failAt: Option<nat>, repliedAt: int)
      returns (frames: seq<Frame>)
      requires store.Valid() && session != null && session.Valid()
      modifies session
      ensures store.Valid() && session.Valid()
      ensures session.transcript == old(session.transcript)
                + Exchange(text, heardAt, Tokens(StreamCalls(chunks, failAt)), repliedAt)
      ensures session.history == old(session.history)
                + TurnsOf(Exchange(text, heardAt, Tokens(StreamCalls(chunks, failAt)), repliedAt))
      ensures frames == ReplyFrames(StreamCalls(chunks, failAt))
    {
      var s := session;
      frames := Respond(s, text, heardAt, chunks, failAt, repliedAt);
      forall t | t in store.sessions.Values ensures t.Valid() { if t != s { assert old(t.Valid()); } }
    }

    /** A `prompt` event: ignored when the utterance is missing or blank or no session is bound. */
    method OnPromptEvent(store: SessionStore, voicePrompt: Option<string>, heardAt: int, chunks: seq<Chunk>,
                         failAt: Option<nat>, repliedAt: int) returns (frames: seq<Frame>)
      requires store.Valid() && (session != null ==> session.Valid())
      modifies session
      ensures store.Valid() && (session != null ==> session.Valid())
      ensures IsBlank(voicePrompt.GetOr("")) || session == null ==> frames == [] && (session != null ==> unchanged(session))
      ensures !IsBlank(voicePrompt.GetOr("")) && session != null ==>
                var es := Exchange(voicePrompt.value, heardAt, Tokens(StreamCalls(chunks, failAt)), repliedAt);
                && session.transcript == old(session.transcript) + es
                && session.history == old(session.history) + TurnsOf(es)
                && frames == ReplyFrames(StreamCalls(chunks, failAt))
    {
      frames := [];
      var text := voicePrompt.GetOr("");
      if !IsBlank(text) && session != null {
        frames := OnPrompt(store, text, heardAt, chunks, failAt, repliedAt);
      }
    }

    /** `close`: the socket is closed; the session stays registered. */
    method OnClose()
      modifies this
      ensures closed
      ensures callSid == old(callSid) && session == old(session)
    {
      closed := true;
    }

    /**
     * The message handler: `event` is the parse result (`None` when `JSON.parse` threw);
     * `frames` are what it writes to the socket. Unparseable messages and other event types,
     * `interrupt` included, change nothing and write nothing, and so do blank prompts and
     * prompts before a session is bound. Each message is handled to completion before the
     * next one.
     */
    method OnMessage(store: SessionStore, event: Option<RelayEvent>, heardAt: int, chunks: seq<Chunk>,
                     failAt: Option<nat>, repliedAt: int) returns (frames: seq<Frame>)
      requires store.Valid() && (session != null ==> session.Valid())
      modifies this, store, session
      ensures store.Valid()
      ensures session != null ==> session.Valid()
      ensures event.None? || event.value.OtherEvent? ==>
                callSid == old(callSid) && session == old(session) && closed == old(closed) && frames == []
                && store.sessions == old(store.sessions) && (session != null ==> unchanged(session))
      ensures event.Some? && event.value.Setup? ==>
                && callSid == event.value.callSid.GetOr(old(callSid))
                && callSid in store.sessions && session == store.sessions[callSid]
                && (callSid in old(store.sessions) ==> store.sessions == old(store.sessions))
                && (callSid !in old(store.sessions) ==>
                      fresh(session) && store.sessions == old(store.sessions)[callSid := session]
                      && session.history == InitialHistory(FallbackDetails(rfqId)) && session.transcript == []
                      && session.rfqDetails == FallbackDetails(rfqId))
                && (callSid in old(store.sessions) ==> unchanged(session))
                && (old(session) != null ==> unchanged(old(session)))
                && closed == old(closed) && frames == []
      ensures event.Some? && event.value.Prompt? && (IsBlank(event.value.voicePrompt.GetOr("")) || old(session) == null) ==>
                callSid == old(callSid) && session == old(session) && closed == old(closed) && frames == []
                && store.sessions == old(store.sessions) && (session != null ==> unchanged(session))
      ensures event.Some? && event.value.Prompt? && !IsBlank(event.value.voicePrompt.GetOr("")) && old(session) != null ==>
                var es := Exchange(event.value.voicePrompt.value, heardAt, Tokens(StreamCalls(chunks, failAt)), repliedAt);
                && callSid == old(callSid) && session == old(session) && closed == old(closed)
                && store.sessions == old(store.sessions)
                && session.transcript == old(session.transcript) + es
                && session.history == old(session.history) + TurnsOf(es)
                && frames == ReplyFrames(StreamCalls(chunks, failAt))
      ensures event.Some? && event.value.Close? ==>
                closed && callSid == old(callSid) && session == old(session) && frames == []
                && store.sessions == old(store.sessions) && (session != null ==> unchanged(session))
    {
      frames := [];
      match event {
        case None =>
        case Some(Setup(sid)) =>
          OnSetup(store, sid);
        case Some(Prompt(voicePrompt)) =>
          frames := OnPromptEvent(store, voicePrompt, heardAt, chunks, failAt, repliedAt);
        case Some(Close) =>
          OnClose();
        case Some(OtherEvent) =>
      }
    }
  }

  /** In a valid session every supplier utterance went to the model as a user turn, every agent one as an assistant turn. */
  lemma TurnRoles(s: Session, k: nat)
    requires s.Valid() && k < |s.transcript|
    ensures s.history[k + 2].role == User <==> s.transcript[k].speaker == Supplier
    ensures s.history[k + 2].content == s.transcript[k].text
  {
  }

}
