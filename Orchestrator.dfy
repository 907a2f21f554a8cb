/**
 * The buyer agent's RFQ handler: resolving an RFQ's data URI into call details, placing the
 * call, and — once the call has ended — extracting the quote from the transcript, storing the
 * quote packet and committing it on chain. Storage, telephony, the model and the chain are
 * replaced by what they returned.
 */
module Orchestrator {
  import opened Wrappers
  import opened Text
  import opened Base64
  import opened Storage
  import opened Conversation
  import opened Caller
  import opened Extractor
  import opened AgentTranscript

  /** An RFQ payload's fields as parsed; a `budget` that is missing or falsy is `None`. */
  datatype RawRfq = RawRfq(item: Option<string>, quantity: Option<int>, region: Option<string>, budget: Option<string>)

  datatype RfqData = RfqData(item: string, quantity: int, region: string, budget: Option<string>)

  /** The details used when the payload cannot be resolved. */
  const Fallback: RfqData := RfqData("general procurement item", 1000, "US", None)

  /** The label every call and every quote carries. */
  const SupplierLabel: string := "Supplier"

  /** A resolved payload with `?? "item"`, `?? 1000` and `?? "US"` applied. */
  function WithDefaults(raw: RawRfq): (d: RfqData) {
    RfqData(raw.item.GetOr("item"), raw.quantity.GetOr(1000), raw.region.GetOr("US"), raw.budget)
  }

  /**
   * `parseRFQData(rfqDataURI)`: `download` is `downloadJSON` on a root hash and `parse` is
   * `JSON.parse` on the decoded bytes (`None` when it threw). A `0g://` payload counts only as
   * an object; an inline payload that parses to a non-object value has none of the fields,
   * and one that parses to `null` makes the field access throw, which is caught.
   */
  function ParseRFQData(uri: string, download: string -> JsonValue<RawRfq>,
                        parse: seq<byte> -> Option<JsonValue<RawRfq>>): (d: RfqData)
  {
    if StartsWith(uri, NativeScheme) && download(uri[|NativeScheme|..]).Object? then
      WithDefaults(download(uri[|NativeScheme|..]).fields)
    else if StartsWith(uri, InlineScheme) then
      match Decode(uri[|InlineScheme|..])
      case None => Fallback
      case Some(bytes) =>
        match parse(bytes)
        case None => Fallback
        case Some(Null) => Fallback
        case Some(Scalar) => WithDefaults(RawRfq(None, None, None, None))
        case Some(Object(raw)) => WithDefaults(raw)
    else Fallback
  }

  /** Every way of not resolving the payload gives the same fallback details. */
  lemma UnresolvedFallsBack(uri: string, download: string -> JsonValue<RawRfq>,
                            parse: seq<byte> -> Option<JsonValue<RawRfq>>)
    ensures (!StartsWith(uri, NativeScheme) && !StartsWith(uri, InlineScheme))
              ==> ParseRFQData(uri, download, parse) == Fallback
    ensures (StartsWith(uri, NativeScheme) && !download(uri[|NativeScheme|..]).Object?)
              ==> ParseRFQData(uri, download, parse) == Fallback
    ensures (StartsWith(uri, InlineScheme) && Decode(uri[|InlineScheme|..]).None?)
              ==> ParseRFQData(uri, download, parse) == Fallback
    ensures (StartsWith(uri, InlineScheme) && Decode(uri[|InlineScheme|..]).Some?
             && parse(Decode(uri[|InlineScheme|..]).value) in {None, Some(Null)})
              ==> ParseRFQData(uri, download, parse) == Fallback
  {
    if StartsWith(uri, NativeScheme) {
      assert !StartsWith(uri, InlineScheme) by { assert uri[0] == '0'; }
    }
  }

  /** `local://` URIs carry no retrievable payload. */
  lemma LocalUriFallsBack(rest: string, download: string -> JsonValue<RawRfq>,
                          parse: seq<byte> -> Option<JsonValue<RawRfq>>)
    ensures ParseRFQData(LocalScheme + rest, download, parse) == Fallback
  {
    var u := LocalScheme + rest;
    assert !StartsWith(u, NativeScheme) by { assert u[0] == 'l'; }
    assert !StartsWith(u, InlineScheme) by { assert u[0] == 'l'; }
  }

  /**
   * An RFQ stored inline comes back with its own fields, each missing one filled with its
   * default; a field present in the payload is never replaced.
   */
  lemma InlinePayloadResolves(json: seq<byte>, raw: RawRfq, download: string -> JsonValue<RawRfq>,
                              parse: seq<byte> -> Option<JsonValue<RawRfq>>)
    requires parse(json) == Some(Object(raw))
    ensures var d := ParseRFQData(InlineScheme + Encode(json), download, parse);
      && d == WithDefaults(raw)
      && (raw.item.Some? ==> d.item == raw.item.value) && (raw.item.None? ==> d.item == "item")
      && (raw.quantity.Some? ==> d.quantity == raw.quantity.value) && (raw.quantity.None? ==> d.quantity == 1000)
      && (raw.region.Some? ==> d.region == raw.region.value) && (raw.region.None? ==> d.region == "US")
      && d.budget == raw.budget
  {
    var u := InlineScheme + Encode(json);
    assert StartsWith(u, InlineScheme);
    assert !StartsWith(u, NativeScheme) by { assert u[0] == 'j'; }
    assert u[|InlineScheme|..] == Encode(json);
    RoundTrip(json);
  }

  /** A `0g://` object payload resolves the same way. */
  lemma NativePayloadResolves(rootHash: string, raw: RawRfq, download: string -> JsonValue<RawRfq>,
                              parse: seq<byte> -> Option<JsonValue<RawRfq>>)
    requires download(rootHash) == Object(raw)
    ensures ParseRFQData(NativeScheme + rootHash, download, parse) == WithDefaults(raw)
  {
    var u := NativeScheme + rootHash;
    assert StartsWith(u, NativeScheme) && u[|NativeScheme|..] == rootHash;
  }

  /** An inline payload that is a number, string or boolean has no fields: all three defaults apply. */
  lemma InlineScalarDefaults(uri: string, download: string -> JsonValue<RawRfq>,
                             parse: seq<byte> -> Option<JsonValue<RawRfq>>)
    requires StartsWith(uri, InlineScheme) && Decode(uri[|InlineScheme|..]).Some?
    requires parse(Decode(uri[|InlineScheme|..]).value) == Some(Scalar)
    ensures ParseRFQData(uri, download, parse) == RfqData("item", 1000, "US", None)
  {
    assert !StartsWith(uri, NativeScheme) by { assert uri[0] == 'j'; }
  }

  // ---------------------------------------------------------------------------------------
  // The event listener

  /**
   * The filter before `handleRFQ`: an event is handled only when its agent id equals the
   * configured token id. `ours` is `config.agentTokenId`, which the configuration object does
   * not define: as written it is `None`.
   */
  predicate Handles(agentId: int, ours: Option<int>) {
    ours.Some? && agentId == ours.value
  }

  /** The configured token id as the configuration object provides it. */
  const ConfiguredTokenId: Option<int> := None

  /** As written, every event is ignored: `agentId !== undefined` always holds. */
  lemma EveryEventIgnored(agentId: int)
    ensures !Handles(agentId, ConfiguredTokenId)
  {
  }

  /** With a configured id, exactly that agent's events are handled. */
  lemma ConfiguredIdFilters(agentId: int, id: int)
    ensures Handles(agentId, Some(id)) <==> agentId == id
  {
  }

  // ---------------------------------------------------------------------------------------
  // handleRFQ

  /** The call details `handleRFQ` gives `initiateCall`. */
  function CallDetails(rfqId: int, d: RfqData): (c: RFQDetails)
    ensures c.rfqId == IntToString(rfqId)
    ensures c.item == d.item && c.quantity == d.quantity && c.region == d.region && c.budget == d.budget
  {
    RFQDetails(IntToString(rfqId), d.item, d.quantity, d.region, d.budget)
  }

  /**
   * `handleRFQ` up to `waitForCall`: `rfqDataURI` is what `getRFQ` returned (`None` when it
   * threw) and `created` the call id the telephony API returned (`None` when it threw). The
   * call id is returned when a call is in progress; otherwise nothing else happens.
   */
  method StartRFQ(store: SessionStore, rfqId: int, rfqDataURI: Option<string>,
                  download: string -> JsonValue<RawRfq>, parse: seq<byte> -> Option<JsonValue<RawRfq>>,
                  created: Option<string>) returns (callSid: Option<string>)
    requires store.Valid()
    modifies store
    ensures store.Valid()
    ensures rfqDataURI.None? || created.None? ==> callSid.None? && store.sessions == old(store.sessions)
    ensures rfqDataURI.Some? && created.Some? ==>
              callSid == created && created.value in store.sessions
              && store.sessions == old(store.sessions)[created.value := store.sessions[created.value]]
    ensures rfqDataURI.Some? && created.Some? ==>
              var s := store.sessions[created.value];
              s.rfqDetails == CallDetails(rfqId, ParseRFQData(rfqDataURI.value, download, parse))
              && s.transcript == [] && s.history == InitialHistory(s.rfqDetails)
  {
    if rfqDataURI.None? {
      return None;
    }
    var details := ParseRFQData(rfqDataURI.value, download, parse);
    var callRFQDetails := CallDetails(rfqId, details);
    var r := store.InitiateCall(created, callRFQDetails);
    if r.Err? {
      return None;
    }
    callSid := Some(r.value);
  }

  /** The quote packet uploaded to storage. */
  datatype QuotePacket = QuotePacket(
    rfqId: string,
    supplier: string,
    unitPriceUsd: real,
    unitPriceWei: string,
    moq: string,
    leadTimeDays: string,
    validUntil: int,
    transcript: seq<TranscriptEntry>,
    timestamp: int)

  function Packet(rfqId: int, q: ExtractedQuote, entries: seq<TranscriptEntry>, timestamp: int): (p: QuotePacket)
    ensures p.supplier == SupplierLabel && p.transcript == entries && p.unitPriceUsd == q.unitPriceUsd
  {
    QuotePacket(IntToString(rfqId), SupplierLabel, q.unitPriceUsd, IntToString(q.unitPriceWei),
                IntToString(q.moq), IntToString(q.leadTimeDays), q.validUntil, entries, timestamp)
  }

  /** The arguments of `commitQuote`. */
  datatype Commit = Commit(
    rfqId: int,
    quoteDataHash: string,
    uri: string,
    supplierLabel: string,
    unitPriceWei: int,
    moq: int,
    leadTimeDays: int,
    validUntil: int)

  function CommitFor(rfqId: int, q: ExtractedQuote, stored: UploadResult): (r: Commit) {
    Commit(rfqId, With0x(stored.rootHash), stored.uri, q.supplierLabel, q.unitPriceWei, q.moq,
           q.leadTimeDays, q.validUntil)
  }

  /**
   * `handleRFQ` from `waitForCall` on: `polled` is what the wait gave. When it rejected (a
   * status fetch failed), the handler rejects at once: nothing is extracted, stored or
   * committed, and the session stays registered. Otherwise the status is only logged, the
   * agent-side transcript is formatted (`iso`), the quote extracted from the model's `response`
   * (`parseQuote`, `toNumber`, clock `extractNow`), the packet serialized (`stringify`) and
   * uploaded (`sdkLoaded`, `hasSigner`, `outcome`, `keccak`), the quote committed, and the
   * session cleared. A failed commit is only logged, so its outcome
   * is not an input. When extraction throws (a `null` reply, a price that is not a number, a
   * MOQ or lead time that is not numeric), the handler rejects: nothing is stored, nothing
   * committed, and the session stays registered.
   */
  method FinishRFQ(store: SessionStore, rfqId: int, callSid: string, polled: Result<string>,
                   iso: int -> string, response: string,
                   parseQuote: string -> Option<JsonValue<QuoteFields>>, toNumber: string -> Option<real>,
                   extractNow: nat, packetNow: int,
                   stringify: QuotePacket -> seq<byte>, sdkLoaded: bool, hasSigner: bool,
                   outcome: UploadOutcome, keccak: seq<byte> -> string) returns (committed: Option<Commit>)
    requires store.Valid()
    modifies store
    ensures store.Valid()
    ensures polled.Err? ==> committed.None? && store.sessions == old(store.sessions)
    ensures polled.Ok? ==> var entries := old(store.GetAgentTranscript(callSid));
      var q := ExtractQuote(FormatTranscript(entries, iso), SupplierLabel, response, parseQuote, toNumber, extractNow);
      && (q.Err? ==> committed.None? && store.sessions == old(store.sessions))
      && (q.Ok? ==> committed == Some(CommitFor(rfqId, q.value,
                      UploadJSON(stringify(Packet(rfqId, q.value, entries, packetNow)), sdkLoaded, hasSigner, outcome, keccak)))
                    && store.sessions == old(store.sessions) - {callSid})
  {
    if polled.Err? {
      return None;
    }
    var allEntries := store.GetAgentTranscript(callSid);
    var transcriptText := FormatTranscript(allEntries, iso);
    var extracted := ExtractQuote(transcriptText, SupplierLabel, response, parseQuote, toNumber, extractNow);
    if extracted.Err? {
      return None;
    }
    var quotePacket := Packet(rfqId, extracted.value, allEntries, packetNow);
    var stored := UploadJSON(stringify(quotePacket), sdkLoaded, hasSigner, outcome, keccak);
    var quoteDataHash := With0x(stored.rootHash);
    committed := Some(Commit(rfqId, quoteDataHash, stored.uri, extracted.value.supplierLabel,
                             extracted.value.unitPriceWei, extracted.value.moq,
                             extracted.value.leadTimeDays, extracted.value.validUntil));
    store.ClearSession(callSid);
  }

  /**
   * What a commit carries: the fixed label, a hash with exactly one "0x" prefix, the wei of
   * the committed USD price, and a URI from which the uploaded packet can be recovered when
   * the upload fell back to inline storage.
   */
  lemma CommitFacts(rfqId: int, transcript: string, response: string,
                    parseQuote: string -> Option<JsonValue<QuoteFields>>, toNumber: string -> Option<real>, nowMs: nat,
                    json: seq<byte>, sdkLoaded: bool, hasSigner: bool, outcome: UploadOutcome,
                    keccak: seq<byte> -> string)
    requires ExtractQuote(transcript, SupplierLabel, response, parseQuote, toNumber, nowMs).Ok?
    ensures var q := ExtractQuote(transcript, SupplierLabel, response, parseQuote, toNumber, nowMs).value;
      var stored := UploadJSON(json, sdkLoaded, hasSigner, outcome, keccak);
      var c := CommitFor(rfqId, q, stored);
      && c.supplierLabel == SupplierLabel
      && StartsWith(c.quoteDataHash, "0x") && With0x(c.quoteDataHash) == c.quoteDataHash
      && c.unitPriceWei == ToWei(q.unitPriceUsd)
      && (!(sdkLoaded && hasSigner && outcome.Uploaded?) ==> InlinePayload(c.uri) == Some(json))
      && (sdkLoaded && hasSigner && outcome.Uploaded? ==> c.uri == NativeScheme + outcome.rootHash)
  {
    var stored := UploadJSON(json, sdkLoaded, hasSigner, outcome, keccak);
    With0xIdempotent(stored.rootHash);
    if sdkLoaded && hasSigner && outcome.Uploaded? {
      assert stored.uri == stored.uri[..|NativeScheme|] + stored.uri[|NativeScheme|..];
    }
  }
}
