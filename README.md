# AI procurement agent: a verified model of its negotiation pipeline

This project models the agent side and the supplier simulator of an AI procurement agent. The
agent phones a supplier when an RFQ (request for quote) is created on chain. A language model
holds the conversation over a ConversationRelay websocket. The agent then extracts a quote from
the transcript, stores the quote packet in 0G Storage and commits it on chain. It also keeps a
per-agent negotiation memory, the "brain". The model covers these pieces:

- **Brain** (`Brain`): the supplier table and its statistics; `recordNegotiation`; the repair
  applied to a loaded brain; the load precedence of `loadBrain`; `findSupplier`; and
  `buildSupplierContext`.
- **Quote extractor** (`Extractor`, `ExtractorSample`): the fence stripping, the per-field
  default chain, the three regular-expression scans written out as searches, and the wei
  conversion.
- **Call sessions** (`Caller`): the session registry, the websocket handler of the buyer side,
  the status poll and the form-body parser.
- **Supplier side** (`SupplierServer`, `SupplierTranscript`): the supplier's mirror of the call
  handling, its transcript store, its transcript route and its websocket URL.
- **Streaming protocol** (`Llm`, `SupplierLlm`, `Relay`): the token callbacks, the one-shot
  completion and the buyer prompt.
- **Storage and configuration** (`Storage`, `Base64`, `Orchestrator`, `Config`): the URI
  schemes `0g://`, `json://` and `local://`; padded base64 (section 4 of RFC 4648); the RFQ
  payload parsing; the steps of `handleRFQ`; and the configuration lookups.
- **Transcripts and the quote card** (`AgentTranscript`, `QuoteCard`): the transcript
  formatter of both services, and the quote card's price text and storage link.

Each external effect becomes a value:

- What the telephony side, the language model, the chain, the storage SDK and the file system
  returned are parameters. A model stream is a list of chunks plus an optional failure point. A
  poll is a list of observed statuses plus clock readings.
- The clock is a parameter.
- `JSON.parse`, `JSON.stringify`, keccak-256, `decodeURIComponent`, ISO date rendering and
  `toFixed` are function-typed parameters.
- Prices, ratios and savings are exact reals. Wei, counts and timestamps are integers.
- The "no price yet" value `Infinity` is the constructor `Unpriced`.

Objects the source updates in place are classes:

- `Caller.SessionStore`, the `sessions` map;
- `Caller.Session`, whose lists the registry and the websocket share;
- `Caller.AgentConnection`;
- `SupplierServer.SupplierConnection`;
- `SupplierTranscript.TranscriptStore`;
- `Brain.BrainCache`, the `brains` map.

Each method that changes state is proved against a function of the old state. The invariants
are proved as lemmas over those functions.

Where the code does less than its comments and names suggest, the model follows the code:

- `handleRFQ` never calls `recordNegotiation`.
- There is no set of RFQ ids in flight.
- Nothing checks for an empty transcript before extraction or commit.
- `config.agentTokenId` does not exist (see Findings).

## Model

| member | source | states |
|---|---|---|
| Brain.EmptyBrain | agent/src/brain.ts:86-95 | a new brain has version 1, the given agent id, no suppliers and zero totals |
| Brain.EmptyBrainValid | agent/src/brain.ts:86-95 | the empty brain satisfies the brain invariant (unique keys, valid profiles, totals agreeing with the records) |
| Brain.Lookup | agent/src/brain.ts:176 | an own entry is found exactly when some entry of the table carries the key |
| Brain.Find | agent/src/brain.ts:176 | indexing the table finds an own entry iff one carries the key (and it is what Lookup returns); otherwise it finds an inherited member, which is truthy, exactly for "constructor" and "__proto__"; any other key is absent |
| Brain.LookupFound | agent/src/brain.ts:176 | what a lookup returns is the first entry stored under that key |
| Brain.LookupAt | agent/src/brain.ts:176 | with distinct keys, every stored entry is what its own key looks up |
| Brain.PutShape | agent/src/brain.ts:239 | writing an existing key replaces it in place; a new key is appended last (insertion order, which JavaScript keeps for keys that are not integer-like) |
| Brain.PutLookup | agent/src/brain.ts:239 | after writing key k, k looks up the new profile and every other key looks up what it did before |
| Brain.PutMember | agent/src/brain.ts:239 | writing adds no entry other than the written one |
| Brain.PutUnique | agent/src/brain.ts:239 | writing keeps the keys distinct |
| Brain.PutSumCalls | agent/src/brain.ts:239 | the sum of call counts changes by the new profile's count minus the replaced one's |
| Brain.Prices | agent/src/brain.ts:214 | the price list has one entry per negotiation, in order |
| Brain.MinOf | agent/src/brain.ts:215 | `Math.min` of a non-empty list is one of its elements and below or equal to all |
| Brain.BestIsLowest | agent/src/brain.ts:214-215 | the best price is unset exactly when there is no negotiation; otherwise it is one of the negotiated prices and no price is lower |
| Brain.CountDown | agent/src/brain.ts:225 | the number of negotiated-down records never exceeds the number of records |
| Brain.Classify | agent/src/brain.ts:227 | high iff the ratio is above 0.6, medium iff above 0.3 and at most 0.6, low iff at most 0.3 |
| Brain.ClassifyEdges | agent/src/brain.ts:227 | a ratio of exactly 0.6 is medium and exactly 0.3 is low |
| Brain.CategoriesExact | agent/src/brain.ts:218-222 | the category list has no duplicates and holds exactly the lowercased items of the negotiations |
| Brain.LastN | agent/src/brain.ts:234-236 | the kept log is a suffix of the log, of at most n entries unless the log is that short |
| Brain.LastNStep | agent/src/brain.ts:230-236 | cutting to the last n before appending and cutting again keeps the same entries as cutting once |
| Brain.TacticsBound | agent/src/brain.ts:230-237 | the tactics log changes only for a negotiated-down record with a positive saving; it then ends with that record's line, holds 1 to 10 lines and is the newest suffix of old log plus line |
| Brain.FirstContact | agent/src/brain.ts:193-206 | a first-contact profile has no calls, no best price, average 0, medium willingness and empty lists, under the given name and phone |
| Brain.FirstContactValid | agent/src/brain.ts:193-206 | a first-contact profile satisfies the profile invariant |
| Brain.RecordedProfileValid | agent/src/brain.ts:208-237 | recording into a valid profile gives a valid one: calls = records, best = minimum, average = mean, categories and willingness recomputed, log = last ten qualifying lines |
| Brain.SavingsPositive | agent/src/brain.ts:244 | every saving that enters the brain-wide mean is positive |
| Brain.SavingsMeanPositive | agent/src/brain.ts:245-248 | the brain-wide savings figure is positive exactly when some record has a positive saving, and 0 exactly when none has |
| Brain.LookupValid | agent/src/brain.ts:192 | a profile found in a valid table is valid and stored under its lowercased name |
| Brain.PutValid | agent/src/brain.ts:239 | writing a valid profile under its lowercased name keeps every entry valid |
| Brain.RecordedEntry | agent/src/brain.ts:189-239 | the profile recording writes is valid and keyed by the lowercased supplier name |
| Brain.RecordedEntries | agent/src/brain.ts:189-239 | recording keeps the keys distinct and every entry valid |
| Brain.RecordedCalls | agent/src/brain.ts:208-239 | recording adds exactly one call to the table's sum of call counts |
| Brain.RecordValid | agent/src/brain.ts:182-250 | recording preserves the brain invariant, so totalNegotiations stays the sum of call counts and the savings figure stays the mean over all records |
| Brain.TotalsAgree | agent/src/brain.ts:242-243 | in a valid table the sum of call counts, the sum of list lengths and the number of records are equal |
| Brain.RecordEffect | agent/src/brain.ts:188-242 | one more negotiation in total; the supplier's record list gains the record at its end and its calls grow by one; the first-seen name is kept and the phone overwritten; every other key is unchanged |
| Brain.Sanitize | agent/src/brain.ts:100-109 | each profile is repaired in place and in order: a null best price becomes Infinity, a null average 0, missing lists [] |
| Brain.SanitizeBrain | agent/src/brain.ts:100-109 | the repair loop over all suppliers yields exactly the pointwise repair |
| Brain.SanitizeRoundTrip | agent/src/brain.ts:97-109 | a brain written as JSON (Infinity becoming null) and repaired is the brain it was |
| Brain.Accept | agent/src/brain.ts:125-144 | a downloaded value is accepted iff it is an object with a truthy version, and then as its repair |
| Brain.InlineBrainLoads | agent/src/brain.ts:135-144 | a brain stored as an inline `json://` payload loads back unchanged |
| Brain.NativeBrainLoads | agent/src/brain.ts:125-134 | a brain stored as a `0g://` blob loads back unchanged |
| Brain.OtherSchemeFallsBack | agent/src/brain.ts:150-162 | with no URI or any other scheme the local file decides, else a fresh brain |
| Brain.UpdateProfile | agent/src/brain.ts:208-237 | the field-by-field profile updates compute the recorded profile |
| Brain.RecordSupplier | agent/src/brain.ts:189-239 | looking up or creating the profile, updating it and writing it back computes the recorded table; it throws exactly when the lowercased name finds an inherited member, whose `negotiations` is undefined |
| Brain.RecordOutcome | agent/src/brain.ts:182-251 | recording throws iff the lowercased name is no own key but "constructor" or "__proto__"; otherwise its table is the recorded one |
| Brain.UpdateTotals | agent/src/brain.ts:242-250 | the global statistics are one negotiation more and the savings mean over all records |
| Brain.BrainCache.constructor | agent/src/brain.ts:84 | the cache starts empty |
| Brain.BrainCache.GetBrain | agent/src/brain.ts:168-170 | the cached brain for the key, absent when none is cached |
| Brain.BrainCache.LoadBrain | agent/src/brain.ts:114-163 | a cached brain is returned without change to the cache; otherwise `0g://` then `json://`, then the local file, then a fresh brain, and the result is cached under the key |
| Brain.BrainCache.RecordNegotiation | agent/src/brain.ts:182-251 | starting from the cached or a fresh brain, the outcome is the recording's; on success the cache maps the agent's key to the recorded brain and no other key changes; when it throws the cache is unchanged |
| Brain.FindSupplier | agent/src/brain.ts:175-177 | a supplier's own profile is found iff the table has its lowercased name; an inherited member is found iff it has not and that name is "constructor" or "__proto__" |
| Brain.RecordThenFind | agent/src/brain.ts:175-177 | after a recording that succeeds, a spelling with the same lowercase finds the supplier's own profile, whose records are the earlier ones (none for a new supplier) followed by the new record |
| Brain.LowestCompetitor | agent/src/brain.ts:299-307 | none iff no other supplier has a finite positive best price; otherwise one competitor's best price, and no competitor is cheaper |
| Brain.ContextLines | agent/src/brain.ts:285-309 | no supplier lines unless the supplier's own profile is found, then two, or three when it has a last deal; plus one competitor line when there is a competitor price |
| Brain.ContextOwnLines | agent/src/brain.ts:287-293 | for a found supplier the first line shows its call count, the second its best price and willingness, and the third (when there is a last deal) that deal's price, item and date |
| Brain.ContextCompetitorLine | agent/src/brain.ts:296-309 | the last line is the competitor line iff there is a lowest competitor price, and it then shows that price to two decimals |
| Brain.BuildSupplierContext | agent/src/brain.ts:281-312 | it throws iff the name finds an inherited member (whose `bestPriceUsd.toFixed` is undefined); otherwise the competitor price is the lowest competitor's and the context is the context lines joined by newlines, so it contains each of them |
| Brain.NoCompetitorAlone | agent/src/brain.ts:299-309 | when every stored supplier has the caller's lowercased name there is no lowest competitor, and a context that is built has no competitor price |
| Extractor.FirstMatchSpec | agent/src/extractor.ts:96-109 | the search returns the match at the leftmost position where one starts, and none when no position matches |
| Extractor.PriceAt | agent/src/extractor.ts:97 | a price match starts exactly at a "$" followed by a digit |
| Extractor.RegexPrice | agent/src/extractor.ts:96-99 | a found price is the match at some "$" with no match before it; none means no position matches |
| Extractor.KeywordEnd | agent/src/extractor.ts:102 | a keyword match ends at least three characters after its start, within the text |
| Extractor.RegexMoq | agent/src/extractor.ts:101-104 | a found MOQ is the match at some keyword position with no match before it; none means no position matches |
| Extractor.LeadTimeAt | agent/src/extractor.ts:107 | a lead-time match starts at a digit |
| Extractor.RegexLeadTime | agent/src/extractor.ts:106-109 | a found lead time is the match at some digit with no match before it; none means no position matches |
| Extractor.NumOrMissing | agent/src/extractor.ts:83-94 | a regex fallback's number is a number field, its undefined an absent one |
| Extractor.Coalesce | agent/src/extractor.ts:59-61 | `??` keeps any present value, a string or a boolean included, and takes the right side only for an absent or null one |
| Extractor.NumberOf | agent/src/extractor.ts:73-74 | numeric coercion: a number is itself, a boolean 1 or 0, a string or an array/object what `Number` makes of its text, with NaN and the infinities as no number |
| Extractor.RegexExtract | agent/src/extractor.ts:83-94 | the partial quote holds the three scans' results as numbers, present exactly when each scan found one |
| Extractor.CleanResponse | agent/src/extractor.ts:51 | the cleaned reply holds no "```" |
| Extractor.NoTicksLeft | agent/src/extractor.ts:51 | the second replacement pass leaves no "```" |
| Extractor.FencedReply | agent/src/extractor.ts:51 | a body without backticks or padding, wrapped in a ```json fence, is cleaned to exactly that body |
| Extractor.EmptyReplyClean | agent/src/extractor.ts:46-51 | the empty reply (a failed completion) cleans to the empty text |
| Extractor.MathRound | agent/src/extractor.ts:73-74 | `Math.round` lies within half a unit of its argument |
| Extractor.MathRoundInt | agent/src/extractor.ts:73-74 | rounding an integral value gives it back |
| Extractor.RoundHalfAway | agent/src/extractor.ts:65 | `toFixed` rounding lies within half a unit, halves going away from zero |
| Extractor.ToWei | agent/src/extractor.ts:65 | a non-negative price has non-negative wei |
| Extractor.ToWeiCents | agent/src/extractor.ts:65 | a price in whole cents is exactly 10^13 wei per cent |
| Extractor.ModelFields | agent/src/extractor.ts:48-56 | an unparseable reply falls back to the regex scan; an object's fields are taken as given, whatever their JSON type; a non-object value has no fields |
| Extractor.PriceValue | agent/src/extractor.ts:59 | the price is the model's value when present, whatever its type, else the scan, else 5.0 |
| Extractor.MoqValue | agent/src/extractor.ts:60 | the MOQ is the model's value when present, whatever its type, else the scan, else 100 |
| Extractor.LeadTimeValue | agent/src/extractor.ts:61 | the lead time is the model's value when present, whatever its type, else the scan, else 14 |
| Extractor.ExtractQuote | agent/src/extractor.ts:30-77 | fails iff the cleaned reply parses to null, the settled price is not a number, or the settled MOQ or lead time coerces to no finite number; otherwise the label is the argument, the price is the settled number and its wei, moq and lead time are the rounded coercions, and validity is now + 7 days |
| Extractor.QuoteOf | agent/src/extractor.ts:58-77 | fails iff the price is not a number or the MOQ or lead time coerces to no finite number; otherwise the label is the argument, the price is the settled number, moq and lead time are rounded coercions, the wei is the converted price and validity is now + 7 days |
| Extractor.NumbersQuote | agent/src/extractor.ts:58-77 | settled fields that are three numbers give exactly the quote of those numbers: that price and its wei, MOQ and lead time rounded, valid for seven days |
| Extractor.UnparseableReply | agent/src/extractor.ts:53-61 | an unparseable reply always yields a quote, with the scan of the transcript for every field and the same defaults |
| Extractor.ScannedFields | agent/src/extractor.ts:83-109 | the scanned fields settle on numbers: each scan's result, else its default |
| Extractor.NumericReply | agent/src/extractor.ts:58-77 | a reply with three numbers yields exactly that price, its wei and the rounded MOQ and lead time |
| Extractor.NonNumberPriceThrows | agent/src/extractor.ts:59-65 | a present price that is a string, a boolean or an array/object is kept by `??` and makes `toFixed` throw |
| Extractor.TextMoqCoerced | agent/src/extractor.ts:60-73 | a text MOQ fails iff `Number` makes no finite number of it, and is otherwise rounded like a number |
| ExtractorSample.SamplePrice | agent/src/extractor.ts:96-99 | on "$4.80 per unit, MOQ 250, 10-day lead time" the price scan gives 4.80 |
| ExtractorSample.SampleMoq | agent/src/extractor.ts:101-104 | on the same answer the MOQ scan gives 250 |
| ExtractorSample.SampleLeadTime | agent/src/extractor.ts:106-109 | on the same answer the lead-time scan gives 10 |
| Caller.BuildWelcomeGreeting | agent/src/caller.ts:27-29 | the greeting starts with the fixed lead and names "<quantity> units of <item>." |
| Caller.FallbackDetails | agent/src/caller.ts:236-241 | the fallback session is for "procurement item", 1000 units, region "US", the URL's rfqId and no budget |
| Caller.Session.constructor | agent/src/caller.ts:73-80 | a session starts with its two seed turns, an empty transcript and its details |
| Caller.Session.Record | agent/src/caller.ts:255-274 | recording entries appends them to the transcript and their chat turns to the history, in order, keeping the two in step |
| Caller.SessionStore.constructor | agent/src/caller.ts:7-11 | the registry starts empty |
| Caller.SessionStore.InitiateCall | agent/src/caller.ts:44-83 | a failed call creation registers nothing; otherwise the call id is returned and registered with [system prompt, greeting] and an empty transcript |
| Caller.SessionStore.Register | agent/src/caller.ts:73-80 | a fresh seeded session is stored under the call id and nothing else changes |
| Caller.SessionStore.GetAgentTranscript | agent/src/caller.ts:114-116 | the session's transcript, [] for an unknown call id |
| Caller.SessionStore.ClearSession | agent/src/caller.ts:121-123 | only that call id is removed, and its transcript is then [] |
| Caller.WaitForCall | agent/src/caller.ts:89-109 | the polling loop returns the outcome of the fetches: a terminal status, "timeout", or an error when a fetch rejects |
| Caller.WaitOutcomeTerminal | agent/src/caller.ts:97-108 | a successful outcome is a terminal status (completed, failed, no-answer, canceled) or "timeout", never another status |
| Caller.WaitOutcomeFirst | agent/src/caller.ts:97-103 | a terminal status seen before the deadline, after only non-terminal ones, is what is returned |
| Caller.WaitFails | agent/src/caller.ts:97-98 | the wait rejects exactly when a fetch before the deadline rejects after only non-terminal statuses |
| Caller.FormParams | agent/src/caller.ts:139-145 | the parse fails iff some pair throws a `URIError`; a successful parse never stores "__proto__" |
| Caller.ParseForm | agent/src/caller.ts:139-146 | the loop over the "&"-separated pairs builds exactly the parameter map of those pairs, or stops with the `URIError` of the first malformed escape |
| Caller.FormParamsAppend | agent/src/caller.ts:141-144 | a skipped pair (empty key, or key "__proto__") changes nothing, a pair that throws fails the parse, and any other pair overwrites its key |
| Caller.FormPairValue | agent/src/caller.ts:142-143 | `k=v` and `k=v=w` both throw when either half has a malformed escape, are skipped when the key decodes to "__proto__", and otherwise give the decoded key and value; the text after a second "=" is dropped |
| Caller.FormPairEdges | agent/src/caller.ts:142-143 | a pair without "=" acts as the same key with "=" and an empty value; a pair with an empty key is skipped |
| Caller.ClosingLineEndsCall | agent/src/caller.ts:277-283 | a reply that says the prompt's closing line anywhere ends the call |
| Caller.LowerClosingHead | agent/src/caller.ts:280 | the closing line's head, lowercased, is the detector's phrase |
| Caller.Exchange | agent/src/caller.ts:255-275 | one prompt adds the supplier's untrimmed words, then the agent's trimmed reply only when it is not blank |
| Caller.ExchangeTurns | agent/src/caller.ts:255-274 | an exchange goes to the model as a user turn, then an assistant turn for a non-blank reply |
| Caller.Respond | agent/src/caller.ts:255-283 | the transcript gains the exchange and the history exactly its turns; the frames are every token in order and an end frame iff the reply ends the call; the session stays valid |
| Caller.AgentConnection.constructor | agent/src/caller.ts:199-200 | the connection starts under "agent-<now>", bound to whatever session that id has |
| Caller.AgentConnection.OnSetup | agent/src/caller.ts:218-246 | the call id is rebound (kept when absent); an existing session is left untouched, else the fallback session is registered; the connection is bound to it |
| Caller.AgentConnection.OnPrompt | agent/src/caller.ts:253-283 | the bound session's transcript gains the exchange and its history exactly the matching turns; the frames written to the socket are the reply's tokens, then an end frame when the reply ends the call; every registered session stays valid |
| Caller.AgentConnection.OnPromptEvent | agent/src/caller.ts:249-285 | a missing or blank utterance, or one before a session is bound, changes nothing and writes nothing; any other one is handled as OnPrompt states |
| Caller.AgentConnection.OnClose | agent/src/caller.ts:287-291 | the socket is closed and the session stays registered |
| Caller.AgentConnection.OnMessage | agent/src/caller.ts:204-292 | unparseable and other messages, a blank prompt and one before setup change nothing and write nothing; setup binds the call id and session as OnSetup states, changing neither the session bound before nor an already registered one it binds; an accepted prompt changes the transcript and history and writes the frames as OnPrompt states; close only closes the socket |
| Caller.TurnOf | agent/src/caller.ts:255-274 | supplier speech is a user turn, the agent's an assistant turn, with the same text |
| Caller.TurnsOf | agent/src/caller.ts:255-274 | a run of entries becomes the same number of turns, entry for entry |
| Caller.TurnRoles | agent/src/caller.ts:255-274 | in a valid session each transcript entry is the turn after the two seed turns, with supplier speech as the user |
| Llm.Forwarded | agent/src/llm.ts:44-51 | at most one callback per chunk |
| Llm.StreamCompletion | agent/src/llm.ts:28-61 | the loop issues exactly the specified callbacks and returns the specified text |
| Llm.ForwardedOne | agent/src/llm.ts:45-49 | a chunk is forwarded iff its token is non-empty, with last = finish reason present |
| Llm.ForwardedAppend | agent/src/llm.ts:44-51 | forwarding keeps chunk order |
| Llm.ForwardedNonEmpty | agent/src/llm.ts:46 | no empty token is forwarded |
| Llm.ForwardedTokens | agent/src/llm.ts:45-47 | the forwarded tokens concatenate to the whole reply |
| Llm.FinalCallbackIsLast | agent/src/llm.ts:52-56 | the final callback always has last = true |
| Llm.SuccessTextIsTokens | agent/src/llm.ts:47-60 | after a normal end the returned text is the concatenation of all callback tokens |
| Llm.FailureText | agent/src/llm.ts:53-58 | after a failure the placeholder alone is returned, while a listener has the partial reply then the placeholder |
| Llm.LastTwice | agent/src/llm.ts:48-52 | a final chunk with a finish reason is followed by ("", true): last = true twice |
| Llm.ChatCompletion | agent/src/llm.ts:66-81 | the content, or "" when it is absent or the request failed |
| Llm.BuildBuyerSystemPrompt | agent/src/llm.ts:86-111 | the prompt contains the item, quantity, region and budget lines (budget defaulting to "flexible, prefer best value") and ends with the closing line |
| AgentTranscript.Lines | agent/src/transcript.ts:4-8 | one line per entry, in order |
| AgentTranscript.SpeakerTags | agent/src/transcript.ts:7 | the speaker tags print as AGENT and SUPPLIER |
| AgentTranscript.EmptyTranscript | agent/src/transcript.ts:3-10 | no entries give "" |
| AgentTranscript.FormatAppend | agent/src/transcript.ts:4-9 | appending an entry appends its line after one newline, without a trailing newline |
| AgentTranscript.OneLinePerEntry | agent/src/transcript.ts:3-10 | when no line holds a newline, splitting the output on "\n" gives back exactly the lines |
| SupplierTranscript.TranscriptStore.constructor | suppliers/src/transcript.ts:8 | the store starts empty |
| SupplierTranscript.TranscriptStore.GetTranscript | suppliers/src/transcript.ts:17-19 | [] for an unknown call id |
| SupplierTranscript.TranscriptStore.AppendEntry | suppliers/src/transcript.ts:10-15 | the call id's list, created empty if new, gains the entry at its end; other ids are unchanged |
| SupplierTranscript.TranscriptStore.DeleteTranscript | suppliers/src/transcript.ts:21-23 | only that id is removed, and its transcript is then [] |
| SupplierTranscript.SameAsAgentFormatter | suppliers/src/transcript.ts:25-29 | the supplier formatter prints the same text as the agent's for the same entries |
| SupplierLlm.StreamCompletion | suppliers/src/llm.ts:39-74 | the loop issues the same callbacks and returns the same text as the agent's protocol, `chunks` being the forwarded tokens |
| Relay.TextFrames | agent/src/caller.ts:263-266 | one text frame per callback, in order, with its token and last flag |
| SupplierServer.StripScheme | suppliers/src/index.ts:28 | one leading "https://" or "http://" is removed, and the text changes iff it has one |
| SupplierServer.WsUrlOfHost | suppliers/src/index.ts:12-28 | an https URL with or without a trailing slash, or an http URL, gives "wss://<host>/ws/<id>" |
| SupplierServer.WsUrlUnset | suppliers/src/index.ts:12-28 | without NGROK_URL the host is empty |
| SupplierServer.TranscriptRoute | suppliers/src/index.ts:53-59 | 404 iff the stored list is empty, else the entries |
| SupplierServer.UnknownCallNotFound | suppliers/src/index.ts:53-59 | an id never appended answers 404 |
| SupplierServer.Exchange | suppliers/src/index.ts:97-122 | one prompt records the agent's words, then the trimmed reply as the supplier's only when not blank |
| SupplierServer.Turns | suppliers/src/index.ts:103-121 | one prompt adds a user turn, then the trimmed reply as the assistant's only when not blank |
| SupplierServer.TurnsMatchExchange | suppliers/src/index.ts:97-122 | history and transcript gain matching turns, the agent being the user |
| SupplierServer.SupplierConnection.constructor | suppliers/src/index.ts:70-73 | a connection starts with the persona prompt only, under "unknown-<now>" |
| SupplierServer.SupplierConnection.OnSetup | suppliers/src/index.ts:85-90 | setup only rebinds the call id |
| SupplierServer.SupplierConnection.Hear | suppliers/src/index.ts:96-103 | the agent line is stored under the call id before the history gains it as a user turn |
| SupplierServer.SupplierConnection.Speak | suppliers/src/index.ts:114-122 | a trimmed, non-blank reply is appended to this call's transcript as the supplier's line and pushed as an assistant turn, keeping the dialogue valid; other call ids keep their transcripts |
| SupplierServer.SupplierConnection.Answer | suppliers/src/index.ts:114-122 | a non-blank reply is stored trimmed as the supplier line and as the assistant turn; a blank one changes neither |
| SupplierServer.SupplierConnection.Reply | suppliers/src/index.ts:105-122 | every streamed token is sent as a frame in order, and the reply recorded is the concatenation of those tokens |
| SupplierServer.SupplierConnection.OnPrompt | suppliers/src/index.ts:92-124 | the agent entry is stored before the model is asked; the history gains the turns, the frames are sent, the transcript gains the exchange; other ids are unchanged |
| SupplierServer.SupplierConnection.OnClose | suppliers/src/index.ts:131-136 | the socket is closed and the transcript stays stored |
| SupplierServer.SupplierConnection.OnMessage | suppliers/src/index.ts:75-137 | unparseable, interrupt and other messages and blank prompts change nothing, the call id and the closed flag included; setup only rebinds the call id; close only closes; a prompt before setup is recorded under the placeholder id |
| SupplierServer.NoReplyTwice | suppliers/src/index.ts:103-121 | in a connection's history every assistant turn follows a user turn and is trimmed and non-empty |
| SupplierServer.OnlyFirstIsSystem | suppliers/src/index.ts:70-103 | only the first turn is the system prompt and no user turn is blank |
| Storage.InlineFallback | agent/src/storage.ts:37-41 | the fallback URI is "json://" + base64 of the JSON, with its keccak digest as root hash and no transaction |
| Storage.InlineFallbackChecked | agent/src/storage.ts:37-41 | the inline fallback's payload decodes back to exactly the uploaded JSON |
| Storage.UploadJSON | agent/src/storage.ts:30-62 | without SDK or signer, or on a returned or thrown upload error, the inline fallback whose payload decodes to the JSON; after a successful upload "0g://" + root hash and the transaction hash |
| Storage.DownloadJSON | agent/src/storage.ts:68-91 | null without the SDK or on failure; otherwise the parsed content, null when it does not parse |
| Storage.With0x | agent/src/orchestrator.ts:130-132 | the hash gets a "0x" prefix only when it lacks one |
| Storage.With0xIdempotent | agent/src/orchestrator.ts:130-132 | prefixing twice is prefixing once |
| Base64.Encode | agent/src/storage.ts:39 | four characters per three bytes, rounded up |
| Base64.RoundTrip | agent/src/storage.ts:39 | decoding the encoding gives back exactly the bytes |
| Base64.EncodeAlphabet | agent/src/storage.ts:39 | the encoding uses only the alphabet and at most two trailing "=" |
| Base64.DecodeEncodeChar | agent/src/storage.ts:39 | each alphabet character decodes back to its value |
| Config.Required | agent/src/config.ts:6-10 | fails iff the variable is undefined or empty, else its value |
| Config.Optional | agent/src/config.ts:12-14 | the fallback only for an undefined variable; an empty value is kept |
| Config.ParseIntOfNatToString | agent/src/config.ts:43 | `parseInt` of a rendered natural number gives it back |
| Config.DefaultPort | agent/src/config.ts:43 | the default port text parses to 3001 |
| Config.LoadConfig | agent/src/config.ts:16-44 | fails iff PRIVATE_KEY is missing or empty, else keeps its value; each of the fourteen optional fields is its variable's value when defined (even empty) and otherwise its own default (the RPC and indexer URLs, "" for the addresses, Twilio credentials and URLs, the supplier number, the 0G compute URL, "no-key-needed", the model name); the port is `parseInt` of AGENT_PORT when defined and 3001 otherwise |
| Config.StripTrailingSlash | agent/src/config.ts:48 | at most one trailing "/" is removed, and the text changes iff it ends in "/" |
| Config.StripOnlyOne | agent/src/config.ts:48 | a URL ending in "//" still ends in "/" |
| Config.GetAgentPublicUrl | agent/src/config.ts:47-49 | AGENT_PUBLIC_URL when non-empty, else NGROK_URL, without one trailing "/" |
| Wrappers.OrElse | agent/src/extractor.ts:59-61 | `a ?? b`: the first when present, else the second |
| Orchestrator.UnresolvedFallsBack | agent/src/orchestrator.ts:24-57 | an unknown scheme, a non-object `0g://` download, an undecodable or unparseable or null `json://` payload all give "general procurement item", 1000, "US" |
| Orchestrator.LocalUriFallsBack | agent/src/orchestrator.ts:53-57 | a `local://` URI gives the same fallback |
| Orchestrator.InlinePayloadResolves | agent/src/orchestrator.ts:38-47 | an inline object payload gives its fields with "item" / 1000 / "US" for missing ones and a budget only when truthy |
| Orchestrator.NativePayloadResolves | agent/src/orchestrator.ts:24-35 | a `0g://` object payload resolves the same way |
| Orchestrator.InlineScalarDefaults | agent/src/orchestrator.ts:41-47 | an inline number, string or boolean gives all three field defaults |
| Orchestrator.EveryEventIgnored | agent/src/orchestrator.ts:162-165 | as written (no configured id) every RFQ event is ignored |
| Orchestrator.ConfiguredIdFilters | agent/src/orchestrator.ts:162-165 | with a configured id, exactly that agent's events are handled |
| Orchestrator.CallDetails | agent/src/orchestrator.ts:82-88 | the call gets the decimal RFQ id and the parsed item, quantity, region and budget |
| Orchestrator.StartRFQ | agent/src/orchestrator.ts:70-96 | with no RFQ record or a failed call creation nothing is registered and no call id returned; otherwise the returned id has a session seeded with the parsed details |
| Orchestrator.Packet | agent/src/orchestrator.ts:116-126 | the packet carries the fixed label, the agent transcript and the extracted price |
| Orchestrator.FinishRFQ | agent/src/orchestrator.ts:99-151 | a rejected wait commits nothing and leaves the session registered; a failed extraction (a null reply, a price that is not a number, a non-numeric MOQ or lead time) commits nothing and leaves the session registered; otherwise the commit carries the "0x" root hash and URI of the uploaded packet and the quote fields, and only that session is cleared |
| Orchestrator.CommitFacts | agent/src/orchestrator.ts:130-145 | the committed label is "Supplier", the hash starts with "0x" and the wei is the converted price |
| QuoteCard.WeiToUsd | ui/components/QuoteCard.tsx:26-29 | the price is non-negative and times 10^15 gives back the wei |
| QuoteCard.Fixed2Shape | ui/components/QuoteCard.tsx:28 | the rendering is digits, a point and exactly two digits |
| QuoteCard.Fixed2Cents | ui/components/QuoteCard.tsx:28 | an amount in whole cents renders as those cents |
| QuoteCard.MicroRoundTrip | ui/components/QuoteCard.tsx:21-27 | a price with at most six decimals survives conversion to wei and back exactly |
| QuoteCard.CentsShown | ui/components/QuoteCard.tsx:21-28 | a price in whole cents is shown as exactly that price |
| QuoteCard.ToWeiNearest | ui/components/QuoteCard.tsx:21-27 | any non-negative price comes back within half a micro-dollar |
| QuoteCard.WeiToUsdMonotone | ui/components/QuoteCard.tsx:26-29 | more wei is never a lower price nor fewer cents shown |
| QuoteCard.StorageLabel | ui/components/QuoteCard.tsx:72 | "local" iff the URI starts with "local://", else "view" |
| QuoteCard.ExplorerOfUpload | ui/components/QuoteCard.tsx:67 | an uploaded quote's URI links to its root hash |
| QuoteCard.ExplorerOfInline | ui/components/QuoteCard.tsx:67 | an inline quote's URI holds no "0g://" and is linked unchanged |
| Text.TrimEdges | agent/src/caller.ts:268-274 | a trimmed reply neither starts nor ends with whitespace |
| Text.BlankIffAllSpace | agent/src/caller.ts:252 | a prompt is blank iff it is all whitespace |

## Left out

- Interactions with outside systems are left out; their results are parameters:
  - Twilio call creation and status fetches (a rejected fetch is a `None` status);
  - the Fastify and websocket servers;
  - the language-model client;
  - the 0G SDK;
  - the ethers contracts;
  - `fs` reads and writes.
  `getClient`, `getTwilio`, `startAgentServer`'s listening and the servers' start-up are I/O only.
- The `/agent-twiml`, `/call-status` and `/health` routes, and the XML text of `buildTwiML`:
  only the URL written into the TwiML is modelled. Building the agent's own TwiML URL needs
  `URLSearchParams` and `encodeURIComponent`, which are not modelled.
- Concurrency: `handleRFQ` runs detached and many calls may interleave. The model processes one
  request at a time.
- SupplierServer.SupplierConnection.OnMessage, Caller.AgentConnection.OnMessage and
  SupplierServer.NoReplyTwice: each websocket message is modelled as handled to completion before
  the next one. Both services register an `async` message handler and nothing serialises its
  calls, so a prompt that arrives while a reply is still streaming runs at once. The supplier
  history can then become [system, user 1, user 2, assistant 1, assistant 2], which breaks the
  `Dialogue` invariant that NoReplyTwice and OnlyFirstIsSystem read; the agent's transcript can
  interleave the same way. The model does not capture such interleavings.
- Caller.AgentConnection.OnMessage: the frames one message writes to the socket are its result.
  The connection keeps no log of everything sent over the call.
- Brain.PutShape: the supplier table is kept in insertion order. JavaScript orders integer-like
  keys (a supplier named "42") first, in ascending numeric order, ahead of the other keys. That
  order is not modelled. It changes only the order of `Object.values` (agent/src/brain.ts:243
  and :299, where only a count, a mean and a minimum are taken) and of the keys in the written
  JSON.
- Orchestrator.StartRFQ and Orchestrator.FinishRFQ split `handleRFQ` at `waitForCall`: the
  websocket events that fill the transcript happen between the two. What `waitForCall` gave is
  FinishRFQ's `polled`: a rejected status fetch makes `handleRFQ` reject there, so nothing is
  committed and the session stays registered; a status is only logged. `getRFQ` throwing is
  `rfqDataURI == None`.
- Orchestrator.FinishRFQ: the outcome of `commitQuote` is only logged, and the model ignores it.
  `persistBrain` (upload plus `setBrainBundle`), `saveLocal`, `loadLocal`'s file read and
  `getContractTag` are I/O; the file contents are the parameter `local`.
- Brain.BrainCache.RecordNegotiation: the model stops once the brain is cached. JavaScript
  object identity (brains shared by reference with callers of `getBrain`) is not modelled;
  brains are values.
- Brain.RecordOutcome: when a supplier name lowercases to "constructor" or "__proto__" and no own
  entry has it, the source writes `totalCalls` (NaN), `lastContactedAt` and `phone` onto the
  built-in `Object` or `Object.prototype` before it throws. The model has the error only; those
  writes to the built-ins are not modelled.
- Caller.ParseForm: a thrown `URIError` is the error outcome. The response Fastify then sends is
  not modelled.
- Brain.Accept: a raw brain's `version` stands for any truthy or falsy value as a number.
  Non-object JSON in the local file and non-number fields other than the two repaired ones are
  not modelled.
- Brain.DownRatio: the contract does not bound the ratio to [0, 1], since that needs nonlinear
  real arithmetic; the willingness bands are proved on the ratio as computed.
- Extractor.NumberOf: `Number(string)` is a parameter; the model does not spell out JavaScript's
  string-to-number grammar.
- Floating point: prices are exact reals. `toFixed` is exact rounding for QuoteCard.Fixed2 and
  Extractor.ToWei. For the brain's one- and two-decimal renderings it is a parameter.
  `Number(wei)` has no precision loss, and JSON numbers are reals.
- QuoteCard.WeiToUsd: `Number(wei) / 1e15` is exact division, not IEEE division.
- Case mapping (`toLowerCase`, `toUpperCase`, the `i` regex flag) is modelled on ASCII letters
  only. Base64 decoding is strict padded RFC 4648; Node's lenient decoder (which skips foreign
  characters) is not modelled. UTF-8 conversion is folded into `JSON.stringify`/`JSON.parse`.
- Each `Date.now()` is a separate clock parameter where the source reads it; the paired
  readings in one `recordNegotiation` call are one reading `now`.
- suppliers/src/personas.ts is not part of this model; a persona is a parameter.
- ExtractorSample: the sample answer is written as a concatenation of short pieces, which
  spells the same string.

## Findings

| source | as written | input that shows it | evidently intended | confidence | as-written member | corrected member |
|---|---|---|---|---|---|---|
| agent/src/orchestrator.ts:162-165 | the listener compares `agentId` with `config.agentTokenId`, a field the configuration object (agent/src/config.ts:16-44) does not define, so the comparison is with `undefined` and always unequal | any RFQCreated event, e.g. agentId = 1 | handle exactly the events whose agentId is the configured token id | not executed | Orchestrator.EveryEventIgnored | Orchestrator.ConfiguredIdFilters |
