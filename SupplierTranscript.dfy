/** The supplier simulator's transcript store and formatter. */
module SupplierTranscript {
  import opened Text
  import opened Conversation
  import AgentTranscript

  /** The in-memory store keyed by call id; each list is extended in place. */
  class TranscriptStore {
    var store: map<string, seq<TranscriptEntry>>

    constructor ()
      ensures store == map[]
    {
      store := map[];
    }

    /** `getTranscript`: the recorded entries, or none for an unknown call id. */
    function GetTranscript(callSid: string): (es: seq<TranscriptEntry>)
      reads this
      ensures callSid !in store ==> es == []
    {
      if callSid in store then store[callSid] else []
    }

    /** `appendEntry`: creates the list on first use, then appends at the end. */
    method AppendEntry(callSid: string, entry: TranscriptEntry)
      modifies this
      ensures store == old(store)[callSid := old(GetTranscript(callSid)) + [entry]]
    {
      if callSid !in store {
        store := store[callSid := []];
      }
      store := store[callSid := store[callSid] + [entry]];
    }

    /** `deleteTranscript`: removes that call id only. */
    method DeleteTranscript(callSid: string)
      modifies this
      ensures store == old(store) - {callSid}
      ensures GetTranscript(callSid) == []
    {
      store := store - {callSid};
    }
  }

  function Line(e: TranscriptEntry, iso: int -> string): (line: string) {
    "[" + iso(e.timestamp) + "] " + Upper(e.speaker.Name()) + ": " + e.text
  }

  /** `entries.map(line).join("\n")`, written separately in the supplier service. */
  function FormatTranscript(entries: seq<TranscriptEntry>, iso: int -> string): (text: string) {
    Join(seq(|entries|, i requires 0 <= i < |entries| => Line(entries[i], iso)), "\n")
  }

  /** Both services print the same text for the same entries. */
  lemma SameAsAgentFormatter(entries: seq<TranscriptEntry>, iso: int -> string)
    ensures FormatTranscript(entries, iso) == AgentTranscript.FormatTranscript(entries, iso)
  {
    assert seq(|entries|, i requires 0 <= i < |entries| => Line(entries[i], iso))
        == AgentTranscript.Lines(entries, iso);
  }
}
