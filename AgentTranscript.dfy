/** The buyer agent's transcript formatter. */
module AgentTranscript {
  import opened Text
  import opened Conversation

  /** `[<iso timestamp>] <SPEAKER>: <text>`; `iso` stands for `new Date(t).toISOString()`. */
  function Line(e: TranscriptEntry, iso: int -> string): (line: string) {
    "[" + iso(e.timestamp) + "] " + Upper(e.speaker.Name()) + ": " + e.text
  }

  function Lines(entries: seq<TranscriptEntry>, iso: int -> string): (ls: seq<string>)
    ensures |ls| == |entries|
    ensures forall i :: 0 <= i < |entries| ==> ls[i] == Line(entries[i], iso)
  {
    seq(|entries|, i requires 0 <= i < |entries| => Line(entries[i], iso))
  }

  /** `entries.map(line).join("\n")`. */
  function FormatTranscript(entries: seq<TranscriptEntry>, iso: int -> string): (text: string) {
    Join(Lines(entries, iso), "\n")
  }

  /** The speaker tag is printed in capitals. */
  lemma SpeakerTags()
    ensures Upper(Agent.Name()) == "AGENT" && Upper(Supplier.Name()) == "SUPPLIER"
  {
  }

  /** No entry, no text. */
  lemma EmptyTranscript(iso: int -> string)
    ensures FormatTranscript([], iso) == ""
  {
  }

  /**
   * Appending an entry appends one line after a newline (no trailing newline), so entry
   * order is preserved.
   */
  lemma {:induction false} FormatAppend(entries: seq<TranscriptEntry>, e: TranscriptEntry, iso: int -> string)
    ensures FormatTranscript(entries + [e], iso)
         == if entries == [] then Line(e, iso) else FormatTranscript(entries, iso) + "\n" + Line(e, iso)
  {
    var ls := Lines(entries + [e], iso);
    assert ls[..|ls| - 1] == Lines(entries, iso);
  }

  /**
   * When no timestamp rendering and no text holds a newline, splitting the output on "\n"
   * gives back exactly one line per entry, in order.
   */
  lemma OneLinePerEntry(entries: seq<TranscriptEntry>, iso: int -> string)
    requires entries != []
    requires forall i :: 0 <= i < |entries| ==> '\n' !in Line(entries[i], iso)
    ensures Split(FormatTranscript(entries, iso), '\n') == Lines(entries, iso)
  {
    JoinSplit(Lines(entries, iso), '\n');
  }
}
