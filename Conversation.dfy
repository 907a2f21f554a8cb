/**
 * The values exchanged during a call: chat turns sent to the language model and the
 * timestamped transcript entries both services record.
 */
module Conversation {

  datatype Role = System | User | Assistant

  /** One chat-completion turn, `{ role, content }`. */
  datatype Message = Message(role: Role, content: string)

  datatype Speaker = Agent | Supplier {
    /** The speaker tag as stored: "agent" or "supplier". */
    function Name(): (r: string) {
      match this
      case Agent => "agent"
      case Supplier => "supplier"
    }
  }

  /** `{ speaker, text, timestamp }` with the timestamp in milliseconds since the epoch. */
  datatype TranscriptEntry = TranscriptEntry(speaker: Speaker, text: string, timestamp: int)
}
