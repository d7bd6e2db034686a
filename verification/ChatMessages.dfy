/** Chat Completions request messages (types.go), as far as the bridges read them. */
module ChatMessages {
  import opened Common
  import opened ChatChunks

  datatype Part = TextPart(text: string) | ImagePart(url: string)

  /** Message content: no content at all, a string, or an array of parts. */
  datatype Content = Absent | Str(text: string) | Parts(parts: seq<Part>)

  datatype Message = Message(role: string, content: Content, reasoning: string, calls: seq<ToolCall>, callId: string)

  const SYSTEM := "system"
  const USER := "user"
  const ASSISTANT := "assistant"
  const TOOL := "tool"

  function TextsOf(ps: seq<Part>): seq<string> {
    if ps == [] then []
    else TextsOf(Init(ps)) + (if Last(ps).TextPart? && Last(ps).text != "" then [Last(ps).text] else [])
  }

  /** chatMessageContentText */
  function ContentText(c: Content): string {
    match c
    case Absent => ""
    case Str(text) => text
    case Parts(ps) => Join(TextsOf(ps), "\n\n")
  }

  function Plain(role: string, text: string): Message {
    Message(role, Str(text), "", [], "")
  }

  /** A tool message that answers a call by its id. */
  predicate IsReply(m: Message) {
    m.role == TOOL && m.callId != ""
  }

  /** A message that makes tool calls. */
  predicate Calling(m: Message) {
    m.role != TOOL && m.calls != []
  }
}
