/**
 * The entities of the chat client: visible messages and conversations, the
 * suggestion prompts, and the raw role/content entries exchanged with the
 * completion service.
 */
module Types {

  datatype Option<+T> = None | Some(value: T)

  /** Conversation and message ids come from `Date.now().toString()`, a
      non-empty string of digits; the model only relies on their being
      non-empty (which makes JavaScript's truthiness test on an id the same
      as a null test). */
  type Id = s: string | s != "" witness "0"

  /** A `Date`, as milliseconds since the epoch. */
  type Timestamp = int

  datatype Sender = User | Bot

  datatype Message = Message(id: Id, content: string, sender: Sender, timestamp: Timestamp)

  datatype Conversation = Conversation(id: Id, title: string, messages: seq<Message>, createdAt: Timestamp)

  datatype SuggestionPrompt = SuggestionPrompt(id: string, text: string)

  /** The content of a transcript entry: a plain string, or a structured
      record whose fields other than `output` are only carried along. */
  datatype Content =
    | Text(text: string)
    | Structured(kind: string, output: Option<string>, functionName: Option<string>, args: Option<string>)

  /** One role/content entry of the transcript (the `ChatState` interface). */
  datatype ChatState = ChatState(role: string, content: Content)

  type Transcript = seq<ChatState>

  /** What a local-storage key yields once parsed: nothing (absent or the
      empty string), a value that does not parse into the expected shape, or
      the parsed value. */
  datatype Stored<T> = Missing | Malformed | Present(value: T)
}
