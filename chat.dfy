/**
 * The chat session of the visible conversation: the send step with its
 * optimistic update, the per-conversation transcript store, the staleness
 * guard on responses, the extraction of the bot's visible text from the
 * returned transcript, and the rotation of suggestion sets.
 */
module Chat {
  import opened Types
  import opened Registry

  /** The longest title taken from a first message. */
  const TitleLength: nat := 30

  const DefaultSuggestions: seq<SuggestionPrompt> := [
    SuggestionPrompt("1", "How can I connect with Prashant Rewar"),
    SuggestionPrompt("2", "Tell me something about his top projects"),
    SuggestionPrompt("3", "Explain a Random Project")
  ]

  const FollowUpSuggestions: seq<SuggestionPrompt> := [
    SuggestionPrompt("1", "Can you explain that differently?"),
    SuggestionPrompt("2", "Does Prashant Rewar have any prior experience in web-scraping?"),
    SuggestionPrompt("3", "Tell me more details about it?")
  ]

  const OpinionSuggestions: seq<SuggestionPrompt> := [
    SuggestionPrompt("4", "Whats your opinion on this?"),
    SuggestionPrompt("5", "How does he made you?"),
    SuggestionPrompt("6", "What else can you tell me?")
  ]

  /** The two JSON library calls the reconciler makes, supplied from outside:
      `outputOf(s)` is the `output` field of `JSON.parse(s)`, or `None` when
      the string does not parse or the result has no such field;
      `stringify` is `JSON.stringify` on structured content. */
  datatype Json = Json(outputOf: string -> Option<string>, stringify: Content -> string)

  // ---------------------------------------------------------------------
  // Whitespace and `trim`

  /** The code points `String.prototype.trim` removes: white space and line
      terminators. */
  predicate IsWhitespace(c: char)
  {
    var n := c as int;
    n == 0x09 || n == 0x0A || n == 0x0B || n == 0x0C || n == 0x0D || n == 0x20 ||
    n == 0xA0 || n == 0x1680 || 0x2000 <= n <= 0x200A || n == 0x2028 || n == 0x2029 ||
    n == 0x202F || n == 0x205F || n == 0x3000 || n == 0xFEFF
  }

  predicate Blank(s: string)
  {
    forall i :: 0 <= i < |s| ==> IsWhitespace(s[i])
  }

  /** Drop leading white space. */
  function TrimStart(s: string): (r: string)
    ensures |r| <= |s| && r == s[|s| - |r|..]
    ensures forall i :: 0 <= i < |s| - |r| ==> IsWhitespace(s[i])
    ensures r != "" ==> !IsWhitespace(r[0])
  {
    if s != "" && IsWhitespace(s[0]) then
      var r := TrimStart(s[1..]);
      assert forall i :: 1 <= i < |s| ==> s[i] == s[1..][i - 1];
      r
    else s
  }

  /** Drop trailing white space. */
  function TrimEnd(s: string): (r: string)
    ensures |r| <= |s| && r == s[..|r|]
    ensures forall i :: |r| <= i < |s| ==> IsWhitespace(s[i])
    ensures r != "" ==> !IsWhitespace(r[|r| - 1])
  {
    if s != "" && IsWhitespace(s[|s| - 1]) then TrimEnd(s[..|s| - 1]) else s
  }

  function Trim(s: string): string
  {
    TrimEnd(TrimStart(s))
  }

  /** `trim` yields the empty string exactly for strings made only of white
      space (the empty string included). */
  lemma TrimEmptyIffBlank(s: string)
    ensures Trim(s) == "" <==> Blank(s)
  {
  }

  // ---------------------------------------------------------------------
  // The send step

  function UserMessage(id: Id, content: string, now: Timestamp): Message
  {
    Message(id, content, User, now)
  }

  /** The optimistic update of a send: the user message is appended, and a
      first message also names the conversation after its first 30
      characters. */
  function SentConversation(c: Conversation, m: Message): (r: Conversation)
    ensures r.id == c.id && r.createdAt == c.createdAt
    ensures r.messages == c.messages + [m]
    ensures c.messages == [] ==>
      r.title <= m.content &&
      |r.title| == (if |m.content| < TitleLength then |m.content| else TitleLength)
    ensures c.messages != [] ==> r.title == c.title
  {
    var messages := c.messages + [m];
    var title := if |messages| == 1 then m.content[..if |m.content| < TitleLength then |m.content| else TitleLength]
                 else c.title;
    c.(messages := messages, title := title)
  }

  /** The transcript posted to the completion service (`msgss`). */
  function Request(chatState: Transcript, content: string): (r: Transcript)
    ensures |r| == |chatState| + 1 && r[..|chatState|] == chatState
    ensures r[|chatState|] == ChatState("user", Text(content))
  {
    chatState + [ChatState("user", Text(content))]
  }

  // ---------------------------------------------------------------------
  // The reconciler

  predicate AssistantLast(t: Transcript)
  {
    t != [] && t[|t| - 1].role == "assistant"
  }

  /** JavaScript truthiness of an optional string. */
  predicate Truthy(o: Option<string>)
  {
    o.Some? && o.value != ""
  }

  /** The visible text of a transcript entry's content. */
  function BotText(content: Content, json: Json): (r: string)
    ensures content.Text? && Truthy(json.outputOf(content.text)) ==> r == json.outputOf(content.text).value
    ensures content.Text? && !Truthy(json.outputOf(content.text)) ==> r == content.text
    ensures content.Structured? && Truthy(content.output) ==> r == content.output.value
    ensures content.Structured? && !Truthy(content.output) ==> r == json.stringify(content)
  {
    match content
    case Text(s) =>
      var parsed := json.outputOf(s);
      if Truthy(parsed) then parsed.value else s
    case Structured(_, output, _, _) =>
      if Truthy(output) then output.value else json.stringify(content)
  }

  function BotMessage(t: Transcript, botId: Id, now: Timestamp, json: Json): Message
    requires AssistantLast(t)
  {
    Message(botId, BotText(t[|t| - 1].content, json), Bot, now)
  }

  /** The reply step: when the returned transcript ends with an assistant
      turn, one bot message carrying its visible text follows the messages of
      the conversation as the send left it; otherwise there is no reply. */
  function Reply(sent: Conversation, t: Transcript, botId: Id, now: Timestamp, json: Json): (r: Option<Conversation>)
    ensures r.None? <==> t == [] || t[|t| - 1].role != "assistant"
    ensures r.Some? ==>
      && r.value.id == sent.id && r.value.title == sent.title && r.value.createdAt == sent.createdAt
      && |r.value.messages| == |sent.messages| + 1
      && r.value.messages[..|sent.messages|] == sent.messages
      && r.value.messages[|sent.messages|] == Message(botId, BotText(t[|t| - 1].content, json), Bot, now)
  {
    if AssistantLast(t) then Some(sent.(messages := sent.messages + [BotMessage(t, botId, now, json)]))
    else None
  }

  /** The reply step as the source writes it: the bot message is added to
      the conversation as it was before the send (so with the title it had
      then), and the result replaces that conversation in the list as it was
      before the send. */
  function ReplyAsWritten(snapshot: seq<Conversation>, before: Conversation, latest: seq<Message>,
                          t: Transcript, botId: Id, now: Timestamp, json: Json): (r: Option<seq<Conversation>>)
    ensures r.None? <==> !AssistantLast(t)
    ensures r.Some? ==> |r.value| == |snapshot|
    ensures r.Some? ==> forall i :: 0 <= i < |snapshot| && snapshot[i].id == before.id ==>
      r.value[i].title == before.title && r.value[i].messages == latest + [BotMessage(t, botId, now, json)]
    ensures r.Some? ==> forall i :: 0 <= i < |snapshot| && snapshot[i].id != before.id ==> r.value[i] == snapshot[i]
  {
    if AssistantLast(t) then Some(Replaced(snapshot, before.(messages := latest + [BotMessage(t, botId, now, json)])))
    else None
  }

  /** As written, a new conversation whose first message is "Hello" is named
      "Hello" by the send and renamed "New conversation" by the reply. */
  lemma FirstTitleLostAsWritten(json: Json)
    ensures
      var c0 := FreshConversation("1", 0);
      var sent := SentConversation(c0, UserMessage("2", "Hello", 1));
      var r := ReplyAsWritten([c0], c0, sent.messages, [ChatState("assistant", Text("Hi"))], "3", 2, json);
      sent.title == "Hello" && r.Some? && r.value[0].title == DefaultTitle
  {
  }

  /** As written, a conversation created while the reply is outstanding (the
      user then goes back to the first one) is gone from the list the reply
      writes. The live list is the one `Update` with the sent conversation
      and then `NewConversation` leave: `Replaced` of the list, then `d`
      appended. */
  lemma CreatedConversationLostAsWritten(json: Json)
    ensures
      var c0 := FreshConversation("1", 0);
      var sent := SentConversation(c0, UserMessage("2", "Hello", 1));
      var d := FreshConversation("4", 3);
      var live := Replaced([c0], sent) + [d];
      var r := ReplyAsWritten([c0], c0, sent.messages, [ChatState("assistant", Text("Hi"))], "5", 4, json);
      d in live && r.Some? && d !in r.value && |r.value| < |live|
  {
  }

  /** With the reply built from the conversation as the send left it, the
      title a first message gave it survives the reply. */
  lemma FirstTitleKept(c: Conversation, m: Message, t: Transcript, botId: Id, now: Timestamp, json: Json)
    requires c.messages == [] && AssistantLast(t)
    ensures Reply(SentConversation(c, m), t, botId, now, json).Some?
    ensures Reply(SentConversation(c, m), t, botId, now, json).value.title ==
      m.content[..if |m.content| < TitleLength then |m.content| else TitleLength]
  {
  }

  /** With the reply applied to the list as it is when the reply arrives, a
      conversation created in the meantime stays. */
  lemma CreatedConversationKept(live: seq<Conversation>, d: Conversation, sent: Conversation,
                                t: Transcript, botId: Id, now: Timestamp, json: Json)
    requires d in live && d.id != sent.id && AssistantLast(t)
    ensures d in Replaced(live, Reply(sent, t, botId, now, json).value)
  {
  }

  /** The fixed rotation of suggestion sets by message count. */
  function Suggestions(messageCount: nat): (r: seq<SuggestionPrompt>)
    ensures r == [DefaultSuggestions, FollowUpSuggestions, OpinionSuggestions][messageCount % 3]
  {
    if messageCount % 3 == 1 then FollowUpSuggestions
    else if messageCount % 3 == 2 then OpinionSuggestions
    else DefaultSuggestions
  }

  // ---------------------------------------------------------------------
  // The transcript store (the `chat_app_chat_states` key)

  /** loadChatState: this conversation's stored transcript, or an empty one. */
  function LoadChatState(stored: Stored<map<string, Transcript>>, id: string): (r: Transcript)
    ensures stored.Present? && id in stored.value ==> r == stored.value[id]
    ensures !stored.Present? || id !in stored.value ==> r == []
  {
    match stored
    case Present(m) => if id in m then m[id] else []
    case _ => []
  }

  /** saveChatState: read the map, set this conversation's entry, write the
      map back; a stored value that does not parse makes it give up. */
  function SaveChatState(stored: Stored<map<string, Transcript>>, id: string, t: Transcript): (r: Stored<map<string, Transcript>>)
    ensures stored.Malformed? ==> r == stored
    ensures !stored.Malformed? ==> LoadChatState(r, id) == t
    ensures forall other :: other != id ==> LoadChatState(r, other) == LoadChatState(stored, other)
  {
    match stored
    case Missing => Present(map[id := t])
    case Malformed => Malformed
    case Present(m) => Present(m[id := t])
  }

  /** Writing back what was just loaded leaves the store as it was. */
  lemma SaveLoadedIsNoop(stored: Stored<map<string, Transcript>>, id: string)
    requires LoadChatState(stored, id) != []
    ensures SaveChatState(stored, id, LoadChatState(stored, id)) == stored
  {
    assert stored.value[id := stored.value[id]] == stored.value;
  }

  // ---------------------------------------------------------------------
  // The session

  /** What a send leaves for its response: the conversation it was made in,
      that conversation as the send left it, the message count before the
      send, and the transcript posted. */
  datatype PendingSend = PendingSend(conversationId: Id, sent: Conversation, countAtSend: nat, request: Transcript)

  /** The chat pane: the id of the conversation it shows, that
      conversation's transcript, the suggestions on offer, and the stored
      transcript map. Updates to the visible conversation go to `app`. */
  class ChatSession {
    const app: ConversationRegistry
    var currentId: Id
    var chatState: Transcript
    var suggestions: seq<SuggestionPrompt>
    var storedChatStates: Stored<map<string, Transcript>>

    /** The effect that saves the transcript, skipped while it is empty. */
    method SaveEffect()
      modifies this`storedChatStates
      ensures storedChatStates ==
        if chatState != [] then SaveChatState(old(storedChatStates), currentId, chatState) else old(storedChatStates)
    {
      if chatState != [] {
        storedChatStates := SaveChatState(storedChatStates, currentId, chatState);
      }
    }

    /** Mounting the pane on the shown conversation: default suggestions, and
        the conversation's stored transcript loaded. */
    constructor (app: ConversationRegistry, stored: Stored<map<string, Transcript>>)
      requires app.conversations != []
      ensures this.app == app
      ensures currentId == app.Current().value.id
      ensures chatState == LoadChatState(stored, currentId)
      ensures suggestions == DefaultSuggestions
      ensures storedChatStates == stored
    {
      this.app := app;
      var id := app.Current().value.id;
      currentId := id;
      chatState := LoadChatState(stored, id);
      suggestions := DefaultSuggestions;
      storedChatStates := stored;
      new;
      if chatState != [] {
        SaveLoadedIsNoop(stored, id);
      }
      SaveEffect();
    }

    /** The effect run when the shown conversation changes: follow it and load
        its transcript. The save that the load triggers writes back what is
        stored. */
    method OnConversationChanged()
      requires app.conversations != []
      modifies this
      ensures currentId == app.Current().value.id
      ensures chatState == LoadChatState(storedChatStates, currentId)
      ensures storedChatStates == old(storedChatStates) && suggestions == old(suggestions)
    {
      currentId := app.Current().value.id;
      chatState := LoadChatState(storedChatStates, currentId);
      if chatState != [] {
        SaveLoadedIsNoop(storedChatStates, currentId);
      }
      SaveEffect();
    }

    /** sendMessage up to the remote call: ignore blank input; otherwise add
        the user message to the shown conversation and return what the
        response will need. */
    method Send(content: string, messageId: Id, now: Timestamp) returns (pending: Option<PendingSend>)
      requires app.conversations != []
      modifies app
      ensures Blank(content) ==> pending == None && unchanged(app)
      ensures !Blank(content) ==>
        var c := old(app.Current()).value;
        var sent := SentConversation(c, UserMessage(messageId, content, now));
        && app.conversations == Replaced(old(app.conversations), sent)
        && app.currentId == old(app.currentId)
        && app.Current() == Some(sent)
        && app.storedConversations == Present(app.conversations)
        && app.storedCurrentId == old(app.storedCurrentId)
        && pending == Some(PendingSend(c.id, sent, |c.messages|, Request(chatState, content)))
      ensures old(app.Synced()) ==> app.Synced()
    {
      TrimEmptyIffBlank(content);
      if Trim(content) == "" {
        return None;
      }
      var c := app.Current().value;
      var sent := SentConversation(c, UserMessage(messageId, content, now));
      CurrentAfterUpdate(app.conversations, app.currentId, sent);
      app.Update(sent);
      pending := Some(PendingSend(c.id, sent, |c.messages|, Request(chatState, content)));
    }

    /** The rest of sendMessage, once the service has answered (`Some`) or
        failed (`None`): a response counts only while the pane still shows
        the conversation it was sent from; it then becomes the transcript, is
        saved, and its reply (if any) is added to the conversation and moves
        the suggestions on. */
    method Receive(pending: PendingSend, response: Option<Transcript>, botId: Id, now: Timestamp, json: Json)
      modifies this, app
      ensures response.None? || old(currentId) != pending.conversationId ==>
        unchanged(this) && unchanged(app)
      ensures response.Some? && old(currentId) == pending.conversationId ==>
        && currentId == old(currentId)
        && chatState == response.value
        && storedChatStates ==
             (if response.value != [] then SaveChatState(old(storedChatStates), currentId, response.value)
              else old(storedChatStates))
      ensures response.Some? && old(currentId) == pending.conversationId ==>
        var reply := Reply(pending.sent, response.value, botId, now, json);
        && (reply.None? ==> unchanged(app) && suggestions == old(suggestions))
        && (reply.Some? ==>
              app.conversations == Replaced(old(app.conversations), reply.value) &&
              app.currentId == old(app.currentId) &&
              app.storedConversations ==
                (if app.conversations != [] then Present(app.conversations) else old(app.storedConversations)) &&
              app.storedCurrentId == old(app.storedCurrentId) &&
              suggestions == Suggestions(pending.countAtSend))
      ensures old(app.Synced()) ==> app.Synced()
    {
      if response.None? || currentId != pending.conversationId {
        return;
      }
      chatState := response.value;
      SaveEffect();
      var reply := Reply(pending.sent, response.value, botId, now, json);
      if reply.Some? {
        app.Update(reply.value);
        suggestions := Suggestions(pending.countAtSend);
      }
    }
  }
}
