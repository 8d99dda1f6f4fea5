# Chat client: conversation registry and chat session

A model of the state logic of a single-page chat client. The client keeps
several named conversations in local storage. It sends each conversation's
raw role/content transcript to a remote completion service, and shows the
assistant's replies as bot messages.

- `types.dfy` (module `Types`): the entities. `Message`, `Conversation` and
  `SuggestionPrompt` follow `src/types.tsx`. `ChatState` is one transcript
  entry whose content is a plain string or a structured record with an
  optional `output`. `Stored<T>` is what a local-storage key yields once
  parsed: missing, malformed, or a value.
- `registry.dfy` (module `Registry`): the application shell in `src/App.tsx`.
  The pure list computations (`find`, `map`, `filter`) are functions with
  lemmas. The class `ConversationRegistry` holds the two state fields
  `conversations` and `currentId`, and the two storage keys they are written
  to. Its methods are the mount effect (`Bootstrap`), the handlers (new,
  select, update, delete) and the two persistence effects.
- `chat.dfy` (module `Chat`): the chat pane in
  `src/components/ChatContainer.tsx`. It holds the whitespace test of a
  send, the optimistic update, the request transcript, the reply extraction,
  the suggestion rotation and the transcript store. The class `ChatSession`
  holds the shown conversation's id (the ref), its transcript, the
  suggestions and the stored transcript map. Its `app` field is the registry
  that `updateConversation` writes to.

The asynchronous send is split in two steps. `Send` runs up to the remote
call and returns a `PendingSend`. `Receive` takes that value and the
service's answer, or `None` for a failure. The staleness guard is the
comparison of the pane's current id with the id recorded at send time. The
caller runs `OnConversationChanged` whenever the shown conversation changes,
as React runs the effect that depends on `conversation.id`.

Three behaviours of the code worth noting:

- A response that arrives after the user has switched conversations is
  dropped entirely. It is not saved to the transcript store either, because
  `setChatState` sits inside the guard.
- A stored conversation list that parses to an empty array is restored as an
  empty registry with no current id. No fresh conversation is created in that
  case.
- The next suggestion set is chosen from the message count of the
  conversation as it was before the send. The component's `conversation`
  was captured at send time.

## Model

| member | source | states |
|---|---|---|
| `Registry.IndexOf` | src/App.tsx:87 | the result is the position of the first entry with the id, and it is `None` exactly when no entry has the id |
| `Registry.CurrentOf` | src/App.tsx:86-88 | the shown conversation is the first entry whose id is the current id; when no entry has it, the first entry; nothing only when the list is empty |
| `Registry.Replaced` | src/App.tsx:90-94 | same length; every entry with the update's id becomes the update; every other entry is unchanged |
| `Registry.Without` | src/App.tsx:97 | a conversation survives exactly when it was in the list and its id differs from the deleted one; the list does not grow |
| `Registry.ReplacedKeepsIds` | src/App.tsx:90-94 | an update keeps every position's id, so lookups by id find the same position before and after |
| `Registry.ReplacedNoMatch` | src/App.tsx:90-94 | an update whose id matches no entry leaves the list as it was |
| `Registry.CurrentAfterUpdate` | src/App.tsx:86-94 | updating the shown conversation makes the update the shown conversation, whether the current id resolves or the first entry stands in |
| `Registry.WithoutAppend` | src/App.tsx:97 | deleting from a concatenation deletes from each part, so the survivors keep their relative order |
| `Registry.WithoutNoMatch` | src/App.tsx:97 | deleting an id no entry has leaves the list as it was |
| `Registry.ConversationRegistry.constructor` | src/App.tsx:13-20 | page load: empty list, null current id, and the two storage keys as they were |
| `Registry.ConversationRegistry.PersistConversations` | src/App.tsx:51-55 | the list is written only when it is non-empty; otherwise the key keeps its value |
| `Registry.ConversationRegistry.PersistCurrentId` | src/App.tsx:57-61 | the current id is written only when it is non-null; otherwise the key keeps its value |
| `Registry.ConversationRegistry.CreateInitial` | src/App.tsx:63-74 | the list becomes one fresh conversation ("New conversation", no messages) and it is selected |
| `Registry.ConversationRegistry.Bootstrap` | src/App.tsx:18-49 | a stored list is restored; the stored current id is kept if some entry has it, else the first entry is selected; a missing or malformed list gives one fresh selected conversation; the list is empty exactly when the stored list was empty; memory and storage agree afterwards, and the current-id key is written only when a current id was chosen |
| `Registry.ConversationRegistry.NewConversation` | src/App.tsx:69-84 | a fresh conversation is appended after the unchanged entries and selected; if its id is new it is the shown conversation; both keys are written |
| `Registry.ConversationRegistry.Select` | src/App.tsx:115 | the sidebar's select handler (called from `src/components/Sidebar.tsx` line 46) sets the current id without an existence check; it resolves exactly when some entry has the id; the current-id effect then writes only that key |
| `Registry.ConversationRegistry.Update` | src/App.tsx:90-94 | the list becomes `Replaced` of the old list; the current id is unchanged and resolves exactly when it did before |
| `Registry.ConversationRegistry.Delete` | src/App.tsx:96-107 | the entries with the id go and the order of the rest is kept; a deleted current id moves to the first survivor; a current id naming another conversation stays; an empty result becomes one fresh selected conversation; the list is never empty afterwards; a resolving current id still resolves; the list key holds the new list, and the current-id key is written whenever a current id is set |
| `Chat.TrimStart` | src/components/ChatContainer.tsx:172 | the result is a suffix of the input; what was dropped is all white space; the result does not start with white space |
| `Chat.TrimEnd` | src/components/ChatContainer.tsx:172 | the result is a prefix of the input; what was dropped is all white space; the result does not end with white space |
| `Chat.TrimEmptyIffBlank` | src/components/ChatContainer.tsx:172 | `trim` gives the empty string exactly when the input is made only of white space |
| `Chat.SentConversation` | src/components/ChatContainer.tsx:174-186 | exactly the user message is appended after the unchanged earlier messages; for a first message the title becomes the first `min(30, length)` characters of the content; otherwise the title is kept; id and creation time are kept |
| `Chat.Request` | src/components/ChatContainer.tsx:33-35 | the posted transcript is the stored transcript followed by exactly one `user` entry with the content |
| `Chat.BotText` | src/components/ChatContainer.tsx:136-148 | string content shows its parsed `output` when that is truthy, else the raw string; structured content shows its `output` when truthy, else its serialisation |
| `Chat.Reply` | src/components/ChatContainer.tsx:128-164 | no reply when the transcript is empty or its last role is not `assistant`; otherwise the earlier messages are kept and one bot message with the extracted text follows them, and id, title and creation time are kept |
| `Chat.ReplyAsWritten` | src/components/ChatContainer.tsx:157-164 | as written, the reply rewrites the send-time list: entries of the conversation get the send-time title, and the other entries are the send-time ones |
| `Chat.FirstTitleLostAsWritten` | src/components/ChatContainer.tsx:157-164 | as written, a first message "Hello" names the conversation "Hello", and the reply renames it "New conversation" |
| `Chat.CreatedConversationLostAsWritten` | src/components/ChatContainer.tsx:157-164 | as written, a conversation appended to the live list (after the send's update) while the reply was outstanding is missing from the list the reply writes, which is shorter than the live list |
| `Chat.FirstTitleKept` | src/components/ChatContainer.tsx:182-186 | with the reply built from the conversation as the send left it, the title from the first message survives the reply |
| `Chat.CreatedConversationKept` | src/App.tsx:90-94 | with the reply applied to the live list, a conversation created in the meantime stays |
| `Chat.Suggestions` | src/components/ChatContainer.tsx:207-217 | the set is DEFAULT, FOLLOW_UP or OPINION as the message count mod 3 is 0, 1 or 2 |
| `Chat.LoadChatState` | src/components/ChatContainer.tsx:89-109 | the stored transcript for this id, or an empty one when the key is missing, malformed or has no entry for the id |
| `Chat.SaveChatState` | src/components/ChatContainer.tsx:111-122 | loading this id after a save gives the saved transcript; every other id loads as before; a malformed stored value is left as it was |
| `Chat.SaveLoadedIsNoop` | src/components/ChatContainer.tsx:83-87 | saving back a non-empty transcript just loaded leaves the store unchanged |
| `Chat.ChatSession.SaveEffect` | src/components/ChatContainer.tsx:83-87 | the transcript is saved under the current id only when it is non-empty |
| `Chat.ChatSession.constructor` | src/components/ChatContainer.tsx:73-81 | mounting follows the shown conversation, loads its transcript, offers the default suggestions and leaves storage as it was |
| `Chat.ChatSession.OnConversationChanged` | src/components/ChatContainer.tsx:78-81 | the pane follows the shown conversation and loads its transcript; storage and suggestions are unchanged |
| `Chat.ChatSession.Send` | src/components/ChatContainer.tsx:171-190 | blank input changes nothing; otherwise the shown conversation is replaced by the sent one, which becomes what is shown; the current id is unchanged; the list key holds the new list and the current-id key is not written, so storage that agreed with memory still agrees; the pending send records the id, the sent conversation, the earlier message count and the request |
| `Chat.ChatSession.Receive` | src/components/ChatContainer.tsx:192-204 | a failure, or a response for a conversation no longer shown, changes nothing; otherwise the response becomes the transcript and is saved when non-empty; a reply replaces the conversation in the live list, writes the list key when the list is non-empty, leaves the current-id key alone, and moves the suggestions on; storage that agreed with memory still agrees; no reply leaves the list and suggestions unchanged |

## Findings

| source | as written | input that shows it | evidently intended | confidence | as-written member | corrected member |
|---|---|---|---|---|---|---|
| src/components/ChatContainer.tsx:157-164 | the reply is added to `conversation` as captured before the send, so it carries the old title | a new conversation, first message "Hello", assistant reply "Hi": the title goes from "Hello" back to "New conversation" | the reply extends the conversation as the send left it, so the title from the first message stays | high; not executed | `Chat.ReplyAsWritten`, `Chat.FirstTitleLostAsWritten` | `Chat.Reply`, `Chat.FirstTitleKept` |
| src/components/ChatContainer.tsx:164 | `updateConversation` is the callback captured at send time, so it maps over the list as it was before the send | send in conversation 1; before the reply, create conversation 4 and go back to 1; the reply writes a list without conversation 4 | the reply replaces its own conversation in the current list and keeps every other entry | high; not executed | `Chat.ReplyAsWritten`, `Chat.CreatedConversationLostAsWritten` | `Chat.ChatSession.Receive`, `Chat.CreatedConversationKept` |

## Left out

- The `fetch` call, its endpoint, headers and HTTP status handling are left out. The service is an input to `Receive`: a transcript, or `None` for any failure. A response that is not an array is not modelled.
- `JSON.parse` and `JSON.stringify` are foreign calls. They are supplied as the two functions of `Json`. An `output` that parses to a truthy non-string value (a number, an object) is not modelled.
- Local storage is modelled as fields holding the parsed values. Serialisation, the JSON round trip and the revival of `Date` fields are left out; timestamps are plain integers.
- `Date.now()` ids and `new Date()` clock readings are parameters. Ids are not assumed unique; `NewConversation` states its "becomes shown" property under the condition that the id is new.
- React's scheduling, batching and effect order, `useRef`, and the `isLoading` flag are left out. The guard is an explicit id comparison, and the caller must run `OnConversationChanged` after the shown conversation changes. Two overlapping sends on one conversation are not modelled.
- ChatContainer renders only a placeholder when there is no conversation. So the session's members require a non-empty registry.
- Chat.SentConversation: the title takes the first 30 characters (code points), while `substring` counts UTF-16 code units. The two differ for text outside the Basic Multilingual Plane.
- Chat.ChatSession.Receive: it applies the corrected reply (see Findings), not the send-time snapshot the code uses. The as-written behaviour is `Chat.ReplyAsWritten`.
- Rendering is not modelled: the sidebar, message list (markdown), header, suggestion list, date formatting, sidebar toggling and console logging. The submit guard of the input box repeats the whitespace test of `Send`.
