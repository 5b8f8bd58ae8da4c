# Conversation store and send orchestration of a chat client

This project models the in-memory core of a two-front-end chat client for a
text-completion service: the list of conversations, the current selection, the
input box, the busy flag and the API key, and the three handlers that change them —
creating a conversation, deleting one, and sending a message. Sending validates the
input and key, picks or creates a target conversation, appends the user turn
optimistically, builds the request history, and then reconciles the outcome by
appending either the completion or a fixed Spanish apology as an assistant turn.

The two front-ends keep the same state and handlers, but their send paths differ,
and each is modelled as written:

- `app/index.tsx` (native screen) → module `NativeChat`, class `ChatScreen`. A send
  with no current conversation inserts one conversation, titled from the input.
- `src/App.tsx` (web component) → module `WebChat`, class `ChatApp`. A send with no
  current conversation first runs `createNewConversation` (a placeholder titled
  "Nueva conversación") and then inserts a second conversation titled from the input.
  The list therefore grows by two. When the two clock readings coincide, both
  conversations share an id, and the placeholder also receives every turn of the send.

The pure updaters that both files hand to their setters live once, in module
`ChatModel`. These are `filter` by id, the `map`-by-id append, the
`find` lookup, `trim`, the title derivation and the request history. The web file
repeats the same expressions: `find` at src/App.tsx:28, `filter` at 50, the title at 65,
the appends at 80-84, 119-123 and 134-138, and the history at 98-101.

How the model is shaped:

- Each handler is a class method on the component's fields. Each method's `ensures`
  gives the whole new state in terms of the old one, and its lookups and list
  updates are the `ChatModel` functions. Lemmas about those functions carry the
  properties.
- The asynchronous `sendMessage` is split at its single `await`. `BeginSend` covers
  everything before the request: the guard, target resolution, the optimistic user
  turn, clearing the input and raising the busy flag. It returns the target id and
  the request history. `CompleteSend(target, now, outcome)` covers everything after:
  it appends the reply and lowers the busy flag. Any other call may run between the
  two, including a delete of the target. `Send` composes the two halves for the case
  where nothing runs between them.
- Ids and instants come from `Date.now()`, so they are caller-supplied naturals and
  are not assumed unique. The append changes every conversation whose id matches.
  The lookup returns the first match.
- The outcome of the completion request is the abstract `Outcome` value:
  `Success(text)` or `Failure`.

Four behaviours of the code are easy to miss, and the model keeps each of them:

- A send from the web component with no current conversation creates two
  conversations, not one.
- Ids are not unique. A reply goes to every conversation that carries the target id.
- Selecting a conversation stores the id unchecked. `SelectConversation` states
  exactly when the selection is still valid afterwards.
- The request is built from the target as captured before the optimistic append,
  plus an explicit user turn. `ChatModel.HistoryIsAppendedTurns` proves that this
  equals the turns of the conversation after the append.

## Model

| member | source | states |
|---|---|---|
| `ChatModel.TrimStart` | app/index.tsx:81 | the result is a suffix of the input that does not start with JS whitespace, and every dropped character is whitespace |
| `ChatModel.TrimEnd` | app/index.tsx:81 | the result is a prefix of the input that does not end with JS whitespace, and every dropped character is whitespace |
| `ChatModel.Trim` | app/index.tsx:81 | `input.trim()` is empty iff every character is whitespace (the empty string included); a non-empty result neither starts nor ends with whitespace |
| `ChatModel.Accepts` | app/index.tsx:81 | the negated guard of the send handler; `ChatModel.GuardIsTrimTest` proves it holds iff the trimmed input and the key are non-empty |
| `ChatModel.SendDisabled` | app/index.tsx:284 | the `disabled` expression of the send button; `ChatModel.GuardIsTrimTest` relates it to the trim test and the busy flag |
| `ChatModel.GuardIsTrimTest` | app/index.tsx:284 | the handler accepts iff the trimmed input and the key are non-empty; when not busy, the send button is enabled iff the same holds; while busy, the button is always disabled |
| `ChatModel.DeriveTitle` | app/index.tsx:88 | the title equals the input when it has at most 50 characters; otherwise it is the first 50 characters plus "..."; it never exceeds 53 characters |
| `ChatModel.Find` | app/index.tsx:39 | the lookup returns nothing iff no conversation has the selected id (always so for no selection); otherwise it returns the conversation at the first index with that id |
| `ChatModel.FindHead` | app/index.tsx:69-70 | after a prepend, a lookup of the new conversation's id finds that conversation |
| `ChatModel.Without` | app/index.tsx:74 | the filter keeps exactly the conversations whose id differs: no survivor has the id, every other conversation survives, and the length is unchanged iff nothing had the id |
| `ChatModel.WithoutConcat` | app/index.tsx:74 | the filter distributes over concatenation, so survivors keep their relative order |
| `ChatModel.WithoutAbsent` | app/index.tsx:74 | deleting an id that no conversation has leaves the list unchanged |
| `ChatModel.FindAfterWithout` | app/index.tsx:73-78 | deleting an id other than the selected one leaves the current-conversation lookup unchanged |
| `ChatModel.AppendWhere` | app/index.tsx:104-108 | the map-by-id append keeps the length, every id, title and creation time; it adds the message at the end of every conversation with the id, and leaves all others identical |
| `ChatModel.AppendWhereAbsent` | app/index.tsx:144-148 | when no conversation has the target id, the append is a no-op |
| `ChatModel.FindAfterAppend` | app/index.tsx:104-108 | after the append, the lookup finds the same conversation as before, with the message appended iff it carries the target id |
| `ChatModel.FindTargetAfterAppend` | app/index.tsx:104-108 | appending to the conversation the lookup finds makes the lookup show it with the message at the end, and the selection stays valid |
| `ChatModel.SelectionValidAfterAppend` | app/index.tsx:144-148 | an append never makes a selection valid or invalid |
| `ChatModel.AppendPair` | app/index.tsx:97-163 | a user turn and then a reply appended to the same id make every matching conversation exactly two messages longer, [user, reply], and leave the others identical |
| `ChatModel.Turns` | app/index.tsx:124 | the payload has one `{role, content}` entry per message, in order, with that message's role and content |
| `ChatModel.History` | app/index.tsx:123-126 | the request is the captured messages as ordered role/content pairs, followed by `(user, input)` |
| `ChatModel.TurnsConcat` | app/index.tsx:124 | mapping messages to turns distributes over concatenation |
| `ChatModel.HistoryIsAppendedTurns` | app/index.tsx:97-126 | the request equals the turns of the captured conversation after the optimistic user message is appended |
| `ChatModel.UserMessage` | app/index.tsx:97-102 | the user message has role user and holds the untrimmed input; its request turn is `(user, input)` |
| `ChatModel.ReplyMessage` | app/index.tsx:137-157 | the reply has role assistant and id `now + 1`; it holds the completion on success and the fixed apology on failure |
| `NativeChat.ResolveTarget` | app/index.tsx:83-95 | the selection afterwards is the target's id; `NativeChat.ResolvedTargetIsCurrent` gives the two cases exactly: the list unchanged, or the titled conversation prepended |
| `NativeChat.ResolvedTargetIsCurrent` | app/index.tsx:83-95 | after resolution the lookup of the selection finds exactly the target; an existing current conversation leaves list and selection alone; otherwise one conversation is prepended and selected, titled from the input within 53 characters, with no messages |
| `NativeChat.FreshSendShape` | app/index.tsx:85-108 | a send with no current conversation grows the list by exactly one; the head is the titled conversation holding only the user turn; the rest is unchanged except for conversations that happen to share the new id; the request is `[(user, input)]` |
| `NativeChat.ChatScreen.CurrentConversation` | app/index.tsx:39 | the current conversation is nothing iff no conversation carries the selected id (always so with no selection); otherwise it is a conversation of the list with that id, the first one by `ChatModel.Find` |
| `NativeChat.ChatScreen.constructor` | app/index.tsx:31-35 | the initial state: no conversations, no selection, empty input, not busy, the loaded key |
| `NativeChat.ChatScreen.CreateNewConversation` | app/index.tsx:62-71 | prepends a "Nueva conversación" conversation with no messages, selects it (so the lookup shows it), and leaves the old list behind it unchanged and in order |
| `NativeChat.ChatScreen.DeleteConversation` | app/index.tsx:73-78 | the list becomes the filter by id; the selection becomes none iff it was the deleted id and is otherwise unchanged (so the current view is unchanged); a valid selection stays valid |
| `NativeChat.ChatScreen.SelectConversation` | app/index.tsx:209 | the selection becomes the id unchecked; it is valid iff some conversation has that id; nothing else changes |
| `NativeChat.ChatScreen.SetInputMessage` | app/index.tsx:275 | the input box holds the typed text |
| `NativeChat.ChatScreen.SetApiKey` | app/index.tsx:323 | the key field holds the typed key |
| `NativeChat.ChatScreen.OpenTarget` | app/index.tsx:83-95 | the target, the list and the selection become those of the target resolution |
| `NativeChat.ChatScreen.AddUserTurn` | app/index.tsx:97-126 | the user message with the untrimmed input is appended to every conversation with the target's id; the selection is kept, the input is cleared and the busy flag raised; the request is the target's captured turns plus `(user, input)` |
| `NativeChat.ChatScreen.BeginSend` | app/index.tsx:80-112 | rejects iff the trimmed input or the key is empty, and a rejected send changes nothing (not even the input or busy flag); otherwise it resolves the target, appends the untrimmed input as a user turn to every conversation with the target id, shows it in the current view, clears the input, sets the busy flag and returns the target id with the pre-append history plus the user turn |
| `NativeChat.ChatScreen.CompleteSend` | app/index.tsx:137-167 | appends one assistant turn to every conversation with the target id, holding the completion or the apology; the list is unchanged if the target is gone; the busy flag is false afterwards, and the selection, input and key are unchanged |
| `NativeChat.ChatScreen.Send` | app/index.tsx:80-168 | a whole send with nothing run between its halves: when rejected nothing changes; otherwise every conversation with the target id gains exactly [user turn, reply], the others are untouched, the input is empty and the busy flag is false |
| `NativeChat.FirstExchange` | app/index.tsx:80-168 | on a fresh screen, "Hola" answered successfully yields exactly one conversation, titled "Hola", holding the user turn and the reply |
| `NativeChat.PendingFirstTurn` | app/index.tsx:80-112 | after one unanswered send of "uno" on a fresh screen, the list is one conversation titled "uno" holding only that user turn, and it is selected |
| `NativeChat.OverlappingSends` | app/index.tsx:83-126 | a second send issued before the first reply carries the first, still unanswered, user turn in its request |
| `WebChat.ResolveTarget` | src/App.tsx:59-71 | the selection afterwards is the target's id; `WebChat.ResolvedTargetIsCurrent` gives the two cases exactly: the list unchanged, or the titled conversation and the placeholder prepended |
| `WebChat.ResolvedTargetIsCurrent` | src/App.tsx:59-71 | after resolution the lookup of the selection finds exactly the target; with no current conversation, the titled conversation and then the placeholder are at the head, and the titled one is selected |
| `WebChat.FreshSendShape` | src/App.tsx:59-84 | a send with no current conversation grows the list by two: index 0 is the titled conversation holding only the user turn; index 1 is the placeholder, which also holds the user turn iff the two clock readings coincide; the older conversations behind them are unchanged except for those that happen to share the new id; the request is `[(user, input)]` |
| `WebChat.ChatApp.CurrentConversation` | src/App.tsx:28 | the current conversation is nothing iff no conversation carries the selected id; otherwise it is a conversation of the list with that id, the first one by `ChatModel.Find` |
| `WebChat.ChatApp.constructor` | src/App.tsx:20-24 | the initial state: no conversations, no selection, empty input, not busy, the stored key or "" |
| `WebChat.ChatApp.CreateNewConversation` | src/App.tsx:38-47 | prepends a "Nueva conversación" conversation with no messages, selects it, and leaves the old list behind it unchanged |
| `WebChat.ChatApp.DeleteConversation` | src/App.tsx:49-54 | the list becomes the filter by id; the selection becomes none iff it was the deleted id and is otherwise unchanged; a valid selection stays valid |
| `WebChat.ChatApp.SelectConversation` | src/App.tsx:179 | the selection becomes the id unchecked; it is valid iff some conversation has that id |
| `WebChat.ChatApp.SetInputMessage` | src/App.tsx:231 | the input box holds the typed text |
| `WebChat.ChatApp.SetApiKey` | src/App.tsx:271 | the key field holds the typed key |
| `WebChat.ChatApp.OpenTarget` | src/App.tsx:59-71 | runs `createNewConversation` and then inserts and selects the titled conversation when nothing is current; the result is the target resolution |
| `WebChat.ChatApp.AddUserTurn` | src/App.tsx:73-101 | the user message with the untrimmed input is appended to every conversation with the target's id; the selection is kept, the input is cleared and the busy flag raised; the request is the target's captured turns plus `(user, input)` |
| `WebChat.ChatApp.BeginSend` | src/App.tsx:56-87 | rejects iff the trimmed input or the key is empty, and a rejected send changes nothing; otherwise it resolves the target (double insertion included), appends the user turn to every conversation with the target id, clears the input, sets the busy flag and returns the target id with the pre-append history plus the user turn |
| `WebChat.ChatApp.CompleteSend` | src/App.tsx:112-141 | appends one assistant turn, holding the completion or the apology, to every conversation with the target id; the list is unchanged if the target is gone; the busy flag is false afterwards |
| `WebChat.ChatApp.Send` | src/App.tsx:56-142 | a whole send with nothing run between its halves: when rejected nothing changes; otherwise every conversation with the target id gains exactly [user turn, reply] and the busy flag is false |
| `WebChat.FirstExchange` | src/App.tsx:56-142 | on a fresh component, "Hola" answered successfully yields two conversations: the titled "Hola" one holding the exchange, and behind it the placeholder, which holds the same exchange iff the two ids coincide |

## Left out

- `server.js`: static hosting and health endpoints. It is I/O plumbing with no state to model.
- Rendering and styling are not modelled: the JSX, the style sheet, scrolling, `Alert`, the settings `Modal` and its `showSettings` flag, and the web key handler `handleKeyPress`.
- The `fetch` call, its headers, the HTTP status check and the extraction of `choices[0].message.content` are not modelled. All of them become the abstract `Outcome`.
- The fixed request parameters are not modelled: the model name, `max_tokens: 1000` and `temperature: 0.7`.
- Key persistence is not modelled: `AsyncStorage` and `localStorage`, `loadApiKey` and `saveApiKey`. The loaded key is the constructor's argument, and `apiKey` is a plain string field.
- `console.error` logging is not modelled.
- Real asynchrony and React render batching are not modelled. The two halves of a send are sequential method calls, and each functional state update is applied at once, in the order the handler issues it.
- Clock values are caller-supplied naturals, not `Date` objects. String ids become those naturals. `toString` is injective on them, so id equality is the same.
- NativeChat.ChatScreen.BeginSend: takes one clock reading, `now`, for the new conversation's id and creation time and for the user message's id and timestamp. The source reads the clock separately at lines 87, 90, 98 and 101, and those readings can differ.
- WebChat.ChatApp.BeginSend: takes one reading, `placeholderNow`, for `createNewConversation`, and one, `now`, for the titled conversation and the user message. The source reads the clock separately within each of these groups as well.
- NativeChat.ChatScreen.CreateNewConversation: takes one reading, `now`, for the new conversation's id and creation time. The source reads the clock separately for the two, at lines 64 and 67 of app/index.tsx.
- WebChat.ChatApp.CreateNewConversation: takes one reading, `now`, for the new conversation's id and creation time. The source reads the clock separately for the two, at lines 40 and 43 of src/App.tsx.
- NativeChat.ChatScreen.CompleteSend: takes one reading for the reply, giving id `now + 1` and timestamp `now`. The source reads the clock separately for the two.
- WebChat.ChatApp.CompleteSend: takes one reading for the reply, giving id `now + 1` and timestamp `now`. The source reads the clock separately for the two.
- ChatModel.DeriveTitle: counts characters as Unicode code points. JavaScript's `slice` and `length` count UTF-16 code units, so the two differ only for inputs that contain characters outside the Basic Multilingual Plane.
- Chronological order of message timestamps is not proved. It holds only if the caller's clock never goes backwards, and the source does not enforce that.
- Unique ids are not proved, because the source does not guarantee them. The model proves what happens when ids collide.
