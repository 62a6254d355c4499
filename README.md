# Chat front end: message normaliser, chat registry and panel rules

A Dafny model of the logic inside the web chat client of a blockchain assistant.
The client shows a history of chats in a sidebar and a streaming conversation panel.
The model covers four parts:

- **Message normaliser and title deriver** (`messages.dfy`, module `Messages`).
  A list of SDK "core" messages is folded into display messages.
  Each non-tool message becomes one entry: its text segments are joined and its tool-call segments become invocations in state `call`.
  A tool message adds no entry.
  Instead, it moves every earlier invocation whose id it answers to state `result`.
  The chat title is the first entry's text, or `"Untitled"`.
  The fold is the method `ConvertToUIMessages`, with a loop, proved equal to the function `Normalize`.
- **Chat registry** (`chat_context.dfy`, module `ChatContext`).
  The class `ChatProvider` holds the selected chat id and the list of chats.
  Its methods create a chat, select one, append a message and retitle a chat.
  Each list update is specified by a pure keyed-update function of the old list.
- **Chat panel rules** (`chat_panel.dfy`, module `ChatPanel`).
  These are the id generator that fills the version-4 UUID template of RFC 4122 (section 4.4, version field of section 4.1.3, variant field of section 4.1.1), the Enter-to-send rule, the send-button rule and the filter that picks the messages drawn.
- **Sidebar helpers** (`sidebar.dfy`, module `Sidebar`).
  These are title truncation, wallet-address shortening, the `"Untitled Chat"` label and how deleting a chat changes the selection.

Modelling choices:

- Strings are `seq<char>`, and a JavaScript `length` is taken to be the number of characters. JavaScript actually counts UTF-16 code units, so the two differ for characters outside the Basic Multilingual Plane.
- Randomness becomes input:
  - Fresh message ids are a caller-supplied sequence `ids`; the k-th entry created gets `ids[k]`.
  - A new chat's id is a caller-supplied value that is not already in use.
  - The UUID's random digits are a sequence of `Nibble`s (0..15), one per template position. Only the placeholder positions use theirs.
- A core message is either a `RoleMessage` (system, user or assistant, with string or segment-array content) or a `ToolMessage`, whose content is a list of tool results. The SDK types a `tool` message that way. So the source's `role === "tool"` test is `ToolMessage?` here.
- Tool arguments and results are a `Json` value that nothing inspects. Numbers in it are integers.
- Display messages produced by the normaliser always carry an invocation list, possibly empty. So the source's `if (message.toolInvocations)` test is always true for them, and the model has no absent list.
- `getTitleFromChat` draws ids it then discards. `GetTitleFromChat` uses placeholder ids, and `TitleMatchesAnyIds` proves that the choice of ids never changes the title.

Two behaviours of the code worth noting:

- The title is `"Untitled"` when there is no non-tool message at all, not only when the list is empty. Also, a first message with empty content gives the empty title; the sidebar then shows `"Untitled Chat"` (`EmptyFirstMessageLabel`).
- Deleting a chat does not remove it from the registry's list. `handleChatDelete` awaits the delete request and then clears the selection when the deleted chat is the one the handler was rendered with selected. A rejected request throws before that test and keeps the selection. The comparison reads the selection captured before the request, so a chat selected while the request is pending is cleared when the request succeeds (`SelectionAfterDeleteStale`). The handler's own `refetch()` refreshes the prompts-left count; the history is fetched again by the delete hook, and only when the delete succeeds.

## Model

| member | source | states |
|---|---|---|
| `Messages.CollectContent` | src/lib/utils.ts:64-82 | String content is taken unchanged with no invocations. Array content gives the text segments concatenated and the tool-call segments as invocations, exactly the `TextOf`/`CallsOf` of the segments (loop invariants) |
| `Messages.CallsOf` | src/lib/utils.ts:73-80 | Every collected invocation is in state `call` and has the id, name and args of a tool-call segment of the input; there are never more invocations than segments |
| `Messages.TextOfAppend` | src/lib/utils.ts:70-72 | The text of a segment list split in two is the text of the first part followed by that of the second, so text is joined in segment order |
| `Messages.CallsOfAppend` | src/lib/utils.ts:73-80 | Invocations of a split segment list are those of the first part followed by those of the second, so calls are kept in segment order |
| `Messages.OtherPartsIgnored` | src/lib/utils.ts:70-81 | A segment that is neither text nor a tool call changes neither the text nor the invocations |
| `Messages.FirstMatch` | src/lib/utils.ts:27-29 | `find` semantics: the index returned holds a result with the id and no earlier one does; no index means no result has the id |
| `Messages.ResolveInvocations` | src/lib/utils.ts:26-40 | Same number of invocations with the same ids, names and args. One that some result answers is in state `result` with the result of the first answering entry; one that none answers is unchanged |
| `Messages.AddToolMessageToChat` | src/lib/utils.ts:22-45 | The message list keeps its length and order; each message keeps id, role and content, and only its invocations are replaced by their resolved versions |
| `Messages.AddToolMessageNoMatch` | src/lib/utils.ts:27-39 | A tool message that answers no invocation leaves the list unchanged |
| `Messages.AddToolMessageIdempotent` | src/lib/utils.ts:22-45 | Merging the same tool message twice equals merging it once |
| `Messages.Entries` | src/lib/utils.ts:57-62 | The messages that produce an entry are non-tool messages of the input, no more of them than input messages |
| `Messages.Normalize` | src/lib/utils.ts:56-92 | The output has exactly one entry per non-tool input message |
| `Messages.NormalizeEntries` | src/lib/utils.ts:84-89 | Entry k comes from the k-th non-tool message, in input order: its role, its text, its tool calls in order (same id, name, args), and the k-th fresh id |
| `Messages.EntriesEmptyIff` | src/lib/utils.ts:56-62 | No message produces an entry exactly when every message is a tool message |
| `Messages.EntriesOfRoleMessages` | src/lib/utils.ts:56-62 | When no message is a tool message, every message produces an entry, in order |
| `Messages.NormalizeWithoutToolMessages` | src/lib/utils.ts:74-79 | Without tool messages every entry's invocations are exactly its message's tool calls, all in state `call` |
| `Messages.NormalizeIgnoresIds` | src/lib/utils.ts:84-89 | Normalising with two id supplies gives entries that differ only in their ids |
| `Messages.ConvertToUIMessages` | src/lib/utils.ts:53-93 | The reduce with its pushed accumulator computes `Normalize` of the input |
| `Messages.GetTitleFromChat` | src/lib/utils.ts:100-109 | `"Untitled"` when no message is a non-tool message, otherwise the text of the first non-tool message |
| `Messages.UntitledExactlyWhenOnlyToolMessages` | src/lib/utils.ts:100-109 | A chat whose messages are all tool messages, the empty chat included, is titled `"Untitled"`; one with any non-tool message is titled with the text of the first such message |
| `Messages.TitleMatchesAnyIds` | src/lib/utils.ts:100-109 | Whatever ids the normaliser draws, the title is the first entry's content, or `"Untitled"` when there is no entry |
| `ChatContext.WithMessage` | src/contexts/ChatContext.tsx:37-49 | Same length and order, ids and titles kept. Each chat with the id gets the message appended at the end of its messages; every other chat is unchanged |
| `ChatContext.WithTitle` | src/contexts/ChatContext.tsx:51-63 | Same length and order, ids and messages kept. Each chat with the id gets the new title; every other chat is unchanged |
| `ChatContext.WithMessageUnknownId` | src/contexts/ChatContext.tsx:39-47 | Appending to an unknown chat id leaves the list unchanged |
| `ChatContext.WithTitleUnknownId` | src/contexts/ChatContext.tsx:53-61 | Retitling an unknown chat id leaves the list unchanged |
| `ChatContext.WithMessageKeepsIds` | src/contexts/ChatContext.tsx:37-49 | Appending a message keeps the set of chat ids, hence keeps ids unique |
| `ChatContext.WithTitleKeepsIds` | src/contexts/ChatContext.tsx:51-63 | Retitling keeps the set of chat ids, hence keeps ids unique |
| `ChatContext.ChatProvider.constructor` | src/contexts/ChatContext.tsx:25-26 | Starts with a fresh selected id and no chats |
| `ChatContext.ChatProvider.SetCurrentChatId` | src/contexts/ChatContext.tsx:25 | Selects any id, known or not, and leaves the chats alone |
| `ChatContext.ChatProvider.CreateNewChat` | src/contexts/ChatContext.tsx:28-35 | Appends exactly one chat at the end, titled `"New Chat"` with no messages and the fresh id. Earlier chats are unchanged, the new chat is selected, and ids stay unique |
| `ChatContext.ChatProvider.AddMessageToChat` | src/contexts/ChatContext.tsx:37-49 | The chats become `WithMessage` of the old chats, and the selection is unchanged |
| `ChatContext.ChatProvider.UpdateChatTitle` | src/contexts/ChatContext.tsx:51-63 | The chats become `WithTitle` of the old chats with the title `GetTitleFromChat(messages)`, and the selection is unchanged |
| `ChatContext.CreateTwoChats` | src/contexts/ChatContext.tsx:28-35 | Two creations add two distinct empty `"New Chat"` chats and leave the second one selected |
| `ChatPanel.HexDigit` | src/components/chat.tsx:25 | `toString(16)` of a value below 16 is one lower-case hex digit whose value is that value |
| `ChatPanel.DigitOfValue` | src/components/chat.tsx:25 | Every lower-case hex digit is the digit of its own value |
| `ChatPanel.VariantNibble` | src/components/chat.tsx:24 | `r & 0x3` combined with `0x8` by bitwise or lies in 8..11 and keeps the two low bits of `r` |
| `ChatPanel.TemplateLayout` | src/components/chat.tsx:22 | The template has dashes at 8, 13, 18 and 23, a `4` at 14, the `y` placeholder at 19 and `x` elsewhere, 36 characters in all |
| `ChatPanel.GenerateUUID` | src/components/chat.tsx:21-27 | The id has the version-4 layout: 36 characters, dashes at 8, 13, 18 and 23, `4` at 14, one of `8 9 a b` at 19, lower-case hex elsewhere. Every other position is the hex digit of its draw, and position 19 that of the variant of its draw |
| `ChatPanel.DrawsRecovered` | src/components/chat.tsx:22-26 | Every random digit can be read back from the generated id, and the variant digit keeps its draw's low two bits |
| `ChatPanel.EveryVersion4UuidGenerated` | src/components/chat.tsx:21-27 | Every string with the version-4 layout is generated from some draws, so the generator's range is exactly that layout |
| `ChatPanel.SubmitsOnKeyDown` | src/components/chat.tsx:121-126 | Only Enter submits: Enter without Shift submits, Shift+Enter does not, and no other key does |
| `ChatPanel.TrimStart` | src/components/chat.tsx:348 | A suffix of the input; everything dropped is white space and it does not start with white space |
| `ChatPanel.TrimEnd` | src/components/chat.tsx:348 | A prefix of the input; everything dropped is white space and it does not end with white space |
| `ChatPanel.TrimBothEnds` | src/components/chat.tsx:348 | Trimming the end and then the start leaves a slice of the input preceded only by white space and not ending in white space |
| `ChatPanel.Trim` | src/components/chat.tsx:348 | The slice of the input with only white space before and after it and no white space at either of its ends; empty exactly when the input is all white space |
| `ChatPanel.SendDisabled` | src/components/chat.tsx:348 | The button is disabled exactly when a reply is loading or the input holds only white space |
| `ChatPanel.VisibleMessages` | src/components/chat.tsx:201-203 | Only messages of the input with non-empty content are drawn, and every such message is drawn |
| `ChatPanel.VisibleMessagesAppend` | src/components/chat.tsx:201-203 | The filter works message by message, so the original order is kept |
| `ChatPanel.VisibleMessagesAllShown` | src/components/chat.tsx:201-203 | When every message has content, all are drawn unchanged |
| `Sidebar.TruncateTitle` | src/components/sidebar.tsx:141-144 | A title of at most 15 characters, the empty one included, is kept. A longer one becomes 18 characters: its first 15 then `"..."` |
| `Sidebar.TruncateTitleIdempotent` | src/components/sidebar.tsx:141-144 | Truncating twice is the same as truncating once |
| `Sidebar.FormatWalletAddress` | src/components/sidebar.tsx:90-93 | The empty address gives `""`. Any other gives its first min(6, len) characters, then `"..."`, then its last min(4, len) characters |
| `Sidebar.FormatWalletAddressLong` | src/components/sidebar.tsx:90-93 | An address of at least 10 characters is shown in 13. For exactly 10, dropping the `"..."` gives back the address |
| `Sidebar.ChatLabel` | src/components/sidebar.tsx:404 | The label is never empty. An empty title is shown as `"Untitled Chat"`, which is short enough not to be cut; any other title is truncated |
| `Sidebar.EmptyFirstMessageLabel` | src/components/sidebar.tsx:404 | A chat whose first message has empty content is listed as `"Untitled Chat"` |
| `Sidebar.SelectionAfterDelete` | src/components/sidebar.tsx:175-179 | A failed delete, or one of a chat other than the captured selection, keeps the current selection; a successful delete of the captured selection clears it |
| `Sidebar.SelectionAfterDeleteUnchanged` | src/components/sidebar.tsx:175-179 | When the selection did not change during the request, a successful delete leaves `""` exactly when the selection was the deleted id or already `""`; a failed one keeps it |
| `Sidebar.SelectionAfterDeleteStale` | src/components/sidebar.tsx:175-179 | A chat selected while the delete of the previously selected chat was pending is cleared once the delete succeeds, whereas it is kept when it was already the selection the handler was rendered with |
| `Sidebar.HandleChatDelete` | src/components/sidebar.tsx:175-181 | Given the request's outcome and the captured selection, the selection becomes `SelectionAfterDelete` of them and the old selection, and the list of chats is untouched |

## Left out

- Network calls:
  - the history fetch, its 10-second polling and the delete request (src/hooks/use-chat.tsx); the delete request's outcome is the `deleted` parameter of `HandleChatDelete`;
  - the prompts-left fetch (src/components/sidebar.tsx:62-73);
  - the history refetch after a successful delete (src/hooks/use-chat.tsx:46-48) and the prompts-left refetch at the end of the delete handler (src/components/sidebar.tsx:180).

  They are I/O owned by a query-caching library. The per-chat hydration in src/hooks/use-chat.tsx:21-26 is `ConvertToUIMessages` plus `GetTitleFromChat`.
- The streaming chat session (`useChat` of the AI SDK) and wallet delegation in src/components/chat.tsx:67-99. Both are foreign, asynchronous library calls. `handleKeyDown` is modelled only as its decision, `SubmitsOnKeyDown`; the `handleSubmit` it triggers is left out with the session.
- `Math.random()` and `uuidv4()`: their values are parameters, as described above. The float arithmetic `(Math.random() * 16) | 0` is represented only by its result, a nibble.
- `cn` (src/lib/utils.ts:7-9): a wrapper over class-name libraries.
- Rendering: markdown, the clipboard and its timer, outside-click and resize listeners, CSS class toggling, the credit-bar percentage (floating point), provider configuration, layout and the loading spinner.
- `ChatPanel.GenerateUUID`: one draw per template position instead of one draw per placeholder in order. The draws at the four dash positions and at position 14 are ignored, which gives the same set of outputs.
- `ChatContext.ChatProvider.CreateNewChat`: the new id is assumed fresh among the existing chat ids. The source relies on `uuidv4` for this and does not check it.
- Character counting: `TruncateTitle` and `FormatWalletAddress` count characters, not UTF-16 code units.
