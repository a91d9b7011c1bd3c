# Chat session state machine

A Dafny model of the conversation logic of a local-LLM chat front end. The app
keeps a list of chat threads (most recent first) and an active thread. A user
can start a new chat, send a prompt in the active thread, or delete a thread.
Two pages implement this. The in-memory page keeps everything in React state.
The server-backed page applies each change only after a thread store answers.
The chat interface's `sendPrompt` runs one turn: it rejects blank input, names
a fresh thread after the prompt, and appends the user message at once. It then
posts the prompt with the thread's continuation context to the model backend.
Last, it appends the reply (or a fixed error text) and keeps or replaces the
context. A separate widget runs the same turn over a flat message list without
context.

Everything is a pure function over immutable values. Every network or storage
answer is an input parameter: `Outcome` (a parsed backend reply or a failure)
and `Saved<T>` (the record the store returned, or a failure). Nothing is a side
effect.

Modules:
- `Text`: JavaScript `trim` and `slice(0, n)` over `string`.
- `Chat`: `Message`, `Thread`, `Settings`, `Session`, the default settings, and
  the New Chat rule.
- `History`: replace-by-id and remove-by-id over the thread list.
- `LocalSession`: the in-memory page.
- `ServerSession`: the server-backed page.
- `Dispatch`: the chat interface's send turn, and lemmas over whole
  conversations.
- `OllamaChat`: the standalone widget.

Message text is called `text` here, as in `chatbot/src/app/page.tsx` and the
chat interface. `chatbot/src/app/chatbot/page.tsx` declares the same field as
`content`, but it renders the same chat interface, which reads `text`.

## Model

| member | source | states |
|---|---|---|
| Chat.DefaultSettings | chatbot/src/app/page.tsx:42-49 | A page starts with exactly its one default model configured, and the selected model is that config's name. The context prompts are `[""]` and the selected prompt is `""`, so both selections are valid. The in-memory page uses `qwen:0.5b` (`LocalDefaultModel`, giving `LocalInitialSettings`); the server-backed page, at chatbot/src/app/chatbot/page.tsx:39-46, uses `Llama-3.2-1B-Instruct` (`ServerDefaultModel`, giving `ServerInitialSettings`). |
| Chat.AssistantMessage | chatbot/src/app/components/ChatInterface.tsx:83-101 | A settled call yields one assistant-role message. Its text is the reply's `response` on success and "Error fetching response" on failure. |
| Text.Trim | chatbot/src/app/components/ChatInterface.tsx:20 | `trim` returns a contiguous part of the prompt with only whitespace before and after it. That part is empty exactly when the prompt is all ECMAScript whitespace; otherwise it starts and ends with a non-whitespace character. |
| Text.TrimUnique | chatbot/src/app/components/ChatInterface.tsx:27 | Any split of the prompt into leading whitespace, a middle that is empty or has non-whitespace ends, and trailing whitespace has `Trim`'s result as its middle. So the name is cut from exactly the prompt without its surrounding whitespace. |
| Dispatch.Title | chatbot/src/app/components/ChatInterface.tsx:27 | The name taken from a prompt is a prefix of the trimmed prompt. It is at most 25 characters long, and shorter only when it is the whole trimmed prompt. |
| Dispatch.NameAfterSend | chatbot/src/app/components/ChatInterface.tsx:25-28 | A thread with no messages is renamed after the prompt. Any other thread keeps its name. |
| Dispatch.BuildPayload | chatbot/src/app/components/ChatInterface.tsx:48-59 | The payload has the selected model, the raw prompt and `stream = false`. The `context` key is present exactly when the thread has a context, and then it carries that context. |
| Dispatch.Submit | chatbot/src/app/components/ChatInterface.tsx:19-40 | Blank input is ignored (both directions). Otherwise the committed thread keeps its id and context and gets its name by the naming rule. Its messages are the old ones plus exactly one user message holding the raw, untrimmed input. The payload is built from that thread. The input is cleared and loading turns on. |
| Dispatch.NextContext | chatbot/src/app/components/ChatInterface.tsx:74-80 | A reply that carries a context replaces the thread's context wholesale, even when that context is empty. A reply without one, or a failure, keeps the old context. |
| Dispatch.Settle | chatbot/src/app/components/ChatInterface.tsx:74-105 | Settling appends exactly one assistant message to the pending thread. It keeps the id and name, applies the context rule and turns loading off. |
| Dispatch.SendPrompt | chatbot/src/app/components/ChatInterface.tsx:19-106 | A turn happens exactly when the input is not blank. In a turn, loading is on while the call is out and off afterwards, and the input is empty both times. |
| Dispatch.TurnAppendsPair | chatbot/src/app/components/ChatInterface.tsx:30-91 | The optimistic commit is the old messages plus the user message. The final commit is the old messages plus user, then assistant: two messages more, with the same id. |
| Dispatch.FailedTurnKeepsContext | chatbot/src/app/components/ChatInterface.tsx:92-102 | On failure the last message is the assistant's "Error fetching response" and the context is unchanged. |
| Dispatch.PayloadCarriesRawPrompt | chatbot/src/app/components/ChatInterface.tsx:39-59 | The request carries the raw input with no tagging, the selected model, no streaming, and the context the thread had before the turn. |
| Dispatch.RunContext | chatbot/src/app/components/ChatInterface.tsx:54-80 | After any sequence of sends, the context is the one carried by the last reply that had one, or the initial context if none did. Replies without context and failures never change it, and later contexts replace earlier ones without merging. |
| Dispatch.RunMessages | chatbot/src/app/components/ChatInterface.tsx:30-102 | For any thread, each non-blank send adds exactly two messages, the old messages stay a prefix and the id never changes. A conversation that alternates user/assistant stays alternating. |
| Dispatch.TurnContext | chatbot/src/app/components/ChatInterface.tsx:74-80 | One turn leaves the context alone for a blank prompt and applies the keep-or-replace rule otherwise. |
| Dispatch.RunKeepsName | chatbot/src/app/components/ChatInterface.tsx:26-28 | Once a thread has messages, no later send renames it. |
| History.ReplaceById | chatbot/src/app/page.tsx:67-69 | Replace keeps the list length. Each position whose id matches now holds the new thread, and every other position is untouched. |
| History.ReplaceKeepsIds | chatbot/src/app/page.tsx:67-69 | Replace leaves the sequence of ids, and so the order, unchanged. |
| History.ReplaceUnknownId | chatbot/src/app/page.tsx:67-69 | Replacing with an id that is not in the list leaves the list as it was. |
| History.RemoveById | chatbot/src/app/chatbot/page.tsx:166 | The filtered list contains exactly the threads of the old list whose id differs from the removed one. |
| History.RemoveCount | chatbot/src/app/chatbot/page.tsx:166 | Filtering shortens the list by exactly the number of threads carrying the id. |
| History.RemoveAppend | chatbot/src/app/chatbot/page.tsx:166 | Filtering distributes over concatenation, so the kept threads stay in their original relative order. |
| History.RemoveIdempotent | chatbot/src/app/chatbot/page.tsx:166 | Filtering twice by the same id is the same as filtering once. |
| LocalSession.FreshThread | chatbot/src/app/page.tsx:55-59 | A new in-memory thread has the given id, the name "New Chat", no messages and no context field. |
| LocalSession.NewChat | chatbot/src/app/page.tsx:53-63 | New chat is a no-op when the active thread exists and is empty. Otherwise the fresh thread is prepended and made active: the history grows by one and the old entries follow in order. |
| LocalSession.NewChatChangesIffEnabled | chatbot/src/app/page.tsx:54 | New chat changes the session exactly when the disable-new-chat flag (`chatbot/src/app/page.tsx:83`) is false. |
| LocalSession.NewChatTwice | chatbot/src/app/page.tsx:53-63 | Two presses in a row create a single thread, because the second finds an empty active thread. |
| LocalSession.NewChatConsistent | chatbot/src/app/page.tsx:53-63 | New chat keeps the invariant that the active thread is one of the history entries. |
| LocalSession.UpdateChat | chatbot/src/app/page.tsx:65-71 | Update keeps the length and the ids. It replaces exactly the entries with the thread's id, and the thread becomes active. |
| LocalSession.UpdateUnknownKeepsHistory | chatbot/src/app/page.tsx:65-71 | When no entry has the thread's id, the history is unchanged, yet the thread still becomes active. |
| LocalSession.UpdateActiveConsistent | chatbot/src/app/page.tsx:65-71 | Updating the active thread keeps the active thread listed in the history. |
| LocalSession.UpdateLastWriteWins | chatbot/src/app/page.tsx:65-71 | A second update of the same thread supersedes the first entirely. |
| LocalSession.Select | chatbot/src/app/page.tsx:91 | Selecting from the sidebar makes the thread active and leaves the history alone. |
| LocalSession.SelectConsistent | chatbot/src/app/page.tsx:91 | Selecting a listed thread keeps the invariant. |
| LocalSession.SendPrompt | chatbot/src/app/components/ChatInterface.tsx:19-106 | Without an active thread, or with blank input, nothing changes. Otherwise the history keeps its length, and the active thread gains exactly the user message and the assistant message. Afterwards the interface is idle with an empty input. |
| LocalSession.SendPromptIsOneUpdate | chatbot/src/app/components/ChatInterface.tsx:36-91 | On the in-memory page the optimistic commit is fully superseded. The turn's result equals one update with the settled thread. |
| LocalSession.NewChatDuringSendIsUndone | chatbot/src/app/page.tsx:53-71 | New Chat is enabled while a send is out, because the active thread already holds the user message. The send's final update then makes the old thread active again, and the new empty thread stays in the history, one entry longer. |
| LocalSession.SendPromptConsistent | chatbot/src/app/components/ChatInterface.tsx:36-102 | A send keeps the invariant that the active thread is listed. |
| ServerSession.NewChatDraft | chatbot/src/app/chatbot/page.tsx:100-104 | The draft is named "New Chat" and has no messages. Its context is `[selectedContextPrompt]` when that prompt is non-empty and `[]` otherwise. |
| ServerSession.NewChatRequest | chatbot/src/app/chatbot/page.tsx:97-111 | No create request is sent exactly when the New Chat control is disabled (`chatbot/src/app/chatbot/page.tsx:181`). Otherwise the request carries the draft. |
| ServerSession.ApplyCreated | chatbot/src/app/chatbot/page.tsx:115-121 | When the create request answers, a stored thread is prepended and made active without the guard being checked again; a failed create changes nothing. |
| ServerSession.DoublePressCreatesTwo | chatbot/src/app/chatbot/page.tsx:97-122 | Nothing changes while a create is out, so a second press on the same session sends a second request, and two stored answers leave both new threads first in the history, the later one active. |
| ServerSession.NewChat | chatbot/src/app/chatbot/page.tsx:97-122 | A refused press or a failed create changes nothing. On success the created thread is prepended and becomes active, so the history grows by one. |
| ServerSession.NewChatConsistent | chatbot/src/app/chatbot/page.tsx:115-118 | Creating keeps the invariant that the active thread is listed. |
| ServerSession.UpdateChat | chatbot/src/app/chatbot/page.tsx:124-151 | A thread with an empty id, or a failed update, changes nothing. On success, exactly the entries with the returned thread's id are replaced by it. The length, ids and order are kept, and the returned thread becomes active. |
| ServerSession.DeleteChat | chatbot/src/app/chatbot/page.tsx:158-173 | A failed delete changes nothing. A successful one filters the id out of the history and clears the active thread exactly when its id matches; otherwise the active thread is kept. |
| ServerSession.DeleteSelection | chatbot/src/app/chatbot/page.tsx:166-169 | After a delete there is no active thread exactly when there was none or it was the deleted one. A remaining active thread is the old one, and no thread with the id is left. |
| ServerSession.DeleteConsistent | chatbot/src/app/chatbot/page.tsx:158-173 | Deleting keeps the invariant that the active thread is listed. |
| ServerSession.SendPrompt | chatbot/src/app/components/ChatInterface.tsx:19-106 | On the server-backed page, no active thread, an active thread without an id, or blank input changes nothing. Whatever the store answers, the history keeps its length and its ids in order. The store's copy from the last update it accepted becomes active and replaces every entry with its id; if it accepted neither, the session is unchanged. Every entry whose id matches neither accepted copy is left as it was. After a send the interface is idle with an empty input. |
| ServerSession.HalfStoredTurn | chatbot/src/app/chatbot/page.tsx:139-147 | If the store accepts the first update and rejects the second, the active thread ends with the user message and no reply, so an alternating conversation stops alternating. |
| ServerSession.EchoingStoreMatchesLocal | chatbot/src/app/chatbot/page.tsx:143-147 | When the store echoes each update, a server-backed send ends exactly where the in-memory send does. |
| ServerSession.FailingStoreLosesTurn | chatbot/src/app/chatbot/page.tsx:139-150 | When the store rejects both updates, the session is untouched, even the user's message is missing: nothing is applied before the store answers. |
| OllamaChat.Submit | chatbot/src/app/components/OllamaChat.tsx:21-35 | No request is sent exactly when the input is blank, and then nothing changes. Otherwise the raw input is appended as a user message, the input is cleared, loading turns on, and the request body holds only the raw prompt. |
| OllamaChat.Settle | chatbot/src/app/components/OllamaChat.tsx:37-46 | Settling appends exactly one assistant message, the reply text or "Error fetching response", and turns loading off. |
| OllamaChat.SendAppendsPair | chatbot/src/app/components/OllamaChat.tsx:21-47 | A completed send adds the raw prompt and then the assistant message, and leaves the widget idle with an empty input. |
| OllamaChat.RunAlternates | chatbot/src/app/components/OllamaChat.tsx:21-47 | `n` non-blank sends add `2n` messages. The old ones stay a prefix and the list stays alternating user/assistant, starting with the user. |

## Left out

- Network and browser calls are not modelled; their results are parameters. This covers `fetch`, the loading of the thread list and settings on mount, restoring and persisting `activeChatId` through `localStorage`, scrolling, and console logging.
- The id of an in-memory thread comes from `Date.now()`. It is a parameter, so ids are not assumed unique.
- HTTP status: the chat interface never checks `res.ok`, so a body that parses as a JSON object is a reply, whatever its status. A body that parses to `null` makes `data.context` (ChatInterface.tsx) or `data.response` (OllamaChat.tsx) throw, so the turn takes the error branch: it is a `Failed` outcome. Only "failed" versus "parsed reply" is modelled.
- A reply is assumed to carry a string `response` and, optionally, an array of strings as `context`. A missing `response` (which would give an `undefined` message text) is not modelled. A non-array truthy `context` is not modelled either. Falsy values (`null`, `0`, `""`) count as "no context".
- Dispatch.Title: counts characters, while JavaScript's `slice` counts UTF-16 code units. The two differ only for prompts with characters outside the Basic Multilingual Plane, where `slice` can split a surrogate pair.
- ServerSession.NewChat: treats a press and its answer as one step. In the page the guard reads a session the pending create has not yet changed, so New Chat stays enabled while the request is out; `ApplyCreated` and `DoublePressCreatesTwo` show that two presses then add two empty threads, but other orders of answers and presses are not modelled.
- ServerSession.SendPrompt: the chat interface does not await the two `updateChat` calls it makes. The store's answers could therefore arrive, and be applied, in either order. The model applies them in the order issued.
- LocalSession.SendPrompt: treats a send as one step, with nothing between its two commits. In the page, New Chat and the sidebar stay usable while the call is out, and the send's final update then re-selects the old thread; `NewChatDuringSendIsUndone` shows this for New Chat, but other interleavings (a selection, or the same on the server-backed page via ServerSession.SendPrompt) are not modelled.
- A second send while loading is prevented only by disabling the input and the button. The model's `Submit` does not consult the loading flag, like the source.
- The server-backed page passes `onDeleteChat` to `chatbot/src/app/components/ChatSidebar.tsx`, but that component never reads the prop, so nothing in the shown UI triggers a delete. `DeleteChat` models the handler as written.
- The request URLs, headers and the PUT body's field selection (name, messages, context, with the id in the URL) are not modelled. The update guard on the id is modelled.
- The settings modal, header, sidebar rendering, the Next.js proxy handler (`chatbot/src/app/api/ollama.ts`) and the Python inference server (`llm/app.py`) are presentation or I/O glue.
- The code has no model lookup by name and no "config not found" error, no context-prompt tagging of the outgoing prompt, no aggregation of newline-delimited streaming replies, and no busy flag enforced outside the UI. It uses a fixed endpoint from an environment variable, sends the raw prompt, asks for `stream: false` and reads one JSON object. The model does the same.
- Whether a new thread seeds its context from the selected context prompt differs between the pages. The in-memory page omits the context field; the server-backed page sends `[prompt]` or `[]`. Both are modelled as written.
