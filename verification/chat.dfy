/**
 The records both chat pages share: messages, threads, model settings and the
 session value (thread history plus active selection), together with the
 outcomes of the network and persistence calls, which the model receives as
 inputs instead of performing them.
 */
module Chat {

  datatype Option<+T> = None | Some(value: T)

  /** The outcome of a persistence call: the stored record the server sent
      back, or a failure (network error, non-ok status, unparsable body). */
  datatype Saved<+T> = Stored(value: T) | NotStored

  datatype Role = User | Assistant

  /** One chat message. The in-memory page and the chat interface call the
      text field `text`; the server-backed page declares it as `content`. */
  datatype Message = Message(role: Role, text: string)

  /** A conversation. `context` is the backend's continuation token, absent
      until a reply or the server supplies one. */
  datatype Thread = Thread(id: string, name: string, messages: seq<Message>, context: Option<seq<string>>)

  datatype LLMConfig = LLMConfig(name: string, apiUrl: string)

  datatype Settings = Settings(
    llmConfigs: seq<LLMConfig>,
    selectedModel: string,
    contextPrompts: seq<string>,
    selectedContextPrompt: string)

  /** The page state: the thread list, most recent first, and the thread
      shown in the chat pane, if any. */
  datatype Session = Session(history: seq<Thread>, active: Option<Thread>)

  /** A parsed backend reply: its `response` text and its `context`, if the
      reply carried one. */
  datatype Reply = Reply(response: string, context: Option<seq<string>>)

  /** The outcome of one backend call: a parsed reply, or a failure of the
      call or of JSON parsing. */
  datatype Outcome = Replied(reply: Reply) | Failed

  const NewChatName: string := "New Chat"
  const FetchErrorText: string := "Error fetching response"

  /** The selected model names a configured model and the selected context
      prompt is one of the offered prompts. */
  predicate SelectionsValid(s: Settings) {
    && (exists i :: 0 <= i < |s.llmConfigs| && s.llmConfigs[i].name == s.selectedModel)
    && s.selectedContextPrompt in s.contextPrompts
  }

  /** The shape both pages' initial settings share: one configured model,
      which is the selected one, and the single empty context prompt, which
      is the selected one. */
  predicate SingleModelDefaults(s: Settings) {
    && |s.llmConfigs| == 1 && s.selectedModel == s.llmConfigs[0].name
    && s.contextPrompts == [""] && s.selectedContextPrompt == ""
  }

  /** The model each page configures before any stored settings arrive. */
  const LocalDefaultModel: LLMConfig := LLMConfig("qwen:0.5b", "http://localhost:11434/api/generate")
  const ServerDefaultModel: LLMConfig := LLMConfig("Llama-3.2-1B-Instruct", "http://localhost:5002/generate")

  /** The settings a page starts with, given its default model. */
  function DefaultSettings(model: LLMConfig): (s: Settings)
    ensures SingleModelDefaults(s) && SelectionsValid(s)
    ensures s.llmConfigs == [model]
  {
    Settings([model], model.name, [""], "")
  }

  /** The settings each page holds before any stored settings arrive. */
  const LocalInitialSettings: Settings := DefaultSettings(LocalDefaultModel)
  const ServerInitialSettings: Settings := DefaultSettings(ServerDefaultModel)

  /** `activeChat?.messages.length === 0`: there is an active thread and it
      has no messages yet. Both pages disable the New Chat control and make
      new-chat a no-op in exactly this state. */
  predicate NewChatDisabled(s: Session) {
    s.active.Some? && |s.active.value.messages| == 0
  }

  /** Messages alternate user, assistant, user, ... and come in complete
      pairs. */
  predicate Alternates(ms: seq<Message>) {
    && |ms| % 2 == 0
    && forall i :: 0 <= i < |ms| ==> ms[i].role == (if i % 2 == 0 then User else Assistant)
  }

  /** The assistant message a settled backend call produces. */
  function AssistantMessage(outcome: Outcome): (m: Message)
    ensures m.role == Assistant
    ensures outcome.Replied? ==> m.text == outcome.reply.response
    ensures outcome.Failed? ==> m.text == FetchErrorText
  {
    match outcome
    case Replied(reply) => Message(Assistant, reply.response)
    case Failed => Message(Assistant, FetchErrorText)
  }

  /** A single message appended to an alternating conversation leaves an
      unanswered message, so it no longer alternates. */
  lemma AppendOneBreaksAlternation(ms: seq<Message>, m: Message)
    requires Alternates(ms)
    ensures !Alternates(ms + [m])
  {
    assert |ms + [m]| % 2 == 1;
  }

  /** Appending one user/assistant pair keeps a conversation alternating. */
  lemma AlternatesAppendPair(ms: seq<Message>, u: Message, a: Message)
    requires Alternates(ms) && u.role == User && a.role == Assistant
    ensures Alternates(ms + [u, a])
  {
    var ms' := ms + [u, a];
    forall i | 0 <= i < |ms'|
      ensures ms'[i].role == (if i % 2 == 0 then User else Assistant)
    {
      if i >= |ms| {
        assert i == |ms| || i == |ms| + 1;
      }
    }
  }
}
