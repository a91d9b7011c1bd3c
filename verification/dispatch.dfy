/**
 One send turn of the chat interface (`sendPrompt`), as a pure transition.
 The turn has two halves around the backend call: `Submit` (guard, naming,
 optimistic user message, request payload, busy flag) and `Settle` (apply the
 reply or the failure, clear the busy flag). The backend's answer is the
 `Outcome` parameter; the endpoint comes from the environment and the
 configured model list is not consulted.
 */
module Dispatch {
  import opened Chat
  import opened Text

  /** A thread is named after at most this many characters of its first
      prompt. */
  const TitleLength: nat := 25

  /** The JSON body sent to the backend. `context` stands for a key that is
      present or absent. */
  datatype Payload = Payload(model: string, prompt: string, stream: bool, context: Option<seq<string>>)

  /** The chat interface's own state: the text in the input box and the
      loading flag that disables input and the send button. */
  datatype Composer = Composer(input: string, loading: bool)

  /** What pressing send does: nothing (blank input), or commit `pending`
      right away, post `payload`, and show the interface as `composer`. */
  datatype Submission = Ignored | Sent(pending: Thread, payload: Payload, composer: Composer)

  /** A whole turn: nothing happened, or the optimistic commit, the request,
      the final commit, and the composer while busy and after settling. */
  datatype Exchange =
    | Unchanged
    | Exchanged(optimistic: Thread, payload: Payload, settled: Thread, busy: Composer, idle: Composer)

  /** `prompt.trim().slice(0, 25)`. */
  function Title(prompt: string): (r: string)
    ensures |r| <= TitleLength
    ensures r <= Trim(prompt)
    ensures |r| == TitleLength || r == Trim(prompt)
  {
    Prefix(Trim(prompt), TitleLength)
  }

  /** The thread name after a send: a thread without messages is named
      after the prompt, any other keeps its name. */
  function NameAfterSend(chat: Thread, prompt: string): (r: string)
    ensures |chat.messages| == 0 ==> r == Title(prompt)
    ensures |chat.messages| != 0 ==> r == chat.name
  {
    if |chat.messages| == 0 then Title(prompt) else chat.name
  }

  /** The request body: the selected model, the raw prompt, no streaming,
      and the thread's context only when it has one. */
  function BuildPayload(settings: Settings, prompt: string, chat: Thread): (p: Payload)
    ensures p.model == settings.selectedModel && p.prompt == prompt && !p.stream
    ensures p.context.Some? <==> chat.context.Some?
    ensures chat.context.Some? ==> p.context == chat.context
  {
    Payload(settings.selectedModel, prompt, false, chat.context)
  }

  /** The first half of `sendPrompt`. A blank input does nothing. Otherwise
      the thread gets its name, the raw input as a user message, and is
      committed; the input is cleared and the interface shows loading. */
  function Submit(chat: Thread, c: Composer, settings: Settings): (r: Submission)
    ensures r.Ignored? <==> AllWhitespace(c.input)
    ensures r.Sent? ==>
      && r.pending.id == chat.id
      && r.pending.name == NameAfterSend(chat, c.input)
      && r.pending.messages == chat.messages + [Message(User, c.input)]
      && r.pending.context == chat.context
      && r.payload == BuildPayload(settings, c.input, r.pending)
      && r.composer == Composer("", true)
  {
    if Trim(c.input) == [] then Ignored
    else
      var named := chat.(name := NameAfterSend(chat, c.input));
      var pending := named.(messages := named.messages + [Message(User, c.input)]);
      Sent(pending, BuildPayload(settings, c.input, pending), Composer("", true))
  }

  /** The context after a settled call: replaced wholesale by a reply that
      carries one, kept otherwise (and always kept on failure). */
  function NextContext(current: Option<seq<string>>, outcome: Outcome): (r: Option<seq<string>>)
    ensures outcome.Replied? && outcome.reply.context.Some? ==> r == outcome.reply.context
    ensures outcome.Failed? || outcome.reply.context.None? ==> r == current
  {
    if outcome.Replied? && outcome.reply.context.Some? then outcome.reply.context else current
  }

  /** The second half of `sendPrompt`: apply the outcome to the pending
      thread and clear the loading flag. */
  function Settle(pending: Thread, c: Composer, outcome: Outcome): (r: (Thread, Composer))
    ensures r.0.id == pending.id && r.0.name == pending.name
    ensures r.0.messages == pending.messages + [AssistantMessage(outcome)]
    ensures r.0.context == NextContext(pending.context, outcome)
    ensures r.1 == c.(loading := false)
  {
    var t := pending.(context := NextContext(pending.context, outcome));
    (t.(messages := t.messages + [AssistantMessage(outcome)]), c.(loading := false))
  }

  /** A whole send turn on `chat` with `c.input` as the prompt. */
  function SendPrompt(chat: Thread, c: Composer, settings: Settings, outcome: Outcome): (r: Exchange)
    ensures r.Unchanged? <==> AllWhitespace(c.input)
    ensures r.Exchanged? ==> r.busy.loading && !r.idle.loading && r.busy.input == [] && r.idle.input == []
  {
    match Submit(chat, c, settings)
    case Ignored => Unchanged
    case Sent(pending, payload, busy) =>
      var (settled, idle) := Settle(pending, busy, outcome);
      Exchanged(pending, payload, settled, busy, idle)
  }

  /** The thread after a turn with prompt `prompt` (unchanged if blank). */
  function Turn(chat: Thread, prompt: string, settings: Settings, outcome: Outcome): Thread {
    match SendPrompt(chat, Composer(prompt, false), settings, outcome)
    case Unchanged => chat
    case Exchanged(_, _, settled, _, _) => settled
  }

  /** A completed turn appends exactly the raw user prompt and then the
      assistant reply or the error text; the earlier messages stay as they
      were, and the id never changes. */
  lemma TurnAppendsPair(chat: Thread, c: Composer, settings: Settings, outcome: Outcome)
    requires !AllWhitespace(c.input)
    ensures var r := SendPrompt(chat, c, settings, outcome);
      && r.Exchanged?
      && r.optimistic.messages == chat.messages + [Message(User, c.input)]
      && r.settled.messages == chat.messages + [Message(User, c.input), AssistantMessage(outcome)]
      && |r.settled.messages| == |chat.messages| + 2
      && r.settled.id == chat.id
  {
  }

  /** On failure the last message is the fixed error text and the context is
      the one the thread had. */
  lemma FailedTurnKeepsContext(chat: Thread, c: Composer, settings: Settings)
    requires !AllWhitespace(c.input)
    ensures var r := SendPrompt(chat, c, settings, Failed);
      && r.Exchanged?
      && r.settled.messages[|r.settled.messages| - 1] == Message(Assistant, FetchErrorText)
      && r.settled.context == chat.context
  {
  }

  /** The request carries the raw input, untrimmed, and the context the
      thread had before the turn. */
  lemma PayloadCarriesRawPrompt(chat: Thread, c: Composer, settings: Settings, outcome: Outcome)
    requires !AllWhitespace(c.input)
    ensures var r := SendPrompt(chat, c, settings, outcome);
      && r.Exchanged?
      && r.payload == Payload(settings.selectedModel, c.input, false, chat.context)
  {
  }

  /** One step of a conversation: a prompt typed and the outcome of the call
      it would make. */
  datatype Step = Step(prompt: string, outcome: Outcome)

  /** The thread after a sequence of send attempts, in order. */
  function Run(chat: Thread, settings: Settings, steps: seq<Step>): Thread
    decreases |steps|
  {
    if |steps| == 0 then chat
    else Run(Turn(chat, steps[0].prompt, settings, steps[0].outcome), settings, steps[1..])
  }

  /** Number of steps whose prompt is not blank. */
  function SentCount(steps: seq<Step>): (n: nat)
    ensures n <= |steps|
  {
    if |steps| == 0 then 0
    else (if AllWhitespace(steps[0].prompt) then 0 else 1) + SentCount(steps[1..])
  }

  /** Reference definition of the continuation context after a
      conversation: the context of the last sent step whose reply carried
      one, or the initial context when none did. */
  function LatestContext(initial: Option<seq<string>>, steps: seq<Step>): Option<seq<string>>
  {
    if |steps| == 0 then initial
    else
      var last := steps[|steps| - 1];
      if !AllWhitespace(last.prompt) && last.outcome.Replied? && last.outcome.reply.context.Some?
      then last.outcome.reply.context
      else LatestContext(initial, steps[..|steps| - 1])
  }

  /** One turn's effect on the context: a blank prompt keeps it, a sent
      prompt applies the context rule. */
  lemma TurnContext(chat: Thread, prompt: string, settings: Settings, outcome: Outcome)
    ensures Turn(chat, prompt, settings, outcome).context
      == if AllWhitespace(prompt) then chat.context else NextContext(chat.context, outcome)
  {
  }

  /** `LatestContext` read from the front: the first step's effect on the
      context, then the rest of the conversation. */
  lemma {:induction false} LatestContextCons(initial: Option<seq<string>>, steps: seq<Step>)
    requires |steps| > 0
    ensures LatestContext(initial, steps)
      == LatestContext(if AllWhitespace(steps[0].prompt) then initial else NextContext(initial, steps[0].outcome), steps[1..])
    decreases |steps|
  {
    if |steps| > 1 {
      var init := steps[..|steps| - 1];
      assert init[0] == steps[0];
      assert init[1..] == steps[1..][..|steps[1..]| - 1];
      LatestContextCons(initial, init);
    }
  }

  /** The continuation context after any conversation is the latest one a
      reply carried: a reply without context keeps the previous one, a reply
      with context replaces it, and failures never touch it. */
  lemma {:induction false} RunContext(chat: Thread, settings: Settings, steps: seq<Step>)
    ensures Run(chat, settings, steps).context == LatestContext(chat.context, steps)
    decreases |steps|
  {
    if |steps| > 0 {
      var next := Turn(chat, steps[0].prompt, settings, steps[0].outcome);
      TurnContext(chat, steps[0].prompt, settings, steps[0].outcome);
      RunContext(next, settings, steps[1..]);
      LatestContextCons(chat.context, steps);
    }
  }

  /** Every sent prompt adds exactly two messages, user then assistant, so a
      conversation that starts alternating stays alternating, and the
      earlier messages are kept as a prefix. */
  lemma {:induction false} RunMessages(chat: Thread, settings: Settings, steps: seq<Step>)
    ensures var r := Run(chat, settings, steps);
      && |r.messages| == |chat.messages| + 2 * SentCount(steps)
      && chat.messages <= r.messages
      && (Alternates(chat.messages) ==> Alternates(r.messages))
      && r.id == chat.id
    decreases |steps|
  {
    if |steps| > 0 {
      var s := steps[0];
      var next := Turn(chat, s.prompt, settings, s.outcome);
      if !AllWhitespace(s.prompt) {
        TurnAppendsPair(chat, Composer(s.prompt, false), settings, s.outcome);
        if Alternates(chat.messages) {
          AlternatesAppendPair(chat.messages, Message(User, s.prompt), AssistantMessage(s.outcome));
        }
      }
      RunMessages(next, settings, steps[1..]);
    }
  }

  /** Only the first sent prompt names a thread: once a thread has messages
      no later turn renames it. */
  lemma {:induction false} RunKeepsName(chat: Thread, settings: Settings, steps: seq<Step>)
    requires |chat.messages| > 0
    ensures Run(chat, settings, steps).name == chat.name
    decreases |steps|
  {
    if |steps| > 0 {
      var next := Turn(chat, steps[0].prompt, settings, steps[0].outcome);
      RunKeepsName(next, settings, steps[1..]);
    }
  }
}
