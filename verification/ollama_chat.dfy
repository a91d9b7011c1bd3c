/**
 The standalone chat widget: one flat message list, no threads, no context.
 A send appends the user's message at once and the assistant's message when
 the call settles; the call's outcome is a parameter.
 */
module OllamaChat {
  import opened Chat
  import opened Text
  import Dispatch

  /** The widget's state: its messages, the input box and the loading flag. */
  datatype State = State(messages: seq<Message>, input: string, loading: bool)

  /** The request body: the prompt and nothing else. */
  datatype Request = Request(prompt: string)

  /** The first half of `sendPrompt`: a blank input changes nothing and
      sends nothing; otherwise the raw input is appended as a user message,
      the input is cleared, loading is shown, and the raw input is sent. */
  function Submit(st: State): (r: (State, Option<Request>))
    ensures r.1.None? <==> AllWhitespace(st.input)
    ensures r.1.None? ==> r.0 == st
    ensures r.1.Some? ==>
      && r.1.value == Request(st.input)
      && r.0 == State(st.messages + [Message(User, st.input)], "", true)
  {
    if Trim(st.input) == [] then (st, None)
    else (State(st.messages + [Message(User, st.input)], "", true), Some(Request(st.input)))
  }

  /** The second half: exactly one assistant message, the reply text or the
      fixed error text, is appended to the current list, and loading ends. */
  function Settle(st: State, outcome: Outcome): (r: State)
    ensures r.messages == st.messages + [AssistantMessage(outcome)]
    ensures r.input == st.input && !r.loading
  {
    State(st.messages + [AssistantMessage(outcome)], st.input, false)
  }

  /** A whole send: submit, then settle if a request went out. */
  function Send(st: State, outcome: Outcome): State {
    var (busy, request) := Submit(st);
    if request.Some? then Settle(busy, outcome) else busy
  }

  /** A completed send adds exactly two messages, the raw prompt and then
      the reply, and leaves the widget idle with an empty input. */
  lemma SendAppendsPair(st: State, outcome: Outcome)
    requires !AllWhitespace(st.input)
    ensures Send(st, outcome) == State(st.messages + [Message(User, st.input), AssistantMessage(outcome)], "", false)
  {
  }

  /** The state after a sequence of sends, each with its typed prompt. */
  function Run(st: State, steps: seq<Dispatch.Step>): State
    decreases |steps|
  {
    if |steps| == 0 then st
    else Run(Send(st.(input := steps[0].prompt), steps[0].outcome), steps[1..])
  }

  /** From an empty widget, `n` sent prompts leave `2n` messages alternating
      user and assistant, starting with the user. */
  lemma {:induction false} RunAlternates(st: State, steps: seq<Dispatch.Step>)
    requires Alternates(st.messages)
    ensures var r := Run(st, steps);
      && |r.messages| == |st.messages| + 2 * Dispatch.SentCount(steps)
      && st.messages <= r.messages
      && Alternates(r.messages)
    decreases |steps|
  {
    if |steps| > 0 {
      var st' := st.(input := steps[0].prompt);
      if !AllWhitespace(steps[0].prompt) {
        SendAppendsPair(st', steps[0].outcome);
        AlternatesAppendPair(st.messages, Message(User, steps[0].prompt), AssistantMessage(steps[0].outcome));
      }
      RunAlternates(Send(st', steps[0].outcome), steps[1..]);
    }
  }
}
