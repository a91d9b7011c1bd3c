/**
 The in-memory chat page: new chat, update chat and selection over a
 `Session`, with no persistence. The id of a new thread (the page derives it
 from the clock) is a parameter.
 */
module LocalSession {
  import opened Chat
  import opened History
  import opened Dispatch
  import opened Text

  /** The thread the page creates: named "New Chat", no messages and no
      context field. */
  function FreshThread(id: string): (t: Thread)
    ensures t.id == id && t.name == NewChatName
    ensures t.messages == [] && t.context.None?
  {
    Thread(id, NewChatName, [], None)
  }

  /** `handleNewChat`: refused while the active thread is still empty;
      otherwise a fresh thread becomes active and is put first in the
      history. */
  function NewChat(s: Session, id: string): (r: Session)
    ensures NewChatDisabled(s) ==> r == s
    ensures !NewChatDisabled(s) ==>
      && |r.history| == |s.history| + 1
      && r.history[1..] == s.history
      && r.active == Some(r.history[0])
      && r.history[0] == FreshThread(id)
  {
    if NewChatDisabled(s) then s
    else
      var t := FreshThread(id);
      Session([t] + s.history, Some(t))
  }

  /** `updateChat`: every history entry with the thread's id is replaced by
      it, and it becomes active whether or not an entry matched. */
  function UpdateChat(s: Session, t: Thread): (r: Session)
    ensures |r.history| == |s.history|
    ensures Ids(r.history) == Ids(s.history)
    ensures forall i :: 0 <= i < |r.history| ==>
      r.history[i] == if s.history[i].id == t.id then t else s.history[i]
    ensures r.active == Some(t)
  {
    ReplaceKeepsIds(s.history, t);
    Session(ReplaceById(s.history, t), Some(t))
  }

  /** `onSelectChat={setActiveChat}`: the sidebar makes a thread active. */
  function Select(s: Session, t: Thread): (r: Session)
    ensures r.history == s.history && r.active == Some(t)
  {
    s.(active := Some(t))
  }

  /** The page's state invariant: the active thread, if any, is one of the
      history entries. */
  predicate Consistent(s: Session) {
    s.active.Some? ==> s.active.value in s.history
  }

  /** New chat changes the session exactly when the control is enabled. */
  lemma NewChatChangesIffEnabled(s: Session, id: string)
    ensures NewChat(s, id) != s <==> !NewChatDisabled(s)
  {
    if !NewChatDisabled(s) {
      assert |NewChat(s, id).history| != |s.history|;
    }
  }

  /** Pressing New Chat twice creates one thread: the second press finds the
      new, empty thread active and is refused. */
  lemma NewChatTwice(s: Session, id1: string, id2: string)
    ensures NewChat(NewChat(s, id1), id2) == NewChat(s, id1)
  {
  }

  lemma NewChatConsistent(s: Session, id: string)
    requires Consistent(s)
    ensures Consistent(NewChat(s, id))
  {
    if !NewChatDisabled(s) {
      assert NewChat(s, id).history[0] in NewChat(s, id).history;
    }
  }

  lemma SelectConsistent(s: Session, t: Thread)
    requires t in s.history
    ensures Consistent(Select(s, t))
  {
  }

  /** Updating the active thread (same id) keeps the invariant. */
  lemma UpdateActiveConsistent(s: Session, t: Thread)
    requires Consistent(s) && s.active.Some? && s.active.value.id == t.id
    ensures Consistent(UpdateChat(s, t))
  {
    var i :| 0 <= i < |s.history| && s.history[i] == s.active.value;
    ReplaceKnownId(s.history, t, i);
  }

  /** Updating with an id the history does not hold leaves the history as it
      was, yet still makes the thread active. */
  lemma UpdateUnknownKeepsHistory(s: Session, t: Thread)
    requires forall i :: 0 <= i < |s.history| ==> s.history[i].id != t.id
    ensures UpdateChat(s, t).history == s.history
    ensures UpdateChat(s, t).active == Some(t)
  {
    ReplaceUnknownId(s.history, t);
  }

  /** A later update of the same thread supersedes an earlier one. */
  lemma UpdateLastWriteWins(s: Session, t1: Thread, t2: Thread)
    requires t1.id == t2.id
    ensures UpdateChat(UpdateChat(s, t1), t2) == UpdateChat(s, t2)
  {
  }

  /** The chat interface's send on the in-memory page: the optimistic commit
      and the final commit both go through `UpdateChat`. Without an active
      thread there is no chat interface and nothing happens. */
  function SendPrompt(s: Session, c: Composer, settings: Settings, outcome: Outcome): (r: (Session, Composer))
    ensures s.active.None? || AllWhitespace(c.input) ==> r == (s, c)
    ensures s.active.Some? && !AllWhitespace(c.input) ==>
      && |r.0.history| == |s.history|
      && r.0.active.Some?
      && r.0.active.value.messages == s.active.value.messages + [Message(User, c.input), AssistantMessage(outcome)]
      && r.1 == Composer("", false)
  {
    if s.active.None? then (s, c)
    else match Dispatch.SendPrompt(s.active.value, c, settings, outcome)
      case Unchanged => (s, c)
      case Exchanged(optimistic, _, settled, _, idle) =>
        TurnAppendsPair(s.active.value, c, settings, outcome);
        (UpdateChat(UpdateChat(s, optimistic), settled), idle)
  }

  /** A send on the in-memory page ends as a single update with the settled
      thread: the optimistic commit is fully superseded. */
  lemma SendPromptIsOneUpdate(s: Session, c: Composer, settings: Settings, outcome: Outcome)
    requires s.active.Some? && !AllWhitespace(c.input)
    ensures SendPrompt(s, c, settings, outcome).0
      == UpdateChat(s, Turn(s.active.value, c.input, settings, outcome))
  {
    var r := Dispatch.SendPrompt(s.active.value, c, settings, outcome);
    var r' := Dispatch.SendPrompt(s.active.value, Composer(c.input, false), settings, outcome);
    assert r.optimistic == r'.optimistic && r.settled == r'.settled;
    UpdateLastWriteWins(s, r.optimistic, r.settled);
  }

  /** A send keeps the page's invariant. */
  lemma SendPromptConsistent(s: Session, c: Composer, settings: Settings, outcome: Outcome)
    requires Consistent(s)
    ensures Consistent(SendPrompt(s, c, settings, outcome).0)
  {
    if s.active.Some? && !AllWhitespace(c.input) {
      var r := Dispatch.SendPrompt(s.active.value, c, settings, outcome);
      UpdateActiveConsistent(s, r.optimistic);
      UpdateActiveConsistent(UpdateChat(s, r.optimistic), r.settled);
    }
  }

  /** New Chat stays enabled while a send is in flight (the active thread
      already holds the user's message), and the final commit of the send
      makes the old thread active again. The fresh, empty thread stays in
      the history behind it. */
  lemma NewChatDuringSendIsUndone(s: Session, c: Composer, settings: Settings, outcome: Outcome, id: string)
    requires s.active.Some? && !AllWhitespace(c.input)
    ensures var r := Dispatch.SendPrompt(s.active.value, c, settings, outcome);
      var mid := UpdateChat(s, r.optimistic);
      && !NewChatDisabled(mid)
      && var after := UpdateChat(NewChat(mid, id), r.settled);
      && after.active == Some(r.settled)
      && |after.history| == |s.history| + 1
      && (id != r.settled.id ==> after.history[0] == FreshThread(id))
  {
    TurnAppendsPair(s.active.value, c, settings, outcome);
  }
}
