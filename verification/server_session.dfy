/**
 The server-backed chat page: new chat, update chat and delete chat, each
 applied to the `Session` only after the thread store answers. The store's
 answer is a parameter (`Saved`); the request it would receive is computed.
 */
module ServerSession {
  import opened Chat
  import opened History
  import opened Text
  import Dispatch
  import LocalSession

  /** The body of the create request. Unlike a stored thread it has no id,
      and its context is always present. */
  datatype Draft = Draft(name: string, messages: seq<Message>, context: seq<string>)

  /** The new-chat draft: "New Chat", no messages, and the selected context
      prompt as the only context entry when it is not the empty string. */
  function NewChatDraft(settings: Settings): (d: Draft)
    ensures d.name == NewChatName && d.messages == []
    ensures settings.selectedContextPrompt != "" ==> d.context == [settings.selectedContextPrompt]
    ensures settings.selectedContextPrompt == "" ==> d.context == []
  {
    Draft(NewChatName, [], if settings.selectedContextPrompt != "" then [settings.selectedContextPrompt] else [])
  }

  /** The create request `handleNewChat` posts, if any: none while the
      active thread is still empty. */
  function NewChatRequest(s: Session, settings: Settings): (r: Option<Draft>)
    ensures r.None? <==> NewChatDisabled(s)
    ensures r.Some? ==> r.value == NewChatDraft(settings)
  {
    if NewChatDisabled(s) then None else Some(NewChatDraft(settings))
  }

  /** The second half of `handleNewChat`, run when the create request
      answers: the stored thread is put first and made active; a failed
      create changes nothing. The guard is not consulted again. */
  function ApplyCreated(s: Session, created: Saved<Thread>): (r: Session)
    ensures created.NotStored? ==> r == s
    ensures created.Stored? ==>
      && r.history == [created.value] + s.history
      && r.active == Some(created.value)
  {
    match created
    case NotStored => s
    case Stored(t) => Session([t] + s.history, Some(t))
  }

  /** `handleNewChat`: the thread the store created becomes active and is
      put first; a refused press or a failed create changes nothing. */
  function NewChat(s: Session, settings: Settings, created: Saved<Thread>): (r: Session)
    ensures NewChatDisabled(s) || created.NotStored? ==> r == s
    ensures !NewChatDisabled(s) && created.Stored? ==>
      && |r.history| == |s.history| + 1
      && r.history == [created.value] + s.history
      && r.active == Some(created.value)
  {
    match NewChatRequest(s, settings)
    case None => s
    case Some(_) => ApplyCreated(s, created)
  }

  /** Nothing changes while the create request is out, so a second press
      passes the guard on the same session and sends a second request; when
      both are stored, both new empty threads end up in the history. */
  lemma DoublePressCreatesTwo(s: Session, settings: Settings, t1: Thread, t2: Thread)
    requires !NewChatDisabled(s)
    ensures NewChatRequest(s, settings) == Some(NewChatDraft(settings))
    ensures var r := ApplyCreated(ApplyCreated(s, Stored(t1)), Stored(t2));
      && r.history == [t2, t1] + s.history
      && r.active == Some(t2)
  {
    assert [t2] + ([t1] + s.history) == [t2, t1] + s.history;
  }

  /** `updateChat`: a thread without an id is not sent. Otherwise, once the
      store answers, the history entries with the id of the stored copy are
      replaced by it and it becomes active; a failed update changes
      nothing. */
  function UpdateChat(s: Session, sent: Thread, saved: Saved<Thread>): (r: Session)
    ensures sent.id == "" || saved.NotStored? ==> r == s
    ensures sent.id != "" && saved.Stored? ==>
      && |r.history| == |s.history|
      && Ids(r.history) == Ids(s.history)
      && (forall i :: 0 <= i < |r.history| ==>
            r.history[i] == if s.history[i].id == saved.value.id then saved.value else s.history[i])
      && r.active == Some(saved.value)
  {
    if sent.id == "" then s
    else
      match saved
      case NotStored => s
      case Stored(d) => LocalSession.UpdateChat(s, d)
  }

  /** `handleDeleteChat`: once the store confirms, every thread with the id
      leaves the history and the selection is cleared if it was that thread;
      a failed delete changes nothing. */
  function DeleteChat(s: Session, id: string, deleted: Saved<()>): (r: Session)
    ensures deleted.NotStored? ==> r == s
    ensures deleted.Stored? ==>
      && r.history == RemoveById(s.history, id)
      && (s.active.Some? && s.active.value.id == id ==> r.active.None?)
      && (s.active.None? || s.active.value.id != id ==> r.active == s.active)
  {
    match deleted
    case NotStored => s
    case Stored(_) =>
      var active := if s.active.Some? && s.active.value.id == id then None else s.active;
      Session(RemoveById(s.history, id), active)
  }

  /** The store's copy `d` is the active thread and sits at every history
      position that carries its id. */
  predicate StoredCopyApplied(s: Session, d: Thread) {
    && s.active == Some(d)
    && forall i :: 0 <= i < |s.history| && s.history[i].id == d.id ==> s.history[i] == d
  }

  /** The chat interface's send on the server-backed page. Both commits are
      `updateChat` calls, so each lands only when the store answers; the
      answers are applied in the order the commits were issued. */
  function SendPrompt(s: Session, c: Dispatch.Composer, settings: Settings, outcome: Outcome,
                      firstSave: Saved<Thread>, lastSave: Saved<Thread>): (r: (Session, Dispatch.Composer))
    ensures s.active.None? || AllWhitespace(c.input) ==> r == (s, c)
    ensures |r.0.history| == |s.history| && Ids(r.0.history) == Ids(s.history)
    ensures s.active.Some? && !AllWhitespace(c.input) ==> r.1 == Dispatch.Composer("", false)
    ensures s.active.Some? && s.active.value.id == "" ==> r.0 == s
    ensures s.active.Some? && s.active.value.id != "" && !AllWhitespace(c.input) ==>
      && (lastSave.Stored? ==> StoredCopyApplied(r.0, lastSave.value))
      && (lastSave.NotStored? && firstSave.Stored? ==> StoredCopyApplied(r.0, firstSave.value))
      && (lastSave.NotStored? && firstSave.NotStored? ==> r.0 == s)
    ensures forall i :: (0 <= i < |s.history|
                         && (firstSave.Stored? ==> s.history[i].id != firstSave.value.id)
                         && (lastSave.Stored? ==> s.history[i].id != lastSave.value.id))
                         ==> r.0.history[i] == s.history[i]
  {
    if s.active.None? then (s, c)
    else match Dispatch.SendPrompt(s.active.value, c, settings, outcome)
      case Unchanged => (s, c)
      case Exchanged(optimistic, _, settled, _, idle) =>
        (UpdateChat(UpdateChat(s, optimistic, firstSave), settled, lastSave), idle)
  }

  /** Deleting the selected thread clears the selection; deleting another
      keeps it; either way no thread with that id is left. */
  lemma DeleteSelection(s: Session, id: string)
    ensures var r := DeleteChat(s, id, Stored(()));
      && (r.active.None? <==> s.active.None? || s.active.value.id == id)
      && (r.active.Some? ==> r.active == s.active)
      && forall t :: t in r.history ==> t.id != id
  {
  }

  /** Deleting keeps the page's invariant that the selection is listed. */
  lemma DeleteConsistent(s: Session, id: string, deleted: Saved<()>)
    requires LocalSession.Consistent(s)
    ensures LocalSession.Consistent(DeleteChat(s, id, deleted))
  {
  }

  /** A successful create keeps the invariant. */
  lemma NewChatConsistent(s: Session, settings: Settings, created: Saved<Thread>)
    requires LocalSession.Consistent(s)
    ensures LocalSession.Consistent(NewChat(s, settings, created))
  {
    var r := NewChat(s, settings, created);
    if r != s {
      assert r.history[0] == created.value;
    }
  }

  /** When the store answers each update with the thread it was sent, the
      server-backed send ends exactly where the in-memory send does. */
  lemma EchoingStoreMatchesLocal(s: Session, c: Dispatch.Composer, settings: Settings, outcome: Outcome)
    requires s.active.Some? && s.active.value.id != "" && !AllWhitespace(c.input)
    ensures var r := Dispatch.SendPrompt(s.active.value, c, settings, outcome);
      SendPrompt(s, c, settings, outcome, Stored(r.optimistic), Stored(r.settled))
        == LocalSession.SendPrompt(s, c, settings, outcome)
  {
    var r := Dispatch.SendPrompt(s.active.value, c, settings, outcome);
    assert r.optimistic.id == s.active.value.id;
    assert r.settled.id == s.active.value.id;
  }

  /** When the store rejects both updates, the turn leaves no trace in the
      session, not even the user's message: nothing is applied before the
      store answers. */
  lemma FailingStoreLosesTurn(s: Session, c: Dispatch.Composer, settings: Settings, outcome: Outcome)
    requires s.active.Some? && !AllWhitespace(c.input)
    ensures SendPrompt(s, c, settings, outcome, NotStored, NotStored).0 == s
  {
  }

  /** When the store keeps the user's message but the final update fails,
      the active thread ends with the user message and no reply, so the
      conversation is left with an odd number of messages. */
  lemma HalfStoredTurn(s: Session, c: Dispatch.Composer, settings: Settings, outcome: Outcome)
    requires s.active.Some? && s.active.value.id != "" && !AllWhitespace(c.input)
    ensures var r := Dispatch.SendPrompt(s.active.value, c, settings, outcome);
      var after := SendPrompt(s, c, settings, outcome, Stored(r.optimistic), NotStored).0;
      && after.active.Some?
      && after.active.value.messages == s.active.value.messages + [Message(User, c.input)]
      && (Alternates(s.active.value.messages) ==> !Alternates(after.active.value.messages))
  {
    var r := Dispatch.SendPrompt(s.active.value, c, settings, outcome);
    Dispatch.TurnAppendsPair(s.active.value, c, settings, outcome);
    assert r.optimistic.id == s.active.value.id;
    var mid := UpdateChat(s, r.optimistic, Stored(r.optimistic));
    assert UpdateChat(mid, r.settled, NotStored) == mid;
    assert SendPrompt(s, c, settings, outcome, Stored(r.optimistic), NotStored).0 == mid;
    assert mid.active == Some(r.optimistic);
    if Alternates(s.active.value.messages) {
      AppendOneBreaksAlternation(s.active.value.messages, Message(User, c.input));
    }
  }
}
