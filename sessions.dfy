/**
 * The chat-session registry kept in the UI framework's session state: a map from
 * session id to that session's messages, the id of the current session (None after
 * "End Session") and the text of the input box. `Step` says what each UI event does
 * to that state; the class `ChatState` performs the same events in place.
 * Session ids are opaque strings supplied by the caller (the source uses the
 * creation time to the second, so two chats started in the same second share one id).
 */
module Sessions {
  import opened Wrappers
  import Search
  import Answer

  datatype Role = User | Assistant

  datatype Message = Message(role: Role, content: string)

  type History = seq<Message>

  /** The registry, the current id and the input box, as values. */
  datatype Chat = Chat(sessions: map<string, History>, current: Option<string>, input: string)

  /** The UI events that change the registry; `Submitted` carries the answer the model gave. */
  datatype Event =
    | NewChatClicked(id: string)
    | EndSessionClicked
    | SessionClicked(id: string)
    | InputChanged(text: string)
    | Submitted(answer: string)

  /** The state on the first run: one empty session, current, and an empty input box. */
  function Start(firstId: string): Chat {
    Chat(map[firstId := []], Some(firstId), "")
  }

  /** The current id names a session in the registry. */
  predicate Attached(c: Chat) {
    c.current.Some? && c.current.value in c.sessions
  }

  /** The list `submit` appends to: the current session's, or a fresh list no session holds. */
  function CurrentHistory(c: Chat): History {
    if Attached(c) then c.sessions[c.current.value] else []
  }

  /** What one UI event does to the state. */
  function Step(c: Chat, e: Event): Chat {
    match e
    case NewChatClicked(id) => c.(sessions := c.sessions[id := []], current := Some(id))
    case EndSessionClicked => c.(sessions := map[], current := None)
    case SessionClicked(id) => c.(current := Some(id))
    case InputChanged(text) => c.(input := text)
    case Submitted(answer) =>
      if c.input == "" then c
      else
        var h := CurrentHistory(c) + [Message(User, c.input), Message(Assistant, answer)];
        c.(sessions := if Attached(c) then c.sessions[c.current.value := h] else c.sessions, input := "")
  }

  /** The sidebar offers a button only for a session in the registry. */
  predicate Enabled(c: Chat, e: Event) {
    e.SessionClicked? ==> e.id in c.sessions
  }

  function Run(c: Chat, events: seq<Event>): Chat
    decreases |events|
  {
    if events == [] then c else Run(Step(c, events[0]), events[1..])
  }

  predicate Replayable(c: Chat, events: seq<Event>)
    decreases |events|
  {
    events == [] || (Enabled(c, events[0]) && Replayable(Step(c, events[0]), events[1..]))
  }

  /** A history is question/answer pairs: a user message, then the assistant's, and so on. */
  predicate Paired(h: History) {
    |h| % 2 == 0 && forall i :: 0 <= i < |h| ==> h[i].role == (if i % 2 == 0 then User else Assistant)
  }

  /** The registry invariant: the current id, when set, names a session, and every session is paired. */
  predicate Valid(c: Chat) {
    (c.current.Some? ==> c.current.value in c.sessions)
    && forall id :: id in c.sessions ==> Paired(c.sessions[id])
  }

  lemma StartIsValid(firstId: string)
    ensures Valid(Start(firstId))
  {
  }

  /** "New Chat" makes `id` current with an empty history, replacing any history it had; other sessions are untouched. */
  lemma NewChatReplaces(c: Chat, id: string)
    ensures Step(c, NewChatClicked(id)).current == Some(id)
    ensures Step(c, NewChatClicked(id)).sessions.Keys == c.sessions.Keys + {id}
    ensures Step(c, NewChatClicked(id)).sessions[id] == []
    ensures forall other :: other in c.sessions && other != id ==>
              Step(c, NewChatClicked(id)).sessions[other] == c.sessions[other]
    ensures Step(c, NewChatClicked(id)).input == c.input
  {
  }

  /** "End Session" empties the registry and clears the current id, whatever came before. */
  lemma EndSessionClears(c: Chat)
    ensures Step(c, EndSessionClicked).sessions == map[]
    ensures Step(c, EndSessionClicked).current == None
    ensures Step(c, EndSessionClicked).input == c.input
    ensures Valid(Step(c, EndSessionClicked))
  {
  }

  /** Submitting an empty input changes nothing. */
  lemma SubmitEmptyIsNoOp(c: Chat, answer: string)
    requires c.input == ""
    ensures Step(c, Submitted(answer)) == c
  {
  }

  /**
   * Submitting a non-empty input appends the question and then the answer to the current
   * session, clears the input box, and leaves everything else alone; with no current
   * session the pair goes to a detached list and the registry is unchanged.
   */
  lemma SubmitAppendsPair(c: Chat, answer: string)
    requires c.input != ""
    ensures Attached(c) ==>
              Step(c, Submitted(answer)).sessions ==
              c.sessions[c.current.value := c.sessions[c.current.value] + [Message(User, c.input), Message(Assistant, answer)]]
    ensures !Attached(c) ==> Step(c, Submitted(answer)).sessions == c.sessions
    ensures Step(c, Submitted(answer)).current == c.current
    ensures Step(c, Submitted(answer)).input == ""
  {
  }

  /** Every event the UI can raise keeps the registry invariant. */
  lemma StepKeepsValid(c: Chat, e: Event)
    requires Valid(c) && Enabled(c, e)
    ensures Valid(Step(c, e))
  {
  }

  /** Any sequence of events the UI can raise keeps the registry invariant. */
  lemma {:induction false} RunKeepsValid(c: Chat, events: seq<Event>)
    requires Valid(c) && Replayable(c, events)
    ensures Valid(Run(c, events))
    decreases |events|
  {
    if events != [] {
      StepKeepsValid(c, events[0]);
      RunKeepsValid(Step(c, events[0]), events[1..]);
    }
  }

  /** A session's messages are never changed or removed except by "New Chat" on its own id or by "End Session". */
  lemma {:induction false} HistoriesOnlyGrow(c: Chat, events: seq<Event>, id: string)
    requires id in c.sessions
    requires forall i :: 0 <= i < |events| ==> events[i] != NewChatClicked(id) && !events[i].EndSessionClicked?
    ensures id in Run(c, events).sessions && c.sessions[id] <= Run(c, events).sessions[id]
    decreases |events|
  {
    if events != [] {
      var next := Step(c, events[0]);
      assert id in next.sessions && c.sessions[id] <= next.sessions[id];
      HistoriesOnlyGrow(next, events[1..], id);
    }
  }

  /** Starting a chat and asking one question leaves exactly that question and its answer in the new session. */
  lemma NewChatThenAsk(c: Chat, id: string, question: string, answer: string)
    requires question != ""
    ensures id in Run(c, [NewChatClicked(id), InputChanged(question), Submitted(answer)]).sessions
    ensures Run(c, [NewChatClicked(id), InputChanged(question), Submitted(answer)]).sessions[id] ==
            [Message(User, question), Message(Assistant, answer)]
  {
    var events := [NewChatClicked(id), InputChanged(question), Submitted(answer)];
    var c1 := Step(c, events[0]);
    var c2 := Step(c1, events[1]);
    var c3 := Step(c2, events[2]);
    assert events[1..][1..] == [Submitted(answer)];
    assert [Submitted(answer)][1..] == [];
    assert Run(c, events) == Run(c1, events[1..]) == Run(c2, [Submitted(answer)]) == Run(c3, []) == c3;
    assert CurrentHistory(c2) == [];
  }

  /** The registry and input box as the UI framework's session state holds them, changed in place. */
  class ChatState {
    var sessions: map<string, History>
    var current: Option<string>
    var input: string

    function Snapshot(): Chat
      reads this
    {
      Chat(sessions, current, input)
    }

    /** The first run: the registry gets one empty session, which becomes current, and the input box is empty. */
    constructor (firstId: string)
      ensures Snapshot() == Start(firstId)
    {
      sessions := map[firstId := []];
      current := Some(firstId);
      input := "";
    }

    /** "New Chat": `id` becomes current and is mapped to an empty history. */
    method NewChat(id: string)
      modifies this
      ensures Snapshot() == Step(old(Snapshot()), NewChatClicked(id))
    {
      current := Some(id);
      sessions := sessions[id := []];
    }

    /** "End Session": every session is dropped and there is no current id. */
    method EndSession()
      modifies this
      ensures Snapshot() == Step(old(Snapshot()), EndSessionClicked)
    {
      sessions := map[];
      current := None;
    }

    /** A session's sidebar button: that session becomes current. */
    method SelectSession(id: string)
      requires id in sessions
      modifies this
      ensures Snapshot() == Step(old(Snapshot()), SessionClicked(id))
    {
      current := Some(id);
    }

    /** The text box writes what the user typed into the session state. */
    method EnterText(text: string)
      modifies this
      ensures Snapshot() == Step(old(Snapshot()), InputChanged(text))
    {
      input := text;
    }

    /**
     * `submit`: for a non-empty input, append the question, ask for an answer, append
     * the answer, and clear the input box. Both appends go through the list that
     * `current_session` names, which is the current session's own list when there is one.
     */
    method Submit(apiKey: Option<string>, cseId: Option<string>, fetch: Search.Fetch,
                  backend: string -> Answer.Generation)
      modifies this
      ensures Snapshot() ==
              Step(old(Snapshot()), Submitted(Answer.AnswerFor(old(input), apiKey, cseId, fetch, backend)))
    {
      var query := input;
      ghost var before := Snapshot();
      if query != "" {
        var attached := current.Some? && current.value in sessions;
        var history := if attached then sessions[current.value] else [];
        history := history + [Message(User, query)];
        if attached {
          sessions := sessions[current.value := history];
        }
        var answer, refs := Answer.GenerateAnswer(query, apiKey, cseId, fetch, backend);
        history := history + [Message(Assistant, answer)];
        if attached {
          sessions := sessions[current.value := history];
        }
        input := "";
        assert history == CurrentHistory(before) + [Message(User, query), Message(Assistant, answer)];
      }
    }
  }

  /** A first run, a new chat and one question, performed on the object. */
  method AskInNewChat(firstId: string, id: string, question: string, apiKey: Option<string>,
                      cseId: Option<string>, fetch: Search.Fetch, backend: string -> Answer.Generation)
    returns (history: History)
    requires question != ""
    ensures history == [Message(User, question),
                        Message(Assistant, Answer.AnswerFor(question, apiKey, cseId, fetch, backend))]
  {
    var state := new ChatState(firstId);
    state.NewChat(id);
    state.EnterText(question);
    state.Submit(apiKey, cseId, fetch, backend);
    history := state.sessions[id];
  }
}
