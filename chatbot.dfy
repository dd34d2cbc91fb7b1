/**
 * The chat page of the front end: the reducer over the page state, and the send-message
 * and feedback sequences that dispatch actions to it around calls to the back end.
 * A back-end call is given as its outcome; dates and alerts are not modelled.
 */
module Chatbot {
  import opened Wrappers
  import opened Json
  import opened Text
  import opened ApiCalls

  /** A chat message: role, content (undefined when the reply had none), sources, feedback. */
  datatype ChatMessage = ChatMessage(role: string, content: Option<JsonValue>, sources: Option<JsonValue>,
                                     feedback: Option<JsonValue>)

  datatype Session = Session(id: nat, messages: Option<seq<ChatMessage>>)

  datatype ChatState = ChatState(
    sessions: seq<Session>,
    currentSession: Option<Session>,
    messages: seq<ChatMessage>,
    inputMessage: string,
    sending: bool,
    loading: bool,
    feedbackSubmitting: bool)

  const InitialState := ChatState([], None, [], "", false, true, false)

  datatype Action =
    | SetSessions(sessions: seq<Session>)
    | SetCurrentSession(session: Option<Session>)
    | SetInput(value: string)
    | StartSending
    | AddMessage(message: ChatMessage)
    | UpdateSessionMessages(messages: seq<ChatMessage>)
    | StartFeedback
    | UpdateMessageFeedback(messageIndex: int, feedback: JsonValue)
    | Unknown(name: string)

  /** `action.session?.messages || []`. */
  function SessionMessages(session: Option<Session>): seq<ChatMessage> {
    if session.Some? && session.value.messages.Some? then session.value.messages.value else []
  }

  /** `messages.map((msg, idx) => idx === i ? { ...msg, feedback } : msg)`. */
  function WithFeedback(messages: seq<ChatMessage>, i: int, feedback: JsonValue): (r: seq<ChatMessage>)
    ensures |r| == |messages|
  {
    seq(|messages|, j requires 0 <= j < |messages| => if j == i then messages[j].(feedback := Some(feedback)) else messages[j])
  }

  /** The page reducer. */
  function Reduce(s: ChatState, a: Action): ChatState {
    match a
    case SetSessions(sessions) => s.(sessions := sessions, loading := false)
    case SetCurrentSession(session) => s.(currentSession := session, messages := SessionMessages(session))
    case SetInput(value) => s.(inputMessage := value)
    case StartSending => s.(sending := true)
    case AddMessage(m) => s.(messages := s.messages + [m], sending := false)
    case UpdateSessionMessages(ms) => s.(messages := ms, sending := false)
    case StartFeedback => s.(feedbackSubmitting := true)
    case UpdateMessageFeedback(i, f) => s.(messages := WithFeedback(s.messages, i, f), feedbackSubmitting := false)
    case Unknown(_) => s
  }

  /** `ADD_MESSAGE` keeps the messages as a prefix, puts the new one last and clears `sending`. */
  lemma AddMessageAppends(s: ChatState, m: ChatMessage)
    ensures var r := Reduce(s, AddMessage(m));
      && |r.messages| == |s.messages| + 1
      && r.messages[..|s.messages|] == s.messages
      && r.messages[|s.messages|] == m
      && !r.sending
      && r.(messages := s.messages, sending := s.sending) == s
  {
    var r := Reduce(s, AddMessage(m));
    assert r.messages[..|s.messages|] == s.messages;
  }

  /** `UPDATE_MESSAGE_FEEDBACK` sets the feedback of the message at the index only, keeps the length,
      and clears `feedbackSubmitting`. */
  lemma FeedbackChangesOnlyIndex(s: ChatState, i: int, f: JsonValue)
    ensures var r := Reduce(s, UpdateMessageFeedback(i, f));
      && |r.messages| == |s.messages|
      && (forall j :: 0 <= j < |s.messages| && j != i ==> r.messages[j] == s.messages[j])
      && (0 <= i < |s.messages| ==> r.messages[i] == s.messages[i].(feedback := Some(f)))
      && !r.feedbackSubmitting
      && r.(messages := s.messages, feedbackSubmitting := s.feedbackSubmitting) == s
  {
  }

  /** An index outside the list changes no message. */
  lemma FeedbackOutsideListKeeps(messages: seq<ChatMessage>, i: int, f: JsonValue)
    requires i < 0 || i >= |messages|
    ensures WithFeedback(messages, i, f) == messages
  {
  }

  /** A second feedback update of the same message replaces the first. */
  lemma {:induction false} FeedbackLastWins(messages: seq<ChatMessage>, i: int, f: JsonValue, g: JsonValue)
    ensures WithFeedback(WithFeedback(messages, i, f), i, g) == WithFeedback(messages, i, g)
  {
    var a := WithFeedback(WithFeedback(messages, i, f), i, g);
    var b := WithFeedback(messages, i, g);
    forall j | 0 <= j < |messages| ensures a[j] == b[j] {
    }
  }

  /** `SET_CURRENT_SESSION` shows the session's messages, or none for a null session. */
  lemma SetCurrentSessionShowsItsMessages(s: ChatState, session: Option<Session>)
    ensures var r := Reduce(s, SetCurrentSession(session));
      && r.currentSession == session
      && (session.None? ==> r.messages == [])
      && (session.Some? && session.value.messages.Some? ==> r.messages == session.value.messages.value)
      && r.(currentSession := s.currentSession, messages := s.messages) == s
  {
  }

  /** An unknown action changes nothing; `START_SENDING` changes only `sending`. */
  lemma UnknownAndStartSending(s: ChatState, name: string)
    ensures Reduce(s, Unknown(name)) == s
    ensures Reduce(s, StartSending).sending && Reduce(s, StartSending).(sending := s.sending) == s
  {
  }

  // ---------------------------------------------------------------------------
  // Sending a message and giving feedback
  // ---------------------------------------------------------------------------

  datatype HistoryItem = HistoryItem(role: string, content: Option<JsonValue>)

  /** What the page posts to the chat route. */
  datatype ChatRequest = ChatRequest(message: string, session: Option<Session>, history: seq<HistoryItem>)

  /** `state.messages.map(m => ({ role: m.role, content: m.content }))`. */
  function History(messages: seq<ChatMessage>): (h: seq<HistoryItem>)
    ensures |h| == |messages|
    ensures forall i :: 0 <= i < |h| ==> h[i].role == messages[i].role && h[i].content == messages[i].content
  {
    seq(|messages|, i requires 0 <= i < |messages| => HistoryItem(messages[i].role, messages[i].content))
  }

  function UserMessage(input: string): ChatMessage {
    ChatMessage("user", Some(JStr(input)), None, None)
  }

  /** The assistant's message built from the chat reply. */
  function AssistantMessage(data: JsonValue): ChatMessage {
    ChatMessage("assistant", Get(data, "response"), Some(Or(Get(data, "sources"), JArr([]))), None)
  }

  const DefaultChatError := "Failed to get response. Please try again."

  /** `❌ Error: ${err.response?.data?.message || "Failed to get response. Please try again."}`. */
  function ErrorMessage(errorData: Option<JsonValue>): (m: ChatMessage)
    ensures m.role == "assistant"
    ensures !Present(GetIn(errorData, "message")) ==> m.content == Some(JStr("\U{274C} Error: " + DefaultChatError))
  {
    ChatMessage("assistant", Some(JStr("\U{274C} Error: " + ToJsString(Or(GetIn(errorData, "message"), JStr(DefaultChatError))))), None, None)
  }

  /** The message that follows the user's: the answer when the chat call and, with a session, the save
      succeeded; otherwise an error message built from the failing call. */
  function ReplyMessage(chat: CallOutcome, save: CallOutcome, hasSession: bool): (m: ChatMessage)
    ensures m.role == "assistant"
    ensures Usable(chat) && (!hasSession || save.Answered?) ==> m == AssistantMessage(chat.data)
    ensures !Usable(chat) ==> m == ErrorMessage(FailureData(chat))
    ensures Usable(chat) && hasSession && save.Failed? ==> m == ErrorMessage(save.errorData)
  {
    if !Usable(chat) then ErrorMessage(FailureData(chat))
    else if hasSession && save.Failed? then ErrorMessage(save.errorData)
    else AssistantMessage(chat.data)
  }

  /** `!state.inputMessage.trim() || state.sending` does not hold. */
  predicate CanSend(s: ChatState) {
    !IsBlank(s.inputMessage) && !s.sending
  }

  /** The feedback object built from the sentiment reply. */
  function FeedbackOf(text: string, rating: JsonValue, data: JsonValue): JsonValue {
    JObj(With(With(map["text" := JStr(text), "rating" := rating], "sentiment", Get(data, "sentiment")),
              "sentimentLabel", Get(data, "label")))
  }

  /** The feedback a message ends up with: the analysed feedback when the analysis and, with a
      session, the save succeeded; `null` otherwise. */
  function FinalFeedback(text: string, rating: JsonValue, analysis: CallOutcome, save: CallOutcome, hasSession: bool): (f: JsonValue)
    ensures !Usable(analysis) || (hasSession && save.Failed?) <==> f == JNull
  {
    if Usable(analysis) && (!hasSession || save.Answered?) then FeedbackOf(text, rating, analysis.data) else JNull
  }

  class ChatPage {
    var state: ChatState

    constructor ()
      ensures state == InitialState
    {
      state := InitialState;
    }

    method Dispatch(a: Action)
      modifies this
      ensures state == Reduce(old(state), a)
    {
      state := Reduce(state, a);
    }

    /** `handleSendMessage`. `chat` is the outcome of the chat call, `save` that of saving the session's
        messages (made only with a session and after a usable reply). The call reads the messages as
        they were when the send began. */
    method HandleSendMessage(chat: CallOutcome, save: CallOutcome)
      returns (request: Option<ChatRequest>, saved: Option<seq<ChatMessage>>)
      modifies this
      ensures !CanSend(old(state)) ==> state == old(state) && request.None? && saved.None?
      ensures CanSend(old(state)) ==>
        && request == Some(ChatRequest(old(state.inputMessage), old(state.currentSession), History(old(state.messages))))
        && state == old(state).(messages := old(state.messages) + [UserMessage(old(state.inputMessage)),
                                                                   ReplyMessage(chat, save, old(state.currentSession).Some?)],
                                inputMessage := "", sending := false)
        && (saved.Some? <==> Usable(chat) && old(state.currentSession).Some?)
        && (saved.Some? ==> saved.value == old(state.messages) + [UserMessage(old(state.inputMessage)), AssistantMessage(chat.data)])
    {
      request, saved := None, None;
      if !CanSend(state) {
        return;
      }
      var prior := state;
      ShowUserMessage();
      request := Some(ChatRequest(prior.inputMessage, prior.currentSession, History(prior.messages)));
      saved := Reply(prior, chat, save);
    }

    /** The first part of `handleSendMessage`: the user's message is shown, the input cleared and
        the page marked as sending. */
    method ShowUserMessage()
      modifies this
      ensures state == old(state).(messages := old(state.messages) + [UserMessage(old(state.inputMessage))],
                                   inputMessage := "", sending := true)
    {
      Dispatch(AddMessage(UserMessage(state.inputMessage)));
      Dispatch(SetInput(""));
      Dispatch(StartSending);
    }

    /** The part of `handleSendMessage` after the request is sent: the reply, or the error of the
        failing call, replaces the messages shown while sending. */
    method Reply(prior: ChatState, chat: CallOutcome, save: CallOutcome) returns (saved: Option<seq<ChatMessage>>)
      requires state == prior.(messages := prior.messages + [UserMessage(prior.inputMessage)], inputMessage := "", sending := true)
      modifies this
      ensures state == prior.(messages := prior.messages + [UserMessage(prior.inputMessage),
                                                            ReplyMessage(chat, save, prior.currentSession.Some?)],
                              inputMessage := "", sending := false)
      ensures saved.Some? <==> Usable(chat) && prior.currentSession.Some?
      ensures saved.Some? ==> saved.value == prior.messages + [UserMessage(prior.inputMessage), AssistantMessage(chat.data)]
    {
      saved := None;
      var userMessage := UserMessage(prior.inputMessage);
      if !Usable(chat) {
        Dispatch(UpdateSessionMessages(prior.messages + [userMessage, ErrorMessage(FailureData(chat))]));
        return;
      }
      var updatedMessages := prior.messages + [userMessage, AssistantMessage(chat.data)];
      if prior.currentSession.Some? {
        saved := Some(updatedMessages);
        if save.Failed? {
          Dispatch(UpdateSessionMessages(prior.messages + [userMessage, ErrorMessage(save.errorData)]));
          return;
        }
      }
      Dispatch(UpdateSessionMessages(updatedMessages));
    }

    /** `handleFeedback`. `analysis` is the outcome of the sentiment call, `save` that of saving the
        session's messages (made only with a session and after a usable analysis). A failure at
        either step resets the message's feedback to `null`. */
    method HandleFeedback(messageIndex: int, text: string, rating: JsonValue, analysis: CallOutcome, save: CallOutcome)
      returns (saved: Option<seq<ChatMessage>>)
      modifies this
      ensures state == old(state).(
                messages := WithFeedback(old(state.messages), messageIndex,
                                         FinalFeedback(text, rating, analysis, save, old(state.currentSession).Some?)),
                feedbackSubmitting := false)
      ensures saved.Some? <==> Usable(analysis) && old(state.currentSession).Some?
      ensures saved.Some? ==> saved.value == WithFeedback(old(state.messages), messageIndex, FeedbackOf(text, rating, analysis.data))
    {
      saved := None;
      var prior := state;
      Dispatch(StartFeedback);
      if !Usable(analysis) {
        Dispatch(UpdateMessageFeedback(messageIndex, JNull));
        return;
      }
      var feedback := FeedbackOf(text, rating, analysis.data);
      Dispatch(UpdateMessageFeedback(messageIndex, feedback));
      if prior.currentSession.Some? {
        saved := Some(WithFeedback(prior.messages, messageIndex, feedback));
        if save.Failed? {
          FeedbackLastWins(prior.messages, messageIndex, feedback, JNull);
          Dispatch(UpdateMessageFeedback(messageIndex, JNull));
        }
      }
    }
  }
}
