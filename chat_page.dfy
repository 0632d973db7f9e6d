/** The chat view's local state: an append-only message log, the input box and
    a pending flag that allows one canned reply in flight at a time. */
module ChatPage {
  import opened JsText

  /** A chat bubble. The timestamp is not modelled. */
  datatype Message = Message(id: string, text: string, isUser: bool)

  const WelcomeText: string :=
    "\U{1F44B} Welcome to Database Copilot! I'm here to help you with your database queries. Ask me anything about your database structure, data, or operations."

  const ReplyText: string :=
    "I understand your query. Let me analyze your database and provide you with the information you need. This is a placeholder response - the actual AI integration will be implemented next."

  /** The bubble every chat starts with. */
  const Welcome := Message("welcome", WelcomeText, false)

  /** `messages`, `message` (the input box) and `isLoading`. */
  datatype ChatState = ChatState(messages: seq<Message>, input: string, isLoading: bool)

  const InitialChat := ChatState([Welcome], "", false)

  /** The send button's `disabled` condition, which is also `handleSend`'s guard. */
  predicate SendDisabled(input: string, isLoading: bool)
  {
    Trim(input) == "" || isLoading
  }

  /** `handleSend`, with `id` the clock reading it uses as the message id. */
  function Send(s: ChatState, id: string): (r: ChatState)
    ensures SendDisabled(s.input, s.isLoading) ==> r == s
    ensures !SendDisabled(s.input, s.isLoading) ==>
      && r.messages == s.messages + [Message(id, s.input, true)]
      && r.input == "" && r.isLoading
  {
    if SendDisabled(s.input, s.isLoading) then s
    else ChatState(s.messages + [Message(id, s.input, true)], "", true)
  }

  /** The timer callback: one canned assistant bubble, and the flag goes down. */
  function Reply(s: ChatState, id: string): (r: ChatState)
    ensures r.messages == s.messages + [Message(id, ReplyText, false)]
    ensures r.input == s.input && !r.isLoading
  {
    ChatState(s.messages + [Message(id, ReplyText, false)], s.input, false)
  }

  /** Send does nothing exactly when the input is blank or a reply is pending. */
  lemma SendIsNoOpIffBlankOrPending(s: ChatState, id: string)
    ensures Send(s, id) == s <==> IsBlank(s.input) || s.isLoading
  {
    TrimEmptyIffBlank(s.input);
    if !SendDisabled(s.input, s.isLoading) {
      assert |Send(s, id).messages| == |s.messages| + 1;
    }
  }

  /** What can happen on the page: typing, pressing send (at clock reading `id`),
      and the pending timer firing (at clock reading `id`). */
  datatype ChatEvent = TypeText(text: string) | PressSend(id: string) | TimerFires(id: string)

  /** One event. A timer exists only between a send and its reply, which is
      exactly while `isLoading` holds. */
  function ChatStep(s: ChatState, e: ChatEvent): ChatState
  {
    match e
    case TypeText(text) => s.(input := text)
    case PressSend(id) => Send(s, id)
    case TimerFires(id) => if s.isLoading then Reply(s, id) else s
  }

  /** A sequence of events. */
  function ChatRun(s: ChatState, es: seq<ChatEvent>): ChatState
    decreases |es|
  {
    if es == [] then s else ChatRun(ChatStep(s, es[0]), es[1..])
  }

  /** The log starts with the welcome bubble and then alternates user message,
      assistant reply; a reply is pending exactly when the last bubble is the
      user's; and no user bubble is blank. */
  predicate Alternating(s: ChatState)
  {
    && |s.messages| > 0 && s.messages[0] == Welcome
    && (forall i :: 0 < i < |s.messages| ==> (s.messages[i].isUser <==> i % 2 == 1))
    && (forall i :: 0 <= i < |s.messages| && s.messages[i].isUser ==> !IsBlank(s.messages[i].text))
    && (s.isLoading <==> |s.messages| % 2 == 0)
  }

  /** A send keeps the log alternating: the new bubble lands at an odd index. */
  lemma SendKeepsAlternating(s: ChatState, id: string)
    requires Alternating(s)
    ensures Alternating(Send(s, id))
  {
    if !SendDisabled(s.input, s.isLoading) {
      TrimEmptyIffBlank(s.input);
      assert !IsBlank(s.input);
      AppendKeepsAlternating(s, Message(id, s.input, true), "", true);
    }
  }

  /** Appending a bubble whose author matches the parity of its index, with the
      pending flag set to match the new length, keeps the log alternating. */
  lemma AppendKeepsAlternating(s: ChatState, m: Message, input: string, loading: bool)
    requires Alternating(s)
    requires m.isUser <==> |s.messages| % 2 == 1
    requires m.isUser ==> !IsBlank(m.text)
    requires loading <==> |s.messages| % 2 == 1
    ensures Alternating(ChatState(s.messages + [m], input, loading))
  {
    var r := s.messages + [m];
    var n := |s.messages|;
    forall i | 0 < i < |r|
      ensures r[i].isUser <==> i % 2 == 1
    {
      if i < n { assert r[i] == s.messages[i]; }
    }
    forall i | 0 <= i < |r| && r[i].isUser
      ensures !IsBlank(r[i].text)
    {
      if i < n { assert r[i] == s.messages[i]; }
    }
  }

  /** A reply to a pending send keeps the log alternating: it lands at an even index. */
  lemma ReplyKeepsAlternating(s: ChatState, id: string)
    requires Alternating(s) && s.isLoading
    ensures Alternating(Reply(s, id))
  {
    AppendKeepsAlternating(s, Message(id, ReplyText, false), s.input, false);
  }

  /** One event keeps the log alternating and only appends to it. */
  lemma ChatStepKeepsAlternating(s: ChatState, e: ChatEvent)
    requires Alternating(s)
    ensures Alternating(ChatStep(s, e))
    ensures s.messages <= ChatStep(s, e).messages
  {
    match e
    case TypeText(text) =>
    case PressSend(id) => SendKeepsAlternating(s, id);
    case TimerFires(id) => if s.isLoading { ReplyKeepsAlternating(s, id); }
  }

  /** Whatever happens on the page, messages are never removed or reordered, and
      the log keeps alternating: every send gets exactly one reply, and a second
      send while one is pending adds nothing. */
  lemma {:induction false} ChatRunKeepsAlternating(s: ChatState, es: seq<ChatEvent>)
    requires Alternating(s)
    ensures Alternating(ChatRun(s, es))
    ensures s.messages <= ChatRun(s, es).messages
    decreases |es|
  {
    if es != [] {
      ChatStepKeepsAlternating(s, es[0]);
      ChatRunKeepsAlternating(ChatStep(s, es[0]), es[1..]);
    }
  }

  /** The page as it first renders is alternating, so everything reachable is. */
  lemma InitialChatAlternating(es: seq<ChatEvent>)
    ensures Alternating(ChatRun(InitialChat, es))
    ensures ChatRun(InitialChat, es).messages[0] == Welcome
  {
    ChatRunKeepsAlternating(InitialChat, es);
  }

  /** The component's state variables and handlers. */
  class ChatView {
    var messages: seq<Message>
    var message: string
    var isLoading: bool

    function State(): ChatState
      reads this
    {
      ChatState(messages, message, isLoading)
    }

    constructor ()
      ensures State() == InitialChat
    {
      messages := [Welcome];
      message := "";
      isLoading := false;
    }

    /** The text area's `onChange`. */
    method HandleInput(text: string)
      modifies this
      ensures State() == old(State()).(input := text)
    {
      message := text;
    }

    /** `handleSend`, with `id` the clock reading used as the new message's id. */
    method HandleSend(id: string)
      modifies this
      ensures State() == Send(old(State()), id)
    {
      if Trim(message) == "" || isLoading {
        return;
      }
      messages := messages + [Message(id, message, true)];
      message := "";
      isLoading := true;
    }

    /** The callback `handleSend` schedules; it runs while its send is pending. */
    method OnTimer(id: string)
      requires isLoading
      modifies this
      ensures State() == Reply(old(State()), id)
    {
      messages := messages + [Message(id, ReplyText, false)];
      isLoading := false;
    }
  }
}
