/** The floating chat widget (`frontend/src/components/Chatbot.tsx`): the
    message list, the input box, and `handleSend`, which appends the user's
    message, calls the chat endpoint and then appends the bot's answer or a
    fixed apology. The `await` splits the handler in two: the send, which
    produces the request, and the reply, whose outcome is an input. */
module ChatWidget {
  import opened Util

  datatype Sender = User | Bot

  datatype ChatMessage = ChatMessage(role: Sender, content: string)

  datatype ChatState = ChatState(
    isOpen: bool,
    messages: seq<ChatMessage>,
    input: string,
    isLoading: bool,
    conversationId: Option<string>)

  const Start: ChatState := ChatState(false, [], "", false, None)

  const Apology: string := "Sorry, I encountered an error. Please try again."

  /** What `chatbotAPI.chat(message, conversationId)` is called with. */
  datatype Request = Request(message: string, conversationId: Option<string>)

  /** How the call ended: the endpoint's answer, or any rejection. */
  datatype Reply = Answered(response: string, conversationId: string) | Failed

  /** A `selectedRole` prop in a condition: absent and `''` are falsy. */
  predicate HasRole(selectedRole: Option<string>) {
    selectedRole.Some? && selectedRole.value != ""
  }

  /** The first line of `handleSend` returns early on blank input or while a
      reply is pending; otherwise the trimmed input goes out, prefixed with
      the role when one is selected. */
  function Outgoing(s: ChatState, selectedRole: Option<string>): Option<Request> {
    var text := Trim(s.input);
    if text == "" || s.isLoading then None
    else if HasRole(selectedRole) then Some(Request("[Role: " + selectedRole.value + "] " + text, s.conversationId))
    else Some(Request(text, s.conversationId))
  }

  /** The synchronous half of `handleSend`. */
  function AfterSend(s: ChatState, selectedRole: Option<string>): ChatState {
    if Outgoing(s, selectedRole).None? then s
    else s.(input := "", messages := s.messages + [ChatMessage(User, Trim(s.input))], isLoading := true)
  }

  /** The half after the `await`: the `try` or `catch` branch, then `finally`. */
  function AfterReply(s: ChatState, reply: Reply): ChatState {
    match reply
    case Answered(response, id) =>
      s.(conversationId := Some(id), messages := s.messages + [ChatMessage(Bot, response)], isLoading := false)
    case Failed =>
      s.(messages := s.messages + [ChatMessage(Bot, Apology)], isLoading := false)
  }

  function AfterType(s: ChatState, value: string): ChatState {
    s.(input := value)
  }

  function AfterToggle(s: ChatState): ChatState {
    s.(isOpen := !s.isOpen)
  }

  function AfterClose(s: ChatState): ChatState {
    s.(isOpen := false)
  }

  /** The send button's `disabled` test. */
  predicate SendDisabled(s: ChatState) {
    s.isLoading || Trim(s.input) == ""
  }

  // ---------------------------------------------------------------------------
  // Properties

  /** The button is disabled exactly when a click would do nothing. */
  lemma DisabledIffNoop(s: ChatState, selectedRole: Option<string>)
    ensures SendDisabled(s) <==> Outgoing(s, selectedRole).None?
    ensures SendDisabled(s) ==> AfterSend(s, selectedRole) == s
  {
  }

  /** The request carries the role prefix exactly when a role is selected,
      while the message shown to the user is the bare trimmed input. */
  lemma RolePrefix(s: ChatState, selectedRole: Option<string>)
    requires Outgoing(s, selectedRole).Some?
    ensures var req := Outgoing(s, selectedRole).value;
      (HasRole(selectedRole) ==> req.message == "[Role: " + selectedRole.value + "] " + Trim(s.input)) &&
      (!HasRole(selectedRole) ==> req.message == Trim(s.input)) &&
      req.conversationId == s.conversationId
    ensures var t := AfterSend(s, selectedRole);
      t.messages == s.messages + [ChatMessage(User, Trim(s.input))] && t.input == "" && t.isLoading
  {
  }

  /** No second request goes out while one is pending. */
  lemma NoSendWhileLoading(s: ChatState, selectedRole: Option<string>, other: Option<string>)
    requires Outgoing(s, selectedRole).Some?
    ensures Outgoing(AfterSend(s, selectedRole), other).None?
  {
  }

  /** An accepted send followed by its reply adds exactly the user's message
      and one bot message, clears the input and ends loading; an answer
      stores its conversation id, a failure keeps the old one. */
  lemma SendThenReply(s: ChatState, selectedRole: Option<string>, reply: Reply)
    requires Outgoing(s, selectedRole).Some?
    ensures var t := AfterReply(AfterSend(s, selectedRole), reply);
      |t.messages| == |s.messages| + 2 && t.messages[..|s.messages|] == s.messages &&
      t.messages[|s.messages|] == ChatMessage(User, Trim(s.input)) &&
      t.messages[|s.messages| + 1] == ChatMessage(Bot, if reply.Answered? then reply.response else Apology) &&
      t.input == "" && !t.isLoading &&
      t.conversationId == (if reply.Answered? then Some(reply.conversationId) else s.conversationId)
  {
    var t := AfterReply(AfterSend(s, selectedRole), reply);
    assert t.messages == s.messages + [ChatMessage(User, Trim(s.input))] + [t.messages[|s.messages| + 1]];
  }

  /** The user's message is never blank. */
  lemma UserMessageNonBlank(s: ChatState, selectedRole: Option<string>)
    requires Outgoing(s, selectedRole).Some?
    ensures var t := AfterSend(s, selectedRole); t.messages[|t.messages| - 1].content != ""
  {
  }

  // ---------------------------------------------------------------------------
  // The component

  class Widget {
    var isOpen: bool
    var messages: seq<ChatMessage>
    var input: string
    var isLoading: bool
    var conversationId: Option<string>

    function State(): ChatState
      reads this
    {
      ChatState(isOpen, messages, input, isLoading, conversationId)
    }

    constructor ()
      ensures State() == Start
    {
      isOpen, messages, input, isLoading, conversationId := false, [], "", false, None;
    }

    /** The launcher button. */
    method Toggle()
      modifies this
      ensures State() == AfterToggle(old(State()))
    {
      isOpen := !isOpen;
    }

    /** The close button in the header. */
    method Close()
      modifies this
      ensures State() == AfterClose(old(State()))
    {
      isOpen := false;
    }

    method Typed(value: string)
      modifies this
      ensures State() == AfterType(old(State()), value)
    {
      input := value;
    }

    /** `handleSend` up to the `await`; `request` is the call it makes. */
    method Send(selectedRole: Option<string>) returns (request: Option<Request>)
      modifies this
      ensures request == Outgoing(old(State()), selectedRole)
      ensures State() == AfterSend(old(State()), selectedRole)
    {
      var text := Trim(input);
      if text == "" || isLoading {
        return None;
      }
      var userMessage := text;
      if selectedRole.Some? && selectedRole.value != "" {
        userMessage := "[Role: " + selectedRole.value + "] " + userMessage;
      }
      request := Some(Request(userMessage, conversationId));
      input := "";
      messages := messages + [ChatMessage(User, text)];
      isLoading := true;
    }

    /** `handleSend` after the `await`. */
    method Replied(reply: Reply)
      modifies this
      ensures State() == AfterReply(old(State()), reply)
    {
      if reply.Answered? {
        conversationId := Some(reply.conversationId);
        messages := messages + [ChatMessage(Bot, reply.response)];
      } else {
        messages := messages + [ChatMessage(Bot, Apology)];
      }
      isLoading := false;
    }
  }
}
