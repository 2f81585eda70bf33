/** The chat widget: a conversation that starts with a greeting, a send
    handler that appends the user's message, and a timer that later appends
    a fixed reply. */
module AiAssistant {
  import opened Strings

  datatype Role = User | Assistant

  datatype Message = Message(role: Role, content: string)

  const GreetingText := "Hi! I'm your AI documentation assistant. Ask me anything about AI Cloud."
  const ReplyText := "I can help you with that! The AI Cloud API supports multiple authentication methods including API keys and OAuth 2.0. Check out our Authentication guide for detailed setup instructions."

  /** The number of messages of `role` in `ms`. */
  function Count(ms: seq<Message>, role: Role): (n: nat)
    ensures n <= |ms|
  {
    if ms == [] then 0
    else Count(ms[..|ms| - 1], role) + (if ms[|ms| - 1].role == role then 1 else 0)
  }

  /** Every message is either the user's or the assistant's: the two counts
      add up to the length of the history. */
  lemma {:induction false} CountsPartition(ms: seq<Message>)
    ensures Count(ms, User) + Count(ms, Assistant) == |ms|
  {
    if ms != [] {
      CountsPartition(ms[..|ms| - 1]);
    }
  }

  lemma CountAppend(ms: seq<Message>, m: Message, role: Role)
    ensures Count(ms + [m], role) == Count(ms, role) + (if m.role == role then 1 else 0)
  {
    assert (ms + [m])[..|ms|] == ms;
  }

  /** The widget state, with the reply timers scheduled that have not fired
      yet. */
  class Widget {
    var isOpen: bool
    var message: string
    var isLoading: bool
    var messages: seq<Message>
    var pendingReplies: nat

    /** The greeting stays first; each user message is answered once its
        timer fires; the spinner only shows while a reply is pending. */
    predicate Valid()
      reads this
    {
      && |messages| > 0
      && messages[0] == Message(Assistant, GreetingText)
      && Count(messages, User) + 1 == Count(messages, Assistant) + pendingReplies
      && (isLoading ==> pendingReplies > 0)
    }

    constructor()
      ensures Valid()
      ensures messages == [Message(Assistant, GreetingText)] && message == "" && !isLoading && !isOpen && pendingReplies == 0
    {
      isOpen := false;
      message := "";
      isLoading := false;
      messages := [Message(Assistant, GreetingText)];
      pendingReplies := 0;
    }

    method Open()
      modifies this
      ensures isOpen && message == old(message) && isLoading == old(isLoading)
      ensures messages == old(messages) && pendingReplies == old(pendingReplies)
    {
      isOpen := true;
    }

    method Close()
      modifies this
      ensures !isOpen && message == old(message) && isLoading == old(isLoading)
      ensures messages == old(messages) && pendingReplies == old(pendingReplies)
    {
      isOpen := false;
    }

    method Type(text: string)
      modifies this
      ensures message == text && isOpen == old(isOpen) && isLoading == old(isLoading)
      ensures messages == old(messages) && pendingReplies == old(pendingReplies)
    {
      message := text;
    }

    /** The send button is disabled while loading. */
    predicate SendEnabled()
      reads this
    {
      !isLoading
    }

    /** `handleSend`: a blank message is ignored; otherwise the message is
        appended as typed, not trimmed, the input is cleared and a reply is
        scheduled. */
    method HandleSend()
      requires Valid()
      modifies this
      ensures Valid() && isOpen == old(isOpen)
      ensures IsBlank(old(message)) ==> (messages == old(messages) && message == old(message)
        && isLoading == old(isLoading) && pendingReplies == old(pendingReplies))
      ensures !IsBlank(old(message)) ==> (messages == old(messages) + [Message(User, old(message))]
        && message == "" && isLoading && pendingReplies == old(pendingReplies) + 1)
      ensures !IsBlank(old(message)) ==> !SendEnabled()
    {
      if IsBlank(message) {
        return;
      }
      CountAppend(messages, Message(User, message), User);
      CountAppend(messages, Message(User, message), Assistant);
      messages := messages + [Message(User, message)];
      message := "";
      isLoading := true;
      pendingReplies := pendingReplies + 1;
    }

    /** One reply timer fires: the fixed reply is appended and loading ends,
        even when another reply is still pending. */
    method ReplyFires()
      requires Valid() && pendingReplies > 0
      modifies this
      ensures Valid()
      ensures messages == old(messages) + [Message(Assistant, ReplyText)]
      ensures !isLoading && pendingReplies == old(pendingReplies) - 1
      ensures SendEnabled()
      ensures message == old(message) && isOpen == old(isOpen)
    {
      CountAppend(messages, Message(Assistant, ReplyText), User);
      CountAppend(messages, Message(Assistant, ReplyText), Assistant);
      messages := messages + [Message(Assistant, ReplyText)];
      isLoading := false;
      pendingReplies := pendingReplies - 1;
    }
  }

  /** Enter is not gated by the loading flag: two messages sent in a row
      leave two replies pending, and the first reply clears the spinner while
      the second is still to come. */
  method EnterTwice(a: string, b: string) returns (w: Widget)
    requires !IsBlank(a) && !IsBlank(b)
    ensures w.Valid()
    ensures |w.messages| == 4 && w.messages[0] == Message(Assistant, GreetingText)
    ensures w.messages[1] == Message(User, a) && w.messages[2] == Message(User, b)
    ensures w.messages[3] == Message(Assistant, ReplyText)
    ensures !w.isLoading && w.pendingReplies == 1 && w.SendEnabled()
  {
    w := new Widget();
    w.Type(a);
    w.HandleSend();
    assert |w.messages| == 2 && w.messages[1] == Message(User, a);
    w.Type(b);
    w.HandleSend();
    assert |w.messages| == 3 && w.messages[1] == Message(User, a) && w.messages[2] == Message(User, b);
    w.ReplyFires();
  }
}
