/** The chat widget (src/components/Chatbot/Chatbot.tsx): a message log
    that starts with a greeting and grows by one user message and one bot
    message per exchange. */
module Chatbot {
  import opened Wrappers
  import opened Text
  import opened Api

  datatype Message = Message(text: string, isUser: bool)

  const Greeting := Message("Hello! How can I help you today?", false)
  const NotUnderstood := "Sorry, I could not understand your request."
  const TroubleConnecting := "Sorry, I am having trouble connecting. Please try again later."

  /** The bot's answer to one exchange; `reply` carries `response.reply`. */
  function BotMessage(reply: Reply<Option<string>>): (m: Message)
    ensures !m.isUser
    ensures reply.Ok? && Truthy(reply.value) ==> m.text == reply.value.value
    ensures reply.Ok? && !Truthy(reply.value) ==> m.text == NotUnderstood
    ensures reply.Err? ==> m.text == TroubleConnecting
  {
    match reply
    case Ok(r) => Message(if Truthy(r) then r.value else NotUnderstood, false)
    case Err(_) => Message(TroubleConnecting, false)
  }

  /** The shape of every log the widget can show: the greeting first, then
      user and bot messages alternating, ending with a bot message. */
  predicate WellFormedLog(log: seq<Message>) {
    |log| % 2 == 1 && log[0] == Greeting
    && forall i :: 0 <= i < |log| ==> (log[i].isUser <==> i % 2 == 1)
  }

  /** One exchange keeps the log well formed and leaves earlier messages as
      they were. */
  lemma ExchangeKeepsShape(log: seq<Message>, text: string, reply: Reply<Option<string>>)
    requires WellFormedLog(log)
    ensures WellFormedLog(log + [Message(text, true), BotMessage(reply)])
    ensures (log + [Message(text, true), BotMessage(reply)])[..|log|] == log
  {
    var next := log + [Message(text, true), BotMessage(reply)];
    forall i | 0 <= i < |next| ensures next[i].isUser <==> i % 2 == 1 {
      if i < |log| {
        assert next[i] == log[i];
      }
    }
  }

  /** The log after a run of sends from the initial one: blank texts add
      nothing, every other text adds its exchange. */
  function LogAfter(sends: seq<(string, Reply<Option<string>>)>): (log: seq<Message>)
    ensures |log| >= 1 && log[0] == Greeting
  {
    if sends == [] then [Greeting]
    else
      var (text, reply) := sends[|sends| - 1];
      var before := LogAfter(sends[..|sends| - 1]);
      if AllSpace(text) then before else before + [Message(text, true), BotMessage(reply)]
  }

  /** Every log reachable from the initial one is well formed. */
  lemma {:induction false} ReachableLogsWellFormed(sends: seq<(string, Reply<Option<string>>)>)
    ensures WellFormedLog(LogAfter(sends))
  {
    if sends != [] {
      var (text, reply) := sends[|sends| - 1];
      ReachableLogsWellFormed(sends[..|sends| - 1]);
      if !AllSpace(text) {
        ExchangeKeepsShape(LogAfter(sends[..|sends| - 1]), text, reply);
      }
    }
  }

  class ChatWidget {
    var messages: seq<Message>
    var inputMessage: string
    var isLoading: bool

    /** The log on screen always has the shape of `WellFormedLog`. */
    predicate Valid()
      reads this
    {
      WellFormedLog(messages)
    }

    constructor ()
      ensures messages == [Greeting] && inputMessage == "" && !isLoading
      ensures Valid()
    {
      messages := [Greeting];
      inputMessage := "";
      isLoading := false;
    }

    /** Typing into the input. */
    method Type(text: string)
      modifies this
      ensures inputMessage == text && messages == old(messages) && isLoading == old(isLoading)
    {
      inputMessage := text;
    }

    /** `sendMessage(text)`: nothing for blank text (`!text.trim()`, which by
        `TrimEmptyIffBlank` is blankness); otherwise the user's message goes
        in untrimmed before the call, the bot's after it. */
    method SendMessage(text: string, reply: Reply<Option<string>>) returns (call: Option<Call>, loadingDuringCall: bool)
      requires Valid()
      modifies this
      ensures Valid()
      ensures call.None? <==> AllSpace(text)
      ensures AllSpace(text) ==>
        messages == old(messages) && inputMessage == old(inputMessage) && isLoading == old(isLoading)
      ensures !AllSpace(text) ==>
        call == Some(SendChatMessage(text)) && loadingDuringCall && !isLoading && inputMessage == ""
        && messages == old(messages) + [Message(text, true), BotMessage(reply)]
    {
      call, loadingDuringCall := None, isLoading;
      if !AllSpace(text) {
        messages := messages + [Message(text, true)];
        inputMessage := "";
        isLoading := true;
        loadingDuringCall := isLoading;
        call := Some(SendChatMessage(text));
        ExchangeKeepsShape(old(messages), text, reply);
        messages := messages + [BotMessage(reply)];
        isLoading := false;
      }
    }

    /** `handleSubmit`: sends what is in the input. */
    method HandleSubmit(reply: Reply<Option<string>>) returns (call: Option<Call>, loadingDuringCall: bool)
      requires Valid()
      modifies this
      ensures Valid()
      ensures call.None? <==> AllSpace(old(inputMessage))
      ensures AllSpace(old(inputMessage)) ==>
        messages == old(messages) && inputMessage == old(inputMessage) && isLoading == old(isLoading)
      ensures !AllSpace(old(inputMessage)) ==> loadingDuringCall && !isLoading
      ensures !AllSpace(old(inputMessage)) ==>
        call == Some(SendChatMessage(old(inputMessage))) && inputMessage == ""
        && messages == old(messages) + [Message(old(inputMessage), true), BotMessage(reply)]
    {
      call, loadingDuringCall := SendMessage(inputMessage, reply);
    }
  }
}
