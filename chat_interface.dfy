/** The chat panel under a chapter analysis: a transcript that only grows,
    an input line, and a loading flag that keeps a second question from
    being sent while one is being answered. Submitting runs in two steps:
    the part before the chat's `sendMessage` is awaited, and the part after
    it settles, given what it returned or threw. */
module ChatInterface {
  import opened Wrappers
  import opened JsText
  import opened BibleTypes

  const ErrorReply := "Sorry, I encountered an error. Please try again."

  /** The panel's state. */
  datatype ChatState = ChatState(messages: seq<ChatMessage>, userInput: string, isLoading: bool)

  const InitialChat := ChatState([], "", false)

  /** Typing; the input is disabled while a reply is pending. */
  function Type(v: ChatState, text: string): ChatState {
    if v.isLoading then v else v.(userInput := text)
  }

  /** The first part of `handleSubmit`: the new state, and the message sent
      to the chat (`None` when nothing is sent). */
  function Submit(v: ChatState): (ChatState, Option<string>) {
    if Trim(v.userInput) == "" || v.isLoading then (v, None)
    else (ChatState(v.messages + [ChatMessage(User, v.userInput)], "", true), Some(v.userInput))
  }

  /** The text of an assistant reply. */
  function ReplyText(reply: Result<string, Thrown>): string {
    match reply
    case Ok(text) => text
    case Err(_) => ErrorReply
  }

  /** The part of `handleSubmit` after the reply settles. */
  function Settle(v: ChatState, reply: Result<string, Thrown>): ChatState {
    v.(messages := v.messages + [ChatMessage(Ai, ReplyText(reply))], isLoading := false)
  }

  /** A blank input or a pending reply makes submitting do nothing. Otherwise
      the input, untrimmed, is appended as the user's message and sent, the
      input is cleared and a reply is pending. */
  lemma SubmitMeaning(v: ChatState)
    ensures (forall k :: 0 <= k < |v.userInput| ==> IsWhitespace(v.userInput[k])) || v.isLoading ==> Submit(v) == (v, None)
    ensures !(forall k :: 0 <= k < |v.userInput| ==> IsWhitespace(v.userInput[k])) && !v.isLoading ==>
      var (w, sent) := Submit(v);
      sent == Some(v.userInput) && w.messages == v.messages + [ChatMessage(User, v.userInput)]
      && w.userInput == "" && w.isLoading
  {
    TrimEmptyIff(v.userInput);
  }

  /** A settled reply appends one assistant message, the reply or the fixed
      apology, and ends the wait. */
  lemma SettleMeaning(v: ChatState, reply: Result<string, Thrown>)
    ensures var w := Settle(v, reply);
      w.messages == v.messages + [ChatMessage(Ai, if reply.Ok? then reply.value else ErrorReply)]
      && !w.isLoading && w.userInput == v.userInput
  {
  }

  /** What happens to the panel. */
  datatype Event = Typed(text: string) | Submitted | Settled(reply: Result<string, Thrown>)

  /** One event. A reply only settles while one is pending. */
  function Step(v: ChatState, e: Event): ChatState {
    match e
    case Typed(text) => Type(v, text)
    case Submitted => Submit(v).0
    case Settled(reply) => if v.isLoading then Settle(v, reply) else v
  }

  function Run(v: ChatState, events: seq<Event>): ChatState
    decreases |events|
  {
    if events == [] then v else Run(Step(v, events[0]), events[1..])
  }

  /** Whatever happens, the transcript is only appended to: earlier
      messages are never removed, changed or reordered. */
  lemma {:induction false} TranscriptOnlyGrows(v: ChatState, events: seq<Event>)
    ensures |v.messages| <= |Run(v, events).messages|
    ensures Run(v, events).messages[..|v.messages|] == v.messages
    decreases |events|
  {
    if events != [] {
      var w := Step(v, events[0]);
      assert |v.messages| <= |w.messages| && w.messages[..|v.messages|] == v.messages;
      TranscriptOnlyGrows(w, events[1..]);
    }
  }

  function CountBy(messages: seq<ChatMessage>, author: Author): nat {
    if messages == [] then 0
    else CountBy(messages[..|messages| - 1], author) + (if messages[|messages| - 1].author == author then 1 else 0)
  }

  lemma CountAppend(messages: seq<ChatMessage>, m: ChatMessage, author: Author)
    ensures CountBy(messages + [m], author) == CountBy(messages, author) + (if m.author == author then 1 else 0)
  {
    assert (messages + [m])[..|messages|] == messages;
  }

  /** Every question is answered once: the user messages outnumber the
      assistant's by one while a reply is pending, and by none otherwise. */
  predicate Balanced(v: ChatState) {
    CountBy(v.messages, User) == CountBy(v.messages, Ai) + (if v.isLoading then 1 else 0)
  }

  lemma StepBalanced(v: ChatState, e: Event)
    requires Balanced(v)
    ensures Balanced(Step(v, e))
  {
    match e
    case Typed(_) =>
    case Submitted =>
      if Submit(v).1.Some? {
        CountAppend(v.messages, ChatMessage(User, v.userInput), User);
        CountAppend(v.messages, ChatMessage(User, v.userInput), Ai);
      }
    case Settled(reply) =>
      if v.isLoading {
        CountAppend(v.messages, ChatMessage(Ai, ReplyText(reply)), User);
        CountAppend(v.messages, ChatMessage(Ai, ReplyText(reply)), Ai);
      }
  }

  /** From a fresh panel, at most one question is ever unanswered. */
  lemma {:induction false} RunBalanced(v: ChatState, events: seq<Event>)
    requires Balanced(v)
    ensures Balanced(Run(v, events))
    decreases |events|
  {
    if events != [] {
      StepBalanced(v, events[0]);
      RunBalanced(Step(v, events[0]), events[1..]);
    }
  }

  /** The panel component: its state hooks as fields. */
  class ChatView {
    var messages: seq<ChatMessage>
    var userInput: string
    var isLoading: bool

    function State(): ChatState
      reads this
    {
      ChatState(messages, userInput, isLoading)
    }

    constructor()
      ensures State() == InitialChat
    {
      messages := [];
      userInput := "";
      isLoading := false;
    }

    /** The input's `onChange`. */
    method HandleInput(text: string)
      modifies this
      ensures State() == Type(old(State()), text)
    {
      if !isLoading {
        userInput := text;
      }
    }

    /** `handleSubmit` up to the awaited `sendMessage`: returns the message
        sent, `None` when nothing is sent. */
    method HandleSubmit() returns (sent: Option<string>)
      modifies this
      ensures (State(), sent) == Submit(old(State()))
    {
      if Trim(userInput) == "" || isLoading {
        return None;
      }
      var userMessage := ChatMessage(User, userInput);
      messages := messages + [userMessage];
      sent := Some(userInput);
      userInput := "";
      isLoading := true;
    }

    /** `handleSubmit` after `sendMessage` settles; it is only reached with
        a reply pending. */
    method HandleReply(reply: Result<string, Thrown>)
      requires isLoading
      modifies this
      ensures State() == Settle(old(State()), reply)
    {
      match reply {
        case Ok(result) =>
          messages := messages + [ChatMessage(Ai, result)];
        case Err(_) =>
          messages := messages + [ChatMessage(Ai, ErrorReply)];
      }
      isLoading := false;
    }
  }
}
