/**
 * The chat panel: an input line, a loading flag and an append-only message
 * log. A send is refused while the trimmed input is empty or a reply is
 * pending; an accepted send logs the user's text and then exactly one model
 * message, the reply or a fixed fallback.
 *
 * The call to the chat service is not modelled; a send receives its outcome
 * as the input `reply`.
 */
module Chat {
  import opened Types
  import App

  const FallbackText: string := "Sorry, I encountered an error. Please try again."

  /** The outcome of one request to the chat service. */
  datatype Reply = Replied(text: string) | ReplyFailed

  /**
   * The code points `String.prototype.trim` removes: ECMAScript's
   * WhiteSpace (tab, vertical tab, form feed, no-break space, byte order
   * mark and the space separators) and LineTerminator.
   */
  predicate IsWhitespace(c: char)
  {
    || c == '\t' || c == '\U{000B}' || c == '\U{000C}' || c == ' ' || c == '\U{00A0}' || c == '\U{FEFF}'
    || c == '\U{1680}' || ('\U{2000}' <= c <= '\U{200A}') || c == '\U{202F}' || c == '\U{205F}' || c == '\U{3000}'
    || c == '\n' || c == '\r' || c == '\U{2028}' || c == '\U{2029}'
  }

  predicate Blank(s: string)
  {
    forall i :: 0 <= i < |s| ==> IsWhitespace(s[i])
  }

  /** `s` without its leading whitespace. */
  function TrimStart(s: string): (t: string)
    ensures |t| <= |s| && t == s[|s| - |t|..]
    ensures Blank(s[..|s| - |t|])
    ensures t == [] || !IsWhitespace(t[0])
    ensures t == [] <==> Blank(s)
  {
    if s != [] && IsWhitespace(s[0]) then
      assert Blank(s[1..]) ==> Blank(s) by {
        if Blank(s[1..]) {
          assert forall i :: 1 <= i < |s| ==> s[i] == s[1..][i - 1];
        }
      }
      TrimStart(s[1..])
    else s
  }

  /** `s` without its trailing whitespace. */
  function TrimEnd(s: string): (t: string)
    ensures |t| <= |s| && t == s[..|t|]
    ensures Blank(s[|t|..])
    ensures t == [] || !IsWhitespace(t[|t| - 1])
    ensures t == [] <==> Blank(s)
  {
    if s != [] && IsWhitespace(s[|s| - 1]) then
      assert Blank(s[..|s| - 1]) ==> Blank(s) by {
        if Blank(s[..|s| - 1]) {
          assert forall i :: 0 <= i < |s| - 1 ==> s[i] == s[..|s| - 1][i];
        }
      }
      TrimEnd(s[..|s| - 1])
    else s
  }

  /**
   * JavaScript's `trim`: a slice of `s` that neither starts nor ends with
   * whitespace, with only whitespace cut off on either side.
   */
  function Trim(s: string): (t: string)
    ensures t == [] || (!IsWhitespace(t[0]) && !IsWhitespace(t[|t| - 1]))
    ensures exists a :: 0 <= a <= |s| - |t| && t == s[a..a + |t|] && Blank(s[..a]) && Blank(s[a + |t|..])
  {
    TrimEnd(TrimStart(s))
  }

  /** The trimmed text is empty exactly when the text is all whitespace. */
  lemma TrimEmptyIffBlank(s: string)
    ensures Trim(s) == "" <==> Blank(s)
  {
    var t := TrimStart(s);
    if t != [] {
      assert !Blank(t) by { assert !IsWhitespace(t[0]); }
    }
  }

  function UserMessage(text: string): ChatMessage
  {
    ChatMessage(User, [Part(text)])
  }

  /** The model's message for an outcome: the reply's text or the fallback. */
  function ModelMessage(reply: Reply): ChatMessage
  {
    match reply
    case Replied(text) => ChatMessage(Model, [Part(text)])
    case ReplyFailed => ChatMessage(Model, [Part(FallbackText)])
  }

  datatype ChatState = ChatState(messages: seq<ChatMessage>, input: string, isLoading: bool)

  /** The guard of a send: some non-whitespace input and no reply pending. */
  predicate Accepts(s: ChatState)
  {
    Trim(s.input) != "" && !s.isLoading
  }

  /** The guard in the terms of the input's characters. */
  lemma AcceptsIffNonBlank(s: ChatState)
    ensures Accepts(s) <==> !s.isLoading && exists i :: 0 <= i < |s.input| && !IsWhitespace(s.input[i])
  {
    TrimEmptyIffBlank(s.input);
  }

  /** Typing replaces the input, except while the input box is disabled. */
  function Typed(s: ChatState, text: string): (t: ChatState)
    ensures t.messages == s.messages && t.isLoading == s.isLoading
    ensures t.input == if s.isLoading then s.input else text
  {
    if s.isLoading then s else s.(input := text)
  }

  /** An accepted send before the reply: the user message is logged, the input cleared. */
  function Submitted(s: ChatState): ChatState
  {
    ChatState(s.messages + [UserMessage(s.input)], "", true)
  }

  /** The reply is logged and loading ends. */
  function Answered(s: ChatState, reply: Reply): ChatState
  {
    s.(messages := s.messages + [ModelMessage(reply)], isLoading := false)
  }

  /** The state a send leaves behind. */
  function AfterSend(s: ChatState, reply: Reply): (t: ChatState)
    ensures |t.messages| == |s.messages| + (if Accepts(s) then 2 else 0)
    ensures t.messages[..|s.messages|] == s.messages
    ensures !Accepts(s) ==> t == s
    ensures Accepts(s) ==> t.input == "" && !t.isLoading
  {
    if Accepts(s) then Answered(Submitted(s), reply) else s
  }

  /** The text a send passes to the chat service, if it passes any. */
  function SentText(s: ChatState): Option<string>
  {
    if Accepts(s) then Some(s.input) else None
  }

  /** A refused send changes nothing. */
  lemma RefusedSendIsNoOp(s: ChatState, reply: Reply)
    requires Blank(s.input) || s.isLoading
    ensures AfterSend(s, reply) == s
    ensures SentText(s) == None
  {
    TrimEmptyIffBlank(s.input);
  }

  /**
   * An accepted send appends the untrimmed input as a user message and
   * then one model message, clears the input and ends not loading; the
   * text sent is the text logged.
   */
  lemma AcceptedSendAppendsTwo(s: ChatState, reply: Reply)
    requires Accepts(s)
    ensures var t := AfterSend(s, reply);
            && |t.messages| == |s.messages| + 2
            && t.messages[..|s.messages|] == s.messages
            && t.messages[|s.messages|] == ChatMessage(User, [Part(s.input)])
            && t.messages[|s.messages| + 1].role == Model
            && t.input == "" && !t.isLoading
    ensures SentText(s) == Some(s.input)
    ensures reply.Replied? ==> AfterSend(s, reply).messages[|s.messages| + 1].parts == [Part(reply.text)]
    ensures reply.ReplyFailed? ==> AfterSend(s, reply).messages[|s.messages| + 1].parts == [Part(FallbackText)]
  {
  }

  /** What happens to the panel: typing or sending. */
  datatype ChatEvent = Type(text: string) | Send(reply: Reply)

  function Step(s: ChatState, e: ChatEvent): ChatState
  {
    match e
    case Type(text) => Typed(s, text)
    case Send(reply) => AfterSend(s, reply)
  }

  function Run(s: ChatState, events: seq<ChatEvent>): ChatState
    decreases |events|
  {
    if events == [] then s else Run(Step(s, events[0]), events[1..])
  }

  /** Messages alternate user, model, user, model, ... */
  predicate Alternates(log: seq<ChatMessage>)
  {
    |log| % 2 == 0 && forall i :: 0 <= i < |log| ==> log[i].role == (if i % 2 == 0 then User else Model)
  }

  lemma {:induction false} AlternatesConcat(a: seq<ChatMessage>, b: seq<ChatMessage>)
    requires Alternates(a) && Alternates(b)
    ensures Alternates(a + b)
  {
    forall i | |a| <= i < |a + b|
      ensures (a + b)[i].role == (if i % 2 == 0 then User else Model)
    {
      assert (a + b)[i] == b[i - |a|];
      assert i % 2 == (i - |a|) % 2;
    }
  }

  lemma ExchangeAlternates(question: ChatMessage, answer: ChatMessage)
    requires question.role == User && answer.role == Model
    ensures Alternates([question, answer])
  {
    var log := [question, answer];
    assert forall i :: 0 <= i < 2 ==> i % 2 == i;
  }

  /** One step keeps the old log as a prefix and adds user/model pairs. */
  lemma StepIsAppendOnly(s: ChatState, e: ChatEvent)
    ensures var t := Step(s, e);
            |s.messages| <= |t.messages| && t.messages[..|s.messages|] == s.messages
            && Alternates(t.messages[|s.messages|..])
  {
    var t := Step(s, e);
    if e.Send? && Accepts(s) {
      assert t.messages == s.messages + [UserMessage(s.input), ModelMessage(e.reply)];
      assert t.messages[|s.messages|..] == [UserMessage(s.input), ModelMessage(e.reply)];
      ExchangeAlternates(UserMessage(s.input), ModelMessage(e.reply));
    } else {
      assert t.messages == s.messages;
      assert t.messages[|s.messages|..] == [];
    }
  }

  /**
   * Over any sequence of typing and sends the log is append-only: the old
   * messages stay in place and what is added is user/model pairs.
   */
  lemma {:induction false} RunIsAppendOnly(s: ChatState, events: seq<ChatEvent>)
    ensures var t := Run(s, events);
            |s.messages| <= |t.messages| && t.messages[..|s.messages|] == s.messages
            && Alternates(t.messages[|s.messages|..])
    decreases |events|
  {
    if events == [] {
      assert s.messages[|s.messages|..] == [];
    } else {
      var s1 := Step(s, events[0]);
      StepIsAppendOnly(s, events[0]);
      RunIsAppendOnly(s1, events[1..]);
      LogExtension(s.messages, s1.messages, Run(s1, events[1..]).messages);
    }
  }

  /** Extending a log twice by user/model pairs extends it by user/model pairs. */
  lemma LogExtension(a: seq<ChatMessage>, b: seq<ChatMessage>, c: seq<ChatMessage>)
    requires |a| <= |b| && b[..|a|] == a && Alternates(b[|a|..])
    requires |b| <= |c| && c[..|b|] == b && Alternates(c[|b|..])
    ensures c[..|a|] == a && Alternates(c[|a|..])
  {
    assert c[..|a|] == c[..|b|][..|a|];
    assert c[|a|..] == b[|a|..] + c[|b|..];
    AlternatesConcat(b[|a|..], c[|b|..]);
  }

  class ChatBot {
    var messages: seq<ChatMessage>
    var input: string
    var isLoading: bool

    function State(): ChatState
      reads this
    {
      ChatState(messages, input, isLoading)
    }

    constructor ()
      ensures State() == ChatState([], "", false)
    {
      messages, input, isLoading := [], "", false;
    }

    method SetInput(text: string)
      modifies this
      ensures State() == Typed(old(State()), text)
    {
      if !isLoading {
        input := text;
      }
    }

    /**
     * Sends the input; `sent` is the text passed to the chat service. The
     * session comes from the application, which creates it on first use.
     */
    method HandleSend(app: App.StoryboardApp, reply: Reply) returns (sent: Option<string>)
      modifies this, app`chat
      ensures State() == AfterSend(old(State()), reply)
      ensures sent == SentText(old(State()))
      ensures !Accepts(old(State())) ==> app.chat == old(app.chat)
      ensures Accepts(old(State())) ==> app.chat != null
      ensures old(app.chat) != null ==> app.chat == old(app.chat)
    {
      if Trim(input) == "" || isLoading {
        return None;
      }
      var text := input;
      messages := messages + [UserMessage(text)];
      input := "";
      isLoading := true;

      var session := app.GetChat();
      sent := Some(text);
      messages := messages + [ModelMessage(reply)];
      isLoading := false;
    }
  }
}
