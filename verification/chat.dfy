/**
 * The document assistant chat page (app/chat/page.tsx): the message log, the input box
 * and the loading flag, changed by sending a message, by the delayed canned reply, and
 * by typing or picking a suggested question. The reply delay is a separate event; the
 * page's random choice of reply and its `Date.now()` ids are parameters.
 */
module Chat {
  import opened Wrappers
  import opened Text
  import opened Seqs

  datatype Role = User | Assistant

  /** A document cited under a reply. */
  datatype Source = Source(name: string, category: string, confidence: int)

  /** `Math.floor(Math.random() * responses.length)`: which of the two canned replies. */
  type ResponseIndex = i: nat | i < 2

  /**
   * What a message says: text the user typed, the greeting, or one of the canned
   * replies. `ContentText` gives the characters the page shows for each.
   */
  datatype Content = Typed(text: string) | GreetingContent | CannedReply(k: ResponseIndex)

  datatype Message = Message(id: string, role: Role, content: Content, sources: Option<seq<Source>>)

  function ContentText(c: Content): string
  {
    match c
    case Typed(text) => text
    case GreetingContent => GreetingText()
    case CannedReply(k) => if k == 0 then SafetyReplyText() else FinancialReplyText()
  }

  function GreetingText(): string
  {
    "Hello! I'm your AI document assistant. I can help you find information, summarize documents, and answer questions about your KMRL document collection. What would you like to know?"
  }

  function SafetyReplyText(): string
  {
    "Based on the latest safety protocols document (Metro_Safety_Protocol_2024.pdf), here are the key safety measures for metro operations:\n\n1. **Emergency Response**: All stations must have emergency response teams available 24/7\n2. **Passenger Safety**: Regular safety announcements every 15 minutes during peak hours\n3. **Equipment Checks**: Daily inspection of all safety equipment including fire extinguishers and emergency exits\n4. **Staff Training**: Monthly safety training sessions for all operational staff\n\nWould you like me to provide more specific details about any of these protocols?"
  }

  function FinancialReplyText(): string
  {
    "I found several financial reports from Q4 2023. Here's a summary:\n\n**Revenue Performance:**\n- Total revenue: ₹45.2 crores (8% increase from Q3)\n- Passenger revenue: ₹38.7 crores\n- Non-fare revenue: ₹6.5 crores\n\n**Key Metrics:**\n- Daily ridership: 2.1 lakh passengers\n- Operating ratio: 0.78 (improved from 0.82)\n- Cost per kilometer: ₹156\n\n**Major Expenses:**\n- Staff costs: 42% of total expenses\n- Energy costs: 18% of total expenses\n- Maintenance: 15% of total expenses\n\nWould you like me to dive deeper into any specific financial aspect?"
  }

  /** The documents each canned reply cites. */
  function ResponseSources(k: ResponseIndex): seq<Source>
  {
    if k == 0 then
      [Source("Metro_Safety_Protocol_2024.pdf", "Safety Protocols", 96),
       Source("Emergency_Response_Guidelines.pdf", "Operational Guidelines", 88)]
    else
      [Source("Financial_Report_Q4_2023.pdf", "Financial Reports", 94)]
  }

  /** The message the log starts with. */
  function Greeting(): Message
  {
    Message("1", Assistant, GreetingContent, None)
  }

  /** The questions of the sidebar; picking one puts it in the input box. */
  const SuggestedQuestions: seq<string> := [
    "What are the latest safety protocols for metro operations?",
    "Show me financial reports from Q4 2023",
    "What maintenance issues were reported this month?",
    "Summarize passenger feedback trends",
    "Find documents related to emergency procedures",
    "What are the compliance requirements for station operations?"
  ]

  /**
   * The page's state: the message log, the input box and the loading flag, plus the
   * number of reply timeouts that are set and have not fired yet.
   */
  datatype ChatState = ChatState(messages: seq<Message>, inputValue: string, isLoading: bool, scheduled: nat)

  const InitialState: ChatState := ChatState([Greeting()], "", false, 0)

  /** The guard of `handleSendMessage`: something besides white space is typed and no
      reply is awaited. */
  predicate CanSend(s: ChatState)
  {
    Trim(s.inputValue) != "" && !s.isLoading
  }

  /** A suggested question put in the input box passes the guard whenever no reply is
      awaited, so sending it appends it, as typed, as the user's message. */
  lemma SuggestedQuestionSends(s: ChatState, i: nat, id: string)
    requires i < |SuggestedQuestions| && !s.isLoading
    ensures CanSend(SetInput(s, SuggestedQuestions[i]))
    ensures SendMessage(SetInput(s, SuggestedQuestions[i]), id).messages
      == s.messages + [Message(id, User, Typed(SuggestedQuestions[i]), None)]
  {
    var q := SuggestedQuestions[i];
    assert q[|q| - 1] == '?' || q[|q| - 1] == '3' || q[|q| - 1] == 's';
    assert !IsWhitespace(q[|q| - 1]);
  }

  /** The assistant message made from canned response `k`. */
  function ReplyMessage(id: string, k: ResponseIndex): Message
  {
    Message(id, Assistant, CannedReply(k), Some(ResponseSources(k)))
  }

  /** A reply made from one of the canned responses. */
  predicate IsCannedReply(m: Message)
  {
    m.role == Assistant && m.content.CannedReply? && m.sources == Some(ResponseSources(m.content.k))
  }

  /** What stands at an odd place of the log after the greeting (a user message that is
      not blank) and at an even place (a canned reply). */
  ghost predicate InPlace(m: Message, odd: bool)
  {
    if odd then m.role == User && m.content.Typed? && Trim(m.content.text) != "" && m.sources == None
    else IsCannedReply(m)
  }

  /**
   * `handleSendMessage`: when the guard fails nothing changes; otherwise the typed text,
   * untrimmed, is appended as one user message, the input box is cleared, the page waits
   * for a reply and one reply timeout is set.
   */
  function SendMessage(s: ChatState, id: string): (t: ChatState)
    ensures t == s <==> !CanSend(s)
    ensures s.messages <= t.messages && |t.messages| <= |s.messages| + 1
    ensures t != s ==>
      |t.messages| == |s.messages| + 1
      && t.messages[|s.messages|] == Message(id, User, Typed(s.inputValue), None)
      && t.inputValue == "" && t.isLoading && t.scheduled == s.scheduled + 1
  {
    if !CanSend(s) then s
    else
      var userMessage := Message(id, User, Typed(s.inputValue), None);
      s.(messages := s.messages + [userMessage], inputValue := "", isLoading := true,
         scheduled := s.scheduled + 1)
  }

  /** The reply timeout fires: one canned reply is appended and the page stops waiting;
      the input box is left as it is. */
  function Respond(s: ChatState, choice: ResponseIndex, id: string): (t: ChatState)
    requires s.scheduled > 0
    ensures s.messages <= t.messages && |t.messages| == |s.messages| + 1
    ensures IsCannedReply(t.messages[|s.messages|])
    ensures t.inputValue == s.inputValue && !t.isLoading && t.scheduled == s.scheduled - 1
  {
    s.(messages := s.messages + [ReplyMessage(id, choice)], isLoading := false, scheduled := s.scheduled - 1)
  }

  /** `setInputValue`, as typing and `handleSuggestedQuestion` call it: only the input
      box changes. */
  function SetInput(s: ChatState, text: string): (t: ChatState)
    ensures t.inputValue == text
    ensures t.messages == s.messages && t.isLoading == s.isLoading && t.scheduled == s.scheduled
  {
    s.(inputValue := text)
  }

  /**
   * What every reachable state satisfies: the log starts with the greeting and then
   * alternates user and canned assistant messages, user messages are not blank, the
   * page waits for a reply exactly when the last message is the user's, and then
   * exactly one reply timeout is set.
   */
  ghost predicate ChatInv(s: ChatState)
  {
    |s.messages| >= 1 && s.messages[0] == Greeting()
    && (forall i :: 1 <= i < |s.messages| ==> InPlace(s.messages[i], i % 2 == 1))
    && (s.isLoading <==> |s.messages| % 2 == 0)
    && s.scheduled == (if s.isLoading then 1 else 0)
  }

  lemma InitialStateInv()
    ensures ChatInv(InitialState)
  {
  }

  /** At most one reply is ever pending, and a send while one is pending changes nothing. */
  lemma AtMostOnePending(s: ChatState, id: string)
    requires ChatInv(s)
    ensures s.scheduled <= 1
    ensures s.scheduled == 1 ==> SendMessage(s, id) == s
  {
  }

  /** Appending a message that fits the next place keeps every place of the log right. */
  lemma AppendInPlace(msgs: seq<Message>, m: Message)
    requires |msgs| >= 1
    requires forall i :: 1 <= i < |msgs| ==> InPlace(msgs[i], i % 2 == 1)
    requires InPlace(m, |msgs| % 2 == 1)
    ensures forall i :: 1 <= i < |msgs + [m]| ==> InPlace((msgs + [m])[i], i % 2 == 1)
  {
    AppendKeepsAll(msgs, m, 1, (x, i) => InPlace(x, i % 2 == 1));
  }

  lemma SendKeepsInv(s: ChatState, id: string)
    requires ChatInv(s)
    ensures ChatInv(SendMessage(s, id))
  {
    var t := SendMessage(s, id);
    if CanSend(s) {
      var userMessage := Message(id, User, Typed(s.inputValue), None);
      assert t.messages == s.messages + [userMessage];
      assert InPlace(userMessage, true);
      AppendInPlace(s.messages, userMessage);
      assert t.messages[0] == Greeting();
      assert t.isLoading && t.scheduled == 1 && |t.messages| % 2 == 0;
    } else {
      assert t == s;
    }
  }

  lemma RespondKeepsInv(s: ChatState, choice: ResponseIndex, id: string)
    requires ChatInv(s) && s.scheduled > 0
    ensures ChatInv(Respond(s, choice, id))
  {
    var reply := ReplyMessage(id, choice);
    AppendInPlace(s.messages, reply);
    assert (s.messages + [reply])[0] == Greeting();
  }

  /** The events that change the page: a send (button or Enter), a reply timeout firing,
      and typing or picking a suggested question. */
  datatype Event =
    | SendEvent(id: string)
    | ReplyEvent(choice: ResponseIndex, id: string)
    | InputEvent(text: string)

  /** One event; a reply event with no timeout set cannot happen and is ignored. */
  function Step(s: ChatState, e: Event): ChatState
  {
    match e
    case SendEvent(id) => SendMessage(s, id)
    case ReplyEvent(choice, id) => if s.scheduled > 0 then Respond(s, choice, id) else s
    case InputEvent(text) => SetInput(s, text)
  }

  function Run(s: ChatState, events: seq<Event>): ChatState
    decreases |events|
  {
    if events == [] then s else Run(Step(s, events[0]), events[1..])
  }

  /**
   * Along any sequence of events the invariant holds and the log only grows: messages
   * are appended, never removed or edited, and the greeting stays first.
   */
  lemma {:induction false} RunKeepsInv(s: ChatState, events: seq<Event>)
    requires ChatInv(s)
    ensures ChatInv(Run(s, events))
    ensures s.messages <= Run(s, events).messages
    decreases |events|
  {
    if events != [] {
      var t := Step(s, events[0]);
      StepKeepsInv(s, events[0]);
      RunKeepsInv(t, events[1..]);
      var u := Run(t, events[1..]);
      assert s.messages <= u.messages by {
        assert forall i :: 0 <= i < |s.messages| ==> s.messages[i] == t.messages[i] == u.messages[i];
      }
    }
  }

  lemma StepKeepsInv(s: ChatState, e: Event)
    requires ChatInv(s)
    ensures ChatInv(Step(s, e)) && s.messages <= Step(s, e).messages
  {
    match e
    case SendEvent(id) => SendKeepsInv(s, id);
    case ReplyEvent(choice, id) => if s.scheduled > 0 { RespondKeepsInv(s, choice, id); }
    case InputEvent(text) =>
  }

  /** Every state the page can reach from its initial one starts with the greeting and
      has at most one reply pending. */
  lemma ReachableStates(events: seq<Event>)
    ensures var s := Run(InitialState, events);
      |s.messages| >= 1 && s.messages[0] == Greeting() && s.scheduled <= 1
  {
    InitialStateInv();
    RunKeepsInv(InitialState, events);
  }

  class ChatPage {
    var messages: seq<Message>
    var inputValue: string
    var isLoading: bool
    /** Reply timeouts that are set and have not fired. */
    var scheduled: nat

    function State(): ChatState
      reads this
    {
      ChatState(messages, inputValue, isLoading, scheduled)
    }

    ghost predicate Valid()
      reads this
    {
      ChatInv(State())
    }

    constructor ()
      ensures Valid() && State() == InitialState
    {
      messages := [Greeting()];
      inputValue := "";
      isLoading := false;
      scheduled := 0;
    }

    method HandleSendMessage(id: string)
      requires Valid()
      modifies this
      ensures Valid()
      ensures State() == SendMessage(old(State()), id)
    {
      ghost var before := State();
      SendKeepsInv(before, id);
      if Trim(inputValue) == "" || isLoading {
        assert !CanSend(before);
        return;
      }
      var userMessage := Message(id, User, Typed(inputValue), None);
      messages := messages + [userMessage];
      inputValue := "";
      isLoading := true;
      scheduled := scheduled + 1;
      assert State() == SendMessage(before, id);
    }

    /** The reply timeout set by a send fires. */
    method ReplyTimeout(choice: ResponseIndex, id: string)
      requires Valid() && scheduled > 0
      modifies this
      ensures Valid()
      ensures State() == Respond(old(State()), choice, id)
    {
      RespondKeepsInv(State(), choice, id);
      var assistantMessage := ReplyMessage(id, choice);
      messages := messages + [assistantMessage];
      isLoading := false;
      scheduled := scheduled - 1;
    }

    method HandleSuggestedQuestion(question: string)
      requires Valid()
      modifies this
      ensures Valid()
      ensures State() == SetInput(old(State()), question)
    {
      inputValue := question;
    }
  }
}
