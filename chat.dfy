/**
 * The chat conversation store: an ordered message log and an `isTyping` flag,
 * changed by the two phases of `sendMessage` and by `clearMessages`, plus the
 * reply gateway `getAIResponse` that absorbs every failure of the remote call.
 *
 * The pure part (state values and step functions) says what each operation
 * does; the class `ChatStore` below performs the same updates in place and is
 * proved against those functions.
 */
module Chat {
  import opened Wrappers

  /** Creation time of a message (the source reads `new Date()`). */
  type Timestamp = int

  /** The fresh id and creation time the source draws from the clock and the random source for a new message. */
  datatype Stamp = Stamp(id: string, time: Timestamp)

  /** Who produced a message: id, display name and an optional avatar. */
  datatype Sender = Sender(id: string, name: string, avatar: Option<string>)

  datatype Message = Message(id: string, text: string, timestamp: Timestamp, isUser: bool, user: Sender)

  /** The store's observable state. */
  datatype ChatState = ChatState(messages: seq<Message>, isTyping: bool)

  const GREETING_ID := "1"
  const GREETING_TEXT := "Hello! I'm your AI assistant. How can I help you today?"
  const AI_SENDER := Sender("ai", "AI Assistant", Some(""))
  const USER_SENDER := Sender("user", "You", None)

  /** The apology `sendMessage` appends itself when a fault escapes its `try` block. */
  const LOCAL_ERROR_TEXT := "Sorry, I'm having trouble responding right now. Please try again."

  /** The apologies `getAIResponse` returns instead of failing. */
  const FALLBACK_RESPONSES: seq<string> := [
    "I'm having trouble connecting to AI services right now. Please try again later.",
    "Sorry, I'm experiencing some technical difficulties. Can you rephrase your question?",
    "I'm currently unable to process your request. Please try again in a moment."
  ]

  // ---------------------------------------------------------------------------
  // Reply gateway (getAIResponse)
  // ---------------------------------------------------------------------------

  /** What the remote text-generation call did: produced some text, or failed in any way. */
  datatype RemoteOutcome = Generated(text: string) | RemoteFailure

  /** `Math.floor(Math.random() * 3)`: an index into the fallback list. */
  type Pick = k: nat | k < 3

  /** The text `getAIResponse` resolves to; it never fails. */
  function AIResponse(outcome: RemoteOutcome, pick: Pick): (r: string)
    ensures outcome.Generated? ==> r == outcome.text
    ensures outcome.RemoteFailure? ==> r in FALLBACK_RESPONSES && r != LOCAL_ERROR_TEXT
  {
    match outcome
    case Generated(text) => text
    case RemoteFailure => FALLBACK_RESPONSES[pick]
  }

  /** There are exactly three distinct fallback texts and every one of them can be chosen. */
  lemma FallbackChoices()
    ensures |FALLBACK_RESPONSES| == 3
    ensures forall i, j :: 0 <= i < j < |FALLBACK_RESPONSES| ==> FALLBACK_RESPONSES[i] != FALLBACK_RESPONSES[j]
    ensures forall f :: f in FALLBACK_RESPONSES <==> exists k: Pick :: AIResponse(RemoteFailure, k) == f
  {
    forall f | f in FALLBACK_RESPONSES
      ensures exists k: Pick :: AIResponse(RemoteFailure, k) == f
    {
      var k :| 0 <= k < |FALLBACK_RESPONSES| && FALLBACK_RESPONSES[k] == f;
      assert AIResponse(RemoteFailure, k) == f;
    }
  }

  // ---------------------------------------------------------------------------
  // Messages
  // ---------------------------------------------------------------------------

  function Greeting(time: Timestamp): Message {
    Message(GREETING_ID, GREETING_TEXT, time, false, AI_SENDER)
  }

  function UserMessage(text: string, stamp: Stamp): Message {
    Message(stamp.id, text, stamp.time, true, USER_SENDER)
  }

  function AssistantMessage(text: string, stamp: Stamp): Message {
    Message(stamp.id, text, stamp.time, false, AI_SENDER)
  }

  /** The seed greeting, whatever its timestamp. */
  predicate IsGreeting(m: Message) {
    m.id == GREETING_ID && m.text == GREETING_TEXT && !m.isUser && m.user == AI_SENDER
  }

  /** User messages carry the "You" identity and assistant messages the assistant identity. */
  predicate SenderMatchesRole(m: Message) {
    m.user == if m.isUser then USER_SENDER else AI_SENDER
  }

  function Last(log: seq<Message>): Message
    requires log != []
  {
    log[|log| - 1]
  }

  /**
   * What every reachable state satisfies: the log is never empty, starts with
   * the greeting, pairs roles with identities, and `isTyping` holds exactly
   * when the newest message is the user's (a reply is outstanding).
   */
  ghost predicate Invariant(s: ChatState) {
    && s.messages != []
    && IsGreeting(s.messages[0])
    && (forall i :: 0 <= i < |s.messages| ==> SenderMatchesRole(s.messages[i]))
    && (s.isTyping <==> Last(s.messages).isUser)
  }

  // ---------------------------------------------------------------------------
  // Transitions
  // ---------------------------------------------------------------------------

  /** The state the store is created with. */
  function Initial(time: Timestamp): (s: ChatState)
    ensures |s.messages| == 1 && IsGreeting(s.messages[0]) && s.messages[0].timestamp == time
    ensures !s.isTyping
    ensures Invariant(s)
  {
    ChatState([Greeting(time)], false)
  }

  /** First phase of `sendMessage`: the user's text is appended verbatim and `isTyping` is raised. */
  function AppendUser(s: ChatState, text: string, stamp: Stamp): (t: ChatState)
    ensures |t.messages| == |s.messages| + 1
    ensures t.messages[..|s.messages|] == s.messages
    ensures var m := t.messages[|s.messages|];
      m.text == text && m.isUser && m.user == USER_SENDER && m.id == stamp.id && m.timestamp == stamp.time
    ensures t.isTyping
  {
    ChatState(s.messages + [UserMessage(text, stamp)], true)
  }

  /** How the awaited part of `sendMessage` ended: with the gateway's text, or with a fault escaping its `try`. */
  datatype Completion = Answered(text: string) | Faulted

  function ReplyText(c: Completion): string {
    match c
    case Answered(text) => text
    case Faulted => LOCAL_ERROR_TEXT
  }

  /** Second phase of `sendMessage`: exactly one assistant message is appended and `isTyping` is lowered. */
  function AppendReply(s: ChatState, c: Completion, stamp: Stamp): (t: ChatState)
    ensures |t.messages| == |s.messages| + 1
    ensures t.messages[..|s.messages|] == s.messages
    ensures var m := t.messages[|s.messages|];
      && !m.isUser && m.user == AI_SENDER && m.id == stamp.id && m.timestamp == stamp.time
      && (c.Answered? ==> m.text == c.text)
      && (c.Faulted? ==> m.text == LOCAL_ERROR_TEXT)
    ensures !t.isTyping
  {
    ChatState(s.messages + [AssistantMessage(ReplyText(c), stamp)], false)
  }

  /** `clearMessages`: the log becomes the single greeting and `isTyping` is lowered, whatever came before. */
  function Reset(s: ChatState, time: Timestamp): (t: ChatState)
    ensures |t.messages| == 1 && IsGreeting(t.messages[0]) && t.messages[0].timestamp == time
    ensures !t.isTyping
    ensures Invariant(t)
  {
    ChatState([Greeting(time)], false)
  }

  /** Clearing gives back exactly the state the store started in. */
  lemma ResetIsInitial(s: ChatState, time: Timestamp)
    ensures Reset(s, time) == Initial(time)
  {
  }

  /** Clearing twice leaves what clearing once leaves (up to the greeting's timestamp, which is the later one). */
  lemma ResetIdempotent(s: ChatState, first: Timestamp, second: Timestamp)
    ensures Reset(Reset(s, first), second) == Reset(s, second)
    ensures Reset(Reset(s, first), second).messages[0].id == Reset(s, first).messages[0].id
  {
  }

  // ---------------------------------------------------------------------------
  // The whole of one sendMessage call
  // ---------------------------------------------------------------------------

  /** The inputs one `sendMessage` call depends on. */
  datatype Round = Round(text: string, outcome: RemoteOutcome, pick: Pick, localFault: bool, userStamp: Stamp, aiStamp: Stamp)

  /** What the awaited part of `sendMessage` ends with. */
  function RoundReply(r: Round): (c: Completion)
    ensures r.localFault <==> c.Faulted?
    ensures !r.localFault && r.outcome.Generated? ==> c.text == r.outcome.text
    ensures !r.localFault && r.outcome.RemoteFailure? ==> c.text in FALLBACK_RESPONSES
  {
    if r.localFault then Faulted else Answered(AIResponse(r.outcome, r.pick))
  }

  /** Message `at` of `log` is the user's turn of round `r` and message `at + 1` its answer. */
  predicate RoundAt(log: seq<Message>, at: nat, r: Round) {
    && at + 1 < |log|
    && log[at].text == r.text && log[at].isUser && log[at].user == USER_SENDER
    && !log[at + 1].isUser && log[at + 1].user == AI_SENDER
    && log[at + 1].text == ReplyText(RoundReply(r))
  }

  /** One complete `sendMessage` call: two messages appended, the flag back down. */
  function SendRound(s: ChatState, r: Round): (t: ChatState)
    ensures |t.messages| == |s.messages| + 2
    ensures t.messages[..|s.messages|] == s.messages
    ensures RoundAt(t.messages, |s.messages|, r)
    ensures !t.isTyping
  {
    var t := AppendReply(AppendUser(s, r.text, r.userStamp), RoundReply(r), r.aiStamp);
    assert t.messages[..|s.messages|] == t.messages[..|s.messages| + 1][..|s.messages|];
    t
  }

  /** `sendMessage` called once per round, each one awaited before the next (the chat screen's usage). */
  function Converse(s: ChatState, rounds: seq<Round>): ChatState
    decreases |rounds|
  {
    if rounds == [] then s
    else SendRound(Converse(s, rounds[..|rounds| - 1]), rounds[|rounds| - 1])
  }

  /**
   * A conversation of n rounds keeps the earlier log, adds 2n messages that
   * alternate user turn / answer in round order, and ends with `isTyping` down.
   */
  lemma {:induction false} ConverseAppendsRounds(s: ChatState, rounds: seq<Round>)
    ensures |Converse(s, rounds).messages| == |s.messages| + 2 * |rounds|
    ensures Converse(s, rounds).messages[..|s.messages|] == s.messages
    ensures rounds != [] ==> !Converse(s, rounds).isTyping
    ensures forall i :: 0 <= i < |rounds| ==> RoundAt(Converse(s, rounds).messages, |s.messages| + 2 * i, rounds[i])
    decreases |rounds|
  {
    if rounds != [] {
      var n := |rounds|;
      var earlier := rounds[..n - 1];
      var prev := Converse(s, earlier);
      ConverseAppendsRounds(s, earlier);
      var t := Converse(s, rounds);
      assert t == SendRound(prev, rounds[n - 1]);
      assert t.messages[..|prev.messages|] == prev.messages;
      assert t.messages[..|s.messages|] == t.messages[..|prev.messages|][..|s.messages|];
      forall i | 0 <= i < n
        ensures RoundAt(t.messages, |s.messages| + 2 * i, rounds[i])
      {
        if i < n - 1 {
          assert earlier[i] == rounds[i];
          var at := |s.messages| + 2 * i;
          assert RoundAt(prev.messages, at, earlier[i]);
          assert t.messages[at] == prev.messages[at];
          assert t.messages[at + 1] == prev.messages[at + 1];
        }
      }
    }
  }

  // ---------------------------------------------------------------------------
  // Arbitrary operation sequences
  // ---------------------------------------------------------------------------

  /** One call into the store, in any order (the store itself does not guard against overlapping sends). */
  datatype ChatOp = Send(text: string, stamp: Stamp) | Receive(reply: Completion, stamp: Stamp) | Clear(time: Timestamp)

  function Apply(s: ChatState, op: ChatOp): ChatState {
    match op
    case Send(text, stamp) => AppendUser(s, text, stamp)
    case Receive(reply, stamp) => AppendReply(s, reply, stamp)
    case Clear(time) => Reset(s, time)
  }

  function Run(s: ChatState, ops: seq<ChatOp>): ChatState
    decreases |ops|
  {
    if ops == [] then s else Run(Apply(s, ops[0]), ops[1..])
  }

  lemma StepPreservesInvariant(s: ChatState, op: ChatOp)
    requires Invariant(s)
    ensures Invariant(Apply(s, op))
  {
    var t := Apply(s, op);
    if !op.Clear? {
      assert t.messages[..|s.messages|] == s.messages;
      forall i | 0 <= i < |t.messages|
        ensures SenderMatchesRole(t.messages[i])
      {
        if i < |s.messages| {
          assert t.messages[i] == s.messages[i];
        }
      }
      assert t.messages[0] == s.messages[0];
    }
  }

  /** Whatever sequence of operations is applied, the invariant holds (in particular the log is never empty). */
  lemma {:induction false} RunPreservesInvariant(s: ChatState, ops: seq<ChatOp>)
    requires Invariant(s)
    ensures Invariant(Run(s, ops))
    decreases |ops|
  {
    if ops != [] {
      StepPreservesInvariant(s, ops[0]);
      RunPreservesInvariant(Apply(s, ops[0]), ops[1..]);
    }
  }

  /** Every state reachable from the initial one satisfies the invariant. */
  lemma ReachableInvariant(time: Timestamp, ops: seq<ChatOp>)
    ensures Invariant(Run(Initial(time), ops))
    ensures Run(Initial(time), ops).messages[0].text == GREETING_TEXT
  {
    RunPreservesInvariant(Initial(time), ops);
  }

  /** Without a clear, the log only grows: one message per operation, earlier messages unchanged and in order. */
  lemma {:induction false} RunWithoutClearAppends(s: ChatState, ops: seq<ChatOp>)
    requires forall i :: 0 <= i < |ops| ==> !ops[i].Clear?
    ensures |Run(s, ops).messages| == |s.messages| + |ops|
    ensures Run(s, ops).messages[..|s.messages|] == s.messages
    decreases |ops|
  {
    if ops != [] {
      var next := Apply(s, ops[0]);
      assert !ops[0].Clear?;
      assert next.messages[..|s.messages|] == s.messages;
      RunWithoutClearAppends(next, ops[1..]);
      var t := Run(s, ops);
      assert t == Run(next, ops[1..]);
      assert t.messages[..|s.messages|] == t.messages[..|next.messages|][..|s.messages|];
    }
  }

  // ---------------------------------------------------------------------------
  // The store object
  // ---------------------------------------------------------------------------

  /** The zustand chat store: its two fields are replaced by each `set` call. */
  class ChatStore {
    var messages: seq<Message>
    var isTyping: bool

    function State(): ChatState
      reads this
    {
      ChatState(messages, isTyping)
    }

    ghost predicate Valid()
      reads this
    {
      Invariant(State())
    }

    constructor (time: Timestamp)
      ensures State() == Initial(time)
      ensures Valid()
    {
      messages := [Greeting(time)];
      isTyping := false;
    }

    /** The `set` before the await in `sendMessage`. */
    method SendMessageBegin(text: string, stamp: Stamp)
      requires Valid()
      modifies this
      ensures Valid()
      ensures State() == AppendUser(old(State()), text, stamp)
    {
      StepPreservesInvariant(State(), Send(text, stamp));
      messages := messages + [UserMessage(text, stamp)];
      isTyping := true;
    }

    /** The `set` after the await in `sendMessage`, in its success or its `catch` branch. */
    method SendMessageComplete(reply: Completion, stamp: Stamp)
      requires Valid()
      modifies this
      ensures Valid()
      ensures State() == AppendReply(old(State()), reply, stamp)
    {
      StepPreservesInvariant(State(), Receive(reply, stamp));
      var text: string;
      match reply {
        case Answered(t) => text := t;
        case Faulted => text := LOCAL_ERROR_TEXT;
      }
      messages := messages + [AssistantMessage(text, stamp)];
      isTyping := false;
    }

    /** `sendMessage` run to completion: append the user's turn, obtain the reply, append it. */
    method SendMessage(r: Round)
      requires Valid()
      modifies this
      ensures Valid()
      ensures State() == SendRound(old(State()), r)
      ensures messages == old(messages) + [UserMessage(r.text, r.userStamp), AssistantMessage(ReplyText(RoundReply(r)), r.aiStamp)]
    {
      SendMessageBegin(r.text, r.userStamp);
      var reply: Completion;
      if r.localFault {
        reply := Faulted;
      } else {
        var text := AIResponse(r.outcome, r.pick);
        reply := Answered(text);
      }
      SendMessageComplete(reply, r.aiStamp);
    }

    /** `clearMessages`. */
    method ClearMessages(time: Timestamp)
      requires Valid()
      modifies this
      ensures Valid()
      ensures State() == Reset(old(State()), time)
    {
      messages := [Greeting(time)];
      isTyping := false;
    }
  }
}
