/**
  The frontend chat assistant: the table of predefined answers searched in
  declaration order, the keyword fallbacks, and the chat state (messages,
  input, loading flag) driven by typing, sending, the answer's arrival and
  the reset button. The 500 ms timer of a predefined answer and the chat
  request are outstanding completions that arrive as events.
*/
module AiAssistant {
  import opened Text
  import opened Wrappers
  import AiService
  import BackendApi

  /** The assistant's fixed replies: the eight table answers, the four keyword fallbacks, the failure reply and the greeting. */
  datatype Canned =
    | HowMuchAnswer | NextPaydayAnswer | EarningsAnswer | EwaAnswer
    | FeeAnswer | SafetyAnswer | SpeedAnswer | MultipleAnswer
    | WithdrawFallback | PaydayFallback | FeeFallback | HelpFallback
    | ApiFailureReply   // shown when the chat request fails
    | Greeting          // the opening message, shown initially and after a reset

  /** The wording of each fixed reply. */
  function Wording(reply: Canned): string {
    match reply
    case HowMuchAnswer =>
      "Based on your current earnings, you can " +
      "withdraw up to ₱2,500. This is 30% of your " +
      "earned wages for this pay period."
    case NextPaydayAnswer =>
      "Your next payday is scheduled for December 16, " +
      "2025. You're currently in the pay period from " +
      "December 1-15, 2025."
    case EarningsAnswer =>
      "You've earned ₱8,450 so far this cutoff period. " +
      "You can access up to ₱2,500 through Early Wage " +
      "Access right now."
    case EwaAnswer =>
      "EWA (Early Wage Access) lets you withdraw money " +
      "you've already earned before payday. There's a " +
      "small 2.6% service fee, and the amount is " +
      "automatically deducted from your next paycheck."
    case FeeAnswer =>
      "The EWA service fee is 2.6% of the amount you " +
      "withdraw. For example, withdrawing ₱2,000 would " +
      "have a ₱52 fee."
    case SafetyAnswer =>
      "Yes! PayFlow is fully secure and integrated " +
      "with your company's payroll system. Your " +
      "withdrawals are automatically reconciled with " +
      "your salary."
    case SpeedAnswer =>
      "Once approved, your EWA withdrawal is sent to " +
      "your account instantly! You can use it right " +
      "away for your needs."
    case MultipleAnswer =>
      "Yes, you can make multiple withdrawals as long " +
      "as you have available earned wages. Each " +
      "withdrawal is subject to the 2.6% fee."
    case WithdrawFallback =>
      "You can access up to ₱2,500 of your earned " +
      "wages right now. Would you like to learn more " +
      "about Early Wage Access?"
    case PaydayFallback =>
      "Your next payday is December 16, 2025. You've " +
      "earned ₱8,450 so far this period."
    case FeeFallback =>
      "The EWA service fee is 2.6% of your withdrawal " +
      "amount. This is much lower than traditional " +
      "cash advance services!"
    case HelpFallback =>
      "I'm here to help! You can ask me about your " +
      "earnings, withdrawal limits, payday schedules, " +
      "or how EWA works."
    case ApiFailureReply =>
      "I'm not sure about that, but I can help you " +
      "with information about your earnings, " +
      "withdrawals, or payday schedule. What would you " +
      "like to know?"
    case Greeting =>
      "Hi! I'm your PayFlow AI assistant. Ask me about " +
      "your earnings, withdrawals, or payday schedule!"
  }

  /** One entry of `predefinedResponses`: a lower-case question and its answer. */
  datatype Entry = Entry(key: string, answer: Canned)

  /** `predefinedResponses`, in declaration order (the order `Object.entries` yields). */
  const PredefinedResponses: seq<Entry> := [
    Entry("how much can i withdraw", HowMuchAnswer),
    Entry("when is my next payday", NextPaydayAnswer),
    Entry("what are my earnings", EarningsAnswer),
    Entry("how does ewa work", EwaAnswer),
    Entry("what is the fee", FeeAnswer),
    Entry("is this safe", SafetyAnswer),
    Entry("how fast can i get money", SpeedAnswer),
    Entry("can i withdraw multiple times", MultipleAnswer)
  ]

  /** The message as it is matched: lower-cased, then trimmed. */
  function Normalize(message: string): (n: string)
    ensures n == Trim(Lower(message))
    ensures |n| <= |message| && IsLowerCase(n)
  {
    var lowered := Lower(message);
    LowerIsLowerCase(message);
    TrimKeepsLowerCase(lowered);
    Trim(lowered)
  }

  /** A key matches when the message contains it or it contains the message. */
  predicate KeyMatches(normalized: string, key: string) {
    Contains(normalized, key) || Contains(key, normalized)
  }

  /** The index of the first entry whose key matches, or `|table|` when none does. */
  function FirstMatchIndex(table: seq<Entry>, normalized: string): (i: nat)
    ensures i <= |table|
    ensures forall j :: 0 <= j < i ==> !KeyMatches(normalized, table[j].key)
    ensures i < |table| ==> KeyMatches(normalized, table[i].key)
  {
    if table == [] then 0
    else if KeyMatches(normalized, table[0].key) then 0
    else 1 + FirstMatchIndex(table[1..], normalized)
  }

  /** The first keyword group: "withdraw" or "access". */
  predicate MentionsWithdrawal(normalized: string) {
    Contains(normalized, "withdraw") || Contains(normalized, "access")
  }

  /** The second keyword group: "payday" or "salary". */
  predicate MentionsPayday(normalized: string) {
    Contains(normalized, "payday") || Contains(normalized, "salary")
  }

  /** The third keyword group: "fee", "cost" or "charge". */
  predicate MentionsFee(normalized: string) {
    Contains(normalized, "fee") || Contains(normalized, "cost") || Contains(normalized, "charge")
  }

  /** The fourth keyword group: "help" or "support". */
  predicate MentionsHelp(normalized: string) {
    Contains(normalized, "help") || Contains(normalized, "support")
  }

  /** The keyword fallbacks, tried in order after the table. */
  function KeywordFallback(normalized: string): (r: Option<string>)
    ensures r == None <==>
      !MentionsWithdrawal(normalized) && !MentionsPayday(normalized) && !MentionsFee(normalized) && !MentionsHelp(normalized)
  {
    if MentionsWithdrawal(normalized) then Some(Wording(WithdrawFallback))
    else if MentionsPayday(normalized) then Some(Wording(PaydayFallback))
    else if MentionsFee(normalized) then Some(Wording(FeeFallback))
    else if MentionsHelp(normalized) then Some(Wording(HelpFallback))
    else None
  }

  /** The four fallback texts are pairwise different. */
  lemma FallbackWordingsDistinct()
    ensures Wording(WithdrawFallback) != Wording(PaydayFallback)
    ensures Wording(WithdrawFallback) != Wording(FeeFallback)
    ensures Wording(WithdrawFallback) != Wording(HelpFallback)
    ensures Wording(PaydayFallback) != Wording(FeeFallback)
    ensures Wording(PaydayFallback) != Wording(HelpFallback)
    ensures Wording(FeeFallback) != Wording(HelpFallback)
  {
    WithdrawFallbackShape();
    PaydayFallbackShape();
    FeeFallbackShape();
    HelpFallbackShape();
  }

  /** The withdrawal fallback has 113 characters and ends with a question mark. */
  lemma WithdrawFallbackShape()
    ensures |Wording(WithdrawFallback)| == 113 && Wording(WithdrawFallback)[112] == '?'
  {
  }

  /** The payday fallback has 79 characters. */
  lemma PaydayFallbackShape()
    ensures |Wording(PaydayFallback)| == 79
  {
  }

  /** The fee fallback has 113 characters and ends with an exclamation mark. */
  lemma FeeFallbackShape()
    ensures |Wording(FeeFallback)| == 113 && Wording(FeeFallback)[112] == '!'
  {
  }

  /** The help fallback has 108 characters. */
  lemma HelpFallbackShape()
    ensures |Wording(HelpFallback)| == 108
  {
  }

  /**
    The keyword groups in order: a withdrawal question wins over everything,
    then payday, then fees, then help. Each fallback is characterised exactly.
  */
  lemma KeywordFallbackOrder(normalized: string)
    ensures KeywordFallback(normalized) == Some(Wording(WithdrawFallback)) <==> MentionsWithdrawal(normalized)
    ensures KeywordFallback(normalized) == Some(Wording(PaydayFallback)) <==>
      !MentionsWithdrawal(normalized) && MentionsPayday(normalized)
    ensures KeywordFallback(normalized) == Some(Wording(FeeFallback)) <==>
      !MentionsWithdrawal(normalized) && !MentionsPayday(normalized) && MentionsFee(normalized)
    ensures KeywordFallback(normalized) == Some(Wording(HelpFallback)) <==>
      !MentionsWithdrawal(normalized) && !MentionsPayday(normalized) && !MentionsFee(normalized) && MentionsHelp(normalized)
  {
    FallbackWordingsDistinct();
  }

  /** The answer for a normalised message: the first matching entry, else a keyword fallback, else none. */
  function Answer(normalized: string): (r: Option<string>)
    ensures r == None <==>
      (forall k :: 0 <= k < |PredefinedResponses| ==> !KeyMatches(normalized, PredefinedResponses[k].key))
      && KeywordFallback(normalized) == None
  {
    var i := FirstMatchIndex(PredefinedResponses, normalized);
    if i < |PredefinedResponses| then Some(Wording(PredefinedResponses[i].answer)) else KeywordFallback(normalized)
  }

  /** The answer `getPredefinedResponse` gives for a message as typed; a blank message matches the first entry, since every key contains the empty string. */
  function PredefinedResponse(message: string): (r: Option<string>)
    ensures Normalize(message) == [] ==> r == Some(Wording(PredefinedResponses[0].answer))
  {
    ContainsEmpty(PredefinedResponses[0].key);
    Answer(Normalize(message))
  }

  /** Letter case does not change the answer. */
  lemma PredefinedIgnoresCase(message: string)
    ensures PredefinedResponse(Lower(message)) == PredefinedResponse(message)
  {
    LowerIdempotent(message);
  }

  /** Whitespace before and after the message does not change the answer. */
  lemma PredefinedIgnoresPadding(before: string, message: string, after: string)
    requires IsBlank(before) && IsBlank(after)
    ensures PredefinedResponse(before + message + after) == PredefinedResponse(message)
  {
    LowerAppend(before + message, after);
    LowerAppend(before, message);
    LowerKeepsBlank(before);
    LowerKeepsBlank(after);
    TrimIgnoresPadding(Lower(before), Lower(message), Lower(after));
  }

  /** The first matching index is determined by the matches before and at it. */
  lemma FirstMatchIndexIs(table: seq<Entry>, normalized: string, i: int)
    requires 0 <= i <= |table|
    requires forall j :: 0 <= j < i ==> !KeyMatches(normalized, table[j].key)
    requires i < |table| ==> KeyMatches(normalized, table[i].key)
    ensures FirstMatchIndex(table, normalized) == i
  {
  }

  /** The loop of `getPredefinedResponse`: scans the table in order, then tries the keyword fallbacks. */
  method FindAnswer(normalized: string) returns (r: Option<string>)
    ensures r == Answer(normalized)
  {
    var i := 0;
    while i < |PredefinedResponses|
      invariant 0 <= i <= |PredefinedResponses|
      invariant forall j :: 0 <= j < i ==> !KeyMatches(normalized, PredefinedResponses[j].key)
    {
      var entry := PredefinedResponses[i];
      if Contains(normalized, entry.key) || Contains(entry.key, normalized) {
        FirstMatchIndexIs(PredefinedResponses, normalized, i);
        return Some(Wording(entry.answer));
      }
      i := i + 1;
    }
    FirstMatchIndexIs(PredefinedResponses, normalized, i);
    r := KeywordFallback(normalized);
  }

  /** `getPredefinedResponse`. */
  method GetPredefinedResponse(userMessage: string) returns (r: Option<string>)
    ensures r == PredefinedResponse(userMessage)
  {
    r := FindAnswer(Normalize(userMessage));
  }

  /** A matching table entry always wins over the keyword fallbacks, and the earliest matching entry wins over later ones. */
  lemma TableBeforeKeywords(message: string, k: int)
    requires 0 <= k < |PredefinedResponses| && KeyMatches(Normalize(message), PredefinedResponses[k].key)
    ensures exists i ::
      && 0 <= i <= k && KeyMatches(Normalize(message), PredefinedResponses[i].key)
      && (forall j :: 0 <= j < i ==> !KeyMatches(Normalize(message), PredefinedResponses[j].key))
      && PredefinedResponse(message) == Some(Wording(PredefinedResponses[i].answer))
  {
    var i := FirstMatchIndex(PredefinedResponses, Normalize(message));
    assert i <= k;
  }

  /** The keyword fallbacks are consulted only when no key matches. */
  lemma FallbackOnlyWithoutKeyMatch(message: string)
    requires forall k :: 0 <= k < |PredefinedResponses| ==> !KeyMatches(Normalize(message), PredefinedResponses[k].key)
    ensures PredefinedResponse(message) == KeywordFallback(Normalize(message))
  {
  }

  /** A message that normalises to a part of the first key (a blank one included) gets the first answer. */
  lemma PartOfFirstKeyGetsFirstAnswer(message: string)
    requires Contains(PredefinedResponses[0].key, Normalize(message))
    ensures PredefinedResponse(message) == Some(Wording(PredefinedResponses[0].answer))
  {
  }

  /** A lower-case message without surrounding whitespace is matched as it is. */
  lemma NormalizeKeeps(message: string)
    requires IsLowerCase(message)
    requires message == [] || (!IsWhitespace(message[0]) && !IsWhitespace(message[|message| - 1]))
    ensures Normalize(message) == message
  {
    LowerOfLowerCase(message);
  }

  /** The first four keys contain no 'f'. */
  lemma NoEarlierKeyHasF(j: int)
    requires 0 <= j < 4
    ensures forall i :: 0 <= i < |PredefinedResponses[j].key| ==> PredefinedResponses[j].key[i] != 'f'
  {
  }

  /** "fee" is answered from the table ("what is the fee"), so it never reaches the fee fallback. */
  lemma FeeAnsweredByTable()
    ensures PredefinedResponse("fee") == Some(Wording(PredefinedResponses[4].answer))
  {
    var n := "fee";
    NormalizeKeeps(n);
    forall j | 0 <= j < 4 ensures !KeyMatches(n, PredefinedResponses[j].key) {
      NoEarlierKeyHasF(j);
      NotContainsChar(PredefinedResponses[j].key, n, 0);
    }
    assert OccursAt(PredefinedResponses[4].key, n, 12);
    FirstMatchIndexIs(PredefinedResponses, n, 4);
  }

  /** None of the first four keys has an 'l'. */
  lemma NoLInFirstKeys(j: int)
    requires 0 <= j < 4
    ensures forall i :: 0 <= i < |PredefinedResponses[j].key| ==> PredefinedResponses[j].key[i] != 'l'
  {
  }

  /** Nor do the next three. */
  lemma NoLInLaterKeys(j: int)
    requires 4 <= j < 7
    ensures forall i :: 0 <= i < |PredefinedResponses[j].key| ==> PredefinedResponses[j].key[i] != 'l'
  {
  }

  /** The last key has an 'l' ("multiple"), but no 'l' followed by a 'p'. */
  lemma NoLPInLastKey()
    ensures var key := PredefinedResponses[7].key;
      forall i :: 0 <= i < |key| - 1 ==> !(key[i] == 'l' && key[i + 1] == 'p')
  {
  }

  /** "help" matches no key of the table. */
  lemma HelpMatchesNoKey(j: int)
    requires 0 <= j < |PredefinedResponses|
    ensures !KeyMatches("help", PredefinedResponses[j].key)
  {
    var key := PredefinedResponses[j].key;
    if j < 4 {
      NoLInFirstKeys(j);
      NotContainsChar(key, "help", 2);
    } else if j < 7 {
      NoLInLaterKeys(j);
      NotContainsChar(key, "help", 2);
    } else {
      NoLPInLastKey();
      NotContainsPair(key, "help", 2);
    }
  }

  /** "help" reaches the fourth keyword fallback. */
  lemma HelpKeywordFallback()
    ensures KeywordFallback("help") == Some(Wording(HelpFallback))
  {
    NotContainsChar("help", "fee", 0);
    NotContainsChar("help", "cost", 0);
    assert OccursAt("help", "help", 0);
  }

  /** "help" matches no key and falls through to the help fallback. */
  lemma HelpFallsThrough()
    ensures PredefinedResponse("help") == Some(Wording(HelpFallback))
  {
    var n := "help";
    NormalizeKeeps(n);
    forall j | 0 <= j < |PredefinedResponses| ensures !KeyMatches(n, PredefinedResponses[j].key) {
      HelpMatchesNoKey(j);
    }
    FirstMatchIndexIs(PredefinedResponses, n, |PredefinedResponses|);
    HelpKeywordFallback();
  }

  /** Who wrote a message. */
  datatype Role = User | Assistant

  /** One chat bubble. */
  datatype Message = Message(role: Role, content: string)

  /** The completion a sent message is waiting for: the 500 ms timer of a predefined answer, or the chat request. */
  datatype Awaiting = Timer(reply: string) | ChatRequest(message: string)

  /** The component's state. */
  datatype ChatState = ChatState(messages: seq<Message>, input: string, loading: bool, awaiting: Option<Awaiting>)

  /** How the chat request ended: a parsed body with its `response` field, or a failure. */
  datatype RequestOutcome = Answered(response: string) | RequestFailed

  /** The quick questions offered while only the greeting is shown. */
  const QuickQuestions: seq<string> := ["How much can I withdraw?", "When is my next payday?", "What are my earnings?"]

  datatype Event =
    | Typed(text: string)          // the input's onChange
    | QuickQuestion(index: int)    // a quick-question button puts its question in the input
    | Send                         // the send button, Enter, or the quick question's delayed send
    | TimerFired                   // the predefined answer's timer
    | RequestSettled(outcome: RequestOutcome)
    | Reset                        // the reset button

  /** The state when the component mounts. */
  function Initial(): (s: ChatState)
    ensures s.messages == [Message(Assistant, Wording(Greeting))] && s.input == "" && !s.loading && s.awaiting == None
  {
    ChatState([Message(Assistant, Wording(Greeting))], "", false, None)
  }

  /** When an event can happen: the input is disabled while loading, quick questions show only beside the lone greeting, and a completion needs its outstanding timer or request. */
  predicate Enabled(s: ChatState, e: Event) {
    match e
    case Typed(_) => !s.loading
    case QuickQuestion(i) => |s.messages| == 1 && 0 <= i < |QuickQuestions|
    case Send => true
    case TimerFired => s.awaiting.Some? && s.awaiting.value.Timer?
    case RequestSettled(_) => s.awaiting.Some? && s.awaiting.value.ChatRequest?
    case Reset => true
  }

  /**
    What a send waits for, given the lookup of predefined answers: the timer
    of the answer found, or the chat request.
  */
  function AwaitingFor(lookup: string -> Option<string>, message: string): (a: Awaiting)
    ensures a.Timer? <==> lookup(message).Some?
    ensures a.Timer? ==> a.reply == lookup(message).value
    ensures a.ChatRequest? ==> a.message == message
  {
    match lookup(message)
    case Some(reply) => Timer(reply)
    case None => ChatRequest(message)
  }

  /** The assistant's reply for a settled request. */
  function ReplyFor(outcome: RequestOutcome): (reply: string)
    ensures outcome.Answered? ==> reply == outcome.response
    ensures outcome.RequestFailed? ==> reply == Wording(ApiFailureReply)
  {
    match outcome
    case Answered(response) => response
    case RequestFailed => Wording(ApiFailureReply)
  }

  /** A send is ignored when the trimmed input is empty or an answer is still loading. */
  predicate SendIgnored(s: ChatState) {
    Trim(s.input) == "" || s.loading
  }

  /**
    The state after one event. A send consults `lookup` for a predefined
    answer; the component uses `PredefinedResponse`, and the lemmas below hold
    for any lookup.
  */
  function Step(s: ChatState, e: Event, lookup: string -> Option<string>): (t: ChatState)
    requires Enabled(s, e)
    ensures (e.Typed? || e.QuickQuestion?) ==> t.messages == s.messages && t.loading == s.loading && t.awaiting == s.awaiting
    ensures e.Send? && !SendIgnored(s) ==>
      t == ChatState(s.messages + [Message(User, s.input)], "", true, Some(AwaitingFor(lookup, s.input)))
    ensures (e.TimerFired? || e.RequestSettled?) ==> !t.loading && t.awaiting == None && t.input == s.input
    ensures e.Reset? ==> t.input == "" && t.loading == s.loading && t.awaiting == s.awaiting
  {
    match e
    case Typed(text) => s.(input := text)
    case QuickQuestion(i) => s.(input := QuickQuestions[i])
    case Send =>
      if SendIgnored(s) then s
      else ChatState(s.messages + [Message(User, s.input)], "", true, Some(AwaitingFor(lookup, s.input)))
    case TimerFired =>
      s.(messages := s.messages + [Message(Assistant, s.awaiting.value.reply)], loading := false, awaiting := None)
    case RequestSettled(outcome) =>
      s.(messages := s.messages + [Message(Assistant, ReplyFor(outcome))], loading := false, awaiting := None)
    case Reset => s.(messages := [Message(Assistant, Wording(Greeting))], input := "")
  }

  /**
    The state invariant: loading exactly while a completion is outstanding,
    the conversation opens with the greeting, and every user message is non-blank.
  */
  predicate Inv(s: ChatState) {
    && (s.loading <==> s.awaiting.Some?)
    && |s.messages| >= 1 && s.messages[0] == Message(Assistant, Wording(Greeting))
    && (forall i :: 0 <= i < |s.messages| && s.messages[i].role == User ==> Trim(s.messages[i].content) != "")
  }

  lemma InitialInv()
    ensures Inv(Initial())
  {
  }

  /** Every event keeps the invariant. */
  lemma StepPreservesInv(s: ChatState, e: Event, lookup: string -> Option<string>)
    requires Inv(s) && Enabled(s, e)
    ensures Inv(Step(s, e, lookup))
  {
  }

  /** Apart from a reset, messages are only ever appended: the old conversation is a prefix of the new one, and at most one message is added. */
  lemma MessagesAppendOnly(s: ChatState, e: Event, lookup: string -> Option<string>)
    requires Enabled(s, e) && !e.Reset?
    ensures |s.messages| <= |Step(s, e, lookup).messages| <= |s.messages| + 1
    ensures Step(s, e, lookup).messages[..|s.messages|] == s.messages
  {
  }

  /** A send with blank input, or while an answer is loading, changes nothing. */
  lemma SendIgnoredChangesNothing(s: ChatState, lookup: string -> Option<string>)
    requires SendIgnored(s)
    ensures Step(s, Send, lookup) == s
  {
  }

  /** The state right after a send that is not ignored, given the answer the lookup found. */
  lemma SendStepFound(s: ChatState, lookup: string -> Option<string>, found: Option<string>)
    requires !SendIgnored(s) && found == lookup(s.input)
    ensures Step(s, Send, lookup) == ChatState(s.messages + [Message(User, s.input)], "", true,
      Some(if found.Some? then Timer(found.value) else ChatRequest(s.input)))
  {
  }

  /** A message that is sent waits for exactly one completion, and a second send meanwhile is ignored. */
  lemma SendWaitsForOneCompletion(s: ChatState, lookup: string -> Option<string>)
    requires Inv(s) && !SendIgnored(s)
    ensures var t := Step(s, Send, lookup);
      t.loading && t.awaiting == Some(AwaitingFor(lookup, s.input)) && Step(t, Send, lookup) == t
  {
  }

  /**
    A sent message with a predefined answer, followed by the timer, adds
    exactly the user's message (as typed, untrimmed) and that answer.
  */
  lemma SendThenPredefinedReply(s: ChatState, lookup: string -> Option<string>)
    requires !SendIgnored(s) && lookup(s.input).Some?
    ensures var t := Step(s, Send, lookup);
      && Enabled(t, TimerFired)
      && Step(t, TimerFired, lookup) == ChatState(
        s.messages + [Message(User, s.input), Message(Assistant, lookup(s.input).value)], "", false, None)
  {
    var reply := lookup(s.input).value;
    assert AwaitingFor(lookup, s.input) == Timer(reply);
    assert s.messages + [Message(User, s.input)] + [Message(Assistant, reply)]
      == s.messages + [Message(User, s.input), Message(Assistant, reply)];
  }

  /**
    A sent message without a predefined answer, followed by the settled
    request, adds exactly the user's message and the request's answer, or
    the failure text when the request failed.
  */
  lemma SendThenRequestReply(s: ChatState, outcome: RequestOutcome, lookup: string -> Option<string>)
    requires !SendIgnored(s) && lookup(s.input).None?
    ensures var t := Step(s, Send, lookup);
      && Enabled(t, RequestSettled(outcome))
      && Step(t, RequestSettled(outcome), lookup) == ChatState(
        s.messages + [Message(User, s.input), Message(Assistant, ReplyFor(outcome))], "", false, None)
  {
    assert AwaitingFor(lookup, s.input) == ChatRequest(s.input);
    assert s.messages + [Message(User, s.input)] + [Message(Assistant, ReplyFor(outcome))]
      == s.messages + [Message(User, s.input), Message(Assistant, ReplyFor(outcome))];
  }

  /**
    The reset button does not cancel an outstanding answer: a reset while
    loading, followed by the completion, leaves the greeting and that answer.
  */
  lemma ResetWhileLoading(s: ChatState, lookup: string -> Option<string>)
    requires Inv(s) && s.loading && s.awaiting.value.Timer?
    ensures Step(Step(s, Reset, lookup), TimerFired, lookup).messages
      == [Message(Assistant, Wording(Greeting)), Message(Assistant, s.awaiting.value.reply)]
  {
  }

  /** A message without a predefined answer, answered by the backend's chat endpoint, gets the backend's keyword reply. */
  lemma BackendAnswer(s: ChatState, lookup: string -> Option<string>)
    requires !SendIgnored(s) && lookup(s.input).None?
    ensures var t := Step(s, Send, lookup);
      var answer := BackendApi.AiChat(map["message" := s.input]).response;
      Step(t, RequestSettled(Answered(answer)), lookup).messages
        == s.messages + [Message(User, s.input), Message(Assistant, AiService.MockChatResponse(s.input, Some(BackendApi.ChatEndpointContext)))]
  {
    var answer := BackendApi.AiChat(map["message" := s.input]).response;
    assert answer == AiService.MockChatResponse(s.input, Some(BackendApi.ChatEndpointContext));
    SendThenRequestReply(s, Answered(answer), lookup);
  }

  /** The component's state held as fields, one method per event. */
  class AssistantChat {
    var messages: seq<Message>
    var input: string
    var loading: bool
    var awaiting: Option<Awaiting>

    function State(): ChatState
      reads this
    {
      ChatState(messages, input, loading, awaiting)
    }

    constructor ()
      ensures State() == Initial()
    {
      messages := [Message(Assistant, Wording(Greeting))];
      input := "";
      loading := false;
      awaiting := None;
    }

    /** The input's `onChange` (the input is disabled while loading). */
    method SetInput(text: string)
      requires !loading
      modifies this
      ensures State() == Step(old(State()), Typed(text), PredefinedResponse)
    {
      input := text;
    }

    /** A quick-question button. */
    method AskQuickQuestion(index: int)
      requires |messages| == 1 && 0 <= index < |QuickQuestions|
      modifies this
      ensures State() == Step(old(State()), QuickQuestion(index), PredefinedResponse)
    {
      input := QuickQuestions[index];
    }

    /** `sendMessage` up to its first wait: appends the user's message and starts the timer or the request. */
    method SendMessage()
      modifies this
      ensures State() == Step(old(State()), Send, PredefinedResponse)
    {
      if Trim(input) == "" || loading {
        return;
      }
      var userMessage := input;
      var predefined := GetPredefinedResponse(userMessage);
      var next := if predefined.Some? then Timer(predefined.value) else ChatRequest(userMessage);
      SendStepFound(State(), PredefinedResponse, predefined);
      input := "";
      messages := messages + [Message(User, userMessage)];
      loading := true;
      awaiting := Some(next);
    }

    /** The predefined answer's timer callback. */
    method OnTimer()
      requires awaiting.Some? && awaiting.value.Timer?
      modifies this
      ensures State() == Step(old(State()), TimerFired, PredefinedResponse)
    {
      messages := messages + [Message(Assistant, awaiting.value.reply)];
      loading := false;
      awaiting := None;
    }

    /** The rest of `sendMessage` once the request settles, including its `finally`. */
    method OnRequestSettled(outcome: RequestOutcome)
      requires awaiting.Some? && awaiting.value.ChatRequest?
      modifies this
      ensures State() == Step(old(State()), RequestSettled(outcome), PredefinedResponse)
    {
      match outcome {
        case Answered(response) =>
          messages := messages + [Message(Assistant, response)];
        case RequestFailed =>
          messages := messages + [Message(Assistant, Wording(ApiFailureReply))];
      }
      loading := false;
      awaiting := None;
    }

    /** `resetChat`: back to the greeting with an empty input; a loading answer is left running. */
    method ResetChat()
      modifies this
      ensures State() == Step(old(State()), Reset, PredefinedResponse)
    {
      messages := [Message(Assistant, Wording(Greeting))];
      input := "";
    }
  }
}
