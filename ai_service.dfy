/**
  The backend's AI service: the keyword-based mock chat reply that
  `chat_completion` delegates to, the mock recommendations, and the
  module-level singleton returned by `get_ai_service`.
*/
module AiService {
  import opened Text
  import opened Wrappers

  /** The employee context passed to the chat (amounts in whole pesos). */
  datatype ChatContext = ChatContext(available: int, earned: int, nextPayday: string)

  const WithdrawalReply: string :=
    "Based on your current earnings of ₱8,450, you " +
    "have ₱2,500 available for early withdrawal. " +
    "This represents 30% of your earned wages for " +
    "this period."
  const PaydayReply: string :=
    "Your next payday is December 16, 2024. You're " +
    "currently in the pay period of Dec 1-15."
  const EarningsReply: string :=
    "You've earned ₱8,450 this period. ₱2,500 is " +
    "available for immediate withdrawal, and the " +
    "remaining ₱5,950 will be paid on your regular " +
    "payday."
  const GreetingReply: string :=
    "I'm your PayFlow AI assistant! I can help you " +
    "understand your earnings, withdrawal options, " +
    "and payday schedule. What would you like to " +
    "know?"

  /** The message asks about withdrawing. */
  predicate AsksWithdrawal(lowered: string) {
    Contains(lowered, "withdraw") || Contains(lowered, "cash out")
  }

  /** The message asks when payday is. */
  predicate AsksPayday(lowered: string) {
    Contains(lowered, "when") && Contains(lowered, "payday")
  }

  /** The message asks how much was earned. */
  predicate AsksAmount(lowered: string) {
    Contains(lowered, "how much")
  }

  /**
    `_mock_chat_response`: an ordered keyword classifier over the lower-cased
    message; the context is not consulted.
  */
  function MockChatResponse(message: string, context: Option<ChatContext>): (reply: string)
    ensures reply == WithdrawalReply || reply == PaydayReply || reply == EarningsReply || reply == GreetingReply
  {
    var lowered := Lower(message);
    if AsksWithdrawal(lowered) then WithdrawalReply
    else if AsksPayday(lowered) then PaydayReply
    else if AsksAmount(lowered) then EarningsReply
    else GreetingReply
  }

  /** The four replies are pairwise different. */
  lemma RepliesDistinct()
    ensures WithdrawalReply != PaydayReply && WithdrawalReply != EarningsReply && WithdrawalReply != GreetingReply
    ensures PaydayReply != EarningsReply && PaydayReply != GreetingReply && EarningsReply != GreetingReply
  {
    assert |WithdrawalReply| == 147 && |PaydayReply| == 86 && |EarningsReply| == 141;
    assert EarningsReply[140] == '.' && GreetingReply[140] == '?';
  }

  /**
    The rules in order: withdrawal wins over everything, then payday (both
    words needed), then "how much", then the greeting. Each reply is
    characterised exactly.
  */
  lemma ChatRuleOrder(message: string, context: Option<ChatContext>)
    ensures var m := Lower(message);
      && (MockChatResponse(message, context) == WithdrawalReply <==> AsksWithdrawal(m))
      && (MockChatResponse(message, context) == PaydayReply <==> !AsksWithdrawal(m) && AsksPayday(m))
      && (MockChatResponse(message, context) == EarningsReply <==> !AsksWithdrawal(m) && !AsksPayday(m) && AsksAmount(m))
      && (MockChatResponse(message, context) == GreetingReply <==> !AsksWithdrawal(m) && !AsksPayday(m) && !AsksAmount(m))
  {
    RepliesDistinct();
  }

  /** The reply depends only on the lower-cased message, never on the context. */
  lemma ChatDependsOnlyOnLoweredMessage(m1: string, m2: string, c1: Option<ChatContext>, c2: Option<ChatContext>)
    requires Lower(m1) == Lower(m2)
    ensures MockChatResponse(m1, c1) == MockChatResponse(m2, c2)
  {
  }

  /** "withdraw" in any capitalisation gets the withdrawal reply. */
  lemma ChatWithdrawAnyCase(message: string, word: string, context: Option<ChatContext>)
    requires Lower(word) == "withdraw" && Contains(message, word)
    ensures MockChatResponse(message, context) == WithdrawalReply
  {
    ContainsLower(message, word);
  }

  /** A recommendation as the service returns it; `potential_savings` may be missing from a record. */
  datatype Recommendation = Recommendation(title: string, description: string, priority: string, potentialSavings: Option<int>)

  /** `_mock_recommendations`. */
  function MockRecommendations(): (recs: seq<Recommendation>)
    ensures |recs| == 3
    ensures recs[0].priority == "high" && recs[1].priority == "medium" && recs[2].priority == "low"
    ensures recs[0].potentialSavings == Some(500) && recs[1].potentialSavings == Some(150) && recs[2].potentialSavings == Some(75)
  {
    [ Recommendation("Build Emergency Fund",
        "Try to keep at least ₱1,500 for emergencies " +
        "instead of withdrawing everything.", "high", Some(500)),
      Recommendation("Reduce Withdrawal Frequency",
        "Consolidate smaller withdrawals into one larger " +
        "transaction to save on fees.", "medium", Some(150)),
      Recommendation("Take Advantage of Payday",
        "Wait 2 more days until payday to avoid early " +
        "withdrawal fees of ₱75.", "low", Some(75)) ]
  }

  /** The service object; the mock provider keeps no state. */
  class AIService {
    constructor ()
    {
    }

    /** `chat_completion`: the placeholder returns the mock reply for the same message and context. */
    function ChatCompletion(message: string, context: Option<ChatContext>): (reply: string)
      ensures reply == MockChatResponse(message, context)
    {
      MockChatResponse(message, context)
    }

    /**
      `generate_recommendations(employee_data, spending_patterns)`: the
      parameters are the fields of the two dictionaries the recommend handler
      passes (`earned` and `available` of `employee_data`,
      `withdrawal_frequency` of `spending_patterns`). The placeholder ignores
      them and returns the mock list.
    */
    function GenerateRecommendations(earned: int, available: int, withdrawalFrequency: string): (recs: seq<Recommendation>)
      ensures recs == MockRecommendations()
    {
      MockRecommendations()
    }
  }

  /** The module-level `_ai_service` variable. */
  class ServiceRegistry {
    var instance: AIService?

    constructor ()
      ensures instance == null
    {
      instance := null;
    }

    /** `get_ai_service`: creates the instance on the first call and returns that same instance afterwards. */
    method GetAIService() returns (service: AIService)
      modifies this
      ensures old(instance) == null ==> fresh(service)
      ensures old(instance) != null ==> service == old(instance)
      ensures instance == service
    {
      if instance == null {
        instance := new AIService();
      }
      service := instance;
    }

    /** Two successive calls return one and the same object. */
    method GetAIServiceTwice() returns (first: AIService, second: AIService)
      modifies this
      ensures first == second && instance == first
      ensures old(instance) != null ==> first == old(instance)
    {
      first := GetAIService();
      second := GetAIService();
    }
  }
}
