/**
 * The chat: the shared recommendation context (message log, current-recommendation slot,
 * loading flag) and the chat component's submit cycle over it. Message ids and timestamps,
 * which the source draws from `Math.random` and `new Date()`, are parameters.
 */
module Conversation {
  import opened Wrappers
  import opened JsText
  import opened Schema

  datatype Message = Message(id: string, text: string, isUser: bool, timestamp: int,
                             recommendation: Option<ClientRecommendation>)

  const WelcomeId := "1"
  const WelcomeText :=
    "Hi! I'm your AI-powered investment advisor. Tell me about your investment goals, risk tolerance, age, and time horizon, and I'll provide personalized portfolio recommendations."
  const AiReplyText :=
    "I've analyzed your investment goals using advanced AI and created a comprehensive, personalized portfolio recommendation tailored specifically for your situation."
  const FrameworkReplyText :=
    "Based on your investment profile, I've created a personalized portfolio recommendation using our expert financial analysis framework."
  const ApologyText :=
    "I apologize, but I'm experiencing technical difficulties processing your request. This might be due to server connectivity issues. Please try again in a moment, or try one of the suggested queries below."

  /**
   * The four suggested queries. The first word of each is a literal of its own, which lets the
   * verifier read a query's first character without unfolding the whole text.
   */
  const SuggestedQueries: seq<string> := [
    "I'm " + "25, want aggressive growth for retirement in 40 years",
    "I " + "need low-risk investments with steady income for retirement",
    "I " + "have $50K for 10 years, moderate risk tolerance",
    "Help " + "me invest $10K for my child's college in 15 years"
  ]

  /** The state `RecommendationProvider` shares with the components. */
  class RecommendationContext {
    var messages: seq<Message>
    var currentRecommendation: Option<ClientRecommendation>
    var isLoading: bool

    /** The provider's initial state: the welcome message alone, no recommendation, not loading. */
    constructor(now: int)
      ensures messages == [Message(WelcomeId, WelcomeText, false, now, None)]
      ensures currentRecommendation == None && !isLoading
    {
      messages := [Message(WelcomeId, WelcomeText, false, now, None)];
      currentRecommendation := None;
      isLoading := false;
    }

    /** `addMessage`: append the caller's message under a new id and timestamp. */
    method AddMessage(text: string, isUser: bool, recommendation: Option<ClientRecommendation>,
                      id: string, now: int)
      modifies this
      ensures messages == old(messages) + [Message(id, text, isUser, now, recommendation)]
      ensures currentRecommendation == old(currentRecommendation) && isLoading == old(isLoading)
    {
      messages := messages + [Message(id, text, isUser, now, recommendation)];
    }

    method SetCurrentRecommendation(recommendation: Option<ClientRecommendation>)
      modifies this
      ensures currentRecommendation == recommendation
      ensures messages == old(messages) && isLoading == old(isLoading)
    {
      currentRecommendation := recommendation;
    }

    method SetIsLoading(loading: bool)
      modifies this
      ensures isLoading == loading
      ensures messages == old(messages) && currentRecommendation == old(currentRecommendation)
    {
      isLoading := loading;
    }
  }

  /** The assistant's text after a recommendation arrives: it looks only at `isAI`. */
  function ReplyText(isAI: Option<bool>): (t: string)
    ensures t == AiReplyText <==> isAI == Some(true)
    ensures t == FrameworkReplyText <==> isAI != Some(true)
  {
    if isAI == Some(true) then AiReplyText else FrameworkReplyText
  }

  /** The assistant message that closes a submission. */
  function Reply(result: Result<ClientRecommendation, string>, id: string, now: int): (m: Message)
    ensures !m.isUser && m.id == id && m.timestamp == now
    ensures result.Success? ==> m.recommendation == Some(result.value)
                                && m.text == ReplyText(result.value.isAI)
    ensures result.Failure? ==> m.recommendation == None && m.text == ApologyText
  {
    match result
    case Success(r) => Message(id, ReplyText(r.isAI), false, now, Some(r))
    case Failure(_) => Message(id, ApologyText, false, now, None)
  }

  /** The chat component: its own input, typing and error state, over the shared context. */
  class ChatInterface {
    var inputText: string
    var isTyping: bool
    var error: Option<string>
    const context: RecommendationContext

    constructor(context: RecommendationContext)
      ensures this.context == context
      ensures inputText == "" && !isTyping && error == None
    {
      this.context := context;
      inputText := "";
      isTyping := false;
      error := None;
    }

    /** The suggestions are on screen exactly while the log holds the welcome message alone. */
    predicate ShowsSuggestedQueries()
      reads this, context
    {
      |context.messages| == 1
    }

    /** Choosing a suggestion puts it in the input box; nothing is sent. */
    method HandleSuggestedQuery(query: string)
      modifies this
      ensures inputText == query
      ensures isTyping == old(isTyping) && error == old(error)
    {
      inputText := query;
    }

    /**
     * The synchronous part of `handleSubmit`, up to the `await`: unless the trimmed input is empty
     * or a request is running, record the user's message and raise the typing and loading flags.
     * Returns the text to send.
     */
    method Submit(userId: string, now: int) returns (request: Option<string>)
      modifies this, context
      ensures request.Some? <==> Trim(old(inputText)) != [] && !old(context.isLoading)
      ensures request.None? ==>
                && inputText == old(inputText) && isTyping == old(isTyping) && error == old(error)
                && context.messages == old(context.messages)
                && context.currentRecommendation == old(context.currentRecommendation)
                && context.isLoading == old(context.isLoading)
      ensures request.Some? ==>
                && request.value == Trim(old(inputText))
                && inputText == "" && error == None && isTyping && context.isLoading
                && context.messages == old(context.messages) + [Message(userId, request.value, true, now, None)]
                && context.currentRecommendation == old(context.currentRecommendation)
    {
      if Trim(inputText) == [] || context.isLoading {
        return None;
      }
      var userMessage := Trim(inputText);
      inputText := "";
      error := None;
      context.AddMessage(userMessage, true, None, userId, now);
      isTyping := true;
      context.SetIsLoading(true);
      request := Some(userMessage);
    }

    /**
     * The part of `handleSubmit` after the `await`: append the assistant's reply, then either set
     * the current recommendation or report the error; the `finally` clears the loading flag.
     */
    method Complete(result: Result<ClientRecommendation, string>, replyId: string, now: int)
      modifies this, context
      ensures context.messages == old(context.messages) + [Reply(result, replyId, now)]
      ensures result.Success? ==> context.currentRecommendation == Some(result.value) && error == old(error)
      ensures result.Failure? ==> context.currentRecommendation == old(context.currentRecommendation)
                                  && error == Some(result.error)
      ensures !isTyping && !context.isLoading && inputText == old(inputText)
    {
      match result {
        case Success(recommendation) =>
          isTyping := false;
          context.AddMessage(ReplyText(recommendation.isAI), false, Some(recommendation), replyId, now);
          context.SetCurrentRecommendation(Some(recommendation));
        case Failure(message) =>
          isTyping := false;
          error := Some(message);
          context.AddMessage(ApologyText, false, None, replyId, now);
      }
      context.SetIsLoading(false);
    }

    /**
     * A whole `handleSubmit`: `respond` is `getInvestmentRecommendation`, which either resolves
     * with a recommendation or rejects with an `Error` whose message is the failure.
     */
    method HandleSubmit(respond: string -> Result<ClientRecommendation, string>,
                        userId: string, userTime: int, replyId: string, replyTime: int)
      returns (accepted: bool)
      modifies this, context
      ensures accepted <==> Trim(old(inputText)) != [] && !old(context.isLoading)
      ensures !accepted ==>
                && inputText == old(inputText) && isTyping == old(isTyping) && error == old(error)
                && context.messages == old(context.messages)
                && context.currentRecommendation == old(context.currentRecommendation)
                && context.isLoading == old(context.isLoading)
      ensures accepted ==>
                var result := respond(Trim(old(inputText)));
                && inputText == "" && !isTyping && !context.isLoading
                && context.messages == old(context.messages)
                     + [Message(userId, Trim(old(inputText)), true, userTime, None),
                        Reply(result, replyId, replyTime)]
                && (result.Success? ==> context.currentRecommendation == Some(result.value) && error == None)
                && (result.Failure? ==> context.currentRecommendation == old(context.currentRecommendation)
                                        && error == Some(result.error))
      ensures accepted ==> !ShowsSuggestedQueries()
    {
      var request := Submit(userId, userTime);
      if request.None? {
        return false;
      }
      Complete(respond(request.value), replyId, replyTime);
      accepted := true;
    }
  }

  /** A fresh chat shows the suggestions. */
  method NewChatShowsSuggestions(now: int) returns (chat: ChatInterface)
    ensures fresh(chat) && fresh(chat.context)
    ensures chat.ShowsSuggestedQueries() && chat.inputText == ""
    ensures chat.context.currentRecommendation == None && !chat.context.isLoading
  {
    var context := new RecommendationContext(now);
    chat := new ChatInterface(context);
  }

  /** A string that starts with a visible character does not trim to nothing. */
  lemma VisibleStartSurvivesTrim(s: string)
    requires s != [] && !IsJsWhitespace(s[0])
    ensures Trim(s) != []
  {
    TrimEmptyIffAllWhitespace(s);
  }

  /** Every suggested query, once chosen, passes the submit guard's emptiness test. */
  lemma SuggestedQueriesAreSubmittable()
    ensures forall i :: 0 <= i < |SuggestedQueries| ==> Trim(SuggestedQueries[i]) != []
  {
    forall i | 0 <= i < |SuggestedQueries| ensures Trim(SuggestedQueries[i]) != [] {
      VisibleStartSurvivesTrim(SuggestedQueries[i]);
    }
  }
}
