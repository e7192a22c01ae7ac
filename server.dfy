/**
 * The `/api/recommend` endpoint: input validation, the prompt, extracting the JSON object from
 * the model's reply, the fixed fallback recommendation, and stamping provenance on the result.
 * The Gemini call and `JSON.parse` are parameters (`generate`, `decode`) that either answer or
 * throw (`None`); the clock is the parameter `now`.
 */
module Server {
  import opened Wrappers
  import opened JsText
  import opened Schema

  // ---------------------------------------------------------------- prompt

  /*
   * The prompt template, in the template's own line order. Each line is cut into short
   * literals because the verifier reasons about a string literal character by character, and
   * the long lines would make every proof that mentions the prompt several times as expensive.
   */
  const PromptHead: string :=
    "As a " + "professional " + "financial " + "advisor, " + "analyze this " + "investment " +
    "request and " + "provide a " + "comprehensive " + "recommendation " + "in the exact " +
    "JSON format " + "specified:\n" +
    "\n" +
    "User Request: \""

  const PromptTail: string :=
    "\"\n" +
    "\n" +
    "Provide your " + "response as a " + "JSON object " + "with this exact " + "structure:\n" +
    "{\n" +
    "  \"portfolio\": " + "{\n" +
    "    \"stocks\": " + "number " + "(percentage),\n" +
    "    \"bonds\": " + "number " + "(percentage),\n" +
    "    \"etfs\": " + "number " + "(percentage),\n" +
    "    \"crypto\": " + "number " + "(percentage " + "0-10),\n" +
    "    \"reits\": " + "number " + "(percentage " + "0-15),\n" +
    "    " + "\"commodities\": " + "number " + "(percentage " + "0-10)\n" +
    "  },\n" +
    "  \"rationale\": " + "{\n" +
    "    \"stocks\": " + "\"2-3 sentence " + "explanation\",\n" +
    "    \"bonds\": " + "\"2-3 sentence " + "explanation\",\n" +
    "    \"etfs\": " + "\"2-3 sentence " + "explanation\",\n" +
    "    \"crypto\": " + "\"2-3 sentence " + "explanation\",\n" +
    "    \"reits\": " + "\"2-3 sentence " + "explanation\",\n" +
    "    " + "\"commodities\": " + "\"2-3 sentence " + "explanation\"\n" +
    "  },\n" +
    "  \"riskScore\": " + "number (1-10),\n" +
    "  " + "\"diversification" + "Score\": number " + "(1-10),\n" +
    "  " + "\"projections\": " + "{\n" +
    "    \"1year\": " + "{\"conservative\":" + " number, " + "\"expected\": " + "number, " +
    "\"optimistic\": " + "number},\n" +
    "    \"3year\": " + "{\"conservative\":" + " number, " + "\"expected\": " + "number, " +
    "\"optimistic\": " + "number},\n" +
    "    \"5year\": " + "{\"conservative\":" + " number, " + "\"expected\": " + "number, " +
    "\"optimistic\": " + "number},\n" +
    "    \"10year\": " + "{\"conservative\":" + " number, " + "\"expected\": " + "number, " +
    "\"optimistic\": " + "number}\n" +
    "  },\n" +
    "  " + "\"riskAssessment\"" + ": {\n" +
    "    " + "\"marketVolatilit" + "y\": \"detailed " + "explanation\",\n" +
    "    " + "\"liquidityRisk\":" + " \"detailed " + "explanation\", \n" +
    "    " + "\"inflationProtec" + "tion\": " + "\"detailed " + "explanation\"\n" +
    "  }\n" +
    "}\n" +
    "\n" +
    "Important: " + "Portfolio " + "percentages " + "must sum to " + "100. Base " +
    "recommendations " + "on user's age, " + "risk tolerance, " + "time horizon, " +
    "and investment " + "goals."

  /** The prompt sent to the model: the user's text is interpolated verbatim, without escaping. */
  function Prompt(userInput: string): string
  {
    PromptHead + userInput + PromptTail
  }

  /** The user's text as it sits inside a prompt, between the template's head and tail. */
  function UserRequestOf(p: string): string
    requires |p| >= |PromptHead| + |PromptTail|
  {
    p[|PromptHead|..|p| - |PromptTail|]
  }

  /** The user's text can be read back out of the prompt, so different requests give different prompts. */
  lemma PromptRoundTrip(u: string)
    ensures |Prompt(u)| >= |PromptHead| + |PromptTail|
    ensures UserRequestOf(Prompt(u)) == u
  {
    var p := Prompt(u);
    assert |p| - |PromptTail| == |PromptHead| + |u|;
  }

  // ---------------------------------------------------------------- reply parsing

  /** Some `{` comes before some `}`: what `/\{[\s\S]*\}/` needs to match anywhere in `s`. */
  predicate HasSpan(s: string) {
    exists i, j :: 0 <= i < j < |s| && s[i] == '{' && s[j] == '}'
  }

  /** `f` is the first `{` of `s`, `l` its last `}`, and the first comes before the last. */
  predicate WidestSpan(s: string, f: int, l: int) {
    && 0 <= f < l < |s| && s[f] == '{' && s[l] == '}'
    && (forall k :: 0 <= k < f ==> s[k] != '{')
    && (forall k :: l < k < |s| ==> s[k] != '}')
  }

  /** When some `{` precedes some `}`, the first `{` precedes the last `}`. */
  lemma SpanBracesFound(s: string)
    ensures HasSpan(s) ==> IndexOfChar(s, '{').Some? && LastIndexOf(s, '}').Some?
                           && IndexOfChar(s, '{').value < LastIndexOf(s, '}').value
  {
    if HasSpan(s) {
      var i, j :| 0 <= i < j < |s| && s[i] == '{' && s[j] == '}';
    }
  }

  /**
   * `s.match(/\{[\s\S]*\}/)`. The leftmost match starts at the first `{` when any match exists,
   * and the greedy `[\s\S]*` stretches it to the last `}`; a match exists exactly when some `{`
   * precedes some `}`.
   */
  function ExtractSpan(s: string): (r: Option<string>)
    ensures r.Some? <==> HasSpan(s)
    ensures r.Some? ==> exists f, l :: WidestSpan(s, f, l) && r.value == s[f..l + 1]
  {
    SpanBracesFound(s);
    var first := IndexOfChar(s, '{');
    var last := LastIndexOf(s, '}');
    if first.Some? && last.Some? && first.value < last.value then
      assert WidestSpan(s, first.value, last.value);
      Some(s[first.value..last.value + 1])
    else
      None
  }

  /** The widest span is determined by the text: there is only one. */
  lemma WidestSpanUnique(s: string, f: int, l: int, f': int, l': int)
    requires WidestSpan(s, f, l) && WidestSpan(s, f', l')
    ensures f == f' && l == l'
  {
  }

  predicate BraceFree(s: string) {
    forall k :: 0 <= k < |s| ==> s[k] != '{' && s[k] != '}'
  }

  /** Whenever some `{` precedes some `}`, the widest span exists. */
  lemma WidestOf(s: string) returns (f: int, l: int)
    requires HasSpan(s)
    ensures WidestSpan(s, f, l)
  {
    SpanBracesFound(s);
    f, l := IndexOfChar(s, '{').value, LastIndexOf(s, '}').value;
  }

  /** The extracted text is the widest span, whenever there is one. */
  lemma ExtractSpanIsWidest(s: string, f: int, l: int)
    requires WidestSpan(s, f, l)
    ensures ExtractSpan(s) == Some(s[f..l + 1])
  {
    var f', l' :| WidestSpan(s, f', l') && ExtractSpan(s).value == s[f'..l' + 1];
    WidestSpanUnique(s, f, l, f', l');
  }

  /** Brace-free text on either side shifts the widest span without changing it. */
  lemma WidestSpanShift(pre: string, mid: string, post: string, f: int, l: int)
    requires BraceFree(pre) && BraceFree(post) && WidestSpan(mid, f, l)
    ensures WidestSpan(pre + mid + post, |pre| + f, |pre| + l)
  {
    var s := pre + mid + post;
    forall k | 0 <= k < |pre| + f ensures s[k] != '{' {
      if k < |pre| { assert s[k] == pre[k]; } else { assert s[k] == mid[k - |pre|]; }
    }
    forall k | |pre| + l < k < |s| ensures s[k] != '}' {
      if k < |pre| + |mid| { assert s[k] == mid[k - |pre|]; }
      else { assert s[k] == post[k - |pre| - |mid|]; }
    }
    assert s[|pre| + f] == mid[f] && s[|pre| + l] == mid[l];
  }

  /** Any `{ ... }` around brace-free text lies inside the middle part. */
  lemma HasSpanShift(pre: string, mid: string, post: string)
    requires BraceFree(pre) && BraceFree(post) && HasSpan(pre + mid + post)
    ensures HasSpan(mid)
  {
    var s := pre + mid + post;
    var i, j :| 0 <= i < j < |s| && s[i] == '{' && s[j] == '}';
    assert forall k :: 0 <= k < |pre| ==> s[k] == pre[k];
    assert forall k :: |pre| + |mid| <= k < |s| ==> s[k] == post[k - |pre| - |mid|];
    assert mid[i - |pre|] == '{' && mid[j - |pre|] == '}';
  }

  /** Text around the object that holds no brace does not change what is extracted. */
  lemma ExtractSpanIgnoresBraceFree(pre: string, mid: string, post: string)
    requires BraceFree(pre) && BraceFree(post)
    ensures ExtractSpan(pre + mid + post) == ExtractSpan(mid)
  {
    if HasSpan(mid) {
      var f, l := WidestOf(mid);
      ExtractSpanIsWidest(mid, f, l);
      ShiftedExtract(pre, mid, post, f, l);
    } else {
      if HasSpan(pre + mid + post) {
        HasSpanShift(pre, mid, post);
      }
    }
  }

  lemma ShiftedExtract(pre: string, mid: string, post: string, f: int, l: int)
    requires BraceFree(pre) && BraceFree(post) && WidestSpan(mid, f, l)
    ensures ExtractSpan(pre + mid + post) == Some(mid[f..l + 1])
  {
    var s := pre + mid + post;
    WidestSpanShift(pre, mid, post, f, l);
    ExtractSpanIsWidest(s, |pre| + f, |pre| + l);
    assert s[|pre| + f..|pre| + l + 1] == mid[f..l + 1];
  }

  /** Leading and trailing whitespace of the reply never affects the extracted object. */
  lemma ExtractSpanIgnoresTrim(s: string)
    ensures ExtractSpan(Trim(s)) == ExtractSpan(s)
  {
    var t := Trim(s);
    var i := LeadingWhitespace(s);
    ExtractSpanIgnoresPadding(s, i, t);
  }

  lemma ExtractSpanIgnoresPadding(s: string, i: int, t: string)
    requires 0 <= i <= |s| - |t| && t == s[i..i + |t|]
    requires AllWhitespace(s[..i]) && AllWhitespace(s[i + |t|..])
    ensures ExtractSpan(t) == ExtractSpan(s)
  {
    var pre, post := s[..i], s[i + |t|..];
    WhitespaceIsBraceFree(pre);
    WhitespaceIsBraceFree(post);
    ExtractSpanIgnoresBraceFree(pre, t, post);
    Recompose(s, i, i + |t|);
  }

  lemma WhitespaceIsBraceFree(w: string)
    requires AllWhitespace(w)
    ensures BraceFree(w)
  {
    forall k | 0 <= k < |w| ensures w[k] != '{' && w[k] != '}' {
      assert IsJsWhitespace(w[k]);
    }
  }

  /** An object embedded in prose without braces is extracted exactly. */
  lemma ExtractSpanOfEmbeddedObject(pre: string, obj: string, post: string)
    requires BraceFree(pre) && BraceFree(post)
    requires |obj| >= 2 && obj[0] == '{' && obj[|obj| - 1] == '}'
    ensures ExtractSpan(pre + obj + post) == Some(obj)
  {
    ExtractSpanIgnoresBraceFree(pre, obj, post);
    ExtractSpanIsWidest(obj, 0, |obj| - 1);
  }

  // ---------------------------------------------------------------- the fallback

  /** `generateMockRecommendation`: the fixed recommendation, with `isAI`, `timestamp` and `userInput` unset. */
  function MockRecommendation(): Recommendation {
    Recommendation(MockPortfolio, MockRationale, 6.0, 8.0, MockProjections, MockRiskAssessment,
                   None, None, None)
  }

  const MockPortfolio: map<string, real> :=
    map["stocks" := 60.0, "bonds" := 25.0, "etfs" := 10.0, "reits" := 5.0,
        "crypto" := 0.0, "commodities" := 0.0]

  const MockProjections: seq<(string, Projection)> :=
    [("1year", Projection(5.2, 8.5, 12.8)),
     ("3year", Projection(15.8, 22.1, 28.9)),
     ("5year", Projection(28.3, 41.7, 55.2)),
     ("10year", Projection(68.4, 95.8, 123.7))]

  const MockRationale: seq<(string, string)> :=
    [("stocks", "High allocation to equities for long-term growth potential suitable for younger investors"),
     ("bonds", "Government and corporate bonds provide stability and regular income"),
     ("etfs", "Diversified ETFs offer exposure to multiple sectors with lower fees"),
     ("reits", "Real Estate Investment Trusts add diversification and inflation protection")]

  const MockRiskAssessment: seq<(string, string)> :=
    [("volatility", "Moderate to high volatility expected due to equity-heavy allocation"),
     ("timeHorizon", "Well-suited for long-term investment horizons of 5+ years"),
     ("liquidityRisk", "High liquidity with ability to exit positions quickly"),
     ("inflationRisk", "Good inflation protection through real assets and growth stocks")]

  /** The total of a portfolio over the given asset classes, counting an absent class as 0. */
  function SumOver(m: map<string, real>, keys: seq<string>): real {
    if keys == [] then 0.0
    else (if keys[0] in m then m[keys[0]] else 0.0) + SumOver(m, keys[1..])
  }

  /** The mock allocates exactly the six asset classes, summing to 100, with risk 6 and diversification 8. */
  lemma MockAllocation()
    ensures MockRecommendation().portfolio.Keys == set k | k in AssetTypes
    ensures SumOver(MockRecommendation().portfolio, AssetTypes) == 100.0
    ensures forall k :: k in MockRecommendation().portfolio ==> MockRecommendation().portfolio[k] >= 0.0
    ensures MockRecommendation().riskScore == 6.0 && MockRecommendation().diversificationScore == 8.0
  {
    assert MockRecommendation().portfolio == MockPortfolio;
    MockPortfolioSums();
  }

  lemma MockPortfolioSums()
    ensures MockPortfolio.Keys == set k | k in AssetTypes
    ensures SumOver(MockPortfolio, AssetTypes) == 100.0
    ensures forall k :: k in MockPortfolio ==> MockPortfolio[k] >= 0.0
  {
    var m := MockPortfolio;
    assert SumOver(m, AssetTypes[5..]) == 0.0;
    assert SumOver(m, AssetTypes[4..]) == 5.0;
    assert SumOver(m, AssetTypes[3..]) == 5.0;
    assert SumOver(m, AssetTypes[2..]) == 15.0;
    assert SumOver(m, AssetTypes[1..]) == 40.0;
  }

  /** Every mock horizon is ordered conservative <= expected <= optimistic. */
  lemma MockProjectionsOrdered()
    ensures forall i :: 0 <= i < |MockRecommendation().projections| ==>
              var p := MockRecommendation().projections[i].1;
              p.conservative <= p.expected <= p.optimistic
  {
  }

  /** The mock's risk assessment uses its own four keys; `marketVolatility` is not among them. */
  lemma MockRiskAssessmentKeys()
    ensures |MockRecommendation().riskAssessment| == 4
    ensures forall i :: 0 <= i < 4 ==>
              MockRecommendation().riskAssessment[i].0 == ["volatility", "timeHorizon", "liquidityRisk", "inflationRisk"][i]
    ensures Lookup(MockRecommendation().riskAssessment, "marketVolatility") == None
  {
  }

  // ---------------------------------------------------------------- the AI path

  /**
   * `generateAIRecommendation`: ask the model, trim its reply, cut out the JSON object and decode
   * it. `None` stands for the error thrown by the provider, by a reply without an object, or by
   * `JSON.parse`.
   */
  function GenerateAIRecommendation(userInput: string, generate: string -> Option<string>,
                                    decode: string -> Option<Recommendation>): (r: Option<Recommendation>)
    ensures r == (var reply := generate(Prompt(userInput));
                  if reply.Some? && HasSpan(reply.value) then decode(ExtractSpan(reply.value).value)
                  else None)
  {
    var reply := generate(Prompt(userInput));
    if reply.None? then None
    else
      ExtractSpanIgnoresTrim(reply.value);
      match ExtractSpan(Trim(reply.value))
      case None => None
      case Some(span) => decode(span)
  }

  // ---------------------------------------------------------------- the endpoint

  /** `req.body.userInput` as the handler sees it. */
  datatype BodyField =
    | Absent            // undefined
    | FalsyValue        // null, false, 0 or NaN
    | Text(s: string)   // a string, the empty string included
    | TruthyNonString   // any other value: it has no `trim` method

  datatype Response =
    | BadRequest(error: string)      // status 400
    | Ok(data: Recommendation)       // status 200, `{ success: true, data }`
    | ServerError(error: string)     // status 500

  function StatusCode(r: Response): int {
    match r
    case BadRequest(_) => 400
    case Ok(_) => 200
    case ServerError(_) => 500
  }

  const MinimumInputLength := 10
  const ValidationMessage := "Please provide a detailed investment request (at least 10 characters)"
  const ServerFailureMessage := "Failed to generate recommendation"

  /** `process.env.GEMINI_API_KEY` is set to a non-empty string. */
  predicate AiEnabled(apiKey: Option<string>) {
    apiKey.Some? && apiKey.value != ""
  }

  /** `!userInput || userInput.trim().length < 10`, for the values on which it does not throw. */
  predicate FailsValidation(body: BodyField) {
    || body.Absent? || body.FalsyValue?
    || (body.Text? && (body.s == "" || Utf16Length(Trim(body.s)) < MinimumInputLength))
  }

  /**
   * The `/api/recommend` handler. `providerCalled` reports whether the model was asked.
   * The object it stamps is always fresh (the parsed reply or a new mock), so updating it in
   * place is updating a value.
   */
  method HandleRecommend(body: BodyField, apiKey: Option<string>,
                         generate: string -> Option<string>,
                         decode: string -> Option<Recommendation>, now: string)
    returns (response: Response, providerCalled: bool)
    ensures response.BadRequest? <==> FailsValidation(body)
    ensures response.BadRequest? ==> response.error == ValidationMessage
    ensures response.ServerError? <==> body.TruthyNonString?
    ensures response.ServerError? ==> response.error == ServerFailureMessage
    ensures providerCalled <==> response.Ok? && AiEnabled(apiKey)
    ensures response.Ok? ==> body.Text? && response.data.timestamp == Some(now)
                             && response.data.userInput == Some(body.s)
    ensures response.Ok? ==>
              (response.data.isAI == Some(true)
               <==> AiEnabled(apiKey) && GenerateAIRecommendation(body.s, generate, decode).Some?)
    ensures response.Ok? && response.data.isAI == Some(true) ==>
              response.data == GenerateAIRecommendation(body.s, generate, decode).value
                                 .(isAI := Some(true), timestamp := Some(now), userInput := Some(body.s))
    ensures response.Ok? && response.data.isAI != Some(true) ==>
              response.data == MockRecommendation()
                                 .(isAI := Some(false), timestamp := Some(now), userInput := Some(body.s))
  {
    providerCalled := false;
    if body.Absent? || body.FalsyValue? || (body.Text? && body.s == "") {
      response := BadRequest(ValidationMessage);
      return;
    }
    if body.TruthyNonString? {
      // `userInput.trim` is not a function: the TypeError reaches the outer catch
      response := ServerError(ServerFailureMessage);
      return;
    }
    var userInput := body.s;
    if Utf16Length(Trim(userInput)) < MinimumInputLength {
      response := BadRequest(ValidationMessage);
      return;
    }

    var recommendation: Recommendation;
    if AiEnabled(apiKey) {
      providerCalled := true;
      var ai := GenerateAIRecommendation(userInput, generate, decode);
      if ai.Some? {
        recommendation := ai.value;
        recommendation := recommendation.(isAI := Some(true));
      } else {
        recommendation := MockRecommendation();
        recommendation := recommendation.(isAI := Some(false));
      }
    } else {
      recommendation := MockRecommendation();
      recommendation := recommendation.(isAI := Some(false));
    }

    recommendation := recommendation.(timestamp := Some(now));
    recommendation := recommendation.(userInput := Some(userInput));
    response := Ok(recommendation);
  }

  // ---------------------------------------------------------------- scenarios

  /** A request shorter than ten code units is rejected before it is trimmed. */
  lemma ShortRequestRejected(s: string)
    requires Utf16Length(s) < MinimumInputLength
    ensures FailsValidation(Text(s))
  {
    TrimShortens(s);
  }

  /** A request made only of whitespace is rejected, however long it is. */
  lemma WhitespaceRequestRejected(s: string)
    requires AllWhitespace(s)
    ensures FailsValidation(Text(s))
  {
    TrimEmptyIffAllWhitespace(s);
  }

  /** A request with at least ten characters after trimming is accepted. */
  lemma LongRequestAccepted(s: string)
    requires |Trim(s)| >= MinimumInputLength
    ensures !FailsValidation(Text(s))
  {
  }

  /** A reply that wraps the JSON object in prose without braces is decoded from the object alone. */
  lemma ProseAroundObjectIsIgnored(userInput: string, pre: string, obj: string, post: string,
                                   generate: string -> Option<string>,
                                   decode: string -> Option<Recommendation>)
    requires BraceFree(pre) && BraceFree(post)
    requires |obj| >= 2 && obj[0] == '{' && obj[|obj| - 1] == '}'
    requires generate(Prompt(userInput)) == Some(pre + obj + post)
    ensures GenerateAIRecommendation(userInput, generate, decode) == decode(obj)
  {
    ExtractSpanIgnoresTrim(pre + obj + post);
    ExtractSpanOfEmbeddedObject(pre, obj, post);
  }

  /** A reply without any `{ ... }` makes the AI path fail, whatever the decoder would do. */
  lemma ReplyWithoutObjectFails(userInput: string, reply: string,
                                generate: string -> Option<string>,
                                decode: string -> Option<Recommendation>)
    requires generate(Prompt(userInput)) == Some(reply) && BraceFree(reply)
    ensures GenerateAIRecommendation(userInput, generate, decode) == None
  {
  }
}
