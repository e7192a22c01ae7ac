/**
 * The browser-side API client: normalising the server's portfolio into the client shape, and
 * turning every way the request can end into either a recommendation or one user-facing message.
 * The HTTP request itself is a parameter: the outcome axios reports.
 */
module Api {
  import opened Wrappers
  import opened Schema

  /** `m.key` on the server's portfolio object. */
  function Field(m: map<string, real>, key: string): Option<real> {
    if key in m then Some(m[key]) else None
  }

  /**
   * `convertToRecommendation`: every field is copied, and the portfolio is rebuilt from the six
   * asset classes, with `stocks`, `bonds` and `etfs` defaulting to 0.
   */
  function ConvertToRecommendation(w: Recommendation): (c: ClientRecommendation)
    ensures "stocks" in w.portfolio ==> c.portfolio.stocks == w.portfolio["stocks"]
    ensures "stocks" !in w.portfolio ==> c.portfolio.stocks == 0.0
    ensures "bonds" in w.portfolio ==> c.portfolio.bonds == w.portfolio["bonds"]
    ensures "bonds" !in w.portfolio ==> c.portfolio.bonds == 0.0
    ensures "etfs" in w.portfolio ==> c.portfolio.etfs == w.portfolio["etfs"]
    ensures "etfs" !in w.portfolio ==> c.portfolio.etfs == 0.0
    ensures c.portfolio.crypto == Field(w.portfolio, "crypto")
    ensures c.portfolio.reits == Field(w.portfolio, "reits")
    ensures c.portfolio.commodities == Field(w.portfolio, "commodities")
    ensures c.rationale == w.rationale && c.riskScore == w.riskScore
    ensures c.diversificationScore == w.diversificationScore && c.projections == w.projections
    ensures c.riskAssessment == w.riskAssessment && c.isAI == w.isAI
    ensures c.timestamp == w.timestamp && c.userInput == w.userInput
  {
    var p := Portfolio(
      Field(w.portfolio, "stocks").GetOr(0.0), Field(w.portfolio, "bonds").GetOr(0.0),
      Field(w.portfolio, "etfs").GetOr(0.0), Field(w.portfolio, "crypto"),
      Field(w.portfolio, "reits"), Field(w.portfolio, "commodities"));
    ClientRecommendation(p, w.rationale, w.riskScore, w.diversificationScore, w.projections,
                         w.riskAssessment, w.isAI, w.timestamp, w.userInput)
  }

  /** After conversion the client portfolio holds no key outside the six asset classes. */
  lemma ConvertDropsUnknownKeys(w: Recommendation, k: string)
    requires k !in AssetTypes
    ensures Lookup(Entries(ConvertToRecommendation(w).portfolio), k) == None
  {
    EntriesLookupUnknown(ConvertToRecommendation(w).portfolio, k);
  }

  function OptionalField(key: string, v: Option<real>): map<string, real> {
    if v.Some? then map[key := v.value] else map[]
  }

  /** The server-shaped record a client recommendation stands for (its portfolio as a plain object). */
  function ToWire(c: ClientRecommendation): Recommendation {
    var p := c.portfolio;
    var m := map["stocks" := p.stocks, "bonds" := p.bonds, "etfs" := p.etfs]
             + OptionalField("crypto", p.crypto) + OptionalField("reits", p.reits)
             + OptionalField("commodities", p.commodities);
    Recommendation(m, c.rationale, c.riskScore, c.diversificationScore, c.projections,
                   c.riskAssessment, c.isAI, c.timestamp, c.userInput)
  }

  /** Converting the server form of a client recommendation gives that recommendation back. */
  lemma ConvertToWireRoundTrip(c: ClientRecommendation)
    ensures ConvertToRecommendation(ToWire(c)) == c
  {
    var m := ToWire(c).portfolio;
    assert Field(m, "stocks") == Some(c.portfolio.stocks);
    assert Field(m, "crypto") == c.portfolio.crypto;
    assert Field(m, "reits") == c.portfolio.reits;
    assert Field(m, "commodities") == c.portfolio.commodities;
  }

  /** The six asset classes as a set. */
  const AssetSet: set<string> := {"stocks", "bonds", "etfs", "crypto", "reits", "commodities"}

  /** The server form of a converted portfolio holds exactly the keys that survived conversion. */
  lemma ConvertedPortfolioKeys(w: Recommendation)
    ensures ToWire(ConvertToRecommendation(w)).portfolio.Keys
            == {"stocks", "bonds", "etfs"} + (w.portfolio.Keys * AssetSet)
  {
  }

  /** ... and every key the server sent keeps its value. */
  lemma ConvertedPortfolioValues(w: Recommendation)
    ensures var m := ToWire(ConvertToRecommendation(w)).portfolio;
            forall k :: k in m && k in w.portfolio ==> m[k] == w.portfolio[k]
  {
  }

  /**
   * Conversion loses nothing exactly when the server's portfolio has `stocks`, `bonds` and `etfs`
   * and no key outside the six asset classes.
   */
  lemma ConvertLosesNothingIff(w: Recommendation)
    ensures ToWire(ConvertToRecommendation(w)) == w
            <==> {"stocks", "bonds", "etfs"} <= w.portfolio.Keys <= AssetSet
  {
    var m := ToWire(ConvertToRecommendation(w)).portfolio;
    ConvertedPortfolioKeys(w);
    ConvertedPortfolioValues(w);
    if {"stocks", "bonds", "etfs"} <= w.portfolio.Keys <= AssetSet {
      assert m.Keys == w.portfolio.Keys;
      assert m == w.portfolio;
    }
  }

  /** What axios reports of a response that came back with an error status. */
  datatype ErrorResponse = ErrorResponse(status: int, error: Option<string>)

  /** An axios error: its `code`, and the response when there was one. */
  datatype AxiosError = AxiosError(code: Option<string>, response: Option<ErrorResponse>)

  /** The server's JSON envelope on a 2xx response. */
  datatype Envelope = Envelope(success: bool, data: Option<Recommendation>, error: Option<string>)

  /** How `api.post('/recommend', ...)` ends: with a 2xx response or with an axios error. */
  datatype Transport = Resolved(envelope: Envelope) | Rejected(failure: AxiosError)

  /** What reaches the `catch` block: an axios error or a plain `Error`. */
  datatype Thrown = FromAxios(axios: AxiosError) | Plain(message: string)

  /** The four user-facing outcomes of the error cascade. */
  datatype FailureKind = ServiceUnreachable | InvalidRequest(message: string) | ServerFault | Unexpected

  const NetworkCode := "ERR_NETWORK"
  const UnreachableMessage :=
    "Unable to connect to the recommendation service. Please check if the server is running on port 3001."
  const InvalidRequestDefault := "Invalid request"
  const ServerFaultMessage := "Server error occurred while generating recommendation"
  const UnexpectedMessage := "An unexpected error occurred. Please try again."
  const NoRecommendationMessage := "Failed to get recommendation"

  /** `a || b` for a possibly missing string: the empty string is falsy. */
  function OrElse(a: Option<string>, b: string): string {
    if a.Some? && a.value != "" then a.value else b
  }

  function Status(e: AxiosError): Option<int> {
    if e.response.Some? then Some(e.response.value.status) else None
  }

  /** The `catch` block's cascade: network failure first, then status 400, then status 500. */
  function Classify(t: Thrown): (k: FailureKind)
    ensures k.ServiceUnreachable? <==> t.FromAxios? && t.axios.code == Some(NetworkCode)
    ensures k.InvalidRequest? <==>
              t.FromAxios? && t.axios.code != Some(NetworkCode) && Status(t.axios) == Some(400)
    ensures k.InvalidRequest? ==> k.message == OrElse(t.axios.response.value.error, InvalidRequestDefault)
    ensures k.ServerFault? <==>
              t.FromAxios? && t.axios.code != Some(NetworkCode) && Status(t.axios) == Some(500)
    ensures k.Unexpected? <==>
              t.Plain? || (t.axios.code != Some(NetworkCode) && Status(t.axios) != Some(400)
                           && Status(t.axios) != Some(500))
  {
    match t
    case Plain(_) => Unexpected
    case FromAxios(e) =>
      if e.code == Some(NetworkCode) then ServiceUnreachable
      else if Status(e) == Some(400) then InvalidRequest(OrElse(e.response.value.error, InvalidRequestDefault))
      else if Status(e) == Some(500) then ServerFault
      else Unexpected
  }

  function Message(k: FailureKind): string {
    match k
    case ServiceUnreachable => UnreachableMessage
    case InvalidRequest(m) => m
    case ServerFault => ServerFaultMessage
    case Unexpected => UnexpectedMessage
  }

  /** The `try` block: convert a successful envelope, otherwise throw. */
  function Attempt(t: Transport): Result<ClientRecommendation, Thrown> {
    match t
    case Rejected(e) => Failure(FromAxios(e))
    case Resolved(env) =>
      if !env.success then Failure(Plain(OrElse(env.error, NoRecommendationMessage)))
      else if env.data.None? then Failure(Plain("TypeError: cannot read 'portfolio' of undefined"))
      else Success(ConvertToRecommendation(env.data.value))
  }

  /** `getInvestmentRecommendation`: a recommendation, or the message of the error it throws. */
  function GetInvestmentRecommendation(t: Transport): (r: Result<ClientRecommendation, string>)
    ensures r.Success? <==> t.Resolved? && t.envelope.success && t.envelope.data.Some?
    ensures r.Success? ==> r.value == ConvertToRecommendation(t.envelope.data.value)
    ensures t.Resolved? && !t.envelope.success ==> r == Failure(UnexpectedMessage)
    ensures t.Rejected? && t.failure.code == Some(NetworkCode) ==> r == Failure(UnreachableMessage)
    ensures t.Rejected? && t.failure.code != Some(NetworkCode) && Status(t.failure) == Some(500)
            ==> r == Failure(ServerFaultMessage)
    ensures t.Rejected? && t.failure.code != Some(NetworkCode) && Status(t.failure) == Some(400)
            ==> r == Failure(OrElse(t.failure.response.value.error, InvalidRequestDefault))
    ensures t.Rejected? && t.failure.code != Some(NetworkCode)
              && Status(t.failure) != Some(400) && Status(t.failure) != Some(500)
            ==> r == Failure(UnexpectedMessage)
    ensures t.Resolved? && t.envelope.success && t.envelope.data.None? ==> r == Failure(UnexpectedMessage)
  {
    match Attempt(t)
    case Success(c) => Success(c)
    case Failure(thrown) => Failure(Message(Classify(thrown)))
  }

  /** A failure message is one of the three fixed texts unless it is the server's 400 explanation. */
  lemma FailureMessages(t: Transport)
    requires GetInvestmentRecommendation(t).Failure?
    ensures var m := GetInvestmentRecommendation(t).error;
            m in {UnreachableMessage, ServerFaultMessage, UnexpectedMessage}
            || (t.Rejected? && Status(t.failure) == Some(400))
  {
  }
}
