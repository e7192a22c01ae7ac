# Smart Invest AI — a Dafny model of its recommendation core

Smart Invest AI is an investment-advice web application. A user describes their goals in a chat.
An Express server validates the request. It asks Gemini for a portfolio recommendation, or uses a
fixed mock when no key is set or the model fails. The server stamps the result, and a React client
converts it and shows it: as a chat card, and on a dashboard with a pie chart, growth projections,
a risk gauge and a diversification radar. The dashboard also exports a report and shares a summary.

This project models that core in Dafny and proves properties of the model:

- `Server`: the `/api/recommend` handler (`HandleRecommend`, a method) and its validation, the
  prompt, the greedy `{ ... }` extraction from the model's reply, and the mock recommendation.
- `Api`: the client's conversion of the server's record, and the error cascade of
  `getInvestmentRecommendation`.
- `Conversation`: the shared recommendation context and the chat component, as two classes whose
  methods update their fields.
- `Dashboard`, `RecommendationCard`, `GrowthProjection`, `RiskMeter`, `DiversificationRadar` and
  `PortfolioPieChart`: what each display derives from a recommendation.
- `Allocation`: the positive allocations largest first, which most displays share.
- `Ordering`: JavaScript's stable `sort`, `filter`, `slice` and `map`.
- `JsText`: the JavaScript string operations used (`trim`, UTF-16 `length`, `indexOf`, `replace`,
  upper-casing).
- `Schema`: the recommendation record in its server and client shapes.
- `Wrappers`: `Option` and `Result`.

Gemini, `JSON.parse` and the HTTP transport are parameters of the model. Each either answers or
fails. Message ids and timestamps, which the source draws from `Math.random` and `new Date()`, are
parameters as well.

Where the code's own declarations and its behaviour differ, the model follows the behaviour:

- The mock's risk assessment (server/index.js:104-109) uses the keys `volatility`,
  `timeHorizon`, `liquidityRisk` and `inflationRisk`. Three places name `marketVolatility`,
  `liquidityRisk` and `inflationProtection` instead: the keys the prompt asks the model for
  (server/index.js:53-57), the client's `InvestmentRecommendation` interface
  (src/services/api.ts:49-53) and the context's `RiskAssessment` type
  (src/context/RecommendationContext.tsx:20-24). `Server.MockRiskAssessmentKeys` states the
  mock's keys.
- The ten-character minimum counts UTF-16 code units, as JavaScript's `length` does.
- A truthy `userInput` that is not a string makes `trim` throw. The outer `catch` turns that into
  a 500, not a 400.

## Model

| member | source | states |
|---|---|---|
| JsText.TrimStart | server/index.js:116 | the result is the suffix left after dropping only whitespace, and it does not start with whitespace |
| JsText.TrimEnd | server/index.js:116 | the result is the prefix left after dropping only whitespace, and it does not end with whitespace |
| JsText.LeadingWhitespace | server/index.js:116 | counts a whitespace prefix that is followed by a non-whitespace character or the end |
| JsText.Trim | server/index.js:116 | the result is the slice of the input that starts after its leading whitespace, with only whitespace after it |
| JsText.TrimBoundaries | src/components/ChatInterface.tsx:39-41 | a non-empty trimmed string neither starts nor ends with whitespace |
| JsText.AllWhitespaceTrimsAway | src/components/ChatInterface.tsx:39 | a whitespace-only string trims at the start to nothing |
| JsText.TrimEmptyIffAllWhitespace | src/components/ChatInterface.tsx:39 | a string trims to nothing exactly when all of it is whitespace |
| JsText.TrimIdempotent | src/components/ChatInterface.tsx:41 | trimming twice equals trimming once |
| JsText.Utf16Length | server/index.js:116 | the code-unit length lies between the character count and twice it |
| JsText.Utf16LengthAppend | server/index.js:116 | code-unit lengths add over concatenation |
| JsText.TrimShortens | server/index.js:116 | trimming never increases the code-unit length |
| JsText.IndexOf | src/components/charts/GrowthProjectionChart.tsx:22 | finds the first occurrence of the pattern, or reports that there is none |
| JsText.IndexOfChar | server/index.js:67 | finds the first position holding the character, or reports that none does |
| JsText.LastIndexOf | server/index.js:67 | finds the last position holding the character, or reports that none does |
| JsText.ReplaceFirstSpec | src/components/charts/GrowthProjectionChart.tsx:22 | `replace` with a string pattern leaves a string without the pattern unchanged, and otherwise replaces exactly the first occurrence |
| JsText.ReplaceAfterDigits | src/components/charts/GrowthProjectionChart.tsx:22 | in a word after a run of digits, `replace` replaces that word and leaves the digits |
| JsText.ToUpperAscii | src/components/charts/DiversificationRadar.tsx:14 | lower-case ASCII letters map to their capitals, and every other character is unchanged |
| JsText.Capitalize | src/components/charts/DiversificationRadar.tsx:14 | only the first character is upper-cased, and the rest is kept |
| JsText.CapitalizeIdempotent | src/components/charts/DiversificationRadar.tsx:14 | capitalising twice equals capitalising once |
| JsText.ToUpperCase | src/components/Dashboard.tsx:132 | every character is upper-cased and the length is kept |
| JsText.ToUpperCaseIdempotent | src/components/Dashboard.tsx:132 | upper-casing is idempotent and leaves no lower-case ASCII letter |
| Ordering.Insert | src/components/Dashboard.tsx:129 | inserting adds exactly the one element |
| Ordering.InsertNonIncreasing | src/components/Dashboard.tsx:129 | inserting into a non-increasing sequence keeps it non-increasing |
| Ordering.SortDescending | src/components/Dashboard.tsx:129 | `sort((a, b) => key(b) - key(a))` returns a permutation whose keys never increase |
| Ordering.InsertWithKey | src/components/Dashboard.tsx:129 | insertion puts the new element ahead of the elements that share its key |
| Ordering.SortDescendingStable | src/components/Dashboard.tsx:129 | the sort is stable: elements with equal keys keep their relative order |
| Ordering.Filter | src/components/Dashboard.tsx:128 | every element kept passes the test, and the result is no longer than the input |
| Ordering.FilterMultiset | src/components/Dashboard.tsx:128 | each passing element is kept as often as it occurs, and nothing else is kept |
| Ordering.FilterAppend | src/components/Dashboard.tsx:128 | filtering distributes over concatenation, so it keeps order |
| Ordering.FilterIndex | src/components/Dashboard.tsx:492-496 | a passing element lands right after the passing elements before it |
| Ordering.FilterPrefixGrows | src/components/Dashboard.tsx:492-496 | a passing element between two cut points adds at least one to the filtered prefix |
| Ordering.WithKeyFilter | src/components/Dashboard.tsx:128-129 | filtering with a test that every element of a key passes keeps all of those elements, in order |
| Ordering.FilterMapLength | src/components/RecommendationCard.tsx:474 | filtering keys by a test counts as many as filtering their rows by that test |
| Ordering.FilterCommutesWithMap | src/components/charts/PortfolioPieChart.tsx:28-35 | filter-then-map equals map-then-filter on the matching test |
| Ordering.Take | src/components/Dashboard.tsx:225 | `slice(0, n)` is the prefix of length min(n, length) |
| Ordering.Map | src/components/Dashboard.tsx:130 | `map` keeps the length and applies the function at every index |
| Ordering.SortCommutesWithMap | src/components/charts/PortfolioPieChart.tsx:28-36 | sorting rows after a key-preserving map equals mapping the sorted rows |
| Schema.Lookup | src/components/RecommendationCard.tsx:50 | a key reads as absent exactly when no entry has it, and a present value is stored under that key |
| Schema.Entries | src/context/RecommendationContext.tsx:3-10 | a client portfolio lists stocks, bonds and etfs first, with distinct keys, all of them asset classes |
| Schema.LookupDistinct | src/components/RecommendationCard.tsx:50 | with distinct keys, looking up an entry's key finds that entry's value |
| Schema.EntriesLookupRequired | src/context/RecommendationContext.tsx:4-6 | stocks, bonds and etfs always read as their values |
| Schema.EntriesLookupOptional | src/context/RecommendationContext.tsx:7-9 | crypto, reits and commodities read as their value when set, and as absent otherwise |
| Schema.EntriesLookupUnknown | src/context/RecommendationContext.tsx:3-10 | a key outside the six asset classes reads as absent |
| Api.ConvertToRecommendation | src/services/api.ts:60-72 | stocks, bonds and etfs are copied or default to 0; the optional classes are copied as given; every other field is copied |
| Api.ConvertDropsUnknownKeys | src/services/api.ts:63-70 | after conversion, no key outside the six asset classes remains |
| Api.ConvertToWireRoundTrip | src/services/api.ts:60-72 | converting the server form of a client recommendation gives that recommendation back |
| Api.ConvertedPortfolioKeys | src/services/api.ts:63-70 | the converted portfolio holds stocks, bonds, etfs and those of the server's keys that are asset classes |
| Api.ConvertedPortfolioValues | src/services/api.ts:64-69 | every key the server sent keeps its value |
| Api.ConvertLosesNothingIff | src/services/api.ts:60-72 | conversion is lossless exactly when stocks, bonds and etfs are present and no other key is |
| Api.Classify | src/services/api.ts:84-94 | the catch cascade: a network failure first, then status 400 with the server's text or a default, then 500, else unexpected |
| Api.GetInvestmentRecommendation | src/services/api.ts:74-96 | success exactly on a successful envelope with data, which is then converted. Each failure gets its message: network gives "unable to connect"; 400 gives the server's text or "Invalid request"; 500 gives "server error". Everything else ends as "unexpected": `success: false`, success without data, no response, and any other status |
| Api.FailureMessages | src/services/api.ts:83-95 | a failure message is one of the three fixed texts, unless it is the server's explanation of a 400 |
| Server.PromptRoundTrip | server/index.js:23-60 | the user's text is read back out of the prompt, so different requests give different prompts |
| Server.SpanBracesFound | server/index.js:67 | when some `{` precedes some `}`, the first `{` precedes the last `}` |
| Server.ExtractSpan | server/index.js:67-72 | the regex matches exactly when some `{` precedes some `}`, and then returns the span from the first `{` to the last `}` |
| Server.WidestSpanUnique | server/index.js:67 | the widest span is unique |
| Server.ExtractSpanIsWidest | server/index.js:67 | what is extracted is that span |
| Server.ExtractSpanIgnoresBraceFree | server/index.js:67 | brace-free text on either side does not change the extracted span |
| Server.ExtractSpanIgnoresTrim | server/index.js:65-67 | trimming the reply first never changes what is extracted |
| Server.ExtractSpanOfEmbeddedObject | server/index.js:67-69 | an object between brace-free prose is extracted exactly |
| Server.MockAllocation | server/index.js:82-91 | the mock allocates exactly the six classes, non-negative and summing to 100, with risk 6 and diversification 8 |
| Server.MockProjectionsOrdered | server/index.js:92-97 | every mock horizon has conservative <= expected <= optimistic |
| Server.MockRiskAssessmentKeys | server/index.js:104-109 | the mock's risk assessment has its own four keys, and `marketVolatility` is not among them |
| Server.GenerateAIRecommendation | server/index.js:22-77 | the result is the decoded span from the reply's first `{` to its last `}` exactly when the model answers with a reply that has such a span, and fails otherwise; the trim before the match makes no difference |
| Server.HandleRecommend | server/index.js:113-155 | 400 exactly when validation fails; 500 exactly for a non-string; otherwise 200, AI-stamped exactly when a key is set and the AI path succeeds, the mock otherwise; timestamp and input always stamped; the provider is called exactly when AI is enabled on a valid request |
| Server.ShortRequestRejected | server/index.js:116 | a request shorter than ten code units is rejected |
| Server.WhitespaceRequestRejected | server/index.js:116 | a whitespace-only request is rejected at any length |
| Server.LongRequestAccepted | server/index.js:116 | a request of ten or more characters after trimming passes validation |
| Server.ProseAroundObjectIsIgnored | server/index.js:62-69 | a reply wrapping the object in brace-free prose decodes as the object alone |
| Server.ReplyWithoutObjectFails | server/index.js:67-72 | a reply without braces makes the AI path fail |
| Conversation.RecommendationContext.constructor | src/context/RecommendationContext.tsx:58-67 | the log starts with the welcome message alone, with no recommendation and not loading |
| Conversation.RecommendationContext.AddMessage | src/context/RecommendationContext.tsx:69-76 | appends one message with the given id and time, and changes nothing else |
| Conversation.RecommendationContext.SetCurrentRecommendation | src/context/RecommendationContext.tsx:66 | sets the slot and changes nothing else |
| Conversation.RecommendationContext.SetIsLoading | src/context/RecommendationContext.tsx:67 | sets the flag and changes nothing else |
| Conversation.ReplyText | src/components/ChatInterface.tsx:60-62 | the AI text exactly when `isAI` is true, the framework text otherwise |
| Conversation.Reply | src/components/ChatInterface.tsx:59-78 | the assistant message carries the recommendation and its text on success, and the apology without a recommendation on failure |
| Conversation.ChatInterface.constructor | src/components/ChatInterface.tsx:18-20 | empty input, not typing, no error |
| Conversation.ChatInterface.HandleSuggestedQuery | src/components/ChatInterface.tsx:33-35 | a suggestion fills the input and sends nothing |
| Conversation.ChatInterface.Submit | src/components/ChatInterface.tsx:37-50 | proceeds exactly when the trimmed input is non-empty and nothing is loading; then it logs the trimmed text, clears the input and error, and raises both flags; otherwise it changes nothing |
| Conversation.ChatInterface.Complete | src/components/ChatInterface.tsx:52-81 | appends the reply; sets the current recommendation on success and the error on failure; clears both flags |
| Conversation.ChatInterface.HandleSubmit | src/components/ChatInterface.tsx:37-82 | an accepted submission adds exactly the user's message and the reply, and hides the suggestions; a refused one changes nothing |
| Conversation.NewChatShowsSuggestions | src/components/ChatInterface.tsx:254 | a fresh chat shows the suggested queries |
| Conversation.VisibleStartSurvivesTrim | src/components/ChatInterface.tsx:39 | text starting with a visible character passes the emptiness test |
| Conversation.SuggestedQueriesAreSubmittable | src/components/ChatInterface.tsx:10-15 | every suggested query passes the submit guard's emptiness test |
| Allocation.Positives | src/components/Dashboard.tsx:110 | `filter(v > 0)` keeps only rows of positive value |
| Allocation.RankedBy | src/components/Dashboard.tsx:127-129 | the positive rows, as many as there are, largest first |
| Allocation.RankedMultiset | src/components/Dashboard.tsx:127-129 | ranking keeps each positive row as often as it occurs, and drops the rest |
| Allocation.RankedStable | src/components/Dashboard.tsx:129 | rows of equal positive value keep their order |
| Allocation.PositiveCount | src/components/Dashboard.tsx:110 | at most six classes are positive |
| Allocation.RationaleWithAllocation | src/components/Dashboard.tsx:492-496 | only rationales whose asset is allocated are shown |
| Allocation.RationaleWithAllocationKeepsOrder | src/components/Dashboard.tsx:492-496 | two allocated rationales are both shown, in their original order |
| Allocation.RationaleWithAllocationMember | src/components/Dashboard.tsx:492-496 | a rationale is shown exactly when it is in the rationale and its asset is allocated |
| Allocation.RankedCommutesWithMap | src/components/charts/DiversificationRadar.tsx:92-94 | ranking rows after a value-preserving map equals mapping the ranked rows |
| RiskMeter.RiskLevel | src/components/charts/RiskMeter.tsx:10-35 | low up to 3, moderate up to 6, high above, each as an if-and-only-if |
| RiskMeter.RiskLevelMonotone | src/components/charts/RiskMeter.tsx:10-35 | a higher score never gets a lower band |
| RiskMeter.NormalizedScore | src/components/charts/RiskMeter.tsx:41 | clamps to [0, 10] and keeps scores already inside |
| RiskMeter.Angle | src/components/charts/RiskMeter.tsx:42 | the needle angle stays within [0, 180] |
| RiskMeter.AngleMonotone | src/components/charts/RiskMeter.tsx:41-42 | a higher score never moves the needle back |
| RiskMeter.Ceil | src/components/charts/RiskMeter.tsx:162 | `Math.ceil` is the least integer not below its argument |
| RiskMeter.Lit | src/components/charts/RiskMeter.tsx:155-162 | bar i is lit exactly when i is at most the threshold |
| RiskMeter.LitCount | src/components/charts/RiskMeter.tsx:155-162 | the number of lit bars is the threshold clamped to 0..5 |
| RiskMeter.LiquidityThreshold | src/components/charts/RiskMeter.tsx:194 | the liquidity threshold is at least 1 |
| RiskMeter.VolatilityCoversMarket | src/components/charts/RiskMeter.tsx:155-178 | the volatility row lights at least as many bars as the market row, and its threshold is at most one more |
| RiskMeter.LiquidityAlwaysLit | src/components/charts/RiskMeter.tsx:187-194 | the first liquidity bar is always lit |
| RiskMeter.MarketAndLiquidityComplement | src/components/charts/RiskMeter.tsx:155-194 | on scores in (0, 10] the market and liquidity rows light 6 bars between them |
| Dashboard.RiskLevelOf | src/components/Dashboard.tsx:179-184 | conservative up to 3, moderate up to 6, aggressive up to 8, very aggressive above, each as an if-and-only-if |
| Dashboard.RiskLevelMonotone | src/components/Dashboard.tsx:179-184 | a higher score never gets a lower level |
| Dashboard.DiversificationQualityOf | src/components/Dashboard.tsx:186-191 | the 80/70/60 cut-points, each as an if-and-only-if |
| Dashboard.TenPointScoresNeedImprovement | src/components/Dashboard.tsx:163 | every score on the 1-10 scale the server produces reads "Needs Improvement" |
| Dashboard.RiskReturnProfileIsHigherStep | src/components/Dashboard.tsx:193-198 | the profile is the higher of the risk step and the return step |
| Dashboard.MissingReturnIsAggressive | src/components/Dashboard.tsx:164 | without a five-year projection the profile is always "Aggressive Growth" |
| Dashboard.ReviewPeriod | src/components/Dashboard.tsx:200-204 | 12 months exactly for conservative, 6 for moderate, 3 for the rest |
| Dashboard.ReviewPeriodNonIncreasing | src/components/Dashboard.tsx:200-204 | more risk never lengthens the review period |
| Dashboard.Round | src/components/Dashboard.tsx:131 | `Math.round` returns the nearest integer, with halves rounded up |
| Dashboard.ReportAllocations | src/components/Dashboard.tsx:127-134 | line i is the i-th ranked allocation, with the asset upper-cased and its percentage; one line per positive class, largest first; bars are the nearest integer to percentage/5 |
| Dashboard.AssetCount | src/components/Dashboard.tsx:282-284 | counts the positive classes: as many as the ranked allocation has entries, at most six |
| Dashboard.ShareTopAllocations | src/components/Dashboard.tsx:222-227 | at most three positive entries, largest first: a prefix of the ranking |
| Dashboard.ShareTopAllocationsAreLargest | src/components/Dashboard.tsx:222-225 | no entry left out of the share text is larger than one included |
| Dashboard.ShareExpectedReturn | src/components/Dashboard.tsx:229 | N/A exactly when the five-year horizon is missing or its expected return is 0 |
| Dashboard.PositiveKeyCountIsAssetCount | src/components/Dashboard.tsx:240 | counting keys by lookup gives the dashboard's asset count |
| Dashboard.ReportProjections | src/components/Dashboard.tsx:142-149 | one line per horizon in the record's own order, unsorted. The label is the key with its first `year` replaced by ` Year`, and the three figures are copied |
| Dashboard.ReportPeriodLabel | src/components/Dashboard.tsx:146 | a key made of digits followed by `year` is printed as the digits followed by ` Year` |
| Dashboard.MockReadsUndefinedRisks | src/components/Dashboard.tsx:136-140 | for the mock, the report and the share text find no market-volatility or inflation-protection text ("undefined"), and the report shows the mock's liquidity text |
| Dashboard.ReportCountsItsLines | src/components/Dashboard.tsx:107-134 | the report's total equals the number of allocation lines it prints |
| Dashboard.ExportReport | src/components/Dashboard.tsx:21-28 | there is a report exactly when there is a current recommendation |
| Dashboard.SharePortfolio | src/components/Dashboard.tsx:69-76 | there is a share text exactly when there is a current recommendation |
| Dashboard.ShareAgreesWithReport | src/components/Dashboard.tsx:221-243 | the share text has the report's risk level and asset count, and its top entries lead the report's list |
| RecommendationCard.PortfolioValue | src/components/RecommendationCard.tsx:49-51 | each class reads as its value, an unset optional class and any other key as 0 |
| RecommendationCard.PortfolioValuePositive | src/components/RecommendationCard.tsx:459 | the card's rationale test agrees with the dashboard's |
| RecommendationCard.AssetName | src/components/RecommendationCard.tsx:62-69 | a class gets a non-empty name, and any other key is shown as it is |
| RecommendationCard.AssetNamesDistinct | src/components/RecommendationCard.tsx:62-69 | no two classes share a name |
| RecommendationCard.RiskColor | src/components/RecommendationCard.tsx:71-75 | green up to 3, yellow up to 6, red above, each as an if-and-only-if |
| RecommendationCard.RiskBadgeOf | src/components/RecommendationCard.tsx:77-93 | Conservative, Balanced and Aggressive on the same cut-points |
| RecommendationCard.RiskBadgeMatchesColour | src/components/RecommendationCard.tsx:71-93 | the badge tone is the risk colour, and both follow the gauge's bands |
| RecommendationCard.AllocationList | src/components/RecommendationCard.tsx:231-234 | row i is the i-th ranked allocation under its display name; one row per positive class, largest first |
| RecommendationCard.AllocationListMatchesReport | src/components/RecommendationCard.tsx:231-234 | the card lists the report's percentages in the report's order |
| RecommendationCard.RationaleSummary | src/components/RecommendationCard.tsx:458-461 | the first two shown rationales, or all of them when there are fewer |
| RecommendationCard.ExplainedCountIsShown | src/components/RecommendationCard.tsx:474 | the key count equals the number of rationales the dashboard lists |
| RecommendationCard.SummaryAndMoreCoverAll | src/components/RecommendationCard.tsx:474-478 | the note appears exactly when more than two qualify, and the summary plus the note count every one |
| GrowthProjection.HorizonRank | src/components/charts/GrowthProjectionChart.tsx:17-20 | ranks 1-5; rank 4 exactly for 10year; rank 5 exactly for unknown horizons |
| GrowthProjection.SortedHorizons | src/components/charts/GrowthProjectionChart.tsx:16-20 | a permutation of the horizons, with ranks that never decrease |
| GrowthProjection.SortedHorizonsStable | src/components/charts/GrowthProjectionChart.tsx:17-20 | horizons of equal rank keep their order |
| GrowthProjection.ChartRows | src/components/charts/GrowthProjectionChart.tsx:21-27 | one row per horizon in sorted order. The label is the key with its first `year` replaced by `Y`. The figures are copied, and range = optimistic - conservative |
| GrowthProjection.PeriodLabel | src/components/charts/GrowthProjectionChart.tsx:22 | a key made of digits followed by `year` is labelled with the digits followed by `Y` |
| GrowthProjection.QuickStatsOf | src/components/charts/GrowthProjectionChart.tsx:141-156 | the last row's figures, or zeros without rows |
| GrowthProjection.TenYearSortsLast | src/components/charts/GrowthProjectionChart.tsx:17-20 | with known horizons including 10year, 10year sorts last |
| GrowthProjection.QuickStatsAreTenYear | src/components/charts/GrowthProjectionChart.tsx:141-146 | then the "10-Year" tiles show the ten-year figures |
| GrowthProjection.UnknownHorizonTakesTheTiles | src/components/charts/GrowthProjectionChart.tsx:17-20 | any unknown horizon sorts last and takes the tiles |
| DiversificationRadar.RadarData | src/components/charts/DiversificationRadar.tsx:11-17 | six points, each with a full mark of 100 |
| DiversificationRadar.RadarRequiredValues | src/components/charts/DiversificationRadar.tsx:15 | stocks, bonds and etfs are drawn at their values |
| DiversificationRadar.RadarOptionalValues | src/components/charts/DiversificationRadar.tsx:15 | an unset optional class is drawn at 0 |
| DiversificationRadar.RadarLabels | src/components/charts/DiversificationRadar.tsx:14 | each point's label is its key with the first letter capitalised. The labels are Stocks, Bonds, Etfs, Crypto, Reits and Commodities, so ETFs and REITs are spelt unlike in the other components |
| DiversificationRadar.LevelOf | src/components/charts/DiversificationRadar.tsx:19-24 | the 8/6/4 cut-points, each as an if-and-only-if |
| DiversificationRadar.ExactlyOneTip | src/components/charts/DiversificationRadar.tsx:114-125 | exactly one conditional tip shows, the one for the level |
| DiversificationRadar.Breakdown | src/components/charts/DiversificationRadar.tsx:92-94 | positive points only, largest first |
| DiversificationRadar.BreakdownMatchesAllocations | src/components/charts/DiversificationRadar.tsx:92-94 | the breakdown is the ranked allocation, item for item |
| DiversificationRadar.PositivePointsAgree | src/components/charts/DiversificationRadar.tsx:13-17 | the radar's positive points are the portfolio's positive entries |
| PortfolioPieChart.SliceColour | src/components/charts/PortfolioPieChart.tsx:10-17 | an unknown key gets the fallback grey |
| PortfolioPieChart.SliceName | src/components/charts/PortfolioPieChart.tsx:19-26 | an unknown key is capitalised |
| PortfolioPieChart.SliceColoursDistinct | src/components/charts/PortfolioPieChart.tsx:10-17 | each class has its own colour, and none is the fallback |
| PortfolioPieChart.ChartData | src/components/charts/PortfolioPieChart.tsx:28-36 | one slice per positive class, largest first, each slice's percentage equal to its value |
| PortfolioPieChart.ChartDataMatchesAllocations | src/components/charts/PortfolioPieChart.tsx:28-36 | the slices are the ranked allocation, item for item |
| PortfolioPieChart.LabelShownIff | src/components/charts/PortfolioPieChart.tsx:57 | a slice is labelled exactly when it is at least a twentieth of the pie |

## Left out

- The Gemini SDK, `JSON.parse` and axios are parameters (`generate`, `decode`, the `Transport` value). Their own behaviour, the 30-second timeout and the logging interceptors are not modelled.
- Express routing, CORS, `listen`, the `/api/health` route and the client's `checkAPIHealth` are plumbing without logic of their own.
- The `details` field of the 500 body carries an exception message and is not modelled.
- Clocks and random ids (`new Date()`, `Math.random`) are parameters.
- The text layout of the report and the share text is not modelled. This covers padding, the bar characters, the headings, the number formatting and the dates. The `Report` and `ShareText` datatypes hold every value the two texts interpolate, except those dates. The report's values include its three risk-assessment texts and its return projections. The share text's include its two risk-assessment bullets. A missing risk-assessment key is `None`, which the texts print as "undefined".
- The blobs, downloads, clipboard, `navigator.share`, toasts and timers of export and share are browser I/O.
- The JSON export's round trip depends on `JSON.stringify`/`JSON.parse` and is not modelled.
- Chart geometry (needle trigonometry, label positions) and `toFixed` are not modelled.
- JSX, animations, theme shades, `TypingIndicator`, `Toast`, `Header` and `App` render state and compute nothing.
- React batches state updates; each setter is modelled as an immediate assignment.
- Numbers are reals: NaN, infinities and non-number JSON values are not modelled.
- `toUpperCase` is modelled for ASCII letters only.
- Keys inherited from `Object.prototype` are not modelled.
- A decoded reply that lacks some of the record's fields cannot be represented, because `Recommendation` always has every field. The source would stamp such an object and return it (server/index.js:126-145). The client's `apiResponse.portfolio.stocks` would then throw, and the user would see "An unexpected error occurred" (src/services/api.ts:60-64, 93). The model's `decode` either yields a complete record or fails, and failing sends the request to the mock.
- `ErrorResponse` always carries an optional `error` text, so a 400 response with a `null` body cannot be represented. In the source, reading `error.response.data.error` would then throw a `TypeError` inside the `catch` (src/services/api.ts:88), and the caller would get that instead of "Invalid request".
- Duplicate keys in a decoded JSON object are not modelled. Lookups return the first match, and the client portfolio's keys are distinct.
- Schema.Entries: an optional class whose value is `undefined` is left out of the entries. Every display either keeps entries above 0 or reads them with `|| 0`, so nothing shown changes.
- `portfolioToChartData` copies every entry unchanged, so the charts are given the portfolio's entries directly.
