# aiggXBT chat actions and market client in Dafny

This project models the decision and state logic of three chat-agent actions of aiggXBT, and the URL builder of its market API client:

- **analyze-market** (`AnalyzeMarket`, `MarketIdPattern`). The validator has two branches: a follow-up cue with stored market data, or a market id found by `/market.*?(\d+)/i`. The handler extracts the id, fetches the market, builds the analysis reply and only then writes `lastAction`, `currentMarketId` and `marketData` into the caller's state object. Every failing step is answered with the `MARKET_ANALYSIS_ERROR` reply and leaves the state alone.
- **show-market-data** (`ShowMarketData`). The validator needs a trigger word and stored market data. The handler projects the stored data into a reply, or gives the guidance reply when nothing is stored.
- **get-insights** (`GetInsights`). The validator checks for truthy text. `max_loops || 1` picks the loop count. The handler formats the service's analysis and sources, calls the host's callback with the reply and returns the success flag. A callback that throws inside the `try` is called a second time, from the `catch`, with the failure text.
- **market client** (`AiggClient`, `FormUrlencoded`). `getMarkets` appends `active`, `include_closed` and `limit`, each only when defined, to a `URLSearchParams`. It serializes them with the application/x-www-form-urlencoded serializer of the WHATWG URL Standard, section 5.2, into `/markets?…`. `getMarket` fetches `/markets/{id}`. A non-ok response becomes the thrown `API request failed: …` error.
- **the handshake** (`Handshake`). The two market actions together form a two-phase protocol, `Idle` and `HasSnapshot`.

Some building blocks stand in for the JavaScript runtime:

- A thrown error is `Err(message)` of `Js.Result`, and a missing property is `None`.
- `fetch` is a function parameter.
- `JSON.parse`, `parseFloat`, `toFixed`, `toLocaleString` and the date formatters are fields of the `Js.Builtins` record.
- The host's state object is the class `MarketSession.MarketState`.
- The callback is the class `GetInsights.Callback`, which records the texts it is called with and throws whatever its `reject` function names for a text.
- The insights service is the class `GetInsights.InsightsService`, which records each request and answers with its `respond` function.

`Strings` holds the string operations the source uses: ASCII `toLowerCase`, `includes`, `join`, `split`, `trim`, and integer `toString` with its inverse.

The stored market data has two shapes:

- analyze-market stores a flat record, `MarketSession.Snapshot` (analyzeMarket.ts:180-188);
- show-market-data casts it to a nested reply envelope, `MarketSession.Envelope`, and reads `content.data.analysis` (showMarketData.ts:6-23, 111-117).

`ShowMarketData.Handler` therefore requires the envelope shape. `Handshake.SnapshotIsNotEnvelope` proves that the state a successful analysis leaves behind never has it. So on the real handshake, the show handler's success path reads data it cannot read.

## Model

| member | source | states |
|---|---|---|
| Js.TextOf | packages/plugin-aigg/src/actions/analyzeMarket.ts:128 | `message.content?.text` is present exactly when both the content and its text are present, and is then that text |
| MarketIdPattern.FirstDigitOnLine | packages/plugin-aigg/src/actions/analyzeMarket.ts:104 | the lazy `.*?` then one `\d`: the first digit at or after a position with no line terminator before it; None exactly when no digit on that line follows |
| MarketIdPattern.DigitRunEnd | packages/plugin-aigg/src/actions/analyzeMarket.ts:128 | the greedy `(\d+)`: every character up to the result is a digit and the one at the result is not (or the text ends) |
| MarketIdPattern.FindFrom | packages/plugin-aigg/src/actions/analyzeMarket.ts:128 | the engine's scan from a start position: a found match is the leftmost keyword that reaches a digit, with the nearest such digit; None means no later keyword reaches any digit |
| MarketIdPattern.Find | packages/plugin-aigg/src/actions/analyzeMarket.ts:128 | a found match is the first match of `/market.*?(\d+)/i` by its declarative description; there is none exactly when no case-insensitive `market` has a digit after it on the same line |
| MarketIdPattern.FirstMatchUnique | packages/plugin-aigg/src/actions/analyzeMarket.ts:128 | the first-match description has at most one solution, so the scan's answer is the engine's answer |
| MarketIdPattern.Test | packages/plugin-aigg/src/actions/analyzeMarket.ts:104 | the pattern tests true exactly when some case-insensitive `market` reaches a digit on its own line |
| MarketIdPattern.MarketId | packages/plugin-aigg/src/actions/analyzeMarket.ts:128-133 | the captured id exists exactly when the pattern tests true, and is a non-empty run of decimal digits |
| MarketIdPattern.MarketIdFollowsKeyword | packages/plugin-aigg/src/actions/analyzeMarket.ts:128-133 | the id occurs in the text at a digit that a `market` keyword reaches on its own line |
| MarketIdPattern.MatchImpliesKeyword | packages/plugin-aigg/src/actions/analyzeMarket.ts:103-111 | a pattern match implies that the lower-cased text includes "market", so the keyword test never changes the verdict |
| MarketIdPattern.NoDigitNoMatch | packages/plugin-aigg/src/actions/analyzeMarket.ts:128-131 | a text with no decimal digit yields no id |
| AnalyzeMarket.Validate | packages/plugin-aigg/src/actions/analyzeMarket.ts:87-116 | an accepted message has text, and a follow-up cue with stored market data after an analysis is always accepted |
| AnalyzeMarket.ValidateAccepts | packages/plugin-aigg/src/actions/analyzeMarket.ts:87-116 | validate is true iff the text is present and either the follow-up branch holds (last action `analyze_market`, market data stored, a cue "numbers"/"data"/"give me") or the pattern finds an id; a missing text gives false, never a throw |
| AnalyzeMarket.DecodeList | packages/plugin-aigg/src/actions/analyzeMarket.ts:144-145 | an array field is taken as is; a string field is whatever `JSON.parse` makes of it, error included |
| AnalyzeMarket.AnalyzeRecord | packages/plugin-aigg/src/actions/analyzeMarket.ts:144-161 | succeeds iff both list fields decode, and otherwise fails with the error of the first list that does not; on success the analysis carries the record's question, volume, end date and update time, the decoded outcomes and prices and `parseFloat(prices[0]) * 100` as probability, and the reply text is the analysis template for them |
| AnalyzeMarket.AnalysisText | packages/plugin-aigg/src/actions/analyzeMarket.ts:148-161 | the text opens with `Eyy, here's what I got on market #` and the id, and holds the two outcome lines, the second with `100 - probability` |
| AnalyzeMarket.EncodedListsAsNative | packages/plugin-aigg/src/actions/analyzeMarket.ts:144-145 | list fields given as JSON strings that parse to xs give the same analysis, reply text included, as the arrays xs |
| AnalyzeMarket.Analyze | packages/plugin-aigg/src/actions/analyzeMarket.ts:125-161 | a missing text fails with the TypeError; no id fails with "No valid market ID found in request"; for the captured id, the fetch of `/markets/{id}` decides the rest: a thrown error is passed on, a body that is not an object fails with "Failed to fetch market data for ID " and the id, and a market record gives that record's analysis |
| AnalyzeMarket.ErrorReply | packages/plugin-aigg/src/actions/analyzeMarket.ts:216-225 | the error reply is a failure with code `MARKET_ANALYSIS_ERROR` |
| AnalyzeMarket.ReplyOf | packages/plugin-aigg/src/actions/analyzeMarket.ts:191-225 | the reply succeeds iff the steps succeeded; it carries the id, the snapshot and the analysis text, or else the apology text with the error code and the thrown message |
| AnalyzeMarket.AfterAnalyze | packages/plugin-aigg/src/actions/analyzeMarket.ts:178-188 | a failed reply leaves the session as it was; a successful one sets `lastAction` to `analyze_market`, `currentMarketId` to the id and `marketData` to the flat snapshot that the reply returns |
| AnalyzeMarket.Handler | packages/plugin-aigg/src/actions/analyzeMarket.ts:118-227 | the handler never throws: its reply is the reply of the pure analysis, and a caller's state object ends as that reply's state transition of its old contents |
| MarketSession.MarketState.constructor | packages/plugin-aigg/src/actions/analyzeMarket.ts:121 | the state object holds exactly the given three keys |
| MarketSession.ViewOf | packages/plugin-aigg/src/actions/showMarketData.ts:100 | a state value exists exactly when the caller passed a state object, and holds that object's three keys |
| ShowMarketData.Validate | packages/plugin-aigg/src/actions/showMarketData.ts:71-89 | the validator throws exactly when the message has no text |
| ShowMarketData.ValidateAccepts | packages/plugin-aigg/src/actions/showMarketData.ts:71-89 | for a present text, the validator is true iff the lower-cased text includes "numbers", "data" or "stats" and market data is stored; it is false without a state |
| ShowMarketData.ValidateIgnoresLastAction | packages/plugin-aigg/src/actions/showMarketData.ts:88 | the last action recorded in the state does not affect the verdict |
| ShowMarketData.Handler | packages/plugin-aigg/src/actions/showMarketData.ts:98-119 | given envelope-shaped data, success holds iff market data is stored; without it the reply is the fixed guidance with `success: false`; with it `content.data` is exactly the stored `content.data` and the text is the raw-data template of the stored analysis |
| ShowMarketData.HandlerReadsOnlyMarketData | packages/plugin-aigg/src/actions/showMarketData.ts:98-119 | two states with the same market data get the same reply, so the handler reads nothing else |
| ShowMarketData.RawDataText | packages/plugin-aigg/src/actions/showMarketData.ts:110-117 | the text opens with the `Raw Market Data:` line and the `Question: ` line of the stored question |
| ShowMarketData.RenderedPairs | packages/plugin-aigg/src/actions/showMarketData.ts:114-115 | the reply text contains the outcomes and then the prices, each in stored order and joined by " vs " |
| ShowMarketData.ExamplePairLines | packages/plugin-aigg/src/actions/showMarketData.ts:61-62 | the description's example market renders as `Yes vs No` and `0.655 vs 0.345` |
| GetInsights.Validate | packages/plugin-insights/src/actions/getInsights.ts:35-37 | an accepted message has text |
| GetInsights.ValidateCases | packages/plugin-insights/__tests__/actions/getInsights.test.ts:38-46 | a message with text is accepted iff the text is non-empty; a missing content or a content without text is rejected |
| GetInsights.MaxLoops | packages/plugin-insights/src/actions/getInsights.ts:49 | the loop count is always truthy: the option itself when truthy, otherwise 1 |
| GetInsights.MaxLoopsNumbers | packages/plugin-insights/src/actions/getInsights.ts:49 | zero and undefined become 1, and every other number, negatives and fractions included, passes unclamped |
| GetInsights.Bullets | packages/plugin-insights/src/actions/getInsights.ts:59 | one `- source` line per source, in order |
| GetInsights.Heading | packages/plugin-insights/src/actions/getInsights.ts:55-58 | the heading starts with `A` and ends with `:`, so trimming stops at it on both sides |
| GetInsights.TrimTemplate | packages/plugin-insights/src/actions/getInsights.ts:55-60 | trimming the template removes its opening line feed and its closing indentation, and nothing inside the heading |
| GetInsights.FormatResponse | packages/plugin-insights/src/actions/getInsights.ts:55-60 | the reply is `Analysis: <analysis>`, a blank line and `Sources:`, followed by the source lines with trailing white space removed |
| GetInsights.FormatPlain | packages/plugin-insights/src/actions/getInsights.ts:55-60 | when the last source does not end in white space, the reply is exactly the heading followed by a line feed and the `- source` lines joined by line feeds |
| GetInsights.FormatNoSources | packages/plugin-insights/src/actions/getInsights.ts:55-60 | with no sources the reply ends at `Sources:` |
| GetInsights.HeadingOccurs | packages/plugin-insights/src/actions/getInsights.ts:56 | the analysis sits right after `Analysis: ` in the heading, whatever follows it |
| GetInsights.FormatContainsAnalysis | packages/plugin-insights/__tests__/actions/getInsights.test.ts:60-62 | the reply contains the analysis whole, right after `Analysis: ` |
| GetInsights.SourceLines | packages/plugin-insights/src/actions/getInsights.ts:59 | for sources without line feeds, splitting the source block on line feeds gives back the `- source` lines |
| GetInsights.InsightsService.GetInsights | packages/plugin-insights/src/actions/getInsights.ts:52 | the service records the topic and loop count it is asked with, and answers with its response to them |
| GetInsights.Callback.Call | packages/plugin-insights/src/actions/getInsights.ts:62-64 | a call appends its text to the callback's record and throws exactly what the callback's `reject` names for that text |
| GetInsights.Outcome | packages/plugin-insights/src/actions/getInsights.ts:52 | a message without content fails with the TypeError of reading `text`; otherwise the outcome is the service's answer to `message.content.text` and the loop count |
| GetInsights.ReplyText | packages/plugin-insights/src/actions/getInsights.ts:55-72 | a success is answered with the formatted analysis and sources; a failure with "Failed to get insights: " and the error message |
| GetInsights.ReplyTellsOutcome | packages/plugin-insights/src/actions/getInsights.ts:55-72 | a success reply starts with `A` and a failure reply starts with the failure prefix, so the callback's text tells the two paths apart |
| GetInsights.Caught | packages/plugin-insights/src/actions/getInsights.ts:67-72 | the catch block adds the failure text to the calls; it returns false exactly when that call does not throw, and never returns true |
| GetInsights.RunOf | packages/plugin-insights/src/actions/getInsights.ts:51-72 | the try/catch calls the callback once or twice, first with the reply for the outcome, and returns true only when the service succeeded |
| GetInsights.CallbackDiscipline | packages/plugin-insights/src/actions/getInsights.ts:51-72 | the callback is called once or twice, first with the reply for the service's outcome; the result is true exactly when the service succeeded and that call did not throw; a second call happens exactly when the success reply threw, and carries the failure text of the thrown error |
| GetInsights.CallbackOnce | packages/plugin-insights/src/actions/getInsights.ts:51-72 | a callback that does not throw on the reply is called exactly once, and the result is true exactly on the service's success |
| GetInsights.Handler | packages/plugin-insights/src/actions/getInsights.ts:39-73 | the callback receives exactly the texts of the try/catch run for the service's outcome and the handler returns that run's result (a throw from the catch block escapes); the service is asked once, with topic `message.content.text` and the defaulted loop count, exactly when the message has content |
| AiggClient.Settle | packages/plugin-aigg/src/client.ts:26-34 | an ok response returns its parsed body; a non-ok response throws "API request failed: " and the status text; a rejected fetch's error is rethrown unchanged |
| AiggClient.QueryTuples | packages/plugin-aigg/src/client.ts:19-22 | at most three parameters, each named `active`, `include_closed` or `limit` |
| AiggClient.QueryTuplesShape | packages/plugin-aigg/src/client.ts:19-22 | a parameter appears exactly when its field is defined, in the order `active`, `include_closed`, `limit`, with `true`/`false` or the decimal digits of the limit |
| AiggClient.IntToStringUnreserved | packages/plugin-aigg/src/client.ts:22 | the decimal string of the limit needs no percent-encoding |
| AiggClient.QueryTuplesUnreserved | packages/plugin-aigg/src/client.ts:20-22 | every name and value of the query needs no percent-encoding |
| AiggClient.FilterOfQueryTuples | packages/plugin-aigg/src/client.ts:19-22 | reading the query tuples back by name recovers the filter, undefined fields included |
| AiggClient.QueryRoundTrip | packages/plugin-aigg/src/client.ts:19-24 | the query string is exactly the `name=value` entries joined by `&`, with no character encoded, and parsing it back gives the tuples and the filter |
| AiggClient.MarketsUrl | packages/plugin-aigg/src/client.ts:24 | the list URL is the base, `/markets?`, and a query that parses back to the filter's tuples |
| AiggClient.MarketUrl | packages/plugin-aigg/src/client.ts:39 | the market URL is the base, `/markets/`, and the id unchanged |
| AiggClient.UnfilteredUrl | packages/plugin-aigg/src/client.ts:24 | with no filter the list URL still ends in `/markets?` |
| AiggClient.SearchParams.constructor | packages/plugin-aigg/src/client.ts:19 | a new parameter list is empty |
| AiggClient.SearchParams.Append | packages/plugin-aigg/src/client.ts:20-22 | `append` adds its tuple at the end and keeps the rest |
| AiggClient.AIGGClient.constructor | packages/plugin-aigg/src/client.ts:8-11 | the base URL is the configured one, fixed for the client's life |
| AiggClient.AIGGClient.GetMarkets | packages/plugin-aigg/src/client.ts:13-35 | the result is the settled response of a fetch of `baseUrl + "/markets?" +` the serialized filter tuples |
| AiggClient.AIGGClient.GetMarket | packages/plugin-aigg/src/client.ts:37-50 | the result is the settled response of a fetch of `baseUrl + "/markets/" + marketId` |
| FormUrlencoded.EncodeChar | packages/plugin-aigg/src/client.ts:24 | an unreserved code point is kept as is, and no encoded code point yields `&` or `=` |
| FormUrlencoded.Encode | packages/plugin-aigg/src/client.ts:24 | an encoded name or value contains neither `&` nor `=` |
| FormUrlencoded.EncodeUnreserved | packages/plugin-aigg/src/client.ts:24 | percent-encoding leaves text of unreserved code points unchanged |
| FormUrlencoded.Serialize | packages/plugin-aigg/src/client.ts:24 | splitting a serialized tuple list gives every tuple back, in order, in encoded form |
| FormUrlencoded.SerializeUnreserved | packages/plugin-aigg/src/client.ts:24 | for unreserved names and values, the serialized list is the plain `name=value` join and splitting it gives exactly the tuples |
| Strings.ParseIntToString | packages/plugin-aigg/src/client.ts:22 | reading back the decimal string of any integer gives that integer |
| Strings.SplitJoin | packages/plugin-insights/src/actions/getInsights.ts:59 | joining pieces with a separator none of them contains and splitting again gives the pieces |
| Strings.FirstLine | packages/plugin-aigg/src/actions/analyzeMarket.ts:159 | `split('\n')[0]` is the prefix before the first line feed |
| Strings.TrimEndAfter | packages/plugin-insights/src/actions/getInsights.ts:60 | trimming the end removes nothing before the last non-space character |
| Handshake.PhaseOf | packages/plugin-aigg/src/actions/showMarketData.ts:100 | the phase is `HasSnapshot` exactly when market data is stored |
| Handshake.AnalyzeMovesPhase | packages/plugin-aigg/src/actions/analyzeMarket.ts:178-188 | a failed analysis keeps the phase; a successful one moves to `HasSnapshot` from either phase |
| Handshake.ShowAcceptsAfterAnalyze | packages/plugin-aigg/src/actions/showMarketData.ts:71-89 | after a successful analysis the show validator accepts any text mentioning "numbers" |
| Handshake.SnapshotIsNotEnvelope | packages/plugin-aigg/src/actions/showMarketData.ts:6-23 | the state a successful analysis leaves holds market data that is not in the envelope shape the show handler reads |
| Handshake.AnalyzeThenShowShape | packages/plugin-aigg/src/actions/analyzeMarket.ts:180-188 | running the analyze handler on a state object leaves it unreadable for the show handler whenever the analysis succeeds, and unchanged when it fails; without a state object the show handler can be called |
| Handshake.FollowUpWithoutIdFails | packages/plugin-aigg/src/actions/analyzeMarket.ts:90-131 | a follow-up in which the pattern finds no id (any text without digits, or one like "give me the numbers for 2024") passes the analyze validator, yet the handler re-matches the text, answers with the no-id error and leaves the state unchanged |

## Left out

- Network, JSON, numbers and dates are parameters. `fetch`, `response.json()`, `JSON.parse`, `parseFloat`, `toFixed(1)`, `toLocaleString()` and the date formatters are opaque; float arithmetic is `real`, without rounding. NaN and infinities are not modelled, so `max_loops` set to NaN (falsy, hence 1) is not a case of `GetInsights.MaxLoops`.
- `toLowerCase` folds ASCII letters only; other case mappings are not modelled.
- Error messages: the TypeErrors of reading a property of `undefined` use V8's wording. Values that are present but of the wrong type (a non-string text, a non-array list) are not modelled.
- Missing or wrongly typed fields of a fetched market record are not modelled. The record always has every field the handler reads.
- AnalyzeMarket.AnalysisText, ShowMarketData.RawDataText: these templates state their opening lines and (for the analysis) the outcome lines; the remaining lines are the templates themselves, with the number and date formatting left to `Js.Builtins`.
- The configuration that `new AIGGClient()` reads (environment.ts, a zod schema over the process environment) is not part of this model. The base URL is a constructor parameter, and a configuration error inside the analyze handler is not modelled.
- AIGGService.ts and InsightsService.ts are not part of this model. Their lazily created singletons are not modelled: `getInstance` would return the same object on every call. The insights service is a recorded `respond` function.
- Plugin registration (both index.ts files) is static data. It is not modelled; the aigg plugin registers only the analyze action (packages/plugin-aigg/src/index.ts:8).
- The `similes`, `examples` and descriptions of the actions are static data. This includes the misspelt `esndDate` key in the analyze action's example.
- Logging calls are left out.
- `async`/`await`: each handler is straight-line code.
- GetInsights.Handler: reading `options.max_loops` throws when `options` is undefined, outside the handler's `try`. The model takes `options.max_loops` as the parameter, so that rejection is not modelled. Nor is a thrown value without a `message` property, which would give "Failed to get insights: undefined". A service result without `sources` (where `result.sources.map` throws a TypeError into the `catch`) is not modelled: the service's answer always has a source list.
- AiggClient.QueryTuples: `limit` is a safe integer (at most 2^53 - 1 in magnitude), the range where `toString` prints plain decimal digits. Larger numbers, which print rounded or in exponent form, and non-integers are not modelled.
- FormUrlencoded.Parse: the parser only splits, with no `+`-to-space step and no percent-decoding. That makes it an inverse only on unreserved names and values, which are the only ones the client sends.
