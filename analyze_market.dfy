/** The analyze-market action: which messages it accepts, how it turns a
    market id in the text into a fetched, formatted analysis, and the three
    state keys it writes once everything that can throw has succeeded. */
module AnalyzeMarket {
  import opened Js
  import opened Strings
  import opened MarketSession
  import MarketIdPattern
  import AiggClient

  const ActionName := "analyze_market"
  const ErrorCode := "MARKET_ANALYSIS_ERROR"
  const ApologyText := "Ay, hit a snag pulling that market data. Give me another shot with the ID."
  const NoIdMessage := "No valid market ID found in request"

  /** A list field of the market record: an array, or a string holding a JSON array. */
  datatype ListField = Native(items: seq<string>) | Encoded(json: string)

  /** The fields of a market record the action reads. */
  datatype MarketRecord = MarketRecord(
    question: string,
    description: string,
    volume24h: real,
    endDate: string,
    outcomes: ListField,
    outcomePrices: ListField,
    lastUpdated: string)

  /** The parsed body of `GET /markets/{id}`: an object, or another JSON value such as null. */
  datatype MarketBody = MarketObject(record: MarketRecord) | NotAnObject

  /** The reply object: its text and its `content`, with `success` true exactly for Succeeded. */
  datatype ReplyContent = Succeeded(marketId: string, analysis: Analysis) | Failed(code: string, message: string)
  datatype Reply = Reply(text: string, content: ReplyContent)

  /** The cue words of a follow-up question, looked for in the lower-cased text. */
  predicate HasFollowUpCue(lowered: string) {
    Contains(lowered, "numbers") || Contains(lowered, "data") || Contains(lowered, "give me")
  }

  /** A follow-up to a market this action analyzed in an earlier turn. */
  predicate IsFollowUp(text: string, state: Option<Session>) {
    && state.Some?
    && state.value.lastAction == Some(ActionName)
    && state.value.marketData.Some?
    && HasFollowUpCue(Lower(text))
  }

  /** The validator. Reading the text of a message without one throws, and the catch turns that into false. */
  function Validate(message: Message, state: Option<Session>): (valid: bool)
    ensures valid ==> TextOf(message).Some?
    ensures TextOf(message).Some? && IsFollowUp(TextOf(message).value, state) ==> valid
  {
    match TextOf(message)
    case None => false
    case Some(text) =>
      if IsFollowUp(text, state) then true
      else Contains(Lower(text), MarketIdPattern.Keyword) && MarketIdPattern.Test(text)
  }

  /** The validator accepts a follow-up, or a text where the pattern finds an id;
      the keyword test it also makes never decides anything. */
  lemma ValidateAccepts(message: Message, state: Option<Session>)
    ensures Validate(message, state) <==>
      TextOf(message).Some? && (IsFollowUp(TextOf(message).value, state) || MarketIdPattern.Test(TextOf(message).value))
  {
    if TextOf(message).Some? && MarketIdPattern.Test(TextOf(message).value) {
      MarketIdPattern.MatchImpliesKeyword(TextOf(message).value);
    }
  }

  /** `typeof field === 'string' ? JSON.parse(field) : field`. */
  function DecodeList(field: ListField, builtins: Builtins): (r: Result<seq<string>>)
    ensures field.Native? ==> r == Ok(field.items)
    ensures field.Encoded? ==> r == builtins.parseJsonList(field.json)
  {
    match field
    case Native(items) => Ok(items)
    case Encoded(json) => builtins.parseJsonList(json)
  }

  /** `xs[i]` as a template literal or parseFloat sees it: "undefined" past the end. */
  function At(xs: seq<string>, i: nat): string {
    if i < |xs| then xs[i] else "undefined"
  }

  function OutcomeLine(outcome: string, percent: real, builtins: Builtins): string {
    "- " + outcome + ": " + builtins.toFixed1(percent) + "%"
  }

  /** The reply text. The two outcome lines show the first outcome's percentage and its
      complement, `100 - probability`, for the second outcome. */
  function AnalysisText(marketId: string, record: MarketRecord, outcomes: seq<string>, probability: real, builtins: Builtins): (text: string)
    ensures Contains(text, OutcomeLine(At(outcomes, 0), probability, builtins) + "\n"
      + OutcomeLine(At(outcomes, 1), 100.0 - probability, builtins))
    ensures OccursAt(text, "Eyy, here's what I got on market #" + marketId, 0)
  {
    var opening := "Eyy, here's what I got on market #" + marketId;
    var head := opening + " \U{1F90C}\n\n" + record.question + "\n\nCurrent Action:\n";
    var lines := OutcomeLine(At(outcomes, 0), probability, builtins) + "\n"
      + OutcomeLine(At(outcomes, 1), 100.0 - probability, builtins);
    var tail := "\n\n"
      + "24h Volume: $" + builtins.toLocaleString(record.volume24h) + "\n"
      + "End Date: " + builtins.toLocaleDateString(record.endDate) + "\n\n"
      + "Quick Take: " + FirstLine(record.description) + "\n\n"
      + "Need any specific angles on these numbers, paisan? \U{1F90C}";
    assert (head + lines + tail)[|head|..|head| + |lines|] == lines;
    assert OccursAt(head + lines + tail, lines, |head|);
    assert (head + lines + tail)[..|opening|] == opening;
    head + lines + tail
  }

  /** A successful analysis: the id, the snapshot and the reply text. */
  datatype Analyzed = Analyzed(marketId: string, analysis: Analysis, text: string)

  /** Everything after the fetch: decoding both lists and building the snapshot. */
  function AnalyzeRecord(marketId: string, record: MarketRecord, builtins: Builtins): (r: Result<Analyzed>)
    ensures r.Ok? <==> DecodeList(record.outcomes, builtins).Ok? && DecodeList(record.outcomePrices, builtins).Ok?
    ensures r.Ok? ==> r.value.marketId == marketId
    ensures r.Ok? ==> r.value.analysis.outcomes == DecodeList(record.outcomes, builtins).value
    ensures r.Ok? ==> r.value.analysis.prices == DecodeList(record.outcomePrices, builtins).value
    ensures r.Ok? ==> r.value.analysis.probability == builtins.parseFloat(At(r.value.analysis.prices, 0)) * 100.0
    ensures r.Ok? ==> r.value.analysis == Analysis(record.question, r.value.analysis.probability, record.volume24h,
      r.value.analysis.outcomes, r.value.analysis.prices, record.endDate, record.lastUpdated)
    ensures r.Ok? ==> r.value.text == AnalysisText(marketId, record, r.value.analysis.outcomes, r.value.analysis.probability, builtins)
    ensures DecodeList(record.outcomes, builtins).Err? ==> r == Err(DecodeList(record.outcomes, builtins).message)
    ensures DecodeList(record.outcomes, builtins).Ok? && DecodeList(record.outcomePrices, builtins).Err? ==>
      r == Err(DecodeList(record.outcomePrices, builtins).message)
  {
    match DecodeList(record.outcomes, builtins)
    case Err(e) => Err(e)
    case Ok(outcomes) =>
      match DecodeList(record.outcomePrices, builtins)
      case Err(e) => Err(e)
      case Ok(prices) =>
        var probability := builtins.parseFloat(At(prices, 0)) * 100.0;
        Ok(Analyzed(
          marketId,
          Analysis(record.question, probability, record.volume24h, outcomes, prices, record.endDate, record.lastUpdated),
          AnalysisText(marketId, record, outcomes, probability, builtins)))
  }

  /** The error `message.content.text.match(…)` throws when the text is missing. */
  function MissingTextError(message: Message): string {
    if message.content.None? then UndefinedPropertyError("text") else UndefinedPropertyError("match")
  }

  /** The handler's steps up to the state write, each of which may throw. */
  function Analyze(baseUrl: string, message: Message, fetch: string -> AiggClient.Response<MarketBody>, builtins: Builtins): (r: Result<Analyzed>)
    ensures TextOf(message).None? ==> r == Err(MissingTextError(message))
    ensures TextOf(message).Some? && MarketIdPattern.MarketId(TextOf(message).value).None? ==> r == Err(NoIdMessage)
    ensures r.Ok? ==> TextOf(message).Some? && MarketIdPattern.MarketId(TextOf(message).value) == Some(r.value.marketId)
    ensures r.Ok? ==> AiggClient.Settle(fetch(AiggClient.MarketUrl(baseUrl, r.value.marketId))).Ok?
    ensures TextOf(message).Some? && MarketIdPattern.MarketId(TextOf(message).value).Some? ==>
      var marketId := MarketIdPattern.MarketId(TextOf(message).value).value;
      var fetched := AiggClient.Settle(fetch(AiggClient.MarketUrl(baseUrl, marketId)));
      && (fetched.Err? ==> r == Err(fetched.message))
      && (fetched == Ok(NotAnObject) ==> r == Err("Failed to fetch market data for ID " + marketId))
      && (fetched.Ok? && fetched.value.MarketObject? ==> r == AnalyzeRecord(marketId, fetched.value.record, builtins))
  {
    match TextOf(message)
    case None => Err(MissingTextError(message))
    case Some(text) =>
      match MarketIdPattern.MarketId(text)
      case None => Err(NoIdMessage)
      case Some(marketId) =>
        match AiggClient.Settle(fetch(AiggClient.MarketUrl(baseUrl, marketId)))
        case Err(e) => Err(e)
        case Ok(body) =>
          if body.NotAnObject? then Err("Failed to fetch market data for ID " + marketId)
          else AnalyzeRecord(marketId, body.record, builtins)
  }

  function ErrorReply(message: string): (reply: Reply)
    ensures reply.content.Failed? && reply.content.code == ErrorCode
  {
    Reply(ApologyText, Failed(ErrorCode, message))
  }

  /** The reply: the analysis on success; otherwise the apology with the error code and the thrown message. */
  function ReplyOf(outcome: Result<Analyzed>): (reply: Reply)
    ensures reply.content.Succeeded? <==> outcome.Ok?
    ensures outcome.Ok? ==> reply == Reply(outcome.value.text, Succeeded(outcome.value.marketId, outcome.value.analysis))
    ensures outcome.Err? ==> reply == Reply(ApologyText, Failed(ErrorCode, outcome.message))
  {
    match outcome
    case Ok(a) => Reply(a.text, Succeeded(a.marketId, a.analysis))
    case Err(e) => ErrorReply(e)
  }

  /** The state after the handler: the three keys written on success, untouched on failure. */
  function AfterAnalyze(before: Session, reply: Reply): (after: Session)
    ensures reply.content.Failed? ==> after == before
    ensures reply.content.Succeeded? ==>
      && after.lastAction == Some(ActionName)
      && after.currentMarketId == Some(reply.content.marketId)
      && after.marketData == Some(Snapshot(reply.content.analysis))
  {
    match reply.content
    case Failed(_, _) => before
    case Succeeded(marketId, analysis) => Session(Some(ActionName), Some(marketId), Some(Snapshot(analysis)))
  }

  /** The handler never throws: every failing step returns the error reply, and the
      state (when the caller passed one) is written only after the last such step. */
  method Handler(
    baseUrl: string,
    message: Message,
    state: MarketState?,
    fetch: string -> AiggClient.Response<MarketBody>,
    builtins: Builtins)
    returns (reply: Reply)
    modifies state
    ensures reply == ReplyOf(Analyze(baseUrl, message, fetch, builtins))
    ensures state != null ==> state.View() == AfterAnalyze(old(state.View()), reply)
  {
    ghost var outcome := Analyze(baseUrl, message, fetch, builtins);
    var client := new AiggClient.AIGGClient(baseUrl);
    var text := TextOf(message);
    if text.None? {
      return ErrorReply(MissingTextError(message));
    }
    var marketIdMatch := MarketIdPattern.MarketId(text.value);
    if marketIdMatch.None? {
      return ErrorReply(NoIdMessage);
    }
    var marketId := marketIdMatch.value;
    var market := client.GetMarket(marketId, fetch);
    if market.Err? {
      assert outcome == Err(market.message);
      return ErrorReply(market.message);
    }
    if market.value.NotAnObject? {
      assert outcome == Err("Failed to fetch market data for ID " + marketId);
      return ErrorReply("Failed to fetch market data for ID " + marketId);
    }
    assert outcome == AnalyzeRecord(marketId, market.value.record, builtins);
    reply := HandleRecord(marketId, market.value.record, state, builtins);
  }

  /** The rest of the handler once the market record is in hand: decode both lists,
      build the text and the analysis, then write the state. */
  method HandleRecord(marketId: string, record: MarketRecord, state: MarketState?, builtins: Builtins)
    returns (reply: Reply)
    modifies state
    ensures reply == ReplyOf(AnalyzeRecord(marketId, record, builtins))
    ensures state != null ==> state.View() == AfterAnalyze(old(state.View()), reply)
  {
    var outcomes := DecodeList(record.outcomes, builtins);
    if outcomes.Err? {
      return ErrorReply(outcomes.message);
    }
    var prices := DecodeList(record.outcomePrices, builtins);
    if prices.Err? {
      return ErrorReply(prices.message);
    }
    var probability := builtins.parseFloat(At(prices.value, 0)) * 100.0;
    var analysisText := AnalysisText(marketId, record, outcomes.value, probability, builtins);
    var analysis := Analysis(record.question, probability, record.volume24h, outcomes.value, prices.value, record.endDate, record.lastUpdated);
    reply := Reply(analysisText, Succeeded(marketId, analysis));
    if state != null {
      Store(state, marketId, analysis);
    }
  }

  /** The three keys the handler writes on success. */
  method Store(state: MarketState, marketId: string, analysis: Analysis)
    modifies state
    ensures state.View() == Session(Some(ActionName), Some(marketId), Some(Snapshot(analysis)))
  {
    state.lastAction := Some(ActionName);
    state.currentMarketId := Some(marketId);
    state.marketData := Some(Snapshot(analysis));
  }

  /** A list given as a JSON string that parses to xs is handled exactly as the array xs. */
  lemma EncodedListsAsNative(marketId: string, record: MarketRecord, builtins: Builtins, outcomes: seq<string>, prices: seq<string>)
    requires record.outcomes.Encoded? ==> builtins.parseJsonList(record.outcomes.json) == Ok(outcomes)
    requires record.outcomes.Native? ==> record.outcomes.items == outcomes
    requires record.outcomePrices.Encoded? ==> builtins.parseJsonList(record.outcomePrices.json) == Ok(prices)
    requires record.outcomePrices.Native? ==> record.outcomePrices.items == prices
    ensures AnalyzeRecord(marketId, record, builtins)
      == AnalyzeRecord(marketId, record.(outcomes := Native(outcomes), outcomePrices := Native(prices)), builtins)
  {
  }
}
