/** The show-market-data action: the second half of the follow-up
    handshake. It accepts a message when a trigger word is present and
    the state holds market data, and its handler only reads that data
    back; it writes no state and issues no request. */
module ShowMarketData {
  import opened Js
  import opened Strings
  import opened MarketSession

  const GuidanceText := "I need you to analyze a market first before I can show you the numbers. Try 'analyze market <ID>' first."

  predicate HasTrigger(lowered: string) {
    Contains(lowered, "numbers") || Contains(lowered, "data") || Contains(lowered, "stats")
  }

  predicate HasMarketData(state: Option<Session>) {
    state.Some? && state.value.marketData.Some?
  }

  /** The validator. It has no catch: lower-casing the text of a message without one throws. */
  function Validate(message: Message, state: Option<Session>): (r: Result<bool>)
    ensures r.Err? <==> TextOf(message).None?
  {
    match TextOf(message)
    case None => Err(UndefinedPropertyError(if message.content.None? then "text" else "toLowerCase"))
    case Some(text) => Ok(HasTrigger(Lower(text)) && HasMarketData(state))
  }

  /** Accepted exactly when a trigger word is present and market data is stored. */
  lemma ValidateAccepts(message: Message, state: Option<Session>)
    requires TextOf(message).Some?
    ensures Validate(message, state) == Ok(HasTrigger(Lower(TextOf(message).value)) && HasMarketData(state))
    ensures state.None? ==> Validate(message, state) == Ok(false)
  {
  }

  /** The last action recorded in the state plays no part in the decision. */
  lemma ValidateIgnoresLastAction(message: Message, state: Session, lastAction: Option<string>)
    ensures Validate(message, Some(state)) == Validate(message, Some(state.(lastAction := lastAction)))
  {
  }

  /** The handler's type assertion: stored market data is the reply envelope
      `{ analysisText, content: { success, data: { marketId, analysis } } }`. */
  predicate HasEnvelopeShape(state: Option<Session>) {
    !HasMarketData(state) || state.value.marketData.value.Envelope?
  }

  /** `content.data` of the reply. */
  datatype Payload = Payload(marketId: string, analysis: Analysis)

  /** The reply: its text, `content.success` and, on success, `content.data`. */
  datatype Reply = Reply(text: string, success: bool, data: Option<Payload>)

  /** The two list lines: each list's elements in stored order, separated by " vs ". */
  function PairLines(outcomes: seq<string>, prices: seq<string>): string {
    "Outcomes: " + Join(outcomes, " vs ") + "\n" + "Prices: " + Join(prices, " vs ") + "\n"
  }

  /** The raw-data reply: a title line, the question, then the formatted figures. */
  function RawDataText(analysis: Analysis, builtins: Builtins): (text: string)
    ensures OccursAt(text, "Raw Market Data:\nQuestion: " + analysis.question + "\n", 0)
  {
    ("Raw Market Data:\n"
      + "Question: " + analysis.question + "\n"
      + "Probability: " + builtins.toFixed1(analysis.probability) + "%\n"
      + "Volume (24h): $" + builtins.toLocaleString(analysis.volume24h) + "\n")
    + PairLines(analysis.outcomes, analysis.prices)
    + ("Last Updated: " + builtins.toLocaleDateTimeString(analysis.lastUpdated) + "\n"
      + "End Date: " + builtins.toLocaleDateTimeString(analysis.endDate))
  }

  /** The handler: a projection of the stored data, or the guidance reply when there is none. */
  function Handler(state: Option<Session>, builtins: Builtins): (reply: Reply)
    requires HasEnvelopeShape(state)
    ensures reply.success <==> HasMarketData(state)
    ensures !reply.success ==> reply == Reply(GuidanceText, false, None)
    ensures reply.success ==> reply.data == Some(Payload(state.value.marketData.value.marketId, state.value.marketData.value.analysis))
    ensures reply.success ==> reply.text == RawDataText(state.value.marketData.value.analysis, builtins)
  {
    if !HasMarketData(state) then Reply(GuidanceText, false, None)
    else
      var stored := state.value.marketData.value;
      Reply(RawDataText(stored.analysis, builtins), true, Some(Payload(stored.marketId, stored.analysis)))
  }

  /** The reply depends on the stored market data alone, not on the other keys. */
  lemma HandlerReadsOnlyMarketData(state: Session, other: Session, builtins: Builtins)
    requires state.marketData == other.marketData
    requires HasEnvelopeShape(Some(state))
    ensures Handler(Some(state), builtins) == Handler(Some(other), builtins)
  {
  }

  /** The outcomes and the prices appear in stored order, separated by " vs ". */
  lemma RenderedPairs(analysis: Analysis, builtins: Builtins)
    ensures Contains(RawDataText(analysis, builtins), PairLines(analysis.outcomes, analysis.prices))
  {
    var text := RawDataText(analysis, builtins);
    var lines := PairLines(analysis.outcomes, analysis.prices);
    var head := "Raw Market Data:\n"
      + "Question: " + analysis.question + "\n"
      + "Probability: " + builtins.toFixed1(analysis.probability) + "%\n"
      + "Volume (24h): $" + builtins.toLocaleString(analysis.volume24h) + "\n";
    var tail := "Last Updated: " + builtins.toLocaleDateTimeString(analysis.lastUpdated) + "\n"
      + "End Date: " + builtins.toLocaleDateTimeString(analysis.endDate);
    assert text == head + lines + tail;
    assert text[|head|..|head| + |lines|] == lines;
    assert OccursAt(text, lines, |head|);
  }

  /** The example market of the action's description renders as `Yes vs No` and `0.655 vs 0.345`. */
  lemma ExamplePairLines()
    ensures PairLines(["Yes", "No"], ["0.655", "0.345"]) == "Outcomes: Yes vs No\nPrices: 0.655 vs 0.345\n"
  {
    assert ["Yes", "No"][1..] == ["No"];
    assert ["0.655", "0.345"][1..] == ["0.345"];
  }
}
