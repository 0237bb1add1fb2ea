/** The conversation state the two market actions share: the host's
    per-conversation bag, of which they use three keys. */
module MarketSession {
  import opened Js

  /** A market as the analysis reports it. */
  datatype Analysis = Analysis(
    question: string,
    probability: real,
    volume24h: real,
    outcomes: seq<string>,
    prices: seq<string>,
    endDate: string,
    lastUpdated: string)

  /** The two shapes `marketData` is given in the source: the flat record the
      analyze action stores, and the reply envelope the show action reads. */
  datatype MarketData =
    | Snapshot(analysis: Analysis)
    | Envelope(analysisText: string, success: bool, marketId: string, analysis: Analysis)

  /** The three keys as values; None is a missing key. */
  datatype Session = Session(lastAction: Option<string>, currentMarketId: Option<string>, marketData: Option<MarketData>)

  /** The host's state object, which the analyze handler updates in place. */
  class MarketState {
    var lastAction: Option<string>
    var currentMarketId: Option<string>
    var marketData: Option<MarketData>

    constructor (initial: Session)
      ensures View() == initial
    {
      lastAction := initial.lastAction;
      currentMarketId := initial.currentMarketId;
      marketData := initial.marketData;
    }

    function View(): Session
      reads this
    {
      Session(lastAction, currentMarketId, marketData)
    }
  }

  /** The state a caller passes, as a value: None when it passes no state. */
  function ViewOf(state: MarketState?): (s: Option<Session>)
    reads state
    ensures s.Some? <==> state != null
    ensures s.Some? ==> s.value == Session(state.lastAction, state.currentMarketId, state.marketData)
  {
    if state == null then None else Some(state.View())
  }
}
