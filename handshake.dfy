/** The two market actions together: the analyze action moves the shared
    state from `Idle` to `HasSnapshot`, and the show action reads the
    snapshot back. What the first one stores and what the second one reads
    do not have the same shape. */
module Handshake {
  import opened Js
  import opened Strings
  import opened MarketSession
  import AnalyzeMarket
  import ShowMarketData
  import MarketIdPattern
  import AiggClient

  /** The handshake's two phases. */
  datatype Phase = Idle | HasSnapshot

  function PhaseOf(state: Session): (phase: Phase)
    ensures phase == HasSnapshot <==> ShowMarketData.HasMarketData(Some(state))
  {
    if state.marketData.Some? then HasSnapshot else Idle
  }

  /** A failed analysis keeps the phase; a successful one moves to `HasSnapshot` whatever the phase was. */
  lemma AnalyzeMovesPhase(before: Session, reply: AnalyzeMarket.Reply)
    ensures reply.content.Failed? ==> PhaseOf(AnalyzeMarket.AfterAnalyze(before, reply)) == PhaseOf(before)
    ensures reply.content.Succeeded? ==> PhaseOf(AnalyzeMarket.AfterAnalyze(before, reply)) == HasSnapshot
  {
  }

  /** After a successful analysis the show action accepts any message whose text mentions "numbers". */
  lemma ShowAcceptsAfterAnalyze(before: Session, reply: AnalyzeMarket.Reply, message: Message)
    requires reply.content.Succeeded?
    requires TextOf(message).Some? && Contains(Lower(TextOf(message).value), "numbers")
    ensures ShowMarketData.Validate(message, Some(AnalyzeMarket.AfterAnalyze(before, reply))) == Ok(true)
  {
  }

  /** The analyze action stores the flat snapshot, so the state it leaves behind does not
      have the envelope shape the show handler reads: on the real handshake the show
      handler's success path is entered with data it cannot read. */
  lemma SnapshotIsNotEnvelope(before: Session, reply: AnalyzeMarket.Reply)
    requires reply.content.Succeeded?
    ensures ShowMarketData.HasMarketData(Some(AnalyzeMarket.AfterAnalyze(before, reply)))
    ensures !ShowMarketData.HasEnvelopeShape(Some(AnalyzeMarket.AfterAnalyze(before, reply)))
  {
  }

  /** The analyze handler, whenever it succeeds on a state, leaves that state in a shape the
      show handler cannot be called on; without a state the show handler only answers with guidance. */
  method AnalyzeThenShowShape(
    baseUrl: string,
    message: Message,
    state: MarketState?,
    fetch: string -> AiggClient.Response<AnalyzeMarket.MarketBody>,
    builtins: Builtins)
    returns (reply: AnalyzeMarket.Reply, showable: bool)
    modifies state
    ensures reply == AnalyzeMarket.ReplyOf(AnalyzeMarket.Analyze(baseUrl, message, fetch, builtins))
    ensures showable == ShowMarketData.HasEnvelopeShape(ViewOf(state))
    ensures state == null ==> showable
    ensures state != null && reply.content.Succeeded? ==> !showable
    ensures state != null && reply.content.Failed? ==>
      state.View() == old(state.View()) && showable == ShowMarketData.HasEnvelopeShape(Some(old(state.View())))
  {
    reply := AnalyzeMarket.Handler(baseUrl, message, state, fetch, builtins);
    showable := ShowMarketData.HasEnvelopeShape(ViewOf(state));
    if state != null && reply.content.Succeeded? {
      SnapshotIsNotEnvelope(old(state.View()), reply);
    }
  }

  /** A follow-up in which the pattern finds no id (such as "give me the numbers for 2024",
      or any text without digits) is accepted by the analyze validator, yet the handler
      matches the text again, finds no id and answers with the error; the state stays as it was. */
  lemma FollowUpWithoutIdFails(
    baseUrl: string,
    text: string,
    state: Session,
    fetch: string -> AiggClient.Response<AnalyzeMarket.MarketBody>,
    builtins: Builtins)
    requires AnalyzeMarket.IsFollowUp(text, Some(state))
    requires MarketIdPattern.MarketId(text).None?
    ensures AnalyzeMarket.Validate(MessageWith(text), Some(state))
    ensures AnalyzeMarket.Analyze(baseUrl, MessageWith(text), fetch, builtins) == Err(AnalyzeMarket.NoIdMessage)
    ensures AnalyzeMarket.ReplyOf(AnalyzeMarket.Analyze(baseUrl, MessageWith(text), fetch, builtins)).content
      == AnalyzeMarket.Failed(AnalyzeMarket.ErrorCode, AnalyzeMarket.NoIdMessage)
    ensures AnalyzeMarket.AfterAnalyze(state, AnalyzeMarket.ReplyOf(AnalyzeMarket.Analyze(baseUrl, MessageWith(text), fetch, builtins))) == state
  {
  }
}
