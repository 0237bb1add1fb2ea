/** The get-insights action: it accepts any message with text, forwards
    the text to the insights service with a loop count, and answers through
    the host's callback with the formatted analysis or the failure; a
    callback that throws on the analysis is called again with the failure.
    It neither reads nor writes conversation state. */
module GetInsights {
  import opened Js
  import opened Strings

  /** The service's answer: the analysis and the sources it cites. */
  datatype Insights = Insights(analysis: string, sources: seq<string>)

  /** `!!message.content?.text`. */
  function Validate(message: Message): (valid: bool)
    ensures valid ==> TextOf(message).Some?
  {
    match TextOf(message)
    case None => false
    case Some(text) => text != ""
  }

  /** A message with text is accepted; a missing content, a missing text or an empty text is not. */
  lemma ValidateCases(text: string)
    ensures Validate(MessageWith(text)) <==> text != ""
    ensures !Validate(Message(None)) && !Validate(Message(Some(Content(None))))
  {
  }

  /** `options.max_loops || 1`. */
  function MaxLoops(option: Value): (loops: Value)
    ensures Truthy(loops)
    ensures Truthy(option) ==> loops == option
    ensures !Truthy(option) ==> loops == Number(1.0)
  {
    if Truthy(option) then option else Number(1.0)
  }

  /** Zero and a missing option become 1; every other number passes unchanged, negatives
      and fractions included. */
  lemma MaxLoopsNumbers(n: real)
    ensures MaxLoops(Number(n)) == Number(if n == 0.0 then 1.0 else n)
    ensures MaxLoops(Undefined) == Number(1.0)
  {
  }

  function Bullets(sources: seq<string>): (lines: seq<string>)
    ensures |lines| == |sources|
    ensures forall k :: 0 <= k < |sources| ==> lines[k] == "- " + sources[k]
  {
    if |sources| == 0 then [] else ["- " + sources[0]] + Bullets(sources[1..])
  }

  /** The template literal's first line after its opening line feed, its blank line
      and the `Sources:` heading. */
  function Heading(analysis: string): (h: string)
    ensures |h| > 0 && h[0] == 'A' && h[|h| - 1] == ':'
  {
    "Analysis: " + analysis + "\n\nSources:"
  }

  /** The line feed and indentation that close the template literal. */
  const ClosingIndent := "\n            "

  lemma ClosingIndentIsSpace()
    ensures forall k :: 0 <= k < |ClosingIndent| ==> IsJsSpace(ClosingIndent[k])
  {
  }

  /** Trimming a line feed, a heading, some lines and the closing indentation keeps the
      heading and the lines without their trailing white space. */
  lemma TrimTemplate(heading: string, lines: string)
    requires |heading| > 0 && !IsJsSpace(heading[0]) && !IsJsSpace(heading[|heading| - 1])
    ensures Trim("\n" + (heading + (lines + ClosingIndent))) == heading + TrimEnd(lines)
  {
    var body := heading + (lines + ClosingIndent);
    assert ("\n" + body)[1..] == body;
    assert TrimStart("\n" + body) == body;
    TrimEndAfter(heading, lines + ClosingIndent);
    ClosingIndentIsSpace();
    TrimEndSpaces(lines, ClosingIndent);
  }

  /** The template literal, which opens with a line feed and closes with `ClosingIndent`,
      then trimmed: trimming touches only the line feed in front and white space at the
      very end, so the reply is the heading followed by the source lines without their
      trailing white space. */
  function FormatResponse(analysis: string, sources: seq<string>): (reply: string)
    ensures reply == Heading(analysis) + TrimEnd("\n" + Join(Bullets(sources), "\n"))
  {
    TrimTemplate(Heading(analysis), "\n" + Join(Bullets(sources), "\n"));
    Trim("\n" + (Heading(analysis) + ("\n" + Join(Bullets(sources), "\n") + ClosingIndent)))
  }

  lemma {:induction false} JoinEndsWithLast(xs: seq<string>, sep: string)
    requires |xs| > 0
    ensures |xs[|xs| - 1]| <= |Join(xs, sep)|
    ensures Join(xs, sep)[|Join(xs, sep)| - |xs[|xs| - 1]|..] == xs[|xs| - 1]
  {
    if |xs| > 1 {
      JoinEndsWithLast(xs[1..], sep);
      assert xs[1..][|xs[1..]| - 1] == xs[|xs| - 1];
    }
  }

  lemma LastCharOfJoin(xs: seq<string>, sep: string)
    requires |xs| > 0 && xs[|xs| - 1] != ""
    ensures |Join(xs, sep)| > 0
    ensures Join(xs, sep)[|Join(xs, sep)| - 1] == xs[|xs| - 1][|xs[|xs| - 1]| - 1]
  {
    JoinEndsWithLast(xs, sep);
    var joined := Join(xs, sep);
    var last := xs[|xs| - 1];
    assert joined[|joined| - 1] == joined[|joined| - |last|..][|last| - 1];
  }

  /** When the last source does not end in white space, the reply is the plain template:
      the heading, then one `- source` line per source in order. */
  lemma FormatPlain(analysis: string, sources: seq<string>)
    requires |sources| > 0
    requires sources[|sources| - 1] != "" && !IsJsSpace(sources[|sources| - 1][|sources[|sources| - 1]| - 1])
    ensures FormatResponse(analysis, sources) == Heading(analysis) + ("\n" + Join(Bullets(sources), "\n"))
  {
    var bullets := Bullets(sources);
    var last := bullets[|bullets| - 1];
    assert last == "- " + sources[|sources| - 1];
    assert last[|last| - 1] == sources[|sources| - 1][|sources[|sources| - 1]| - 1];
    LastCharOfJoin(bullets, "\n");
    var lines := "\n" + Join(bullets, "\n");
    assert lines[|lines| - 1] == last[|last| - 1];
    assert TrimEnd(lines) == lines;
  }

  /** With no sources the reply ends at the `Sources:` heading. */
  lemma FormatNoSources(analysis: string)
    ensures FormatResponse(analysis, []) == Heading(analysis)
  {
    assert TrimEnd("\n") == "";
  }

  /** The reply carries the analysis text whole, after the `Analysis: ` label. */
  lemma FormatContainsAnalysis(analysis: string, sources: seq<string>)
    ensures OccursAt(FormatResponse(analysis, sources), analysis, |"Analysis: "|)
  {
    var heading := Heading(analysis);
    var rest := TrimEnd("\n" + Join(Bullets(sources), "\n"));
    HeadingOccurs(heading, rest, analysis);
  }

  lemma HeadingOccurs(heading: string, rest: string, analysis: string)
    requires heading == "Analysis: " + analysis + "\n\nSources:"
    ensures OccursAt(heading + rest, analysis, |"Analysis: "|)
  {
    assert (heading + rest)[|"Analysis: "|..|"Analysis: "| + |analysis|] == heading[|"Analysis: "|..|"Analysis: "| + |analysis|];
  }

  /** The source lines can be read back: split on line feeds, they are the sources' bullets. */
  lemma SourceLines(sources: seq<string>)
    requires |sources| > 0
    requires forall k :: 0 <= k < |sources| ==> '\n' !in sources[k]
    ensures Split(Join(Bullets(sources), "\n"), '\n') == Bullets(sources)
  {
    var bullets := Bullets(sources);
    forall k | 0 <= k < |bullets|
      ensures '\n' !in bullets[k]
    {
      assert bullets[k] == "- " + sources[k];
    }
    SplitJoin(bullets, '\n');
  }

  const FailurePrefix := "Failed to get insights: "

  /** The insights service: its answers are the `respond` parameter; it records each request. */
  class InsightsService {
    const respond: (Option<string>, Value) -> Result<Insights>
    var requests: seq<(Option<string>, Value)>

    constructor (respond: (Option<string>, Value) -> Result<Insights>)
      ensures this.respond == respond && requests == []
    {
      this.respond := respond;
      requests := [];
    }

    method GetInsights(topic: Option<string>, maxLoops: Value) returns (r: Result<Insights>)
      modifies this
      ensures requests == old(requests) + [(topic, maxLoops)]
      ensures r == respond(topic, maxLoops)
    {
      requests := requests + [(topic, maxLoops)];
      r := respond(topic, maxLoops);
    }
  }

  /** The host's reply callback, as the list of texts it has been called with. It may throw
      synchronously: `reject` gives the error it throws for a reply text, if any. */
  class Callback {
    const reject: string -> Option<string>
    var replies: seq<string>

    constructor (reject: string -> Option<string>)
      ensures this.reject == reject && replies == []
    {
      this.reject := reject;
      replies := [];
    }

    method Call(text: string) returns (thrown: Option<string>)
      modifies this
      ensures replies == old(replies) + [text]
      ensures thrown == reject(text)
    {
      replies := replies + [text];
      thrown := reject(text);
    }
  }

  /** The service's outcome for a message; reading `text` of a missing content throws first. */
  function Outcome(message: Message, maxLoops: Value, respond: (Option<string>, Value) -> Result<Insights>): (r: Result<Insights>)
    ensures message.content.None? ==> r == Err(UndefinedPropertyError("text"))
    ensures message.content.Some? ==> r == respond(message.content.value.text, maxLoops)
  {
    match message.content
    case None => Err(UndefinedPropertyError("text"))
    case Some(content) => respond(content.text, maxLoops)
  }

  /** The text the callback is first called with. */
  function ReplyText(outcome: Result<Insights>): (text: string)
    ensures outcome.Ok? ==> text == FormatResponse(outcome.value.analysis, outcome.value.sources)
    ensures outcome.Err? ==> text == FailurePrefix + outcome.message
  {
    match outcome
    case Ok(insights) => FormatResponse(insights.analysis, insights.sources)
    case Err(message) => FailurePrefix + message
  }

  /** The two replies cannot be confused: a success starts with the `Analysis:` heading,
      a failure with the failure prefix. */
  lemma ReplyTellsOutcome(outcome: Result<Insights>)
    ensures |ReplyText(outcome)| > 0
    ensures outcome.Ok? <==> ReplyText(outcome)[0] == 'A'
    ensures outcome.Err? <==> |FailurePrefix| <= |ReplyText(outcome)| && ReplyText(outcome)[..|FailurePrefix|] == FailurePrefix
  {
    var text := ReplyText(outcome);
    assert FailurePrefix[0] == 'F';
    if outcome.Ok? {
      assert text[0] == 'A';
      assert |FailurePrefix| <= |text| ==> text[..|FailurePrefix|][0] != FailurePrefix[0];
    } else {
      assert text[..|FailurePrefix|] == FailurePrefix;
    }
  }

  /** What the handler does with the callback: the texts it calls it with, in order, and
      its own result (Err when an error escapes it). */
  datatype Run = Run(texts: seq<string>, result: Result<bool>)

  /** The catch block: the failure reply; an error the callback throws there escapes. */
  function Caught(before: seq<string>, error: string, reject: string -> Option<string>): (run: Run)
    ensures run.texts == before + [ReplyText(Err(error))]
    ensures run.result == Ok(false) <==> reject(ReplyText(Err(error))).None?
    ensures run.result != Ok(true)
  {
    var text := FailurePrefix + error;
    Run(before + [text], match reject(text) case None => Ok(false) case Some(thrown) => Err(thrown))
  }

  /** The handler's calls after the service answered: the formatted reply inside the `try`,
      and the catch block when the service or that call threw. */
  function RunOf(outcome: Result<Insights>, reject: string -> Option<string>): (run: Run)
    ensures 1 <= |run.texts| <= 2 && run.texts[0] == ReplyText(outcome)
    ensures run.result == Ok(true) ==> outcome.Ok?
  {
    match outcome
    case Err(error) => Caught([], error, reject)
    case Ok(_) =>
      match reject(ReplyText(outcome))
      case None => Run([ReplyText(outcome)], Ok(true))
      case Some(thrown) => Caught([ReplyText(outcome)], thrown, reject)
  }

  /** The callback is called once or twice, first with the reply for the outcome; the handler
      returns true exactly when the service succeeded and that call did not throw, and a
      second call happens exactly when the success reply was thrown back. */
  lemma CallbackDiscipline(outcome: Result<Insights>, reject: string -> Option<string>)
    ensures 1 <= |RunOf(outcome, reject).texts| <= 2
    ensures RunOf(outcome, reject).texts[0] == ReplyText(outcome)
    ensures RunOf(outcome, reject).result == Ok(true) <==> outcome.Ok? && reject(ReplyText(outcome)).None?
    ensures |RunOf(outcome, reject).texts| == 2 <==> outcome.Ok? && reject(ReplyText(outcome)).Some?
    ensures |RunOf(outcome, reject).texts| == 2 ==>
      RunOf(outcome, reject).texts[1] == FailurePrefix + reject(ReplyText(outcome)).value
  {
  }

  /** A callback that does not throw on the reply is called exactly once, and the result is
      the success flag. */
  lemma CallbackOnce(outcome: Result<Insights>, reject: string -> Option<string>)
    requires reject(ReplyText(outcome)).None?
    ensures RunOf(outcome, reject) == Run([ReplyText(outcome)], Ok(outcome.Ok?))
  {
  }

  /** The handler: `maxLoopsOption` is `options.max_loops`. The service is asked once, with
      the message text as topic, whenever the message has content; the callback receives the
      texts of `RunOf` for the service's outcome, and the handler returns its result. */
  method Handler(message: Message, maxLoopsOption: Value, service: InsightsService, callback: Callback)
    returns (r: Result<bool>)
    modifies service, callback
    ensures callback.replies == old(callback.replies) + RunOf(Outcome(message, MaxLoops(maxLoopsOption), service.respond), callback.reject).texts
    ensures r == RunOf(Outcome(message, MaxLoops(maxLoopsOption), service.respond), callback.reject).result
    ensures service.requests == old(service.requests)
      + (if message.content.Some? then [(message.content.value.text, MaxLoops(maxLoopsOption))] else [])
  {
    var maxLoops := MaxLoops(maxLoopsOption);
    var result: Result<Insights>;
    if message.content.None? {
      result := Err(UndefinedPropertyError("text"));
    } else {
      result := service.GetInsights(message.content.value.text, maxLoops);
    }
    assert result == Outcome(message, maxLoops, service.respond);
    r := Respond(result, callback);
  }

  /** The handler's `try`/`catch` once the service has answered (or the read of `text` threw). */
  method Respond(result: Result<Insights>, callback: Callback) returns (r: Result<bool>)
    modifies callback
    ensures callback.replies == old(callback.replies) + RunOf(result, callback.reject).texts
    ensures r == RunOf(result, callback.reject).result
  {
    var error: string;
    if result.Ok? {
      var formattedResponse := FormatResponse(result.value.analysis, result.value.sources);
      var thrown := callback.Call(formattedResponse);
      if thrown.None? {
        return Ok(true);
      }
      error := thrown.value;
    } else {
      error := result.message;
    }
    var thrown := callback.Call(FailurePrefix + error);
    if thrown.Some? {
      return Err(thrown.value);
    }
    return Ok(false);
  }
}
