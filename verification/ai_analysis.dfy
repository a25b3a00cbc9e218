/** The analysis hook: two independent operations (analyze, rewrite), each
    with its own in-flight flag and result slot, sharing one error slot.
    Each asynchronous handler is split into a start transition and a
    completion transition; the completion receives the outcome of the
    service call. The hook itself never refuses a start while a request of
    the same kind is in flight. */
module AiAnalysis {
  import opened Wrappers
  import opened Json
  import AiService

  /** Result slots hold what the service returned; `JNull` is JavaScript's
      `null`, both the empty slot and a reply that parsed to `null`. */
  datatype AnalysisState = AnalysisState(
    analysis: Json,
    rewrittenPosts: Json,
    isAnalyzing: bool,
    isRewriting: bool,
    error: string)

  /** Both results null, both flags down, no error. */
  const Initial := AnalysisState(JNull, JNull, false, false, "")

  const AnalysisFailedMessage := "Failed to get analysis from the AI. Please try again."
  const RewriteFailedMessage := "Failed to get rewrites from the AI. Please try again."

  /** The analyze half of the state. */
  function AnalyzePart(s: AnalysisState): (Json, bool) { (s.analysis, s.isAnalyzing) }

  /** The rewrite half of the state. */
  function RewritePart(s: AnalysisState): (Json, bool) { (s.rewrittenPosts, s.isRewriting) }

  /** `handleAnalyze(text)` up to the service call. An empty text returns
      before any state is written. */
  function StartAnalyze(s: AnalysisState, text: string): (r: AnalysisState)
    ensures text == "" ==> r == s
    ensures text != "" ==> r.isAnalyzing && r.analysis == JNull && r.error == ""
    ensures RewritePart(r) == RewritePart(s)
  {
    if text == "" then s
    else s.(isAnalyzing := true, analysis := JNull, error := "")
  }

  /** The service returned `result`: stored verbatim; the error is not cleared. */
  function AnalyzeOk(s: AnalysisState, result: Json): (r: AnalysisState)
    ensures r.analysis == result && !r.isAnalyzing
    ensures r.error == s.error && RewritePart(r) == RewritePart(s)
  {
    s.(analysis := result, isAnalyzing := false)
  }

  /** The service threw: the fixed analysis error; the result slot is left as is. */
  function AnalyzeFail(s: AnalysisState): (r: AnalysisState)
    ensures r.error == AnalysisFailedMessage && !r.isAnalyzing
    ensures r.analysis == s.analysis && RewritePart(r) == RewritePart(s)
  {
    s.(error := AnalysisFailedMessage, isAnalyzing := false)
  }

  /** Completion of `handleAnalyze` with the outcome of `analyzePost`. */
  function FinishAnalyze(s: AnalysisState, outcome: Result<Json, AiService.ApiError>): (r: AnalysisState)
    ensures !r.isAnalyzing && RewritePart(r) == RewritePart(s)
    ensures outcome.Success? ==> r.analysis == outcome.value && r.error == s.error
    ensures outcome.Failure? ==> r.analysis == s.analysis && r.error == AnalysisFailedMessage
  {
    match outcome
    case Success(v) => AnalyzeOk(s, v)
    case Failure(_) => AnalyzeFail(s)
  }

  /** `handleRewrite(text)` up to the service call. */
  function StartRewrite(s: AnalysisState, text: string): (r: AnalysisState)
    ensures text == "" ==> r == s
    ensures text != "" ==> r.isRewriting && r.rewrittenPosts == JNull && r.error == ""
    ensures AnalyzePart(r) == AnalyzePart(s)
  {
    if text == "" then s
    else s.(isRewriting := true, rewrittenPosts := JNull, error := "")
  }

  function RewriteOk(s: AnalysisState, result: Json): (r: AnalysisState)
    ensures r.rewrittenPosts == result && !r.isRewriting
    ensures r.error == s.error && AnalyzePart(r) == AnalyzePart(s)
  {
    s.(rewrittenPosts := result, isRewriting := false)
  }

  function RewriteFail(s: AnalysisState): (r: AnalysisState)
    ensures r.error == RewriteFailedMessage && !r.isRewriting
    ensures r.rewrittenPosts == s.rewrittenPosts && AnalyzePart(r) == AnalyzePart(s)
  {
    s.(error := RewriteFailedMessage, isRewriting := false)
  }

  /** Completion of `handleRewrite` with the outcome of `rewritePost`. */
  function FinishRewrite(s: AnalysisState, outcome: Result<Json, AiService.ApiError>): (r: AnalysisState)
    ensures !r.isRewriting && AnalyzePart(r) == AnalyzePart(s)
    ensures outcome.Success? ==> r.rewrittenPosts == outcome.value && r.error == s.error
    ensures outcome.Failure? ==> r.rewrittenPosts == s.rewrittenPosts && r.error == RewriteFailedMessage
  {
    match outcome
    case Success(v) => RewriteOk(s, v)
    case Failure(_) => RewriteFail(s)
  }

  /** `reset`: both results and the error cleared; the flags are not. */
  function Reset(s: AnalysisState): (r: AnalysisState)
    ensures r.analysis == JNull && r.rewrittenPosts == JNull && r.error == ""
    ensures r.isAnalyzing == s.isAnalyzing && r.isRewriting == s.isRewriting
  {
    s.(analysis := JNull, rewrittenPosts := JNull, error := "")
  }

  /** The result-bearing transitions of the two operations commute: they
      touch disjoint fields and neither writes the error. */
  lemma ResultsCommute(s: AnalysisState, a: Json, w: Json, t: string, u: string)
    ensures AnalyzeOk(RewriteOk(s, w), a) == RewriteOk(AnalyzeOk(s, a), w)
    ensures StartAnalyze(StartRewrite(s, u), t) == StartRewrite(StartAnalyze(s, t), u)
  {
  }

  /** The error slot is shared and the last write wins: a failure of one
      operation is overwritten by the other's failure, and erased by the
      other's start. */
  lemma SharedErrorLastWriteWins(s: AnalysisState, text: string)
    requires text != ""
    ensures RewriteFail(AnalyzeFail(s)).error == RewriteFailedMessage
    ensures AnalyzeFail(RewriteFail(s)).error == AnalysisFailedMessage
    ensures StartRewrite(AnalyzeFail(s), text).error == ""
    ensures StartAnalyze(RewriteFail(s), text).error == ""
  {
  }

  /** A success does not clear an error raised earlier by the other operation. */
  lemma SuccessKeepsError(s: AnalysisState, v: Json)
    ensures AnalyzeOk(RewriteFail(s), v).error == RewriteFailedMessage
    ensures AnalyzeOk(RewriteFail(s), v).analysis == v
  {
  }

  /** Reset does not stop a request in flight: its completion still fills
      the slot that reset just cleared. */
  lemma ResetDoesNotCancel(s: AnalysisState, text: string, v: Json)
    requires text != ""
    ensures Reset(StartAnalyze(s, text)).isAnalyzing
    ensures AnalyzeOk(Reset(StartAnalyze(s, text)), v).analysis == v
  {
  }

  // ------------------------------------------- composition with the service

  /** `handleAnalyze(text)` from start to completion, with nothing else
      happening in between. An empty text changes nothing. Otherwise the run
      ends with the flag down and the rewrite half untouched, holding either
      the service's value and no error, or an empty slot and the analysis
      error. */
  function AnalyzeRound(s: AnalysisState, text: string,
                        send: Json -> AiService.FetchOutcome, parse: Json -> Option<Json>): (r: AnalysisState)
    ensures text == "" ==> r == s
    ensures text != "" ==> !r.isAnalyzing && RewritePart(r) == RewritePart(s)
    ensures var out := AiService.AnalyzePost(text, send, parse);
      text != "" && out.Success? ==> r.analysis == out.value && r.error == ""
    ensures var out := AiService.AnalyzePost(text, send, parse);
      text != "" && out.Failure? ==> r.analysis == JNull && r.error == AnalysisFailedMessage
  {
    if text == "" then s
    else FinishAnalyze(StartAnalyze(s, text), AiService.AnalyzePost(text, send, parse))
  }

  /** A stubbed reply whose text parses to `v` is stored exactly as `v`. */
  lemma StubbedReplyStored(s: AnalysisState, text: string, t: Json, v: Json, parse: Json -> Option<Json>)
    requires text != "" && Truthy(t) && parse(t) == Some(v)
    ensures var send := (p: Json) => AiService.Responded(AiService.Response(200, Some(AiService.Reply(t))));
      var r := AnalyzeRound(s, text, send, parse);
      r.analysis == v && !r.isAnalyzing && r.error == ""
  {
    AiService.ExtractReply(t);
  }

  /** A status-500 reply surfaces the analysis error and leaves a previous
      rewrite result in place. */
  lemma ServerErrorKeepsRewrites(s: AnalysisState, text: string, body: Option<Json>, parse: Json -> Option<Json>)
    requires text != ""
    ensures var send := (p: Json) => AiService.Responded(AiService.Response(500, body));
      var r := AnalyzeRound(s, text, send, parse);
      r.error == AnalysisFailedMessage && !r.isAnalyzing && r.rewrittenPosts == s.rewrittenPosts
  {
  }

  // ------------------------------------------------------------------ traces

  datatype Event =
    | AnalyzeStarted(text: string)
    | AnalyzeDone(outcome: Result<Json, AiService.ApiError>)
    | RewriteStarted(text: string)
    | RewriteDone(outcome: Result<Json, AiService.ApiError>)
    | ResetRequested

  /** The hook's state together with the number of requests of each kind
      still awaiting completion. */
  datatype Session = Session(state: AnalysisState, pendingAnalyses: nat, pendingRewrites: nat)

  /** A completion can only arrive for a request that was sent. */
  predicate Enabled(c: Session, e: Event) {
    match e
    case AnalyzeDone(_) => c.pendingAnalyses > 0
    case RewriteDone(_) => c.pendingRewrites > 0
    case _ => true
  }

  function Step(c: Session, e: Event): Session
    requires Enabled(c, e)
  {
    match e
    case AnalyzeStarted(t) =>
      Session(StartAnalyze(c.state, t), if t == "" then c.pendingAnalyses else c.pendingAnalyses + 1, c.pendingRewrites)
    case AnalyzeDone(o) => Session(FinishAnalyze(c.state, o), c.pendingAnalyses - 1, c.pendingRewrites)
    case RewriteStarted(t) =>
      Session(StartRewrite(c.state, t), c.pendingAnalyses, if t == "" then c.pendingRewrites else c.pendingRewrites + 1)
    case RewriteDone(o) => Session(FinishRewrite(c.state, o), c.pendingAnalyses, c.pendingRewrites - 1)
    case ResetRequested => Session(Reset(c.state), c.pendingAnalyses, c.pendingRewrites)
  }

  /** The flag half of the buttons' disable conditions: a start of a kind only
      while its flag is down. The analyze button is also disabled once a result
      exists, and the rewrite button while there is no text; those halves are not
      needed here. The hook does not enforce this; it is an assumption about the
      caller. */
  predicate ButtonGuard(c: Session, e: Event) {
    match e
    case AnalyzeStarted(_) => !c.state.isAnalyzing
    case RewriteStarted(_) => !c.state.isRewriting
    case _ => true
  }

  predicate GuardedTrace(c: Session, events: seq<Event>)
    decreases |events|
  {
    |events| == 0 ||
    (Enabled(c, events[0]) && ButtonGuard(c, events[0]) && GuardedTrace(Step(c, events[0]), events[1..]))
  }

  function Run(c: Session, events: seq<Event>): Session
    requires GuardedTrace(c, events)
    decreases |events|
  {
    if |events| == 0 then c else Run(Step(c, events[0]), events[1..])
  }

  /** Each flag is up exactly while a request of its kind is outstanding. */
  predicate FlagsTrack(c: Session) {
    && (c.state.isAnalyzing <==> c.pendingAnalyses > 0)
    && (c.state.isRewriting <==> c.pendingRewrites > 0)
    && c.pendingAnalyses <= 1 && c.pendingRewrites <= 1
  }

  /** The hook starts with both flags down and nothing outstanding, so the
      invariant holds from the first render. */
  lemma InitialTracks()
    ensures FlagsTrack(Session(Initial, 0, 0))
  {
  }

  /** With the buttons' guard every flag tracks its outstanding request. */
  lemma {:induction false} GuardedFlagsTrack(c: Session, events: seq<Event>)
    requires FlagsTrack(c) && GuardedTrace(c, events)
    ensures FlagsTrack(Run(c, events))
    decreases |events|
  {
    if |events| > 0 {
      GuardedFlagsTrack(Step(c, events[0]), events[1..]);
    }
  }

  /** Without it, a second analyze start is accepted and the first
      completion lowers the flag while the other request is still out. */
  lemma UnguardedFlagDropsEarly(v: Json)
    ensures var c0 := Session(Initial, 0, 0);
      var c1 := Step(c0, AnalyzeStarted("post"));
      var c2 := Step(c1, AnalyzeStarted("post"));
      var c3 := Step(c2, AnalyzeDone(Success(v)));
      c1.state.isAnalyzing && c3.pendingAnalyses == 1 && !c3.state.isAnalyzing && !FlagsTrack(c3)
  {
  }
}
