/** The request handlers of main.py: `POST /summarization/feedback` and
    `POST /summarization`. Each validates its body in a fixed order, then calls into
    tools.py. A failure is the `HTTPException` (or other exception) the handler lets
    escape. */
module Api {
  import opened Outcomes
  import opened Text
  import opened ModelIO
  import opened Bucketing
  import opened Dispatch
  import opened FeedbackStore

  /** The body of `POST /summarization`. */
  datatype Summary = Summary(userId: string, clientRequestId: string, content: string)

  datatype SummaryResponse = SummaryResponse(clientRequestId: string, summary: string)

  datatype FeedbackResponse = FeedbackResponse(clientRequestId: string, status: int)

  /** The outcome of a summarization request, with the downstream request if one was made. */
  datatype Served = Served(sent: Option<Outbound>, result: Result<SummaryResponse>)

  /** The outcome of a feedback request, with the feedback table after it. */
  datatype Recorded = Recorded(table: seq<FeedbackRow>, result: Result<FeedbackResponse>)

  const MissingRequestId: string := "missing client_request_id"
  const MissingUserId: string := "missing user_id"
  const MissingContent: string := "missing content"
  const RateOutOfRange: string := "rate must be between 1 and 5"
  const SubmitArityMessage: string := "submit_feedback() missing 1 required positional argument: 'user_id'"

  /** The checks of the feedback handler, in order: request id, user id, rate. */
  function ValidateFeedback(f: Feedback): (r: Result<Unit>)
    ensures r.Ok? <==> f.clientRequestId != "" && f.userId != "" && 1 <= f.rate <= 5
    ensures f.clientRequestId == "" ==> r == Err(HttpException(400, MissingRequestId))
    ensures f.clientRequestId != "" && f.userId == "" ==> r == Err(HttpException(400, MissingUserId))
    ensures f.clientRequestId != "" && f.userId != "" && !(1 <= f.rate <= 5) ==>
              r == Err(HttpException(400, RateOutOfRange))
  {
    if f.clientRequestId == "" then Err(HttpException(400, MissingRequestId))
    else if f.userId == "" then Err(HttpException(400, MissingUserId))
    else if f.rate == 0 || f.rate < 1 || f.rate > 5 then Err(HttpException(400, RateOutOfRange))
    else Ok(Unit)
  }

  /** The rating boundaries: 0 and 6 are rejected, 1 and 5 accepted. */
  lemma RateBoundaries(userId: string, clientRequestId: string, comment: string)
    requires userId != "" && clientRequestId != ""
    ensures ValidateFeedback(Feedback(userId, clientRequestId, 0, comment)) == Err(HttpException(400, RateOutOfRange))
    ensures ValidateFeedback(Feedback(userId, clientRequestId, 6, comment)) == Err(HttpException(400, RateOutOfRange))
    ensures ValidateFeedback(Feedback(userId, clientRequestId, 1, comment)).Ok?
    ensures ValidateFeedback(Feedback(userId, clientRequestId, 5, comment)).Ok?
  {
  }

  /** The feedback handler as written: on a valid body it calls `submit_feedback` with the
      body alone, and the missing `user_id` argument raises a `TypeError`. */
  function HandleFeedbackAsWritten(f: Feedback, table: seq<FeedbackRow>): (r: Recorded)
    ensures r.table == table
    ensures ValidateFeedback(f).Err? ==> r.result == Err(ValidateFeedback(f).fault)
    ensures ValidateFeedback(f).Ok? ==> r.result == Err(TypeError(SubmitArityMessage))
  {
    match ValidateFeedback(f)
    case Err(e) => Recorded(table, Err(e))
    case Ok(_) => Recorded(table, Err(TypeError(SubmitArityMessage)))
  }

  /** As written, no feedback is ever stored and the handler never answers with status 200. */
  lemma FeedbackAsWrittenNeverStores(f: Feedback, table: seq<FeedbackRow>)
    ensures HandleFeedbackAsWritten(f, table).result.Err?
    ensures HandleFeedbackAsWritten(f, table).table == table
  {
  }

  /** A valid body that the as-written handler still refuses. */
  lemma FeedbackAsWrittenCounterexample()
    ensures var f := Feedback("u1", "abc123", 5, "great");
            ValidateFeedback(f).Ok? && HandleFeedbackAsWritten(f, []).result == Err(TypeError(SubmitArityMessage))
  {
  }

  /** The feedback handler with the user id passed on to `submit_feedback`. */
  function HandleFeedback(f: Feedback, table: seq<FeedbackRow>, now: int, store: StoreBehaviour): (r: Recorded)
    ensures ValidateFeedback(f).Err? ==> r == Recorded(table, Err(ValidateFeedback(f).fault))
    ensures r.result.Ok? <==> ValidateFeedback(f).Ok? && store.Succeeds?
    ensures r.result.Ok? ==> r.result.value == FeedbackResponse(f.clientRequestId, 200)
    ensures ValidateFeedback(f).Ok? && !store.FailsBeforeInsert? ==>
              r.table == table + [FeedbackRow(f.clientRequestId, f.userId, f.rate, f.comment, now)]
    ensures ValidateFeedback(f).Err? || store.FailsBeforeInsert? ==> r.table == table
    ensures ValidateFeedback(f).Ok? && !store.Succeeds? ==> r.result == Err(HttpException(500, store.message))
  {
    match ValidateFeedback(f)
    case Err(e) => Recorded(table, Err(e))
    case Ok(_) =>
      var stored := SubmitFeedback(f, f.userId, table, now, store);
      assert !store.FailsBeforeInsert? ==> stored.table == stored.table[..|table|] + [stored.table[|table|]];
      match stored.result
      case Err(e) => Recorded(stored.table, Err(e))
      case Ok(_) => Recorded(stored.table, Ok(FeedbackResponse(f.clientRequestId, 200)))
  }

  /** A valid feedback that the store accepts adds exactly one row carrying its four values
      and the clock reading, and is answered with its request id and status 200. */
  lemma FeedbackRoundTrip(now: int)
    ensures var r := HandleFeedback(Feedback("u1", "abc123", 5, "great"), [], now, Succeeds);
            r.table == [FeedbackRow("abc123", "u1", 5, "great", now)]
            && r.result == Ok(FeedbackResponse("abc123", 200))
  {
  }

  /** The checks of the summarization handler, in order: request id, content, user id. */
  function ValidateSummary(s: Summary): (r: Result<Unit>)
    ensures r.Ok? <==> s.clientRequestId != "" && s.content != "" && s.userId != ""
    ensures s.clientRequestId == "" ==> r == Err(HttpException(400, MissingRequestId))
    ensures s.clientRequestId != "" && s.content == "" ==> r == Err(HttpException(400, MissingContent))
    ensures s.clientRequestId != "" && s.content != "" && s.userId == "" ==>
              r == Err(HttpException(400, MissingUserId))
  {
    if s.clientRequestId == "" then Err(HttpException(400, MissingRequestId))
    else if s.content == "" then Err(HttpException(400, MissingContent))
    else if s.userId == "" then Err(HttpException(400, MissingUserId))
    else Ok(Unit)
  }

  /** `POST /summarization`: validate, split the content into rows, score, and echo the
      request id with the prediction. */
  function HandleSummary(s: Summary, cfg: RoutedConfig, sha256: Hasher, send: LibraryCall<Outbound, Reply>): (r: Served)
    ensures ValidateSummary(s).Err? ==> r == Served(None, Err(ValidateSummary(s).fault))
    ensures r.sent.Some? <==> ValidateSummary(s).Ok? && cfg.endpoint1 != "" && cfg.endpoint2 != ""
    ensures ValidateSummary(s).Ok? && r.sent.None? ==> r.result == Err(HttpException(500, EndpointMissing))
    ensures r.sent.Some? ==> IsContentFrame(r.sent.value.payload)
    ensures r.sent.Some? ==> |ContentColumn(r.sent.value.payload)| == Count(s.content, NL) + 1
    ensures r.sent.Some? ==> Join(ContentColumn(r.sent.value.payload)) == s.content
    ensures r.sent.Some? ==> r.sent.value.payload.clientRequestId == s.clientRequestId
    ensures r.sent.Some? && AbGroup(sha256, s.userId) == 0 ==> r.sent.value.url == cfg.endpoint1
    ensures r.sent.Some? && AbGroup(sha256, s.userId) != 0 ==> r.sent.value.url == cfg.endpoint2
    ensures r.result.Ok? ==> r.sent.Some? && r.result.value.clientRequestId == s.clientRequestId
    ensures r.result.Ok? ==> send(r.sent.value).Ok? && ReadReply(send(r.sent.value).value) == Ok(r.result.value.summary)
    ensures r.sent.Some? && send(r.sent.value).Err? ==> r.result == Err(send(r.sent.value).fault)
    ensures r.sent.Some? && send(r.sent.value).Ok? && r.result.Err? ==>
              ReadReply(send(r.sent.value).value) == Err(r.result.fault)
    ensures r.result.Err? && r.result.fault.HttpException? ==>
              ValidateSummary(s).Err? || r.sent.None?
              || (send(r.sent.value).Ok? && ReadReply(send(r.sent.value).value) == Err(r.result.fault))
  {
    match ValidateSummary(s)
    case Err(e) => Served(None, Err(e))
    case Ok(_) =>
      var contents := Split(s.content);
      JoinSplit(s.content);
      var scored := ScoreModel(cfg, sha256, contents, s.userId, s.clientRequestId, send);
      match scored.result
      case Err(e) => Served(scored.sent, Err(e))
      case Ok(prediction) => Served(scored.sent, Ok(SummaryResponse(s.clientRequestId, prediction)))
  }

  /** End to end: the rows a summarization request sends are joined by the model wrapper
      back into exactly the content the caller submitted. */
  lemma SummaryContentRoundTrip(s: Summary, cfg: RoutedConfig, sha256: Hasher, send: LibraryCall<Outbound, Reply>)
    requires HandleSummary(s, cfg, sha256, send).sent.Some?
    ensures var p := HandleSummary(s, cfg, sha256, send).sent.value.payload;
            IsContentFrame(p) && JoinedContent(ContentColumn(p)) == Ok(s.content)
  {
    var p := HandleSummary(s, cfg, sha256, send).sent.value.payload;
    assert ContentColumn(p) == Split(s.content);
    JoinedContentOfSplit(s.content);
  }
}
