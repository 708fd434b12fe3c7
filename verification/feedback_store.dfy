/** `submit_feedback(feedback, user_id)` of tools.py: one INSERT of a feedback row into
    the `workspace.summarization_agent.feedback` table. The table is a sequence of rows,
    the clock reading `datetime.utcnow()` is the parameter `now`, and how the store
    behaves is the parameter `store`. */
module FeedbackStore {
  import opened Outcomes

  /** The feedback body (`feedback.dict()` of main.py's `Feedback` model). */
  datatype Feedback = Feedback(userId: string, clientRequestId: string, rate: int, comment: string)

  /** A row of the feedback table, in column order. */
  datatype FeedbackRow = FeedbackRow(clientRequestId: string, userId: string, feedbackRate: int,
                                     feedbackText: string, feedbackTimestamp: int)

  /** What happens inside the `try` block: everything succeeds; an exception is raised
      before the INSERT has taken effect (connecting, executing); or the INSERT has taken
      effect and closing the cursor or the connection raises afterwards. `message` is
      `str(e)`. */
  datatype StoreBehaviour =
    | Succeeds
    | FailsBeforeInsert(message: string)
    | FailsAfterInsert(message: string)

  datatype Stored = Stored(table: seq<FeedbackRow>, result: Result<Unit>)

  /** The row the INSERT writes. */
  function RowOf(feedback: Feedback, userId: string, now: int): FeedbackRow
  {
    FeedbackRow(feedback.clientRequestId, userId, feedback.rate, feedback.comment, now)
  }

  /** At most one row is appended, built from the body's request id, rate and comment,
      the `userId` argument and the clock. Any exception in the block is answered with
      status 500 and its text, whether or not the row was already written. */
  function SubmitFeedback(feedback: Feedback, userId: string, table: seq<FeedbackRow>, now: int,
                          store: StoreBehaviour): (r: Stored)
    ensures |r.table| >= |table| && r.table[..|table|] == table
    ensures r.result.Ok? <==> store.Succeeds?
    ensures |r.table| == |table| + 1 <==> !store.FailsBeforeInsert?
    ensures store.FailsBeforeInsert? ==> r.table == table
    ensures !store.FailsBeforeInsert? ==>
              r.table[|table|] == FeedbackRow(feedback.clientRequestId, userId, feedback.rate, feedback.comment, now)
    ensures r.result.Err? ==> r.result == Err(HttpException(500, store.message))
  {
    match store
    case FailsBeforeInsert(e) => Stored(table, Err(HttpException(500, e)))
    case FailsAfterInsert(e) => Stored(table + [RowOf(feedback, userId, now)], Err(HttpException(500, e)))
    case Succeeds => Stored(table + [RowOf(feedback, userId, now)], Ok(Unit))
  }

  /** A failure while leaving the connection is reported as a 500 although the row was
      already written: the caller cannot tell it from a failure that stored nothing. */
  lemma FailureAfterInsertKeepsRow(feedback: Feedback, userId: string, now: int, message: string)
    ensures var before := SubmitFeedback(feedback, userId, [], now, FailsBeforeInsert(message));
            var after := SubmitFeedback(feedback, userId, [], now, FailsAfterInsert(message));
            && before.result == after.result == Err(HttpException(500, message))
            && before.table == [] && after.table == [RowOf(feedback, userId, now)]
  {
  }
}
