/**
 * The feedback endpoints (server/internal/controller/feedback.go). A handler's
 * outcome is the store afterwards and the replies it wrote, in order: gin lets a
 * handler write more than once, and also lets it write nothing. A request body
 * that does not bind is None.
 */
module FeedbackUsecase {
  import opened Wrappers
  import opened Entities
  import opened Response
  import opened FeedbackStore
  import Strings
  import Seqs

  datatype Handled = Handled(db: FeedbackDb, writes: seq<Reply>)

  datatype AddRequest = AddRequest(content: string)

  datatype UpdateRequest = UpdateRequest(uid: string, status: int)

  /**
   * `AddFeedback`: stores a feedback with a fresh uid, the current time, the
   * request's content and the zero status, and replies success whether or not the
   * insert worked.
   */
  function AddFeedback(db: FeedbackDb, body: Option<AddRequest>, uid: string, now: int): (r: Handled)
    ensures body.None? ==> r == Handled(db, [ErrorResponse(ServerError)])
    ensures body.Some? ==> r.writes == [SuccessResponse(NoData)]
    ensures body.Some? && db.up ==> r.db.rows == db.rows + [Feedback(uid, body.value.content, now, Pending)]
    ensures !db.up ==> r.db == db
  {
    match body
    case None => Handled(db, [ErrorResponse(ServerError)])
    case Some(req) =>
      var f := Feedback(uid, req.content, now, Pending);
      var after := match AddFeedbackToDB(db, f) case Ok(d) => d case Err(_) => db;
      Handled(after, [SuccessResponse(NoData)])
  }

  /** `GetAllFeedbacks`: the whole table, or no reply at all when the query fails. */
  function GetAllFeedbacks(db: FeedbackDb): (r: seq<Reply>)
    ensures db.up ==> r == [SuccessResponse(FeedbackList(db.rows))]
    ensures !db.up ==> r == []
  {
    match AllFeedbacks(db)
    case Ok(rows) => [SuccessResponse(FeedbackList(rows))]
    case Err(_) => []
  }

  /**
   * `GetFeedbacksByStatus`: the rows with the queried status. A status that does
   * not parse writes an error reply and then carries on with whatever the parser
   * returned (0, or the nearest 64-bit bound for an out-of-range number), so it can
   * be followed by a success reply. A failed query writes nothing more.
   */
  function GetFeedbacksByStatus(db: FeedbackDb, query: Option<string>): (r: seq<Reply>)
    ensures var conv := Strings.Atoi(DefaultQuery(query, "0"));
      |r| == (if conv.ok then 0 else 1) + (if db.up then 1 else 0) &&
      (!conv.ok <==> |r| > 0 && r[0] == ErrorResponse(ServerError)) &&
      (db.up <==> |r| > 0 && r[|r| - 1].status == 200) &&
      (db.up ==> r[|r| - 1] == SuccessResponse(FeedbackList(Seqs.Filter(db.rows, HasStatus(conv.value)))))
  {
    var conv := Strings.Atoi(DefaultQuery(query, "0"));
    var first := if conv.ok then [] else [ErrorResponse(ServerError)];
    match FeedbacksByStatus(db, conv.value)
    case Ok(rows) => first + [SuccessResponse(FeedbackList(rows))]
    case Err(_) => first
  }

  /** A well-formed number in range lists exactly the entries with that status. */
  lemma NumericStatusLists(db: FeedbackDb, s: string)
    requires db.up && Strings.WellFormedInt(s) && Strings.MinInt64 <= Strings.IntValue(s) <= Strings.MaxInt64
    ensures GetFeedbacksByStatus(db, Some(s)) == [SuccessResponse(FeedbackList(FeedbacksByStatus(db, Strings.IntValue(s)).value))]
  {
  }

  /** Without a status query the pending entries are listed. */
  lemma DefaultStatusIsPending(db: FeedbackDb)
    requires db.up
    ensures GetFeedbacksByStatus(db, None) == [SuccessResponse(FeedbackList(FeedbacksByStatus(db, Pending).value))]
  {
    assert Strings.WellFormedInt("0");
    assert Strings.IntValue("0") == 0 by {
      assert Strings.Decimal("0") == Strings.DecimalFrom("", 0);
    }
  }

  /**
   * A status that is not a number (here "abc") gives two replies: the server-error
   * reply and then the pending entries.
   */
  lemma GarbledStatusRepliesTwice(db: FeedbackDb)
    requires db.up
    ensures GetFeedbacksByStatus(db, Some("abc")) ==
      [ErrorResponse(ServerError), SuccessResponse(FeedbackList(FeedbacksByStatus(db, Pending).value))]
  {
    assert !Strings.WellFormedInt("abc") by {
      assert !Strings.IsDigit('a');
    }
    var conv := Strings.Atoi("abc");
    assert conv.value == 0 by {
      assert Strings.ScanUint("abc", 0) == Strings.SyntaxError;
    }
  }

  /**
   * `UpdateFeedbacksStatus`: sets the status of every row with the uid, whatever
   * integer the request carries.
   */
  function UpdateFeedbacksStatusHandler(db: FeedbackDb, body: Option<UpdateRequest>): (r: Handled)
    ensures body.None? || !db.up ==> r == Handled(db, [ErrorResponse(ServerError)])
    ensures body.Some? && db.up ==>
      r == Handled(UpdateFeedbacksStatus(db, body.value.uid, body.value.status).value, [SuccessResponse(NoData)])
  {
    match body
    case None => Handled(db, [ErrorResponse(ServerError)])
    case Some(req) =>
      match UpdateFeedbacksStatus(db, req.uid, req.status)
      case Err(_) => Handled(db, [ErrorResponse(ServerError)])
      case Ok(after) => Handled(after, [SuccessResponse(NoData)])
  }

  /** A status outside the three named states is stored as given. */
  lemma UncheckedStatusStored(db: FeedbackDb, uid: string, status: int, i: nat)
    requires db.up && i < |db.rows| && db.rows[i].uid == uid
    requires status != Pending && status != Approved && status != Rejected
    ensures UpdateFeedbacksStatusHandler(db, Some(UpdateRequest(uid, status))).db.rows[i].status == status
    ensures UpdateFeedbacksStatusHandler(db, Some(UpdateRequest(uid, status))).writes == [SuccessResponse(NoData)]
  {
  }
}
