/**
 * The feedback table (server/internal/data/feedback.go). Its `uid` column has no
 * unique index, so an update by uid touches every row holding that uid.
 */
module FeedbackStore {
  import opened Wrappers
  import opened Entities
  import Seqs

  // The review states of a feedback entry; any other integer is stored as given.
  const Pending: int := 0
  const Approved: int := 1
  const Rejected: int := 2

  /**
   * The rows in insertion order: the table has no primary key, and a read without
   * `ORDER BY` is taken to return rows as they were inserted. `up` as for the
   * other stores.
   */
  datatype FeedbackDb = FeedbackDb(rows: seq<Feedback>, up: bool)

  datatype FeedbackError = Unavailable

  /** `AddFeedbackToDB`: inserts one row. */
  function AddFeedbackToDB(db: FeedbackDb, f: Feedback): (r: Result<FeedbackDb, FeedbackError>)
    ensures r.Ok? <==> db.up
    ensures r.Ok? ==> r.value.rows == db.rows + [f] && r.value.up
  {
    if !db.up then Err(Unavailable) else Ok(db.(rows := db.rows + [f]))
  }

  /** `GetAllFeedbacksFromDB`. */
  function AllFeedbacks(db: FeedbackDb): (r: Result<seq<Feedback>, FeedbackError>)
    ensures r.Ok? <==> db.up
    ensures r.Ok? ==> r.value == db.rows
  {
    if !db.up then Err(Unavailable) else Ok(db.rows)
  }

  function HasStatus(status: int): Feedback -> bool {
    (f: Feedback) => f.status == status
  }

  /** `GetFeedbacksByStatusFromDB`: the rows with that status, in table order. */
  function FeedbacksByStatus(db: FeedbackDb, status: int): (r: Result<seq<Feedback>, FeedbackError>)
    ensures r.Ok? <==> db.up
    ensures r.Ok? ==> forall i :: 0 <= i < |r.value| ==> r.value[i] in db.rows && r.value[i].status == status
    ensures r.Ok? ==> forall i :: 0 <= i < |db.rows| && db.rows[i].status == status ==> db.rows[i] in r.value
  {
    if !db.up then Err(Unavailable) else Ok(Seqs.Filter(db.rows, HasStatus(status)))
  }

  function SetStatus(f: Feedback, uid: string, status: int): Feedback {
    if f.uid == uid then f.(status := status) else f
  }

  /**
   * `UpdateFeedbacksStatus`: every row with that uid gets the new status; all other
   * columns, and every row with another uid, stay as they were.
   */
  function UpdateFeedbacksStatus(db: FeedbackDb, uid: string, status: int): (r: Result<FeedbackDb, FeedbackError>)
    ensures r.Ok? <==> db.up
    ensures r.Ok? ==> |r.value.rows| == |db.rows| && r.value.up
    ensures r.Ok? ==> forall i :: 0 <= i < |db.rows| ==>
      r.value.rows[i].(status := db.rows[i].status) == db.rows[i] &&
      (db.rows[i].uid == uid ==> r.value.rows[i].status == status) &&
      (db.rows[i].uid != uid ==> r.value.rows[i] == db.rows[i])
  {
    if !db.up then Err(Unavailable)
    else Ok(db.(rows := seq(|db.rows|, i requires 0 <= i < |db.rows| => SetStatus(db.rows[i], uid, status))))
  }

  /** A feedback that was added is listed afterwards, as the last row. */
  lemma AddedFeedbackIsListed(db: FeedbackDb, f: Feedback)
    requires db.up
    ensures var after := AddFeedbackToDB(db, f).value;
      AllFeedbacks(after).Ok? && f in AllFeedbacks(after).value &&
      AllFeedbacks(after).value[|AllFeedbacks(after).value| - 1] == f
  {
  }

  /** An added feedback shows under its own status. */
  lemma AddedFeedbackFiltersByStatus(db: FeedbackDb, f: Feedback)
    requires db.up
    ensures var after := AddFeedbackToDB(db, f).value;
      f in FeedbacksByStatus(after, f.status).value
  {
    var after := AddFeedbackToDB(db, f).value;
    assert after.rows[|db.rows|] == f;
  }

  /**
   * After an update, filtering by the new status lists every row with that uid, and
   * a second identical update changes nothing.
   */
  lemma UpdateThenFilter(db: FeedbackDb, uid: string, status: int)
    requires db.up
    ensures var after := UpdateFeedbacksStatus(db, uid, status).value;
      (forall i :: 0 <= i < |after.rows| && after.rows[i].uid == uid ==> after.rows[i] in FeedbacksByStatus(after, status).value) &&
      UpdateFeedbacksStatus(after, uid, status) == Ok(after)
  {
    var after := UpdateFeedbacksStatus(db, uid, status).value;
    var again := UpdateFeedbacksStatus(after, uid, status).value;
    assert again.rows == after.rows;
  }
}
