/** Per-user feedback: a rating range check in front of an append-only
    table, and a listing of the caller's own entries. */
module Feedbacks {
  import opened Common
  import opened Sequences

  datatype Feedback = Feedback(id: nat, userId: nat, rating: int, category: string, comment: string, createdAt: int)

  datatype FeedbackCreate = FeedbackCreate(rating: int, category: string, comment: string)

  /** The reply of `GET /feedbacks/my_feedbacks`: a message only when the list is empty. */
  datatype FeedbackList = FeedbackList(message: Option<string>, feedbacks: seq<Feedback>)

  const RatingError := Error(400, "Rating must be between 1 and 5.")
  const NoFeedbacks := "No feedbacks found for this user"

  function FromUser(userId: nat): Feedback -> bool
  {
    (f: Feedback) => f.userId == userId
  }

  /** The rows the listing returns: the caller's, in storage order. */
  function UserFeedbacks(rows: seq<Feedback>, userId: nat): (r: seq<Feedback>)
    ensures forall i :: 0 <= i < |r| ==> r[i].userId == userId && r[i] in rows
    ensures forall i :: 0 <= i < |rows| && rows[i].userId == userId ==> rows[i] in r
  {
    var r := Filter(rows, FromUser(userId));
    assert forall i :: 0 <= i < |r| ==> r[i] in r;
    assert forall i :: 0 <= i < |rows| ==> rows[i] in rows;
    r
  }

  /** The listing for a table. */
  function ListFeedbacks(rows: seq<Feedback>, userId: nat): (r: FeedbackList)
    ensures r.feedbacks == UserFeedbacks(rows, userId)
    ensures r.message.Some? <==> (forall i :: 0 <= i < |rows| ==> rows[i].userId != userId)
    ensures r.message.Some? ==> r.message.value == NoFeedbacks && r.feedbacks == []
  {
    var mine := UserFeedbacks(rows, userId);
    if mine == [] then FeedbackList(Some(NoFeedbacks), [])
    else
      assert mine[0] in rows;
      FeedbackList(None, mine)
  }

  /** A new entry shows up at the end of its author's listing and nowhere else. */
  lemma AppendShowsForAuthorOnly(rows: seq<Feedback>, f: Feedback, userId: nat)
    ensures f.userId == userId ==> UserFeedbacks(rows + [f], userId) == UserFeedbacks(rows, userId) + [f]
    ensures f.userId != userId ==> UserFeedbacks(rows + [f], userId) == UserFeedbacks(rows, userId)
  {
    FilterSnoc(rows, f, FromUser(userId));
  }

  class FeedbackTable {
    var rows: seq<Feedback>
    var nextId: nat

    ghost predicate Valid()
      reads this
    {
      && (forall i :: 0 <= i < |rows| ==> rows[i].id < nextId && 1 <= rows[i].rating <= 5)
      && (forall i, j :: 0 <= i < j < |rows| ==> rows[i].id != rows[j].id)
    }

    constructor ()
      ensures Valid() && rows == [] && nextId == 1
    {
      rows := [];
      nextId := 1;
    }

    /** `POST /feedbacks/add_feedback`: a rating outside 1..5 is refused and
        stores nothing; otherwise one row with the caller's id and the
        request's fields unchanged. */
    method CreateFeedback(userId: nat, req: FeedbackCreate, now: int) returns (r: Result<Feedback, HttpError>)
      requires Valid()
      modifies this
      ensures Valid()
      ensures (req.rating < 1 || req.rating > 5) <==> r == Err(RatingError)
      ensures r.Ok? <==> 1 <= req.rating <= 5
      ensures r.Err? ==> rows == old(rows) && nextId == old(nextId)
      ensures r.Ok? ==>
        && r.value == Feedback(old(nextId), userId, req.rating, req.category, req.comment, now)
        && rows == old(rows) + [r.value] && nextId == old(nextId) + 1
    {
      if req.rating < 1 || req.rating > 5 {
        return Err(RatingError);
      }
      var f := Feedback(nextId, userId, req.rating, req.category, req.comment, now);
      rows := rows + [f];
      nextId := nextId + 1;
      r := Ok(f);
    }

    /** `GET /feedbacks/my_feedbacks`: the caller's entries, or the message
        when there are none. */
    function GetMyFeedbacks(userId: nat): (r: FeedbackList)
      reads this
      ensures forall i :: 0 <= i < |r.feedbacks| ==> r.feedbacks[i].userId == userId && r.feedbacks[i] in rows
      ensures forall i :: 0 <= i < |rows| && rows[i].userId == userId ==> rows[i] in r.feedbacks
      ensures r.message.Some? <==> (forall i :: 0 <= i < |rows| ==> rows[i].userId != userId)
      ensures r.message.Some? ==> r.message.value == NoFeedbacks && r.feedbacks == []
    {
      ListFeedbacks(rows, userId)
    }
  }

  /** A user with no feedback gets the message; after one accepted entry the
      list holds exactly that entry. */
  method FeedbackScenario(alice: nat, bob: nat, req: FeedbackCreate)
    requires alice != bob && 1 <= req.rating <= 5
  {
    var table := new FeedbackTable();
    assert table.GetMyFeedbacks(alice) == FeedbackList(Some(NoFeedbacks), []);
    var bad := table.CreateFeedback(alice, req.(rating := 6), 0);
    assert bad == Err(RatingError) && table.rows == [];
    var ok := table.CreateFeedback(alice, req, 0);
    AppendShowsForAuthorOnly([], ok.value, alice);
    AppendShowsForAuthorOnly([], ok.value, bob);
    assert table.GetMyFeedbacks(alice).feedbacks == [ok.value];
    assert table.GetMyFeedbacks(bob).message == Some(NoFeedbacks);
  }
}
