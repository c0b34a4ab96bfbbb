/** Per-user notifications: a table whose owner checks keep every endpoint
    to the caller's own rows. The authenticated caller is given by id; the
    time the database stamps on a new row is a parameter. */
module Notifications {
  import opened Common
  import opened Sequences

  datatype Notification = Notification(
    id: nat,
    userId: nat,
    title: string,
    message: string,
    kind: Option<string>,
    isRead: bool,
    createdAt: int)

  /** The body of `POST /notifications/create`; `type` may be left out. */
  datatype NotificationCreate = NotificationCreate(title: string, message: string, kind: Option<string>)

  function OwnedBy(userId: nat): Notification -> bool
  {
    (n: Notification) => n.userId == userId
  }

  /** ORDER BY created_at DESC as an ascending key. */
  function Newest(n: Notification): int
  {
    -n.createdAt
  }

  const NotFound := Error(404, "Notification not found")

  /** The row with this id that belongs to this user, if any:
      `filter(id == notification_id, user_id == current_user.id).first()`. */
  function FindOwned(rows: seq<Notification>, id: nat, userId: nat): (k: Option<nat>)
    ensures k.Some? ==> k.value < |rows| && rows[k.value].id == id && rows[k.value].userId == userId
    ensures k.None? <==> forall i :: 0 <= i < |rows| ==> !(rows[i].id == id && rows[i].userId == userId)
    ensures k.Some? ==> forall i :: 0 <= i < k.value ==> !(rows[i].id == id && rows[i].userId == userId)
  {
    if rows == [] then None
    else if rows[0].id == id && rows[0].userId == userId then Some(0)
    else
      match FindOwned(rows[1..], id, userId)
      case None => (assert forall i :: 1 <= i < |rows| ==> rows[i] == rows[1..][i - 1]; None)
      case Some(k) => Some(k + 1)
  }

  /** The table after `mark_as_read`. */
  function AfterMark(rows: seq<Notification>, id: nat, userId: nat): (after: seq<Notification>)
    ensures |after| == |rows|
    ensures forall i :: 0 <= i < |rows| ==>
      after[i] == if FindOwned(rows, id, userId) == Some(i) then rows[i].(isRead := true) else rows[i]
  {
    match FindOwned(rows, id, userId)
    case None => rows
    case Some(k) => rows[k := rows[k].(isRead := true)]
  }

  /** The table after `delete_notification`. */
  function AfterDelete(rows: seq<Notification>, id: nat, userId: nat): (after: seq<Notification>)
    ensures FindOwned(rows, id, userId).None? ==> after == rows
    ensures FindOwned(rows, id, userId).Some? ==>
      var k := FindOwned(rows, id, userId).value;
      |after| == |rows| - 1 && after == rows[..k] + rows[k + 1..]
  {
    match FindOwned(rows, id, userId)
    case None => rows
    case Some(k) => rows[..k] + rows[k + 1..]
  }

  /** Marking only ever sets one flag on one of the caller's rows; every
      other row and every other field stays as it was. */
  lemma MarkTouchesOnlyOwnRow(rows: seq<Notification>, id: nat, userId: nat, i: nat)
    requires i < |rows|
    ensures var after := AfterMark(rows, id, userId);
      && after[i].(isRead := rows[i].isRead) == rows[i]
      && (after[i] != rows[i] ==> rows[i].userId == userId && rows[i].id == id && after[i].isRead)
  {
  }

  /** Marking the same notification twice is the same as marking it once. */
  lemma {:induction false} MarkIdempotent(rows: seq<Notification>, id: nat, userId: nat)
    ensures AfterMark(AfterMark(rows, id, userId), id, userId) == AfterMark(rows, id, userId)
  {
    var once := AfterMark(rows, id, userId);
    match FindOwned(rows, id, userId)
    case None =>
    case Some(k) =>
      assert forall i :: 0 <= i < |rows| ==> (once[i].id == rows[i].id && once[i].userId == rows[i].userId);
      assert FindOwned(once, id, userId) == Some(k);
  }

  /** Deleting removes nothing of any other user. */
  lemma DeleteKeepsOthers(rows: seq<Notification>, id: nat, userId: nat, other: nat)
    requires other != userId
    ensures Filter(AfterDelete(rows, id, userId), OwnedBy(other)) == Filter(rows, OwnedBy(other))
  {
    match FindOwned(rows, id, userId)
    case None =>
    case Some(k) =>
      assert rows == rows[..k] + [rows[k]] + rows[k + 1..];
      FilterAppend(rows[..k] + [rows[k]], rows[k + 1..], OwnedBy(other));
      FilterAppend(rows[..k], [rows[k]], OwnedBy(other));
      FilterAppend(rows[..k], rows[k + 1..], OwnedBy(other));
  }

  /** `get_my_notifications` over a table: the caller's rows, newest first. */
  function MyNotifications(rows: seq<Notification>, userId: nat): (r: seq<Notification>)
    ensures multiset(r) == multiset(Filter(rows, OwnedBy(userId)))
    ensures forall i :: 0 <= i < |r| ==> r[i].userId == userId
    ensures forall i, j :: 0 <= i < j < |r| ==> r[i].createdAt >= r[j].createdAt
  {
    var mine := Filter(rows, OwnedBy(userId));
    var r := SortBy(mine, Newest);
    SortBySorted(mine, Newest);
    forall i | 0 <= i < |r|
      ensures r[i].userId == userId
    {
      assert r[i] in multiset(mine);
      assert r[i] in mine;
      assert OwnedBy(userId)(r[i]);
    }
    r
  }

  /** Every ordered listing is complete: each of the caller's rows is in it. */
  lemma MyNotificationsComplete(rows: seq<Notification>, userId: nat, i: nat)
    requires i < |rows| && rows[i].userId == userId
    ensures rows[i] in MyNotifications(rows, userId)
  {
    assert rows[i] in Filter(rows, OwnedBy(userId));
    assert rows[i] in multiset(MyNotifications(rows, userId));
  }

  predicate UniqueIds(rows: seq<Notification>, nextId: nat)
  {
    && (forall i :: 0 <= i < |rows| ==> rows[i].id < nextId)
    && (forall i, j :: 0 <= i < j < |rows| ==> rows[i].id != rows[j].id)
  }

  class NotificationTable {
    var rows: seq<Notification>
    var nextId: nat

    ghost predicate Valid()
      reads this
    {
      UniqueIds(rows, nextId)
    }

    constructor ()
      ensures Valid() && rows == [] && nextId == 1
    {
      rows := [];
      nextId := 1;
    }

    /** `POST /notifications/create`: a new unread row owned by the caller. */
    method Create(userId: nat, req: NotificationCreate, now: int) returns (n: Notification)
      requires Valid()
      modifies this
      ensures Valid()
      ensures n == Notification(old(nextId), userId, req.title, req.message, req.kind, false, now)
      ensures rows == old(rows) + [n] && nextId == old(nextId) + 1
    {
      n := Notification(nextId, userId, req.title, req.message, req.kind, false, now);
      rows := rows + [n];
      nextId := nextId + 1;
    }

    /** `GET /notifications/my_notifications`: every stored row of the caller
        and no other, newest first. */
    function GetMyNotifications(userId: nat): (r: seq<Notification>)
      reads this
      ensures multiset(r) == multiset(Filter(rows, OwnedBy(userId)))
      ensures forall i :: 0 <= i < |r| ==> r[i].userId == userId
      ensures forall i, j :: 0 <= i < j < |r| ==> r[i].createdAt >= r[j].createdAt
    {
      MyNotifications(rows, userId)
    }

    /** `PUT /notifications/mark_as_read/{id}`: 404 unless the caller owns a
        row with that id, which is then marked read and returned. */
    method MarkAsRead(id: nat, userId: nat) returns (r: Result<Notification, HttpError>)
      requires Valid()
      modifies this
      ensures Valid() && nextId == old(nextId)
      ensures rows == AfterMark(old(rows), id, userId)
      ensures FindOwned(old(rows), id, userId).None? <==> r == Err(NotFound)
      ensures r.Ok? <==> FindOwned(old(rows), id, userId).Some?
      ensures r.Ok? ==> var k := FindOwned(old(rows), id, userId).value;
        r.value == rows[k] && r.value == old(rows)[k].(isRead := true)
    {
      var k := FindOwned(rows, id, userId);
      if k.None? {
        return Err(NotFound);
      }
      rows := rows[k.value := rows[k.value].(isRead := true)];
      r := Ok(rows[k.value]);
    }

    /** `DELETE /notifications/delete/{id}`: 404 unless the caller owns a row
        with that id, which is then removed. */
    method Delete(id: nat, userId: nat) returns (r: Result<string, HttpError>)
      requires Valid()
      modifies this
      ensures Valid() && nextId == old(nextId)
      ensures rows == AfterDelete(old(rows), id, userId)
      ensures FindOwned(old(rows), id, userId).None? <==> r == Err(NotFound)
      ensures r.Ok? <==> FindOwned(old(rows), id, userId).Some?
      ensures r.Ok? ==> r.value == "Notification deleted successfully"
    {
      var k := FindOwned(rows, id, userId);
      if k.None? {
        return Err(NotFound);
      }
      rows := rows[..k.value] + rows[k.value + 1..];
      r := Ok("Notification deleted successfully");
    }
  }

  /** A user cannot mark or delete another user's notification. */
  method OwnershipScenario(alice: nat, bob: nat, req: NotificationCreate)
    requires alice != bob
  {
    var table := new NotificationTable();
    var n := table.Create(alice, req, 100);
    var marked := table.MarkAsRead(n.id, bob);
    assert marked == Err(NotFound);
    var deleted := table.Delete(n.id, bob);
    assert deleted == Err(NotFound);
    assert table.rows == [n];
    assert FindOwned(table.rows, n.id, alice) == Some(0);
    var mine := table.MarkAsRead(n.id, alice);
    assert mine.Ok? && mine.value.isRead;
    var gone := table.Delete(n.id, alice);
    assert gone.Ok? && table.rows == [];
  }
}
