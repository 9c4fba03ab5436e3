/** Commissioned artwork requests (payments/models.py `CustomArtOrder`,
    and `customize_art`, `artist_update_order_status` in
    payments/views.py). */
module CustomOrders {
  import opened Common

  /** The five `STATUS_CHOICES`. */
  datatype CustomStatus = Pending | Accepted | InProgress | Completed | Rejected

  /** The value stored in the `status` column. */
  function StatusName(s: CustomStatus): (name: string)
    ensures name != ""
  {
    match s
    case Pending => "pending"
    case Accepted => "accepted"
    case InProgress => "in_progress"
    case Completed => "completed"
    case Rejected => "rejected"
  }

  /** The check `new_status in valid_statuses`: the status a posted string
      names, if it names one. */
  function ParseStatus(text: string): (r: Option<CustomStatus>)
    ensures r.Some? ==> StatusName(r.value) == text
  {
    if text == "pending" then Some(Pending)
    else if text == "accepted" then Some(Accepted)
    else if text == "in_progress" then Some(InProgress)
    else if text == "completed" then Some(Completed)
    else if text == "rejected" then Some(Rejected)
    else None
  }

  /** Every status is accepted under its own name, so exactly the five
      names pass the check. */
  lemma ParseStatusName(s: CustomStatus)
    ensures ParseStatus(StatusName(s)) == Some(s)
  {
  }

  /** A `CustomArtOrder` row. Times are clock readings supplied by the
      caller; `completedAt` is null until the order is first completed. */
  datatype CustomArtOrder = CustomArtOrder(
    id: OrderId,
    user: UserId,
    title: string,
    artType: string,
    description: string,
    length: string,
    budget: Cents,
    artistRequest: string,
    status: CustomStatus,
    createdAt: int,
    completedAt: Option<int>)

  /** The fields `customize_art` reads from the POST; a missing field is
      `None`. `assignedArtist` is `None` also when the posted value is
      empty. */
  datatype CustomRequest = CustomRequest(
    title: Option<string>,
    artType: Option<string>,
    description: Option<string>,
    length: Option<string>,
    budget: Option<Cents>,
    artistRequest: Option<string>,
    assignedArtist: Option<UserId>)

  /** The row `customize_art` leaves behind: the posted fields (empty
      strings and a 0 budget when absent), status `pending`, accepted
      when an assigned artist was posted and is a staff user. */
  function NewCustomOrder(id: OrderId, user: UserId, req: CustomRequest, staff: set<UserId>, now: int)
    : (o: CustomArtOrder)
    ensures o.id == id && o.user == user && o.createdAt == now && o.completedAt == None
    ensures o.status == Accepted <==> req.assignedArtist.Some? && req.assignedArtist.value in staff
    ensures o.status != Accepted ==> o.status == Pending
    ensures o.title == req.title.GetOr("") && o.artType == req.artType.GetOr("")
    ensures o.description == req.description.GetOr("") && o.length == req.length.GetOr("")
    ensures o.budget == req.budget.GetOr(0) && o.artistRequest == req.artistRequest.GetOr("")
  {
    var created := CustomArtOrder(id, user, req.title.GetOr(""), req.artType.GetOr(""),
                                  req.description.GetOr(""), req.length.GetOr(""),
                                  req.budget.GetOr(0), req.artistRequest.GetOr(""),
                                  Pending, now, None);
    match req.assignedArtist
    case Some(artist) => if artist in staff then created.(status := Accepted) else created
    case None => created
  }

  /** Setting a valid new status. Any status may follow any other, and
      `completedAt` is stamped with `now` on entering `completed` and
      otherwise kept, never cleared. Nothing else changes. */
  function Restatus(o: CustomArtOrder, s: CustomStatus, now: int): (r: CustomArtOrder)
    ensures r.status == s
    ensures s == Completed ==> r.completedAt == Some(now)
    ensures s != Completed ==> r.completedAt == o.completedAt
    ensures r.(status := o.status, completedAt := o.completedAt) == o
  {
    o.(status := s, completedAt := if s == Completed then Some(now) else o.completedAt)
  }

  /** What the table keeps: a completed order carries its completion time. */
  predicate StampedWhenCompleted(o: CustomArtOrder) {
    o.status == Completed ==> o.completedAt.Some?
  }

  /** A fresh order satisfies it, and every status change keeps it. */
  lemma StampKept(o: CustomArtOrder, s: CustomStatus, now: int, id: OrderId, user: UserId,
                  req: CustomRequest, staff: set<UserId>)
    ensures StampedWhenCompleted(NewCustomOrder(id, user, req, staff, now))
    ensures StampedWhenCompleted(o) ==> StampedWhenCompleted(Restatus(o, s, now))
  {
  }

  /** A completion time, once set, is never cleared, whatever statuses
      follow. */
  lemma {:induction false} CompletedAtNeverCleared(o: CustomArtOrder, steps: seq<(CustomStatus, int)>)
    requires o.completedAt.Some?
    ensures RestatusAll(o, steps).completedAt.Some?
    decreases |steps|
  {
    if steps != [] {
      CompletedAtNeverCleared(Restatus(o, steps[0].0, steps[0].1), steps[1..]);
    }
  }

  /** A run of valid status changes, each with its own clock reading. */
  function RestatusAll(o: CustomArtOrder, steps: seq<(CustomStatus, int)>): CustomArtOrder
    decreases |steps|
  {
    if steps == [] then o else RestatusAll(Restatus(o, steps[0].0, steps[0].1), steps[1..])
  }

  /** The completion time does not mean the order is completed: an order
      moved from `completed` back to `in_progress` keeps its stamp. */
  lemma CompletedAtOutlivesCompletion(o: CustomArtOrder, t1: int, t2: int)
    ensures var r := Restatus(Restatus(o, Completed, t1), InProgress, t2);
      r.status == InProgress && r.completedAt == Some(t1)
  {
  }

  /** What the two views answer. */
  datatype CustomResponse =
    | CustomizePage(staff: set<UserId>)                // the empty form, with the staff to choose from
    | RedirectCustomOrderDetail(pk: OrderId)
    | CustomOrderNotFound
    | UpdateStatusPage(order: CustomArtOrder)          // the form again, with the order as it is

  /** The `CustomArtOrder` table. Rows are never deleted, so the row at
      index `i` has primary key `i + 1`. */
  class CustomOrderBook {
    var orders: seq<CustomArtOrder>

    ghost predicate Valid()
      reads this
    {
      forall i :: 0 <= i < |orders| ==> orders[i].id == i + 1 && StampedWhenCompleted(orders[i])
    }

    constructor ()
      ensures Valid() && orders == []
    {
      orders := [];
    }

    /** `customize_art`: a GET shows the form; a POST creates exactly one
        order for the caller, as `NewCustomOrder` describes, and shows it. */
    method Customize(user: UserId, isPost: bool, req: CustomRequest, staff: set<UserId>, now: int)
      returns (r: CustomResponse)
      requires Valid()
      modifies this
      ensures Valid()
      ensures !isPost ==> r == CustomizePage(staff) && orders == old(orders)
      ensures isPost ==>
        && orders == old(orders) + [NewCustomOrder(|old(orders)| + 1, user, req, staff, now)]
        && r == RedirectCustomOrderDetail(|old(orders)| + 1)
    {
      if !isPost {
        return CustomizePage(staff);
      }
      var pk := |orders| + 1;
      orders := orders + [NewCustomOrder(pk, user, req, staff, now)];
      r := RedirectCustomOrderDetail(pk);
    }

    /** `artist_update_order_status`. Only the order's assigned artist
        finds it (`isAssignedArtist` stands for that lookup); a POST of one
        of the five status names applies `Restatus` and shows the order;
        anything else shows the form and changes nothing. */
    method UpdateStatus(pk: OrderId, isAssignedArtist: bool, isPost: bool, newStatus: Option<string>, now: int)
      returns (r: CustomResponse)
      requires Valid()
      modifies this
      ensures Valid()
      ensures !(1 <= pk <= |old(orders)| && isAssignedArtist) ==>
        r == CustomOrderNotFound && orders == old(orders)
      ensures 1 <= pk <= |old(orders)| && isAssignedArtist && isPost
              && newStatus.Some? && ParseStatus(newStatus.value).Some? ==>
        && orders == old(orders)[pk - 1 := Restatus(old(orders)[pk - 1], ParseStatus(newStatus.value).value, now)]
        && r == RedirectCustomOrderDetail(pk)
      ensures 1 <= pk <= |old(orders)| && isAssignedArtist
              && !(isPost && newStatus.Some? && ParseStatus(newStatus.value).Some?) ==>
        r == UpdateStatusPage(old(orders)[pk - 1]) && orders == old(orders)
    {
      if !(1 <= pk <= |orders| && isAssignedArtist) {
        return CustomOrderNotFound;
      }
      if isPost && newStatus.Some? {
        var parsed := ParseStatus(newStatus.value);
        if parsed.Some? {
          orders := orders[pk - 1 := Restatus(orders[pk - 1], parsed.value, now)];
          return RedirectCustomOrderDetail(pk);
        }
      }
      r := UpdateStatusPage(orders[pk - 1]);
    }
  }
}
