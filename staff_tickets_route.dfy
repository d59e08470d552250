/** app/api/staff/tickets/route.ts: the tickets a staff member holds. */
module StaffTicketsRoute {
  import opened Wrappers
  import opened Store

  /** `.eq("staff_id", staffId)`. */
  function AssignedTo(staffId: Id): Ticket -> bool {
    (t: Ticket) => t.staffId == Some(staffId)
  }

  /**
   * `GET ?staff_id=…`: 400 without a (non-empty) `staff_id`, 500 on a store
   * error, otherwise every ticket held by that staff member, newest first.
   */
  function Get(tickets: seq<Ticket>, staffId: Option<string>, selectError: Option<DbError>)
    : (r: Response<seq<Ticket>>)
    ensures !Given(staffId) ==> r == Fail(400, "Missing staff_id")
    ensures Given(staffId) && selectError.Some? ==> r == Fail(500, selectError.value.message)
    ensures Given(staffId) && selectError.None? ==> r.Ok?
    ensures r.Ok? ==>
      && (forall t :: t in r.body <==> t in tickets && t.staffId == staffId)
      && (forall t :: multiset(r.body)[t] == if t.staffId == staffId then multiset(tickets)[t] else 0)
      && NewestFirst(r.body)
  {
    if !Given(staffId) then Fail(400, "Missing staff_id")
    else if selectError.Some? then Fail(500, selectError.value.message)
    else
      QueryExactly(tickets, AssignedTo(staffId.value));
      Ok(Query(tickets, AssignedTo(staffId.value)))
  }
}
