/**
 * app/api/staff/unassigned/route.ts: the queue of tickets nobody has claimed
 * (GET) and the claim of one of them by a staff member (POST), a
 * compare-and-set that only succeeds while the ticket is still unassigned.
 */
module UnassignedRoute {
  import opened Wrappers
  import opened Store

  /** `.is("staff_id", null)`. */
  predicate Unassigned(t: Ticket) {
    t.staffId.None?
  }

  /** The unassigned queue: every ticket without a staff member, newest first. */
  function Get(tickets: seq<Ticket>, selectError: Option<DbError>): (r: Response<seq<Ticket>>)
    ensures selectError.Some? ==> r == Fail(500, selectError.value.message)
    ensures selectError.None? ==> r.Ok?
    ensures r.Ok? ==>
      && (forall t :: t in r.body <==> t in tickets && t.staffId.None?)
      && (forall t :: multiset(r.body)[t] == if t.staffId.None? then multiset(tickets)[t] else 0)
      && NewestFirst(r.body)
  {
    if selectError.Some? then Fail(500, selectError.value.message)
    else
      QueryExactly(tickets, Unassigned);
      Ok(Query(tickets, Unassigned))
  }

  /** The JSON body of a claim; absent fields are `None`. */
  datatype ClaimBody = ClaimBody(ticketId: Option<string>, staffId: Option<string>)

  /** Some row holding `ticketId` is still unassigned. */
  ghost predicate HasClaimable(tickets: seq<Ticket>, ticketId: Id) {
    exists i :: 0 <= i < |tickets| && Claimable(tickets[i], ticketId)
  }

  /**
   * A claim. `body` is `None` when the request is not valid JSON. The
   * update succeeds only while the ticket's `staff_id` is still null; a
   * ticket that is taken (or does not exist) gives 409.
   */
  method Post(db: Database, body: Option<ClaimBody>, updateError: Option<DbError>, now: int)
    returns (r: Response<()>)
    requires db.Valid()
    modifies db
    ensures db.Valid()
    ensures db.appUsers == old(db.appUsers) && db.staff == old(db.staff)
    ensures body.None? ==> r == Fail(400, "Invalid JSON") && db.tickets == old(db.tickets)
    ensures body.Some? && !(Given(body.value.ticketId) && Given(body.value.staffId)) ==>
      r == Fail(400, "Missing ticket_id or staff_id") && db.tickets == old(db.tickets)
    ensures body.Some? && Given(body.value.ticketId) && Given(body.value.staffId) ==>
      var tid := body.value.ticketId.value;
      var sid := body.value.staffId.value;
      if updateError.Some? then
        r == Fail(500, updateError.value.message) && db.tickets == old(db.tickets)
      else
        && db.tickets == Claimed(old(db.tickets), tid, sid, now)
        && (r == Ok(()) <==> HasClaimable(old(db.tickets), tid))
        && (r != Ok(()) ==> r == Fail(409, "Ticket already claimed"))
  {
    if body.None? {
      return Fail(400, "Invalid JSON");
    }
    var ticketId := body.value.ticketId;
    var staffId := body.value.staffId;
    if !Given(ticketId) || !Given(staffId) {
      return Fail(400, "Missing ticket_id or staff_id");
    }
    if updateError.Some? {
      return Fail(500, updateError.value.message);
    }
    var matched := db.ClaimUpdate(ticketId.value, staffId.value, now);
    if !matched {
      return Fail(409, "Ticket already claimed");
    }
    return Ok(());
  }

  /**
   * A claim touches exactly the one ticket it names, and only while that
   * ticket is unassigned: that row gets the claimer and the new timestamp,
   * every other row (and every other field) stays as it was.
   */
  lemma {:induction false} ClaimedEffect(tickets: seq<Ticket>, ticketId: Id, staffId: Id, now: int)
    requires UniqueTicketIds(tickets)
    ensures forall i :: 0 <= i < |tickets| ==>
      Claimed(tickets, ticketId, staffId, now)[i] ==
        if tickets[i].id == ticketId && tickets[i].staffId.None?
        then tickets[i].(staffId := Some(staffId), updatedAt := now)
        else tickets[i]
    ensures !HasClaimable(tickets, ticketId) ==> Claimed(tickets, ticketId, staffId, now) == tickets
    ensures HasClaimable(tickets, ticketId) ==>
      exists k :: 0 <= k < |tickets| && Claimable(tickets[k], ticketId) &&
        Claimed(tickets, ticketId, staffId, now) == tickets[k := tickets[k].(staffId := Some(staffId), updatedAt := now)]
  {
    var r := Claimed(tickets, ticketId, staffId, now);
    if HasClaimable(tickets, ticketId) {
      var k :| 0 <= k < |tickets| && Claimable(tickets[k], ticketId);
      var expected := tickets[k := tickets[k].(staffId := Some(staffId), updatedAt := now)];
      forall i | 0 <= i < |tickets| ensures r[i] == expected[i] {
        if i != k {
          assert tickets[i].id != ticketId by {
            if i < k { assert tickets[i].id != tickets[k].id; }
            else { assert tickets[k].id != tickets[i].id; }
          }
        }
      }
      assert r == expected;
    } else {
      forall i | 0 <= i < |tickets| ensures r[i] == tickets[i] {
        assert !Claimable(tickets[i], ticketId);
      }
      assert r == tickets;
    }
  }

  /**
   * Two claims of the same ticket, one after the other (the store runs each
   * update atomically): after the first, nothing is claimable any more, so
   * the second changes nothing and the ticket keeps its first claimer.
   */
  lemma {:induction false} SecondClaimLoses(tickets: seq<Ticket>, ticketId: Id,
                                            first: Id, second: Id, t1: int, t2: int)
    ensures !HasClaimable(Claimed(tickets, ticketId, first, t1), ticketId)
    ensures Claimed(Claimed(tickets, ticketId, first, t1), ticketId, second, t2) ==
            Claimed(tickets, ticketId, first, t1)
    ensures forall i :: 0 <= i < |tickets| && tickets[i].id == ticketId ==>
      Claimed(tickets, ticketId, first, t1)[i].staffId ==
        (if tickets[i].staffId.None? then Some(first) else tickets[i].staffId)
  {
    var once := Claimed(tickets, ticketId, first, t1);
    forall i | 0 <= i < |once| ensures !Claimable(once[i], ticketId) {
      if tickets[i].id == ticketId {
        assert once[i].staffId.Some?;
      }
    }
    var twice := Claimed(once, ticketId, second, t2);
    forall i | 0 <= i < |once| ensures twice[i] == once[i] {
      assert !Claimable(once[i], ticketId);
    }
    assert twice == once;
  }
}
