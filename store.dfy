/**
 * The relational store the route handlers talk to: the `app_user`, `staff`
 * and `ticket` tables, the row-level primitives the handlers use (select by
 * email, insert with a generated id, the `increment_ticket_count` procedure,
 * the conditional update) and the filtered, newest-first ticket query.
 *
 * Each primitive is one atomic step; concurrent requests are modelled by
 * the handlers as explicit interleavings of these steps.
 */
module Store {
  import opened Wrappers
  import Seqs

  /** Row ids are strings (uuids generated by the database). */
  type Id = string

  datatype Status = ToDo | InProgress | Completed

  datatype Ticket = Ticket(
    id: Id,
    title: string,
    message: string,
    status: Status,
    userId: Option<Id>,
    staffId: Option<Id>,
    priority: Option<string>,
    department: Option<string>,
    estimate: Option<int>,
    createdAt: int,
    updatedAt: int)

  datatype Staff = Staff(
    id: Id,
    email: string,
    name: Option<string>,
    department: Option<string>,
    ticketAssigned: Option<int>)

  datatype AppUser = AppUser(id: Id, email: string, name: Option<string>)

  /** An error as the client library reports it: a Postgres error code and a message. */
  datatype DbError = DbError(code: string, message: string)

  /** Postgres's code for a unique-constraint violation. */
  const UniqueViolation: string := "23505"

  const DuplicateKey: DbError :=
    DbError(UniqueViolation, "duplicate key value violates unique constraint")

  /** The `serial`-th id the database hands out; longer than every earlier one. */
  function IdFor(serial: nat): (id: Id)
    ensures |id| == serial + 1
  {
    seq(serial + 1, _ => '#')
  }

  /** A staff member's load as the router reads it: `ticket_assigned ?? 0`. */
  function Load(s: Staff): int {
    s.ticketAssigned.GetOr(0)
  }

  ghost predicate UniqueUserEmails(users: seq<AppUser>) {
    forall i, j :: 0 <= i < j < |users| ==> users[i].email != users[j].email
  }

  ghost predicate UniqueStaffKeys(staff: seq<Staff>) {
    forall i, j :: 0 <= i < j < |staff| ==>
      staff[i].email != staff[j].email && staff[i].id != staff[j].id
  }

  ghost predicate UniqueTicketIds(tickets: seq<Ticket>) {
    forall i, j :: 0 <= i < j < |tickets| ==> tickets[i].id != tickets[j].id
  }

  /** The row holding `email`, as `.eq("email", email).maybeSingle()` returns it. */
  function UserByEmail(users: seq<AppUser>, email: string): (r: Option<AppUser>)
    ensures r.Some? ==> r.value in users && r.value.email == email
    ensures r.None? ==> forall u :: u in users ==> u.email != email
  {
    if users == [] then None
    else if users[0].email == email then Some(users[0])
    else UserByEmail(users[1..], email)
  }

  function StaffByEmail(staff: seq<Staff>, email: string): (r: Option<Staff>)
    ensures r.Some? ==> r.value in staff && r.value.email == email
    ensures r.None? ==> forall s :: s in staff ==> s.email != email
  {
    if staff == [] then None
    else if staff[0].email == email then Some(staff[0])
    else StaffByEmail(staff[1..], email)
  }

  /** With unique emails, the select by email finds exactly the row holding it. */
  lemma {:induction false} UserByEmailFinds(users: seq<AppUser>, u: AppUser)
    requires UniqueUserEmails(users) && u in users
    ensures UserByEmail(users, u.email) == Some(u)
  {
    if users[0] != u {
      assert users[0].email != u.email by {
        var k :| 0 <= k < |users| && users[k] == u;
      }
      assert forall i, j :: 0 <= i < j < |users[1..]| ==> users[1..][i] == users[i + 1] && users[1..][j] == users[j + 1];
      UserByEmailFinds(users[1..], u);
    }
  }

  lemma {:induction false} StaffByEmailFinds(staff: seq<Staff>, s: Staff)
    requires UniqueStaffKeys(staff) && s in staff
    ensures StaffByEmail(staff, s.email) == Some(s)
  {
    if staff[0] != s {
      assert staff[0].email != s.email by {
        var k :| 0 <= k < |staff| && staff[k] == s;
      }
      assert forall i, j :: 0 <= i < j < |staff[1..]| ==> staff[1..][i] == staff[i + 1] && staff[1..][j] == staff[j + 1];
      StaffByEmailFinds(staff[1..], s);
    }
  }

  /**
   * The effect of `increment_ticket_count(staff_id)` on the staff table: the
   * row with that id gets `coalesce(ticket_assigned, 0) + 1`.
   */
  function Incremented(staff: seq<Staff>, id: Id): (r: seq<Staff>)
    ensures |r| == |staff|
    // rows of other staff members are untouched
    ensures forall i :: 0 <= i < |staff| && staff[i].id != id ==> r[i] == staff[i]
    // the row with the id differs only in its counter, which is now set and one above its old load
    ensures forall i :: 0 <= i < |staff| && staff[i].id == id ==>
      && r[i].(ticketAssigned := staff[i].ticketAssigned) == staff[i]
      && r[i].ticketAssigned.Some? && Load(r[i]) == Load(staff[i]) + 1
  {
    seq(|staff|, i requires 0 <= i < |staff| =>
      if staff[i].id == id then staff[i].(ticketAssigned := Some(Load(staff[i]) + 1)) else staff[i])
  }

  /** The sum of all loads: the number of routed tickets the counters account for. */
  function TotalLoad(staff: seq<Staff>): int {
    if staff == [] then 0 else Load(staff[0]) + TotalLoad(staff[1..])
  }

  /** A counter bump on a present, unique id raises the total load by exactly one. */
  lemma {:induction false} IncrementedTotal(staff: seq<Staff>, id: Id)
    requires UniqueStaffKeys(staff)
    requires exists i :: 0 <= i < |staff| && staff[i].id == id
    ensures TotalLoad(Incremented(staff, id)) == TotalLoad(staff) + 1
  {
    var r := Incremented(staff, id);
    assert r[1..] == Incremented(staff[1..], id);
    if staff[0].id == id {
      assert forall k :: 0 <= k < |staff[1..]| ==> staff[1..][k].id != id by {
        forall k | 0 <= k < |staff[1..]| ensures staff[1..][k].id != id {
          assert staff[1..][k] == staff[k + 1];
        }
      }
      IncrementedAbsent(staff[1..], id);
    } else {
      var i :| 0 <= i < |staff| && staff[i].id == id;
      assert staff[1..][i - 1].id == id;
      IncrementedTotal(staff[1..], id);
    }
  }

  /** A counter bump on an id no row holds changes nothing. */
  lemma {:induction false} IncrementedAbsent(staff: seq<Staff>, id: Id)
    requires forall i :: 0 <= i < |staff| ==> staff[i].id != id
    ensures Incremented(staff, id) == staff
  {
  }

  /** A counter bump keeps every key: emails and ids stay unique and within the issued range. */
  lemma IncrementedKeepsKeys(staff: seq<Staff>, id: Id, bound: nat)
    requires UniqueStaffKeys(staff)
    requires forall s :: s in staff ==> 0 < |s.id| <= bound
    ensures UniqueStaffKeys(Incremented(staff, id))
    ensures forall s :: s in Incremented(staff, id) ==> 0 < |s.id| <= bound
  {
    var r := Incremented(staff, id);
    assert forall i :: 0 <= i < |r| ==> r[i].id == staff[i].id && r[i].email == staff[i].email;
    forall s | s in r ensures 0 < |s.id| <= bound {
      var i :| 0 <= i < |r| && r[i] == s;
      assert staff[i] in staff;
    }
  }

  /** `n` successive bumps of the same staff member (n tickets routed to them). */
  function IncrementedTimes(staff: seq<Staff>, id: Id, n: nat): seq<Staff> {
    if n == 0 then staff else Incremented(IncrementedTimes(staff, id, n - 1), id)
  }

  /**
   * No lost update: after n atomic increments the chosen row's load is its
   * old load plus n, and nothing else in the table has changed.
   */
  lemma {:induction false} IncrementedTimesAdds(staff: seq<Staff>, id: Id, n: nat)
    ensures |IncrementedTimes(staff, id, n)| == |staff|
    ensures forall i :: 0 <= i < |staff| ==>
      && IncrementedTimes(staff, id, n)[i].(ticketAssigned := staff[i].ticketAssigned) == staff[i]
      && Load(IncrementedTimes(staff, id, n)[i]) == Load(staff[i]) + (if staff[i].id == id then n else 0)
  {
    if n > 0 {
      IncrementedTimesAdds(staff, id, n - 1);
    }
  }

  /** The rows `.eq("id", ticketId).is("staff_id", null)` matches. */
  predicate Claimable(t: Ticket, ticketId: Id) {
    t.id == ticketId && t.staffId.None?
  }

  /** The conditional update of a claim: matched rows get the claimer and a new `updated_at`. */
  function Claimed(tickets: seq<Ticket>, ticketId: Id, staffId: Id, now: int): (r: seq<Ticket>)
    ensures |r| == |tickets|
  {
    seq(|tickets|, i requires 0 <= i < |tickets| =>
      if Claimable(tickets[i], ticketId) then tickets[i].(staffId := Some(staffId), updatedAt := now)
      else tickets[i])
  }

  /** A claim changes no id: ids stay unique and within the issued range. */
  lemma ClaimedKeepsIds(tickets: seq<Ticket>, ticketId: Id, staffId: Id, now: int, bound: nat)
    requires UniqueTicketIds(tickets)
    requires forall t :: t in tickets ==> 0 < |t.id| <= bound
    ensures UniqueTicketIds(Claimed(tickets, ticketId, staffId, now))
    ensures forall t :: t in Claimed(tickets, ticketId, staffId, now) ==> 0 < |t.id| <= bound
  {
    var r := Claimed(tickets, ticketId, staffId, now);
    assert forall i :: 0 <= i < |r| ==> r[i].id == tickets[i].id;
    forall t | t in r ensures 0 < |t.id| <= bound {
      var i :| 0 <= i < |r| && r[i] == t;
      assert tickets[i] in tickets;
    }
  }

  function NewestKey(t: Ticket): int {
    -t.createdAt
  }

  ghost predicate NewestFirst(s: seq<Ticket>) {
    forall i, j :: 0 <= i < j < |s| ==> s[i].createdAt >= s[j].createdAt
  }

  /**
   * `.select(...).<filter p>.order("created_at", { ascending: false })`:
   * the rows satisfying `p`, newest first; rows with equal timestamps keep
   * table order.
   */
  function Query(tickets: seq<Ticket>, p: Ticket -> bool): seq<Ticket> {
    Seqs.SortBy(Seqs.Filter(tickets, p), NewestKey)
  }

  /** A query returns every matching row, each as often as it is stored, and nothing else, newest first. */
  lemma QueryExactly(tickets: seq<Ticket>, p: Ticket -> bool)
    ensures forall t :: t in Query(tickets, p) <==> t in tickets && p(t)
    ensures forall t :: multiset(Query(tickets, p))[t] == if p(t) then multiset(tickets)[t] else 0
    ensures NewestFirst(Query(tickets, p))
  {
    var f := Seqs.Filter(tickets, p);
    Seqs.FilterExactly(tickets, p);
    Seqs.SortBySorted(f, NewestKey);
    var q := Query(tickets, p);
    forall t ensures t in q <==> t in f {
      assert t in q <==> t in multiset(q);
    }
  }

  class Database {
    var appUsers: seq<AppUser>
    var staff: seq<Staff>
    var tickets: seq<Ticket>
    /** How many ids the database has handed out. */
    var serial: nat

    /** The table constraints: unique emails, primary keys, generated ids. */
    ghost predicate Valid()
      reads this
    {
      && UniqueUserEmails(appUsers)
      && (forall i, j :: 0 <= i < j < |appUsers| ==> appUsers[i].id != appUsers[j].id)
      && UniqueStaffKeys(staff)
      && UniqueTicketIds(tickets)
      && (forall u :: u in appUsers ==> Issued(u.id))
      && (forall s :: s in staff ==> Issued(s.id))
      && (forall t :: t in tickets ==> Issued(t.id))
    }

    /** `id` is non-empty and no longer than the ids handed out so far. */
    ghost predicate Issued(id: Id)
      reads this
    {
      0 < |id| <= serial
    }

    constructor ()
      ensures Valid()
      ensures appUsers == [] && staff == [] && tickets == []
    {
      appUsers, staff, tickets, serial := [], [], [], 0;
    }

    /** `insert into app_user (email, name)`, refused by the unique constraint on `email`. */
    method InsertAppUser(email: string, name: Option<string>) returns (r: Result<Id, DbError>)
      requires Valid()
      modifies this
      ensures Valid()
      ensures staff == old(staff) && tickets == old(tickets)
      ensures UserByEmail(old(appUsers), email).Some? ==>
        r == Failure(DuplicateKey) && appUsers == old(appUsers) && serial == old(serial)
      ensures UserByEmail(old(appUsers), email).None? ==>
        r.Success? && r.value != "" &&
        appUsers == old(appUsers) + [AppUser(r.value, email, name)] && serial == old(serial) + 1
    {
      if UserByEmail(appUsers, email).Some? {
        r := Failure(DuplicateKey);
      } else {
        var id := IdFor(serial);
        assert forall u :: u in appUsers ==> u.id != id;
        appUsers := appUsers + [AppUser(id, email, name)];
        serial := serial + 1;
        r := Success(id);
      }
    }

    /** `insert into staff (email, name, department)`; the counter starts out null. */
    method InsertStaff(email: string, name: Option<string>, department: Option<string>)
      returns (r: Result<Id, DbError>)
      requires Valid()
      modifies this
      ensures Valid()
      ensures appUsers == old(appUsers) && tickets == old(tickets)
      ensures StaffByEmail(old(staff), email).Some? ==>
        r == Failure(DuplicateKey) && staff == old(staff) && serial == old(serial)
      ensures StaffByEmail(old(staff), email).None? ==>
        r.Success? && r.value != "" &&
        staff == old(staff) + [Staff(r.value, email, name, department, None)] &&
        serial == old(serial) + 1
    {
      if StaffByEmail(staff, email).Some? {
        r := Failure(DuplicateKey);
      } else {
        var id := IdFor(serial);
        assert forall s :: s in staff ==> s.id != id;
        staff := staff + [Staff(id, email, name, department, None)];
        serial := serial + 1;
        r := Success(id);
      }
    }

    /** `insert into ticket (...)` with a generated id and `created_at = updated_at = now`. */
    method InsertTicket(
      title: string, message: string, status: Status, userId: Option<Id>, staffId: Option<Id>,
      priority: Option<string>, department: Option<string>, estimate: Option<int>, now: int)
      returns (t: Ticket)
      requires Valid()
      modifies this
      ensures Valid()
      ensures appUsers == old(appUsers) && staff == old(staff) && serial == old(serial) + 1
      ensures t.id != "" && forall u :: u in old(tickets) ==> u.id != t.id
      ensures t == Ticket(t.id, title, message, status, userId, staffId,
                          priority, department, estimate, now, now)
      ensures tickets == old(tickets) + [t]
    {
      t := Ticket(IdFor(serial), title, message, status, userId, staffId,
                  priority, department, estimate, now, now);
      tickets := tickets + [t];
      serial := serial + 1;
    }

    /** The `increment_ticket_count` procedure, one atomic `+1`. */
    method IncrementTicketCount(staffId: Id)
      requires Valid()
      modifies this
      ensures Valid()
      ensures staff == Incremented(old(staff), staffId)
      ensures appUsers == old(appUsers) && tickets == old(tickets) && serial == old(serial)
    {
      IncrementedKeepsKeys(staff, staffId, serial);
      staff := Incremented(staff, staffId);
    }

    /**
     * The compare-and-set of a claim: update `staff_id` and `updated_at`
     * where `id = ticketId and staff_id is null`, reporting whether a row
     * matched.
     */
    method ClaimUpdate(ticketId: Id, staffId: Id, now: int) returns (matched: bool)
      requires Valid()
      modifies this
      ensures Valid()
      ensures matched <==> exists i :: 0 <= i < |old(tickets)| && Claimable(old(tickets)[i], ticketId)
      ensures tickets == Claimed(old(tickets), ticketId, staffId, now)
      ensures appUsers == old(appUsers) && staff == old(staff) && serial == old(serial)
    {
      matched := exists i :: 0 <= i < |tickets| && Claimable(tickets[i], ticketId);
      ClaimedKeepsIds(tickets, ticketId, staffId, now, serial);
      tickets := Claimed(tickets, ticketId, staffId, now);
    }
  }
}
