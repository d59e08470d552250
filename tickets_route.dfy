/**
 * app/api/tickets/route.ts: a requester lists their own tickets (GET) and
 * submits a ticket (POST), which is classified, routed to the least-loaded
 * staff member of the classified department, inserted, and counted against
 * that staff member's load.
 */
module TicketsRoute {
  import opened Wrappers
  import opened Store
  import Seqs
  import DbUsers

  /** What the classifier service returns for a ticket (lib/classifier.ts). */
  datatype Classification = Classification(
    department: string,
    priority: string,
    estimatedMinutes: Option<int>)

  /** Store errors on the steps of POST after the requester is resolved. */
  datatype Faults = Faults(
    staffSelect: Option<DbError>,
    insert: Option<DbError>,
    increment: Option<DbError>)

  /** The message of a caught exception: `err.message || fallback`. */
  function Caught(e: DbError, fallback: string): string {
    if e.message == "" then fallback else e.message
  }

  /** `s.department === classified.department`. */
  function InDepartment(department: string): Staff -> bool {
    (s: Staff) => s.department == Some(department)
  }

  /** The staff member routing picks: the head of the department's staff sorted by load. */
  function SelectAssignee(department: string, staff: seq<Staff>): Option<Id> {
    var candidates := Seqs.Filter(staff, InDepartment(department));
    if |candidates| > 0 then Some(Seqs.SortBy(candidates, Load)[0].id) else None
  }

  /**
   * Routing picks nobody exactly when nobody is in the department, and
   * otherwise the FIRST staff member, in table order, among those of the
   * department with the least load (null load counted as 0).
   */
  lemma SelectAssigneeIsFirstLeastLoaded(department: string, staff: seq<Staff>)
    ensures SelectAssignee(department, staff).None? <==>
      forall j :: 0 <= j < |staff| ==> staff[j].department != Some(department)
    ensures SelectAssignee(department, staff).Some? ==>
      exists i :: Seqs.IsFirstLeast(staff, InDepartment(department), Load, i) &&
                  staff[i].id == SelectAssignee(department, staff).value
  {
    Seqs.FilterEmpty(staff, InDepartment(department));
    if Seqs.Filter(staff, InDepartment(department)) != [] {
      Seqs.SortedFilterHead(staff, InDepartment(department), Load);
    }
  }

  /** The chosen staff member belongs to the ticket's department and carries no more load than any colleague there. */
  lemma AssigneeInDepartment(department: string, staff: seq<Staff>, k: int)
    requires UniqueStaffKeys(staff)
    requires SelectAssignee(department, staff).Some?
    requires 0 <= k < |staff| && staff[k].id == SelectAssignee(department, staff).value
    ensures staff[k].department == Some(department)
    ensures forall j :: 0 <= j < |staff| && staff[j].department == Some(department) ==> Load(staff[k]) <= Load(staff[j])
  {
    SelectAssigneeIsFirstLeastLoaded(department, staff);
    var i :| Seqs.IsFirstLeast(staff, InDepartment(department), Load, i) &&
             staff[i].id == SelectAssignee(department, staff).value;
    assert i == k;
    assert forall j :: 0 <= j < |staff| ==> (InDepartment(department)(staff[j]) <==> staff[j].department == Some(department));
  }

  /** The requester's tickets, newest first. */
  method Get(db: Database, email: Option<string>, name: Option<string>,
             userEnv: DbUsers.Environment, selectError: Option<DbError>)
    returns (r: Response<seq<Ticket>>)
    requires db.Valid()
    modifies db
    ensures db.Valid()
    ensures db.staff == old(db.staff) && db.tickets == old(db.tickets)
    ensures !Given(email) ==> r == Fail(401, "Unauthorized") && db.appUsers == old(db.appUsers)
    ensures Given(email) && selectError.Some? ==> r.Fail? && r.status == 500
    // with the store quiet, a signed-in requester always gets their list
    ensures Given(email) && DbUsers.Quiet(userEnv) && selectError.None? ==> r.Ok?
    ensures r.Ok? ==>
      && Given(email)
      && UserByEmail(db.appUsers, email.value).Some?
      && var owner := UserByEmail(db.appUsers, email.value).value.id;
      && (forall t :: t in r.body <==> t in db.tickets && t.userId == Some(owner))
      && (forall t :: multiset(r.body)[t] == if t.userId == Some(owner) then multiset(db.tickets)[t] else 0)
      && NewestFirst(r.body)
  {
    if !Given(email) {
      return Fail(401, "Unauthorized");
    }
    var user := DbUsers.GetOrCreateAppUser(db, email.value, name, userEnv);
    if user.Failure? {
      return Fail(500, Caught(user.error, "Failed to load tickets"));
    }
    var userId := user.value;
    ResolvedIdIssued(db, email.value, userId);
    if userId == "" {
      return Fail(404, "User not found");
    }
    if selectError.Some? {
      return Fail(500, selectError.value.message);
    }
    var owned := (t: Ticket) => t.userId == Some(userId);
    QueryExactly(db.tickets, owned);
    return Ok(Query(db.tickets, owned));
  }

  /**
   * Submit a ticket: validate, resolve the requester, classify, pick the
   * least-loaded staff member of the department, insert the ticket as
   * `in_progress`, then bump that staff member's counter (whose failure the
   * handler does not look at).
   */
  method Post(db: Database, email: Option<string>, name: Option<string>,
              title: Option<string>, message: Option<string>,
              userEnv: DbUsers.Environment, classified: Option<Classification>,
              faults: Faults, now: int)
    returns (r: Response<Ticket>)
    requires db.Valid()
    modifies db
    ensures db.Valid()
    ensures !Given(email) ==> r == Fail(401, "Unauthorized") && unchanged(db)
    ensures Given(email) && !(Given(title) && Given(message)) ==>
      r == Fail(400, "Missing required fields") && unchanged(db)
    ensures classified.None? ==> r.Fail?
    ensures faults.staffSelect.Some? || faults.insert.Some? ==> r.Fail?
    // with the store quiet and the classifier answering, a complete submission is accepted
    ensures (Given(email) && Given(title) && Given(message) && DbUsers.Quiet(userEnv) &&
             classified.Some? && faults.staffSelect.None? && faults.insert.None?) ==> r.Ok?
    // a failed request leaves the tickets and every counter as they were
    ensures r.Fail? ==> db.tickets == old(db.tickets) && db.staff == old(db.staff)
    ensures r.Ok? ==>
      && Given(email) && Given(title) && Given(message) && classified.Some?
      && var c := classified.value;
      && db.tickets == old(db.tickets) + [r.body]
      && r.body.id != "" && (forall t :: t in old(db.tickets) ==> t.id != r.body.id)
      && r.body.title == title.value && r.body.message == message.value
      && r.body.status == InProgress
      && UserByEmail(db.appUsers, email.value).Some?
      && r.body.userId == Some(UserByEmail(db.appUsers, email.value).value.id)
      && r.body.priority == Some(c.priority)
      && r.body.department == Some(c.department)
      && r.body.estimate == c.estimatedMinutes
      && r.body.createdAt == now && r.body.updatedAt == now
      && r.body.staffId == SelectAssignee(c.department, old(db.staff))
      && db.staff == (if r.body.staffId.Some? && faults.increment.None?
                      then Incremented(old(db.staff), r.body.staffId.value)
                      else old(db.staff))
  {
    if !Given(email) {
      return Fail(401, "Unauthorized");
    }
    if !(Given(title) && Given(message)) {
      return Fail(400, "Missing required fields");
    }
    var user := DbUsers.GetOrCreateAppUser(db, email.value, name, userEnv);
    if user.Failure? {
      return Fail(500, Caught(user.error, "Failed to create ticket"));
    }
    var userId := user.value;
    ResolvedIdIssued(db, email.value, userId);
    if userId == "" {
      return Fail(500, "User could not be resolved");
    }
    if classified.None? {
      return Fail(500, "Classification failed");
    }
    r := Submit(db, userId, title.value, message.value, classified.value, faults, now);
  }

  /**
   * POST once the requester `userId` is resolved and the ticket classified:
   * route, insert, and bump the assignee's counter.
   */
  method Submit(db: Database, userId: Id, title: string, message: string,
                c: Classification, faults: Faults, now: int)
    returns (r: Response<Ticket>)
    requires db.Valid()
    modifies db
    ensures db.Valid()
    ensures db.appUsers == old(db.appUsers)
    ensures faults.staffSelect.Some? ==> r == Fail(500, "Failed to fetch staff list")
    ensures faults.staffSelect.None? && faults.insert.Some? ==> r == Fail(500, faults.insert.value.message)
    ensures r.Fail? ==> db.tickets == old(db.tickets) && db.staff == old(db.staff)
    ensures r.Ok? <==> faults.staffSelect.None? && faults.insert.None?
    ensures r.Ok? ==>
      && db.tickets == old(db.tickets) + [r.body]
      && r.body.id != "" && (forall t :: t in old(db.tickets) ==> t.id != r.body.id)
      && r.body.title == title && r.body.message == message
      && r.body.status == InProgress
      && r.body.userId == Some(userId)
      && r.body.priority == Some(c.priority)
      && r.body.department == Some(c.department)
      && r.body.estimate == c.estimatedMinutes
      && r.body.createdAt == now && r.body.updatedAt == now
      && r.body.staffId == SelectAssignee(c.department, old(db.staff))
      && db.staff == (if r.body.staffId.Some? && faults.increment.None?
                      then Incremented(old(db.staff), r.body.staffId.value)
                      else old(db.staff))
  {
    if faults.staffSelect.Some? {
      return Fail(500, "Failed to fetch staff list");
    }
    var staffId := SelectAssignee(c.department, db.staff);
    if faults.insert.Some? {
      return Fail(500, faults.insert.value.message);
    }
    var ticket := db.InsertTicket(title, message, InProgress, Some(userId), staffId,
                                  Some(c.priority), Some(c.department), c.estimatedMinutes, now);
    if staffId.Some? && staffId.value != "" && faults.increment.None? {
      db.IncrementTicketCount(staffId.value);
    }
    return Ok(ticket);
  }

  /** An id the users table holds for `email` was handed out by the database, so it is never empty. */
  lemma ResolvedIdIssued(db: Database, email: string, id: Id)
    requires db.Valid()
    requires UserByEmail(db.appUsers, email).Some? && UserByEmail(db.appUsers, email).value.id == id
    ensures id != ""
  {
    assert db.Issued(UserByEmail(db.appUsers, email).value.id);
  }
}
