/**
 * `getOrCreateAppUser` (lib/dbUsers.ts): map a signed-in email to an
 * `app_user` row id, creating the row on first sight.
 */
module DbUsers {
  import opened Wrappers
  import opened Store

  /**
   * What happens around the call that the caller cannot see: errors the
   * store reports on each step, and a concurrent request for the same email
   * whose insert lands between this call's select and its insert.
   */
  datatype Environment = Environment(
    selectError: Option<DbError>,
    racer: Option<Option<string>>,
    insertError: Option<DbError>,
    reselectError: Option<DbError>)

  /** The store is reached without faults and without a concurrent request. */
  predicate Quiet(env: Environment) {
    env.selectError.None? && env.racer.None? && env.insertError.None?
  }

  const NotFoundAfterConflict: DbError := DbError("", "User not found after conflict")

  /**
   * Select by email; if absent, insert; if the insert hits the unique
   * constraint, select again. Errors are thrown (here: returned as Failure).
   */
  method GetOrCreateAppUser(db: Database, email: string, name: Option<string>, env: Environment)
    returns (r: Result<Id, DbError>)
    requires db.Valid()
    modifies db
    ensures db.Valid()
    ensures db.staff == old(db.staff) && db.tickets == old(db.tickets)
    // the returned id is the id of the row that now holds the email
    ensures r.Success? ==>
      UserByEmail(db.appUsers, email).Some? && UserByEmail(db.appUsers, email).value.id == r.value
    // a failing first select is thrown and nothing is written
    ensures env.selectError.Some? ==> r == Failure(env.selectError.value) && db.appUsers == old(db.appUsers)
    // an existing row is returned and nothing is inserted
    ensures env.selectError.None? && UserByEmail(old(db.appUsers), email).Some? ==>
      r == Success(UserByEmail(old(db.appUsers), email).value.id) && db.appUsers == old(db.appUsers)
    // a new email gets exactly one row {email, name}
    ensures Quiet(env) && UserByEmail(old(db.appUsers), email).None? ==>
      r.Success? && db.appUsers == old(db.appUsers) + [AppUser(r.value, email, name)]
    // losing the race: only the concurrent request's row exists, and its id is returned
    ensures env.selectError.None? && env.racer.Some? && env.insertError.None? &&
            UserByEmail(old(db.appUsers), email).None? ==>
      && |db.appUsers| == |old(db.appUsers)| + 1
      && db.appUsers == old(db.appUsers) + [AppUser(db.appUsers[|old(db.appUsers)|].id, email, env.racer.value)]
      && (env.reselectError.None? ==> r == Success(db.appUsers[|old(db.appUsers)|].id))
      && (env.reselectError.Some? ==> r == Failure(env.reselectError.value))
    // any other insert error is thrown
    ensures env.selectError.None? && env.insertError.Some? && env.insertError.value.code != UniqueViolation &&
            UserByEmail(old(db.appUsers), email).None? ==>
      r == Failure(env.insertError.value)
    // at most the concurrent row and this call's row are added
    ensures exists added :: db.appUsers == old(db.appUsers) + added && |added| <= 1
  {
    if env.selectError.Some? {
      assert db.appUsers == old(db.appUsers) + [];
      return Failure(env.selectError.value);
    }
    var existing := UserByEmail(db.appUsers, email);
    if existing.Some? {
      assert db.appUsers == old(db.appUsers) + [];
      return Success(existing.value.id);
    }
    if env.racer.Some? {
      var raced := db.InsertAppUser(email, env.racer.value);
    }
    var inserted: Result<Id, DbError>;
    if env.insertError.Some? {
      inserted := Failure(env.insertError.value);
    } else {
      inserted := db.InsertAppUser(email, name);
    }
    if inserted.Failure? && inserted.error.code == UniqueViolation {
      if env.reselectError.Some? {
        return Failure(env.reselectError.value);
      }
      var again := UserByEmail(db.appUsers, email);
      if again.None? {
        return Failure(NotFoundAfterConflict);
      }
      return Success(again.value.id);
    }
    if inserted.Failure? {
      return Failure(inserted.error);
    }
    UserByEmailFinds(db.appUsers, AppUser(inserted.value, email, name));
    return Success(inserted.value);
  }
}
