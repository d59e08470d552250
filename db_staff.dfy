/**
 * `getOrCreateStaff` (lib/dbStaff.ts): the same get-or-create sequence as
 * for app users, on the `staff` table, with a department.
 */
module DbStaff {
  import opened Wrappers
  import opened Store
  import DbUsers

  const NotFoundAfterConflict: DbError := DbError("", "Staff not found after conflict")

  /**
   * Select by email; if absent, insert `{email, name, department}`; on a
   * unique-constraint violation select again. `env.racer` is the name, and
   * `racerDepartment` the department, under which a concurrent request
   * inserts the same email between the select and the insert.
   */
  method GetOrCreateStaff(
    db: Database, email: string, name: Option<string>, department: Option<string>,
    env: DbUsers.Environment, racerDepartment: Option<string>)
    returns (r: Result<Id, DbError>)
    requires db.Valid()
    modifies db
    ensures db.Valid()
    ensures db.appUsers == old(db.appUsers) && db.tickets == old(db.tickets)
    ensures r.Success? ==>
      StaffByEmail(db.staff, email).Some? && StaffByEmail(db.staff, email).value.id == r.value
    ensures env.selectError.Some? ==> r == Failure(env.selectError.value) && db.staff == old(db.staff)
    ensures env.selectError.None? && StaffByEmail(old(db.staff), email).Some? ==>
      r == Success(StaffByEmail(old(db.staff), email).value.id) && db.staff == old(db.staff)
    ensures DbUsers.Quiet(env) && StaffByEmail(old(db.staff), email).None? ==>
      r.Success? && db.staff == old(db.staff) + [Staff(r.value, email, name, department, None)]
    ensures env.selectError.None? && env.racer.Some? && env.insertError.None? &&
            StaffByEmail(old(db.staff), email).None? ==>
      && |db.staff| == |old(db.staff)| + 1
      && db.staff == old(db.staff) + [Staff(db.staff[|old(db.staff)|].id, email, env.racer.value, racerDepartment, None)]
      && (env.reselectError.None? ==> r == Success(db.staff[|old(db.staff)|].id))
      && (env.reselectError.Some? ==> r == Failure(env.reselectError.value))
    ensures env.selectError.None? && env.insertError.Some? && env.insertError.value.code != UniqueViolation &&
            StaffByEmail(old(db.staff), email).None? ==>
      r == Failure(env.insertError.value)
    ensures exists added :: db.staff == old(db.staff) + added && |added| <= 1
  {
    if env.selectError.Some? {
      assert db.staff == old(db.staff) + [];
      return Failure(env.selectError.value);
    }
    var existing := StaffByEmail(db.staff, email);
    if existing.Some? {
      assert db.staff == old(db.staff) + [];
      return Success(existing.value.id);
    }
    if env.racer.Some? {
      var raced := db.InsertStaff(email, env.racer.value, racerDepartment);
    }
    var inserted: Result<Id, DbError>;
    if env.insertError.Some? {
      inserted := Failure(env.insertError.value);
    } else {
      inserted := db.InsertStaff(email, name, department);
    }
    if inserted.Failure? && inserted.error.code == UniqueViolation {
      if env.reselectError.Some? {
        return Failure(env.reselectError.value);
      }
      var again := StaffByEmail(db.staff, email);
      if again.None? {
        return Failure(NotFoundAfterConflict);
      }
      return Success(again.value.id);
    }
    if inserted.Failure? {
      return Failure(inserted.error);
    }
    StaffByEmailFinds(db.staff, Staff(inserted.value, email, name, department, None));
    return Success(inserted.value);
  }
}
