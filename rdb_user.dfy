/** src/rdb-repository/user.go: the user operations of the `rdb-repository` package over a
    connection pool. Each write opens its own transaction, runs one operation of the `user`
    model of src/rdb-repository/model/user.go through a lower-case helper, then rolls back
    (ignoring the rollback's own error) or commits. A read runs on the pool. */
module RdbUser {
  import opened Base
  import Sql
  import PkgUserEntity
  import RdbModelUser

  /** `userCreate`: the model itself on success, no model and the model's error unchanged
      otherwise. */
  method userCreate(tx: Sql.Tx, user: RdbModelUser.User, now: Time) returns (m: RdbModelUser.User?, err: Option<Error>)
    modifies user, tx`tables
    ensures var o := Sql.InsertOutcome(old(tx.done), tx.db.faults, old(tx.tables).users);
            && (o.Ok? ==> m == user && err.None? && user.State() == old(user.State()).(id := o.value, createdAt := now, updatedAt := now))
            && (o.Err? ==> m == null && err == Some(Wrapped(o.error)) && user.State() == old(user.State()))
    ensures tx.tables == Sql.Inserted(old(tx.done), tx.db.faults, old(tx.tables), Sql.Users,
                                      Sql.UserRow(old(user.name), old(user.password), now, now))
  {
    err := user.Create(tx, now);
    if err.Some? {
      return null, err;
    }
    m := user;
  }

  /** `UserCreate`. */
  method UserCreate(db: Sql.DB, u: PkgUserEntity.User, now: Time) returns (r: Result<PkgUserEntity.User>)
    modifies db`tables, db`calls
    ensures db.faults.begin ==> r == Err(Wrapped(Backend(BeginFault))) && db.calls == old(db.calls) + [Sql.Begin]
    ensures !db.faults.begin ==> var o := Sql.InsertOutcome(false, db.faults, old(db.tables).users);
              && (o.Err? ==> r == Err(Wrapped(Wrapped(o.error))) && db.calls == old(db.calls) + [Sql.Begin, Sql.Rollback])
              && (o.Ok? && db.faults.commit ==> r == Err(Wrapped(Backend(CommitFault))) && db.calls == old(db.calls) + [Sql.Begin, Sql.Commit])
              && (o.Ok? && !db.faults.commit ==> db.calls == old(db.calls) + [Sql.Begin, Sql.Commit])
              && (o.Ok? && !db.faults.commit ==> r == Ok(PkgUserEntity.User(o.value, u.name, PkgUserEntity.NewPasswordFromHash(u.password.Hash()))))
    ensures r.Err? ==> db.tables == old(db.tables)
    ensures r.Ok? ==> db.tables == old(db.tables).(users := old(db.tables).users.Insert(Sql.UserRow(u.name, u.password.Hash(), now, now)))
  {
    var tx, err := db.Begin();
    if err.Some? {
      return Err(Wrapped(err.value));
    }
    var model := new RdbModelUser.User.NewUser(u);
    var created;
    created, err := userCreate(tx, model, now);
    if err.Some? {
      var _ := tx.Rollback();
      return Err(Wrapped(err.value));
    }
    err := tx.Commit();
    if err.Some? {
      return Err(Wrapped(err.value));
    }
    r := Ok(created.NewEntity());
  }

  /** The result of a Go call that can also panic: the method called on a nil model in
      `UserRead` as written does not return at all. */
  datatype Outcome<T> = Returned(result: Result<T>) | Panicked

  /** `userRead` as written: when `Read` fails its error is dropped and neither a model nor an
      error comes back. */
  method userReadAsWritten(db: Sql.DB, user: RdbModelUser.User) returns (m: RdbModelUser.User?, err: Option<Error>)
    modifies user
    ensures err.None?
    ensures var o := db.QueryRow(Sql.Users, old(user.id), Sql.UserShape);
            && (o.Ok? ==> m == user && user.State() == RdbModelUser.Record(old(user.id), o.value.name, o.value.password, o.value.createdAt, o.value.updatedAt))
            && (o.Err? ==> m == null)
  {
    var readErr := user.Read(db);
    if readErr.Some? {
      return null, None;
    }
    return user, None;
  }

  /** `UserRead` as written: a row that cannot be read (missing, or the scan fails) makes it
      call `NewEntity` on the nil model that `userReadAsWritten` hands back, and panic. */
  method UserReadAsWritten(db: Sql.DB, id: PkgUserEntity.ID) returns (o: Outcome<PkgUserEntity.User>)
    ensures var q := db.QueryRow(Sql.Users, id, Sql.UserShape);
            && (q.Err? ==> o == Panicked)
            && (q.Ok? ==> o == Returned(Ok(PkgUserEntity.User(id, q.value.name, PkgUserEntity.NewPasswordFromHash(q.value.password)))))
  {
    var model := new RdbModelUser.User.NewUserFromID(id);
    var m, err := userReadAsWritten(db, model);
    if err.Some? {
      // the error check of `UserRead` can never fire: `userReadAsWritten` returns no error
      assert false;
    }
    if m == null {
      return Panicked;
    }
    o := Returned(Ok(m.NewEntity()));
  }

  /** Reading a user that is not there, from a database without faults, panics instead of
      returning the error that user_test.go expects. */
  method UserReadAsWrittenPanicsOnMissingUser(id: PkgUserEntity.ID) returns (o: Outcome<PkgUserEntity.User>)
    ensures o == Panicked
  {
    var db := new Sql.DB(Sql.EmptyTables, Sql.NoFaults);
    o := UserReadAsWritten(db, id);
  }

  /** `userRead` as intended: like `userCreate`, the model's error comes back unchanged. */
  method userRead(db: Sql.DB, user: RdbModelUser.User) returns (m: RdbModelUser.User?, err: Option<Error>)
    modifies user
    ensures var o := db.QueryRow(Sql.Users, old(user.id), Sql.UserShape);
            && (o.Ok? ==> m == user && err.None? && user.State() == RdbModelUser.Record(old(user.id), o.value.name, o.value.password, o.value.createdAt, o.value.updatedAt))
            && (o.Err? ==> m == null && err == Some(Wrapped(o.error)) && user.State() == old(user.State()))
  {
    err := user.Read(db);
    if err.Some? {
      return null, err;
    }
    m := user;
  }

  /** `UserRead` over the corrected `userRead`: no transaction; the stored user, or the error
      of the read. */
  method UserRead(db: Sql.DB, id: PkgUserEntity.ID) returns (r: Result<PkgUserEntity.User>)
    ensures var q := db.QueryRow(Sql.Users, id, Sql.UserShape);
            && (q.Err? ==> r == Err(Wrapped(Wrapped(q.error))))
            && (q.Ok? ==> r == Ok(PkgUserEntity.User(id, q.value.name, PkgUserEntity.NewPasswordFromHash(q.value.password))))
  {
    var model := new RdbModelUser.User.NewUserFromID(id);
    var m, err := userRead(db, model);
    if err.Some? {
      return Err(Wrapped(err.value));
    }
    r := Ok(m.NewEntity());
  }

  /** With the corrected `userRead`, reading a user that is not there returns the error of the
      missing row. */
  method UserReadFailsOnMissingUser(id: PkgUserEntity.ID) returns (r: Result<PkgUserEntity.User>)
    ensures r == Err(Wrapped(Wrapped(Backend(NoRows))))
  {
    var db := new Sql.DB(Sql.EmptyTables, Sql.NoFaults);
    r := UserRead(db, id);
  }

  /** `userUpdate`: the model on success, no model and its error unchanged otherwise. */
  method userUpdate(tx: Sql.Tx, user: RdbModelUser.User, now: Time) returns (m: RdbModelUser.User?, err: Option<Error>)
    modifies user, tx`tables
    ensures var o := Sql.ChangeOutcome(old(tx.done), tx.db.faults, old(tx.tables).users, old(user.id));
            && (o == Ok(1) ==> m == user && err.None? && user.State() == old(user.State()).(updatedAt := now))
            && (o.Ok? && o.value != 1 ==> m == null && err == Some(RowsAffectedNot1(o.value)) && user.State() == old(user.State()))
            && (o.Err? ==> m == null && err == Some(Wrapped(o.error)) && user.State() == old(user.State()))
    ensures tx.tables == if old(tx.done) || tx.db.faults.exec then old(tx.tables)
                         else old(tx.tables).(users := old(tx.tables).users.SetUser(old(user.id), old(user.name), old(user.password), now))
  {
    err := user.Update(tx, now);
    if err.Some? {
      return null, err;
    }
    m := user;
  }

  /** `UserUpdate`: committed only when exactly row `u.id` was written. */
  method UserUpdate(db: Sql.DB, u: PkgUserEntity.User, now: Time) returns (r: Result<PkgUserEntity.User>)
    modifies db`tables, db`calls
    ensures db.faults.begin ==> r == Err(Wrapped(Backend(BeginFault))) && db.calls == old(db.calls) + [Sql.Begin]
    ensures !db.faults.begin ==> var o := Sql.ChangeOutcome(false, db.faults, old(db.tables).users, u.id);
              && (o.Err? ==> r == Err(Wrapped(Wrapped(o.error))) && db.calls == old(db.calls) + [Sql.Begin, Sql.Rollback])
              && (o.Ok? && o.value != 1 ==> r == Err(Wrapped(RowsAffectedNot1(o.value))) && db.calls == old(db.calls) + [Sql.Begin, Sql.Rollback])
              && (o == Ok(1) && db.faults.commit ==> r == Err(Wrapped(Backend(CommitFault))) && db.calls == old(db.calls) + [Sql.Begin, Sql.Commit])
              && (o == Ok(1) && !db.faults.commit ==> db.calls == old(db.calls) + [Sql.Begin, Sql.Commit])
              && (o == Ok(1) && !db.faults.commit ==> r == Ok(PkgUserEntity.User(u.id, u.name, PkgUserEntity.NewPasswordFromHash(u.password.Hash()))))
    ensures r.Err? ==> db.tables == old(db.tables)
    ensures r.Ok? ==> db.tables == old(db.tables).(users := old(db.tables).users.SetUser(u.id, u.name, u.password.Hash(), now))
  {
    var tx, err := db.Begin();
    if err.Some? {
      return Err(Wrapped(err.value));
    }
    var model := new RdbModelUser.User.NewUser(u);
    var updated;
    updated, err := userUpdate(tx, model, now);
    if err.Some? {
      var _ := tx.Rollback();
      return Err(Wrapped(err.value));
    }
    err := tx.Commit();
    if err.Some? {
      return Err(Wrapped(err.value));
    }
    r := Ok(updated.NewEntity());
  }

  /** `userDelete`: the model's error unchanged. */
  method userDelete(tx: Sql.Tx, user: RdbModelUser.User) returns (err: Option<Error>)
    modifies tx`tables
    ensures var o := Sql.ChangeOutcome(old(tx.done), tx.db.faults, old(tx.tables).users, user.id);
            && (err.None? <==> o == Ok(1))
            && (o.Ok? && o.value != 1 ==> err == Some(RowsAffectedNot1(o.value)))
            && (o.Err? ==> err == Some(Wrapped(o.error)))
    ensures tx.tables == if old(tx.done) || tx.db.faults.exec then old(tx.tables)
                         else old(tx.tables).Set(Sql.Users, old(tx.tables).users.Remove(user.id))
  {
    err := user.Delete(tx);
  }

  /** `UserDelete`: committed only when exactly row `id` was deleted; `None` is a nil error. */
  method UserDelete(db: Sql.DB, id: PkgUserEntity.ID) returns (err: Option<Error>)
    modifies db`tables, db`calls
    ensures db.faults.begin ==> err == Some(Wrapped(Backend(BeginFault))) && db.calls == old(db.calls) + [Sql.Begin]
    ensures !db.faults.begin ==> var o := Sql.ChangeOutcome(false, db.faults, old(db.tables).users, id);
              && (o.Err? ==> err == Some(Wrapped(Wrapped(o.error))) && db.calls == old(db.calls) + [Sql.Begin, Sql.Rollback])
              && (o.Ok? && o.value != 1 ==> err == Some(Wrapped(RowsAffectedNot1(o.value))) && db.calls == old(db.calls) + [Sql.Begin, Sql.Rollback])
              && (o == Ok(1) && db.faults.commit ==> err == Some(Wrapped(Backend(CommitFault))) && db.calls == old(db.calls) + [Sql.Begin, Sql.Commit])
              && (o == Ok(1) && !db.faults.commit ==> err == None && db.calls == old(db.calls) + [Sql.Begin, Sql.Commit])
    ensures err.Some? ==> db.tables == old(db.tables)
    ensures err.None? ==> db.tables == old(db.tables).(users := old(db.tables).users.Remove(id))
  {
    var tx, beginErr := db.Begin();
    if beginErr.Some? {
      return Some(Wrapped(beginErr.value));
    }
    var model := new RdbModelUser.User.NewUserFromID(id);
    err := userDelete(tx, model);
    if err.Some? {
      var _ := tx.Rollback();
      return Some(Wrapped(err.value));
    }
    err := tx.Commit();
    if err.Some? {
      return Some(Wrapped(err.value));
    }
  }

  /** On a database without faults, a user created here is read back with the new id, the
      name and the hash given; its password then counts as the minimum length. */
  method UserCreateThenRead(tables: Sql.Tables, u: PkgUserEntity.User, now: Time)
    returns (created: Result<PkgUserEntity.User>, read: Result<PkgUserEntity.User>)
    ensures created.Ok? && created.value.id == tables.users.nextID && created.value.name == u.name
    ensures created.value.password.Hash() == u.password.Hash()
    ensures |u.name| > 0 ==> PkgUserEntity.Valid(created.value)
    ensures read == created
  {
    var db := new Sql.DB(tables, Sql.NoFaults);
    created := UserCreate(db, u, now);
    Sql.InsertThenLookup(tables.users, Sql.UserRow(u.name, u.password.Hash(), now, now), Sql.UserShape, Sql.NoFaults);
    read := UserRead(db, created.value.id);
  }
}
