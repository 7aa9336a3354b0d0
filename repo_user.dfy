/** src/repository/user.go: the user operations of the `repository` package, each running a
    model operation inside the transaction it is given and then ending that transaction:
    `Rollback` when the model fails (its own error is ignored), `Commit` otherwise. Reads run
    on the connection pool without a transaction. */
module RepoUser {
  import opened Base
  import Sql
  import RepoModelUser

  /** `UserCreate`. */
  method UserCreate(tx: Sql.Tx, model: RepoModelUser.User, now: Time) returns (r: Result<RepoModelUser.Entity>)
    modifies model, tx`tables, tx`done, tx.db`tables, tx.db`calls
    ensures var o := Sql.InsertOutcome(old(tx.done), tx.db.faults, old(tx.tables).users);
            && (o.Err? ==> r == Err(Wrapped(Wrapped(o.error))) && tx.db.calls == old(tx.db.calls) + [Sql.Rollback])
            && (o.Err? ==> model.State() == old(model.State()))
            && (o.Ok? && tx.db.faults.commit ==> r == Err(Wrapped(Backend(CommitFault))) && tx.db.calls == old(tx.db.calls) + [Sql.Commit])
            && (o.Ok? && !tx.db.faults.commit ==> r == Ok(model.NewEntity()) && tx.db.calls == old(tx.db.calls) + [Sql.Commit])
            && (o.Ok? ==> model.id == o.value && model.createdAt == now && model.updatedAt == now)
    ensures model.name == old(model.name) && model.password == old(model.password)
    ensures r.Err? ==> tx.db.tables == old(tx.db.tables)
    ensures r.Ok? ==> tx.db.tables == tx.tables == old(tx.tables).(users := old(tx.tables).users.Insert(
                        Sql.UserRow(old(model.name), old(model.password), now, now)))
  {
    var err := model.Create(tx, now);
    if err.Some? {
      var _ := tx.Rollback();
      return Err(Wrapped(err.value));
    }
    err := tx.Commit();
    if err.Some? {
      return Err(Wrapped(err.value));
    }
    r := Ok(model.NewEntity());
  }

  /** `UserRead`: no transaction; the database is only read. */
  method UserRead(db: Sql.DB, model: RepoModelUser.User) returns (r: Result<RepoModelUser.Entity>)
    modifies model
    ensures var o := db.QueryRow(Sql.Users, old(model.id), Sql.UserShape);
            && (o.Err? ==> r == Err(Wrapped(Wrapped(o.error))))
            && (o.Ok? ==> r == Ok(model.NewEntity()) && model.name == o.value.name && model.password == o.value.password
                          && model.id == old(model.id) && model.updatedAt == o.value.updatedAt)
  {
    var err := model.Read(db);
    if err.Some? {
      return Err(Wrapped(err.value));
    }
    r := Ok(model.NewEntity());
  }

  /** `UserUpdate`: committed only when exactly one row was affected. */
  method UserUpdate(tx: Sql.Tx, model: RepoModelUser.User, now: Time) returns (r: Result<RepoModelUser.Entity>)
    modifies model, tx`tables, tx`done, tx.db`tables, tx.db`calls
    ensures var o := Sql.ChangeOutcome(old(tx.done), tx.db.faults, old(tx.tables).users, model.id);
            && (o.Err? ==> r == Err(Wrapped(Wrapped(o.error))) && tx.db.calls == old(tx.db.calls) + [Sql.Rollback])
            && (o.Ok? && o.value != 1 ==> r == Err(Wrapped(RowsAffectedNot1(o.value))) && tx.db.calls == old(tx.db.calls) + [Sql.Rollback])
            && (o.Ok? && o.value == 1 && tx.db.faults.commit ==> r == Err(Wrapped(Backend(CommitFault))) && tx.db.calls == old(tx.db.calls) + [Sql.Commit])
            && (o.Ok? && o.value == 1 && !tx.db.faults.commit ==> r == Ok(model.NewEntity()) && tx.db.calls == old(tx.db.calls) + [Sql.Commit])
    ensures model.id == old(model.id) && model.name == old(model.name) && model.password == old(model.password)
    ensures model.createdAt == old(model.createdAt)
    ensures model.updatedAt == if Sql.ChangeOutcome(old(tx.done), tx.db.faults, old(tx.tables).users, model.id) == Ok(1) then now else old(model.updatedAt)
    ensures r.Err? ==> tx.db.tables == old(tx.db.tables)
    ensures r.Ok? ==> tx.db.tables == old(tx.tables).(users := old(tx.tables).users.SetUser(model.id, model.name, model.password, now))
  {
    var err := model.Update(tx, now);
    if err.Some? {
      var _ := tx.Rollback();
      return Err(Wrapped(err.value));
    }
    err := tx.Commit();
    if err.Some? {
      return Err(Wrapped(err.value));
    }
    r := Ok(model.NewEntity());
  }

  /** `UserDelete`: committed only when exactly one row was affected; `None` is a nil error. */
  method UserDelete(tx: Sql.Tx, model: RepoModelUser.User) returns (err: Option<Error>)
    modifies tx`tables, tx`done, tx.db`tables, tx.db`calls
    ensures var o := Sql.ChangeOutcome(old(tx.done), tx.db.faults, old(tx.tables).users, model.id);
            && (o.Err? ==> err == Some(Wrapped(Wrapped(o.error))) && tx.db.calls == old(tx.db.calls) + [Sql.Rollback])
            && (o.Ok? && o.value != 1 ==> err == Some(Wrapped(RowsAffectedNot1(o.value))) && tx.db.calls == old(tx.db.calls) + [Sql.Rollback])
            && (o.Ok? && o.value == 1 && tx.db.faults.commit ==> err == Some(Wrapped(Backend(CommitFault))) && tx.db.calls == old(tx.db.calls) + [Sql.Commit])
            && (o.Ok? && o.value == 1 && !tx.db.faults.commit ==> err == None && tx.db.calls == old(tx.db.calls) + [Sql.Commit])
    ensures err.Some? ==> tx.db.tables == old(tx.db.tables)
    ensures err.None? ==> tx.db.tables == old(tx.tables).(users := old(tx.tables).users.Remove(model.id))
  {
    err := model.Delete(tx);
    if err.Some? {
      var _ := tx.Rollback();
      return Some(Wrapped(err.value));
    }
    err := tx.Commit();
    if err.Some? {
      return Some(Wrapped(err.value));
    }
  }
}
