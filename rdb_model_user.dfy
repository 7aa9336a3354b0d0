/** src/rdb-repository/model/user.go: the `user` persistence model of the `rdb-repository`
    package, over rows of `users`. The entity is the `User` of src/pkg/user/entity.go. Errors
    from the database come back wrapped. The clock is a parameter `now`. */
module RdbModelUser {
  import opened Base
  import Sql
  import PkgUserEntity

  /** The five fields of a `user`, as one value. */
  datatype Record = Record(id: PkgUserEntity.ID, name: GoString, password: Bytes,
                           createdAt: Time, updatedAt: Time)

  /** `user`. */
  class User {
    var id: PkgUserEntity.ID
    var name: GoString
    var password: Bytes
    var createdAt: Time
    var updatedAt: Time

    function State(): Record
      reads this
    {
      Record(id, name, password, createdAt, updatedAt)
    }

    /** `NewUser`: identifier, name and hash of the entity, zero timestamps. */
    constructor NewUser(u: PkgUserEntity.User)
      ensures State() == Record(u.id, u.name, u.password.Hash(), ZeroTime, ZeroTime)
    {
      id, name, password := u.id, u.name, u.password.Hash();
      createdAt, updatedAt := ZeroTime, ZeroTime;
    }

    /** `NewUserFromID`: only the identifier. */
    constructor NewUserFromID(id: PkgUserEntity.ID)
      ensures State() == Record(id, [], [], ZeroTime, ZeroTime)
    {
      this.id, name, password := id, [], [];
      createdAt, updatedAt := ZeroTime, ZeroTime;
    }

    /** `NewEntity`: identifier and name as stored, the hash wrapped by `NewPasswordFromHash`
        (which counts as the minimum length); the timestamps are dropped. */
    function NewEntity(): (e: PkgUserEntity.User)
      reads this
      ensures e.id == id && e.name == name
      ensures e.password.Hash() == password && e.password.Length() == PkgUserEntity.PasswordMinLength
    {
      PkgUserEntity.User(id, name, PkgUserEntity.NewPasswordFromHash(password))
    }

    /** `Create`: insert the name, hash and `now` twice; on success the model takes the new id
        and `now` as both timestamps, on failure no field changes. */
    method Create(tx: Sql.Tx, now: Time) returns (err: Option<Error>)
      modifies this, tx`tables
      ensures var o := Sql.InsertOutcome(old(tx.done), tx.db.faults, old(tx.tables).users);
              && (o.Ok? ==> err.None? && State() == old(State()).(id := o.value, createdAt := now, updatedAt := now))
              && (o.Err? ==> err == Some(Wrapped(o.error)) && State() == old(State()))
      ensures tx.tables == Sql.Inserted(old(tx.done), tx.db.faults, old(tx.tables), Sql.Users,
                                        Sql.UserRow(old(name), old(password), now, now))
    {
      var r := tx.ExecInsert(Sql.Users, Sql.UserRow(name, password, now, now));
      if r.Err? {
        return Some(Wrapped(r.error));
      }
      var last := r.value.LastInsertId();
      if last.Err? {
        return Some(Wrapped(last.error));
      }
      id, createdAt, updatedAt := last.value, now, now;
      err := None;
    }

    /** `Read`: scan name, hash and both timestamps of row `id`; on failure no field changes. */
    method Read(db: Sql.DB) returns (err: Option<Error>)
      modifies this
      ensures var o := db.QueryRow(Sql.Users, old(id), Sql.UserShape);
              && (o.Ok? ==> err.None? && State() == Record(old(id), o.value.name, o.value.password, o.value.createdAt, o.value.updatedAt))
              && (o.Err? ==> err == Some(Wrapped(o.error)) && State() == old(State()))
    {
      var r := db.QueryRow(Sql.Users, id, Sql.UserShape);
      if r.Err? {
        return Some(Wrapped(r.error));
      }
      name, password, createdAt, updatedAt := r.value.name, r.value.password, r.value.createdAt, r.value.updatedAt;
      err := None;
    }

    /** `Update`: write name, hash and `now` to row `id`; only when exactly one row was
        affected does the model take `now` as its update time. */
    method Update(tx: Sql.Tx, now: Time) returns (err: Option<Error>)
      modifies this, tx`tables
      ensures var o := Sql.ChangeOutcome(old(tx.done), tx.db.faults, old(tx.tables).users, id);
              && (o.Ok? && o.value == 1 ==> err.None? && State() == old(State()).(updatedAt := now))
              && (o.Ok? && o.value != 1 ==> err == Some(RowsAffectedNot1(o.value)) && State() == old(State()))
              && (o.Err? ==> err == Some(Wrapped(o.error)) && State() == old(State()))
      ensures tx.tables == if old(tx.done) || tx.db.faults.exec then old(tx.tables)
                           else old(tx.tables).(users := old(tx.tables).users.SetUser(id, name, password, now))
    {
      var r := tx.ExecUpdateUser(id, name, password, now);
      if r.Err? {
        return Some(Wrapped(r.error));
      }
      var count := r.value.RowsAffected();
      if count.Err? {
        return Some(Wrapped(count.error));
      }
      if count.value != 1 {
        return Some(RowsAffectedNot1(count.value));
      }
      updatedAt := now;
      err := None;
    }

    /** `Delete`: delete row `id`; it fails unless exactly one row was affected, and no field
        of the model changes either way. */
    method Delete(tx: Sql.Tx) returns (err: Option<Error>)
      modifies tx`tables
      ensures var o := Sql.ChangeOutcome(old(tx.done), tx.db.faults, old(tx.tables).users, id);
              && (err.None? <==> o.Ok? && o.value == 1)
              && (o.Ok? && o.value != 1 ==> err == Some(RowsAffectedNot1(o.value)))
              && (o.Err? ==> err == Some(Wrapped(o.error)))
      ensures tx.tables == if old(tx.done) || tx.db.faults.exec then old(tx.tables)
                           else old(tx.tables).Set(Sql.Users, old(tx.tables).users.Remove(id))
    {
      var r := tx.ExecDelete(Sql.Users, id);
      if r.Err? {
        return Some(Wrapped(r.error));
      }
      var count := r.value.RowsAffected();
      if count.Err? {
        return Some(Wrapped(count.error));
      }
      if count.value != 1 {
        return Some(RowsAffectedNot1(count.value));
      }
      err := None;
    }
  }

  /** An entity converted to a model and back keeps its identifier, name and hash, and a
      stored user with a name is always valid on the way out. */
  method RoundTrip(u: PkgUserEntity.User) returns (e: PkgUserEntity.User)
    ensures e.id == u.id && e.name == u.name && e.password.Hash() == u.password.Hash()
    ensures |u.name| > 0 ==> PkgUserEntity.Valid(e)
  {
    var m := new User.NewUser(u);
    e := m.NewEntity();
  }
}
