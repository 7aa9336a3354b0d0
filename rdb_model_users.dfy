/** src/rdb-repository/model/users.go: the exported `User` persistence model over rows of
    `users`, for the entity user of src/pkg/entity/user.go. Errors from the database are
    returned as they are, without wrapping. The clock is a parameter `now`. */
module RdbModelUsers {
  import opened Base
  import Sql
  import PkgEntityUser

  /** The five fields of a `User`, as one value. */
  datatype Record = Record(id: PkgEntityUser.UserID, name: GoString, password: Bytes,
                           createdAt: Time, updatedAt: Time)

  /** `user`. */
  class User {
    var id: PkgEntityUser.UserID
    var name: GoString
    var password: Bytes
    var createdAt: Time
    var updatedAt: Time

    function State(): Record
      reads this
    {
      Record(id, name, password, createdAt, updatedAt)
    }

    /** `NewUser`: identifier, name and hash of the entity, zero timestamps. */
    constructor NewUser(u: PkgEntityUser.User)
      ensures State() == Record(u.id, u.name, u.password.Hash(), ZeroTime, ZeroTime)
    {
      id, name, password := u.id, u.name, u.password.Hash();
      createdAt, updatedAt := ZeroTime, ZeroTime;
    }

    /** `Entity`: identifier and name as stored, the hash wrapped by `PasswordFromHash`
        (which records length 8), no companies; the timestamps are dropped. */
    function Entity(): (e: PkgEntityUser.User)
      reads this
      ensures e.id == id && e.name == name && e.companies == []
      ensures e.password.Hash() == password && e.password.Length() == 8
    {
      PkgEntityUser.User(id, name, PkgEntityUser.PasswordFromHash(password), [])
    }

    /** `Create`: insert the name, hash and `now` twice; on success the model takes the new id
        and `now` as both timestamps, on failure no field changes. */
    method Create(tx: Sql.Tx, now: Time) returns (err: Option<Error>)
      modifies this, tx`tables
      ensures var o := Sql.InsertOutcome(old(tx.done), tx.db.faults, old(tx.tables).users);
              && (o.Ok? ==> err.None? && State() == old(State()).(id := o.value, createdAt := now, updatedAt := now))
              && (o.Err? ==> err == Some(o.error) && State() == old(State()))
      ensures tx.tables == Sql.Inserted(old(tx.done), tx.db.faults, old(tx.tables), Sql.Users,
                                        Sql.UserRow(old(name), old(password), now, now))
    {
      var r := tx.ExecInsert(Sql.Users, Sql.UserRow(name, password, now, now));
      if r.Err? {
        return Some(r.error);
      }
      var last := r.value.LastInsertId();
      if last.Err? {
        return Some(last.error);
      }
      id, createdAt, updatedAt := last.value, now, now;
      err := None;
    }

    /** `Read`: scan name, hash and both timestamps of row `id`; on failure no field changes. */
    method Read(db: Sql.DB) returns (err: Option<Error>)
      modifies this
      ensures var o := db.QueryRow(Sql.Users, old(id), Sql.UserShape);
              && (o.Ok? ==> err.None? && State() == Record(old(id), o.value.name, o.value.password, o.value.createdAt, o.value.updatedAt))
              && (o.Err? ==> err == Some(o.error) && State() == old(State()))
    {
      var r := db.QueryRow(Sql.Users, id, Sql.UserShape);
      if r.Err? {
        return Some(r.error);
      }
      name, password, createdAt, updatedAt := r.value.name, r.value.password, r.value.createdAt, r.value.updatedAt;
      err := None;
    }

    /** `Update`: write name, hash and `now` to row `id`; only when exactly one row was
        affected does the model take `now` as its update time. */
    method Update(tx: Sql.Tx, now: Time) returns (err: Option<Error>)
      modifies this, tx`tables
      ensures var o := Sql.ChangeOutcome(old(tx.done), tx.db.faults, old(tx.tables).users, id);
              && (o.Ok? && o.value == 1 ==> err.None? && State() == old(State()).(updatedAt := now))
              && (o.Ok? && o.value != 1 ==> err == Some(RowsAffectedNot1(o.value)) && State() == old(State()))
              && (o.Err? ==> err == Some(o.error) && State() == old(State()))
      ensures tx.tables == if old(tx.done) || tx.db.faults.exec then old(tx.tables)
                           else old(tx.tables).(users := old(tx.tables).users.SetUser(id, name, password, now))
    {
      var r := tx.ExecUpdateUser(id, name, password, now);
      if r.Err? {
        return Some(r.error);
      }
      var count := r.value.RowsAffected();
      if count.Err? {
        return Some(count.error);
      }
      if count.value != 1 {
        return Some(RowsAffectedNot1(count.value));
      }
      updatedAt := now;
      err := None;
    }

    /** `Delete`: delete row `id`; it fails unless exactly one row was affected, and no field
        of the model changes either way. */
    method Delete(tx: Sql.Tx) returns (err: Option<Error>)
      modifies tx`tables
      ensures var o := Sql.ChangeOutcome(old(tx.done), tx.db.faults, old(tx.tables).users, id);
              && (err.None? <==> o.Ok? && o.value == 1)
              && (o.Ok? && o.value != 1 ==> err == Some(RowsAffectedNot1(o.value)))
              && (o.Err? ==> err == Some(o.error))
      ensures tx.tables == if old(tx.done) || tx.db.faults.exec then old(tx.tables)
                           else old(tx.tables).Set(Sql.Users, old(tx.tables).users.Remove(id))
    {
      var r := tx.ExecDelete(Sql.Users, id);
      if r.Err? {
        return Some(r.error);
      }
      var count := r.value.RowsAffected();
      if count.Err? {
        return Some(count.error);
      }
      if count.value != 1 {
        return Some(RowsAffectedNot1(count.value));
      }
      err := None;
    }
  }

  /** An entity converted to a model and back keeps its identifier, name and hash, loses
      its companies, and with a name always passes `Validate` on the way out. */
  method RoundTrip(u: PkgEntityUser.User) returns (e: PkgEntityUser.User)
    ensures e.id == u.id && e.name == u.name && e.password.Hash() == u.password.Hash()
    ensures e.companies == []
    ensures |u.name| > 0 ==> PkgEntityUser.Validate(e).None?
  {
    var m := new User.NewUser(u);
    e := m.Entity();
  }
}
