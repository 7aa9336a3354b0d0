/** src/repository/repository.go: the `repository` facade over a connection pool. Every
    write opens a transaction first and hands it, with a model built from its argument, to
    the operations of src/repository/user.go and src/repository/company.go; reads go to the
    pool directly and never open a transaction. */
module Repository {
  import opened Base
  import Sql
  import PkgUser
  import PkgUserPassword
  import PkgCompany
  import RepoModelUser
  import RepoModelCompany
  import RepoUser
  import RepoCompany

  /** `repository`. */
  class Repository {
    const db: Sql.DB

    /** `New`: the pool is stored unchanged. */
    constructor New(db: Sql.DB)
      ensures this.db == db
    {
      this.db := db;
    }

    /** `Close`: forwarded to the pool. */
    method Close() returns (err: Option<Error>)
      modifies db`calls
      ensures db.calls == old(db.calls) + [Sql.Close]
      ensures err == if db.faults.close then Some(Backend(CloseFault)) else None
    {
      err := db.Close();
    }

    /** `UserCreate`: the entity's name and hash are inserted with `now` as both timestamps;
        the entity returned carries the new id. */
    method UserCreate(u: RepoModelUser.Entity, now: Time) returns (r: Result<RepoModelUser.Entity>)
      modifies db`tables, db`calls
      ensures db.faults.begin ==> r == Err(Wrapped(Backend(BeginFault))) && db.calls == old(db.calls) + [Sql.Begin]
      ensures !db.faults.begin ==> var o := Sql.InsertOutcome(false, db.faults, old(db.tables).users);
                && (o.Err? ==> r == Err(Wrapped(Wrapped(o.error))) && db.calls == old(db.calls) + [Sql.Begin, Sql.Rollback])
                && (o.Ok? && db.faults.commit ==> r == Err(Wrapped(Backend(CommitFault))) && db.calls == old(db.calls) + [Sql.Begin, Sql.Commit])
                && (o.Ok? && !db.faults.commit ==> db.calls == old(db.calls) + [Sql.Begin, Sql.Commit])
                && (o.Ok? && !db.faults.commit ==> r == Ok(RepoModelUser.Entity(o.value, u.name, PkgUserPassword.FromHash(u.password.Hash()), now)))
      ensures r.Err? ==> db.tables == old(db.tables)
      ensures r.Ok? ==> db.tables == old(db.tables).(users := old(db.tables).users.Insert(Sql.UserRow(u.name, u.password.Hash(), now, now)))
    {
      var tx, err := db.Begin();
      if err.Some? {
        return Err(Wrapped(err.value));
      }
      var model := new RepoModelUser.User.NewUser(u);
      r := RepoUser.UserCreate(tx, model, now);
    }

    /** `UserRead`: no transaction is opened; the row of `id` in the pool, or the error. */
    method UserRead(id: PkgUser.ID) returns (r: Result<RepoModelUser.Entity>)
      ensures var o := db.QueryRow(Sql.Users, id, Sql.UserShape);
              && (o.Err? ==> r == Err(Wrapped(Wrapped(o.error))))
              && (o.Ok? ==> r == Ok(RepoModelUser.Entity(id, o.value.name, PkgUserPassword.FromHash(o.value.password), o.value.updatedAt)))
    {
      var model := new RepoModelUser.User.NewUserFromID(id);
      r := RepoUser.UserRead(db, model);
    }

    /** `UserUpdate`: the entity's name and hash are written to row `u.id`, committed only
        when exactly that row exists. */
    method UserUpdate(u: RepoModelUser.Entity, now: Time) returns (r: Result<RepoModelUser.Entity>)
      modifies db`tables, db`calls
      ensures db.faults.begin ==> r == Err(Wrapped(Backend(BeginFault))) && db.calls == old(db.calls) + [Sql.Begin]
      ensures !db.faults.begin ==> var o := Sql.ChangeOutcome(false, db.faults, old(db.tables).users, u.id);
                && (o.Err? ==> r == Err(Wrapped(Wrapped(o.error))) && db.calls == old(db.calls) + [Sql.Begin, Sql.Rollback])
                && (o.Ok? && o.value != 1 ==> r == Err(Wrapped(RowsAffectedNot1(o.value))) && db.calls == old(db.calls) + [Sql.Begin, Sql.Rollback])
                && (o == Ok(1) && db.faults.commit ==> r == Err(Wrapped(Backend(CommitFault))) && db.calls == old(db.calls) + [Sql.Begin, Sql.Commit])
                && (o == Ok(1) && !db.faults.commit ==> db.calls == old(db.calls) + [Sql.Begin, Sql.Commit])
                && (o == Ok(1) && !db.faults.commit ==> r == Ok(RepoModelUser.Entity(u.id, u.name, PkgUserPassword.FromHash(u.password.Hash()), now)))
      ensures r.Err? ==> db.tables == old(db.tables)
      ensures r.Ok? ==> db.tables == old(db.tables).(users := old(db.tables).users.SetUser(u.id, u.name, u.password.Hash(), now))
    {
      var tx, err := db.Begin();
      if err.Some? {
        return Err(Wrapped(err.value));
      }
      var model := new RepoModelUser.User.NewUser(u);
      r := RepoUser.UserUpdate(tx, model, now);
    }

    /** `UserDelete`: row `id` is deleted, committed only when exactly that row existed. */
    method UserDelete(id: PkgUser.ID) returns (err: Option<Error>)
      modifies db`tables, db`calls
      ensures db.faults.begin ==> err == Some(Wrapped(Backend(BeginFault))) && db.calls == old(db.calls) + [Sql.Begin]
      ensures !db.faults.begin ==> var o := Sql.ChangeOutcome(false, db.faults, old(db.tables).users, id);
                && (o.Err? ==> err == Some(Wrapped(Wrapped(o.error))) && db.calls == old(db.calls) + [Sql.Begin, Sql.Rollback])
                && (o.Ok? && o.value != 1 ==> err == Some(Wrapped(RowsAffectedNot1(o.value))) && db.calls == old(db.calls) + [Sql.Begin, Sql.Rollback])
                && (o == Ok(1) && db.faults.commit ==> err == Some(Wrapped(Backend(CommitFault))) && db.calls == old(db.calls) + [Sql.Begin, Sql.Commit])
                && (o == Ok(1) && !db.faults.commit ==> err == None && db.calls == old(db.calls) + [Sql.Begin, Sql.Commit])
      ensures err.Some? ==> db.tables == old(db.tables)
      ensures err.None? ==> db.tables == old(db.tables).(users := old(db.tables).users.Remove(id))
    {
      var tx, beginErr := db.Begin();
      if beginErr.Some? {
        return Some(Wrapped(beginErr.value));
      }
      var model := new RepoModelUser.User.NewUserFromID(id);
      err := RepoUser.UserDelete(tx, model);
    }

    /** `CompanyCreate`: only the name is stored; the company returned carries the new id,
        `now` as its update time and no owner. */
    method CompanyCreate(c: PkgCompany.Company, now: Time) returns (r: Result<PkgCompany.Company>)
      modifies db`tables, db`calls
      ensures db.faults.begin ==> r == Err(Wrapped(Backend(BeginFault))) && db.calls == old(db.calls) + [Sql.Begin]
      ensures !db.faults.begin ==> var o := Sql.InsertOutcome(false, db.faults, old(db.tables).companies);
                && (o.Err? ==> r == Err(Wrapped(Wrapped(o.error))) && db.calls == old(db.calls) + [Sql.Begin, Sql.Rollback])
                && (o.Ok? && db.faults.commit ==> r == Err(Wrapped(Backend(CommitFault))) && db.calls == old(db.calls) + [Sql.Begin, Sql.Commit])
                && (o.Ok? && !db.faults.commit ==> db.calls == old(db.calls) + [Sql.Begin, Sql.Commit])
                && (o.Ok? && !db.faults.commit ==> r == Ok(PkgCompany.Company(o.value, c.name, 0, now)))
      ensures r.Err? ==> db.tables == old(db.tables)
      ensures r.Ok? ==> db.tables == old(db.tables).(companies := old(db.tables).companies.Insert(Sql.NamedRow(c.name, now, now)))
    {
      var tx, err := db.Begin();
      if err.Some? {
        return Err(Wrapped(err.value));
      }
      var model := new RepoModelCompany.Company.NewCompany(c);
      r := RepoCompany.CompanyCreate(tx, model, now);
    }

    /** `CompanyRead`: no transaction is opened; the row of `id` in the pool, or the error. */
    method CompanyRead(id: PkgCompany.ID) returns (r: Result<PkgCompany.Company>)
      ensures var o := db.QueryRow(Sql.Companies, id, Sql.NamedShape);
              && (o.Err? ==> r == Err(Wrapped(Wrapped(o.error))))
              && (o.Ok? ==> r == Ok(PkgCompany.Company(id, o.value.name, 0, o.value.updatedAt)))
    {
      var model := new RepoModelCompany.Company.NewCompanyFromID(id);
      r := RepoCompany.CompanyRead(db, model);
    }
  }

  /** On a database that reports no failure, a user created through the facade is read back
      as the same entity: the new id, the name and hash given, and `now`. */
  method UserCreateThenRead(tables: Sql.Tables, u: RepoModelUser.Entity, now: Time)
    returns (created: Result<RepoModelUser.Entity>, read: Result<RepoModelUser.Entity>)
    ensures created == Ok(RepoModelUser.Entity(tables.users.nextID, u.name, PkgUserPassword.FromHash(u.password.Hash()), now))
    ensures read == created
  {
    var db := new Sql.DB(tables, Sql.NoFaults);
    var repo := new Repository.New(db);
    created := repo.UserCreate(u, now);
    Sql.InsertThenLookup(tables.users, Sql.UserRow(u.name, u.password.Hash(), now, now), Sql.UserShape, Sql.NoFaults);
    read := repo.UserRead(created.value.id);
  }

  /** On a database that reports no failure, deleting a stored user succeeds once, and the
      user can then no longer be read, nor deleted again. */
  method UserDeleteThenRead(tables: Sql.Tables, id: PkgUser.ID)
    returns (deleted: Option<Error>, read: Result<RepoModelUser.Entity>, again: Option<Error>)
    requires id in tables.users.rows
    ensures deleted == None
    ensures read == Err(Wrapped(Wrapped(Backend(NoRows))))
    ensures again == Some(Wrapped(RowsAffectedNot1(0)))
  {
    var db := new Sql.DB(tables, Sql.NoFaults);
    var repo := new Repository.New(db);
    deleted := repo.UserDelete(id);
    Sql.RemoveThenLookup(tables.users, id, Sql.UserShape, Sql.NoFaults);
    read := repo.UserRead(id);
    again := repo.UserDelete(id);
  }

  /** On a database that reports no failure, a company created through the facade is read
      back with the same id, name and update time, and without its owner. */
  method CompanyCreateThenRead(tables: Sql.Tables, c: PkgCompany.Company, now: Time)
    returns (created: Result<PkgCompany.Company>, read: Result<PkgCompany.Company>)
    ensures created == Ok(PkgCompany.Company(tables.companies.nextID, c.name, 0, now))
    ensures read == created
  {
    var db := new Sql.DB(tables, Sql.NoFaults);
    var repo := new Repository.New(db);
    created := repo.CompanyCreate(c, now);
    Sql.InsertThenLookup(tables.companies, Sql.NamedRow(c.name, now, now), Sql.NamedShape, Sql.NoFaults);
    read := repo.CompanyRead(created.value.id);
  }
}
