/** src/rdb-repository/company.go: the company operations of the `rdb-repository` package over
    a connection pool, following the same protocol as src/rdb-repository/user.go: open a
    transaction, run one model operation through a lower-case helper, then roll back (its own
    error ignored) or commit; a read runs on the pool.

    The `model.Company` these functions program against (an interface with `Create`, `Read`,
    `Update`, `Delete` and `NewEntity`, built by `NewCompany` from a `company.Company` of
    src/pkg/company/company.go, or by `NewCompanyFromID`) is not defined by
    src/rdb-repository/model/company.go. It is modelled here as `CompanyModel`, whose
    operations report outcomes chosen up front, as the flag mocks of the tests do. */
module RdbCompany {
  import opened Base
  import Sql
  import PkgCompany

  /** What the model's operations report: each failure given up front (`None` is success),
      and the company the model holds after any successful operation. */
  datatype Behaviour = Behaviour(create: Option<Error>, read: Option<Error>, update: Option<Error>,
                                 delete: Option<Error>, stored: PkgCompany.Company)

  /** `model.Company`. */
  class CompanyModel {
    var entity: PkgCompany.Company
    const behaviour: Behaviour

    /** `model.NewCompany`: the company given. */
    constructor NewCompany(c: PkgCompany.Company, b: Behaviour)
      ensures entity == c && behaviour == b
    {
      entity, behaviour := c, b;
    }

    /** `model.NewCompanyFromID`: only the identifier. */
    constructor NewCompanyFromID(id: PkgCompany.ID, b: Behaviour)
      ensures entity == PkgCompany.Company(id, [], 0, ZeroTime) && behaviour == b
    {
      entity, behaviour := PkgCompany.Company(id, [], 0, ZeroTime), b;
    }

    /** `NewEntity`. */
    function NewEntity(): PkgCompany.Company
      reads this
    {
      entity
    }

    /** `Create`: the reported error, or success holding the stored company. */
    method Create(tx: Sql.Tx) returns (err: Option<Error>)
      modifies this
      ensures err == behaviour.create
      ensures entity == if err.None? then behaviour.stored else old(entity)
    {
      err := behaviour.create;
      if err.None? {
        entity := behaviour.stored;
      }
    }

    /** `Read`. */
    method Read(db: Sql.DB) returns (err: Option<Error>)
      modifies this
      ensures err == behaviour.read
      ensures entity == if err.None? then behaviour.stored else old(entity)
    {
      err := behaviour.read;
      if err.None? {
        entity := behaviour.stored;
      }
    }

    /** `Update`. */
    method Update(tx: Sql.Tx) returns (err: Option<Error>)
      modifies this
      ensures err == behaviour.update
      ensures entity == if err.None? then behaviour.stored else old(entity)
    {
      err := behaviour.update;
      if err.None? {
        entity := behaviour.stored;
      }
    }

    /** `Delete`. */
    method Delete(tx: Sql.Tx) returns (err: Option<Error>)
      ensures err == behaviour.delete
    {
      err := behaviour.delete;
    }
  }

  /** `companyCreate`: the model on success, no model and its error unchanged otherwise. */
  method companyCreate(tx: Sql.Tx, company: CompanyModel) returns (m: CompanyModel?, err: Option<Error>)
    modifies company
    ensures err == company.behaviour.create
    ensures err.None? ==> m == company && company.entity == company.behaviour.stored
    ensures err.Some? ==> m == null && company.entity == old(company.entity)
  {
    err := company.Create(tx);
    if err.Some? {
      return null, err;
    }
    m := company;
  }

  /** `CompanyCreate`: the company the model holds once the commit succeeded, or the first
      error met. */
  method CompanyCreate(db: Sql.DB, c: PkgCompany.Company, b: Behaviour) returns (r: Result<PkgCompany.Company>)
    modifies db`tables, db`calls
    ensures db.faults.begin ==> r == Err(Wrapped(Backend(BeginFault))) && db.calls == old(db.calls) + [Sql.Begin]
    ensures !db.faults.begin && b.create.Some? ==> r == Err(Wrapped(b.create.value)) && db.calls == old(db.calls) + [Sql.Begin, Sql.Rollback]
    ensures !db.faults.begin && b.create.None? && db.faults.commit ==> r == Err(Wrapped(Backend(CommitFault))) && db.calls == old(db.calls) + [Sql.Begin, Sql.Commit]
    ensures !db.faults.begin && b.create.None? && !db.faults.commit ==> r == Ok(b.stored) && db.calls == old(db.calls) + [Sql.Begin, Sql.Commit]
    ensures db.tables == old(db.tables)
  {
    var tx, err := db.Begin();
    if err.Some? {
      return Err(Wrapped(err.value));
    }
    var model := new CompanyModel.NewCompany(c, b);
    var created;
    created, err := companyCreate(tx, model);
    if err.Some? {
      var _ := tx.Rollback();
      return Err(Wrapped(err.value));
    }
    err := tx.Commit();
    if err.Some? {
      return Err(Wrapped(err.value));
    }
    r := Ok(created.NewEntity());
  }

  /** `companyRead`: the model on success, no model and its error unchanged otherwise. */
  method companyRead(db: Sql.DB, company: CompanyModel) returns (m: CompanyModel?, err: Option<Error>)
    modifies company
    ensures err == company.behaviour.read
    ensures err.None? ==> m == company && company.entity == company.behaviour.stored
    ensures err.Some? ==> m == null && company.entity == old(company.entity)
  {
    err := company.Read(db);
    if err.Some? {
      return null, err;
    }
    m := company;
  }

  /** `CompanyRead`: no transaction; the company read, or the read's error. */
  method CompanyRead(db: Sql.DB, id: PkgCompany.ID, b: Behaviour) returns (r: Result<PkgCompany.Company>)
    ensures b.read.Some? ==> r == Err(Wrapped(b.read.value))
    ensures b.read.None? ==> r == Ok(b.stored)
  {
    var model := new CompanyModel.NewCompanyFromID(id, b);
    var m, err := companyRead(db, model);
    if err.Some? {
      return Err(Wrapped(err.value));
    }
    r := Ok(m.NewEntity());
  }

  /** `companyUpdate`: the model on success, no model and its error unchanged otherwise. */
  method companyUpdate(tx: Sql.Tx, company: CompanyModel) returns (m: CompanyModel?, err: Option<Error>)
    modifies company
    ensures err == company.behaviour.update
    ensures err.None? ==> m == company && company.entity == company.behaviour.stored
    ensures err.Some? ==> m == null && company.entity == old(company.entity)
  {
    err := company.Update(tx);
    if err.Some? {
      return null, err;
    }
    m := company;
  }

  /** `CompanyUpdate`: as `CompanyCreate`, with the model's `Update`. */
  method CompanyUpdate(db: Sql.DB, c: PkgCompany.Company, b: Behaviour) returns (r: Result<PkgCompany.Company>)
    modifies db`tables, db`calls
    ensures db.faults.begin ==> r == Err(Wrapped(Backend(BeginFault))) && db.calls == old(db.calls) + [Sql.Begin]
    ensures !db.faults.begin && b.update.Some? ==> r == Err(Wrapped(b.update.value)) && db.calls == old(db.calls) + [Sql.Begin, Sql.Rollback]
    ensures !db.faults.begin && b.update.None? && db.faults.commit ==> r == Err(Wrapped(Backend(CommitFault))) && db.calls == old(db.calls) + [Sql.Begin, Sql.Commit]
    ensures !db.faults.begin && b.update.None? && !db.faults.commit ==> r == Ok(b.stored) && db.calls == old(db.calls) + [Sql.Begin, Sql.Commit]
    ensures db.tables == old(db.tables)
  {
    var tx, err := db.Begin();
    if err.Some? {
      return Err(Wrapped(err.value));
    }
    var model := new CompanyModel.NewCompany(c, b);
    var updated;
    updated, err := companyUpdate(tx, model);
    if err.Some? {
      var _ := tx.Rollback();
      return Err(Wrapped(err.value));
    }
    err := tx.Commit();
    if err.Some? {
      return Err(Wrapped(err.value));
    }
    r := Ok(updated.NewEntity());
  }

  /** `companyDelete`: the model's error unchanged. */
  method companyDelete(tx: Sql.Tx, company: CompanyModel) returns (err: Option<Error>)
    ensures err == company.behaviour.delete
  {
    err := company.Delete(tx);
  }

  /** `CompanyDelete`: `None` (a nil error) only when the delete and the commit succeeded. */
  method CompanyDelete(db: Sql.DB, id: PkgCompany.ID, b: Behaviour) returns (err: Option<Error>)
    modifies db`tables, db`calls
    ensures db.faults.begin ==> err == Some(Wrapped(Backend(BeginFault))) && db.calls == old(db.calls) + [Sql.Begin]
    ensures !db.faults.begin && b.delete.Some? ==> err == Some(Wrapped(b.delete.value)) && db.calls == old(db.calls) + [Sql.Begin, Sql.Rollback]
    ensures !db.faults.begin && b.delete.None? && db.faults.commit ==> err == Some(Wrapped(Backend(CommitFault))) && db.calls == old(db.calls) + [Sql.Begin, Sql.Commit]
    ensures !db.faults.begin && b.delete.None? && !db.faults.commit ==> err == None && db.calls == old(db.calls) + [Sql.Begin, Sql.Commit]
    ensures db.tables == old(db.tables)
  {
    var tx, beginErr := db.Begin();
    if beginErr.Some? {
      return Some(Wrapped(beginErr.value));
    }
    var model := new CompanyModel.NewCompanyFromID(id, b);
    err := companyDelete(tx, model);
    if err.Some? {
      var _ := tx.Rollback();
      return Some(Wrapped(err.value));
    }
    err := tx.Commit();
    if err.Some? {
      return Some(Wrapped(err.value));
    }
  }
}
