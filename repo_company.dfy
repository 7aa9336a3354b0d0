/** src/repository/company.go: the company operations of the `repository` package. A create
    runs inside the transaction it is given and ends it (`Rollback` when the model fails, its
    own error ignored; `Commit` otherwise); a read runs on the connection pool. The entity
    is built only once everything has succeeded. */
module RepoCompany {
  import opened Base
  import Sql
  import PkgCompany
  import RepoModelCompany

  /** `companyCreate`. */
  method CompanyCreate(tx: Sql.Tx, model: RepoModelCompany.Company, now: Time) returns (r: Result<PkgCompany.Company>)
    modifies model, tx`tables, tx`done, tx.db`tables, tx.db`calls
    ensures var o := Sql.InsertOutcome(old(tx.done), tx.db.faults, old(tx.tables).companies);
            && (o.Err? ==> r == Err(Wrapped(Wrapped(o.error))) && tx.db.calls == old(tx.db.calls) + [Sql.Rollback])
            && (o.Err? ==> model.State() == old(model.State()))
            && (o.Ok? && tx.db.faults.commit ==> r == Err(Wrapped(Backend(CommitFault))) && tx.db.calls == old(tx.db.calls) + [Sql.Commit])
            && (o.Ok? && !tx.db.faults.commit ==> r == Ok(model.NewEntity()) && tx.db.calls == old(tx.db.calls) + [Sql.Commit])
            && (o.Ok? ==> model.id == o.value && model.createdAt == now && model.updatedAt == now)
    ensures model.name == old(model.name)
    ensures r.Err? ==> tx.db.tables == old(tx.db.tables)
    ensures r.Ok? ==> tx.db.tables == old(tx.tables).(companies := old(tx.tables).companies.Insert(
                        Sql.NamedRow(old(model.name), now, now)))
  {
    var err := model.Create(tx, now);
    if err.Some? {
      var _ := tx.Rollback();
      return Err(Wrapped(err.value));
    }
    err := tx.Commit();
    if err.Some? {
      return Err(Wrapped(err.value));
    }
    r := Ok(model.NewEntity());
  }

  /** `companyRead`: no transaction; the database is only read. */
  method CompanyRead(db: Sql.DB, model: RepoModelCompany.Company) returns (r: Result<PkgCompany.Company>)
    modifies model
    ensures var o := db.QueryRow(Sql.Companies, old(model.id), Sql.NamedShape);
            && (o.Err? ==> r == Err(Wrapped(Wrapped(o.error))) && model.State() == old(model.State()))
            && (o.Ok? ==> r == Ok(model.NewEntity()) && model.name == o.value.name
                          && model.id == old(model.id) && model.updatedAt == o.value.updatedAt)
  {
    var err := model.Read(db);
    if err.Some? {
      return Err(Wrapped(err.value));
    }
    r := Ok(model.NewEntity());
  }
}
