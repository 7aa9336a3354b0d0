/** src/repository/model/company.go: the `company` persistence model of the `repository`
    package, over rows of `companies`. The table has no owner column, so the owner of a
    company is dropped on the way in and comes back as 0. The clock is a parameter `now`. */
module RepoModelCompany {
  import opened Base
  import Sql
  import PkgCompany

  /** The four fields of a `company`, as one value. */
  datatype Record = Record(id: PkgCompany.ID, name: PkgCompany.Name, createdAt: Time, updatedAt: Time)

  /** `company`. */
  class Company {
    var id: PkgCompany.ID
    var name: PkgCompany.Name
    var createdAt: Time
    var updatedAt: Time

    function State(): Record
      reads this
    {
      Record(id, name, createdAt, updatedAt)
    }

    /** `NewCompany`: only the name; the id stays 0 and the owner is dropped. */
    constructor NewCompany(c: PkgCompany.Company)
      ensures State() == Record(0, c.name, ZeroTime, ZeroTime)
    {
      id, name := 0, c.name;
      createdAt, updatedAt := ZeroTime, ZeroTime;
    }

    /** `NewCompanyFromID`: only the identifier. */
    constructor NewCompanyFromID(id: PkgCompany.ID)
      ensures State() == Record(id, [], ZeroTime, ZeroTime)
    {
      this.id, name := id, [];
      createdAt, updatedAt := ZeroTime, ZeroTime;
    }

    /** `NewEntity`: id, name and update time; the owner is unknown and left 0. */
    function NewEntity(): (c: PkgCompany.Company)
      reads this
      ensures c.id == id && c.name == name && c.updatedAt == updatedAt
      ensures c.ownerID == 0 && !PkgCompany.ValidCreate(c)
    {
      PkgCompany.Company(id, name, 0, updatedAt)
    }

    /** `Create`: insert the name and `now` twice; on success the model takes the new id and
        `now` as both timestamps, on failure no field changes. */
    method Create(tx: Sql.Tx, now: Time) returns (err: Option<Error>)
      modifies this, tx`tables
      ensures var o := Sql.InsertOutcome(old(tx.done), tx.db.faults, old(tx.tables).companies);
              && (o.Ok? ==> err.None? && State() == old(State()).(id := o.value, createdAt := now, updatedAt := now))
              && (o.Err? ==> err == Some(Wrapped(o.error)) && State() == old(State()))
      ensures tx.tables == Sql.Inserted(old(tx.done), tx.db.faults, old(tx.tables), Sql.Companies,
                                        Sql.NamedRow(old(name), now, now))
    {
      var r := tx.ExecInsert(Sql.Companies, Sql.NamedRow(name, now, now));
      if r.Err? {
        return Some(Wrapped(r.error));
      }
      var last := r.value.LastInsertId();
      if last.Err? {
        return Some(Wrapped(last.error));
      }
      id, createdAt, updatedAt := last.value, now, now;
      err := None;
    }

    /** `Read`: scan id, name and both timestamps of row `id`; on failure no field changes. */
    method Read(db: Sql.DB) returns (err: Option<Error>)
      modifies this
      ensures var o := db.QueryRow(Sql.Companies, old(id), Sql.NamedShape);
              && (o.Ok? ==> err.None? && State() == Record(old(id), o.value.name, o.value.createdAt, o.value.updatedAt))
              && (o.Err? ==> err == Some(Wrapped(o.error)) && State() == old(State()))
    {
      var r := db.QueryRow(Sql.Companies, id, Sql.NamedShape);
      if r.Err? {
        return Some(Wrapped(r.error));
      }
      // the id column scanned back is the id queried
      name, createdAt, updatedAt := r.value.name, r.value.createdAt, r.value.updatedAt;
      err := None;
    }
  }

  /** A company converted to a model and back keeps its name; the id comes back 0, the owner
      0 and the update time zero. */
  method RoundTrip(c: PkgCompany.Company) returns (e: PkgCompany.Company)
    ensures e.name == c.name && e.id == 0 && e.ownerID == 0 && e.updatedAt == ZeroTime
  {
    var m := new Company.NewCompany(c);
    e := m.NewEntity();
  }
}
