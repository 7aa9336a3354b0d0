/** src/rdb-repository/model/company.go: the persistence models of companies and of the three
    join tables that tie companies, users and roles together. Every `Create` inserts one row
    and, on success only, takes the new id and `now` as both timestamps. Errors from the
    database are returned as they are. The clock is a parameter `now`. */
module RdbModelCompany {
  import opened Base
  import Sql
  import PkgEntityCompany
  import PkgEntityRole
  import PkgEntityUser

  /** The fields of a join row: its id, its two keys and its timestamps. */
  datatype Record = Record(id: int, left: int, right: int, createdAt: Time, updatedAt: Time)

  /** What the `Create` of a join row leaves in its record when the insert reported `o`: the
      new id and `now` twice, or the record unchanged. */
  function AfterCreate(r: Record, o: Result<int>, now: Time): (s: Record)
    ensures o.Ok? ==> s.id == o.value && s.createdAt == now && s.updatedAt == now
    ensures o.Err? ==> s == r
    ensures s.left == r.left && s.right == r.right
  {
    if o.Ok? then r.(id := o.value, createdAt := now, updatedAt := now) else r
  }

  /** `Company`. */
  class Company {
    var id: PkgEntityCompany.CompanyID
    var name: GoString
    var createdAt: Time
    var updatedAt: Time

    /** `NewCompany`: the entity's id and name, zero timestamps. */
    constructor NewCompany(c: PkgEntityCompany.Company)
      ensures id == c.id && name == c.name && createdAt == ZeroTime && updatedAt == ZeroTime
    {
      id, name := c.id, c.name;
      createdAt, updatedAt := ZeroTime, ZeroTime;
    }

    /** `Entity`. */
    function Entity(): (c: PkgEntityCompany.Company)
      reads this
      ensures c.id == id && c.name == name
    {
      PkgEntityCompany.Company(id, name)
    }

    /** `Create`: insert the name and `now` twice. */
    method Create(tx: Sql.Tx, now: Time) returns (err: Option<Error>)
      modifies this, tx`tables
      ensures var o := Sql.InsertOutcome(old(tx.done), tx.db.faults, old(tx.tables).companies);
              && err == (if o.Ok? then None else Some(o.error))
              && (o.Ok? ==> id == o.value && createdAt == now && updatedAt == now)
              && (o.Err? ==> id == old(id) && createdAt == old(createdAt) && updatedAt == old(updatedAt))
              && name == old(name)
      ensures tx.tables == Sql.Inserted(old(tx.done), tx.db.faults, old(tx.tables), Sql.Companies,
                                        Sql.NamedRow(old(name), now, now))
    {
      var r := tx.ExecInsert(Sql.Companies, Sql.NamedRow(name, now, now));
      if r.Err? {
        return Some(r.error);
      }
      var last := r.value.LastInsertId();
      if last.Err? {
        return Some(last.error);
      }
      id, createdAt, updatedAt := last.value, now, now;
      err := None;
    }
  }

  /** A company entity converted to a model and back keeps its id and name. */
  method CompanyRoundTrip(c: PkgEntityCompany.Company) returns (e: PkgEntityCompany.Company)
    ensures e == c
  {
    var m := new Company.NewCompany(c);
    e := m.Entity();
  }

  /** `CompanyRole`: a role of a company. */
  class CompanyRole {
    var id: int
    var companyID: PkgEntityCompany.CompanyID
    var roleID: PkgEntityRole.RoleID
    var createdAt: Time
    var updatedAt: Time

    function State(): Record
      reads this
    {
      Record(id, companyID, roleID, createdAt, updatedAt)
    }

    /** `NewCompanyRole`: only the two keys. */
    constructor NewCompanyRole(cID: PkgEntityCompany.CompanyID, rID: PkgEntityRole.RoleID)
      ensures State() == Record(0, cID, rID, ZeroTime, ZeroTime)
    {
      id, companyID, roleID := 0, cID, rID;
      createdAt, updatedAt := ZeroTime, ZeroTime;
    }

    /** `Create`: insert the two keys unchanged and `now` twice. */
    method Create(tx: Sql.Tx, now: Time) returns (err: Option<Error>)
      modifies this, tx`tables
      ensures var o := Sql.InsertOutcome(old(tx.done), tx.db.faults, old(tx.tables).companyRoles);
              && err == (if o.Ok? then None else Some(o.error))
              && State() == AfterCreate(old(State()), o, now)
      ensures tx.tables == Sql.Inserted(old(tx.done), tx.db.faults, old(tx.tables), Sql.CompanyRoles,
                                        Sql.LinkRow(old(companyID), old(roleID), now, now))
    {
      var r := tx.ExecInsert(Sql.CompanyRoles, Sql.LinkRow(companyID, roleID, now, now));
      if r.Err? {
        return Some(r.error);
      }
      var last := r.value.LastInsertId();
      if last.Err? {
        return Some(last.error);
      }
      id, createdAt, updatedAt := last.value, now, now;
      err := None;
    }
  }

  /** `FindCompanyRoleTx`: the join row of company `cID` and role `rID` in the transaction's
      view, or the error of the query; the keys of the record are the ones asked for. */
  method FindCompanyRoleTx(tx: Sql.Tx, cID: PkgEntityCompany.CompanyID, rID: PkgEntityRole.RoleID)
    returns (cr: CompanyRole?, err: Option<Error>)
    ensures (cr == null) <==> err.Some?
    ensures cr != null ==> cr.companyID == cID && cr.roleID == rID
    ensures cr != null <==> !tx.done && !tx.db.faults.scan && Sql.HasLink(tx.tables.companyRoles, cID, rID)
    ensures err.Some? ==> err.value == Sql.LinkQueryError(tx.done, tx.tables.companyRoles, cID, rID)
    ensures cr != null ==> cr.id in tx.tables.companyRoles.rows
                           && tx.tables.companyRoles.rows[cr.id] == Sql.LinkRow(cID, rID, cr.createdAt, cr.updatedAt)
  {
    cr := new CompanyRole.NewCompanyRole(cID, rID);
    var r := tx.QueryLink(Sql.CompanyRoles, cID, rID);
    if r.Err? {
      return null, Some(r.error);
    }
    cr.id, cr.createdAt, cr.updatedAt := r.value.0, r.value.1.createdAt, r.value.1.updatedAt;
    err := None;
  }

  /** `CompanyEmployee`: a user employed by a company. */
  class CompanyEmployee {
    var id: int
    var companyID: PkgEntityCompany.CompanyID
    var userID: PkgEntityUser.UserID
    var createdAt: Time
    var updatedAt: Time

    function State(): Record
      reads this
    {
      Record(id, companyID, userID, createdAt, updatedAt)
    }

    /** `NewCompanyEmployee`: only the two keys. */
    constructor NewCompanyEmployee(cID: PkgEntityCompany.CompanyID, uID: PkgEntityUser.UserID)
      ensures State() == Record(0, cID, uID, ZeroTime, ZeroTime)
    {
      id, companyID, userID := 0, cID, uID;
      createdAt, updatedAt := ZeroTime, ZeroTime;
    }

    /** `Create`: insert the two keys unchanged and `now` twice. */
    method Create(tx: Sql.Tx, now: Time) returns (err: Option<Error>)
      modifies this, tx`tables
      ensures var o := Sql.InsertOutcome(old(tx.done), tx.db.faults, old(tx.tables).companyEmployees);
              && err == (if o.Ok? then None else Some(o.error))
              && State() == AfterCreate(old(State()), o, now)
      ensures tx.tables == Sql.Inserted(old(tx.done), tx.db.faults, old(tx.tables), Sql.CompanyEmployees,
                                        Sql.LinkRow(old(companyID), old(userID), now, now))
    {
      var r := tx.ExecInsert(Sql.CompanyEmployees, Sql.LinkRow(companyID, userID, now, now));
      if r.Err? {
        return Some(r.error);
      }
      var last := r.value.LastInsertId();
      if last.Err? {
        return Some(last.error);
      }
      id, createdAt, updatedAt := last.value, now, now;
      err := None;
    }
  }

  /** `FindCompanyEmployeeTx`: the join row of company `cID` and user `uID` in the
      transaction's view, or the error of the query. */
  method FindCompanyEmployeeTx(tx: Sql.Tx, cID: PkgEntityCompany.CompanyID, uID: PkgEntityUser.UserID)
    returns (ce: CompanyEmployee?, err: Option<Error>)
    ensures (ce == null) <==> err.Some?
    ensures ce != null ==> ce.companyID == cID && ce.userID == uID
    ensures ce != null <==> !tx.done && !tx.db.faults.scan && Sql.HasLink(tx.tables.companyEmployees, cID, uID)
    ensures err.Some? ==> err.value == Sql.LinkQueryError(tx.done, tx.tables.companyEmployees, cID, uID)
    ensures ce != null ==> ce.id in tx.tables.companyEmployees.rows
                           && tx.tables.companyEmployees.rows[ce.id] == Sql.LinkRow(cID, uID, ce.createdAt, ce.updatedAt)
  {
    ce := new CompanyEmployee.NewCompanyEmployee(cID, uID);
    var r := tx.QueryLink(Sql.CompanyEmployees, cID, uID);
    if r.Err? {
      return null, Some(r.error);
    }
    ce.id, ce.createdAt, ce.updatedAt := r.value.0, r.value.1.createdAt, r.value.1.updatedAt;
    err := None;
  }

  /** `EmployeeRole`: a company role held by a company employee. */
  class EmployeeRole {
    var id: int
    var companyEmployeeID: int
    var companyRoleID: int
    var createdAt: Time
    var updatedAt: Time

    function State(): Record
      reads this
    {
      Record(id, companyEmployeeID, companyRoleID, createdAt, updatedAt)
    }

    /** `NewEmployeeRole`: only the two keys. */
    constructor NewEmployeeRole(companyEmployeeID: int, companyRoleID: int)
      ensures State() == Record(0, companyEmployeeID, companyRoleID, ZeroTime, ZeroTime)
    {
      id := 0;
      this.companyEmployeeID, this.companyRoleID := companyEmployeeID, companyRoleID;
      createdAt, updatedAt := ZeroTime, ZeroTime;
    }

    /** `Create`: insert the two keys unchanged and `now` twice. */
    method Create(tx: Sql.Tx, now: Time) returns (err: Option<Error>)
      modifies this, tx`tables
      ensures var o := Sql.InsertOutcome(old(tx.done), tx.db.faults, old(tx.tables).employeeRoles);
              && err == (if o.Ok? then None else Some(o.error))
              && State() == AfterCreate(old(State()), o, now)
      ensures tx.tables == Sql.Inserted(old(tx.done), tx.db.faults, old(tx.tables), Sql.EmployeeRoles,
                                        Sql.LinkRow(old(companyEmployeeID), old(companyRoleID), now, now))
    {
      var r := tx.ExecInsert(Sql.EmployeeRoles, Sql.LinkRow(companyEmployeeID, companyRoleID, now, now));
      if r.Err? {
        return Some(r.error);
      }
      var last := r.value.LastInsertId();
      if last.Err? {
        return Some(last.error);
      }
      id, createdAt, updatedAt := last.value, now, now;
      err := None;
    }
  }
}
