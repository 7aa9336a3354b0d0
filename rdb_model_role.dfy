/** src/rdb-repository/model/role.go: the `Role` persistence model over rows of `roles`.
    Errors from the database are returned as they are. The clock is a parameter `now`. */
module RdbModelRole {
  import opened Base
  import Sql
  import PkgEntityCompany
  import PkgEntityRole

  /** `Role`. */
  class Role {
    var id: PkgEntityRole.RoleID
    var name: GoString
    var createdAt: Time
    var updatedAt: Time

    /** `NewRole`: the entity's id and name, zero timestamps; the company is not stored. */
    constructor NewRole(r: PkgEntityRole.Role)
      ensures id == r.id && name == r.name && createdAt == ZeroTime && updatedAt == ZeroTime
    {
      id, name := r.id, r.name;
      createdAt, updatedAt := ZeroTime, ZeroTime;
    }

    /** `Entity`: the role of company `c` with this id and name. */
    function Entity(c: PkgEntityCompany.Company): (r: PkgEntityRole.Role)
      reads this
      ensures r.company == c && r.id == id && r.name == name
    {
      PkgEntityRole.Role(c, id, name)
    }

    /** `Create`: insert the name and `now` twice; on success the model takes the new id and
        `now` as both timestamps, on failure no field changes. */
    method Create(tx: Sql.Tx, now: Time) returns (err: Option<Error>)
      modifies this, tx`tables
      ensures var o := Sql.InsertOutcome(old(tx.done), tx.db.faults, old(tx.tables).roles);
              && err == (if o.Ok? then None else Some(o.error))
              && (o.Ok? ==> id == o.value && createdAt == now && updatedAt == now)
              && (o.Err? ==> id == old(id) && createdAt == old(createdAt) && updatedAt == old(updatedAt))
              && name == old(name)
      ensures tx.tables == Sql.Inserted(old(tx.done), tx.db.faults, old(tx.tables), Sql.Roles,
                                        Sql.NamedRow(old(name), now, now))
    {
      var r := tx.ExecInsert(Sql.Roles, Sql.NamedRow(name, now, now));
      if r.Err? {
        return Some(r.error);
      }
      var last := r.value.LastInsertId();
      if last.Err? {
        return Some(last.error);
      }
      id, createdAt, updatedAt := last.value, now, now;
      err := None;
    }
  }

  /** A role converted to a model and back, under the company it came with, is the same
      role; the administrator role of a company keeps its name. */
  method RoundTrip(r: PkgEntityRole.Role) returns (e: PkgEntityRole.Role)
    ensures e == r
    ensures r == PkgEntityRole.NewRoleAdmin(r.company) ==> e.name == PkgEntityRole.AdminName
  {
    var m := new Role.NewRole(r);
    e := m.Entity(r.company);
  }
}
