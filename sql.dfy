/** The database the persistence models run their statements against, in place of
    `database/sql` and the MySQL server: tables held in memory with auto-increment ids, a
    connection pool (`DB`) holding the committed rows, and transactions (`Tx`) working on a
    copy of them that `Commit` writes back and `Rollback` throws away. Every failure the
    driver can report is switched on by a flag of `Faults`, as the flag-controlled test
    doubles do (src/repository/model/model_test.go, src/repository/repository_test.go). */
module Sql {
  import opened Base

  datatype TableName = Users | Companies | Roles | CompanyRoles | CompanyEmployees | EmployeeRoles

  /** The columns of one row, by the shape of its table. */
  datatype Row =
    | UserRow(name: GoString, password: Bytes, createdAt: Time, updatedAt: Time)   // users
    | NamedRow(name: GoString, createdAt: Time, updatedAt: Time)                   // companies, roles
    | LinkRow(left: int, right: int, createdAt: Time, updatedAt: Time)             // the join tables

  /** One table: its rows by id, and the id the next insert receives. */
  datatype Table = Table(rows: map<int, Row>, nextID: int) {

    /** `insert`: the row is stored under the next auto-increment id. */
    function Insert(row: Row): Table
    {
      Table(rows[nextID := row], nextID + 1)
    }

    /** The number of rows a statement `... where id=?` touches. */
    function Affected(id: int): int
    {
      if id in rows then 1 else 0
    }

    /** `update users set name=?, password=?, updated_at=? where id=?`. */
    function SetUser(id: int, name: GoString, password: Bytes, now: Time): Table
    {
      if id in rows then Table(rows[id := UserRow(name, password, rows[id].createdAt, now)], nextID)
      else this
    }

    /** `delete from ... where id=?`. */
    function Remove(id: int): Table
    {
      Table(rows - {id}, nextID)
    }
  }

  const EmptyTable: Table := Table(map[], 1)

  /** Auto-increment ids are positive and every stored id is below the next one. */
  predicate ValidTable(table: Table)
  {
    0 < table.nextID && forall id | id in table.rows :: 0 < id < table.nextID
  }

  /** An insert never overwrites a row: the id it assigns is new, the rows stored before keep
      their ids and columns, and the table stays valid. */
  lemma InsertIsFresh(table: Table, row: Row)
    requires ValidTable(table)
    ensures table.nextID !in table.rows
    ensures ValidTable(table.Insert(row))
    ensures forall id | id in table.rows :: id in table.Insert(row).rows && table.Insert(row).rows[id] == table.rows[id]
    ensures table.Insert(row).rows.Keys == table.rows.Keys + {table.nextID}
  {
  }

  /** What an insert stores, a query by the id it assigned returns. */
  lemma InsertThenLookup(table: Table, row: Row, shape: Shape, faults: Faults)
    requires HasShape(row, shape) && !faults.scan
    ensures Lookup(table.Insert(row), table.nextID, shape, faults) == Ok(row)
  {
  }

  /** After a delete, a query by the deleted id finds no row, and the other rows stay. */
  lemma RemoveThenLookup(table: Table, id: int, shape: Shape, faults: Faults)
    ensures Lookup(table.Remove(id), id, shape, faults) == Err(Backend(NoRows))
    ensures forall k | k in table.rows && k != id :: Lookup(table.Remove(id), k, shape, faults) == Lookup(table, k, shape, faults)
  {
  }

  /** An update of a stored user writes the new name, password and update time, keeps the
      creation time, and touches no other row; an update of an absent id changes nothing. */
  lemma SetUserThenLookup(table: Table, id: int, name: GoString, password: Bytes, now: Time, faults: Faults)
    requires !faults.scan
    ensures id in table.rows ==> Lookup(table.SetUser(id, name, password, now), id, UserShape, faults)
                                   == Ok(UserRow(name, password, table.rows[id].createdAt, now))
    ensures id !in table.rows ==> table.SetUser(id, name, password, now) == table
    ensures forall k | k in table.rows && k != id :: table.SetUser(id, name, password, now).rows[k] == table.rows[k]
  {
  }

  datatype Tables = Tables(users: Table, companies: Table, roles: Table,
                           companyRoles: Table, companyEmployees: Table, employeeRoles: Table) {

    function Get(t: TableName): Table
    {
      match t
      case Users => users
      case Companies => companies
      case Roles => roles
      case CompanyRoles => companyRoles
      case CompanyEmployees => companyEmployees
      case EmployeeRoles => employeeRoles
    }

    function Set(t: TableName, table: Table): Tables
    {
      match t
      case Users => this.(users := table)
      case Companies => this.(companies := table)
      case Roles => this.(roles := table)
      case CompanyRoles => this.(companyRoles := table)
      case CompanyEmployees => this.(companyEmployees := table)
      case EmployeeRoles => this.(employeeRoles := table)
    }
  }

  const EmptyTables: Tables := Tables(EmptyTable, EmptyTable, EmptyTable, EmptyTable, EmptyTable, EmptyTable)

  /** Which driver calls fail. */
  datatype Faults = Faults(begin: bool, commit: bool, rollback: bool, close: bool,
                           exec: bool, lastInsertId: bool, rowsAffected: bool, scan: bool)

  const NoFaults: Faults := Faults(false, false, false, false, false, false, false, false)

  /** `sql.Result` of a statement that ran. */
  datatype ExecResult = ExecResult(lastID: int, rows: int, faults: Faults) {

    function LastInsertId(): Result<int>
    {
      if faults.lastInsertId then Err(Backend(LastInsertIdFault)) else Ok(lastID)
    }

    function RowsAffected(): Result<int>
    {
      if faults.rowsAffected then Err(Backend(RowsAffectedFault)) else Ok(rows)
    }
  }

  /** What `ExecContext` of an insert followed by `LastInsertId` gives a model: the id the row
      received, or the first error. */
  function InsertOutcome(done: bool, faults: Faults, table: Table): (r: Result<int>)
    ensures r.Ok? <==> !done && !faults.exec && !faults.lastInsertId
    ensures r.Ok? ==> r.value == table.nextID
    ensures r.Err? ==> r.error == Backend(if done then TxDone else if faults.exec then ExecFault else LastInsertIdFault)
  {
    if done then Err(Backend(TxDone))
    else if faults.exec then Err(Backend(ExecFault))
    else if faults.lastInsertId then Err(Backend(LastInsertIdFault))
    else Ok(table.nextID)
  }

  /** The rows after `ExecContext` of an insert into `t`: the statement runs unless the
      transaction has ended or `Exec` fails, whatever `LastInsertId` then does. */
  function Inserted(done: bool, faults: Faults, tables: Tables, t: TableName, row: Row): (r: Tables)
    ensures done || faults.exec ==> r == tables
    ensures !done && !faults.exec ==> r.Get(t) == tables.Get(t).Insert(row)
    ensures forall u | u != t :: r.Get(u) == tables.Get(u)
  {
    if done || faults.exec then tables else tables.Set(t, tables.Get(t).Insert(row))
  }

  /** What `ExecContext` of an update or delete `where id=?` followed by `RowsAffected` gives a
      model: the number of rows touched, or the first error. */
  function ChangeOutcome(done: bool, faults: Faults, table: Table, id: int): (r: Result<int>)
    ensures r.Ok? <==> !done && !faults.exec && !faults.rowsAffected
    ensures r.Ok? ==> (r.value == 1 <==> id in table.rows) && (r.value == 0 <==> id !in table.rows)
    ensures r.Err? ==> r.error == Backend(if done then TxDone else if faults.exec then ExecFault else RowsAffectedFault)
  {
    if done then Err(Backend(TxDone))
    else if faults.exec then Err(Backend(ExecFault))
    else if faults.rowsAffected then Err(Backend(RowsAffectedFault))
    else Ok(table.Affected(id))
  }

  /** The columns a `Scan` expects. */
  datatype Shape = UserShape | NamedShape | LinkShape

  predicate HasShape(row: Row, shape: Shape)
  {
    match shape
    case UserShape => row.UserRow?
    case NamedShape => row.NamedRow?
    case LinkShape => row.LinkRow?
  }

  /** Some join row of `table` holds the keys `left` and `right`. */
  predicate HasLink(table: Table, left: int, right: int)
  {
    exists id | id in table.rows :: table.rows[id].LinkRow? && table.rows[id].left == left && table.rows[id].right == right
  }

  /** The error of a query by two keys that has no row to scan: an ended transaction is
      reported first, then the absence of a matching row, then the scan failure. */
  function LinkQueryError(done: bool, table: Table, left: int, right: int): Error
  {
    Backend(if done then TxDone else if !HasLink(table, left, right) then NoRows else ScanFault)
  }

  /** After a join row is inserted, a query by its two keys finds a row. */
  lemma InsertThenHasLink(table: Table, left: int, right: int, now: Time)
    ensures HasLink(table.Insert(LinkRow(left, right, now, now)), left, right)
  {
    var t := table.Insert(LinkRow(left, right, now, now));
    assert t.rows[table.nextID].LinkRow?;
  }

  /** `QueryRowContext(... where id=?).Scan(...)` against `table`. */
  function Lookup(table: Table, id: int, shape: Shape, faults: Faults): Result<Row>
  {
    if id !in table.rows then Err(Backend(NoRows))
    else if faults.scan || !HasShape(table.rows[id], shape) then Err(Backend(ScanFault))
    else Ok(table.rows[id])
  }

  /** The calls that open, end or close transactions and connections, in the order made. */
  datatype Call = Begin | Commit | Rollback | Close

  /** `*sql.DB`: the committed rows, and the log of the `Begin`, `Commit`, `Rollback` and
      `Close` calls made on the pool and on the transactions it opened. */
  class DB {
    var tables: Tables
    const faults: Faults
    var calls: seq<Call>

    constructor (tables: Tables, faults: Faults)
      ensures this.tables == tables && this.faults == faults && calls == []
    {
      this.tables := tables;
      this.faults := faults;
      calls := [];
    }

    /** `db.Begin()`: a fresh transaction over a copy of the committed rows. */
    method Begin() returns (tx: Tx?, err: Option<Error>)
      modifies this`calls
      ensures calls == old(calls) + [Call.Begin]
      ensures faults.begin ==> tx == null && err == Some(Backend(BeginFault))
      ensures !faults.begin ==> err == None && tx != null && fresh(tx) && tx.db == this
      ensures !faults.begin ==> tx.tables == tables && !tx.done
    {
      calls := calls + [Call.Begin];
      if faults.begin {
        tx, err := null, Some(Backend(BeginFault));
      } else {
        tx := new Tx(this);
        err := None;
      }
    }

    /** `db.Close()`. */
    method Close() returns (err: Option<Error>)
      modifies this`calls
      ensures calls == old(calls) + [Call.Close]
      ensures err == if faults.close then Some(Backend(CloseFault)) else None
    {
      calls := calls + [Call.Close];
      err := if faults.close then Some(Backend(CloseFault)) else None;
    }

    /** A query outside any transaction reads the committed rows. */
    function QueryRow(t: TableName, id: int, shape: Shape): Result<Row>
      reads this
    {
      Lookup(tables.Get(t), id, shape, faults)
    }
  }

  /** `*sql.Tx`: the rows as this transaction sees them, and whether it has ended. */
  class Tx {
    const db: DB
    var tables: Tables
    var done: bool

    constructor (db: DB)
      ensures this.db == db && tables == db.tables && !done
    {
      this.db := db;
      tables := db.tables;
      done := false;
    }

    /** `tx.ExecContext("insert into t ...")`. */
    method ExecInsert(t: TableName, row: Row) returns (r: Result<ExecResult>)
      modifies this`tables
      ensures r.Ok? <==> !done && !db.faults.exec
      ensures r.Ok? ==> r.value == ExecResult(old(tables).Get(t).nextID, 1, db.faults)
      ensures r.Ok? ==> tables == old(tables).Set(t, old(tables).Get(t).Insert(row))
      ensures r.Err? ==> tables == old(tables) && r.error == Backend(if done then TxDone else ExecFault)
    {
      if done {
        r := Err(Backend(TxDone));
      } else if db.faults.exec {
        r := Err(Backend(ExecFault));
      } else {
        var table := tables.Get(t);
        r := Ok(ExecResult(table.nextID, 1, db.faults));
        tables := tables.Set(t, table.Insert(row));
      }
    }

    /** `tx.ExecContext("update users set name=?, password=?, updated_at=? where id=?")`. */
    method ExecUpdateUser(id: int, name: GoString, password: Bytes, now: Time) returns (r: Result<ExecResult>)
      modifies this`tables
      ensures r.Ok? <==> !done && !db.faults.exec
      ensures r.Ok? ==> r.value == ExecResult(0, old(tables).users.Affected(id), db.faults)
      ensures r.Ok? ==> tables == old(tables).(users := old(tables).users.SetUser(id, name, password, now))
      ensures r.Err? ==> tables == old(tables) && r.error == Backend(if done then TxDone else ExecFault)
    {
      if done {
        r := Err(Backend(TxDone));
      } else if db.faults.exec {
        r := Err(Backend(ExecFault));
      } else {
        r := Ok(ExecResult(0, tables.users.Affected(id), db.faults));
        tables := tables.(users := tables.users.SetUser(id, name, password, now));
      }
    }

    /** `tx.ExecContext("delete from t where id=?")`. */
    method ExecDelete(t: TableName, id: int) returns (r: Result<ExecResult>)
      modifies this`tables
      ensures r.Ok? <==> !done && !db.faults.exec
      ensures r.Ok? ==> r.value == ExecResult(0, old(tables).Get(t).Affected(id), db.faults)
      ensures r.Ok? ==> tables == old(tables).Set(t, old(tables).Get(t).Remove(id))
      ensures r.Err? ==> tables == old(tables) && r.error == Backend(if done then TxDone else ExecFault)
    {
      if done {
        r := Err(Backend(TxDone));
      } else if db.faults.exec {
        r := Err(Backend(ExecFault));
      } else {
        var table := tables.Get(t);
        r := Ok(ExecResult(0, table.Affected(id), db.faults));
        tables := tables.Set(t, table.Remove(id));
      }
    }

    /** `tx.QueryRowContext("select id, created_at, updated_at from t where <left>=? and <right>=?").Scan(...)`:
        the id and row of some join row holding both keys. */
    method QueryLink(t: TableName, left: int, right: int) returns (r: Result<(int, Row)>)
      ensures r.Ok? <==> !done && !db.faults.scan && HasLink(tables.Get(t), left, right)
      ensures r.Ok? ==> r.value.0 in tables.Get(t).rows && tables.Get(t).rows[r.value.0] == r.value.1
      ensures r.Ok? ==> r.value.1.LinkRow? && r.value.1.left == left && r.value.1.right == right
      ensures r.Err? ==> r.error == LinkQueryError(done, tables.Get(t), left, right)
    {
      var table := tables.Get(t);
      if done {
        return Err(Backend(TxDone));
      }
      if id :| id in table.rows && table.rows[id].LinkRow? && table.rows[id].left == left && table.rows[id].right == right {
        if db.faults.scan {
          r := Err(Backend(ScanFault));
        } else {
          r := Ok((id, table.rows[id]));
        }
      } else {
        r := Err(Backend(NoRows));
      }
    }

    /** `tx.Commit()`: the working rows become the committed rows. */
    method Commit() returns (err: Option<Error>)
      modifies this`done, db`tables, db`calls
      ensures db.calls == old(db.calls) + [Call.Commit] && done
      ensures err == if old(done) then Some(Backend(TxDone))
                     else if db.faults.commit then Some(Backend(CommitFault))
                     else None
      ensures db.tables == if err == None then tables else old(db.tables)
    {
      db.calls := db.calls + [Call.Commit];
      if done {
        err := Some(Backend(TxDone));
      } else if db.faults.commit {
        err := Some(Backend(CommitFault));
      } else {
        db.tables := tables;
        err := None;
      }
      done := true;
    }

    /** `tx.Rollback()`: the working rows are dropped; the committed rows are as before. */
    method Rollback() returns (err: Option<Error>)
      modifies this`done, db`calls
      ensures db.calls == old(db.calls) + [Call.Rollback] && done
      ensures err == if old(done) then Some(Backend(TxDone))
                     else if db.faults.rollback then Some(Backend(RollbackFault))
                     else None
    {
      db.calls := db.calls + [Call.Rollback];
      if done {
        err := Some(Backend(TxDone));
      } else if db.faults.rollback {
        err := Some(Backend(RollbackFault));
      } else {
        err := None;
      }
      done := true;
    }
  }
}
