/** src/rdb-repository/transaction.go: the `Tx` value that carries a database transaction
    and the error of the last step through a chain of repository calls. A `*Tx` is an
    `Option<Tx>` (`None` is nil); `Tx` itself is never changed, `newState` builds a new one. */
module RdbTransaction {
  import opened Base
  import Sql

  /** `Tx`: the `*sql.Tx` handle (possibly nil) and the error so far. */
  datatype Tx = Tx(sql: Sql.Tx?, err: Option<Error>)

  /** A value of the `repository.Tx` interface: a `*Tx` of this package (itself possibly nil),
      some other implementation, or the nil interface. */
  datatype AnyTx = Rdb(ptr: Option<Tx>) | Other(impl: nat) | NilInterface

  /** `newTx`: the handle and error are stored unchanged. */
  function NewTx(sql: Sql.Tx?, err: Option<Error>): (t: AnyTx)
    ensures t.Rdb? && t.ptr.Some?
    ensures t.ptr.value.sql == sql && t.ptr.value.err == err
  {
    Rdb(Some(Tx(sql, err)))
  }

  /** `castTx`: the type assertion `tran.(*Tx)`, which holds for a `*Tx` even when it is nil. */
  function CastTx(tran: AnyTx): (r: Result<Option<Tx>>)
    ensures r.Ok? <==> tran.Rdb?
    ensures r.Ok? ==> r.value == tran.ptr
    ensures r.Err? ==> r.error == CastFailed
  {
    match tran
    case Rdb(p) => Ok(p)
    case _ => Err(CastFailed)
  }

  /** `Error`: a nil `*Tx` reports an error of its own. */
  function ErrorOf(p: Option<Tx>): (e: Option<Error>)
    ensures p.None? ==> e == Some(NilReceiver)
    ensures p.Some? ==> e == p.value.err
  {
    match p
    case None => Some(NilReceiver)
    case Some(t) => t.err
  }

  /** `newState`: a new `Tx` on the same handle (nil for a nil receiver) with error `err`. */
  function NewState(p: Option<Tx>, err: Option<Error>): (t: Tx)
    ensures t.err == err
    ensures t.sql == if p.Some? then p.value.sql else null
  {
    Tx(if p.Some? then p.value.sql else null, err)
  }

  /** The two nil checks `Rollback` and `Commit` make before they touch the handle: `None`
      when both pass and the call goes through to the database. */
  function NilCheck(p: Option<Tx>): (e: Option<Error>)
    ensures e.None? <==> p.Some? && p.value.sql != null
    ensures p.None? ==> e == Some(NilReceiver)
    ensures p.Some? && p.value.sql == null ==> e == Some(NilHandle)
  {
    if p.None? then Some(NilReceiver)
    else if p.value.sql == null then Some(NilHandle)
    else None
  }

  /** The objects a `Rollback` or `Commit` through `p` may change: none unless both nil
      checks pass. */
  function Footprint(p: Option<Tx>): set<object>
  {
    if NilCheck(p).None? then {p.value.sql, p.value.sql.db} else {}
  }

  /** `Tx.Rollback`: the handle's error, or a nil-check error without touching the database. */
  method Rollback(p: Option<Tx>) returns (err: Option<Error>)
    modifies Footprint(p)
    ensures NilCheck(p).Some? ==> err == NilCheck(p)
    ensures NilCheck(p).None? ==> var s := p.value.sql;
              && s.done && s.db.calls == old(s.db.calls) + [Sql.Call.Rollback]
              && s.tables == old(s.tables) && s.db.tables == old(s.db.tables)
              && err == if old(s.done) then Some(Backend(TxDone))
                        else if s.db.faults.rollback then Some(Backend(RollbackFault))
                        else None
  {
    err := NilCheck(p);
    if err.None? {
      err := p.value.sql.Rollback();
    }
  }

  /** `Tx.Commit`: the handle's error, or a nil-check error without touching the database. */
  method Commit(p: Option<Tx>) returns (err: Option<Error>)
    modifies Footprint(p)
    ensures NilCheck(p).Some? ==> err == NilCheck(p)
    ensures NilCheck(p).None? ==> var s := p.value.sql;
              && s.done && s.db.calls == old(s.db.calls) + [Sql.Call.Commit] && s.tables == old(s.tables)
              && err == (if old(s.done) then Some(Backend(TxDone))
                         else if s.db.faults.commit then Some(Backend(CommitFault))
                         else None)
              && s.db.tables == if err == None then s.tables else old(s.db.tables)
  {
    err := NilCheck(p);
    if err.None? {
      err := p.value.sql.Commit();
    }
  }

  /** `newState` keeps the handle and replaces only the error, which `Error` then reports;
      chaining it leaves the handle where it was. */
  lemma NewStateReplacesOnlyError(p: Option<Tx>, e1: Option<Error>, e2: Option<Error>)
    ensures ErrorOf(Some(NewState(p, e1))) == e1
    ensures p.Some? ==> NewState(p, e1).sql == p.value.sql && NilCheck(Some(NewState(p, e1))) == NilCheck(p)
    ensures NewState(Some(NewState(p, e1)), e2) == NewState(p, e2)
  {
  }

  /** A state built from a nil `*Tx` has a nil handle, so a later `Rollback` or `Commit` on it
      fails without reaching the database, whatever error it carries. */
  lemma NewStateOnNilFailsLater(err: Option<Error>)
    ensures NilCheck(Some(NewState(None, err))) == Some(NilHandle)
    ensures Footprint(Some(NewState(None, err))) == {}
  {
  }

  /** What `newTx` builds is what `castTx` gets back, and what `Error` then reports is the
      error it was built with. */
  lemma NewTxCastRoundTrip(sql: Sql.Tx?, err: Option<Error>)
    ensures CastTx(NewTx(sql, err)) == Ok(Some(Tx(sql, err)))
    ensures ErrorOf(CastTx(NewTx(sql, err)).value) == err
    ensures CastTx(NilInterface).Err? && CastTx(Rdb(None)) == Ok(None)
  {
  }
}
