/** Values shared by every module of the model: bytes and Go strings, timestamps,
    optional values, results and the kinds of error the program reports. */
module Base {

  /** One byte; Go's `byte`. */
  newtype byte = x: int | 0 <= x < 256

  /** A byte slice, such as a password hash. */
  type Bytes = seq<byte>

  /** A Go `string` is a sequence of bytes, and `len` counts bytes, not characters. */
  type GoString = seq<byte>

  /** A point in time, in seconds. The zero value of Go's `time.Time` is `ZeroTime`.
      The clock is never read by the model: every operation that stamps a time is given `now`. */
  type Time = int

  const ZeroTime: Time := 0

  /** The bytes of a string literal made only of ASCII characters. */
  function Ascii(s: string): (b: GoString)
    requires forall i | 0 <= i < |s| :: s[i] as int < 128
    ensures |b| == |s|
    ensures forall i | 0 <= i < |s| :: b[i] as int == s[i] as int
  {
    seq(|s|, i requires 0 <= i < |s| => s[i] as int as byte)
  }

  datatype Option<+T> = None | Some(value: T)

  /** Where the database reported a failure. */
  datatype Fault =
    | BeginFault          // `Begin` could not open a transaction
    | CommitFault         // `Commit` failed
    | RollbackFault       // `Rollback` failed
    | CloseFault          // `Close` failed
    | ExecFault           // `ExecContext` failed
    | LastInsertIdFault   // `Result.LastInsertId` failed
    | RowsAffectedFault   // `Result.RowsAffected` failed
    | NoRows              // a query matched no row
    | ScanFault           // `Row.Scan` could not convert the row
    | TxDone              // the transaction was already committed or rolled back

  /** What a validation guard found wrong. */
  datatype Field = NameField | PasswordField | IDField | UserField | CompanyField

  /** The kinds of error values the program produces. Message texts are not modelled;
      `fmt.Errorf("...: %w", err)` becomes `Wrapped(err)`. */
  datatype Error =
    | Invalid(what: Field)          // a validation guard rejected the input
    | Unauthorized                  // the caller is not the owner of the resource
    | NilReceiver                   // a method was called on a nil `*Tx`
    | NilHandle                     // the `*Tx` wraps a nil `*sql.Tx`
    | CastFailed                    // a `repository.Tx` that is not a `*Tx`
    | HashFailed                    // `bcrypt.GenerateFromPassword` returned an error
    | Backend(fault: Fault)         // the database reported an error
    | RowsAffectedNot1(count: int)  // an update or delete touched a number of rows other than 1
    | Wrapped(cause: Error)         // an error wrapped with `%w`

  /** `errors.Is`: `e` is `target` or wraps it. */
  predicate Is(e: Error, target: Error)
  {
    e == target || (e.Wrapped? && Is(e.cause, target))
  }

  /** A Go `(value, error)` pair in which exactly one side is meaningful. */
  datatype Result<+T> = Ok(value: T) | Err(error: Error)

  /** What a service operation returned, with the calls it made on its repository, in order. */
  datatype Traced<+T, +C> = Traced(result: T, calls: seq<C>)
}
