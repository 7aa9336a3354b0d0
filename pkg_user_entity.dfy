/** src/pkg/user/entity.go: the revision of the user package whose `User` carries its own
    `Password` implementation and a `Valid` method. bcrypt is foreign: `NewPassword` is given
    what `bcrypt.GenerateFromPassword` returned, and `Verify` is not modelled. */
module PkgUserEntity {
  import opened Base

  const PasswordMinLength: int := 8

  type ID = int

  /** The `password` record: a hash and the length the plain text had. */
  datatype Password = Password(hash: Bytes, length: int) {
    function Length(): int { length }
    function Hash(): Bytes { hash }

    /** `String`: passwords always print masked. This revision's record is the same as the
        `entity` package's, so this is the twin of `PkgEntityPassword.Password.String`. */
    function String(): (s: GoString)
      ensures s == Ascii("*****")
    {
      Ascii("*****")
    }
  }

  /** `NewPassword`: the length recorded is the number of bytes of `plain`. The twin of
      `PkgEntityPassword.NewPassword`. */
  function NewPassword(plain: Bytes, hashed: Result<Bytes>): (r: Result<Password>)
    ensures r.Ok? <==> hashed.Ok?
    ensures r.Err? ==> r.error == Wrapped(hashed.error)
    ensures r.Ok? ==> r.value.Hash() == hashed.value && r.value.Length() == |plain|
  {
    match hashed
    case Err(e) => Err(Wrapped(e))
    case Ok(bin) => Ok(Password(bin, |plain|))
  }

  /** `NewPasswordFromHash`: the length of a stored password is unknown, so it is assumed to
      be exactly the minimum. */
  function NewPasswordFromHash(hash: Bytes): (p: Password)
    ensures p.Hash() == hash && p.Length() == PasswordMinLength
  {
    Password(hash, PasswordMinLength)
  }

  datatype User = User(id: ID, name: GoString, password: Password)

  /** `New`: a user not yet stored. */
  function New(name: GoString, pw: Password): (u: User)
    ensures u.id == 0 && u.name == name && u.password == pw
  {
    User(0, name, pw)
  }

  /** `User.Valid`. */
  predicate Valid(u: User)
  {
    |u.name| > 0 && u.password.Length() >= PasswordMinLength
  }

  /** A user with a non-empty name and a password rehydrated from a hash is always valid. */
  lemma FromHashUserValid(id: ID, name: GoString, hash: Bytes)
    requires |name| > 0
    ensures Valid(User(id, name, NewPasswordFromHash(hash)))
  {
  }

  /** A new user with a freshly hashed password is valid exactly when its name is not empty
      and the plain text has at least 8 bytes; 8 is accepted and 7 is not. */
  lemma NewUserValidIff(name: GoString, plain: Bytes, bin: Bytes)
    ensures NewPassword(plain, Ok(bin)).Ok?
    ensures Valid(New(name, NewPassword(plain, Ok(bin)).value)) <==> |name| > 0 && |plain| >= 8
  {
  }

  /** `User.Valid` reads only the name and the password's length: the id and the hash play no
      part. */
  lemma ValidReadsNameAndLength(u: User, v: User)
    requires u.name == v.name && u.password.Length() == v.password.Length()
    ensures Valid(u) == Valid(v)
  {
  }
}
