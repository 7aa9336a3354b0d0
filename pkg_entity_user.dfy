/** src/pkg/entity/user.go: the `entity` package's user, with its own copy of the `password`
    record. bcrypt is foreign: `NewPassword` is given what `bcrypt.GenerateFromPassword`
    returned, and `Verify` is not modelled. */
module PkgEntityUser {
  import opened Base
  import PkgEntityCompany

  type UserID = int

  /** The `password` record. */
  datatype Password = Password(hash: Bytes, length: int) {
    function Length(): int { length }
    function Hash(): Bytes { hash }

    /** `String`: passwords always print masked. This Go file repeats the record of
        src/pkg/entity/password.go, so this is the twin of `PkgEntityPassword.Password.String`. */
    function String(): (s: GoString)
      ensures s == Ascii("*****")
    {
      Ascii("*****")
    }
  }

  /** `NewPassword`: the length recorded is the number of bytes of `plain`. The twin of
      `PkgEntityPassword.NewPassword`. */
  function NewPassword(plain: GoString, hashed: Result<Bytes>): (r: Result<Password>)
    ensures r.Ok? <==> hashed.Ok?
    ensures r.Err? ==> r.error == Wrapped(hashed.error)
    ensures r.Ok? ==> r.value.Hash() == hashed.value && r.value.Length() == |plain|
  {
    match hashed
    case Err(e) => Err(Wrapped(e))
    case Ok(bin) => Ok(Password(bin, |plain|))
  }

  /** `PasswordFromHash`: the length of a stored password is unknown and set to 8. The twin of
      `PkgEntityPassword.PasswordFromHash`. */
  function PasswordFromHash(hash: Bytes): (p: Password)
    ensures p.Hash() == hash && p.Length() == 8
  {
    Password(hash, 8)
  }

  /** `User`; a nil `Companies` slice is the empty sequence. */
  datatype User = User(id: UserID, name: GoString, password: Password,
                       companies: seq<PkgEntityCompany.Company>)

  /** `NewUser`: a user not yet stored, in no company. */
  function NewUser(name: GoString, pw: Password): (u: User)
    ensures u.id == 0 && u.name == name && u.password == pw && u.companies == []
  {
    User(0, name, pw, [])
  }

  /** `User.Validate`: the name is checked first, then the password length. */
  function Validate(u: User): (err: Option<Error>)
    ensures err.None? <==> |u.name| > 0 && u.password.Length() >= 8
    ensures |u.name| == 0 ==> err == Some(Invalid(NameField))
    ensures |u.name| > 0 && u.password.Length() < 8 ==> err == Some(Invalid(PasswordField))
  {
    if |u.name| == 0 then Some(Invalid(NameField))
    else if u.password.Length() < 8 then Some(Invalid(PasswordField))
    else None
  }

  /** A user rehydrated from storage with a non-empty name passes validation, whatever its
      hash, identifier and companies. */
  lemma FromHashUserValid(id: UserID, name: GoString, hash: Bytes, cs: seq<PkgEntityCompany.Company>)
    requires |name| > 0
    ensures Validate(User(id, name, PasswordFromHash(hash), cs)) == None
  {
  }

  /** Signing up: for every name and plain text, `Validate` of a new user with a freshly hashed
      password reports the empty name first, then a plain text shorter than 8 bytes, and
      passes otherwise. */
  lemma SignUpValidation(name: GoString, plain: GoString, bin: Bytes)
    ensures NewPassword(plain, Ok(bin)).Ok?
    ensures Validate(NewUser(name, NewPassword(plain, Ok(bin)).value))
            == if |name| == 0 then Some(Invalid(NameField))
               else if |plain| < 8 then Some(Invalid(PasswordField))
               else None
  {
  }

  /** `Validate` reads only the name and the password's length: the id, the hash and the
      companies play no part. */
  lemma ValidateReadsNameAndLength(u: User, v: User)
    requires u.name == v.name && u.password.Length() == v.password.Length()
    ensures Validate(u) == Validate(v)
  {
  }
}
