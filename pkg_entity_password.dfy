/** src/pkg/entity/password.go: the `entity` package's bcrypt-backed `Password`. bcrypt is
    foreign: `NewPassword` is given what `bcrypt.GenerateFromPassword` returned, and `Verify` is
    not modelled. */
module PkgEntityPassword {
  import opened Base

  /** The `password` record. */
  datatype Password = Password(hash: Bytes, length: int) {

    function Length(): int { length }
    function Hash(): Bytes { hash }

    /** `String`: passwords always print masked. */
    function String(): (s: GoString)
      ensures s == Ascii("*****")
    {
      Ascii("*****")
    }
  }

  /** `NewPassword`: the length recorded is the number of bytes of `plain`. */
  function NewPassword(plain: GoString, hashed: Result<Bytes>): (r: Result<Password>)
    ensures r.Ok? <==> hashed.Ok?
    ensures r.Err? ==> r.error == Wrapped(hashed.error)
    ensures r.Ok? ==> r.value.Hash() == hashed.value && r.value.Length() == |plain|
  {
    match hashed
    case Err(e) => Err(Wrapped(e))
    case Ok(bin) => Ok(Password(bin, |plain|))
  }

  /** `PasswordFromHash`: the length of a stored password is unknown and set to 8. */
  function PasswordFromHash(hash: Bytes): (p: Password)
    ensures p.Hash() == hash && p.Length() == 8
  {
    Password(hash, 8)
  }

  /** Rehydrating the hash of any password keeps the hash. */
  lemma FromHashKeepsHash(p: Password)
    ensures PasswordFromHash(p.Hash()).Hash() == p.Hash()
  {
  }
}
