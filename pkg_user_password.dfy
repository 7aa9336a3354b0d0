/** src/pkg/user/password/password.go: the bcrypt-backed implementation of the user
    package's `Password`. The hash itself is produced by bcrypt, which is not modelled: `New`
    is given what `bcrypt.GenerateFromPassword` returned. */
module PkgUserPassword {
  import opened Base
  import PkgUser

  /** `New`: the hash bcrypt produced for `plain`, and the byte length of `plain`. */
  function New(plain: GoString, hashed: Result<Bytes>): (r: Result<PkgUser.Password>)
    ensures r.Ok? <==> hashed.Ok?
    ensures r.Err? ==> r.error == Wrapped(hashed.error)
    ensures r.Ok? ==> r.value.Hash() == hashed.value && r.value.Length() == |plain|
  {
    match hashed
    case Err(e) => Err(Wrapped(e))
    case Ok(bin) => Ok(PkgUser.Password(bin, |plain|))
  }

  /** `FromHash`: a password rehydrated from storage; its length is unknown and recorded as 0. */
  function FromHash(hash: Bytes): (p: PkgUser.Password)
    ensures p.Hash() == hash && p.Length() == 0
  {
    PkgUser.Password(hash, 0)
  }

  /** `String`: the mask, whatever the password. */
  function String(p: PkgUser.Password): (s: GoString)
    ensures s == PkgUser.PasswordString() && |s| == 5
  {
    PkgUser.PasswordString()
  }

  /** A password rehydrated by `FromHash` never passes `validPassword` of user.go. */
  lemma FromHashNeverValid(hash: Bytes)
    ensures !PkgUser.ValidPassword(FromHash(hash))
  {
  }

  /** A freshly hashed password passes `validPassword` exactly when the plain text has at
      least 8 bytes. */
  lemma NewValidIff(plain: GoString, bin: Bytes)
    ensures New(plain, Ok(bin)).Ok?
    ensures PkgUser.ValidPassword(New(plain, Ok(bin)).value) <==> |plain| >= 8
  {
  }
}
