/** src/pkg/user/user.go: the user identifier, name and password rules of this revision of
    the user package. */
module PkgUser {
  import opened Base

  /** `ID`; 0 stands for a user not yet stored. */
  type ID = int

  /** `ID.Valid`. */
  predicate ValidID(id: ID)
  {
    id > 0
  }

  type Name = GoString

  /** `Name.valid`: at least one byte. This revision sets no upper bound. */
  predicate ValidName(n: Name)
  {
    |n| >= 1
  }

  const PasswordMinLength: int := 8

  /** `PasswordString`, what every password prints as: five asterisks. */
  function PasswordString(): (s: GoString)
    ensures |s| == 5 && forall i | 0 <= i < |s| :: s[i] == 0x2A
  {
    Ascii("*****")
  }

  /** The `Password` interface, by what its `Length` and `Hash` report. `Verify` is bcrypt's and
      is not modelled. */
  datatype Password = Password(hash: Bytes, length: int) {
    function Length(): int { length }
    function Hash(): Bytes { hash }
  }

  /** `validPassword`. */
  predicate ValidPassword(p: Password)
  {
    p.Length() >= PasswordMinLength
  }

  /** `User`, with its embedded `ID`, `Name` and `Password`. */
  datatype User = User(id: ID, name: Name, password: Password)

  /** `New`: a user not yet stored. */
  function New(name: Name, pw: Password): (u: User)
    ensures u.id == 0 && !ValidID(u.id)
    ensures u.name == name && u.password == pw
  {
    User(0, name, pw)
  }

  /** `User.valid`. */
  predicate Valid(u: User)
  {
    ValidName(u.name) && ValidPassword(u.password)
  }

  /** `Name.valid` is a lower bound only: a 256-byte name, which the package's tests expect
      to be refused, is accepted, and so is every longer one. */
  lemma NameHasNoUpperBound(n: Name)
    requires |n| >= 256
    ensures ValidName(n)
  {
  }

  /** `validPassword` is a lower bound only: a password reporting 256 or more, which the
      package's tests expect to be refused, is accepted. */
  lemma PasswordHasNoUpperBound(p: Password)
    requires p.Length() >= 256
    ensures ValidPassword(p)
  {
  }

  /** A user built by `New` is valid exactly when its name has a byte and its password reports
      at least `PasswordMinLength`, for every name and password. */
  lemma NewValidIff(n: Name, p: Password)
    ensures Valid(New(n, p)) <==> |n| >= 1 && p.Length() >= PasswordMinLength
  {
  }

  /** `User.valid` reads only the name and the password's length: the id and the hash play no
      part. */
  lemma ValidReadsNameAndLength(u: User, v: User)
    requires u.name == v.name && u.password.Length() == v.password.Length()
    ensures Valid(u) == Valid(v)
  {
  }

  /** Both checks are lower bounds, so a longer name or a longer password never makes a valid
      user invalid. */
  lemma ValidIsUpwardClosed(u: User, v: User)
    requires Valid(u)
    requires |v.name| >= |u.name| && v.password.Length() >= u.password.Length()
    ensures Valid(v)
  {
  }
}
