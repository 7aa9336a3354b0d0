/** src/pkg/service/user.go: the user service of the `service` package, over the entity user
    of src/pkg/entity/user.go. `Create` is guarded by `Validate`, `Read` by the caller being
    the user read. */
module ServiceUser {
  import opened Base
  import PkgEntityUser

  type User = PkgEntityUser.User

  /** The `repository.User` interface, for the two calls this service makes. */
  datatype Repository = Repository(
    userCreate: User -> Result<User>,
    userRead: PkgEntityUser.UserID -> Result<User>)

  datatype Call = UserCreate(u: User) | UserRead(id: PkgEntityUser.UserID)

  /** `User.Create`: the validation error is returned as it is, unwrapped. */
  function Create(repo: Repository, newUser: User): (t: Traced<Result<User>, Call>)
    ensures PkgEntityUser.Validate(newUser).Some? ==>
              t == Traced(Err(PkgEntityUser.Validate(newUser).value), [])
    ensures PkgEntityUser.Validate(newUser).None? ==>
              t.result == repo.userCreate(newUser) && t.calls == [UserCreate(newUser)]
  {
    match PkgEntityUser.Validate(newUser)
    case Some(err) => Traced(Err(err), [])
    case None => Traced(repo.userCreate(newUser), [UserCreate(newUser)])
  }

  /** `User.Read`: only the user themself may read their record. */
  function Read(repo: Repository, userID: PkgEntityUser.UserID, authID: PkgEntityUser.UserID): (t: Traced<Result<User>, Call>)
    ensures userID != authID ==> t == Traced(Err(Unauthorized), [])
    ensures userID == authID ==> t.result == repo.userRead(userID) && t.calls == [UserRead(userID)]
  {
    if userID != authID then Traced(Err(Unauthorized), [])
    else Traced(repo.userRead(userID), [UserRead(userID)])
  }

  /** An empty name is reported before a short password, the repository is reached exactly
      for a user with a name and a password of at least 8 bytes, and reading someone else's
      record never reaches it. */
  lemma GuardsDecideTheCall(r1: Repository, r2: Repository, u: User, userID: PkgEntityUser.UserID, authID: PkgEntityUser.UserID)
    ensures |u.name| == 0 ==> Create(r1, u).result == Err(Invalid(NameField))
    ensures |u.name| > 0 && u.password.Length() < 8 ==> Create(r1, u).result == Err(Invalid(PasswordField))
    ensures |Create(r1, u).calls| == 1 <==> |u.name| > 0 && u.password.Length() >= 8
    ensures |Read(r1, userID, authID).calls| == 1 <==> userID == authID
    ensures userID != authID ==> Read(r1, userID, authID) == Read(r2, userID, authID)
    ensures Read(r1, userID, authID).result.Err? && userID == authID ==> r1.userRead(userID).Err?
  {
  }
}
