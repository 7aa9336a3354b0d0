/** src/pkg/user/service.go: the user service. Only the writes that carry a user are guarded
    by `User.Valid` of src/pkg/user/entity.go; `Read` and `Delete` forward the identifier
    without looking at it. */
module PkgUserService {
  import opened Base
  import PkgUserEntity

  type User = PkgUserEntity.User

  /** The `Repository` interface, as the answers it gives. */
  datatype Repository = Repository(
    userCreate: User -> Result<User>,
    userRead: PkgUserEntity.ID -> Result<User>,
    userUpdate: User -> Result<User>,
    userDelete: PkgUserEntity.ID -> Option<Error>)

  /** A call the service made on its repository. */
  datatype Call = UserCreate(u: User) | UserRead(id: PkgUserEntity.ID) | UserUpdate(u: User) | UserDelete(id: PkgUserEntity.ID)

  /** The repository's user on success, its error wrapped otherwise. service.go answers a
      repository call as serve.go does, so this is the twin of `PkgUserServe.Forward`. */
  function Forward(answer: Result<User>, call: Call): (t: Traced<Result<User>, Call>)
    ensures t.calls == [call]
    ensures t.result.Ok? <==> answer.Ok?
    ensures t.result.Ok? ==> t.result.value == answer.value
    ensures t.result.Err? ==> t.result.error == Wrapped(answer.error)
  {
    match answer
    case Ok(u) => Traced(Ok(u), [call])
    case Err(e) => Traced(Err(Wrapped(e)), [call])
  }

  /** `service.Create`, guarded as `server.Create` is: the twin of `PkgUserServe.Create`. */
  function Create(repo: Repository, u: User): (t: Traced<Result<User>, Call>)
    ensures !PkgUserEntity.Valid(u) ==> t == Traced(Err(Invalid(UserField)), [])
    ensures PkgUserEntity.Valid(u) ==> t == Forward(repo.userCreate(u), UserCreate(u))
  {
    if !PkgUserEntity.Valid(u) then Traced(Err(Invalid(UserField)), [])
    else Forward(repo.userCreate(u), UserCreate(u))
  }

  /** `service.Read`: no guard. */
  function Read(repo: Repository, id: PkgUserEntity.ID): (t: Traced<Result<User>, Call>)
    ensures t == Forward(repo.userRead(id), UserRead(id))
  {
    Forward(repo.userRead(id), UserRead(id))
  }

  /** `service.Update`. */
  function Update(repo: Repository, u: User): (t: Traced<Result<User>, Call>)
    ensures !PkgUserEntity.Valid(u) ==> t == Traced(Err(Invalid(UserField)), [])
    ensures PkgUserEntity.Valid(u) ==> t == Forward(repo.userUpdate(u), UserUpdate(u))
  {
    if !PkgUserEntity.Valid(u) then Traced(Err(Invalid(UserField)), [])
    else Forward(repo.userUpdate(u), UserUpdate(u))
  }

  /** `service.Delete`: no guard; `None` is a nil error. */
  function Delete(repo: Repository, id: PkgUserEntity.ID): (t: Traced<Option<Error>, Call>)
    ensures t.calls == [UserDelete(id)]
    ensures t.result.None? <==> repo.userDelete(id).None?
    ensures t.result.Some? ==> t.result.value == Wrapped(repo.userDelete(id).value)
  {
    match repo.userDelete(id)
    case None => Traced(None, [UserDelete(id)])
    case Some(e) => Traced(Some(Wrapped(e)), [UserDelete(id)])
  }

  /** Any identifier, even 0 or a negative one, reaches the repository through `Read` and
      `Delete`, and they fail only when the repository does. */
  lemma ReadDeleteUnguarded(repo: Repository, id: PkgUserEntity.ID)
    ensures Read(repo, id).calls == [UserRead(id)] && Delete(repo, id).calls == [UserDelete(id)]
    ensures Read(repo, id).result.Err? <==> repo.userRead(id).Err?
    ensures Delete(repo, id).result.Some? <==> repo.userDelete(id).Some?
  {
  }

  /** The writes call the repository exactly when the user is valid, and whatever the
      repository would have answered, an invalid user gets the same error. */
  lemma WritesGuarded(r1: Repository, r2: Repository, u: User)
    ensures |Create(r1, u).calls| == 1 <==> PkgUserEntity.Valid(u)
    ensures |Update(r1, u).calls| == 1 <==> PkgUserEntity.Valid(u)
    ensures !PkgUserEntity.Valid(u) ==> Create(r1, u) == Create(r2, u) && Update(r1, u) == Update(r2, u)
    ensures PkgUserEntity.Valid(u) && r1.userUpdate(u).Ok? ==> Update(r1, u).result == r1.userUpdate(u)
  {
  }
}
