/** src/pkg/user/serve.go: the user server, which guards every repository call by validation.
    The user is the `User` of src/pkg/user/entity.go with its `Valid` method (`PkgUserEntity`);
    the identifier check is `ID.Valid` of src/pkg/user/user.go (`PkgUser.ValidID`). */
module PkgUserServe {
  import opened Base
  import PkgUser
  import PkgUserEntity

  type User = PkgUserEntity.User

  /** The `Repository` interface, as the answers it gives. */
  datatype Repository = Repository(
    userCreate: User -> Result<User>,
    userRead: PkgUserEntity.ID -> Result<User>,
    userUpdate: User -> Result<User>,
    userDelete: PkgUserEntity.ID -> Option<Error>)

  /** A call the server made on its repository. */
  datatype Call = UserCreate(u: User) | UserRead(id: PkgUserEntity.ID) | UserUpdate(u: User) | UserDelete(id: PkgUserEntity.ID)

  /** The server's result after one repository call that answered `answer`: the repository's
      user on success, its error wrapped otherwise. */
  function Forward(answer: Result<User>, call: Call): (t: Traced<Result<User>, Call>)
    ensures t.calls == [call]
    ensures t.result.Ok? <==> answer.Ok?
    ensures t.result.Ok? ==> t.result.value == answer.value
    ensures t.result.Err? ==> t.result.error == Wrapped(answer.error)
  {
    match answer
    case Ok(u) => Traced(Ok(u), [call])
    case Err(e) => Traced(Err(Wrapped(e)), [call])
  }

  /** `server.Create`. */
  function Create(repo: Repository, u: User): (t: Traced<Result<User>, Call>)
    ensures !PkgUserEntity.Valid(u) ==> t == Traced(Err(Invalid(UserField)), [])
    ensures PkgUserEntity.Valid(u) ==> t == Forward(repo.userCreate(u), UserCreate(u))
  {
    if !PkgUserEntity.Valid(u) then Traced(Err(Invalid(UserField)), [])
    else Forward(repo.userCreate(u), UserCreate(u))
  }

  /** `server.Read`. */
  function Read(repo: Repository, id: PkgUserEntity.ID): (t: Traced<Result<User>, Call>)
    ensures !PkgUser.ValidID(id) ==> t == Traced(Err(Invalid(IDField)), [])
    ensures PkgUser.ValidID(id) ==> t == Forward(repo.userRead(id), UserRead(id))
  {
    if !PkgUser.ValidID(id) then Traced(Err(Invalid(IDField)), [])
    else Forward(repo.userRead(id), UserRead(id))
  }

  /** `server.Update`: the user is validated before its identifier. */
  function Update(repo: Repository, u: User): (t: Traced<Result<User>, Call>)
    ensures !PkgUserEntity.Valid(u) ==> t == Traced(Err(Invalid(UserField)), [])
    ensures PkgUserEntity.Valid(u) && !PkgUser.ValidID(u.id) ==> t == Traced(Err(Invalid(IDField)), [])
    ensures PkgUserEntity.Valid(u) && PkgUser.ValidID(u.id) ==> t == Forward(repo.userUpdate(u), UserUpdate(u))
  {
    if !PkgUserEntity.Valid(u) then Traced(Err(Invalid(UserField)), [])
    else if !PkgUser.ValidID(u.id) then Traced(Err(Invalid(IDField)), [])
    else Forward(repo.userUpdate(u), UserUpdate(u))
  }

  /** `server.Delete`: `None` is a nil error. */
  function Delete(repo: Repository, id: PkgUserEntity.ID): (t: Traced<Option<Error>, Call>)
    ensures !PkgUser.ValidID(id) ==> t == Traced(Some(Invalid(IDField)), [])
    ensures PkgUser.ValidID(id) ==> t.calls == [UserDelete(id)]
    ensures PkgUser.ValidID(id) ==> (t.result.None? <==> repo.userDelete(id).None?)
    ensures PkgUser.ValidID(id) && t.result.Some? ==> t.result.value == Wrapped(repo.userDelete(id).value)
  {
    if !PkgUser.ValidID(id) then Traced(Some(Invalid(IDField)), [])
    else match repo.userDelete(id)
      case None => Traced(None, [UserDelete(id)])
      case Some(e) => Traced(Some(Wrapped(e)), [UserDelete(id)])
  }

  /** The repository is called at most once, and exactly when every guard passes; with the
      guards passed, the outcome is the repository's and its error stays reachable by
      `errors.Is`. */
  lemma GuardsDecideTheCall(repo: Repository, u: User, id: PkgUserEntity.ID)
    ensures |Create(repo, u).calls| <= 1 && (|Create(repo, u).calls| == 1 <==> PkgUserEntity.Valid(u))
    ensures |Read(repo, id).calls| <= 1 && (|Read(repo, id).calls| == 1 <==> id > 0)
    ensures |Update(repo, u).calls| <= 1 && (|Update(repo, u).calls| == 1 <==> PkgUserEntity.Valid(u) && u.id > 0)
    ensures |Delete(repo, id).calls| <= 1 && (|Delete(repo, id).calls| == 1 <==> id > 0)
    ensures Create(repo, u).result.Err? && PkgUserEntity.Valid(u) ==> Is(Create(repo, u).result.error, repo.userCreate(u).error)
    ensures Read(repo, id).result.Err? && id > 0 ==> Is(Read(repo, id).result.error, repo.userRead(id).error)
    ensures Delete(repo, id).result.Some? && id > 0 ==> Is(Delete(repo, id).result.value, repo.userDelete(id).value)
  {
  }

  /** A guard error never comes from the repository: whatever the repository would have
      answered, a rejected input gets the same result. */
  lemma RejectionIgnoresRepository(r1: Repository, r2: Repository, u: User, id: PkgUserEntity.ID)
    ensures !PkgUserEntity.Valid(u) ==> Create(r1, u) == Create(r2, u) && Update(r1, u) == Update(r2, u)
    ensures !PkgUserEntity.Valid(u) ==> !Create(r1, u).result.Ok?
    ensures id <= 0 ==> Read(r1, id) == Read(r2, id) && Delete(r1, id) == Delete(r2, id)
    ensures !PkgUser.ValidID(u.id) ==> Update(r1, u) == Update(r2, u) && Update(r1, u).result.Err?
  {
  }
}
