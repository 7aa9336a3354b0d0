# go-api-example, modelled in Dafny

This project models the core of `go-api-example`, a small CRUD service for users and
companies written in Go. It covers:

- the domain entities and their validation rules: user ids, names and passwords, the
  bcrypt-backed password record whose printed form is always masked, companies and the
  administrator role;
- the service layers. The user and company servers (`src/pkg/user/serve.go`,
  `src/pkg/company/serve.go`) and the user service of `src/pkg/service/user.go` check their
  input, or the caller's identity, before they make one repository call. The user service of
  `src/pkg/user/service.go` guards only `Create` and `Update`; its `Read` and `Delete` pass
  any id straight to the repository;
- the company-provisioning workflow. It creates a company, adds the caller as an employee,
  creates the company's administrator role and gives that role to the caller, all in one
  transaction that is rolled back on the first failure and committed otherwise. It makes
  up to six repository calls: `Begin`, the four steps, and `Rollback` or `Commit`;
- the wrappers of the two repository packages. Each write (`Create`, `Update`, `Delete`)
  begins a transaction, runs one model operation, then rolls back or commits. Each read
  (`UserRead`, `CompanyRead`) runs one query on the connection pool and opens no
  transaction;
- the persistence models. Their `Create`, `Read`, `Update` and `Delete` run one statement
  against a table with auto-increment ids and write the outcome into the model's fields;
- the environment-variable values, which print as `NAME=VALUE`, or as `NAME=******` for a
  secure one.

The repository contains several revisions of the user and company packages that do not
build together. Each Go file is modelled in a module of its own (`PkgUser` for
`src/pkg/user/user.go`, `PkgUserEntity` for `src/pkg/user/entity.go`, `RdbModelUser` for
`src/rdb-repository/model/user.go`, and so on), and the revisions are not reconciled.

Modelling conventions:

- `Base` holds the shared vocabulary:
  - Go strings are byte sequences (`GoString = seq<byte>`), so lengths count bytes. The
    administrator role's name "管理者" has 9 bytes.
  - Time is an integer, and the zero `time.Time` is 0.
  - A Go `(value, error)` pair is a `Result`, and a lone `error` is an `Option<Error>`, where
    `None` is nil.
  - Errors are kinds, not message texts. `fmt.Errorf("...: %w", err)` is `Wrapped(err)`, and
    `Is` follows the wrapping chain the way `errors.Is` does.
- `Sql` stands for `database/sql` and the MySQL server:
  - `DB` is the connection pool, holding the committed tables, and `Tx` is a transaction over
    its own copy of them;
  - every driver failure is a flag of `Faults`, the way the flag-controlled test doubles of
    `src/repository/model/model_test.go` and `src/repository/repository_test.go` are;
  - `DB.calls` records every `Begin`, `Commit`, `Rollback` and `Close`, so that contracts can
    state the protocol a wrapper follows.
- The clock (`time.Now`, `currentTime`) becomes a parameter `now`. `os.Getenv` becomes a map
  parameter. bcrypt's `GenerateFromPassword` becomes the `Result` it returned, passed in.
- The service layers hold their repository as a value of functions, one per interface
  method. They return a `Traced` result: the value returned and the repository calls made.
- In `ServiceCompany`, the repository of the provisioning workflow is a class. It holds the
  committed store, the working store of the open transaction, a call log, and the failures
  given up front for `Begin`, for each of the four steps and for `Commit`. A `Tx` carries
  the log position of the call that handed it out. That position is how the contracts show
  that every call gets the transaction returned by the call just before it.

Where the tests and the code disagree, the code is followed:

- `Name.valid` in `src/pkg/user/user.go:16-18` checks only that the name is not empty. The
  test at `src/pkg/user/user_test.go:100-104` expects a 256-byte name to be rejected. The
  model keeps the code's rule, and `PkgUser.NameHasNoUpperBound` states it.
- `validPassword` in `src/pkg/user/user.go:35-37` checks only `Length() >= 8`. The test at
  `src/pkg/user/user_test.go:144-148` expects a password of length 256 to be rejected. The
  model keeps the code's rule, and `PkgUser.PasswordHasNoUpperBound` states it.

The revisions also disagree with each other about the length of a password rehydrated from
a stored hash. Both readings are kept as the code has them: in
`src/pkg/user/password/password.go` the length is 0, and in `src/pkg/user/entity.go` and
`src/pkg/entity/*.go` it is 8.

## Model

| member | source | states |
|---|---|---|
| Env.Env.String | src/env/env.go:33-56 | a plain variable prints as name, `=`, value; a secure one as name, `=`, six asterisks |
| Env.Env.Name | src/env/env.go:37-39 | the name the variable holds, for both kinds (`secureEnv.Name` at env.go:58-60 is the same); `Get` and `GetSecure` ensure it is the name requested |
| Env.Env.Value | src/env/env.go:41-43 | the value the variable holds, for both kinds (`secureEnv.Value` at env.go:62-64 is the same); `Get` and `GetSecure` ensure it is the environment's value, and only `String` of the plain kind shows it |
| Env.Getenv | src/env/env.go:26-31 | the environment's value for a set name, the empty string for an unset one |
| Env.Get | src/env/env.go:18-31 | a plain variable holding the requested name and the environment's value for it |
| Env.GetSecure | src/env/env.go:47-50 | a secure variable with the same name and value as `Get` of that name |
| Env.PlainStringRoundTrip | src/env/env.go:33-35 | splitting a plain rendering at its first `=` gives back the name and the value, whatever the value holds |
| Env.SecureStringHidesValue | src/env/env.go:54-56 | a secure rendering splits into the name and the mask, and two values under one name render the same |
| Env.GetAndGetSecureAgree | src/env/env.go:47-50 | `Get` and `GetSecure` agree on name and value; only the plain rendering carries the value |
| PkgUser.New | src/pkg/user/user.go:45-50 | a user with id 0 (not valid) and the name and password given |
| PkgUser.ValidID | src/pkg/user/user.go:9-11 | an id is valid exactly when it is positive; `New` ensures a new user's id 0 is not |
| PkgUser.ValidName | src/pkg/user/user.go:16-18 | a name is valid exactly when it has at least one byte, with no upper bound (`NameHasNoUpperBound`) |
| PkgUser.PasswordString | src/pkg/user/user.go:29-32 | five bytes, each an asterisk |
| PkgUser.Password.Length | src/pkg/user/user.go:22-27 | what the `Password` interface reports as the length; `PkgUserPassword.New` and `FromHash` state its value |
| PkgUser.Password.Hash | src/pkg/user/user.go:22-27 | what the `Password` interface reports as the hash; `PkgUserPassword.New` and `FromHash` state its value |
| PkgUser.ValidPassword | src/pkg/user/user.go:35-37 | a password passes exactly when it reports a length of at least `PasswordMinLength` (8), with no upper bound (`PasswordHasNoUpperBound`) |
| PkgUser.Valid | src/pkg/user/user.go:52-54 | a user is valid exactly when its name and its password are |
| PkgUser.NameHasNoUpperBound | src/pkg/user/user.go:16-18 | every name of 256 bytes or more is valid |
| PkgUser.PasswordHasNoUpperBound | src/pkg/user/user.go:35-37 | every password reporting a length of 256 or more passes, although user_test.go:144-148 expects 256 to fail |
| PkgUser.NewValidIff | src/pkg/user/user.go:45-54 | for every name and password, a user built by `New` is valid exactly when the name has a byte and the password reports at least 8 |
| PkgUser.ValidReadsNameAndLength | src/pkg/user/user.go:52-54 | two users with the same name and password length are both valid or both invalid, whatever their ids and hashes |
| PkgUser.ValidIsUpwardClosed | src/pkg/user/user.go:16-54 | a longer name or a longer password never turns a valid user invalid |
| PkgUserPassword.New | src/pkg/user/password/password.go:15-24 | a password holding bcrypt's hash and the plain text's byte length, or bcrypt's error wrapped |
| PkgUserPassword.FromHash | src/pkg/user/password/password.go:26-31 | the hash kept and a length of 0 |
| PkgUserPassword.String | src/pkg/user/password/password.go:33-35 | the five-asterisk mask |
| PkgUserPassword.FromHashNeverValid | src/pkg/user/password/password.go:26-31 | a rehydrated password never passes `validPassword` |
| PkgUserPassword.NewValidIff | src/pkg/user/password/password.go:15-24 | a freshly hashed password passes `validPassword` exactly when the plain text has at least 8 bytes |
| PkgUserEntity.Password.String | src/pkg/user/entity.go:48-51 | the five-asterisk mask |
| PkgUserEntity.NewPassword | src/pkg/user/entity.go:27-37 | bcrypt's hash and the plain text's byte length, or bcrypt's error wrapped |
| PkgUserEntity.NewPasswordFromHash | src/pkg/user/entity.go:39-46 | the hash kept and a length of `PasswordMinLength` (8) |
| PkgUserEntity.Password.Length | src/pkg/user/entity.go:58-60 | the recorded length; `NewPassword` and `NewPasswordFromHash` state its value |
| PkgUserEntity.Password.Hash | src/pkg/user/entity.go:62-64 | the recorded hash; `NewPassword` and `NewPasswordFromHash` state its value |
| PkgUserEntity.New | src/pkg/user/entity.go:72-77 | id 0 with the name and password given |
| PkgUserEntity.Valid | src/pkg/user/entity.go:79-82 | a user is valid exactly for a non-empty name and a password of length at least `PasswordMinLength` (8) |
| PkgUserEntity.FromHashUserValid | src/pkg/user/entity.go:39-82 | any user with a non-empty name and a rehydrated password is valid |
| PkgUserEntity.NewUserValidIff | src/pkg/user/entity.go:79-82 | a new user with a fresh password is valid exactly when the name is not empty and the plain text has at least 8 bytes |
| PkgUserEntity.ValidReadsNameAndLength | src/pkg/user/entity.go:79-82 | two users with the same name and password length are both valid or both invalid, whatever their ids and hashes |
| PkgEntityPassword.Password.String | src/pkg/entity/password.go:48-50 | the five-asterisk mask |
| PkgEntityPassword.NewPassword | src/pkg/entity/password.go:22-31 | bcrypt's hash and the plain text's byte length, or bcrypt's error wrapped |
| PkgEntityPassword.PasswordFromHash | src/pkg/entity/password.go:33-38 | the hash kept and a length of 8 |
| PkgEntityPassword.Password.Length | src/pkg/entity/password.go:44-46 | the recorded length; `NewPassword` and `PasswordFromHash` state its value |
| PkgEntityPassword.Password.Hash | src/pkg/entity/password.go:52-54 | the recorded hash; `NewPassword` and `PasswordFromHash` state its value |
| PkgEntityPassword.FromHashKeepsHash | src/pkg/entity/password.go:33-54 | rehydrating a password's hash gives a password with that hash |
| PkgEntityUser.Password.String | src/pkg/entity/user.go:51-53 | the five-asterisk mask |
| PkgEntityUser.NewPassword | src/pkg/entity/user.go:25-34 | bcrypt's hash and the plain text's byte length, or bcrypt's error wrapped |
| PkgEntityUser.PasswordFromHash | src/pkg/entity/user.go:36-41 | the hash kept and a length of 8 |
| PkgEntityUser.Password.Length | src/pkg/entity/user.go:47-49 | the recorded length; `NewPassword` and `PasswordFromHash` state its value |
| PkgEntityUser.Password.Hash | src/pkg/entity/user.go:55-57 | the recorded hash; `NewPassword` and `PasswordFromHash` state its value |
| PkgEntityUser.NewUser | src/pkg/entity/user.go:67-72 | id 0, the name and password given, no companies |
| PkgEntityUser.Validate | src/pkg/entity/user.go:74-84 | nil exactly for a non-empty name and a password of length at least 8; an empty name is reported before a short password |
| PkgEntityUser.FromHashUserValid | src/pkg/entity/user.go:36-84 | a rehydrated user with a name passes `Validate` |
| PkgEntityUser.SignUpValidation | src/pkg/entity/user.go:25-84 | for every name and plain text, a new user with a fresh password fails on an empty name first, then on a plain text under 8 bytes, and passes otherwise |
| PkgEntityUser.ValidateReadsNameAndLength | src/pkg/entity/user.go:74-84 | two users with the same name and password length get the same answer from `Validate`, whatever their ids, hashes and companies |
| PkgEntityCompany.NewCompany | src/pkg/entity/company.go:15-19 | id 0 and the name given |
| PkgEntityCompany.Validate | src/pkg/entity/company.go:21-26 | nil exactly for a non-empty name, otherwise a name error |
| PkgEntityCompany.ValidateIgnoresID | src/pkg/entity/company.go:21-26 | the id plays no part in validation |
| PkgEntityRole.NewRoleAdmin | src/pkg/entity/role.go:11-16 | the role of the company given, id 0, named "管理者" (9 bytes) |
| PkgCompany.New | src/pkg/company/company.go:29-34 | id 0, zero update time, the name and owner given |
| PkgCompany.ValidName | src/pkg/company/company.go:17-20 | a name is valid exactly when it has 1 to 255 bytes |
| PkgCompany.ValidCreate | src/pkg/company/company.go:36-38 | a company may be created exactly when its name is valid and its owner id is a valid user id |
| PkgCompany.NewValidCreateIff | src/pkg/company/company.go:29-38 | for every name and owner, a company built by `New` may be created exactly when the name has 1 to 255 bytes and the owner id is positive |
| PkgCompany.ValidCreateReadsNameAndOwner | src/pkg/company/company.go:36-38 | two companies with the same name and owner are both creatable or neither, whatever their ids and update times |
| PkgUserServe.Create | src/pkg/user/serve.go:30-42 | an invalid user is refused with no repository call; otherwise one `UserCreate` call, its user returned or its error wrapped |
| PkgUserServe.Read | src/pkg/user/serve.go:44-56 | an id of 0 or less is refused with no call; otherwise one `UserRead` call, its user returned or its error wrapped |
| PkgUserServe.Update | src/pkg/user/serve.go:58-75 | the user is checked first, then its id; only then one `UserUpdate` call, its user returned or its error wrapped |
| PkgUserServe.Delete | src/pkg/user/serve.go:77-89 | an invalid id is refused with no call; otherwise one `UserDelete` call, nil exactly when the repository returns nil |
| PkgUserServe.GuardsDecideTheCall | src/pkg/user/serve.go:30-89 | at most one repository call, made exactly when every guard passes; a repository error stays reachable by `errors.Is` |
| PkgUserServe.RejectionIgnoresRepository | src/pkg/user/serve.go:30-67 | a rejected input gets the same error whatever the repository would answer |
| PkgUserService.Create | src/pkg/user/service.go:23-35 | an invalid user is refused with no call; otherwise one `UserCreate` call, its user returned or its error wrapped |
| PkgUserService.Read | src/pkg/user/service.go:37-44 | one `UserRead` call whatever the id, its user returned or its error wrapped |
| PkgUserService.Update | src/pkg/user/service.go:46-58 | an invalid user is refused with no call; otherwise one `UserUpdate` call, its user returned or its error wrapped |
| PkgUserService.Delete | src/pkg/user/service.go:60-67 | one `UserDelete` call whatever the id, nil exactly when the repository returns nil |
| PkgUserService.ReadDeleteUnguarded | src/pkg/user/service.go:37-67 | any id reaches the repository through `Read` and `Delete`, which fail only when the repository does |
| PkgUserService.WritesGuarded | src/pkg/user/service.go:23-58 | the writes call the repository exactly for a valid user, and an invalid one gets the same error whatever the repository |
| PkgCompanyServe.Create | src/pkg/company/serve.go:27-33 | an invalid company is refused with no call; otherwise the repository's result unchanged |
| PkgCompanyServe.Read | src/pkg/company/serve.go:35-43 | an id of 0 or less is refused with no call; otherwise the repository's result unchanged |
| PkgCompanyServe.GuardsDecideTheCall | src/pkg/company/serve.go:27-43 | the repository is reached exactly for a 1-to-255-byte name with a positive owner, or a positive id; rejections do not depend on it |
| ServiceUser.Create | src/pkg/service/user.go:17-24 | `Validate`'s error returned as it is with no call; otherwise the repository's result unchanged |
| ServiceUser.Read | src/pkg/service/user.go:26-32 | reading another user's record is unauthorized with no call; one's own record is the repository's result |
| ServiceUser.GuardsDecideTheCall | src/pkg/service/user.go:17-32 | an empty name is reported before a short password; the repository is reached exactly for a valid user, or for one's own id |
| ServiceCompany.CreatedRole | src/pkg/service/company.go:44-45 | the role stored for a company is that company's administrator role |
| ServiceCompany.CompanyService.NewCompany | src/pkg/service/company.go:13-15 | the service holds the repository given |
| ServiceCompany.CompanyService.Create | src/pkg/service/company.go:17-61 | the calls made, the result and the committed store are those of the reference run `ExpectedLog`, `ExpectedResult` and `ExpectedCommitted` |
| ServiceCompany.CompanyService.CreateChecked | src/pkg/service/company.go:58-60 | as `Create`, with `Commit`'s error returned: the result is `ExpectedResultChecked` |
| ServiceCompany.StepsRunInOrderUpToFailure | src/pkg/service/company.go:29-56 | the steps run in the order company, employee, role, assignment, up to and including the first that fails, and no further |
| ServiceCompany.RollbackAndCommitNeverBoth | src/pkg/service/company.go:23-60 | `Begin` comes first; Rollback and Commit are never both called; the ending call is last, exactly once after a successful `Begin`, and absent after a failed one |
| ServiceCompany.EachCallGetsThePreviousTx | src/pkg/service/company.go:29-59 | every call after `Begin` is given the `Tx` returned by the call just before it |
| ServiceCompany.RollbackFollowsFailingStep | src/pkg/service/company.go:31-56 | on a step failure, that step's `Tx` is rolled back right after it, nothing follows, and the step's error is returned |
| ServiceCompany.StepsUseCreatedIdentifiers | src/pkg/service/company.go:30-52 | the employee and assignment steps use the created company's id and `authID`; the role is that company's administrator role, and the role assigned is the one created |
| ServiceCompany.GuardsComeFirst | src/pkg/service/company.go:18-27 | a validation error is returned as it is with no call; a `Begin` error is returned wrapped with no step and no `Rollback`; the store is unchanged |
| ServiceCompany.FailureLeavesStoreUnchanged | src/pkg/service/company.go:29-56 | a run that returns an error leaves the committed store as it was |
| ServiceCompany.ProvisionedAddsOneRowEach | src/pkg/service/company.go:29-59 | a full run adds one company, one employee row for the caller, its administrator role and that role's assignment to the caller |
| ServiceCompany.CheckedOkIffStored | src/pkg/service/company.go:58-60 | with `Commit` checked, success is reported exactly when the provisioned store was committed, and the company reported is the one stored |
| ServiceCompany.AsWrittenReportsUnstoredCompany | src/pkg/service/company.go:58-60 | as written, a failed commit still yields success although the store is unchanged |
| ServiceCompany.CheckedDiffersOnlyOnCommitFailure | src/pkg/service/company.go:58-60 | the as-written and checked results agree unless the commit fails |
| ServiceCompany.CommitFailureReportsSuccess | src/pkg/service/company.go:58-60 | on an empty store whose commit fails, company 1 is reported and nothing is stored |
| ServiceCompany.CommitFailureReportedWhenChecked | src/pkg/service/company.go:58-60 | on that store the checked run reports the commit error |
| ServiceCompany.ProvisioningScenario | src/pkg/service/company.go:17-61 | without failures, the exact six-call log and the one row per table that a run on an empty store produces |
| RdbTransaction.NewTx | src/rdb-repository/transaction.go:14-19 | a non-nil `*Tx` holding the handle and error given |
| RdbTransaction.CastTx | src/rdb-repository/transaction.go:21-27 | any `*Tx` of this package, nil included, is accepted; any other value gives a cast error |
| RdbTransaction.ErrorOf | src/rdb-repository/transaction.go:49-54 | a nil `*Tx` reports an error of its own; otherwise the stored error |
| RdbTransaction.NewState | src/rdb-repository/transaction.go:56-62 | the new error, on the receiver's handle, or on a nil handle for a nil receiver |
| RdbTransaction.NilCheck | src/rdb-repository/transaction.go:29-45 | no error exactly when neither the receiver nor its handle is nil, with one error kind for each |
| RdbTransaction.Rollback | src/rdb-repository/transaction.go:29-37 | a nil receiver or handle gives an error and touches nothing; otherwise the handle is rolled back and its error returned |
| RdbTransaction.Commit | src/rdb-repository/transaction.go:39-47 | a nil receiver or handle gives an error and touches nothing; otherwise the handle is committed and its error returned |
| RdbTransaction.NewStateReplacesOnlyError | src/rdb-repository/transaction.go:56-62 | `Error` reports the new error, the handle is kept, and a second `newState` overrides the first |
| RdbTransaction.NewStateOnNilFailsLater | src/rdb-repository/transaction.go:33-61 | a state built from a nil `*Tx` has a nil handle, so a later `Rollback` or `Commit` fails without touching anything |
| RdbTransaction.NewTxCastRoundTrip | src/rdb-repository/transaction.go:14-54 | `castTx` gets back what `newTx` built, and `Error` then reports the error given |
| Sql.InsertOutcome | src/repository/model/model_test.go:17-51 | what `ExecContext` followed by `LastInsertId` gives: the next id, or the failure of a switched-on fault |
| Sql.ChangeOutcome | src/repository/model/model_test.go:17-51 | what `ExecContext` followed by `RowsAffected` gives: the number of rows the id matches, or the failure of a switched-on fault |
| RepoModelUser.HashString | src/repository/model/user.go:12-14 | the string has exactly the hash's bytes |
| RepoModelUser.User.NewUser | src/repository/model/user.go:33-39 | the entity's id, name and hash, with zero timestamps |
| RepoModelUser.User.NewUserFromID | src/repository/model/user.go:41-45 | only the id |
| RepoModelUser.User.NewEntity | src/repository/model/user.go:47-54 | the id, name and update time, and a password whose `Hash` is the stored hash |
| RepoModelUser.User.Create | src/repository/model/user.go:56-79 | on success the new id and `now` as both timestamps; on failure the error and no field changed; the row inserted holds the name, hash and `now` |
| RepoModelUser.User.Read | src/repository/model/user.go:81-91 | the row's name, hash and timestamps, or the error and no field changed |
| RepoModelUser.User.Update | src/repository/model/user.go:93-118 | fails unless exactly one row was affected; the update time changes only on success and the creation time never |
| RepoModelUser.User.Delete | src/repository/model/user.go:120-140 | fails unless exactly one row was affected, and changes no field |
| RepoModelUser.RoundTrip | src/repository/model/user.go:33-54 | an entity through the model and back keeps its id, name and hash |
| RepoModelUser.FromIDRoundTrip | src/repository/model/user.go:41-54 | a model built from an id gives an entity with that id, no name and a password that is not valid |
| RepoModelCompany.Company.NewCompany | src/repository/model/company.go:25-29 | only the name; id 0, owner dropped |
| RepoModelCompany.Company.NewCompanyFromID | src/repository/model/company.go:31-35 | only the id |
| RepoModelCompany.Company.NewEntity | src/repository/model/company.go:75-82 | the id, name and update time, owner 0 |
| RepoModelCompany.Company.Create | src/repository/model/company.go:37-59 | on success the new id and `now` as both timestamps; on failure no field changed |
| RepoModelCompany.Company.Read | src/repository/model/company.go:61-73 | the row's name and timestamps under the id read, or the error and no field changed |
| RepoModelCompany.RoundTrip | src/repository/model/company.go:25-82 | a company through the model and back keeps its name, with id, owner and update time 0 |
| RdbModelUser.User.NewUser | src/rdb-repository/model/user.go:27-33 | the entity's id, name and hash, with zero timestamps |
| RdbModelUser.User.NewUserFromID | src/rdb-repository/model/user.go:35-39 | only the id |
| RdbModelUser.User.NewEntity | src/rdb-repository/model/user.go:41-47 | the id and name, and the hash rehydrated with length 8 |
| RdbModelUser.User.Create | src/rdb-repository/model/user.go:49-72 | on success the new id and `now` as both timestamps; on failure no field changed |
| RdbModelUser.User.Read | src/rdb-repository/model/user.go:74-84 | the row's fields, or the error and no field changed |
| RdbModelUser.User.Update | src/rdb-repository/model/user.go:86-111 | fails unless exactly one row was affected; the update time is set only on success |
| RdbModelUser.User.Delete | src/rdb-repository/model/user.go:113-133 | fails unless exactly one row was affected |
| RdbModelUser.RoundTrip | src/rdb-repository/model/user.go:27-47 | an entity through the model and back keeps its id, name and hash, and with a name it is valid |
| RdbModelUsers.User.NewUser | src/rdb-repository/model/users.go:19-25 | the entity's id, name and hash, with zero timestamps |
| RdbModelUsers.User.Entity | src/rdb-repository/model/users.go:27-33 | the id and name, the hash rehydrated with length 8, no companies |
| RdbModelUsers.User.Create | src/rdb-repository/model/users.go:35-58 | on success the new id and `now` as both timestamps; on failure no field changed |
| RdbModelUsers.User.Read | src/rdb-repository/model/users.go:60-70 | the row's fields, or the error and no field changed |
| RdbModelUsers.User.Update | src/rdb-repository/model/users.go:72-97 | fails unless exactly one row was affected; the update time is set only on success |
| RdbModelUsers.User.Delete | src/rdb-repository/model/users.go:99-119 | fails unless exactly one row was affected |
| RdbModelUsers.RoundTrip | src/rdb-repository/model/users.go:19-33 | an entity through the model and back keeps its id, name and hash, and with a name it passes `Validate` |
| RdbModelCompany.AfterCreate | src/rdb-repository/model/company.go:84-107 | after a join row's insert, the new id and `now` twice, or the record unchanged; the keys are never touched |
| RdbModelCompany.Company.NewCompany | src/rdb-repository/model/company.go:17-22 | the entity's id and name, with zero timestamps |
| RdbModelCompany.Company.Entity | src/rdb-repository/model/company.go:24-29 | the id and name |
| RdbModelCompany.Company.Create | src/rdb-repository/model/company.go:31-53 | the name inserted; on success the new id and `now` twice; on failure no field changed |
| RdbModelCompany.CompanyRoundTrip | src/rdb-repository/model/company.go:17-29 | a company through the model and back is the same company |
| RdbModelCompany.CompanyRole.NewCompanyRole | src/rdb-repository/model/company.go:63-68 | only the two keys, id 0 |
| RdbModelCompany.CompanyRole.Create | src/rdb-repository/model/company.go:84-107 | the keys inserted unchanged; on success the new id and `now` twice; on failure no field changed |
| RdbModelCompany.FindCompanyRoleTx | src/rdb-repository/model/company.go:70-82 | a record exactly when the transaction is live, the scan does not fail and a join row with the two keys is stored, and then it is that row; otherwise nil and the error returned unchanged: the ended transaction, else no rows, else the scan failure |
| RdbModelCompany.CompanyEmployee.NewCompanyEmployee | src/rdb-repository/model/company.go:117-122 | only the two keys, id 0 |
| RdbModelCompany.CompanyEmployee.Create | src/rdb-repository/model/company.go:138-161 | the keys inserted unchanged; on success the new id and `now` twice; on failure no field changed |
| RdbModelCompany.FindCompanyEmployeeTx | src/rdb-repository/model/company.go:124-136 | a record exactly when the transaction is live, the scan does not fail and a join row with the two keys is stored, and then it is that row; otherwise nil and the error returned unchanged: the ended transaction, else no rows, else the scan failure |
| RdbModelCompany.EmployeeRole.NewEmployeeRole | src/rdb-repository/model/company.go:171-176 | only the two keys, id 0 |
| RdbModelCompany.EmployeeRole.Create | src/rdb-repository/model/company.go:178-201 | the keys inserted unchanged; on success the new id and `now` twice; on failure no field changed |
| RdbModelRole.Role.NewRole | src/rdb-repository/model/role.go:17-22 | the role's id and name, with zero timestamps |
| RdbModelRole.Role.Entity | src/rdb-repository/model/role.go:24-30 | the role of the company given, with the id and name |
| RdbModelRole.Role.Create | src/rdb-repository/model/role.go:32-54 | the name inserted; on success the new id and `now` twice; on failure no field changed |
| RdbModelRole.RoundTrip | src/rdb-repository/model/role.go:17-30 | a role through the model and back, under its own company, is the same role |
| RepoUser.UserCreate | src/repository/user.go:9-22 | model failure: `Rollback`, no `Commit`, the error, nothing stored; commit failure: the error; success: the inserted user's entity |
| RepoUser.UserRead | src/repository/user.go:24-31 | no transaction; the row read, or the error |
| RepoUser.UserUpdate | src/repository/user.go:33-46 | `Rollback` and the error unless exactly one row was written; commit failure: the error; success: the updated entity |
| RepoUser.UserDelete | src/repository/user.go:48-61 | `Rollback` and the error unless exactly one row was deleted; commit failure: the error; success: nil and the row gone |
| RepoCompany.CompanyCreate | src/repository/company.go:10-23 | model failure: `Rollback` and the error; commit failure: the error; the entity is built only after a successful commit |
| RepoCompany.CompanyRead | src/repository/company.go:25-32 | no transaction; the row read, or the error and the model unchanged |
| Repository.Repository.New | src/repository/repository.go:34-38 | the pool is stored unchanged |
| Repository.Repository.Close | src/repository/repository.go:40-42 | forwarded to the pool: one `Close` call and its error |
| Repository.Repository.UserCreate | src/repository/repository.go:44-51 | a `Begin` failure is returned wrapped with nothing else done; otherwise the `UserCreate` protocol on a model of the entity |
| Repository.Repository.UserRead | src/repository/repository.go:53-55 | no transaction; the row of the id in the pool, or its error |
| Repository.Repository.UserUpdate | src/repository/repository.go:57-64 | a `Begin` failure is returned wrapped; otherwise the `UserUpdate` protocol on a model of the entity |
| Repository.Repository.UserDelete | src/repository/repository.go:66-73 | a `Begin` failure is returned wrapped; otherwise the `UserDelete` protocol on a model of the id |
| Repository.Repository.CompanyCreate | src/repository/repository.go:75-82 | a `Begin` failure is returned wrapped; otherwise the company is stored by name and returned with the new id |
| Repository.Repository.CompanyRead | src/repository/repository.go:84-86 | no transaction; the row of the id in the pool, or its error |
| Repository.UserCreateThenRead | src/repository/repository.go:44-55 | with no faults, a created user is read back as the same entity |
| Repository.UserDeleteThenRead | src/repository/repository.go:53-73 | with no faults, a stored user is deleted once, then cannot be read nor deleted again |
| Repository.CompanyCreateThenRead | src/repository/repository.go:75-86 | with no faults, a created company is read back with the same id, name and update time |
| RdbUser.userCreate | src/rdb-repository/user.go:31-38 | the model itself on success; no model and the model's error unchanged otherwise |
| RdbUser.UserCreate | src/rdb-repository/user.go:11-29 | `Begin` failure: the error; model failure: `Rollback` and the error; commit failure: the error; success: the created user |
| RdbUser.userReadAsWritten | src/rdb-repository/user.go:50-57 | as written: never an error, and no model when the read fails |
| RdbUser.UserReadAsWritten | src/rdb-repository/user.go:41-48 | as written: a read failure panics on the nil model |
| RdbUser.UserReadAsWrittenPanicsOnMissingUser | src/rdb-repository/user.go:41-57 | reading a missing user panics |
| RdbUser.userRead | src/rdb-repository/user.go:50-57 | corrected: the model on success, the model's error unchanged otherwise |
| RdbUser.UserRead | src/rdb-repository/user.go:41-48 | corrected: no transaction; the stored user, or the read's error |
| RdbUser.UserReadFailsOnMissingUser | src/rdb-repository/user_test.go:141-149 | corrected: reading a missing user returns the no-rows error |
| RdbUser.userUpdate | src/rdb-repository/user.go:80-87 | the model on success; no model and the model's error unchanged otherwise |
| RdbUser.UserUpdate | src/rdb-repository/user.go:60-78 | `Begin` failure: the error; `Rollback` and the error unless exactly one row was written; commit failure: the error |
| RdbUser.userDelete | src/rdb-repository/user.go:110-117 | the model's error unchanged |
| RdbUser.UserDelete | src/rdb-repository/user.go:90-108 | `Begin` failure: the error; `Rollback` and the error unless exactly one row was deleted; nil on success |
| RdbUser.UserCreateThenRead | src/rdb-repository/user.go:11-57 | with no faults and the corrected read, a created user is read back with the new id, name and hash |
| RdbCompany.companyCreate | src/rdb-repository/company.go:30-36 | the model on success; no model and the model's error unchanged otherwise |
| RdbCompany.CompanyCreate | src/rdb-repository/company.go:10-28 | `Begin` failure: the error; model failure: `Rollback` and the error; commit failure: the error; success: the created company |
| RdbCompany.companyRead | src/rdb-repository/company.go:47-53 | the model on success; no model and the read's error otherwise |
| RdbCompany.CompanyRead | src/rdb-repository/company.go:38-45 | no transaction; the company read, or the read's error wrapped |
| RdbCompany.companyUpdate | src/rdb-repository/company.go:75-81 | the model on success; no model and the model's error unchanged otherwise |
| RdbCompany.CompanyUpdate | src/rdb-repository/company.go:55-73 | the same begin, rollback-on-error and commit rules as `CompanyCreate` |
| RdbCompany.companyDelete | src/rdb-repository/company.go:104-110 | the model's error unchanged |
| RdbCompany.CompanyDelete | src/rdb-repository/company.go:83-102 | the same rules, and nil on success |

## Left out

- HTTP handlers, routing, request parsing and response writing (`src/http-handle`), and
  process start-up (`src/cmd/api.go`): these are glue over net/http, gorilla/mux and
  encoding/json, and start-up is I/O and concurrency.
- bcrypt: `GenerateFromPassword` becomes its result passed in, and every `Verify` is left
  out, because the hash function is foreign code.
- SQL text, the MySQL driver and `Row.Scan` conversions: they are replaced by the
  in-memory tables of `Sql`, with row shapes standing in for the scan destinations.
- RdbModelUser.User.Read, RdbModelUsers.User.Read, RepoModelUser.User.Read: on a failed
  scan they leave every field as it was. Go's `Row.Scan` may have filled some destinations
  before it failed; every caller drops the model on that error, so no caller sees the
  difference.
- The clock and the process environment: `now` and the environment map are parameters.
- Error message texts: errors are kinds, so only the wrapping structure is kept.
- nil pointers: an entity or model pointer is a value, except for the nil model of
  `RdbUser.UserReadAsWritten` and the nil `*Tx` and `*sql.Tx` of `RdbTransaction`. Other
  nil dereferences, such as a nil `*Company` given to `NewRoleAdmin`, are not modelled.
- PkgEntityRole.NewRoleAdmin: the role holds the company by value, so it does not model
  the role and its creator sharing one `*Company` that later changes.
- PkgEntityUser.NewUser: a nil `Companies` slice and an empty one are both the empty
  sequence.
- The interfaces (`src/pkg/repository/repository.go`, `src/pkg/user/repository.go`,
  `src/rdb-repository/model/model.go`, the `DB` interface of `src/repository/model/model.go`)
  and the mock `src/pkg/repository/mock.go` are not modelled as code. The interfaces appear
  as the repository values of the service modules and as the repository class of
  `ServiceCompany`; the `Tx` protocol of `src/pkg/repository/repository.go:13-26` is what
  `ServiceCompany`'s lemmas state.
- RdbCompany.CompanyModel: `src/rdb-repository/company.go` calls a `model.Company`
  interface (`NewCompany` from a `company.Company`, `NewCompanyFromID`, `Read`, `Update`,
  `Delete`, `NewEntity`) that `src/rdb-repository/model/company.go` does not define. It is
  modelled as a class whose operations report outcomes given up front, so the wrappers'
  contracts are stated in terms of those outcomes and not of database rows.
- RepoModelUser.Entity: `src/repository/model/user.go` builds a `users.User` with an
  `UpdatedAt` field, and that revision of the user package is not part of this model. Its
  shape is declared locally.
- PkgUserServe: `src/pkg/user/serve.go` calls `id.valid()` and `u.Valid()`, which the user
  package of this revision does not define together. They are modelled as `ID.Valid` of
  `src/pkg/user/user.go` and `User.Valid` of `src/pkg/user/entity.go`.
- PkgCompanyServe.ValidID: `src/pkg/company/serve.go` calls `id.Valid()` on a company id,
  which `src/pkg/company/company.go` does not define. It is modelled as a positive id, the
  way `user.ID.Valid` is defined.
- The Go integer widths (`int64` ids and row counts) are unbounded here: no table comes
  near 2^63 rows.
- The Ruby migrations and schema (`_migrate`): these are DDL, and only the table layout of
  `Sql` follows them.

## Findings

| source | as written | input that shows it | evidently intended | confidence | as-written member | corrected member |
|---|---|---|---|---|---|---|
| src/rdb-repository/user.go:50-57 | `userRead` drops the error of `Read` and returns no model and no error, so `UserRead` calls `NewEntity` on a nil model | `UserRead(db, 5)` on a database with no user 5 | the read's error is returned, as `src/rdb-repository/user_test.go:141-149` expects | not executed | RdbUser.UserReadAsWrittenPanicsOnMissingUser | RdbUser.UserReadFailsOnMissingUser |
| src/pkg/service/company.go:58-60 | the error of `tx.Commit()` is discarded and the created company is returned | a valid company, no step failure, and a commit that fails | a failed commit is reported as an error, since nothing was stored | not executed | ServiceCompany.AsWrittenReportsUnstoredCompany | ServiceCompany.CheckedOkIffStored |
