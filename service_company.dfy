/** src/pkg/service/company.go: `Company.Create`, which provisions a new company in one
    transaction: create the company, add the caller as its employee, create the company's
    administrator role and give that role to the caller. The transaction is a `Tx` value
    threaded through the four repository steps; each step hands back the `Tx` to use next,
    which carries the step's error. The protocol, from the doc comment at
    src/pkg/repository/repository.go:13-21, is to roll back as soon as `Error` reports one and
    to commit at the end.

    The repository is an in-memory double: a committed store, the working store of the open
    transaction, a log of every call with the transaction it was given, and failures chosen
    up front for `Begin`, for each step and for `Commit`. `Rollback` and `Commit` are the
    methods of the `Tx`; they act on the repository that issued it. */
module ServiceCompany {
  import opened Base
  import PkgEntityCompany
  import PkgEntityRole
  import PkgEntityUser

  type Company = PkgEntityCompany.Company
  type Role = PkgEntityRole.Role

  /** The rows the four steps write. */
  datatype Store = Store(companies: seq<Company>,
                         employees: seq<(PkgEntityCompany.CompanyID, PkgEntityUser.UserID)>,
                         roles: seq<Role>,
                         assignments: seq<(PkgEntityCompany.CompanyID, PkgEntityUser.UserID, PkgEntityRole.RoleID)>)

  const EmptyStore: Store := Store([], [], [], [])

  /** A `repository.Tx`: `tx` is the position in the log of the call that handed it out, and
      `err` is what its `Error` reports (`None` is nil). */
  datatype Tx = Tx(tx: nat, err: Option<Error>)

  /** The four steps of the workflow, in the order `Create` runs them. */
  datatype Step = CreateCompany | AddEmployee | CreateRole | AssignRole

  const Order: seq<Step> := [CreateCompany, AddEmployee, CreateRole, AssignRole]

  /** One call on the repository or on a `Tx`, with its arguments and the transaction given. */
  datatype Call =
    | Begin
    | CompanyCreateTx(company: Company, tx: nat)
    | CompanyAddEmployeeTx(companyID: PkgEntityCompany.CompanyID, userID: PkgEntityUser.UserID, tx: nat)
    | RoleCreateTx(role: Role, tx: nat)
    | EmployeeAddRoleTx(companyID: PkgEntityCompany.CompanyID, userID: PkgEntityUser.UserID, roleID: PkgEntityRole.RoleID, tx: nat)
    | Rollback(tx: nat)
    | Commit(tx: nat)

  /** The company `CompanyCreateTx` stores: the identifier is the next one of the table. */
  function CreatedCompany(s: Store, c: Company): Company
  {
    c.(id := |s.companies| + 1)
  }

  /** The role `RoleCreateTx` stores for `company`: its administrator role under the next
      identifier of the table. */
  function CreatedRole(s: Store, company: Company): (role: Role)
    ensures role.company == company && role.name == PkgEntityRole.AdminName
  {
    PkgEntityRole.NewRoleAdmin(company).(id := |s.roles| + 1)
  }

  /** The store once all four steps ran on `s`. */
  function Provisioned(s: Store, c: Company, authID: PkgEntityUser.UserID): Store
  {
    var company := CreatedCompany(s, c);
    Store(s.companies + [company],
          s.employees + [(company.id, authID)],
          s.roles + [CreatedRole(s, company)],
          s.assignments + [(company.id, authID, |s.roles| + 1)])
  }

  /** The index in `Order` of the first step that fails, or 4 when none does. */
  function FirstFailure(failing: map<Step, Error>): (k: nat)
    ensures k <= |Order|
    ensures k < |Order| ==> Order[k] in failing
    ensures forall i | 0 <= i < k :: Order[i] !in failing
  {
    if CreateCompany in failing then 0
    else if AddEmployee in failing then 1
    else if CreateRole in failing then 2
    else if AssignRole in failing then 3
    else 4
  }

  /** The four step calls of a run whose `Begin` is at position `h` of the log: step `i`
      receives the `Tx` handed out by the call just before it. */
  function StepCalls(s: Store, c: Company, authID: PkgEntityUser.UserID, h: nat): seq<Call>
  {
    var company := CreatedCompany(s, c);
    [CompanyCreateTx(c, h),
     CompanyAddEmployeeTx(company.id, authID, h + 1),
     RoleCreateTx(PkgEntityRole.NewRoleAdmin(company), h + 2),
     EmployeeAddRoleTx(company.id, authID, |s.roles| + 1, h + 3)]
  }

  /** The calls one `Create` makes, `h` being the length of the log before it. */
  function ExpectedLog(c: Company, authID: PkgEntityUser.UserID, failBegin: bool,
                       failing: map<Step, Error>, s: Store, h: nat): seq<Call>
  {
    if PkgEntityCompany.Validate(c).Some? then []
    else if failBegin then [Begin]
    else
      var k := FirstFailure(failing);
      if k < |Order| then [Begin] + StepCalls(s, c, authID, h)[..k + 1] + [Rollback(h + k + 1)]
      else [Begin] + StepCalls(s, c, authID, h) + [Commit(h + 4)]
  }

  /** What `Create` returns as written: the first error met, or the created company, whatever
      `Commit` reported. */
  function ExpectedResult(c: Company, authID: PkgEntityUser.UserID, failBegin: bool,
                          failing: map<Step, Error>, s: Store): Result<Company>
  {
    if PkgEntityCompany.Validate(c).Some? then Err(PkgEntityCompany.Validate(c).value)
    else if failBegin then Err(Wrapped(Backend(BeginFault)))
    else
      var k := FirstFailure(failing);
      if k < |Order| then Err(failing[Order[k]])
      else Ok(CreatedCompany(s, c))
  }

  /** What `Create` returns once `Commit`'s error is checked too. */
  function ExpectedResultChecked(c: Company, authID: PkgEntityUser.UserID, failBegin: bool,
                                 failing: map<Step, Error>, failCommit: bool, s: Store): Result<Company>
  {
    var r := ExpectedResult(c, authID, failBegin, failing, s);
    if r.Ok? && failCommit then Err(Backend(CommitFault)) else r
  }

  /** The committed store after one `Create` on committed store `s`. */
  function ExpectedCommitted(c: Company, authID: PkgEntityUser.UserID, failBegin: bool,
                             failing: map<Step, Error>, failCommit: bool, s: Store): Store
  {
    if PkgEntityCompany.Validate(c).None? && !failBegin && FirstFailure(failing) == |Order| && !failCommit
    then Provisioned(s, c, authID)
    else s
  }

  /** The repository double of `repository.Company`. */
  class Repository {
    var committed: Store
    var working: Store
    var log: seq<Call>
    const failBegin: bool
    const failing: map<Step, Error>
    const failCommit: bool

    constructor (s: Store, failBegin: bool, failing: map<Step, Error>, failCommit: bool)
      ensures committed == s && working == s && log == []
      ensures this.failBegin == failBegin && this.failing == failing && this.failCommit == failCommit
    {
      committed, working, log := s, s, [];
      this.failBegin, this.failing, this.failCommit := failBegin, failing, failCommit;
    }

    /** `Begin`: a transaction on the committed rows, or one whose `Error` reports that it
        could not be opened. */
    method Begin() returns (tx: Tx)
      modifies this
      ensures log == old(log) + [Call.Begin] && committed == old(committed) && working == committed
      ensures tx == Tx(|old(log)|, if failBegin then Some(Backend(BeginFault)) else None)
    {
      tx := Tx(|log|, if failBegin then Some(Backend(BeginFault)) else None);
      log, working := log + [Call.Begin], committed;
    }

    /** `CompanyCreateTx`: store the company under the next identifier, or fail. */
    method CompanyCreateTx(c: Company, tx: Tx) returns (created: Company, next: Tx)
      modifies this
      ensures log == old(log) + [Call.CompanyCreateTx(c, tx.tx)] && committed == old(committed)
      ensures next.tx == |old(log)|
      ensures CreateCompany in failing ==> next.err == Some(failing[CreateCompany]) && created == c && working == old(working)
      ensures CreateCompany !in failing ==> (next.err.None? && created == CreatedCompany(old(working), c)
                                             && working == old(working).(companies := old(working).companies + [created]))
    {
      next := Tx(|log|, if CreateCompany in failing then Some(failing[CreateCompany]) else None);
      log := log + [Call.CompanyCreateTx(c, tx.tx)];
      if CreateCompany in failing {
        created := c;
      } else {
        created := CreatedCompany(working, c);
        working := working.(companies := working.companies + [created]);
      }
    }

    /** `CompanyAddEmployeeTx`: record that user `uID` works for company `cID`, or fail. */
    method CompanyAddEmployeeTx(cID: PkgEntityCompany.CompanyID, uID: PkgEntityUser.UserID, tx: Tx) returns (next: Tx)
      modifies this
      ensures log == old(log) + [Call.CompanyAddEmployeeTx(cID, uID, tx.tx)] && committed == old(committed)
      ensures next.tx == |old(log)|
      ensures AddEmployee in failing ==> next.err == Some(failing[AddEmployee]) && working == old(working)
      ensures AddEmployee !in failing ==> next.err.None? && working == old(working).(employees := old(working).employees + [(cID, uID)])
    {
      next := Tx(|log|, if AddEmployee in failing then Some(failing[AddEmployee]) else None);
      log := log + [Call.CompanyAddEmployeeTx(cID, uID, tx.tx)];
      if AddEmployee !in failing {
        working := working.(employees := working.employees + [(cID, uID)]);
      }
    }

    /** `RoleCreateTx`: store the role under the next identifier, or fail. */
    method RoleCreateTx(role: Role, tx: Tx) returns (created: Role, next: Tx)
      modifies this
      ensures log == old(log) + [Call.RoleCreateTx(role, tx.tx)] && committed == old(committed)
      ensures next.tx == |old(log)|
      ensures CreateRole in failing ==> next.err == Some(failing[CreateRole]) && created == role && working == old(working)
      ensures CreateRole !in failing ==> (next.err.None? && created == role.(id := |old(working).roles| + 1)
                                          && working == old(working).(roles := old(working).roles + [created]))
    {
      next := Tx(|log|, if CreateRole in failing then Some(failing[CreateRole]) else None);
      log := log + [Call.RoleCreateTx(role, tx.tx)];
      if CreateRole in failing {
        created := role;
      } else {
        created := role.(id := |working.roles| + 1);
        working := working.(roles := working.roles + [created]);
      }
    }

    /** `EmployeeAddRoleTx`: give role `rID` of company `cID` to user `uID`, or fail. */
    method EmployeeAddRoleTx(cID: PkgEntityCompany.CompanyID, uID: PkgEntityUser.UserID, rID: PkgEntityRole.RoleID, tx: Tx)
      returns (next: Tx)
      modifies this
      ensures log == old(log) + [Call.EmployeeAddRoleTx(cID, uID, rID, tx.tx)] && committed == old(committed)
      ensures next.tx == |old(log)|
      ensures AssignRole in failing ==> next.err == Some(failing[AssignRole]) && working == old(working)
      ensures AssignRole !in failing ==> next.err.None? && working == old(working).(assignments := old(working).assignments + [(cID, uID, rID)])
    {
      next := Tx(|log|, if AssignRole in failing then Some(failing[AssignRole]) else None);
      log := log + [Call.EmployeeAddRoleTx(cID, uID, rID, tx.tx)];
      if AssignRole !in failing {
        working := working.(assignments := working.assignments + [(cID, uID, rID)]);
      }
    }

    /** `Tx.Rollback`: the working rows are dropped. */
    method Rollback(tx: Tx) returns (err: Option<Error>)
      modifies this
      ensures log == old(log) + [Call.Rollback(tx.tx)] && committed == old(committed) && working == committed
      ensures err.None?
    {
      log, working := log + [Call.Rollback(tx.tx)], committed;
      err := None;
    }

    /** `Tx.Commit`: the working rows become the committed rows, unless the commit fails, in
        which case they are dropped. */
    method Commit(tx: Tx) returns (err: Option<Error>)
      modifies this
      ensures log == old(log) + [Call.Commit(tx.tx)]
      ensures err == if failCommit then Some(Backend(CommitFault)) else None
      ensures committed == (if failCommit then old(committed) else old(working)) && working == committed
    {
      log := log + [Call.Commit(tx.tx)];
      if failCommit {
        err := Some(Backend(CommitFault));
        working := committed;
      } else {
        committed := working;
        err := None;
      }
    }
  }

  /** `service.Company`. */
  class CompanyService {
    const repository: Repository

    /** `NewCompany`. */
    constructor NewCompany(r: Repository)
      ensures repository == r
    {
      repository := r;
    }

    /** `Create` as written: `Commit`'s error is dropped. */
    method Create(newCompany: Company, authID: PkgEntityUser.UserID) returns (r: Result<Company>)
      modifies repository
      ensures repository.log == old(repository.log)
                                + ExpectedLog(newCompany, authID, repository.failBegin, repository.failing, old(repository.committed), |old(repository.log)|)
      ensures r == ExpectedResult(newCompany, authID, repository.failBegin, repository.failing, old(repository.committed))
      ensures repository.committed == ExpectedCommitted(newCompany, authID, repository.failBegin, repository.failing,
                                                          repository.failCommit, old(repository.committed))
      ensures PkgEntityCompany.Validate(newCompany).None? ==> repository.working == repository.committed
      ensures PkgEntityCompany.Validate(newCompany).Some? ==> repository.working == old(repository.working)
    {
      var err := PkgEntityCompany.Validate(newCompany);
      if err.Some? {
        return Err(err.value);
      }
      var tx := repository.Begin();
      if tx.err.Some? {
        return Err(Wrapped(tx.err.value));
      }
      var company;
      company, tx := repository.CompanyCreateTx(newCompany, tx);
      if tx.err.Some? {
        var _ := repository.Rollback(tx);
        return Err(tx.err.value);
      }
      tx := repository.CompanyAddEmployeeTx(company.id, authID, tx);
      if tx.err.Some? {
        var _ := repository.Rollback(tx);
        return Err(tx.err.value);
      }
      var role := PkgEntityRole.NewRoleAdmin(company);
      role, tx := repository.RoleCreateTx(role, tx);
      if tx.err.Some? {
        var _ := repository.Rollback(tx);
        return Err(tx.err.value);
      }
      tx := repository.EmployeeAddRoleTx(company.id, authID, role.id, tx);
      if tx.err.Some? {
        var _ := repository.Rollback(tx);
        return Err(tx.err.value);
      }
      var _ := repository.Commit(tx);
      r := Ok(company);
    }

    /** `Create` with `Commit`'s error returned: success is reported only for a company that
        was stored. */
    method CreateChecked(newCompany: Company, authID: PkgEntityUser.UserID) returns (r: Result<Company>)
      modifies repository
      ensures repository.log == old(repository.log)
                                + ExpectedLog(newCompany, authID, repository.failBegin, repository.failing, old(repository.committed), |old(repository.log)|)
      ensures r == ExpectedResultChecked(newCompany, authID, repository.failBegin, repository.failing,
                                         repository.failCommit, old(repository.committed))
      ensures repository.committed == ExpectedCommitted(newCompany, authID, repository.failBegin, repository.failing,
                                                          repository.failCommit, old(repository.committed))
      ensures PkgEntityCompany.Validate(newCompany).None? ==> repository.working == repository.committed
      ensures PkgEntityCompany.Validate(newCompany).Some? ==> repository.working == old(repository.working)
    {
      var err := PkgEntityCompany.Validate(newCompany);
      if err.Some? {
        return Err(err.value);
      }
      var tx := repository.Begin();
      if tx.err.Some? {
        return Err(Wrapped(tx.err.value));
      }
      var company;
      company, tx := repository.CompanyCreateTx(newCompany, tx);
      if tx.err.Some? {
        var _ := repository.Rollback(tx);
        return Err(tx.err.value);
      }
      tx := repository.CompanyAddEmployeeTx(company.id, authID, tx);
      if tx.err.Some? {
        var _ := repository.Rollback(tx);
        return Err(tx.err.value);
      }
      var role := PkgEntityRole.NewRoleAdmin(company);
      role, tx := repository.RoleCreateTx(role, tx);
      if tx.err.Some? {
        var _ := repository.Rollback(tx);
        return Err(tx.err.value);
      }
      tx := repository.EmployeeAddRoleTx(company.id, authID, role.id, tx);
      if tx.err.Some? {
        var _ := repository.Rollback(tx);
        return Err(tx.err.value);
      }
      err := repository.Commit(tx);
      if err.Some? {
        return Err(err.value);
      }
      r := Ok(company);
    }
  }

  /** The step a call performs, if it is one of the four. */
  function StepOf(call: Call): Option<Step>
  {
    match call
    case CompanyCreateTx(_, _) => Some(CreateCompany)
    case CompanyAddEmployeeTx(_, _, _) => Some(AddEmployee)
    case RoleCreateTx(_, _) => Some(CreateRole)
    case EmployeeAddRoleTx(_, _, _, _) => Some(AssignRole)
    case _ => None
  }

  /** The steps a log performs, in the order it performs them. */
  function StepsOf(log: seq<Call>): seq<Step>
  {
    if log == [] then []
    else StepHead(log[0]) + StepsOf(log[1..])
  }

  /** The steps one call performs: none or one. */
  function StepHead(call: Call): seq<Step>
  {
    if StepOf(call).Some? then [StepOf(call).value] else []
  }

  lemma {:induction false} StepsOfAppend(a: seq<Call>, b: seq<Call>)
    ensures StepsOf(a + b) == StepsOf(a) + StepsOf(b)
    decreases |a|
  {
    if a == [] {
      assert a + b == b;
    } else {
      var ab := a + b;
      assert ab[0] == a[0];
      assert ab[1..] == a[1..] + b;
      StepsOfAppend(a[1..], b);
      assert StepsOf(ab) == StepHead(a[0]) + StepsOf(ab[1..]);
      assert StepsOf(a) == StepHead(a[0]) + StepsOf(a[1..]);
    }
  }

  /** The first `n` step calls perform the first `n` steps of `Order`. */
  lemma {:induction false} StepsOfStepCalls(s: Store, c: Company, authID: PkgEntityUser.UserID, h: nat, n: nat)
    requires n <= |Order|
    ensures StepsOf(StepCalls(s, c, authID, h)[..n]) == Order[..n]
    decreases n
  {
    var calls := StepCalls(s, c, authID, h);
    if n > 0 {
      assert calls[..n] == calls[..n - 1] + [calls[n - 1]];
      StepsOfAppend(calls[..n - 1], [calls[n - 1]]);
      StepsOfStepCalls(s, c, authID, h, n - 1);
      assert StepsOf([calls[n - 1]]) == [Order[n - 1]];
      assert Order[..n] == Order[..n - 1] + [Order[n - 1]];
    }
  }

  /** Framing a log with `Begin` and a final `Rollback` or `Commit` adds no step. */
  lemma StepsOfFramed(body: seq<Call>, last: Call)
    requires StepOf(last).None?
    ensures StepsOf([Begin] + body + [last]) == StepsOf(body)
  {
    StepsOfAppend([Begin], body);
    StepsOfAppend([Begin] + body, [last]);
    assert StepsOf([last]) == [] + StepsOf([]);
    assert StepsOf([Begin]) == [] + StepsOf([]);
  }

  /** Step ordering, and nothing done after a failure: a run performs the steps of `Order`
      in that order, up to and including the first one that fails, and no further. */
  lemma StepsRunInOrderUpToFailure(c: Company, authID: PkgEntityUser.UserID, failBegin: bool,
                                   failing: map<Step, Error>, s: Store, h: nat)
    ensures var steps := StepsOf(ExpectedLog(c, authID, failBegin, failing, s, h));
            && (PkgEntityCompany.Validate(c).Some? || failBegin ==> steps == [])
            && (PkgEntityCompany.Validate(c).None? && !failBegin && FirstFailure(failing) < |Order| ==>
                  steps == Order[..FirstFailure(failing) + 1])
            && (PkgEntityCompany.Validate(c).None? && !failBegin && FirstFailure(failing) == |Order| ==>
                  steps == Order)
  {
    var k := FirstFailure(failing);
    var calls := StepCalls(s, c, authID, h);
    if PkgEntityCompany.Validate(c).None? && !failBegin {
      if k < |Order| {
        StepsOfStepCalls(s, c, authID, h, k + 1);
        StepsOfFramed(calls[..k + 1], Rollback(h + k + 1));
      } else {
        StepsOfStepCalls(s, c, authID, h, 4);
        assert calls[..4] == calls;
        StepsOfFramed(calls, Commit(h + 4));
      }
    } else if failBegin && PkgEntityCompany.Validate(c).None? {
      assert StepsOf([Begin]) == [] + StepsOf([]);
    }
  }

  /** A run begins a transaction before anything else, and ends it at most once: by rolling
      back or by committing, never both, and as its last call. A run that passed validation
      and opened its transaction ends it exactly once; one whose `Begin` failed does nothing
      more. */
  lemma RollbackAndCommitNeverBoth(c: Company, authID: PkgEntityUser.UserID, failBegin: bool,
                                   failing: map<Step, Error>, s: Store, h: nat)
    ensures var L := ExpectedLog(c, authID, failBegin, failing, s, h);
            && (|L| > 0 ==> L[0] == Begin)
            && (forall i, j | 0 <= i < |L| && 0 <= j < |L| :: !(L[i].Rollback? && L[j].Commit?))
            && (forall i | 0 <= i < |L| && (L[i].Rollback? || L[i].Commit?) :: i == |L| - 1)
            && (PkgEntityCompany.Validate(c).None? && !failBegin ==> L[|L| - 1].Rollback? || L[|L| - 1].Commit?)
            && (PkgEntityCompany.Validate(c).None? && failBegin ==> L == [Begin])
  {
  }

  /** Each call after `Begin` is given the transaction handed out by the call just before it,
      so every step, and the final `Rollback` or `Commit`, works on the latest `Tx`. */
  lemma EachCallGetsThePreviousTx(c: Company, authID: PkgEntityUser.UserID, failBegin: bool,
                                  failing: map<Step, Error>, s: Store, h: nat)
    ensures var L := ExpectedLog(c, authID, failBegin, failing, s, h);
            forall i | 0 < i < |L| :: !L[i].Begin? && L[i].tx == h + i - 1
  {
  }

  /** On a failure, the call rolled back is the failing step's own `Tx`, right after it. */
  lemma RollbackFollowsFailingStep(c: Company, authID: PkgEntityUser.UserID, failBegin: bool,
                                   failing: map<Step, Error>, s: Store, h: nat)
    requires PkgEntityCompany.Validate(c).None? && !failBegin && FirstFailure(failing) < |Order|
    ensures var L := ExpectedLog(c, authID, failBegin, failing, s, h);
            var k := FirstFailure(failing);
            && |L| == k + 3
            && StepOf(L[k + 1]) == Some(Order[k])
            && L[k + 2] == Rollback(h + k + 1)
            && ExpectedResult(c, authID, failBegin, failing, s) == Err(failing[Order[k]])
  {
  }

  /** The employee and role-assignment steps use the identifier of the company the first
      step created and the caller's `authID`; the role created is that company's
      administrator role, and the role assigned is the one created. */
  lemma StepsUseCreatedIdentifiers(c: Company, authID: PkgEntityUser.UserID, failBegin: bool,
                                   failing: map<Step, Error>, s: Store, h: nat)
    ensures var L := ExpectedLog(c, authID, failBegin, failing, s, h);
            var company := CreatedCompany(s, c);
            forall i | 0 <= i < |L| ::
              && (L[i].CompanyCreateTx? ==> L[i].company == c)
              && (L[i].CompanyAddEmployeeTx? ==> L[i].companyID == company.id && L[i].userID == authID)
              && (L[i].RoleCreateTx? ==> L[i].role == PkgEntityRole.NewRoleAdmin(company))
              && (L[i].EmployeeAddRoleTx? ==> L[i].companyID == company.id && L[i].userID == authID
                                               && L[i].roleID == CreatedRole(s, company).id)
    ensures var r := ExpectedResult(c, authID, failBegin, failing, s);
            r.Ok? ==> r.value == CreatedCompany(s, c) && r.value.name == c.name
  {
  }

  /** A validation failure is returned as it is and nothing is called; a `Begin` failure is
      returned wrapped, and no step and no `Rollback` follow. */
  lemma GuardsComeFirst(c: Company, authID: PkgEntityUser.UserID, failBegin: bool,
                        failing: map<Step, Error>, failCommit: bool, s: Store, h: nat)
    ensures PkgEntityCompany.Validate(c).Some? ==>
              && ExpectedLog(c, authID, failBegin, failing, s, h) == []
              && ExpectedResult(c, authID, failBegin, failing, s) == Err(PkgEntityCompany.Validate(c).value)
    ensures PkgEntityCompany.Validate(c).None? && failBegin ==>
              && ExpectedLog(c, authID, failBegin, failing, s, h) == [Begin]
              && ExpectedResult(c, authID, failBegin, failing, s) == Err(Wrapped(Backend(BeginFault)))
    ensures PkgEntityCompany.Validate(c).Some? || failBegin ==>
              ExpectedCommitted(c, authID, failBegin, failing, failCommit, s) == s
  {
  }

  /** A run that fails leaves the committed store as it was. */
  lemma FailureLeavesStoreUnchanged(c: Company, authID: PkgEntityUser.UserID, failBegin: bool,
                                    failing: map<Step, Error>, failCommit: bool, s: Store)
    ensures ExpectedResult(c, authID, failBegin, failing, s).Err? ==>
              ExpectedCommitted(c, authID, failBegin, failing, failCommit, s) == s
    ensures ExpectedResultChecked(c, authID, failBegin, failing, failCommit, s).Err? ==>
              ExpectedCommitted(c, authID, failBegin, failing, failCommit, s) == s
  {
  }

  /** A full run adds exactly one row to each table: the company under a new identifier,
      the caller as its employee, its administrator role, and that role given to the
      caller. */
  lemma ProvisionedAddsOneRowEach(s: Store, c: Company, authID: PkgEntityUser.UserID)
    ensures var t := Provisioned(s, c, authID);
            var company := CreatedCompany(s, c);
            && t.companies == s.companies + [company] && company.name == c.name && company.id == |s.companies| + 1
            && t.employees == s.employees + [(company.id, authID)]
            && |t.roles| == |s.roles| + 1 && t.roles[|s.roles|] == PkgEntityRole.NewRoleAdmin(company).(id := |s.roles| + 1)
            && t.assignments == s.assignments + [(company.id, authID, t.roles[|s.roles|].id)]
  {
  }

  /** With `Commit`'s error checked, success is reported exactly when the company was stored,
      and the company reported is the one stored. */
  lemma CheckedOkIffStored(c: Company, authID: PkgEntityUser.UserID, failBegin: bool,
                           failing: map<Step, Error>, failCommit: bool, s: Store)
    ensures var r := ExpectedResultChecked(c, authID, failBegin, failing, failCommit, s);
            var t := ExpectedCommitted(c, authID, failBegin, failing, failCommit, s);
            && (r.Ok? <==> t == Provisioned(s, c, authID))
            && (r.Ok? ==> r.value == t.companies[|t.companies| - 1] && |t.companies| == |s.companies| + 1)
  {
    var t := ExpectedCommitted(c, authID, failBegin, failing, failCommit, s);
    if t == Provisioned(s, c, authID) {
      assert |t.companies| == |s.companies| + 1;
    }
  }

  /** As written, a failed `Commit` still yields success: the company is reported although
      nothing was stored. */
  lemma AsWrittenReportsUnstoredCompany(c: Company, authID: PkgEntityUser.UserID, failing: map<Step, Error>, s: Store)
    requires PkgEntityCompany.Validate(c).None? && FirstFailure(failing) == |Order|
    ensures ExpectedResult(c, authID, false, failing, s).Ok?
    ensures ExpectedCommitted(c, authID, false, failing, true, s) == s
    ensures ExpectedResultChecked(c, authID, false, failing, true, s) == Err(Backend(CommitFault))
  {
  }

  /** The runs of `Create` and `CreateChecked` on the same repository differ only when the
      commit fails, and then only in the result. */
  lemma CheckedDiffersOnlyOnCommitFailure(c: Company, authID: PkgEntityUser.UserID, failBegin: bool,
                                          failing: map<Step, Error>, failCommit: bool, s: Store)
    ensures !failCommit ==> ExpectedResultChecked(c, authID, failBegin, failing, failCommit, s)
                            == ExpectedResult(c, authID, failBegin, failing, s)
    ensures ExpectedResult(c, authID, failBegin, failing, s).Err? ==>
              ExpectedResultChecked(c, authID, failBegin, failing, failCommit, s) == ExpectedResult(c, authID, failBegin, failing, s)
  {
  }

  /** On an empty store whose commit fails, `Create` as written reports a company that the
      store does not hold. */
  method CommitFailureReportsSuccess() returns (r: Result<Company>, stored: Store)
    ensures r == Ok(PkgEntityCompany.Company(1, [0x61]))
    ensures stored == EmptyStore
  {
    var repository := new Repository(EmptyStore, false, map[], true);
    var service := new CompanyService.NewCompany(repository);
    r := service.Create(PkgEntityCompany.NewCompany([0x61]), 7);
    stored := repository.committed;
  }

  /** On the same repository, `CreateChecked` reports the commit's error. */
  method CommitFailureReportedWhenChecked() returns (r: Result<Company>, stored: Store)
    ensures r == Err(Backend(CommitFault))
    ensures stored == EmptyStore
  {
    var repository := new Repository(EmptyStore, false, map[], true);
    var service := new CompanyService.NewCompany(repository);
    r := service.CreateChecked(PkgEntityCompany.NewCompany([0x61]), 7);
    stored := repository.committed;
  }

  /** On an empty store without failures, a run stores company 1, its employee 7, role 1 and
      the assignment, and logs the six calls of the protocol. */
  method ProvisioningScenario() returns (r: Result<Company>, stored: Store, log: seq<Call>)
    ensures r == Ok(PkgEntityCompany.Company(1, [0x61]))
    ensures stored.companies == [PkgEntityCompany.Company(1, [0x61])] && stored.employees == [(1, 7)]
    ensures stored.roles == [PkgEntityRole.Role(PkgEntityCompany.Company(1, [0x61]), 1, PkgEntityRole.AdminName)]
    ensures stored.assignments == [(1, 7, 1)]
    ensures log == [Begin, CompanyCreateTx(PkgEntityCompany.Company(0, [0x61]), 0), CompanyAddEmployeeTx(1, 7, 1),
                    RoleCreateTx(PkgEntityRole.Role(PkgEntityCompany.Company(1, [0x61]), 0, PkgEntityRole.AdminName), 2),
                    EmployeeAddRoleTx(1, 7, 1, 3), Commit(4)]
  {
    var repository := new Repository(EmptyStore, false, map[], false);
    var service := new CompanyService.NewCompany(repository);
    r := service.Create(PkgEntityCompany.NewCompany([0x61]), 7);
    stored, log := repository.committed, repository.log;
  }
}
