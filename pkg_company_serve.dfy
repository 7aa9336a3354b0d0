/** src/pkg/company/serve.go: the company server. Its guards are `Company.validCreate` and
    the positivity of the company identifier; past them the repository's answer is returned
    exactly as given. */
module PkgCompanyServe {
  import opened Base
  import PkgCompany

  type Company = PkgCompany.Company

  /** The `Repository` interface, as the answers it gives. */
  datatype Repository = Repository(
    companyCreate: Company -> Result<Company>,
    companyRead: PkgCompany.ID -> Result<Company>)

  datatype Call = CompanyCreate(c: Company) | CompanyRead(id: PkgCompany.ID)

  /** `ID.Valid` on a company identifier: a stored company has a positive id. */
  predicate ValidID(id: PkgCompany.ID)
  {
    id > 0
  }

  /** `server.Create`. */
  function Create(repo: Repository, c: Company): (t: Traced<Result<Company>, Call>)
    ensures !PkgCompany.ValidCreate(c) ==> t == Traced(Err(Invalid(CompanyField)), [])
    ensures PkgCompany.ValidCreate(c) ==> t.result == repo.companyCreate(c) && t.calls == [CompanyCreate(c)]
  {
    if !PkgCompany.ValidCreate(c) then Traced(Err(Invalid(CompanyField)), [])
    else Traced(repo.companyCreate(c), [CompanyCreate(c)])
  }

  /** `server.Read`. */
  function Read(repo: Repository, id: PkgCompany.ID): (t: Traced<Result<Company>, Call>)
    ensures !ValidID(id) ==> t == Traced(Err(Invalid(IDField)), [])
    ensures ValidID(id) ==> t.result == repo.companyRead(id) && t.calls == [CompanyRead(id)]
  {
    if !ValidID(id) then Traced(Err(Invalid(IDField)), [])
    else Traced(repo.companyRead(id), [CompanyRead(id)])
  }

  /** The repository is reached exactly when the name has 1 to 255 bytes and the owner id is
      positive, or when the company id is positive; a rejected input gets the same error
      whatever the repository would have answered. */
  lemma GuardsDecideTheCall(r1: Repository, r2: Repository, c: Company, id: PkgCompany.ID)
    ensures |Create(r1, c).calls| == 1 <==> 0 < |c.name| < 256 && c.ownerID > 0
    ensures |Read(r1, id).calls| == 1 <==> id > 0
    ensures !PkgCompany.ValidCreate(c) ==> Create(r1, c) == Create(r2, c)
    ensures id <= 0 ==> Read(r1, id) == Read(r2, id)
  {
  }
}
