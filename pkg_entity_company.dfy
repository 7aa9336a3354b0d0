/** src/pkg/entity/company.go: the company entity of the `entity` package. */
module PkgEntityCompany {
  import opened Base

  type CompanyID = int

  datatype Company = Company(id: CompanyID, name: GoString)

  /** `NewCompany`: a company not yet stored. */
  function NewCompany(name: GoString): (c: Company)
    ensures c.id == 0 && c.name == name
  {
    Company(0, name)
  }

  /** `Company.Validate`: `None` is Go's nil error. */
  function Validate(c: Company): (err: Option<Error>)
    ensures err.None? <==> |c.name| > 0
    ensures err.Some? ==> err.value == Invalid(NameField)
  {
    if |c.name| == 0 then Some(Invalid(NameField)) else None
  }

  /** The identifier plays no part in validation. */
  lemma ValidateIgnoresID(c: Company, id: CompanyID)
    ensures Validate(c.(id := id)) == Validate(c)
    ensures Validate(NewCompany(c.name)) == Validate(c)
  {
  }
}
