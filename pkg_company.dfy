/** src/pkg/company/company.go: the company of the `company` package, owned by a user. */
module PkgCompany {
  import opened Base
  import PkgUser

  type ID = int

  /** `OwnerID` is the user package's `ID`. */
  type OwnerID = PkgUser.ID

  type Name = GoString

  /** `Name.valid`: between 1 and 255 bytes. */
  predicate ValidName(n: Name)
  {
    0 < |n| < 256
  }

  datatype Company = Company(id: ID, name: Name, ownerID: OwnerID, updatedAt: Time)

  /** `New`: a company not yet stored. */
  function New(name: Name, owner: OwnerID): (c: Company)
    ensures c.id == 0 && c.updatedAt == ZeroTime
    ensures c.name == name && c.ownerID == owner
  {
    Company(0, name, owner, ZeroTime)
  }

  /** `Company.validCreate`: a valid name and a valid owner (`user.ID.Valid`). */
  predicate ValidCreate(c: Company)
  {
    ValidName(c.name) && PkgUser.ValidID(c.ownerID)
  }

  /** A company built by `New` may be created exactly when its name has 1 to 255 bytes and
      its owner id is positive, for every name and owner. */
  lemma NewValidCreateIff(n: Name, owner: OwnerID)
    ensures ValidCreate(New(n, owner)) <==> 0 < |n| < 256 && owner > 0
  {
  }

  /** `validCreate` reads only the name and the owner: the id and the update time play no
      part. */
  lemma ValidCreateReadsNameAndOwner(c: Company, d: Company)
    requires c.name == d.name && c.ownerID == d.ownerID
    ensures ValidCreate(c) == ValidCreate(d)
  {
  }
}
