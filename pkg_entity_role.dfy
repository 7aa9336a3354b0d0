/** src/pkg/entity/role.go: the role entity and the administrator role a new company gets. */
module PkgEntityRole {
  import opened Base
  import PkgEntityCompany

  type RoleID = int

  /** `Role`; the `*Company` pointer is held as the company's value. */
  datatype Role = Role(company: PkgEntityCompany.Company, id: RoleID, name: GoString)

  /** "管理者" ("administrator") in UTF-8. */
  const AdminName: GoString := [0xE7, 0xAE, 0xA1, 0xE7, 0x90, 0x86, 0xE8, 0x80, 0x85]

  /** `NewRoleAdmin`: the administrator role of `company`, not yet stored. */
  function NewRoleAdmin(company: PkgEntityCompany.Company): (r: Role)
    ensures r.company == company && r.id == 0 && r.name == AdminName
    ensures |r.name| == 9
  {
    Role(company, 0, AdminName)
  }
}
