/** The role records the use cases read from the catalog (backend/app/app/use_case/role/role_dto.py). */
module RoleRecords {

  /** A row of pg_roles as the core sees it. */
  datatype Role = Role(
    oid: int,
    rolname: string,
    rolsuper: bool,
    rolcreaterole: bool,
    rolcreatedb: bool,
    rolinherit: bool,
    rolcanlogin: bool)

  /** A membership: the group role fromOid has the member toOid. */
  datatype RoleGroupEdge = RoleGroupEdge(fromOid: int, toOid: int)

  datatype RoleGroupNode = RoleGroupNode(oid: int, rolname: string)
}
