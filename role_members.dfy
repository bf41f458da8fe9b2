/** Role membership (backend/app/app/use_case/role/role_member.py): the graph of members read
    from the catalog, and granting or revoking one membership in its own transaction. */
module RoleMembers {
  import opened Outcomes
  import opened Session
  import opened Digraphs
  import opened RoleRecords
  import opened GraphPermissions

  /** A row of pg_auth_members: member belongs to the group role roleid. */
  datatype AuthMember = AuthMember(roleid: int, member: int)

  /** RoleGroupDTO. */
  datatype RoleGroup = RoleGroup(nodes: seq<RoleGroupNode>, edges: seq<RoleGroupEdge>)

  /** _pg_role_links: an edge from the group (from_oid = roleid) to its member (to_oid). */
  function RoleLink(m: AuthMember): (e: RoleGroupEdge)
    ensures e.fromOid == m.roleid && e.toOid == m.member
  {
    RoleGroupEdge(m.roleid, m.member)
  }

  /** get_graph_of_members: every role as a node and every membership row as an edge, in the
      order the catalog returns them. */
  function GraphOfMembers(roles: seq<RoleGroupNode>, links: seq<AuthMember>): (r: RoleGroup)
    ensures r.nodes == roles
    ensures |r.edges| == |links|
    ensures forall i :: 0 <= i < |links| ==> r.edges[i] == RoleLink(links[i])
  {
    RoleGroup(roles, seq(|links|, i requires 0 <= i < |links| => RoleLink(links[i])))
  }

  /** In the membership graph built from these edges, each member is a child of its group
      role, so the closure of a group reaches its members. */
  lemma MembersAreChildren(roles: seq<RoleGroupNode>, links: seq<AuthMember>, i: nat)
    requires i < |links|
    ensures var graph := MembershipGraph(GraphOfMembers(roles, links).edges);
      links[i].roleid in graph && links[i].member in graph[links[i].roleid]
  {
    var edges := GraphOfMembers(roles, links).edges;
    var pairs := EdgePairs(edges);
    assert pairs[i] == (links[i].roleid, links[i].member);
    EdgeListVertices(pairs);
    EdgeListTargets(pairs);
    TargetsHaveEdge(pairs, i);
  }

  // -------------------------------------------------------------- statements

  /** The first FORMAT argument of _revoke_member_from_role. */
  function AdminOptionFor(adminOption: bool): (r: string)
    ensures r == "" <==> !adminOption
    ensures adminOption ==> r == "ADMIN OPTION FOR"
  {
    if adminOption then "ADMIN OPTION FOR" else ""
  }

  /** The last FORMAT argument of _grant_member_to_role. */
  function WithAdminOption(adminOption: bool): (r: string)
    ensures r == "" <==> !adminOption
    ensures adminOption ==> r == "WITH ADMIN OPTION"
  {
    if adminOption then "WITH ADMIN OPTION" else ""
  }

  /** remove_member_from_role: one revoke in its own transaction, never of the admin option
      alone, so the membership itself is revoked. */
  method RemoveMemberFromRole(conn: Connection, dbuser: string, member: string) returns (out: Outcome)
    modifies conn
    ensures var s := RevokeMember(AdminOptionFor(false), dbuser, member);
      conn.trace == old(conn.trace) + TxnEvents(|old(conn.trace)|, s, conn.failAt) &&
      out == if TxnSlot(|old(conn.trace)|, 0) !in conn.failAt then Done else Raised(DatabaseError)
  {
    var ok := InTransaction(conn, RevokeMember(AdminOptionFor(false), dbuser, member));
    out := if ok then Done else Raised(DatabaseError);
  }

  /** append_member_to_role: one grant in its own transaction, WITH ADMIN OPTION exactly when
      grantWithAdminOption (the GRANT_WITH_ADMIN_OPTION setting) is on. */
  method AppendMemberToRole(conn: Connection, dbuser: string, member: string, grantWithAdminOption: bool)
    returns (out: Outcome)
    modifies conn
    ensures var s := GrantMember(dbuser, member, WithAdminOption(grantWithAdminOption));
      conn.trace == old(conn.trace) + TxnEvents(|old(conn.trace)|, s, conn.failAt) &&
      out == if TxnSlot(|old(conn.trace)|, 0) !in conn.failAt then Done else Raised(DatabaseError)
  {
    var ok := InTransaction(conn, GrantMember(dbuser, member, WithAdminOption(grantWithAdminOption)));
    out := if ok then Done else Raised(DatabaseError);
  }

  /** What the two procedures issue: the group first and the member second, with an empty
      admin-option argument on the revoke and the setting's choice on the grant. */
  lemma MembershipStatements(t0: nat, dbuser: string, member: string, grantWithAdminOption: bool, failAt: set<nat>)
    ensures Statements(TxnEvents(t0, RevokeMember(AdminOptionFor(false), dbuser, member), failAt)) ==
      [RevokeMember("", dbuser, member)]
    ensures var s := GrantMember(dbuser, member, WithAdminOption(grantWithAdminOption));
      Statements(TxnEvents(t0, s, failAt)) == [s] &&
      (s.adminOption == "WITH ADMIN OPTION" <==> grantWithAdminOption)
  {
    TxnStatements(t0, RevokeMember(AdminOptionFor(false), dbuser, member), failAt);
    TxnStatements(t0, GrantMember(dbuser, member, WithAdminOption(grantWithAdminOption)), failAt);
  }
}
