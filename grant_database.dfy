/** Granting and revoking database privileges (privilege_grant_database.py): on one
    database, with the deep revoke. */
module DatabaseGrants {
  import opened Outcomes
  import opened Collections
  import opened Session
  import opened GrantCommon

  /** The three check boxes of a database grant. */
  datatype DatabasePrivileges = DatabasePrivileges(create: bool, temporary: bool, connect: bool)

  datatype DatabaseGrant = DatabaseGrant(
    roleSpecification: string, withGrantOption: bool, name: string, privileges: DatabasePrivileges)

  /** The keyword table, in its fixed order. */
  const DatabaseKeywords: seq<string> := ["CREATE", "CONNECT", "TEMPORARY"]

  function Flags(p: DatabasePrivileges): (r: seq<bool>)
    ensures |r| == |DatabaseKeywords|
  {
    [p.create, p.connect, p.temporary]
  }

  /** _calc_grant_options: the checked keywords, in table order and each once; nothing
      exactly when no box is checked. */
  function GrantOptions(p: DatabasePrivileges): (r: seq<string>)
    ensures InOrder(r, DatabaseKeywords) && NoDup(r)
    ensures r == [] <==> true !in Flags(p)
  {
    NothingChecked(DatabaseKeywords, Flags(p));
    Checked(DatabaseKeywords, Flags(p), true)
  }

  /** _calc_revoke_options: every keyword with all, otherwise the unchecked ones. */
  function RevokeOptions(p: DatabasePrivileges, all: bool): (r: seq<string>)
    ensures all ==> r == DatabaseKeywords
  {
    if all then DatabaseKeywords else Checked(DatabaseKeywords, Flags(p), false)
  }

  /** The grant list holds exactly the checked keywords, and the revoke list (without all)
      exactly the unchecked ones, in table order; the two split the table. */
  lemma OptionsExact(p: DatabasePrivileges)
    ensures ("CREATE" in GrantOptions(p) <==> p.create) && ("CONNECT" in GrantOptions(p) <==> p.connect) &&
            ("TEMPORARY" in GrantOptions(p) <==> p.temporary)
    ensures ("CREATE" in RevokeOptions(p, false) <==> !p.create) && ("CONNECT" in RevokeOptions(p, false) <==> !p.connect) &&
            ("TEMPORARY" in RevokeOptions(p, false) <==> !p.temporary)
    ensures InOrder(GrantOptions(p), DatabaseKeywords) && InOrder(RevokeOptions(p, false), DatabaseKeywords)
    ensures ToSet(GrantOptions(p)) * ToSet(RevokeOptions(p, false)) == {}
    ensures ToSet(GrantOptions(p)) + ToSet(RevokeOptions(p, false)) == ToSet(DatabaseKeywords)
  {
    var f := Flags(p);
    CheckedAt(DatabaseKeywords, f, true, 0);
    CheckedAt(DatabaseKeywords, f, true, 1);
    CheckedAt(DatabaseKeywords, f, true, 2);
    CheckedAt(DatabaseKeywords, f, false, 0);
    CheckedAt(DatabaseKeywords, f, false, 1);
    CheckedAt(DatabaseKeywords, f, false, 2);
    OptionsPartition(DatabaseKeywords, f);
  }

  /** _grant_database_permissions. */
  function GrantDatabaseIssues(payload: DatabaseGrant): (r: seq<Statement>)
    ensures r == [] <==> GrantOptions(payload.privileges) == []
    ensures |r| <= 1
    ensures r != [] ==> r == [GrantDatabase(GrantOptions(payload.privileges), payload.name,
      payload.roleSpecification, GrantOptionParam(payload.withGrantOption))]
  {
    var options := GrantOptions(payload.privileges);
    IssuedIf(options, GrantDatabase(options, payload.name, payload.roleSpecification, GrantOptionParam(payload.withGrantOption)))
  }

  /** The statement of _revoke_database_permissions, executed as grantor. */
  function RevokeDatabaseAs(payload: DatabaseGrant, grantor: Option<string>): (r: Statement)
    ensures r.RevokeDatabase? && r == RevokeDatabase(r.grantor, DatabaseKeywords, payload.name, payload.roleSpecification)
    ensures Truthy(grantor) ==> r.grantor == "\"" + grantor.value + "\""
    ensures !Truthy(grantor) ==> r.grantor == "NONE"
  {
    RevokeDatabase(GrantorParam(grantor), RevokeOptions(payload.privileges, true), payload.name, payload.roleSpecification)
  }

  function DatabaseRevoker(payload: DatabaseGrant): Option<string> -> Statement {
    grantor => RevokeDatabaseAs(payload, grantor)
  }

  /** Every database revoke revokes all three privileges, so its emptiness guard never
      fires: it issues exactly one statement, as NONE or as the quoted grantor. */
  lemma RevokeDatabaseIssues(payload: DatabaseGrant, grantor: Option<string>)
    ensures IssuedIf(RevokeOptions(payload.privileges, true), RevokeDatabaseAs(payload, grantor))
      == [RevokeDatabase(GrantorParam(grantor), ["CREATE", "CONNECT", "TEMPORARY"], payload.name, payload.roleSpecification)]
    ensures grantor == None ==> RevokeDatabaseAs(payload, grantor).grantor == "NONE"
  {
  }

  /** grant_on_database: reset revoke as NONE, deep revoke as each grantor of the database's
      ACL (when deepRevoke, the DEEP_REVOKE setting, is on), grant, DoneWithErrors(database). */
  method GrantOnDatabase(conn: Connection, payload: DatabaseGrant, deepRevoke: bool, databaseAcl: seq<string>)
    returns (out: Outcome)
    modifies conn
    ensures var run := DeepGrantRun(|old(conn.trace)|, DatabaseRevoker(payload), GrantDatabaseIssues(payload), deepRevoke,
                                    databaseAcl, payload.roleSpecification, payload.name, conn.failAt);
      conn.trace == old(conn.trace) + run.events && out == run.outcome
  {
    out := DeepGrant(conn, DatabaseRevoker(payload), GrantDatabaseIssues(payload), deepRevoke, databaseAcl,
                     payload.roleSpecification, payload.name);
  }

  /** With no box checked the grant step issues nothing, while the reset revoke and the deep
      revokes still run: the statements are the reset revoke and one revoke per grantor. */
  lemma NothingCheckedOnlyRevokes(t0: nat, payload: DatabaseGrant, deepRevoke: bool, databaseAcl: seq<string>,
                                  failAt: set<nat>)
    requires !payload.privileges.create && !payload.privileges.connect && !payload.privileges.temporary
    requires TxnSlot(t0, 0) !in failAt && DeepGrantors(deepRevoke, databaseAcl, payload.roleSpecification).Ok?
    ensures var grantors := DeepGrantors(deepRevoke, databaseAcl, payload.roleSpecification).value;
      var run := DeepGrantRun(t0, DatabaseRevoker(payload), GrantDatabaseIssues(payload), deepRevoke,
                              databaseAcl, payload.roleSpecification, payload.name, failAt);
      Statements(run.events) == [RevokeDatabaseAs(payload, None)] + Impersonations(DatabaseRevoker(payload), grantors)
  {
    OptionsExact(payload.privileges);
    var grant := GrantDatabaseIssues(payload);
    assert grant == [];
    var grantors := DeepGrantors(deepRevoke, databaseAcl, payload.roleSpecification).value;
    var t2 := t0 + 3 + 3 * |grantors|;
    assert TransactionOk(t2, grant, failAt);
    DeepGrantStatements(t0, DatabaseRevoker(payload), grant, grantors, payload.name, failAt);
    assert DatabaseRevoker(payload)(None) == RevokeDatabaseAs(payload, None);
    var imp := Impersonations(DatabaseRevoker(payload), grantors);
    assert [RevokeDatabaseAs(payload, None)] + imp + grant == [RevokeDatabaseAs(payload, None)] + imp;
  }
}
