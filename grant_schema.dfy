/** Granting and revoking schema privileges (privilege_grant_schema.py): on every user
    schema of the database, and on one schema with the deep revoke. */
module SchemaGrants {
  import opened Outcomes
  import opened Collections
  import opened Session
  import opened GrantCommon

  /** The two check boxes of a schema grant. */
  datatype SchemaPrivileges = SchemaPrivileges(create: bool, usage: bool)

  datatype SchemasInDatabaseGrant = SchemasInDatabaseGrant(
    roleSpecification: string, withGrantOption: bool, database: string, privileges: SchemaPrivileges)

  datatype SchemaGrant = SchemaGrant(
    roleSpecification: string, withGrantOption: bool, name: string, database: string, privileges: SchemaPrivileges)

  /** The keyword table, in its fixed order. */
  const SchemaKeywords: seq<string> := ["CREATE", "USAGE"]

  function Flags(p: SchemaPrivileges): (r: seq<bool>)
    ensures |r| == |SchemaKeywords|
  {
    [p.create, p.usage]
  }

  /** _calc_grant_options: the checked keywords, in table order and each once; nothing
      exactly when no box is checked. */
  function GrantOptions(p: SchemaPrivileges): (r: seq<string>)
    ensures InOrder(r, SchemaKeywords) && NoDup(r)
    ensures r == [] <==> true !in Flags(p)
  {
    NothingChecked(SchemaKeywords, Flags(p));
    Checked(SchemaKeywords, Flags(p), true)
  }

  /** _calc_revoke_options: both keywords with all, otherwise the unchecked ones. */
  function RevokeOptions(p: SchemaPrivileges, all: bool): (r: seq<string>)
    ensures all ==> r == SchemaKeywords
  {
    if all then SchemaKeywords else Checked(SchemaKeywords, Flags(p), false)
  }

  /** The grant list holds exactly the checked keywords, and the revoke list (without all)
      exactly the unchecked ones, in table order; the two split the table. */
  lemma OptionsExact(p: SchemaPrivileges)
    ensures ("CREATE" in GrantOptions(p) <==> p.create) && ("USAGE" in GrantOptions(p) <==> p.usage)
    ensures ("CREATE" in RevokeOptions(p, false) <==> !p.create) && ("USAGE" in RevokeOptions(p, false) <==> !p.usage)
    ensures InOrder(GrantOptions(p), SchemaKeywords) && InOrder(RevokeOptions(p, false), SchemaKeywords)
    ensures ToSet(GrantOptions(p)) * ToSet(RevokeOptions(p, false)) == {}
    ensures ToSet(GrantOptions(p)) + ToSet(RevokeOptions(p, false)) == ToSet(SchemaKeywords)
  {
    var f := Flags(p);
    CheckedAt(SchemaKeywords, f, true, 0);
    CheckedAt(SchemaKeywords, f, true, 1);
    CheckedAt(SchemaKeywords, f, false, 0);
    CheckedAt(SchemaKeywords, f, false, 1);
    OptionsPartition(SchemaKeywords, f);
  }

  /** _grant_schemas_in_database_permissions. */
  function GrantSchemasInDatabaseIssues(payload: SchemasInDatabaseGrant): (r: seq<Statement>)
    ensures r == [] <==> GrantOptions(payload.privileges) == []
    ensures r != [] ==> r == [GrantSchemasInDatabase(GrantOptions(payload.privileges), payload.roleSpecification,
      GrantOptionParam(payload.withGrantOption))]
  {
    var options := GrantOptions(payload.privileges);
    IssuedIf(options, GrantSchemasInDatabase(options, payload.roleSpecification, GrantOptionParam(payload.withGrantOption)))
  }

  /** _revoke_schemas_in_database_permissions. */
  function RevokeSchemasInDatabaseIssues(payload: SchemasInDatabaseGrant): (r: seq<Statement>)
    ensures r == [] <==> RevokeOptions(payload.privileges, false) == []
    ensures r != [] ==> r == [RevokeSchemasInDatabase(RevokeOptions(payload.privileges, false),
      payload.roleSpecification)]
  {
    var options := RevokeOptions(payload.privileges, false);
    IssuedIf(options, RevokeSchemasInDatabase(options, payload.roleSpecification))
  }

  /** _grant_schema_permissions. */
  function GrantSchemaIssues(payload: SchemaGrant): (r: seq<Statement>)
    ensures r == [] <==> GrantOptions(payload.privileges) == []
    ensures |r| <= 1
    ensures r != [] ==> r == [GrantSchema(GrantOptions(payload.privileges), payload.name, payload.roleSpecification,
      GrantOptionParam(payload.withGrantOption))]
  {
    var options := GrantOptions(payload.privileges);
    IssuedIf(options, GrantSchema(options, payload.name, payload.roleSpecification, GrantOptionParam(payload.withGrantOption)))
  }

  /** The statement of _revoke_schema_permissions, executed as grantor. */
  function RevokeSchemaAs(payload: SchemaGrant, grantor: Option<string>): (r: Statement)
    ensures r.RevokeSchema? && r == RevokeSchema(r.grantor, SchemaKeywords, payload.name, payload.roleSpecification)
    ensures Truthy(grantor) ==> r.grantor == "\"" + grantor.value + "\""
    ensures !Truthy(grantor) ==> r.grantor == "NONE"
  {
    RevokeSchema(GrantorParam(grantor), RevokeOptions(payload.privileges, true), payload.name, payload.roleSpecification)
  }

  function SchemaRevoker(payload: SchemaGrant): Option<string> -> Statement {
    grantor => RevokeSchemaAs(payload, grantor)
  }

  /** _revoke_schema_permissions always revokes both privileges, so its emptiness guard never
      fires: it issues exactly one statement, as NONE or as the quoted grantor. */
  lemma RevokeSchemaIssues(payload: SchemaGrant, grantor: Option<string>)
    ensures IssuedIf(RevokeOptions(payload.privileges, true), RevokeSchemaAs(payload, grantor))
      == [RevokeSchema(GrantorParam(grantor), ["CREATE", "USAGE"], payload.name, payload.roleSpecification)]
    ensures grantor == None ==> RevokeSchemaAs(payload, grantor).grantor == "NONE"
  {
  }

  /** grant_all_schemas_in_database: one transaction with the revoke of the unchecked and the
      grant of the checked privileges, and no deep revoke. */
  function SchemasInDatabaseStatements(payload: SchemasInDatabaseGrant): seq<Statement> {
    RevokeSchemasInDatabaseIssues(payload) + GrantSchemasInDatabaseIssues(payload)
  }

  method GrantAllSchemasInDatabase(conn: Connection, payload: SchemasInDatabaseGrant) returns (out: Outcome)
    modifies conn
    ensures conn.trace == old(conn.trace) + TransactionEvents(|old(conn.trace)|, SchemasInDatabaseStatements(payload), conn.failAt)
    ensures out == if TransactionOk(|old(conn.trace)|, SchemasInDatabaseStatements(payload), conn.failAt)
                   then Done else Raised(DatabaseError)
  {
    var ok := Transaction(conn, SchemasInDatabaseStatements(payload));
    out := if ok then Done else Raised(DatabaseError);
  }

  /** grant_on_schema: reset revoke as NONE, deep revoke as each grantor of the schema's ACL
      (when deepRevoke, the DEEP_REVOKE setting, is on), grant, DoneWithErrors(schema). */
  method GrantOnSchema(conn: Connection, payload: SchemaGrant, deepRevoke: bool, schemaAcl: seq<string>) returns (out: Outcome)
    modifies conn
    ensures var run := DeepGrantRun(|old(conn.trace)|, SchemaRevoker(payload), GrantSchemaIssues(payload), deepRevoke,
                                    schemaAcl, payload.roleSpecification, payload.name, conn.failAt);
      conn.trace == old(conn.trace) + run.events && out == run.outcome
  {
    out := DeepGrant(conn, SchemaRevoker(payload), GrantSchemaIssues(payload), deepRevoke, schemaAcl,
                     payload.roleSpecification, payload.name);
  }
}
