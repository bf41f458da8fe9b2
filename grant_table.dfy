/** Granting and revoking table privileges (privilege_grant_table.py): on every table of
    every user schema, on every table of one schema (and its default privileges), and on
    one table with the deep revoke. */
module TableGrants {
  import opened Outcomes
  import opened Collections
  import opened Session
  import opened GrantCommon

  /** The seven check boxes of a table grant. */
  datatype TablePrivileges = TablePrivileges(
    select: bool, insert: bool, update: bool, delete: bool, truncate: bool, references: bool, trigger: bool)

  datatype TablesInDatabaseGrant = TablesInDatabaseGrant(
    roleSpecification: string, withGrantOption: bool, database: string, privileges: TablePrivileges)

  datatype TablesInSchemaGrant = TablesInSchemaGrant(
    roleSpecification: string, withGrantOption: bool, database: string, dbSchema: string, privileges: TablePrivileges)

  datatype TableGrant = TableGrant(
    roleSpecification: string, withGrantOption: bool, name: string, database: string, dbSchema: string,
    privileges: TablePrivileges)

  /** The keyword table, in its fixed order. */
  const TableKeywords: seq<string> := ["SELECT", "INSERT", "UPDATE", "DELETE", "TRUNCATE", "REFERENCES", "TRIGGER"]

  function Flags(p: TablePrivileges): (r: seq<bool>)
    ensures |r| == |TableKeywords|
  {
    [p.select, p.insert, p.update, p.delete, p.truncate, p.references, p.trigger]
  }

  /** _calc_grant_options: the checked keywords, in table order and each once; nothing
      exactly when no box is checked. */
  function GrantOptions(p: TablePrivileges): (r: seq<string>)
    ensures InOrder(r, TableKeywords) && NoDup(r)
    ensures r == [] <==> true !in Flags(p)
  {
    KeywordsDistinct();
    NothingChecked(TableKeywords, Flags(p));
    Checked(TableKeywords, Flags(p), true)
  }

  /** _calc_revoke_options: every keyword with all, otherwise the unchecked ones. */
  function RevokeOptions(p: TablePrivileges, all: bool): (r: seq<string>)
    ensures all ==> r == TableKeywords
  {
    if all then TableKeywords else Checked(TableKeywords, Flags(p), false)
  }

  lemma KeywordsDistinct()
    ensures NoDup(TableKeywords)
  {
  }

  /** The grant list holds exactly the checked keywords, and the revoke list (without all)
      exactly the unchecked ones. */
  lemma GrantOptionsExact(p: TablePrivileges)
    ensures forall i :: 0 <= i < |TableKeywords| ==> (TableKeywords[i] in GrantOptions(p) <==> Flags(p)[i])
  {
    KeywordsDistinct();
    var f := Flags(p);
    forall i | 0 <= i < |TableKeywords|
      ensures TableKeywords[i] in GrantOptions(p) <==> f[i]
    {
      CheckedAt(TableKeywords, f, true, i);
    }
  }

  lemma RevokeOptionsExact(p: TablePrivileges)
    ensures forall i :: 0 <= i < |TableKeywords| ==> (TableKeywords[i] in RevokeOptions(p, false) <==> !Flags(p)[i])
  {
    KeywordsDistinct();
    var f := Flags(p);
    forall i | 0 <= i < |TableKeywords|
      ensures TableKeywords[i] in RevokeOptions(p, false) <==> !f[i]
    {
      CheckedAt(TableKeywords, f, false, i);
    }
  }

  /** Without all, the grant and revoke lists hold each keyword once, are disjoint and
      together cover the table. */
  lemma OptionsSplit(p: TablePrivileges)
    ensures NoDup(GrantOptions(p)) && NoDup(RevokeOptions(p, false))
    ensures ToSet(GrantOptions(p)) * ToSet(RevokeOptions(p, false)) == {}
    ensures ToSet(GrantOptions(p)) + ToSet(RevokeOptions(p, false)) == ToSet(TableKeywords)
  {
    KeywordsDistinct();
    OptionsPartition(TableKeywords, Flags(p));
  }

  /** The same, keyword by keyword, for the grant list. */
  lemma GrantOptionsByName(p: TablePrivileges)
    ensures var g := GrantOptions(p);
      ("SELECT" in g <==> p.select) && ("INSERT" in g <==> p.insert) && ("UPDATE" in g <==> p.update) &&
      ("DELETE" in g <==> p.delete) && ("TRUNCATE" in g <==> p.truncate) &&
      ("REFERENCES" in g <==> p.references) && ("TRIGGER" in g <==> p.trigger)
  {
    GrantOptionsExact(p);
    assert TableKeywords[0] == "SELECT" && TableKeywords[1] == "INSERT" && TableKeywords[2] == "UPDATE";
    assert TableKeywords[3] == "DELETE" && TableKeywords[4] == "TRUNCATE" && TableKeywords[5] == "REFERENCES";
    assert TableKeywords[6] == "TRIGGER";
  }

  /** _grant_tables_in_database_permissions. */
  function GrantTablesInDatabaseIssues(payload: TablesInDatabaseGrant): (r: seq<Statement>)
    ensures r == [] <==> GrantOptions(payload.privileges) == []
    ensures r != [] ==> r == [GrantTablesInDatabase(GrantOptions(payload.privileges), payload.roleSpecification,
      GrantOptionParam(payload.withGrantOption))]
  {
    var options := GrantOptions(payload.privileges);
    IssuedIf(options, GrantTablesInDatabase(options, payload.roleSpecification, GrantOptionParam(payload.withGrantOption)))
  }

  /** _revoke_tables_in_database_permissions. */
  function RevokeTablesInDatabaseIssues(payload: TablesInDatabaseGrant): (r: seq<Statement>)
    ensures r == [] <==> RevokeOptions(payload.privileges, false) == []
    ensures r != [] ==> r == [RevokeTablesInDatabase(RevokeOptions(payload.privileges, false),
      payload.roleSpecification)]
  {
    var options := RevokeOptions(payload.privileges, false);
    IssuedIf(options, RevokeTablesInDatabase(options, payload.roleSpecification))
  }

  /** _grant_tables_in_schema_permissions. */
  function GrantTablesInSchemaIssues(payload: TablesInSchemaGrant): (r: seq<Statement>)
    ensures r == [] <==> GrantOptions(payload.privileges) == []
    ensures r != [] ==> r == [GrantTablesInSchema(GrantOptions(payload.privileges), payload.dbSchema,
      payload.roleSpecification, GrantOptionParam(payload.withGrantOption))]
  {
    var options := GrantOptions(payload.privileges);
    IssuedIf(options, GrantTablesInSchema(options, payload.dbSchema, payload.roleSpecification,
                                          GrantOptionParam(payload.withGrantOption)))
  }

  /** _revoke_tables_in_schema_permissions. */
  function RevokeTablesInSchemaIssues(payload: TablesInSchemaGrant): (r: seq<Statement>)
    ensures r == [] <==> RevokeOptions(payload.privileges, false) == []
    ensures r != [] ==> r == [RevokeTablesInSchema(RevokeOptions(payload.privileges, false), payload.dbSchema,
      payload.roleSpecification)]
  {
    var options := RevokeOptions(payload.privileges, false);
    IssuedIf(options, RevokeTablesInSchema(options, payload.dbSchema, payload.roleSpecification))
  }

  /** _grant_tables_in_schema_permissions_default. */
  function GrantTablesInSchemaDefaultIssues(payload: TablesInSchemaGrant): (r: seq<Statement>)
    ensures r == [] <==> GrantOptions(payload.privileges) == []
    ensures r != [] ==> r == [GrantTablesInSchemaDefault(payload.dbSchema, GrantOptions(payload.privileges),
      payload.roleSpecification, GrantOptionParam(payload.withGrantOption))]
  {
    var options := GrantOptions(payload.privileges);
    IssuedIf(options, GrantTablesInSchemaDefault(payload.dbSchema, options, payload.roleSpecification,
                                                 GrantOptionParam(payload.withGrantOption)))
  }

  /** _revoke_tables_in_schema_permissions_default. */
  function RevokeTablesInSchemaDefaultIssues(payload: TablesInSchemaGrant): (r: seq<Statement>)
    ensures r == [] <==> RevokeOptions(payload.privileges, false) == []
    ensures r != [] ==> r == [RevokeTablesInSchemaDefault(payload.dbSchema, RevokeOptions(payload.privileges, false),
      payload.roleSpecification)]
  {
    var options := RevokeOptions(payload.privileges, false);
    IssuedIf(options, RevokeTablesInSchemaDefault(payload.dbSchema, options, payload.roleSpecification))
  }

  /** _grant_table_permissions. */
  function GrantTableIssues(payload: TableGrant): (r: seq<Statement>)
    ensures r == [] <==> GrantOptions(payload.privileges) == []
    ensures |r| <= 1
    ensures r != [] ==> r == [GrantTable(GrantOptions(payload.privileges), payload.dbSchema, payload.name,
      payload.roleSpecification, GrantOptionParam(payload.withGrantOption))]
  {
    var options := GrantOptions(payload.privileges);
    IssuedIf(options, GrantTable(options, payload.dbSchema, payload.name, payload.roleSpecification,
                                 GrantOptionParam(payload.withGrantOption)))
  }

  /** The statement of _revoke_table_permissions, executed as grantor. */
  function RevokeTableAs(payload: TableGrant, grantor: Option<string>): (r: Statement)
    ensures r.RevokeTable? && r == RevokeTable(r.grantor, TableKeywords, payload.dbSchema, payload.name, payload.roleSpecification)
    ensures Truthy(grantor) ==> r.grantor == "\"" + grantor.value + "\""
    ensures !Truthy(grantor) ==> r.grantor == "NONE"
  {
    RevokeTable(GrantorParam(grantor), RevokeOptions(payload.privileges, true), payload.dbSchema, payload.name,
                payload.roleSpecification)
  }

  function TableRevoker(payload: TableGrant): Option<string> -> Statement {
    grantor => RevokeTableAs(payload, grantor)
  }

  /** _revoke_table_permissions always revokes all seven privileges, so its emptiness guard
      never fires: it issues exactly one statement, as NONE or as the quoted grantor. */
  lemma RevokeTableIssues(payload: TableGrant, grantor: Option<string>)
    ensures IssuedIf(RevokeOptions(payload.privileges, true), RevokeTableAs(payload, grantor))
      == [RevokeTable(GrantorParam(grantor), TableKeywords, payload.dbSchema, payload.name, payload.roleSpecification)]
    ensures grantor == None ==> RevokeTableAs(payload, grantor).grantor == "NONE"
  {
  }

  /** grant_all_tables_in_database: one transaction with the revoke of the unchecked and
      the grant of the checked privileges. */
  function TablesInDatabaseStatements(payload: TablesInDatabaseGrant): seq<Statement> {
    RevokeTablesInDatabaseIssues(payload) + GrantTablesInDatabaseIssues(payload)
  }

  method GrantAllTablesInDatabase(conn: Connection, payload: TablesInDatabaseGrant) returns (out: Outcome)
    modifies conn
    ensures conn.trace == old(conn.trace) + TransactionEvents(|old(conn.trace)|, TablesInDatabaseStatements(payload), conn.failAt)
    ensures out == if TransactionOk(|old(conn.trace)|, TablesInDatabaseStatements(payload), conn.failAt)
                   then Done else Raised(DatabaseError)
  {
    var ok := Transaction(conn, TablesInDatabaseStatements(payload));
    out := if ok then Done else Raised(DatabaseError);
  }

  /** grant_all_tables_in_schema: the tables of the schema in one transaction, then its
      default privileges ON TABLES in a second one; a failure in the first skips the second. */
  function SchemaTablesStatements(payload: TablesInSchemaGrant): seq<Statement> {
    RevokeTablesInSchemaIssues(payload) + GrantTablesInSchemaIssues(payload)
  }

  function SchemaDefaultsStatements(payload: TablesInSchemaGrant): seq<Statement> {
    RevokeTablesInSchemaDefaultIssues(payload) + GrantTablesInSchemaDefaultIssues(payload)
  }

  method GrantAllTablesInSchema(conn: Connection, payload: TablesInSchemaGrant) returns (out: Outcome)
    modifies conn
    ensures var run := TwoTransactionsRun(|old(conn.trace)|, SchemaTablesStatements(payload),
                                          SchemaDefaultsStatements(payload), conn.failAt);
      conn.trace == old(conn.trace) + run.events && out == run.outcome
  {
    out := TwoTransactions(conn, SchemaTablesStatements(payload), SchemaDefaultsStatements(payload));
  }

  /** grant_on_table: reset revoke as NONE, deep revoke as each grantor of the table's ACL
      (when deepRevoke, the DEEP_REVOKE setting, is on), grant, DoneWithErrors(table). */
  method GrantOnTable(conn: Connection, payload: TableGrant, deepRevoke: bool, tableAcl: seq<string>) returns (out: Outcome)
    modifies conn
    ensures var run := DeepGrantRun(|old(conn.trace)|, TableRevoker(payload), GrantTableIssues(payload), deepRevoke,
                                    tableAcl, payload.roleSpecification, payload.name, conn.failAt);
      conn.trace == old(conn.trace) + run.events && out == run.outcome
  {
    out := DeepGrant(conn, TableRevoker(payload), GrantTableIssues(payload), deepRevoke, tableAcl,
                     payload.roleSpecification, payload.name);
  }
}
