/** Default privileges (privilege_graph_default.py): the entry-type tables, the revoke of
    every default privilege a role granted, and the decoding of the default-ACL rows. */
module DefaultPrivileges {
  import opened Outcomes
  import opened AclCodec
  import opened Session

  /** The five entry types, by name. */
  const EntryTypes: seq<string> := ["Relation", "Sequence", "Function", "Type", "Schema"]

  /** _type_of_def_entries: the catalogue letter of each entry type. */
  function EntryLetter(entry: string): (r: Option<char>)
    ensures r.Some? <==> entry in EntryTypes
  {
    match entry
    case "Relation" => Some('r')
    case "Sequence" => Some('S')
    case "Function" => Some('f')
    case "Type" => Some('T')
    case "Schema" => Some('n')
    case _ => None
  }

  /** _type_of_def_entries_inv, read with .get: None for a letter not in the table. */
  function ObjtypeName(objtype: char): (r: Option<string>)
    ensures r.Some? ==> r.value in EntryTypes
  {
    match objtype
    case 'r' => Some("Relation")
    case 'S' => Some("Sequence")
    case 'f' => Some("Function")
    case 'T' => Some("Type")
    case 'n' => Some("Schema")
    case _ => None
  }

  /** The letters are distinct, so the inverse map undoes the forward one and nothing else. */
  lemma LettersBijective(entry: string, objtype: char)
    ensures EntryLetter(entry) == Some(objtype) <==> ObjtypeName(objtype) == Some(entry)
  {
  }

  lemma ObjtypeUnknown(objtype: char)
    ensures ObjtypeName(objtype) == None <==> objtype !in {'r', 'S', 'f', 'T', 'n'}
  {
  }

  /** _entrie2object: the keyword of the ON clause; any other tag is TypeNotImplemented. */
  function EntryToObject(entry: string): (r: Result<string>)
    ensures r.Ok? <==> entry in EntryTypes
    ensures r.Err? ==> r.error == TypeNotImplemented(entry)
    ensures r.Ok? ==> r.value in ["TABLES", "SEQUENCES", "FUNCTIONS", "TYPES", "SCHEMAS"]
  {
    match entry
    case "Relation" => Ok("TABLES")
    case "Sequence" => Ok("SEQUENCES")
    case "Function" => Ok("FUNCTIONS")
    case "Type" => Ok("TYPES")
    case "Schema" => Ok("SCHEMAS")
    case _ => Err(TypeNotImplemented(entry))
  }

  /** Distinct entry types give distinct keywords. */
  lemma EntryToObjectInjective(a: string, b: string)
    requires EntryToObject(a).Ok? && EntryToObject(b).Ok? && EntryToObject(a) == EntryToObject(b)
    ensures a == b
  {
  }

  datatype RevokeAllDefaults = RevokeAllDefaults(
    database: string, dbSchema: Option<string>, entryType: string, targetRole: string, roleSpecification: string)

  /** The schema_path parameter: an IN SCHEMA clause exactly when the schema is truthy. */
  function SchemaPath(dbSchema: Option<string>): (r: string)
    ensures Truthy(dbSchema) ==> r == "IN SCHEMA \"" + dbSchema.value + "\""
    ensures !Truthy(dbSchema) <==> r == ""
  {
    if Truthy(dbSchema) then "IN SCHEMA \"" + dbSchema.value + "\"" else ""
  }

  /** The statement of _revoke_default_permissions, once its entry type is known. */
  function RevokeDefaultsStatement(payload: RevokeAllDefaults): (r: Result<Statement>)
    ensures r.Err? <==> payload.entryType !in EntryTypes
    ensures r.Err? ==> r.error == TypeNotImplemented(payload.entryType)
    ensures r.Ok? ==> r.value.RevokeDefaults? && r.value.targetRole == payload.targetRole &&
                      r.value.roleSpecification == payload.roleSpecification &&
                      r.value.schemaPath == SchemaPath(payload.dbSchema) &&
                      Ok(r.value.entryType) == EntryToObject(payload.entryType)
  {
    var entry :- EntryToObject(payload.entryType);
    Ok(RevokeDefaults(payload.targetRole, SchemaPath(payload.dbSchema), entry, payload.roleSpecification))
  }

  /** revoke_all_default_permissions, begun when the trace has length t0: the transaction
      opens, and an unknown entry type rolls it back before any statement; otherwise the one
      statement runs in it. */
  function RevokeAllDefaultsRun(t0: nat, payload: RevokeAllDefaults, failAt: set<nat>): Run {
    match RevokeDefaultsStatement(payload)
    case Err(e) => Run([Began, RolledBack], Raised(e))
    case Ok(s) => Run(TxnEvents(t0, s, failAt), if TxnSlot(t0, 0) in failAt then Raised(DatabaseError) else Done)
  }

  method RevokeAllDefaultPermissions(conn: Connection, payload: RevokeAllDefaults) returns (out: Outcome)
    modifies conn
    ensures var run := RevokeAllDefaultsRun(|old(conn.trace)|, payload, conn.failAt);
      conn.trace == old(conn.trace) + run.events && out == run.outcome
  {
    conn.Begin();
    var s := RevokeDefaultsStatement(payload);
    if s.Err? {
      conn.Rollback();
      return Raised(s.error);
    }
    var ok := conn.Execute(s.value);
    if ok {
      conn.Commit();
      out := Done;
    } else {
      conn.Rollback();
      out := Raised(DatabaseError);
    }
  }

  /** revoke_all_default_permissions executes at most one statement: none for an unknown entry
      type, otherwise exactly one REVOKE ALL for the target role and the grantee. */
  lemma RevokeAllDefaultsStatements(t0: nat, payload: RevokeAllDefaults, failAt: set<nat>)
    ensures var run := RevokeAllDefaultsRun(t0, payload, failAt);
      var s := RevokeDefaultsStatement(payload);
      (s.Err? ==> Statements(run.events) == [] && run.outcome == Raised(TypeNotImplemented(payload.entryType))) &&
      (s.Ok? ==> Statements(run.events) == [s.value] &&
                 (run.outcome == Done <==> TxnSlot(t0, 0) !in failAt))
  {
    var s := RevokeDefaultsStatement(payload);
    if s.Ok? {
      TxnStatements(t0, s.value, failAt);
    } else {
      assert Statements([Began, RolledBack]) == Statements([Began]) by {
        assert [Began, RolledBack][..1] == [Began];
      }
      assert [Began][..0] == [];
    }
  }

  /** A row of the default-ACL catalogue query. */
  datatype DefaultAclRow = DefaultAclRow(schema: Option<string>, objtype: char, defaclacl: seq<string>)

  datatype DefaultPermissions = DefaultPermissions(schema: Option<string>, objtype: Option<string>,
                                                   defaclacl: seq<Privilege>)

  /** One record of get_all_default_permissions: its ACL decoded rule by rule. */
  function DecodeRow(row: DefaultAclRow): (r: Result<DefaultPermissions>)
    ensures r.Ok? <==> ParseBatch(row.defaclacl).Ok?
    ensures r.Err? ==> r.error.IsParseFailure()
    ensures r.Ok? ==> r.value.schema == row.schema && r.value.objtype == ObjtypeName(row.objtype) &&
                      |r.value.defaclacl| == |row.defaclacl| &&
                      forall i :: 0 <= i < |row.defaclacl| ==> ParseOne(row.defaclacl[i]) == Ok(r.value.defaclacl[i])
  {
    var acl :- ParseBatch(row.defaclacl);
    Ok(DefaultPermissions(row.schema, ObjtypeName(row.objtype), acl))
  }

  /** Row i is the first whose ACL does not parse. */
  predicate FirstFailingRow(rows: seq<DefaultAclRow>, i: int) {
    0 <= i < |rows| && DecodeRow(rows[i]).Err? && forall j :: 0 <= j < i ==> DecodeRow(rows[j]).Ok?
  }

  /** get_all_default_permissions: one record per row, in row order; the first row whose ACL
      does not parse ends it with that row's error. */
  function DefaultPermissionsOf(rows: seq<DefaultAclRow>): (r: Result<seq<DefaultPermissions>>)
    ensures r.Ok? <==> forall i :: 0 <= i < |rows| ==> DecodeRow(rows[i]).Ok?
    ensures r.Ok? ==> |r.value| == |rows| && forall i :: 0 <= i < |rows| ==> DecodeRow(rows[i]) == Ok(r.value[i])
    ensures r.Err? ==> r.error.IsParseFailure()
    ensures r.Err? ==> exists i :: FirstFailingRow(rows, i) && DecodeRow(rows[i]) == Err(r.error)
  {
    if rows == [] then Ok([])
    else
      var n := |rows| - 1;
      DecodedPrefix(rows);
      var init := DefaultPermissionsOf(rows[..n]);
      if init.Err? then
        FailingRowPrefix(rows, rows[..n], init.error);
        Err(init.error)
      else
        var last := DecodeRow(rows[n]);
        if last.Err? then
          assert FirstFailingRow(rows, n) by {
            forall j | 0 <= j < n
              ensures DecodeRow(rows[j]).Ok?
            {
              assert rows[..n][j] == rows[j];
            }
          }
          Err(last.error)
        else
          DecodedSnoc(rows, init.value, last.value);
          Ok(init.value + [last.value])
  }

  /** The first failing row of a prefix is the first failing row of the whole. */
  lemma FailingRowPrefix(rows: seq<DefaultAclRow>, init: seq<DefaultAclRow>, e: Error)
    requires rows != [] && init == rows[..|rows| - 1]
    requires exists i :: FirstFailingRow(init, i) && DecodeRow(init[i]) == Err(e)
    ensures exists i :: FirstFailingRow(rows, i) && DecodeRow(rows[i]) == Err(e)
  {
    var n := |rows| - 1;
    var i :| FirstFailingRow(init, i) && DecodeRow(init[i]) == Err(e);
    assert rows[..n][i] == rows[i];
    forall j | 0 <= j < i
      ensures DecodeRow(rows[j]).Ok?
    {
      assert rows[..n][j] == rows[j];
    }
    assert FirstFailingRow(rows, i);
  }

  lemma DecodedPrefix(rows: seq<DefaultAclRow>)
    requires rows != []
    ensures var n := |rows| - 1;
      (forall i :: 0 <= i < |rows| ==> DecodeRow(rows[i]).Ok?) <==>
        (forall i :: 0 <= i < n ==> DecodeRow(rows[..n][i]).Ok?) && DecodeRow(rows[n]).Ok?
  {
    var n := |rows| - 1;
    assert forall i :: 0 <= i < n ==> rows[..n][i] == rows[i];
  }

  lemma DecodedSnoc(rows: seq<DefaultAclRow>, init: seq<DefaultPermissions>, last: DefaultPermissions)
    requires rows != [] && |init| == |rows| - 1
    requires forall i :: 0 <= i < |init| ==> DecodeRow(rows[..|init|][i]) == Ok(init[i])
    requires DecodeRow(rows[|init|]) == Ok(last)
    ensures forall i :: 0 <= i < |rows| ==> DecodeRow(rows[i]) == Ok((init + [last])[i])
  {
    var n := |init|;
    var r := init + [last];
    forall i | 0 <= i < |rows|
      ensures DecodeRow(rows[i]) == Ok(r[i])
    {
      if i < n {
        assert rows[..n][i] == rows[i] && r[i] == init[i];
      }
    }
  }
}
