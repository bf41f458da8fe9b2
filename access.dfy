/** The entity type of an access rule (backend/app/app/schemas/access.py): which of role,
    database and schema are present decides whether the rule is about a role, a database, a
    schema or nothing known. */
module Access {
  import opened Outcomes

  /** The all_types table: presence of (role, database, schema) to the entity type. */
  const AllTypes: map<(bool, bool, bool), string> :=
    map[(true, false, false) := "Role", (false, true, false) := "Database", (false, true, true) := "Schema"]

  /** type_of_entity_compute: presence is Python truthiness, so an empty string is absent; a
      combination outside the table gives "Nothing". The incoming value of the field plays
      no part. */
  function TypeOfEntity(role: Option<string>, database: Option<string>, dbSchema: Option<string>): (r: string)
    ensures r == "Role" <==> Truthy(role) && !Truthy(database) && !Truthy(dbSchema)
    ensures r == "Database" <==> !Truthy(role) && Truthy(database) && !Truthy(dbSchema)
    ensures r == "Schema" <==> !Truthy(role) && Truthy(database) && Truthy(dbSchema)
    ensures r == "Nothing" <==> (Truthy(role) ==> Truthy(database) || Truthy(dbSchema)) &&
                                (!Truthy(role) ==> !Truthy(database))
  {
    var allFields := (Truthy(role), Truthy(database), Truthy(dbSchema));
    if allFields in AllTypes then AllTypes[allFields] else "Nothing"
  }

  /** The result is always one of the four types. */
  lemma TypeOfEntityClosed(role: Option<string>, database: Option<string>, dbSchema: Option<string>)
    ensures TypeOfEntity(role, database, dbSchema) in {"Role", "Database", "Schema", "Nothing"}
  {
  }

  /** A role together with a database, and a schema without a database, are "Nothing". */
  lemma MixedRulesAreNothing(role: string, database: string, dbSchema: string)
    requires role != "" && database != "" && dbSchema != ""
    ensures TypeOfEntity(Some(role), Some(database), None) == "Nothing"
    ensures TypeOfEntity(None, None, Some(dbSchema)) == "Nothing"
    ensures TypeOfEntity(Some(""), Some(database), Some("")) == "Database"
  {
  }
}
