/** Ownership transfer (backend/app/app/use_case/owner/owner_owner.py and owner_dto.py): the
    validated request and the dispatch by entity type to one ALTER ... OWNER TO statement. */
module Owners {
  import opened Outcomes
  import opened Session

  /** UpdateOwnerDTO; only typeOfEntity is checked when one is built. */
  datatype UpdateOwner = UpdateOwner(
    typeOfEntity: string, owner: string, database: string, dbSchema: Option<string>, table: Option<string>)

  /** The tags the validator accepts and the dispatcher handles. */
  predicate KnownEntity(tag: string) {
    tag == "database" || tag == "schema" || tag == "table"
  }

  const InvalidTypeMessage := "Field type_of_entity has an invalid value"

  /** Building an UpdateOwnerDTO: ValueError for any other tag, compared case-sensitively;
      every other field is taken as given. */
  function NewUpdateOwner(typeOfEntity: string, owner: string, database: string, dbSchema: Option<string>,
                          table: Option<string>): (r: Result<UpdateOwner>)
    ensures r.Ok? <==> KnownEntity(typeOfEntity)
    ensures r.Ok? ==> r.value == UpdateOwner(typeOfEntity, owner, database, dbSchema, table)
    ensures r.Err? ==> r.error == ValueError(InvalidTypeMessage)
  {
    if typeOfEntity in ["database", "schema", "table"] then Ok(UpdateOwner(typeOfEntity, owner, database, dbSchema, table))
    else Err(ValueError(InvalidTypeMessage))
  }

  /** One of the three ALTER ... OWNER TO statements. */
  predicate OwnerChange(s: Statement) {
    s.AlterDatabaseOwner? || s.AlterSchemaOwner? || s.AlterTableOwner?
  }

  /** The message update_owner raises for an unknown tag. */
  const NotImplementedMessage := "It is not possible to change the owner of this entity type"

  /** The like_switch lookup of update_owner and the statement of the chosen callback. */
  function OwnerStatement(payload: UpdateOwner): (r: Result<Statement>)
    ensures r.Ok? <==> KnownEntity(payload.typeOfEntity)
    ensures r.Err? ==> r.error == TypeNotImplemented(NotImplementedMessage)
    ensures r.Ok? ==> OwnerChange(r.value) && r.value.newOwner == payload.owner
    ensures payload.typeOfEntity == "database" ==> r == Ok(AlterDatabaseOwner(payload.database, payload.owner))
    ensures payload.typeOfEntity == "schema" ==> r == Ok(AlterSchemaOwner(payload.dbSchema, payload.owner))
    ensures payload.typeOfEntity == "table" ==> r == Ok(AlterTableOwner(payload.dbSchema, payload.table, payload.owner))
  {
    match payload.typeOfEntity
    case "database" => Ok(AlterDatabaseOwner(payload.database, payload.owner))
    case "schema" => Ok(AlterSchemaOwner(payload.dbSchema, payload.owner))
    case "table" => Ok(AlterTableOwner(payload.dbSchema, payload.table, payload.owner))
    case _ => Err(TypeNotImplemented(NotImplementedMessage))
  }

  /** update_owner: an unknown tag raises before anything reaches the connection; a known
      one runs its single statement in one transaction. */
  method UpdateOwnerProc(conn: Connection, payload: UpdateOwner) returns (out: Outcome)
    modifies conn
    ensures OwnerStatement(payload).Err? ==>
      conn.trace == old(conn.trace) && out == Raised(OwnerStatement(payload).error)
    ensures OwnerStatement(payload).Ok? ==>
      var s := OwnerStatement(payload).value;
      conn.trace == old(conn.trace) + TxnEvents(|old(conn.trace)|, s, conn.failAt) &&
      out == if TxnSlot(|old(conn.trace)|, 0) !in conn.failAt then Done else Raised(DatabaseError)
  {
    var callback := OwnerStatement(payload);
    if callback.Err? {
      return Raised(callback.error);
    }
    var ok := InTransaction(conn, callback.value);
    out := if ok then Done else Raised(DatabaseError);
  }

  /** Every request that passed the validator is one the dispatcher handles: it never raises
      TypeNotImplemented, and issues exactly one statement to the requested owner. */
  lemma ValidatedRequestDispatches(typeOfEntity: string, owner: string, database: string, dbSchema: Option<string>,
                                   table: Option<string>, t0: nat, failAt: set<nat>)
    requires NewUpdateOwner(typeOfEntity, owner, database, dbSchema, table).Ok?
    ensures var payload := NewUpdateOwner(typeOfEntity, owner, database, dbSchema, table).value;
      var s := OwnerStatement(payload);
      s.Ok? && OwnerChange(s.value) && s.value.newOwner == owner && Statements(TxnEvents(t0, s.value, failAt)) == [s.value]
  {
    var payload := NewUpdateOwner(typeOfEntity, owner, database, dbSchema, table).value;
    TxnStatements(t0, OwnerStatement(payload).value, failAt);
  }
}
