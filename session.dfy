/** The database session the core talks to, reduced to what the core can observe: every
    administrative statement it issues is appended to a trace, together with the transaction
    boundaries (`with conn.begin()`), and whether a statement fails is decided by a failure
    schedule fixed when the session is opened. The statements themselves are opaque records
    carrying the template they instantiate and the parameter values bound to it. */
module Session {
  import opened Outcomes
  import opened Collections

  /** One administrative statement: the SQL template (the constructor) with its bound
      parameters, rendered exactly as the source passes them in `params`. */
  datatype Statement =
    // privilege_grant_table.py
    | GrantTablesInDatabase(grantOptions: seq<string>, roleSpecification: string, withGrantOption: string)
    | GrantTablesInSchema(grantOptions: seq<string>, schemaName: string, roleSpecification: string, withGrantOption: string)
    | GrantTablesInSchemaDefault(schemaName: string, grantOptions: seq<string>, roleSpecification: string, withGrantOption: string)
    | GrantTable(grantOptions: seq<string>, schemaName: string, tableName: string, roleSpecification: string, withGrantOption: string)
    | RevokeTablesInDatabase(revokeOptions: seq<string>, roleSpecification: string)
    | RevokeTablesInSchema(revokeOptions: seq<string>, schemaName: string, roleSpecification: string)
    | RevokeTablesInSchemaDefault(schemaName: string, revokeOptions: seq<string>, roleSpecification: string)
    | RevokeTable(grantor: string, revokeOptions: seq<string>, schemaName: string, tableName: string, roleSpecification: string)
    // privilege_grant_schema.py
    | GrantSchemasInDatabase(grantOptions: seq<string>, roleSpecification: string, withGrantOption: string)
    | GrantSchema(grantOptions: seq<string>, schemaName: string, roleSpecification: string, withGrantOption: string)
    | RevokeSchemasInDatabase(revokeOptions: seq<string>, roleSpecification: string)
    | RevokeSchema(grantor: string, revokeOptions: seq<string>, schemaName: string, roleSpecification: string)
    // privilege_grant_database.py
    | GrantDatabase(grantOptions: seq<string>, databaseName: string, roleSpecification: string, withGrantOption: string)
    | RevokeDatabase(grantor: string, revokeOptions: seq<string>, databaseName: string, roleSpecification: string)
    // privilege_graph_default.py
    | RevokeDefaults(targetRole: string, schemaPath: string, entryType: string, roleSpecification: string)
    // resource_resource.py
    | CreateResourceGroup(name: string, groupAttribute: string)
    | AlterRoleResourceGroup(rolname: string, rsgname: string)
    | AlterResourceGroup(name: string, groupAttribute: string)
    | RemoveAllMembersFromResourceGroup(rsgname: string)
    | TerminateResourceGroupQueries(rsgname: string)
    | DropResourceGroup(name: string)
    // role_role.py
    | CreateRole(rolname: string, capabilities: seq<string>, password: string)
    | RenameRole(oldname: string, newname: string)
    | AlterRole(rolname: string, capabilities: seq<string>, passwordClause: string)
    | ReassignOwnedV1(dbuser: string)
    | ReassignOwnedV2(dbuser: string)
    | DropRole(dbuser: string)
    | CreateDblinkExtension
    // role_member.py
    | RevokeMember(adminOption: string, rolname: string, member: string)
    | GrantMember(rolname: string, member: string, adminOption: string)
    // owner_owner.py
    | AlterDatabaseOwner(databaseName: string, newOwner: string)
    | AlterSchemaOwner(schema: Option<string>, newOwner: string)
    | AlterTableOwner(schema: Option<string>, table: Option<string>, newOwner: string)

  /** What the trace records: transaction boundaries and executed statements with their fate. */
  datatype Event = Began | Executed(stmt: Statement, ok: bool) | Committed | RolledBack

  /** A session. The statement recorded at trace index p fails (raises DatabaseError) iff
      p is in failAt, so any pattern of failures over time can be described. */
  class Connection {
    var trace: seq<Event>
    const failAt: set<nat>

    constructor (failAt: set<nat>)
      ensures trace == [] && this.failAt == failAt
    {
      trace := [];
      this.failAt := failAt;
    }

    method Begin()
      modifies this
      ensures trace == old(trace) + [Began]
    {
      trace := trace + [Began];
    }

    /** A COMMIT always succeeds: failures are scheduled for statements only. */
    method Commit()
      modifies this
      ensures trace == old(trace) + [Committed]
    {
      trace := trace + [Committed];
    }

    method Rollback()
      modifies this
      ensures trace == old(trace) + [RolledBack]
    {
      trace := trace + [RolledBack];
    }

    method Execute(s: Statement) returns (ok: bool)
      modifies this
      ensures ok == (|old(trace)| !in failAt)
      ensures trace == old(trace) + [Executed(s, ok)]
    {
      ok := |trace| !in failAt;
      trace := trace + [Executed(s, ok)];
    }
  }

  /** The statements a piece of trace executed, in order, whatever their fate. */
  function Statements(events: seq<Event>): (r: seq<Statement>)
    ensures |r| <= |events|
  {
    if events == [] then []
    else (if events[0].Executed? then [events[0].stmt] else []) + Statements(events[1..])
  }

  lemma {:induction false} StatementsAppend(a: seq<Event>, b: seq<Event>)
    ensures Statements(a + b) == Statements(a) + Statements(b)
  {
    if a == [] {
      assert a + b == b;
    } else {
      var head := if a[0].Executed? then [a[0].stmt] else [];
      assert (a + b)[0] == a[0];
      assert (a + b)[1..] == a[1..] + b;
      assert Statements(a + b) == head + Statements(a[1..] + b);
      StatementsAppend(a[1..], b);
      AppendAssoc(head, Statements(a[1..]), Statements(b));
    }
  }

  /** `with conn.begin(): conn.execute(s)` started when the trace has length t0. */
  function TxnEvents(t0: nat, s: Statement, failAt: set<nat>): (r: seq<Event>)
    ensures |r| == 3
    ensures r[0] == Began && r[1] == Executed(s, t0 + 1 !in failAt)
    ensures r[2] == (if t0 + 1 !in failAt then Committed else RolledBack)
  {
    var ok := t0 + 1 !in failAt;
    [Began, Executed(s, ok), if ok then Committed else RolledBack]
  }

  lemma TxnStatements(t0: nat, s: Statement, failAt: set<nat>)
    ensures Statements(TxnEvents(t0, s, failAt)) == [s]
  {
    var r := TxnEvents(t0, s, failAt);
    assert r[1..][1..][1..] == [];
    assert Statements(r[1..][1..]) == [];
    assert Statements(r[1..]) == [s];
  }

  /** `with conn.begin():` over two statements started when the trace has length t0: the
      second runs only when the first succeeded. */
  function Txn2Events(t0: nat, a: Statement, b: Statement, failAt: set<nat>): (r: seq<Event>)
    ensures |r| == (if TxnSlot(t0, 0) in failAt then 3 else 4)
  {
    if TxnSlot(t0, 0) in failAt then [Began, Executed(a, false), RolledBack]
    else
      var ok := TxnSlot(t0, 1) !in failAt;
      [Began, Executed(a, true), Executed(b, ok), if ok then Committed else RolledBack]
  }

  lemma PairTransaction(t0: nat, a: Statement, b: Statement, failAt: set<nat>)
    ensures TransactionEvents(t0, [a, b], failAt) == Txn2Events(t0, a, b, failAt)
    ensures TransactionOk(t0, [a, b], failAt) <==> TxnSlot(t0, 0) !in failAt && TxnSlot(t0, 1) !in failAt
  {
    var k := CleanRun(t0, 2, failAt);
    assert CleanRun(t0, 1, failAt) == (if TxnSlot(t0, 0) in failAt then 0 else 1);
    if TxnSlot(t0, 0) in failAt {
      assert k == 0 && [a, b][..0] == [];
      assert [Began] + [] + [Executed(a, false), RolledBack] == [Began, Executed(a, false), RolledBack];
    } else if TxnSlot(t0, 1) in failAt {
      assert k == 1 && [a, b][..1] == [a];
      assert Succeeded([a]) == [Executed(a, true)];
      assert [Began] + [Executed(a, true)] + [Executed(b, false), RolledBack]
        == [Began, Executed(a, true), Executed(b, false), RolledBack];
    } else {
      assert k == 2 && [a, b][..2] == [a, b];
      assert Succeeded([a, b]) == [Executed(a, true), Executed(b, true)];
      assert [Began] + [Executed(a, true), Executed(b, true)] + [Committed]
        == [Began, Executed(a, true), Executed(b, true), Committed];
    }
  }

  /** One statement in its own transaction: committed when it succeeds, rolled back when it fails. */
  method InTransaction(conn: Connection, s: Statement) returns (ok: bool)
    modifies conn
    ensures ok == (|old(conn.trace)| + 1 !in conn.failAt)
    ensures conn.trace == old(conn.trace) + TxnEvents(|old(conn.trace)|, s, conn.failAt)
  {
    SingleTransaction(|conn.trace|, s, conn.failAt);
    ok := Transaction(conn, [s]);
  }

  /** The trace index at which the i-th statement of a transaction begun at t0 executes. */
  function TxnSlot(t0: nat, i: nat): nat { t0 + 1 + i }

  /** How many statements of a transaction begun at t0 succeed before the first failure
      (all n when none fails). */
  function CleanRun(t0: nat, n: nat, failAt: set<nat>): (k: nat)
    ensures k <= n
    ensures forall j :: 0 <= j < k ==> TxnSlot(t0, j) !in failAt
    ensures k < n ==> TxnSlot(t0, k) in failAt
  {
    if n == 0 then 0
    else
      var k := CleanRun(t0, n - 1, failAt);
      if k < n - 1 || TxnSlot(t0, n - 1) in failAt then k else n
  }

  /** Successful executions of the given statements, in order. */
  function Succeeded(stmts: seq<Statement>): (r: seq<Event>)
    ensures |r| == |stmts|
    ensures forall i :: 0 <= i < |stmts| ==> r[i] == Executed(stmts[i], true)
  {
    if stmts == [] then [] else var n := |stmts| - 1; Succeeded(stmts[..n]) + [Executed(stmts[n], true)]
  }

  /** `with conn.begin(): ...` over a list of statements begun when the trace has length t0:
      the statements run in order up to the first failure, which rolls the transaction back
      and propagates; if none fails the transaction commits. */
  function TransactionEvents(t0: nat, stmts: seq<Statement>, failAt: set<nat>): seq<Event> {
    var k := CleanRun(t0, |stmts|, failAt);
    [Began] + Succeeded(stmts[..k]) +
      (if k < |stmts| then [Executed(stmts[k], false), RolledBack] else [Committed])
  }

  /** Whether the transaction commits. */
  predicate TransactionOk(t0: nat, stmts: seq<Statement>, failAt: set<nat>) {
    CleanRun(t0, |stmts|, failAt) == |stmts|
  }

  /** The statements a transaction attempts: every one when it commits, and otherwise the
      ones up to and including the failing one. A transaction commits iff none of its
      statements fails. */
  lemma TransactionAttempts(t0: nat, stmts: seq<Statement>, failAt: set<nat>)
    ensures TransactionOk(t0, stmts, failAt) <==> forall j :: 0 <= j < |stmts| ==> TxnSlot(t0, j) !in failAt
    ensures TransactionOk(t0, stmts, failAt) ==> Statements(TransactionEvents(t0, stmts, failAt)) == stmts
    ensures !TransactionOk(t0, stmts, failAt) ==>
      Statements(TransactionEvents(t0, stmts, failAt)) == stmts[..CleanRun(t0, |stmts|, failAt) + 1]
  {
    var k := CleanRun(t0, |stmts|, failAt);
    SucceededStatements(stmts[..k]);
    var tail := if k < |stmts| then [Executed(stmts[k], false), RolledBack] else [Committed];
    StatementsAppend([Began], Succeeded(stmts[..k]));
    StatementsAppend([Began] + Succeeded(stmts[..k]), tail);
    assert Statements([Began]) == [] by { assert [Began][1..] == []; }
    if k < |stmts| {
      assert Statements(tail) == [stmts[k]] by {
        assert tail[1..] == [RolledBack];
        assert tail[1..][1..] == [];
      }
      assert stmts[..k + 1] == stmts[..k] + [stmts[k]];
    } else {
      assert Statements(tail) == [] by { assert tail[1..] == []; }
      assert stmts[..k] == stmts;
    }
  }

  lemma {:induction false} SucceededStatements(stmts: seq<Statement>)
    ensures Statements(Succeeded(stmts)) == stmts
  {
    if stmts != [] {
      var n := |stmts| - 1;
      SucceededStatements(stmts[..n]);
      StatementsAppend(Succeeded(stmts[..n]), [Executed(stmts[n], true)]);
      assert [Executed(stmts[n], true)][1..] == [];
      assert stmts == stmts[..n] + [stmts[n]];
    }
  }

  /** A one-statement transaction is the transaction of InTransaction. */
  lemma SingleTransaction(t0: nat, s: Statement, failAt: set<nat>)
    ensures TransactionEvents(t0, [s], failAt) == TxnEvents(t0, s, failAt)
    ensures TransactionOk(t0, [s], failAt) <==> TxnSlot(t0, 0) !in failAt
  {
    var k := CleanRun(t0, 1, failAt);
    assert [s][..0] == [];
    if k == 1 {
      assert [s][..1] == [s];
    }
  }

  /** Runs the statements in one transaction; a failure rolls back and stops it. */
  method Transaction(conn: Connection, stmts: seq<Statement>) returns (ok: bool)
    modifies conn
    ensures ok == TransactionOk(|old(conn.trace)|, stmts, conn.failAt)
    ensures conn.trace == old(conn.trace) + TransactionEvents(|old(conn.trace)|, stmts, conn.failAt)
  {
    ghost var t0 := |conn.trace|;
    ghost var k := CleanRun(t0, |stmts|, conn.failAt);
    conn.Begin();
    var i := 0;
    while i < |stmts|
      invariant 0 <= i <= k
      invariant conn.trace == old(conn.trace) + [Began] + Succeeded(stmts[..i])
    {
      assert |conn.trace| == TxnSlot(t0, i);
      var done := conn.Execute(stmts[i]);
      if !done {
        assert i == k;
        conn.Rollback();
        return false;
      }
      assert stmts[..i + 1][..i] == stmts[..i];
      i := i + 1;
    }
    conn.Commit();
    ok := true;
  }

  /** What a procedure left in the trace, and how it ended. */
  datatype Run = Run(events: seq<Event>, outcome: Outcome)

  /** Two transactions one after the other, begun when the trace has length t0; a failure
      in the first propagates and skips the second. */
  function TwoTransactionsRun(t0: nat, first: seq<Statement>, second: seq<Statement>, failAt: set<nat>): Run {
    var e1 := TransactionEvents(t0, first, failAt);
    if !TransactionOk(t0, first, failAt) then Run(e1, Raised(DatabaseError))
    else
      var t1 := t0 + |e1|;
      var e2 := TransactionEvents(t1, second, failAt);
      Run(e1 + e2, if TransactionOk(t1, second, failAt) then Done else Raised(DatabaseError))
  }

  method TwoTransactions(conn: Connection, first: seq<Statement>, second: seq<Statement>) returns (out: Outcome)
    modifies conn
    ensures var run := TwoTransactionsRun(|old(conn.trace)|, first, second, conn.failAt);
      conn.trace == old(conn.trace) + run.events && out == run.outcome
  {
    var ok := Transaction(conn, first);
    if !ok {
      return Raised(DatabaseError);
    }
    ok := Transaction(conn, second);
    out := if ok then Done else Raised(DatabaseError);
  }

  /** Two transactions that both commit execute all of the first's statements and then all
      of the second's; when the first fails, none of the second's runs. */
  lemma TwoTransactionsStatements(t0: nat, first: seq<Statement>, second: seq<Statement>, failAt: set<nat>)
    ensures var run := TwoTransactionsRun(t0, first, second, failAt);
      run.outcome == Done ==> Statements(run.events) == first + second
    ensures var run := TwoTransactionsRun(t0, first, second, failAt);
      !TransactionOk(t0, first, failAt) ==> Statements(run.events) == first[..CleanRun(t0, |first|, failAt) + 1]
  {
    TransactionAttempts(t0, first, failAt);
    if TransactionOk(t0, first, failAt) {
      var e1 := TransactionEvents(t0, first, failAt);
      var t1 := t0 + |e1|;
      TransactionAttempts(t1, second, failAt);
      StatementsAppend(e1, TransactionEvents(t1, second, failAt));
    }
  }

  /** A sweep runs every statement in its own transaction and swallows each failure. */
  function SweepEvents(t0: nat, stmts: seq<Statement>, failAt: set<nat>): (r: seq<Event>)
    ensures |r| == 3 * |stmts|
  {
    if stmts == [] then []
    else
      var n := |stmts| - 1;
      SweepEvents(t0, stmts[..n], failAt) + TxnEvents(t0 + 3 * n, stmts[n], failAt)
  }

  /** The trace index at which the i-th statement of a sweep started at t0 executes. */
  function SweepSlot(t0: nat, i: nat): nat { t0 + 3 * i + 1 }

  /** Whether some statement of a sweep started at t0 fails. */
  predicate SweepFailed(t0: nat, stmts: seq<Statement>, failAt: set<nat>) {
    exists i :: 0 <= i < |stmts| && SweepSlot(t0, i) in failAt
  }

  /** A sweep attempts every statement, in order, whatever fails along the way. */
  lemma {:induction false} SweepAttemptsAll(t0: nat, stmts: seq<Statement>, failAt: set<nat>)
    ensures Statements(SweepEvents(t0, stmts, failAt)) == stmts
  {
    if stmts != [] {
      var n := |stmts| - 1;
      SweepAttemptsAll(t0, stmts[..n], failAt);
      var last := TxnEvents(t0 + 3 * n, stmts[n], failAt);
      StatementsAppend(SweepEvents(t0, stmts[..n], failAt), last);
      TxnStatements(t0 + 3 * n, stmts[n], failAt);
      assert stmts == stmts[..n] + [stmts[n]];
    }
  }

  method Sweep(conn: Connection, stmts: seq<Statement>) returns (failed: bool)
    modifies conn
    ensures conn.trace == old(conn.trace) + SweepEvents(|old(conn.trace)|, stmts, conn.failAt)
    ensures failed == SweepFailed(|old(conn.trace)|, stmts, conn.failAt)
  {
    ghost var t0 := |conn.trace|;
    failed := false;
    var i := 0;
    while i < |stmts|
      invariant 0 <= i <= |stmts|
      invariant conn.trace == old(conn.trace) + SweepEvents(t0, stmts[..i], conn.failAt)
      invariant failed == SweepFailed(t0, stmts[..i], conn.failAt)
    {
      var ok := InTransaction(conn, stmts[i]);
      if !ok {
        failed := true;
      }
      assert stmts[..i + 1][..i] == stmts[..i];
      assert SweepSlot(t0, i) == |old(conn.trace)| + |SweepEvents(t0, stmts[..i], conn.failAt)| + 1;
      i := i + 1;
    }
    assert stmts[..i] == stmts;
  }

  /** Statements executed one after the other outside any transaction (autocommit), each
      failure swallowed. */
  function TolerantEvents(t0: nat, stmts: seq<Statement>, failAt: set<nat>): (r: seq<Event>)
    ensures |r| == |stmts|
  {
    if stmts == [] then []
    else
      var n := |stmts| - 1;
      TolerantEvents(t0, stmts[..n], failAt) + [Executed(stmts[n], TolerantSlot(t0, n) !in failAt)]
  }

  /** The trace index at which the i-th statement of an autocommit run started at t0 executes. */
  function TolerantSlot(t0: nat, i: nat): nat { t0 + i }

  predicate TolerantFailed(t0: nat, stmts: seq<Statement>, failAt: set<nat>) {
    exists i :: 0 <= i < |stmts| && TolerantSlot(t0, i) in failAt
  }

  lemma {:induction false} TolerantAttemptsAll(t0: nat, stmts: seq<Statement>, failAt: set<nat>)
    ensures Statements(TolerantEvents(t0, stmts, failAt)) == stmts
  {
    if stmts != [] {
      var n := |stmts| - 1;
      TolerantAttemptsAll(t0, stmts[..n], failAt);
      StatementsAppend(TolerantEvents(t0, stmts[..n], failAt), [Executed(stmts[n], TolerantSlot(t0, n) !in failAt)]);
      assert stmts == stmts[..n] + [stmts[n]];
    }
  }

  method ExecuteTolerant(conn: Connection, stmts: seq<Statement>) returns (failed: bool)
    modifies conn
    ensures conn.trace == old(conn.trace) + TolerantEvents(|old(conn.trace)|, stmts, conn.failAt)
    ensures failed == TolerantFailed(|old(conn.trace)|, stmts, conn.failAt)
  {
    ghost var t0 := |conn.trace|;
    failed := false;
    var i := 0;
    while i < |stmts|
      invariant 0 <= i <= |stmts|
      invariant conn.trace == old(conn.trace) + TolerantEvents(t0, stmts[..i], conn.failAt)
      invariant failed == TolerantFailed(t0, stmts[..i], conn.failAt)
    {
      assert |conn.trace| == t0 + i;
      var ok := conn.Execute(stmts[i]);
      if !ok {
        failed := true;
      }
      assert stmts[..i + 1][..i] == stmts[..i];
      i := i + 1;
    }
    assert stmts[..i] == stmts;
  }

  /** One step of an autocommit procedure: statements attempted one after the other, each
      failure swallowed, and the error raised after the last of them when any failed. */
  datatype Step = Step(stmts: seq<Statement>, error: Error)

  function StepRun(t0: nat, step: Step, failAt: set<nat>): Run {
    Run(TolerantEvents(t0, step.stmts, failAt),
        if TolerantFailed(t0, step.stmts, failAt) then Raised(step.error) else Done)
  }

  /** Steps one after the other, begun when the trace has length t0; a step that raises ends
      the procedure with its error and skips the later ones. */
  function StepsRun(t0: nat, steps: seq<Step>, failAt: set<nat>): Run
    decreases |steps|
  {
    if steps == [] then Run([], Done)
    else
      var first := StepRun(t0, steps[0], failAt);
      if first.outcome.Raised? then first
      else
        var rest := StepsRun(t0 + |steps[0].stmts|, steps[1..], failAt);
        Run(first.events + rest.events, rest.outcome)
  }

  method RunSteps(conn: Connection, steps: seq<Step>) returns (out: Outcome)
    modifies conn
    ensures var run := StepsRun(|old(conn.trace)|, steps, conn.failAt);
      conn.trace == old(conn.trace) + run.events && out == run.outcome
    decreases |steps|
  {
    if steps == [] {
      return Done;
    }
    var failed := ExecuteTolerant(conn, steps[0].stmts);
    if failed {
      return Raised(steps[0].error);
    }
    ghost var mid := conn.trace;
    out := RunSteps(conn, steps[1..]);
    assert conn.trace == old(conn.trace) + (mid[|old(conn.trace)|..] + conn.trace[|mid|..]);
  }

  /** All the statements of the steps, in order. */
  function AllStatements(steps: seq<Step>): seq<Statement> {
    if steps == [] then [] else steps[0].stmts + AllStatements(steps[1..])
  }

  /** A failure among the statements of a + b is one among a's or one among b's. */
  lemma TolerantFailedAppend(t0: nat, a: seq<Statement>, b: seq<Statement>, failAt: set<nat>)
    ensures TolerantFailed(t0, a + b, failAt) <==> TolerantFailed(t0, a, failAt) || TolerantFailed(t0 + |a|, b, failAt)
  {
    if TolerantFailed(t0 + |a|, b, failAt) {
      var j :| 0 <= j < |b| && TolerantSlot(t0 + |a|, j) in failAt;
      assert TolerantSlot(t0, |a| + j) in failAt;
    }
    if TolerantFailed(t0, a + b, failAt) && !TolerantFailed(t0, a, failAt) {
      var j :| 0 <= j < |a + b| && TolerantSlot(t0, j) in failAt;
      assert TolerantSlot(t0 + |a|, j - |a|) in failAt;
    }
  }

  /** A run raises nothing exactly when no statement of any step fails. */
  lemma {:induction false} StepsDoneIff(t0: nat, steps: seq<Step>, failAt: set<nat>)
    ensures StepsRun(t0, steps, failAt).outcome == Done <==> !TolerantFailed(t0, AllStatements(steps), failAt)
    decreases |steps|
  {
    if steps != [] {
      StepsDoneIff(t0 + |steps[0].stmts|, steps[1..], failAt);
      TolerantFailedAppend(t0, steps[0].stmts, AllStatements(steps[1..]), failAt);
    }
  }

  /** A run that raised nothing attempted every statement of every step, in order. */
  lemma {:induction false} StepsDoneStatements(t0: nat, steps: seq<Step>, failAt: set<nat>)
    requires StepsRun(t0, steps, failAt).outcome == Done
    ensures Statements(StepsRun(t0, steps, failAt).events) == AllStatements(steps)
    decreases |steps|
  {
    if steps != [] {
      var first := StepRun(t0, steps[0], failAt);
      var rest := StepsRun(t0 + |steps[0].stmts|, steps[1..], failAt);
      TolerantAttemptsAll(t0, steps[0].stmts, failAt);
      StepsDoneStatements(t0 + |steps[0].stmts|, steps[1..], failAt);
      StatementsAppend(first.events, rest.events);
    }
  }

  /** A run that raised, raised the error of one of its steps. */
  lemma {:induction false} StepsRaisedError(t0: nat, steps: seq<Step>, failAt: set<nat>)
    requires StepsRun(t0, steps, failAt).outcome.Raised?
    ensures exists k :: 0 <= k < |steps| && StepsRun(t0, steps, failAt).outcome.error == steps[k].error
    decreases |steps|
  {
    if !StepRun(t0, steps[0], failAt).outcome.Raised? {
      var rest := StepsRun(t0 + |steps[0].stmts|, steps[1..], failAt);
      StepsRaisedError(t0 + |steps[0].stmts|, steps[1..], failAt);
      var k :| 0 <= k < |steps[1..]| && rest.outcome.error == steps[1..][k].error;
      assert steps[k + 1] == steps[1..][k];
    }
  }

  /** A run stops right after the first step that raises: it attempted the statements of the
      steps before it and of that step, and no more. */
  lemma {:induction false} StepsStop(t0: nat, steps: seq<Step>, failAt: set<nat>, k: nat)
    requires k < |steps|
    requires StepsRun(t0, steps[..k], failAt).outcome == Done
    requires TolerantFailed(t0 + |AllStatements(steps[..k])|, steps[k].stmts, failAt)
    ensures var run := StepsRun(t0, steps, failAt);
      run.outcome == Raised(steps[k].error) && Statements(run.events) == AllStatements(steps[..k + 1])
    decreases k
  {
    var n := |steps[0].stmts|;
    if k == 0 {
      TolerantAttemptsAll(t0, steps[0].stmts, failAt);
      assert AllStatements(steps[..1]) == steps[0].stmts by {
        assert steps[..1][1..] == [];
      }
    } else {
      AllStatementsPrefix(steps, k);
      assert steps[1..][k - 1] == steps[k];
      StepsStop(t0 + n, steps[1..], failAt, k - 1);
      StepsStopCons(t0, steps, failAt, k);
    }
  }

  /** The step of that induction: the first step passed, the rest stopped at step k. */
  lemma StepsStopCons(t0: nat, steps: seq<Step>, failAt: set<nat>, k: nat)
    requires 0 < k < |steps| && !TolerantFailed(t0, steps[0].stmts, failAt)
    requires var rest := StepsRun(t0 + |steps[0].stmts|, steps[1..], failAt);
      rest.outcome == Raised(steps[k].error) && Statements(rest.events) == AllStatements(steps[1..][..k])
    ensures var run := StepsRun(t0, steps, failAt);
      run.outcome == Raised(steps[k].error) && Statements(run.events) == AllStatements(steps[..k + 1])
  {
    var first := StepRun(t0, steps[0], failAt);
    var rest := StepsRun(t0 + |steps[0].stmts|, steps[1..], failAt);
    TolerantAttemptsAll(t0, steps[0].stmts, failAt);
    AllStatementsPrefix(steps, k + 1);
    StatementsAppend(first.events, rest.events);
  }

  /** The statements of a non-empty prefix: the first step's, then those of the rest. */
  lemma AllStatementsPrefix(steps: seq<Step>, k: nat)
    requires 0 < k <= |steps|
    ensures steps[..k][0] == steps[0] && steps[..k][1..] == steps[1..][..k - 1]
    ensures AllStatements(steps[..k]) == steps[0].stmts + AllStatements(steps[1..][..k - 1])
  {
    assert steps[..k][0] == steps[0] && steps[..k][1..] == steps[1..][..k - 1];
  }

  lemma AllStatementsTwo(a: Step, b: Step)
    ensures AllStatements([a]) == a.stmts
    ensures AllStatements([a, b]) == a.stmts + b.stmts
  {
    assert [a][1..] == [] && [b][1..] == [];
    assert a.stmts + [] == a.stmts && b.stmts + [] == b.stmts;
    assert [a, b][1..] == [b];
  }

  lemma AllStatementsThree(a: Step, b: Step, c: Step)
    ensures AllStatements([a, b, c]) == a.stmts + b.stmts + c.stmts
  {
    assert [a, b, c][1..] == [b, c];
    AllStatementsTwo(b, c);
  }

  /** Three steps that raised nothing attempted their statements in order. */
  lemma StepsDoneThree(t0: nat, a: Step, b: Step, c: Step, failAt: set<nat>)
    requires StepsRun(t0, [a, b, c], failAt).outcome == Done
    ensures Statements(StepsRun(t0, [a, b, c], failAt).events) == a.stmts + b.stmts + c.stmts
  {
    StepsDoneStatements(t0, [a, b, c], failAt);
    AllStatementsThree(a, b, c);
  }

  /** A first step that raises ends the run with its error, after its own statements. */
  lemma StepsFirstRaises(t0: nat, steps: seq<Step>, failAt: set<nat>)
    requires steps != [] && TolerantFailed(t0, steps[0].stmts, failAt)
    ensures StepsRun(t0, steps, failAt).outcome == Raised(steps[0].error)
    ensures Statements(StepsRun(t0, steps, failAt).events) == steps[0].stmts
  {
    TolerantAttemptsAll(t0, steps[0].stmts, failAt);
  }

  /** The same, when the statement at position i of the first step fails. */
  lemma StepsFailingSlot(t0: nat, steps: seq<Step>, failAt: set<nat>, i: nat)
    requires steps != [] && i < |steps[0].stmts| && TolerantSlot(t0, i) in failAt
    ensures StepsRun(t0, steps, failAt).outcome == Raised(steps[0].error)
    ensures Statements(StepsRun(t0, steps, failAt).events) == steps[0].stmts
  {
    StepsFirstRaises(t0, steps, failAt);
  }

  /** When the first of two steps raises nothing, the run is the first's events then the second's. */
  lemma StepsSecond(t0: nat, a: Step, b: Step, failAt: set<nat>)
    requires !TolerantFailed(t0, a.stmts, failAt)
    ensures var run := StepsRun(t0, [a, b], failAt);
      var second := StepRun(t0 + |a.stmts|, b, failAt);
      Statements(run.events) == a.stmts + b.stmts && run.outcome == second.outcome
  {
    var t1 := t0 + |a.stmts|;
    assert [a, b][1..] == [b];
    StepsTail(t0, [a, b], failAt);
    StepsSingle(t1, b, failAt);
  }

  /** A single step runs as the step itself. */
  lemma StepsSingle(t0: nat, b: Step, failAt: set<nat>)
    ensures var run := StepsRun(t0, [b], failAt);
      Statements(run.events) == b.stmts && run.outcome == StepRun(t0, b, failAt).outcome
  {
    var second := StepRun(t0, b, failAt);
    assert [b][1..] == [];
    assert StepsRun(t0 + |b.stmts|, [b][1..], failAt) == Run([], Done);
    AppendNil(second.events);
    TolerantAttemptsAll(t0, b.stmts, failAt);
  }

  /** When the first step raises nothing, the run goes on with the remaining steps. */
  lemma StepsTail(t0: nat, steps: seq<Step>, failAt: set<nat>)
    requires steps != [] && !TolerantFailed(t0, steps[0].stmts, failAt)
    ensures var run := StepsRun(t0, steps, failAt);
      var rest := StepsRun(t0 + |steps[0].stmts|, steps[1..], failAt);
      Statements(run.events) == steps[0].stmts + Statements(rest.events) && run.outcome == rest.outcome
  {
    var rest := StepsRun(t0 + |steps[0].stmts|, steps[1..], failAt);
    TolerantAttemptsAll(t0, steps[0].stmts, failAt);
    StatementsAppend(StepRun(t0, steps[0], failAt).events, rest.events);
  }
}
