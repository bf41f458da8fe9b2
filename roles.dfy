/** Role lifecycle (backend/app/app/use_case/role/role_role.py): creating a role, renaming and
    altering it in one transaction, dropping it through an ordered list of fallback
    strategies, and looking one up by name. */
module Roles {
  import opened Outcomes
  import opened Collections
  import opened Session
  import opened RoleRecords

  /** RoleCreateDTO. */
  datatype RoleCreate = RoleCreate(
    rolname: string, password: string,
    rolsuper: bool, rolcreaterole: bool, rolcreatedb: bool, rolinherit: bool, rolcanlogin: bool)

  /** RoleUpdateDTO: the password may be absent. */
  datatype RoleUpdate = RoleUpdate(
    rolname: string, password: Option<string>,
    rolsuper: bool, rolcreaterole: bool, rolcreatedb: bool, rolinherit: bool, rolcanlogin: bool)

  // ---------------------------------------------------------------- keywords

  /** The five capabilities, in the order of the FORMAT arguments. */
  const CapabilityWords: seq<string> := ["SUPERUSER", "CREATEROLE", "CREATEDB", "INHERIT", "LOGIN"]

  /** A capability keyword: the word when the flag is set, and its NO form otherwise. */
  function Keyword(flag: bool, word: string): (r: string)
    ensures r == word <==> flag
    ensures !flag ==> r == "NO" + word
  {
    if flag then word else "NO" + word
  }

  /** The keyword list of the FORMAT call: at each position the capability word when its
      flag is set, and its NO form otherwise. */
  function Keywords(flags: seq<bool>): (r: seq<string>)
    requires |flags| == |CapabilityWords|
    ensures |r| == |CapabilityWords|
    ensures forall i :: 0 <= i < |r| ==> (r[i] == CapabilityWords[i] <==> flags[i])
    ensures forall i :: 0 <= i < |r| ==> !flags[i] ==> r[i] == "NO" + CapabilityWords[i]
  {
    seq(|CapabilityWords|, i requires 0 <= i < |CapabilityWords| => Keyword(flags[i], CapabilityWords[i]))
  }

  /** The flags a keyword list grants: the positive word at each position. */
  function ReadFlags(keywords: seq<string>): (r: seq<bool>)
    requires |keywords| == |CapabilityWords|
    ensures |r| == |CapabilityWords|
  {
    seq(|CapabilityWords|, i requires 0 <= i < |CapabilityWords| => keywords[i] == CapabilityWords[i])
  }

  /** Each keyword is chosen by its own flag: reading the keywords back gives the flags. */
  lemma KeywordsReadBack(flags: seq<bool>)
    requires |flags| == |CapabilityWords|
    ensures ReadFlags(Keywords(flags)) == flags
    ensures forall i :: 0 <= i < |CapabilityWords| ==>
      Keywords(flags)[i] == CapabilityWords[i] || Keywords(flags)[i] == "NO" + CapabilityWords[i]
  {
    var r := ReadFlags(Keywords(flags));
    forall i | 0 <= i < |CapabilityWords|
      ensures r[i] == flags[i]
    {
      assert Keywords(flags)[i] == Keyword(flags[i], CapabilityWords[i]);
    }
  }

  function CreateFlags(d: RoleCreate): (r: seq<bool>)
    ensures |r| == |CapabilityWords|
  {
    [d.rolsuper, d.rolcreaterole, d.rolcreatedb, d.rolinherit, d.rolcanlogin]
  }

  function UpdateFlags(d: RoleUpdate): (r: seq<bool>)
    ensures |r| == |CapabilityWords|
  {
    [d.rolsuper, d.rolcreaterole, d.rolcreatedb, d.rolinherit, d.rolcanlogin]
  }

  // -------------------------------------------------------------- statements

  /** _create_role: the PASSWORD clause is always present, with the password as given. */
  function CreateStatement(d: RoleCreate): (r: Statement)
    ensures r.CreateRole? && |r.capabilities| == |CapabilityWords| && r.rolname == d.rolname && r.password == d.password
    ensures ReadFlags(r.capabilities) == CreateFlags(d)
  {
    KeywordsReadBack(CreateFlags(d));
    CreateRole(d.rolname, Keywords(CreateFlags(d)), d.password)
  }

  /** The last FORMAT argument of _alter_role: a PASSWORD clause only for a non-empty password. */
  function PasswordClause(password: Option<string>): (r: string)
    ensures r == "" <==> !Truthy(password)
    ensures Truthy(password) ==> r == "PASSWORD '" + password.value + "'"
  {
    if Truthy(password) then "PASSWORD '" + password.value + "'" else ""
  }

  /** _alter_role: it targets the new name of the role. */
  function AlterStatement(d: RoleUpdate): (r: Statement)
    ensures r.AlterRole? && |r.capabilities| == |CapabilityWords| && r.rolname == d.rolname
    ensures ReadFlags(r.capabilities) == UpdateFlags(d)
    ensures r.passwordClause == "" <==> !Truthy(d.password)
  {
    KeywordsReadBack(UpdateFlags(d));
    AlterRole(d.rolname, Keywords(UpdateFlags(d)), PasswordClause(d.password))
  }

  /** _rename_role: nothing when the name is unchanged, otherwise one rename from old to new. */
  function RenameIssues(rolname: string, d: RoleUpdate): (r: seq<Statement>)
    ensures r == [] <==> rolname == d.rolname
    ensures |r| <= 1
    ensures forall s :: s in r ==> s == RenameRole(rolname, d.rolname)
  {
    if rolname == d.rolname then [] else [RenameRole(rolname, d.rolname)]
  }

  /** update_role: the rename, then the alteration, in one transaction. */
  function UpdateStatements(rolname: string, d: RoleUpdate): (r: seq<Statement>)
    ensures |r| == (if rolname == d.rolname then 1 else 2)
    ensures r[|r| - 1] == AlterStatement(d) && r[|r| - 1].rolname == d.rolname
    ensures rolname != d.rolname ==> r[0] == RenameRole(rolname, d.rolname)
  {
    RenameIssues(rolname, d) + [AlterStatement(d)]
  }

  /** The alteration comes last and targets the new name; a rename, when there is one, comes
      first and goes from the old name to the new one. */
  lemma UpdateOrder(rolname: string, d: RoleUpdate)
    ensures var s := UpdateStatements(rolname, d);
      s[|s| - 1] == AlterStatement(d) && s[|s| - 1].rolname == d.rolname &&
      (rolname == d.rolname ==> s == [AlterStatement(d)]) &&
      (rolname != d.rolname ==> s == [RenameRole(rolname, d.rolname), AlterStatement(d)])
  {
  }

  method UpdateRole(conn: Connection, rolname: string, d: RoleUpdate) returns (out: Outcome)
    modifies conn
    ensures conn.trace == old(conn.trace) + TransactionEvents(|old(conn.trace)|, UpdateStatements(rolname, d), conn.failAt)
    ensures out == if TransactionOk(|old(conn.trace)|, UpdateStatements(rolname, d), conn.failAt)
                   then Done else Raised(DatabaseError)
  {
    var ok := Transaction(conn, UpdateStatements(rolname, d));
    out := if ok then Done else Raised(DatabaseError);
  }

  /** A committed update issued exactly the rename (if any) and the alteration, in that order. */
  lemma UpdateCommitted(t0: nat, rolname: string, d: RoleUpdate, failAt: set<nat>)
    requires TransactionOk(t0, UpdateStatements(rolname, d), failAt)
    ensures Statements(TransactionEvents(t0, UpdateStatements(rolname, d), failAt)) ==
      RenameIssues(rolname, d) + [AlterStatement(d)]
  {
    TransactionAttempts(t0, UpdateStatements(rolname, d), failAt);
  }

  /** ensure_role. */
  method EnsureRole(conn: Connection, d: RoleCreate) returns (out: Outcome)
    modifies conn
    ensures conn.trace == old(conn.trace) + TxnEvents(|old(conn.trace)|, CreateStatement(d), conn.failAt)
    ensures out == if TxnSlot(|old(conn.trace)|, 0) !in conn.failAt then Done else Raised(DatabaseError)
  {
    SingleTransaction(|conn.trace|, CreateStatement(d), conn.failAt);
    var ok := Transaction(conn, [CreateStatement(d)]);
    out := if ok then Done else Raised(DatabaseError);
  }

  // --------------------------------------------------------------- dropping

  /** The strategies drop_role tries, in its order. */
  datatype DropStrategy = DirectDrop | InstallDblink | ReassignV1 | ReassignV2

  const DropStrategies: seq<DropStrategy> := [DirectDrop, InstallDblink, ReassignV1, ReassignV2]

  /** The statements of one strategy's transaction. */
  function StrategyStatements(s: DropStrategy, dbuser: string): (r: seq<Statement>)
    ensures r != []
    ensures s != InstallDblink ==> r[|r| - 1] == DropRole(dbuser)
  {
    match s
    case DirectDrop => [DropRole(dbuser)]
    case InstallDblink => [CreateDblinkExtension]
    case ReassignV1 => [ReassignOwnedV1(dbuser), DropRole(dbuser)]
    case ReassignV2 => [ReassignOwnedV2(dbuser), DropRole(dbuser)]
  }

  /** What trying one strategy leaves in the trace, and whether it reported the role deleted. */
  datatype Attempt = Attempt(events: seq<Event>, deleted: bool)

  /** One strategy begun when the trace has length t0: a failure rolls its transaction back and
      is swallowed; the dblink step does nothing unless installDblink (the INSTALL_DBLINK
      setting) is on, and reports False either way. */
  function StrategyAttempt(t0: nat, s: DropStrategy, dbuser: string, installDblink: bool, failAt: set<nat>): (r: Attempt)
    ensures s == InstallDblink ==> !r.deleted
  {
    match s
    case DirectDrop => Attempt(TxnEvents(t0, DropRole(dbuser), failAt), TxnSlot(t0, 0) !in failAt)
    case InstallDblink =>
      if installDblink then Attempt(TxnEvents(t0, CreateDblinkExtension, failAt), false) else Attempt([], false)
    case ReassignV1 =>
      Attempt(Txn2Events(t0, ReassignOwnedV1(dbuser), DropRole(dbuser), failAt),
              TxnSlot(t0, 0) !in failAt && TxnSlot(t0, 1) !in failAt)
    case ReassignV2 =>
      Attempt(Txn2Events(t0, ReassignOwnedV2(dbuser), DropRole(dbuser), failAt),
              TxnSlot(t0, 0) !in failAt && TxnSlot(t0, 1) !in failAt)
  }

  /** Each strategy is the transaction of its statements. */
  lemma StrategyIsTransaction(t0: nat, s: DropStrategy, dbuser: string, installDblink: bool, failAt: set<nat>)
    requires s != InstallDblink || installDblink
    ensures var a := StrategyAttempt(t0, s, dbuser, installDblink, failAt);
      var stmts := StrategyStatements(s, dbuser);
      a.events == TransactionEvents(t0, stmts, failAt) &&
      a.deleted == (s != InstallDblink && TransactionOk(t0, stmts, failAt))
  {
    match s
    case DirectDrop => SingleTransaction(t0, DropRole(dbuser), failAt);
    case InstallDblink => SingleTransaction(t0, CreateDblinkExtension, failAt);
    case ReassignV1 => PairTransaction(t0, ReassignOwnedV1(dbuser), DropRole(dbuser), failAt);
    case ReassignV2 => PairTransaction(t0, ReassignOwnedV2(dbuser), DropRole(dbuser), failAt);
  }

  /** A strategy reports the role deleted only after its whole transaction, which ends with
      DROP ROLE, committed. This rests on COMMIT never failing: the source sets `deleted`
      before the commit, so a failed COMMIT would still report the role deleted. */
  lemma DeletedMeansDropped(t0: nat, s: DropStrategy, dbuser: string, installDblink: bool, failAt: set<nat>)
    requires StrategyAttempt(t0, s, dbuser, installDblink, failAt).deleted
    ensures var a := StrategyAttempt(t0, s, dbuser, installDblink, failAt);
      var stmts := Statements(a.events);
      stmts == StrategyStatements(s, dbuser) && stmts[|stmts| - 1] == DropRole(dbuser) &&
      a.events[|a.events| - 1] == Committed
  {
    StrategyIsTransaction(t0, s, dbuser, installDblink, failAt);
    TransactionAttempts(t0, StrategyStatements(s, dbuser), failAt);
  }

  method TryStrategy(conn: Connection, s: DropStrategy, dbuser: string, installDblink: bool) returns (deleted: bool)
    modifies conn
    ensures var a := StrategyAttempt(|old(conn.trace)|, s, dbuser, installDblink, conn.failAt);
      conn.trace == old(conn.trace) + a.events && deleted == a.deleted
  {
    if s == InstallDblink && !installDblink {
      return false;
    }
    StrategyIsTransaction(|conn.trace|, s, dbuser, installDblink, conn.failAt);
    var ok := Transaction(conn, StrategyStatements(s, dbuser));
    deleted := s != InstallDblink && ok;
  }

  /** The strategies of ss tried in order from trace length t0, up to the first that reports
      the role deleted; DoneWithErrors(role) when none does. */
  function DropRun(t0: nat, ss: seq<DropStrategy>, dbuser: string, installDblink: bool, failAt: set<nat>): (r: Run)
    ensures r.outcome == Done || r.outcome == Raised(DoneWithErrors(Some(dbuser)))
  {
    if ss == [] then Run([], Raised(DoneWithErrors(Some(dbuser))))
    else
      var n := |ss| - 1;
      var prev := DropRun(t0, ss[..n], dbuser, installDblink, failAt);
      if prev.outcome == Done then prev
      else
        var a := StrategyAttempt(t0 + |prev.events|, ss[n], dbuser, installDblink, failAt);
        Run(prev.events + a.events, if a.deleted then Done else prev.outcome)
  }

  /** Once a strategy has succeeded, later strategies change nothing. */
  lemma {:induction false} DropRunStops(t0: nat, ss: seq<DropStrategy>, k: nat, dbuser: string, installDblink: bool,
                                        failAt: set<nat>)
    requires k <= |ss| && DropRun(t0, ss[..k], dbuser, installDblink, failAt).outcome == Done
    ensures DropRun(t0, ss, dbuser, installDblink, failAt) == DropRun(t0, ss[..k], dbuser, installDblink, failAt)
    decreases |ss|
  {
    if k < |ss| {
      var n := |ss| - 1;
      assert ss[..n][..k] == ss[..k];
      DropRunStops(t0, ss[..n], k, dbuser, installDblink, failAt);
      assert DropRun(t0, ss, dbuser, installDblink, failAt) == DropRun(t0, ss[..n], dbuser, installDblink, failAt);
    } else {
      assert ss[..k] == ss;
    }
  }

  /** One more strategy, tried when none before it succeeded. */
  lemma DropRunSnoc(t0: nat, ss: seq<DropStrategy>, i: nat, dbuser: string, installDblink: bool, failAt: set<nat>)
    requires i < |ss| && DropRun(t0, ss[..i], dbuser, installDblink, failAt).outcome.Raised?
    ensures var prev := DropRun(t0, ss[..i], dbuser, installDblink, failAt);
      var a := StrategyAttempt(t0 + |prev.events|, ss[i], dbuser, installDblink, failAt);
      DropRun(t0, ss[..i + 1], dbuser, installDblink, failAt) ==
        Run(prev.events + a.events, if a.deleted then Done else prev.outcome)
  {
    assert ss[..i + 1][..i] == ss[..i];
  }

  /** One turn of the loop of drop_role: the trace grows by the strategy's attempt, and a
      success ends the whole run. */
  lemma DropStep(t0: nat, ss: seq<DropStrategy>, i: nat, dbuser: string, installDblink: bool, failAt: set<nat>,
                 trace0: seq<Event>, before: seq<Event>, after: seq<Event>, deleted: bool)
    requires i < |ss| && DropRun(t0, ss[..i], dbuser, installDblink, failAt).outcome.Raised?
    requires |trace0| == t0 && before == trace0 + DropRun(t0, ss[..i], dbuser, installDblink, failAt).events
    requires var a := StrategyAttempt(|before|, ss[i], dbuser, installDblink, failAt);
      after == before + a.events && deleted == a.deleted
    ensures after == trace0 + DropRun(t0, ss[..i + 1], dbuser, installDblink, failAt).events
    ensures deleted ==> DropRun(t0, ss, dbuser, installDblink, failAt) == DropRun(t0, ss[..i + 1], dbuser, installDblink, failAt)
    ensures deleted <==> DropRun(t0, ss[..i + 1], dbuser, installDblink, failAt).outcome == Done
  {
    var prev := DropRun(t0, ss[..i], dbuser, installDblink, failAt);
    var a := StrategyAttempt(t0 + |prev.events|, ss[i], dbuser, installDblink, failAt);
    assert |before| == t0 + |prev.events|;
    DropRunSnoc(t0, ss, i, dbuser, installDblink, failAt);
    AppendAssoc(trace0, prev.events, a.events);
    DropStepStops(t0, ss, i, dbuser, installDblink, failAt, deleted);
  }

  lemma DropStepStops(t0: nat, ss: seq<DropStrategy>, i: nat, dbuser: string, installDblink: bool, failAt: set<nat>,
                      deleted: bool)
    requires i < |ss| && DropRun(t0, ss[..i], dbuser, installDblink, failAt).outcome.Raised?
    requires deleted == AttemptAt(t0, ss, i, dbuser, installDblink, failAt).deleted
    ensures deleted ==> DropRun(t0, ss, dbuser, installDblink, failAt) == DropRun(t0, ss[..i + 1], dbuser, installDblink, failAt)
    ensures deleted <==> DropRun(t0, ss[..i + 1], dbuser, installDblink, failAt).outcome == Done
  {
    DropRunSnoc(t0, ss, i, dbuser, installDblink, failAt);
    if deleted {
      DropRunStops(t0, ss, i + 1, dbuser, installDblink, failAt);
    }
  }

  /** The loop of drop_role over a list of strategies, returning at the first success. */
  method DropWith(conn: Connection, ss: seq<DropStrategy>, dbuser: string, installDblink: bool) returns (out: Outcome)
    modifies conn
    ensures var run := DropRun(|old(conn.trace)|, ss, dbuser, installDblink, conn.failAt);
      conn.trace == old(conn.trace) + run.events && out == run.outcome
  {
    ghost var t0 := |conn.trace|;
    var i := 0;
    while i < |ss|
      invariant 0 <= i <= |ss|
      invariant var run := DropRun(t0, ss[..i], dbuser, installDblink, conn.failAt);
        conn.trace == old(conn.trace) + run.events && run.outcome.Raised?
    {
      ghost var before := conn.trace;
      var deleted := TryStrategy(conn, ss[i], dbuser, installDblink);
      DropStep(t0, ss, i, dbuser, installDblink, conn.failAt, old(conn.trace), before, conn.trace, deleted);
      if deleted {
        return Done;
      }
      i := i + 1;
    }
    assert ss[..i] == ss;
    out := Raised(DoneWithErrors(Some(dbuser)));
  }

  /** drop_role: direct drop, dblink install, reassign v1, reassign v2. */
  method DropRoleProc(conn: Connection, dbuser: string, installDblink: bool) returns (out: Outcome)
    modifies conn
    ensures var run := DropRun(|old(conn.trace)|, DropStrategies, dbuser, installDblink, conn.failAt);
      conn.trace == old(conn.trace) + run.events && out == run.outcome
  {
    out := DropWith(conn, DropStrategies, dbuser, installDblink);
  }

  /** The k-th strategy as it is tried when every one before it failed. */
  function AttemptAt(t0: nat, ss: seq<DropStrategy>, k: nat, dbuser: string, installDblink: bool, failAt: set<nat>): Attempt
    requires k < |ss|
  {
    StrategyAttempt(t0 + |DropRun(t0, ss[..k], dbuser, installDblink, failAt).events|, ss[k], dbuser, installDblink, failAt)
  }

  /** Every strategy, each tried after the previous ones failed, reports False. */
  predicate AllFail(t0: nat, ss: seq<DropStrategy>, dbuser: string, installDblink: bool, failAt: set<nat>) {
    forall k :: 0 <= k < |ss| ==> !AttemptAt(t0, ss, k, dbuser, installDblink, failAt).deleted
  }

  lemma AllFailSnoc(t0: nat, ss: seq<DropStrategy>, dbuser: string, installDblink: bool, failAt: set<nat>)
    requires ss != []
    ensures var n := |ss| - 1;
      AllFail(t0, ss, dbuser, installDblink, failAt) <==>
        AllFail(t0, ss[..n], dbuser, installDblink, failAt) && !AttemptAt(t0, ss, n, dbuser, installDblink, failAt).deleted
  {
    var n := |ss| - 1;
    forall k | 0 <= k < n
      ensures AttemptAt(t0, ss, k, dbuser, installDblink, failAt) == AttemptAt(t0, ss[..n], k, dbuser, installDblink, failAt)
    {
      assert ss[..n][..k] == ss[..k];
    }
  }

  /** drop_role raises DoneWithErrors(role) exactly when every strategy, each tried after the
      previous ones failed, reports False. */
  lemma {:induction false} DropFailsIffAllFail(t0: nat, ss: seq<DropStrategy>, dbuser: string, installDblink: bool,
                                               failAt: set<nat>)
    ensures DropRun(t0, ss, dbuser, installDblink, failAt).outcome == Raised(DoneWithErrors(Some(dbuser))) <==>
      AllFail(t0, ss, dbuser, installDblink, failAt)
    decreases |ss|
  {
    if ss != [] {
      var n := |ss| - 1;
      DropFailsIffAllFail(t0, ss[..n], dbuser, installDblink, failAt);
      AllFailSnoc(t0, ss, dbuser, installDblink, failAt);
      if DropRun(t0, ss[..n], dbuser, installDblink, failAt).outcome == Done {
        DropRunStops(t0, ss, n, dbuser, installDblink, failAt);
      } else {
        DropStepStops(t0, ss, n, dbuser, installDblink, failAt, AttemptAt(t0, ss, n, dbuser, installDblink, failAt).deleted);
        assert ss[..n + 1] == ss;
      }
    }
  }

  /** A direct drop that succeeds ends drop_role at once: one transaction, one DROP ROLE. */
  lemma DirectDropWins(t0: nat, dbuser: string, installDblink: bool, failAt: set<nat>)
    requires TxnSlot(t0, 0) !in failAt
    ensures var run := DropRun(t0, DropStrategies, dbuser, installDblink, failAt);
      run.outcome == Done && Statements(run.events) == [DropRole(dbuser)]
  {
    var first := DropStrategies[..1];
    assert first == [DirectDrop] && first[..0] == [];
    SingleTransaction(t0, DropRole(dbuser), failAt);
    TransactionAttempts(t0, [DropRole(dbuser)], failAt);
    var a := StrategyAttempt(t0, DirectDrop, dbuser, installDblink, failAt);
    assert a.deleted;
    assert DropRun(t0, first, dbuser, installDblink, failAt) == Run([] + a.events, Done);
    assert [] + a.events == a.events;
    DropRunStops(t0, DropStrategies, 1, dbuser, installDblink, failAt);
  }

  /** Trying the dblink step never changes how a drop ends: appending it to any strategy list
      keeps the outcome. */
  lemma DblinkNeverDecides(t0: nat, ss: seq<DropStrategy>, dbuser: string, installDblink: bool, failAt: set<nat>)
    ensures DropRun(t0, ss + [InstallDblink], dbuser, installDblink, failAt).outcome ==
      DropRun(t0, ss, dbuser, installDblink, failAt).outcome
  {
    assert (ss + [InstallDblink])[..|ss|] == ss;
  }

  /** One more strategy after a run: nothing once the run has succeeded, otherwise its attempt. */
  function Extend(t0: nat, prev: Run, s: DropStrategy, dbuser: string, installDblink: bool, failAt: set<nat>): Run {
    if prev.outcome == Done then prev
    else
      var a := StrategyAttempt(t0 + |prev.events|, s, dbuser, installDblink, failAt);
      Run(prev.events + a.events, if a.deleted then Done else prev.outcome)
  }

  lemma DropRunUnfold(t0: nat, init: seq<DropStrategy>, s: DropStrategy, dbuser: string, installDblink: bool,
                      failAt: set<nat>)
    ensures DropRun(t0, init + [s], dbuser, installDblink, failAt)
      == Extend(t0, DropRun(t0, init, dbuser, installDblink, failAt), s, dbuser, installDblink, failAt)
  {
    assert (init + [s])[..|init|] == init;
  }

  /** With INSTALL_DBLINK off, the dblink step leaves nothing behind wherever it stands in the
      list: the drop runs as if the step were not there. */
  lemma {:induction false} DblinkOffSkipped(t0: nat, pre: seq<DropStrategy>, post: seq<DropStrategy>, dbuser: string,
                                            failAt: set<nat>)
    ensures DropRun(t0, pre + [InstallDblink] + post, dbuser, false, failAt) == DropRun(t0, pre + post, dbuser, false, failAt)
    decreases |post|
  {
    if post == [] {
      assert pre + [InstallDblink] + post == pre + [InstallDblink];
      assert pre + post == pre;
      DropRunUnfold(t0, pre, InstallDblink, dbuser, false, failAt);
      var prev := DropRun(t0, pre, dbuser, false, failAt);
      assert prev.events + [] == prev.events;
    } else {
      var n := |post| - 1;
      var last := post[n];
      assert post == post[..n] + [last];
      assert pre + [InstallDblink] + post == (pre + [InstallDblink] + post[..n]) + [last];
      assert pre + post == (pre + post[..n]) + [last];
      DropRunUnfold(t0, pre + [InstallDblink] + post[..n], last, dbuser, false, failAt);
      DropRunUnfold(t0, pre + post[..n], last, dbuser, false, failAt);
      DblinkOffSkipped(t0, pre, post[..n], dbuser, failAt);
    }
  }

  /** drop_role with INSTALL_DBLINK off is the direct drop, then reassign v1, then reassign v2. */
  lemma DropRoleWithoutDblink(t0: nat, dbuser: string, failAt: set<nat>)
    ensures DropRun(t0, DropStrategies, dbuser, false, failAt) == DropRun(t0, [DirectDrop, ReassignV1, ReassignV2], dbuser, false, failAt)
  {
    assert DropStrategies == [DirectDrop] + [InstallDblink] + [ReassignV1, ReassignV2];
    assert [DirectDrop] + [ReassignV1, ReassignV2] == [DirectDrop, ReassignV1, ReassignV2];
    DblinkOffSkipped(t0, [DirectDrop], [ReassignV1, ReassignV2], dbuser, failAt);
  }

  // --------------------------------------------------------------- look-up

  /** The position of the first row with the given name, |roles| when there is none. */
  function FirstNamed(roles: seq<Role>, name: string): (i: nat)
    ensures i <= |roles|
    ensures i < |roles| ==> roles[i].rolname == name
    ensures forall j :: 0 <= j < i ==> roles[j].rolname != name
  {
    if roles == [] then 0
    else if roles[0].rolname == name then 0
    else 1 + FirstNamed(roles[1..], name)
  }

  /** get_role: the first pg_roles row with that name, NoSuchObject(name) when none matches. */
  function GetRole(roles: seq<Role>, dbuser: string): (r: Result<Role>)
    ensures r.Ok? ==> r.value in roles && r.value.rolname == dbuser
    ensures r == Err(NoSuchObject(dbuser)) <==> forall i :: 0 <= i < |roles| ==> roles[i].rolname != dbuser
    ensures r.Err? ==> r.error == NoSuchObject(dbuser)
  {
    var i := FirstNamed(roles, dbuser);
    if i < |roles| then Ok(roles[i]) else Err(NoSuchObject(dbuser))
  }

  /** With distinct names, get_role finds exactly the role of that name. */
  lemma GetRoleUnique(roles: seq<Role>, k: nat)
    requires k < |roles|
    requires forall i, j :: 0 <= i < j < |roles| ==> roles[i].rolname != roles[j].rolname
    ensures GetRole(roles, roles[k].rolname) == Ok(roles[k])
  {
    var i := FirstNamed(roles, roles[k].rolname);
    assert i <= k;
  }
}
