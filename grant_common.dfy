/** What the three grant modules (tables, schemas, databases) share: choosing privilege
    keywords from check-box flags, rendering the grantor and the grant option, finding the
    roles that granted a privilege, and the "reset revoke, deep revoke, grant, raise once"
    procedure of grant_on_table, grant_on_schema and grant_on_database. */
module GrantCommon {
  import opened Outcomes
  import opened Collections
  import opened AclCodec
  import opened Session

  /** r is a subsequence of names: its elements appear in names, in the same order. */
  predicate InOrder(r: seq<string>, names: seq<string>)
    decreases |names|
  {
    if r == [] then true
    else if names == [] then false
    else (r[0] == names[0] && InOrder(r[1..], names[1..])) || InOrder(r, names[1..])
  }

  /** The keywords whose flag equals want, in the order of the keyword table: with want true
      this is _calc_grant_options, with want false _calc_revoke_options without all. */
  function Checked(names: seq<string>, flags: seq<bool>, want: bool): (r: seq<string>)
    requires |names| == |flags|
    ensures InOrder(r, names)
    ensures forall x :: x in r <==> exists i :: 0 <= i < |names| && names[i] == x && flags[i] == want
    ensures NoDup(names) ==> NoDup(r)
    ensures |r| <= |names|
  {
    if names == [] then []
    else
      var rest := Checked(names[1..], flags[1..], want);
      assert forall i :: 1 <= i < |names| ==> names[1..][i - 1] == names[i] && flags[1..][i - 1] == flags[i];
      if flags[0] == want then
        assert NoDup(names) ==> names[0] !in rest by {
          forall x | x in rest
            ensures NoDup(names) ==> x != names[0]
          {
            var i :| 0 <= i < |names[1..]| && names[1..][i] == x && flags[1..][i] == want;
            assert names[i + 1] == x;
          }
        }
        [names[0]] + rest
      else rest
  }

  /** Without all, the grant list and the revoke list split the keyword table: they are
      disjoint, together hold every keyword, and hold each once. */
  lemma OptionsPartition(names: seq<string>, flags: seq<bool>)
    requires |names| == |flags| && NoDup(names)
    ensures ToSet(Checked(names, flags, true)) * ToSet(Checked(names, flags, false)) == {}
    ensures ToSet(Checked(names, flags, true)) + ToSet(Checked(names, flags, false)) == ToSet(names)
    ensures |Checked(names, flags, true)| + |Checked(names, flags, false)| == |names|
  {
    var g, v := Checked(names, flags, true), Checked(names, flags, false);
    forall x | x in g
      ensures x !in v
    {
      var i :| 0 <= i < |names| && names[i] == x && flags[i];
      forall j | 0 <= j < |names| && names[j] == x
        ensures flags[j]
      {
        assert i == j;
      }
    }
    forall x | x in names
      ensures x in g || x in v
    {
      var i :| 0 <= i < |names| && names[i] == x;
      if flags[i] { assert x in g; } else { assert x in v; }
    }
    CheckedLength(names, flags);
  }

  /** Nothing is listed exactly when no flag has the wanted value. */
  lemma NothingChecked(names: seq<string>, flags: seq<bool>)
    requires |names| == |flags|
    ensures Checked(names, flags, true) == [] <==> true !in flags
  {
    var r := Checked(names, flags, true);
    if true in flags {
      var i :| 0 <= i < |flags| && flags[i];
      assert names[i] in r;
    }
    if r != [] {
      assert r[0] in r;
    }
  }

  /** With distinct keywords, a keyword is listed exactly when its own flag says so. */
  lemma CheckedAt(names: seq<string>, flags: seq<bool>, want: bool, i: nat)
    requires |names| == |flags| && NoDup(names) && i < |names|
    ensures names[i] in Checked(names, flags, want) <==> flags[i] == want
  {
    if names[i] in Checked(names, flags, want) {
      var j :| 0 <= j < |names| && names[j] == names[i] && flags[j] == want;
      assert i == j;
    }
  }

  lemma {:induction false} CheckedLength(names: seq<string>, flags: seq<bool>)
    requires |names| == |flags|
    ensures |Checked(names, flags, true)| + |Checked(names, flags, false)| == |names|
  {
    if names != [] {
      CheckedLength(names[1..], flags[1..]);
    }
  }

  /** A keyword list is issued only when it is not empty: the helpers return before
      executing anything otherwise. */
  function IssuedIf(options: seq<string>, s: Statement): (r: seq<Statement>)
    ensures r == [] <==> options == []
    ensures r != [] ==> r == [s]
  {
    if options == [] then [] else [s]
  }

  /** The `grantor` parameter of an impersonated revoke: the quoted role name, or NONE
      (the session's own role) when there is no grantor or it is empty. */
  function GrantorParam(grantor: Option<string>): (r: string)
    ensures Truthy(grantor) ==> r == "\"" + grantor.value + "\""
    ensures !Truthy(grantor) ==> r == "NONE"
  {
    if Truthy(grantor) then "\"" + grantor.value + "\"" else "NONE"
  }

  /** The `with_grant_option` parameter. */
  function GrantOptionParam(withGrantOption: bool): (r: string)
    ensures r != "" <==> withGrantOption
    ensures withGrantOption ==> r == "WITH GRANT OPTION"
  {
    if withGrantOption then "WITH GRANT OPTION" else ""
  }

  /** The grantors of the rules whose grantee is role, in rule order. */
  function GrantorsOf(rules: seq<Privilege>, role: string): (r: seq<string>)
    ensures |r| <= |rules|
    ensures forall g :: g in r <==> exists i :: 0 <= i < |rules| && rules[i].grantee == role && rules[i].grantor == g
  {
    if rules == [] then []
    else
      var n := |rules| - 1;
      var init := GrantorsOf(rules[..n], role);
      assert forall i :: 0 <= i < n ==> rules[..n][i] == rules[i];
      if rules[n].grantee == role then init + [rules[n].grantor] else init
  }

  /** Filtering keeps the order of the rules: the grantors of a concatenation are those of
      its parts, one after the other. */
  lemma {:induction false} GrantorsOfAppend(a: seq<Privilege>, b: seq<Privilege>, role: string)
    ensures GrantorsOf(a + b, role) == GrantorsOf(a, role) + GrantorsOf(b, role)
    decreases |b|
  {
    if b == [] {
      assert a + b == a;
    } else {
      var n := |b| - 1;
      assert (a + b)[..|a + b| - 1] == a + b[..n];
      GrantorsOfAppend(a, b[..n], role);
    }
  }

  /** _grantors_of_*_acl: the grantors of the non-aggregated rules of an ACL whose grantee
      is role_specification. A rule that does not parse raises, with the parser's error. */
  function Grantors(acl: seq<string>, roleSpecification: string): (r: Result<seq<string>>)
    ensures r.Ok? <==> forall i :: 0 <= i < |acl| ==> ParseOne(acl[i]).Ok?
    ensures r.Err? ==> r.error.IsParseFailure() && exists i :: FirstFailure(acl, i) && ParseOne(acl[i]) == Err(r.error)
    ensures r.Ok? ==> forall g :: g in r.value <==>
      exists i :: 0 <= i < |acl| && ParseOne(acl[i]).value.grantee == roleSpecification && ParseOne(acl[i]).value.grantor == g
    ensures r.Ok? ==> forall i :: 0 <= i < |r.value| ==> r.value[i] != ""
  {
    var rules :- ParseBatch(acl);
    var r := GrantorsOf(rules, roleSpecification);
    forall i | 0 <= i < |r|
      ensures r[i] != ""
    {
      assert r[i] in r;
      var j :| 0 <= j < |rules| && rules[j].grantee == roleSpecification && rules[j].grantor == r[i];
      assert ParseOne(acl[j]) == Ok(rules[j]);
    }
    Ok(r)
  }

  /** One impersonated revoke per grantor, in order. */
  function Impersonations(revokeAs: Option<string> -> Statement, grantors: seq<string>): (r: seq<Statement>)
    ensures |r| == |grantors|
    ensures forall i :: 0 <= i < |grantors| ==> r[i] == revokeAs(Some(grantors[i]))
  {
    seq(|grantors|, i requires 0 <= i < |grantors| => revokeAs(Some(grantors[i])))
  }

  /** The grantors the deep revoke visits: none when it is switched off. */
  function DeepGrantors(deepRevoke: bool, acl: seq<string>, roleSpecification: string): (r: Result<seq<string>>)
    ensures !deepRevoke ==> r == Ok([])
    ensures deepRevoke ==> r == Grantors(acl, roleSpecification)
  {
    if deepRevoke then Grantors(acl, roleSpecification) else Ok([])
  }

  /** The second half of grant_on_*, begun when the trace has length t1: each grantor's
      revoke in its own transaction, failures only noted; then the grant statements in one
      transaction (a failure propagates); and last DoneWithErrors(name) when some revoke
      failed. */
  function RevokeThenGrantRun(t1: nat, revokeAs: Option<string> -> Statement, grant: seq<Statement>,
                              grantors: seq<string>, name: string, failAt: set<nat>): Run
  {
    var deep := Impersonations(revokeAs, grantors);
    var t2 := t1 + 3 * |deep|;
    var events := SweepEvents(t1, deep, failAt) + TransactionEvents(t2, grant, failAt);
    if !TransactionOk(t2, grant, failAt) then Run(events, Raised(DatabaseError))
    else if SweepFailed(t1, deep, failAt) then Run(events, Raised(DoneWithErrors(Some(name))))
    else Run(events, Done)
  }

  /** grant_on_*, begun when the trace has length t0: revokeAs(None) in its own transaction
      (a failure propagates); then, with the grantors read from the ACL (a parse failure
      propagates), the rest as RevokeThenGrantRun says. */
  function DeepGrantRun(t0: nat, revokeAs: Option<string> -> Statement, grant: seq<Statement>, deepRevoke: bool,
                        acl: seq<string>, roleSpecification: string, name: string, failAt: set<nat>): Run
  {
    GrantOnRun(t0, revokeAs, grant, DeepGrantors(deepRevoke, acl, roleSpecification), name, failAt)
  }

  /** The same for the grantors as found, whatever the ACL they were read from. */
  function GrantOnRun(t0: nat, revokeAs: Option<string> -> Statement, grant: seq<Statement>,
                      found: Result<seq<string>>, name: string, failAt: set<nat>): Run
  {
    var reset := TxnEvents(t0, revokeAs(None), failAt);
    if TxnSlot(t0, 0) in failAt then Run(reset, Raised(DatabaseError))
    else if found.Err? then Run(reset, Raised(found.error))
    else
      var rest := RevokeThenGrantRun(t0 + 3, revokeAs, grant, found.value, name, failAt);
      Run(reset + rest.events, rest.outcome)
  }

  method RevokeThenGrant(conn: Connection, revokeAs: Option<string> -> Statement, grant: seq<Statement>,
                         grantors: seq<string>, name: string) returns (out: Outcome)
    modifies conn
    ensures var run := RevokeThenGrantRun(|old(conn.trace)|, revokeAs, grant, grantors, name, conn.failAt);
      conn.trace == old(conn.trace) + run.events && out == run.outcome
  {
    var failed := Sweep(conn, Impersonations(revokeAs, grantors));
    var ok := Transaction(conn, grant);
    if !ok {
      return Raised(DatabaseError);
    }
    if failed {
      return Raised(DoneWithErrors(Some(name)));
    }
    return Done;
  }

  method DeepGrant(conn: Connection, revokeAs: Option<string> -> Statement, grant: seq<Statement>, deepRevoke: bool,
                   acl: seq<string>, roleSpecification: string, name: string) returns (out: Outcome)
    modifies conn
    ensures var run := DeepGrantRun(|old(conn.trace)|, revokeAs, grant, deepRevoke, acl, roleSpecification, name, conn.failAt);
      conn.trace == old(conn.trace) + run.events && out == run.outcome
  {
    ghost var t0 := |conn.trace|;
    var ok := InTransaction(conn, revokeAs(None));
    if !ok {
      return Raised(DatabaseError);
    }
    var grantors := [];
    if deepRevoke {
      var found := Grantors(acl, roleSpecification);
      if found.Err? {
        return Raised(found.error);
      }
      grantors := found.value;
    }
    assert DeepGrantors(deepRevoke, acl, roleSpecification) == Ok(grantors);
    ghost var mid := conn.trace;
    out := RevokeThenGrant(conn, revokeAs, grant, grantors, name);
    ghost var rest := RevokeThenGrantRun(|mid|, revokeAs, grant, grantors, name, conn.failAt);
    AppendAssoc(old(conn.trace), TxnEvents(t0, revokeAs(None), conn.failAt), rest.events);
  }

  /** How the second half ends: DoneWithErrors(name) exactly when the grant committed and
      some impersonated revoke failed, in which case the trace ends with the commit. */
  lemma RevokeThenGrantOutcome(t1: nat, revokeAs: Option<string> -> Statement, grant: seq<Statement>,
                               grantors: seq<string>, name: string, failAt: set<nat>)
    ensures var run := RevokeThenGrantRun(t1, revokeAs, grant, grantors, name, failAt);
      var t2 := t1 + 3 * |grantors|;
      (run.outcome == Raised(DoneWithErrors(Some(name))) <==>
        TransactionOk(t2, grant, failAt) && exists i :: 0 <= i < |grantors| && SweepSlot(t1, i) in failAt) &&
      (run.outcome == Done <==>
        TransactionOk(t2, grant, failAt) && forall i :: 0 <= i < |grantors| ==> SweepSlot(t1, i) !in failAt) &&
      (run.outcome.Raised? && run.outcome.error != DatabaseError ==> run.events[|run.events| - 1] == Committed)
  {
    var deep := Impersonations(revokeAs, grantors);
    var t2 := t1 + 3 * |deep|;
    var tail := TransactionEvents(t2, grant, failAt);
    if TransactionOk(t2, grant, failAt) {
      assert tail[|tail| - 1] == Committed;
    }
  }

  /** The second half attempts one impersonated revoke per grantor, in order, whatever their
      fate, and then the grant statements. */
  lemma RevokeThenGrantStatements(t1: nat, revokeAs: Option<string> -> Statement, grant: seq<Statement>,
                                  grantors: seq<string>, name: string, failAt: set<nat>)
    ensures var run := RevokeThenGrantRun(t1, revokeAs, grant, grantors, name, failAt);
      TransactionOk(t1 + 3 * |grantors|, grant, failAt) ==>
        Statements(run.events) == Impersonations(revokeAs, grantors) + grant
  {
    var deep := Impersonations(revokeAs, grantors);
    var t2 := t1 + 3 * |deep|;
    SweepAttemptsAll(t1, deep, failAt);
    TransactionAttempts(t2, grant, failAt);
    StatementsAppend(SweepEvents(t1, deep, failAt), TransactionEvents(t2, grant, failAt));
  }

  /** The outcomes of grant_on_* (found is what DeepGrantors read, whose only error is a parse
      failure): DoneWithErrors(name) only after the reset revoke, the
      ACL and the grant all went through; any other error is a failing statement or an
      ACL that does not parse. */
  lemma DeepGrantOutcome(t0: nat, revokeAs: Option<string> -> Statement, grant: seq<Statement>,
                         found: Result<seq<string>>, name: string, failAt: set<nat>)
    requires found.Err? ==> found.error.IsParseFailure()
    ensures var run := GrantOnRun(t0, revokeAs, grant, found, name, failAt);
      run.outcome == Raised(DoneWithErrors(Some(name))) <==>
        TxnSlot(t0, 0) !in failAt && found.Ok? &&
        TransactionOk(t0 + 3 + 3 * |found.value|, grant, failAt) &&
        SweepFailed(t0 + 3, Impersonations(revokeAs, found.value), failAt)
    ensures var run := GrantOnRun(t0, revokeAs, grant, found, name, failAt);
      run.outcome.Raised? && !run.outcome.error.DoneWithErrors? ==>
        run.outcome.error == DatabaseError || run.outcome.error.IsParseFailure()
  {
    if TxnSlot(t0, 0) !in failAt && found.Ok? {
      RevokeThenGrantOutcome(t0 + 3, revokeAs, grant, found.value, name, failAt);
    }
  }

  /** The user schemas the in-database grants loop over: every namespace except
      information_schema and those whose names begin with pg_ or gp_. */
  predicate UserSchema(ns: string) {
    ns != "information_schema" && !(|ns| >= 3 && (ns[..3] == "pg_" || ns[..3] == "gp_"))
  }

  function UserSchemas(namespaces: seq<string>): (r: seq<string>)
    ensures forall ns :: ns in r <==> ns in namespaces && UserSchema(ns)
    ensures |r| <= |namespaces|
  {
    if namespaces == [] then []
    else
      var rest := UserSchemas(namespaces[..|namespaces| - 1]);
      var last := namespaces[|namespaces| - 1];
      assert namespaces == namespaces[..|namespaces| - 1] + [last];
      if UserSchema(last) then rest + [last] else rest
  }

  /** The catalogue schemas are left alone, the public schema is not. */
  lemma UserSchemaExamples()
    ensures !UserSchema("information_schema") && !UserSchema("pg_catalog") && !UserSchema("gp_toolkit")
    ensures !UserSchema("pg_") && UserSchema("public") && UserSchema("pg") && UserSchema("gpx_data")
  {
    assert "pg_catalog"[..3] == "pg_";
    assert "gp_toolkit"[..3] == "gp_";
    assert "gpx_data"[..3] == "gpx";
    assert "public"[..3] == "pub";
    assert "pg_"[..3] == "pg_";
  }

  /** When the reset revoke fails or the ACL does not parse, grant_on_* executes nothing
      but the reset revoke. */
  lemma DeepGrantStops(t0: nat, revokeAs: Option<string> -> Statement, grant: seq<Statement>,
                       found: Result<seq<string>>, name: string, failAt: set<nat>)
    requires TxnSlot(t0, 0) in failAt || found.Err?
    ensures Statements(GrantOnRun(t0, revokeAs, grant, found, name, failAt).events) == [revokeAs(None)]
  {
    TxnStatements(t0, revokeAs(None), failAt);
  }

  /** The statements grant_on_* executes, in order, once the reset revoke went through and
      the ACL parsed: the reset revoke, one impersonated revoke per grantor (none with deep
      revoke off), whatever their fate, and the grant statements. */
  lemma DeepGrantStatements(t0: nat, revokeAs: Option<string> -> Statement, grant: seq<Statement>,
                            grantors: seq<string>, name: string, failAt: set<nat>)
    requires TxnSlot(t0, 0) !in failAt
    requires TransactionOk(t0 + 3 + 3 * |grantors|, grant, failAt)
    ensures Statements(GrantOnRun(t0, revokeAs, grant, Ok(grantors), name, failAt).events)
      == [revokeAs(None)] + Impersonations(revokeAs, grantors) + grant
  {
    var reset := TxnEvents(t0, revokeAs(None), failAt);
    TxnStatements(t0, revokeAs(None), failAt);
    var rest := RevokeThenGrantRun(t0 + 3, revokeAs, grant, grantors, name, failAt);
    assert GrantOnRun(t0, revokeAs, grant, Ok(grantors), name, failAt).events == reset + rest.events;
    RevokeThenGrantStatements(t0 + 3, revokeAs, grant, grantors, name, failAt);
    StatementsAppend(reset, rest.events);
    var imp := Impersonations(revokeAs, grantors);
    assert Statements(rest.events) == imp + grant;
    assert [revokeAs(None)] + imp + grant == [revokeAs(None)] + (imp + grant);
  }
}
