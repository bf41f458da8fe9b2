/** Resource groups (resource_resource.py, resource_dto.py): the option lists of CREATE and
    ALTER RESOURCE GROUP, the member diff, and the create, update and drop procedures. These
    run in autocommit mode: every statement commits on its own. */
module ResourceGroups {
  import opened Outcomes
  import opened Collections
  import opened Session

  // ------------------------------------------------------------ decimal text

  function DigitChar(d: nat): (c: char)
    requires d < 10
    ensures '0' <= c <= '9' && c as int - '0' as int == d
  {
    "0123456789"[d]
  }

  /** str(n) for a natural number. */
  function NatText(n: nat): (r: string)
    ensures r != [] && '0' <= r[0] <= '9'
  {
    if n < 10 then [DigitChar(n)] else NatText(n / 10) + [DigitChar(n % 10)]
  }

  /** str(n) as Python writes an int: decimal, with a leading minus when negative. */
  function IntText(n: int): (r: string)
    ensures r != []
  {
    if n < 0 then "-" + NatText(-n) else NatText(n)
  }

  /** Reading decimal text back. */
  function NatValue(s: string): nat {
    if s == [] then 0
    else
      var last := s[|s| - 1];
      NatValue(s[..|s| - 1]) * 10 + (if '0' <= last <= '9' then last as int - '0' as int else 0)
  }

  function IntValue(s: string): int {
    if s != [] && s[0] == '-' then 0 - NatValue(s[1..]) else NatValue(s)
  }

  lemma {:induction false} NatTextRoundTrip(n: nat)
    ensures NatValue(NatText(n)) == n
  {
    if n >= 10 {
      NatTextRoundTrip(n / 10);
      var r := NatText(n);
      assert r[..|r| - 1] == NatText(n / 10);
    }
  }

  lemma IntTextRoundTrip(n: int)
    ensures IntValue(IntText(n)) == n
  {
    if n < 0 {
      NatTextRoundTrip(-n);
      assert IntText(n)[1..] == NatText(-n);
    } else {
      NatTextRoundTrip(n);
    }
  }

  // ------------------------------------------------------------ group options

  /** The limits of a group, in the order the option dictionaries list them. */
  datatype Limits = Limits(cpuRateLimit: int, memoryLimit: int, concurrency: int)

  const LimitKeys: seq<string> := ["CPU_RATE_LIMIT", "MEMORY_LIMIT", "CONCURRENCY"]

  function LimitValues(limits: Limits): (r: seq<int>)
    ensures |r| == |LimitKeys|
  {
    [limits.cpuRateLimit, limits.memoryLimit, limits.concurrency]
  }

  /** One option, `KEY` sep `value`. */
  function Setting(key: string, sep: string, value: int): string {
    key + sep + IntText(value)
  }

  /** Reading an option back: the value after `key` and sep, None when the text does not
      start with them. */
  function ReadSetting(text: string, key: string, sep: string): Option<int> {
    if |text| >= |key| + |sep| && text[..|key|] == key && text[|key|..|key| + |sep|] == sep
    then Some(IntValue(text[|key| + |sep|..]))
    else None
  }

  lemma SettingReadsBack(key: string, sep: string, value: int)
    ensures ReadSetting(Setting(key, sep, value), key, sep) == Some(value)
  {
    var t := Setting(key, sep, value);
    assert t[..|key|] == key;
    assert t[|key|..|key| + |sep|] == sep;
    assert t[|key| + |sep|..] == IntText(value);
    IntTextRoundTrip(value);
  }

  function Settings(limits: Limits, sep: string): (r: seq<string>)
    ensures |r| == |LimitKeys|
  {
    var v := LimitValues(limits);
    [Setting(LimitKeys[0], sep, v[0]), Setting(LimitKeys[1], sep, v[1]), Setting(LimitKeys[2], sep, v[2])]
  }

  /** _calc_create_options: `KEY=value` for CPU_RATE_LIMIT, MEMORY_LIMIT and CONCURRENCY, in
      that order. */
  function CreateOptions(limits: Limits): (r: seq<string>)
    ensures |r| == 3
  {
    Settings(limits, "=")
  }

  /** _calc_alter_options: the same keys and values in `KEY value` form. */
  function AlterOptions(limits: Limits): (r: seq<string>)
    ensures |r| == 3
  {
    Settings(limits, " ")
  }

  /** Each option reads back as its own key, in the fixed key order, and its own value. */
  lemma CreateOptionsReadBack(limits: Limits)
    ensures forall i :: 0 <= i < 3 ==> ReadSetting(CreateOptions(limits)[i], LimitKeys[i], "=") == Some(LimitValues(limits)[i])
  {
    var v := LimitValues(limits);
    SettingReadsBack(LimitKeys[0], "=", v[0]);
    SettingReadsBack(LimitKeys[1], "=", v[1]);
    SettingReadsBack(LimitKeys[2], "=", v[2]);
  }

  lemma AlterOptionsReadBack(limits: Limits)
    ensures forall i :: 0 <= i < 3 ==> ReadSetting(AlterOptions(limits)[i], LimitKeys[i], " ") == Some(LimitValues(limits)[i])
  {
    var v := LimitValues(limits);
    SettingReadsBack(LimitKeys[0], " ", v[0]);
    SettingReadsBack(LimitKeys[1], " ", v[1]);
    SettingReadsBack(LimitKeys[2], " ", v[2]);
  }

  /** The two lists differ only in the separator: the same key before it, the same value after. */
  lemma CreateAlterAgree(limits: Limits, i: nat)
    requires i < 3
    ensures var c := CreateOptions(limits)[i]; var a := AlterOptions(limits)[i]; var k := |LimitKeys[i]|;
      |c| == |a| && c[..k] == a[..k] == LimitKeys[i] && c[k] == '=' && a[k] == ' ' && c[k + 1..] == a[k + 1..]
  {
    var v := LimitValues(limits)[i];
    var c := CreateOptions(limits)[i];
    var a := AlterOptions(limits)[i];
    var k := |LimitKeys[i]|;
    assert c == LimitKeys[i] + "=" + IntText(v);
    assert a == LimitKeys[i] + " " + IntText(v);
    assert c[k + 1..] == IntText(v) == a[k + 1..];
  }

  /** ', '.join(options). */
  function Join(items: seq<string>, sep: string): string {
    if items == [] then ""
    else if |items| == 1 then items[0]
    else items[0] + sep + Join(items[1..], sep)
  }

  lemma JoinThree(a: string, b: string, c: string, sep: string)
    ensures Join([a, b, c], sep) == a + sep + b + sep + c
  {
    assert [a, b, c][1..] == [b, c];
    assert [b, c][1..] == [c];
    assert Join([b, c], sep) == b + sep + c;
    assert a + sep + (b + sep + c) == a + sep + b + sep + c;
  }

  // ------------------------------------------------------------ records

  /** null2list, the converter of group_members: the [None] the outer join yields for a group
      without members becomes the empty list; every other list is kept. */
  function Null2List(x: seq<Option<string>>): (r: seq<Option<string>>)
    ensures x == [None] ==> r == []
    ensures x != [None] ==> r == x
    ensures r != [None]
  {
    if x == [None] then [] else x
  }

  /** A list of role names never is [None], so the converter keeps it. */
  lemma Null2ListKeepsNames(names: seq<string>)
    ensures var lifted := seq(|names|, i requires 0 <= i < |names| => Some(names[i]));
      Null2List(lifted) == lifted
  {
    var lifted := seq(|names|, i requires 0 <= i < |names| => Some(names[i]));
    if |names| == 1 {
      assert lifted[0] == Some(names[0]);
    }
  }

  /** ResourceGroupDTO as read from the catalogue: its members pass through the converter. */
  datatype ResourceGroup = ResourceGroup(oid: int, name: string, limits: Limits, groupMembers: seq<Option<string>>)

  function NewResourceGroup(oid: int, name: string, limits: Limits, groupMembers: seq<Option<string>>): (r: ResourceGroup)
    ensures r.groupMembers != [None]
    ensures r.oid == oid && r.name == name && r.limits == limits
    ensures groupMembers != [None] ==> r.groupMembers == groupMembers
  {
    ResourceGroup(oid, name, limits, Null2List(groupMembers))
  }

  datatype ResourceGroupCreate = ResourceGroupCreate(name: string, limits: Limits, groupMembers: seq<string>)

  datatype ResourceGroupUpdate = ResourceGroupUpdate(limits: Limits, groupMembers: seq<string>)

  // ------------------------------------------------------------ member diff

  /** _list_of_members_del_and_add: the members to detach (in the catalogue, no longer wanted)
      and to attach (wanted, not yet in the catalogue), each once. */
  function MemberDiff(current: seq<string>, desired: seq<string>): (r: (seq<string>, seq<string>))
    ensures ToSet(r.0) == ToSet(current) - ToSet(desired)
    ensures ToSet(r.1) == ToSet(desired) - ToSet(current)
    ensures NoDup(r.0) && NoDup(r.1)
  {
    (Minus(Dedup(current), desired), Minus(Dedup(desired), current))
  }

  /** Nobody is both detached and attached, and after both steps the members are the wanted ones. */
  lemma MemberDiffSound(current: seq<string>, desired: seq<string>)
    ensures var diff := MemberDiff(current, desired);
      ToSet(diff.0) * ToSet(diff.1) == {} &&
      (ToSet(current) - ToSet(diff.0)) + ToSet(diff.1) == ToSet(desired)
  {
  }

  lemma MemberDiffExample()
    ensures ToSet(MemberDiff(["a", "b", "c"], ["b", "c", "d"]).0) == {"a"}
    ensures ToSet(MemberDiff(["a", "b", "c"], ["b", "c", "d"]).1) == {"d"}
  {
    ToSetThree("a", "b", "c");
    ToSetThree("b", "c", "d");
    assert {"a", "b", "c"} - {"b", "c", "d"} == {"a"};
    assert {"b", "c", "d"} - {"a", "b", "c"} == {"d"};
  }

  lemma ToSetThree(a: string, b: string, c: string)
    ensures ToSet([a, b, c]) == {a, b, c}
  {
    assert [a, b, c][0] == a && [a, b, c][1] == b && [a, b, c][2] == c;
  }

  // ------------------------------------------------------------ statements

  /** The RESOURCE GROUP clause of ALTER ROLE: the quoted group, or NONE without one. */
  function GroupTarget(rsgname: Option<string>): (r: string)
    ensures Truthy(rsgname) ==> r == "\"" + rsgname.value + "\""
    ensures !Truthy(rsgname) <==> r == "NONE"
  {
    if Truthy(rsgname) then
      var r := "\"" + rsgname.value + "\"";
      assert r[0] != "NONE"[0];
      r
    else "NONE"
  }

  function MemberStatements(rolnames: seq<string>, rsgname: Option<string>): (r: seq<Statement>)
    ensures |r| == |rolnames|
    ensures forall i :: 0 <= i < |rolnames| ==> r[i] == AlterRoleResourceGroup(rolnames[i], GroupTarget(rsgname))
  {
    seq(|rolnames|, i requires 0 <= i < |rolnames| => AlterRoleResourceGroup(rolnames[i], GroupTarget(rsgname)))
  }

  function OptionStatements(rsgname: string, limits: Limits): (r: seq<Statement>)
    ensures |r| == 3
  {
    var o := AlterOptions(limits);
    [AlterResourceGroup(rsgname, o[0]), AlterResourceGroup(rsgname, o[1]), AlterResourceGroup(rsgname, o[2])]
  }

  /** _create_resource_group: the group's name, and its three create options joined by `, `. */
  function CreateStatement(group: ResourceGroupCreate): (r: Statement)
    ensures r.CreateResourceGroup? && r.name == group.name
    ensures var o := CreateOptions(group.limits);
      r.groupAttribute == o[0] + ", " + o[1] + ", " + o[2]
  {
    var o := CreateOptions(group.limits);
    assert o == [o[0], o[1], o[2]];
    JoinThree(o[0], o[1], o[2], ", ");
    CreateResourceGroup(group.name, Join(o, ", "))
  }

  // ------------------------------------------------------------ procedures

  /** _alter_resource_group_members: every member attempted, DoneWithErrors carrying the group
      argument (None when members are being detached) raised after the loop when one failed. */
  function AlterMembersStep(rolnames: seq<string>, rsgname: Option<string>): Step {
    Step(MemberStatements(rolnames, rsgname), DoneWithErrors(rsgname))
  }

  /** _alter_resource_group: one ALTER per option, all three attempted. */
  function AlterGroupStep(rsgname: string, limits: Limits): Step {
    Step(OptionStatements(rsgname, limits), DoneWithErrors(Some(rsgname)))
  }

  /** A statement outside any loop: its failure propagates as a database error. */
  function SingleStep(s: Statement): Step {
    Step([s], DatabaseError)
  }

  /** drop_resource_group: detach every member, terminate the group's sessions, drop it. */
  function DropStatements(rsname: string): seq<Statement> {
    [RemoveAllMembersFromResourceGroup(rsname), TerminateResourceGroupQueries(rsname), DropResourceGroup(rsname)]
  }

  function DropSteps(rsname: string): seq<Step> {
    var s := DropStatements(rsname);
    [SingleStep(s[0]), SingleStep(s[1]), SingleStep(s[2])]
  }

  method DropResourceGroupProc(conn: Connection, rsname: string) returns (out: Outcome)
    modifies conn
    ensures var run := StepsRun(|old(conn.trace)|, DropSteps(rsname), conn.failAt);
      conn.trace == old(conn.trace) + run.events && out == run.outcome
  {
    out := RunSteps(conn, DropSteps(rsname));
  }

  /** drop_resource_group issues its three statements in order and stops at the first that fails;
      it completes exactly when none fails. */
  lemma DropOrder(t0: nat, rsname: string, failAt: set<nat>)
    ensures var run := StepsRun(t0, DropSteps(rsname), failAt);
      var k := if t0 in failAt then 1 else if t0 + 1 in failAt then 2 else 3;
      Statements(run.events) == DropStatements(rsname)[..k] &&
      (run.outcome == Done <==> t0 !in failAt && t0 + 1 !in failAt && t0 + 2 !in failAt) &&
      (run.outcome.Raised? ==> run.outcome.error == DatabaseError)
  {
    SinglesOrder(t0, DropStatements(rsname), failAt);
  }

  /** Three statements outside any loop run in order and stop at the first that fails. */
  lemma SinglesOrder(t0: nat, s: seq<Statement>, failAt: set<nat>)
    requires |s| == 3
    ensures var run := StepsRun(t0, [SingleStep(s[0]), SingleStep(s[1]), SingleStep(s[2])], failAt);
      var k := if t0 in failAt then 1 else if t0 + 1 in failAt then 2 else 3;
      Statements(run.events) == s[..k] &&
      (run.outcome == Done <==> t0 !in failAt && t0 + 1 !in failAt && t0 + 2 !in failAt) &&
      (run.outcome.Raised? ==> run.outcome.error == DatabaseError)
  {
    TripleOrder(t0, s[0], s[1], s[2], failAt);
    if t0 in failAt {
      assert s[..1] == [s[0]];
    } else if t0 + 1 in failAt {
      assert s[..2] == [s[0], s[1]];
    } else {
      assert s[..3] == [s[0], s[1], s[2]];
    }
  }

  lemma TripleOrder(t0: nat, a: Statement, b: Statement, c: Statement, failAt: set<nat>)
    ensures var run := StepsRun(t0, [SingleStep(a), SingleStep(b), SingleStep(c)], failAt);
      Statements(run.events) == (if t0 in failAt then [a] else if t0 + 1 in failAt then [a, b] else [a, b, c]) &&
      (run.outcome == Done <==> t0 !in failAt && t0 + 1 !in failAt && t0 + 2 !in failAt) &&
      (run.outcome.Raised? ==> run.outcome.error == DatabaseError)
  {
    var steps := [SingleStep(a), SingleStep(b), SingleStep(c)];
    SingleFails(t0, a, failAt);
    if t0 in failAt {
      StepsFirstRaises(t0, steps, failAt);
    } else {
      var rest := StepsRun(t0 + 1, [SingleStep(b), SingleStep(c)], failAt);
      TripleLater(t0, a, b, c, failAt);
      PairOrder(t0 + 1, b, c, failAt);
      if t0 + 1 in failAt {
        assert Statements(rest.events) == [b];
        assert [a] + [b] == [a, b];
      } else {
        assert Statements(rest.events) == [b, c];
        assert [a] + [b, c] == [a, b, c];
      }
    }
  }

  lemma TripleLater(t0: nat, a: Statement, b: Statement, c: Statement, failAt: set<nat>)
    requires t0 !in failAt
    ensures var run := StepsRun(t0, [SingleStep(a), SingleStep(b), SingleStep(c)], failAt);
      var rest := StepsRun(t0 + 1, [SingleStep(b), SingleStep(c)], failAt);
      Statements(run.events) == [a] + Statements(rest.events) && run.outcome == rest.outcome
  {
    var steps := [SingleStep(a), SingleStep(b), SingleStep(c)];
    SingleFails(t0, a, failAt);
    StepsTail(t0, steps, failAt);
    assert steps[1..] == [SingleStep(b), SingleStep(c)];
  }

  /** The same for two statements. */
  lemma PairOrder(t0: nat, a: Statement, b: Statement, failAt: set<nat>)
    ensures var run := StepsRun(t0, [SingleStep(a), SingleStep(b)], failAt);
      Statements(run.events) == (if t0 in failAt then [a] else [a, b]) &&
      (run.outcome == Done <==> t0 !in failAt && t0 + 1 !in failAt) &&
      (run.outcome.Raised? ==> run.outcome.error == DatabaseError)
  {
    var steps := [SingleStep(a), SingleStep(b)];
    SingleFails(t0, a, failAt);
    if t0 in failAt {
      StepsFirstRaises(t0, steps, failAt);
    } else {
      StepsSecond(t0, steps[0], steps[1], failAt);
      SingleFails(t0 + 1, b, failAt);
    }
  }

  lemma SingleFails(t0: nat, s: Statement, failAt: set<nat>)
    ensures TolerantFailed(t0, [s], failAt) <==> t0 in failAt
  {
    assert TolerantSlot(t0, 0) == t0;
  }

  /** ensure_resource_group: create the group, then attach every listed member to it. */
  function EnsureSteps(group: ResourceGroupCreate): seq<Step> {
    [SingleStep(CreateStatement(group)), AlterMembersStep(group.groupMembers, Some(group.name))]
  }

  method EnsureResourceGroup(conn: Connection, group: ResourceGroupCreate) returns (out: Outcome)
    modifies conn
    ensures var run := StepsRun(|old(conn.trace)|, EnsureSteps(group), conn.failAt);
      conn.trace == old(conn.trace) + run.events && out == run.outcome
  {
    out := RunSteps(conn, EnsureSteps(group));
  }

  /** A failed CREATE stops ensure_resource_group; once the group is created every member is
      attempted, each attached to the new group, and a failed attach raises DoneWithErrors. */
  lemma EnsureStatements(t0: nat, group: ResourceGroupCreate, failAt: set<nat>)
    ensures var run := StepsRun(t0, EnsureSteps(group), failAt);
      var create := [CreateStatement(group)];
      var members := MemberStatements(group.groupMembers, Some(group.name));
      (t0 in failAt ==> Statements(run.events) == create && run.outcome == Raised(DatabaseError)) &&
      (t0 !in failAt ==>
        Statements(run.events) == create + members &&
        (run.outcome == Raised(DoneWithErrors(Some(group.name))) <==> TolerantFailed(t0 + 1, members, failAt)) &&
        (run.outcome == Done <==> !TolerantFailed(t0 + 1, members, failAt)))
  {
    var steps := EnsureSteps(group);
    SingleFails(t0, CreateStatement(group), failAt);
    if t0 in failAt {
      StepsFirstRaises(t0, steps, failAt);
    } else {
      StepsSecond(t0, steps[0], steps[1], failAt);
    }
  }

  /** update_resource_group: the diff against the catalogue's current members is taken first;
      then the options are altered, the dropped members detached (to no group) and the new
      ones attached, each step only when the previous one raised nothing. */
  function UpdateSteps(rsname: string, group: ResourceGroupUpdate, current: seq<string>): seq<Step> {
    var diff := MemberDiff(current, group.groupMembers);
    DiffSteps(rsname, group.limits, diff.0, diff.1)
  }

  /** The three steps of update_resource_group for given lists of members to detach and attach. */
  function DiffSteps(rsname: string, limits: Limits, removed: seq<string>, added: seq<string>): seq<Step> {
    [AlterGroupStep(rsname, limits), AlterMembersStep(removed, None), AlterMembersStep(added, Some(rsname))]
  }

  method UpdateResourceGroup(conn: Connection, rsname: string, group: ResourceGroupUpdate, current: seq<string>)
    returns (out: Outcome)
    modifies conn
    ensures var run := StepsRun(|old(conn.trace)|, UpdateSteps(rsname, group, current), conn.failAt);
      conn.trace == old(conn.trace) + run.events && out == run.outcome
  {
    out := RunSteps(conn, UpdateSteps(rsname, group, current));
  }

  /** When nothing fails, update_resource_group issues the three option statements, then one
      detach per removed member, then one attach per appended member (removed and added are
      MemberDiff's two lists in UpdateSteps). */
  lemma UpdateStatements(t0: nat, rsname: string, limits: Limits, removed: seq<string>, added: seq<string>,
                         failAt: set<nat>)
    requires StepsRun(t0, DiffSteps(rsname, limits, removed, added), failAt).outcome == Done
    ensures Statements(StepsRun(t0, DiffSteps(rsname, limits, removed, added), failAt).events) ==
      OptionStatements(rsname, limits) + MemberStatements(removed, None) + MemberStatements(added, Some(rsname))
  {
    var steps := DiffSteps(rsname, limits, removed, added);
    StepsDoneThree(t0, steps[0], steps[1], steps[2], failAt);
  }

  /** A failing option statement ends update_resource_group with DoneWithErrors(group) before
      any member is touched. */
  lemma UpdateStopsAfterOptions(t0: nat, rsname: string, limits: Limits, removed: seq<string>, added: seq<string>,
                                failAt: set<nat>, i: nat)
    requires i < 3 && t0 + i in failAt
    ensures var run := StepsRun(t0, DiffSteps(rsname, limits, removed, added), failAt);
      run.outcome == Raised(DoneWithErrors(Some(rsname))) &&
      Statements(run.events) == OptionStatements(rsname, limits)
  {
    var steps := DiffSteps(rsname, limits, removed, added);
    StepsFailingSlot(t0, steps, failAt, i);
  }
}
