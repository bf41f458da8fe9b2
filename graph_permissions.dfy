/** The effective-permissions projection of
    backend/app/app/use_case/privilege_graph/privilege_graph_privilege.py: from the ACL of
    one database, schema or table, the roles and the membership edges, the rules every role
    effectively holds: superusers hold everything, a PUBLIC rule holds for every role, and a
    rule held by a group role holds for each of its transitive members. */
module GraphPermissions {
  import opened Outcomes
  import opened Collections
  import opened AclCodec
  import opened Digraphs
  import opened RoleRecords

  /** `dict.get`. */
  function Get<K, V>(m: map<K, V>, k: K): Option<V> {
    if k in m then Some(m[k]) else None
  }

  // -------------------------------------------------------------- role lookup

  /** The (oid, name) pairs of the roles, in order. */
  function OidPairs(roles: seq<Role>): (r: seq<(int, string)>)
    ensures |r| == |roles| && forall i :: 0 <= i < |roles| ==> r[i] == (roles[i].oid, roles[i].rolname)
  {
    seq(|roles|, i requires 0 <= i < |roles| => (roles[i].oid, roles[i].rolname))
  }

  /** The (name, oid) pairs of the roles, in order. */
  function NamePairs(roles: seq<Role>): (r: seq<(string, int)>)
    ensures |r| == |roles| && forall i :: 0 <= i < |roles| ==> r[i] == (roles[i].rolname, roles[i].oid)
  {
    seq(|roles|, i requires 0 <= i < |roles| => (roles[i].rolname, roles[i].oid))
  }

  /** The oid-to-name dictionary RoleSearcher fills role by role: a later role with the
      same oid overrides an earlier one. */
  function OidIndex(roles: seq<Role>): map<int, string> {
    Index(OidPairs(roles))
  }

  /** The name-to-oid dictionary, filled the same way. */
  function NameIndex(roles: seq<Role>): map<string, int> {
    Index(NamePairs(roles))
  }

  /** An oid is known iff some role has it, and then the last such role names it. */
  lemma OidIndexLast(roles: seq<Role>, oid: int)
    ensures oid in OidIndex(roles) <==> exists i :: 0 <= i < |roles| && roles[i].oid == oid
    ensures oid in OidIndex(roles) ==> exists i :: (0 <= i < |roles| && roles[i].oid == oid
      && OidIndex(roles)[oid] == roles[i].rolname && forall j :: i < j < |roles| ==> roles[j].oid != oid)
  {
    IndexLast(OidPairs(roles), oid);
  }

  /** A name is known iff some role has it, and then the last such role gives its oid. */
  lemma NameIndexLast(roles: seq<Role>, name: string)
    ensures name in NameIndex(roles) <==> exists i :: 0 <= i < |roles| && roles[i].rolname == name
    ensures name in NameIndex(roles) ==> exists i :: (0 <= i < |roles| && roles[i].rolname == name
      && NameIndex(roles)[name] == roles[i].oid && forall j :: i < j < |roles| ==> roles[j].rolname != name)
  {
    IndexLast(NamePairs(roles), name);
  }

  /** No two roles share an oid or a name, as in the catalog. */
  predicate DistinctRoles(roles: seq<Role>) {
    forall i, j :: 0 <= i < j < |roles| ==> roles[i].oid != roles[j].oid && roles[i].rolname != roles[j].rolname
  }

  /** With distinct roles, the two lookups undo each other. */
  lemma IndexesInverse(roles: seq<Role>)
    requires DistinctRoles(roles)
    ensures forall oid :: oid in OidIndex(roles) ==>
      OidIndex(roles)[oid] in NameIndex(roles) && NameIndex(roles)[OidIndex(roles)[oid]] == oid
    ensures forall name :: name in NameIndex(roles) ==>
      NameIndex(roles)[name] in OidIndex(roles) && OidIndex(roles)[NameIndex(roles)[name]] == name
  {
    forall oid | oid in OidIndex(roles)
      ensures OidIndex(roles)[oid] in NameIndex(roles) && NameIndex(roles)[OidIndex(roles)[oid]] == oid
    {
      OidIndexLast(roles, oid);
      var i :| 0 <= i < |roles| && roles[i].oid == oid && OidIndex(roles)[oid] == roles[i].rolname;
      NameIndexLast(roles, roles[i].rolname);
      var j :| 0 <= j < |roles| && roles[j].rolname == roles[i].rolname && NameIndex(roles)[roles[i].rolname] == roles[j].oid;
      assert i == j;
    }
    forall name | name in NameIndex(roles)
      ensures NameIndex(roles)[name] in OidIndex(roles) && OidIndex(roles)[NameIndex(roles)[name]] == name
    {
      NameIndexLast(roles, name);
      var i :| 0 <= i < |roles| && roles[i].rolname == name && NameIndex(roles)[name] == roles[i].oid;
      OidIndexLast(roles, roles[i].oid);
      var j :| 0 <= j < |roles| && roles[j].oid == roles[i].oid && OidIndex(roles)[roles[i].oid] == roles[j].rolname;
      assert i == j;
    }
  }

  /** RoleSearcher: the two dictionaries, filled once from the role list. */
  class RoleSearcher {
    var oid2role: map<int, string>
    var role2oid: map<string, int>
    /** The roles the dictionaries were filled from. */
    ghost var roles: seq<Role>

    ghost predicate Valid()
      reads this
    {
      oid2role == OidIndex(roles) && role2oid == NameIndex(roles)
    }

    constructor (roles: seq<Role>)
      ensures Valid() && this.roles == roles
    {
      var byOid: map<int, string> := map[];
      var byName: map<string, int> := map[];
      ghost var oids := OidPairs(roles);
      ghost var names := NamePairs(roles);
      for i := 0 to |roles|
        invariant byOid == Index(oids[..i]) && byName == Index(names[..i])
      {
        assert oids[..i + 1][..i] == oids[..i];
        assert names[..i + 1][..i] == names[..i];
        byOid := byOid[roles[i].oid := roles[i].rolname];
        byName := byName[roles[i].rolname := roles[i].oid];
      }
      assert oids[..|roles|] == oids && names[..|roles|] == names;
      oid2role := byOid;
      role2oid := byName;
      this.roles := roles;
    }

    /** oid2rolname: the name of the last role with this oid, None when there is none. */
    function OidToName(oid: int): (r: Option<string>)
      reads this
      requires Valid()
      ensures r.None? <==> forall i :: 0 <= i < |roles| ==> roles[i].oid != oid
      ensures r.Some? ==> exists i :: (0 <= i < |roles| && roles[i].oid == oid && roles[i].rolname == r.value
        && forall j :: i < j < |roles| ==> roles[j].oid != oid)
    {
      OidIndexLast(roles, oid);
      Get(oid2role, oid)
    }

    /** rolname2oid: the oid of the last role with this name, None when there is none. */
    function NameToOid(name: string): (r: Option<int>)
      reads this
      requires Valid()
      ensures r.None? <==> forall i :: 0 <= i < |roles| ==> roles[i].rolname != name
      ensures r.Some? ==> exists i :: (0 <= i < |roles| && roles[i].rolname == name && roles[i].oid == r.value
        && forall j :: i < j < |roles| ==> roles[j].rolname != name)
    {
      NameIndexLast(roles, name);
      Get(role2oid, name)
    }
  }

  // ---------------------------------------------------------------- selectors

  /** GraphPermissionsDTO: the object whose ACL is projected. */
  datatype Selector = Selector(database: string, dbSchema: Option<string>, table: Option<string>)

  datatype Level = DatabaseLevel | SchemaLevel | TableLevel

  /** The truthiness pattern of (database, schema, table); only three are supported. */
  function LevelOf(sel: Selector): (r: Option<Level>)
    ensures r == Some(DatabaseLevel) <==> sel.database != "" && !Truthy(sel.dbSchema) && !Truthy(sel.table)
    ensures r == Some(SchemaLevel) <==> sel.database != "" && Truthy(sel.dbSchema) && !Truthy(sel.table)
    ensures r == Some(TableLevel) <==> sel.database != "" && Truthy(sel.dbSchema) && Truthy(sel.table)
  {
    match (sel.database != "", Truthy(sel.dbSchema), Truthy(sel.table))
    case (true, false, false) => Some(DatabaseLevel)
    case (true, true, false) => Some(SchemaLevel)
    case (true, true, true) => Some(TableLevel)
    case _ => None
  }

  /** The ACLs the catalog holds for the selected database, schema and table. */
  datatype CatalogAcls = CatalogAcls(database: seq<string>, schema: seq<string>, table: seq<string>)

  /** _get_all_acls: the ACL of the selected object; an unsupported selector reads nothing. */
  function SelectedAcls(sel: Selector, cat: CatalogAcls): (r: seq<string>)
    ensures LevelOf(sel).None? ==> r == []
    ensures LevelOf(sel) == Some(DatabaseLevel) ==> r == cat.database
    ensures LevelOf(sel) == Some(SchemaLevel) ==> r == cat.schema
    ensures LevelOf(sel) == Some(TableLevel) ==> r == cat.table
  {
    match LevelOf(sel)
    case None => []
    case Some(DatabaseLevel) => cat.database
    case Some(SchemaLevel) => cat.schema
    case Some(TableLevel) => cat.table
  }

  // ---------------------------------------------------------- superuser rules

  /** The letters of every privilege of the level; the text `None` when there is no level. */
  function MaxLetters(level: Option<Level>): (r: string)
    ensures r != [] && NoSeparator(r)
    ensures forall i :: 0 <= i < |r| ==> r[i] != '*'
  {
    match level
    case Some(DatabaseLevel) => "CTc"
    case Some(SchemaLevel) => "UC"
    case Some(TableLevel) => "arwdDxt"
    case None => "None"
  }

  /** _max_acls_for_role: `name=letters/name`, the names unquoted; for a plain role name it
      splits into the role, the level's letters and the role again. */
  function AdminRule(rolname: string, sel: Selector): (r: string)
    ensures NoSeparator(rolname) && rolname != "" ==> Tokens(r) == [rolname, MaxLetters(LevelOf(sel)), rolname]
  {
    var r := rolname + ("=" + (MaxLetters(LevelOf(sel)) + ("/" + rolname)));
    if NoSeparator(rolname) && rolname != "" then
      AdminRuleTokens(rolname, MaxLetters(LevelOf(sel)));
      r
    else r
  }

  /** Every privilege a level has, as the rule's letters decode. */
  function FullRights(level: Level): seq<string> {
    match level
    case DatabaseLevel => ["CREATE", "TEMPORARY", "CONNECT"]
    case SchemaLevel => ["USAGE", "CREATE"]
    case TableLevel => ["INSERT", "SELECT", "UPDATE", "DELETE", "TRUNCATE", "REFERENCES", "TRIGGER"]
  }

  lemma AdminRuleTokens(rolname: string, letters: string)
    requires NoSeparator(rolname) && rolname != ""
    requires NoSeparator(letters) && letters != ""
    ensures Tokens(rolname + ("=" + (letters + ("/" + rolname)))) == [rolname, letters, rolname]
  {
    var tail := "/" + rolname;
    TokensWord(rolname, []);
    assert rolname + [] == rolname;
    TokensSkip("/", rolname);
    TokensWord(letters, tail);
    TokensSkip("=", letters + tail);
    TokensWord(rolname, "=" + (letters + tail));
  }

  lemma AdminRuleLight(rolname: string, letters: string)
    requires NoSeparator(rolname) && rolname != ""
    requires NoSeparator(letters) && letters != ""
    ensures ParseLight(rolname + ("=" + (letters + ("/" + rolname))))
      == Ok(Privilege(rolname, rolname, PlainLetters(letters), GoLetters(letters)))
  {
    AdminRuleTokens(rolname, letters);
  }

  lemma DatabaseLetters()
    ensures PlainLetters("CTc") == ["C", "T", "c"] && GoLetters("CTc") == []
  {
  }

  lemma SchemaLetters()
    ensures PlainLetters("UC") == ["U", "C"] && GoLetters("UC") == []
  {
  }

  lemma TableLetters()
    ensures PlainLetters("arwdDxt") == ["a", "r", "w", "d", "D", "x", "t"] && GoLetters("arwdDxt") == []
  {
    TableLettersTail();
    LettersCons('w', "dDxt");
    LettersCons('r', "wdDxt");
    LettersCons('a', "rwdDxt");
  }

  lemma TableLettersTail()
    ensures PlainLetters("dDxt") == ["d", "D", "x", "t"] && GoLetters("dDxt") == []
  {
    assert PlainLetters("t") == ["t"] && GoLetters("t") == [];
    assert PlainLetters("xt") == ["x", "t"] && GoLetters("xt") == [];
    assert PlainLetters("Dxt") == ["D", "x", "t"] && GoLetters("Dxt") == [];
  }

  lemma NoneLetters()
    ensures PlainLetters("None") == ["N", "o", "n", "e"] && GoLetters("None") == []
  {
    assert PlainLetters("e") == ["e"] && GoLetters("e") == [];
    assert PlainLetters("ne") == ["n", "e"] && GoLetters("ne") == [];
    assert PlainLetters("one") == ["o", "n", "e"] && GoLetters("one") == [];
  }

  /** Letters each with a name decode to those names. */
  lemma DecodeKnown(symbols: seq<string>, names: seq<string>)
    requires |symbols| == |names|
    requires forall i :: 0 <= i < |symbols| ==> symbols[i] in ValidPrivilegesInv && ValidPrivilegesInv[symbols[i]] == names[i]
    ensures DecodeAcl(symbols) == Ok(names)
  {
    InverseTable();
    var d := DecodeAcl(symbols);
    assert d.Ok?;
    forall i | 0 <= i < |symbols|
      ensures d.value[i] == names[i]
    {
      assert ValidPrivilegesInv[ValidPrivileges[d.value[i]]] == d.value[i];
    }
    assert d.value == names;
  }

  lemma DatabaseDecode()
    ensures DecodeAcl(PlainLetters("CTc")) == Ok(FullRights(DatabaseLevel)) && GoLetters("CTc") == []
  {
    DatabaseLetters();
    DecodeKnown(["C", "T", "c"], FullRights(DatabaseLevel));
  }

  lemma SchemaDecode()
    ensures DecodeAcl(PlainLetters("UC")) == Ok(FullRights(SchemaLevel)) && GoLetters("UC") == []
  {
    SchemaLetters();
    DecodeKnown(["U", "C"], FullRights(SchemaLevel));
  }

  lemma TableDecode()
    ensures DecodeAcl(PlainLetters("arwdDxt")) == Ok(FullRights(TableLevel)) && GoLetters("arwdDxt") == []
  {
    TableLetters();
    TableDecodeAll();
  }

  lemma TableDecodeAll()
    ensures DecodeAcl(["a", "r", "w", "d", "D", "x", "t"]) == Ok(FullRights(TableLevel))
  {
    var head, tail := ["a", "r", "w"], ["d", "D", "x", "t"];
    var names, rest := ["INSERT", "SELECT", "UPDATE"], ["DELETE", "TRUNCATE", "REFERENCES", "TRIGGER"];
    TableDecodeHead();
    TableDecodeTail();
    DecodeAppend(head, tail, names, rest);
    assert head + tail == ["a", "r", "w", "d", "D", "x", "t"];
    assert names + rest == FullRights(TableLevel);
  }

  lemma TableDecodeHead()
    ensures DecodeAcl(["a", "r", "w"]) == Ok(["INSERT", "SELECT", "UPDATE"])
  {
    assert "a" in ValidPrivilegesInv && ValidPrivilegesInv["a"] == "INSERT";
    assert "r" in ValidPrivilegesInv && ValidPrivilegesInv["r"] == "SELECT";
    assert "w" in ValidPrivilegesInv && ValidPrivilegesInv["w"] == "UPDATE";
    DecodeKnown(["a", "r", "w"], ["INSERT", "SELECT", "UPDATE"]);
  }

  lemma TableDecodeTail()
    ensures DecodeAcl(["d", "D", "x", "t"]) == Ok(["DELETE", "TRUNCATE", "REFERENCES", "TRIGGER"])
  {
    assert "d" in ValidPrivilegesInv && ValidPrivilegesInv["d"] == "DELETE";
    assert "D" in ValidPrivilegesInv && ValidPrivilegesInv["D"] == "TRUNCATE";
    assert "x" in ValidPrivilegesInv && ValidPrivilegesInv["x"] == "REFERENCES";
    assert "t" in ValidPrivilegesInv && ValidPrivilegesInv["t"] == "TRIGGER";
    DecodeKnown(["d", "D", "x", "t"], ["DELETE", "TRUNCATE", "REFERENCES", "TRIGGER"]);
  }

  /** The letters of a level decode to all its privileges; `None` does not decode. */
  lemma MaxLettersDecode(level: Option<Level>)
    ensures GoLetters(MaxLetters(level)) == []
    ensures level.Some? ==> DecodeAcl(PlainLetters(MaxLetters(level))) == Ok(FullRights(level.value))
    ensures level.None? ==> DecodeAcl(PlainLetters(MaxLetters(level))) == Err(FailedToParseACLSymbols(["N", "o", "n", "e"]))
  {
    match level
    case Some(DatabaseLevel) => DatabaseDecode();
    case Some(SchemaLevel) => SchemaDecode();
    case Some(TableLevel) => TableDecode();
    case None =>
      NoneLetters();
      NoneFails();
  }

  lemma NoneFails()
    ensures DecodeAcl(["N", "o", "n", "e"]) == Err(FailedToParseACLSymbols(["N", "o", "n", "e"]))
  {
    var symbols := ["N", "o", "n", "e"];
    assert symbols[0] !in ValidPrivilegesInv;
  }

  /** A superuser's rule grants every privilege of the selected level to the superuser,
      from the superuser; with no supported level its letters `None` fail to decode. */
  lemma AdminRuleParses(rolname: string, sel: Selector)
    requires NoSeparator(rolname) && rolname != ""
    ensures LevelOf(sel).Some? ==>
      ParseOne(AdminRule(rolname, sel)) == Ok(Privilege(rolname, rolname, FullRights(LevelOf(sel).value), []))
    ensures LevelOf(sel).None? ==>
      ParseOne(AdminRule(rolname, sel)) == Err(FailedToParseACLSymbols(["N", "o", "n", "e"]))
  {
    var letters := MaxLetters(LevelOf(sel));
    AdminRuleLight(rolname, letters);
    MaxLettersDecode(LevelOf(sel));
    assert DecodeAcl([]) == Ok([]);
  }

  /** The names of the superusers, in role order. */
  function Superusers(roles: seq<Role>): (r: seq<string>)
    ensures |r| <= |roles|
  {
    if roles == [] then []
    else
      var n := |roles| - 1;
      Superusers(roles[..n]) + (if roles[n].rolsuper then [roles[n].rolname] else [])
  }

  lemma {:induction false} SuperusersExactly(roles: seq<Role>)
    ensures forall name :: name in Superusers(roles) <==>
      exists k :: 0 <= k < |roles| && roles[k].rolsuper && roles[k].rolname == name
  {
    if roles != [] {
      var n := |roles| - 1;
      var pre := roles[..n];
      SuperusersExactly(pre);
      forall name
        ensures name in Superusers(roles) <==> exists k :: 0 <= k < |roles| && roles[k].rolsuper && roles[k].rolname == name
      {
        if exists k :: 0 <= k < |roles| && roles[k].rolsuper && roles[k].rolname == name {
          var k :| 0 <= k < |roles| && roles[k].rolsuper && roles[k].rolname == name;
          if k < n {
            assert pre[k] == roles[k];
          }
        }
        if exists k :: 0 <= k < |pre| && pre[k].rolsuper && pre[k].rolname == name {
          var k :| 0 <= k < |pre| && pre[k].rolsuper && pre[k].rolname == name;
          assert roles[k] == pre[k];
        }
      }
    }
  }

  /** _get_rules_from_all_admins: one rule per superuser, in role order, none for anyone
      else. */
  function AdminRules(roles: seq<Role>, sel: Selector): (r: seq<string>)
    ensures |r| == |Superusers(roles)|
    ensures forall i :: 0 <= i < |r| ==> r[i] == AdminRule(Superusers(roles)[i], sel)
  {
    var names := Superusers(roles);
    seq(|names|, i requires 0 <= i < |names| => AdminRule(names[i], sel))
  }

  // ------------------------------------------------------- propagated rules

  /** Every privilege of the rule has a letter. */
  predicate ValidNames(p: Privilege) {
    (forall i :: 0 <= i < |p.privs| ==> p.privs[i] in ValidPrivileges) &&
    (forall i :: 0 <= i < |p.privswgo| ==> p.privswgo[i] in ValidPrivileges)
  }

  /** change_privilege_roles: the same privileges, between two other roles, as text. */
  function ChangePrivilegeRoles(p: Privilege, grantor: string, grantee: string): (r: Result<string>)
    ensures r.Ok? <==> ValidNames(p)
  {
    Compile(Privilege(grantee, grantor, p.privs, p.privswgo))
  }

  /** The copy reads back as the same privileges with only grantee and grantor replaced. */
  lemma ChangedRolesParse(p: Privilege, grantor: string, grantee: string)
    requires Encodable(Privilege(grantee, grantor, p.privs, p.privswgo))
    ensures ChangePrivilegeRoles(p, grantor, grantee).Ok?
    ensures ParseOne(ChangePrivilegeRoles(p, grantor, grantee).value) == Ok(Privilege(grantee, grantor, p.privs, p.privswgo))
  {
    RoundTrip(Privilege(grantee, grantor, p.privs, p.privswgo));
  }

  /** _all_rules_with_public_acl: the rule given to every role, the grantor kept. */
  function PublicRules(roles: seq<Role>, p: Privilege): (r: Result<seq<string>>)
    ensures r.Ok? <==> roles == [] || ValidNames(p)
    ensures r.Err? ==> r == ChangePrivilegeRoles(p, p.grantor, roles[0].rolname).PropagateFailure()
    ensures r.Ok? ==> |r.value| == |roles|
    ensures r.Ok? ==> forall k :: 0 <= k < |roles| ==> Ok(r.value[k]) == ChangePrivilegeRoles(p, p.grantor, roles[k].rolname)
  {
    if roles == [] then Ok([])
    else
      var n := |roles| - 1;
      assert forall k :: 0 <= k < n ==> roles[..n][k] == roles[k];
      var init :- PublicRules(roles[..n], p);
      var last :- ChangePrivilegeRoles(p, p.grantor, roles[n].rolname);
      Ok(init + [last])
  }

  /** The text an f-string gives an optional role name. */
  function RoleName(name: Option<string>): string {
    if name.Some? then name.value else "None"
  }

  /** The rule a group role holds given to each of its members, from the group role. */
  function ChildRules(children: seq<int>, p: Privilege, names: map<int, string>): (r: Result<seq<string>>)
    ensures r.Ok? <==> children == [] || ValidNames(p)
    ensures r.Ok? ==> |r.value| == |children| && forall k :: 0 <= k < |children| ==>
      Ok(r.value[k]) == ChangePrivilegeRoles(p, p.grantee, RoleName(Get(names, children[k])))
  {
    if children == [] then Ok([])
    else
      var n := |children| - 1;
      assert forall k :: 0 <= k < n ==> children[..n][k] == children[k];
      var init :- ChildRules(children[..n], p, names);
      var last :- ChangePrivilegeRoles(p, p.grantee, RoleName(Get(names, children[n])));
      Ok(init + [last])
  }

  /** `reachable.get(oid, [])`. */
  function Members(reach: map<int, seq<int>>, oid: Option<int>): seq<int> {
    if oid.Some? && oid.value in reach then reach[oid.value] else []
  }

  /** What one raw rule contributes: itself, its copies for every role when its grantee is
      not a role (PUBLIC), and its copies for every transitive member of its grantee. */
  function RulesFor(acl: string, roles: seq<Role>, reach: map<int, seq<int>>): (r: Result<seq<string>>)
    ensures r.Ok? <==> ParseOne(acl).Ok?
    ensures r.Err? ==> r.error == ParseOne(acl).error
  {
    var p :- ParseOne(acl);
    assert ValidNames(p);
    var oid := Get(NameIndex(roles), p.grantee);
    var publics := if oid.None? then PublicRules(roles, p).value else [];
    var kids := ChildRules(Members(reach, oid), p, OidIndex(roles)).value;
    Ok([acl] + publics + kids)
  }

  /** The loop of get_all_graph_permissions over the raw rules; the first rule that fails to
      parse raises. */
  function Projection(acls: seq<string>, roles: seq<Role>, reach: map<int, seq<int>>): (r: Result<seq<string>>)
    ensures r.Ok? <==> forall i :: 0 <= i < |acls| ==> ParseOne(acls[i]).Ok?
    ensures r.Err? ==> exists i :: FirstFailure(acls, i) && ParseOne(acls[i]) == Err(r.error)
  {
    if acls == [] then Ok([])
    else
      var n := |acls| - 1;
      assert forall i :: 0 <= i < n ==> acls[..n][i] == acls[i];
      PrefixFailures(acls);
      var init :- Projection(acls[..n], roles, reach);
      var more :- RulesFor(acls[n], roles, reach);
      Ok(init + more)
  }

  /** The projection fails only with the error of a rule that does not parse. */
  lemma ProjectionFailure(acls: seq<string>, roles: seq<Role>, reach: map<int, seq<int>>)
    requires Projection(acls, roles, reach).Err?
    ensures Projection(acls, roles, reach).error.IsParseFailure()
  {
    var e := Projection(acls, roles, reach).error;
    var i :| FirstFailure(acls, i) && ParseOne(acls[i]) == Err(e);
  }

  /** Role names a rule can carry: non-empty, without separators. */
  predicate WellNamed(roles: seq<Role>) {
    forall k :: 0 <= k < |roles| ==> NoSeparator(roles[k].rolname) && roles[k].rolname != ""
  }

  /** A PUBLIC rule (its grantee is no role) contributes itself and then one copy per role,
      in role order, each reading back as the same privileges granted to that role by the
      same grantor. */
  lemma PublicRuleCopies(acl: string, roles: seq<Role>, reach: map<int, seq<int>>)
    requires ParseOne(acl).Ok? && WellNamed(roles)
    requires ParseOne(acl).value.grantee !in NameIndex(roles)
    ensures RulesFor(acl, roles, reach).Ok?
    ensures var p := ParseOne(acl).value; var rs := RulesFor(acl, roles, reach).value;
      && rs[0] == acl && |rs| == 1 + |roles|
      && forall k :: 0 <= k < |roles| ==>
        ParseOne(rs[1 + k]) == Ok(Privilege(roles[k].rolname, p.grantor, p.privs, p.privswgo))
  {
    var p := ParseOne(acl).value;
    PublicRulesShape(acl, roles, reach);
    var rs := RulesFor(acl, roles, reach).value;
    var publics := PublicRules(roles, p).value;
    PublicCopiesRead(acl, roles, publics);
    assert forall k :: 0 <= k < |roles| ==> rs[1 + k] == publics[k];
  }

  lemma PublicCopiesRead(acl: string, roles: seq<Role>, publics: seq<string>)
    requires ParseOne(acl).Ok? && WellNamed(roles) && |publics| == |roles|
    requires var p := ParseOne(acl).value;
      forall k :: 0 <= k < |roles| ==> Ok(publics[k]) == ChangePrivilegeRoles(p, p.grantor, roles[k].rolname)
    ensures var p := ParseOne(acl).value;
      forall k :: 0 <= k < |roles| ==> ParseOne(publics[k]) == Ok(Privilege(roles[k].rolname, p.grantor, p.privs, p.privswgo))
  {
    var p := ParseOne(acl).value;
    forall k | 0 <= k < |roles|
      ensures ParseOne(publics[k]) == Ok(Privilege(roles[k].rolname, p.grantor, p.privs, p.privswgo))
    {
      PublicCopy(acl, roles, k);
    }
  }

  lemma PublicCopy(acl: string, roles: seq<Role>, k: nat)
    requires ParseOne(acl).Ok? && WellNamed(roles) && k < |roles|
    ensures var p := ParseOne(acl).value; var copy := ChangePrivilegeRoles(p, p.grantor, roles[k].rolname);
      copy.Ok? && ParseOne(copy.value) == Ok(Privilege(roles[k].rolname, p.grantor, p.privs, p.privswgo))
  {
    var p := ParseOne(acl).value;
    ChangedRolesParse(p, p.grantor, roles[k].rolname);
  }

  lemma PublicRulesShape(acl: string, roles: seq<Role>, reach: map<int, seq<int>>)
    requires ParseOne(acl).Ok?
    requires ParseOne(acl).value.grantee !in NameIndex(roles)
    ensures ValidNames(ParseOne(acl).value) && PublicRules(roles, ParseOne(acl).value).Ok?
    ensures RulesFor(acl, roles, reach) == Ok([acl] + PublicRules(roles, ParseOne(acl).value).value)
  {
    var p := ParseOne(acl).value;
    assert ValidNames(p);
    assert Get(NameIndex(roles), p.grantee) == None;
    assert Members(reach, None) == [];
    var publics := PublicRules(roles, p).value;
    AppendNil([acl] + publics);
  }

  /** A rule whose grantee is a role contributes itself and then one copy per transitive
      member of that role, each reading back as the same privileges granted to the member
      by that role. */
  lemma MemberRuleCopies(acl: string, roles: seq<Role>, reach: map<int, seq<int>>)
    requires ParseOne(acl).Ok? && WellNamed(roles)
    requires ParseOne(acl).value.grantee in NameIndex(roles)
    ensures RulesFor(acl, roles, reach).Ok?
    ensures var p := ParseOne(acl).value; var rs := RulesFor(acl, roles, reach).value;
      var kids := Members(reach, Some(NameIndex(roles)[p.grantee]));
      && rs[0] == acl && |rs| == 1 + |kids|
      && forall k :: 0 <= k < |kids| ==>
        ParseOne(rs[1 + k]) == Ok(Privilege(RoleName(Get(OidIndex(roles), kids[k])), p.grantee, p.privs, p.privswgo))
  {
    var p := ParseOne(acl).value;
    MemberRulesShape(acl, roles, reach);
    var rs := RulesFor(acl, roles, reach).value;
    var kids := Members(reach, Some(NameIndex(roles)[p.grantee]));
    var copies := ChildRules(kids, p, OidIndex(roles)).value;
    NameIndexLast(roles, p.grantee);
    forall k | 0 <= k < |kids|
      ensures ParseOne(rs[1 + k]) == Ok(Privilege(RoleName(Get(OidIndex(roles), kids[k])), p.grantee, p.privs, p.privswgo))
    {
      assert rs[1 + k] == copies[k];
      MemberCopy(p, roles, kids[k]);
    }
  }

  lemma MemberRulesShape(acl: string, roles: seq<Role>, reach: map<int, seq<int>>)
    requires ParseOne(acl).Ok?
    requires ParseOne(acl).value.grantee in NameIndex(roles)
    ensures var p := ParseOne(acl).value; var kids := Members(reach, Some(NameIndex(roles)[p.grantee]));
      ValidNames(p) && ChildRules(kids, p, OidIndex(roles)).Ok? &&
      RulesFor(acl, roles, reach) == Ok([acl] + ChildRules(kids, p, OidIndex(roles)).value)
  {
    var p := ParseOne(acl).value;
    assert ValidNames(p);
    var kids := Members(reach, Some(NameIndex(roles)[p.grantee]));
    var copies := ChildRules(kids, p, OidIndex(roles)).value;
    assert Get(NameIndex(roles), p.grantee).Some?;
    AppendEmpty([acl], copies);
  }

  lemma MemberCopy(p: Privilege, roles: seq<Role>, kid: int)
    requires WellNamed(roles) && p.grantee in NameIndex(roles)
    requires forall i :: 0 <= i < |p.privs| ==> NamedPrivilege(p.privs[i])
    requires forall i :: 0 <= i < |p.privswgo| ==> NamedPrivilege(p.privswgo[i])
    ensures var name := RoleName(Get(OidIndex(roles), kid));
      && ChangePrivilegeRoles(p, p.grantee, name).Ok?
      && ParseOne(ChangePrivilegeRoles(p, p.grantee, name).value) == Ok(Privilege(name, p.grantee, p.privs, p.privswgo))
  {
    NameIndexLast(roles, p.grantee);
    var name := Get(OidIndex(roles), kid);
    if name.Some? {
      OidIndexLast(roles, kid);
    }
    assert NoSeparator(RoleName(name));
    ChangedRolesParse(p, p.grantee, RoleName(name));
  }

  lemma ProjectionSnoc(acls: seq<string>, i: nat, roles: seq<Role>, reach: map<int, seq<int>>)
    requires i < |acls| && Projection(acls[..i], roles, reach).Ok? && ParseOne(acls[i]).Ok?
    ensures Projection(acls[..i + 1], roles, reach)
      == Ok(Projection(acls[..i], roles, reach).value + RulesFor(acls[i], roles, reach).value)
  {
    assert acls[..i + 1][..i] == acls[..i];
  }

  lemma ProjectionStops(acls: seq<string>, i: nat, roles: seq<Role>, reach: map<int, seq<int>>)
    requires i < |acls| && Projection(acls[..i], roles, reach).Ok? && ParseOne(acls[i]).Err?
    ensures Projection(acls, roles, reach) == Err(ParseOne(acls[i]).error)
  {
    assert forall j :: 0 <= j < i ==> ParseOne(acls[j]).Ok? by {
      forall j | 0 <= j < i
        ensures ParseOne(acls[j]).Ok?
      {
        assert acls[..i][j] == acls[j];
      }
    }
    var all := Projection(acls, roles, reach);
    assert all.Err?;
    var k :| FirstFailure(acls, k) && ParseOne(acls[k]) == Err(all.error);
    assert k == i;
  }

  // --------------------------------------------------------------- the use case

  /** The membership edges as pairs (group role, member). */
  function EdgePairs(edges: seq<RoleGroupEdge>): (r: seq<(int, int)>)
    ensures |r| == |edges| && forall i :: 0 <= i < |edges| ==> r[i] == (edges[i].fromOid, edges[i].toOid)
  {
    seq(|edges|, i requires 0 <= i < |edges| => (edges[i].fromOid, edges[i].toOid))
  }

  /** The membership graph: an edge from each group role to each of its members. */
  function MembershipGraph(edges: seq<RoleGroupEdge>): map<int, seq<int>> {
    EdgeListGraph(EdgePairs(edges))
  }

  /** _get_reachable_roles: every transitive member of every role that has members. */
  method ReachableRoles(edges: seq<RoleGroupEdge>) returns (r: Result<map<int, seq<int>>>)
    ensures r.Err? ==> r.error == KeyError && !Acyclic(MembershipGraph(edges))
    ensures r.Ok? ==> ReachTable(MembershipGraph(edges), r.value)
  {
    var pairs := EdgePairs(edges);
    var graph := new Graph<int>();
    for i := 0 to |pairs|
      invariant graph.Valid() && graph.adj == EdgeListGraph(pairs[..i])
    {
      assert pairs[..i + 1][..i] == pairs[..i];
      graph.AddEdge(pairs[i].0, pairs[i].1);
    }
    assert pairs[..|pairs|] == pairs;
    r := graph.AllReachableNodes();
  }

  /** The inner loop of get_all_graph_permissions: one copy of the rule per member, to the
      member from the rule's grantee. */
  method AppendMemberRules(finder: RoleSearcher, permissions: seq<string>, privilege: Privilege, kids: seq<int>)
    returns (r: seq<string>)
    requires finder.Valid() && ValidNames(privilege)
    ensures r == permissions + ChildRules(kids, privilege, OidIndex(finder.roles)).value
  {
    r := permissions;
    for j := 0 to |kids|
      invariant r == permissions + ChildRules(kids[..j], privilege, OidIndex(finder.roles)).value
    {
      ChildRulesSnoc(kids, j, privilege, OidIndex(finder.roles));
      ghost var done := ChildRules(kids[..j], privilege, OidIndex(finder.roles)).value;
      var name := finder.OidToName(kids[j]);
      var child := ChangePrivilegeRoles(privilege, privilege.grantee, RoleName(name));
      AppendAssoc(permissions, done, [child.value]);
      r := r + [child.value];
    }
    assert kids[..|kids|] == kids;
  }

  lemma ChildRulesSnoc(kids: seq<int>, j: nat, p: Privilege, names: map<int, string>)
    requires j < |kids| && ValidNames(p)
    ensures ChildRules(kids[..j + 1], p, names).value ==
      ChildRules(kids[..j], p, names).value + [ChangePrivilegeRoles(p, p.grantee, RoleName(Get(names, kids[j]))).value]
  {
    assert kids[..j + 1][..j] == kids[..j];
  }

  /** One pass of the loop of get_all_graph_permissions: the raw rule, then its copies for
      every role when its grantee is not a role, then its copies for the grantee's members. */
  method ProjectOne(finder: RoleSearcher, roles: seq<Role>, acl: string, reach: map<int, seq<int>>)
    returns (r: Result<seq<string>>)
    requires finder.Valid() && finder.roles == roles
    ensures r == RulesFor(acl, roles, reach)
  {
    var permissions := [acl];
    var parsed := ParseOne(acl);
    if parsed.Err? {
      return Err(parsed.error);
    }
    var privilege := parsed.value;
    assert ValidNames(privilege);
    var oid := finder.NameToOid(privilege.grantee);
    assert oid == Get(NameIndex(roles), privilege.grantee);
    if oid.None? {
      var publics := PublicRules(roles, privilege);
      permissions := permissions + publics.value;
    }
    ghost var publics := if oid.None? then PublicRules(roles, privilege).value else [];
    assert permissions == [acl] + publics;
    permissions := AppendMemberRules(finder, permissions, privilege, Members(reach, oid));
    assert permissions == [acl] + publics + ChildRules(Members(reach, oid), privilege, OidIndex(roles)).value;
    r := Ok(permissions);
  }

  /** The rule list get_all_graph_permissions builds: the superuser rules, then for each
      raw rule the rule and its copies. */
  method CollectPermissions(sel: Selector, acls: seq<string>, roles: seq<Role>, reach: map<int, seq<int>>)
    returns (r: Result<seq<string>>)
    ensures r.Ok? <==> Projection(acls, roles, reach).Ok?
    ensures r.Err? ==> r.error == Projection(acls, roles, reach).error
    ensures r.Ok? ==> r.value == AdminRules(roles, sel) + Projection(acls, roles, reach).value
  {
    var permissions := AdminRules(roles, sel);
    var finder := new RoleSearcher(roles);
    for i := 0 to |acls|
      invariant Projection(acls[..i], roles, reach).Ok?
      invariant permissions == AdminRules(roles, sel) + Projection(acls[..i], roles, reach).value
      invariant finder.Valid() && finder.roles == roles
    {
      var more := ProjectOne(finder, roles, acls[i], reach);
      if more.Err? {
        ProjectionStops(acls, i, roles, reach);
        return Err(more.error);
      }
      ProjectionSnoc(acls, i, roles, reach);
      ghost var done := Projection(acls[..i], roles, reach).value;
      AppendAssoc(AdminRules(roles, sel), done, more.value);
      permissions := permissions + more.value;
    }
    assert acls[..|acls|] == acls;
    r := Ok(permissions);
  }

  /** get_all_graph_permissions: the effective rules, aggregated by grantee. A cycle among
      the memberships raises KeyError before anything is parsed; otherwise the reach table
      is computed, and the call fails exactly when a raw rule fails to parse (with the first
      such rule's error) or, after the projection, a collected rule does (likewise). */
  method GetAllGraphPermissions(sel: Selector, cat: CatalogAcls, roles: seq<Role>, edges: seq<RoleGroupEdge>)
    returns (r: Result<seq<Summary>>, ghost reach: map<int, seq<int>>)
    ensures r.Err? && r.error.KeyError? ==> !Acyclic(MembershipGraph(edges))
    ensures r.Err? && !r.error.KeyError? ==> r.error.IsParseFailure()
    ensures r.Err? && !r.error.KeyError? ==> ReachTable(MembershipGraph(edges), reach)
    ensures r.Err? && !r.error.KeyError? ==>
      var proj := Projection(SelectedAcls(sel, cat), roles, reach);
      (proj.Err? && r.error == proj.error) ||
      (proj.Ok? && ParseBatch(AdminRules(roles, sel) + proj.value) == Err(r.error))
    ensures r.Ok? ==> ReachTable(MembershipGraph(edges), reach)
    ensures r.Ok? ==> Projection(SelectedAcls(sel, cat), roles, reach).Ok?
    ensures r.Ok? ==> var all := AdminRules(roles, sel) + Projection(SelectedAcls(sel, cat), roles, reach).value;
      ParseBatch(all).Ok? && r.value == Aggregate(ParseBatch(all).value)
  {
    reach := map[];
    var acls := SelectedAcls(sel, cat);
    var reachable := ReachableRoles(edges);
    if reachable.Err? {
      return Err(reachable.error), reach;
    }
    reach := reachable.value;
    var permissions := CollectPermissions(sel, acls, roles, reachable.value);
    if permissions.Err? {
      ProjectionFailure(acls, roles, reach);
      return Err(permissions.error), reach;
    }
    var parsed := ParseAclRules(permissions.value, true);
    if parsed.Err? {
      BatchFailure(permissions.value);
      return Err(parsed.error), reach;
    }
    r := Ok(parsed.value.summaries);
  }
}
