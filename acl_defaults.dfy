/** The ACL records of a database, a schema and a table (acl_dto.py): a NULL ACL from the
    catalogue is replaced, right after construction, by the rules the owner holds implicitly. */
module AclDefaults {
  import opened Outcomes
  import opened AclCodec

  /** `"owner"=letters/"owner"`: the owner holding privileges from itself, written as the
      codec writes rules. */
  function OwnerRuleText(owner: string, letters: string): string {
    RuleText(owner, letters, owner)
  }

  /** The implicit ACL of a database: the owner holds CREATE, TEMPORARY and CONNECT, and
      PUBLIC holds TEMPORARY and CONNECT. */
  function DatabaseDefault(owner: string): (r: seq<string>)
    ensures |r| == 2
  {
    [OwnerRuleText(owner, "CTc"), "=Tc" + GrantorText(owner)]
  }

  /** The implicit ACL of a schema: the owner holds USAGE and CREATE. */
  function SchemaDefault(owner: string): (r: seq<string>)
    ensures |r| == 1
  {
    [OwnerRuleText(owner, "UC")]
  }

  /** The implicit ACL of a table: the owner holds the seven table privileges. */
  function TableDefault(owner: string): (r: seq<string>)
    ensures |r| == 1
  {
    [OwnerRuleText(owner, "arwdDxt")]
  }

  /** The ACL after __attrs_post_init__: the catalogue's when there is one (even an empty
      one), the default otherwise. */
  function Defaulted(acl: Option<seq<string>>, default: seq<string>): (r: seq<string>)
    ensures acl.Some? ==> r == acl.value
    ensures acl.None? ==> r == default
  {
    if acl.None? then default else acl.value
  }

  class DatabaseAcl {
    var oid: int
    var name: string
    var owner: string
    var acl: Option<seq<string>>

    constructor (oid: int, name: string, owner: string, acl: Option<seq<string>>)
      ensures this.oid == oid && this.name == name && this.owner == owner
      ensures this.acl == Some(Defaulted(acl, DatabaseDefault(owner)))
    {
      this.oid := oid;
      this.name := name;
      this.owner := owner;
      this.acl := acl;
      new;
      PostInit();
    }

    method PostInit()
      modifies this
      ensures oid == old(oid) && name == old(name) && owner == old(owner)
      ensures acl == Some(Defaulted(old(acl), DatabaseDefault(owner)))
    {
      if acl.None? {
        acl := Some(DatabaseDefault(owner));
      }
    }
  }

  class SchemaAcl {
    var oid: int
    var name: string
    var owner: string
    var acl: Option<seq<string>>

    constructor (oid: int, name: string, owner: string, acl: Option<seq<string>>)
      ensures this.oid == oid && this.name == name && this.owner == owner
      ensures this.acl == Some(Defaulted(acl, SchemaDefault(owner)))
    {
      this.oid := oid;
      this.name := name;
      this.owner := owner;
      this.acl := acl;
      new;
      PostInit();
    }

    method PostInit()
      modifies this
      ensures oid == old(oid) && name == old(name) && owner == old(owner)
      ensures acl == Some(Defaulted(old(acl), SchemaDefault(owner)))
    {
      if acl.None? {
        acl := Some(SchemaDefault(owner));
      }
    }
  }

  class TableAcl {
    var oid: int
    var name: string
    var owner: string
    var acl: Option<seq<string>>
    var schema: string

    constructor (oid: int, name: string, owner: string, acl: Option<seq<string>>, schema: string)
      ensures this.oid == oid && this.name == name && this.owner == owner && this.schema == schema
      ensures this.acl == Some(Defaulted(acl, TableDefault(owner)))
    {
      this.oid := oid;
      this.name := name;
      this.owner := owner;
      this.acl := acl;
      this.schema := schema;
      new;
      PostInit();
    }

    method PostInit()
      modifies this
      ensures oid == old(oid) && name == old(name) && owner == old(owner) && schema == old(schema)
      ensures acl == Some(Defaulted(old(acl), TableDefault(owner)))
    {
      if acl.None? {
        acl := Some(TableDefault(owner));
      }
    }
  }

  /** An owner rule `"owner"=letters/"owner"` is the codec's own rendering of the owner
      holding those privileges from itself. */
  lemma OwnerRule(owner: string, privs: seq<string>, letters: string)
    requires NoSeparator(owner) && owner != ""
    requires forall i :: 0 <= i < |privs| ==> NamedPrivilege(privs[i])
    requires EncodeAcl(privs).Ok? && Flatten(EncodeAcl(privs).value) == letters
    ensures ParseOne(OwnerRuleText(owner, letters)) == Ok(Privilege(owner, owner, privs, []))
  {
    var p := Privilege(owner, owner, privs, []);
    RoundTrip(p);
    assert Compile(p).value == RuleText(owner, letters, owner) by {
      assert Flatten(EncodeAcl(privs).value) + Starred([]) == letters;
    }
  }

  /** The PUBLIC rule of the database default splits into its letters and the owner, and
      has letters. */
  lemma PublicRuleTokens(owner: string)
    requires NoSeparator(owner) && owner != ""
    ensures Tokens("=Tc" + GrantorText(owner)) == ["Tc", owner]
    ensures !HasEmptyAclLine("=Tc" + GrantorText(owner))
  {
    var g := GrantorText(owner);
    var s := "=Tc" + g;
    assert s == "=" + ("Tc" + g);
    TokensSkip("=", "Tc" + g);
    GrantorTextTokens(owner);
    TokensWord("Tc", g);
    GrantorTextNoEquals(owner);
    assert forall i :: 3 <= i < |s| ==> s[i] == g[i - 3];
  }

  /** The PUBLIC rule of the database default reads back as PUBLIC holding TEMPORARY and
      CONNECT from the owner. */
  lemma PublicRule(owner: string)
    requires NoSeparator(owner) && owner != ""
    ensures ParseOne("=Tc" + GrantorText(owner)) == Ok(Privilege("", owner, ["TEMPORARY", "CONNECT"], []))
  {
    PublicRuleTokens(owner);
    assert PlainLetters("Tc") == ["T", "c"];
    assert GoLetters("Tc") == [];
    assert ParseLight("=Tc" + GrantorText(owner)) == Ok(Privilege("", owner, ["T", "c"], []));
    assert DecodeAcl(["T", "c"]).value == ["TEMPORARY", "CONNECT"];
  }

  lemma FlattenCons(x: string, rest: seq<string>)
    ensures Flatten([x] + rest) == x + Flatten(rest)
  {
    assert ([x] + rest)[1..] == rest;
  }

  /** A batch of parsing rules decodes rule by rule. */
  lemma BatchOfTwo(a: string, b: string, p: Privilege, q: Privilege)
    requires ParseOne(a) == Ok(p) && ParseOne(b) == Ok(q)
    ensures ParseBatch([a, b]) == Ok([p, q])
  {
    var r := ParseBatch([a, b]);
    assert r.Ok? && |r.value| == 2;
    assert ParseOne([a, b][0]) == Ok(r.value[0]) && ParseOne([a, b][1]) == Ok(r.value[1]);
    assert r.value == [p, q];
  }

  lemma BatchOfOne(a: string, p: Privilege)
    requires ParseOne(a) == Ok(p)
    ensures ParseBatch([a]) == Ok([p])
  {
    var r := ParseBatch([a]);
    assert r.Ok? && |r.value| == 1;
    assert ParseOne([a][0]) == Ok(r.value[0]);
    assert r.value == [p];
  }

  /** The database default decodes to the owner with CREATE, TEMPORARY and CONNECT and
      PUBLIC (the empty grantee) with TEMPORARY and CONNECT, both granted by the owner. */
  lemma DatabaseDefaultDecodes(owner: string)
    requires NoSeparator(owner) && owner != ""
    ensures ParseBatch(DatabaseDefault(owner)) ==
      Ok([Privilege(owner, owner, ["CREATE", "TEMPORARY", "CONNECT"], []), Privilege("", owner, ["TEMPORARY", "CONNECT"], [])])
  {
    var ls := ["C", "T", "c"];
    assert EncodeAcl(["CREATE", "TEMPORARY", "CONNECT"]).value == ls;
    FlattenCons("c", []);
    FlattenCons("T", ["c"]);
    FlattenCons("C", ["T", "c"]);
    assert ["C"] + (["T"] + ["c"]) == ls;
    OwnerRule(owner, ["CREATE", "TEMPORARY", "CONNECT"], "CTc");
    PublicRule(owner);
    BatchOfTwo(OwnerRuleText(owner, "CTc"), "=Tc" + GrantorText(owner),
               Privilege(owner, owner, ["CREATE", "TEMPORARY", "CONNECT"], []), Privilege("", owner, ["TEMPORARY", "CONNECT"], []));
  }

  lemma SchemaDefaultDecodes(owner: string)
    requires NoSeparator(owner) && owner != ""
    ensures ParseBatch(SchemaDefault(owner)) == Ok([Privilege(owner, owner, ["USAGE", "CREATE"], [])])
  {
    var ls := ["U", "C"];
    assert EncodeAcl(["USAGE", "CREATE"]).value == ls;
    FlattenCons("C", []);
    FlattenCons("U", ["C"]);
    assert ["U"] + ["C"] == ls;
    OwnerRule(owner, ["USAGE", "CREATE"], "UC");
    BatchOfOne(OwnerRuleText(owner, "UC"), Privilege(owner, owner, ["USAGE", "CREATE"], []));
  }

  /** The seven table privileges are written `arwdDxt`. */
  lemma TableLetters()
    ensures EncodeAcl(["INSERT", "SELECT", "UPDATE", "DELETE", "TRUNCATE", "REFERENCES", "TRIGGER"])
      == Ok(["a", "r", "w", "d", "D", "x", "t"])
  {
    var head, tail := ["INSERT", "SELECT", "UPDATE"], ["DELETE", "TRUNCATE", "REFERENCES", "TRIGGER"];
    var letters, rest := ["a", "r", "w"], ["d", "D", "x", "t"];
    TableLettersHead();
    TableLettersTail();
    EncodeAppend(head, tail, letters, rest);
    assert head + tail == ["INSERT", "SELECT", "UPDATE", "DELETE", "TRUNCATE", "REFERENCES", "TRIGGER"];
    assert letters + rest == ["a", "r", "w", "d", "D", "x", "t"];
  }

  lemma TableLettersHead()
    ensures EncodeAcl(["INSERT", "SELECT", "UPDATE"]) == Ok(["a", "r", "w"])
  {
    var r := EncodeAcl(["INSERT", "SELECT", "UPDATE"]);
    assert r.Ok? && |r.value| == 3;
    assert r.value[0] == "a" && r.value[1] == "r" && r.value[2] == "w";
    assert r.value == ["a", "r", "w"];
  }

  lemma TableLettersTail()
    ensures EncodeAcl(["DELETE", "TRUNCATE", "REFERENCES", "TRIGGER"]) == Ok(["d", "D", "x", "t"])
  {
    var r := EncodeAcl(["DELETE", "TRUNCATE", "REFERENCES", "TRIGGER"]);
    assert r.Ok? && |r.value| == 4;
    assert r.value[0] == "d" && r.value[1] == "D" && r.value[2] == "x" && r.value[3] == "t";
    assert r.value == ["d", "D", "x", "t"];
  }

  lemma TableLine()
    ensures Flatten(["a", "r", "w", "d", "D", "x", "t"]) == "arwdDxt"
  {
    var ls := ["a", "r", "w", "d", "D", "x", "t"];
    FlattenCons("t", []);
    FlattenCons("x", ls[6..]);
    FlattenCons("D", ls[5..]);
    FlattenCons("d", ls[4..]);
    FlattenCons("w", ls[3..]);
    FlattenCons("r", ls[2..]);
    FlattenCons("a", ls[1..]);
    assert ls == ["a"] + ls[1..];
    assert ls[1..] == ["r"] + ls[2..] && ls[2..] == ["w"] + ls[3..] && ls[3..] == ["d"] + ls[4..];
    assert ls[4..] == ["D"] + ls[5..] && ls[5..] == ["x"] + ls[6..] && ls[6..] == ["t"] + [];
  }

  lemma TableDefaultDecodes(owner: string)
    requires NoSeparator(owner) && owner != ""
    ensures ParseBatch(TableDefault(owner)) ==
      Ok([Privilege(owner, owner, ["INSERT", "SELECT", "UPDATE", "DELETE", "TRUNCATE", "REFERENCES", "TRIGGER"], [])])
  {
    var privs := ["INSERT", "SELECT", "UPDATE", "DELETE", "TRUNCATE", "REFERENCES", "TRIGGER"];
    TableLetters();
    TableLine();
    OwnerRule(owner, privs, "arwdDxt");
    BatchOfOne(OwnerRuleText(owner, "arwdDxt"), Privilege(owner, owner, privs, []));
  }
}
