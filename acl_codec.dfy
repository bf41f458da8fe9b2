/** The ACL text codec of backend/app/app/use_case/privilege/privilege_privilege.py: the
    PostgreSQL/Greenplum `aclitem` notation `grantee=letters/grantor`, where each privilege is
    one letter and a letter followed by `*` is held WITH GRANT OPTION. */
module AclCodec {
  import opened Outcomes
  import opened Collections

  /** A decoded (or still letter-level) ACL rule. */
  datatype Privilege = Privilege(grantee: string, grantor: string, privs: seq<string>, privswgo: seq<string>)

  /** Privilege names and their ACL letters; ALL has the empty letter. */
  const ValidPrivileges: map<string, string> := map[
    "SELECT" := "r", "UPDATE" := "w", "INSERT" := "a", "DELETE" := "d", "TRUNCATE" := "D",
    "REFERENCES" := "x", "TRIGGER" := "t", "EXECUTE" := "X", "USAGE" := "U", "CREATE" := "C",
    "CONNECT" := "c", "TEMPORARY" := "T", "ALL" := ""]

  /** The same table read from letter to name. */
  const ValidPrivilegesInv: map<string, string> := map[
    "r" := "SELECT", "w" := "UPDATE", "a" := "INSERT", "d" := "DELETE", "D" := "TRUNCATE",
    "x" := "REFERENCES", "t" := "TRIGGER", "X" := "EXECUTE", "U" := "USAGE", "C" := "CREATE",
    "c" := "CONNECT", "T" := "TEMPORARY", "" := "ALL"]

  /** The two tables are inverse to each other. */
  lemma InverseTable()
    ensures forall name :: name in ValidPrivileges ==> ValidPrivilegesInv[ValidPrivileges[name]] == name
    ensures forall letter :: letter in ValidPrivilegesInv ==>
      ValidPrivilegesInv[letter] in ValidPrivileges && ValidPrivileges[ValidPrivilegesInv[letter]] == letter
  {
    NamesRoundTrip();
    LettersRoundTrip();
  }

  lemma NamesRoundTrip()
    ensures forall name :: name in ValidPrivileges ==> ValidPrivilegesInv[ValidPrivileges[name]] == name
  {
  }

  lemma LettersRoundTrip()
    ensures forall letter :: letter in ValidPrivilegesInv ==>
      ValidPrivilegesInv[letter] in ValidPrivileges && ValidPrivileges[ValidPrivilegesInv[letter]] == letter
  {
  }

  /** A privilege name that has a letter of its own (every one but ALL). */
  predicate NamedPrivilege(name: string) {
    name in ValidPrivileges && name != "ALL"
  }

  lemma NamedPrivilegeLetter(name: string)
    requires NamedPrivilege(name)
    ensures |ValidPrivileges[name]| == 1
    ensures ValidPrivileges[name][0] != '*' && !IsSeparator(ValidPrivileges[name][0])
  {
  }

  /** Letters to names; an unknown letter fails with all the letters given. */
  function DecodeAcl(symbols: seq<string>): (r: Result<seq<string>>)
    ensures r.Ok? <==> forall i :: 0 <= i < |symbols| ==> symbols[i] in ValidPrivilegesInv
    ensures r.Err? ==> r.error == FailedToParseACLSymbols(symbols)
    ensures r.Ok? ==> |r.value| == |symbols| && forall i :: 0 <= i < |symbols| ==>
      r.value[i] in ValidPrivileges && ValidPrivileges[r.value[i]] == symbols[i]
  {
    InverseTable();
    if forall i :: 0 <= i < |symbols| ==> symbols[i] in ValidPrivilegesInv then
      Ok(seq(|symbols|, i requires 0 <= i < |symbols| => ValidPrivilegesInv[symbols[i]]))
    else
      Err(FailedToParseACLSymbols(symbols))
  }

  /** Names to letters; an unknown name fails with all the names given. */
  function EncodeAcl(privileges: seq<string>): (r: Result<seq<string>>)
    ensures r.Ok? <==> forall i :: 0 <= i < |privileges| ==> privileges[i] in ValidPrivileges
    ensures r.Err? ==> r.error == FailedToParseTextPrivileges(privileges)
    ensures r.Ok? ==> |r.value| == |privileges| && forall i :: 0 <= i < |privileges| ==>
      r.value[i] in ValidPrivilegesInv && ValidPrivilegesInv[r.value[i]] == privileges[i]
  {
    InverseTable();
    if forall i :: 0 <= i < |privileges| ==> privileges[i] in ValidPrivileges then
      Ok(seq(|privileges|, i requires 0 <= i < |privileges| => ValidPrivileges[privileges[i]]))
    else
      Err(FailedToParseTextPrivileges(privileges))
  }

  /** Decoding is pointwise, so it distributes over concatenation. */
  lemma DecodeAppend(a: seq<string>, b: seq<string>, x: seq<string>, y: seq<string>)
    requires DecodeAcl(a) == Ok(x) && DecodeAcl(b) == Ok(y)
    ensures DecodeAcl(a + b) == Ok(x + y)
  {
    assert forall i :: 0 <= i < |a + b| ==> (a + b)[i] in ValidPrivilegesInv by {
      forall i | 0 <= i < |a + b|
        ensures (a + b)[i] in ValidPrivilegesInv
      {
        if i < |a| { assert (a + b)[i] == a[i]; } else { assert (a + b)[i] == b[i - |a|]; }
      }
    }
    var d := DecodeAcl(a + b);
    forall i | 0 <= i < |a + b|
      ensures d.value[i] == (x + y)[i]
    {
      InverseTable();
      assert ValidPrivilegesInv[ValidPrivileges[d.value[i]]] == d.value[i];
      if i < |a| {
        assert ValidPrivilegesInv[ValidPrivileges[x[i]]] == x[i];
      } else {
        assert ValidPrivilegesInv[ValidPrivileges[y[i - |a|]]] == y[i - |a|];
      }
    }
    assert d.value == x + y;
  }

  /** Encoding is pointwise, so it distributes over concatenation. */
  lemma EncodeAppend(a: seq<string>, b: seq<string>, x: seq<string>, y: seq<string>)
    requires EncodeAcl(a) == Ok(x) && EncodeAcl(b) == Ok(y)
    ensures EncodeAcl(a + b) == Ok(x + y)
  {
    assert forall i :: 0 <= i < |a + b| ==> (a + b)[i] in ValidPrivileges by {
      forall i | 0 <= i < |a + b|
        ensures (a + b)[i] in ValidPrivileges
      {
        if i < |a| { assert (a + b)[i] == a[i]; } else { assert (a + b)[i] == b[i - |a|]; }
      }
    }
    var e := EncodeAcl(a + b);
    forall i | 0 <= i < |a + b|
      ensures e.value[i] == (x + y)[i]
    {
      InverseTable();
      assert ValidPrivileges[ValidPrivilegesInv[e.value[i]]] == e.value[i];
      if i < |a| {
        assert ValidPrivileges[ValidPrivilegesInv[x[i]]] == x[i];
      } else {
        assert ValidPrivileges[ValidPrivilegesInv[y[i - |a|]]] == y[i - |a|];
      }
    }
    assert e.value == x + y;
  }

  /** Decoding what was encoded gives the names back. */
  lemma {:induction false} DecodeEncode(privileges: seq<string>)
    requires EncodeAcl(privileges).Ok?
    ensures DecodeAcl(EncodeAcl(privileges).value) == Ok(privileges)
  {
    var letters := EncodeAcl(privileges).value;
    assert forall i :: 0 <= i < |letters| ==> letters[i] in ValidPrivilegesInv;
    var back := DecodeAcl(letters).value;
    assert forall i :: 0 <= i < |back| ==> back[i] == privileges[i] by {
      InverseTable();
    }
    assert back == privileges;
  }

  // ---------------------------------------------------------------- tokenizing

  /** The characters the tokenizer `[^=/"]+` splits on. */
  predicate IsSeparator(c: char) {
    c == '=' || c == '/' || c == '"'
  }

  predicate NoSeparator(s: string) {
    forall i :: 0 <= i < |s| ==> !IsSeparator(s[i])
  }

  /** The length of the longest separator-free prefix. */
  function RunLength(s: string): (n: nat)
    ensures n <= |s| && NoSeparator(s[..n])
    ensures n < |s| ==> IsSeparator(s[n])
  {
    if s == [] || IsSeparator(s[0]) then 0
    else
      var n := 1 + RunLength(s[1..]);
      assert forall i :: 1 <= i < n ==> s[..n][i] == s[1..][..n - 1][i - 1];
      n
  }

  /** All maximal separator-free runs of s, left to right. */
  function Tokens(s: string): (r: seq<string>)
    ensures forall i :: 0 <= i < |r| ==> r[i] != [] && NoSeparator(r[i])
    decreases |s|
  {
    if s == [] then []
    else if IsSeparator(s[0]) then Tokens(s[1..])
    else
      var n := RunLength(s);
      [s[..n]] + Tokens(s[n..])
  }

  function Flatten(ss: seq<string>): string {
    if ss == [] then [] else ss[0] + Flatten(ss[1..])
  }

  function RemoveSeparators(s: string): (r: string)
    ensures NoSeparator(r)
  {
    if s == [] then []
    else (if IsSeparator(s[0]) then [] else [s[0]]) + RemoveSeparators(s[1..])
  }

  lemma {:induction false} RemoveSeparatorsAppend(a: string, b: string)
    ensures RemoveSeparators(a + b) == RemoveSeparators(a) + RemoveSeparators(b)
  {
    if a == [] {
      assert a + b == b;
    } else {
      assert (a + b)[1..] == a[1..] + b;
      RemoveSeparatorsAppend(a[1..], b);
    }
  }

  lemma {:induction false} RemoveSeparatorsOfRun(s: string)
    requires NoSeparator(s)
    ensures RemoveSeparators(s) == s
  {
    if s != [] {
      RemoveSeparatorsOfRun(s[1..]);
    }
  }

  /** The tokens are exactly the non-separator characters of s, in order, none lost. */
  lemma {:induction false} TokensKeepEverythingElse(s: string)
    ensures Flatten(Tokens(s)) == RemoveSeparators(s)
    decreases |s|
  {
    if s == [] {
    } else if IsSeparator(s[0]) {
      TokensKeepEverythingElse(s[1..]);
    } else {
      var n := RunLength(s);
      TokensKeepEverythingElse(s[n..]);
      assert s == s[..n] + s[n..];
      RemoveSeparatorsAppend(s[..n], s[n..]);
      RemoveSeparatorsOfRun(s[..n]);
    }
  }

  /** Separators in front of t do not change its tokens. */
  lemma {:induction false} TokensSkip(sep: string, t: string)
    requires forall i :: 0 <= i < |sep| ==> IsSeparator(sep[i])
    ensures Tokens(sep + t) == Tokens(t)
  {
    if sep != [] {
      var st := sep + t;
      assert st[0] == sep[0] && IsSeparator(st[0]);
      assert st[1..] == sep[1..] + t;
      assert Tokens(st) == Tokens(st[1..]);
      TokensSkip(sep[1..], t);
    } else {
      assert sep + t == t;
    }
  }

  lemma {:induction false} RunLengthOf(w: string, t: string)
    requires NoSeparator(w)
    requires t == [] || IsSeparator(t[0])
    ensures RunLength(w + t) == |w|
  {
    if w == [] {
      assert w + t == t;
    } else {
      assert (w + t)[1..] == w[1..] + t;
      RunLengthOf(w[1..], t);
    }
  }

  /** [w] when w is a token, nothing when it is empty. */
  function TokenOf(w: string): seq<string> {
    if w == [] then [] else [w]
  }

  /** A separator-free word followed by a separator (or the end) is one token. */
  lemma TokensWord(w: string, t: string)
    requires NoSeparator(w)
    requires t == [] || IsSeparator(t[0])
    ensures Tokens(w + t) == TokenOf(w) + Tokens(t)
  {
    if w == [] {
      assert w + t == t;
    } else {
      RunLengthOf(w, t);
      assert (w + t)[..|w|] == w;
      assert (w + t)[|w|..] == t;
    }
  }

  /** Whether the text contains `=/`, that is, an empty letter section. */
  predicate HasEmptyAclLine(s: string) {
    exists i :: 0 <= i < |s| - 1 && s[i] == '=' && s[i + 1] == '/'
  }

  // ----------------------------------------------------------- letter sections

  /** The letters followed by `*` (the `[^*](?=[*])` matches), as one-letter strings. */
  function GoLetters(s: string): (r: seq<string>)
    ensures |r| <= |s|
    ensures forall i :: 0 <= i < |r| ==> |r[i]| == 1
  {
    if |s| < 2 then []
    else (if s[0] != '*' && s[1] == '*' then [[s[0]]] else []) + GoLetters(s[1..])
  }

  /** The letters not followed by `*` (the `[^*](?=[^*]|$)` matches), as one-letter strings. */
  function PlainLetters(s: string): (r: seq<string>)
    ensures |r| <= |s|
    ensures forall i :: 0 <= i < |r| ==> |r[i]| == 1
  {
    if s == [] then []
    else (if s[0] != '*' && (|s| == 1 || s[1] != '*') then [[s[0]]] else []) + PlainLetters(s[1..])
  }

  /** Each a single character that is neither `*` nor a separator. */
  predicate Letters(ls: seq<string>) {
    forall i :: 0 <= i < |ls| ==> |ls[i]| == 1 && ls[i][0] != '*' && !IsSeparator(ls[i][0])
  }

  /** The letters each followed by `*`. */
  function Starred(ls: seq<string>): string {
    if ls == [] then [] else ls[0] + "*" + Starred(ls[1..])
  }

  lemma {:induction false} StarredLine(gs: seq<string>)
    requires Letters(gs)
    ensures NoSeparator(Starred(gs))
    ensures Starred(gs) == [] || Starred(gs)[0] != '*'
    ensures PlainLetters(Starred(gs)) == [] && GoLetters(Starred(gs)) == gs
  {
    if gs != [] {
      StarredLine(gs[1..]);
      var rest := Starred(gs[1..]);
      var s := Starred(gs);
      assert s == [gs[0][0]] + (['*'] + rest);
      assert s[1..] == ['*'] + rest;
      assert s[1..][1..] == rest;
      assert gs[0] == [gs[0][0]];
      assert gs == [gs[0]] + gs[1..];
    }
  }

  lemma {:induction false} FlatLine(ls: seq<string>, t: string)
    requires Letters(ls)
    requires NoSeparator(t) && (t == [] || t[0] != '*')
    ensures NoSeparator(Flatten(ls) + t)
    ensures Flatten(ls) + t == [] || (Flatten(ls) + t)[0] != '*'
  {
    if ls == [] {
      assert Flatten(ls) + t == t;
    } else {
      FlatLine(ls[1..], t);
      FlattenCons(ls, t);
      NoSeparatorCons(ls[0][0], Flatten(ls[1..]) + t);
    }
  }

  lemma NoSeparatorCons(c: char, rest: string)
    requires !IsSeparator(c) && NoSeparator(rest)
    ensures NoSeparator([c] + rest)
  {
    var s := [c] + rest;
    forall i | 0 <= i < |s|
      ensures !IsSeparator(s[i])
    {
      if i > 0 {
        assert s[i] == rest[i - 1];
      }
    }
  }

  lemma {:induction false} PlainLine(ls: seq<string>, t: string)
    requires Letters(ls)
    requires NoSeparator(t) && (t == [] || t[0] != '*')
    ensures PlainLetters(Flatten(ls) + t) == ls + PlainLetters(t)
    ensures GoLetters(Flatten(ls) + t) == GoLetters(t)
  {
    if ls == [] {
      assert Flatten(ls) + t == t;
    } else {
      PlainLine(ls[1..], t);
      FlatLine(ls[1..], t);
      var rest := Flatten(ls[1..]) + t;
      FlattenCons(ls, t);
      LettersCons(ls[0][0], rest);
      assert ls[0] == [ls[0][0]];
      assert ls == [ls[0]] + ls[1..];
      AppendAssoc([ls[0]], ls[1..], PlainLetters(t));
    }
  }

  lemma FlattenCons(ls: seq<string>, t: string)
    requires ls != [] && |ls[0]| == 1
    ensures Flatten(ls) + t == [ls[0][0]] + (Flatten(ls[1..]) + t)
  {
    assert ls[0] == [ls[0][0]];
  }

  /** A letter that no `*` follows is a plain letter. */
  lemma LettersCons(c: char, rest: string)
    requires c != '*' && (rest == [] || rest[0] != '*')
    ensures PlainLetters([c] + rest) == [[c]] + PlainLetters(rest)
    ensures GoLetters([c] + rest) == GoLetters(rest)
  {
    assert ([c] + rest)[1..] == rest;
  }

  /** The letter section `plain letters` then `letter*` pairs reads back as both lists. */
  lemma LineLetters(ls: seq<string>, gs: seq<string>)
    requires Letters(ls) && Letters(gs)
    ensures NoSeparator(Flatten(ls) + Starred(gs))
    ensures Flatten(ls) + Starred(gs) == [] <==> ls == [] && gs == []
    ensures PlainLetters(Flatten(ls) + Starred(gs)) == ls
    ensures GoLetters(Flatten(ls) + Starred(gs)) == gs
  {
    StarredLine(gs);
    FlatLine(ls, Starred(gs));
    PlainLine(ls, Starred(gs));
    if ls != [] {
      assert |Flatten(ls)| > 0 by {
        assert Flatten(ls) == ls[0] + Flatten(ls[1..]);
      }
    }
    if gs != [] {
      assert |Starred(gs)| > 0 by {
        assert Starred(gs) == gs[0] + "*" + Starred(gs[1..]);
      }
    }
  }

  // ------------------------------------------------------------------- parsing

  /** Splits a rule into grantee, letter-level privileges and grantor. */
  function ParseLight(acl: string): (r: Result<Privilege>)
    ensures r.Ok? <==> (var k := |Tokens(acl)|; k == 3 || k == 2 || (k == 1 && HasEmptyAclLine(acl)))
    ensures r.Err? ==> r.error == FailedToParseACLRule(acl)
    ensures r.Ok? ==> r.value.grantor == Tokens(acl)[|Tokens(acl)| - 1]
    ensures r.Ok? && |Tokens(acl)| == 3 ==> r.value.grantee == Tokens(acl)[0]
    ensures r.Ok? ==> NoSeparator(r.value.grantee) && NoSeparator(r.value.grantor) && r.value.grantor != ""
  {
    var tokens := Tokens(acl);
    var emptyLine := HasEmptyAclLine(acl);
    var parts: Option<(string, string, string)> :=
      if |tokens| == 3 then Some((tokens[0], tokens[1], tokens[2]))
      else if |tokens| == 2 && emptyLine then Some((tokens[0], "", tokens[1]))
      else if |tokens| == 2 then Some(("", tokens[0], tokens[1]))
      else if |tokens| == 1 && emptyLine then Some(("", "", tokens[0]))
      else None;
    match parts
    case None => Err(FailedToParseACLRule(acl))
    case Some((grantee, line, grantor)) =>
      Ok(Privilege(grantee, grantor, PlainLetters(line), GoLetters(line)))
  }

  /** parce_one_acl_rule: splits a rule and decodes both letter lists (WITH GRANT OPTION first). */
  function ParseOne(acl: string): (r: Result<Privilege>)
    ensures r.Err? ==> r.error.IsParseFailure()
    ensures r.Ok? ==> ParseLight(acl).Ok?
    ensures r.Ok? ==> r.value.grantee == ParseLight(acl).value.grantee
    ensures r.Ok? ==> r.value.grantor == ParseLight(acl).value.grantor
    ensures r.Ok? ==> NoSeparator(r.value.grantee) && NoSeparator(r.value.grantor) && r.value.grantor != ""
    ensures r.Ok? ==> forall i :: 0 <= i < |r.value.privs| ==> NamedPrivilege(r.value.privs[i])
    ensures r.Ok? ==> forall i :: 0 <= i < |r.value.privswgo| ==> NamedPrivilege(r.value.privswgo[i])
  {
    var light :- ParseLight(acl);
    var privswgo :- DecodeAcl(light.privswgo);
    var privs :- DecodeAcl(light.privs);
    Ok(Privilege(light.grantee, light.grantor, privs, privswgo))
  }

  /** The text compile_one_acl_rule produces from already encoded letters. */
  function RuleText(grantee: string, line: string, grantor: string): string {
    "\"" + (grantee + ("\"=" + (line + GrantorText(grantor))))
  }

  /** compile_one_acl_rule: `"grantee"=letters letter*.../"grantor"`. */
  function Compile(p: Privilege): (r: Result<string>)
    ensures r.Ok? <==>
      (forall i :: 0 <= i < |p.privs| ==> p.privs[i] in ValidPrivileges) &&
      (forall i :: 0 <= i < |p.privswgo| ==> p.privswgo[i] in ValidPrivileges)
    ensures r.Err? ==> r.error == FailedToParseTextPrivileges(
      if EncodeAcl(p.privs).Err? then p.privs else p.privswgo)
  {
    var privs :- EncodeAcl(p.privs);
    var privswgo :- EncodeAcl(p.privswgo);
    Ok(RuleText(p.grantee, Flatten(privs) + Starred(privswgo), p.grantor))
  }

  /** A rule the notation can carry: named privileges only, and names without separators. */
  predicate Encodable(p: Privilege) {
    && (forall i :: 0 <= i < |p.privs| ==> NamedPrivilege(p.privs[i]))
    && (forall i :: 0 <= i < |p.privswgo| ==> NamedPrivilege(p.privswgo[i]))
    && NoSeparator(p.grantee) && NoSeparator(p.grantor) && p.grantor != ""
  }

  lemma EncodedLetters(names: seq<string>)
    requires forall i :: 0 <= i < |names| ==> NamedPrivilege(names[i])
    ensures EncodeAcl(names).Ok? && Letters(EncodeAcl(names).value)
  {
    var ls := EncodeAcl(names).value;
    forall i | 0 <= i < |ls|
      ensures |ls[i]| == 1 && ls[i][0] != '*' && !IsSeparator(ls[i][0])
    {
      NamedPrivilegeLetter(names[i]);
    }
  }

  /** What follows the letter section: `/"grantor"`. */
  function GrantorText(grantor: string): string {
    "/\"" + (grantor + "\"")
  }

  lemma GrantorTextTokens(grantor: string)
    requires NoSeparator(grantor) && grantor != ""
    ensures Tokens(GrantorText(grantor)) == [grantor]
  {
    var tail := "\"";
    TokensSkip("/\"", grantor + tail);
    TokensWord(grantor, tail);
    assert tail == tail + [];
    TokensSkip(tail, []);
  }

  lemma GrantorTextNoEquals(grantor: string)
    requires NoSeparator(grantor)
    ensures forall k :: 0 <= k < |GrantorText(grantor)| ==> GrantorText(grantor)[k] != '='
  {
    var g := GrantorText(grantor);
    forall k | 0 <= k < |g|
      ensures g[k] != '='
    {
      if 2 <= k < 2 + |grantor| {
        assert g[k] == grantor[k - 2];
      }
    }
  }

  /** The rule text the codec writes has the three parts as its tokens. */
  lemma RuleTextTokens(grantee: string, line: string, grantor: string)
    requires NoSeparator(grantee) && NoSeparator(line) && NoSeparator(grantor) && grantor != ""
    ensures Tokens(RuleText(grantee, line, grantor)) == TokenOf(grantee) + TokenOf(line) + [grantor]
  {
    var afterLine := GrantorText(grantor);
    var afterGrantee := "\"=" + (line + afterLine);
    GrantorTextTokens(grantor);
    TokensSkip("\"=", line + afterLine);
    TokensWord(line, afterLine);
    TokensSkip("\"", grantee + afterGrantee);
    TokensWord(grantee, afterGrantee);
  }

  /** The rule text contains `=/` exactly when its letter section is empty. */
  lemma RuleTextEmptyLine(grantee: string, line: string, grantor: string)
    requires NoSeparator(grantee) && NoSeparator(line) && NoSeparator(grantor)
    ensures HasEmptyAclLine(RuleText(grantee, line, grantor)) <==> line == []
  {
    var x3 := line + GrantorText(grantor);
    var x2 := "\"=" + x3;
    var x1 := grantee + x2;
    var s := "\"" + x1;
    assert s == RuleText(grantee, line, grantor);
    var k := |grantee| + 2;
    assert x3 == [] || x3[0] == (if line == [] then '/' else line[0]);
    assert forall i :: 0 <= i < |x3| ==> x3[i] != '=' by {
      GrantorTextNoEquals(grantor);
      forall i | 0 <= i < |x3|
        ensures x3[i] != '='
      {
        if i >= |line| {
          assert x3[i] == GrantorText(grantor)[i - |line|];
        }
      }
    }
    assert forall i :: 2 <= i < |x2| ==> x2[i] == x3[i - 2];
    assert forall i :: |grantee| <= i < |x1| ==> x1[i] == x2[i - |grantee|];
    assert forall i :: 1 <= i < |s| ==> s[i] == x1[i - 1];
    assert forall i :: 0 <= i < |x2| && x2[i] == '=' ==> i == 1;
    assert forall i :: 0 <= i < |x1| && x1[i] == '=' ==> i == k - 1;
    assert forall i :: 0 <= i < |s| && s[i] == '=' ==> i == k;
    assert s[k] == '=';
    assert s[k + 1] == x3[0];
  }

  /** Splitting the rule text gives its three parts back. */
  lemma ParseRuleText(grantee: string, line: string, grantor: string)
    requires NoSeparator(grantee) && NoSeparator(line) && NoSeparator(grantor) && grantor != ""
    ensures ParseLight(RuleText(grantee, line, grantor)) ==
      Ok(Privilege(grantee, grantor, PlainLetters(line), GoLetters(line)))
  {
    RuleTextTokens(grantee, line, grantor);
    RuleTextEmptyLine(grantee, line, grantor);
    ParseLightOf(RuleText(grantee, line, grantor), grantee, line, grantor);
  }

  lemma ParseLightOf(acl: string, grantee: string, line: string, grantor: string)
    requires Tokens(acl) == TokenOf(grantee) + TokenOf(line) + [grantor]
    requires HasEmptyAclLine(acl) <==> line == []
    ensures ParseLight(acl) == Ok(Privilege(grantee, grantor, PlainLetters(line), GoLetters(line)))
  {
    var tokens := Tokens(acl);
    if grantee == [] && line == [] {
      assert tokens == [grantor];
    } else if grantee == [] {
      assert tokens == [line, grantor];
    } else if line == [] {
      assert tokens == [grantee, grantor];
      assert PlainLetters(line) == [] && GoLetters(line) == [];
    } else {
      assert tokens == [grantee, line, grantor];
    }
  }

  /** Parsing what the codec compiles gives the rule back. */
  lemma RoundTrip(p: Privilege)
    requires Encodable(p)
    ensures Compile(p).Ok? && ParseOne(Compile(p).value) == Ok(p)
  {
    EncodedLetters(p.privs);
    EncodedLetters(p.privswgo);
    var ls := EncodeAcl(p.privs).value;
    var gs := EncodeAcl(p.privswgo).value;
    var line := Flatten(ls) + Starred(gs);
    LineLetters(ls, gs);
    var text := RuleText(p.grantee, line, p.grantor);
    assert Compile(p) == Ok(text);
    ParseRuleText(p.grantee, line, p.grantor);
    DecodeEncode(p.privs);
    DecodeEncode(p.privswgo);
  }

  // -------------------------------------------------------------- batches

  /** Rule i is the first one that does not parse. */
  predicate FirstFailure(acls: seq<string>, i: int) {
    0 <= i < |acls| && ParseOne(acls[i]).Err? && forall j :: 0 <= j < i ==> ParseOne(acls[j]).Ok?
  }

  /** _parce_batch_acls: every rule parsed, the first failure raised. */
  function ParseBatch(acls: seq<string>): (r: Result<seq<Privilege>>)
    ensures r.Ok? <==> forall i :: 0 <= i < |acls| ==> ParseOne(acls[i]).Ok?
    ensures r.Ok? ==> |r.value| == |acls| && forall i :: 0 <= i < |acls| ==> ParseOne(acls[i]) == Ok(r.value[i])
    ensures r.Err? ==> exists i :: FirstFailure(acls, i) && ParseOne(acls[i]) == Err(r.error)
  {
    if acls == [] then Ok([])
    else
      var n := |acls| - 1;
      assert forall i :: 0 <= i < n ==> acls[..n][i] == acls[i];
      PrefixFailures(acls);
      var init :- ParseBatch(acls[..n]);
      var last :- ParseOne(acls[n]);
      Ok(init + [last])
  }

  /** A batch fails only with the error of a rule that does not parse. */
  lemma BatchFailure(acls: seq<string>)
    requires ParseBatch(acls).Err?
    ensures ParseBatch(acls).error.IsParseFailure()
  {
    var i :| FirstFailure(acls, i) && ParseOne(acls[i]) == Err(ParseBatch(acls).error);
  }

  /** How parsing the whole batch relates to parsing all but its last rule. */
  lemma PrefixFailures(acls: seq<string>)
    requires acls != []
    ensures var n := |acls| - 1;
      (forall i :: 0 <= i < |acls| ==> ParseOne(acls[i]).Ok?) <==>
        (forall i :: 0 <= i < n ==> ParseOne(acls[..n][i]).Ok?) && ParseOne(acls[n]).Ok?
    ensures var n := |acls| - 1; forall i :: FirstFailure(acls[..n], i) ==> FirstFailure(acls, i)
    ensures var n := |acls| - 1;
      (forall i :: 0 <= i < n ==> ParseOne(acls[..n][i]).Ok?) && ParseOne(acls[n]).Err? ==> FirstFailure(acls, n)
  {
    var n := |acls| - 1;
    assert forall i :: 0 <= i < n ==> acls[..n][i] == acls[i];
  }

  /** What the aggregation keeps per grantee: how many rules, and the merged privileges. */
  datatype Entry = Entry(count: nat, privswgo: seq<string>, privs: seq<string>)

  /** One step of the aggregation: the first rule is kept as it is; later ones are merged as
      sets, grant-option privileges taking precedence over plain ones. */
  function Merge(prev: Option<Entry>, cur: Privilege): (e: Entry)
    ensures e.count >= 1
  {
    match prev
    case None => Entry(1, cur.privswgo, cur.privs)
    case Some(p) =>
      var go := Dedup(cur.privswgo + p.privswgo);
      Entry(p.count + 1, go, Dedup(Minus(cur.privs + p.privs, go)))
  }

  /** The grantees in the order a dict records them, and their entries. */
  datatype Table = Table(keys: seq<string>, entries: map<string, Entry>) {
    ghost predicate Valid() {
      NoDup(keys) && ToSet(keys) == entries.Keys
    }
  }

  function Insert(t: Table, cur: Privilege): (r: Table)
    requires t.Valid()
    ensures r.Valid()
  {
    if cur.grantee in t.entries then
      Table(t.keys, t.entries[cur.grantee := Merge(Some(t.entries[cur.grantee]), cur)])
    else
      Table(t.keys + [cur.grantee], t.entries[cur.grantee := Merge(None, cur)])
  }

  function Fold(rules: seq<Privilege>): (t: Table)
    ensures t.Valid()
  {
    if rules == [] then Table([], map[])
    else Insert(Fold(rules[..|rules| - 1]), rules[|rules| - 1])
  }

  /** One aggregated result: the grantor field of the original carries the rule count. */
  datatype Summary = Summary(grantee: string, ruleCount: nat, privs: seq<string>, privswgo: seq<string>)

  function Summaries(t: Table): (r: seq<Summary>)
    requires t.Valid()
    ensures |r| == |t.keys|
  {
    seq(|t.keys|, i requires 0 <= i < |t.keys| =>
      var e := t.entries[t.keys[i]]; Summary(t.keys[i], e.count, e.privs, e.privswgo))
  }

  /** The aggregated view of a batch of rules. */
  function Aggregate(rules: seq<Privilege>): seq<Summary> {
    Summaries(Fold(rules))
  }

  lemma ParseBatchSnoc(acls: seq<string>, i: nat)
    requires i < |acls| && ParseBatch(acls[..i]).Ok? && ParseOne(acls[i]).Ok?
    ensures ParseBatch(acls[..i + 1]) == Ok(ParseBatch(acls[..i]).value + [ParseOne(acls[i]).value])
  {
    assert acls[..i + 1][..i] == acls[..i];
  }

  /** The batch fails with the error of its first rule that does not parse. */
  lemma ParseBatchStops(acls: seq<string>, i: nat)
    requires i < |acls| && ParseBatch(acls[..i]).Ok? && ParseOne(acls[i]).Err?
    ensures ParseBatch(acls) == Err(ParseOne(acls[i]).error)
  {
    assert forall j :: 0 <= j < i ==> ParseOne(acls[j]).Ok? by {
      forall j | 0 <= j < i
        ensures ParseOne(acls[j]).Ok?
      {
        assert acls[..i][j] == acls[j];
      }
    }
    var all := ParseBatch(acls);
    assert all.Err?;
    var k :| FirstFailure(acls, k) && ParseOne(acls[k]) == Err(all.error);
    assert k == i;
  }

  lemma FoldSnoc(rules: seq<Privilege>, rule: Privilege)
    ensures Fold(rules + [rule]) == Insert(Fold(rules), rule)
  {
    assert (rules + [rule])[..|rules|] == rules;
  }

  // ------------------------------------------------- what the aggregation means

  /** How many of the rules are for grantee g. */
  function CountOf(rules: seq<Privilege>, g: string): nat {
    if rules == [] then 0
    else
      var n := |rules| - 1;
      CountOf(rules[..n], g) + (if rules[n].grantee == g then 1 else 0)
  }

  /** Every privilege some rule grants g with grant option. */
  function GoUnion(rules: seq<Privilege>, g: string): set<string> {
    if rules == [] then {}
    else
      var n := |rules| - 1;
      GoUnion(rules[..n], g) + (if rules[n].grantee == g then ToSet(rules[n].privswgo) else {})
  }

  /** Every privilege some rule grants g without grant option. */
  function PrivUnion(rules: seq<Privilege>, g: string): set<string> {
    if rules == [] then {}
    else
      var n := |rules| - 1;
      PrivUnion(rules[..n], g) + (if rules[n].grantee == g then ToSet(rules[n].privs) else {})
  }

  /** The last rule for g, if any. */
  function LastRuleOf(rules: seq<Privilege>, g: string): Option<Privilege> {
    if rules == [] then None
    else
      var n := |rules| - 1;
      if rules[n].grantee == g then Some(rules[n]) else LastRuleOf(rules[..n], g)
  }

  predicate Mentions(rules: seq<Privilege>, g: string) {
    exists a :: 0 <= a < |rules| && rules[a].grantee == g
  }

  lemma {:induction false} CountPositive(rules: seq<Privilege>, g: string)
    ensures CountOf(rules, g) > 0 <==> Mentions(rules, g)
  {
    if rules != [] {
      var n := |rules| - 1;
      CountPositive(rules[..n], g);
      if Mentions(rules[..n], g) {
        var a :| 0 <= a < n && rules[..n][a].grantee == g;
        assert rules[a].grantee == g;
      }
      if Mentions(rules, g) && rules[n].grantee != g {
        var a :| 0 <= a < |rules| && rules[a].grantee == g;
        assert rules[..n][a].grantee == g;
      }
    }
  }

  /** The aggregated entry of one grantee, described by the rules themselves. */
  ghost predicate EntryDescribes(rules: seq<Privilege>, g: string, t: Table) {
    && (g in t.entries <==> CountOf(rules, g) > 0)
    && (g !in t.entries ==> GoUnion(rules, g) == {} && PrivUnion(rules, g) == {})
    && (g in t.entries ==>
      var e := t.entries[g];
      && e.count == CountOf(rules, g)
      && (e.count == 1 ==>
        && LastRuleOf(rules, g).Some?
        && e.privs == LastRuleOf(rules, g).value.privs
        && e.privswgo == LastRuleOf(rules, g).value.privswgo
        && GoUnion(rules, g) == ToSet(e.privswgo)
        && PrivUnion(rules, g) == ToSet(e.privs))
      && (e.count >= 2 ==>
        && ToSet(e.privswgo) == GoUnion(rules, g)
        && ToSet(e.privs) == PrivUnion(rules, g) - GoUnion(rules, g)
        && NoDup(e.privswgo) && NoDup(e.privs)))
  }

  /** The per-rule functions above, one rule further. */
  lemma Unfold(pre: seq<Privilege>, cur: Privilege, g: string)
    ensures var rules := pre + [cur]; var mine := cur.grantee == g;
      && CountOf(rules, g) == CountOf(pre, g) + (if mine then 1 else 0)
      && GoUnion(rules, g) == GoUnion(pre, g) + (if mine then ToSet(cur.privswgo) else {})
      && PrivUnion(rules, g) == PrivUnion(pre, g) + (if mine then ToSet(cur.privs) else {})
      && LastRuleOf(rules, g) == (if mine then Some(cur) else LastRuleOf(pre, g))
      && Fold(rules) == Insert(Fold(pre), cur)
  {
    assert (pre + [cur])[..|pre|] == pre;
  }

  lemma MergeDescribes(pre: seq<Privilege>, cur: Privilege, t0: Table)
    requires t0.Valid() && cur.grantee in t0.entries && EntryDescribes(pre, cur.grantee, t0)
    ensures EntryDescribes(pre + [cur], cur.grantee, Insert(t0, cur))
  {
    var g := cur.grantee;
    Unfold(pre, cur, g);
    var e := t0.entries[g];
    MergeSets(cur.privswgo, cur.privs, e.privswgo, e.privs, GoUnion(pre, g), PrivUnion(pre, g), e.count == 1);
    assert Insert(t0, cur).entries[g] == Merge(Some(e), cur);
  }

  /** The set algebra of one merge: the grant-option privileges are the union, the plain
      ones the union of the plain ones less the grant-option ones, whether the entry held
      one rule so far (its plain privileges as given) or more (already reduced). */
  lemma MergeSets(cg: seq<string>, cp: seq<string>, eg: seq<string>, ep: seq<string>, go: set<string>,
                  plain: set<string>, single: bool)
    requires ToSet(eg) == go
    requires single ==> ToSet(ep) == plain
    requires !single ==> ToSet(ep) == plain - go
    ensures var merged := Dedup(cg + eg);
      && ToSet(merged) == go + ToSet(cg)
      && ToSet(Dedup(Minus(cp + ep, merged))) == (plain + ToSet(cp)) - (go + ToSet(cg))
  {
    ToSetAppend(cg, eg);
    ToSetAppend(cp, ep);
  }

  lemma InsertDescribes(pre: seq<Privilege>, cur: Privilege, g: string, t0: Table)
    requires t0.Valid() && EntryDescribes(pre, g, t0)
    ensures EntryDescribes(pre + [cur], g, Insert(t0, cur))
  {
    if cur.grantee != g {
      InsertOther(pre, cur, g, t0);
    } else if g in t0.entries {
      MergeDescribes(pre, cur, t0);
    } else {
      InsertNew(pre, cur, t0);
    }
  }

  /** A rule for another grantee leaves g's entry as it was. */
  lemma InsertOther(pre: seq<Privilege>, cur: Privilege, g: string, t0: Table)
    requires t0.Valid() && EntryDescribes(pre, g, t0) && cur.grantee != g
    ensures EntryDescribes(pre + [cur], g, Insert(t0, cur))
  {
    Unfold(pre, cur, g);
    assert g in Insert(t0, cur).entries <==> g in t0.entries;
    assert g in t0.entries ==> Insert(t0, cur).entries[g] == t0.entries[g];
  }

  /** The first rule of a grantee becomes its entry as it is. */
  lemma InsertNew(pre: seq<Privilege>, cur: Privilege, t0: Table)
    requires t0.Valid() && EntryDescribes(pre, cur.grantee, t0) && cur.grantee !in t0.entries
    ensures EntryDescribes(pre + [cur], cur.grantee, Insert(t0, cur))
  {
    Unfold(pre, cur, cur.grantee);
    assert Insert(t0, cur).entries[cur.grantee] == Entry(1, cur.privswgo, cur.privs);
  }

  lemma {:induction false} FoldEntry(rules: seq<Privilege>, g: string)
    ensures EntryDescribes(rules, g, Fold(rules))
  {
    if rules != [] {
      var n := |rules| - 1;
      var pre := rules[..n];
      FoldEntry(pre, g);
      assert rules == pre + [rules[n]];
      Unfold(pre, rules[n], g);
      InsertDescribes(pre, rules[n], g, Fold(pre));
    }
  }

  /** Grantees are listed in the order they first appear among the rules. */
  ghost predicate FirstAppearanceOrder(rules: seq<Privilege>, keys: seq<string>) {
    forall i, j, b :: 0 <= i < j < |keys| && 0 <= b < |rules| && rules[b].grantee == keys[j] ==>
      exists a :: 0 <= a < b && rules[a].grantee == keys[i]
  }

  lemma FoldMember(rules: seq<Privilege>, g: string)
    ensures g in Fold(rules).entries <==> Mentions(rules, g)
  {
    FoldEntry(rules, g);
    CountPositive(rules, g);
  }

  /** Appending a rule keeps the order: a new grantee goes last. */
  lemma OrderStep(pre: seq<Privilege>, cur: Privilege, keys: seq<string>, keys': seq<string>)
    requires FirstAppearanceOrder(pre, keys)
    requires forall i :: 0 <= i < |keys| ==> Mentions(pre, keys[i])
    requires keys' == if Mentions(pre, cur.grantee) then keys else keys + [cur.grantee]
    ensures FirstAppearanceOrder(pre + [cur], keys')
  {
    var rules := pre + [cur];
    var n := |pre|;
    forall i, j, b | 0 <= i < j < |keys'| && 0 <= b < |rules| && rules[b].grantee == keys'[j]
      ensures exists a :: 0 <= a < b && rules[a].grantee == keys'[i]
    {
      assert keys'[i] == keys[i];
      if b < n {
        assert rules[b] == pre[b];
        assert Mentions(pre, rules[b].grantee);
        if j < |keys| {
          assert keys'[j] == keys[j];
          var a :| 0 <= a < b && pre[a].grantee == keys[i];
          assert rules[a] == pre[a];
        } else {
          assert false;
        }
      } else {
        assert Mentions(pre, keys[i]);
        var a :| 0 <= a < n && pre[a].grantee == keys[i];
        assert rules[a] == pre[a];
      }
    }
  }

  lemma InsertKeys(t: Table, cur: Privilege)
    requires t.Valid()
    ensures Insert(t, cur).keys == if cur.grantee in t.entries then t.keys else t.keys + [cur.grantee]
  {
  }

  lemma {:induction false} FoldOrder(rules: seq<Privilege>)
    ensures FirstAppearanceOrder(rules, Fold(rules).keys)
  {
    if rules != [] {
      var n := |rules| - 1;
      var pre := rules[..n];
      FoldOrder(pre);
      var t0 := Fold(pre);
      var cur := rules[n];
      forall i | 0 <= i < |t0.keys|
        ensures Mentions(pre, t0.keys[i])
      {
        assert t0.keys[i] in ToSet(t0.keys);
        FoldMember(pre, t0.keys[i]);
      }
      FoldMember(pre, cur.grantee);
      assert Fold(rules) == Insert(t0, cur);
      InsertKeys(t0, cur);
      assert rules == pre + [cur];
      OrderStep(pre, cur, t0.keys, Fold(rules).keys);
    }
  }

  /** The aggregation lists every grantee once, in the order of first appearance. */
  lemma AggregateGrantees(rules: seq<Privilege>)
    ensures var out := Aggregate(rules);
      && (forall i, j :: 0 <= i < j < |out| ==> out[i].grantee != out[j].grantee)
      && (forall g :: (exists i :: 0 <= i < |out| && out[i].grantee == g) <==> Mentions(rules, g))
      && FirstAppearanceOrder(rules, seq(|out|, i requires 0 <= i < |out| => out[i].grantee))
  {
    FoldOrder(rules);
    SummaryGrantees(Fold(rules));
    AggregateMentions(rules);
  }

  lemma SummaryGrantees(t: Table)
    requires t.Valid()
    ensures var out := Summaries(t);
      && (forall i :: 0 <= i < |out| ==> out[i].grantee == t.keys[i])
      && seq(|out|, i requires 0 <= i < |out| => out[i].grantee) == t.keys
  {
  }

  lemma AggregateMentions(rules: seq<Privilege>)
    ensures var out := Aggregate(rules);
      forall g :: (exists i :: 0 <= i < |out| && out[i].grantee == g) <==> Mentions(rules, g)
  {
    var t := Fold(rules);
    var out := Aggregate(rules);
    SummaryGrantees(t);
    forall g
      ensures (exists i :: 0 <= i < |out| && out[i].grantee == g) <==> Mentions(rules, g)
    {
      FoldMember(rules, g);
      if g in t.entries {
        assert g in ToSet(t.keys);
        var i :| 0 <= i < |t.keys| && t.keys[i] == g;
        assert out[i].grantee == g;
      }
    }
  }

  /** For every grantee: the number of its rules; a single rule is kept as it is; two or
      more are merged into the union of what they grant, grant option winning. */
  lemma AggregateMerges(rules: seq<Privilege>)
    ensures forall i :: 0 <= i < |Aggregate(rules)| ==>
      var s := Aggregate(rules)[i];
      && s.ruleCount == CountOf(rules, s.grantee) >= 1
      && (s.ruleCount == 1 ==>
        LastRuleOf(rules, s.grantee).Some? &&
        s.privs == LastRuleOf(rules, s.grantee).value.privs &&
        s.privswgo == LastRuleOf(rules, s.grantee).value.privswgo)
      && (s.ruleCount >= 2 ==>
        && ToSet(s.privswgo) == GoUnion(rules, s.grantee)
        && ToSet(s.privs) == PrivUnion(rules, s.grantee) - GoUnion(rules, s.grantee)
        && NoDup(s.privswgo) && NoDup(s.privs))
  {
    var t := Fold(rules);
    forall i | 0 <= i < |t.keys|
      ensures EntryDescribes(rules, t.keys[i], t)
    {
      FoldEntry(rules, t.keys[i]);
      assert t.keys[i] in ToSet(t.keys);
    }
  }

  /** _parce_batch_acls_final: one pass over the rules, building the table in place. */
  method ParseBatchFinal(acls: seq<string>) returns (r: Result<seq<Summary>>)
    ensures ParseBatch(acls).Err? ==> r == Err(ParseBatch(acls).error)
    ensures ParseBatch(acls).Ok? ==> r == Ok(Aggregate(ParseBatch(acls).value))
  {
    var keys: seq<string> := [];
    var table: map<string, Entry> := map[];
    for i := 0 to |acls|
      invariant ParseBatch(acls[..i]).Ok?
      invariant Table(keys, table) == Fold(ParseBatch(acls[..i]).value)
    {
      var cur := ParseOne(acls[i]);
      if cur.Err? {
        ParseBatchStops(acls, i);
        r := Err(cur.error);
        return;
      }
      var rule := cur.value;
      ParseBatchSnoc(acls, i);
      FoldSnoc(ParseBatch(acls[..i]).value, rule);
      var prev := if rule.grantee in table then Some(table[rule.grantee]) else None;
      if rule.grantee !in table {
        keys := keys + [rule.grantee];
      }
      table := table[rule.grantee := Merge(prev, rule)];
    }
    assert acls[..|acls|] == acls;
    r := Ok(Summaries(Table(keys, table)));
  }

  /** What parce_acl_rules yields in either mode. */
  datatype Parsed = Rules(rules: seq<Privilege>) | Aggregated(summaries: seq<Summary>)

  /** parce_acl_rules: aggregated when `final` is set (the default), rule by rule otherwise. */
  method ParseAclRules(acls: seq<string>, final: bool) returns (r: Result<Parsed>)
    ensures r.Ok? <==> ParseBatch(acls).Ok?
    ensures r.Err? ==> r.error == ParseBatch(acls).error
    ensures r.Ok? && !final ==> r.value == Rules(ParseBatch(acls).value)
    ensures r.Ok? && final ==> r.value == Aggregated(Aggregate(ParseBatch(acls).value))
  {
    if final {
      var s := ParseBatchFinal(acls);
      r := if s.Ok? then Ok(Aggregated(s.value)) else Err(s.error);
    } else {
      var rules := ParseBatch(acls);
      r := if rules.Ok? then Ok(Rules(rules.value)) else Err(rules.error);
    }
  }
}
