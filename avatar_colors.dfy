/** Avatar colours (frontend/src/utils/avatar-colorize.ts): a name is hashed with 32-bit
    FNV-1a over its UTF-16 code units and the hash picks an entry of a fixed palette. */
module AvatarColors {
  import opened Outcomes

  /** A JavaScript string as the sequence charCodeAt reads: its UTF-16 code units. */
  type CodeUnits = seq<bv16>

  /** Values are kept as their unsigned 32-bit view; JavaScript's ToInt32 and `>>> 0` agree
      with it modulo 2^32. */
  const Modulus: nat := 0x1_0000_0000
  const OffsetBasis: nat := 0x811c9dc5
  const Prime: nat := 16777619

  /** `hval ^= str.charCodeAt(i)` on the 32-bit view of hval. */
  function Xor(h: nat, unit: bv16): (r: nat)
    requires h < Modulus
    ensures r < Modulus
  {
    ((h as bv32) ^ (unit as bv32)) as nat
  }

  /** One FNV-1a step: XOR in the code unit, then multiply by the prime modulo 2^32. */
  function Step(h: nat, unit: bv16): (r: nat)
    requires h < Modulus
    ensures r < Modulus
  {
    (Xor(h, unit) * Prime) % Modulus
  }

  /** The FNV-1a hash of the units, one step per unit from the offset basis. */
  function Fnv1a(units: CodeUnits): (r: nat)
    ensures r < Modulus
  {
    if units == [] then OffsetBasis
    else
      var n := |units| - 1;
      Step(Fnv1a(units[..n]), units[n])
  }

  /** The sum `(hval << 1) + (hval << 4) + (hval << 7) + (hval << 8) + (hval << 24)`, each
      shift taken modulo 2^32. */
  function ShiftSum(x: nat): nat {
    (x * 2) % Modulus + (x * 16) % Modulus + (x * 128) % Modulus + (x * 256) % Modulus + (x * 16777216) % Modulus
  }

  /** Adding the shift sum is the multiplication by the FNV prime modulo 2^32, because
      16777619 = 1 + 2 + 16 + 128 + 256 + 2^24. */
  lemma ShiftAddIsPrime(x: nat)
    ensures (x + ShiftSum(x)) % Modulus == (x * Prime) % Modulus
  {
    var m := Modulus;
    var a, b, c, d, e := x * 2, x * 16, x * 128, x * 256, x * 16777216;
    AddMod(x + a % m + b % m + c % m + d % m, e);
    AddMod(x + e + a % m + b % m + c % m, d);
    AddMod(x + e + d + a % m + b % m, c);
    AddMod(x + e + d + c + a % m, b);
    AddMod(x + e + d + c + b, a);
  }

  /** Reducing one summand modulo 2^32 does not change the sum modulo 2^32. */
  lemma AddMod(a: int, b: int)
    ensures (a + b % Modulus) % Modulus == (a + b) % Modulus
  {
    var q := b / Modulus;
    assert b == Modulus * q + b % Modulus;
  }

  /** hashFnv32a: the result lies in [0, 2^32) (the `>>> 0`) and is the FNV-1a hash. */
  method HashFnv32a(str: CodeUnits) returns (r: nat)
    ensures r < Modulus
    ensures r == Fnv1a(str)
    ensures str == [] ==> r == 2166136261
  {
    var hval: nat := OffsetBasis;
    var i := 0;
    while i < |str|
      invariant 0 <= i <= |str|
      invariant hval % Modulus == Fnv1a(str[..i])
    {
      assert str[..i + 1][..i] == str[..i];
      var x := Xor(hval % Modulus, str[i]);
      ShiftAddIsPrime(x);
      hval := x + ShiftSum(x);
      i := i + 1;
    }
    assert str[..i] == str;
    r := hval % Modulus;
  }

  /** avatarCollor: the palette entry at hash % length. An empty palette has no entry
      (JavaScript's colors[NaN] is undefined). */
  function AvatarColor(str: CodeUnits, colors: seq<string>): (r: Option<string>)
    ensures r.Some? <==> |colors| > 0
    ensures r.Some? ==> r.value in colors
    ensures r.Some? ==> r.value == colors[Fnv1a(str) % |colors|]
  {
    if |colors| == 0 then None else Some(colors[Fnv1a(str) % |colors|])
  }

  const DatabaseColors: seq<string> := [
    "#2196F3", "#90CAF9", "#64B5F6", "#42A5F5", "#1E88E5", "#1976D2",
    "#1565C0", "#0D47A1", "#82B1FF", "#448AFF", "#2979FF", "#2962FF"]

  const SchemaColors: seq<string> := [
    "#C969F6", "#D328D6", "#C15AF0", "#A20AD0", "#AE6AC7", "#B835D8",
    "#A72DB7", "#E065CA", "#E038A2", "#AC2495", "#D27CE3", "#E52CF6"]

  const TableColors: seq<string> := [
    "#4D951D", "#18E03A", "#85CD7D", "#4E943C", "#61DF6E", "#5BB60B",
    "#02AF6D", "#96EA42", "#2A8B12", "#A0DEBA", "#6DB09D", "#1FD486"]

  /** The three wrappers: each palette has twelve entries, so every name gets a colour, the
      one at an index in [0, 12). */
  function AvatarColorDatabase(str: CodeUnits): (r: string)
    ensures r in DatabaseColors && r == DatabaseColors[Fnv1a(str) % 12]
  {
    AvatarColor(str, DatabaseColors).value
  }

  function AvatarColorSchema(str: CodeUnits): (r: string)
    ensures r in SchemaColors && r == SchemaColors[Fnv1a(str) % 12]
  {
    AvatarColor(str, SchemaColors).value
  }

  function AvatarColorTable(str: CodeUnits): (r: string)
    ensures r in TableColors && r == TableColors[Fnv1a(str) % 12]
  {
    AvatarColor(str, TableColors).value
  }
}
