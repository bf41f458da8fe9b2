/** Sequences used as the lists, sets and insertion-ordered sets of the source. */
module Collections {

  predicate NoDup<T(==)>(xs: seq<T>) {
    forall i, j :: 0 <= i < j < |xs| ==> xs[i] != xs[j]
  }

  function ToSet<T(==)>(xs: seq<T>): set<T> {
    set x | x in xs
  }

  lemma ToSetAppend<T>(a: seq<T>, b: seq<T>)
    ensures ToSet(a + b) == ToSet(a) + ToSet(b)
  {
    forall x | x in a + b
      ensures x in a || x in b
    {
      var i :| 0 <= i < |a + b| && (a + b)[i] == x;
      if i >= |a| {
        assert b[i - |a|] == x;
      }
    }
  }

  /** Adding to an insertion-ordered set (a JavaScript Set, or a Python set read back in
      insertion order): a new element goes last, a known one changes nothing. */
  function AddOnce<T(==)>(xs: seq<T>, x: T): (r: seq<T>)
    ensures ToSet(r) == ToSet(xs) + {x}
    ensures NoDup(xs) ==> NoDup(r)
    ensures |r| >= |xs| && r[..|xs|] == xs
  {
    ToSetAppend(xs, [x]);
    assert ToSet([x]) == {x};
    if x in xs then xs else xs + [x]
  }

  /** Adding every element of ys, in order. */
  function AddAll<T(==)>(xs: seq<T>, ys: seq<T>): (r: seq<T>)
    ensures ToSet(r) == ToSet(xs) + ToSet(ys)
    ensures NoDup(xs) ==> NoDup(r)
    ensures |r| >= |xs| && r[..|xs|] == xs
    decreases ys
  {
    if ys == [] then xs
    else
      var a := AddOnce(xs, ys[0]);
      var r := AddAll(a, ys[1..]);
      assert r[..|xs|] == r[..|a|][..|xs|];
      assert ToSet(ys) == {ys[0]} + ToSet(ys[1..]) by {
        assert ys == [ys[0]] + ys[1..];
        ToSetAppend([ys[0]], ys[1..]);
        assert ToSet([ys[0]]) == {ys[0]};
      }
      r
  }

  /** The elements of xs, each once, in first-occurrence order. */
  function Dedup<T(==)>(xs: seq<T>): (r: seq<T>)
    ensures NoDup(r) && ToSet(r) == ToSet(xs)
  {
    AddAll([], xs)
  }

  /** The elements of xs not in ys, in order. */
  function Minus<T(==)>(xs: seq<T>, ys: seq<T>): (r: seq<T>)
    ensures ToSet(r) == ToSet(xs) - ToSet(ys)
    ensures NoDup(xs) ==> NoDup(r)
  {
    if xs == [] then []
    else
      var rest := Minus(xs[1..], ys);
      assert xs == [xs[0]] + xs[1..];
      ToSetAppend([xs[0]], xs[1..]);
      ToSetAppend([xs[0]], rest);
      assert ToSet([xs[0]]) == {xs[0]};
      if xs[0] in ys then rest else [xs[0]] + rest
  }

  /** A dictionary filled pair by pair: a later pair with the same key overrides. */
  function Index<K, V>(pairs: seq<(K, V)>): map<K, V> {
    if pairs == [] then map[]
    else
      var n := |pairs| - 1;
      Index(pairs[..n])[pairs[n].0 := pairs[n].1]
  }

  /** A key is present iff some pair has it, and then the last such pair gives its value. */
  lemma {:induction false} IndexLast<K, V>(pairs: seq<(K, V)>, k: K)
    ensures k in Index(pairs) <==> exists i :: 0 <= i < |pairs| && pairs[i].0 == k
    ensures k in Index(pairs) ==> exists i :: (0 <= i < |pairs| && pairs[i].0 == k
      && Index(pairs)[k] == pairs[i].1 && forall j :: i < j < |pairs| ==> pairs[j].0 != k)
  {
    if pairs != [] {
      var n := |pairs| - 1;
      var pre := pairs[..n];
      IndexLast(pre, k);
      if pairs[n].0 != k {
        if exists i :: 0 <= i < |pairs| && pairs[i].0 == k {
          var i :| 0 <= i < |pairs| && pairs[i].0 == k;
          assert pre[i] == pairs[i];
        }
        if k in Index(pre) {
          var i :| 0 <= i < |pre| && pre[i].0 == k
            && Index(pre)[k] == pre[i].1 && forall j :: i < j < |pre| ==> pre[j].0 != k;
          assert pairs[i] == pre[i];
          assert forall j :: i < j < n ==> pairs[j] == pre[j];
        }
      }
    }
  }

  lemma AppendEmpty<T>(a: seq<T>, b: seq<T>)
    ensures a + [] + b == a + b
  {
  }

  lemma AppendNil<T>(a: seq<T>)
    ensures a + [] == a
  {
  }

  lemma AppendAssoc<T>(a: seq<T>, b: seq<T>, c: seq<T>)
    ensures a + b + c == a + (b + c)
  {
  }
}
