/** Order-independent folds: what exclusive or is used for, and all that is used of it. */
module Mixing {

  /** An operation on hash words with its neutral word. */
  datatype Mixer<!T(!new)> = Mixer(unit: T, op: (T, T) -> T) {
    ghost predicate LawAt(a: T, b: T, c: T) {
      && op(a, b) == op(b, a)
      && op(op(a, b), c) == op(a, op(b, c))
      && op(unit, a) == a
      && op(a, op(a, b)) == b
    }

    /** Commutative, associative, with neutral word, every word its own inverse. */
    ghost predicate Lawful() {
      forall a: T, b: T, c: T :: LawAt(a, b, c)
    }
  }

  function Xor(a: bv64, b: bv64): bv64 {
    a ^ b
  }

  /** Exclusive or on 64-bit words. */
  const XOR64: Mixer<bv64> := Mixer(0, Xor)

  lemma XorCommutes(a: bv64, b: bv64)
    ensures XOR64.op(a, b) == XOR64.op(b, a)
  {
  }

  lemma BitsAssociate(a: bv64, b: bv64, c: bv64)
    ensures (a ^ b) ^ c == a ^ (b ^ c)
  {
  }

  lemma SameWord(x: bv64, y: bv64, p: bv64, q: bv64)
    requires x == p && y == q && p == q
    ensures x == y
  {
  }

  lemma XorLeft(a: bv64, b: bv64, x: bv64, c: bv64)
    requires x == a ^ b
    ensures Xor(x, c) == (a ^ b) ^ c
  {
  }

  lemma XorRight(a: bv64, b: bv64, c: bv64, x: bv64)
    requires x == b ^ c
    ensures Xor(a, x) == a ^ (b ^ c)
  {
  }

  lemma XorLeftBits(a: bv64, b: bv64, c: bv64)
    ensures Xor(Xor(a, b), c) == (a ^ b) ^ c
  {
    XorLeft(a, b, Xor(a, b), c);
  }

  lemma XorRightBits(a: bv64, b: bv64, c: bv64)
    ensures Xor(a, Xor(b, c)) == a ^ (b ^ c)
  {
    XorRight(a, b, c, Xor(b, c));
  }

  lemma XorBits(a: bv64, b: bv64, c: bv64)
    ensures Xor(Xor(a, b), c) == Xor(a, Xor(b, c))
  {
    BitsAssociate(a, b, c);
    XorLeftBits(a, b, c);
    XorRightBits(a, b, c);
    SameWord(Xor(Xor(a, b), c), Xor(a, Xor(b, c)), (a ^ b) ^ c, a ^ (b ^ c));
  }

  lemma OpIsXor(a: bv64, b: bv64)
    ensures XOR64.op(a, b) == Xor(a, b)
  {
  }

  lemma XorAssociates(a: bv64, b: bv64, c: bv64)
    ensures XOR64.op(XOR64.op(a, b), c) == XOR64.op(a, XOR64.op(b, c))
  {
    XorBits(a, b, c);
    OpIsXor(a, b);
    OpIsXor(b, c);
    OpIsXor(Xor(a, b), c);
    OpIsXor(a, Xor(b, c));
  }

  lemma XorNeutral(a: bv64)
    ensures XOR64.op(XOR64.unit, a) == a
  {
  }

  lemma XorUndoes(a: bv64, b: bv64)
    ensures XOR64.op(a, XOR64.op(a, b)) == b
  {
  }

  lemma MakeLaw<T(!new)>(m: Mixer<T>, a: T, b: T, c: T)
    requires m.op(a, b) == m.op(b, a) && m.op(m.op(a, b), c) == m.op(a, m.op(b, c))
    requires m.op(m.unit, a) == a && m.op(a, m.op(a, b)) == b
    ensures m.LawAt(a, b, c)
  {
  }

  lemma XorLaw(a: bv64, b: bv64, c: bv64)
    ensures XOR64.LawAt(a, b, c)
  {
    XorCommutes(a, b);
    XorAssociates(a, b, c);
    XorNeutral(a);
    XorUndoes(a, b);
    MakeLaw(XOR64, a, b, c);
  }

  lemma XorIsLawful()
    ensures XOR64.Lawful()
  {
    forall a: bv64, b: bv64, c: bv64 ensures XOR64.LawAt(a, b, c) {
      XorLaw(a, b, c);
    }
  }

  /** A word of twice the width, as its two halves. */
  datatype Wide<!T(!new)> = Wide(high: T, low: T)

  /** A word converted to twice the width. */
  function Widened<T(!new)>(m: Mixer<T>, word: T): Wide<T> {
    Wide(m.unit, word)
  }

  /** The same operation on both halves. */
  function Doubled<T(!new)>(m: Mixer<T>): Mixer<Wide<T>> {
    Mixer(Wide(m.unit, m.unit), (a: Wide<T>, b: Wide<T>) => Wide(m.op(a.high, b.high), m.op(a.low, b.low)))
  }

  lemma DoubledLaw<T(!new)>(m: Mixer<T>, a: Wide<T>, b: Wide<T>, c: Wide<T>)
    requires m.Lawful()
    ensures Doubled(m).LawAt(a, b, c)
  {
    assert m.LawAt(a.high, b.high, c.high) && m.LawAt(a.low, b.low, c.low);
  }

  lemma DoubledIsLawful<T(!new)>(m: Mixer<T>)
    requires m.Lawful()
    ensures Doubled(m).Lawful()
  {
    forall a: Wide<T>, b: Wide<T>, c: Wide<T> ensures Doubled(m).LawAt(a, b, c) {
      DoubledLaw(m, a, b, c);
    }
  }

  lemma SwapFirst<T(!new)>(m: Mixer<T>, a: T, b: T, c: T)
    requires m.Lawful()
    ensures m.op(a, m.op(b, c)) == m.op(b, m.op(a, c))
  {
    assert m.LawAt(a, b, c) && m.LawAt(b, a, c);
  }

  lemma Cancel<T(!new)>(m: Mixer<T>, a: T, b: T, c: T)
    requires m.Lawful()
    ensures m.op(c, a) == m.op(c, b) <==> a == b
  {
    assert m.LawAt(c, a, a) && m.LawAt(c, b, b);
  }

  // ---- Folding over a set of keys ---------------------------------------------------------------

  ghost function Fold<K(!new), T(!new)>(m: Mixer<T>, f: K -> T, ks: set<K>): T {
    if ks == {} then m.unit
    else
      var k :| k in ks;
      m.op(f(k), Fold(m, f, ks - {k}))
  }

  /** Any member may be taken first: the fold is independent of iteration order. */
  lemma {:induction false} FoldAnyOrder<K(!new), T(!new)>(m: Mixer<T>, f: K -> T, ks: set<K>, k: K)
    requires m.Lawful() && k in ks
    ensures Fold(m, f, ks) == m.op(f(k), Fold(m, f, ks - {k}))
    decreases ks
  {
    var j :| j in ks && Fold(m, f, ks) == m.op(f(j), Fold(m, f, ks - {j}));
    if j != k {
      FoldAnyOrder(m, f, ks - {j}, k);
      FoldAnyOrder(m, f, ks - {k}, j);
      assert ks - {j} - {k} == ks - {k} - {j};
      SwapFirst(m, f(j), f(k), Fold(m, f, ks - {j} - {k}));
    }
  }

  // ---- Folding over a sequence ------------------------------------------------------------------

  ghost function FoldSeq<T(!new)>(m: Mixer<T>, s: seq<T>): T {
    if s == [] then m.unit else m.op(s[|s| - 1], FoldSeq(m, s[..|s| - 1]))
  }

  function Without<T>(s: seq<T>, i: nat): seq<T>
    requires i < |s|
  {
    s[..i] + s[i + 1..]
  }

  lemma {:induction false} FoldSeqTakeOut<T(!new)>(m: Mixer<T>, s: seq<T>, i: nat)
    requires m.Lawful() && i < |s|
    ensures FoldSeq(m, s) == m.op(s[i], FoldSeq(m, Without(s, i)))
  {
    var last := |s| - 1;
    if i < last {
      FoldSeqTakeOut(m, s[..last], i);
      assert Without(s, i)[..last - 1] == Without(s[..last], i);
      assert Without(s, i)[last - 1] == s[last];
      SwapFirst(m, s[last], s[i], FoldSeq(m, Without(s[..last], i)));
    } else {
      assert Without(s, i) == s[..last];
    }
  }

  lemma MultisetWithout<T>(s: seq<T>, i: nat)
    requires i < |s|
    ensures multiset(Without(s, i)) == multiset(s) - multiset{s[i]}
  {
    assert s == s[..i] + [s[i]] + s[i + 1..];
  }

  /** The fold of a sequence depends only on which words it contains, and how often. */
  lemma {:induction false} FoldSeqIgnoresOrder<T(!new)>(m: Mixer<T>, a: seq<T>, b: seq<T>)
    requires m.Lawful() && multiset(a) == multiset(b)
    ensures FoldSeq(m, a) == FoldSeq(m, b)
    decreases |a|
  {
    if a == [] {
      assert |multiset(b)| == 0;
    } else {
      var last := |a| - 1;
      assert a[last] in multiset(b);
      var i :| 0 <= i < |b| && b[i] == a[last];
      FoldSeqTakeOut(m, b, i);
      MultisetWithout(b, i);
      MultisetWithout(a, last);
      assert Without(a, last) == a[..last];
      FoldSeqIgnoresOrder(m, a[..last], Without(b, i));
    }
  }
}
