/** Big-endian integers over byte strings. */
module Endian {
  import opened Base

  function Pow256(n: nat): nat {
    if n == 0 then 1 else 256 * Pow256(n - 1)
  }

  /** The low `n` bytes of a number, most significant first. */
  function ToBe(v: nat, n: nat): (b: Bytes)
    ensures |b| == n
  {
    if n == 0 then [] else ToBe(v / 256, n - 1) + [v % 256]
  }

  function FromBe(b: Bytes): nat {
    if b == [] then 0 else 256 * FromBe(b[..|b| - 1]) + b[|b| - 1]
  }

  lemma {:induction false} PowValues()
    ensures Pow256(1) == 0x100 && Pow256(2) == 0x1_0000 && Pow256(4) == 0x1_0000_0000
    ensures Pow256(8) == 0x1_0000_0000_0000_0000
  {
    assert Pow256(3) == 0x100_0000;
    assert Pow256(5) == 0x100_0000_0000;
    assert Pow256(6) == 0x1_0000_0000_0000;
    assert Pow256(7) == 0x100_0000_0000_0000;
  }

  lemma {:induction false} PowGrows(m: nat, n: nat)
    requires m <= n
    ensures 1 <= Pow256(m) <= Pow256(n)
  {
    if m < n {
      PowGrows(m, n - 1);
    } else if m > 0 {
      PowGrows(m - 1, n - 1);
    }
  }

  /** A string of at most `n` bytes holds a number of at most `n` bytes. */
  lemma {:induction false} FromBeBound(b: Bytes, n: nat)
    requires |b| <= n
    ensures FromBe(b) < Pow256(n)
  {
    ToFromBe(b);
    PowGrows(|b|, n);
  }

  lemma {:induction false} FromToBe(v: nat, n: nat)
    requires v < Pow256(n)
    ensures FromBe(ToBe(v, n)) == v
  {
    if n > 0 {
      FromToBe(v / 256, n - 1);
      assert ToBe(v, n)[..n - 1] == ToBe(v / 256, n - 1);
    }
  }

  lemma {:induction false} ToFromBe(b: Bytes)
    ensures FromBe(b) < Pow256(|b|) && ToBe(FromBe(b), |b|) == b
  {
    if b != [] {
      var front := b[..|b| - 1];
      ToFromBe(front);
      assert FromBe(b) / 256 == FromBe(front) && FromBe(b) % 256 == b[|b| - 1];
    }
  }

  /** Leading zero bytes dropped, one byte kept. */
  function Stripped(b: Bytes): (s: Bytes)
    requires b != []
    ensures 1 <= |s| <= |b| && (|s| > 1 ==> s[0] != 0)
  {
    if |b| > 1 && b[0] == 0 then Stripped(b[1..]) else b
  }

  lemma {:induction false} FromBeLeadingZero(b: Bytes)
    requires b != [] && b[0] == 0
    ensures FromBe(b[1..]) == FromBe(b)
  {
    if |b| > 1 {
      FromBeLeadingZero(b[..|b| - 1]);
      assert b[1..][..|b| - 2] == b[..|b| - 1][1..];
    }
  }

  lemma {:induction false} StrippedSameValue(b: Bytes)
    requires b != []
    ensures FromBe(Stripped(b)) == FromBe(b)
  {
    if |b| > 1 && b[0] == 0 {
      StrippedSameValue(b[1..]);
      FromBeLeadingZero(b);
    }
  }
}
