/**
 * The value-level meaning of a chromosome: a bit string whose index 0 is the
 * least-significant bit. Everything here is pure; the class Simple.Chromosome
 * keeps its integer field in step with these definitions.
 */
module Bits {

  /** 2 to the power k, as Python's pow(2, k). */
  function Pow2(k: nat): (r: nat)
    ensures r >= 1
  {
    if k == 0 then 1 else 2 * Pow2(k - 1)
  }

  /** The weight bit i contributes when it holds b. */
  function Weight(b: bool, i: nat): (w: nat)
  {
    if b then Pow2(i) else 0
  }

  /** The unsigned integer a bit string denotes: the sum of alleles[i] * 2^i. */
  function Value(alleles: seq<bool>): (v: nat)
  {
    if alleles == [] then 0
    else Value(alleles[..|alleles| - 1]) + Weight(alleles[|alleles| - 1], |alleles| - 1)
  }

  /** A slice grows by one element at a time, the shape in which loops build sequences. */
  lemma SliceExtend<T>(a: seq<T>, j: nat)
    requires j < |a|
    ensures a[..j + 1] == a[..j] + [a[j]]
  {
  }

  /** Appending a bit adds its weight at the new top position. */
  lemma ValueAppend(alleles: seq<bool>, item: bool)
    ensures Value(alleles + [item]) == Value(alleles) + Weight(item, |alleles|)
  {
    assert (alleles + [item])[..|alleles|] == alleles;
  }

  /** Overwriting bit k replaces its old weight by its new one; no other bit moves. */
  lemma {:induction false} ValueUpdate(alleles: seq<bool>, k: nat, item: bool)
    requires k < |alleles|
    ensures Value(alleles[k := item]) == Value(alleles) - Weight(alleles[k], k) + Weight(item, k)
  {
    var n := |alleles|;
    var t := alleles[k := item];
    if k == n - 1 {
      assert t[..n - 1] == alleles[..n - 1];
    } else {
      assert t[..n - 1] == alleles[..n - 1][k := item];
      ValueUpdate(alleles[..n - 1], k, item);
    }
  }

  /** A string of n bits denotes at most 2^n - 1. */
  lemma {:induction false} ValueBound(alleles: seq<bool>)
    ensures Value(alleles) <= Pow2(|alleles|) - 1
  {
    if alleles != [] {
      ValueBound(alleles[..|alleles| - 1]);
    }
  }

  /** floor(v / 2^k): v shifted right by k bits. */
  function Shr(v: nat, k: nat): (r: nat)
    ensures r <= v
  {
    if k == 0 then v else Shr(v / 2, k - 1)
  }

  /** Shifting right keeps the order of two numbers. */
  lemma {:induction false} ShrMono(a: nat, b: nat, k: nat)
    requires a <= b
    ensures Shr(a, k) <= Shr(b, k)
  {
    if k > 0 {
      ShrMono(a / 2, b / 2, k - 1);
    }
  }

  /** Shifting 2^m right by k bits leaves 2^(m - k), or nothing once k exceeds m. */
  lemma {:induction false} ShrPow2(m: nat, k: nat)
    ensures Shr(Pow2(m), k) == if m >= k then Pow2(m - k) else 0
  {
    if k > 0 {
      if m == 0 {
        assert Shr(Pow2(m), k) == Shr(0, k - 1);
      } else {
        assert Pow2(m) / 2 == Pow2(m - 1);
        ShrPow2(m - 1, k - 1);
      }
    }
  }

  /** Shifting the all-ones string of n bits right by k bits leaves n - k ones. */
  lemma {:induction false} ShrOnes(n: nat, k: nat)
    ensures Shr(Pow2(n) - 1, k) == if n >= k then Pow2(n - k) - 1 else 0
  {
    if k > 0 {
      if n == 0 {
        assert Shr(Pow2(n) - 1, k) == Shr(0, k - 1);
      } else {
        assert (Pow2(n) - 1) / 2 == Pow2(n - 1) - 1;
        ShrOnes(n - 1, k - 1);
      }
    }
  }

  /**
   * The all-ones string of n bits, shifted right by a bits and incremented,
   * still has a bit left after a further shift by b bits exactly when n >= a + b.
   */
  lemma OnesShifted(n: nat, a: nat, b: nat)
    requires b > 0
    ensures Shr(Shr(Pow2(n) - 1, a) + 1, b) > 0 <==> n >= a + b
  {
    ShrOnes(n, a);
    var m := if n >= a then n - a else 0;
    assert Shr(Pow2(n) - 1, a) + 1 == Pow2(m);
    ShrPow2(m, b);
  }

  /** Pow2(n) - 1 is zero exactly when n is zero. */
  lemma CoefZero(n: nat)
    ensures Pow2(n) - 1 == 0 <==> n == 0
  {
    if n > 0 {
      assert Pow2(n) == 2 * Pow2(n - 1);
    }
  }

  /** The character an allele renders as. */
  function BitChar(b: bool): (c: char)
  {
    if b then '1' else '0'
  }

  /** The bit-string rendering of a chromosome, most-significant bit first. */
  function Render(alleles: seq<bool>): (r: string)
    ensures |r| == |alleles|
  {
    if alleles == [] then ""
    else [BitChar(alleles[|alleles| - 1])] + Render(alleles[..|alleles| - 1])
  }

  /** Character p of the rendering shows bit |alleles| - 1 - p, and only '0' and '1' occur. */
  lemma {:induction false} RenderAt(alleles: seq<bool>, p: nat)
    requires p < |alleles|
    ensures Render(alleles)[p] == BitChar(alleles[|alleles| - 1 - p])
    ensures Render(alleles)[p] == '1' <==> alleles[|alleles| - 1 - p]
    ensures Render(alleles)[p] in {'0', '1'}
  {
    if p > 0 {
      RenderAt(alleles[..|alleles| - 1], p - 1);
    }
  }

  predicate IsBinary(s: string)
  {
    forall p :: 0 <= p < |s| ==> s[p] == '0' || s[p] == '1'
  }

  /** Reads a most-significant-bit-first string back into alleles (index 0 least significant). */
  function Parse(s: string): (r: seq<bool>)
    ensures |r| == |s|
  {
    if s == "" then [] else Parse(s[1..]) + [s[0] == '1']
  }

  /** Rendering is a faithful picture of the alleles: parsing it gives them back. */
  lemma {:induction false} ParseRender(alleles: seq<bool>)
    ensures Parse(Render(alleles)) == alleles
  {
    if alleles != [] {
      var n := |alleles|;
      var pre := alleles[..n - 1];
      var r := Render(alleles);
      assert r == [BitChar(alleles[n - 1])] + Render(pre);
      assert r[1..] == Render(pre);
      assert (r[0] == '1') == alleles[n - 1];
      ParseRender(pre);
      assert Parse(r) == pre + [alleles[n - 1]];
      assert alleles == pre + [alleles[n - 1]];
    }
  }

  /** Every binary string is the rendering of the alleles it parses to. */
  lemma {:induction false} RenderParse(s: string)
    requires IsBinary(s)
    ensures Render(Parse(s)) == s
  {
    if s != "" {
      var a := Parse(s);
      assert a[..|a| - 1] == Parse(s[1..]);
      assert IsBinary(s[1..]) by {
        forall p | 0 <= p < |s| - 1 ensures s[1..][p] == '0' || s[1..][p] == '1' {
          assert s[1..][p] == s[p + 1];
        }
      }
      RenderParse(s[1..]);
      assert s == [s[0]] + s[1..];
    }
  }

  /** "1011" is read most-significant bit first. */
  lemma ParseExample()
    ensures Parse("1011") == [true, true, false, true]
  {
    assert "1011"[1..] == "011" && "011"[1..] == "11" && "11"[1..] == "1" && "1"[1..] == "";
    assert Parse("1") == [true];
    assert Parse("11") == [true, true];
    assert Parse("011") == [true, true, false];
  }

  /** Bits 0, 1 and 3 set denote 1 + 2 + 8. */
  lemma ValueExample()
    ensures Value([true, true, false, true]) == 11
  {
    var a := [true, true, false, true];
    assert a[..3] == [true, true, false];
    assert a[..3][..2] == [true, true];
    assert a[..3][..2][..1] == [true];
    assert [true][..0] == [];
    assert Value([true]) == 1;
    assert Value([true, true]) == 3;
    assert Value([true, true, false]) == 3;
  }

  /** The same alleles render back to "1011". */
  lemma RenderExample()
    ensures Render([true, true, false, true]) == "1011"
  {
    var a := [true, true, false, true];
    assert a[..3] == [true, true, false];
    assert a[..3][..2] == [true, true];
    assert a[..3][..2][..1] == [true];
    assert [true][..0] == [];
    assert Render([true]) == "1";
    assert Render([true, true]) == "11";
    assert Render([true, true, false]) == "011";
  }

  /** The string "1011" (bit 3 down to bit 0) denotes 8 + 2 + 1, and renders back unchanged. */
  lemma DecodeExample()
    ensures Value(Parse("1011")) == 11
    ensures Render(Parse("1011")) == "1011"
  {
    ParseExample();
    ValueExample();
    RenderExample();
  }

  /**
   * One-point crossover of a with b at site s over the first n positions:
   * positions below s come from a, positions s..n-1 from b.
   */
  function Cross(a: seq<bool>, b: seq<bool>, s: nat, n: nat): (r: seq<bool>)
    requires s <= n <= |a| && n <= |b|
    ensures |r| == n
    ensures forall j :: 0 <= j < s ==> r[j] == a[j]
    ensures forall j :: s <= j < n ==> r[j] == b[j]
  {
    a[..s] + b[s..n]
  }

  /** With the site at the end there is no exchange: the child is a copy of its parent. */
  lemma CrossAtEnd(a: seq<bool>, b: seq<bool>, n: nat)
    requires n <= |a| && n <= |b|
    ensures Cross(a, b, n, n) == a[..n]
  {
  }

  /**
   * The two children of one crossover share the parents' alleles position by
   * position: at every j the pair of child bits is the pair of parent bits.
   */
  lemma CrossConserves(a: seq<bool>, b: seq<bool>, s: nat, n: nat, j: nat)
    requires s <= n <= |a| && n <= |b| && j < n
    ensures multiset{Cross(a, b, s, n)[j], Cross(b, a, s, n)[j]} == multiset{a[j], b[j]}
  {
  }
}
