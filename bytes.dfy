/** Bytes, little-endian integers and the read/write semantics of a Python
    file object, modelled on byte sequences. */
module Bytes {

  type byte = b: int | 0 <= b < 256

  function Pow256(w: nat): (r: nat)
    ensures r >= 1
  {
    if w == 0 then 1 else 256 * Pow256(w - 1)
  }

  function Min(a: int, b: int): int { if a <= b then a else b }
  function Max(a: int, b: int): int { if a <= b then b else a }

  /** The `w` little-endian bytes of `v` (struct.pack of B/H/I/Q). */
  function LE(v: nat, w: nat): (r: seq<byte>)
    requires v < Pow256(w)
    ensures |r| == w
    decreases w
  {
    if w == 0 then []
    else
      assert v / 256 < Pow256(w - 1) by { DivBound(v, Pow256(w - 1)); }
      [v % 256] + LE(v / 256, w - 1)
  }

  /** The unsigned integer whose little-endian bytes are `s`. */
  function FromLE(s: seq<byte>): (v: nat)
    ensures v < Pow256(|s|)
  {
    if s == [] then 0
    else
      var rest := FromLE(s[1..]);
      assert s[0] + 256 * rest < Pow256(|s|) by {
        assert rest + 1 <= Pow256(|s| - 1);
        assert 256 * (rest + 1) <= 256 * Pow256(|s| - 1);
      }
      s[0] + 256 * rest
  }

  lemma DivBound(v: nat, p: nat)
    requires v < 256 * p
    ensures v / 256 < p
  {
  }

  lemma {:induction false} FromLEOfLE(v: nat, w: nat)
    requires v < Pow256(w)
    ensures FromLE(LE(v, w)) == v
    decreases w
  {
    if w > 0 {
      DivBound(v, Pow256(w - 1));
      var s := LE(v, w);
      assert s[1..] == LE(v / 256, w - 1);
      FromLEOfLE(v / 256, w - 1);
    }
  }

  lemma {:induction false} LEOfFromLE(s: seq<byte>)
    ensures LE(FromLE(s), |s|) == s
  {
    if s != [] {
      var rest := FromLE(s[1..]);
      var v := s[0] + 256 * rest;
      assert v % 256 == s[0] && v / 256 == rest;
      LEOfFromLE(s[1..]);
    }
  }

  function Zeros(n: nat): (r: seq<byte>)
    ensures |r| == n && forall i :: 0 <= i < n ==> r[i] == 0
  {
    seq(n, _ => 0)
  }

  /** Reading `n` bytes at position `at` of a file holding `f`: the read stops
      at end of file, and a read that starts past it returns nothing. */
  function FileRead(f: seq<byte>, at: nat, n: nat): (r: seq<byte>)
    ensures |r| == Min(n, Max(0, |f| - at))
    ensures at + |r| <= |f| ==> r == f[at..at + |r|]
    ensures at < |f| ==> at + |r| <= |f|
  {
    if at >= |f| then [] else f[at..Min(at + n, |f|)]
  }

  /** Writing `b` at position `p` of a file holding `f`: bytes between the old
      end of file and `p` read as zero, bytes past `p + |b|` are kept; writing
      nothing leaves the file as it is. */
  function Patch(f: seq<byte>, p: nat, b: seq<byte>): (r: seq<byte>)
    ensures |r| == if b == [] then |f| else Max(|f|, p + |b|)
  {
    if b == [] then f
    else
      seq(Max(|f|, p + |b|), i requires 0 <= i < Max(|f|, p + |b|) =>
        if p <= i < p + |b| then b[i - p] else if i < |f| then f[i] else 0)
  }

  /** The written bytes sit at `p`; every other byte is the old one, or
      zero in a gap past the old end of file. */
  lemma PatchFacts(f: seq<byte>, p: nat, b: seq<byte>)
    ensures b != [] ==> Patch(f, p, b)[p..p + |b|] == b
    ensures forall i :: 0 <= i < |Patch(f, p, b)| && (i < p || p + |b| <= i) ==>
              Patch(f, p, b)[i] == (if i < |f| then f[i] else 0)
  {
    if b != [] {
      var r := Patch(f, p, b);
      assert |r| == Max(|f|, p + |b|);
      assert r[p..p + |b|] == b;
    }
  }

  /** A full read right after a stretch of `a` bytes: that stretch was
      full too, and the two reads join into one. */
  lemma ReadsMeet(f: seq<byte>, p: nat, a: nat, n: nat)
    requires |FileRead(f, p + a, n)| == n && (n == 0 ==> a == 0)
    ensures FileRead(f, p, a) + FileRead(f, p + a, n) == FileRead(f, p, a + n)
  {
    assert |FileRead(f, p, a)| == a;
    FileReadConcat(f, p, a, n);
  }

  /** `k` blocks of `sz` bytes are `k - 1` blocks and one more. */
  lemma BlockStep(k: nat, sz: nat)
    requires k > 0
    ensures k * sz == (k - 1) * sz + sz && (k - 1) * sz >= 0
    ensures sz == 0 ==> (k - 1) * sz == 0
  {
    MulSucc(k - 1, sz);
  }

  lemma MulNonneg(a: nat, b: nat)
    ensures a * b >= 0
  {
  }

  /** `a * b`, typed as a natural number. */
  function Mul(a: nat, b: nat): nat {
    MulNonneg(a, b);
    a * b
  }

  lemma MulSucc(a: nat, b: nat)
    ensures (a + 1) * b == a * b + b
  {
  }

  lemma ConcatAssoc<T>(a: seq<T>, b: seq<T>, c: seq<T>)
    ensures (a + b) + c == a + (b + c)
  {
  }

  /** Byte `i` of a patched file. */
  lemma PatchAt(f: seq<byte>, p: nat, b: seq<byte>, i: nat)
    requires i < |Patch(f, p, b)|
    ensures Patch(f, p, b)[i] ==
              if p <= i < p + |b| then b[i - p] else if i < |f| then f[i] else 0
  {
    var r := Patch(f, p, b);
    PatchFacts(f, p, b);
    if p <= i < p + |b| {
      assert r[p..p + |b|][i - p] == r[i];
    }
  }

  /** Two writes, the second starting where the first ended, are one write
      of both. */
  lemma PatchConcat(f: seq<byte>, p: nat, a: seq<byte>, b: seq<byte>)
    ensures Patch(Patch(f, p, a), p + |a|, b) == Patch(f, p, a + b)
  {
    var g := Patch(f, p, a);
    var r1, r2 := Patch(g, p + |a|, b), Patch(f, p, a + b);
    forall i | 0 <= i < |r1| ensures r1[i] == r2[i] {
      PatchAt(g, p + |a|, b, i);
      PatchAt(f, p, a + b, i);
      if i < |g| {
        PatchAt(f, p, a, i);
      }
    }
  }

  /** What was just written reads back. */
  lemma PatchRead(f: seq<byte>, p: nat, b: seq<byte>)
    ensures FileRead(Patch(f, p, b), p, |b|) == b
  {
    PatchFacts(f, p, b);
  }

  lemma Pow256Four()
    ensures Pow256(4) == 0x1_0000_0000
  {
  }

  /** `struct.pack('<I', v)`. */
  function LE32(v: nat): (r: seq<byte>)
    requires v < 0x1_0000_0000
    ensures |r| == 4
  {
    Pow256Four();
    LE(v, 4)
  }

  /** Two reads in a row, the second where the first stopped, read what one
      read of both lengths reads. */
  lemma FileReadConcat(f: seq<byte>, p: nat, a: nat, b: nat)
    ensures FileRead(f, p, a) + FileRead(f, p + |FileRead(f, p, a)|, b) == FileRead(f, p, a + b)
  {
    var x := FileRead(f, p, a);
    var y := FileRead(f, p + |x|, b);
    var z := FileRead(f, p, a + b);
    if p < |f| {
      assert |x| + |y| == |z|;
      forall i | 0 <= i < |z| ensures (x + y)[i] == z[i] {
        if i < |x| {
          assert x[i] == f[p + i];
        } else {
          assert y[i - |x|] == f[p + |x| + (i - |x|)];
        }
      }
    }
  }
}
