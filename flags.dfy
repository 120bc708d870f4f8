/** The MINIDUMP_TYPE flags the full-memory dump declares: the partial
    memory kinds cleared, full memory set, everything else kept. */
module Flags {
  import opened Bytes
  import opened Records

  /** The memory kinds a full-memory dump no longer claims. */
  const PartialMemory: bv64 :=
    MiniDumpWithDataSegs | MiniDumpWithIndirectlyReferencedMemory |
    MiniDumpWithPrivateReadWriteMemory | MiniDumpWithCodeSegs

  /** The rewrite on the 64 bits of the `Flags` field. */
  function NewFlagBits(f: bv64): bv64 {
    (f & !PartialMemory) | MiniDumpWithFullMemory
  }

  const Two64: nat := 0x1_0000_0000_0000_0000

  /** The rewrite of the low 64 bits of `f`, as an integer. */
  function LowRewrite(f: nat): (r: nat)
    ensures r < Two64
  {
    NewFlagBits((f % Two64) as bv64) as nat
  }

  /** `f & ~(DataSegs | IndirectlyReferencedMemory | PrivateReadWriteMemory
      | CodeSegs) | FullMemory` on an unbounded non-negative integer: the
      mask lies in the low 64 bits, so higher bits pass through. */
  function NewFlags(f: nat): nat {
    MulNonneg(f / Two64, Two64);
    f / Two64 * Two64 + LowRewrite(f)
  }

  /** Bit by bit: the partial memory bits (0, 6, 9 and 13) are cleared,
      the full memory bit (1) is set, and every other bit is the input's. */
  lemma NewFlagBitsEach(f: bv64)
    ensures NewFlagBits(f) & PartialMemory == 0
    ensures NewFlagBits(f) & MiniDumpWithFullMemory == MiniDumpWithFullMemory
    ensures NewFlagBits(f) & !(PartialMemory | MiniDumpWithFullMemory) ==
              f & !(PartialMemory | MiniDumpWithFullMemory)
  {
  }

  /** A multiple of 2^64 plus a 64-bit value splits back into the two. */
  lemma SplitTwo64(q: nat, lo: nat)
    requires lo < Two64
    ensures (q * Two64 + lo) / Two64 == q && (q * Two64 + lo) % Two64 == lo
  {
  }

  lemma ModSmall(x: nat)
    requires x < Two64
    ensures x % Two64 == x
  {
  }

  /** The bits above the low 64 are the input's. */
  lemma NewFlagsHigh(f: nat)
    ensures NewFlags(f) / Two64 == f / Two64
    ensures NewFlags(f) % Two64 == LowRewrite(f)
  {
    SplitTwo64(f / Two64, LowRewrite(f));
  }

  /** The low 64 bits of the result are the bit rewrite of the input's low
      64 bits, and a value of the 64-bit field stays one. */
  lemma NewFlagsLow(f: nat)
    ensures (NewFlags(f) % Two64) as bv64 == NewFlagBits((f % Two64) as bv64)
    ensures f < Two64 ==> NewFlags(f) == LowRewrite(f) < Two64
  {
    NewFlagsHigh(f);
    LowRewriteBits(f);
  }

  lemma LowRewriteBits(f: nat)
    ensures LowRewrite(f) as bv64 == NewFlagBits((f % Two64) as bv64)
  {
  }

  /** Rewriting the bits twice is rewriting them once. */
  lemma LowRewriteIdempotent(f: nat)
    ensures LowRewrite(LowRewrite(f)) == LowRewrite(f)
  {
    var x := NewFlagBits((f % Two64) as bv64);
    var y := LowRewrite(f);
    LowRewriteSmall(y);
    BvRound(x);
    NewFlagBitsIdempotent(x);
  }

  lemma LowRewriteSmall(y: nat)
    requires y < Two64
    ensures LowRewrite(y) == NewFlagBits(y as bv64) as nat
  {
    ModSmall(y);
  }

  lemma NewFlagBitsIdempotent(x: bv64)
    ensures NewFlagBits(NewFlagBits(x)) == NewFlagBits(x)
  {
  }

  lemma BvRound(x: bv64)
    ensures (x as nat) as bv64 == x
  {
  }

  /** Rewriting twice is rewriting once. */
  lemma NewFlagsIdempotent(f: nat)
    ensures NewFlags(NewFlags(f)) == NewFlags(f)
  {
    var g := NewFlags(f);
    NewFlagsHigh(f);
    NewFlagsHigh(g);
    LowRewriteIdempotent(f);
    ModSmall(LowRewrite(f));
  }

  /** A dump taken with data segments, indirect memory and handle data
      becomes a full-memory dump with handle data. */
  lemma NewFlagsExample()
    ensures NewFlags(0x45) == 0x6
  {
    assert NewFlagBits(0x45) == 0x6;
  }
}
