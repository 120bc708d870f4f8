/** The memory-range merge of the full-memory conversion
    (full-dumpize.py, MemoryList branch): the memory descriptors sorted by
    start address, then runs of ranges that touch coalesced into one. */
module Merge {
  import opened Bytes

  /** A MINIDUMP_MEMORY_DESCRIPTOR as the merge reads it: the start of the
      range, its size, and where its bytes lie in the input file. */
  datatype Range = Range(start: nat, size: nat, rva: nat)

  /** A MINIDUMP_MEMORY_DESCRIPTOR64: a start and a size. */
  datatype Run = Run(start: nat, size: nat)

  function End(r: Run): nat { r.start + r.size }

  // ------------------------------------------------------------- sorting

  predicate Sorted(s: seq<Range>) {
    forall i, j :: 0 <= i < j < |s| ==> s[i].start <= s[j].start
  }

  /** Insert `x` into sorted `t` behind every element whose start is not
      greater: equal starts keep their order. */
  function Insert(x: Range, t: seq<Range>): (r: seq<Range>)
    ensures |r| == |t| + 1
    decreases |t|
  {
    if t == [] || t[|t| - 1].start <= x.start then t + [x]
    else Insert(x, t[..|t| - 1]) + [t[|t| - 1]]
  }

  /** `descs.sort(key=lambda d: d.StartOfMemoryRange)`: a stable sort by
      start address, written as an insertion sort. */
  function SortByStart(s: seq<Range>): (r: seq<Range>)
    ensures |r| == |s|
    decreases |s|
  {
    if s == [] then [] else Insert(s[|s| - 1], SortByStart(s[..|s| - 1]))
  }

  lemma {:induction false} InsertSorted(x: Range, t: seq<Range>)
    requires Sorted(t)
    ensures Sorted(Insert(x, t))
    ensures multiset(Insert(x, t)) == multiset(t) + multiset{x}
    decreases |t|
  {
    if t == [] || t[|t| - 1].start <= x.start {
    } else {
      var init := t[..|t| - 1];
      assert Sorted(init);
      InsertSorted(x, init);
      InsertSortedStep(x, t);
    }
  }

  /** Inserting before the last element, given the insertion into the rest. */
  lemma InsertSortedStep(x: Range, t: seq<Range>)
    requires Sorted(t) && t != [] && x.start < t[|t| - 1].start
    requires Sorted(Insert(x, t[..|t| - 1]))
    requires multiset(Insert(x, t[..|t| - 1])) == multiset(t[..|t| - 1]) + multiset{x}
    ensures Sorted(Insert(x, t))
    ensures multiset(Insert(x, t)) == multiset(t) + multiset{x}
  {
    var init, last := t[..|t| - 1], t[|t| - 1];
    var u := Insert(x, init);
    assert t == init + [last];
    assert forall m :: 0 <= m < |init| ==> init[m].start <= last.start by {
      forall m | 0 <= m < |init| ensures init[m].start <= last.start {
        assert t[m] == init[m];
      }
    }
    BelowLast(u, init, x, last);
    SortedSnoc(u, last);
    assert Insert(x, t) == u + [last];
    assert multiset(u + [last]) == multiset(u) + multiset{last};
  }

  /** What the insertion leaves before `last` all starts no later. */
  lemma BelowLast(u: seq<Range>, init: seq<Range>, x: Range, last: Range)
    requires multiset(u) == multiset(init) + multiset{x} && x.start < last.start
    requires forall m :: 0 <= m < |init| ==> init[m].start <= last.start
    ensures forall k :: 0 <= k < |u| ==> u[k].start <= last.start
  {
    forall k | 0 <= k < |u| ensures u[k].start <= last.start {
      assert u[k] in multiset(u);
      if u[k] != x {
        assert u[k] in multiset(init);
        var m :| 0 <= m < |init| && init[m] == u[k];
      }
    }
  }

  lemma SortedSnoc(u: seq<Range>, last: Range)
    requires Sorted(u) && forall k :: 0 <= k < |u| ==> u[k].start <= last.start
    ensures Sorted(u + [last])
  {
  }

  /** The sort orders by start and is a permutation. */
  lemma {:induction false} SortByStartCorrect(s: seq<Range>)
    ensures Sorted(SortByStart(s))
    ensures multiset(SortByStart(s)) == multiset(s)
    decreases |s|
  {
    if s != [] {
      var init := s[..|s| - 1];
      SortByStartCorrect(init);
      InsertSorted(s[|s| - 1], SortByStart(init));
      assert s == init + [s[|s| - 1]];
    }
  }

  /** The ranges of `s` with start `k`, in order. */
  function WithStart(s: seq<Range>, k: nat): (r: seq<Range>)
    decreases |s|
  {
    if s == [] then []
    else WithStart(s[..|s| - 1], k) + (if s[|s| - 1].start == k then [s[|s| - 1]] else [])
  }

  lemma {:induction false} WithStartConcat(a: seq<Range>, b: seq<Range>, k: nat)
    ensures WithStart(a + b, k) == WithStart(a, k) + WithStart(b, k)
    decreases |b|
  {
    if b == [] {
      assert a + b == a;
    } else {
      var b' := b[..|b| - 1];
      assert (a + b)[..|a + b| - 1] == a + b';
      WithStartConcat(a, b', k);
    }
  }

  lemma {:induction false} InsertStable(x: Range, t: seq<Range>, k: nat)
    ensures WithStart(Insert(x, t), k) == WithStart(t, k) + (if x.start == k then [x] else [])
    decreases |t|
  {
    if t == [] || t[|t| - 1].start <= x.start {
      assert (t + [x])[..|t|] == t;
    } else {
      var init, last := t[..|t| - 1], t[|t| - 1];
      InsertStable(x, init, k);
      var u := Insert(x, init);
      assert (u + [last])[..|u|] == u;
    }
  }

  /** The sort is stable: the ranges sharing a start come out in their
      input order. */
  lemma {:induction false} SortByStartStable(s: seq<Range>, k: nat)
    ensures WithStart(SortByStart(s), k) == WithStart(s, k)
    decreases |s|
  {
    if s != [] {
      var init := s[..|s| - 1];
      SortByStartStable(init, k);
      InsertStable(s[|s| - 1], SortByStart(init), k);
    }
  }

  /** Sorting what is sorted changes nothing. */
  lemma {:induction false} SortByStartSorted(s: seq<Range>)
    requires Sorted(s)
    ensures SortByStart(s) == s
    decreases |s|
  {
    if s != [] {
      var init := s[..|s| - 1];
      assert Sorted(init);
      SortByStartSorted(init);
      assert s == init + [s[|s| - 1]];
    }
  }

  // ---------------------------------------------------------- coalescing

  /** One step of the merge loop: a range that starts where the last run
      ends extends that run; any other range starts a run of its own. */
  function Absorb(runs: seq<Run>, d: Range): (out: seq<Run>)
    ensures 0 < |out| <= |runs| + 1
  {
    if runs == [] || End(runs[|runs| - 1]) != d.start then runs + [Run(d.start, d.size)]
    else runs[..|runs| - 1] + [Run(runs[|runs| - 1].start, runs[|runs| - 1].size + d.size)]
  }

  /** The merge loop over the sorted ranges. */
  function Coalesce(ds: seq<Range>): (runs: seq<Run>)
    ensures |runs| <= |ds|
    ensures ds != [] ==> |runs| > 0
    decreases |ds|
  {
    if ds == [] then [] else Absorb(Coalesce(ds[..|ds| - 1]), ds[|ds| - 1])
  }

  /** The merged descriptors of a memory list. */
  function MergeRanges(ds: seq<Range>): seq<Run> {
    Coalesce(SortByStart(ds))
  }

  function TotalSize(ds: seq<Range>): nat
    decreases |ds|
  {
    if ds == [] then 0 else TotalSize(ds[..|ds| - 1]) + ds[|ds| - 1].size
  }

  function TotalRunSize(rs: seq<Run>): nat
    decreases |rs|
  {
    if rs == [] then 0 else TotalRunSize(rs[..|rs| - 1]) + rs[|rs| - 1].size
  }

  /** No two neighbouring runs touch. */
  predicate Separated(rs: seq<Run>) {
    forall i :: 0 <= i < |rs| - 1 ==> End(rs[i]) != rs[i + 1].start
  }

  lemma {:induction false} CoalesceSeparated(ds: seq<Range>)
    ensures Separated(Coalesce(ds))
    decreases |ds|
  {
    if ds != [] {
      CoalesceSeparated(ds[..|ds| - 1]);
    }
  }

  /** The merge neither loses nor adds bytes: the run sizes add up to the
      range sizes. */
  lemma {:induction false} CoalesceTotal(ds: seq<Range>)
    ensures TotalRunSize(Coalesce(ds)) == TotalSize(ds)
    decreases |ds|
  {
    if ds != [] {
      var init := ds[..|ds| - 1];
      CoalesceTotal(init);
      var runs := Coalesce(init);
      if runs != [] {
        assert runs[..|runs| - 1] + [runs[|runs| - 1]] == runs;
        var r' := runs[..|runs| - 1] + [Run(runs[|runs| - 1].start, runs[|runs| - 1].size + ds[|ds| - 1].size)];
        assert r'[..|r'| - 1] == runs[..|runs| - 1];
      }
    }
  }

  /** Runs in order of their start addresses. */
  predicate StartsOrdered(rs: seq<Run>) {
    forall i, j :: 0 <= i < j < |rs| ==> rs[i].start <= rs[j].start
  }

  /** Each run's first range starts it: with sorted input the runs are
      ordered by start, and the last run starts at or before the last
      range. */
  lemma {:induction false} CoalesceOrdered(ds: seq<Range>)
    requires Sorted(ds)
    ensures StartsOrdered(Coalesce(ds))
    ensures ds != [] ==> Coalesce(ds)[|Coalesce(ds)| - 1].start <= ds[|ds| - 1].start
    decreases |ds|
  {
    if ds != [] {
      var init := ds[..|ds| - 1];
      assert Sorted(init);
      CoalesceOrdered(init);
      if init != [] {
        assert init[|init| - 1].start <= ds[|ds| - 1].start;
      }
      CoalesceOrderedStep(Coalesce(init), ds[|ds| - 1]);
    }
  }

  /** One merge step after ordered runs, for a range starting no earlier
      than the last run. */
  lemma CoalesceOrderedStep(runs: seq<Run>, d: Range)
    requires StartsOrdered(runs) && (runs != [] ==> runs[|runs| - 1].start <= d.start)
    ensures var out := Absorb(runs, d);
            StartsOrdered(out) && out[|out| - 1].start <= d.start
  {
    if runs == [] || End(runs[|runs| - 1]) != d.start {
      var out := runs + [Run(d.start, d.size)];
      forall i, j | 0 <= i < j < |out| ensures out[i].start <= out[j].start {
        if j == |runs| {
          assert runs[i].start <= runs[|runs| - 1].start;
        }
      }
    } else {
      var n := |runs| - 1;
      var out := runs[..n] + [Run(runs[n].start, runs[n].size + d.size)];
      forall i, j | 0 <= i < j < |out| ensures out[i].start <= out[j].start {
        assert out[i].start == runs[i].start && out[j].start == runs[j].start;
      }
    }
  }

  function InRun(a: nat, r: Run): bool { r.start <= a < End(r) }

  predicate CoveredByRuns(a: nat, rs: seq<Run>) {
    exists j :: 0 <= j < |rs| && InRun(a, rs[j])
  }

  predicate CoveredByRanges(a: nat, ds: seq<Range>) {
    exists j :: 0 <= j < |ds| && InRun(a, Run(ds[j].start, ds[j].size))
  }

  /** The merge covers exactly the addresses the ranges cover. */
  lemma {:induction false} CoalesceCovers(ds: seq<Range>, a: nat)
    ensures CoveredByRuns(a, Coalesce(ds)) <==> CoveredByRanges(a, ds)
    decreases |ds|
  {
    if ds != [] {
      var init, d := ds[..|ds| - 1], ds[|ds| - 1];
      CoalesceCovers(init, a);
      RangesSnoc(init, d, a);
      assert init + [d] == ds;
      var runs := Coalesce(init);
      if runs == [] || End(runs[|runs| - 1]) != d.start {
        RunsSnoc(runs, Run(d.start, d.size), a);
      } else {
        var n := |runs| - 1;
        var last := runs[n];
        var merged := Run(last.start, last.size + d.size);
        RunsSnoc(runs[..n], merged, a);
        RunsSnoc(runs[..n], last, a);
        assert runs[..n] + [last] == runs;
        assert InRun(a, merged) <==> InRun(a, last) || InRun(a, Run(d.start, d.size));
      }
    }
  }

  /** An address is covered by ranges and one more exactly when the ranges
      or that one cover it. */
  lemma RangesSnoc(init: seq<Range>, d: Range, a: nat)
    ensures CoveredByRanges(a, init + [d]) <==> CoveredByRanges(a, init) || InRun(a, Run(d.start, d.size))
  {
    var ds := init + [d];
    if CoveredByRanges(a, ds) {
      var j :| 0 <= j < |ds| && InRun(a, Run(ds[j].start, ds[j].size));
      if j < |init| {
        assert init[j] == ds[j];
      }
    }
    if CoveredByRanges(a, init) {
      var j :| 0 <= j < |init| && InRun(a, Run(init[j].start, init[j].size));
      assert ds[j] == init[j];
    }
    if InRun(a, Run(d.start, d.size)) {
      assert ds[|init|] == d;
    }
  }

  /** The same for runs. */
  lemma RunsSnoc(runs: seq<Run>, r: Run, a: nat)
    ensures CoveredByRuns(a, runs + [r]) <==> CoveredByRuns(a, runs) || InRun(a, r)
  {
    var out := runs + [r];
    if CoveredByRuns(a, out) {
      var j :| 0 <= j < |out| && InRun(a, out[j]);
      if j < |runs| {
        assert runs[j] == out[j];
      }
    }
    if CoveredByRuns(a, runs) {
      var j :| 0 <= j < |runs| && InRun(a, runs[j]);
      assert out[j] == runs[j];
    }
    if InRun(a, r) {
      assert out[|runs|] == r;
    }
  }

  /** The merged runs, read back as ranges (their file offsets play no part
      in the merge). */
  function AsRanges(rs: seq<Run>): (ds: seq<Range>)
    ensures |ds| == |rs|
    ensures forall i :: 0 <= i < |rs| ==> ds[i] == Range(rs[i].start, rs[i].size, 0)
  {
    seq(|rs|, i requires 0 <= i < |rs| => Range(rs[i].start, rs[i].size, 0))
  }

  /** Runs that do not touch come out of the merge loop unchanged. */
  lemma {:induction false} CoalesceSeparatedRuns(rs: seq<Run>)
    requires Separated(rs)
    ensures Coalesce(AsRanges(rs)) == rs
    decreases |rs|
  {
    if rs != [] {
      var init := rs[..|rs| - 1];
      assert Separated(init);
      CoalesceSeparatedRuns(init);
      assert AsRanges(rs)[..|rs| - 1] == AsRanges(init);
      if |init| > 0 {
        assert End(init[|init| - 1]) != rs[|rs| - 1].start;
      }
      assert init + [rs[|rs| - 1]] == rs;
    }
  }

  /** Re-running the merge on its own output changes nothing. */
  lemma MergeIdempotent(ds: seq<Range>)
    ensures MergeRanges(AsRanges(MergeRanges(ds))) == MergeRanges(ds)
  {
    var sorted := SortByStart(ds);
    SortByStartCorrect(ds);
    var runs := Coalesce(sorted);
    CoalesceOrdered(sorted);
    CoalesceSeparated(sorted);
    var back := AsRanges(runs);
    assert Sorted(back);
    SortByStartSorted(back);
    CoalesceSeparatedRuns(runs);
  }

  /** Two ranges that touch, [0x1000, +16) and [0x1010, +16), merge into
      one descriptor (0x1000, 32), in either input order. */
  lemma MergeTouching()
    ensures MergeRanges([Range(0x1000, 16, 100), Range(0x1010, 16, 200)]) == [Run(0x1000, 32)]
    ensures MergeRanges([Range(0x1010, 16, 200), Range(0x1000, 16, 100)]) == [Run(0x1000, 32)]
  {
    var a, b := Range(0x1000, 16, 100), Range(0x1010, 16, 200);
    assert [a, b][..1] == [a] && [b, a][..1] == [b];
    assert SortByStart([a, b]) == [a, b];
    assert Insert(a, [b]) == Insert(a, []) + [b];
    assert SortByStart([b, a]) == [a, b];
    assert [a, b][..1] == [a];
  }

  /** Ranges with a gap between them stay apart. */
  lemma MergeGap()
    ensures MergeRanges([Range(0x1000, 16, 100), Range(0x1020, 16, 200)]) ==
              [Run(0x1000, 16), Run(0x1020, 16)]
  {
    var a, b := Range(0x1000, 16, 100), Range(0x1020, 16, 200);
    assert [a, b][..1] == [a];
    assert SortByStart([a, b]) == [a, b];
  }

  /** A run is never larger than all the ranges together. */
  lemma {:induction false} RunSizeBound(ds: seq<Range>)
    ensures forall j :: 0 <= j < |Coalesce(ds)| ==> Coalesce(ds)[j].size <= TotalSize(ds)
    decreases |ds|
  {
    if ds != [] {
      var init, d := ds[..|ds| - 1], ds[|ds| - 1];
      var prev := Coalesce(init);
      RunSizeBound(init);
      assert TotalSize(ds) == TotalSize(init) + d.size;
      forall j | 0 <= j < |Absorb(prev, d)| ensures Absorb(prev, d)[j].size <= TotalSize(ds) {
        if prev != [] && End(prev[|prev| - 1]) == d.start && j == |prev| - 1 {
          assert Absorb(prev, d)[j].size == prev[j].size + d.size;
        } else if j < |prev| {
          assert Absorb(prev, d)[j] == prev[j];
        }
      }
    }
  }

  /** Ranges of at most `m` bytes each total at most `|ds| * m`. */
  lemma {:induction false} TotalSizeBound(ds: seq<Range>, m: nat)
    requires forall k :: 0 <= k < |ds| ==> ds[k].size <= m
    ensures TotalSize(ds) <= |ds| * m
    decreases |ds|
  {
    if ds != [] {
      TotalSizeBound(ds[..|ds| - 1], m);
      MulSucc(|ds| - 1, m);
    }
  }

  /** With 32-bit sizes and fewer than 2^32 ranges, as a MINIDUMP memory
      list holds, every merged size fits the 64-bit DataSize field. */
  lemma MergedSizesFit(ds: seq<Range>)
    requires |ds| < 0x1_0000_0000
    requires forall k :: 0 <= k < |ds| ==> ds[k].size < 0x1_0000_0000
    ensures forall j :: 0 <= j < |MergeRanges(ds)| ==> MergeRanges(ds)[j].size < 0x1_0000_0000_0000_0000
  {
    var sorted := SortByStart(ds);
    SortByStartCorrect(ds);
    forall k | 0 <= k < |sorted| ensures sorted[k].size <= 0xFFFF_FFFF {
      assert sorted[k] in multiset(ds);
    }
    TotalSizeBound(sorted, 0xFFFF_FFFF);
    RunSizeBound(sorted);
    assert |sorted| * 0xFFFF_FFFF < 0x1_0000_0000_0000_0000;
  }
}
