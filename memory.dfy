/** The two memory-list branches of `fulldumpize` (full-dumpize.py): a
    MemoryList stream becomes a Memory64 list whose ranges are sorted,
    coalesced and copied behind the writer's cursor; a Memory64 list keeps
    its descriptors and gets its memory copied and its `BaseRva` moved. */
module Memory {
  import opened Bytes
  import opened Wrappers
  import opened Codec
  import opened Records
  import opened Streams
  import opened Writer
  import opened Relocate
  import opened Merge
  import opened Reader
  import opened Handlers

  // --------------------------------------------- the memory list merge

  /** A MINIDUMP_MEMORY_DESCRIPTOR record as the merge reads it. */
  function ToRange(d: Struct): Range {
    var loc := SubAt(d, MemLocation);
    Range(Num(d, MemStart), Num(loc, LocDataSize), Num(loc, LocRva))
  }

  function ToRanges(ds: seq<Struct>): (rs: seq<Range>)
    ensures |rs| == |ds|
  {
    seq(|ds|, k requires 0 <= k < |ds| => ToRange(ds[k]))
  }

  /** The bytes the merge copies: for each range in turn,
      `fin.seek(desc.Memory.RVA)` and `fin.read(desc.Memory.DataSize)`,
      short at the end of the input file. */
  function Payload(fin: seq<byte>, ds: seq<Range>): seq<byte>
    decreases |ds|
  {
    if ds == [] then []
    else Payload(fin, ds[..|ds| - 1]) + FileRead(fin, ds[|ds| - 1].rva, ds[|ds| - 1].size)
  }

  /** The merge loop: every range's bytes written at the file position in
      sorted order, and the runs of touching ranges coalesced as they come
      (`Absorb`). */
  method WriteMerged(fp: OutFile, fin: seq<byte>, sorted: seq<Range>) returns (runs: seq<Run>)
    modifies fp
    ensures runs == Coalesce(sorted)
    ensures fp.data == Patch(old(fp.data), old(fp.pos), Payload(fin, sorted))
    ensures fp.pos == old(fp.pos) + |Payload(fin, sorted)|
  {
    ghost var f0, p0 := fp.data, fp.pos;
    ghost var pay: seq<byte> := [];
    runs := [];
    var i := 0;
    while i < |sorted|
      invariant 0 <= i <= |sorted|
      invariant runs == Coalesce(sorted[..i])
      invariant pay == Payload(fin, sorted[..i])
      invariant fp.data == Patch(f0, p0, pay) && fp.pos == p0 + |pay|
    {
      var d := sorted[i];
      var buf := FileRead(fin, d.rva, d.size);
      WriteOn(fp, buf, f0, p0, pay);
      runs := Absorb(runs, d);
      MergedStep(fin, sorted, i);
      pay := pay + buf;
      i := i + 1;
    }
    assert sorted[..i] == sorted;
  }

  /** One more range: the coalesced runs and the payload of the first
      `i + 1` ranges in terms of those of the first `i`. */
  lemma MergedStep(fin: seq<byte>, sorted: seq<Range>, i: nat)
    requires i < |sorted|
    ensures Coalesce(sorted[..i + 1]) == Absorb(Coalesce(sorted[..i]), sorted[i])
    ensures Payload(fin, sorted[..i + 1]) ==
              Payload(fin, sorted[..i]) + FileRead(fin, sorted[i].rva, sorted[i].size)
  {
    assert sorted[..i + 1][..i] == sorted[..i];
  }

  /** Read short at the end of the input file, the payload is at most the
      ranges' total size, and exactly that when every range lies inside
      the file. */
  lemma {:induction false} PayloadLength(fin: seq<byte>, ds: seq<Range>)
    ensures |Payload(fin, ds)| <= TotalSize(ds)
    ensures (forall k :: 0 <= k < |ds| ==> ds[k].rva + ds[k].size <= |fin|) ==>
              |Payload(fin, ds)| == TotalSize(ds)
    decreases |ds|
  {
    if ds != [] {
      var init := ds[..|ds| - 1];
      PayloadLength(fin, init);
      assert forall k :: 0 <= k < |init| ==> init[k] == ds[k];
    }
  }

  // ------------------------------------------ the Memory64 list written

  /** `MINIDUMP_MEMORY_DESCRIPTOR64(start, size)` of a coalesced run. */
  function RunRecord(r: Run): Struct {
    Struct([Value(Int(r.start)), Value(Int(r.size))], [])
  }

  function RunRecords(rs: seq<Run>): (out: seq<Struct>)
    ensures |out| == |rs|
    ensures forall k :: 0 <= k < |rs| ==> out[k] == RunRecord(rs[k])
  {
    seq(|rs|, k requires 0 <= k < |rs| => RunRecord(rs[k]))
  }

  /** `MINIDUMP_MEMORY64_LIST(n, base)`. */
  function ListHeader(n: nat, base: nat): (h: Struct)
    ensures Num(h, Mem64Count) == n && Num(h, Mem64BaseRva) == base && h.extra == []
  {
    Struct([Value(Int(n)), Value(Int(base))], [])
  }

  /** A run record says where the run starts and how long it is. */
  lemma RunRecordFields(r: Run)
    ensures Num(RunRecord(r), Desc64Start) == r.start && Num(RunRecord(r), Desc64DataSize) == r.size
  {
  }

  /** `MINIDUMP_MEMORY_DESCRIPTOR64.size * len(descs) +
      MINIDUMP_MEMORY64_LIST.size`: room for one descriptor per input
      range. */
  function ListSpace(d64: Layout, ml: Layout, n: nat): nat {
    Mul(Size(d64), n) + Size(ml)
  }

  /** The packed list has one descriptor per run, and there are no more
      runs than ranges, so it fits the room reserved. */
  lemma ListBytesFit(d64: Layout, ml: Layout, runs: seq<Run>, base: nat, n: nat, data: seq<byte>)
    requires HeadedBytes(ml, d64, ListHeader(|runs|, base), RunRecords(runs)) == Success(data)
    requires |runs| <= n
    ensures |data| <= ListSpace(d64, ml, n)
  {
    var h, recs := ListHeader(|runs|, base), RunRecords(runs);
    PackSize(ml, h);
    PackAllSize(d64, recs);
    MulMono(|runs|, n, Size(d64));
  }

  lemma MulMono(a: nat, b: nat, c: nat)
    requires a <= b
    ensures a * c <= Mul(c, b)
  {
    MulNonneg(b - a, c);
    assert b * c == a * c + (b - a) * c;
  }

  /** The packed Memory64 list of the merged ranges, with its `BaseRva`
      at `base`. */
  function MergedListBytes(d64: Layout, ml: Layout, runs: seq<Run>, base: nat): Result<seq<byte>> {
    HeadedBytes(ml, d64, ListHeader(|runs|, base), RunRecords(runs))
  }

  /** What the MemoryList branch leaves behind once its list packs, for
      `n` input ranges that sort to `sorted`: a Memory64 list entry at the
      aligned cursor `o` it started from, holding the count and the
      coalesced runs and a `BaseRva` just past the room reserved, where the
      ranges' bytes lie one after another in sorted order. The cursor stays
      at `BaseRva`: the payload lies past it. */
  ghost predicate MergedEmitted(f: seq<byte>, dir: seq<Entry>, offset: nat, o: nat, dir0: seq<Entry>,
                                fin: seq<byte>, d64: Layout, ml: Layout, n: nat, sorted: seq<Range>)
  {
    var at := AlignUp(o);
    var base := at + ListSpace(d64, ml, n);
    var data := MergedListBytes(d64, ml, Coalesce(sorted), base);
    data.Success? &&
    |data.value| <= ListSpace(d64, ml, n) &&
    dir == dir0 + [Entry(Memory64ListStream, |data.value|, at)] &&
    offset == base &&
    Holds(f, at, data.value) &&
    Holds(f, base, Payload(fin, sorted))
  }

  /** The MemoryList branch after its `n` descriptors are read and sorted:
      reserve one descriptor per range and the list header, copy the
      ranges' bytes in start order behind the reservation while coalescing
      them, and write the list into the reservation. */
  method WriteMergedList(dw: DumpWriter, fin: seq<byte>, d64: Layout, ml: Layout, n: nat, sorted: seq<Range>)
    returns (r: Result<()>)
    requires dw.Valid() && |sorted| <= n
    modifies dw, dw.fp
    ensures dw.Valid() && dw.header == old(dw.header)
    ensures KeepsBelow(old(dw.fp.data), dw.fp.data, old(dw.offset))
    ensures dw.offset == AlignUp(old(dw.offset)) + ListSpace(d64, ml, n)
    ensures r.Failure? ==>
              MergedListBytes(d64, ml, Coalesce(sorted), dw.offset).Failure? &&
              dw.dir == old(dw.dir) + [Entry(Memory64ListStream, ListSpace(d64, ml, n), AlignUp(old(dw.offset)))]
    ensures r.Success? ==> MergedEmitted(dw.fp.data, dw.dir, dw.offset, old(dw.offset), old(dw.dir), fin, d64, ml, n, sorted)
  {
    ghost var f0 := dw.fp.data;
    var idx, runs := ReserveAndCopy(dw, fin, ListSpace(d64, ml, n), sorted);
    var data := MergedListBytes(d64, ml, runs, dw.offset);
    if data.Failure? {
      PatchKeepsBelowFrom(f0, old(dw.offset), dw.offset, Payload(fin, sorted));
      return Failure(data.error);
    }
    ListBytesFit(d64, ml, runs, dw.offset, n, data.value);
    FillMergedList(dw, idx, data.value, fin, d64, ml, n, sorted, old(dw.offset), old(dw.dir), f0);
    r := Success(());
  }

  /** `o = dw.add_stream_placeholder(Memory64ListStream, size)`, then the
      merge loop writing at `dw.current_size()`, just past the
      reservation; the cursor is not moved past what the loop writes. */
  method ReserveAndCopy(dw: DumpWriter, fin: seq<byte>, size: nat, sorted: seq<Range>)
    returns (idx: nat, runs: seq<Run>)
    requires dw.Valid()
    modifies dw, dw.fp
    ensures dw.Valid() && dw.header == old(dw.header)
    ensures idx == |old(dw.dir)| && dw.dir == old(dw.dir) + [Entry(Memory64ListStream, size, AlignUp(old(dw.offset)))]
    ensures old(dw.offset) <= AlignUp(old(dw.offset)) && dw.offset == AlignUp(old(dw.offset)) + size
    ensures runs == Coalesce(sorted)
    ensures dw.fp.data == Patch(old(dw.fp.data), dw.offset, Payload(fin, sorted))
  {
    AlignUpAbove(dw.offset);
    idx := dw.AddStreamPlaceholder(Memory64ListStream, size);
    dw.fp.Seek(dw.offset);
    runs := WriteMerged(dw.fp, fin, sorted);
  }

  /** `dw.set_stream(o, header.pack() + ...)`: the list goes into the
      reservation, below the payload, which stays in place. */
  method FillMergedList(dw: DumpWriter, idx: nat, data: seq<byte>, ghost fin: seq<byte>, ghost d64: Layout,
                        ghost ml: Layout, ghost n: nat, ghost sorted: seq<Range>,
                        ghost o: nat, ghost dir0: seq<Entry>, ghost f0: seq<byte>)
    requires dw.Valid() && idx == |dir0| && o <= AlignUp(o)
    requires dw.dir == dir0 + [Entry(Memory64ListStream, ListSpace(d64, ml, n), AlignUp(o))]
    requires dw.offset == AlignUp(o) + ListSpace(d64, ml, n)
    requires dw.fp.data == Patch(f0, dw.offset, Payload(fin, sorted))
    requires MergedListBytes(d64, ml, Coalesce(sorted), dw.offset) == Success(data)
    requires |data| <= ListSpace(d64, ml, n)
    modifies dw, dw.fp
    ensures dw.Valid() && dw.header == old(dw.header)
    ensures KeepsBelow(f0, dw.fp.data, o)
    ensures MergedEmitted(dw.fp.data, dw.dir, dw.offset, o, dir0, fin, d64, ml, n, sorted)
  {
    ghost var f2, at, base := dw.fp.data, AlignUp(o), dw.offset;
    HoldsWritten(f0, base, Payload(fin, sorted));
    dw.SetStream(idx, data);
    HoldsPatchBelow(f2, base, Payload(fin, sorted), at, data);
    HoldsWritten(f2, at, data);
    MergedKeeps(f0, f2, dw.fp.data, o, base, at, Payload(fin, sorted), data);
    ResizeLast(dir0, Entry(Memory64ListStream, ListSpace(d64, ml, n), at), |data|);
    MergedEmittedIntro(dw.fp.data, dw.dir, dw.offset, o, dir0, fin, d64, ml, n, sorted, data);
  }

  /** The facts FillMergedList establishes, gathered into MergedEmitted. */
  lemma MergedEmittedIntro(f: seq<byte>, dir: seq<Entry>, offset: nat, o: nat, dir0: seq<Entry>,
                           fin: seq<byte>, d64: Layout, ml: Layout, n: nat, sorted: seq<Range>, data: seq<byte>)
    requires offset == AlignUp(o) + ListSpace(d64, ml, n)
    requires MergedListBytes(d64, ml, Coalesce(sorted), offset) == Success(data)
    requires |data| <= ListSpace(d64, ml, n)
    requires dir == dir0 + [Entry(Memory64ListStream, |data|, AlignUp(o))]
    requires Holds(f, AlignUp(o), data) && Holds(f, offset, Payload(fin, sorted))
    ensures MergedEmitted(f, dir, offset, o, dir0, fin, d64, ml, n, sorted)
  {
  }

  /** Resizing the entry just appended leaves the ones before it. */
  lemma ResizeLast(dir0: seq<Entry>, e: Entry, size: nat)
    ensures (dir0 + [e])[|dir0| := e.(size := size)] == dir0 + [e.(size := size)]
  {
  }

  /** The payload written at `base` and then the list at `at`, both at or
      past `o`, keep what lay below `o`. */
  lemma MergedKeeps(f0: seq<byte>, f2: seq<byte>, f3: seq<byte>, o: nat, base: nat, at: nat,
                    pay: seq<byte>, data: seq<byte>)
    requires o <= at <= base && f2 == Patch(f0, base, pay) && f3 == Patch(f2, at, data)
    ensures KeepsBelow(f0, f3, o)
  {
    PatchKeepsBelowFrom(f0, o, base, pay);
    PatchKeepsBelowFrom(f2, o, at, data);
    KeepsBelowTrans(f0, f2, f3, o, o);
  }

  /** The MemoryList branch: read the count and the descriptors, sort
      them by start (`descs.sort(key=...)`) and hand them to the merge. A
      stream whose descriptors do not read leaves the writer as it was. */
  method HandleMemoryList(dw: DumpWriter, fin: seq<byte>, s: StreamRef, md: Layout, d64: Layout, ml: Layout)
    returns (r: Result<()>, ghost descs: seq<Struct>)
    requires dw.Valid()
    modifies dw, dw.fp
    ensures dw.Valid() && dw.header == old(dw.header)
    ensures KeepsBelow(old(dw.fp.data), dw.fp.data, old(dw.offset))
    ensures var w := Window(fin, s.rva, s.size);
            CountedRecords(md, w).Failure? ==>
              r.Failure? && dw.dir == old(dw.dir) && dw.offset == old(dw.offset) && dw.fp.data == old(dw.fp.data)
    ensures var w := Window(fin, s.rva, s.size);
            CountedRecords(md, w).Success? ==>
              descs == CountedRecords(md, w).value &&
              dw.offset == AlignUp(old(dw.offset)) + ListSpace(d64, ml, |descs|) &&
              (r.Failure? ==>
                 MergedListBytes(d64, ml, Coalesce(SortByStart(ToRanges(descs))), dw.offset).Failure? &&
                 dw.dir == old(dw.dir) + [Entry(Memory64ListStream, ListSpace(d64, ml, |descs|), AlignUp(old(dw.offset)))])
    ensures r.Success? ==>
              MergedEmitted(dw.fp.data, dw.dir, dw.offset, old(dw.offset), old(dw.dir), fin, d64, ml, |descs|,
                            SortByStart(ToRanges(descs)))
  {
    var sp := new Substream(fin, s.rva, s.size);
    var rs := ReadCounted(md, sp);
    descs := if rs.Success? then rs.value else [];
    if rs.Failure? {
      return Failure(rs.error), descs;
    }
    var sorted := SortByStart(ToRanges(rs.value));
    r := WriteMergedList(dw, fin, d64, ml, |rs.value|, sorted);
  }

  /** The runs the list holds are the ranges sorted by start and merged:
      ordered by start, no two touching, as many bytes in all as the
      ranges, and the payload behind them is as long when every range
      lies inside the input file. */
  lemma MergedListFacts(fin: seq<byte>, descs: seq<Struct>)
    ensures var sorted := SortByStart(ToRanges(descs));
            var runs := Coalesce(sorted);
            runs == MergeRanges(ToRanges(descs)) &&
            StartsOrdered(runs) && Separated(runs) &&
            TotalRunSize(runs) == TotalSize(sorted) &&
            |Payload(fin, sorted)| <= TotalRunSize(runs) &&
            ((forall k :: 0 <= k < |sorted| ==> sorted[k].rva + sorted[k].size <= |fin|) ==>
               |Payload(fin, sorted)| == TotalRunSize(runs))
  {
    var sorted := SortByStart(ToRanges(descs));
    SortByStartCorrect(ToRanges(descs));
    CoalesceOrdered(sorted);
    CoalesceSeparated(sorted);
    CoalesceTotal(sorted);
    PayloadLength(fin, sorted);
  }

  // ------------------------------------------ the Memory64 list kept

  /** One record more at the stream position, `i` records past `start`. */
  method ReadOneMore(l: Layout, fp: Substream, ghost start: nat, ghost i: nat, ghost res: seq<Struct>)
    returns (r: Result<Struct>)
    requires fp.Valid() && fp.pos == start + Mul(i, Size(l))
    requires RecordsAt(l, fp.Contents(), start, i) == Success(res)
    modifies fp
    ensures fp.Valid()
    ensures r.Success? ==>
              RecordsAt(l, fp.Contents(), start, i + 1) == Success(res + [r.value]) &&
              fp.pos == start + Mul(i + 1, Size(l))
    ensures r.Failure? ==> RecordsAt(l, fp.Contents(), start, i + 1).Failure?
  {
    RecordsAtNext(l, fp.Contents(), start, i, res);
    MulSucc(i, Size(l));
    r := ReadOne(l, fp, None);
  }

  /** `cnt` records read one at a time from the stream position, as the
      list comprehension over `MINIDUMP_MEMORY_DESCRIPTOR64.read(fp)`
      does: the same as reading them in one go. */
  method ReadOneByOne(l: Layout, fp: Substream, cnt: nat) returns (r: Result<seq<Struct>>)
    requires fp.Valid()
    modifies fp
    ensures fp.Valid()
    ensures r == RecordsAt(l, fp.Contents(), old(fp.pos), cnt)
  {
    ghost var w, start := fp.Contents(), fp.pos;
    var res: seq<Struct> := [];
    var i := 0;
    while i < cnt
      invariant 0 <= i <= cnt && fp.Valid()
      invariant RecordsAt(l, w, start, i) == Success(res)
      invariant fp.pos == start + Mul(i, Size(l))
    {
      var one := ReadOneMore(l, fp, start, i, res);
      if one.Failure? {
        RecordsAtFailFrom(l, w, start, i + 1, cnt);
        return Failure(MalformedRecord);
      }
      res := res + [one.value];
      i := i + 1;
    }
    r := Success(res);
  }

  /** The Memory64 list in a window `w`: the list header at offset 0, then
      `NumberOfMemoryRanges` descriptors right behind it. */
  function Memory64Of(ml: Layout, d64: Layout, w: seq<byte>): Result<Headed> {
    var hb := FileRead(w, 0, Size(ml));
    if |hb| != Size(ml) then Failure(MalformedRecord)
    else
      var h := Decode(ml, hb);
      var es := RecordsAt(d64, w, Size(ml), Num(h, Mem64Count));
      if es.Failure? then Failure(es.error) else Success(Headed(h, es.value))
  }

  /** The reads of the Memory64 branch on a fresh window. */
  method ReadMemory64(ml: Layout, d64: Layout, fp: Substream) returns (r: Result<Headed>)
    requires fp.Valid() && fp.pos == 0
    modifies fp
    ensures r == Memory64Of(ml, d64, fp.Contents())
  {
    var h := ReadOne(ml, fp, Some(0));
    if h.Failure? {
      return Failure(h.error);
    }
    var es := ReadOneByOne(d64, fp, Num(h.value, Mem64Count));
    if es.Failure? {
      return Failure(es.error);
    }
    r := Success(Headed(h.value, es.value));
  }

  /** A Memory64 list that reads is its header's bytes and its
      descriptors' bytes, which lie inside the window: packed again with
      any `BaseRva` that fits, its descriptors come out as they went in and
      the whole fits the window's size. */
  lemma Memory64Pack(ml: Layout, d64: Layout, w: seq<byte>, hd: Headed, base: nat)
    requires Memory64Of(ml, d64, w) == Success(hd)
    ensures PackAll(d64, hd.entries) == Success(FileRead(w, Size(ml), Mul(|hd.entries|, Size(d64))))
    ensures Size(ml) + Mul(|hd.entries|, Size(d64)) <= |w|
    ensures var h := WithNum(hd.header, Mem64BaseRva, base);
            Pack(ml, h).Success? ==> |HeadedBytes(ml, d64, h, hd.entries).value| <= |w|
  {
    var hb := FileRead(w, 0, Size(ml));
    DecodeFacts(ml, hb);
    var n := Num(hd.header, Mem64Count);
    RecordsAtPack(d64, w, Size(ml), n);
    RecordsAtValid(d64, w, Size(ml), n);
    PackAllSize(d64, hd.entries);
    PackSize(ml, WithNum(hd.header, Mem64BaseRva, base));
  }

  /** The `DataSize`s of the descriptors added up. */
  function TotalDataSize(es: seq<Struct>): nat
    decreases |es|
  {
    if es == [] then 0 else TotalDataSize(es[..|es| - 1]) + Num(es[|es| - 1], Desc64DataSize)
  }

  lemma TotalDataSizeStep(es: seq<Struct>, i: nat)
    requires i < |es|
    ensures TotalDataSize(es[..i + 1]) == TotalDataSize(es[..i]) + Num(es[i], Desc64DataSize)
  {
    assert es[..i + 1][..i] == es[..i];
  }

  /** The copy loop: from the input position `src`, each descriptor's
      `DataSize` bytes read in turn (`fin.read(e.DataSize)`, short at the end
      of the file) and written at the file position. The reads follow one
      another, so the whole is one read of all the sizes together. */
  method CopyRanges(fp: OutFile, fin: seq<byte>, src: nat, es: seq<Struct>)
    modifies fp
    ensures fp.data == Patch(old(fp.data), old(fp.pos), FileRead(fin, src, TotalDataSize(es)))
    ensures fp.pos == old(fp.pos) + |FileRead(fin, src, TotalDataSize(es))|
  {
    ghost var f0, p0 := fp.data, fp.pos;
    ghost var pay: seq<byte> := [];
    var q := src;
    var i := 0;
    while i < |es|
      invariant 0 <= i <= |es|
      invariant pay == FileRead(fin, src, TotalDataSize(es[..i])) && q == src + |pay|
      invariant fp.data == Patch(f0, p0, pay) && fp.pos == p0 + |pay|
    {
      var buf := FileRead(fin, q, Num(es[i], Desc64DataSize));
      WriteOn(fp, buf, f0, p0, pay);
      TotalDataSizeStep(es, i);
      FileReadConcat(fin, src, TotalDataSize(es[..i]), Num(es[i], Desc64DataSize));
      pay := pay + buf;
      q := q + |buf|;
      i := i + 1;
    }
    assert es[..i] == es;
  }

  /** The Memory64 list re-emitted with its `BaseRva` moved to `base`. */
  function KeptListBytes(ml: Layout, d64: Layout, hd: Headed, base: nat): Result<seq<byte>> {
    HeadedBytes(ml, d64, WithNum(hd.header, Mem64BaseRva, base), hd.entries)
  }

  /** What the Memory64 branch leaves behind once its list packs: an entry
      at the aligned cursor `o` it started from, in a reservation of
      `space` bytes, holding the header with `BaseRva` just past the
      reservation and the descriptors unchanged; from there on, the
      descriptors' bytes read in one run from the old `BaseRva`. The
      cursor stays at the new `BaseRva`. */
  ghost predicate KeptEmitted(f: seq<byte>, dir: seq<Entry>, offset: nat, o: nat, dir0: seq<Entry>,
                              fin: seq<byte>, ml: Layout, d64: Layout, space: nat, hd: Headed)
  {
    var at := AlignUp(o);
    var data := KeptListBytes(ml, d64, hd, offset);
    offset == at + space &&
    data.Success? &&
    |data.value| <= space &&
    dir == dir0 + [Entry(Memory64ListStream, |data.value|, at)] &&
    Holds(f, at, data.value) &&
    Holds(f, offset, FileRead(fin, Num(hd.header, Mem64BaseRva), TotalDataSize(hd.entries)))
  }

  /** The Memory64 branch: read the list, reserve the input stream's size,
      move `BaseRva` to the cursor, write the list into the reservation and
      copy the memory from the old `BaseRva` to the new. A list that does
      not read leaves the writer as it was. */
  method HandleMemory64(dw: DumpWriter, fin: seq<byte>, s: StreamRef, ml: Layout, d64: Layout)
    returns (r: Result<()>, ghost hd: Headed)
    requires dw.Valid()
    modifies dw, dw.fp
    ensures dw.Valid() && dw.header == old(dw.header)
    ensures KeepsBelow(old(dw.fp.data), dw.fp.data, old(dw.offset))
    ensures var w := Window(fin, s.rva, s.size);
            Memory64Of(ml, d64, w).Failure? ==>
              r.Failure? && dw.dir == old(dw.dir) && dw.offset == old(dw.offset) && dw.fp.data == old(dw.fp.data)
    ensures var w := Window(fin, s.rva, s.size);
            Memory64Of(ml, d64, w).Success? ==>
              hd == Memory64Of(ml, d64, w).value &&
              dw.offset == AlignUp(old(dw.offset)) + s.size &&
              (r.Failure? ==>
                 KeptListBytes(ml, d64, hd, dw.offset).Failure? && dw.fp.data == old(dw.fp.data) &&
                 dw.dir == old(dw.dir) + [Entry(Memory64ListStream, s.size, AlignUp(old(dw.offset)))])
    ensures r.Success? ==>
              KeptEmitted(dw.fp.data, dw.dir, dw.offset, old(dw.offset), old(dw.dir), fin, ml, d64, s.size, hd)
  {
    var sp := new Substream(fin, s.rva, s.size);
    var rd := ReadMemory64(ml, d64, sp);
    hd := if rd.Success? then rd.value else Headed(Struct([], []), []);
    if rd.Failure? {
      return Failure(rd.error), hd;
    }
    r := WriteKeptList(dw, fin, ml, d64, s.size, rd.value, sp.Contents());
  }

  /** The Memory64 branch after its list is read from the window `w`. */
  method WriteKeptList(dw: DumpWriter, fin: seq<byte>, ml: Layout, d64: Layout, space: nat, hd: Headed,
                       ghost w: seq<byte>)
    returns (r: Result<()>)
    requires dw.Valid() && Memory64Of(ml, d64, w) == Success(hd) && |w| <= space
    modifies dw, dw.fp
    ensures dw.Valid() && dw.header == old(dw.header)
    ensures KeepsBelow(old(dw.fp.data), dw.fp.data, old(dw.offset))
    ensures dw.offset == AlignUp(old(dw.offset)) + space
    ensures r.Failure? ==>
              KeptListBytes(ml, d64, hd, dw.offset).Failure? && dw.fp.data == old(dw.fp.data) &&
              dw.dir == old(dw.dir) + [Entry(Memory64ListStream, space, AlignUp(old(dw.offset)))]
    ensures r.Success? ==>
              KeptEmitted(dw.fp.data, dw.dir, dw.offset, old(dw.offset), old(dw.dir), fin, ml, d64, space, hd)
  {
    AlignUpAbove(dw.offset);
    var idx := dw.AddStreamPlaceholder(Memory64ListStream, space);
    var data := KeptListBytes(ml, d64, hd, dw.offset);
    if data.Failure? {
      return Failure(data.error);
    }
    Memory64Pack(ml, d64, w, hd, dw.offset);
    FillKeptList(dw, idx, data.value, fin, ml, d64, space, hd, old(dw.offset), old(dw.dir));
    r := Success(());
  }

  /** `dw.set_stream(o, ...)`, then `fout.seek(dw.current_size())` and the
      copy loop reading on from the old `BaseRva`. */
  method FillKeptList(dw: DumpWriter, idx: nat, data: seq<byte>, fin: seq<byte>, ghost ml: Layout,
                      ghost d64: Layout, ghost space: nat, hd: Headed, ghost o: nat, ghost dir0: seq<Entry>)
    requires dw.Valid() && idx == |dir0| && o <= AlignUp(o)
    requires dw.dir == dir0 + [Entry(Memory64ListStream, space, AlignUp(o))]
    requires dw.offset == AlignUp(o) + space
    requires KeptListBytes(ml, d64, hd, dw.offset) == Success(data) && |data| <= space
    modifies dw, dw.fp
    ensures dw.Valid() && dw.header == old(dw.header) && dw.offset == old(dw.offset)
    ensures KeepsBelow(old(dw.fp.data), dw.fp.data, o)
    ensures KeptEmitted(dw.fp.data, dw.dir, dw.offset, o, dir0, fin, ml, d64, space, hd)
  {
    ghost var f0, at := dw.fp.data, AlignUp(o);
    assert dw.dir[idx].rva == at;
    dw.SetStream(idx, data);
    ghost var f1 := dw.fp.data;
    dw.fp.Seek(dw.offset);
    CopyRanges(dw.fp, fin, Num(hd.header, Mem64BaseRva), hd.entries);
    WrittenInTurn(f0, f1, dw.fp.data, o, at, data, dw.offset,
                  FileRead(fin, Num(hd.header, Mem64BaseRva), TotalDataSize(hd.entries)));
  }

  /** The list written at `at` and then the memory at `base`, past the
      list: both are found where they were written, and what lay below
      `o` is kept. */
  lemma WrittenInTurn(f0: seq<byte>, f1: seq<byte>, f2: seq<byte>, o: nat, at: nat, data: seq<byte>,
                      base: nat, pay: seq<byte>)
    requires o <= at && at + |data| <= base
    requires f1 == Patch(f0, at, data) && f2 == Patch(f1, base, pay)
    ensures Holds(f2, at, data) && Holds(f2, base, pay) && KeepsBelow(f0, f2, o)
  {
    HoldsWritten(f0, at, data);
    HoldsWritten(f1, base, pay);
    PatchKeepsBelow(f1, base, pay);
    HoldsKept(f1, f2, base, at, data);
    PatchKeepsBelowFrom(f0, o, at, data);
    PatchKeepsBelowFrom(f1, o, base, pay);
    KeepsBelowTrans(f0, f1, f2, o, o);
  }
}
