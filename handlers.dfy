/** The per-kind stream handlers of `fulldumpize` (full-dumpize.py): each
    reads one stream of the input dump through a window, relocates the
    out-of-band data its records refer to, and adds the rewritten stream
    to the writer. The record layouts come in as parameters; the driver
    passes the MINIDUMP ones. */
module Handlers {
  import opened Bytes
  import opened Wrappers
  import opened Codec
  import opened Records
  import opened Streams
  import opened Writer
  import opened Strings
  import opened Relocate
  import opened Reader

  /** A write at or past `p` keeps what lies below `p`. */
  lemma PatchKeepsBelowFrom(f: seq<byte>, p: nat, q: nat, c: seq<byte>)
    requires p <= q
    ensures KeepsBelow(f, Patch(f, q, c), p)
  {
    PatchKeepsBelow(f, q, c);
  }

  lemma AlignUpAbove(o: nat)
    ensures o <= AlignUp(o)
  {
    AlignUpLeast(o);
  }

  lemma KeepsBelowLower(f0: seq<byte>, f1: seq<byte>, p: nat, q: nat)
    requires KeepsBelow(f0, f1, p) && q <= p
    ensures KeepsBelow(f0, f1, q)
  {
  }

  /** `dw.add_stream(s.kind, s.fp)`: the window's bytes, copied unchanged
      into a stream of the same kind. */
  method PassThrough(dw: DumpWriter, fin: seq<byte>, s: StreamRef)
    requires dw.Valid()
    modifies dw, dw.fp
    ensures dw.Valid() && dw.header == old(dw.header)
    ensures KeepsBelow(old(dw.fp.data), dw.fp.data, old(dw.offset))
    ensures var w, at := Window(fin, s.rva, s.size), AlignUp(old(dw.offset));
            dw.dir == old(dw.dir) + [Entry(s.kind, |w|, at)] &&
            dw.fp.data == Patch(old(dw.fp.data), at, w) &&
            Holds(dw.fp.data, at, w)
  {
    var sp := new Substream(fin, s.rva, s.size);
    var data := sp.Read(None);
    assert data == Window(fin, s.rva, s.size);
    AlignUpLeast(dw.offset);
    PatchKeepsBelowFrom(dw.fp.data, dw.offset, AlignUp(dw.offset), data);
    HoldsWritten(dw.fp.data, AlignUp(dw.offset), data);
    var _ := dw.AddStream(s.kind, data);
  }

  /** The records of a counted list: a 32-bit count at the front of the
      window, then that many records from offset 4. */
  function CountedRecords(l: Layout, w: seq<byte>): Result<seq<Struct>> {
    if |w| < 4 then Failure(MalformedRecord) else RecordsAt(l, w, 4, FromLE(w[..4]))
  }

  /** A counted list whose records all decode fits a count that fits 32
      bits, and every record is valid without trailing bytes. */
  lemma CountedRecordsFacts(l: Layout, w: seq<byte>)
    requires CountedRecords(l, w).Success?
    ensures |CountedRecords(l, w).value| < 0x1_0000_0000
    ensures forall k :: 0 <= k < |CountedRecords(l, w).value| ==>
              Valid(l, CountedRecords(l, w).value[k]) && CountedRecords(l, w).value[k].extra == []
  {
    Pow256Four();
    RecordsAtValid(l, w, 4, FromLE(w[..4]));
  }

  /** `n, = read_struct(s.fp, '<I')` then `l.read(s.fp, 4, n)` on a fresh
      window. */
  method ReadCounted(l: Layout, fp: Substream) returns (r: Result<seq<Struct>>)
    requires fp.Valid() && fp.pos == 0
    modifies fp
    ensures r == CountedRecords(l, fp.Contents())
  {
    ghost var w := fp.Contents();
    var n := ReadU32(fp);
    if n.Failure? {
      return Failure(n.error);
    }
    assert w[..4] == FileRead(w, 0, 4);
    r := ReadRecords(l, fp, Some(4), n.value);
  }

  /** Relocation changes no record's trailing bytes. */
  lemma RelocatedExtra(fin: seq<byte>, f: seq<byte>, lo: nat, hi: nat, recs: seq<Struct>, refs: seq<Ref>,
                       nexts: seq<seq<Member>>, out: seq<Struct>)
    requires Relocated(fin, f, lo, hi, recs, refs, nexts, out)
    ensures forall k :: 0 <= k < |out| ==> out[k].extra == recs[k].extra
  {
    forall k | 0 <= k < |out| ensures out[k].extra == recs[k].extra {
      assert out[k] == SetAll(recs[k], refs, nexts[k]);
    }
  }

  /** The thread list and module list handlers: read the count and the
      records, reserve `4 + size * n` bytes, relocate what each record
      refers to (`refs`), and write the count and the rewritten records
      into the reservation, which they fill exactly. */
  method HandleCounted(dw: DumpWriter, fin: seq<byte>, s: StreamRef, l: Layout, refs: seq<Ref>)
    returns (r: Result<()>, ghost recs: seq<Struct>, ghost nexts: seq<seq<Member>>, ghost out: seq<Struct>)
    requires dw.Valid() && Distinct(refs)
    modifies dw, dw.fp
    ensures dw.Valid() && dw.header == old(dw.header)
    ensures KeepsBelow(old(dw.fp.data), dw.fp.data, old(dw.offset))
    ensures var w := Window(fin, s.rva, s.size);
            CountedRecords(l, w).Failure? ==> r.Failure? && dw.dir == old(dw.dir) && dw.offset == old(dw.offset)
    ensures CountedRecords(l, Window(fin, s.rva, s.size)).Success? ==>
              recs == CountedRecords(l, Window(fin, s.rva, s.size)).value &&
              (AllRelocatable(fin, recs, refs) ==>
                 Relocated(fin, dw.fp.data, AlignUp(old(dw.offset)) + (4 + Mul(|recs|, Size(l))), dw.offset,
                           recs, refs, nexts, out)) &&
              (r.Success? <==> AllRelocatable(fin, recs, refs) && PackAll(l, out).Success?)
    ensures r.Success? ==> CountedEmitted(dw.fp.data, dw.dir, dw.offset, old(dw.offset), old(dw.dir), fin, s.kind, l, recs, refs, nexts, out)
  {
    var sp := new Substream(fin, s.rva, s.size);
    var rs := ReadCounted(l, sp);
    recs := if rs.Success? then rs.value else [];
    if rs.Failure? {
      return Failure(rs.error), recs, [], [];
    }
    CountedRecordsFacts(l, sp.Contents());
    r, nexts, out := EmitCounted(dw, fin, s.kind, l, rs.value, refs);
  }

  /** What a counted-list handler leaves behind in the file `f`, the
      directory `dir` and at the cursor `offset`: one new entry of the kind,
      at the aligned cursor `o` it started from, sized `4 + size * n` and
      holding the count and the packed rewritten records; the relocated
      copies lie after the entry. */
  ghost predicate CountedEmitted(f: seq<byte>, dir: seq<Entry>, offset: nat, o: nat, dir0: seq<Entry>,
                                 fin: seq<byte>, kind: nat, l: Layout,
                                 recs: seq<Struct>, refs: seq<Ref>, nexts: seq<seq<Member>>, out: seq<Struct>)
  {
    var at, size := AlignUp(o), 4 + |recs| * Size(l);
    Relocated(fin, f, at + size, offset, recs, refs, nexts, out) &&
    PackAll(l, out).Success? && |recs| < 0x1_0000_0000 &&
    var data := LE32(|recs|) + PackAll(l, out).value;
    |data| == size &&
    dir == dir0 + [Entry(kind, size, at)] &&
    Holds(f, at, data)
  }

  lemma CountedEmittedIntro(f: seq<byte>, dir: seq<Entry>, offset: nat, o: nat, dir0: seq<Entry>,
                            fin: seq<byte>, kind: nat, l: Layout,
                            recs: seq<Struct>, refs: seq<Ref>, nexts: seq<seq<Member>>, out: seq<Struct>,
                            body: seq<byte>)
    requires Relocated(fin, f, AlignUp(o) + (4 + Mul(|recs|, Size(l))), offset, recs, refs, nexts, out)
    requires PackAll(l, out) == Success(body) && |recs| < 0x1_0000_0000
    requires |LE32(|recs|) + body| == 4 + Mul(|recs|, Size(l))
    requires dir == dir0 + [Entry(kind, 4 + Mul(|recs|, Size(l)), AlignUp(o))]
    requires Holds(f, AlignUp(o), LE32(|recs|) + body)
    ensures CountedEmitted(f, dir, offset, o, dir0, fin, kind, l, recs, refs, nexts, out)
  {
  }

  /** Reserve, relocate, pack and fill, for records already read. */
  method EmitCounted(dw: DumpWriter, fin: seq<byte>, kind: nat, l: Layout, recs: seq<Struct>, refs: seq<Ref>)
    returns (r: Result<()>, ghost nexts: seq<seq<Member>>, ghost out: seq<Struct>)
    requires dw.Valid() && Distinct(refs) && |recs| < 0x1_0000_0000
    requires forall k :: 0 <= k < |recs| ==> recs[k].extra == []
    modifies dw, dw.fp
    ensures dw.Valid() && dw.header == old(dw.header)
    ensures KeepsBelow(old(dw.fp.data), dw.fp.data, old(dw.offset))
    ensures AllRelocatable(fin, recs, refs) ==>
              Relocated(fin, dw.fp.data, AlignUp(old(dw.offset)) + (4 + Mul(|recs|, Size(l))), dw.offset,
                        recs, refs, nexts, out)
    ensures r.Success? <==> AllRelocatable(fin, recs, refs) && PackAll(l, out).Success?
    ensures r.Success? ==> CountedEmitted(dw.fp.data, dw.dir, dw.offset, old(dw.offset), old(dw.dir), fin, kind, l, recs, refs, nexts, out)
  {
    var size := 4 + Mul(|recs|, Size(l));
    var moved, ns, idx := ReserveAndRelocate(dw, fin, kind, size, recs, refs);
    nexts := ns;
    out := if moved.Success? then moved.value else [];
    if moved.Failure? {
      return Failure(moved.error), nexts, out;
    }
    var body := PackAll(l, moved.value);
    if body.Failure? {
      return Failure(body.error), nexts, out;
    }
    CountedDataSize(fin, dw.fp.data, AlignUp(old(dw.offset)) + size, dw.offset, l, recs, refs, nexts, out, body.value);
    FillCounted(dw, idx, body.value, fin, kind, l, recs, refs, nexts, out,
                old(dw.offset), old(dw.dir), old(dw.fp.data), size);
    r := Success(());
  }

  /** `dw.set_stream(o, data)` of a counted list: the count and the packed
      records go into the reservation made at the aligned cursor `o`. */
  method FillCounted(dw: DumpWriter, idx: nat, body: seq<byte>, ghost fin: seq<byte>, ghost kind: nat,
                     ghost l: Layout, recs: seq<Struct>, ghost refs: seq<Ref>,
                     ghost nexts: seq<seq<Member>>, ghost out: seq<Struct>,
                     ghost o: nat, ghost dir0: seq<Entry>, ghost f0: seq<byte>, ghost size: nat)
    requires |recs| < 0x1_0000_0000 && size == 4 + |recs| * Size(l) && |LE32(|recs|) + body| == size
    requires dw.Valid() && idx == |dir0| && dw.dir == dir0 + [Entry(kind, size, AlignUp(o))]
    requires o <= AlignUp(o) && AlignUp(o) + size <= dw.offset && KeepsBelow(f0, dw.fp.data, AlignUp(o) + size)
    requires Relocated(fin, dw.fp.data, AlignUp(o) + size, dw.offset, recs, refs, nexts, out)
    requires PackAll(l, out) == Success(body)
    modifies dw, dw.fp
    ensures dw.Valid() && dw.header == old(dw.header)
    ensures KeepsBelow(f0, dw.fp.data, o)
    ensures CountedEmitted(dw.fp.data, dw.dir, dw.offset, o, dir0, fin, kind, l, recs, refs, nexts, out)
  {
    ghost var f1 := dw.fp.data;
    FillReserved(dw, idx, LE32(|recs|) + body, fin, AlignUp(o) + size, recs, refs, nexts, out);
    FilledKeeps(f0, f1, dw.fp.data, o, AlignUp(o), AlignUp(o) + size);
    CountedEmittedIntro(dw.fp.data, dw.dir, dw.offset, o, dir0, fin, kind, l, recs, refs, nexts, out, body);
  }

  /** The count and the packed records fill the `4 + size * n` bytes
      reserved. */
  lemma CountedDataSize(fin: seq<byte>, f: seq<byte>, lo: nat, hi: nat, l: Layout, recs: seq<Struct>,
                        refs: seq<Ref>, nexts: seq<seq<Member>>, out: seq<Struct>, body: seq<byte>)
    requires Relocated(fin, f, lo, hi, recs, refs, nexts, out) && PackAll(l, out) == Success(body)
    requires |recs| < 0x1_0000_0000 && forall k :: 0 <= k < |recs| ==> recs[k].extra == []
    ensures |LE32(|recs|) + body| == 4 + |recs| * Size(l)
  {
    RelocatedExtra(fin, f, lo, hi, recs, refs, nexts, out);
    PackAllSize(l, out);
  }

  /** `o = dw.add_stream_placeholder(kind, space)`, then the references of
      the records relocated to copies after the reservation. */
  method ReserveAndRelocate(dw: DumpWriter, fin: seq<byte>, kind: nat, space: nat, recs: seq<Struct>, refs: seq<Ref>)
    returns (moved: Result<seq<Struct>>, ghost nexts: seq<seq<Member>>, idx: nat)
    requires dw.Valid() && Distinct(refs)
    modifies dw, dw.fp
    ensures dw.Valid() && dw.header == old(dw.header)
    ensures idx == |old(dw.dir)| && dw.dir == old(dw.dir) + [Entry(kind, space, AlignUp(old(dw.offset)))]
    ensures old(dw.offset) <= AlignUp(old(dw.offset)) && AlignUp(old(dw.offset)) + space <= dw.offset
    ensures KeepsBelow(old(dw.fp.data), dw.fp.data, AlignUp(old(dw.offset)) + space)
    ensures moved.Success? <==> AllRelocatable(fin, recs, refs)
    ensures moved.Success? ==>
              Relocated(fin, dw.fp.data, AlignUp(old(dw.offset)) + space, dw.offset, recs, refs, nexts, moved.value)
  {
    idx := dw.AddStreamPlaceholder(kind, space);
    AlignUpAbove(old(dw.offset));
    moved, nexts := RelocateRecords(dw, fin, recs, refs);
  }

  /** The bytes below `o` survive the copies (above `lo`) and the fill (at
      `at`, from `o` on). */
  lemma FilledKeeps(f0: seq<byte>, f1: seq<byte>, f2: seq<byte>, o: nat, at: nat, lo: nat)
    requires o <= at <= lo && KeepsBelow(f0, f1, lo) && KeepsBelow(f1, f2, at)
    ensures KeepsBelow(f0, f2, o)
  {
    KeepsBelowLower(f0, f1, lo, o);
    KeepsBelowLower(f1, f2, at, o);
    KeepsBelowTrans(f0, f1, f2, o, o);
  }

  /** `dw.set_stream(o, data)` for the entry just reserved, after the
      out-of-band copies: the copies survive, the data is in place, and
      the earlier file contents below the entry are kept. */
  method FillReserved(dw: DumpWriter, idx: nat, data: seq<byte>, ghost fin: seq<byte>, ghost lo: nat,
                      ghost recs: seq<Struct>, ghost refs: seq<Ref>, ghost nexts: seq<seq<Member>>,
                      ghost out: seq<Struct>)
    requires dw.Valid() && idx < |dw.dir| && |data| <= dw.dir[idx].size
    requires dw.dir[idx].rva + dw.dir[idx].size <= lo
    requires Relocated(fin, dw.fp.data, lo, dw.offset, recs, refs, nexts, out)
    modifies dw, dw.fp
    ensures dw.Valid() && dw.header == old(dw.header) && dw.offset == old(dw.offset)
    ensures dw.dir == old(dw.dir)[idx := old(dw.dir[idx]).(size := |data|)]
    ensures dw.fp.data == Patch(old(dw.fp.data), old(dw.dir[idx].rva), data)
    ensures Relocated(fin, dw.fp.data, lo, dw.offset, recs, refs, nexts, out)
    ensures Holds(dw.fp.data, old(dw.dir[idx].rva), data)
    ensures KeepsBelow(old(dw.fp.data), dw.fp.data, old(dw.dir[idx].rva))
  {
    ghost var f1, at := dw.fp.data, dw.dir[idx].rva;
    dw.SetStream(idx, data);
    RelocatedPatchBelow(fin, f1, lo, dw.offset, recs, refs, nexts, out, at, data);
    HoldsWritten(f1, at, data);
    PatchKeepsBelow(f1, at, data);
  }

  // ------------------------------------------ streams with a header record

  /** A header record and the entry records that follow it. */
  datatype Headed = Headed(header: Struct, entries: seq<Struct>)

  /** The handle data stream of a window `w` of `size` bytes: the header at
      offset 0; no stream at all (`None`) when its `SizeOfDescriptor` is not
      the descriptor size; else `NumberOfDescriptors` descriptors from
      `SizeOfHeader` on. */
  function HandleDataOf(hl: Layout, dl: Layout, w: seq<byte>, size: nat): Result<Option<Headed>> {
    var hb := FileRead(w, 0, Size(hl));
    if |hb| != Size(hl) then Failure(MalformedRecord)
    else
      var h := Decode(hl, hb);
      if Num(h, HandleSizeOfDescriptor) != Size(dl) then Success(None)
      else
        var soh, n := Num(h, HandleSizeOfHeader), Num(h, HandleNumberOfDescriptors);
        var es := if soh > size && n > 0 then Failure(OutOfWindow) else RecordsAt(dl, w, soh, n);
        if es.Failure? then Failure(es.error) else Success(Some(Headed(h, es.value)))
  }

  /** The reads of the handle data handler on a fresh window. */
  method ReadHandleData(hl: Layout, dl: Layout, fp: Substream) returns (r: Result<Option<Headed>>)
    requires fp.Valid() && fp.pos == 0
    modifies fp
    ensures r == HandleDataOf(hl, dl, fp.Contents(), fp.size)
  {
    var h := ReadOne(hl, fp, Some(0));
    if h.Failure? {
      return Failure(h.error);
    }
    if Num(h.value, HandleSizeOfDescriptor) != Size(dl) {
      return Success(None);
    }
    var es := ReadRecords(dl, fp, Some(Num(h.value, HandleSizeOfHeader)), Num(h.value, HandleNumberOfDescriptors));
    if es.Failure? {
      return Failure(es.error);
    }
    r := Success(Some(Headed(h.value, es.value)));
  }

  /** The unloaded module list of a window `w` of `size` bytes: the header
      at offset 0, then from `SizeOfHeader` on, `NumberOfEntries` records
      each decoded with `unpack_all` from `SizeOfEntry` bytes. A header size
      beyond the window is a seek out of it, which matters only when there
      are entries to read. */
  function UnloadedOf(hl: Layout, el: Layout, w: seq<byte>, size: nat): Result<Headed> {
    var hb := FileRead(w, 0, Size(hl));
    if |hb| != Size(hl) then Failure(MalformedRecord)
    else
      var h := Decode(hl, hb);
      var soh, n := Num(h, UnloadedSizeOfHeader), Num(h, UnloadedNumberOfEntries);
      if soh > size && n > 0 then Failure(OutOfWindow)
      else
        var es := ReadAllFrom(el, w, soh, Num(h, UnloadedSizeOfEntry), n);
        if es.Failure? then Failure(es.error) else Success(Headed(h, es.value))
  }

  /** The reads of the unloaded module list handler on a fresh window. */
  method ReadUnloaded(hl: Layout, el: Layout, fp: Substream) returns (r: Result<Headed>)
    requires fp.Valid() && fp.pos == 0
    modifies fp
    ensures r == UnloadedOf(hl, el, fp.Contents(), fp.size)
  {
    var h := ReadOne(hl, fp, Some(0));
    if h.Failure? {
      return Failure(h.error);
    }
    var soh := Num(h.value, UnloadedSizeOfHeader);
    if soh > fp.size {
      if Num(h.value, UnloadedNumberOfEntries) > 0 {
        return Failure(OutOfWindow);
      }
      return Success(Headed(h.value, []));
    }
    fp.Seek(soh);
    var es := ReadEach(el, fp, Num(h.value, UnloadedSizeOfEntry), Num(h.value, UnloadedNumberOfEntries));
    if es.Failure? {
      return Failure(es.error);
    }
    r := Success(Headed(h.value, es.value));
  }

  /** The header and the rewritten entries, packed one after the other. */
  function HeadedBytes(hl: Layout, el: Layout, h: Struct, out: seq<Struct>): Result<seq<byte>> {
    match Pack(hl, h)
    case Failure(e) => Failure(e)
    case Success(hb) =>
      match PackAll(el, out)
      case Failure(e) => Failure(e)
      case Success(eb) => Success(hb + eb)
  }

  /** What a headed-stream handler leaves behind in the file `f`, the
      directory `dir` and at the cursor `offset`: one new entry of the kind
      at the aligned cursor `o` it started from, holding the header and the
      packed rewritten entries, which fit the `space` reserved; the
      relocated copies lie after the reservation. */
  ghost predicate HeadedEmitted(f: seq<byte>, dir: seq<Entry>, offset: nat, o: nat, dir0: seq<Entry>,
                                fin: seq<byte>, kind: nat, space: nat, hl: Layout, el: Layout, hd: Headed,
                                refs: seq<Ref>, nexts: seq<seq<Member>>, out: seq<Struct>)
  {
    var at := AlignUp(o);
    Relocated(fin, f, at + space, offset, hd.entries, refs, nexts, out) &&
    HeadedBytes(hl, el, hd.header, out).Success? &&
    var data := HeadedBytes(hl, el, hd.header, out).value;
    |data| <= space &&
    dir == dir0 + [Entry(kind, |data|, at)] &&
    Holds(f, at, data)
  }

  lemma HeadedEmittedIntro(f: seq<byte>, dir: seq<Entry>, offset: nat, o: nat, dir0: seq<Entry>,
                           fin: seq<byte>, kind: nat, space: nat, hl: Layout, el: Layout, hd: Headed,
                           refs: seq<Ref>, nexts: seq<seq<Member>>, out: seq<Struct>, data: seq<byte>)
    requires Relocated(fin, f, AlignUp(o) + space, offset, hd.entries, refs, nexts, out)
    requires HeadedBytes(hl, el, hd.header, out) == Success(data) && |data| <= space
    requires dir == dir0 + [Entry(kind, |data|, AlignUp(o))] && Holds(f, AlignUp(o), data)
    ensures HeadedEmitted(f, dir, offset, o, dir0, fin, kind, space, hl, el, hd, refs, nexts, out)
  {
  }

  /** Reserve `space`, relocate, pack the header and entries, and fill: the
      data must fit the reservation (the assertion in `set_stream`). */
  method EmitHeaded(dw: DumpWriter, fin: seq<byte>, kind: nat, space: nat, hl: Layout, el: Layout, hd: Headed,
                    refs: seq<Ref>)
    returns (r: Result<()>, ghost nexts: seq<seq<Member>>, ghost out: seq<Struct>)
    requires dw.Valid() && Distinct(refs)
    modifies dw, dw.fp
    ensures dw.Valid() && dw.header == old(dw.header)
    ensures KeepsBelow(old(dw.fp.data), dw.fp.data, old(dw.offset))
    ensures AllRelocatable(fin, hd.entries, refs) ==>
              Relocated(fin, dw.fp.data, AlignUp(old(dw.offset)) + space, dw.offset, hd.entries, refs, nexts, out)
    ensures r.Success? <==>
              AllRelocatable(fin, hd.entries, refs) && HeadedBytes(hl, el, hd.header, out).Success? &&
              |HeadedBytes(hl, el, hd.header, out).value| <= space
    ensures r.Success? ==>
              HeadedEmitted(dw.fp.data, dw.dir, dw.offset, old(dw.offset), old(dw.dir), fin, kind, space,
                            hl, el, hd, refs, nexts, out)
  {
    var moved, ns, idx := ReserveAndRelocate(dw, fin, kind, space, hd.entries, refs);
    nexts := ns;
    out := if moved.Success? then moved.value else [];
    if moved.Failure? {
      return Failure(moved.error), nexts, out;
    }
    var data := HeadedBytes(hl, el, hd.header, moved.value);
    if data.Failure? {
      return Failure(data.error), nexts, out;
    }
    if |data.value| > space {
      return Failure(OversizeWrite), nexts, out;
    }
    FillHeaded(dw, idx, data.value, fin, kind, space, hl, el, hd, refs, nexts, out,
               old(dw.offset), old(dw.dir), old(dw.fp.data));
    r := Success(());
  }

  /** `dw.set_stream(o, data)` of a headed stream: the header and entries
      go into the reservation made at the aligned cursor `o`. */
  method FillHeaded(dw: DumpWriter, idx: nat, data: seq<byte>, ghost fin: seq<byte>, ghost kind: nat,
                    ghost space: nat, ghost hl: Layout, ghost el: Layout, ghost hd: Headed, ghost refs: seq<Ref>,
                    ghost nexts: seq<seq<Member>>, ghost out: seq<Struct>,
                    ghost o: nat, ghost dir0: seq<Entry>, ghost f0: seq<byte>)
    requires dw.Valid() && idx == |dir0| && dw.dir == dir0 + [Entry(kind, space, AlignUp(o))]
    requires o <= AlignUp(o) && AlignUp(o) + space <= dw.offset && KeepsBelow(f0, dw.fp.data, AlignUp(o) + space)
    requires Relocated(fin, dw.fp.data, AlignUp(o) + space, dw.offset, hd.entries, refs, nexts, out)
    requires HeadedBytes(hl, el, hd.header, out) == Success(data) && |data| <= space
    modifies dw, dw.fp
    ensures dw.Valid() && dw.header == old(dw.header)
    ensures KeepsBelow(f0, dw.fp.data, o)
    ensures HeadedEmitted(dw.fp.data, dw.dir, dw.offset, o, dir0, fin, kind, space, hl, el, hd, refs, nexts, out)
  {
    ghost var f1, lo := dw.fp.data, AlignUp(o) + space;
    FillReserved(dw, idx, data, fin, lo, hd.entries, refs, nexts, out);
    FilledKeeps(f0, f1, dw.fp.data, o, AlignUp(o), lo);
    HeadedEmittedIntro(dw.fp.data, dw.dir, dw.offset, o, dir0, fin, kind, space, hl, el, hd, refs, nexts, out, data);
  }

  /** The handle data handler: a stream whose descriptor size is not the
      expected one is dropped (no directory entry, nothing written);
      otherwise the type and object names of every descriptor are
      relocated, and the header and descriptors go into a reservation of
      the input stream's size. */
  method HandleHandleData(dw: DumpWriter, fin: seq<byte>, s: StreamRef, hl: Layout, dl: Layout)
    returns (r: Result<bool>, ghost hd: Headed, ghost nexts: seq<seq<Member>>, ghost out: seq<Struct>)
    requires dw.Valid()
    modifies dw, dw.fp
    ensures dw.Valid() && dw.header == old(dw.header)
    ensures KeepsBelow(old(dw.fp.data), dw.fp.data, old(dw.offset))
    ensures var got := HandleDataOf(hl, dl, Window(fin, s.rva, s.size), s.size);
            (got.Failure? ==> r.Failure?) &&
            (got == Success(None) ==>
               r == Success(false) && dw.dir == old(dw.dir) && dw.offset == old(dw.offset) &&
               dw.fp.data == old(dw.fp.data)) &&
            (got.Success? && got.value.Some? ==>
               hd == got.value.value &&
               (AllRelocatable(fin, hd.entries, HandleRefs) ==>
                  Relocated(fin, dw.fp.data, AlignUp(old(dw.offset)) + s.size, dw.offset, hd.entries, HandleRefs, nexts, out)) &&
               (r.Success? <==>
                  AllRelocatable(fin, hd.entries, HandleRefs) && HeadedBytes(hl, dl, hd.header, out).Success? &&
                  |HeadedBytes(hl, dl, hd.header, out).value| <= s.size))
    ensures r == Success(false) ==> HandleDataOf(hl, dl, Window(fin, s.rva, s.size), s.size) == Success(None)
    ensures r == Success(true) ==>
              HeadedEmitted(dw.fp.data, dw.dir, dw.offset, old(dw.offset), old(dw.dir), fin, s.kind, s.size,
                            hl, dl, hd, HandleRefs, nexts, out)
  {
    var sp := new Substream(fin, s.rva, s.size);
    var got := ReadHandleData(hl, dl, sp);
    hd := Headed(Loc(0, 0), []);
    if got.Failure? {
      return Failure(got.error), hd, [], [];
    }
    if got.value.None? {
      return Success(false), hd, [], [];
    }
    hd := got.value.value;
    var e;
    e, nexts, out := EmitHeaded(dw, fin, s.kind, s.size, hl, dl, got.value.value, HandleRefs);
    if e.Failure? {
      return Failure(e.error), hd, nexts, out;
    }
    r := Success(true);
  }

  /** The names a handle descriptor refers to. */
  const HandleRefs: seq<Ref> := [StrRef(Top(HandleTypeNameRva)), StrRef(Top(HandleObjectNameRva))]

  /** The name an unloaded module record refers to. */
  const UnloadedRefs: seq<Ref> := [StrRef(Top(UnloadedModuleNameRva))]

  /** The unloaded module list handler: every module name is relocated, and
      the header and rewritten records go into a reservation of the input
      stream's size. */
  method HandleUnloaded(dw: DumpWriter, fin: seq<byte>, s: StreamRef, hl: Layout, el: Layout)
    returns (r: Result<()>, ghost hd: Headed, ghost nexts: seq<seq<Member>>, ghost out: seq<Struct>)
    requires dw.Valid()
    modifies dw, dw.fp
    ensures dw.Valid() && dw.header == old(dw.header)
    ensures KeepsBelow(old(dw.fp.data), dw.fp.data, old(dw.offset))
    ensures var got := UnloadedOf(hl, el, Window(fin, s.rva, s.size), s.size);
            (got.Failure? ==> r.Failure? && dw.dir == old(dw.dir) && dw.offset == old(dw.offset)) &&
            (got.Success? ==>
               hd == got.value &&
               (AllRelocatable(fin, hd.entries, UnloadedRefs) ==>
                  Relocated(fin, dw.fp.data, AlignUp(old(dw.offset)) + s.size, dw.offset, hd.entries, UnloadedRefs, nexts, out)) &&
               (r.Success? <==>
                  AllRelocatable(fin, hd.entries, UnloadedRefs) && HeadedBytes(hl, el, hd.header, out).Success? &&
                  |HeadedBytes(hl, el, hd.header, out).value| <= s.size))
    ensures r.Success? ==>
              HeadedEmitted(dw.fp.data, dw.dir, dw.offset, old(dw.offset), old(dw.dir), fin, s.kind, s.size,
                            hl, el, hd, UnloadedRefs, nexts, out)
  {
    var sp := new Substream(fin, s.rva, s.size);
    var got := ReadUnloaded(hl, el, sp);
    hd := Headed(Loc(0, 0), []);
    if got.Failure? {
      return Failure(got.error), hd, [], [];
    }
    hd := got.value;
    r, nexts, out := EmitHeaded(dw, fin, s.kind, s.size, hl, el, got.value, UnloadedRefs);
  }

  // ------------------------------------------------------ system information

  /** The service pack string the system information record refers to. */
  const SystemInfoRefs: seq<Ref> := [StrRef(Top(SystemInfoCSDVersionRva))]

  /** What the system information handler leaves behind in the file `f`
      and the directory `dir`: the record with its references relocated to
      copies between the cursor `o` it started from and the new entry at
      `at`, which holds the packed record. */
  ghost predicate SingleEmitted(f: seq<byte>, dir: seq<Entry>, o: nat, dir0: seq<Entry>, fin: seq<byte>,
                                kind: nat, l: Layout, rec: Struct, refs: seq<Ref>, nexts: seq<Member>,
                                out: Struct, at: nat)
  {
    |nexts| == |refs| && out == SetAll(rec, refs, nexts) &&
    o <= at && AllFresh(fin, f, o, at, rec, refs, nexts) &&
    Pack(l, out).Success? &&
    dir == dir0 + [Entry(kind, |Pack(l, out).value|, at)] &&
    Holds(f, at, Pack(l, out).value)
  }

  lemma SingleEmittedIntro(f: seq<byte>, dir: seq<Entry>, o: nat, dir0: seq<Entry>, fin: seq<byte>,
                           kind: nat, l: Layout, rec: Struct, refs: seq<Ref>, nexts: seq<Member>,
                           out: Struct, at: nat, data: seq<byte>)
    requires |nexts| == |refs| && out == SetAll(rec, refs, nexts)
    requires o <= at && AllFresh(fin, f, o, at, rec, refs, nexts)
    requires Pack(l, out) == Success(data)
    requires dir == dir0 + [Entry(kind, |data|, at)] && Holds(f, at, data)
    ensures SingleEmitted(f, dir, o, dir0, fin, kind, l, rec, refs, nexts, out, at)
  {
  }

  /** The system information handler: the whole window decoded with
      `unpack_all`, its service pack string relocated, and the record added
      as a new stream after the copy. */
  method HandleSystemInfo(dw: DumpWriter, fin: seq<byte>, s: StreamRef, l: Layout)
    returns (r: Result<()>, ghost si: Struct, ghost nexts: seq<Member>, ghost out: Struct, ghost at: nat)
    requires dw.Valid()
    modifies dw, dw.fp
    ensures dw.Valid() && dw.header == old(dw.header)
    ensures KeepsBelow(old(dw.fp.data), dw.fp.data, old(dw.offset))
    ensures var got := UnpackAll(l, Window(fin, s.rva, s.size));
            (got.Failure? ==> r.Failure? && dw.dir == old(dw.dir) && dw.offset == old(dw.offset)) &&
            (got.Success? ==>
               si == got.value &&
               (RecordRelocatable(fin, si, SystemInfoRefs) ==>
                  RecordRelocated(fin, dw.fp.data, old(dw.offset), at, si, SystemInfoRefs, nexts, out)) &&
               (r.Success? <==> RecordRelocatable(fin, si, SystemInfoRefs) && Pack(l, out).Success?))
    ensures r.Success? ==>
              SingleEmitted(dw.fp.data, dw.dir, old(dw.offset), old(dw.dir), fin, s.kind, l,
                            si, SystemInfoRefs, nexts, out, at)
  {
    var sp := new Substream(fin, s.rva, s.size);
    var buf := sp.Read(None);
    assert buf == Window(fin, s.rva, s.size);
    var got := UnpackAll(l, buf);
    si, nexts, out, at := Loc(0, 0), [], Loc(0, 0), 0;
    if got.Failure? {
      return Failure(got.error), si, nexts, out, at;
    }
    si := got.value;
    ghost var f0 := dw.fp.data;
    var moved, ns := RelocateRecord(dw, fin, got.value, SystemInfoRefs);
    nexts := ns;
    out := if moved.Success? then moved.value else si;
    if moved.Failure? {
      return Failure(moved.error), si, nexts, out, at;
    }
    var data := Pack(l, moved.value);
    if data.Failure? {
      return Failure(data.error), si, nexts, out, dw.offset;
    }
    ghost var f1, hi := dw.fp.data, dw.offset;
    at := AlignUp(dw.offset);
    AlignUpAbove(hi);
    PatchKeepsBelowFrom(f1, hi, at, data.value);
    HoldsWritten(f1, at, data.value);
    var _ := dw.AddStream(s.kind, data.value);
    AllFreshMono(fin, f1, dw.fp.data, old(dw.offset), hi, at, si, SystemInfoRefs, nexts);
    KeepsBelowLower(f1, dw.fp.data, hi, old(dw.offset));
    KeepsBelowTrans(f0, f1, dw.fp.data, old(dw.offset), old(dw.offset));
    SingleEmittedIntro(dw.fp.data, dw.dir, old(dw.offset), old(dw.dir), fin, s.kind, l,
                       si, SystemInfoRefs, nexts, out, at, data.value);
    r := Success(());
  }

  // ---------------------------------------------------- reading, then packing

  /** One more record packed after a list. */
  lemma PackAllSnoc(l: Layout, before: seq<Struct>, e: Struct, bb: seq<byte>, b: seq<byte>)
    requires PackAll(l, before) == Success(bb) && Pack(l, e) == Success(b)
    ensures PackAll(l, before + [e]) == Success(bb + b)
  {
    assert (before + [e])[..|before|] == before;
  }

  /** Decoded buffers packed again give back the buffers one after another. */
  lemma {:induction false} PackDecodeAll(l: Layout, ss: seq<seq<byte>>)
    requires forall j :: 0 <= j < |ss| ==> |ss[j]| == Size(l)
    ensures PackAll(l, DecodeAll(l, ss)) == Success(Concat(ss))
    decreases |ss|
  {
    if |ss| > 0 {
      var before, b := ss[..|ss| - 1], ss[|ss| - 1];
      assert ss == before + [b];
      PackDecodeAll(l, before);
      DecodeAllSnoc(l, before, b);
      DecodeFacts(l, b);
      PackAllSnoc(l, DecodeAll(l, before), Decode(l, b), Concat(before), b);
    }
  }

  /** Records read in a row and packed again unchanged give back the bytes
      they were read from. */
  lemma RecordsAtPack(l: Layout, w: seq<byte>, start: nat, cnt: nat)
    requires RecordsAt(l, w, start, cnt).Success?
    ensures PackAll(l, RecordsAt(l, w, start, cnt).value) == Success(FileRead(w, start, cnt * Size(l)))
  {
    RecordsAtSlices(l, w, start, cnt);
    var ss := Slices(w, start, Size(l), cnt).value;
    SlicesLength(w, start, Size(l), cnt);
    PackDecodeAll(l, ss);
    SlicesConcat(w, start, Size(l), cnt);
  }

  /** Records read by `unpack_all` in a row and packed again unchanged give
      back the bytes they were read from, trailing bytes included. */
  lemma {:induction false} ReadAllFromPack(l: Layout, w: seq<byte>, pos: nat, esz: nat, cnt: nat)
    requires ReadAllFrom(l, w, pos, esz, cnt).Success?
    ensures PackAll(l, ReadAllFrom(l, w, pos, esz, cnt).value) == Success(ReadBytes(w, pos, esz, cnt))
    decreases cnt
  {
    if cnt > 0 {
      var b := ReadAllFromLast(l, w, pos, esz, cnt);
      ReadAllFromPack(l, w, pos, esz, cnt - 1);
      PackAllSnoc(l, ReadAllFrom(l, w, pos, esz, cnt - 1).value, UnpackAll(l, b).value,
                  ReadBytes(w, pos, esz, cnt - 1), b);
    }
  }

  /** The last of `cnt` successful reads, which packs back to its bytes. */
  lemma ReadAllFromLast(l: Layout, w: seq<byte>, pos: nat, esz: nat, cnt: nat) returns (b: seq<byte>)
    requires cnt > 0 && ReadAllFrom(l, w, pos, esz, cnt).Success?
    ensures b == FileRead(w, After(w, pos, esz, cnt - 1), esz)
    ensures ReadAllFrom(l, w, pos, esz, cnt - 1).Success? && UnpackAll(l, b).Success?
    ensures ReadAllFrom(l, w, pos, esz, cnt).value == ReadAllFrom(l, w, pos, esz, cnt - 1).value + [UnpackAll(l, b).value]
    ensures Pack(l, UnpackAll(l, b).value) == Success(b)
  {
    b := FileRead(w, After(w, pos, esz, cnt - 1), esz);
    UnpackAllThenPack(l, b);
  }

  /** A thread or module list whose records all decode is, packed again
      unchanged, the records' bytes as read from offset 4 of the window... */
  lemma CountedPack(l: Layout, w: seq<byte>, recs: seq<Struct>)
    requires CountedRecords(l, w) == Success(recs)
    ensures PackAll(l, recs) == Success(FileRead(w, 4, |recs| * Size(l)))
  {
    RecordsAtPack(l, w, 4, FromLE(w[..4]));
  }

  /** ... after the count, which is that of the records and fits 32 bits. */
  lemma CountedCount(l: Layout, w: seq<byte>, recs: seq<Struct>)
    requires CountedRecords(l, w) == Success(recs)
    ensures |recs| < 0x1_0000_0000 && LE32(|recs|) == FileRead(w, 0, 4)
  {
    Pow256Four();
    LEOfFromLE(w[..4]);
  }

  /** An unloaded module list that reads, packed again unchanged, is the
      header's bytes and the entries' bytes as read. */
  lemma UnloadedPack(hl: Layout, el: Layout, w: seq<byte>, size: nat, hd: Headed)
    requires UnloadedOf(hl, el, w, size) == Success(hd)
    ensures HeadedBytes(hl, el, hd.header, hd.entries) ==
              Success(FileRead(w, 0, Size(hl)) +
                      FileRead(w, Num(hd.header, UnloadedSizeOfHeader),
                               Mul(Num(hd.header, UnloadedNumberOfEntries), Num(hd.header, UnloadedSizeOfEntry))))
  {
    var hb := FileRead(w, 0, Size(hl));
    DecodeFacts(hl, hb);
    var h := Decode(hl, hb);
    var soh, esz, n := Num(h, UnloadedSizeOfHeader), Num(h, UnloadedSizeOfEntry), Num(h, UnloadedNumberOfEntries);
    ReadAllFromPack(el, w, soh, esz, n);
    ReadBytesOneRead(w, soh, esz, n);
  }

  /** A handle data stream that reads, packed again unchanged, is the
      header's bytes and the descriptors' bytes as read. */
  lemma HandleDataPack(hl: Layout, dl: Layout, w: seq<byte>, size: nat, hd: Headed)
    requires HandleDataOf(hl, dl, w, size) == Success(Some(hd))
    ensures HeadedBytes(hl, dl, hd.header, hd.entries) ==
              Success(FileRead(w, 0, Size(hl)) +
                      FileRead(w, Num(hd.header, HandleSizeOfHeader), Mul(Num(hd.header, HandleNumberOfDescriptors), Size(dl))))
  {
    var hb := FileRead(w, 0, Size(hl));
    DecodeFacts(hl, hb);
    var h := Decode(hl, hb);
    RecordsAtPack(dl, w, Num(h, HandleSizeOfHeader), Num(h, HandleNumberOfDescriptors));
  }
}
