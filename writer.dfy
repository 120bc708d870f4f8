/** Writing a dump (`DumpWriter` of dmplib.py): a reserved header and
    directory at the front, streams placed at 8-byte aligned offsets behind
    them, out-of-band data appended at the cursor, and the header and
    directory written last. */
module Writer {
  import opened Bytes
  import opened Wrappers
  import opened Codec
  import opened Records

  /** The output file: its bytes and its write position. */
  class OutFile {
    var data: seq<byte>
    var pos: nat

    constructor ()
      ensures data == [] && pos == 0
    {
      data := [];
      pos := 0;
    }

    method Seek(p: nat)
      modifies this
      ensures pos == p && data == old(data)
    {
      pos := p;
    }

    /** `write`: overwrite at the position (zero-filling a gap past the end
        of file) and move the position past what was written. */
    method Write(b: seq<byte>)
      modifies this
      ensures data == Patch(old(data), old(pos), b)
      ensures pos == old(pos) + |b|
    {
      data := Patch(data, pos, b);
      pos := pos + |b|;
    }
  }

  /** `(o + 7) & ~7`. */
  function AlignUp(o: nat): nat {
    (o + 7) / 8 * 8
  }

  /** The aligned offset is the least multiple of 8 not below `o`. */
  lemma AlignUpLeast(o: nat)
    ensures AlignUp(o) % 8 == 0 && o <= AlignUp(o) < o + 8
    ensures forall m: nat :: m % 8 == 0 && o <= m ==> AlignUp(o) <= m
  {
    forall m: nat | m % 8 == 0 && o <= m ensures AlignUp(o) <= m {
      assert m == m / 8 * 8;
      assert (o + 7) / 8 <= (m + 7) / 8 == m / 8;
    }
  }

  /** A directory entry: the stream kind and its location descriptor. */
  datatype Entry = Entry(kind: nat, size: nat, rva: nat)

  /** The MINIDUMP_DIRECTORY record of an entry. */
  function EntryRecord(e: Entry): Struct {
    Struct([Value(Int(e.kind)), Sub(Loc(e.size, e.rva))], [])
  }

  /** The header the writer starts from:
      `MINIDUMP_HEADER(Signature='MDMP', Version=1618061203,
      StreamDirectoryRva=MINIDUMP_HEADER.size, TimeDateStamp=now)`. */
  function InitialHeader(now: nat): Struct {
    Struct([Value(Str(Mdmp())), Value(Int(WriterVersion)), Value(Int(0)), Value(Int(32)),
            Value(Int(0)), Value(Int(now)), Value(Int(0))], [])
  }

  /** Packing records of layout `l` one after another; the first that does
      not fit fails the whole. */
  function PackAll(l: Layout, recs: seq<Struct>): (r: Result<seq<byte>>)
    decreases |recs|
  {
    if recs == [] then Success([])
    else
      match PackAll(l, recs[..|recs| - 1])
      case Failure(e) => Failure(e)
      case Success(b) =>
        match Pack(l, recs[|recs| - 1])
        case Failure(e) => Failure(e)
        case Success(eb) => Success(b + eb)
  }

  /** The directory records of the entries. */
  function DirRecords(es: seq<Entry>): (r: seq<Struct>)
    ensures |r| == |es| && forall k :: 0 <= k < |es| ==> r[k] == EntryRecord(es[k])
  {
    seq(|es|, k requires 0 <= k < |es| => EntryRecord(es[k]))
  }

  /** A write that continues a sequential run of writes: the file holds
      the run so far, `acc`, at `p0`, and then `acc + b`. */
  method WriteOn(fp: OutFile, b: seq<byte>, ghost f0: seq<byte>, ghost p0: nat, ghost acc: seq<byte>)
    modifies fp
    requires fp.data == Patch(f0, p0, acc) && fp.pos == p0 + |acc|
    ensures fp.data == Patch(f0, p0, acc + b) && fp.pos == p0 + |acc + b|
  {
    PatchConcat(f0, p0, acc, b);
    fp.Write(b);
  }

  /** `_write(s)` for one record: pack it and write it at the position. */
  method WriteRecord(fp: OutFile, l: Layout, s: Struct) returns (r: Result<seq<byte>>)
    modifies fp
    ensures r == Pack(l, s)
    ensures r.Failure? ==> fp.data == old(fp.data) && fp.pos == old(fp.pos)
    ensures r.Success? ==>
              fp.data == Patch(old(fp.data), old(fp.pos), r.value) && fp.pos == old(fp.pos) + |r.value|
  {
    r := Pack(l, s);
    if r.Success? {
      fp.Write(r.value);
    }
  }

  /** `_write(list)`: each record packed and written in turn; a record that
      does not fit stops the writing. */
  method WriteRecords(fp: OutFile, l: Layout, recs: seq<Struct>) returns (r: Result<seq<byte>>)
    modifies fp
    ensures r.Success? <==> PackAll(l, recs).Success?
    ensures r.Success? ==> r.value == PackAll(l, recs).value
    ensures r.Success? ==>
              fp.data == Patch(old(fp.data), old(fp.pos), r.value) && fp.pos == old(fp.pos) + |r.value|
  {
    ghost var f0, p0 := fp.data, fp.pos;
    var acc: seq<byte> := [];
    var i := 0;
    while i < |recs|
      invariant 0 <= i <= |recs|
      invariant PackAll(l, recs[..i]) == Success(acc)
      invariant fp.data == Patch(f0, p0, acc) && fp.pos == p0 + |acc|
    {
      PackAllStep(l, recs, i, acc);
      var eb := WriteRecord(fp, l, recs[i]);
      if eb.Failure? {
        return Failure(eb.error);
      }
      PatchConcat(f0, p0, acc, eb.value);
      acc := acc + eb.value;
      i := i + 1;
    }
    assert recs[..|recs|] == recs;
    r := Success(acc);
  }

  /** One more record: a failure to pack it fails the whole list, a success
      appends its bytes. */
  lemma PackAllStep(l: Layout, recs: seq<Struct>, i: nat, acc: seq<byte>)
    requires i < |recs| && PackAll(l, recs[..i]) == Success(acc)
    ensures Pack(l, recs[i]).Failure? ==> PackAll(l, recs).Failure?
    ensures Pack(l, recs[i]).Success? ==> PackAll(l, recs[..i + 1]) == Success(acc + Pack(l, recs[i]).value)
  {
    assert recs[..i + 1][..i] == recs[..i];
    if Pack(l, recs[i]).Failure? {
      PackAllFailFrom(l, recs, i + 1);
    }
  }

  /** Once a prefix of the list fails to pack, the whole does. */
  lemma {:induction false} PackAllFailFrom(l: Layout, recs: seq<Struct>, i: nat)
    requires 0 < i <= |recs| && PackAll(l, recs[..i]).Failure?
    ensures PackAll(l, recs).Failure?
    decreases |recs| - i
  {
    if i < |recs| {
      assert recs[..i + 1][..i] == recs[..i];
      PackAllFailFrom(l, recs, i + 1);
    } else {
      assert recs[..i] == recs;
    }
  }

  class DumpWriter {
    const fp: OutFile
    /** `max_stream_cnt`: the directory slots reserved behind the header. */
    const reserved: nat
    /** The record types of the header and of a directory entry, which
        the source's records carry with them (`_Struct._fmt`). */
    const headerFmt: Layout
    const entryFmt: Layout
    var header: Struct
    var dir: seq<Entry>
    /** `_offset`: where the next stream or out-of-band block goes. */
    var offset: nat

    /** The first byte past the reserved header and directory. */
    function Base(): nat {
      32 + 12 * reserved
    }

    /** Every stream lies 8-byte aligned past the reservation and before
        the cursor. */
    ghost predicate Valid()
      reads this
    {
      Base() <= offset &&
      forall k :: 0 <= k < |dir| ==>
        Base() <= dir[k].rva && dir[k].rva % 8 == 0 && dir[k].rva + dir[k].size <= offset
    }

    /** `DumpWriter(fp, max_stream_cnt)`; the clock reading `time.time()`
        is the parameter `now`. */
    constructor (fp: OutFile, maxStreams: nat, now: nat)
      modifies fp
      ensures this.fp == fp && reserved == maxStreams
      ensures headerFmt == Header() && entryFmt == Directory()
      ensures header == InitialHeader(now) && dir == [] && offset == Base()
      ensures fp.data == old(fp.data) && fp.pos == offset
      ensures Valid()
    {
      this.fp := fp;
      reserved := maxStreams;
      headerFmt := Header();
      entryFmt := Directory();
      header := InitialHeader(now);
      dir := [];
      offset := 32 + 12 * maxStreams;
      new;
      fp.Seek(offset);
    }

    /** `timestamp(ts)`. */
    method SetTimestamp(ts: nat)
      modifies this
      ensures header == WithNum(old(header), HeaderTimeDateStamp, ts)
      ensures dir == old(dir) && offset == old(offset)
    {
      header := WithNum(header, HeaderTimeDateStamp, ts);
    }

    /** `flags(f)`. */
    method SetFlags(f: nat)
      modifies this
      ensures header == WithNum(old(header), HeaderFlags, f)
      ensures dir == old(dir) && offset == old(offset)
    {
      header := WithNum(header, HeaderFlags, f);
    }

    /** `add_stream_placeholder(kind, size)`: align the cursor up to 8, give
        the new entry that offset and the size, and move the cursor past it.
        The result is the entry's position in the directory. */
    method AddStreamPlaceholder(kind: nat, size: nat) returns (idx: nat)
      requires Valid()
      modifies this
      ensures Valid()
      ensures idx == |old(dir)| && dir == old(dir) + [Entry(kind, size, AlignUp(old(offset)))]
      ensures offset == AlignUp(old(offset)) + size
      ensures header == old(header)
    {
      AlignUpLeast(offset);
      offset := AlignUp(offset);
      dir := dir + [Entry(kind, size, offset)];
      offset := offset + size;
      idx := |dir| - 1;
    }

    /** `set_stream(o, data)`: write `data` at the entry's offset and shrink
        the entry to it; the data must fit the space reserved. */
    method SetStream(idx: nat, data: seq<byte>)
      requires Valid() && idx < |dir| && |data| <= dir[idx].size
      modifies this, fp
      ensures Valid()
      ensures fp.data == Patch(old(fp.data), old(dir[idx].rva), data)
      ensures fp.pos == old(dir[idx].rva) + |data|
      ensures dir == old(dir)[idx := old(dir[idx]).(size := |data|)]
      ensures offset == old(offset) && header == old(header)
    {
      fp.Seek(dir[idx].rva);
      fp.Write(data);
      dir := dir[idx := dir[idx].(size := |data|)];
    }

    /** `add_stream(kind, data)`: a placeholder of exactly the data's size,
        filled at once. */
    method AddStream(kind: nat, data: seq<byte>) returns (idx: nat)
      requires Valid()
      modifies this, fp
      ensures Valid()
      ensures idx == |old(dir)|
      ensures dir == old(dir) + [Entry(kind, |data|, AlignUp(old(offset)))]
      ensures offset == AlignUp(old(offset)) + |data|
      ensures fp.data == Patch(old(fp.data), AlignUp(old(offset)), data)
      ensures header == old(header)
    {
      idx := AddStreamPlaceholder(kind, |data|);
      SetStream(idx, data);
    }

    /** `write_oob(data)`: nothing for `None`, located as (0, 0); otherwise
        the data goes at the cursor, which moves past it. */
    method WriteOob(data: Option<seq<byte>>) returns (loc: Struct)
      requires Valid()
      modifies this, fp
      ensures Valid()
      ensures dir == old(dir) && header == old(header)
      ensures data.None? ==>
                loc == Loc(0, 0) && offset == old(offset) &&
                fp.data == old(fp.data) && fp.pos == old(fp.pos)
      ensures data.Some? ==>
                loc == Loc(|data.value|, old(offset)) &&
                offset == old(offset) + |data.value| &&
                fp.data == Patch(old(fp.data), old(offset), data.value) && fp.pos == offset
    {
      if data.None? {
        return Loc(0, 0);
      }
      var res := offset;
      fp.Seek(offset);
      fp.Write(data.value);
      offset := offset + |data.value|;
      loc := Loc(|data.value|, res);
    }

    /** `close()`: from offset 0, the header with `NumberOfStreams` set to
        the directory's length, then each directory entry. A record whose
        values do not fit its fields stops the writing. */
    method Close() returns (r: Result<seq<byte>>)
      modifies this, fp
      ensures header == WithNum(old(header), HeaderNumberOfStreams, |dir|)
      ensures dir == old(dir)
      ensures var hb, db := Pack(headerFmt, header), PackAll(entryFmt, DirRecords(dir));
              (r.Success? <==> hb.Success? && db.Success?) &&
              (r.Success? ==>
                 r.value == hb.value + db.value &&
                 fp.data == Patch(old(fp.data), 0, r.value) &&
                 offset == |r.value| && fp.pos == offset)
    {
      fp.Seek(0);
      header := WithNum(header, HeaderNumberOfStreams, |dir|);
      r := WriteHeaded(fp, headerFmt, header, entryFmt, DirRecords(dir));
      offset := if r.Success? then |r.value| else 0;
    }
  }

  /** One record, then a run of records, written from the file's position;
      a record that does not fit stops the writing. */
  method WriteHeaded(fp: OutFile, hl: Layout, h: Struct, l: Layout, recs: seq<Struct>)
    returns (r: Result<seq<byte>>)
    modifies fp
    ensures var hb, db := Pack(hl, h), PackAll(l, recs);
            (r.Success? <==> hb.Success? && db.Success?) &&
            (r.Success? ==>
               r.value == hb.value + db.value &&
               fp.data == Patch(old(fp.data), old(fp.pos), r.value) && fp.pos == old(fp.pos) + |r.value|)
  {
    ghost var f0, p0 := fp.data, fp.pos;
    var hb := WriteRecord(fp, hl, h);
    if hb.Failure? {
      return Failure(hb.error);
    }
    var db := WriteRecords(fp, l, recs);
    if db.Failure? {
      return Failure(db.error);
    }
    PatchConcat(f0, p0, hb.value, db.value);
    r := Success(hb.value + db.value);
  }

  /** A directory entry packs exactly when its kind, size and offset fit
      32 bits: `PackSize` for the directory layout, as a named fact. */
  lemma EntryPacks(e: Entry)
    ensures Pack(Directory(), EntryRecord(e)).Success? <==>
              e.kind < 0x1_0000_0000 && e.size < 0x1_0000_0000 && e.rva < 0x1_0000_0000
  {
    PackSize(Directory(), EntryRecord(e));
  }

  /** Records without trailing bytes pack to the record size each. */
  lemma {:induction false} PackAllSize(l: Layout, recs: seq<Struct>)
    requires PackAll(l, recs).Success?
    requires forall k :: 0 <= k < |recs| ==> recs[k].extra == []
    ensures |PackAll(l, recs).value| == |recs| * Size(l)
    decreases |recs|
  {
    if recs != [] {
      var init := recs[..|recs| - 1];
      assert PackAll(l, init).Success?;
      PackAllSize(l, init);
      PackSize(l, recs[|recs| - 1]);
      MulSucc(|init|, Size(l));
    }
  }

  /** Writing `b` at offset 0 leaves every byte from `q` on alone when `b`
      ends before `q`. */
  lemma PatchFront(f: seq<byte>, b: seq<byte>, q: nat)
    requires |b| <= q
    ensures forall i :: q <= i < |f| ==> Patch(f, 0, b)[i] == f[i]
  {
    forall i | q <= i < |f| ensures Patch(f, 0, b)[i] == f[i] {
      PatchAt(f, 0, b, i);
    }
  }

  /** For a 32-byte header without nested records and 12-byte entries:
      when the directory holds no more entries than were reserved, what
      `close()` writes ends before the first stream byte, so no stream is
      overwritten; the header decodes back from the front of the file, and
      the directory's records follow it at offset 32. */
  lemma CloseWithin(hl: Layout, dl: Layout, f: seq<byte>, h: Struct, es: seq<Entry>, reserved: nat,
                    b: seq<byte>)
    requires Size(hl) == 32 && Size(dl) == 12 && |es| <= reserved
    requires forall i :: 0 <= i < |hl.fields| ==> hl.fields[i].ty.Leaf?
    requires Valid(hl, h) && h.extra == [] && PackAll(dl, DirRecords(es)).Success?
    requires b == Pack(hl, h).value + PackAll(dl, DirRecords(es)).value
    ensures KeepsFrom(f, Patch(f, 0, b), 32 + 12 * reserved)
    ensures Unpack(hl, FileRead(Patch(f, 0, b), 0, 32)) == Success(h)
    ensures FileRead(Patch(f, 0, b), 32, 12 * |es|) == PackAll(dl, DirRecords(es)).value
    ensures |b| <= 32 + 12 * reserved
  {
    LeavesBare(hl.fields, h.members);
    PackThenUnpack(hl, h);
    var hb, db := Pack(hl, h).value, PackAll(dl, DirRecords(es)).value;
    PackAllSize(dl, DirRecords(es));
    assert |hb + db| <= 32 + 12 * reserved;
    PatchFront(f, hb + db, 32 + 12 * reserved);
    HeaderThenRecords(f, hb, db);
  }

  /** Writing a 32-byte header and then records at offset 0: the header
      reads back from offset 0 and the records from offset 32. */
  lemma HeaderThenRecords(f: seq<byte>, hb: seq<byte>, db: seq<byte>)
    requires |hb| == 32
    ensures FileRead(Patch(f, 0, hb + db), 0, 32) == hb
    ensures FileRead(Patch(f, 0, hb + db), 32, |db|) == db
  {
    var out := Patch(f, 0, hb + db);
    PatchFacts(f, 0, hb + db);
    assert out[..32] == (hb + db)[..32] == hb;
    assert out[32..32 + |db|] == (hb + db)[32..] == db;
  }

  /** Every byte of `f0` from `p` on is still in `f1`. */
  predicate KeepsFrom(f0: seq<byte>, f1: seq<byte>, p: nat) {
    |f0| <= |f1| && forall i :: p <= i < |f0| ==> f1[i] == f0[i]
  }

  /** Each directory entry's bytes read the same in `f1` as in `f0`. */
  predicate StreamsKept(f0: seq<byte>, f1: seq<byte>, es: seq<Entry>) {
    forall k :: 0 <= k < |es| ==> FileRead(f1, es[k].rva, es[k].size) == FileRead(f0, es[k].rva, es[k].size)
  }

  /** A write that keeps every byte from `p` on, and either keeps the
      file's length or ends at `p`, keeps every stream that starts at `p`
      or later. */
  lemma KeepsStreams(f0: seq<byte>, f1: seq<byte>, p: nat, es: seq<Entry>)
    requires KeepsFrom(f0, f1, p) && (|f1| == |f0| || |f1| <= p)
    requires forall k :: 0 <= k < |es| ==> p <= es[k].rva
    ensures StreamsKept(f0, f1, es)
  {
    forall k | 0 <= k < |es|
      ensures FileRead(f1, es[k].rva, es[k].size) == FileRead(f0, es[k].rva, es[k].size)
    {
      KeptRead(f0, f1, p, es[k].rva, es[k].size);
    }
  }

  /** One read at `a >= p` under the hypotheses of `KeepsStreams`. */
  lemma KeptRead(f0: seq<byte>, f1: seq<byte>, p: nat, a: nat, n: nat)
    requires KeepsFrom(f0, f1, p) && (|f1| == |f0| || |f1| <= p) && p <= a
    ensures FileRead(f1, a, n) == FileRead(f0, a, n)
  {
    if a < |f1| {
      var r0, r1 := FileRead(f0, a, n), FileRead(f1, a, n);
      assert |r1| == |r0|;
      forall i | 0 <= i < |r1| ensures r1[i] == r0[i] {
        assert r1[i] == f1[a + i] && r0[i] == f0[a + i];
      }
    }
  }
}
