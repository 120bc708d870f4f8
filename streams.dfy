/** Bounded views over the input file (`_Substream`) and the record reads
    that go through them (`_StructWithNames.read`, `read_struct`). */
module Streams {
  import opened Bytes
  import opened Wrappers
  import opened Codec

  /** The bytes a window `[offset, offset + size)` of file `f` can deliver:
      the window, cut short at end of file. */
  function Window(f: seq<byte>, offset: nat, size: nat): (w: seq<byte>)
    ensures |w| <= size
  {
    FileRead(f, offset, size)
  }

  /** A read of `n` bytes at window position `p`, done as the source does it
      (seek the file to `offset + p`, read `min(n, size - p)`), is the read of
      `n` bytes at `p` within the window's bytes. */
  lemma WindowRead(f: seq<byte>, offset: nat, size: nat, p: nat, n: nat)
    requires p <= size
    ensures FileRead(f, offset + p, Min(n, size - p)) == FileRead(Window(f, offset, size), p, n)
  {
    var w := Window(f, offset, size);
    var r := FileRead(f, offset + p, Min(n, size - p));
    var r' := FileRead(w, p, n);
    assert |r| == |r'|;
    if offset < |f| {
      forall i | 0 <= i < |r| ensures r[i] == r'[i] {
        assert r[i] == f[offset + p + i];
        assert r'[i] == w[p + i];
      }
    }
  }

  /** `_Substream`: a window over the input file with its own cursor. */
  class Substream {
    const file: seq<byte>
    const offset: nat
    const size: nat
    var pos: nat

    ghost predicate Valid() reads this {
      pos <= size
    }

    /** The bytes this stream can deliver. */
    function Contents(): seq<byte> {
      Window(file, offset, size)
    }

    constructor (file: seq<byte>, offset: nat, size: nat)
      ensures this.file == file && this.offset == offset && this.size == size
      ensures pos == 0 && Valid()
    {
      this.file := file;
      this.offset := offset;
      this.size := size;
      pos := 0;
    }

    /** `seek`: positions inside the window only. */
    method Seek(p: nat)
      requires p <= size
      modifies this
      ensures pos == p && Valid()
    {
      pos := p;
    }

    /** `read(n)`, or `read()` for the rest of the window: at most
      `size - pos` bytes, and the cursor moves by exactly what was returned. */
    method Read(n: Option<nat>) returns (res: seq<byte>)
      requires Valid()
      modifies this
      ensures var want := if n.Some? then n.value else size - old(pos);
              res == FileRead(Contents(), old(pos), want)
      ensures |res| <= size - old(pos)
      ensures pos == old(pos) + |res| && Valid()
    {
      var rem := size - pos;
      var want := if n.Some? then n.value else rem;
      res := FileRead(file, offset + pos, Min(want, rem));
      WindowRead(file, offset, size, pos, want);
      pos := pos + |res|;
    }
  }

  /** `cnt` consecutive `sz`-byte reads of `w` from `start`; `None` when a
      read comes back short. */
  function Slices(w: seq<byte>, start: nat, sz: nat, cnt: nat): (r: Option<seq<seq<byte>>>)
    ensures r.Some? ==> |r.value| == cnt
    decreases cnt
  {
    if cnt == 0 then Some([])
    else
      match Slices(w, start, sz, cnt - 1)
      case None => None
      case Some(before) =>
        var b := FileRead(w, start + (cnt - 1) * sz, sz);
        if |b| < sz then None else Some(before + [b])
  }

  /** Every slice has the requested length. */
  lemma {:induction false} SlicesLength(w: seq<byte>, start: nat, sz: nat, cnt: nat)
    requires Slices(w, start, sz, cnt).Some?
    ensures forall i :: 0 <= i < cnt ==> |Slices(w, start, sz, cnt).value[i]| == sz
    decreases cnt
  {
    if cnt > 0 {
      SlicesLength(w, start, sz, cnt - 1);
    }
  }

  /** The reads all succeed exactly when the `cnt` slices fit in `w`. */
  lemma {:induction false} SlicesSucceed(w: seq<byte>, start: nat, sz: nat, cnt: nat)
    ensures Slices(w, start, sz, cnt).Some? <==> cnt == 0 || sz == 0 || start + cnt * sz <= |w|
    decreases cnt
  {
    if cnt > 0 {
      SlicesSucceed(w, start, sz, cnt - 1);
      var total, before := cnt * sz, (cnt - 1) * sz;
      MulSucc(cnt - 1, sz);
      assert total == before + sz;
    }
  }

  /** Slice `i` is the `i`-th `sz`-byte block from `start`. */
  lemma {:induction false} SliceAt(w: seq<byte>, start: nat, sz: nat, cnt: nat, i: nat)
    requires Slices(w, start, sz, cnt).Some? && i < cnt
    ensures start + (i + 1) * sz <= |w| || sz == 0
    ensures Slices(w, start, sz, cnt).value[i] == FileRead(w, start + i * sz, sz)
    decreases cnt
  {
    MulSucc(i, sz);
    if i < cnt - 1 {
      SliceAt(w, start, sz, cnt - 1, i);
    }
  }

  /** When read `i` comes back short, so does any longer run of reads. */
  lemma {:induction false} SlicesFailFrom(w: seq<byte>, start: nat, sz: nat, i: nat, cnt: nat)
    requires i < cnt && |FileRead(w, start + i * sz, sz)| < sz
    ensures Slices(w, start, sz, cnt) == None
    decreases cnt
  {
    if i < cnt - 1 {
      SlicesFailFrom(w, start, sz, i, cnt - 1);
    }
  }

  /** Once the first `i` reads include a short one, so do all `cnt`. */
  lemma {:induction false} SlicesNoneFrom(w: seq<byte>, start: nat, sz: nat, i: nat, cnt: nat)
    requires i <= cnt && Slices(w, start, sz, i).None?
    ensures Slices(w, start, sz, cnt).None?
    decreases cnt - i
  {
    if i < cnt {
      SlicesNoneFrom(w, start, sz, i + 1, cnt);
    }
  }

  /** The byte strings one after another. */
  function Concat(ss: seq<seq<byte>>): seq<byte>
    decreases |ss|
  {
    if |ss| == 0 then [] else Concat(ss[..|ss| - 1]) + ss[|ss| - 1]
  }

  lemma ConcatSnoc(ss: seq<seq<byte>>, b: seq<byte>)
    ensures Concat(ss + [b]) == Concat(ss) + b
  {
    assert (ss + [b])[..|ss|] == ss;
  }

  /** A run of full reads returns what one read of the whole run does. */
  lemma {:induction false} SlicesConcat(w: seq<byte>, start: nat, sz: nat, cnt: nat)
    requires Slices(w, start, sz, cnt).Some?
    ensures Concat(Slices(w, start, sz, cnt).value) == FileRead(w, start, cnt * sz)
    decreases cnt
  {
    if cnt > 0 {
      BlockStep(cnt, sz);
      var before := Slices(w, start, sz, cnt - 1).value;
      var a := (cnt - 1) * sz;
      var b := FileRead(w, start + a, sz);
      assert Slices(w, start, sz, cnt).value == before + [b];
      SlicesConcat(w, start, sz, cnt - 1);
      ConcatStep(w, start, sz, a, before, b);
    }
  }

  lemma ConcatStep(w: seq<byte>, start: nat, sz: nat, a: nat, before: seq<seq<byte>>, b: seq<byte>)
    requires Concat(before) == FileRead(w, start, a)
    requires b == FileRead(w, start + a, sz) && |b| == sz && (sz == 0 ==> a == 0)
    ensures Concat(before + [b]) == FileRead(w, start, a + sz)
  {
    ConcatSnoc(before, b);
    ReadsMeet(w, start, a, sz);
  }

  /** Decoding a buffer of exactly the record size, which never fails. */
  function Decode(l: Layout, b: seq<byte>): Struct
    requires |b| == Size(l)
  {
    UnpackThenPack(l, b);
    Unpack(l, b).value
  }

  /** Buffers of the record size all decode. */
  function DecodeAll(l: Layout, bufs: seq<seq<byte>>): (r: seq<Struct>)
    requires forall j :: 0 <= j < |bufs| ==> |bufs[j]| == Size(l)
    ensures |r| == |bufs|
  {
    seq(|bufs|, j requires 0 <= j < |bufs| => Decode(l, bufs[j]))
  }

  lemma DecodeAllSnoc(l: Layout, bufs: seq<seq<byte>>, b: seq<byte>)
    requires forall j :: 0 <= j < |bufs| ==> |bufs[j]| == Size(l)
    requires |b| == Size(l)
    ensures DecodeAll(l, bufs + [b]) == DecodeAll(l, bufs) + [Decode(l, b)]
  {
  }

  /** `cnt` consecutive records of layout `l` read from `w` at `start`; a
      record cut short by the end of `w` is a decode error. */
  function RecordsAt(l: Layout, w: seq<byte>, start: nat, cnt: nat): (r: Result<seq<Struct>>)
    ensures r.Success? ==> |r.value| == cnt
  {
    match Slices(w, start, Size(l), cnt)
    case None => Failure(MalformedRecord)
    case Some(ss) =>
      SlicesLength(w, start, Size(l), cnt);
      Success(DecodeAll(l, ss))
  }

  /** One more full read extends both the slices and their decoding. */
  lemma RecordsStep(l: Layout, w: seq<byte>, start: nat, i: nat, bufs: seq<seq<byte>>, b: seq<byte>)
    requires Slices(w, start, Size(l), i) == Some(bufs)
    requires forall j :: 0 <= j < |bufs| ==> |bufs[j]| == Size(l)
    requires b == FileRead(w, start + i * Size(l), Size(l)) && |b| == Size(l)
    ensures Slices(w, start, Size(l), i + 1) == Some(bufs + [b])
    ensures DecodeAll(l, bufs + [b]) == DecodeAll(l, bufs) + [Decode(l, b)]
  {
    DecodeAllSnoc(l, bufs, b);
  }

  /** One record more after `i` that read: the next block decoded, or a
      decode error when it comes back short. */
  lemma RecordsAtNext(l: Layout, w: seq<byte>, start: nat, i: nat, res: seq<Struct>)
    requires RecordsAt(l, w, start, i) == Success(res)
    ensures var b := FileRead(w, start + i * Size(l), Size(l));
            RecordsAt(l, w, start, i + 1) ==
              if |b| == Size(l) then Success(res + [Decode(l, b)]) else Failure(MalformedRecord)
  {
    var sz := Size(l);
    RecordsAtSlices(l, w, start, i);
    RecordsAtSlices(l, w, start, i + 1);
    SlicesNext(w, start, sz, i);
    MulNonneg(i, sz);
    var b := FileRead(w, start + i * sz, sz);
    if |b| == sz {
      var bufs := Slices(w, start, sz, i).value;
      SlicesLength(w, start, sz, i);
      DecodeAllSnoc(l, bufs, b);
    }
  }

  /** One read more after `i` full ones. */
  lemma SlicesNext(w: seq<byte>, start: nat, sz: nat, i: nat)
    requires Slices(w, start, sz, i).Some?
    ensures var b := FileRead(w, start + i * sz, sz);
            Slices(w, start, sz, i + 1) == if |b| == sz then Some(Slices(w, start, sz, i).value + [b]) else None
  {
  }

  /** Once the first `i` records fail to read, so do all `cnt`. */
  lemma RecordsAtFailFrom(l: Layout, w: seq<byte>, start: nat, i: nat, cnt: nat)
    requires i <= cnt && RecordsAt(l, w, start, i).Failure?
    ensures RecordsAt(l, w, start, cnt) == Failure(MalformedRecord)
  {
    RecordsAtSlices(l, w, start, i);
    if Slices(w, start, Size(l), i).Some? {
      SlicesLength(w, start, Size(l), i);
    }
    SlicesNoneFrom(w, start, Size(l), i, cnt);
    RecordsAtSlices(l, w, start, cnt);
  }

  /** `RecordsAt` in terms of the slices it reads. */
  lemma RecordsAtSlices(l: Layout, w: seq<byte>, start: nat, cnt: nat)
    ensures Slices(w, start, Size(l), cnt).None? ==> RecordsAt(l, w, start, cnt) == Failure(MalformedRecord)
    ensures Slices(w, start, Size(l), cnt).Some? ==>
              (SlicesLength(w, start, Size(l), cnt);
               RecordsAt(l, w, start, cnt) == Success(DecodeAll(l, Slices(w, start, Size(l), cnt).value)))
  {
  }

  /** Block `i` of a successful run of reads lies inside `w`. */
  lemma SliceInside(w: seq<byte>, start: nat, sz: nat, cnt: nat, i: nat)
    requires Slices(w, start, sz, cnt).Some? && i < cnt && sz > 0
    ensures start + i * sz + sz <= |w|
    ensures Slices(w, start, sz, cnt).value[i] == w[start + i * sz..start + i * sz + sz]
  {
    SliceAt(w, start, sz, cnt, i);
    MulSucc(i, sz);
    var a := start + i * sz;
    assert a + sz <= |w|;
  }

  /** Record `i` of a successful run of reads is the decoding of the `i`-th
      record-sized block from `start`, which lies inside `w`. */
  lemma RecordAtIndex(l: Layout, w: seq<byte>, start: nat, cnt: nat, i: nat, sz: nat)
    requires RecordsAt(l, w, start, cnt).Success? && Size(l) == sz > 0 && i < cnt
    ensures start + i * sz + sz <= |w|
    ensures RecordsAt(l, w, start, cnt).value[i] == Decode(l, w[start + i * sz..start + i * sz + sz])
  {
    RecordsAtSlices(l, w, start, cnt);
    var ss := Slices(w, start, sz, cnt).value;
    SlicesLength(w, start, sz, cnt);
    SliceInside(w, start, sz, cnt, i);
    assert RecordsAt(l, w, start, cnt).value == DecodeAll(l, ss);
  }

  /** `rs` is `n` records of layout `l`, of `sz` bytes each, record `i`
      decoded from the `sz` bytes of `w` at `start + i * sz`. */
  ghost predicate RecordsIn(l: Layout, sz: nat, w: seq<byte>, start: nat, n: nat, rs: seq<Struct>) {
    Size(l) == sz && |rs| == n &&
    forall i :: 0 <= i < n ==>
      start + i * sz + sz <= |w| && rs[i] == Decode(l, w[start + i * sz..start + i * sz + sz])
  }

  /** The same for every record of the run. */
  lemma RecordsAtEntries(l: Layout, w: seq<byte>, start: nat, cnt: nat, sz: nat)
    requires RecordsAt(l, w, start, cnt).Success? && Size(l) == sz > 0
    ensures RecordsIn(l, sz, w, start, cnt, RecordsAt(l, w, start, cnt).value)
  {
    RecordsAtSlices(l, w, start, cnt);
    SlicesLength(w, start, sz, cnt);
    forall i | 0 <= i < cnt
      ensures start + i * sz + sz <= |w|
      ensures RecordsAt(l, w, start, cnt).value[i] == Decode(l, w[start + i * sz..start + i * sz + sz])
    {
      RecordAtIndex(l, w, start, cnt, i, sz);
    }
  }

  /** `read_one` of `_StructWithNames.read`: seek to `offset` when one is
      given, read one record's worth of bytes and decode them. */
  method ReadOne(l: Layout, fp: Substream, offset: Option<nat>) returns (r: Result<Struct>)
    requires fp.Valid()
    modifies fp
    ensures fp.Valid()
    ensures var start := if offset.Some? then offset.value else old(fp.pos);
            var b := FileRead(fp.Contents(), start, Size(l));
            if start > fp.size then r == Failure(OutOfWindow) && fp.pos == old(fp.pos)
            else (r.Success? <==> |b| == Size(l)) &&
                 (r.Success? ==> r.value == Decode(l, b)) &&
                 (r.Failure? ==> r.error == MalformedRecord) &&
                 fp.pos == start + |b|
  {
    if offset.Some? {
      if offset.value > fp.size {
        return Failure(OutOfWindow);
      }
      fp.Seek(offset.value);
    }
    var buf := fp.Read(Some(Size(l)));
    r := Unpack(l, buf);
    UnpackThenPack(l, buf);
  }

  /** `_StructWithNames.read(fp, offset, cnt)`: `cnt` records read one after
      another, each seeking to `offset` first when one is given (then
      advancing it by the record size), else from the stream's cursor. */
  method ReadRecords(l: Layout, fp: Substream, offset: Option<nat>, cnt: nat)
    returns (r: Result<seq<Struct>>)
    requires fp.Valid()
    modifies fp
    ensures fp.Valid()
    ensures var start := if offset.Some? then offset.value else old(fp.pos);
            (start <= fp.size ==> r == RecordsAt(l, fp.Contents(), start, cnt)) &&
            (r.Success? ==> fp.pos == (if cnt == 0 then old(fp.pos) else start + cnt * Size(l)))
    ensures offset.Some? && offset.value > fp.size ==>
              r == if cnt == 0 then Success([]) else Failure(OutOfWindow)
  {
    var sz := Size(l);
    var start := if offset.Some? then offset.value else fp.pos;
    if start > fp.size && cnt > 0 {
      // the first seek already leaves the window
      return Failure(OutOfWindow);
    }
    ghost var w := fp.Contents();
    ghost var pos0 := fp.pos;
    var res: seq<Struct> := [];
    var p := start;
    var i := 0;
    while i < cnt
      invariant 0 <= i <= cnt && p == start + i * sz
      invariant fp.Valid() && fp.Contents() == w
      invariant fp.pos == if i > 0 || offset.None? then p else pos0
      invariant i < cnt ==> p <= fp.size
      invariant RecordsAt(l, w, start, i) == Success(res)
    {
      var one := ReadRecordAt(l, fp, offset.Some?, p, w, start, i, res);
      if one.Failure? {
        RecordsAtFailFrom(l, w, start, i + 1, cnt);
        return Failure(one.error);
      }
      res := res + [one.value];
      MulSucc(i, sz);
      p := p + sz;
      i := i + 1;
    }
    r := Success(res);
  }

  /** Record `i + 1` of `ReadRecords`, at `p` (seeking there first when
      `seek`). */
  method ReadRecordAt(l: Layout, fp: Substream, seek: bool, p: nat, ghost w: seq<byte>, ghost start: nat,
                      ghost i: nat, ghost res: seq<Struct>) returns (one: Result<Struct>)
    requires fp.Valid() && fp.Contents() == w && p <= fp.size && (!seek ==> fp.pos == p)
    requires RecordsAt(l, w, start, i) == Success(res) && p == start + i * Size(l)
    modifies fp
    ensures fp.Valid() && fp.Contents() == w
    ensures one.Failure? ==> one.error == MalformedRecord && RecordsAt(l, w, start, i + 1).Failure?
    ensures one.Success? ==> RecordsAt(l, w, start, i + 1) == Success(res + [one.value]) && fp.pos == p + Size(l)
  {
    one := ReadOne(l, fp, if seek then Some(p) else None);
    RecordsAtNext(l, w, start, i, res);
  }

  /** `read_struct(fp, '<I')`: four bytes from the cursor as a little-endian
      unsigned integer; a short read is a decode error. */
  method ReadU32(fp: Substream) returns (r: Result<nat>)
    requires fp.Valid()
    modifies fp
    ensures fp.Valid()
    ensures var b := FileRead(fp.Contents(), old(fp.pos), 4);
            fp.pos == old(fp.pos) + |b| &&
            (if |b| == 4 then r == Success(FromLE(b)) else r == Failure(MalformedRecord))
    ensures r.Success? ==> r.value < 0x1_0000_0000
  {
    var buf := fp.Read(Some(4));
    if |buf| != 4 {
      return Failure(MalformedRecord);
    }
    r := Success(FromLE(buf));
  }

  /** A decoded record is valid, has no bytes beyond the layout, and packs
      back to the bytes it came from. */
  lemma DecodeFacts(l: Layout, b: seq<byte>)
    requires |b| == Size(l)
    ensures Valid(l, Decode(l, b)) && Decode(l, b).extra == [] && Pack(l, Decode(l, b)) == Success(b)
  {
    UnpackThenPack(l, b);
  }

  /** Records read in a row are valid and carry no trailing bytes. */
  lemma RecordsAtValid(l: Layout, w: seq<byte>, start: nat, cnt: nat)
    requires RecordsAt(l, w, start, cnt).Success?
    ensures forall i :: 0 <= i < cnt ==>
              Valid(l, RecordsAt(l, w, start, cnt).value[i]) && RecordsAt(l, w, start, cnt).value[i].extra == []
  {
    RecordsAtSlices(l, w, start, cnt);
    var ss := Slices(w, start, Size(l), cnt).value;
    SlicesLength(w, start, Size(l), cnt);
    forall i | 0 <= i < cnt
      ensures Valid(l, RecordsAt(l, w, start, cnt).value[i]) && RecordsAt(l, w, start, cnt).value[i].extra == []
    {
      DecodeFacts(l, ss[i]);
    }
  }

  /** Where the cursor stands after `k` reads of `esz` bytes from `pos`,
      each moving it by what it returned. */
  function After(w: seq<byte>, pos: nat, esz: nat, k: nat): nat
    decreases k
  {
    if k == 0 then pos
    else
      var p := After(w, pos, esz, k - 1);
      p + |FileRead(w, p, esz)|
  }

  /** The bytes those reads return, one after another. */
  function ReadBytes(w: seq<byte>, pos: nat, esz: nat, k: nat): seq<byte>
    decreases k
  {
    if k == 0 then [] else ReadBytes(w, pos, esz, k - 1) + FileRead(w, After(w, pos, esz, k - 1), esz)
  }

  /** `k` reads of `esz` bytes in a row return what one read of `k * esz`
      bytes returns, and the cursor moves by that much. */
  lemma {:induction false} ReadBytesOneRead(w: seq<byte>, pos: nat, esz: nat, k: nat)
    ensures ReadBytes(w, pos, esz, k) == FileRead(w, pos, k * esz)
    ensures After(w, pos, esz, k) == pos + |ReadBytes(w, pos, esz, k)|
    decreases k
  {
    if k > 0 {
      BlockStep(k, esz);
      ReadBytesOneRead(w, pos, esz, k - 1);
      ReadBytesStep(w, pos, esz, k, (k - 1) * esz);
    }
  }

  lemma ReadBytesStep(w: seq<byte>, pos: nat, esz: nat, k: nat, a: nat)
    requires k > 0 && ReadBytes(w, pos, esz, k - 1) == FileRead(w, pos, a)
    requires After(w, pos, esz, k - 1) == pos + |ReadBytes(w, pos, esz, k - 1)|
    ensures ReadBytes(w, pos, esz, k) == FileRead(w, pos, a + esz)
    ensures After(w, pos, esz, k) == pos + |ReadBytes(w, pos, esz, k)|
  {
    var x, p := ReadBytes(w, pos, esz, k - 1), After(w, pos, esz, k - 1);
    var y := FileRead(w, p, esz);
    assert ReadBytes(w, pos, esz, k) == x + y;
    assert After(w, pos, esz, k) == p + |y|;
    assert p == pos + |FileRead(w, pos, a)|;
    FileReadConcat(w, pos, a, esz);
  }

  /** `cnt` records each decoded by `unpack_all` from the next `esz` bytes
      read from `pos` on (fewer at the end of `w`; the cursor moves by what
      was read). */
  function ReadAllFrom(l: Layout, w: seq<byte>, pos: nat, esz: nat, cnt: nat): (r: Result<seq<Struct>>)
    ensures r.Success? ==> |r.value| == cnt
    decreases cnt
  {
    if cnt == 0 then Success([])
    else
      match ReadAllFrom(l, w, pos, esz, cnt - 1)
      case Failure(e) => Failure(e)
      case Success(before) =>
        match UnpackAll(l, FileRead(w, After(w, pos, esz, cnt - 1), esz))
        case Failure(e) => Failure(e)
        case Success(e) => Success(before + [e])
  }

  /** Once the first `i` reads fail, all `cnt` do. */
  lemma {:induction false} ReadAllFailFrom(l: Layout, w: seq<byte>, pos: nat, esz: nat, i: nat, cnt: nat)
    requires i <= cnt && ReadAllFrom(l, w, pos, esz, i).Failure?
    ensures ReadAllFrom(l, w, pos, esz, cnt) == ReadAllFrom(l, w, pos, esz, i)
    decreases cnt - i
  {
    if i < cnt {
      ReadAllFailFrom(l, w, pos, esz, i + 1, cnt);
    }
  }

  /** One read more after `i` successful ones. */
  lemma ReadAllNext(l: Layout, w: seq<byte>, pos: nat, esz: nat, i: nat, acc: seq<Struct>)
    requires ReadAllFrom(l, w, pos, esz, i) == Success(acc)
    ensures After(w, pos, esz, i + 1) == After(w, pos, esz, i) + |FileRead(w, After(w, pos, esz, i), esz)|
    ensures var e := UnpackAll(l, FileRead(w, After(w, pos, esz, i), esz));
            ReadAllFrom(l, w, pos, esz, i + 1) == if e.Failure? then Failure(e.error) else Success(acc + [e.value])
  {
  }

  /** `[l.unpack_all(fp.read(esz)) for i in xrange(cnt)]`. */
  method ReadEach(l: Layout, fp: Substream, esz: nat, cnt: nat) returns (r: Result<seq<Struct>>)
    requires fp.Valid()
    modifies fp
    ensures fp.Valid()
    ensures r == ReadAllFrom(l, fp.Contents(), old(fp.pos), esz, cnt)
  {
    ghost var w := fp.Contents();
    ghost var p0 := fp.pos;
    var acc: seq<Struct> := [];
    var i := 0;
    while i < cnt
      invariant 0 <= i <= cnt && fp.Valid() && fp.Contents() == w
      invariant fp.pos == After(w, p0, esz, i)
      invariant ReadAllFrom(l, w, p0, esz, i) == Success(acc)
    {
      var e := ReadNext(l, fp, esz, w, p0, i, acc);
      if e.Failure? {
        ReadAllFailFrom(l, w, p0, esz, i + 1, cnt);
        return Failure(e.error);
      }
      acc := acc + [e.value];
      i := i + 1;
    }
    r := Success(acc);
  }

  /** Read `i + 1` of `ReadEach`. */
  method ReadNext(l: Layout, fp: Substream, esz: nat, ghost w: seq<byte>, ghost p0: nat, ghost i: nat,
                  ghost acc: seq<Struct>) returns (e: Result<Struct>)
    requires fp.Valid() && fp.Contents() == w && fp.pos == After(w, p0, esz, i)
    requires ReadAllFrom(l, w, p0, esz, i) == Success(acc)
    modifies fp
    ensures fp.Valid() && fp.Contents() == w && fp.pos == After(w, p0, esz, i + 1)
    ensures ReadAllFrom(l, w, p0, esz, i + 1) == if e.Failure? then Failure(e.error) else Success(acc + [e.value])
  {
    ReadAllNext(l, w, p0, esz, i, acc);
    var b := fp.Read(Some(esz));
    e := UnpackAll(l, b);
  }
}
