/** Reading a dump (`Dump` of dmplib.py): the header, its signature check,
    the stream directory and the list of used streams. */
module Reader {
  import opened Bytes
  import opened Wrappers
  import opened Codec
  import opened Records
  import opened Streams

  /** An opened dump: its header and its directory entries. */
  datatype Dump = Dump(header: Struct, dir: seq<Struct>)

  /** `Dump._read(offset, fmt, cnt)`: `cnt` records read from the file
      itself, each at `offset`, which then moves on by the record size. */
  method ReadFileRecords(f: seq<byte>, l: Layout, offset: nat, cnt: nat)
    returns (r: Result<seq<Struct>>)
    ensures r == RecordsAt(l, f, offset, cnt)
  {
    var sz := Size(l);
    var res: seq<Struct> := [];
    var p := offset;
    var i := 0;
    while i < cnt
      invariant 0 <= i <= cnt && p == offset + i * sz
      invariant RecordsAt(l, f, offset, i) == Success(res)
    {
      var buf := FileRead(f, p, sz);
      var one := Unpack(l, buf);
      UnpackNext(l, f, offset, i, res, p);
      if one.Failure? {
        RecordsAtFailFrom(l, f, offset, i + 1, cnt);
        return Failure(one.error);
      }
      res := res + [one.value];
      MulSucc(i, sz);
      p := p + sz;
      i := i + 1;
    }
    r := Success(res);
  }

  /** Record `i + 1`, unpacked from the bytes at `p`. */
  lemma UnpackNext(l: Layout, f: seq<byte>, offset: nat, i: nat, res: seq<Struct>, p: nat)
    requires RecordsAt(l, f, offset, i) == Success(res) && p == offset + i * Size(l)
    ensures var one := Unpack(l, FileRead(f, p, Size(l)));
            (one.Failure? ==> RecordsAt(l, f, offset, i + 1).Failure?) &&
            (one.Success? ==> RecordsAt(l, f, offset, i + 1) == Success(res + [one.value]))
  {
    UnpackThenPack(l, FileRead(f, p, Size(l)));
    RecordsAtNext(l, f, offset, i, res);
  }

  /** The header `Dump.open` accepts, for a header layout `hl`: the bytes at
      offset 0 that decode and carry the "MDMP" signature. */
  function CheckedHeaderAs(hl: Layout, f: seq<byte>): Result<Struct> {
    var hb := FileRead(f, 0, Size(hl));
    match Unpack(hl, hb)
    case Failure(e) => Failure(e)
    case Success(h) =>
      if MemberAt(h, HeaderSignature) != Value(Str(Mdmp())) then Failure(InvalidSignature)
      else Success(h)
  }

  function CheckedHeader(f: seq<byte>): Result<Struct> {
    CheckedHeaderAs(Header(), f)
  }

  /** What `Dump.open` makes of file `f`. */
  function Parse(f: seq<byte>): Result<Dump> {
    match CheckedHeader(f)
    case Failure(e) => Failure(e)
    case Success(h) =>
      match RecordsAt(Directory(), f, Num(h, HeaderStreamDirectoryRva), Num(h, HeaderNumberOfStreams))
      case Failure(e) => Failure(e)
      case Success(dir) => Success(Dump(h, dir))
  }

  /** `Dump.open`: read the header at offset 0, insist on the signature,
      then read `NumberOfStreams` directory entries at `StreamDirectoryRva`. */
  method Open(f: seq<byte>) returns (r: Result<Dump>)
    ensures r == Parse(f)
  {
    var hb := FileRead(f, 0, Size(Header()));
    var h :- Unpack(Header(), hb);
    if MemberAt(h, HeaderSignature) != Value(Str(Mdmp())) {
      return Failure(InvalidSignature);
    }
    assert CheckedHeaderAs(Header(), f) == Success(h);
    var dir :- ReadFileRecords(f, Directory(), Num(h, HeaderStreamDirectoryRva), Num(h, HeaderNumberOfStreams));
    r := Success(Dump(h, dir));
  }

  /** For any header layout of 32 bytes that starts with a `4s` field: a
      file too short fails to decode; a header is refused for its signature
      exactly when the first four bytes are not "MDMP"; an accepted header is
      the decoding of the first 32 bytes. */
  lemma CheckedHeaderAsSignature(hl: Layout, f: seq<byte>)
    requires Size(hl) == 32 && |hl.fields| > 0 && hl.fields[0].ty == Leaf(Chars4)
    ensures |f| < 32 ==> CheckedHeaderAs(hl, f) == Failure(MalformedRecord)
    ensures CheckedHeaderAs(hl, f) == Failure(InvalidSignature) <==> |f| >= 32 && f[..4] != Mdmp()
    ensures CheckedHeaderAs(hl, f).Success? ==>
              |f| >= 32 && CheckedHeaderAs(hl, f).value == Decode(hl, f[..32])
  {
    var hb := FileRead(f, 0, Size(hl));
    UnpackThenPack(hl, hb);
    if |f| >= 32 {
      assert hb == f[..32];
      UnpackFirstLeaf(hl, hb, Chars4);
      assert hb[..4] == f[..4];
    }
  }

  /** The same for the MINIDUMP_HEADER layout. */
  lemma CheckedHeaderSignature(f: seq<byte>)
    ensures |f| < 32 ==> CheckedHeader(f) == Failure(MalformedRecord)
    ensures CheckedHeader(f) == Failure(InvalidSignature) <==> |f| >= 32 && f[..4] != Mdmp()
    ensures CheckedHeader(f).Success? ==>
              |f| >= 32 && Size(Header()) == 32 && CheckedHeader(f).value == Decode(Header(), f[..32])
  {
    HeaderDirectorySizes();
    CheckedHeaderAsSignature(Header(), f);
  }

  /** `Dump.open` raises on a short file or a wrong signature; the
      directory read never reports a signature error. */
  lemma ParseSignature(f: seq<byte>)
    ensures |f| < 32 ==> Parse(f) == Failure(MalformedRecord)
    ensures Parse(f) == Failure(InvalidSignature) <==> |f| >= 32 && f[..4] != Mdmp()
  {
    CheckedHeaderSignature(f);
    if CheckedHeader(f).Success? {
      var h := CheckedHeader(f).value;
      RecordsAtSlices(Directory(), f, Num(h, HeaderStreamDirectoryRva), Num(h, HeaderNumberOfStreams));
    }
  }

  /** An opened dump's header is the decoding of the first 32 bytes, which
      start with "MDMP". */
  lemma ParseHeader(f: seq<byte>)
    requires Parse(f).Success?
    ensures |f| >= 32 && f[..4] == Mdmp() && Size(Header()) == 32
    ensures Parse(f).value.header == Decode(Header(), f[..32])
  {
    CheckedHeaderSignature(f);
  }

  /** An opened dump's directory holds `NumberOfStreams` entries, entry `i`
      decoded from the 12 bytes at `StreamDirectoryRva + 12 * i`. */
  lemma ParseDirectory(f: seq<byte>)
    requires Parse(f).Success?
    ensures var h := Parse(f).value.header;
            RecordsIn(Directory(), 12, f, Num(h, HeaderStreamDirectoryRva), Num(h, HeaderNumberOfStreams),
                      Parse(f).value.dir)
  {
    HeaderDirectorySizes();
    var h := CheckedHeader(f).value;
    var rva, n := Num(h, HeaderStreamDirectoryRva), Num(h, HeaderNumberOfStreams);
    RecordsAtEntries(Directory(), f, rva, n, 12);
  }

  /** A directory entry as `streams()` sees it: the stream kind and the
      window its location descriptor names. */
  datatype StreamRef = StreamRef(kind: nat, rva: nat, size: nat)

  function EntryRef(e: Struct): StreamRef {
    var loc := SubAt(e, DirLocation);
    StreamRef(Num(e, DirStreamType), Num(loc, LocRva), Num(loc, LocDataSize))
  }

  /** `Dump.streams()`: the directory entries in order, without the unused
      ones. */
  function StreamsOf(dir: seq<Struct>): (r: seq<StreamRef>)
    ensures |r| <= |dir|
    ensures forall k :: 0 <= k < |r| ==> r[k].kind != UnusedStream
    decreases |dir|
  {
    if dir == [] then []
    else
      var rest := StreamsOf(dir[..|dir| - 1]);
      var e := EntryRef(dir[|dir| - 1]);
      if e.kind == UnusedStream then rest else rest + [e]
  }

  /** The filter keeps directory order: it distributes over concatenation. */
  lemma {:induction false} StreamsConcat(a: seq<Struct>, b: seq<Struct>)
    ensures StreamsOf(a + b) == StreamsOf(a) + StreamsOf(b)
    decreases |b|
  {
    if b == [] {
      assert a + b == a;
    } else {
      var b' := b[..|b| - 1];
      assert (a + b)[..|a + b| - 1] == a + b';
      assert (a + b)[|a + b| - 1] == b[|b| - 1];
      StreamsConcat(a, b');
    }
  }

  /** A stream is listed exactly when some directory entry with a used kind
      describes it. */
  lemma {:induction false} StreamsMember(dir: seq<Struct>, s: StreamRef)
    ensures s in StreamsOf(dir) <==> s.kind != UnusedStream && exists e :: e in dir && EntryRef(e) == s
    decreases |dir|
  {
    if dir != [] {
      var init := dir[..|dir| - 1];
      StreamsMember(init, s);
      assert dir == init + [dir[|dir| - 1]];
      if s.kind != UnusedStream && exists e :: e in dir && EntryRef(e) == s {
        var e :| e in dir && EntryRef(e) == s;
        if e !in init {
          assert e == dir[|dir| - 1];
        }
      }
    }
  }

  /** `timestamp()` and `flags()`. */
  function Timestamp(d: Dump): nat { Num(d.header, HeaderTimeDateStamp) }
  function Flags(d: Dump): nat { Num(d.header, HeaderFlags) }
}
