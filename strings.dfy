/** The length-prefixed UTF-16LE strings of a MINIDUMP (MINIDUMP_STRING):
    a 32-bit byte length, the code units, and a two-byte terminator the
    length does not count (`make_str` and `load_str` of full-dumpize.py). */
module Strings {
  import opened Bytes
  import opened Wrappers

  /** A UTF-16 code unit. */
  type u16 = u: int | 0 <= u < 0x1_0000

  /** `encode('utf-16le')`: each code unit as two bytes, low byte first. */
  function EncodeUtf16(s: seq<u16>): (b: seq<byte>)
    ensures |b| == 2 * |s|
  {
    seq(2 * |s|, i requires 0 <= i < 2 * |s| => if i % 2 == 0 then s[i / 2] % 256 else s[i / 2] / 256)
  }

  /** `decode('utf-16le')` of an even number of bytes. */
  function DecodeUtf16(b: seq<byte>): (s: seq<u16>)
    requires |b| % 2 == 0
    ensures 2 * |s| == |b|
  {
    seq(|b| / 2, k requires 0 <= k < |b| / 2 => b[2 * k] as int + 256 * (b[2 * k + 1] as int))
  }

  lemma DecodeEncode(s: seq<u16>)
    ensures DecodeUtf16(EncodeUtf16(s)) == s
  {
    var b := EncodeUtf16(s);
    forall k | 0 <= k < |s| ensures DecodeUtf16(b)[k] == s[k] {
      assert b[2 * k] == s[k] % 256 && b[2 * k + 1] == s[k] / 256;
    }
  }

  lemma EncodeDecode(b: seq<byte>)
    requires |b| % 2 == 0
    ensures EncodeUtf16(DecodeUtf16(b)) == b
  {
    var s := DecodeUtf16(b);
    var b' := EncodeUtf16(s);
    forall i | 0 <= i < |b| ensures b'[i] == b[i] {
      var k := i / 2;
      assert s[k] == b[2 * k] as int + 256 * (b[2 * k + 1] as int);
      if i % 2 == 0 {
        assert i == 2 * k;
      } else {
        assert i == 2 * k + 1;
      }
    }
  }

  /** `make_str(s)`; struct.pack refuses a byte length that does not fit
      32 bits. */
  function MakeStr(s: seq<u16>): (r: Result<seq<byte>>)
  {
    if 2 * |s| < 0x1_0000_0000 then Success(LE(2 * |s|, 4) + EncodeUtf16(s) + [0, 0])
    else Failure(ValueOutOfRange)
  }

  /** `load_str(rva)` on the input file `f`: the 32-bit length, then that
      many bytes (fewer at end of file) decoded as UTF-16LE. A cut-off
      length is a decode error; so is an odd number of string bytes. */
  function LoadStr(f: seq<byte>, rva: nat): Result<seq<u16>> {
    var lb := FileRead(f, rva, 4);
    if |lb| != 4 then Failure(MalformedRecord)
    else
      var buf := FileRead(f, rva + 4, FromLE(lb));
      if |buf| % 2 != 0 then Failure(BadString) else Success(DecodeUtf16(buf))
  }

  /** The encoded form: the length prefix is twice the code units (the
      terminator left out), then the code units, then two zero bytes. */
  lemma MakeStrLayout(s: seq<u16>)
    ensures MakeStr(s).Success? <==> 2 * |s| < 0x1_0000_0000
    ensures MakeStr(s).Success? ==>
              var m := MakeStr(s).value;
              |m| == 2 * |s| + 6 && FromLE(m[..4]) == 2 * |s| &&
              m[4..4 + 2 * |s|] == EncodeUtf16(s) && m[4 + 2 * |s|..] == [0, 0]
  {
    if 2 * |s| < 0x1_0000_0000 {
      var m := MakeStr(s).value;
      assert m[..4] == LE(2 * |s|, 4);
      FromLEOfLE(2 * |s|, 4);
    }
  }

  /** Round trip: wherever a file holds the encoding of `s`, `load_str`
      there gives `s` back. */
  lemma LoadMakeStr(f: seq<byte>, at: nat, s: seq<u16>)
    requires MakeStr(s).Success?
    requires at + |MakeStr(s).value| <= |f| && f[at..at + |MakeStr(s).value|] == MakeStr(s).value
    ensures LoadStr(f, at) == Success(s)
  {
    var m := MakeStr(s).value;
    MakeStrLayout(s);
    ReadWithin(f, at, m, 0, 4);
    ReadWithin(f, at, m, 4, 2 * |s|);
    DecodeEncode(s);
  }

  /** A read inside a region of the file that holds `m` returns part of `m`. */
  lemma ReadWithin(f: seq<byte>, at: nat, m: seq<byte>, k: nat, n: nat)
    requires at + |m| <= |f| && f[at..at + |m|] == m && k + n <= |m|
    ensures FileRead(f, at + k, n) == m[k..k + n]
  {
    var r, want := f[at + k..at + k + n], m[k..k + n];
    forall i | 0 <= i < n ensures r[i] == want[i] {
      assert f[at..at + |m|][k + i] == f[at + k + i];
    }
  }

  /** How `load_str` fails: a length cut off by the end of the file is a
      decode error, and so is an odd number of string bytes; a string cut
      off at an even length loads shortened. The definition's error cases,
      spelled out as a named fact. */
  lemma LoadStrErrors(f: seq<byte>, rva: nat)
    ensures LoadStr(f, rva) == Failure(MalformedRecord) <==> rva + 4 > |f|
    ensures rva + 4 <= |f| ==>
              var n := FromLE(f[rva..rva + 4]);
              var got := Min(n, |f| - (rva + 4));
              (LoadStr(f, rva) == Failure(BadString) <==> got % 2 != 0) &&
              (LoadStr(f, rva).Success? ==> 2 * |LoadStr(f, rva).value| == got)
  {
  }
}
