/** The record codec of dmplib.py (`_StructWithNames`): a record type is an
    ordered list of named fields, each a little-endian scalar or a nested
    record type whose scalars are flattened into the parent's packed layout. */
module Codec {
  import opened Bytes
  import opened Wrappers

  /** The struct format letters the record definitions use: B, H, I, Q, 4s. */
  datatype Kind = U8 | U16 | U32 | U64 | Chars4

  function Width(k: Kind): (w: nat)
    ensures w in {1, 2, 4, 8}
  {
    match k
    case U8 => 1
    case U16 => 2
    case U32 => 4
    case U64 => 8
    case Chars4 => 4
  }

  /** One element of the flat tuple struct.pack consumes and struct.unpack
      produces: an integer, or the 4-byte string of a `4s` field. */
  datatype Scalar = Int(n: nat) | Str(b: seq<byte>)

  /** Whether struct.pack accepts `v` for format letter `k`. */
  predicate Fits(k: Kind, v: Scalar) {
    match k
    case Chars4 => v.Str? && |v.b| == 4
    case _ => v.Int? && v.n < Pow256(Width(k))
  }

  datatype FieldType = Leaf(kind: Kind) | Nested(layout: Layout)
  datatype Field = Field(name: string, ty: FieldType)
  datatype Layout = Layout(name: string, fields: seq<Field>)

  /** A decoded record (`_Struct`): one member per field, in field order, and
      the trailing bytes `unpack_all` keeps (`_extra`). */
  datatype Member = Value(v: Scalar) | Sub(s: Struct)
  datatype Struct = Struct(members: seq<Member>, extra: seq<byte>)

  /** The flattened format string of a field list (`self.fmt`). */
  function Fmt(fs: seq<Field>): seq<Kind>
    decreases fs
  {
    if fs == [] then []
    else FieldFmt(fs[0]) + Fmt(fs[1..])
  }

  function FieldFmt(f: Field): seq<Kind>
    decreases f
  {
    match f.ty
    case Leaf(k) => [k]
    case Nested(l) => Fmt(l.fields)
  }

  /** The packed size of a format string under '<' (no padding). */
  function SizeOf(ks: seq<Kind>): nat {
    if ks == [] then 0 else Width(ks[0]) + SizeOf(ks[1..])
  }

  /** `self.size`. */
  function Size(l: Layout): nat {
    SizeOf(Fmt(l.fields))
  }

  /** `self.tuple_len`. */
  function TupleLen(l: Layout): nat {
    |Fmt(l.fields)|
  }

  predicate TupleFits(ks: seq<Kind>, t: seq<Scalar>) {
    |t| == |ks| && forall i :: 0 <= i < |ks| ==> Fits(ks[i], t[i])
  }

  /** A record whose members have the shape of `fs` and whose values all fit
      their fields. The trailing bytes of a nested record play no part:
      `update_tuple` descends into it and never looks at them. */
  predicate MembersFit(fs: seq<Field>, ms: seq<Member>)
    decreases fs
  {
    |ms| == |fs| &&
    (fs == [] || (MemberFits(fs[0], ms[0]) && MembersFit(fs[1..], ms[1..])))
  }

  predicate MemberFits(f: Field, m: Member)
    decreases f
  {
    match f.ty
    case Leaf(k) => m.Value? && Fits(k, m.v)
    case Nested(l) => m.Sub? && MembersFit(l.fields, m.s.members)
  }

  /** No nested record, at any depth, carries trailing bytes: the records
      `unpack` builds are of this kind, and only such records come back
      unchanged from a round trip through the packed bytes. */
  predicate Bare(fs: seq<Field>, ms: seq<Member>)
    decreases fs
  {
    |ms| == |fs| &&
    (fs == [] || (MemberBare(fs[0], ms[0]) && Bare(fs[1..], ms[1..])))
  }

  predicate MemberBare(f: Field, m: Member)
    decreases f
  {
    match f.ty
    case Leaf(k) => true
    case Nested(l) => m.Sub? && m.s.extra == [] && Bare(l.fields, m.s.members)
  }

  predicate Valid(l: Layout, s: Struct) {
    MembersFit(l.fields, s.members)
  }

  // ---------------------------------------------------------------- tuples

  /** `update_tuple`: the flat tuple of a record's scalars, nested records
      expanded in place. */
  function Flatten(fs: seq<Field>, ms: seq<Member>): (t: seq<Scalar>)
    requires MembersFit(fs, ms)
    ensures TupleFits(Fmt(fs), t)
    decreases fs
  {
    if fs == [] then []
    else
      var head := FlattenMember(fs[0], ms[0]);
      var tail := Flatten(fs[1..], ms[1..]);
      TupleFitsConcat(FieldFmt(fs[0]), head, Fmt(fs[1..]), tail);
      head + tail
  }

  function FlattenMember(f: Field, m: Member): (t: seq<Scalar>)
    requires MemberFits(f, m)
    ensures TupleFits(FieldFmt(f), t)
    decreases f
  {
    match f.ty
    case Leaf(k) => [m.v]
    case Nested(l) => Flatten(l.fields, m.s.members)
  }

  lemma TupleFitsConcat(ks1: seq<Kind>, t1: seq<Scalar>, ks2: seq<Kind>, t2: seq<Scalar>)
    requires TupleFits(ks1, t1) && TupleFits(ks2, t2)
    ensures TupleFits(ks1 + ks2, t1 + t2)
  {
    forall i | 0 <= i < |ks1 + ks2| ensures Fits((ks1 + ks2)[i], (t1 + t2)[i]) {
      if i >= |ks1| {
        assert (ks1 + ks2)[i] == ks2[i - |ks1|] && (t1 + t2)[i] == t2[i - |ks1|];
      }
    }
  }

  /** `unpack_tuple`'s member constructors: rebuild the members of `fs` from
      a flat tuple of the right length. */
  function Build(fs: seq<Field>, t: seq<Scalar>): seq<Member>
    requires |t| == |Fmt(fs)|
    decreases fs
  {
    if fs == [] then []
    else
      var n := |FieldFmt(fs[0])|;
      [BuildMember(fs[0], t[..n])] + Build(fs[1..], t[n..])
  }

  function BuildMember(f: Field, t: seq<Scalar>): Member
    requires |t| == |FieldFmt(f)|
    decreases f
  {
    match f.ty
    case Leaf(k) => Value(t[0])
    case Nested(l) => Sub(Struct(Build(l.fields, t), []))
  }

  // --------------------------------------------------------------- scalars

  function PackScalar(k: Kind, v: Scalar): (r: seq<byte>)
    requires Fits(k, v)
    ensures |r| == Width(k)
  {
    if k == Chars4 then v.b else LE(v.n, Width(k))
  }

  function UnpackScalar(k: Kind, b: seq<byte>): (v: Scalar)
    requires |b| == Width(k)
    ensures Fits(k, v)
  {
    if k == Chars4 then Str(b) else Int(FromLE(b))
  }

  /** struct.pack over the flattened format. */
  function PackScalars(ks: seq<Kind>, t: seq<Scalar>): (r: seq<byte>)
    requires TupleFits(ks, t)
    ensures |r| == SizeOf(ks)
  {
    if ks == [] then []
    else
      assert TupleFits(ks[1..], t[1..]) by {
        forall i | 0 <= i < |ks| - 1 ensures Fits(ks[1..][i], t[1..][i]) {
          assert Fits(ks[i + 1], t[i + 1]);
        }
      }
      PackScalar(ks[0], t[0]) + PackScalars(ks[1..], t[1..])
  }

  /** struct.unpack over the flattened format, for a buffer of exactly the
      packed size. */
  function UnpackScalars(ks: seq<Kind>, b: seq<byte>): (t: seq<Scalar>)
    requires |b| == SizeOf(ks)
    ensures TupleFits(ks, t)
  {
    if ks == [] then []
    else
      var w := Width(ks[0]);
      var rest := UnpackScalars(ks[1..], b[w..]);
      TupleFitsConcat([ks[0]], [UnpackScalar(ks[0], b[..w])], ks[1..], rest);
      assert [ks[0]] + ks[1..] == ks;
      [UnpackScalar(ks[0], b[..w])] + rest
  }

  // ------------------------------------------------------ pack and unpack

  /** `pack`: the packed scalars followed by the record's trailing bytes;
      struct.pack raises when a value does not fit its field. */
  function Pack(l: Layout, s: Struct): Result<seq<byte>> {
    if Valid(l, s) then Success(PackScalars(Fmt(l.fields), Flatten(l.fields, s.members)) + s.extra)
    else Failure(ValueOutOfRange)
  }

  /** `unpack_tuple(r, extra)`. */
  function UnpackTuple(l: Layout, t: seq<Scalar>, extra: seq<byte>): Result<Struct> {
    if |t| != TupleLen(l) then Failure(TupleLength)
    else Success(Struct(Build(l.fields, t), extra))
  }

  /** `unpack`: struct.unpack demands exactly `size` bytes. */
  function Unpack(l: Layout, b: seq<byte>): Result<Struct> {
    if |b| != Size(l) then Failure(MalformedRecord)
    else UnpackTuple(l, UnpackScalars(Fmt(l.fields), b), [])
  }

  /** `unpack_all`: the first `size` bytes are the record, the rest is kept. */
  function UnpackAll(l: Layout, b: seq<byte>): Result<Struct> {
    if |b| < Size(l) then Failure(MalformedRecord)
    else UnpackTuple(l, UnpackScalars(Fmt(l.fields), b[..Size(l)]), b[Size(l)..])
  }

  // ------------------------------------------------------------- lemmas

  lemma {:induction false} SizeOfConcat(a: seq<Kind>, b: seq<Kind>)
    ensures SizeOf(a + b) == SizeOf(a) + SizeOf(b)
  {
    if a != [] {
      assert (a + b)[0] == a[0] && (a + b)[1..] == a[1..] + b;
      SizeOfConcat(a[1..], b);
    } else {
      assert a + b == b;
    }
  }

  lemma TupleFitsSplit(ks1: seq<Kind>, ks2: seq<Kind>, t: seq<Scalar>)
    requires TupleFits(ks1 + ks2, t)
    ensures TupleFits(ks1, t[..|ks1|]) && TupleFits(ks2, t[|ks1|..])
  {
    forall i | 0 <= i < |ks2| ensures Fits(ks2[i], t[|ks1|..][i]) {
      assert (ks1 + ks2)[|ks1| + i] == ks2[i];
    }
    forall i | 0 <= i < |ks1| ensures Fits(ks1[i], t[..|ks1|][i]) {
      assert (ks1 + ks2)[i] == ks1[i];
    }
  }

  /** Packing then unpacking a flat tuple gives it back. */
  lemma {:induction false} UnpackPackScalars(ks: seq<Kind>, t: seq<Scalar>)
    requires TupleFits(ks, t)
    ensures UnpackScalars(ks, PackScalars(ks, t)) == t
  {
    if ks != [] {
      var b := PackScalars(ks, t);
      var w := Width(ks[0]);
      assert TupleFits(ks[1..], t[1..]) by {
        forall i | 0 <= i < |ks| - 1 ensures Fits(ks[1..][i], t[1..][i]) {
          assert Fits(ks[i + 1], t[i + 1]);
        }
      }
      assert b[..w] == PackScalar(ks[0], t[0]);
      assert b[w..] == PackScalars(ks[1..], t[1..]);
      UnpackPackScalars(ks[1..], t[1..]);
      if ks[0] != Chars4 {
        FromLEOfLE(t[0].n, w);
      }
    }
  }

  /** Unpacking then packing a buffer of the packed size gives it back. */
  lemma {:induction false} PackUnpackScalars(ks: seq<Kind>, b: seq<byte>)
    requires |b| == SizeOf(ks)
    ensures PackScalars(ks, UnpackScalars(ks, b)) == b
  {
    if ks != [] {
      var w := Width(ks[0]);
      var t := UnpackScalars(ks, b);
      assert t[1..] == UnpackScalars(ks[1..], b[w..]);
      PackUnpackScalars(ks[1..], b[w..]);
      if ks[0] != Chars4 {
        LEOfFromLE(b[..w]);
      }
      assert b == b[..w] + b[w..];
    }
  }

  /** Rebuilding the members from their flattened tuple gives them back. */
  lemma {:induction false} BuildFlatten(fs: seq<Field>, ms: seq<Member>)
    requires MembersFit(fs, ms) && Bare(fs, ms)
    ensures Build(fs, Flatten(fs, ms)) == ms
    decreases fs
  {
    if fs != [] {
      var head := FlattenMember(fs[0], ms[0]);
      var t := Flatten(fs, ms);
      assert t[..|head|] == head;
      assert t[|head|..] == Flatten(fs[1..], ms[1..]);
      BuildFlattenMember(fs[0], ms[0]);
      BuildFlatten(fs[1..], ms[1..]);
    }
  }

  lemma {:induction false} BuildFlattenMember(f: Field, m: Member)
    requires MemberFits(f, m) && MemberBare(f, m)
    ensures BuildMember(f, FlattenMember(f, m)) == m
    decreases f
  {
    match f.ty
    case Leaf(k) =>
    case Nested(l) =>
      BuildFlatten(l.fields, m.s.members);
  }

  /** Rebuilding members from any fitting tuple gives a record of the right
      shape whose flattened tuple is that tuple. */
  lemma {:induction false} FlattenBuild(fs: seq<Field>, t: seq<Scalar>)
    requires TupleFits(Fmt(fs), t)
    ensures MembersFit(fs, Build(fs, t)) && Flatten(fs, Build(fs, t)) == t
    decreases fs
  {
    if fs != [] {
      var n := |FieldFmt(fs[0])|;
      TupleFitsSplit(FieldFmt(fs[0]), Fmt(fs[1..]), t);
      FlattenBuildMember(fs[0], t[..n]);
      FlattenBuild(fs[1..], t[n..]);
      FlattenBuildStep(fs, t);
    }
  }

  /** The head field rebuilt from its part of the tuple, the rest from the
      remainder. */
  lemma FlattenBuildStep(fs: seq<Field>, t: seq<Scalar>)
    requires fs != [] && |t| == |Fmt(fs)| && |FieldFmt(fs[0])| <= |t|
    requires var n := |FieldFmt(fs[0])|;
             MemberFits(fs[0], BuildMember(fs[0], t[..n])) &&
             FlattenMember(fs[0], BuildMember(fs[0], t[..n])) == t[..n] &&
             MembersFit(fs[1..], Build(fs[1..], t[n..])) && Flatten(fs[1..], Build(fs[1..], t[n..])) == t[n..]
    ensures MembersFit(fs, Build(fs, t)) && Flatten(fs, Build(fs, t)) == t
  {
    var n := |FieldFmt(fs[0])|;
    BuildCons(fs, t);
    FlattenCons(fs, BuildMember(fs[0], t[..n]), Build(fs[1..], t[n..]));
    SplitJoin(t, n);
  }

  lemma SplitJoin<T>(t: seq<T>, n: nat)
    requires n <= |t|
    ensures t[..n] + t[n..] == t
  {
  }

  /** `Build` on a non-empty field list: the head member, then the rest. */
  lemma BuildCons(fs: seq<Field>, t: seq<Scalar>)
    requires fs != [] && |t| == |Fmt(fs)| && |FieldFmt(fs[0])| <= |t|
    ensures Build(fs, t) == [BuildMember(fs[0], t[..|FieldFmt(fs[0])|])] + Build(fs[1..], t[|FieldFmt(fs[0])|..])
  {
  }

  /** A head member and the rest: their fit and their flattening. */
  lemma FlattenCons(fs: seq<Field>, m: Member, rest: seq<Member>)
    requires fs != [] && MemberFits(fs[0], m) && MembersFit(fs[1..], rest)
    ensures MembersFit(fs, [m] + rest)
    ensures Flatten(fs, [m] + rest) == FlattenMember(fs[0], m) + Flatten(fs[1..], rest)
  {
    var ms := [m] + rest;
    assert ms[0] == m && ms[1..] == rest;
  }

  lemma {:induction false} FlattenBuildMember(f: Field, t: seq<Scalar>)
    requires TupleFits(FieldFmt(f), t)
    ensures MemberFits(f, BuildMember(f, t)) && FlattenMember(f, BuildMember(f, t)) == t
    decreases f
  {
    match f.ty
    case Leaf(k) =>
      assert Fits(FieldFmt(f)[0], t[0]);
    case Nested(l) =>
      FlattenBuild(l.fields, t);
  }

  /** A field list without nested records: every record of it is bare. */
  lemma {:induction false} LeavesBare(fs: seq<Field>, ms: seq<Member>)
    requires |ms| == |fs| && forall i :: 0 <= i < |fs| ==> fs[i].ty.Leaf?
    ensures Bare(fs, ms)
    decreases fs
  {
    if fs != [] {
      assert forall i :: 0 <= i < |fs| - 1 ==> fs[1..][i] == fs[i + 1];
      LeavesBare(fs[1..], ms[1..]);
    }
  }

  /** The records `unpack` builds carry no nested trailing bytes. */
  lemma {:induction false} BuildBare(fs: seq<Field>, t: seq<Scalar>)
    requires |t| == |Fmt(fs)|
    ensures Bare(fs, Build(fs, t))
    decreases fs
  {
    if fs != [] {
      var n := |FieldFmt(fs[0])|;
      BuildCons(fs, t);
      BuildMemberBare(fs[0], t[..n]);
      BuildBare(fs[1..], t[n..]);
      var ms := Build(fs, t);
      assert ms[0] == BuildMember(fs[0], t[..n]) && ms[1..] == Build(fs[1..], t[n..]);
    }
  }

  lemma {:induction false} BuildMemberBare(f: Field, t: seq<Scalar>)
    requires |t| == |FieldFmt(f)|
    ensures MemberBare(f, BuildMember(f, t))
    decreases f
  {
    match f.ty
    case Leaf(k) =>
    case Nested(l) =>
      BuildBare(l.fields, t);
  }

  /** Round trip: a valid record without trailing bytes, at any depth,
      packs to `Size(l)` bytes that unpack to the same record. */
  lemma PackThenUnpack(l: Layout, s: Struct)
    requires Valid(l, s) && s.extra == [] && Bare(l.fields, s.members)
    ensures Pack(l, s).Success? && |Pack(l, s).value| == Size(l)
    ensures Unpack(l, Pack(l, s).value) == Success(s)
  {
    var t := Flatten(l.fields, s.members);
    UnpackPackScalars(Fmt(l.fields), t);
    BuildFlatten(l.fields, s.members);
    assert PackScalars(Fmt(l.fields), t) + [] == PackScalars(Fmt(l.fields), t);
  }

  /** Round trip the other way: `unpack_all` keeps whatever follows the
      record, so packing its result reproduces the buffer exactly. */
  lemma UnpackAllThenPack(l: Layout, b: seq<byte>)
    requires |b| >= Size(l)
    ensures UnpackAll(l, b).Success?
    ensures Valid(l, UnpackAll(l, b).value)
    ensures UnpackAll(l, b).value.extra == b[Size(l)..]
    ensures Pack(l, UnpackAll(l, b).value) == Success(b)
  {
    var n := Size(l);
    UnpackAllShape(l, b);
    PackBuilt(l, b[..n], b[n..]);
    assert b[..n] + b[n..] == b;
  }

  /** What `unpack_all` returns, spelled out. */
  lemma UnpackAllShape(l: Layout, b: seq<byte>)
    requires |b| >= Size(l)
    ensures UnpackAll(l, b) ==
              Success(Struct(Build(l.fields, UnpackScalars(Fmt(l.fields), b[..Size(l)])), b[Size(l)..]))
  {
  }

  /** The members decoded from `head`, with trailing bytes `tail`, are a
      valid record that packs to `head + tail`. */
  lemma PackBuilt(l: Layout, head: seq<byte>, tail: seq<byte>)
    requires |head| == Size(l)
    ensures var s := Struct(Build(l.fields, UnpackScalars(Fmt(l.fields), head)), tail);
            Valid(l, s) && Pack(l, s) == Success(head + tail)
  {
    var t := UnpackScalars(Fmt(l.fields), head);
    FlattenBuild(l.fields, t);
    PackUnpackScalars(Fmt(l.fields), head);
  }

  /** `unpack` succeeds exactly on buffers of the record's size, and what it
      returns packs back to the buffer. */
  lemma UnpackThenPack(l: Layout, b: seq<byte>)
    ensures Unpack(l, b).Success? <==> |b| == Size(l)
    ensures Unpack(l, b).Success? ==>
              Valid(l, Unpack(l, b).value) && Unpack(l, b).value.extra == [] &&
              Pack(l, Unpack(l, b).value) == Success(b)
  {
    if |b| == Size(l) {
      UnpackAllThenPack(l, b);
      assert b[..Size(l)] == b && b[Size(l)..] == [];
    }
  }

  /** A leading scalar field decodes from the buffer's first bytes. */
  lemma UnpackFirstLeaf(l: Layout, b: seq<byte>, k: Kind)
    requires |b| == Size(l) && |l.fields| > 0 && l.fields[0].ty == Leaf(k)
    ensures Unpack(l, b).Success?
    ensures |Unpack(l, b).value.members| > 0
    ensures Unpack(l, b).value.members[0] == Value(UnpackScalar(k, b[..Width(k)]))
  {
    var fs := l.fields;
    var ks := Fmt(fs);
    assert FieldFmt(fs[0]) == [k];
    assert ks == [k] + Fmt(fs[1..]);
    var t := UnpackScalars(ks, b);
    assert t[0] == UnpackScalar(k, b[..Width(k)]);
    assert Build(fs, t)[0] == BuildMember(fs[0], t[..1]);
  }

  /** `unpack_tuple` raises exactly when the tuple length is not `tuple_len`
      (the definition's check, spelled out as a named fact). */
  lemma UnpackTupleChecksLength(l: Layout, t: seq<Scalar>, extra: seq<byte>)
    ensures UnpackTuple(l, t, extra).Failure? <==> |t| != TupleLen(l)
    ensures UnpackTuple(l, t, extra).Success? ==> UnpackTuple(l, t, extra).value.extra == extra
  {
  }

  /** The packed output is the fixed size plus the trailing bytes, and
      packing fails only on a record that does not fit its layout: an
      unfolding of `Pack` that the writers call by name. */
  lemma PackSize(l: Layout, s: Struct)
    ensures Pack(l, s).Success? <==> Valid(l, s)
    ensures Pack(l, s).Success? ==> |Pack(l, s).value| == Size(l) + |s.extra|
  {
  }

  /** The size as a sum over the fields from index `i` on, a nested field
      counting the size of its own layout: the flattening adds no padding. */
  function FieldsSize(fs: seq<Field>, i: nat): nat
    requires i <= |fs|
    decreases fs, |fs| - i
  {
    if i == |fs| then 0
    else
      (match fs[i].ty
       case Leaf(k) => Width(k)
       case Nested(l) => FieldsSize(l.fields, 0)) + FieldsSize(fs, i + 1)
  }

  lemma {:induction false} SizeIsFieldSum(fs: seq<Field>, i: nat)
    requires i <= |fs|
    ensures SizeOf(Fmt(fs[i..])) == FieldsSize(fs, i)
    decreases fs, |fs| - i
  {
    if i < |fs| {
      assert fs[i..][0] == fs[i] && fs[i..][1..] == fs[i + 1..];
      SizeOfConcat(FieldFmt(fs[i]), Fmt(fs[i + 1..]));
      SizeIsFieldSum(fs, i + 1);
      match fs[i].ty
      case Leaf(k) =>
        assert SizeOf([k]) == Width(k);
      case Nested(sub) =>
        SizeIsFieldSum(sub.fields, 0);
        assert sub.fields[0..] == sub.fields;
    } else {
      assert fs[i..] == [];
    }
  }

  /** `Size(l)` is the field sum. */
  lemma LayoutSize(l: Layout)
    ensures Size(l) == FieldsSize(l.fields, 0)
  {
    SizeIsFieldSum(l.fields, 0);
    assert l.fields[0..] == l.fields;
  }

  lemma {:induction false} FmtConcat(a: seq<Field>, b: seq<Field>)
    ensures Fmt(a + b) == Fmt(a) + Fmt(b)
  {
    if a == [] {
      assert a + b == b;
    } else {
      assert (a + b)[0] == a[0] && (a + b)[1..] == a[1..] + b;
      FmtConcat(a[1..], b);
    }
  }

  lemma FmtSnoc(fs: seq<Field>, i: nat)
    requires i < |fs|
    ensures Fmt(fs[..i + 1]) == Fmt(fs[..i]) + FieldFmt(fs[i])
  {
    assert fs[..i + 1] == fs[..i] + [fs[i]];
    FmtConcat(fs[..i], [fs[i]]);
    assert [fs[i]][1..] == [];
  }

  // ------------------------------------------------ construction

  /** The default record: scalars are 0; a nested field holds its own type's
      default record. A `4s` field gets four zero bytes. */
  function Default(fs: seq<Field>): (ms: seq<Member>)
    ensures |ms| == |fs| && MembersFit(fs, ms)
    decreases fs
  {
    if fs == [] then []
    else [DefaultMember(fs[0])] + Default(fs[1..])
  }

  function DefaultMember(f: Field): (m: Member)
    ensures MemberFits(f, m)
    decreases f
  {
    match f.ty
    case Leaf(k) => Value(if k == Chars4 then Str([0, 0, 0, 0]) else Int(0))
    case Nested(l) => Sub(Struct(Default(l.fields), []))
  }

  predicate DistinctNames(fs: seq<Field>) {
    forall i, j :: 0 <= i < j < |fs| ==> fs[i].name != fs[j].name
  }

  /** What `__init__` precomputes for a record type. */
  datatype Compiled = Compiled(
    fmt: seq<Kind>,          // self.fmt, flattened
    offsets: seq<nat>,       // tuple position of each member (`p` in member_map)
    defaults: seq<Member>,   // self.defaults, in field order
    size: nat,               // self.size
    tupleLen: nat)           // self.tuple_len

  /** The layout loop of `__init__`: one pass over the fields, appending each
      field's format and advancing the tuple position by its flat length. */
  method Compile(l: Layout) returns (c: Compiled)
    ensures c.fmt == Fmt(l.fields)
    ensures c.tupleLen == |c.fmt| == TupleLen(l)
    ensures c.size == Size(l)
    ensures c.defaults == Default(l.fields)
    ensures |c.offsets| == |l.fields|
    ensures forall i :: 0 <= i < |l.fields| ==>
              c.offsets[i] == |Fmt(l.fields[..i])| &&
              c.offsets[i] + |FieldFmt(l.fields[i])| <= c.tupleLen
  {
    var fs := l.fields;
    var p := 0;
    var fmt: seq<Kind> := [];
    var offsets: seq<nat> := [];
    var defaults: seq<Member> := [];
    var i := 0;
    while i < |fs|
      invariant 0 <= i <= |fs|
      invariant fmt == Fmt(fs[..i]) && p == |fmt|
      invariant |offsets| == i
      invariant forall j :: 0 <= j < i ==> offsets[j] == |Fmt(fs[..j])|
      invariant defaults == Default(fs[..i])
    {
      FmtSnoc(fs, i);
      DefaultSnoc(fs, i);
      offsets := offsets + [p];
      match fs[i].ty {
        case Leaf(k) =>
          defaults := defaults + [Value(if k == Chars4 then Str([0, 0, 0, 0]) else Int(0))];
          fmt := fmt + [k];
          p := p + 1;
        case Nested(sub) =>
          defaults := defaults + [Sub(Struct(Default(sub.fields), []))];
          fmt := fmt + Fmt(sub.fields);
          p := p + |Fmt(sub.fields)|;
      }
      i := i + 1;
    }
    assert fs[..i] == fs;
    forall j | 0 <= j < |fs| ensures offsets[j] + |FieldFmt(fs[j])| <= p {
      FmtSnoc(fs, j);
      assert fs == fs[..j + 1] + fs[j + 1..];
      FmtConcat(fs[..j + 1], fs[j + 1..]);
    }
    SizeFromFmt(l);
    c := Compiled(fmt, offsets, defaults, SizeOf(fmt), p);
  }

  lemma {:induction false} DefaultConcat(a: seq<Field>, b: seq<Field>)
    ensures Default(a + b) == Default(a) + Default(b)
  {
    if a == [] {
      assert a + b == b;
    } else {
      assert (a + b)[0] == a[0] && (a + b)[1..] == a[1..] + b;
      DefaultConcat(a[1..], b);
    }
  }

  lemma DefaultSnoc(fs: seq<Field>, i: nat)
    requires i < |fs|
    ensures Default(fs[..i + 1]) == Default(fs[..i]) + [DefaultMember(fs[i])]
  {
    assert fs[..i + 1] == fs[..i] + [fs[i]];
    DefaultConcat(fs[..i], [fs[i]]);
    assert [fs[i]][1..] == [];
  }

  lemma SizeFromFmt(l: Layout)
    ensures Size(l) == SizeOf(Fmt(l.fields))
  {
  }

  /** `self.defaults` as the dictionary `__init__` builds. */
  function DefaultsMap(fs: seq<Field>): (kw: map<string, Member>)
    requires DistinctNames(fs)
    ensures forall j :: 0 <= j < |fs| ==> fs[j].name in kw && kw[fs[j].name] == Default(fs)[j]
  {
    NamesIndex(fs);
    var d := Default(fs);
    map j | 0 <= j < |fs| :: fs[j].name := d[j]
  }

  /** Distinct names: a name picks out one field. */
  lemma NamesIndex(fs: seq<Field>)
    requires DistinctNames(fs)
    ensures forall i, j :: 0 <= i < |fs| && 0 <= j < |fs| && fs[i].name == fs[j].name ==> i == j
  {
    forall i, j | 0 <= i < |fs| && 0 <= j < |fs| && fs[i].name == fs[j].name ensures i == j {
      if i < j {
        assert fs[i].name != fs[j].name;
      } else if j < i {
        assert fs[j].name != fs[i].name;
      }
    }
  }

  /** What `__call__` stores for field `j` once the first `i` positional
      arguments have been applied. */
  function Chosen(fs: seq<Field>, args: seq<Member>, kws: map<string, Member>, i: nat, j: nat): Member
    requires j < |fs| && i <= |args|
  {
    if j < i then args[j]
    else if fs[j].name in kws then kws[fs[j].name]
    else Default(fs)[j]
  }

  predicate ChosenSoFar(fs: seq<Field>, args: seq<Member>, kws: map<string, Member>,
                        i: nat, kw: map<string, Member>)
    requires i <= |args|
  {
    forall j :: 0 <= j < |fs| ==>
      (fs[j].name in kw && kw[fs[j].name] == Chosen(fs, args, kws, i, j))
  }

  lemma ChosenStep(fs: seq<Field>, args: seq<Member>, kws: map<string, Member>,
                   i: nat, kw: map<string, Member>)
    requires DistinctNames(fs) && i < |fs| && i < |args|
    requires ChosenSoFar(fs, args, kws, i, kw)
    ensures ChosenSoFar(fs, args, kws, i + 1, kw[fs[i].name := args[i]])
  {
    var kw' := kw[fs[i].name := args[i]];
    forall j | 0 <= j < |fs|
      ensures fs[j].name in kw' && kw'[fs[j].name] == Chosen(fs, args, kws, i + 1, j)
    {
      if j != i {
        assert fs[j].name != fs[i].name;
      }
    }
  }

  /** What `__call__` stores in each field: its positional argument, else
      its named argument, else its default. */
  function CallMembers(fs: seq<Field>, args: seq<Member>, kws: map<string, Member>): (ms: seq<Member>)
    ensures |ms| == |fs|
  {
    var d := Default(fs);
    seq(|fs|, j requires 0 <= j < |fs| =>
      if j < |args| then args[j] else if fs[j].name in kws then kws[fs[j].name] else d[j])
  }

  /** `__call__`: start from the defaults, apply the named arguments, then
      the positional ones (zip stops at the shorter of names and args). */
  method Construct(l: Layout, args: seq<Member>, kws: map<string, Member>) returns (s: Struct)
    requires DistinctNames(l.fields)
    ensures s == Struct(CallMembers(l.fields, args, kws), [])
  {
    var fs := l.fields;
    var kw := DefaultsMap(fs) + kws;
    var i := 0;
    var n := Min(|fs|, |args|);
    ChosenStart(fs, args, kws);
    while i < n
      invariant 0 <= i <= n
      invariant ChosenSoFar(fs, args, kws, i, kw)
    {
      ChosenStep(fs, args, kws, i, kw);
      kw := kw[fs[i].name := args[i]];
      i := i + 1;
    }
    ChosenAll(fs, args, kws, kw);
    s := Struct(Pick(fs, kw), []);
  }

  /** The defaults overridden by the named arguments. */
  lemma ChosenStart(fs: seq<Field>, args: seq<Member>, kws: map<string, Member>)
    requires DistinctNames(fs)
    ensures ChosenSoFar(fs, args, kws, 0, DefaultsMap(fs) + kws)
  {
  }

  /** The value stored under each field's name. */
  function Pick(fs: seq<Field>, kw: map<string, Member>): (ms: seq<Member>)
    requires forall j :: 0 <= j < |fs| ==> fs[j].name in kw
    ensures |ms| == |fs|
  {
    seq(|fs|, j requires 0 <= j < |fs| => kw[fs[j].name])
  }

  /** Once every positional argument is applied, each field holds its
      argument, else its named argument, else its default. */
  lemma ChosenAll(fs: seq<Field>, args: seq<Member>, kws: map<string, Member>, kw: map<string, Member>)
    requires Min(|fs|, |args|) <= |args| && ChosenSoFar(fs, args, kws, Min(|fs|, |args|), kw)
    ensures forall j :: 0 <= j < |fs| ==> fs[j].name in kw
    ensures Pick(fs, kw) == CallMembers(fs, args, kws)
  {
    var n := Min(|fs|, |args|);
    var p, c := Pick(fs, kw), CallMembers(fs, args, kws);
    forall j | 0 <= j < |fs| ensures p[j] == c[j] {
      assert kw[fs[j].name] == Chosen(fs, args, kws, n, j);
    }
  }

  /** `update_tuple`: append each scalar of the record to the tuple under
      construction, descending into nested records. */
  method UpdateTuple(fs: seq<Field>, ms: seq<Member>, t: seq<Scalar>) returns (t': seq<Scalar>)
    requires MembersFit(fs, ms)
    ensures t' == t + Flatten(fs, ms)
    decreases fs, 1
  {
    t' := t;
    var i := 0;
    while i < |fs|
      invariant 0 <= i <= |fs|
      invariant MembersFit(fs[i..], ms[i..])
      invariant t' + Flatten(fs[i..], ms[i..]) == t + Flatten(fs, ms)
    {
      FlattenStep(fs, ms, i);
      ghost var before := t';
      t' := UpdateMember(fs, ms, i, t');
      assert t' + Flatten(fs[i + 1..], ms[i + 1..]) == before + Flatten(fs[i..], ms[i..]);
      i := i + 1;
    }
  }

  /** One field of `update_tuple`'s loop: a scalar is appended, a nested
      record is descended into. */
  method UpdateMember(fs: seq<Field>, ms: seq<Member>, i: nat, t: seq<Scalar>) returns (t': seq<Scalar>)
    requires i < |fs| == |ms| && MemberFits(fs[i], ms[i])
    ensures t' == t + FlattenMember(fs[i], ms[i])
    decreases fs, 0
  {
    var m := ms[i];
    match fs[i].ty {
      case Leaf(k) =>
        t' := t + [m.v];
      case Nested(sub) =>
        t' := UpdateTuple(sub.fields, m.s.members, t);
    }
  }

  /** Peeling the first of the remaining fields off a flattening. */
  lemma FlattenStep(fs: seq<Field>, ms: seq<Member>, i: nat)
    requires i < |fs| == |ms| && MembersFit(fs[i..], ms[i..])
    ensures MemberFits(fs[i], ms[i]) && MembersFit(fs[i + 1..], ms[i + 1..])
    ensures Flatten(fs[i..], ms[i..]) == FlattenMember(fs[i], ms[i]) + Flatten(fs[i + 1..], ms[i + 1..])
  {
    assert fs[i..][1..] == fs[i + 1..] && ms[i..][1..] == ms[i + 1..];
  }

  /** `MembersFit` member by member. */
  lemma {:induction false} MembersFitAt(fs: seq<Field>, ms: seq<Member>)
    ensures MembersFit(fs, ms) <==>
              |ms| == |fs| && forall i :: 0 <= i < |fs| ==> MemberFits(fs[i], ms[i])
    decreases fs
  {
    if fs != [] && |ms| == |fs| {
      MembersFitAt(fs[1..], ms[1..]);
      assert forall i :: 1 <= i < |fs| ==> fs[1..][i - 1] == fs[i] && ms[1..][i - 1] == ms[i];
    }
  }

  /** Replacing one member by a value that fits its field keeps the record
      valid (a field assignment such as `e.TypeNameRva = ...`). */
  lemma ReplaceMember(l: Layout, s: Struct, i: nat, m: Member)
    requires Valid(l, s) && i < |l.fields| && MemberFits(l.fields[i], m)
    ensures Valid(l, s.(members := s.members[i := m]))
  {
    MembersFitAt(l.fields, s.members);
    MembersFitAt(l.fields, s.members[i := m]);
  }
}
