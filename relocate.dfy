/** Out-of-band relocation (`load`, `load_str`, `make_str` and `write_oob`
    as full-dumpize.py combines them): the data a record refers to is
    copied from the input to the writer's cursor, and the record is made to
    refer to the copy. */
module Relocate {
  import opened Bytes
  import opened Wrappers
  import opened Codec
  import opened Records
  import opened Writer
  import opened Strings

  // ------------------------------------------------------ file contents

  /** File `f` holds the bytes `b` at offset `at` (trivially, for none). */
  predicate Holds(f: seq<byte>, at: nat, b: seq<byte>) {
    b == [] || (at + |b| <= |f| && f[at..at + |b|] == b)
  }

  /** `f1` is no shorter than `f0` and keeps all its bytes below `p`. */
  predicate KeepsBelow(f0: seq<byte>, f1: seq<byte>, p: nat) {
    |f0| <= |f1| && forall i :: 0 <= i < |f0| && i < p ==> f1[i] == f0[i]
  }

  lemma PatchKeepsBelow(f: seq<byte>, p: nat, c: seq<byte>)
    ensures KeepsBelow(f, Patch(f, p, c), p)
  {
    forall i | 0 <= i < |f| && i < p ensures Patch(f, p, c)[i] == f[i] {
      PatchAt(f, p, c, i);
    }
  }

  lemma KeepsBelowTrans(f0: seq<byte>, f1: seq<byte>, f2: seq<byte>, p: nat, q: nat)
    requires KeepsBelow(f0, f1, p) && KeepsBelow(f1, f2, q) && p <= q
    ensures KeepsBelow(f0, f2, p)
  {
  }

  /** Bytes held below `p` survive any change that keeps what is below `p`. */
  lemma HoldsKept(f0: seq<byte>, f1: seq<byte>, p: nat, at: nat, b: seq<byte>)
    requires Holds(f0, at, b) && KeepsBelow(f0, f1, p) && at + |b| <= p
    ensures Holds(f1, at, b)
  {
    if b != [] {
      var x, y := f1[at..at + |b|], f0[at..at + |b|];
      forall i | 0 <= i < |b| ensures x[i] == y[i] {
        assert f1[at + i] == f0[at + i];
      }
    }
  }

  /** What was just written is held. */
  lemma HoldsWritten(f: seq<byte>, p: nat, b: seq<byte>)
    ensures Holds(Patch(f, p, b), p, b)
  {
    PatchFacts(f, p, b);
  }

  /** A write that ends at or before `at` leaves what is held at `at`. */
  lemma HoldsPatchBelow(f: seq<byte>, at: nat, b: seq<byte>, p: nat, c: seq<byte>)
    requires Holds(f, at, b) && p + |c| <= at
    ensures Holds(Patch(f, p, c), at, b)
  {
    if b != [] {
      var g := Patch(f, p, c);
      var x, y := g[at..at + |b|], f[at..at + |b|];
      forall i | 0 <= i < |b| ensures x[i] == y[i] {
        PatchAt(f, p, c, at + i);
      }
    }
  }

  // ------------------------------------------------- single relocations

  /** `write_oob(make_str(load_str(rva))).RVA`: the string at `rva` of the
      input, re-encoded at the writer's cursor. The copy decodes to the
      same string. */
  method RelocateStr(dw: DumpWriter, fin: seq<byte>, rva: nat) returns (r: Result<nat>)
    requires dw.Valid()
    modifies dw, dw.fp
    ensures dw.Valid() && dw.dir == old(dw.dir) && dw.header == old(dw.header)
    ensures r.Success? <==> LoadStr(fin, rva).Success? && MakeStr(LoadStr(fin, rva).value).Success?
    ensures r.Failure? ==> dw.offset == old(dw.offset) && dw.fp.data == old(dw.fp.data)
    ensures r.Success? ==>
              var m := MakeStr(LoadStr(fin, rva).value).value;
              r.value == old(dw.offset) && dw.offset == old(dw.offset) + |m| &&
              dw.fp.data == Patch(old(dw.fp.data), old(dw.offset), m) &&
              Holds(dw.fp.data, r.value, m) &&
              LoadStr(dw.fp.data, r.value) == LoadStr(fin, rva)
  {
    var s :- LoadStr(fin, rva);
    var m :- MakeStr(s);
    var loc := dw.WriteOob(Some(m));
    StrWritten(old(dw.fp.data), old(dw.offset), s);
    r := Success(Num(loc, LocRva));
  }

  /** A string written at `p` is held there and loads back. */
  lemma StrWritten(f: seq<byte>, p: nat, s: seq<u16>)
    requires MakeStr(s).Success?
    ensures var g := Patch(f, p, MakeStr(s).value);
            Holds(g, p, MakeStr(s).value) && LoadStr(g, p) == Success(s)
  {
    var m := MakeStr(s).value;
    HoldsWritten(f, p, m);
    MakeStrLayout(s);
    LoadMakeStr(Patch(f, p, m), p, s);
  }

  /** `write_oob(load(d))`: an absent descriptor (RVA 0) becomes (0, 0)
      without reading or writing; a present one is copied, as far as the
      input file goes, to the writer's cursor, and the new descriptor gives
      the copy's size and offset. */
  method RelocateLoc(dw: DumpWriter, fin: seq<byte>, loc: Struct) returns (r: Struct)
    requires dw.Valid()
    modifies dw, dw.fp
    ensures dw.Valid() && dw.dir == old(dw.dir) && dw.header == old(dw.header)
    ensures var rva, size := Num(loc, LocRva), Num(loc, LocDataSize);
            if rva == 0 then
              r == Loc(0, 0) && dw.offset == old(dw.offset) && dw.fp.data == old(dw.fp.data)
            else
              var b := FileRead(fin, rva, size);
              r == Loc(|b|, old(dw.offset)) && dw.offset == old(dw.offset) + |b| &&
              dw.fp.data == Patch(old(dw.fp.data), old(dw.offset), b) &&
              Holds(dw.fp.data, old(dw.offset), b) &&
              (rva + size <= |fin| ==> |b| == size)
  {
    var rva := Num(loc, LocRva);
    var data: Option<seq<byte>> := None;
    if rva != 0 {
      data := Some(FileRead(fin, rva, Num(loc, LocDataSize)));
    }
    r := dw.WriteOob(data);
    if data.Some? {
      HoldsWritten(old(dw.fp.data), old(dw.offset), data.value);
    }
  }

  // ----------------------------------------------- references in records

  /** Where a reference sits in a record: member `i`, or member `j` of the
      nested record in member `i` (as `thr.Stack.Memory`). */
  datatype Path = Top(i: nat) | Inner(i: nat, j: nat)

  /** A reference to out-of-band data: a location descriptor, or the RVA of
      a string. */
  datatype Ref = LocRef(path: Path) | StrRef(path: Path)

  /** The record has a member at the path. */
  predicate PathIn(s: Struct, p: Path) {
    p.i < |s.members| &&
    (p.Inner? ==> s.members[p.i].Sub? && p.j < |s.members[p.i].s.members|)
  }

  function GetMember(s: Struct, p: Path): Member {
    match p
    case Top(i) => MemberAt(s, i)
    case Inner(i, j) => MemberAt(SubAt(s, i), j)
  }

  /** Assigning `m` at path `p` (`e.TypeNameRva = ...`,
      `thr.Stack.Memory = ...`); a record without that member is left as
      it is. */
  function SetMember(s: Struct, p: Path, m: Member): (r: Struct)
    ensures r.extra == s.extra && |r.members| == |s.members|
    ensures forall k :: 0 <= k < |s.members| && k != p.i ==> r.members[k] == s.members[k]
    ensures PathIn(s, p) ==> PathIn(r, p) && GetMember(r, p) == m
  {
    if !PathIn(s, p) then s
    else match p
      case Top(i) => s.(members := s.members[i := m])
      case Inner(i, j) =>
        var inner := s.members[i].s;
        s.(members := s.members[i := Sub(inner.(members := inner.members[j := m]))])
  }

  /** The references of a record type sit in different members. */
  predicate Distinct(refs: seq<Ref>) {
    forall a, b :: 0 <= a < b < |refs| ==> refs[a].path.i != refs[b].path.i
  }

  /** Assigning the new values of the references, in order. */
  function SetAll(s: Struct, refs: seq<Ref>, vals: seq<Member>): (r: Struct)
    requires |vals| == |refs|
    ensures r.extra == s.extra && |r.members| == |s.members|
    ensures forall k :: 0 <= k < |s.members| && (forall t :: 0 <= t < |refs| ==> refs[t].path.i != k) ==>
              r.members[k] == s.members[k]
    decreases |refs|
  {
    if refs == [] then s
    else
      var n := |refs| - 1;
      SetMember(SetAll(s, refs[..n], vals[..n]), refs[n].path, vals[n])
  }

  /** A path's member only changes by assigning that path. */
  lemma GetSetAllOther(s: Struct, refs: seq<Ref>, vals: seq<Member>, p: Path)
    requires |vals| == |refs|
    requires forall t :: 0 <= t < |refs| ==> refs[t].path.i != p.i
    ensures GetMember(SetAll(s, refs, vals), p) == GetMember(s, p)
    ensures PathIn(SetAll(s, refs, vals), p) == PathIn(s, p)
  {
  }

  /** After the assignments each reference holds its new value. */
  lemma {:induction false} GetSetAll(s: Struct, refs: seq<Ref>, vals: seq<Member>, k: nat)
    requires |vals| == |refs| && Distinct(refs) && k < |refs| && PathIn(s, refs[k].path)
    ensures GetMember(SetAll(s, refs, vals), refs[k].path) == vals[k]
    decreases |refs|
  {
    var n := |refs| - 1;
    var before := SetAll(s, refs[..n], vals[..n]);
    if k == n {
      GetSetAllOther(s, refs[..n], vals[..n], refs[k].path);
    } else {
      assert Distinct(refs[..n]);
      GetSetAll(s, refs[..n], vals[..n], k);
      GetSetOther(before, refs[n].path, vals[n], refs[k].path);
    }
  }

  /** Assigning one path leaves the member at a path in another member. */
  lemma GetSetOther(s: Struct, p: Path, m: Member, q: Path)
    requires p.i != q.i
    ensures GetMember(SetMember(s, p, m), q) == GetMember(s, q)
  {
  }

  /** The location descriptor `load(d)` reads. */
  function LoadLoc(m: Member): Struct {
    if m.Sub? then m.s else Struct([], [])
  }

  /** The integer a reference to a string holds. */
  function MemberNum(m: Member): nat {
    if m.Value? && m.v.Int? then m.v.n else 0
  }

  /** Relocating a location descriptor cannot fail; relocating a string
      fails when it does not load or does not re-encode. */
  predicate Relocatable(fin: seq<byte>, r: Ref, prev: Member) {
    r.LocRef? ||
    (LoadStr(fin, MemberNum(prev)).Success? && MakeStr(LoadStr(fin, MemberNum(prev)).value).Success?)
  }

  /** `next` is what relocating the reference `prev` gave, with the copy
      placed in the output `f` between `lo` and `hi`. */
  predicate Fresh(fin: seq<byte>, f: seq<byte>, lo: nat, hi: nat, r: Ref, prev: Member, next: Member) {
    match r
    case LocRef(_) =>
      var loc := LoadLoc(prev);
      var rva := Num(loc, LocRva);
      if rva == 0 then next == Sub(Loc(0, 0))
      else
        var b := FileRead(fin, rva, Num(loc, LocDataSize));
        next.Sub? &&
        var a := Num(next.s, LocRva);
        next.s == Loc(|b|, a) && lo <= a && a + |b| <= hi && Holds(f, a, b)
    case StrRef(_) =>
      var s := LoadStr(fin, MemberNum(prev));
      s.Success? && MakeStr(s.value).Success? && next.Value? && next.v.Int? &&
      var a, m := next.v.n, MakeStr(s.value).value;
      lo <= a && a + |m| <= hi && Holds(f, a, m)
  }

  /** The copy of a relocated descriptor holds the bytes the input held
      (the same number, unless the input ends early); the copy of a
      relocated string decodes to the same string. */
  lemma FreshMeans(fin: seq<byte>, f: seq<byte>, lo: nat, hi: nat, r: Ref, prev: Member, next: Member)
    requires Fresh(fin, f, lo, hi, r, prev, next)
    ensures r.LocRef? && Num(LoadLoc(prev), LocRva) == 0 ==> next == Sub(Loc(0, 0))
    ensures r.LocRef? && Num(LoadLoc(prev), LocRva) != 0 ==>
              var rva, size := Num(LoadLoc(prev), LocRva), Num(LoadLoc(prev), LocDataSize);
              var a, n := Num(next.s, LocRva), Num(next.s, LocDataSize);
              FileRead(f, a, n) == FileRead(fin, rva, size) && (rva + size <= |fin| ==> n == size)
    ensures r.StrRef? ==> LoadStr(f, MemberNum(next)) == LoadStr(fin, MemberNum(prev))
  {
    if r.StrRef? {
      var s := LoadStr(fin, MemberNum(prev)).value;
      MakeStrLayout(s);
      LoadMakeStr(f, MemberNum(next), s);
    }
  }

  /** What a relocation placed stays placed while the file below the
      cursor of that time is kept. */
  lemma FreshMono(fin: seq<byte>, f0: seq<byte>, f1: seq<byte>, lo0: nat, hi0: nat, lo1: nat, hi1: nat,
                  r: Ref, prev: Member, next: Member)
    requires Fresh(fin, f0, lo0, hi0, r, prev, next) && KeepsBelow(f0, f1, hi0)
    requires lo1 <= lo0 && hi0 <= hi1
    ensures Fresh(fin, f1, lo1, hi1, r, prev, next)
  {
    match r
    case LocRef(_) =>
      var loc := LoadLoc(prev);
      if Num(loc, LocRva) != 0 {
        var b := FileRead(fin, Num(loc, LocRva), Num(loc, LocDataSize));
        HoldsKept(f0, f1, hi0, Num(next.s, LocRva), b);
      }
    case StrRef(_) =>
      var m := MakeStr(LoadStr(fin, MemberNum(prev)).value).value;
      HoldsKept(f0, f1, hi0, next.v.n, m);
  }

  /** ... and while a write goes below `lo`. */
  lemma FreshPatchBelow(fin: seq<byte>, f: seq<byte>, lo: nat, hi: nat, r: Ref, prev: Member, next: Member,
                        p: nat, c: seq<byte>)
    requires Fresh(fin, f, lo, hi, r, prev, next) && p + |c| <= lo
    ensures Fresh(fin, Patch(f, p, c), lo, hi, r, prev, next)
  {
    match r
    case LocRef(_) =>
      var loc := LoadLoc(prev);
      if Num(loc, LocRva) != 0 {
        var b := FileRead(fin, Num(loc, LocRva), Num(loc, LocDataSize));
        HoldsPatchBelow(f, Num(next.s, LocRva), b, p, c);
      }
    case StrRef(_) =>
      var m := MakeStr(LoadStr(fin, MemberNum(prev)).value).value;
      HoldsPatchBelow(f, next.v.n, m, p, c);
  }

  /** One reference of a record relocated. */
  method RelocateRef(dw: DumpWriter, fin: seq<byte>, rec: Struct, r: Ref)
    returns (res: Result<Struct>, ghost next: Member)
    requires dw.Valid()
    modifies dw, dw.fp
    ensures dw.Valid() && dw.dir == old(dw.dir) && dw.header == old(dw.header)
    ensures old(dw.offset) <= dw.offset && KeepsBelow(old(dw.fp.data), dw.fp.data, old(dw.offset))
    ensures res.Success? <==> Relocatable(fin, r, GetMember(rec, r.path))
    ensures res.Success? ==>
              res.value == SetMember(rec, r.path, next) &&
              Fresh(fin, dw.fp.data, old(dw.offset), dw.offset, r, GetMember(rec, r.path), next)
  {
    var prev := GetMember(rec, r.path);
    var m: Member;
    if r.LocRef? {
      var loc := RelocateLoc(dw, fin, LoadLoc(prev));
      m := Sub(loc);
      if Num(LoadLoc(prev), LocRva) != 0 {
        PatchKeepsBelow(old(dw.fp.data), old(dw.offset),
                        FileRead(fin, Num(LoadLoc(prev), LocRva), Num(LoadLoc(prev), LocDataSize)));
      }
    } else {
      var a := RelocateStr(dw, fin, MemberNum(prev));
      if a.Failure? {
        return Failure(a.error), prev;
      }
      m := Value(Int(a.value));
      PatchKeepsBelow(old(dw.fp.data), old(dw.offset), MakeStr(LoadStr(fin, MemberNum(prev)).value).value);
    }
    next := m;
    res := Success(SetMember(rec, r.path, m));
  }

  /** The references of one record relocated in order (`e.TypeNameRva =
      ...`, then `e.ObjectNameRva = ...`, and so on); the first that fails
      stops the relocation. */
  method RelocateRecord(dw: DumpWriter, fin: seq<byte>, rec: Struct, refs: seq<Ref>)
    returns (res: Result<Struct>, ghost nexts: seq<Member>)
    requires dw.Valid() && Distinct(refs)
    modifies dw, dw.fp
    ensures dw.Valid() && dw.dir == old(dw.dir) && dw.header == old(dw.header)
    ensures old(dw.offset) <= dw.offset && KeepsBelow(old(dw.fp.data), dw.fp.data, old(dw.offset))
    ensures res.Success? <==> RecordRelocatable(fin, rec, refs)
    ensures res.Success? ==>
              |nexts| == |refs| && res.value == SetAll(rec, refs, nexts) &&
              AllFresh(fin, dw.fp.data, old(dw.offset), dw.offset, rec, refs, nexts)
  {
    ghost var lo, f0 := dw.offset, dw.fp.data;
    var cur := rec;
    nexts := [];
    var k := 0;
    while k < |refs|
      invariant 0 <= k <= |refs| && |nexts| == k
      invariant dw.Valid() && dw.dir == old(dw.dir) && dw.header == old(dw.header)
      invariant lo <= dw.offset && KeepsBelow(f0, dw.fp.data, lo)
      invariant cur == SetAll(rec, refs[..k], nexts)
      invariant RecordRelocatable(fin, rec, refs[..k])
      invariant AllFresh(fin, dw.fp.data, lo, dw.offset, rec, refs[..k], nexts)
    {
      GetSetAllOther(rec, refs[..k], nexts, refs[k].path);
      ghost var f1, o1 := dw.fp.data, dw.offset;
      var one, next := RelocateRef(dw, fin, cur, refs[k]);
      if one.Failure? {
        assert !Relocatable(fin, refs[k], GetMember(rec, refs[k].path));
        return Failure(one.error), nexts;
      }
      RecordStep(fin, rec, refs, k, nexts, next, lo, f0, f1, dw.fp.data, o1, dw.offset);
      nexts := nexts + [next];
      cur := one.value;
      k := k + 1;
    }
    assert refs[..k] == refs;
    res := Success(cur);
  }

  /** One more reference of the record relocated: the loop facts of
      `RelocateRecord` carry over to the first `k + 1` references. */
  lemma RecordStep(fin: seq<byte>, rec: Struct, refs: seq<Ref>, k: nat, nexts: seq<Member>, next: Member,
                   lo: nat, f0: seq<byte>, f1: seq<byte>, f2: seq<byte>, o1: nat, o2: nat)
    requires k < |refs| && |nexts| == k && lo <= o1 <= o2
    requires RecordRelocatable(fin, rec, refs[..k]) && Relocatable(fin, refs[k], GetMember(rec, refs[k].path))
    requires AllFresh(fin, f1, lo, o1, rec, refs[..k], nexts) && KeepsBelow(f0, f1, lo)
    requires KeepsBelow(f1, f2, o1) && Fresh(fin, f2, o1, o2, refs[k], GetMember(rec, refs[k].path), next)
    ensures RecordRelocatable(fin, rec, refs[..k + 1])
    ensures AllFresh(fin, f2, lo, o2, rec, refs[..k + 1], nexts + [next])
    ensures KeepsBelow(f0, f2, lo)
    ensures SetMember(SetAll(rec, refs[..k], nexts), refs[k].path, next) == SetAll(rec, refs[..k + 1], nexts + [next])
  {
    AllFreshMono(fin, f1, f2, lo, o1, o2, rec, refs[..k], nexts);
    FreshMono(fin, f2, f2, o1, o2, lo, o2, refs[k], GetMember(rec, refs[k].path), next);
    KeepsBelowTrans(f0, f1, f2, lo, o1);
    RecordRelocatableSnoc(fin, rec, refs, k);
    AllFreshSnoc(fin, f2, lo, o2, rec, refs[..k], nexts, refs[k], next);
    assert refs[..k + 1] == refs[..k] + [refs[k]];
    assert (nexts + [next])[..k] == nexts;
  }

  lemma AllFreshSnoc(fin: seq<byte>, f: seq<byte>, lo: nat, hi: nat, rec: Struct, refs: seq<Ref>,
                     nexts: seq<Member>, r: Ref, next: Member)
    requires |nexts| == |refs| && AllFresh(fin, f, lo, hi, rec, refs, nexts)
    requires Fresh(fin, f, lo, hi, r, GetMember(rec, r.path), next)
    ensures AllFresh(fin, f, lo, hi, rec, refs + [r], nexts + [next])
  {
    var refs', nexts' := refs + [r], nexts + [next];
    forall k | 0 <= k < |refs'| ensures Fresh(fin, f, lo, hi, refs'[k], GetMember(rec, refs'[k].path), nexts'[k]) {
      if k < |refs| {
        assert refs'[k] == refs[k] && nexts'[k] == nexts[k];
      }
    }
  }

  /** Every reference of the record can be relocated. */
  predicate RecordRelocatable(fin: seq<byte>, rec: Struct, refs: seq<Ref>) {
    forall k :: 0 <= k < |refs| ==> Relocatable(fin, refs[k], GetMember(rec, refs[k].path))
  }

  lemma RecordRelocatableSnoc(fin: seq<byte>, rec: Struct, refs: seq<Ref>, k: nat)
    requires k < |refs| && RecordRelocatable(fin, rec, refs[..k])
    requires Relocatable(fin, refs[k], GetMember(rec, refs[k].path))
    ensures RecordRelocatable(fin, rec, refs[..k + 1])
  {
    assert refs[..k + 1] == refs[..k] + [refs[k]];
  }

  /** Every reference of the record was relocated to a copy between `lo`
      and `hi` of `f`. */
  predicate AllFresh(fin: seq<byte>, f: seq<byte>, lo: nat, hi: nat, rec: Struct, refs: seq<Ref>, nexts: seq<Member>)
    requires |nexts| == |refs|
  {
    forall k :: 0 <= k < |refs| ==> Fresh(fin, f, lo, hi, refs[k], GetMember(rec, refs[k].path), nexts[k])
  }

  lemma AllFreshMono(fin: seq<byte>, f0: seq<byte>, f1: seq<byte>, lo: nat, hi0: nat, hi1: nat,
                     rec: Struct, refs: seq<Ref>, nexts: seq<Member>)
    requires |nexts| == |refs| && AllFresh(fin, f0, lo, hi0, rec, refs, nexts)
    requires KeepsBelow(f0, f1, hi0) && hi0 <= hi1
    ensures AllFresh(fin, f1, lo, hi1, rec, refs, nexts)
  {
    forall k | 0 <= k < |refs|
      ensures Fresh(fin, f1, lo, hi1, refs[k], GetMember(rec, refs[k].path), nexts[k])
    {
      FreshMono(fin, f0, f1, lo, hi0, lo, hi1, refs[k], GetMember(rec, refs[k].path), nexts[k]);
    }
  }

  lemma AllFreshWiden(fin: seq<byte>, f: seq<byte>, lo0: nat, lo1: nat, hi: nat,
                      rec: Struct, refs: seq<Ref>, nexts: seq<Member>)
    requires |nexts| == |refs| && AllFresh(fin, f, lo0, hi, rec, refs, nexts) && lo1 <= lo0
    ensures AllFresh(fin, f, lo1, hi, rec, refs, nexts)
  {
    forall k | 0 <= k < |refs|
      ensures Fresh(fin, f, lo1, hi, refs[k], GetMember(rec, refs[k].path), nexts[k])
    {
      FreshMono(fin, f, f, lo0, hi, lo1, hi, refs[k], GetMember(rec, refs[k].path), nexts[k]);
    }
  }

  lemma AllFreshPatchBelow(fin: seq<byte>, f: seq<byte>, lo: nat, hi: nat,
                           rec: Struct, refs: seq<Ref>, nexts: seq<Member>, p: nat, c: seq<byte>)
    requires |nexts| == |refs| && AllFresh(fin, f, lo, hi, rec, refs, nexts) && p + |c| <= lo
    ensures AllFresh(fin, Patch(f, p, c), lo, hi, rec, refs, nexts)
  {
    forall k | 0 <= k < |refs|
      ensures Fresh(fin, Patch(f, p, c), lo, hi, refs[k], GetMember(rec, refs[k].path), nexts[k])
    {
      FreshPatchBelow(fin, f, lo, hi, refs[k], GetMember(rec, refs[k].path), nexts[k], p, c);
    }
  }

  /** `o` is `rec` with every reference relocated (to `nx`), each to a copy
      between `lo` and `hi` of `f`, and nothing else changed. */
  ghost predicate RecordRelocated(fin: seq<byte>, f: seq<byte>, lo: nat, hi: nat, rec: Struct, refs: seq<Ref>,
                                  nx: seq<Member>, o: Struct)
  {
    |nx| == |refs| && o == SetAll(rec, refs, nx) && AllFresh(fin, f, lo, hi, rec, refs, nx)
  }

  /** `out` is `recs` with every record relocated so. */
  ghost predicate Relocated(fin: seq<byte>, f: seq<byte>, lo: nat, hi: nat, recs: seq<Struct>, refs: seq<Ref>,
                            nexts: seq<seq<Member>>, out: seq<Struct>)
  {
    |out| == |recs| && |nexts| == |recs| &&
    forall j :: 0 <= j < |recs| ==> RecordRelocated(fin, f, lo, hi, recs[j], refs, nexts[j], out[j])
  }

  lemma RelocatedSnoc(fin: seq<byte>, f: seq<byte>, lo: nat, hi: nat, recs: seq<Struct>, j: nat, refs: seq<Ref>,
                      nexts: seq<seq<Member>>, out: seq<Struct>, nx: seq<Member>, o: Struct)
    requires j < |recs| && Relocated(fin, f, lo, hi, recs[..j], refs, nexts, out)
    requires RecordRelocated(fin, f, lo, hi, recs[j], refs, nx, o)
    ensures Relocated(fin, f, lo, hi, recs[..j + 1], refs, nexts + [nx], out + [o])
  {
    var recs', nexts', out' := recs[..j + 1], nexts + [nx], out + [o];
    forall i | 0 <= i < j + 1 ensures RecordRelocated(fin, f, lo, hi, recs'[i], refs, nexts'[i], out'[i]) {
      if i < j {
        assert recs'[i] == recs[..j][i] && nexts'[i] == nexts[i] && out'[i] == out[i];
      }
    }
  }

  lemma AllRelocatableSnoc(fin: seq<byte>, recs: seq<Struct>, refs: seq<Ref>, j: nat)
    requires j < |recs| && AllRelocatable(fin, recs[..j], refs) && RecordRelocatable(fin, recs[j], refs)
    ensures AllRelocatable(fin, recs[..j + 1], refs)
  {
    assert recs[..j + 1] == recs[..j] + [recs[j]];
  }

  lemma RelocatedMono(fin: seq<byte>, f0: seq<byte>, f1: seq<byte>, lo: nat, hi0: nat, hi1: nat,
                      recs: seq<Struct>, refs: seq<Ref>, nexts: seq<seq<Member>>, out: seq<Struct>)
    requires Relocated(fin, f0, lo, hi0, recs, refs, nexts, out)
    requires KeepsBelow(f0, f1, hi0) && hi0 <= hi1
    ensures Relocated(fin, f1, lo, hi1, recs, refs, nexts, out)
  {
    forall j | 0 <= j < |recs| ensures RecordRelocated(fin, f1, lo, hi1, recs[j], refs, nexts[j], out[j]) {
      AllFreshMono(fin, f0, f1, lo, hi0, hi1, recs[j], refs, nexts[j]);
    }
  }

  /** A write that ends at or before `lo` leaves the copies alone. */
  lemma RelocatedPatchBelow(fin: seq<byte>, f: seq<byte>, lo: nat, hi: nat, recs: seq<Struct>, refs: seq<Ref>,
                            nexts: seq<seq<Member>>, out: seq<Struct>, p: nat, c: seq<byte>)
    requires Relocated(fin, f, lo, hi, recs, refs, nexts, out) && p + |c| <= lo
    ensures Relocated(fin, Patch(f, p, c), lo, hi, recs, refs, nexts, out)
  {
    forall j | 0 <= j < |recs| ensures RecordRelocated(fin, Patch(f, p, c), lo, hi, recs[j], refs, nexts[j], out[j]) {
      AllFreshPatchBelow(fin, f, lo, hi, recs[j], refs, nexts[j], p, c);
    }
  }

  predicate AllRelocatable(fin: seq<byte>, recs: seq<Struct>, refs: seq<Ref>) {
    forall j :: 0 <= j < |recs| ==> RecordRelocatable(fin, recs[j], refs)
  }

  /** One more record relocated: the `Relocated` loop fact of
      `RelocateRecords` carries over to the first `j + 1` records. */
  lemma RecordsStep(fin: seq<byte>, recs: seq<Struct>, refs: seq<Ref>, j: nat, nexts: seq<seq<Member>>,
                    out: seq<Struct>, nx: seq<Member>, o: Struct, lo: nat, f1: seq<byte>, f2: seq<byte>, o1: nat, o2: nat)
    requires j < |recs| && lo <= o1 <= o2
    requires Relocated(fin, f1, lo, o1, recs[..j], refs, nexts, out) && KeepsBelow(f1, f2, o1)
    requires RecordRelocated(fin, f2, o1, o2, recs[j], refs, nx, o)
    ensures Relocated(fin, f2, lo, o2, recs[..j + 1], refs, nexts + [nx], out + [o])
  {
    RelocatedMono(fin, f1, f2, lo, o1, o2, recs[..j], refs, nexts, out);
    AllFreshWiden(fin, f2, o1, lo, o2, recs[j], refs, nx);
    assert RecordRelocated(fin, f2, lo, o2, recs[j], refs, nx, o);
    RelocatedSnoc(fin, f2, lo, o2, recs, j, refs, nexts, out, nx, o);
  }

  /** `for e in entries: ...`: the records relocated one after another. */
  method RelocateRecords(dw: DumpWriter, fin: seq<byte>, recs: seq<Struct>, refs: seq<Ref>)
    returns (res: Result<seq<Struct>>, ghost nexts: seq<seq<Member>>)
    requires dw.Valid() && Distinct(refs)
    modifies dw, dw.fp
    ensures dw.Valid() && dw.dir == old(dw.dir) && dw.header == old(dw.header)
    ensures old(dw.offset) <= dw.offset && KeepsBelow(old(dw.fp.data), dw.fp.data, old(dw.offset))
    ensures res.Success? <==> AllRelocatable(fin, recs, refs)
    ensures res.Success? ==> Relocated(fin, dw.fp.data, old(dw.offset), dw.offset, recs, refs, nexts, res.value)
  {
    ghost var lo, f0 := dw.offset, dw.fp.data;
    var out: seq<Struct> := [];
    nexts := [];
    var j := 0;
    while j < |recs|
      invariant 0 <= j <= |recs|
      invariant dw.Valid() && dw.dir == old(dw.dir) && dw.header == old(dw.header)
      invariant lo <= dw.offset && KeepsBelow(f0, dw.fp.data, lo)
      invariant AllRelocatable(fin, recs[..j], refs)
      invariant Relocated(fin, dw.fp.data, lo, dw.offset, recs[..j], refs, nexts, out)
    {
      ghost var f1, o1 := dw.fp.data, dw.offset;
      var one, nx := RelocateRecord(dw, fin, recs[j], refs);
      if one.Failure? {
        assert !RecordRelocatable(fin, recs[j], refs);
        return Failure(one.error), nexts;
      }
      RecordsStep(fin, recs, refs, j, nexts, out, nx, one.value, lo, f1, dw.fp.data, o1, dw.offset);
      KeepsBelowTrans(f0, f1, dw.fp.data, lo, o1);
      AllRelocatableSnoc(fin, recs, refs, j);
      out := out + [one.value];
      nexts := nexts + [nx];
      j := j + 1;
    }
    assert recs[..j] == recs;
    res := Success(out);
  }
}
