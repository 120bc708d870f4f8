/** `fulldumpize(fin, fout)` (full-dumpize.py): open the dump, copy its
    timestamp and rewritten flags into a writer reserving one directory
    slot per stream, hand every stream to the handler of its kind (the two
    memory lists last), and close the writer. */
module FullDumpize {
  import opened Bytes
  import opened Wrappers
  import opened Codec
  import opened Records
  import opened Streams
  import opened Reader
  import opened Writer
  import opened Relocate
  import opened Handlers
  import opened Flags
  import opened Merge
  import opened Memory

  /** The stack memory and the context a thread record refers to. */
  const ThreadRefs: seq<Ref> := [LocRef(Inner(ThreadStack, MemLocation)), LocRef(Top(ThreadContext))]

  /** The CodeView and miscellaneous records and the name a module record
      refers to. */
  const ModuleRefs: seq<Ref> := [LocRef(Top(ModuleCvRecord)), LocRef(Top(ModuleMiscRecord)), StrRef(Top(ModuleNameRva))]

  // ----------------------------------------------------- directory kinds

  /** The stream kinds of a directory, in order. */
  function Kinds(dir: seq<Entry>): (ks: seq<nat>)
    ensures |ks| == |dir|
  {
    seq(|dir|, k requires 0 <= k < |dir| => dir[k].kind)
  }

  lemma KindsSnoc(dir0: seq<Entry>, e: Entry)
    ensures Kinds(dir0 + [e]) == Kinds(dir0) + [e.kind]
  {
    assert forall k :: 0 <= k < |dir0| ==> (dir0 + [e])[k] == dir0[k];
  }

  // ------------------------------------------------------ the dispatch

  /** A stream the dispatch loop gives an entry of its own: not a memory
      list, which waits for the end, and not a handle data stream whose
      descriptor size is not the expected one, which is dropped. */
  predicate Dispatched(fin: seq<byte>, s: StreamRef, hl: Layout, dl: Layout) {
    s.kind != Memory64ListStream && s.kind != MemoryListStream &&
    !(s.kind == HandleDataStreamKind &&
      HandleDataOf(hl, dl, Window(fin, s.rva, s.size), s.size) == Success(None))
  }

  /** The kinds of the entries the dispatch loop adds, in stream order. */
  function LoopKinds(fin: seq<byte>, ss: seq<StreamRef>, hl: Layout, dl: Layout): (ks: seq<nat>)
    ensures |ks| <= |ss|
    decreases |ss|
  {
    if ss == [] then []
    else
      var s := ss[|ss| - 1];
      LoopKinds(fin, ss[..|ss| - 1], hl, dl) + if Dispatched(fin, s, hl, dl) then [s.kind] else []
  }

  /** `mls = s` / `mls64 = s` in the loop: the last stream of the kind. */
  function LastOf(ss: seq<StreamRef>, kind: nat): (r: Option<StreamRef>)
    ensures r.Some? ==> r.value in ss && r.value.kind == kind
    decreases |ss|
  {
    if ss == [] then None
    else if ss[|ss| - 1].kind == kind then Some(ss[|ss| - 1])
    else LastOf(ss[..|ss| - 1], kind)
  }

  /** `LastOf` finds nothing exactly when no stream has the kind. */
  lemma {:induction false} LastOfNone(ss: seq<StreamRef>, kind: nat)
    ensures LastOf(ss, kind).None? <==> forall i :: 0 <= i < |ss| ==> ss[i].kind != kind
    decreases |ss|
  {
    if ss != [] {
      var n := |ss| - 1;
      LastOfNone(ss[..n], kind);
      assert forall i :: 0 <= i < n ==> ss[..n][i] == ss[i];
    }
  }

  /** Stream `i` has the kind and no later stream has it. */
  predicate LatestAt(ss: seq<StreamRef>, kind: nat, i: nat) {
    i < |ss| && ss[i].kind == kind && forall j :: i < j < |ss| ==> ss[j].kind != kind
  }

  /** What `LastOf` finds is a stream of the kind that no later stream of
      the kind follows. */
  lemma {:induction false} LastOfLatest(ss: seq<StreamRef>, kind: nat)
    requires LastOf(ss, kind).Some?
    ensures exists i: nat :: LatestAt(ss, kind, i) && ss[i] == LastOf(ss, kind).value
    decreases |ss|
  {
    var n := |ss| - 1;
    if ss[n].kind == kind {
      assert LatestAt(ss, kind, n) && ss[n] == LastOf(ss, kind).value;
    } else {
      var init := ss[..n];
      assert LastOf(ss, kind) == LastOf(init, kind);
      LastOfLatest(init, kind);
      var i: nat :| LatestAt(init, kind, i) && init[i] == LastOf(init, kind).value;
      LatestExtend(ss, kind, i);
    }
  }

  /** A latest stream of the prefix stays the latest when the last stream
      has another kind. */
  lemma LatestExtend(ss: seq<StreamRef>, kind: nat, i: nat)
    requires ss != [] && ss[|ss| - 1].kind != kind && LatestAt(ss[..|ss| - 1], kind, i)
    ensures LatestAt(ss, kind, i) && ss[i] == ss[..|ss| - 1][i]
  {
    assert forall j :: i < j < |ss| - 1 ==> ss[..|ss| - 1][j] == ss[j];
  }

  lemma LoopStep(fin: seq<byte>, ss: seq<StreamRef>, i: nat, hl: Layout, dl: Layout)
    requires i < |ss|
    ensures LoopKinds(fin, ss[..i + 1], hl, dl) ==
              LoopKinds(fin, ss[..i], hl, dl) + if Dispatched(fin, ss[i], hl, dl) then [ss[i].kind] else []
    ensures LastOf(ss[..i + 1], MemoryListStream) ==
              if ss[i].kind == MemoryListStream then Some(ss[i]) else LastOf(ss[..i], MemoryListStream)
    ensures LastOf(ss[..i + 1], Memory64ListStream) ==
              if ss[i].kind == Memory64ListStream then Some(ss[i]) else LastOf(ss[..i], Memory64ListStream)
  {
    assert ss[..i + 1][..i] == ss[..i];
  }

  /** The handler of one stream that is not a memory list: each adds one
      entry of the stream's kind, except a handle data stream that is
      dropped. */
  method DispatchOne(dw: DumpWriter, fin: seq<byte>, s: StreamRef, hl: Layout, dl: Layout) returns (r: Result<()>)
    requires dw.Valid() && s.kind != Memory64ListStream && s.kind != MemoryListStream
    modifies dw, dw.fp
    ensures dw.Valid() && dw.header == old(dw.header)
    ensures KeepsBelow(old(dw.fp.data), dw.fp.data, old(dw.offset))
    ensures r.Success? ==> Kinds(dw.dir) == Kinds(old(dw.dir)) + if Dispatched(fin, s, hl, dl) then [s.kind] else []
  {
    if s.kind == HandleDataStreamKind {
      r := DispatchHandleData(dw, fin, s, hl, dl);
    } else if s.kind == UnloadedModuleListStream {
      r := DispatchUnloaded(dw, fin, s);
    } else if s.kind == SystemInfoStream {
      r := DispatchSystemInfo(dw, fin, s);
    } else if s.kind == ThreadListStream || s.kind == ModuleListStream {
      r := DispatchCounted(dw, fin, s);
    } else {
      PassThrough(dw, fin, s);
      KindsSnoc(old(dw.dir), dw.dir[|dw.dir| - 1]);
      r := Success(());
    }
  }

  /** The unloaded module list: a header, then records whose names are
      relocated. */
  method DispatchUnloaded(dw: DumpWriter, fin: seq<byte>, s: StreamRef) returns (r: Result<()>)
    requires dw.Valid()
    modifies dw, dw.fp
    ensures dw.Valid() && dw.header == old(dw.header)
    ensures KeepsBelow(old(dw.fp.data), dw.fp.data, old(dw.offset))
    ensures r.Success? ==> Kinds(dw.dir) == Kinds(old(dw.dir)) + [s.kind]
  {
    var e, hd, nexts, out := HandleUnloaded(dw, fin, s, UnloadedModuleList(), UnloadedModule());
    if e.Failure? {
      return Failure(e.error);
    }
    HeadedKind(dw.fp.data, dw.dir, dw.offset, old(dw.offset), old(dw.dir), fin, s.kind, s.size,
               UnloadedModuleList(), UnloadedModule(), hd, UnloadedRefs, nexts, out);
    r := Success(());
  }

  /** The system information: one record whose service pack name is
      relocated. */
  method DispatchSystemInfo(dw: DumpWriter, fin: seq<byte>, s: StreamRef) returns (r: Result<()>)
    requires dw.Valid()
    modifies dw, dw.fp
    ensures dw.Valid() && dw.header == old(dw.header)
    ensures KeepsBelow(old(dw.fp.data), dw.fp.data, old(dw.offset))
    ensures r.Success? ==> Kinds(dw.dir) == Kinds(old(dw.dir)) + [s.kind]
  {
    var e, si, nexts, out, at := HandleSystemInfo(dw, fin, s, SystemInfo());
    if e.Failure? {
      return Failure(e.error);
    }
    SingleKind(dw.fp.data, dw.dir, old(dw.offset), old(dw.dir), fin, s.kind, SystemInfo(),
               si, SystemInfoRefs, nexts, out, at);
    r := Success(());
  }

  /** `if header.SizeOfDescriptor != MINIDUMP_HANDLE_DESCRIPTOR.size:
      continue`, else the handle data handler. */
  method DispatchHandleData(dw: DumpWriter, fin: seq<byte>, s: StreamRef, hl: Layout, dl: Layout) returns (r: Result<()>)
    requires dw.Valid() && s.kind == HandleDataStreamKind
    modifies dw, dw.fp
    ensures dw.Valid() && dw.header == old(dw.header)
    ensures KeepsBelow(old(dw.fp.data), dw.fp.data, old(dw.offset))
    ensures r.Success? ==> Kinds(dw.dir) == Kinds(old(dw.dir)) + if Dispatched(fin, s, hl, dl) then [s.kind] else []
  {
    var e, hd, nexts, out := HandleHandleData(dw, fin, s, hl, dl);
    if e.Failure? {
      return Failure(e.error);
    }
    if e.value {
      HeadedKind(dw.fp.data, dw.dir, dw.offset, old(dw.offset), old(dw.dir), fin, s.kind, s.size,
                 hl, dl, hd, HandleRefs, nexts, out);
      assert Dispatched(fin, s, hl, dl);
    }
    r := Success(());
  }

  /** The thread list and module list: a count, then records whose
      out-of-band data is relocated. */
  method DispatchCounted(dw: DumpWriter, fin: seq<byte>, s: StreamRef) returns (r: Result<()>)
    requires dw.Valid() && (s.kind == ThreadListStream || s.kind == ModuleListStream)
    modifies dw, dw.fp
    ensures dw.Valid() && dw.header == old(dw.header)
    ensures KeepsBelow(old(dw.fp.data), dw.fp.data, old(dw.offset))
    ensures r.Success? ==> Kinds(dw.dir) == Kinds(old(dw.dir)) + [s.kind]
  {
    var l := if s.kind == ThreadListStream then Thread() else Module();
    var refs := if s.kind == ThreadListStream then ThreadRefs else ModuleRefs;
    var e, recs, nexts, out := HandleCounted(dw, fin, s, l, refs);
    if e.Failure? {
      return Failure(e.error);
    }
    CountedKind(dw.fp.data, dw.dir, dw.offset, old(dw.offset), old(dw.dir), fin, s.kind, l, recs, refs, nexts, out);
    r := Success(());
  }

  lemma CountedKind(f: seq<byte>, dir: seq<Entry>, offset: nat, o: nat, dir0: seq<Entry>,
                    fin: seq<byte>, kind: nat, l: Layout,
                    recs: seq<Struct>, refs: seq<Ref>, nexts: seq<seq<Member>>, out: seq<Struct>)
    requires CountedEmitted(f, dir, offset, o, dir0, fin, kind, l, recs, refs, nexts, out)
    ensures Kinds(dir) == Kinds(dir0) + [kind]
  {
    KindsSnoc(dir0, dir[|dir| - 1]);
  }

  lemma HeadedKind(f: seq<byte>, dir: seq<Entry>, offset: nat, o: nat, dir0: seq<Entry>,
                   fin: seq<byte>, kind: nat, space: nat, hl: Layout, el: Layout, hd: Headed,
                   refs: seq<Ref>, nexts: seq<seq<Member>>, out: seq<Struct>)
    requires HeadedEmitted(f, dir, offset, o, dir0, fin, kind, space, hl, el, hd, refs, nexts, out)
    ensures Kinds(dir) == Kinds(dir0) + [kind]
  {
    KindsSnoc(dir0, dir[|dir| - 1]);
  }

  lemma SingleKind(f: seq<byte>, dir: seq<Entry>, o: nat, dir0: seq<Entry>, fin: seq<byte>,
                   kind: nat, l: Layout, rec: Struct, refs: seq<Ref>, nexts: seq<Member>,
                   out: Struct, at: nat)
    requires SingleEmitted(f, dir, o, dir0, fin, kind, l, rec, refs, nexts, out, at)
    ensures Kinds(dir) == Kinds(dir0) + [kind]
  {
    KindsSnoc(dir0, dir[|dir| - 1]);
  }

  /** `for s in streams`: the memory lists are remembered (the last of each
      kind wins) and every other stream goes to its handler; the first
      handler that fails ends the conversion. */
  method Dispatch(dw: DumpWriter, fin: seq<byte>, ss: seq<StreamRef>, hl: Layout, dl: Layout)
    returns (r: Result<()>, mls: Option<StreamRef>, mls64: Option<StreamRef>)
    requires dw.Valid()
    modifies dw, dw.fp
    ensures dw.Valid() && dw.header == old(dw.header)
    ensures r.Success? ==>
              Kinds(dw.dir) == Kinds(old(dw.dir)) + LoopKinds(fin, ss, hl, dl) &&
              mls == LastOf(ss, MemoryListStream) && mls64 == LastOf(ss, Memory64ListStream)
  {
    mls, mls64 := None, None;
    var i := 0;
    while i < |ss|
      invariant 0 <= i <= |ss| && dw.Valid() && dw.header == old(dw.header)
      invariant Kinds(dw.dir) == Kinds(old(dw.dir)) + LoopKinds(fin, ss[..i], hl, dl)
      invariant mls == LastOf(ss[..i], MemoryListStream) && mls64 == LastOf(ss[..i], Memory64ListStream)
    {
      var e;
      e, mls, mls64 := DispatchStep(dw, fin, ss[i], mls, mls64, hl, dl);
      if e.Failure? {
        return Failure(e.error), mls, mls64;
      }
      LoopStep(fin, ss, i, hl, dl);
      i := i + 1;
    }
    assert ss[..i] == ss;
    r := Success(());
  }

  /** One turn of the loop: remember a memory list, or dispatch. */
  method DispatchStep(dw: DumpWriter, fin: seq<byte>, s: StreamRef, mls: Option<StreamRef>, mls64: Option<StreamRef>,
                      hl: Layout, dl: Layout)
    returns (r: Result<()>, mls': Option<StreamRef>, mls64': Option<StreamRef>)
    requires dw.Valid()
    modifies dw, dw.fp
    ensures dw.Valid() && dw.header == old(dw.header)
    ensures r.Success? ==>
              Kinds(dw.dir) == Kinds(old(dw.dir)) + (if Dispatched(fin, s, hl, dl) then [s.kind] else []) &&
              mls' == (if s.kind == MemoryListStream then Some(s) else mls) &&
              mls64' == (if s.kind == Memory64ListStream then Some(s) else mls64)
  {
    mls', mls64' := mls, mls64;
    if s.kind == Memory64ListStream {
      mls64' := Some(s);
      r := Success(());
    } else if s.kind == MemoryListStream {
      mls' := Some(s);
      r := Success(());
    } else {
      r := DispatchOne(dw, fin, s, hl, dl);
    }
  }

  /** The entries the memory phase adds: one Memory64 list for the memory
      list, if any, and one for the Memory64 list, if any. */
  function MemoryKinds(mls: Option<StreamRef>, mls64: Option<StreamRef>): (ks: seq<nat>)
    ensures |ks| <= 2 && forall k :: 0 <= k < |ks| ==> ks[k] == Memory64ListStream
  {
    (if mls.Some? then [Memory64ListStream] else []) + (if mls64.Some? then [Memory64ListStream] else [])
  }

  /** `if mls: ...` then `if mls64: ...`: both become Memory64 lists. */
  method MemoryPhase(dw: DumpWriter, fin: seq<byte>, mls: Option<StreamRef>, mls64: Option<StreamRef>)
    returns (r: Result<()>)
    requires dw.Valid()
    modifies dw, dw.fp
    ensures dw.Valid() && dw.header == old(dw.header)
    ensures r.Success? ==> Kinds(dw.dir) == Kinds(old(dw.dir)) + MemoryKinds(mls, mls64)
  {
    if mls.Some? {
      r := MemoryListOne(dw, fin, mls.value);
      if r.Failure? {
        return;
      }
    }
    if mls64.Some? {
      r := Memory64One(dw, fin, mls64.value);
      if r.Failure? {
        return;
      }
    }
    r := Success(());
  }

  /** The memory list, rewritten to a Memory64 list of merged runs. */
  method MemoryListOne(dw: DumpWriter, fin: seq<byte>, s: StreamRef) returns (r: Result<()>)
    requires dw.Valid()
    modifies dw, dw.fp
    ensures dw.Valid() && dw.header == old(dw.header)
    ensures r.Success? ==> Kinds(dw.dir) == Kinds(old(dw.dir)) + [Memory64ListStream]
  {
    var e, descs := HandleMemoryList(dw, fin, s, MemoryDescriptor(), MemoryDescriptor64(), Memory64List());
    if e.Failure? {
      return Failure(e.error);
    }
    MergedKind(dw.fp.data, dw.dir, dw.offset, old(dw.offset), old(dw.dir), fin, MemoryDescriptor64(), Memory64List(),
               |descs|, SortByStart(ToRanges(descs)));
    r := Success(());
  }

  /** The Memory64 list, kept with its memory moved behind it. */
  method Memory64One(dw: DumpWriter, fin: seq<byte>, s: StreamRef) returns (r: Result<()>)
    requires dw.Valid()
    modifies dw, dw.fp
    ensures dw.Valid() && dw.header == old(dw.header)
    ensures r.Success? ==> Kinds(dw.dir) == Kinds(old(dw.dir)) + [Memory64ListStream]
  {
    var e, hd := HandleMemory64(dw, fin, s, Memory64List(), MemoryDescriptor64());
    if e.Failure? {
      return Failure(e.error);
    }
    KeptKind(dw.fp.data, dw.dir, dw.offset, old(dw.offset), old(dw.dir), fin, Memory64List(), MemoryDescriptor64(),
             s.size, hd);
    r := Success(());
  }

  lemma MergedKind(f: seq<byte>, dir: seq<Entry>, offset: nat, o: nat, dir0: seq<Entry>,
                   fin: seq<byte>, d64: Layout, ml: Layout, n: nat, sorted: seq<Range>)
    requires MergedEmitted(f, dir, offset, o, dir0, fin, d64, ml, n, sorted)
    ensures Kinds(dir) == Kinds(dir0) + [Memory64ListStream]
  {
    KindsSnoc(dir0, dir[|dir| - 1]);
  }

  lemma KeptKind(f: seq<byte>, dir: seq<Entry>, offset: nat, o: nat, dir0: seq<Entry>,
                 fin: seq<byte>, ml: Layout, d64: Layout, space: nat, hd: Headed)
    requires KeptEmitted(f, dir, offset, o, dir0, fin, ml, d64, space, hd)
    ensures Kinds(dir) == Kinds(dir0) + [Memory64ListStream]
  {
    KindsSnoc(dir0, dir[|dir| - 1]);
  }

  /** The streams dispatched and the memory lists together never outnumber
      the input's streams, so the directory fits the slots reserved. */
  lemma {:induction false} EntriesFit(fin: seq<byte>, ss: seq<StreamRef>, hl: Layout, dl: Layout)
    ensures |LoopKinds(fin, ss, hl, dl)| + |MemoryKinds(LastOf(ss, MemoryListStream), LastOf(ss, Memory64ListStream))| <= |ss|
    decreases |ss|
  {
    if ss != [] {
      EntriesFit(fin, ss[..|ss| - 1], hl, dl);
    }
  }

  // ------------------------------------------------------------ top level

  /** The header `close()` writes: the writer's own with the input's
      timestamp, the rewritten flags and the number of entries. */
  function OutHeader(d: Dump, now: nat, n: nat): Struct {
    WithNum(WithNum(WithNum(InitialHeader(now), HeaderTimeDateStamp, Timestamp(d)),
                    HeaderFlags, NewFlags(Reader.Flags(d))),
            HeaderNumberOfStreams, n)
  }

  /** The output header is an `MDMP` header of the writer's version whose
      directory follows it, carrying the input's timestamp, the input's
      flags rewritten to a full-memory dump and the number of entries. */
  lemma OutHeaderFields(d: Dump, now: nat, n: nat)
    ensures var h := OutHeader(d, now, n);
            h.members[HeaderSignature] == Value(Str(Mdmp())) &&
            Num(h, HeaderVersion) == WriterVersion &&
            Num(h, HeaderNumberOfStreams) == n &&
            Num(h, HeaderStreamDirectoryRva) == 32 &&
            Num(h, HeaderTimeDateStamp) == Timestamp(d) &&
            Num(h, HeaderFlags) == NewFlags(Reader.Flags(d)) && h.extra == []
  {
  }

  /** `fulldumpize(fin, fout)` with the clock reading `now`. An input that
      does not open leaves the output alone. A conversion that succeeds
      writes one entry per dispatched stream in stream order, then the
      memory lists; the directory fits the slots reserved and every stream
      lies past them, `close()` leaves the bytes of the streams as the
      conversion wrote them (`before`), the header decodes from the front
      of the output and the directory's records follow it. */
  method FullDumpize(fin: seq<byte>, fout: OutFile, now: nat)
    returns (r: Result<seq<byte>>, ghost dir: seq<Entry>, ghost before: seq<byte>)
    modifies fout
    ensures Parse(fin).Failure? ==> r.Failure? && fout.data == old(fout.data)
    ensures r.Success? ==>
              Parse(fin).Success? &&
              var ss := StreamsOf(Parse(fin).value.dir);
              Kinds(dir) == LoopKinds(fin, ss, HandleDataStream(), HandleDescriptor()) +
                            MemoryKinds(LastOf(ss, MemoryListStream), LastOf(ss, Memory64ListStream)) &&
              |dir| <= |ss| &&
              Closed(before, fout.data, |ss|, dir, Header(), Directory(), OutHeader(Parse(fin).value, now, |dir|))
  {
    dir, before := [], [];
    var od := Open(fin);
    if od.Failure? {
      return Failure(od.error), dir, before;
    }
    r, dir, before := Rewrite(od.value, fin, fout, now, Header(), Directory());
  }

  /** Everything after the input opened as `d`; `before` is the output as
      the conversion left it, just before `close()`. */
  method Rewrite(d: Dump, fin: seq<byte>, fout: OutFile, now: nat, ghost hl: Layout, ghost dl: Layout)
    returns (r: Result<seq<byte>>, ghost dir: seq<Entry>, ghost before: seq<byte>)
    requires hl == Header() && dl == Directory()
    modifies fout
    ensures r.Success? ==>
              var ss := StreamsOf(d.dir);
              Kinds(dir) == LoopKinds(fin, ss, HandleDataStream(), HandleDescriptor()) +
                            MemoryKinds(LastOf(ss, MemoryListStream), LastOf(ss, Memory64ListStream)) &&
              |dir| <= |ss| &&
              Closed(before, fout.data, |ss|, dir, hl, dl, OutHeader(d, now, |dir|))
  {
    dir, before := [], [];
    var ss := StreamsOf(d.dir);
    var dw := new DumpWriter(fout, |ss|, now);
    dw.SetTimestamp(Timestamp(d));
    dw.SetFlags(NewFlags(Reader.Flags(d)));
    ghost var h := dw.header;
    assert h == WithNum(WithNum(InitialHeader(now), HeaderTimeDateStamp, Timestamp(d)), HeaderFlags, NewFlags(Reader.Flags(d)));
    var e := Convert(dw, fin, ss);
    if e.Failure? {
      return Failure(e.error), dir, before;
    }
    dir, before := dw.dir, fout.data;
    EntriesFit(fin, ss, HandleDataStream(), HandleDescriptor());
    r := Conclude(dw, d, now, hl, dl);
  }

  /** `close()` on the writer as the conversion left it: the header is the
      initial one with the input's timestamp and rewritten flags. */
  method Conclude(dw: DumpWriter, d: Dump, now: nat, ghost hl: Layout, ghost dl: Layout) returns (r: Result<seq<byte>>)
    requires dw.Valid() && dw.headerFmt == hl == Header() && dw.entryFmt == dl == Directory()
    requires dw.header == WithNum(WithNum(InitialHeader(now), HeaderTimeDateStamp, Timestamp(d)),
                                  HeaderFlags, NewFlags(Reader.Flags(d)))
    requires |dw.dir| <= dw.reserved
    modifies dw, dw.fp
    ensures dw.dir == old(dw.dir)
    ensures r.Success? ==> Closed(old(dw.fp.data), dw.fp.data, dw.reserved, dw.dir, hl, dl, OutHeader(d, now, |dw.dir|))
  {
    HeaderDirectorySizes();
    HeaderLeaves();
    r := Finish(dw);
  }

  /** The dispatch loop, then the memory phase. */
  method Convert(dw: DumpWriter, fin: seq<byte>, ss: seq<StreamRef>) returns (r: Result<()>)
    requires dw.Valid() && dw.dir == []
    modifies dw, dw.fp
    ensures dw.Valid() && dw.header == old(dw.header)
    ensures r.Success? ==>
              Kinds(dw.dir) == LoopKinds(fin, ss, HandleDataStream(), HandleDescriptor()) +
                               MemoryKinds(LastOf(ss, MemoryListStream), LastOf(ss, Memory64ListStream))
  {
    var e, mls, mls64 := Dispatch(dw, fin, ss, HandleDataStream(), HandleDescriptor());
    if e.Failure? {
      return Failure(e.error);
    }
    r := MemoryPhase(dw, fin, mls, mls64);
  }

  /** What `close()` leaves in the output `f1`, written over `f0` with
      `reserved` directory slots: every stream lies past the slots, where
      the file is kept, so each stream's bytes read as before; the header
      `h` decodes from the front and the directory's records follow it at
      offset 32. */
  ghost predicate Closed(f0: seq<byte>, f1: seq<byte>, reserved: nat, dir: seq<Entry>, hl: Layout, dl: Layout, h: Struct) {
    var base := 32 + 12 * reserved;
    (forall k :: 0 <= k < |dir| ==> base <= dir[k].rva) &&
    KeepsFrom(f0, f1, base) && StreamsKept(f0, f1, dir) &&
    Unpack(hl, FileRead(f1, 0, 32)) == Success(h) &&
    PackAll(dl, DirRecords(dir)).Success? &&
    FileRead(f1, 32, 12 * |dir|) == PackAll(dl, DirRecords(dir)).value
  }

  /** `close()` on a directory within the reservation: what it writes
      leaves every stream's bytes as they were, the header decodes from the
      front and the directory's records follow it at offset 32. */
  method Finish(dw: DumpWriter) returns (r: Result<seq<byte>>)
    requires dw.Valid() && Size(dw.headerFmt) == 32 && Size(dw.entryFmt) == 12
    requires forall i :: 0 <= i < |dw.headerFmt.fields| ==> dw.headerFmt.fields[i].ty.Leaf?
    requires dw.header.extra == [] && |dw.dir| <= dw.reserved
    modifies dw, dw.fp
    ensures dw.dir == old(dw.dir)
    ensures r.Success? ==>
              Closed(old(dw.fp.data), dw.fp.data, dw.reserved, dw.dir, dw.headerFmt, dw.entryFmt,
                     WithNum(old(dw.header), HeaderNumberOfStreams, |dw.dir|))
  {
    ghost var f := dw.fp.data;
    assert forall k :: 0 <= k < |dw.dir| ==> dw.Base() <= dw.dir[k].rva;
    r := dw.Close();
    if r.Success? {
      PackSize(dw.headerFmt, dw.header);
      CloseWithin(dw.headerFmt, dw.entryFmt, f, dw.header, dw.dir, dw.reserved, r.value);
      KeepsStreams(f, dw.fp.data, dw.Base(), dw.dir);
    }
  }
}
