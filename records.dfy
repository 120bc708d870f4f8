/** The MINIDUMP record definitions of dmplib.py (from DbgHelp's
    minidumpapiset.h), the stream kinds and the dump-type flag bits. */
module Records {
  import opened Bytes
  import opened Codec

  /** The header signature "MDMP". */
  function Mdmp(): seq<byte> { [77, 68, 77, 80] }

  /** The header version the writer stamps. */
  const WriterVersion := 1618061203

  function F(name: string, k: Kind): Field { Field(name, Leaf(k)) }
  function N(name: string, l: Layout): Field { Field(name, Nested(l)) }

  function Header(): Layout { Layout("MINIDUMP_HEADER", [
    F("Signature", Chars4), F("Version", U32), F("NumberOfStreams", U32),
    F("StreamDirectoryRva", U32), F("CheckSum", U32), F("TimeDateStamp", U32),
    F("Flags", U64)])
  }

  function LocationDescriptor(): Layout { Layout("MINIDUMP_LOCATION_DESCRIPTOR", [
    F("DataSize", U32), F("RVA", U32)])
  }

  function Directory(): Layout { Layout("MINIDUMP_DIRECTORY", [
    F("StreamType", U32), N("Location", LocationDescriptor())])
  }

  function MemoryDescriptor(): Layout { Layout("MINIDUMP_MEMORY_DESCRIPTOR", [
    F("StartOfMemoryRange", U64), N("Memory", LocationDescriptor())])
  }

  function Memory64List(): Layout { Layout("MINIDUMP_MEMORY64_LIST", [
    F("NumberOfMemoryRanges", U64), F("BaseRva", U64)])
  }

  function MemoryDescriptor64(): Layout { Layout("MINIDUMP_MEMORY_DESCRIPTOR64", [
    F("StartOfMemoryRange", U64), F("DataSize", U64)])
  }

  function FixedFileInfo(): Layout { Layout("VS_FIXEDFILEINFO", [
    F("dwSignature", U32), F("dwStrucVersion", U32), F("dwFileVersionMS", U32),
    F("dwFileVersionLS", U32), F("dwProductVersionMS", U32), F("dwProductVersionLS", U32),
    F("dwFileFlagsMask", U32), F("dwFileFlags", U32), F("dwFileOS", U32),
    F("dwFileType", U32), F("dwFileSubtype", U32), F("dwFileDateMS", U32),
    F("dwFileDateLS", U32)])
  }

  function Module(): Layout { Layout("MINIDUMP_MODULE", [
    F("BaseOfImage", U64), F("SizeOfImage", U32), F("CheckSum", U32),
    F("TimeDateStamp", U32), F("ModuleNameRva", U32), N("VersionInfo", FixedFileInfo()),
    N("CvRecord", LocationDescriptor()), N("MiscRecord", LocationDescriptor()),
    F("Reserved0", U64), F("Reserved1", U64)])
  }

  function Thread(): Layout { Layout("MINIDUMP_THREAD", [
    F("ThreadId", U32), F("SuspendCount", U32), F("PriorityClass", U32),
    F("Priority", U32), F("Teb", U64), N("Stack", MemoryDescriptor()),
    N("ThreadContext", LocationDescriptor())])
  }

  function SystemInfo(): Layout { Layout("MINIDUMP_SYSTEM_INFO", [
    F("ProcessorArchitecture", U16), F("ProcessorLevel", U16), F("ProcessorRevision", U16),
    F("NumberOfProcessors", U8), F("ProductType", U8),
    F("MajorVersion", U32), F("MinorVersion", U32), F("BuildNumber", U32), F("PlatformId", U32),
    F("CSDVersionRva", U32),
    F("SuiteMask", U16), F("Reserved2", U16)])
  }

  function UnloadedModule(): Layout { Layout("MINIDUMP_UNLOADED_MODULE", [
    F("BaseOfImage", U64), F("SizeOfImage", U32), F("CheckSum", U32),
    F("TimeDateStamp", U32), F("ModuleNameRva", U32)])
  }

  function UnloadedModuleList(): Layout { Layout("MINIDUMP_UNLOADED_MODULE_LIST", [
    F("SizeOfHeader", U32), F("SizeOfEntry", U32), F("NumberOfEntries", U32)])
  }

  function HandleDataStream(): Layout { Layout("MINIDUMP_HANDLE_DATA_STREAM", [
    F("SizeOfHeader", U32), F("SizeOfDescriptor", U32), F("NumberOfDescriptors", U32),
    F("Reserved", U32)])
  }

  function HandleDescriptor(): Layout { Layout("MINIDUMP_HANDLE_DESCRIPTOR", [
    F("Handle", U64), F("TypeNameRva", U32), F("ObjectNameRva", U32), F("Attributes", U32),
    F("GrantedAccess", U32), F("HandleCount", U32), F("PointerCount", U32)])
  }

  // Member positions of the fields the dump tools read or rewrite.
  const HeaderSignature := 0
  const HeaderVersion := 1
  const HeaderNumberOfStreams := 2
  const HeaderStreamDirectoryRva := 3
  const HeaderTimeDateStamp := 5
  const HeaderFlags := 6
  const LocDataSize := 0
  const LocRva := 1
  const DirStreamType := 0
  const DirLocation := 1
  const MemStart := 0
  const MemLocation := 1
  const Mem64Count := 0
  const Mem64BaseRva := 1
  const Desc64Start := 0
  const Desc64DataSize := 1
  const ModuleNameRva := 4
  const ModuleCvRecord := 6
  const ModuleMiscRecord := 7
  const ThreadStack := 5
  const ThreadContext := 6
  const SystemInfoCSDVersionRva := 9
  const UnloadedModuleNameRva := 4
  const UnloadedSizeOfHeader := 0
  const UnloadedSizeOfEntry := 1
  const UnloadedNumberOfEntries := 2
  const HandleSizeOfHeader := 0
  const HandleSizeOfDescriptor := 1
  const HandleNumberOfDescriptors := 2
  const HandleTypeNameRva := 1
  const HandleObjectNameRva := 2

  /** Member `i` of a record, or a zero integer past its end. */
  function MemberAt(s: Struct, i: nat): Member {
    if i < |s.members| then s.members[i] else Value(Int(0))
  }

  /** The integer held by member `i` (0 for a member of another shape, which
      a valid record never has). */
  function Num(s: Struct, i: nat): nat {
    if i < |s.members| && s.members[i].Value? && s.members[i].v.Int? then s.members[i].v.n else 0
  }

  /** The nested record held by member `i`. */
  function SubAt(s: Struct, i: nat): Struct {
    if i < |s.members| && s.members[i].Sub? then s.members[i].s else Struct([], [])
  }

  /** Assigning an integer to member `i`. */
  function WithNum(s: Struct, i: nat, n: nat): (r: Struct)
    ensures i < |s.members| ==> Num(r, i) == n
    ensures |r.members| == |s.members| && r.extra == s.extra
    ensures forall j :: 0 <= j < |s.members| && j != i ==> r.members[j] == s.members[j]
  {
    if i < |s.members| then s.(members := s.members[i := Value(Int(n))]) else s
  }

  /** Assigning a nested record to member `i`. */
  function WithSub(s: Struct, i: nat, sub: Struct): (r: Struct)
    ensures i < |s.members| ==> SubAt(r, i) == sub
    ensures |r.members| == |s.members| && r.extra == s.extra
    ensures forall j :: 0 <= j < |s.members| && j != i ==> r.members[j] == s.members[j]
  {
    if i < |s.members| then s.(members := s.members[i := Sub(sub)]) else s
  }

  /** `MINIDUMP_LOCATION_DESCRIPTOR(size, rva)`. */
  function Loc(size: nat, rva: nat): Struct {
    Struct([Value(Int(size)), Value(Int(rva))], [])
  }

  // Stream kinds.
  const UnusedStream := 0
  const ReservedStream0 := 1
  const ReservedStream1 := 2
  const ThreadListStream := 3
  const ModuleListStream := 4
  const MemoryListStream := 5
  const ExceptionStream := 6
  const SystemInfoStream := 7
  const ThreadExListStream := 8
  const Memory64ListStream := 9
  const CommentStreamA := 10
  const CommentStreamW := 11
  const HandleDataStreamKind := 12
  const FunctionTableStream := 13
  const UnloadedModuleListStream := 14
  const MiscInfoStream := 15
  const MemoryInfoListStream := 16
  const ThreadInfoListStream := 17
  const HandleOperationListStream := 18

  // Dump-type flag bits (MINIDUMP_TYPE).
  const MiniDumpNormal: bv64 := 0x00000000
  const MiniDumpWithDataSegs: bv64 := 0x00000001
  const MiniDumpWithFullMemory: bv64 := 0x00000002
  const MiniDumpWithHandleData: bv64 := 0x00000004
  const MiniDumpFilterMemory: bv64 := 0x00000008
  const MiniDumpScanMemory: bv64 := 0x00000010
  const MiniDumpWithUnloadedModules: bv64 := 0x00000020
  const MiniDumpWithIndirectlyReferencedMemory: bv64 := 0x00000040
  const MiniDumpFilterModulePaths: bv64 := 0x00000080
  const MiniDumpWithProcessThreadData: bv64 := 0x00000100
  const MiniDumpWithPrivateReadWriteMemory: bv64 := 0x00000200
  const MiniDumpWithoutOptionalData: bv64 := 0x00000400
  const MiniDumpWithFullMemoryInfo: bv64 := 0x00000800
  const MiniDumpWithThreadInfo: bv64 := 0x00001000
  const MiniDumpWithCodeSegs: bv64 := 0x00002000
  const MiniDumpWithoutAuxiliaryState: bv64 := 0x00004000
  const MiniDumpWithFullAuxiliaryState: bv64 := 0x00008000
  const MiniDumpWithPrivateWriteCopyMemory: bv64 := 0x00010000
  const MiniDumpIgnoreInaccessibleMemory: bv64 := 0x00020000
  const MiniDumpWithTokenInformation: bv64 := 0x00040000
  const MiniDumpWithModuleHeaders: bv64 := 0x00080000
  const MiniDumpFilterTriage: bv64 := 0x00100000

  // ------------------------------------------------------- record sizes

  /** Each record's field sum, computed field by field. */
  lemma FieldSizes()
    ensures FieldsSize(Header().fields, 0) == 32
    ensures FieldsSize(LocationDescriptor().fields, 0) == 8
    ensures FieldsSize(Directory().fields, 0) == 12
    ensures FieldsSize(MemoryDescriptor().fields, 0) == 16
    ensures FieldsSize(Memory64List().fields, 0) == 16
    ensures FieldsSize(MemoryDescriptor64().fields, 0) == 16
    ensures FieldsSize(FixedFileInfo().fields, 0) == 52
    ensures FieldsSize(Module().fields, 0) == 108
    ensures FieldsSize(Thread().fields, 0) == 48
    ensures FieldsSize(SystemInfo().fields, 0) == 32
    ensures FieldsSize(UnloadedModule().fields, 0) == 24
    ensures FieldsSize(UnloadedModuleList().fields, 0) == 12
    ensures FieldsSize(HandleDataStream().fields, 0) == 16
    ensures FieldsSize(HandleDescriptor().fields, 0) == 32
  {
    DumpFieldSizes();
    MemoryFieldSizes();
    ModuleFieldSizes();
    ThreadFieldSizes();
    OtherFieldSizes();
  }

  lemma DumpFieldSizes()
    ensures FieldsSize(Header().fields, 0) == 32
    ensures FieldsSize(LocationDescriptor().fields, 0) == 8
    ensures FieldsSize(Directory().fields, 0) == 12
  {
    assert FieldsSize(LocationDescriptor().fields, 0) == 8;
  }

  lemma MemoryFieldSizes()
    ensures FieldsSize(MemoryDescriptor().fields, 0) == 16
    ensures FieldsSize(Memory64List().fields, 0) == 16
    ensures FieldsSize(MemoryDescriptor64().fields, 0) == 16
  {
    DumpFieldSizes();
  }

  lemma ModuleFieldSizes()
    ensures FieldsSize(FixedFileInfo().fields, 0) == 52
    ensures FieldsSize(Module().fields, 0) == 108
  {
    ModuleTailSize();
  }

  lemma FixedFileInfoSize()
    ensures FieldsSize(FixedFileInfo().fields, 0) == 52
  {
    FixedFileInfoTail();
  }

  /** The last seven `DWORD`s of the version block. */
  lemma FixedFileInfoTail()
    ensures |FixedFileInfo().fields| == 13 && FieldsSize(FixedFileInfo().fields, 6) == 28
  {
  }

  /** From `VersionInfo` on, a module record holds 84 bytes. */
  lemma ModuleTailSize()
    ensures FieldsSize(FixedFileInfo().fields, 0) == 52
    ensures FieldsSize(Module().fields, 5) == 84
  {
    FixedFileInfoSize();
    ModuleTail();
  }

  /** From `CvRecord` on, a module record holds 32 bytes. */
  lemma ModuleTail()
    ensures |Module().fields| == 10 && FieldsSize(Module().fields, 6) == 32
  {
    DumpFieldSizes();
  }

  lemma ThreadFieldSizes()
    ensures FieldsSize(Thread().fields, 0) == 48
  {
    MemoryFieldSizes();
  }

  lemma OtherFieldSizes()
    ensures FieldsSize(SystemInfo().fields, 0) == 32
    ensures FieldsSize(UnloadedModule().fields, 0) == 24
    ensures FieldsSize(UnloadedModuleList().fields, 0) == 12
    ensures FieldsSize(HandleDataStream().fields, 0) == 16
    ensures FieldsSize(HandleDescriptor().fields, 0) == 32
  {
    SystemInfoFieldSizes();
    HandleFieldSizes();
  }

  lemma SystemInfoFieldSizes()
    ensures FieldsSize(SystemInfo().fields, 0) == 32
    ensures FieldsSize(UnloadedModule().fields, 0) == 24
  {
    SystemInfoTail();
    UnloadedModuleFieldSize();
  }

  /** From `MinorVersion` on, the system information holds 20 bytes. */
  lemma SystemInfoTail()
    ensures |SystemInfo().fields| == 12 && FieldsSize(SystemInfo().fields, 6) == 20
  {
  }

  lemma UnloadedModuleFieldSize()
    ensures FieldsSize(UnloadedModule().fields, 0) == 24
  {
  }

  lemma HandleFieldSizes()
    ensures FieldsSize(UnloadedModuleList().fields, 0) == 12
    ensures FieldsSize(HandleDataStream().fields, 0) == 16
    ensures FieldsSize(HandleDescriptor().fields, 0) == 32
  {
  }

  /** The sizes the MINIDUMP format fixes for each record: the packed size
      is the sum of the leaf widths, without padding. */
  lemma RecordSizes()
    ensures Size(Header()) == 32
    ensures Size(LocationDescriptor()) == 8
    ensures Size(Directory()) == 12
    ensures Size(MemoryDescriptor()) == 16
    ensures Size(Memory64List()) == 16
    ensures Size(MemoryDescriptor64()) == 16
    ensures Size(FixedFileInfo()) == 52
    ensures Size(Module()) == 108
    ensures Size(Thread()) == 48
    ensures Size(SystemInfo()) == 32
    ensures Size(UnloadedModule()) == 24
    ensures Size(UnloadedModuleList()) == 12
    ensures Size(HandleDataStream()) == 16
    ensures Size(HandleDescriptor()) == 32
  {
    FieldSizes();
    LayoutSize(Header());
    LayoutSize(LocationDescriptor());
    LayoutSize(Directory());
    LayoutSize(MemoryDescriptor());
    LayoutSize(Memory64List());
    LayoutSize(MemoryDescriptor64());
    LayoutSize(FixedFileInfo());
    LayoutSize(Module());
    LayoutSize(Thread());
    LayoutSize(SystemInfo());
    LayoutSize(UnloadedModule());
    LayoutSize(UnloadedModuleList());
    LayoutSize(HandleDataStream());
    LayoutSize(HandleDescriptor());
  }

  /** The header has no nested record. */
  lemma HeaderLeaves()
    ensures forall i :: 0 <= i < |Header().fields| ==> Header().fields[i].ty.Leaf?
  {
  }

  /** The two sizes the dump reader relies on. */
  lemma HeaderDirectorySizes()
    ensures Size(Header()) == 32 && Size(Directory()) == 12
  {
    RecordSizes();
  }
}
