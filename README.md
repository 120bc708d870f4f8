# full-dumpize in Dafny

`full-dumpize` rewrites a Windows minidump (the MINIDUMP container of
DbgHelp: a 32-byte header, a directory of typed streams, and out-of-band
data the streams point into) so that it declares full memory. It:

- copies the header's timestamp;
- rewrites the flags, clearing the partial-memory bits and setting
  `MiniDumpWithFullMemory`;
- re-emits every stream;
- turns the memory lists into Memory64 lists.

The MemoryList ranges are sorted by start address and coalesced into runs,
and their bytes are copied behind the new list.

Every stream that points into the out-of-band region is rewritten. Its
records are decoded, each reference is copied to the output's own
out-of-band region, the references are patched to point there, and the
records are packed again. The streams rewritten this way are:

- handle data;
- unloaded modules;
- system information;
- threads;
- modules.

Any other stream is copied byte for byte. The header and the directory are
written last, into the space reserved at the front of the output.

The model follows the two source files module by module.

| module | file | models |
|---|---|---|
| `Bytes` | bytes.dfy | little-endian integers, reads that stop at end of file, writes that extend a file |
| `Codec` | codec.dfy | `_StructWithNames`: layouts, flattening, `pack`/`unpack`/`unpack_all`/`unpack_tuple`, defaults, `__call__` |
| `Records` | records.dfy | the MINIDUMP record layouts, stream kinds and flag constants |
| `Streams` | streams.dfy | `_Substream`, `_StructWithNames.read`, `read_struct` |
| `Reader` | reader.dfy | `Dump.open`, `Dump._read`, `Dump.streams`, `timestamp`, `flags` |
| `Writer` | writer.dfy | the output file, `DumpWriter` and its `_write` |
| `Strings` | strings.dfy | `load_str`, `make_str` and UTF-16LE |
| `Relocate` | relocate.dfy | `load` + `write_oob`, and the reference patching of a record |
| `Handlers` | handlers.dfy | the per-kind branches of the stream loop |
| `Merge` | merge.dfy | the sort and coalescing of the memory ranges |
| `Flags` | flags.dfy | the flag rewrite |
| `Memory` | memory.dfy | the MemoryList and Memory64List branches |
| `FullDumpize` | fulldumpize.dfy | `fulldumpize` itself |

The input file is a `seq<byte>`. The output file is an object holding its
bytes and a cursor. A write past the end extends the file, and a gap is
zero-filled.

Each fallible step returns a `Result`. These steps are:

- a decode of a buffer of the wrong length;
- a missing `MDMP` signature;
- an integer that does not fit its field;
- a string of odd byte length;
- a stream that does not fit its reservation.

In Python each of these is an exception, and the exception stops the
conversion.

Where what the code does differs from what a reader of the format might
expect, the model follows the code:

- **Handle data with a different descriptor size is dropped.** A handle
  data stream whose `SizeOfDescriptor` is not 32 is skipped with no
  directory entry (full-dumpize.py:38-39). It is not passed through.
- **`unpack` needs exactly the record size.** A longer buffer fails as
  well as a shorter one; only `unpack_all` keeps the surplus.
- **The `set_stream` assertion is a failure, not a bound.** `set_stream`
  asserts that the data fits its placeholder. Where a crafted input can
  break that (the headed streams), the model returns `OversizeWrite`.
  Where the code guarantees it, the model proves it.
- **Reads past the end of the input come back short, with no error.** The
  memory payload is what such reads return, so a range that runs past the
  end of the input contributes fewer bytes.
- **The last list of each kind wins.** When several MemoryList (or
  Memory64List) streams are present, only the last of each kind is
  converted (`mls = s`).

## Model

| member | source | states |
|---|---|---|
| Bytes.FromLEOfLE | dmplib.py:66-69 | a little-endian integer field decodes back to the integer packed into it |
| Bytes.LEOfFromLE | dmplib.py:71-73 | any `w` bytes, decoded as an integer and encoded again, are the same bytes |
| Bytes.FileRead | full-dumpize.py:16-17 | a read returns `min(n, len - at)` bytes, none when it starts past the end, and they are the file's bytes at `at` |
| Bytes.Patch | dmplib.py:457 | a write makes the file as long as the larger of its old end and the end of the write; an empty write changes nothing |
| Bytes.PatchFacts | dmplib.py:409-410 | after a write the data sits at the write position, and every other byte is the old one or zero in a gap past the old end |
| Bytes.PatchConcat | full-dumpize.py:114-118 | two writes where the second starts at the end of the first are one write of both |
| Bytes.PatchRead | dmplib.py:409-410 | what was just written reads back |
| Bytes.FileReadConcat | full-dumpize.py:162-165 | consecutive reads, each from where the last stopped, return what one read of the total length returns |
| Codec.Compile | dmplib.py:38-57 | the layout loop of `__init__`: the format is the flattened field formats, the tuple length its length, the size the packed size, the defaults those of the fields, and each member's tuple position the length of the formats before it |
| Codec.Default | dmplib.py:40-47 | the default record has one member per field, and every member fits its field |
| Codec.DefaultsMap | dmplib.py:36-47 | `self.defaults` maps each field name to that field's default: 0 for a scalar, the nested type's default record otherwise |
| Codec.Construct | dmplib.py:92-97 | `__call__` builds a record without trailing bytes in which each field holds, in this order of preference, its positional argument, its named argument, or its default |
| Codec.UpdateTuple | dmplib.py:59-64 | `update_tuple` appends exactly the record's flattened scalars, nested records expanded in place, to the tuple it is given |
| Codec.UpdateMember | dmplib.py:60-64 | one field of that loop appends a scalar field's value, or the whole flattening of a nested record's members, to the tuple |
| Codec.BuildFlatten | dmplib.py:79-87 | the member constructors of `unpack_tuple`, applied to a record's flattened tuple, give back its members when no nested record carries trailing bytes |
| Codec.BuildBare | dmplib.py:79-87 | the nested records `unpack_tuple` builds carry no trailing bytes, at any depth |
| Codec.FlattenBuild | dmplib.py:44-50 | each member is built from its own slice `r[p:p+tuple_len]` of the tuple, so the members built from a fitting tuple flatten back to it |
| Codec.UnpackPackScalars | dmplib.py:66-73 | `struct.unpack` of `struct.pack` of a fitting tuple is that tuple |
| Codec.PackUnpackScalars | dmplib.py:66-73 | `struct.pack` of `struct.unpack` of a buffer of the packed size is that buffer |
| Codec.PackThenUnpack | dmplib.py:66-73 | a valid record without trailing bytes, at any depth, packs to `size` bytes, and those unpack to the same record |
| Codec.UnpackAllThenPack | dmplib.py:66-77 | `unpack_all` of at least `size` bytes succeeds, keeps the surplus as trailing bytes, and packing its result reproduces the buffer exactly |
| Codec.UnpackThenPack | dmplib.py:71-73 | `unpack` succeeds exactly on buffers of `size` bytes, and what it returns packs back to the buffer |
| Codec.UnpackTupleChecksLength | dmplib.py:79-87 | `unpack_tuple` fails exactly when the tuple's length is not `tuple_len`, and otherwise keeps the given trailing bytes |
| Codec.PackSize | dmplib.py:66-69 | `pack` succeeds exactly on records whose values fit their fields, and its output is `size` plus the trailing bytes |
| Codec.SizeIsFieldSum | dmplib.py:40-56 | the packed size of a layout is the sum of its field sizes, a nested field counting its own layout's size: no padding under `<` |
| Codec.UnpackFirstLeaf | dmplib.py:333-334 | the first scalar field of a record of exact size decodes from the buffer's first bytes (the header's `Signature`) |
| Codec.ReplaceMember | full-dumpize.py:45-46 | assigning a member a value that fits its field keeps the record valid |
| Records.RecordSizes | dmplib.py:129-250 | the record sizes: header 32, location 8, directory 12, memory descriptor 16, Memory64 list 16, descriptor64 16, fixed file info 52, module 108, thread 48, system info 32, unloaded module 24, unloaded list 12, handle data 16, handle descriptor 32 |
| Records.WithNum | dmplib.py:419-423 | setting an integer member changes that member only and keeps the record's shape and trailing bytes |
| Records.WithSub | full-dumpize.py:77-78 | setting a nested record member changes that member only |
| Streams.Window | dmplib.py:340 | a stream's window over the input is at most its `DataSize`, cut short at end of file |
| Streams.WindowRead | dmplib.py:305-313 | a read through the window reads the underlying file at `offset + pos`, limited to what remains of the window |
| Streams.Substream.constructor | dmplib.py:296-300 | a new sub-stream has its window and its cursor at 0 |
| Streams.Substream.Seek | dmplib.py:302-303 | `seek` sets the cursor and nothing else |
| Streams.Substream.Read | dmplib.py:305-313 | `read(n)` (or `read()` for the rest) returns at most `size - pos` bytes, namely the window's bytes at `pos`, and moves the cursor by exactly their number |
| Streams.SlicesSucceed | dmplib.py:111-116 | `cnt` consecutive reads of `sz` bytes are all full exactly when they fit the buffer |
| Streams.SlicesConcat | dmplib.py:111-116 | a run of full reads returns what one read of the whole run does |
| Streams.RecordAtIndex | dmplib.py:111-116 | record `i` of a successful array read is the decoding of the `i`-th record-sized block from the start |
| Streams.RecordsAtEntries | dmplib.py:111-116 | every record of a successful array read is so |
| Streams.ReadOne | dmplib.py:102-106 | `read_one` seeks when an offset is given, reads `size` bytes and decodes them, failing on a short read; the cursor moves by what was read |
| Streams.ReadRecords | dmplib.py:99-116 | `read(fp, offset, cnt)` returns the records the array read defines, with the cursor after them, and fails when it starts past the window |
| Streams.ReadU32 | dmplib.py:118-121 | `read_struct(fp, '<I')` is the little-endian value of the next four bytes, a decode error when fewer remain |
| Streams.DecodeFacts | dmplib.py:71-73 | a decoded record is valid, has no trailing bytes, and packs back to its bytes |
| Streams.RecordsAtValid | dmplib.py:111-116 | the records of an array read are all valid and carry no trailing bytes |
| Streams.ReadBytesOneRead | full-dumpize.py:55 | `k` reads of `n` bytes in a row return what one read of `k * n` bytes does, and the cursor moves by that much |
| Streams.ReadEach | full-dumpize.py:54-55 | the unloaded-module reads: `cnt` entries, each `unpack_all` of the next `SizeOfEntry` bytes, stopping at the first that fails |
| Reader.ReadFileRecords | dmplib.py:349-369 | `Dump._read` of `cnt` records at an offset returns the records the array read defines |
| Reader.Open | dmplib.py:331-337 | `Dump.open` computes exactly the parse of the input |
| Reader.CheckedHeaderSignature | dmplib.py:333-335 | a file shorter than the header is a decode error, the signature error happens exactly when the first four bytes are not `MDMP`, and a header that passes is the decoding of the first 32 bytes |
| Reader.ParseSignature | dmplib.py:331-336 | opening fails with the signature error exactly when the input has a header whose first four bytes are not `MDMP` |
| Reader.ParseHeader | dmplib.py:333-337 | an opened dump starts with `MDMP`, and its header is the decoding of the first 32 bytes |
| Reader.ParseDirectory | dmplib.py:336 | the directory of an opened dump is `NumberOfStreams` 12-byte entries decoded in order from `StreamDirectoryRva` |
| Reader.StreamsOf | dmplib.py:339-341 | `streams()` has no more entries than the directory and none of kind `UnusedStream` |
| Reader.StreamsConcat | dmplib.py:339-341 | `streams()` keeps the directory's order: the streams of two directory parts are those of each, one after the other |
| Reader.StreamsMember | dmplib.py:339-341 | a window is among the streams exactly when some directory entry of a used kind describes it |
| Writer.OutFile.Seek | dmplib.py:444-446 | a seek moves the output cursor and changes no byte |
| Writer.OutFile.Write | dmplib.py:457 | a write patches the file at the cursor and moves the cursor past what was written |
| Writer.AlignUpLeast | dmplib.py:402 | `(o + 7) & ~7` is the least multiple of 8 at or above `o` |
| Writer.DumpWriter.constructor | dmplib.py:375-380 | a new writer has the `MDMP` header of version 1618061203, an empty directory, and its cursor, both its own and the file's, at `32 + 12 * max_stream_cnt` |
| Writer.DumpWriter.SetTimestamp | dmplib.py:419-420 | `timestamp(ts)` sets the header's `TimeDateStamp` and nothing else |
| Writer.DumpWriter.SetFlags | dmplib.py:422-423 | `flags(f)` sets the header's `Flags` and nothing else |
| Writer.DumpWriter.AddStreamPlaceholder | dmplib.py:401-405 | appends exactly one entry, of the kind and size given, at the cursor rounded up to 8, and moves the cursor to the end of that entry |
| Writer.DumpWriter.SetStream | dmplib.py:407-411 | for data that fits the entry, writes it at the entry's offset and shrinks that entry's size to the data's; no other entry, the cursor and the header do not change |
| Writer.DumpWriter.AddStream | dmplib.py:382-399 | appends one entry sized to the data, at the aligned cursor, with the data written there |
| Writer.DumpWriter.WriteOob | dmplib.py:428-436 | no data gives the zero descriptor and changes nothing; data is written at the cursor, which moves past it, and the descriptor is (its length, the old cursor) |
| Writer.DumpWriter.Close | dmplib.py:438-442 | `close` sets `NumberOfStreams` to the directory's length and writes the packed header and directory at offset 0, leaving the cursor at their end |
| Writer.WriteRecord | dmplib.py:454-458 | `_write` of a record writes its packing at the cursor, or leaves the file alone when it does not pack |
| Writer.WriteRecords | dmplib.py:448-452 | `_write` of a list writes the records' packings one after another, succeeding exactly when all records pack |
| Writer.WriteHeaded | full-dumpize.py:48 | `header.pack() + ''.join(...)` written at the cursor: the header's packing followed by those of the records |
| Writer.EntryPacks | dmplib.py:403 | a directory entry packs exactly when its kind, size and offset fit 32 bits |
| Writer.PackAllSize | full-dumpize.py:80 | records without trailing bytes pack to the record size each |
| Writer.CloseWithin | dmplib.py:438-442 | with at most `max_stream_cnt` entries, what closing writes ends by `32 + 12 * max_stream_cnt` and disturbs nothing from there on, the first 32 bytes of the output unpack to the final header, and the packed directory records follow at offset 32 |
| Writer.KeepsStreams | dmplib.py:438-442 | a write that keeps every byte from the first stream offset on, and keeps the file's length or ends there, leaves every stream's bytes reading as before |
| Strings.DecodeEncode | full-dumpize.py:23-26 | decoding the UTF-16LE encoding of code units gives them back |
| Strings.EncodeDecode | full-dumpize.py:23-26 | encoding the decoding of an even number of bytes gives the bytes back |
| Strings.MakeStrLayout | full-dumpize.py:25-27 | `make_str(s)` fails exactly when `2 * len(s)` does not fit 32 bits; otherwise it is the prefix `2 * len(s)` (terminator excluded), the code units, then `00 00`: `2 * len(s) + 6` bytes |
| Strings.LoadMakeStr | full-dumpize.py:19-27 | wherever a file holds `make_str(s)`, `load_str` there gives `s` back |
| Strings.LoadStrErrors | full-dumpize.py:19-23 | `load_str` is a decode error exactly when fewer than four bytes remain, a string error exactly when the bytes read are odd in number, and otherwise has half as many code units as bytes read (the length cut short at end of file) |
| Relocate.RelocateStr | full-dumpize.py:45 | `write_oob(make_str(load_str(rva))).RVA` succeeds exactly when the string loads and re-encodes; the new RVA is the old cursor, the copy is written there, and it loads to the same string |
| Relocate.StrWritten | full-dumpize.py:25-27 | a string written at `p` is held there and loads back |
| Relocate.RelocateLoc | full-dumpize.py:13-17 | `write_oob(load(d))`: an RVA of 0 gives (0, 0) and writes nothing; otherwise the descriptor's bytes from the input are written at the cursor, and the new descriptor has their length (the old size unless the read ran past end of file) and the old cursor |
| Relocate.SetMember | full-dumpize.py:77 | assigning a member by path (`thr.Stack.Memory`) changes only that top-level member, and the path then holds the value |
| Relocate.SetAll | full-dumpize.py:88-92 | the assignments of a record change only the members they name |
| Relocate.GetSetAll | full-dumpize.py:88-92 | after the assignments of distinct references, each holds its new value |
| Relocate.GetSetAllOther | full-dumpize.py:88-92 | a member that no reference names keeps its value |
| Relocate.FreshMeans | full-dumpize.py:13-27 | a relocated absent descriptor is (0, 0); a present one points at output bytes equal to the input bytes it pointed at, of the same size when those lay inside the input; a relocated string loads to the same string |
| Relocate.RelocateRef | full-dumpize.py:76-78 | one reference of a record relocated: succeeds exactly when it can be, the record gets the new value at that path only, the copy lies between the old and new cursor, and nothing below the old cursor changes |
| Relocate.RelocateRecord | full-dumpize.py:88-92 | all references of one record relocated in order, succeeding exactly when each can be |
| Relocate.RelocateRecords | full-dumpize.py:76-78 | `for thr in thrs: ...`: every record relocated in turn, succeeding exactly when all can be, all copies lying past the old cursor |
| Handlers.PassThrough | full-dumpize.py:101 | `add_stream(kind, s.fp)`: one entry of the same kind holding exactly the window's bytes, at the aligned cursor |
| Handlers.CountedRecordsFacts | full-dumpize.py:72-73 | the records of a thread or module list number fewer than 2^32, and each is valid with no trailing bytes |
| Handlers.ReadCounted | full-dumpize.py:72-73 | the count read at offset 0, then that many records read from offset 4 |
| Handlers.HandleCounted | full-dumpize.py:71-95 | the thread and module lists: a list that does not read adds nothing; otherwise, whenever every reference relocates, the returned records are the relocated ones, each pointing at a fresh copy behind the reservation, whether or not they then pack; the handler succeeds exactly when every reference relocates and the records pack, and then leaves one entry of the stream's kind sized `4 + size * n`, holding the count and the relocated records, with the copies behind it |
| Handlers.CountedPack | full-dumpize.py:80 | a thread or module list that reads, packed again unchanged, is exactly the bytes it was read from |
| Handlers.CountedCount | full-dumpize.py:80 | the re-emitted count equals the input's count, which fits 32 bits |
| Handlers.ReadHandleData | full-dumpize.py:37-41 | the header read at 0, no stream when its `SizeOfDescriptor` is not 32, else `NumberOfDescriptors` descriptors read from `SizeOfHeader` |
| Handlers.HandleHandleData | full-dumpize.py:36-49 | a descriptor size other than 32 adds no entry and writes nothing; otherwise, whenever every type and object name relocates, the returned descriptors are the relocated ones, each pointing at a fresh copy behind the reservation; the handler succeeds exactly when every type and object name relocates and the rewritten stream packs within the stream's size, and then leaves one entry at the aligned cursor, in a reservation of the input size, holding the header and relocated descriptors and shrunk to their length |
| Handlers.HandleDataPack | full-dumpize.py:48 | a handle data stream that reads, packed again unchanged, is its header's bytes followed by the descriptor bytes it was read from |
| Handlers.ReadUnloaded | full-dumpize.py:52-55 | the header read at 0, then from `SizeOfHeader` the entries, each `unpack_all` of `SizeOfEntry` bytes |
| Handlers.HandleUnloaded | full-dumpize.py:51-63 | a list that does not read fails the handler and leaves the directory and cursor alone; when the list reads and every module name relocates, the returned entries are the relocated ones, each pointing at a fresh copy behind the reservation; the handler succeeds exactly when the list reads, every module name relocates, and the rewritten list packs within the stream's size; it then leaves one entry at the aligned cursor, in a reservation of the input size, holding the header and re-encoded entries and shrunk to their length |
| Handlers.UnloadedPack | full-dumpize.py:62 | an unloaded module list that reads, packed again unchanged, is its header's bytes followed by the entry bytes it was read from |
| Handlers.ReadAllFromPack | full-dumpize.py:55-62 | entries read with `unpack_all` and packed again give back the bytes read, trailing bytes included |
| Handlers.RecordsAtPack | full-dumpize.py:41-48 | records read in a row and packed again give back the bytes read |
| Handlers.HandleSystemInfo | full-dumpize.py:65-69 | the whole window decoded with `unpack_all`; a window that does not decode fails the handler and leaves the directory and cursor alone; when it decodes and the service-pack string relocates, the returned record is the relocated one and the string's fresh copy lies between the old cursor and the returned offset; the handler succeeds exactly when it decodes, the service-pack string relocates and the record packs, and then adds one entry with the rewritten record |
| Merge.SortByStartCorrect | full-dumpize.py:110 | `descs.sort(key=StartOfMemoryRange)` orders the ranges by start and is a permutation of them |
| Merge.SortByStartStable | full-dumpize.py:110 | the sort is stable: ranges with the same start keep their relative order |
| Merge.SortByStartSorted | full-dumpize.py:110 | sorting ranges already in order changes nothing |
| Merge.Coalesce | full-dumpize.py:113-123 | the merge loop gives no more runs than ranges, and at least one when there is a range |
| Merge.CoalesceSeparated | full-dumpize.py:120-123 | no run ends where the next one starts |
| Merge.CoalesceTotal | full-dumpize.py:120-123 | the run sizes add up to the range sizes: no bytes lost or added |
| Merge.CoalesceOrdered | full-dumpize.py:110-123 | on sorted input the runs come out ordered by start |
| Merge.CoalesceCovers | full-dumpize.py:120-123 | an address lies in a run exactly when it lies in some range |
| Merge.CoalesceSeparatedRuns | full-dumpize.py:120-123 | runs that do not touch come out of the merge unchanged |
| Merge.MergeIdempotent | full-dumpize.py:110-123 | merging the merged runs again changes nothing |
| Merge.MergeTouching | full-dumpize.py:120-123 | [0x1000, +16) and [0x1010, +16), in either input order, merge to one run (0x1000, 32) |
| Merge.MergeGap | full-dumpize.py:120-121 | ranges with a gap between them stay two runs |
| Merge.RunSizeBound | full-dumpize.py:123 | no run is larger than all the ranges together |
| Merge.TotalSizeBound | full-dumpize.py:123 | ranges of at most `m` bytes each total at most `n * m` |
| Merge.MergedSizesFit | full-dumpize.py:121-126 | with fewer than 2^32 ranges of 32-bit sizes, every merged run's size fits the 64-bit `DataSize` it is packed into |
| Flags.NewFlagBitsEach | full-dumpize.py:11 | the rewrite clears DataSegs, IndirectlyReferencedMemory, PrivateReadWriteMemory and CodeSegs, sets FullMemory, and keeps every other bit |
| Flags.NewFlagsHigh | full-dumpize.py:11 | on Python's unbounded integer, the bits above the low 64 pass through unchanged |
| Flags.NewFlagsLow | full-dumpize.py:11 | the low 64 bits are the bit rewrite of the input's, and a 64-bit value stays one |
| Flags.NewFlagsIdempotent | full-dumpize.py:11 | rewriting the flags twice is rewriting them once |
| Flags.NewFlagsExample | full-dumpize.py:11 | DataSegs, HandleData and IndirectlyReferencedMemory (0x45) become HandleData and FullMemory (0x6) |
| Memory.WriteMerged | full-dumpize.py:113-123 | the copy-and-merge loop writes every sorted range's input bytes one after another at the output cursor, and its runs are the coalescing of the sorted ranges |
| Memory.PayloadLength | full-dumpize.py:116-118 | the copied payload is at most the ranges' total size, and exactly that when every range lies inside the input |
| Memory.ListBytesFit | full-dumpize.py:107-108 | the packed Memory64 list of at most `n` runs fits the `16 * n + 16` bytes reserved for it, so the `set_stream` assertion holds |
| Memory.WriteMergedList | full-dumpize.py:107-126 | one Memory64 list entry in a reservation of `16 * n + 16` bytes at the aligned cursor; on success it holds the merged runs, shrunk to their length, with `BaseRva` at the end of the reservation, where the payload lies |
| Memory.HandleMemoryList | full-dumpize.py:103-126 | a MemoryList that does not read adds nothing; otherwise the branch reserves the list, copies the payload behind it, and fills it with the merged runs of the sorted descriptors |
| Memory.MergedListFacts | full-dumpize.py:110-126 | the runs written are the sorted, coalesced ranges: ordered by start, separated, of the same total size as the ranges, which the payload matches when every range lies inside the input |
| Memory.ReadOneByOne | full-dumpize.py:155 | `cnt` descriptors read one at a time from the cursor are the records the array read defines at the cursor |
| Memory.ReadMemory64 | full-dumpize.py:154-155 | the list header read at 0, then `NumberOfMemoryRanges` descriptors read one at a time from the cursor |
| Memory.Memory64Pack | full-dumpize.py:160 | a Memory64 list that reads, packed again unchanged, is the descriptor bytes it was read from, and with `BaseRva` moved it still fits the old stream's size |
| Memory.CopyRanges | full-dumpize.py:162-165 | the copy loop writes at the output cursor exactly one read of the descriptors' total `DataSize` from the old `BaseRva` |
| Memory.HandleMemory64 | full-dumpize.py:153-165 | a list that does not read adds nothing; otherwise one entry in a reservation of the input size, holding the unchanged descriptors with `BaseRva` moved to the cursor after the reservation, where the memory is copied |
| Memory.WriteKeptList | full-dumpize.py:157-165 | the Memory64 branch once its list has read |
| FullDumpize.LastOf | full-dumpize.py:29-34 | the remembered stream of a memory-list kind is a stream of that kind from the directory |
| FullDumpize.LastOfNone | full-dumpize.py:29-34 | nothing is remembered for a memory-list kind exactly when no stream has that kind |
| FullDumpize.LastOfLatest | full-dumpize.py:29-34 | what is remembered is a stream of the kind that no later stream of the kind follows, since each `mls = s` overwrites the last |
| FullDumpize.DispatchOne | full-dumpize.py:36-101 | each stream that is not a memory list adds exactly one entry of its kind, except a handle data stream with an unexpected descriptor size, which adds none |
| FullDumpize.DispatchHandleData | full-dumpize.py:36-49 | the handle data branch adds one entry of its kind, or none when its descriptor size is unexpected |
| FullDumpize.DispatchUnloaded | full-dumpize.py:51-63 | the unloaded module branch adds one entry of its kind |
| FullDumpize.DispatchSystemInfo | full-dumpize.py:65-69 | the system information branch adds one entry of its kind |
| FullDumpize.DispatchCounted | full-dumpize.py:71-95 | the thread and module list branches add one entry of their kind |
| FullDumpize.DispatchStep | full-dumpize.py:31-101 | one turn of the loop: a memory list is remembered and adds nothing, any other stream is dispatched |
| FullDumpize.Dispatch | full-dumpize.py:29-101 | the loop adds entries in stream order, one per dispatched stream, and ends remembering the last MemoryList and the last Memory64List |
| FullDumpize.MemoryPhase | full-dumpize.py:103-165 | `if mls` and then `if mls64`: each adds one Memory64List entry |
| FullDumpize.MemoryListOne | full-dumpize.py:103-126 | the MemoryList becomes one Memory64List entry |
| FullDumpize.Memory64One | full-dumpize.py:153-165 | the Memory64List becomes one Memory64List entry |
| FullDumpize.EntriesFit | full-dumpize.py:9 | the dispatched streams plus the memory lists never outnumber the streams, so the directory fits the `len(streams)` entries reserved for it |
| FullDumpize.OutHeaderFields | full-dumpize.py:9-11 | the output header is `MDMP`, of the writer's version, with `StreamDirectoryRva` 32, the input's timestamp, the rewritten flags and the final stream count |
| FullDumpize.Convert | full-dumpize.py:29-165 | the stream loop and then the memory phase |
| FullDumpize.Finish | full-dumpize.py:167 | `dw.close()` within the reservation keeps everything behind the reserved directory, so every stream's bytes read as before; the output starts with the header carrying the final stream count, and the directory's packed records follow it at offset 32 |
| FullDumpize.Conclude | full-dumpize.py:9-11 | closing the writer as the conversion left it gives the output header with the input's timestamp, the rewritten flags and the entry count, and the same directory and stream guarantees as `Finish` |
| FullDumpize.Rewrite | full-dumpize.py:9-167 | everything after `open`, in terms of the opened dump: the directory's kinds, its fit in the reservation, every stream past the reservation and unchanged by `close()` from the file the conversion left, the header, and the packed directory at offset 32 |
| FullDumpize.FullDumpize | full-dumpize.py:4-167 | an input that does not open leaves the output untouched; on success, the directory's kinds are those of the dispatched streams in input order followed by one Memory64List per memory list, it fits the reservation, every stream lies past the reservation and reads after `close()` as the conversion wrote it, the output's first 32 bytes unpack to the `MDMP` header with the input's timestamp, the rewritten flags and the directory's length, and the directory's packed records follow at offset 32 |

## Left out

- The command line (full-dumpize.py:169-186) is not part of this model: argument parsing, the default output name and opening the files.
- Real files: the input is a byte sequence and the output an object holding bytes and a cursor.
- `time.time()` (dmplib.py:376) is the writer constructor's `now` parameter, and it is overwritten by the input's timestamp in any case.
- The `if 0:` block (full-dumpize.py:128-151) is dead code.
- `__repr__`, `__str__`, `clone` and `repr` print or copy records; the conversion never uses them.
- The `_struct_repo`/`globals()` registry and `__getattr__` (dmplib.py:9-10, 24, 123-127): record types are fixed `Layout` constants.
- `_read_array` (dmplib.py:371-372) is never called.
- `stream_size`, `stream_offset` and `current_size` (dmplib.py:413-426) are field reads in the model.
- Strings.LoadStr: a string is a sequence of 16-bit code units, and only an odd byte count is a decode error; Python's rejection of malformed surrogate pairs is not modelled.
- Python exceptions: they become `Failure` results. What the output file holds after a failure part-way through is stated only as far as the contracts go (bytes below the cursor of the time are kept).
- The `4s` `Signature` field defaulting to the integer 0 (dmplib.py:42), which `struct.pack` would refuse: the model's default is four zero bytes, and every record that is packed has its signature set.
- Codec.Fits: a `4s` value must be exactly four bytes, so `pack` refuses a shorter or longer string, which Python 2's `struct.pack` pads with zero bytes or truncates. The conversion packs only signatures of four bytes, read from the input or written as `MDMP`.
- Codec.Construct: requires distinct field names, as every record definition has; Python would let a repeated name's last value win.
- Streams.Substream.Seek: requires a position inside the window. A record read that would start past the window end is an `OutOfWindow` error. In Python the remainder then goes negative and `read` returns the rest of the underlying file, so the model differs only in two cases:
  - a handle data list of one descriptor whose `SizeOfHeader` lies past the window, with exactly 32 bytes of input left there, which Python decodes;
  - an unloaded module list of one entry in the same position, with at least 24 bytes of input left, which Python decodes with the rest of the file as trailing bytes.
- Both memory lists present: the MemoryList branch copies its payload without moving the writer's cursor (full-dumpize.py:114-118), so a later Memory64List placeholder overlaps that payload. The model does the same writes in the same order, but no contract says what the payload region then holds.
- FullDumpize.FullDumpize: states the directory's kinds, the header, the directory's bytes, and that `close()` leaves every stream's bytes as the conversion wrote them, but not what those bytes are in terms of the input. That is stated stream by stream in the `Handlers` and `Memory` contracts, which keep the bytes below the cursor, but it is not carried through the whole loop. FullDumpize.Rewrite has the same gap.
- Memory.WriteKeptList: its contract is the Memory64 branch's, stated through a predicate, and HandleMemory64 is the row that says what it means.
- Integers are unbounded, as Python's are. Wherever a value goes into a fixed-width field, the model checks that it fits (`struct.pack` raising); the flag rewrite works on the full integer.
