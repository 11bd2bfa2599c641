# Zero-copy buffers, the asynchronous logger and the allocators of butil, in Dafny

The project models the parts of `3rd_party/butil` on which everything else in the repository is built, and
proves what they promise for all inputs, all states and all interleavings.

- **IOBuf.** A buffer is a queue of references to slices of reference-counted blocks. `Blocks`, `RefLists`,
  `RefSteps`, `RefRuns`, `RefLoops` and `Recounts` hold memory, lists of refs and what the loops of the source do to
  them. `RefQueues` is the union of a two-slot view and a ring (`SmallView`/`BigView`), laid over the same words.
  `IOBufs`, `TlsBlocks`, `Growth`, `Appends`, `Overwrites`, `CutUntil`, `Cutters` and `Portals` are the operations,
  written as methods with the loops of the source.
- **All buffers together.** `World` and `ChainLinks` put any number of buffers, the thread-local chain and the chains
  of portals over one memory. `Runs` says what each operation does to memory, refs and chains; `Refinement` proves over
  every run that the buffers behave as plain byte sequences. `Threads` is a class that holds the heap, the buffers and
  the portals of a thread, calls the methods above and proves each call to be a step of `Runs`. `Writers` and `Cursors`,
  which is a cutter over one of its buffers, work on it.
- **Bytes handed out and written again.** `RefPlaces` names bytes of memory by their place, `NewPlaces` shows that
  appending adds places nobody refers to, `Privacy` and `Reservations` that such places stay a buffer's own and that
  `unsafe_assign` on them disturbs nobody. `Budgets` bounds the refs a buffer gets and the blocks of the chain, which
  tells before a call whether `reserve` can name a place.
- **Delimiters.** `Delims` is the rolling 64-bit signature of `_cut_by_delim` against the first occurrence.
- **AsyncLogger.** `AsyncLogger` is a state machine of the queue, the hand-off through the condition variable and
  StopAndJoin; `AsyncLoggerSafety` holds its invariant and what follows from it over every run.
- **VLOG.** `Wildcards` proves the greedy matcher equal to the recursive meaning of patterns; `VlogSites` is the
  optimistic addition of a site against a concurrent reset of the module levels.
- **RecordIO.** `Octets` and `RecordFormat` hold the byte format, printing and reading. `Records` is the record,
  `RecordIO` the reader over a cutter and `RecordWriters` the writer, all with their loops and over buffers of a thread
  that share blocks. `RecordTrips` writes records and reads them back.
- **CRC32C.** `Crc32c` is the slicing-by-4 computation against the bit-at-a-time definition.
- **Allocators.** `BlockGroups` and `ObjectPools` are state machines of the object pool, `Arenas` the arena.

`Chunks` holds facts about byte sequences that all of them use.

## How the proofs are put together

Memory is a map from block addresses to blocks, so a block whose last reference is dropped is gone from the map.
`Effect(m, c, m', c')` says that a holder whose references go from `c` to `c'` moved every counter by just that
much and that blocks claimed by anybody else are alive and have lost none of the bytes they had handed out. Each
operation of a buffer is a method whose contract says which relation holds between the state before and after it:
`Left` (a slice of the bytes is left), `Moved` (bytes went from one buffer to another), `Shared` (bytes were added
without a copy), `Appended` (bytes were written behind what the block had handed out), `TlsStep` (a chain changed).
Each relation contains the effect on the bytes and the `Effect` on memory.

The methods are also proved equal to functions that go through memory and refs as the loops do: `DropFront`,
`DropBack`, `DropAll`, `Carry`, `Share`, `CopyMem`, and `Grow`, which appends in rounds on the first block with room.
`Runs.Does` is made of these functions and says nothing about bytes (reading through a portal excepted, where it is the
relation the method is proved to meet). That the buffers are slices, concatenations and copies afterwards is what
`Refinement.DoesRefines` proves, and `Threads` proves that the calls of the methods are such steps.

Some predicates are written as the negation of another one (`Left` is `!NotLeft`, `Eq` is `!Differ`). They mean what
they say; written so, they are proved as a whole rather than clause by clause.

Calls into code outside (malloc, `ReadV`, `WriteV`, the flags of logging) are nondeterministic or parameters. A heap
counts the mallocs that failed; a reader and a writer record how often they were asked, what they were offered, their
answer, and all they gave or took. So contracts can say what happened outside: "no malloc failed" is
`h.fails == old(h.fails)`.

## Where the code does not do what is promised

- Turning the two-slot view into a ring adds three 32-bit lengths in 32 bits before the sum is stored in 64
  (`3rd_party/butil/iobuf.cpp:509`), so `size()` can be short by 2^32 or twice that; the sum of two slots has 32 bits
  too. The highest bit of the first offset marks the big view, so an offset from 2^31 on turns one view into the other.
  `RefQueues.RefQueue.Add` proves for every ref that a 32-bit block can have that the queue holds the refs afterwards if
  and only if `RefQueues.Fits32` held before; `RefQueues.SumExact` is the case of the sum, and `RefQueues.SumWraps` a
  failing input, three refs of 0x6000_0000 bytes. Blocks of at most 0x5555_5555 bytes, which is what the rest of the
  model allows, never get there (`RefQueues.InLimitFits`).
- `_cut_by_delim` is documented for binary delimiters (`3rd_party/butil/iobuf.h:157-160`). Delimiters of
  more than 8 bytes are refused, the signature of the delimiter is built from signed chars without a mask, and the
  signature of the input starts as zeros. `Delims.DelimExact` proves
  for delimiters of two or more bytes that the code finds the first occurrence in every input if and only if the
  delimiter has at most 8 bytes, does not begin with a zero byte, and has no byte from 128 on (the first byte of an
  8-byte delimiter excepted). `LongMisses`, `WideMisses`, `HiddenMisses` and `ZeroMisses` give the failing inputs.
- A meta name of 256 bytes is accepted by `MutableMeta` and by the writer but its length is stored in one byte.
  `RecordFormat.PrintedReads` and `Records.NamedReadable` prove that the print of a record is read back if and only
  if no name has 256 bytes and the record is within the size limit of the reader; otherwise the reader reports an error.
  `Records.LongNameIsLost` is a record that is lost.
- `WriteWithoutFlush` fills in the head of a record by `unsafe_assign` and does not look at the result
  (`3rd_party/butil/recordio.cc:355`). `reserve` gives no area when the first ref it pushes is beyond the 524288th or
  its place in a merged ref is beyond 32767 bytes. The head then stays what was in memory while 0 is returned.
  `RecordWriters.RecordWriter.WriteWithoutFlush` proves that, if no malloc failed, the buffer ends in the print of the
  record if and only if `Appends.HasArea` holds before the call or memory happened to hold the head.
  `RecordWriters.WriteEmpties` writes up to 3641 records without content to a fresh block of 65536 bytes, all with their
  heads; `RecordWriters.LoseHead` makes the next call, which returns 0 and puts the nine bytes that the block held there
  from the beginning in place of the head.
  `Budgets.AreaExact` says when there is an area as long as blocks have at most 32768 bytes, which is so by default;
  `RecordTrips.FramesRead` proves that records are read back if and only if all heads are filled in, and
  `RecordTrips.WriteThenRead` that they are whenever, before the first call, blocks are that small and refs few enough.
- `WriteWithoutFlush` does not look at the results of `reserve` and `append` either. When a malloc fails there, it
  may return 0 although bytes are missing: `RecordWriters.RecordWriter.WriteWithoutFlush` proves that at least one byte
  of the record is missing for each malloc that failed.
- `appendv` of pieces that are all empty pushes a ref to no byte. `Appends.AppendEmptyPieces` proves that the buffer is
  in order afterwards if and only if `Appends.Continues` held before: the first block of the thread-local chain with
  room is the block of the last ref and nothing was handed out behind that. `Appends.NeverContinues` says that this is
  never so for an empty buffer or without a block with room, and `Appends.EmptyRefAlone` is such an input.
- A free list for no object at all, which `free_chunk_nitem` of 0 asks for, pushes empty chunks, and a later `get` takes
  an object from an empty list. `ObjectPools.LimitIsExact` proves that this happens in some run if and only if the
  limit is 0.

## Model

| member | source | states |
|---|---|---|
| `Refinement.RunRefines` | 3rd_party/butil/iobuf.cpp:292-1613 | over every run of any number of buffers and portals that share blocks, what the buffers hold goes through the same states as plain byte sequences under slicing, concatenation, copying and patching |
| `Refinement.RunKeeps` | 3rd_party/butil/iobuf.cpp:292-1613 | in every reachable state each block's counter is the number of refs and chain links to it, all refs lie in what their blocks handed out, `num_blocks` is the length of the thread-local chain, no block is linked twice in all chains together, and the blocks of portals have room |
| `Refinement.DoesRefines` | 3rd_party/butil/iobuf.cpp:652-1613 | one operation, given by what its loops do to memory and refs, changes the bytes of the acting buffers as the plain operation does and leaves all others as they were |
| `Refinement.OthersSee` | 3rd_party/butil/iobuf.cpp:1069-1136 | a buffer that takes no part in an operation sees the same bytes after it, whatever blocks it shares |
| `Runs.DoesKeeps` | 3rd_party/butil/iobuf.cpp:292-1613 | one operation keeps the counters right, links no block twice and leaves portals blocks with room |
| `Runs.DoesAround` | 3rd_party/butil/iobuf.cpp:292-398 | an operation links no block twice and makes no block of another chain full |
| `Runs.PopFrontMeans` | 3rd_party/butil/iobuf.cpp:652-673 | what the loop of pop_front does to memory and refs leaves the bytes behind the first n, and counters move with the refs |
| `Runs.PopBackMeans` | 3rd_party/butil/iobuf.cpp:693-713 | the same for pop_back and the bytes before the last n |
| `Runs.MoveMeans` | 3rd_party/butil/iobuf.cpp:715-740 | the loop of cutn moves the first n bytes from one buffer to the back of the other |
| `Runs.ShareMeans` | 3rd_party/butil/iobuf.cpp:1286-1310 | the loop of append_to adds the slice asked for and leaves the other buffer as it is |
| `Runs.CopyMeans` | 3rd_party/butil/iobuf.cpp:447-469 | the loops of operator= give up one list of references and count the other twice |
| `Runs.PourMeans` | 3rd_party/butil/iobuf.cpp:1069-1136 | rounds of appending add what they put, touch no block outside the thread-local chain and link no block twice |
| `ChainLinks.CanRead` | 3rd_party/butil/iobuf.cpp:1560-1613 | in every reachable state what reading through a portal asks for holds, for every portal |
| `ChainLinks.KeepsChains` | 3rd_party/butil/iobuf.cpp:292-398 | when the acting chains link no block twice and others come no nearer to being full, all chains stay in order |
| `Budgets.AreaExact` | 3rd_party/butil/iobuf.cpp:1207-1249 | when no block of the chain has more than 32768 bytes, reserve has an area if and only if there are at most 524287 refs, or one more and the bytes continue the last one |
| `Budgets.PourSpends` | 3rd_party/butil/iobuf.cpp:312-340 | appending adds at most one ref for each byte, changes no refs of other buffers and brings no block over the default size to the chain |
| `Budgets.ShareSpends` | 3rd_party/butil/iobuf.cpp:1046-1051 | sharing a buffer adds at most its refs, with the same kept |
| `Threads.Thread.constructor` | 3rd_party/butil/iobuf.cpp:268-270 | a thread without buffers is in the state every run begins with |
| `Threads.Thread.NewBuffer` | 3rd_party/butil/iobuf_inl.h:77-80 | a new buffer is a step |
| `Threads.Thread.NewPortal` | 3rd_party/butil/iobuf.h:455-457 | a new portal is a new buffer and a new chain |
| `Threads.Thread.PopFront` | 3rd_party/butil/iobuf.cpp:652-673 | the call drops min(n, length) bytes and is a step of pop_front or clear; all objects stay apart and in order |
| `Threads.Thread.PopBack` | 3rd_party/butil/iobuf.cpp:693-713 | the same at the back |
| `Threads.Thread.Clear` | 3rd_party/butil/iobuf.cpp:632-650 | the call is a step |
| `Threads.Thread.Cut1` | 3rd_party/butil/iobuf.cpp:675-691 | the call returns the first byte and is a step of pop_front by one, or by none |
| `Threads.Thread.CutnBytes` | 3rd_party/butil/iobuf.cpp:742-780 | the call returns the first min(n, length) bytes and is a step of pop_front |
| `Threads.Thread.Cutn` | 3rd_party/butil/iobuf.cpp:715-740 | the call is a step that moves min(n, length) bytes |
| `Threads.Thread.Append` | 3rd_party/butil/iobuf.cpp:1046-1051 | the call is a step that shares all bytes of the other buffer |
| `Threads.Thread.AppendMovable` | 3rd_party/butil/iobuf.cpp:1053-1067 | the call is a step that takes over the refs of the other buffer, or moves them all |
| `Threads.Thread.Assign` | 3rd_party/butil/iobuf.cpp:447-469 | the call is a step that copies |
| `Threads.Thread.AppendTo` | 3rd_party/butil/iobuf.cpp:1286-1310 | the call is a step that shares the slice asked for |
| `Threads.Thread.PushBackByte` | 3rd_party/butil/iobuf.cpp:1069-1079 | the call is a step of rounds that put the byte, or nothing exactly when a malloc failed, which leaves the thread-local chain empty |
| `Threads.Thread.AppendBytes` | 3rd_party/butil/iobuf.cpp:1088-1110 | the call is a step of rounds that put the bytes, or a proper prefix of them exactly when a malloc failed, which leaves the thread-local chain empty |
| `Threads.Thread.AppendV` | 3rd_party/butil/iobuf.cpp:1112-1136 | the call is a step of rounds that put the concatenation, or a proper prefix of it exactly when a malloc failed, which leaves the thread-local chain empty |
| `Threads.Thread.Resize` | 3rd_party/butil/iobuf.cpp:1175-1197 | the call is a step that crops, or rounds that put the fill byte up to n, or less exactly when a malloc failed |
| `Threads.Thread.Reserve` | 3rd_party/butil/iobuf.cpp:1229-1249 | the call is a step of rounds that hand out n bytes as memory holds them, unless a malloc failed, and there is then an area for them exactly when HasArea said so before |
| `Threads.Thread.AppendUserData` | 3rd_party/butil/iobuf.cpp:1138-1162 | the call is a step that adopts the block of the caller |
| `Threads.Thread.UnsafeAssign` | 3rd_party/butil/iobuf.cpp:1251-1284 | without an area nothing changes; with one exactly its bytes are written, and the call is a step when nobody else refers to them |
| `Threads.Thread.AppendFromReader` | 3rd_party/butil/iobuf.cpp:1560-1613 | from any reachable state the reader is asked once, for all of `max` bytes or 64 blocks, unless a malloc failed; the call adds exactly what the reader gave and is a step |
| `Threads.Thread.ReturnCachedBlocks` | 3rd_party/butil/iobuf_inl.h:64-69 | the call is a step that gives the blocks of a portal back |
| `Threads.Thread.RemoveTlsBlockChain` | 3rd_party/butil/iobuf.cpp:292-308 | the call is a step that empties the thread-local chain |
| `Overwrites.UnsafeAssign` | 3rd_party/butil/iobuf.cpp:1251-1284 | the bytes from the area on are overwritten as far as the buffer goes; 0 exactly when that was far enough, -1 without an area |
| `Overwrites.OverwriteOwn` | 3rd_party/butil/iobuf.cpp:1251-1284 | a buffer that refers once to the bytes written sees just them changed |
| `Overwrites.OverwriteBeside` | 3rd_party/butil/iobuf.cpp:1251-1284 | a buffer that refers to none of them sees no change |
| `Privacy.AssignedOthers` | 3rd_party/butil/iobuf.cpp:1251-1284 | writing bytes that are private to one buffer changes nothing any other buffer sees |
| `Privacy.ExposedSees` | 3rd_party/butil/iobuf.cpp:1261-1264 | a second buffer that refers to one of the bytes sees it change |
| `Privacy.AssignedOk` | 3rd_party/butil/iobuf.cpp:1251-1284 | counters and chains stay in order whatever is written |
| `NewPlaces.GrownAdds` | 3rd_party/butil/iobuf.cpp:1088-1110 | appending adds bytes of memory that nobody referred to, each once |
| `Reservations.PourPrivate` | 3rd_party/butil/iobuf.cpp:1229-1249 | what was appended or reserved is private to the buffer |
| `Reservations.PourKeepsPrivate` | 3rd_party/butil/iobuf.cpp:1088-1110 | appending to this or any other buffer keeps private bytes private |
| `Reservations.ShareKeepsPrivate` | 3rd_party/butil/iobuf.cpp:1046-1051 | so does sharing the bytes of another buffer |
| `World.LiveIff` | 3rd_party/butil/iobuf_inl.h:525-553 | a block is alive exactly when something refers to it, and its counter is the number of references |
| `World.ActsKeeps` | 3rd_party/butil/iobuf_inl.h:525-553 | when some holders act and counters move with their references, the whole stays in order |
| `World.BystanderKept` | 3rd_party/butil/iobuf.cpp:1088-1110 | a holder that does not act keeps its blocks and its bytes |
| `World.CanAct` | 3rd_party/butil/iobuf.cpp:652-673 | in a state in order what the operations on one buffer ask for holds |
| `World.CanActTogether` | 3rd_party/butil/iobuf.cpp:715-740 | the same for operations on two buffers |
| `World.CanAppend` | 3rd_party/butil/iobuf.cpp:1088-1110 | the same for appending through the thread-local chain |
| `World.LeftActs` | 3rd_party/butil/iobuf.cpp:632-713 | dropping bytes is an action of one buffer that disturbs nobody |
| `World.MovedActs` | 3rd_party/butil/iobuf.cpp:715-740 | moving bytes is an action of two buffers |
| `World.SharedActs` | 3rd_party/butil/iobuf.cpp:1046-1051 | sharing bytes is an action of two buffers |
| `World.AppendedActs` | 3rd_party/butil/iobuf.cpp:1069-1136 | appending is an action of the buffer and the thread-local chain |
| `World.ChainActs` | 3rd_party/butil/iobuf.cpp:344-398 | giving blocks back to the thread-local chain moves the counters with the links; that no block is then linked twice is `Runs.DoesAround` |
| `World.PortalActs` | 3rd_party/butil/iobuf.cpp:1560-1613 | reading moves the counters with the refs and links of the buffer, the thread-local chain and the chain of the portal; room and single links are `Runs.DoesAround` |
| `RefQueues.MaskWraps` | 3rd_party/butil/iobuf_inl.h:174-180 | masking an index with the capacity less one is wrapping it round, for every power of two |
| `RefQueues.RefQueue.constructor` | 3rd_party/butil/iobuf_inl.h:77-80 | an empty queue in the small view |
| `RefQueues.RefQueue.ConvertToBig` | 3rd_party/butil/iobuf.cpp:504-518 | the third ref turns the small view into a ring, for any three refs; the list of refs is the old one with the new ref behind it if and only if the new offset is below 2^31 and the lengths are together below 2^32 |
| `RefQueues.SumExact` | 3rd_party/butil/iobuf.cpp:509 | with the sum of three lengths kept in 32 bits the ring holds the three refs if and only if the lengths are together below 2^32 |
| `RefQueues.SumWraps` | 3rd_party/butil/iobuf.cpp:509 | three refs of 0x6000_0000 bytes are stored with a sum of 0x2000_0000 |
| `RefQueues.InLimitFits` | 3rd_party/butil/iobuf.cpp:471-519 | refs that end at or before 0x5555_5555 can be pushed on each other without end |
| `RefQueues.RefQueue.AddToSmall` | 3rd_party/butil/iobuf.cpp:471-519 | for any ref, the list of refs is extended by it, or its last ref grows when the two are contiguous, if and only if the tag bit stays clear and the sums in 32 bits are right; otherwise the words stand for no list |
| `RefQueues.RefQueue.GrowRing` | 3rd_party/butil/iobuf.cpp:545-561 | a full ring is doubled and unrolled; the list of refs is the old one with the new ref behind it if and only if its offset is below 2^31 |
| `RefQueues.RefQueue.AddToBig` | 3rd_party/butil/iobuf.cpp:524-562 | the same as for the small view, with wrap-around, doubling and the sum of lengths |
| `RefQueues.RefQueue.Add` | 3rd_party/butil/iobuf_inl.h:199-213 | pushing any ref at the back of either view merges or appends if and only if Fits32 says so before; refs below the limit keep the queue in order |
| `RefQueues.RefQueue.PopFront` | 3rd_party/butil/iobuf.cpp:567-597 | the first ref leaves, -1 when there is none; a ring of three refs becomes a small view |
| `RefQueues.RefQueue.PopBack` | 3rd_party/butil/iobuf.cpp:602-630 | the last ref leaves, -1 when there is none |
| `RefQueues.RefQueue.Length` | 3rd_party/butil/iobuf_inl.h:144-147 | in both views the sum of the lengths of the refs |
| `RefQueues.RefQueue.RefNum` | 3rd_party/butil/iobuf_inl.h:153-156 | in both views the number of refs |
| `RefQueues.RefQueue.RefAt` | 3rd_party/butil/iobuf_inl.h:174-180 | in both views the `i`-th ref of the list |
| `RefQueues.RefQueue.Swap` | 3rd_party/butil/iobuf_inl.h:103-107 | two queues exchange their lists by exchanging the bytes of the union, whichever view each is in |
| `RefQueues.RefQueue.CopyFrom` | 3rd_party/butil/iobuf.cpp:424-445 | the copy has the same list of refs |
| `RefQueues.RefQueue.Reset` | 3rd_party/butil/iobuf.cpp:632-650 | the queue is empty and in the small view |
| `IOBufs.Heap.IncRef` | 3rd_party/butil/iobuf_inl.h:525-531 | the counter of the block goes up |
| `IOBufs.Heap.DecRef` | 3rd_party/butil/iobuf_inl.h:533-553 | the counter goes down and the block is freed by the last reference |
| `IOBufs.IOBuf.PushBackRef` | 3rd_party/butil/iobuf_inl.h:199-205 | the counter goes up unless the ref is merged |
| `IOBufs.IOBuf.MoveBackRef` | 3rd_party/butil/iobuf_inl.h:207-213 | the counter goes down if the ref is merged |
| `IOBufs.IOBuf.Clear` | 3rd_party/butil/iobuf.cpp:632-650 | no refs are left and exactly the references of the buffer are given back |
| `IOBufs.IOBuf.PopFront` | 3rd_party/butil/iobuf.cpp:652-673 | for every n the bytes from min(n, length) on are left, and that number is returned |
| `IOBufs.IOBuf.PopBack` | 3rd_party/butil/iobuf.cpp:693-713 | the same at the back |
| `IOBufs.IOBuf.Cut1` | 3rd_party/butil/iobuf.cpp:675-691 | the first byte is returned and gone; false when there is none |
| `IOBufs.IOBuf.Cutn` | 3rd_party/butil/iobuf.cpp:715-740 | the first min(n, length) bytes go to the back of the other buffer, and that number is returned |
| `IOBufs.IOBuf.CutnBytes` | 3rd_party/butil/iobuf.cpp:742-780 | the first min(n, length) bytes are returned and gone |
| `IOBufs.IOBuf.Append` | 3rd_party/butil/iobuf.cpp:1046-1051 | the bytes of the other buffer are added without a copy and it stays as it is |
| `IOBufs.IOBuf.AppendMovable` | 3rd_party/butil/iobuf.cpp:1053-1067 | the bytes of the other buffer are added and it is left empty |
| `IOBufs.IOBuf.MoveAll` | 3rd_party/butil/iobuf.cpp:1057-1065 | moving all refs of a buffer is moving all its bytes |
| `IOBufs.IOBuf.Assign` | 3rd_party/butil/iobuf.cpp:447-469 | the buffer has the refs and bytes of the other one, its own references are given back and the other's are counted twice |
| `IOBufs.IOBuf.AppendTo` | 3rd_party/butil/iobuf.cpp:1286-1310 | for every n and pos the bytes from pos on, at most n, are added to the other buffer and their number is returned |
| `IOBufs.IOBuf.CopyTo` | 3rd_party/butil/iobuf.cpp:1312-1335 | for every n and pos the bytes from pos on, at most n, are copied |
| `IOBufs.IOBuf.Equals` | 3rd_party/butil/iobuf.cpp:1434-1481 | true exactly when both buffers hold the same bytes, whatever their refs |
| `RefLists.PushBackBytes` | 3rd_party/butil/iobuf.cpp:471-562 | merging or not, pushing a ref adds the bytes of its slice |
| `RefLists.PushEffect` | 3rd_party/butil/iobuf.cpp:471-562 | pushing a ref moves the counters with the references |
| `RefLists.MoveEffect` | 3rd_party/butil/iobuf.cpp:471-562 | so does moving a ref, when the caller gives up its own |
| `RefLists.TrimFrontBytes` | 3rd_party/butil/iobuf.cpp:660-666 | shortening the first ref drops bytes in front |
| `RefLists.TrimBackBytes` | 3rd_party/butil/iobuf.cpp:700-706 | shortening the last ref drops bytes at the back |
| `RefRuns.DropFrontLeft` | 3rd_party/butil/iobuf.cpp:652-673 | the loop of pop_front leaves exactly the bytes behind the first n |
| `RefRuns.DropBackLeft` | 3rd_party/butil/iobuf.cpp:693-713 | the loop of pop_back leaves exactly the bytes before the last n |
| `RefRuns.CarryMoved` | 3rd_party/butil/iobuf.cpp:715-740 | the loop of cutn splits the bytes between the two buffers |
| `RefRuns.ShareShared` | 3rd_party/butil/iobuf.cpp:1286-1310 | the loop of append_to adds exactly the slice asked for |
| `TlsBlocks.CreateBlock` | 3rd_party/butil/iobuf_inl.h:629-644 | a block at an address not in use with one reference, or none and one more failed malloc |
| `TlsBlocks.ShareTlsBlock` | 3rd_party/butil/iobuf.cpp:312-340 | the chain from its first block with room on, or a new block when there is none; full blocks are given up and counted off |
| `TlsBlocks.AcquireTlsBlock` | 3rd_party/butil/iobuf.cpp:378-398 | the first block with room leaves the chain with its reference, or a new one is made; blocks outside the chain are left alone |
| `TlsBlocks.ReleaseTlsBlock` | 3rd_party/butil/iobuf_inl.h:607-627 | a block with room goes back to a chain of less than 8, otherwise its reference is given up |
| `TlsBlocks.ReleaseTlsBlockChain` | 3rd_party/butil/iobuf.cpp:344-375 | the whole chain is kept, or the references of all its blocks are given up |
| `TlsBlocks.RemoveTlsBlockChain` | 3rd_party/butil/iobuf.cpp:292-308 | the chain is empty and its references are given up |
| `Appends.PushBackByte` | 3rd_party/butil/iobuf.cpp:1069-1079 | exactly the byte is added, or nothing exactly when a malloc failed |
| `Appends.AppendBytes` | 3rd_party/butil/iobuf.cpp:1088-1110 | exactly the bytes are added, or a proper prefix of them exactly when a malloc failed |
| `Appends.AppendV` | 3rd_party/butil/iobuf.cpp:1112-1136 | exactly the concatenation of the pieces is added, or a proper prefix of it exactly when a malloc failed |
| `Appends.Gather` | 3rd_party/butil/iobuf.cpp:1119-1129 | what is copied to one block goes on where the last block ended |
| `Appends.Resize` | 3rd_party/butil/iobuf.cpp:1175-1197 | the first n bytes are left, or the fill byte is added up to n |
| `Appends.Reserve` | 3rd_party/butil/iobuf.cpp:1229-1249 | n bytes are added unless a malloc failed, they are what memory held there, and the area names their place; there is an area exactly when HasArea held before the call |
| `Appends.HasAreaIs` | 3rd_party/butil/iobuf.cpp:1207-1249 | whether the first ref pushed, and the size cut to 32 bits, fit into the bits of an area can be told before the call: by the number of refs, the last ref and the first block with room |
| `Appends.AppendEmptyPieces` | 3rd_party/butil/iobuf.cpp:1112-1136 | pieces that are all empty push a ref to no byte unless a malloc failed; the buffer is in order afterwards exactly when, before the call, the next byte would have gone right behind the last ref |
| `Appends.NextMerges` | 3rd_party/butil/iobuf.cpp:1119-1134 | a ref to the next n bytes merges with the last one if and only if Continues held before the block was looked for |
| `Appends.NeverContinues` | 3rd_party/butil/iobuf.cpp:1112-1136 | it does not for an empty buffer, nor when no block of the chain has room |
| `Appends.EmptyRefAlone` | 3rd_party/butil/iobuf.cpp:1112-1136 | an empty buffer and one block with room are a state in order that a ref to no byte puts out of order |
| `Appends.AppendUserData` | 3rd_party/butil/iobuf.cpp:1138-1162 | the bytes of the caller are added as a block of their own |
| `Growth.FillStep` | 3rd_party/butil/iobuf.cpp:1101-1106 | writing behind the size of a shared block and pushing a ref adds the bytes and disturbs nobody |
| `Growth.FillEffect` | 3rd_party/butil/iobuf.cpp:1101-1106 | bytes written at or behind the size of a block are seen by no ref |
| `Growth.GrownAppends` | 3rd_party/butil/iobuf.cpp:1069-1136 | what the rounds of an append put is what the buffer gets, and nobody else sees a change |
| `Growth.GrownSpares` | 3rd_party/butil/iobuf.cpp:312-340 | an append leaves blocks outside the thread-local chain alone and links none twice |
| `Portals.IOPortal.AppendFromReader` | 3rd_party/butil/iobuf.cpp:1560-1613 | unless a malloc failed the reader is asked once, with room for all of `max` bytes or in 64 blocks; exactly what it gave is added, its answer is returned, and the chain keeps distinct blocks with room |
| `Portals.Reader.ReadV` | 3rd_party/butil/iobuf.cpp:1591 | any prefix of the space offered is filled and counted as given, or there is an error and nothing is given, whatever was written |
| `Portals.IOPortal.Gather` | 3rd_party/butil/iobuf.cpp:1560-1592 | blocks for at most 64 iovecs and `max` bytes are taken, and nothing anybody sees changes |
| `Portals.IOPortal.Claim` | 3rd_party/butil/iobuf.cpp:1601-1611 | a ref to the next bytes that were read is pushed and a full block is given up |
| `Portals.IOPortal.ReturnCachedBlocks` | 3rd_party/butil/iobuf_inl.h:64-69 | the blocks of the portal go back to the thread-local chain |
| `CutUntil.FindDelim` | 3rd_party/butil/iobuf.cpp:802-828 | the scan over refs finds what the signature search finds in the bytes, across block boundaries |
| `CutUntil.CutByDelim` | 3rd_party/butil/iobuf.cpp:802-838 | the bytes before the place found go to the other buffer and the delimiter is dropped; -1 and no change when nothing is found |
| `CutUntil.CutsAtFirst` | 3rd_party/butil/iobuf.cpp:802-838 | for a good delimiter that is the first occurrence, and nothing is found exactly when there is none |
| `CutUntil.CutByChar` | 3rd_party/butil/iobuf.cpp:782-800 | the bytes before the first such byte go to the other buffer and it is dropped; -1 exactly when there is none |
| `Delims.SearchFinds` | 3rd_party/butil/iobuf.cpp:802-838 | for a good delimiter the rolling signature finds the first occurrence in every input |
| `Delims.DelimExact` | 3rd_party/butil/iobuf.cpp:802-838 | a delimiter of two or more bytes is good if and only if the search is right for every input |
| `Delims.LongMisses` | 3rd_party/butil/iobuf.cpp:802-838 | every delimiter of more than 8 bytes has an input on which the search is wrong |
| `Delims.WideMisses` | 3rd_party/butil/iobuf.cpp:802-838 | so has every delimiter of up to 7 bytes with a byte from 128 on |
| `Delims.HiddenMisses` | 3rd_party/butil/iobuf.cpp:802-838 | so has every delimiter of 8 bytes with such a byte behind the first |
| `Delims.ZeroMisses` | 3rd_party/butil/iobuf.cpp:802-838 | so has every delimiter that begins with a zero byte |
| `Writers.CutIntoWriter` | 3rd_party/butil/iobuf.cpp:876-898 | unless the buffer is empty the writer is asked once and offered a prefix of the bytes that is all of them, 256 pieces or past the size hint; its answer is returned and what it has got is what leaves the buffer |
| `Writers.Offer` | 3rd_party/butil/iobuf.cpp:1019-1029 | the iovecs of several buffers are all of their concatenation, or a prefix of it in 256 pieces |
| `Writers.PopPieces` | 3rd_party/butil/iobuf.cpp:1035-1041 | popping what was written leaves the rest of the concatenation and no other buffer changes |
| `Writers.CutMultipleIntoWriter` | 3rd_party/butil/iobuf.cpp:1011-1043 | the writer is asked once, unless there is no buffer or only an empty one, and offered all of the concatenation, 256 pieces of it, or for one buffer what is past the size hint; it has got what leaves the buffers, and that and what is left make up their concatenation |
| `Cutters.IOBufCutter.RemainingBytes` | 3rd_party/butil/iobuf_inl.h:216-222 | the number of bytes not yet cut, with or without a loaded ref |
| `Cutters.IOBufCutter.LoadNextRef` | 3rd_party/butil/iobuf.cpp:1728-1744 | the used-up ref is popped and the next one loaded; false when there is none |
| `Cutters.IOBufCutter.Cut1` | 3rd_party/butil/iobuf_inl.h:224-233 | the next byte is returned and gone |
| `Cutters.IOBufCutter.Fetch1` | 3rd_party/butil/iobuf_inl.h:235-242 | the next byte is returned and stays |
| `Cutters.IOBufCutter.PopFront` | 3rd_party/butil/iobuf_inl.h:253-266 | min(n, remaining) bytes are dropped and that number is returned |
| `Cutters.IOBufCutter.CopyTo` | 3rd_party/butil/iobuf_inl.h:244-251 | the next min(n, remaining) bytes are copied and stay |
| `Cutters.IOBufCutter.SlowerCopyTo` | 3rd_party/butil/iobuf.cpp:1746-1774 | the same across several refs |
| `Cutters.IOBufCutter.CutnBytes` | 3rd_party/butil/iobuf.cpp:1809-1834 | the next min(n, remaining) bytes are copied and gone |
| `Cutters.IOBufCutter.Cutn` | 3rd_party/butil/iobuf.cpp:1776-1807 | the next min(n, remaining) bytes go to another buffer without a copy |
| `Cursors.StepKeeps` | 3rd_party/butil/iobuf.cpp:1728-1834 | a cutter that goes on keeps the counters and chains of the whole in order, and no other buffer sees a change |
| `Cursors.FerryKeeps` | 3rd_party/butil/iobuf.cpp:1776-1807 | the same when what it passes goes to another buffer, which gets exactly those bytes |
| `Cursors.Cursor.constructor` | 3rd_party/butil/iobuf.h:514-517 | a cutter over a buffer of a thread has all its bytes before it |
| `Cursors.Cursor.Still` | 3rd_party/butil/iobuf_inl.h:216-222 | a cutter has the same bytes before it after other buffers were operated on |
| `Cursors.Cursor.RemainingBytes` | 3rd_party/butil/iobuf_inl.h:216-222 | the number of bytes before the cutter |
| `Cursors.Cursor.Cut1` | 3rd_party/butil/iobuf_inl.h:224-233 | the next byte is returned and gone, false when there is none; the thread stays in order and no other buffer sees a change |
| `Cursors.Cursor.PopFront` | 3rd_party/butil/iobuf_inl.h:253-266 | the next min(n, remaining) bytes are gone, with the same kept |
| `Cursors.Cursor.CopyTo` | 3rd_party/butil/iobuf_inl.h:244-251 | the next min(n, remaining) bytes are returned and stay, with the same kept |
| `Cursors.Cursor.CutnBytes` | 3rd_party/butil/iobuf.cpp:1809-1834 | the next min(n, remaining) bytes are returned and gone, with the same kept |
| `Cursors.Cursor.Cutn` | 3rd_party/butil/iobuf.cpp:1776-1807 | the next min(n, remaining) bytes go to the back of another buffer of the thread, with the same kept |
| `AsyncLoggerSafety.WritesInExchangeOrder` | 3rd_party/butil/logging.cc:631-765 | in every reachable state what was written is a prefix of what was queued in the order of the exchanges, all of it when the head is NULL; at most one party holds the right to write; no returned request is touched |
| `AsyncLoggerSafety.HandoffOverwritesNothing` | 3rd_party/butil/logging.cc:659-668 | a writer about to hand off finds no request pending, and a pending request is the next to be written or the one just written |
| `AsyncLoggerSafety.StopDrains` | 3rd_party/butil/logging.cc:659-695 | when the background thread has gone nothing is pending, and once no writer is left every queued request has been written; a stop after which nobody can move has ended so, and nobody is left waiting in Join |
| `AsyncLoggerSafety.NoLostWakeUp` | 3rd_party/butil/logging.cc:659-695 | while the background thread waits unsignalled a request is pending only if its writer is about to signal, and `_stop` is set only if the thread that set it is about to |
| `AsyncLoggerSafety.SpinHasProducer` | 3rd_party/butil/logging.cc:749-752 | a writer that spins on UNCONNECTED waits for a producer that can take its step |
| `AsyncLoggerSafety.NoDeadlock` | 3rd_party/butil/logging.cc:631-765 | when no thread can move, every queued request was written, all threads are at rest and the background thread has gone or waits with nothing to do |
| `AsyncLoggerSafety.BackgroundDrains` | 3rd_party/butil/logging.cc:659-668 | as long as the logger is not stopped no producer runs LogTask: what is queued behind the request it writes itself is left to the background thread |
| `AsyncLoggerSafety.StepKeeps` | 3rd_party/butil/logging.cc:631-765 | every step of every thread keeps the invariant |
| `AsyncLoggerSafety.RunKeeps` | 3rd_party/butil/logging.cc:631-765 | the invariant holds in every reachable state, for any number of producers and stops |
| `AsyncLoggerSafety.ReverseKeeps` | 3rd_party/butil/logging.cc:749-760 | turning one link round keeps the queue in exchange order while producers connect behind it |
| `AsyncLoggerSafety.CheckKeeps` | 3rd_party/butil/logging.cc:728-741 | giving up the right keeps the invariant: the head is cleared only when all was written |
| `Wildcards.Wildcmp` | 3rd_party/butil/logging.cc:1711-1743 | true exactly when the string matches the pattern under the recursive meaning of `*` and `?`, and the loops end |
| `Wildcards.MatchMeans` | 3rd_party/butil/logging.cc:1711-1743 | that meaning is that the pattern can be laid over the string from end to end, a star taking any part, `?` one character and any other character itself |
| `Wildcards.OlderStar` | 3rd_party/butil/logging.cc:1723-1737 | if a match through an earlier star exists, one through the last star exists, so one star is enough to remember |
| `VlogSites.FindVerboseLevel` | 3rd_party/butil/logging.cc:1784-1814 | the level of the module if it is an exact name, otherwise that of a nonempty full module that is one, otherwise that of the first pattern that matches either name; none exactly when no pattern matches |
| `VlogSites.FindWildFirst` | 3rd_party/butil/logging.cc:1802-1813 | the first pattern in the list that matches either name decides |
| `VlogSites.FindIs` | 3rd_party/butil/logging.cc:1784-1814 | the same of the level that sites are given |
| `VlogSites.ResetFinished` | 3rd_party/butil/logging.cc:1845-1945 | whenever no reset is under way every site in the list carries the level the current module list gives it |
| `VlogSites.AddedOnce` | 3rd_party/butil/logging.cc:1845-1879 | a site about to be added is not in the list |
| `VlogSites.NoSiteLost` | 3rd_party/butil/logging.cc:1845-1879 | in every reachable state every site is in the list, just once, or its thread is still adding it |
| `VlogSites.RunInv` | 3rd_party/butil/logging.cc:1845-1945 | the invariant holds in every interleaving of additions and resets |
| `RecordFormat.HeadPrinted` | 3rd_party/butil/recordio.cc:339-356 | the nine bytes of a head: RDIO, the four digits to the base 256 of the size, highest first, plus 2^31 if there are metas, and the checksum that goes through the table from the lowest digit on; then the body |
| `RecordFormat.MetaPrinted` | 3rd_party/butil/recordio.cc:318-337 | the bytes of the k-th meta at their places: the length of the name in one byte, the name, the size plus 2^31 if another meta follows, the data |
| `RecordFormat.PayloadPrinted` | 3rd_party/butil/recordio.cc:338-346 | the payload is all that is behind the metas |
| `RecordFormat.OneRecord` | 3rd_party/butil/recordio.cc:307-357 | all 17 bytes of a record with one meta and one byte of payload |
| `RecordFormat.ReadsExactly` | 3rd_party/butil/recordio.cc:221-357 | the reader returns a record if and only if the input begins with the print of that record and the record is readable |
| `RecordFormat.PrintedReads` | 3rd_party/butil/recordio.cc:221-357 | what was printed is read back exactly when the record is readable, and is an error otherwise |
| `RecordFormat.ReadIsPrinted` | 3rd_party/butil/recordio.cc:221-301 | whatever is read as a record is, byte for byte, the print of that record |
| `RecordFormat.PrintedListReads` | 3rd_party/butil/recordio.cc:221-357 | any list of readable records printed one after the other and followed by anything is read back, and that rest is left |
| `RecordFormat.PrintsTellApart` | 3rd_party/butil/recordio.cc:307-357 | no print of a readable record begins the print of another one |
| `RecordFormat.PartIsShort` | 3rd_party/butil/recordio.cc:221-258 | any proper part of a readable record is a request for more bytes, never an error |
| `RecordFormat.DamagedHeadIsNoticed` | 3rd_party/butil/recordio.cc:227-248 | changing any one byte of the nine bytes of a head makes the reader report an error and take nothing |
| `RecordFormat.MetasRead` | 3rd_party/butil/recordio.cc:263-289 | printed metas are read back if their names are distinct and of 1 to 255 bytes, and refused otherwise |
| `RecordFormat.MetasReadArePrinted` | 3rd_party/butil/recordio.cc:263-289 | metas that are read are printed just so, with all but the last announcing a next one |
| `Octets.WordDigits` | 3rd_party/butil/recordio.cc:233-235 | the bytes of a word in network order are its digits to the base 256, highest first |
| `Octets.ChecksumIs` | 3rd_party/butil/recordio.cc:69-76 | the checksum goes through the table from the lowest byte to the highest |
| `Octets.TableEntries` | 3rd_party/butil/recordio.cc:44-67 | the entries of the table for no bit and for each single bit |
| `Octets.TableMade` | 3rd_party/butil/recordio.cc:44-67 | every other entry is made of these |
| `Octets.ChecksumChanges` | 3rd_party/butil/recordio.cc:69-76 | changing one byte of a size changes its checksum |
| `Octets.NumberOfWord` | 3rd_party/butil/recordio.cc:233-235 | reading a word in network order undoes writing it |
| `Records.NamedReadable` | 3rd_party/butil/recordio.cc:108-126 | of the records with names that MutableMeta accepts, exactly those without a name of 256 bytes and within the size limit are readable |
| `Records.Record.FindMeta` | 3rd_party/butil/recordio.cc:78-85 | the place of the meta of that name, or none exactly when no meta has it |
| `Records.Record.MutableMeta` | 3rd_party/butil/recordio.cc:108-126 | the meta of that name, added at the end if new; NULL for a name that is empty, too long, or present when it should not be; names stay distinct and a new meta has a new buffer |
| `Records.Record.RemoveMeta` | 3rd_party/butil/recordio.cc:128-137 | true exactly when the name is present; just its meta is gone and names stay distinct |
| `Records.Record.Clear` | 3rd_party/butil/recordio.cc:139-142 | no metas and no payload, and no buffer but that of the payload changes |
| `Records.Record.ByteSize` | 3rd_party/butil/recordio.cc:144-151 | the length of what will be written |
| `Records.LongNameIsLost` | 3rd_party/butil/recordio.cc:313-321 | a record with one name of 256 bytes is accepted, and its print is never read as a record |
| `RecordIO.RecordReader.CutRecord` | 3rd_party/butil/recordio.cc:221-301 | over a cutter, the record, what is left and the offset are those of the format; short input and a bad head change nothing; after a bad meta the record has the metas before it, no payload, and the offset counts what was asked for even where the input ended before; no other buffer sees a change |
| `RecordIO.RecordReader.CutMetas` | 3rd_party/butil/recordio.cc:263-289 | the loop over metas gives the metas of the format, or the error and the metas before it |
| `RecordIO.RecordReader.CutMeta` | 3rd_party/butil/recordio.cc:263-289 | one round of the loop, including names and sizes that run past the end of the input |
| `RecordIO.RecordReader.CutMetaHead` | 3rd_party/butil/recordio.cc:264-272 | the length, the name and the size word of a meta are cut as far as they are there |
| `RecordIO.RecordReader.CutUntilNextRecordCandidate` | 3rd_party/butil/recordio.cc:185-219 | moves to the first magic number behind the one at the beginning, over window boundaries; if there is none, just the bytes in which one may still begin are left |
| `RecordIO.RecordReader.SearchWindow` | 3rd_party/butil/recordio.cc:197-217 | one window of 512 bytes: what is dropped holds no beginning of a magic number |
| `RecordWriters.RecordWriter.WriteWithoutFlush` | 3rd_party/butil/recordio.cc:307-357 | no other buffer changes; -1 leaves the buffer as it was; if no malloc failed, -1 is returned exactly when a name or a size is over its limit, and the print of the record is appended if and only if reserve could name the place of the head or memory held it already; if one failed and 0 is returned, a byte is missing for each; at most so many refs are added as can be told before |
| `RecordWriters.RecordWriter.WriteMeta` | 3rd_party/butil/recordio.cc:311-337 | unless a malloc failed, -1 is returned exactly when the name or the data are over their limit, and otherwise exactly the bytes of the meta are appended, its data without a copy |
| `RecordWriters.RecordWriter.ReserveHead` | 3rd_party/butil/recordio.cc:308-310 | nine bytes are added as memory holds them, one less at least if a malloc failed, and the area is theirs |
| `RecordWriters.RecordWriter.FillHead` | 3rd_party/butil/recordio.cc:353-355 | the reserved head is overwritten when there is an area and stays as it is when there is none |
| `RecordWriters.RecordWriter.Undo` | 3rd_party/butil/recordio.cc:313-317 | what was appended since is gone and no other buffer changes |
| `RecordWriters.RecordWriter.Flush` | 3rd_party/butil/recordio.cc:359-377 | the writer has got what left the buffer, and it goes on until all was taken or the writer took nothing; 0 when something was taken or nothing was there, otherwise EAGAIN, or the error of the writer |
| `RecordWriters.InBlockArea` | 3rd_party/butil/recordio.cc:310 | when a buffer is one ref to the first n bytes of a fresh block of 65536 bytes, a head has an area exactly when n is at most 32767 |
| `RecordWriters.WriteEmpties` | 3rd_party/butil/recordio.cc:307-357 | up to 3641 calls for a record without content, on a fresh block of 65536 bytes and without a failed malloc, append that many prints |
| `RecordWriters.LoseHead` | 3rd_party/butil/recordio.cc:307-357 | the call after 3641 of these returns 0 too, and in place of the head it appends the nine bytes that the block held there before the first call |
| `RecordTrips.WriteAll` | 3rd_party/butil/recordio.cc:307-357 | WriteWithoutFlush for a list of records, if no malloc failed, succeeds exactly when all are writable; the bodies are appended, each behind nine bytes, and these are the heads whenever blocks are small and refs few enough before the first call |
| `RecordTrips.FramesRead` | 3rd_party/butil/recordio.cc:221-357 | readable records, each body behind nine bytes and anything behind them, are read back and the rest left if and only if the nine bytes are the heads |
| `RecordTrips.AmpleHas` | 3rd_party/butil/iobuf.cpp:1207-1249 | with small blocks and few refs before the first record there is an area for the head of each one |
| `RecordTrips.ReadAll` | 3rd_party/butil/recordio.cc:221-301 | CutRecord up to n times gives the records, each with buffers of its own that later calls leave alone, that the format reads one after the other, and leaves what the format leaves |
| `RecordTrips.WriteThenRead` | 3rd_party/butil/recordio.cc:221-357 | a list of readable records written to an empty buffer with any bytes behind them: if no malloc failed, and blocks are small and refs few enough before the first call, as many calls of CutRecord give the records back and leave those bytes; no other buffer sees a change |
| `Crc32c.ExtendImpl` | 3rd_party/butil/crc32c.cc:379-422 | for every buffer, address and initial value the complement of the result is the bit-at-a-time reflected register that starts with the complement of the initial value |
| `Crc32c.CheckValue` | 3rd_party/butil/crc32c.cc:379-422 | the CRC of "123456789" is 0xE3069283, as published |
| `Crc32c.CrcConcat` | 3rd_party/butil/crc32c.cc:379-422 | extending by one buffer and then by another is extending by both |
| `Crc32c.SlowCrc32` | 3rd_party/butil/crc32c.cc:333-347 | eight bytes by table lookups advance the register by eight bytes |
| `Crc32c.SliceTakesFour` | 3rd_party/butil/crc32c.cc:333-340 | four lookups in four tables are four byte steps |
| `Crc32c.TableIs` | 3rd_party/butil/crc32c.cc:333-347 | entry i of table k is the register after byte i and k zero bytes |
| `Crc32c.Bitwise` | 3rd_party/butil/crc32c.cc:441-451 | the bitwise loop computes the definition |
| `BlockGroups.SlotsNeverShared` | 3rd_party/butil/object_pool_inl.h:418-466 | in every interleaving no store hits a slot that is taken, no two slots hold the same block, and a counter passes its capacity only by the threads about to take it back |
| `BlockGroups.GroupsFillUp` | 3rd_party/butil/object_pool_inl.h:418-466 | in every interleaving there are at most 65536 groups, all but the last are full, and a thread never tries a group again that it found full |
| `BlockGroups.AddEnds` | 3rd_party/butil/object_pool_inl.h:418-466 | adding ends with the block in a slot, or, with every group full, when a group cannot be allocated or there are 65536 |
| `BlockGroups.RunInv` | 3rd_party/butil/object_pool_inl.h:418-466 | the invariant of the groups holds in every reachable state |
| `ObjectPools.ExactlyOnePlace` | 3rd_party/butil/object_pool_inl.h:165-256 | in every interleaving an object is in exactly one place (caller, a local free list, a global chunk, or on its way between them) if it was constructed, and in none otherwise |
| `ObjectPools.ChunksNotEmpty` | 3rd_party/butil/object_pool_inl.h:188-194 | a chunk taken from the global list always has an object to give, if free lists are for one object at least |
| `ObjectPools.ListsBounded` | 3rd_party/butil/object_pool_inl.h:235-252 | in every interleaving no free list, no global chunk and no chunk in flight has more than the limit of objects, or one for a limit of 0, and no block more than it has room for |
| `ObjectPools.FullListGoes` | 3rd_party/butil/object_pool_inl.h:242-252 | an object returned to a full list makes just that list a global chunk, whatever other threads do meanwhile, or stays with the caller when there is no memory |
| `ObjectPools.ConstructsLast` | 3rd_party/butil/object_pool_inl.h:183-220 | an object is constructed only by a thread without free objects that found no global chunk |
| `ObjectPools.LimitIsExact` | 3rd_party/butil/object_pool_inl.h:235-252 | some run takes an object from an empty free list if and only if free lists are for no object at all |
| `ObjectPools.RunInv` | 3rd_party/butil/object_pool_inl.h:541-573 | the invariant of the pool holds in every reachable state: places, room in lists, chunks and blocks, and what threads under way rely on |
| `Arenas.Arena.Allocate` | 3rd_party/butil/arena.h:74-81 | one more region of n bytes is handed out, from the current block if it has room and its count goes up by just n, otherwise as `allocate_in_other_blocks` does; each block counts exactly what the regions in it take |
| `Arenas.Arena.AllocateNewBlock` | 3rd_party/butil/arena.cpp:66-73 | a region is a block of its own |
| `Arenas.Arena.AllocateInOtherBlocks` | 3rd_party/butil/arena.cpp:75-102 | a big region is a block of its own, otherwise the current block is retired and a new one begun |
| `Arenas.ArenaSound` | 3rd_party/butil/arena.cpp:66-102 | all regions handed out lie in their blocks and are pairwise disjoint, and the regions in a retired block leave less than a quarter of its size |

## Left out

- AntRPC's channel, server and scheduler, and the queue in `daking`: not part of this model.
- File descriptors, SSL, `pappend_from_file_descriptor`, streams, snappy and protobuf adapters, iterators and appenders of IOBuf: input and output around the same operations.
- Aligned buffers, `fetch`, `append_from_SSL_channel`, block statistics: would only add easy members or outside calls.
- Operations of a buffer with itself as the other buffer. The destructors, which are `clear` and `return_cached_blocks`.
- `~IOBufCutter`: it rewrites the first ref without changing the stored sum of lengths.
- Weak memory ordering, carry-less and SSE4.2 forms of CRC32C, and the literal tables of both checksums: the tables are defined by their recurrences, whose values `Octets.TableEntries`, `Octets.TableMade` and `Crc32c.CheckValue` fix.
- RecordIO over several reads (`ReadNext`): reading is stated for bytes that are already there, because an append may merge into the ref a cutter has loaded. `RecordWriter::Write` is `WriteWithoutFlush` and `Flush` one after the other.
- `_log_request_count`, the direct `DoLog` of `Log()` when the logger is stopped or full, log requests without content, the sink and formatting of the logger.
- `on_reset_verbose` and changes of the default level while sites are added.
- Appends.AppendV: asks for at least one byte in a nonempty list of pieces; the other case is Appends.AppendEmptyPieces.
- Threads.Thread.AppendV: asks for the same.
- Appends.AppendUserData: asks for at most 0x5555_5555 bytes where the source takes up to 2^32 - 101, because three lengths are added in 32 bits (RefQueues.SumWraps) and, from 2^31 bytes on, the highest bit of an offset marks the big view.
- Threads.Thread.AppendUserData: asks for the same.
- Threads.Thread.UnsafeAssign: asks that the ref an area starts in still reaches to its offset, because the source computes the length behind it without a check.
- Portals.IOPortal.AppendFromReader: asks for the state of the chains that ChainLinks.CanRead gives in every reachable state.
- Portals.Reader.ReadV: stands for a reader outside.
- RecordWriters.RecordWriter.WriteWithoutFlush: when a malloc fails in the middle it says that bytes are missing and how many at least, but not which, and that -1 leaves this buffer and other buffers as they were.
- RecordTrips.WriteThenRead: the bound on refs counts one for each byte that is copied, which is more than are pushed; what holds beyond it is RecordTrips.WriteAll, RecordTrips.FramesRead and, call by call, RecordWriters.RecordWriter.WriteWithoutFlush.
- RecordIO.RecordReader.CutMetaHead: the CHECK on the length byte is no end of the program; without a byte the length is 0, as it is set before.
- Records.Record.Clear: the buffers of the metas stay with the thread; giving up the last pointer to a buffer is `clear`.
- Arenas.Arena.Allocate: malloc succeeds; sizes stay below 2^32.
- ObjectPools.RunInv: callers return only objects they hold.
- IOBufs.Heap.DecRef: the memory of a freed block is not followed any further, and its address may be used again.
