# CoDiPack chunks and binary I/O handle

This project models two pieces of CoDiPack, the C++ library for algorithmic
differentiation:

- The data chunks its tapes record into (`include/tapes/chunk.hpp`). A chunk is a
  fixed-capacity struct of arrays. It has one to four parallel arrays (`Chunk1` ..
  `Chunk4`) with `size` slots each. The first `usedSize` slots hold the recorded
  entries. Entries are appended one record at a time. The used size can be reset or
  set. The arrays are allocated and released together. A chunk streams every slot of
  every array, array after array, to and from a file handle.
- The binary file handle that chunks are written through (`include/tools/io.hpp`).
  A handle is opened once, for writing or for reading. Writes and reads transfer whole
  arrays. A failure raises an `IoException` that carries a kind and a message.

Dafny module `Io` (`io.dfy`) models the handle and `Chunks` (`chunk.dfy`) the chunks.

- A handle is a class over the file's contents, which are a sequence of stored elements.
  It also has a read cursor and the remaining room on the device.
- Each chunk is a class whose fields are its counters and its arrays (`array?`, null
  when released). `Valid()` states the chunk invariant: the used size never exceeds the
  capacity, all arrays are present or all are absent, and each present array has exactly
  `size` slots and is distinct from the others.
- `Records()` is the sequence of records the chunk holds, one tuple per used slot.
- The stored representation of a value is a conversion function `enc` on writing. Its
  reading counterpart is `dec`. `Inverse(enc, dec)` says that the two round-trip, which
  is what copying raw bytes guarantees.

The central properties:

- Appending a record adds exactly that record and keeps the invariant.
- Writing a chunk appends its arrays' images, in array order.
- Reading at the same offset gives back the same arrays. This holds for one chunk
  (`ImageNRoundTrip`), for a sequence of chunks (`ReadBackImages1`, with the methods
  `WriteChunks1` and `ReadChunks1` stated against it) and for a complete save and
  restore through two handles (`SaveAndRestore2`).
- The exact success and failure conditions of every transfer are stated, with the kind
  of exception raised.

A short write raises an exception of kind `Read`, not `Write`
(`include/tools/io.hpp:98`). The model keeps the source's behaviour, and
`Io.WriteKindNeverRaised` states it: kind `Write` is never raised.

## Model

| member | source | states |
|---|---|---|
| Io.ExceptionTextShape | include/tools/io.hpp:52-61 | the given text always starts the exception's message; the message is longer exactly when the errno description was appended, and that description can be read back from between the fixed frame " (Internal error: " and ")" |
| Io.NewIoException | include/tools/io.hpp:52-61 | the exception keeps the given kind; its text is the given text, with the errno description appended in its frame when asked and otherwise the text unchanged |
| Io.WriteStatus | include/tools/io.hpp:92-103 | a write succeeds exactly on a write handle whose device took every element; otherwise the kind is Mode exactly on a read handle and Read (never Write) on a short write, and the exception is WriteFailure: the short-write message with the errno description, or the mode message |
| Io.ReadStatus | include/tools/io.hpp:105-116 | a read succeeds exactly on a read handle that got every element; otherwise the kind is Mode exactly on a write handle and Read on a short read, and the exception is ReadFailure: the short-read message or the mode message, without the errno description |
| Io.WriteKindNeverRaised | include/tools/io.hpp:92-116 | a short write on a write handle always fails with kind Read, and no transfer ever fails with kind Write |
| Io.ConvertRoundTrip | include/tools/io.hpp:92-116 | a block written through the stored representation and read back through its inverse is the block itself |
| Io.IoHandle.constructor | include/tools/io.hpp:71-73 | a new handle has the fixed direction and its cursor at the start; a write handle starts on an empty (truncated) file, a read handle on the existing contents |
| Io.IoHandle.Open | include/tools/io.hpp:71-84 | opening succeeds exactly when fopen does; a write handle starts on an empty (truncated) file, a read handle at the start of the existing file; a failed open raises kind Open with "Could not open file: " followed by the file name and the errno description |
| Io.IoHandle.WriteData | include/tools/io.hpp:92-103 | on a write handle the elements the device has room for are appended in order and the outcome is WriteStatus of that count; a read handle changes nothing and fails with Mode |
| Io.IoHandle.ReadData | include/tools/io.hpp:105-116 | on a read handle the next elements of the file, as many as asked or as remain, fill the front of the array in order, the rest of the array is kept, the cursor advances by that count and the outcome is ReadStatus of it; a write handle changes neither handle nor array and fails with Mode |
| Chunks.Image2RoundTrip | include/tapes/chunk.hpp:249-260 | the elements a two-array chunk writes, wherever they sit in a file, read back at that offset as the same two arrays |
| Chunks.Image3RoundTrip | include/tapes/chunk.hpp:351-364 | the same for a three-array chunk |
| Chunks.Image4RoundTrip | include/tapes/chunk.hpp:467-482 | the same for a four-array chunk |
| Chunks.BlockAt | include/tapes/chunk.hpp:249-252 | a block written after a prefix is found again at the offset equal to the prefix's length |
| Chunks.ReadBackImages1 | include/tapes/chunk.hpp:161-170 | one-array chunks written one after another are read back one after another exactly as they were, whatever follows them in the file |
| Chunks.Images1 | include/tapes/chunk.hpp:161-163 | the file image of a sequence of one-array chunks written one after another has as many elements as their capacities add up to |
| Chunks.ReadBack1 | include/tapes/chunk.hpp:165-170 | reading one-array chunks one after another from a stream gives one piece per chunk, each as long as that chunk's capacity, and fails exactly when the stream is shorter than the capacities' total |
| Chunks.ArraysHaveCapacities1 | include/tapes/chunk.hpp:161-170 | for valid one-array chunks that hold their arrays, the lengths of what WriteChunks1 writes are exactly the capacities ReadChunks1 reads, so the two chain without further proof |
| Chunks.WriteChunks1 | include/tapes/chunk.hpp:161-163 | writing one-array chunks one after another succeeds exactly on a write handle (or with no chunks) with room for all of them; the file then grows by Images1 of their arrays and the room shrinks by their total capacity; a failure raises Mode on a read handle (left unchanged) and Read otherwise, with exactly the exception WriteFailure gives (kind and message text) |
| Chunks.WriteChunksFrom1 | include/tapes/chunk.hpp:161-163 | the same for the chunks from a given position on, in terms of their array contents |
| Chunks.ReadChunks1 | include/tapes/chunk.hpp:165-170 | reading one-array chunks one after another succeeds exactly on a read handle (or with no chunks) when ReadBack1 of the unread part of the file succeeds; every chunk's array then holds its piece, the cursor advances by the total capacity and the file is unchanged; a failure raises Mode on a write handle (left unchanged) and Read otherwise, with exactly the exception ReadFailure gives (kind and message text) |
| Chunks.ReadChunksFrom1 | include/tapes/chunk.hpp:165-170 | the same for the chunks from a given position on, with their capacities given |
| Chunks.SaveAndRestore2 | include/tapes/chunk.hpp:238-260 | writing a two-array chunk to a file and reading the file into a new chunk of the same capacity restores every slot of both arrays, so the records match once the used size is set |
| Chunks.Chunk1.constructor | include/tapes/chunk.hpp:150-152 | a new chunk has the given capacity, no used slots and a fresh array of that capacity |
| Chunks.Chunk1.GetSize | include/tapes/chunk.hpp:76-78 | the capacity, equal to the length of the array when allocated and never below the used size |
| Chunks.Chunk1.GetUsedSize | include/tapes/chunk.hpp:84-86 | the used size, never above the capacity and equal to the number of records held |
| Chunks.Chunk1.GetUnusedSize | include/tapes/chunk.hpp:92-94 | the free slots: used plus free is the capacity, and none are free exactly when the chunk is full |
| Chunks.Chunk1.Reset | include/tapes/chunk.hpp:99-101 | the chunk holds no records afterwards |
| Chunks.Chunk1.SetUsedSize | include/tapes/chunk.hpp:107-109 | the used size becomes the given count and the records become the slots before it, with no array changed |
| Chunks.Chunk1.Store | include/tapes/chunk.hpp:117 | a hook that changes nothing (no modifies clause) |
| Chunks.Chunk1.Load | include/tapes/chunk.hpp:125 | a hook that changes nothing (no modifies clause) |
| Chunks.Chunk1.AllocateData | include/tapes/chunk.hpp:172-174 | the array is replaced by a fresh one of `size` slots |
| Chunks.Chunk1.DeleteData | include/tapes/chunk.hpp:176-181 | afterwards no array is held; on a chunk without arrays it changes nothing, so releasing twice is harmless |
| Chunks.Chunk1.Resize | include/tapes/chunk.hpp:187-190 | the chunk is rebuilt empty at the new capacity with fresh arrays |
| Chunks.Chunk1.SetDataAndMove | include/tapes/chunk.hpp:196-200 | with a free slot, value i is stored in array i at slot `usedSize`, nothing else in the arrays changes, and the records grow by exactly that one record |
| Chunks.Chunk1.DataPointer | include/tapes/chunk.hpp:207-211 | for an index up to the capacity, a position at that index in the array, dereferenceable exactly when the index is below the capacity |
| Chunks.Chunk1.WriteData | include/tapes/chunk.hpp:161-163 | all `size` slots, used or not, go to the handle, with the outcome of that one transfer; on success the room shrinks by size; a read handle is left unchanged |
| Chunks.Chunk1.ReadData | include/tapes/chunk.hpp:165-170 | a chunk without an array gets a fresh one; on success the next `size` elements of the file, converted, are the whole array and the cursor moves past them; the outcome is ReadStatus of what remained; a write handle is left unchanged and an existing array too |
| Chunks.Chunk2.constructor | include/tapes/chunk.hpp:238-240 | a new chunk has the given capacity, no used slots and fresh arrays of that capacity |
| Chunks.Chunk2.GetSize | include/tapes/chunk.hpp:76-78 | the capacity, equal to the length of every array when allocated and never below the used size |
| Chunks.Chunk2.GetUsedSize | include/tapes/chunk.hpp:84-86 | the used size, never above the capacity and equal to the number of records held |
| Chunks.Chunk2.GetUnusedSize | include/tapes/chunk.hpp:92-94 | the free slots: used plus free is the capacity, and none are free exactly when the chunk is full |
| Chunks.Chunk2.Reset | include/tapes/chunk.hpp:99-101 | the chunk holds no records afterwards |
| Chunks.Chunk2.SetUsedSize | include/tapes/chunk.hpp:107-109 | the used size becomes the given count and the records become the slots before it, with no array changed |
| Chunks.Chunk2.Store | include/tapes/chunk.hpp:117 | a hook that changes nothing (no modifies clause) |
| Chunks.Chunk2.Load | include/tapes/chunk.hpp:125 | a hook that changes nothing (no modifies clause) |
| Chunks.Chunk2.AllocateData | include/tapes/chunk.hpp:262-265 | every array is replaced by a fresh one of `size` slots |
| Chunks.Chunk2.DeleteData | include/tapes/chunk.hpp:267-277 | afterwards no array is held; on a chunk without arrays it changes nothing, so releasing twice is harmless |
| Chunks.Chunk2.Resize | include/tapes/chunk.hpp:283-286 | the chunk is rebuilt empty at the new capacity with fresh arrays |
| Chunks.Chunk2.SetDataAndMove | include/tapes/chunk.hpp:293-298 | with a free slot, value i is stored in array i at slot `usedSize`, nothing else in the arrays changes, and the records grow by exactly that one record |
| Chunks.Chunk2.DataPointer | include/tapes/chunk.hpp:307-311 | for an index up to the capacity, a position at that index in every array, dereferenceable exactly when the index is below the capacity |
| Chunks.Chunk2.WriteData | include/tapes/chunk.hpp:249-252 | success exactly on a write handle with room for 2·size elements; then the room shrinks by 2·size and the file grows by all slots of array 1, then array 2; a failure raises Mode on a read handle (which is left unchanged) and Read otherwise, with exactly the exception WriteFailure gives (kind and message text); the cursor does not move |
| Chunks.Chunk2.ReadData | include/tapes/chunk.hpp:254-260 | a chunk without arrays gets fresh ones; success exactly on a read handle with 2·size elements left; then array i is the i-th block of `size` elements after the cursor, converted, and the cursor moves past all 2; a failure raises Mode on a write handle (which, and any existing arrays, are left unchanged) and Read otherwise, with exactly the exception ReadFailure gives (kind and message text) |
| Chunks.Chunk2.ReadArrays | include/tapes/chunk.hpp:254-260 | the reads of ReadData on allocated arrays, array after array, stopping at the first failure, with the same outcome and contents |
| Chunks.Chunk3.constructor | include/tapes/chunk.hpp:340-342 | a new chunk has the given capacity, no used slots and fresh arrays of that capacity |
| Chunks.Chunk3.GetSize | include/tapes/chunk.hpp:76-78 | the capacity, equal to the length of every array when allocated and never below the used size |
| Chunks.Chunk3.GetUsedSize | include/tapes/chunk.hpp:84-86 | the used size, never above the capacity and equal to the number of records held |
| Chunks.Chunk3.GetUnusedSize | include/tapes/chunk.hpp:92-94 | the free slots: used plus free is the capacity, and none are free exactly when the chunk is full |
| Chunks.Chunk3.Reset | include/tapes/chunk.hpp:99-101 | the chunk holds no records afterwards |
| Chunks.Chunk3.SetUsedSize | include/tapes/chunk.hpp:107-109 | the used size becomes the given count and the records become the slots before it, with no array changed |
| Chunks.Chunk3.Store | include/tapes/chunk.hpp:117 | a hook that changes nothing (no modifies clause) |
| Chunks.Chunk3.Load | include/tapes/chunk.hpp:125 | a hook that changes nothing (no modifies clause) |
| Chunks.Chunk3.AllocateData | include/tapes/chunk.hpp:366-370 | every array is replaced by a fresh one of `size` slots |
| Chunks.Chunk3.DeleteData | include/tapes/chunk.hpp:372-387 | afterwards no array is held; on a chunk without arrays it changes nothing, so releasing twice is harmless |
| Chunks.Chunk3.Resize | include/tapes/chunk.hpp:393-396 | the chunk is rebuilt empty at the new capacity with fresh arrays |
| Chunks.Chunk3.SetDataAndMove | include/tapes/chunk.hpp:404-410 | with a free slot, value i is stored in array i at slot `usedSize`, nothing else in the arrays changes, and the records grow by exactly that one record |
| Chunks.Chunk3.DataPointer | include/tapes/chunk.hpp:420-425 | for an index up to the capacity, a position at that index in every array, dereferenceable exactly when the index is below the capacity |
| Chunks.Chunk3.WriteData | include/tapes/chunk.hpp:351-355 | success exactly on a write handle with room for 3·size elements; then the room shrinks by 3·size and the file grows by all slots of array 1, then array 2, then array 3; a failure raises Mode on a read handle (which is left unchanged) and Read otherwise, with exactly the exception WriteFailure gives (kind and message text); the cursor does not move |
| Chunks.Chunk3.ReadData | include/tapes/chunk.hpp:357-364 | a chunk without arrays gets fresh ones; success exactly on a read handle with 3·size elements left; then array i is the i-th block of `size` elements after the cursor, converted, and the cursor moves past all 3; a failure raises Mode on a write handle (which, and any existing arrays, are left unchanged) and Read otherwise, with exactly the exception ReadFailure gives (kind and message text) |
| Chunks.Chunk3.ReadArrays | include/tapes/chunk.hpp:357-364 | the reads of ReadData on allocated arrays, array after array, stopping at the first failure, with the same outcome and contents |
| Chunks.Chunk4.constructor | include/tapes/chunk.hpp:456-458 | a new chunk has the given capacity, no used slots and fresh arrays of that capacity |
| Chunks.Chunk4.GetSize | include/tapes/chunk.hpp:76-78 | the capacity, equal to the length of every array when allocated and never below the used size |
| Chunks.Chunk4.GetUsedSize | include/tapes/chunk.hpp:84-86 | the used size, never above the capacity and equal to the number of records held |
| Chunks.Chunk4.GetUnusedSize | include/tapes/chunk.hpp:92-94 | the free slots: used plus free is the capacity, and none are free exactly when the chunk is full |
| Chunks.Chunk4.Reset | include/tapes/chunk.hpp:99-101 | the chunk holds no records afterwards |
| Chunks.Chunk4.SetUsedSize | include/tapes/chunk.hpp:107-109 | the used size becomes the given count and the records become the slots before it, with no array changed |
| Chunks.Chunk4.Store | include/tapes/chunk.hpp:117 | a hook that changes nothing (no modifies clause) |
| Chunks.Chunk4.Load | include/tapes/chunk.hpp:125 | a hook that changes nothing (no modifies clause) |
| Chunks.Chunk4.AllocateData | include/tapes/chunk.hpp:484-489 | every array is replaced by a fresh one of `size` slots |
| Chunks.Chunk4.DeleteData | include/tapes/chunk.hpp:491-511 | afterwards no array is held; on a chunk without arrays it changes nothing, so releasing twice is harmless |
| Chunks.Chunk4.Resize | include/tapes/chunk.hpp:517-520 | the chunk is rebuilt empty at the new capacity with fresh arrays |
| Chunks.Chunk4.SetDataAndMove | include/tapes/chunk.hpp:529-536 | with a free slot, value i is stored in array i at slot `usedSize`, nothing else in the arrays changes, and the records grow by exactly that one record |
| Chunks.Chunk4.DataPointer | include/tapes/chunk.hpp:547-553 | for an index up to the capacity, a position at that index in every array, dereferenceable exactly when the index is below the capacity |
| Chunks.Chunk4.WriteData | include/tapes/chunk.hpp:467-472 | success exactly on a write handle with room for 4·size elements; then the room shrinks by 4·size and the file grows by all slots of array 1, then array 2, then array 3, then array 4; a failure raises Mode on a read handle (which is left unchanged) and Read otherwise, with exactly the exception WriteFailure gives (kind and message text); the cursor does not move |
| Chunks.Chunk4.ReadData | include/tapes/chunk.hpp:474-482 | a chunk without arrays gets fresh ones; success exactly on a read handle with 4·size elements left; then array i is the i-th block of `size` elements after the cursor, converted, and the cursor moves past all 4; a failure raises Mode on a write handle (which, and any existing arrays, are left unchanged) and Read otherwise, with exactly the exception ReadFailure gives (kind and message text) |
| Chunks.Chunk4.ReadArrays | include/tapes/chunk.hpp:474-482 | the reads of ReadData on allocated arrays, array after array, stopping at the first failure, with the same outcome and contents |

## Left out

- The C library calls are replaced by parameters. `fopen` succeeding is `canOpen`, the
  device's remaining capacity (when `fwrite` comes up short) is `room`, and the text
  `strerror(errno)` gives is `osError`. `fread` comes up short exactly when the file
  holds too few elements.
- Writes reach the modelled file at once. The `stdio` buffering is not modelled, and
  neither is the destructor's `fclose` (`include/tools/io.hpp:86-90`), whose result is
  ignored at `include/tools/io.hpp:88`. A write error that only shows when the buffer is
  flushed is therefore not captured. `Chunks.SaveAndRestore2` takes the writing handle
  as destroyed, and its file closed, before the file is opened for reading.
- Byte layout is not modelled: `sizeof`, `EntrySize` and the on-disk encoding. A file is
  a sequence of stored elements, and each array element is one stored element obtained
  through `enc`. Files that mix element types are covered by a common element type `E`.
- `new[]`/`delete[]` become allocating a fresh array and setting the field to null.
  Freeing memory, and the leak when `allocateData` runs on a chunk that already has
  arrays, are not observable in the model.
- `resize` destroys the chunk and rebuilds it in place with placement new. It is modelled
  as releasing the arrays and allocating fresh ones in the same object.
- `codiAssert` checks become `requires` clauses: a free slot for `setDataAndMove`, and an
  index no larger than the capacity for `dataPointer`.
- `dataPointer` and `setDataAndMove` also need allocated arrays. The source dereferences
  them unchecked.
- `Chunks.Chunk1.WriteData` to `Chunks.Chunk4.WriteData`, `Chunks.SaveAndRestore2` and
  `Chunks.WriteChunks1` require allocated arrays. The source hands a null array pointer
  to the handle unchecked: a read handle then raises Mode, a chunk of capacity 0
  succeeds, and anything else is undefined behaviour.
- `Chunks.ReadChunks1` requires every chunk to hold an array already, so that the arrays
  can be required distinct. A released chunk never hands a null pointer to the handle:
  `readData` allocates its array first (`include/tapes/chunk.hpp:166-168`), and
  `Chunks.Chunk1.ReadData` covers that case for a single chunk. A sequence that mixes
  released chunks is not covered.
- `size_t` is modelled as an unbounded `nat`. No counter gets near wrap-around, because
  every count is bounded by an allocated array's length.
- `Chunks.Chunk1.SetUsedSize`, `Chunks.Chunk2.SetUsedSize`, `Chunks.Chunk3.SetUsedSize`
  and `Chunks.Chunk4.SetUsedSize` require `usage <= size`. The source sets any value
  without checking. The model keeps the chunk invariant instead of letting a later append
  write past the arrays.
- `Chunks.Chunk1.WriteData` to `Chunks.Chunk4.WriteData` state the file contents only on
  success. On failure they state the exception (kind and text), but not the partial data a short
  `fwrite` leaves behind. `Io.IoHandle.WriteData` states that partial data exactly.
- `Chunks.Chunk1.ReadData` to `Chunks.Chunk4.ReadData` state the arrays only on success.
  On a short read the partial fill is what `Io.IoHandle.ReadData` states for the array
  being read.
- Virtual dispatch through `ChunkInterface` is not modelled, and neither are its pure
  virtual declarations. The members it shares are repeated in each chunk class.
- The exception's own storage and the C++ exception mechanism are modelled as a returned
  `Outcome` value. A thrown exception ends the chunk's transfer, so later arrays are not
  written or read.
- Reading and writing a sequence of chunks is stated for one-array chunks
  (`ReadBackImages1`, `Chunks.WriteChunks1`, `Chunks.ReadChunks1`). `Chunks.ReadChunks1`
  requires the chunks' arrays to be distinct, because reading into one array twice
  leaves only the second piece there. A whole save and restore is stated for the two-array chunk
  (`SaveAndRestore2`). The multi-array chunks' images are covered one chunk at a time by
  `Image2RoundTrip`, `Image3RoundTrip` and `Image4RoundTrip`.
