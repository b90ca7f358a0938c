/** Data chunks of CoDiPack (include/tapes/chunk.hpp).

    A chunk is a fixed-capacity struct of arrays: `size` slots in each of one to
    four parallel arrays, of which the first `usedSize` hold records. Records are
    appended one at a time; the counter can be reset or set without touching the
    arrays. The arrays are allocated and released together, and a chunk streams
    all `size` slots of every array, array after array, to and from an I/O
    handle, whatever its fill level.

    The members every chunk shares (its counters and the no-op hooks) are
    repeated in each class. */
module Chunks {
  import opened Io

  /** A position in an array, as `&data[index]`: one past the last slot is a
      position but cannot be dereferenced. */
  datatype Pointer<T> = Pointer(base: array<T>, offset: nat) {
    predicate Dereferenceable() {
      offset < base.Length
    }
  }

  /** The records of a two-array chunk: slot i of each array, side by side. */
  function Zip2<A, B>(x: seq<A>, y: seq<B>): seq<(A, B)>
    requires |x| == |y|
  {
    seq(|x|, i requires 0 <= i < |x| => (x[i], y[i]))
  }

  /** The records of a three-array chunk. */
  function Zip3<A, B, C>(x: seq<A>, y: seq<B>, z: seq<C>): seq<(A, B, C)>
    requires |x| == |y| == |z|
  {
    seq(|x|, i requires 0 <= i < |x| => (x[i], y[i], z[i]))
  }

  /** The records of a four-array chunk. */
  function Zip4<A, B, C, D>(x: seq<A>, y: seq<B>, z: seq<C>, w: seq<D>): seq<(A, B, C, D)>
    requires |x| == |y| == |z| == |w|
  {
    seq(|x|, i requires 0 <= i < |x| => (x[i], y[i], z[i], w[i]))
  }

  // ---------------------------------------------------------------------------
  // File images
  // ---------------------------------------------------------------------------

  /** What a two-array chunk writes: all of array 1, then all of array 2. */
  function Image2<A, B, E>(enc1: A -> E, enc2: B -> E, x: seq<A>, y: seq<B>): seq<E>
  {
    Convert(enc1, x) + Convert(enc2, y)
  }

  /** A block stored after `prefix` is found again at offset |prefix|. */
  lemma BlockAt<E>(prefix: seq<E>, block: seq<E>, rest: seq<E>)
    ensures var s := prefix + block + rest;
      s[|prefix|..|prefix| + |block|] == block
  {
    var s := prefix + block + rest;
    assert s == prefix + (block + rest);
    assert s[|prefix|..] == block + rest;
    assert s[|prefix|..][..|block|] == block;
  }

  /** A two-array chunk image stored in the middle of a file is read back, at
      the offset where it was written, as the two arrays that produced it. */
  lemma Image2RoundTrip<A(!new), B(!new), E>(enc1: A -> E, dec1: E -> A, enc2: B -> E, dec2: E -> B,
                                          prefix: seq<E>, x: seq<A>, y: seq<B>, rest: seq<E>)
    requires Inverse(enc1, dec1) && Inverse(enc2, dec2)
    requires |x| == |y|
    ensures var s := prefix + Image2(enc1, enc2, x, y) + rest;
      var c, n := |prefix|, |x|;
      && |s| == c + 2 * n + |rest|
      && Convert(dec1, s[c..c + n]) == x
      && Convert(dec2, s[c + n..c + 2 * n]) == y
  {
    var s := prefix + Image2(enc1, enc2, x, y) + rest;
    var c1, c2 := Convert(enc1, x), Convert(enc2, y);
    assert s == prefix + c1 + (c2 + rest);
    assert s == (prefix + c1) + c2 + rest;
    BlockAt(prefix, c1, c2 + rest);
    BlockAt(prefix + c1, c2, rest);
    ConvertRoundTrip(enc1, dec1, x);
    ConvertRoundTrip(enc2, dec2, y);
  }

  /** What a three-array chunk writes: all of array 1, then 2, then 3. */
  function Image3<A, B, C, E>(enc1: A -> E, enc2: B -> E, enc3: C -> E, x: seq<A>, y: seq<B>, z: seq<C>): seq<E>
  {
    Convert(enc1, x) + Convert(enc2, y) + Convert(enc3, z)
  }

  /** What a four-array chunk writes: all of array 1, then 2, 3 and 4. */
  function Image4<A, B, C, D, E>(enc1: A -> E, enc2: B -> E, enc3: C -> E, enc4: D -> E,
                                 x: seq<A>, y: seq<B>, z: seq<C>, w: seq<D>): seq<E>
  {
    Convert(enc1, x) + Convert(enc2, y) + Convert(enc3, z) + Convert(enc4, w)
  }

  /** A three-array chunk image is read back, at the offset where it was
      written, as the three arrays that produced it. */
  lemma Image3RoundTrip<A(!new), B(!new), C(!new), E>(enc1: A -> E, dec1: E -> A, enc2: B -> E, dec2: E -> B,
                                                     enc3: C -> E, dec3: E -> C,
                                                     prefix: seq<E>, x: seq<A>, y: seq<B>, z: seq<C>, rest: seq<E>)
    requires Inverse(enc1, dec1) && Inverse(enc2, dec2) && Inverse(enc3, dec3)
    requires |x| == |y| == |z|
    ensures var s := prefix + Image3(enc1, enc2, enc3, x, y, z) + rest;
      var c, n := |prefix|, |x|;
      && |s| == c + 3 * n + |rest|
      && Convert(dec1, s[c..c + n]) == x
      && Convert(dec2, s[c + n..c + 2 * n]) == y
      && Convert(dec3, s[c + 2 * n..c + 3 * n]) == z
  {
    var c1, c2, c3 := Convert(enc1, x), Convert(enc2, y), Convert(enc3, z);
    var s := prefix + Image3(enc1, enc2, enc3, x, y, z) + rest;
    assert s == prefix + c1 + (c2 + c3 + rest);
    assert s == (prefix + c1) + c2 + (c3 + rest);
    assert s == (prefix + c1 + c2) + c3 + rest;
    BlockAt(prefix, c1, c2 + c3 + rest);
    BlockAt(prefix + c1, c2, c3 + rest);
    BlockAt(prefix + c1 + c2, c3, rest);
    ConvertRoundTrip(enc1, dec1, x);
    ConvertRoundTrip(enc2, dec2, y);
    ConvertRoundTrip(enc3, dec3, z);
  }

  /** A four-array chunk image is read back, at the offset where it was
      written, as the four arrays that produced it. */
  lemma Image4RoundTrip<A(!new), B(!new), C(!new), D(!new), E>(
    enc1: A -> E, dec1: E -> A, enc2: B -> E, dec2: E -> B,
    enc3: C -> E, dec3: E -> C, enc4: D -> E, dec4: E -> D,
    prefix: seq<E>, x: seq<A>, y: seq<B>, z: seq<C>, w: seq<D>, rest: seq<E>)
    requires Inverse(enc1, dec1) && Inverse(enc2, dec2) && Inverse(enc3, dec3) && Inverse(enc4, dec4)
    requires |x| == |y| == |z| == |w|
    ensures var s := prefix + Image4(enc1, enc2, enc3, enc4, x, y, z, w) + rest;
      var c, n := |prefix|, |x|;
      && |s| == c + 4 * n + |rest|
      && Convert(dec1, s[c..c + n]) == x
      && Convert(dec2, s[c + n..c + 2 * n]) == y
      && Convert(dec3, s[c + 2 * n..c + 3 * n]) == z
      && Convert(dec4, s[c + 3 * n..c + 4 * n]) == w
  {
    var c1, c2, c3, c4 := Convert(enc1, x), Convert(enc2, y), Convert(enc3, z), Convert(enc4, w);
    var s := prefix + Image4(enc1, enc2, enc3, enc4, x, y, z, w) + rest;
    assert s == prefix + c1 + (c2 + c3 + c4 + rest);
    assert s == (prefix + c1) + c2 + (c3 + c4 + rest);
    assert s == (prefix + c1 + c2) + c3 + (c4 + rest);
    assert s == (prefix + c1 + c2 + c3) + c4 + rest;
    BlockAt(prefix, c1, c2 + c3 + c4 + rest);
    BlockAt(prefix + c1, c2, c3 + c4 + rest);
    BlockAt(prefix + c1 + c2, c3, c4 + rest);
    BlockAt(prefix + c1 + c2 + c3, c4, rest);
    ConvertRoundTrip(enc1, dec1, x);
    ConvertRoundTrip(enc2, dec2, y);
    ConvertRoundTrip(enc3, dec3, z);
    ConvertRoundTrip(enc4, dec4, w);
  }

  // ---------------------------------------------------------------------------
  // Chunk1
  // ---------------------------------------------------------------------------

  /** Chunk with one data array. */
  class Chunk1<T(0)> {
    var size: nat
    var usedSize: nat
    var data: array?<T>

    ghost predicate Valid()
      reads this
    {
      && usedSize <= size
      && (data != null ==> data.Length == size)
    }

    predicate Allocated()
      reads this
    {
      data != null
    }

    /** The records held: the used prefix of the array. */
    ghost function Records(): seq<T>
      reads this, data
      requires Valid() && Allocated()
    {
      data[..usedSize]
    }

    constructor (size: nat)
      ensures Valid() && Allocated()
      ensures this.size == size && usedSize == 0
      ensures fresh(data)
    {
      this.size := size;
      usedSize := 0;
      new;
      AllocateData();
    }

    function GetSize(): (r: nat)
      reads this
      requires Valid()
      ensures Allocated() ==> r == data.Length
      ensures usedSize <= r
    {
      size
    }

    function GetUsedSize(): (r: nat)
      reads this, data
      requires Valid()
      ensures r <= size
      ensures Allocated() ==> r == |Records()|
    {
      usedSize
    }

    function GetUnusedSize(): (r: nat)
      reads this
      requires Valid()
      ensures r + usedSize == size
      ensures r == 0 <==> usedSize == size
    {
      size - usedSize
    }

    /** Marks the chunk empty; the array keeps its contents. */
    method Reset()
      requires Valid()
      modifies this`usedSize
      ensures Valid() && usedSize == 0
      ensures Allocated() ==> Records() == []
    {
      usedSize := 0;
    }

    /** Sets the number of used slots; the array is not touched. */
    method SetUsedSize(usage: nat)
      requires Valid()
      requires usage <= size
      modifies this`usedSize
      ensures Valid() && usedSize == usage
      ensures Allocated() ==> Records() == data[..usage]
    {
      usedSize := usage;
    }

    /** Hook for swapping the data out; does nothing. */
    method Store()
      requires Valid()
      ensures Valid()
    {
    }

    /** Hook for swapping the data back in; does nothing. */
    method Load()
      requires Valid()
      ensures Valid()
    {
    }

    /** Allocates a fresh array of `size` slots (their contents are unspecified). */
    method AllocateData()
      requires usedSize <= size
      modifies this`data
      ensures Valid() && Allocated()
      ensures fresh(data)
    {
      data := new T[size];
    }

    /** Releases the array; on a chunk without one it changes nothing. */
    method DeleteData()
      requires Valid()
      modifies this`data
      ensures Valid() && !Allocated()
      ensures old(data) == null ==> unchanged(this)
    {
      if data != null {
        data := null;
      }
    }

    /** Rebuilds the chunk empty at capacity `newSize`; nothing is carried over. */
    method Resize(newSize: nat)
      requires Valid()
      modifies this
      ensures Valid() && Allocated()
      ensures size == newSize && usedSize == 0
      ensures fresh(data)
    {
      DeleteData();
      size := newSize;
      usedSize := 0;
      AllocateData();
    }

    /** Appends one record at slot `usedSize`. */
    method SetDataAndMove(value: T)
      requires Valid() && Allocated()
      requires GetUnusedSize() != 0
      modifies this`usedSize, data
      ensures Valid()
      ensures usedSize == old(usedSize) + 1
      ensures data[..] == old(data[..])[old(usedSize) := value]
      ensures Records() == old(Records()) + [value]
    {
      data[usedSize] := value;
      usedSize := usedSize + 1;
    }

    /** The position of slot `index`; `index == size` is the one-past-end position. */
    method DataPointer(index: nat) returns (pointer: Pointer<T>)
      requires Valid() && Allocated()
      requires index <= size
      ensures pointer.base == data && pointer.offset == index
      ensures pointer.Dereferenceable() <==> index < size
    {
      pointer := Pointer(data, index);
    }

    /** Writes all `size` slots, used or not. */
    method WriteData<E>(handle: IoHandle<E>, enc: T -> E, osError: string) returns (r: Outcome)
      requires Valid() && Allocated() && handle.Valid()
      modifies handle
      ensures handle.Valid()
      ensures handle.cursor == old(handle.cursor)
      ensures r == WriteStatus(handle.writeMode, size, if handle.writeMode then Min(size, old(handle.room)) else 0, osError)
      ensures r.Success? ==> handle.contents == old(handle.contents) + Convert(enc, data[..])
      ensures r.Success? ==> handle.room == old(handle.room) - size
      ensures !handle.writeMode ==> unchanged(handle)
    {
      r := handle.WriteData(data, size, enc, osError);
    }

    /** Allocates the array if there is none, then reads all `size` slots. */
    method ReadData<E>(handle: IoHandle<E>, dec: E -> T) returns (r: Outcome)
      requires Valid() && handle.Valid()
      modifies this`data, data, handle
      ensures Valid() && Allocated() && handle.Valid()
      ensures handle.contents == old(handle.contents) && handle.room == old(handle.room)
      ensures old(data) != null ==> data == old(data)
      ensures old(data) == null ==> fresh(data)
      ensures r == ReadStatus(handle.writeMode, size,
                              if handle.writeMode then 0 else Min(size, |old(handle.contents)| - old(handle.cursor)))
      ensures r.Success? ==>
        var c := old(handle.cursor);
        && handle.cursor == c + size
        && data[..] == Convert(dec, handle.contents[c..c + size])
      ensures handle.writeMode ==> unchanged(handle)
      ensures handle.writeMode && old(data) != null ==> data[..] == old(data[..])
    {
      if data == null {
        AllocateData();
      }
      r := handle.ReadData(data, size, dec);
    }
  }

  // ---------------------------------------------------------------------------
  // Chunk2
  // ---------------------------------------------------------------------------

  /** Chunk with two data arrays. */
  class Chunk2<A(0), B(0)> {
    var size: nat
    var usedSize: nat
    var data1: array?<A>
    var data2: array?<B>

    ghost predicate Valid()
      reads this
    {
      && usedSize <= size
      && (data1 == null <==> data2 == null)
      && (data1 != null ==> data1.Length == size && data2.Length == size)
      && (data1 != null ==> data1 as object != data2 as object)
    }

    predicate Allocated()
      reads this
    {
      data1 != null
    }

    /** The records held: slot i of both arrays, for every used slot. */
    ghost function Records(): seq<(A, B)>
      reads this, data1, data2
      requires Valid() && Allocated()
    {
      Zip2(data1[..usedSize], data2[..usedSize])
    }

    constructor (size: nat)
      ensures Valid() && Allocated()
      ensures this.size == size && usedSize == 0
      ensures fresh(data1) && fresh(data2)
    {
      this.size := size;
      usedSize := 0;
      new;
      AllocateData();
    }

    function GetSize(): (r: nat)
      reads this
      requires Valid()
      ensures Allocated() ==> r == data1.Length && r == data2.Length
      ensures usedSize <= r
    {
      size
    }

    function GetUsedSize(): (r: nat)
      reads this, data1, data2
      requires Valid()
      ensures r <= size
      ensures Allocated() ==> r == |Records()|
    {
      usedSize
    }

    function GetUnusedSize(): (r: nat)
      reads this
      requires Valid()
      ensures r + usedSize == size
      ensures r == 0 <==> usedSize == size
    {
      size - usedSize
    }

    /** Marks the chunk empty; the arrays keep their contents. */
    method Reset()
      requires Valid()
      modifies this`usedSize
      ensures Valid() && usedSize == 0
      ensures Allocated() ==> Records() == []
    {
      usedSize := 0;
    }

    /** Sets the number of used slots; the arrays are not touched. */
    method SetUsedSize(usage: nat)
      requires Valid()
      requires usage <= size
      modifies this`usedSize
      ensures Valid() && usedSize == usage
      ensures Allocated() ==> Records() == Zip2(data1[..usage], data2[..usage])
    {
      usedSize := usage;
    }

    /** Hook for swapping the data out; does nothing. */
    method Store()
      requires Valid()
      ensures Valid()
    {
    }

    /** Hook for swapping the data back in; does nothing. */
    method Load()
      requires Valid()
      ensures Valid()
    {
    }

    /** Allocates fresh arrays of `size` slots (their contents are unspecified). */
    method AllocateData()
      requires usedSize <= size
      modifies this`data1, this`data2
      ensures Valid() && Allocated()
      ensures fresh(data1) && fresh(data2)
    {
      data1 := new A[size];
      data2 := new B[size];
    }

    /** Releases both arrays; on a chunk without them it changes nothing. */
    method DeleteData()
      requires Valid()
      modifies this`data1, this`data2
      ensures Valid() && !Allocated() && data2 == null
      ensures old(data1) == null ==> unchanged(this)
    {
      if data1 != null {
        data1 := null;
      }
      if data2 != null {
        data2 := null;
      }
    }

    /** Rebuilds the chunk empty at capacity `newSize`; nothing is carried over. */
    method Resize(newSize: nat)
      requires Valid()
      modifies this
      ensures Valid() && Allocated()
      ensures size == newSize && usedSize == 0
      ensures fresh(data1) && fresh(data2)
    {
      DeleteData();
      size := newSize;
      usedSize := 0;
      AllocateData();
    }

    /** Appends one record: value i goes to array i at slot `usedSize`. */
    method SetDataAndMove(value1: A, value2: B)
      requires Valid() && Allocated()
      requires GetUnusedSize() != 0
      modifies this`usedSize, data1, data2
      ensures Valid()
      ensures usedSize == old(usedSize) + 1
      ensures data1[..] == old(data1[..])[old(usedSize) := value1]
      ensures data2[..] == old(data2[..])[old(usedSize) := value2]
      ensures Records() == old(Records()) + [(value1, value2)]
    {
      data1[usedSize] := value1;
      data2[usedSize] := value2;
      usedSize := usedSize + 1;
    }

    /** The positions of slot `index` in both arrays; `index == size` is the
        one-past-end position. */
    method DataPointer(index: nat) returns (pointer1: Pointer<A>, pointer2: Pointer<B>)
      requires Valid() && Allocated()
      requires index <= size
      ensures pointer1.base == data1 && pointer1.offset == index
      ensures pointer2.base == data2 && pointer2.offset == index
      ensures pointer1.Dereferenceable() <==> index < size
      ensures pointer2.Dereferenceable() <==> index < size
    {
      pointer1 := Pointer(data1, index);
      pointer2 := Pointer(data2, index);
    }

    /** Writes all `size` slots of array 1, then of array 2, used or not. */
    method WriteData<E>(handle: IoHandle<E>, enc1: A -> E, enc2: B -> E, osError: string) returns (r: Outcome)
      requires Valid() && Allocated() && handle.Valid()
      modifies handle
      ensures handle.Valid()
      ensures handle.cursor == old(handle.cursor)
      ensures r.Success? <==> handle.writeMode && 2 * size <= old(handle.room)
      ensures r.Success? ==> handle.room == old(handle.room) - 2 * size
      ensures r.Success? ==> handle.contents == old(handle.contents) + Image2(enc1, enc2, data1[..], data2[..])
      ensures r.Failure? ==> r.exception == WriteFailure(handle.writeMode, osError)
      ensures !handle.writeMode ==> unchanged(handle)
    {
      r := handle.WriteData(data1, size, enc1, osError);
      if r.Failure? {
        return;
      }
      r := handle.WriteData(data2, size, enc2, osError);
    }

    /** Allocates the arrays if there are none, then reads all `size` slots of
        every array, array after array. */
    method ReadData<E>(handle: IoHandle<E>, dec1: E -> A, dec2: E -> B) returns (r: Outcome)
      requires Valid() && handle.Valid()
      modifies this`data1, this`data2, data1, data2, handle
      ensures Valid() && Allocated() && handle.Valid()
      ensures handle.contents == old(handle.contents) && handle.room == old(handle.room)
      ensures old(data1) != null ==> data1 == old(data1) && data2 == old(data2)
      ensures old(data1) == null ==> fresh(data1) && fresh(data2)
      ensures r.Success? <==> !handle.writeMode && old(handle.cursor) + 2 * size <= |handle.contents|
      ensures r.Success? ==>
        var c := old(handle.cursor);
        && handle.cursor == c + 2 * size
        && data1[..] == Convert(dec1, handle.contents[c..c + size])
        && data2[..] == Convert(dec2, handle.contents[c + size..c + 2 * size])
      ensures r.Failure? ==> r.exception == ReadFailure(handle.writeMode)
      ensures handle.writeMode ==> unchanged(handle)
      ensures handle.writeMode && old(data1) != null ==>
        data1[..] == old(data1[..]) && data2[..] == old(data2[..])
    {
      if data1 == null {
        AllocateData();
      }
      r := ReadArrays(handle, dec1, dec2);
    }

    /** The reads of ReadData, on allocated arrays. */
    method ReadArrays<E>(handle: IoHandle<E>, dec1: E -> A, dec2: E -> B) returns (r: Outcome)
      requires Valid() && Allocated() && handle.Valid()
      modifies data1, data2, handle
      ensures handle.Valid()
      ensures handle.contents == old(handle.contents) && handle.room == old(handle.room)
      ensures r.Success? <==> !handle.writeMode && old(handle.cursor) + 2 * size <= |handle.contents|
      ensures r.Success? ==>
        var c := old(handle.cursor);
        && handle.cursor == c + 2 * size
        && data1[..] == Convert(dec1, handle.contents[c..c + size])
        && data2[..] == Convert(dec2, handle.contents[c + size..c + 2 * size])
      ensures r.Failure? ==> r.exception == ReadFailure(handle.writeMode)
      ensures handle.writeMode ==> unchanged(handle) && unchanged(data1) && unchanged(data2)
    {
      r := handle.ReadData(data1, size, dec1);
      if r.Failure? {
        return;
      }
      r := handle.ReadData(data2, size, dec2);
    }
  }

  // ---------------------------------------------------------------------------
  // Chunk3
  // ---------------------------------------------------------------------------

  /** Chunk with three data arrays. */
  class Chunk3<A(0), B(0), C(0)> {
    var size: nat
    var usedSize: nat
    var data1: array?<A>
    var data2: array?<B>
    var data3: array?<C>

    ghost predicate Valid()
      reads this
    {
      && usedSize <= size
      && (data1 == null <==> data2 == null)
      && (data1 == null <==> data3 == null)
      && (data1 != null ==> data1.Length == size && data2.Length == size && data3.Length == size)
      && (data1 != null ==>
            data1 as object != data2 as object
            && data1 as object != data3 as object
            && data2 as object != data3 as object)
    }

    predicate Allocated()
      reads this
    {
      data1 != null
    }

    /** The records held: slot i of every array, for every used slot. */
    ghost function Records(): seq<(A, B, C)>
      reads this, data1, data2, data3
      requires Valid() && Allocated()
    {
      Zip3(data1[..usedSize], data2[..usedSize], data3[..usedSize])
    }

    constructor (size: nat)
      ensures Valid() && Allocated()
      ensures this.size == size && usedSize == 0
      ensures fresh(data1) && fresh(data2) && fresh(data3)
    {
      this.size := size;
      usedSize := 0;
      new;
      AllocateData();
    }

    function GetSize(): (r: nat)
      reads this
      requires Valid()
      ensures Allocated() ==> r == data1.Length && r == data2.Length && r == data3.Length
      ensures usedSize <= r
    {
      size
    }

    function GetUsedSize(): (r: nat)
      reads this, data1, data2, data3
      requires Valid()
      ensures r <= size
      ensures Allocated() ==> r == |Records()|
    {
      usedSize
    }

    function GetUnusedSize(): (r: nat)
      reads this
      requires Valid()
      ensures r + usedSize == size
      ensures r == 0 <==> usedSize == size
    {
      size - usedSize
    }

    /** Marks the chunk empty; the arrays keep their contents. */
    method Reset()
      requires Valid()
      modifies this`usedSize
      ensures Valid() && usedSize == 0
      ensures Allocated() ==> Records() == []
    {
      usedSize := 0;
    }

    /** Sets the number of used slots; the arrays are not touched. */
    method SetUsedSize(usage: nat)
      requires Valid()
      requires usage <= size
      modifies this`usedSize
      ensures Valid() && usedSize == usage
      ensures Allocated() ==> Records() == Zip3(data1[..usage], data2[..usage], data3[..usage])
    {
      usedSize := usage;
    }

    /** Hook for swapping the data out; does nothing. */
    method Store()
      requires Valid()
      ensures Valid()
    {
    }

    /** Hook for swapping the data back in; does nothing. */
    method Load()
      requires Valid()
      ensures Valid()
    {
    }

    /** Allocates fresh arrays of `size` slots (their contents are unspecified). */
    method AllocateData()
      requires usedSize <= size
      modifies this`data1, this`data2, this`data3
      ensures Valid() && Allocated()
      ensures fresh(data1) && fresh(data2) && fresh(data3)
    {
      data1 := new A[size];
      data2 := new B[size];
      data3 := new C[size];
    }

    /** Releases all arrays; on a chunk without them it changes nothing. */
    method DeleteData()
      requires Valid()
      modifies this`data1, this`data2, this`data3
      ensures Valid() && !Allocated() && data2 == null && data3 == null
      ensures old(data1) == null ==> unchanged(this)
    {
      if data1 != null {
        data1 := null;
      }
      if data2 != null {
        data2 := null;
      }
      if data3 != null {
        data3 := null;
      }
    }

    /** Rebuilds the chunk empty at capacity `newSize`; nothing is carried over. */
    method Resize(newSize: nat)
      requires Valid()
      modifies this
      ensures Valid() && Allocated()
      ensures size == newSize && usedSize == 0
      ensures fresh(data1) && fresh(data2) && fresh(data3)
    {
      DeleteData();
      size := newSize;
      usedSize := 0;
      AllocateData();
    }

    /** Appends one record: value i goes to array i at slot `usedSize`. */
    method SetDataAndMove(value1: A, value2: B, value3: C)
      requires Valid() && Allocated()
      requires GetUnusedSize() != 0
      modifies this`usedSize, data1, data2, data3
      ensures Valid()
      ensures usedSize == old(usedSize) + 1
      ensures data1[..] == old(data1[..])[old(usedSize) := value1]
      ensures data2[..] == old(data2[..])[old(usedSize) := value2]
      ensures data3[..] == old(data3[..])[old(usedSize) := value3]
      ensures Records() == old(Records()) + [(value1, value2, value3)]
    {
      data1[usedSize] := value1;
      data2[usedSize] := value2;
      data3[usedSize] := value3;
      usedSize := usedSize + 1;
    }

    /** The positions of slot `index` in every array; `index == size` is the
        one-past-end position. */
    method DataPointer(index: nat) returns (pointer1: Pointer<A>, pointer2: Pointer<B>, pointer3: Pointer<C>)
      requires Valid() && Allocated()
      requires index <= size
      ensures pointer1.base == data1 && pointer1.offset == index
      ensures pointer2.base == data2 && pointer2.offset == index
      ensures pointer3.base == data3 && pointer3.offset == index
      ensures pointer1.Dereferenceable() <==> index < size
      ensures pointer2.Dereferenceable() <==> index < size
      ensures pointer3.Dereferenceable() <==> index < size
    {
      pointer1 := Pointer(data1, index);
      pointer2 := Pointer(data2, index);
      pointer3 := Pointer(data3, index);
    }

    /** Writes all `size` slots of every array, array after array, used or not. */
    method WriteData<E>(handle: IoHandle<E>, enc1: A -> E, enc2: B -> E, enc3: C -> E, osError: string) returns (r: Outcome)
      requires Valid() && Allocated() && handle.Valid()
      modifies handle
      ensures handle.Valid()
      ensures handle.cursor == old(handle.cursor)
      ensures r.Success? <==> handle.writeMode && 3 * size <= old(handle.room)
      ensures r.Success? ==> handle.room == old(handle.room) - 3 * size
      ensures r.Success? ==> handle.contents == old(handle.contents) + Image3(enc1, enc2, enc3, data1[..], data2[..], data3[..])
      ensures r.Failure? ==> r.exception == WriteFailure(handle.writeMode, osError)
      ensures !handle.writeMode ==> unchanged(handle)
    {
      r := handle.WriteData(data1, size, enc1, osError);
      if r.Failure? {
        return;
      }
      r := handle.WriteData(data2, size, enc2, osError);
      if r.Failure? {
        return;
      }
      r := handle.WriteData(data3, size, enc3, osError);
    }

    /** Allocates the arrays if there are none, then reads all `size` slots of
        every array, array after array. */
    method ReadData<E>(handle: IoHandle<E>, dec1: E -> A, dec2: E -> B, dec3: E -> C) returns (r: Outcome)
      requires Valid() && handle.Valid()
      modifies this`data1, this`data2, this`data3, data1, data2, data3, handle
      ensures Valid() && Allocated() && handle.Valid()
      ensures handle.contents == old(handle.contents) && handle.room == old(handle.room)
      ensures old(data1) != null ==> data1 == old(data1) && data2 == old(data2) && data3 == old(data3)
      ensures old(data1) == null ==> fresh(data1) && fresh(data2) && fresh(data3)
      ensures r.Success? <==> !handle.writeMode && old(handle.cursor) + 3 * size <= |handle.contents|
      ensures r.Success? ==>
        var c := old(handle.cursor);
        && handle.cursor == c + 3 * size
        && data1[..] == Convert(dec1, handle.contents[c..c + size])
        && data2[..] == Convert(dec2, handle.contents[c + size..c + 2 * size])
        && data3[..] == Convert(dec3, handle.contents[c + 2 * size..c + 3 * size])
      ensures r.Failure? ==> r.exception == ReadFailure(handle.writeMode)
      ensures handle.writeMode ==> unchanged(handle)
      ensures handle.writeMode && old(data1) != null ==>
        data1[..] == old(data1[..]) && data2[..] == old(data2[..]) && data3[..] == old(data3[..])
    {
      if data1 == null {
        AllocateData();
      }
      r := ReadArrays(handle, dec1, dec2, dec3);
    }

    /** The reads of ReadData, on allocated arrays. */
    method ReadArrays<E>(handle: IoHandle<E>, dec1: E -> A, dec2: E -> B, dec3: E -> C) returns (r: Outcome)
      requires Valid() && Allocated() && handle.Valid()
      modifies data1, data2, data3, handle
      ensures handle.Valid()
      ensures handle.contents == old(handle.contents) && handle.room == old(handle.room)
      ensures r.Success? <==> !handle.writeMode && old(handle.cursor) + 3 * size <= |handle.contents|
      ensures r.Success? ==>
        var c := old(handle.cursor);
        && handle.cursor == c + 3 * size
        && data1[..] == Convert(dec1, handle.contents[c..c + size])
        && data2[..] == Convert(dec2, handle.contents[c + size..c + 2 * size])
        && data3[..] == Convert(dec3, handle.contents[c + 2 * size..c + 3 * size])
      ensures r.Failure? ==> r.exception == ReadFailure(handle.writeMode)
      ensures handle.writeMode ==> unchanged(handle) && unchanged(data1) && unchanged(data2) && unchanged(data3)
    {
      r := handle.ReadData(data1, size, dec1);
      if r.Failure? {
        return;
      }
      r := handle.ReadData(data2, size, dec2);
      if r.Failure? {
        return;
      }
      r := handle.ReadData(data3, size, dec3);
    }
  }

  // ---------------------------------------------------------------------------
  // Chunk4
  // ---------------------------------------------------------------------------

  /** Chunk with four data arrays. */
  class Chunk4<A(0), B(0), C(0), D(0)> {
    var size: nat
    var usedSize: nat
    var data1: array?<A>
    var data2: array?<B>
    var data3: array?<C>
    var data4: array?<D>

    ghost predicate Valid()
      reads this
    {
      && usedSize <= size
      && (data1 == null <==> data2 == null)
      && (data1 == null <==> data3 == null)
      && (data1 == null <==> data4 == null)
      && (data1 != null ==> data1.Length == size && data2.Length == size && data3.Length == size && data4.Length == size)
      && (data1 != null ==>
            data1 as object != data2 as object
            && data1 as object != data3 as object
            && data1 as object != data4 as object
            && data2 as object != data3 as object
            && data2 as object != data4 as object
            && data3 as object != data4 as object)
    }

    predicate Allocated()
      reads this
    {
      data1 != null
    }

    /** The records held: slot i of every array, for every used slot. */
    ghost function Records(): seq<(A, B, C, D)>
      reads this, data1, data2, data3, data4
      requires Valid() && Allocated()
    {
      Zip4(data1[..usedSize], data2[..usedSize], data3[..usedSize], data4[..usedSize])
    }

    constructor (size: nat)
      ensures Valid() && Allocated()
      ensures this.size == size && usedSize == 0
      ensures fresh(data1) && fresh(data2) && fresh(data3) && fresh(data4)
    {
      this.size := size;
      usedSize := 0;
      new;
      AllocateData();
    }

    function GetSize(): (r: nat)
      reads this
      requires Valid()
      ensures Allocated() ==> r == data1.Length && r == data2.Length && r == data3.Length && r == data4.Length
      ensures usedSize <= r
    {
      size
    }

    function GetUsedSize(): (r: nat)
      reads this, data1, data2, data3, data4
      requires Valid()
      ensures r <= size
      ensures Allocated() ==> r == |Records()|
    {
      usedSize
    }

    function GetUnusedSize(): (r: nat)
      reads this
      requires Valid()
      ensures r + usedSize == size
      ensures r == 0 <==> usedSize == size
    {
      size - usedSize
    }

    /** Marks the chunk empty; the arrays keep their contents. */
    method Reset()
      requires Valid()
      modifies this`usedSize
      ensures Valid() && usedSize == 0
      ensures Allocated() ==> Records() == []
    {
      usedSize := 0;
    }

    /** Sets the number of used slots; the arrays are not touched. */
    method SetUsedSize(usage: nat)
      requires Valid()
      requires usage <= size
      modifies this`usedSize
      ensures Valid() && usedSize == usage
      ensures Allocated() ==> Records() == Zip4(data1[..usage], data2[..usage], data3[..usage], data4[..usage])
    {
      usedSize := usage;
    }

    /** Hook for swapping the data out; does nothing. */
    method Store()
      requires Valid()
      ensures Valid()
    {
    }

    /** Hook for swapping the data back in; does nothing. */
    method Load()
      requires Valid()
      ensures Valid()
    {
    }

    /** Allocates fresh arrays of `size` slots (their contents are unspecified). */
    method AllocateData()
      requires usedSize <= size
      modifies this`data1, this`data2, this`data3, this`data4
      ensures Valid() && Allocated()
      ensures fresh(data1) && fresh(data2) && fresh(data3) && fresh(data4)
    {
      data1 := new A[size];
      data2 := new B[size];
      data3 := new C[size];
      data4 := new D[size];
    }

    /** Releases all arrays; on a chunk without them it changes nothing. */
    method DeleteData()
      requires Valid()
      modifies this`data1, this`data2, this`data3, this`data4
      ensures Valid() && !Allocated() && data2 == null && data3 == null && data4 == null
      ensures old(data1) == null ==> unchanged(this)
    {
      if data1 != null {
        data1 := null;
      }
      if data2 != null {
        data2 := null;
      }
      if data3 != null {
        data3 := null;
      }
      if data4 != null {
        data4 := null;
      }
    }

    /** Rebuilds the chunk empty at capacity `newSize`; nothing is carried over. */
    method Resize(newSize: nat)
      requires Valid()
      modifies this
      ensures Valid() && Allocated()
      ensures size == newSize && usedSize == 0
      ensures fresh(data1) && fresh(data2) && fresh(data3) && fresh(data4)
    {
      DeleteData();
      size := newSize;
      usedSize := 0;
      AllocateData();
    }

    /** Appends one record: value i goes to array i at slot `usedSize`. */
    method SetDataAndMove(value1: A, value2: B, value3: C, value4: D)
      requires Valid() && Allocated()
      requires GetUnusedSize() != 0
      modifies this`usedSize, data1, data2, data3, data4
      ensures Valid()
      ensures usedSize == old(usedSize) + 1
      ensures data1[..] == old(data1[..])[old(usedSize) := value1]
      ensures data2[..] == old(data2[..])[old(usedSize) := value2]
      ensures data3[..] == old(data3[..])[old(usedSize) := value3]
      ensures data4[..] == old(data4[..])[old(usedSize) := value4]
      ensures Records() == old(Records()) + [(value1, value2, value3, value4)]
    {
      data1[usedSize] := value1;
      data2[usedSize] := value2;
      data3[usedSize] := value3;
      data4[usedSize] := value4;
      usedSize := usedSize + 1;
    }

    /** The positions of slot `index` in every array; `index == size` is the
        one-past-end position. */
    method DataPointer(index: nat) returns (pointer1: Pointer<A>, pointer2: Pointer<B>, pointer3: Pointer<C>, pointer4: Pointer<D>)
      requires Valid() && Allocated()
      requires index <= size
      ensures pointer1.base == data1 && pointer1.offset == index
      ensures pointer2.base == data2 && pointer2.offset == index
      ensures pointer3.base == data3 && pointer3.offset == index
      ensures pointer4.base == data4 && pointer4.offset == index
      ensures pointer1.Dereferenceable() <==> index < size
      ensures pointer2.Dereferenceable() <==> index < size
      ensures pointer3.Dereferenceable() <==> index < size
      ensures pointer4.Dereferenceable() <==> index < size
    {
      pointer1 := Pointer(data1, index);
      pointer2 := Pointer(data2, index);
      pointer3 := Pointer(data3, index);
      pointer4 := Pointer(data4, index);
    }

    /** Writes all `size` slots of every array, array after array, used or not. */
    method WriteData<E>(handle: IoHandle<E>, enc1: A -> E, enc2: B -> E, enc3: C -> E, enc4: D -> E, osError: string) returns (r: Outcome)
      requires Valid() && Allocated() && handle.Valid()
      modifies handle
      ensures handle.Valid()
      ensures handle.cursor == old(handle.cursor)
      ensures r.Success? <==> handle.writeMode && 4 * size <= old(handle.room)
      ensures r.Success? ==> handle.room == old(handle.room) - 4 * size
      ensures r.Success? ==> handle.contents == old(handle.contents) + Image4(enc1, enc2, enc3, enc4, data1[..], data2[..], data3[..], data4[..])
      ensures r.Failure? ==> r.exception == WriteFailure(handle.writeMode, osError)
      ensures !handle.writeMode ==> unchanged(handle)
    {
      r := handle.WriteData(data1, size, enc1, osError);
      if r.Failure? {
        return;
      }
      r := handle.WriteData(data2, size, enc2, osError);
      if r.Failure? {
        return;
      }
      r := handle.WriteData(data3, size, enc3, osError);
      if r.Failure? {
        return;
      }
      r := handle.WriteData(data4, size, enc4, osError);
    }

    /** Allocates the arrays if there are none, then reads all `size` slots of
        every array, array after array. */
    method ReadData<E>(handle: IoHandle<E>, dec1: E -> A, dec2: E -> B, dec3: E -> C, dec4: E -> D) returns (r: Outcome)
      requires Valid() && handle.Valid()
      modifies this`data1, this`data2, this`data3, this`data4, data1, data2, data3, data4, handle
      ensures Valid() && Allocated() && handle.Valid()
      ensures handle.contents == old(handle.contents) && handle.room == old(handle.room)
      ensures old(data1) != null ==> data1 == old(data1) && data2 == old(data2) && data3 == old(data3) && data4 == old(data4)
      ensures old(data1) == null ==> fresh(data1) && fresh(data2) && fresh(data3) && fresh(data4)
      ensures r.Success? <==> !handle.writeMode && old(handle.cursor) + 4 * size <= |handle.contents|
      ensures r.Success? ==>
        var c := old(handle.cursor);
        && handle.cursor == c + 4 * size
        && data1[..] == Convert(dec1, handle.contents[c..c + size])
        && data2[..] == Convert(dec2, handle.contents[c + size..c + 2 * size])
        && data3[..] == Convert(dec3, handle.contents[c + 2 * size..c + 3 * size])
        && data4[..] == Convert(dec4, handle.contents[c + 3 * size..c + 4 * size])
      ensures r.Failure? ==> r.exception == ReadFailure(handle.writeMode)
      ensures handle.writeMode ==> unchanged(handle)
      ensures handle.writeMode && old(data1) != null ==>
        data1[..] == old(data1[..]) && data2[..] == old(data2[..]) && data3[..] == old(data3[..]) && data4[..] == old(data4[..])
    {
      if data1 == null {
        AllocateData();
      }
      r := ReadArrays(handle, dec1, dec2, dec3, dec4);
    }

    /** The reads of ReadData, on allocated arrays. */
    method ReadArrays<E>(handle: IoHandle<E>, dec1: E -> A, dec2: E -> B, dec3: E -> C, dec4: E -> D) returns (r: Outcome)
      requires Valid() && Allocated() && handle.Valid()
      modifies data1, data2, data3, data4, handle
      ensures handle.Valid()
      ensures handle.contents == old(handle.contents) && handle.room == old(handle.room)
      ensures r.Success? <==> !handle.writeMode && old(handle.cursor) + 4 * size <= |handle.contents|
      ensures r.Success? ==>
        var c := old(handle.cursor);
        && handle.cursor == c + 4 * size
        && data1[..] == Convert(dec1, handle.contents[c..c + size])
        && data2[..] == Convert(dec2, handle.contents[c + size..c + 2 * size])
        && data3[..] == Convert(dec3, handle.contents[c + 2 * size..c + 3 * size])
        && data4[..] == Convert(dec4, handle.contents[c + 3 * size..c + 4 * size])
      ensures r.Failure? ==> r.exception == ReadFailure(handle.writeMode)
      ensures handle.writeMode ==> unchanged(handle) && unchanged(data1) && unchanged(data2) && unchanged(data3) && unchanged(data4)
    {
      r := handle.ReadData(data1, size, dec1);
      if r.Failure? {
        return;
      }
      r := handle.ReadData(data2, size, dec2);
      if r.Failure? {
        return;
      }
      r := handle.ReadData(data3, size, dec3);
      if r.Failure? {
        return;
      }
      r := handle.ReadData(data4, size, dec4);
    }
  }

  // ---------------------------------------------------------------------------
  // Several chunks in one file
  // ---------------------------------------------------------------------------

  datatype Option<T> = None | Some(value: T)

  /** The file left by writing one-array chunks in turn: their images back to
      back, with no delimiter and no size. */
  function Images1<T, E>(enc: T -> E, chunks: seq<seq<T>>): (r: seq<E>)
    ensures |r| == Sum(Sizes(chunks))
  {
    if chunks == [] then []
    else
      assert Sizes(chunks)[1..] == Sizes(chunks[1..]);
      Convert(enc, chunks[0]) + Images1(enc, chunks[1..])
  }

  /** The capacities of the chunks, which the reader must know beforehand. */
  function Sizes<T>(chunks: seq<seq<T>>): seq<nat>
  {
    seq(|chunks|, k requires 0 <= k < |chunks| => |chunks[k]|)
  }

  function Sum(sizes: seq<nat>): nat
  {
    if sizes == [] then 0 else sizes[0] + Sum(sizes[1..])
  }

  /** Reading one-array chunks of the given capacities in turn: each read takes
      the next `sizes[k]` elements of the stream; None when one comes up short. */
  function ReadBack1<T, E>(dec: E -> T, stream: seq<E>, sizes: seq<nat>): (r: Option<seq<seq<T>>>)
    ensures r.Some? ==> |r.value| == |sizes|
    ensures r.Some? ==> forall k :: 0 <= k < |sizes| ==> |r.value[k]| == sizes[k]
    ensures r.Some? <==> Sum(sizes) <= |stream|
  {
    if sizes == [] then Some([])
    else if |stream| < sizes[0] then None
    else
      match ReadBack1(dec, stream[sizes[0]..], sizes[1..])
      case None => None
      case Some(others) => Some([Convert(dec, stream[..sizes[0]])] + others)
  }

  /** Chunks written one after another into a file are read back, one after
      another, exactly as they were, whatever follows them in the file. */
  lemma {:induction false} ReadBackImages1<T(!new), E>(enc: T -> E, dec: E -> T, chunks: seq<seq<T>>, rest: seq<E>)
    requires Inverse(enc, dec)
    ensures ReadBack1(dec, Images1(enc, chunks) + rest, Sizes(chunks)) == Some(chunks)
  {
    if chunks != [] {
      var head := Convert(enc, chunks[0]);
      var tail := Images1(enc, chunks[1..]) + rest;
      var s := Images1(enc, chunks) + rest;
      assert s == head + tail;
      assert s[..|head|] == head && s[|head|..] == tail;
      assert Sizes(chunks)[0] == |head| && Sizes(chunks)[1..] == Sizes(chunks[1..]);
      ReadBackImages1(enc, dec, chunks[1..], rest);
      ConvertRoundTrip(enc, dec, chunks[0]);
      assert [chunks[0]] + chunks[1..] == chunks;
    }
  }

  /** The arrays of allocated one-array chunks, in order. */
  ghost function Arrays1<T(0)>(chunks: seq<Chunk1<T>>): seq<seq<T>>
    reads chunks, set k | 0 <= k < |chunks| :: chunks[k].data
    requires forall k :: 0 <= k < |chunks| ==> chunks[k].data != null
  {
    seq(|chunks|, k requires 0 <= k < |chunks| && chunks[k].data != null
                    reads chunks, set j | 0 <= j < |chunks| :: chunks[j].data
                    => chunks[k].data[..])
  }

  /** Reading chunks in turn: the first takes the front of the stream and the
      others read on from there. */
  lemma ReadBackFirst<T, E>(dec: E -> T, stream: seq<E>, sizes: seq<nat>)
    requires sizes != [] && sizes[0] <= |stream|
    ensures ReadBack1(dec, stream, sizes)
         == Prepend([Convert(dec, stream[..sizes[0]])], ReadBack1(dec, stream[sizes[0]..], sizes[1..]))
  {
  }

  /** `None` stays `None`; otherwise `done` goes in front. */
  function Prepend<T>(done: seq<T>, rest: Option<seq<T>>): Option<seq<T>>
  {
    match rest
    case None => None
    case Some(others) => Some(done + others)
  }

  /** Writes the chunks one after another through one handle, stopping at the
      first exception. A read handle refuses the first chunk; an empty list
      writes nothing and succeeds. */
  method WriteChunks1<T(0), E>(chunks: seq<Chunk1<T>>, handle: IoHandle<E>, enc: T -> E, osError: string)
    returns (r: Outcome)
    requires handle.Valid()
    requires forall k :: 0 <= k < |chunks| ==> chunks[k].Valid() && chunks[k].data != null
    modifies handle
    ensures handle.Valid() && handle.cursor == old(handle.cursor)
    ensures r.Success? <==> (handle.writeMode || chunks == []) && Sum(Capacities1(chunks)) <= old(handle.room)
    ensures r.Success? ==>
      && handle.contents == old(handle.contents) + Images1(enc, Arrays1(chunks))
      && handle.room == old(handle.room) - Sum(Capacities1(chunks))
    ensures r.Failure? ==> r.exception == WriteFailure(handle.writeMode, osError)
    ensures !handle.writeMode ==> unchanged(handle)
  {
    ghost var arrays := Arrays1(chunks);
    assert arrays[0..] == arrays;
    ArraysHaveCapacities1(chunks);
    r := WriteChunksFrom1(chunks, arrays, 0, handle, enc, osError);
  }

  /** The chunks from position `from` on, as WriteChunks1 writes them;
      `arrays` are their contents. */
  method WriteChunksFrom1<T(0), E>(chunks: seq<Chunk1<T>>, ghost arrays: seq<seq<T>>, from: nat,
                                   handle: IoHandle<E>, enc: T -> E, osError: string)
    returns (r: Outcome)
    requires from <= |chunks| == |arrays| && handle.Valid()
    requires forall k :: 0 <= k < |chunks| ==> chunks[k].Valid() && chunks[k].data != null && chunks[k].data[..] == arrays[k]
    modifies handle
    decreases |chunks| - from
    ensures handle.Valid() && handle.cursor == old(handle.cursor)
    ensures r.Success? <==> (handle.writeMode || from == |chunks|) && Sum(Sizes(arrays[from..])) <= old(handle.room)
    ensures r.Success? ==>
      && handle.contents == old(handle.contents) + Images1(enc, arrays[from..])
      && handle.room == old(handle.room) - Sum(Sizes(arrays[from..]))
    ensures r.Failure? ==> r.exception == WriteFailure(handle.writeMode, osError)
    ensures !handle.writeMode ==> unchanged(handle)
  {
    if from == |chunks| {
      assert arrays[from..] == [];
      return Success;
    }
    ghost var sizes := Sizes(arrays[from..]);
    assert sizes[0] == chunks[from].size && sizes[1..] == Sizes(arrays[from + 1..]);
    assert arrays[from..][1..] == arrays[from + 1..];
    ghost var before := handle.contents;
    r := chunks[from].WriteData(handle, enc, osError);
    if r.Failure? {
      return;
    }
    assert handle.contents == before + Convert(enc, arrays[from]);
    r := WriteChunksFrom1(chunks, arrays, from + 1, handle, enc, osError);
  }

  /** The capacities of the chunks, in order. */
  ghost function Capacities1<T(0)>(chunks: seq<Chunk1<T>>): (r: seq<nat>)
    reads chunks`size
    ensures |r| == |chunks|
    ensures forall k :: 0 <= k < |chunks| ==> r[k] == chunks[k].size
  {
    if chunks == [] then [] else [chunks[0].size] + Capacities1(chunks[1..])
  }

  /** What a chunk writes is as long as what it reads: for valid chunks that
      hold their arrays, the array lengths are the capacities. */
  lemma ArraysHaveCapacities1<T(0)>(chunks: seq<Chunk1<T>>)
    requires forall k :: 0 <= k < |chunks| ==> chunks[k].Valid() && chunks[k].data != null
    ensures Sizes(Arrays1(chunks)) == Capacities1(chunks)
  {
  }

  /** Reads the chunks one after another from one handle, stopping at the first
      exception; each chunk takes the next `size` elements. A write handle
      refuses the first chunk; an empty list reads nothing and succeeds. The
      result is what `ReadBack1` gives for the rest of the file. */
  method ReadChunks1<T(0), E>(chunks: seq<Chunk1<T>>, handle: IoHandle<E>, dec: E -> T) returns (r: Outcome)
    requires handle.Valid()
    requires forall k :: 0 <= k < |chunks| ==> chunks[k].Valid() && chunks[k].data != null
    requires forall i, j :: 0 <= i < j < |chunks| ==> chunks[i].data != chunks[j].data
    modifies chunks`data, set k | 0 <= k < |chunks| :: chunks[k].data, handle
    ensures handle.Valid() && handle.contents == old(handle.contents) && handle.room == old(handle.room)
    ensures forall k :: 0 <= k < |chunks| ==> chunks[k].data == old(chunks[k].data)
    ensures var back := ReadBack1(dec, old(handle.contents[handle.cursor..]), Capacities1(chunks));
      && (r.Success? <==> (!handle.writeMode || chunks == []) && back.Some?)
      && (r.Success? ==> forall k :: 0 <= k < |chunks| ==> chunks[k].data[..] == back.value[k])
    ensures r.Success? ==> handle.cursor == old(handle.cursor) + Sum(Capacities1(chunks))
    ensures r.Failure? ==> r.exception == ReadFailure(handle.writeMode)
    ensures handle.writeMode ==> unchanged(handle)
  {
    ghost var sizes := Capacities1(chunks);
    assert sizes[0..] == sizes;
    r := ReadChunksFrom1(chunks, sizes, 0, handle, dec);
  }

  /** The chunks from position `from` on, as ReadChunks1 reads them; `sizes`
      are their capacities. */
  method ReadChunksFrom1<T(0), E>(chunks: seq<Chunk1<T>>, ghost sizes: seq<nat>, from: nat, handle: IoHandle<E>, dec: E -> T)
    returns (r: Outcome)
    requires from <= |chunks| == |sizes| && handle.Valid()
    requires forall k :: 0 <= k < |chunks| ==> chunks[k].Valid() && chunks[k].data != null && chunks[k].size == sizes[k]
    requires forall i, j :: 0 <= i < j < |chunks| ==> chunks[i].data != chunks[j].data
    modifies (set k | from <= k < |chunks| :: chunks[k])`data, set k | from <= k < |chunks| :: chunks[k].data, handle
    decreases |chunks| - from
    ensures handle.Valid() && handle.contents == old(handle.contents) && handle.room == old(handle.room)
    ensures forall k :: from <= k < |chunks| ==> chunks[k].data == old(chunks[k].data)
    ensures var back := ReadBack1(dec, old(handle.contents[handle.cursor..]), sizes[from..]);
      && (r.Success? <==> (!handle.writeMode || from == |chunks|) && back.Some?)
      && (r.Success? ==> forall k :: from <= k < |chunks| ==> chunks[k].data[..] == back.value[k - from])
    ensures r.Success? ==> handle.cursor == old(handle.cursor) + Sum(sizes[from..])
    ensures r.Failure? ==> r.exception == ReadFailure(handle.writeMode)
    ensures handle.writeMode ==> unchanged(handle)
  {
    if from == |chunks| {
      return Success;
    }
    ghost var stream := handle.contents[handle.cursor..];
    ghost var cursor := handle.cursor;
    r := chunks[from].ReadData(handle, dec);
    if r.Failure? {
      return;
    }
    ghost var first := chunks[from].data[..];
    assert first == Convert(dec, stream[..sizes[from]]);
    assert sizes[from..][1..] == sizes[from + 1..];
    assert handle.contents[handle.cursor..] == stream[sizes[from]..];
    ghost var rest := ReadBack1(dec, stream[sizes[from]..], sizes[from + 1..]);
    ReadBackFirst(dec, stream, sizes[from..]);
    r := ReadChunksFrom1(chunks, sizes, from + 1, handle, dec);
    if r.Success? {
      forall k | from <= k < |chunks|
        ensures chunks[k].data[..] == ([first] + rest.value)[k - from]
      {
        if k == from {
          assert chunks[from].data[..] == first;
        }
      }
    }
  }

  // ---------------------------------------------------------------------------
  // Saving and restoring a chunk
  // ---------------------------------------------------------------------------

  /** Saves `source` to `file` through a new write handle, opens what was
      written for reading and restores it into a new chunk of the same
      capacity, whose used size is then set to the source's (the file does
      not record it). Every slot of both arrays comes back, used or not. The
      write handle is taken as destroyed, and the file closed, before the file
      is opened again. */
  method SaveAndRestore2<A(0,!new), B(0,!new), E>(source: Chunk2<A, B>,
                                                  enc1: A -> E, dec1: E -> A, enc2: B -> E, dec2: E -> B,
                                                  file: string, room: nat, osError: string)
    returns (restored: Chunk2<A, B>)
    requires source.Valid() && source.Allocated()
    requires Inverse(enc1, dec1) && Inverse(enc2, dec2)
    requires 2 * source.size <= room
    ensures fresh(restored) && restored.Valid() && restored.Allocated()
    ensures restored.size == source.size && restored.usedSize == source.usedSize
    ensures restored.data1[..] == source.data1[..] && restored.data2[..] == source.data2[..]
    ensures restored.Records() == source.Records()
  {
    var result := IoHandle.Open(file, true, true, [], room, osError);
    var writer := result.handle;
    var r := source.WriteData(writer, enc1, enc2, osError);
    assert r.Success?;
    var image := Image2(enc1, enc2, source.data1[..], source.data2[..]);
    assert writer.contents == [] + image + [] == image;
    result := IoHandle.Open(file, false, true, writer.contents, 0, osError);
    var reader := result.handle;
    assert reader.contents == [] + image + [];
    restored := new Chunk2(source.size);
    r := restored.ReadData(reader, dec1, dec2);
    Image2RoundTrip(enc1, dec1, enc2, dec2, [], source.data1[..], source.data2[..], []);
    restored.SetUsedSize(source.usedSize);
  }
}
