/** Binary input/output handle of CoDiPack (include/tools/io.hpp).

    A handle owns one file, opened either for writing or for reading; the
    direction is fixed when it is opened. The file is modelled as a sequence of
    stored elements of type E, with a read cursor. A transfer of an array of D
    values goes through a conversion: on writing, `enc: D -> E` gives the stored
    representation of a value (what fwrite copies); on reading, `dec: E -> D`
    reinterprets a stored element as a D (what fread produces). The file carries
    no type information, exactly like the raw bytes it stands for.

    The foreign calls are parameters: whether fopen succeeds (`canOpen`), how
    many more elements the device accepts before fwrite comes up short
    (`room`), and the text strerror gives for the current errno (`osError`).
    fread comes up short exactly when the file holds fewer elements. */
module Io {

  /** The kinds of failure; `Write` exists but the handle never raises it. */
  datatype IoError = Mode | Open | Write | Read

  datatype IoException = IoException(id: IoError, text: string)

  /** What a transfer returns: nothing, or the exception it throws. */
  datatype Outcome = Success | Failure(exception: IoException)

  const OPEN_FAILED_TEXT: string := "Could not open file: "
  const SHORT_WRITE_TEXT: string := "Wrong number of bytes written."
  const SHORT_READ_TEXT: string := "Wrong number of bytes read."
  const WRITE_MODE_TEXT: string := "Using write io handle in wrong mode."
  const READ_MODE_TEXT: string := "Using read io handle in wrong mode."
  const ERRNO_OPEN: string := " (Internal error: "
  const ERRNO_CLOSE: string := ")"

  /** The text of an exception: the given text, followed by the operating
      system's description of errno in a fixed frame when `appendErrno` is set. */
  function ExceptionText(text: string, appendErrno: bool, osError: string): string
  {
    if appendErrno then text + ERRNO_OPEN + osError + ERRNO_CLOSE else text
  }

  /** The given text always starts the message, and the message is longer than
      it exactly when the OS description was appended, which can then be read
      back from the message. */
  lemma ExceptionTextShape(text: string, appendErrno: bool, osError: string)
    ensures var m := ExceptionText(text, appendErrno, osError);
      && text <= m
      && (appendErrno <==> |m| > |text|)
      && (appendErrno ==> m[|text| + |ERRNO_OPEN|..|m| - |ERRNO_CLOSE|] == osError)
  {
    var m := ExceptionText(text, appendErrno, osError);
    if appendErrno {
      assert m == text + (ERRNO_OPEN + osError + ERRNO_CLOSE);
      assert m[|text|..] == ERRNO_OPEN + osError + ERRNO_CLOSE;
      assert m[|text| + |ERRNO_OPEN|..|m| - |ERRNO_CLOSE|] == (ERRNO_OPEN + osError + ERRNO_CLOSE)[|ERRNO_OPEN|..|ERRNO_OPEN| + |osError|];
    }
  }

  /** The constructor of the exception: it starts from the given text and
      appends the errno description piece by piece. */
  method NewIoException(id: IoError, text: string, appendErrno: bool, osError: string) returns (e: IoException)
    ensures e.id == id
    ensures e.text == ExceptionText(text, appendErrno, osError)
    ensures appendErrno || e.text == text
  {
    var t := text;
    if appendErrno {
      t := t + ERRNO_OPEN;
      t := t + osError;
      t := t + ERRNO_CLOSE;
    }
    e := IoException(id, t);
  }

  /** The exception a failed write raises: Mode with the mode text on a read
      handle, Read with the short-write text and the errno description
      otherwise. */
  function WriteFailure(writeMode: bool, osError: string): IoException
  {
    if writeMode then IoException(Read, ExceptionText(SHORT_WRITE_TEXT, true, osError))
    else IoException(Mode, ExceptionText(WRITE_MODE_TEXT, false, osError))
  }

  /** The exception a failed read raises: Mode with the mode text on a write
      handle, Read with the short-read text otherwise; neither carries the
      errno description. */
  function ReadFailure(writeMode: bool): IoException
  {
    if writeMode then IoException(Mode, ExceptionText(READ_MODE_TEXT, false, ""))
    else IoException(Read, ExceptionText(SHORT_READ_TEXT, false, ""))
  }

  /** The outcome of a write of `length` elements of which the device took
      `transferred`: a read handle refuses with Mode; a short write raises
      kind Read (not Write) with the errno description appended. */
  function WriteStatus(writeMode: bool, length: nat, transferred: nat, osError: string): (r: Outcome)
    ensures r.Success? <==> writeMode && transferred == length
    ensures r.Failure? ==> r.exception.id in {Mode, Read}
    ensures r.Failure? ==> (r.exception.id == Mode <==> !writeMode)
    ensures r.Failure? ==> r.exception == WriteFailure(writeMode, osError)
  {
    if writeMode then
      if transferred != length then Failure(IoException(Read, ExceptionText(SHORT_WRITE_TEXT, true, osError)))
      else Success
    else
      Failure(IoException(Mode, ExceptionText(WRITE_MODE_TEXT, false, osError)))
  }

  /** The outcome of a read of `length` elements of which `transferred`
      were available: a write handle refuses with Mode; a short read raises
      kind Read without the errno description. */
  function ReadStatus(writeMode: bool, length: nat, transferred: nat): (r: Outcome)
    ensures r.Success? <==> !writeMode && transferred == length
    ensures r.Failure? ==> r.exception.id in {Mode, Read}
    ensures r.Failure? ==> (r.exception.id == Mode <==> writeMode)
    ensures r.Failure? ==> r.exception == ReadFailure(writeMode)
  {
    if !writeMode then
      if transferred != length then Failure(IoException(Read, ExceptionText(SHORT_READ_TEXT, false, "")))
      else Success
    else
      Failure(IoException(Mode, ExceptionText(READ_MODE_TEXT, false, "")))
  }

  /** A short write is reported with kind Read, and no transfer outcome ever
      carries kind Write. */
  lemma WriteKindNeverRaised(writeMode: bool, length: nat, transferred: nat, osError: string)
    ensures var w := WriteStatus(writeMode, length, transferred, osError);
      && (writeMode && transferred < length ==> w.Failure? && w.exception.id == Read)
      && (w.Failure? ==> w.exception.id != Write)
    ensures var r := ReadStatus(writeMode, length, transferred);
      r.Failure? ==> r.exception.id != Write
  {
  }

  function Min(a: nat, b: nat): nat
  {
    if a <= b then a else b
  }

  /** Element-wise conversion of a block of values, in order. */
  function Convert<X, Y>(f: X -> Y, s: seq<X>): (r: seq<Y>)
  {
    seq(|s|, i requires 0 <= i < |s| => f(s[i]))
  }

  /** `dec` reads back every value that `enc` stores. */
  ghost predicate Inverse<D(!new), E>(enc: D -> E, dec: E -> D)
  {
    forall x :: dec(enc(x)) == x
  }

  /** Reading back a stored block restores it exactly. */
  lemma ConvertRoundTrip<D(!new), E>(enc: D -> E, dec: E -> D, s: seq<D>)
    requires Inverse(enc, dec)
    ensures Convert(dec, Convert(enc, s)) == s
  {
    var stored := Convert(enc, s);
    var back := Convert(dec, stored);
    forall i | 0 <= i < |s|
      ensures back[i] == s[i]
    {
      assert stored[i] == enc(s[i]);
    }
  }

  datatype OpenResult<E> = Opened(handle: IoHandle<E>) | OpenFailed(exception: IoException)

  class IoHandle<E> {
    /** Set when the handle is opened and never changed. */
    const writeMode: bool
    /** The elements the file holds. */
    var contents: seq<E>
    /** Position of the next element a read returns. */
    var cursor: nat
    /** How many more elements the device accepts before a write comes up short. */
    var room: nat

    ghost predicate Valid()
      reads this
    {
      cursor <= |contents|
    }

    /** The state fopen leaves: a file opened for writing ("wb") is truncated,
        one opened for reading ("rb") holds its `existing` elements; either way
        the cursor is at the start. `Open` adds the failure path. */
    constructor (write: bool, existing: seq<E>, room: nat)
      ensures Valid()
      ensures writeMode == write && cursor == 0 && this.room == room
      ensures contents == if write then [] else existing
    {
      writeMode := write;
      contents := if write then [] else existing;
      cursor := 0;
      this.room := room;
    }

    /** Opens `file`. Opening for writing truncates the file ("wb"); opening for
        reading starts at the first of the `existing` elements ("rb"). When fopen
        fails (`canOpen` is false) the result is an Open exception that names the
        file and carries the errno description. */
    static method Open(file: string, write: bool, canOpen: bool, existing: seq<E>, room: nat, osError: string)
      returns (r: OpenResult<E>)
      ensures r.Opened? <==> canOpen
      ensures r.Opened? ==> fresh(r.handle) && r.handle.Valid()
      ensures r.Opened? ==> r.handle.writeMode == write && r.handle.cursor == 0 && r.handle.room == room
      ensures r.Opened? ==> r.handle.contents == if write then [] else existing
      ensures r.OpenFailed? ==>
        r.exception == IoException(IoError.Open, ExceptionText(OPEN_FAILED_TEXT + file, true, osError))
    {
      if !canOpen {
        var e := NewIoException(IoError.Open, OPEN_FAILED_TEXT + file, true, osError);
        return OpenFailed(e);
      }
      var h := new IoHandle(write, existing, room);
      r := Opened(h);
    }

    /** Writes the first `length` elements of `data`. The device takes as many as
        it has room for; they are appended to the file in order. A read handle
        transfers nothing. */
    method WriteData<D>(data: array<D>, length: nat, enc: D -> E, osError: string) returns (r: Outcome)
      requires Valid()
      requires length <= data.Length
      modifies this
      ensures Valid()
      ensures r == WriteStatus(writeMode, length, if writeMode then Min(length, old(room)) else 0, osError)
      ensures !writeMode ==> unchanged(this)
      ensures writeMode ==>
        var n := Min(length, old(room));
        && contents == old(contents) + Convert(enc, data[..n])
        && room == old(room) - n
        && cursor == old(cursor)
    {
      if writeMode {
        var s := Min(length, room);
        contents := contents + Convert(enc, data[..s]);
        room := room - s;
        if s != length {
          var e := NewIoException(Read, SHORT_WRITE_TEXT, true, osError);
          return Failure(e);
        }
        r := Success;
      } else {
        var e := NewIoException(Mode, WRITE_MODE_TEXT, false, osError);
        r := Failure(e);
      }
    }

    /** Reads `length` elements into the front of `data`, or as many as the file
        still holds; the rest of `data` is left as it was. A write handle
        transfers nothing. */
    method ReadData<D>(data: array<D>, length: nat, dec: E -> D) returns (r: Outcome)
      requires Valid()
      requires length <= data.Length
      modifies this, data
      ensures Valid()
      ensures r == ReadStatus(writeMode, length, if writeMode then 0 else Min(length, |old(contents)| - old(cursor)))
      ensures writeMode ==> unchanged(this) && unchanged(data)
      ensures !writeMode ==>
        var n := Min(length, |old(contents)| - old(cursor));
        && data[..] == Convert(dec, old(contents)[old(cursor)..old(cursor) + n]) + old(data[n..])
        && cursor == old(cursor) + n
        && contents == old(contents) && room == old(room)
    {
      if !writeMode {
        var s := Min(length, |contents| - cursor);
        var block := Convert(dec, contents[cursor..cursor + s]);
        forall i | 0 <= i < s {
          data[i] := block[i];
        }
        cursor := cursor + s;
        if s != length {
          var e := NewIoException(Read, SHORT_READ_TEXT, false, "");
          return Failure(e);
        }
        r := Success;
      } else {
        var e := NewIoException(Mode, READ_MODE_TEXT, false, "");
        r := Failure(e);
      }
    }
  }
}
