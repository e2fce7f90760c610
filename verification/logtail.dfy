/** One invocation of read_logfile (src/logtail2.c): load the saved byte
    offset, restart from zero when the log is now shorter than that offset,
    copy the rest of the log to standard output verbatim, and save the new
    offset unless in test mode or nothing was read.

    The filesystem is an input: what stat() and fopen() report for the
    offset file and the log file, the log's bytes, and whether the offset
    file can be opened for writing. The log is assumed not to change between
    its stat() and the end of the copy. */
module Logtail {
  import opened Wrappers
  import opened ExitStatus
  import opened OffsetCodec

  /** What the offset-file path holds. */
  datatype OffsetFile =
    | NoOffsetFile                                    // stat() fails with ENOENT
    | OffsetStatError                                 // stat() fails for another reason
    | OffsetFile(readable: bool, contents: seq<bv8>)  // readable: fopen(path, "r") succeeds

  /** What the log-file path holds. */
  datatype LogFile =
    | LogStatError                                    // stat() fails
    | LogFile(readable: bool, seekFails: bool, data: seq<bv8>)
      // readable: fopen(path, "r") succeeds; seekFails: the system refuses
      // fseek() to a non-negative position (a negative one always fails)

  /** Everything one run looks at. */
  datatype Disk = Disk(offset: OffsetFile, log: LogFile, offsetWritable: bool)

  /** What one run produces: the bytes handed to putchar (taken to reach standard output), the
      position saved to the offset file (None: the file is not touched), and
      the exit status. */
  datatype Run = Run(output: seq<bv8>, saved: Option<nat>, exit: nat)

  /** The log cannot be larger than `off_t` can describe. */
  predicate WellFormed(d: Disk) {
    d.log.LogFile? ==> |d.log.data| <= LongMax
  }

  /** The offset file as write_offset leaves it after saving position n. */
  function Stored(n: nat): OffsetFile {
    OffsetFile(true, EncodeOffset(n))
  }

  /** read_offset: the saved position. A missing offset file is not an error:
      the position keeps the zero it was initialised with in main(). */
  function ReadOffset(f: OffsetFile): (r: Result<int, Failure>)
    ensures f.NoOffsetFile? ==> r == Ok(0)
    ensures f.OffsetStatError? ==> r == Err(FailedStatLogfile)
    ensures f.OffsetFile? && !f.readable ==> r == Err(FailedStatLogfile)
    ensures f.OffsetFile? && f.readable ==>
              (r.Ok? <==> ParseOffset(f.contents).Some?)
    ensures f.OffsetFile? && r.Ok? ==> r.value == ParseOffset(f.contents).value
    ensures r.Err? ==> r.error == FailedStatLogfile
  {
    match f
    case NoOffsetFile => Ok(0)
    case OffsetStatError => Err(FailedStatLogfile)
    case OffsetFile(readable, contents) =>
      if !readable then Err(FailedStatLogfile)
      else match ParseOffset(contents)
        case None => Err(FailedStatLogfile)
        case Some(v) => Ok(v)
  }

  /** write_offset: the offset file after saving n, or the failure when the
      file cannot be opened for writing. */
  function WriteOffset(n: nat, writable: bool): (r: Result<OffsetFile, Failure>)
    ensures r.Ok? <==> writable
    ensures r.Ok? ==> r.value == Stored(n)
    ensures r.Err? ==> r.error == FailedWriteOffset
  {
    if writable then Ok(Stored(n)) else Err(FailedWriteOffset)
  }

  /** The position reading starts from: the saved one, or zero when the log
      is shorter than that (the log has wrapped). */
  function StartPosition(saved: int, size: nat): (r: int)
    ensures r <= size
    ensures r == 0 || r == saved
    ensures saved > size ==> r == 0
    ensures saved <= size ==> r == saved
  {
    if saved > size then 0 else saved
  }

  /** The getc/putchar loop of read_logfile and the ftell after it: every
      byte from the start position to end of file, in order, after which the
      stream stands at the end of the file. */
  method CopyToEof(data: seq<bv8>, start: nat) returns (output: seq<bv8>, pos: nat)
    requires start <= |data|
    ensures output == data[start..]
    ensures pos == start + |output|
    ensures pos == |data|
  {
    output := [];
    pos := start;
    while pos < |data|
      invariant start <= pos <= |data|
      invariant output == data[start..pos]
    {
      output := output + [data[pos]];
      pos := pos + 1;
    }
  }

  /** read_logfile, for test mode `test` and the filesystem `d`. */
  function ReadLogfile(test: bool, d: Disk): (r: Run)
    // only four statuses are possible
    ensures r.exit in {Success, Code(FailedStatLogfile), Code(FailedReadLogfile), Code(FailedWriteOffset)}
    // failures of the offset file or of the log's stat come first
    ensures r.exit == Code(FailedStatLogfile) <==>
              ReadOffset(d.offset).Err? || (ReadOffset(d.offset).Ok? && d.log.LogStatError?)
    ensures d.log.LogFile? && !d.log.readable && ReadOffset(d.offset).Ok? ==>
              r.exit == Code(FailedReadLogfile)
    // a failure before the copy emits nothing and saves nothing
    ensures r.exit == Code(FailedStatLogfile) || r.exit == Code(FailedReadLogfile) ==>
              r.output == [] && r.saved == None
    // otherwise the output is a tail of the log, byte for byte
    ensures r.exit == Success || r.exit == Code(FailedWriteOffset) ==>
              d.log.LogFile? && |r.output| <= |d.log.data| &&
              r.output == d.log.data[|d.log.data| - |r.output|..]
    // a position is saved exactly when something was read, outside test mode, and the write worked
    ensures r.saved.Some? <==> !test && r.exit == Success && |r.output| > 0
    ensures r.saved.Some? ==> d.log.LogFile? && r.saved.value == |d.log.data|
    // and it lies strictly past the position the copy started from
    ensures r.saved.Some? ==>
              ReadOffset(d.offset).Ok? &&
              r.saved.value > StartPosition(ReadOffset(d.offset).value, |d.log.data|)
    // once the copy is done, status 73 means a save was due and the offset
    // file could not be opened for writing; the output has been emitted
    ensures r.exit == Success || r.exit == Code(FailedWriteOffset) ==>
              (r.exit == Code(FailedWriteOffset) <==> !test && |r.output| > 0 && !d.offsetWritable)
    // test mode never writes the offset file
    ensures test ==> r.saved == None && r.exit != Code(FailedWriteOffset)
  {
    match OpenLog(d)
    case Err(e) => Run([], None, Code(e))
    case Ok(start) => CopyAndSave(test, d.log.data, start, d.offsetWritable)
  }

  /** The part of read_logfile before the copy: load the saved position,
      stat the log, reset a position past its end, open it and seek. The
      result is the position the copy starts from, or the failure; the
      offset file and the log's stat fail with 65 before the open and seek
      fail with 66. */
  function OpenLog(d: Disk): (r: Result<nat, Failure>)
    ensures r.Err? ==> r.error == FailedStatLogfile || r.error == FailedReadLogfile
    ensures r.Err? && r.error == FailedStatLogfile <==>
              ReadOffset(d.offset).Err? || (ReadOffset(d.offset).Ok? && d.log.LogStatError?)
    ensures r.Err? && r.error == FailedReadLogfile <==>
              && ReadOffset(d.offset).Ok? && d.log.LogFile?
              && var start := StartPosition(ReadOffset(d.offset).value, |d.log.data|);
                 !d.log.readable || (start != 0 && (start < 0 || d.log.seekFails))
    ensures r.Ok? ==>
              && d.log.LogFile? && d.log.readable && ReadOffset(d.offset).Ok?
              && r.value == StartPosition(ReadOffset(d.offset).value, |d.log.data|)
              && r.value <= |d.log.data|
  {
    match ReadOffset(d.offset)
    case Err(e) => Err(e)
    case Ok(saved) =>
      match d.log
      case LogStatError => Err(FailedStatLogfile)
      case LogFile(readable, seekFails, data) =>
        var start := StartPosition(saved, |data|);
        if !readable then Err(FailedReadLogfile)
        else if start != 0 && (start < 0 || seekFails) then Err(FailedReadLogfile)
        else Ok(start)
  }

  /** The end of read_logfile once the log is open at `start`: copy to end
      of file, then, outside test mode, save the position reached when it
      lies past the start. A failed save comes after the output. */
  function CopyAndSave(test: bool, data: seq<bv8>, start: nat, writable: bool): (r: Run)
    requires start <= |data|
    ensures r.output == data[start..]
    ensures r.exit in {Success, Code(FailedWriteOffset)}
    ensures r.saved.Some? <==> !test && r.exit == Success && |r.output| > 0
    ensures r.saved.Some? ==> r.saved.value == |data|
    ensures r.exit == Code(FailedWriteOffset) <==> !test && |r.output| > 0 && !writable
  {
    var output := data[start..];
    var cpos := |data|;
    if test || cpos <= start then Run(output, None, Success)
    else match WriteOffset(cpos, writable)
      case Err(e) => Run(output, None, Code(e))
      case Ok(_) => Run(output, Some(cpos), Success)
  }

  /** The filesystem after a run: only the offset file may change, and only
      when a position was saved. */
  function After(d: Disk, r: Run): (d': Disk)
    ensures d'.log == d.log && d'.offsetWritable == d.offsetWritable
    ensures r.saved.None? ==> d' == d
    ensures r.saved.Some? ==> d'.offset == Stored(r.saved.value)
  {
    match r.saved
    case None => d
    case Some(n) => d.(offset := Stored(n))
  }

  // ---------------------------------------------------------------------------
  // Properties of one run
  // ---------------------------------------------------------------------------

  /** write_offset then read_offset gives back the saved position. */
  lemma SaveThenLoad(n: nat)
    requires n <= LongMax
    ensures WriteOffset(n, true) == Ok(Stored(n))
    ensures ReadOffset(Stored(n)) == Ok(n)
  {
    EncodeThenParse(n, []);
    assert EncodeOffset(n) + [] == EncodeOffset(n);
  }

  /** Where the copy starts, given the loaded position `saved`: from `saved`
      when it lies within the log, from zero when the log is shorter (it
      has wrapped), and never when `saved` is negative, since fseek refuses
      it. In every successful case the new position is the start plus the
      bytes emitted, which is the size of the log. */
  lemma StartOfCopy(test: bool, d: Disk, saved: int)
    requires ReadOffset(d.offset) == Ok(saved)
    requires d.log.LogFile? && d.log.readable
    ensures var r := ReadLogfile(test, d);
            var data := d.log.data;
            && (saved > |data| ==> r.output == data && r.exit != Code(FailedReadLogfile))
            && (0 <= saved <= |data| && (saved == 0 || !d.log.seekFails) ==>
                  r.output == data[saved..] && r.exit != Code(FailedReadLogfile) &&
                  saved + |r.output| == |data|)
            && (0 < saved <= |data| && d.log.seekFails ==> r.exit == Code(FailedReadLogfile))
            && (saved < 0 ==> r.exit == Code(FailedReadLogfile) && r.output == [])
  {
  }

  /** With no offset file the whole log is emitted. */
  lemma MissingOffsetFileReadsAll(test: bool, d: Disk)
    requires d.offset == NoOffsetFile
    requires d.log.LogFile? && d.log.readable
    ensures ReadLogfile(test, d).output == d.log.data
    ensures ReadLogfile(test, d).exit in {Success, Code(FailedWriteOffset)}
  {
    StartOfCopy(test, d, 0);
  }

  // ---------------------------------------------------------------------------
  // Properties of successive runs
  // ---------------------------------------------------------------------------

  /** Test mode leaves the filesystem as it found it, so running it again
      from the same state emits the same bytes with the same status. */
  lemma TestRunsRepeat(d: Disk)
    ensures After(d, ReadLogfile(true, d)) == d
    ensures ReadLogfile(true, After(d, ReadLogfile(true, d))) == ReadLogfile(true, d)
  {
  }

  /** A second run over an unchanged log emits nothing and writes nothing. */
  lemma RerunEmitsNothing(d: Disk, r1: Run)
    requires WellFormed(d)
    requires r1 == ReadLogfile(false, d) && r1.exit == Success
    ensures ReadLogfile(false, After(d, r1)).output == []
    ensures ReadLogfile(false, After(d, r1)).saved == None
    ensures !d.log.seekFails ==> ReadLogfile(false, After(d, r1)).exit == Success
  {
    match r1.saved
    case Some(n) =>
      SaveThenLoad(n);
      var d2 := After(d, r1);
      assert ReadOffset(d2.offset) == Ok(n) && d2.log == d.log && n == |d.log.data| > 0;
      if d.log.seekFails {
        assert StartPosition(n, |d.log.data|) == n;
        assert OpenLog(d2) == Err(FailedReadLogfile);
      } else {
        CopyFromPosition(false, d2, n);
        assert d.log.data[n..] == [];
      }
    case None =>
      assert After(d, r1) == d;
  }

  /** After a run has saved the log's size, appending bytes to the log makes
      the next run emit exactly the appended bytes and save the new size. */
  lemma AppendedBytesOnly(test: bool, d: Disk, seen: seq<bv8>, more: seq<bv8>)
    requires |seen| + |more| <= LongMax
    requires d.offset == Stored(|seen|)
    requires d.log == LogFile(true, false, seen + more)
    ensures ReadLogfile(test, d).output == more
    ensures !test && |more| > 0 && d.offsetWritable ==>
              ReadLogfile(test, d).saved == Some(|seen| + |more|)
    ensures |more| == 0 ==> ReadLogfile(test, d).saved == None
  {
    SaveThenLoad(|seen|);
    CopyFrom(test, d, seen, more);
  }

  /** A run that loads the position |seen| from a log `seen + more` that
      opens and seeks emits `more`, and saves the new size exactly when
      something was read outside test mode and the write is possible. */
  lemma CopyFrom(test: bool, d: Disk, seen: seq<bv8>, more: seq<bv8>)
    requires ReadOffset(d.offset) == Ok(|seen|)
    requires d.log == LogFile(true, false, seen + more)
    ensures ReadLogfile(test, d).output == more
    ensures ReadLogfile(test, d).saved ==
              if !test && |more| > 0 && d.offsetWritable then Some(|seen| + |more|) else None
  {
    var data := seen + more;
    assert data[|seen|..] == more;
    assert |data| == |seen| + |more|;
    CopyFromPosition(test, d, |seen|);
  }

  /** A run whose loaded position `saved` lies within a log that opens, and
      that either starts at 0 or seeks, is the copy from `saved` on. */
  lemma CopyFromPosition(test: bool, d: Disk, saved: nat)
    requires ReadOffset(d.offset) == Ok(saved)
    requires d.log.LogFile? && d.log.readable && saved <= |d.log.data|
    requires saved == 0 || !d.log.seekFails
    ensures OpenLog(d) == Ok(saved)
    ensures ReadLogfile(test, d) == CopyAndSave(test, d.log.data, saved, d.offsetWritable)
  {
    assert StartPosition(saved, |d.log.data|) == saved;
  }

  /** A log that wrapped to empty leaves a stale position n behind: the
      empty read saves nothing, so when the log grows again to n bytes or
      more, its first n bytes are never emitted. */
  lemma StaleOffsetAfterEmptyLog(d: Disk, n: nat, data: seq<bv8>)
    requires 0 < n <= |data| <= LongMax
    requires d.offset == Stored(n)
    requires d.log == LogFile(true, false, [])
    ensures ReadLogfile(false, d) == Run([], None, Success)
    ensures ReadLogfile(false, After(d, ReadLogfile(false, d)).(log := LogFile(true, false, data))).output
              == data[n..]
  {
    SaveThenLoad(n);
    assert StartPosition(n, 0) == 0;
    assert OpenLog(d) == Ok(0);
    assert After(d, ReadLogfile(false, d)) == d;
    CopyFromPosition(false, d.(log := LogFile(true, false, data)), n);
  }

  /** Three runs over a growing log, starting without an offset file: the
      first emits the whole log `first` and saves its size, a rerun emits
      nothing, and after `more` is appended the third run emits exactly
      `more` and saves the new size. */
  lemma ThreeRuns(first: seq<bv8>, more: seq<bv8>)
    requires 0 < |first| && 0 < |more| && |first| + |more| <= LongMax
    ensures var d1 := Disk(NoOffsetFile, LogFile(true, false, first), true);
            var r1 := ReadLogfile(false, d1);
            var d2 := After(d1, r1);
            var r2 := ReadLogfile(false, d2);
            var d3 := After(d2, r2).(log := LogFile(true, false, first + more));
            var r3 := ReadLogfile(false, d3);
            && r1 == Run(first, Some(|first|), Success)
            && r2 == Run([], None, Success)
            && r3 == Run(more, Some(|first| + |more|), Success)
  {
    var d1 := Disk(NoOffsetFile, LogFile(true, false, first), true);
    var r1 := ReadLogfile(false, d1);
    MissingOffsetFileReadsAll(false, d1);
    var d2 := After(d1, r1);
    assert d2.offset == Stored(|first|);
    RerunEmitsNothing(d1, r1);
    var r2 := ReadLogfile(false, d2);
    var d3 := After(d2, r2).(log := LogFile(true, false, first + more));
    AppendedBytesOnly(false, d3, first, more);
  }

  /** The scenario with the log "AB", then "CD" appended: the runs emit
      "AB" (saving 2), nothing, and "CD" (saving 4). */
  lemma ThreeRunsAbCd(ab: seq<bv8>, cd: seq<bv8>)
    requires ab == [0x41, 0x42] && cd == [0x43, 0x44]
    ensures var d1 := Disk(NoOffsetFile, LogFile(true, false, ab), true);
            var r1 := ReadLogfile(false, d1);
            var d2 := After(d1, r1);
            var r2 := ReadLogfile(false, d2);
            var d3 := After(d2, r2).(log := LogFile(true, false, ab + cd));
            var r3 := ReadLogfile(false, d3);
            && r1 == Run(ab, Some(2), Success)
            && r2 == Run([], None, Success)
            && r3 == Run(cd, Some(4), Success)
  {
    ThreeRuns(ab, cd);
  }
}
