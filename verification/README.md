# logtail2 in Dafny

A model of the core of logtail2, a tool that prints the part of a log file
appended since its previous run and remembers how far it got in an offset
file. Two pieces are modelled, each as pure functions over explicit inputs:

- **The incremental reader** (`src/logtail2.c`): `read_offset` loads the
  saved byte offset (a missing offset file means offset 0), `read_logfile`
  compares it with the log's size, restarts from 0 when the log has become
  shorter (it has "wrapped"), copies every byte from the start position to
  end of file to standard output, and, unless in test mode, saves the new
  position with `write_offset` when it lies strictly past the start. One run
  is `Logtail.ReadLogfile(test, disk)`, returning the output bytes, the
  position saved (if any) and the exit status; `Logtail.After` gives the
  filesystem the next run sees.
- **The offset-file path** (`src/offset.c`): `set_offset_path` picks
  `<logfile>.offset` in compatibility mode, a file named after the mangled
  log path beside `/var/cache/logtail2` when the real or effective user is
  root, and one under `~/.logtail2` otherwise. Mangling turns every `/` into
  `_`. In the root construction the separator written between the cache
  directory and the log path is itself mangled, so `/var/log/messages` maps
  to `/var/cache/logtail2__var_log_messages.offset`.

Modules: `Wrappers` (Option, Result, Outcome), `ExitStatus` (the statuses
of `src/logtail2.h`), `OffsetCodec` (the `"%lu\n"` text of the offset file,
byte by byte), `Logtail` (one run and successive runs), `OffsetPath` (path
construction).

The filesystem is an input. For the reader it is a `Disk`: what `stat()`
and `fopen()` report for the offset file and the log, the log's bytes,
whether `fseek()` fails, and whether the offset file can be opened for
writing. For the path construction it is a `System` of functions standing
for `stat()`, `mkdir()`, `getpwuid()` and `realpath()`.

The stored offset is a C `long` read through `"%lu"`. The model follows
the conversion as glibc performs it: leading white space is skipped, a `+`
or `-` sign is accepted, the digit value saturates at `ULONG_MAX`, a `-`
negates modulo 2^64, and the 64 bits are read back as a signed `long`. An
offset file holding `-1` therefore gives the position -1, which is not
larger than the log's size, so no reset happens, and the `fseek()` to it
fails with status 66.

`src/logtail2.c` stores only a byte offset and compares it with the log's
size: it records nothing that identifies the log file, so a log replaced by
a file at least as long as the saved offset is read from that offset.

## Model

| member | source | states |
|---|---|---|
| ExitStatus.Code | src/logtail2.h:24-32 | every failure exits with a non-zero status, never the status of success |
| OffsetCodec.EncodeOffset | src/logtail2.c:92 | the saved offset file is one line of decimal digits ended by a newline |
| OffsetCodec.Digits | src/logtail2.c:92 | `%lu` prints at least one digit and no leading zero unless the value is 0 |
| OffsetCodec.SkipSpace | src/logtail2.c:70 | the conversion skips exactly the leading white space |
| OffsetCodec.DigitRun | src/logtail2.c:70 | the conversion consumes the longest run of digits and stops at the first non-digit |
| OffsetCodec.StrToULong | src/logtail2.c:70 | the converted value never exceeds ULONG_MAX; a value too large saturates at ULONG_MAX; an unsigned value in range is kept, and under '-' it is negated modulo 2^64 |
| OffsetCodec.AsLong | src/logtail2.h:53 | storing the unsigned value in the `long` position keeps it modulo 2^64 inside the `long` range |
| OffsetCodec.ConvertNumber | src/logtail2.c:70 | after the white space the conversion succeeds exactly when a digit follows an optional sign; a value above ULONG_MAX reads as -1, any other is the signed digit value modulo 2^64, and exactly that value when it fits in a `long` |
| OffsetCodec.LongOfULong | src/logtail2.c:70 | saturation, negation and the `long` reinterpretation together give -1 on overflow and the signed value modulo 2^64 otherwise |
| OffsetCodec.ParseOffset | src/logtail2.c:70-75 | fscanf converts a number exactly when, after the leading white space, a digit follows an optional sign; a read offset always lies in the `long` range |
| OffsetCodec.ValueOfDigits | src/logtail2.c:92 | the digits printed for n denote n |
| OffsetCodec.DigitRunStopsAtNewline | src/logtail2.c:70 | reading a written line consumes exactly its digits |
| OffsetCodec.EncodeThenParse | src/logtail2.c:92 | reading back what write_offset wrote yields the same offset, whatever follows the line |
| OffsetCodec.EncodeInjective | src/logtail2.c:92 | different offsets are written as different files |
| OffsetCodec.ParseSkipsLeadingSpace | src/logtail2.c:70 | leading white space in the offset file does not change the offset read |
| OffsetCodec.BlankIsNotAnOffset | src/logtail2.c:70-75 | an empty or blank offset file is a read failure |
| OffsetCodec.MinusOneReadsNegative | src/logtail2.c:70 | the text "-1" is accepted and gives the position -1 |
| Logtail.ReadOffset | src/logtail2.c:45-77 | a missing offset file gives position 0; a stat failure other than ENOENT, an open failure or a parse failure gives status 65; otherwise exactly the parsed value |
| Logtail.WriteOffset | src/logtail2.c:82-94 | saving fails with status 73 exactly when the file cannot be opened for writing, and otherwise leaves the file holding the position as written by `"%lu\n"` |
| Logtail.SaveThenLoad | src/logtail2.c:82-94 | a saved position is loaded back unchanged by the next run |
| Logtail.StartPosition | src/logtail2.c:117-123 | a saved offset past the log's size restarts from 0, any other is kept; the start never lies past the size |
| Logtail.CopyToEof | src/logtail2.c:143-146 | the copy loop emits exactly the bytes from the start to end of file, in order, and ends at position start plus bytes emitted, the file size |
| Logtail.OpenLog | src/logtail2.c:105-141 | offset-file and log-stat failures give 65; otherwise an unreadable log, a negative start or a refused seek from a non-zero start gives 66; success yields the start position, which lies within the log |
| Logtail.CopyAndSave | src/logtail2.c:143-159 | the whole rest of the log from the start is emitted; a position is saved exactly when not in test mode, something was read and the write succeeded, and it is the log size; 73 exactly when a save was due and the file cannot be written |
| Logtail.CopyFromPosition | src/logtail2.c:117-159 | a run whose loaded position lies within a log that opens, and that starts at 0 or seeks, is exactly the copy from that position |
| Logtail.CopyFrom | src/logtail2.c:131-158 | loading the length of `seen` as the position, from the log `seen + more`, emits `more` and saves the new size exactly when a save is due and possible |
| Logtail.ReadLogfile | src/logtail2.c:100-160 | only statuses 0, 65, 66, 73; offset and log-stat failures give 65 and log-open failures 66, before any output; otherwise the output is a tail of the log; a position is saved exactly when not in test mode, something was read and the write succeeded, and it is the log size, strictly past the start position; test mode never writes |
| Logtail.After | src/logtail2.c:149-159 | a run changes nothing but the offset file, and only when it saved a position, which the offset file then holds as written by write_offset |
| Logtail.StartOfCopy | src/logtail2.c:117-146 | a saved offset past the end restarts from 0; one within the log is the start and the new position is start plus bytes emitted; a refused seek or a negative offset gives status 66 |
| Logtail.MissingOffsetFileReadsAll | src/logtail2.c:50-55 | without an offset file the whole log is emitted |
| Logtail.TestRunsRepeat | src/logtail2.c:149-159 | a test-mode run leaves the filesystem unchanged, so repeating it gives the same output and status |
| Logtail.RerunEmitsNothing | src/logtail2.c:153-158 | a second run over an unchanged log emits nothing and writes nothing |
| Logtail.AppendedBytesOnly | src/logtail2.c:131-158 | after the log's size was saved, the next run emits exactly the appended bytes and saves the new size |
| Logtail.StaleOffsetAfterEmptyLog | src/logtail2.c:117-158 | a log wrapped to empty keeps the old offset n, so once it grows past n its first n bytes are never emitted |
| Logtail.ThreeRuns | src/logtail2.c:100-160 | starting without an offset file, the first run emits the whole log and saves its size, a rerun emits nothing, and after an append only the appended bytes are emitted and the new size saved |
| Logtail.ThreeRunsAbCd | src/logtail2.c:100-160 | "AB" is emitted and 2 saved; a rerun emits nothing; after appending "CD" only "CD" is emitted and 4 saved |
| OffsetPath.Snprintf | src/offset.c:104 | a formatted path is the requested text cut to at most size-1 characters |
| OffsetPath.Mangle | src/offset.c:109-114 | mangling keeps the length, leaves no '/', turns each '/' into '_' and keeps every other character |
| OffsetPath.MangleTail | src/offset.c:188-193 | the scan from the start index leaves the prefix and mangles the rest |
| OffsetPath.MangleIdempotent | src/offset.c:109-114 | mangling twice is mangling once |
| OffsetPath.MangleConcat | src/offset.c:188-193 | mangling works on each part of a concatenation separately |
| OffsetPath.SetCompatOffsetPath | src/offset.c:52-76 | the path is the log path followed by ".offset"; it is refused with status 73 when it exists and is not a regular file or stat fails other than ENOENT |
| OffsetPath.EnsureCacheDir | src/offset.c:91-102 | a cache directory that cannot be examined or created stops with status 73 |
| OffsetPath.RootMangle | src/offset.c:105-114 | the scan never touches the characters before the cache directory's end |
| OffsetPath.SetRootOffsetPath | src/offset.c:81-115 | the cache-directory prefix is kept, no '/' remains from its end on (the separator included), and the rest is '_' + mangled log path + ".offset"; cache-dir failures give 73 |
| OffsetPath.RootPathShape | src/offset.c:104-114 | the character at the cache directory's length is always the separator, so the guard never fires and the separator becomes '_' |
| OffsetPath.RootPathOfMessages | src/offset.c:104-114 | /var/log/messages maps to /var/cache/logtail2__var_log_messages.offset |
| OffsetPath.UserCacheDir | src/offset.c:127-162 | a failed home lookup gives 82, a cache directory that cannot be examined or created 73, otherwise "<home>/.logtail2" cut to fewer than PATH_MAX characters, uncut when it fits |
| OffsetPath.SetUserOffsetPath | src/offset.c:120-195 | "<home>/.logtail2" is kept verbatim, the canonical path's first character is kept as separator, every later '/' becomes '_' |
| OffsetPath.UserPathShape | src/offset.c:163-193 | starting the scan one past the prefix keeps the canonical path's leading '/' |
| OffsetPath.SetOffsetPath | src/offset.c:202-211 | compatibility mode first, then root when the real or effective uid is 0, else the user's path; status 82 only in the user branch |
| OffsetPath.DispatchOrder | src/offset.c:202-211 | the branch taken depends on the compatibility flag first and on the uids only after |
| OffsetPath.HasDotDotIff | src/offset.c:167 | the scan for ".." finds it exactly when two adjacent dots occur |
| OffsetPath.CheckLogfileArgument | src/offset.c:167-178 | without realpath a log path containing ".." or not starting with '/' is refused with status 81 |
| OffsetPath.UserPathExitWithoutRealpath | src/offset.c:127-178 | without realpath the home lookup and cache directory are checked before the log path |

## Left out

- Debug tracing (`-d`): diagnostic lines printed on standard output; not modelled.
- Option parsing (`src/options.c`), usage and version text: the model takes the resolved log path, offset path and flags as inputs.
- Memory allocation failures (status 80): the model allocates nothing.
- The offset file and the log changing between `stat()` and the end of the copy, and concurrent runs: one run sees one fixed state.
- `fclose(NULL)` after a failed open of the offset file: undefined (it can crash in `fclose`); the model gives 65, the status the code goes on to request.
- `realpath()` failure: the NULL result is passed to `"%s"`, which is undefined; `realpath` is modelled as a total function.
- The path written by the build without `realpath()`: it reads an uninitialised pointer, so only that build's validation exits are modelled.
- OffsetPath.SetUserOffsetPath: requires the "<home>/.logtail2" prefix to fit in PATH_MAX, because a cut prefix leaves `ps` pointing past the text written; `OffsetPath.SetOffsetPath` and `OffsetPath.DispatchOrder` carry the same requirement for the per-user branch. `OffsetPath.UserCacheDir` and `OffsetPath.UserPathExitWithoutRealpath` model the cut.
- Path lengths are counted in characters, while `snprintf` counts bytes: the PATH_MAX limits of `OffsetPath.Snprintf`, `OffsetPath.SetCompatOffsetPath`, `OffsetPath.SetRootOffsetPath`, `OffsetPath.UserCacheDir` and `OffsetPath.SetUserOffsetPath` agree with the code only for paths whose characters each take one byte.
- Failures that `write_offset` ignores: `fopen(path, "w")` has already emptied the offset file when `fprintf` or `fclose` fails (a full disk), so the run exits 0 and every later run fails to parse the file with 65; the model's `writable` input covers only the `fopen` failure.
- Write errors on standard output: `putchar` and the final flush are unchecked, so the position is saved even when the bytes were not delivered (a full disk, a closed pipe with SIGPIPE ignored), and a SIGPIPE with its default action ends the run mid-copy with no save and none of the modelled statuses; the model takes every byte handed to `putchar` to be delivered.
- A read error from `getc` ends the copy early and `ftell` then saves a short position; the model reads every byte.
- The log's size from `stat()` is taken to be the number of bytes the copy reads; a file whose reported size differs from its readable contents is not modelled.
- The checks `bytes < 0` on a `size_t` never fire and are not modelled.
- `PACKAGE_NAME` comes from the build configuration, which is not part of this model; it is taken as "logtail2". `PATH_MAX` is taken as 4096 (Linux).
- `fseek()` to a non-negative position can only fail through the `seekFails` input; the model does not say when a system refuses it.
