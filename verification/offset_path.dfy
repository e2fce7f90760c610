/** Where the offset file lives when none is given (src/offset.c):
    beside the log in compatibility mode, under the system cache directory
    for root, and under a dot-directory in the home directory otherwise. In
    the last two the log's path is folded into one file name by turning
    '/' into '_'.

    The calls into the system are an input: stat(), mkdir(), getpwuid() and
    realpath() as functions of their argument. Strings are C strings, so
    they hold no NUL character and the `while(*pp)` loops run to the end. */
module OffsetPath {
  import opened Wrappers
  import opened ExitStatus

  /** PACKAGE_NAME from the build configuration. */
  const PackageName: string := "logtail2"
  /** OFFSET_CACHE_DIR from src/logtail2.h. */
  const OffsetCacheDir: string := "/var/cache/" + PackageName
  /** PATH_MAX from <limits.h> on Linux. */
  const PathMax: nat := 4096
  /** What snprintf(..., "%s.offset", ...) appends. */
  const Suffix: string := ".offset"

  /** What stat() reports for a path. */
  datatype Entry = Missing | StatError | Found(regular: bool)

  /** The system calls offset.c makes, as functions of their argument. */
  datatype System = System(
    stat: string -> Entry,
    mkdir: string -> bool,                // mkdir(path, 0750) succeeds
    homeDir: int -> Option<string>,       // getpwuid(uid)->pw_dir, None when getpwuid fails
    realpath: string -> string)           // realpath(path, NULL)

  /** The text snprintf(buf, size, ...) leaves in buf for the formatted text s. */
  function Snprintf(s: string, size: nat): (r: string)
    requires 0 < size
    ensures |r| < size
    ensures |r| <= |s| && r == s[..|r|]
    ensures |s| < size ==> r == s
    ensures |s| >= size ==> |r| == size - 1
  {
    if |s| < size then s else s[..size - 1]
  }

  // ---------------------------------------------------------------------------
  // Slash mangling
  // ---------------------------------------------------------------------------

  function Unslash(c: char): char {
    if c == '/' then '_' else c
  }

  /** s with every '/' replaced by '_' and nothing else changed. */
  function Mangle(s: string): (r: string)
    ensures |r| == |s|
    ensures forall i :: 0 <= i < |s| ==> r[i] != '/'
    ensures forall i :: 0 <= i < |s| && s[i] != '/' ==> r[i] == s[i]
    ensures forall i :: 0 <= i < |s| && s[i] == '/' ==> r[i] == '_'
  {
    seq(|s|, i requires 0 <= i < |s| => Unslash(s[i]))
  }

  /** The `while(*pp)` loops of set_root_offset_path and set_user_offset_path:
      starting at index k, rewrite each '/' of the buffer to '_'. */
  method MangleTail(buf: string, k: nat) returns (r: string)
    requires k <= |buf|
    ensures r == buf[..k] + Mangle(buf[k..])
  {
    r := buf;
    var i := k;
    while i < |r|
      invariant k <= i <= |r| == |buf|
      invariant forall j :: 0 <= j < |r| ==> r[j] == if k <= j < i then Unslash(buf[j]) else buf[j]
    {
      if r[i] == '/' {
        r := r[i := '_'];
      }
      i := i + 1;
    }
    MangleSplit(buf, k, r);
  }

  /** A buffer rewritten character by character from index k on is the
      untouched prefix followed by the mangled rest. */
  lemma MangleSplit(buf: string, k: nat, r: string)
    requires k <= |buf| == |r|
    requires forall j :: 0 <= j < |r| ==> r[j] == if k <= j then Unslash(buf[j]) else buf[j]
    ensures r == buf[..k] + Mangle(buf[k..])
  {
    var m := Mangle(buf[k..]);
    forall j | 0 <= j < |r|
      ensures r[j] == (buf[..k] + m)[j]
    {
      if k <= j {
        assert buf[k..][j - k] == buf[j];
      }
    }
  }

  /** Mangling a mangled string changes nothing. */
  lemma MangleIdempotent(s: string)
    ensures Mangle(Mangle(s)) == Mangle(s)
  {
  }

  /** Mangling works character by character, so it splits over concatenation. */
  lemma MangleConcat(a: string, b: string)
    ensures Mangle(a + b) == Mangle(a) + Mangle(b)
  {
    assert forall i :: 0 <= i < |a| + |b| ==> Mangle(a + b)[i] == (Mangle(a) + Mangle(b))[i];
  }

  /** A string without '/' is left as it is. */
  lemma MangleNoSlash(s: string)
    requires forall i :: 0 <= i < |s| ==> s[i] != '/'
    ensures Mangle(s) == s
  {
  }

  // ---------------------------------------------------------------------------
  // The three constructions
  // ---------------------------------------------------------------------------

  /** set_compat_offset_path: "<logfile>.offset", refused with status 73 when
      that path exists but is not a regular file or cannot be examined. */
  function SetCompatOffsetPath(logfile: string, sys: System): (r: Result<string, Failure>)
    ensures var p := Snprintf(logfile + Suffix, PathMax);
            r.Ok? <==> sys.stat(p) == Missing || sys.stat(p) == Found(true)
    ensures r.Err? ==> r.error == FailedWriteOffset
    ensures r.Ok? && |logfile + Suffix| < PathMax ==> r.value == logfile + Suffix
    ensures r.Ok? ==> r.value <= logfile + Suffix
  {
    var p := Snprintf(logfile + Suffix, PathMax);
    match sys.stat(p)
    case Missing => Ok(p)
    case StatError => Err(FailedWriteOffset)
    case Found(regular) => if regular then Ok(p) else Err(FailedWriteOffset)
  }

  /** The cache-directory check shared by the root and user constructions:
      an existing entry is accepted as it is, a missing one is created, and
      any other failure stops with status 73. */
  function EnsureCacheDir(dir: string, sys: System): (r: Outcome<Failure>)
    ensures r.Fail? <==> sys.stat(dir) == StatError || (sys.stat(dir) == Missing && !sys.mkdir(dir))
    ensures r.Fail? ==> r.error == FailedWriteOffset
  {
    match sys.stat(dir)
    case Found(_) => Pass
    case Missing => if sys.mkdir(dir) then Pass else Fail(FailedWriteOffset)
    case StatError => Fail(FailedWriteOffset)
  }

  /** The guard and `while(*pp)` loop of set_root_offset_path on the buffer
      `buf` with `pp` at index k: when the
      character at k is not '/', it is overwritten with '/' and the scan
      starts after it; otherwise the scan starts at k itself. */
  function RootMangle(buf: string, k: nat): (r: string)
    requires k < |buf|
    ensures |r| == |buf| && r[..k] == buf[..k]
  {
    if buf[k] != '/' then buf[..k] + "/" + Mangle(buf[k + 1..])
    else buf[..k] + Mangle(buf[k..])
  }

  /** set_root_offset_path: OFFSET_CACHE_DIR followed by the mangled
      "/<logfile>.offset". The '/' written between the two is at the index
      the scan starts from, so it is mangled too and the file lands beside
      the cache directory, not inside it. */
  function SetRootOffsetPath(logfile: string, sys: System): (r: Result<string, Failure>)
    ensures r.Err? <==> EnsureCacheDir(OffsetCacheDir, sys).Fail?
    ensures r.Err? ==> r.error == FailedWriteOffset
    ensures r.Ok? ==> OffsetCacheDir < r.value
    ensures r.Ok? ==> forall i :: |OffsetCacheDir| <= i < |r.value| ==> r.value[i] != '/'
    ensures r.Ok? && |OffsetCacheDir + "/" + logfile + Suffix| < PathMax ==>
              r.value == OffsetCacheDir + "_" + Mangle(logfile) + Suffix
  {
    match EnsureCacheDir(OffsetCacheDir, sys)
    case Fail(e) => Err(e)
    case Pass =>
      var buf := Snprintf(OffsetCacheDir + "/" + logfile + Suffix, PathMax);
      RootPathShape(OffsetCacheDir, logfile);
      Ok(RootMangle(buf, |OffsetCacheDir|))
  }

  /** The root construction for a cache directory `dir`: the character at
      index |dir| of the formatted buffer is always the '/' separator, so the
      `if(*pp != '/')` guard never fires and the scan starts on the separator. */
  lemma RootPathShape(dir: string, logfile: string)
    requires |dir| + 1 + |Suffix| < PathMax
    ensures var buf := Snprintf(dir + "/" + logfile + Suffix, PathMax);
            && |dir| < |buf| && buf[|dir|] == '/'
            && var r := RootMangle(buf, |dir|);
            && dir < r
            && (forall i :: |dir| <= i < |r| ==> r[i] != '/')
            && (|dir + "/" + logfile + Suffix| < PathMax ==> r == dir + "_" + Mangle(logfile) + Suffix)
  {
    var full := dir + "/" + logfile + Suffix;
    var buf := Snprintf(full, PathMax);
    var k := |dir|;
    SeparatorSurvives(dir, full, buf);
    var r := RootMangle(buf, k);
    var m := Mangle(buf[k..]);
    assert r == buf[..k] + m;
    assert r[..k] == dir;
    forall i | k <= i < |r|
      ensures r[i] != '/'
    {
      assert r[i] == m[i - k];
    }
    if |full| < PathMax {
      SeparatorMangled(dir, logfile, buf);
    }
  }

  lemma SeparatorSurvives(dir: string, full: string, buf: string)
    requires |dir| + 1 + |Suffix| < PathMax
    requires dir + "/" <= full
    requires buf == Snprintf(full, PathMax)
    requires |dir| + 1 + |Suffix| <= |full|
    ensures dir + "/" <= buf
  {
  }

  lemma SeparatorMangled(dir: string, logfile: string, buf: string)
    requires buf == dir + "/" + logfile + Suffix
    ensures buf[..|dir|] + Mangle(buf[|dir|..]) == dir + "_" + Mangle(logfile) + Suffix
  {
    assert buf[|dir|..] == "/" + logfile + Suffix;
    MangleConcat("/" + logfile, Suffix);
    MangleConcat("/", logfile);
    MangleNoSlash(Suffix);
    assert Mangle("/") == "_";
  }

  /** The per-user cache directory of set_user_offset_path: the getpwuid()
      lookup, the "%s/.%s" snprintf into PATH_MAX characters, and the
      stat()/mkdir() of the result. Status 82 when the user's home directory
      cannot be looked up, 73 when the directory can be neither found nor
      created. A home directory too long for PATH_MAX gives a cut name. */
  function UserCacheDir(uid: int, sys: System): (r: Result<string, Failure>)
    ensures sys.homeDir(uid).None? ==> r == Err(UserdbLookupError)
    ensures sys.homeDir(uid).Some? ==>
              var dir := Snprintf(sys.homeDir(uid).value + "/." + PackageName, PathMax);
              && (r.Err? <==> EnsureCacheDir(dir, sys).Fail?)
              && (r.Err? ==> r.error == FailedWriteOffset)
              && (r.Ok? ==> r.value == dir)
    ensures r.Ok? ==>
              && sys.homeDir(uid).Some?
              && |r.value| < PathMax
              && r.value <= sys.homeDir(uid).value + "/." + PackageName
    ensures r.Ok? && HomeFits(uid, sys) ==> r.value == sys.homeDir(uid).value + "/." + PackageName
  {
    match sys.homeDir(uid)
    case None => Err(UserdbLookupError)
    case Some(home) =>
      var dir := Snprintf(home + "/." + PackageName, PathMax);
      match EnsureCacheDir(dir, sys)
      case Fail(e) => Err(e)
      case Pass => Ok(dir)
  }

  /** The condition under which the snprintf of "%s/.%s" does not cut the
      home-directory prefix; when it does, `ps` is advanced by the uncut
      length and points past the text written. */
  predicate HomeFits(uid: int, sys: System) {
    sys.homeDir(uid).Some? ==> |sys.homeDir(uid).value + "/." + PackageName| < PathMax
  }

  /** set_user_offset_path, built with realpath(): "<home>/.logtail2"
      followed by the canonical log path and ".offset", where the first
      character after the prefix (the canonical path's leading '/') is kept
      and every later '/' becomes '_'. */
  function SetUserOffsetPath(logfile: string, uid: int, sys: System): (r: Result<string, Failure>)
    requires HomeFits(uid, sys)
    ensures r.Err? <==> UserCacheDir(uid, sys).Err?
    ensures r.Err? ==> r.error == UserCacheDir(uid, sys).error
    ensures r.Ok? ==>
              var dir := sys.homeDir(uid).value + "/." + PackageName;
              var canon := sys.realpath(logfile);
              && |dir| < |r.value|
              && r.value[..|dir|] == dir
              && r.value[|dir|] == (canon + Suffix)[0]
              && (forall i :: |dir| < i < |r.value| ==> r.value[i] != '/')
    ensures r.Ok? ==>
              var dir := sys.homeDir(uid).value + "/." + PackageName;
              var canon := sys.realpath(logfile);
              |canon| > 0 && canon[0] == '/' && |canon + Suffix| < 2 * PathMax + 1 - |dir| ==>
                r.value == dir + "/" + Mangle(canon[1..]) + Suffix
  {
    match UserCacheDir(uid, sys)
    case Err(e) => Err(e)
    case Ok(dir) =>
      var canon := sys.realpath(logfile);
      var tail := Snprintf(canon + Suffix, 2 * PathMax + 1 - |dir|);
      var buf := dir + tail;
      var k := |dir| + 1;
      var r := buf[..k] + Mangle(buf[k..]);
      UserPathShape(dir, canon, tail, buf, r);
      Ok(r)
  }

  lemma UserPathShape(dir: string, canon: string, tail: string, buf: string, r: string)
    requires |dir| < PathMax
    requires tail == Snprintf(canon + Suffix, 2 * PathMax + 1 - |dir|)
    requires buf == dir + tail
    requires |dir| + 1 <= |buf|
    requires r == buf[..|dir| + 1] + Mangle(buf[|dir| + 1..])
    ensures |dir| < |r| && r[..|dir|] == dir && r[|dir|] == (canon + Suffix)[0]
    ensures forall i :: |dir| < i < |r| ==> r[i] != '/'
    ensures |canon| > 0 && canon[0] == '/' && |canon + Suffix| < 2 * PathMax + 1 - |dir| ==>
              r == dir + "/" + Mangle(canon[1..]) + Suffix
  {
    assert r[..|dir|] == buf[..|dir|] == dir;
    if |canon| > 0 && canon[0] == '/' && |canon + Suffix| < 2 * PathMax + 1 - |dir| {
      assert tail == canon + Suffix;
      assert buf[|dir| + 1..] == canon[1..] + Suffix;
      MangleConcat(canon[1..], Suffix);
      MangleNoSlash(Suffix);
      assert buf[..|dir| + 1] == dir + "/";
    }
  }

  /** set_offset_path: compatibility mode wins; otherwise the root
      construction when either the real or the effective user is root;
      otherwise the per-user construction for the real user. */
  function SetOffsetPath(logfile: string, compat: bool, uid: int, euid: int, sys: System): (r: Result<string, Failure>)
    requires !compat && uid != 0 && euid != 0 ==> HomeFits(uid, sys)
    ensures compat && r.Ok? && |logfile + Suffix| < PathMax ==> r.value == logfile + Suffix
    ensures !compat && (uid == 0 || euid == 0) && r.Ok? ==> OffsetCacheDir < r.value
    ensures !compat && uid != 0 && euid != 0 && r.Ok? ==>
              sys.homeDir(uid).Some? && sys.homeDir(uid).value + "/." + PackageName < r.value
    ensures r.Err? && r.error == UserdbLookupError <==>
              !compat && uid != 0 && euid != 0 && sys.homeDir(uid).None?
    ensures r.Err? ==> r.error in {FailedWriteOffset, UserdbLookupError}
  {
    if compat then SetCompatOffsetPath(logfile, sys)
    else if uid == 0 || euid == 0 then SetRootOffsetPath(logfile, sys)
    else SetUserOffsetPath(logfile, uid, sys)
  }

  /** Compatibility mode is chosen before the user identity is looked at,
      and root (real or effective) before the per-user construction. */
  lemma DispatchOrder(logfile: string, compat: bool, uid: int, euid: int, sys: System)
    requires !compat && uid != 0 && euid != 0 ==> HomeFits(uid, sys)
    ensures compat ==> SetOffsetPath(logfile, compat, uid, euid, sys) == SetCompatOffsetPath(logfile, sys)
    ensures !compat && (uid == 0 || euid == 0) ==>
              SetOffsetPath(logfile, compat, uid, euid, sys) == SetRootOffsetPath(logfile, sys)
    ensures !compat && uid != 0 && euid != 0 ==>
              SetOffsetPath(logfile, compat, uid, euid, sys) == SetUserOffsetPath(logfile, uid, sys)
  {
  }

  // ---------------------------------------------------------------------------
  // The build without realpath()
  // ---------------------------------------------------------------------------

  /** strstr(s, "..") != NULL, as a scan from the left. */
  function HasDotDot(s: string): bool
    decreases |s|
  {
    if |s| < 2 then false
    else if s[0] == '.' && s[1] == '.' then true
    else HasDotDot(s[1..])
  }

  /** The scan finds ".." exactly when two adjacent dots occur somewhere. */
  lemma {:induction false} HasDotDotIff(s: string)
    ensures HasDotDot(s) <==> exists i :: 0 <= i < |s| - 1 && s[i] == '.' && s[i + 1] == '.'
    decreases |s|
  {
    if |s| >= 2 && !(s[0] == '.' && s[1] == '.') {
      HasDotDotIff(s[1..]);
      if exists i :: 0 <= i < |s| - 1 && s[i] == '.' && s[i + 1] == '.' {
        var i :| 0 <= i < |s| - 1 && s[i] == '.' && s[i + 1] == '.';
        assert i > 0;
        assert s[1..][i - 1] == '.' && s[1..][i] == '.';
      }
      if HasDotDot(s[1..]) {
        var j :| 0 <= j < |s[1..]| - 1 && s[1..][j] == '.' && s[1..][j + 1] == '.';
        assert s[j + 1] == '.' && s[j + 2] == '.';
      }
    }
  }

  /** The `#ifndef HAVE_REALPATH` checks of set_user_offset_path: the log
      path must be absolute and
      free of "..", else status 81. An empty path is not absolute. */
  function CheckLogfileArgument(logfile: string): (r: Outcome<Failure>)
    ensures r.Fail? ==> r.error == ProgArgumentError
    ensures r.Pass? ==> |logfile| > 0 && logfile[0] == '/'
    ensures r.Pass? ==> forall i :: 0 <= i < |logfile| - 1 ==> !(logfile[i] == '.' && logfile[i + 1] == '.')
    ensures (exists i :: 0 <= i < |logfile| - 1 && logfile[i] == '.' && logfile[i + 1] == '.') ==> r.Fail?
    ensures |logfile| == 0 || logfile[0] != '/' ==> r.Fail?
  {
    HasDotDotIff(logfile);
    if HasDotDot(logfile) then Fail(ProgArgumentError)
    else if |logfile| == 0 || logfile[0] != '/' then Fail(ProgArgumentError)
    else Pass
  }

  /** The exits of set_user_offset_path built without realpath(): the home
      lookup and the cache directory are checked before the log path. What
      that build then writes into the path is not defined (it reads an
      uninitialised pointer), so only its exits are modelled. */
  function UserPathExitWithoutRealpath(logfile: string, uid: int, sys: System): (r: Outcome<Failure>)
    ensures sys.homeDir(uid).None? ==> r == Fail(UserdbLookupError)
    ensures UserCacheDir(uid, sys).Err? ==> r == Fail(UserCacheDir(uid, sys).error)
    ensures UserCacheDir(uid, sys).Ok? ==> r == CheckLogfileArgument(logfile)
  {
    match UserCacheDir(uid, sys)
    case Err(e) => Fail(e)
    case Ok(_) => CheckLogfileArgument(logfile)
  }

  // ---------------------------------------------------------------------------
  // Examples
  // ---------------------------------------------------------------------------

  /** Running as root with the cache directory in place, /var/log/messages
      (given by its components) gets the offset file
      /var/cache/logtail2__var_log_messages.offset. */
  lemma RootPathOfMessages(sys: System, logfile: string, v: string, g: string, m: string)
    requires sys.stat(OffsetCacheDir).Found?
    requires v == "var" && g == "log" && m == "messages"
    requires logfile == "/" + v + "/" + g + "/" + m
    ensures SetRootOffsetPath(logfile, sys) == Ok("/var/cache/logtail2__var_log_messages.offset")
  {
    MangleOfPath(logfile, v, g, m);
    assert |logfile| == 17;
    MessagesSpelled(v, g, m);
  }

  lemma MessagesSpelled(v: string, g: string, m: string)
    requires v == "var" && g == "log" && m == "messages"
    ensures OffsetCacheDir + "_" + ("_" + v + "_" + g + "_" + m) + Suffix
            == "/var/cache/logtail2__var_log_messages.offset"
  {
  }

  /** A three-component absolute path mangles to '_' before each component. */
  lemma MangleOfPath(l: string, v: string, g: string, m: string)
    requires forall i :: 0 <= i < |v| ==> v[i] != '/'
    requires forall i :: 0 <= i < |g| ==> g[i] != '/'
    requires forall i :: 0 <= i < |m| ==> m[i] != '/'
    requires l == "/" + v + "/" + g + "/" + m
    ensures Mangle(l) == "_" + v + "_" + g + "_" + m
  {
    MangleOfComponent([], v);
    assert [] + "/" + v == "/" + v;
    MangleOfComponent("/" + v, g);
    MangleOfComponent("/" + v + "/" + g, m);
  }

  /** Appending a '/' and a component mangles to appending '_' and the component. */
  lemma MangleOfComponent(a: string, c: string)
    requires forall i :: 0 <= i < |c| ==> c[i] != '/'
    ensures Mangle(a + "/" + c) == Mangle(a) + "_" + c
  {
    MangleConcat(a + "/", c);
    MangleConcat(a, "/");
    MangleNoSlash(c);
    assert Mangle("/") == "_";
  }
}
