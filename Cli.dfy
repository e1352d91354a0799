/**
 * The decision logic of the `rlxc` command line (`src/bin/rlxc.rs`):
 * integer and timeout parsing, `KEY=VALUE` splitting, uid/gid defaulting,
 * the wait-status to exit-code mapping, the path and name guards, the log
 * defaults, and the `stop` and `exec` flows over the fake liblxc.
 *
 * Command-line values are bytes (`OsStr`) or UTF-8 text (`&str`); both are
 * `seq<Byte>` here.
 */
module Cli {

  import opened Wrappers
  import opened Text
  import opened Ffi
  import opened Attach
  import opened Log
  import opened Lxc

  const PLUS: Byte := 0x2B
  const MINUS: Byte := 0x2D
  const EQUALS: Byte := 0x3D
  const SPACE: Byte := 0x20

  // ---------------------------------------------------------------------
  // `str::parse` for `i32` and `u32`

  /** The kinds of `ParseIntError`. */
  datatype IntErrorKind = Empty | InvalidDigit | PosOverflow | NegOverflow

  predicate IsDigit(b: Byte) { 0x30 <= b <= 0x39 }

  predicate AllDigits(s: seq<Byte>)
  {
    forall i :: 0 <= i < |s| ==> IsDigit(s[i])
  }

  function Pow10(n: nat): (p: nat)
    ensures p >= 1
  {
    if n == 0 then 1 else 10 * Pow10(n - 1)
  }

  /** The value of a run of decimal digits: each digit weighted by its position. */
  function DigitsValue(s: seq<Byte>): (v: nat)
    requires AllDigits(s)
  {
    if |s| == 0 then 0 else (s[0] - 0x30) * Pow10(|s| - 1) + DigitsValue(s[1..])
  }

  /** A decimal literal: digits, optionally after `+`, or after `-` when `signed`. */
  predicate IsIntLiteral(s: seq<Byte>, signed: bool)
  {
    || (|s| >= 1 && AllDigits(s))
    || (|s| >= 2 && (s[0] == PLUS || (signed && s[0] == MINUS)) && AllDigits(s[1..]))
  }

  /** The value a literal denotes. */
  function LiteralValue(s: seq<Byte>): int
    requires IsIntLiteral(s, true)
  {
    if AllDigits(s) then DigitsValue(s)
    else if s[0] == MINUS then -(DigitsValue(s[1..]) as int)
    else DigitsValue(s[1..])
  }

  /** The value reached from `acc` after the digits `s`, accumulated up or down. */
  function Shifted(acc: int, s: seq<Byte>, negative: bool): int
    requires AllDigits(s)
  {
    acc * Pow10(|s|) + (if negative then -(DigitsValue(s) as int) else DigitsValue(s) as int)
  }

  /** One accumulation step consumes the leading digit. */
  lemma ShiftedStep(acc: int, s: seq<Byte>, negative: bool, next: int)
    requires |s| > 0 && IsDigit(s[0])
    requires next == if negative then acc * 10 - (s[0] - 0x30) else acc * 10 + (s[0] - 0x30)
    ensures AllDigits(s) <==> AllDigits(s[1..])
    ensures AllDigits(s) ==> Shifted(acc, s, negative) == Shifted(next, s[1..], negative)
  {
    assert forall i :: 1 <= i < |s| ==> s[i] == s[1..][i - 1];
    if AllDigits(s) {
      var p := Pow10(|s| - 1);
      var d := s[0] - 0x30;
      assert Pow10(|s|) == 10 * p;
      assert acc * (10 * p) == (acc * 10) * p;
      assert (acc * 10 + d) * p == (acc * 10) * p + d * p;
      assert (acc * 10 - d) * p == (acc * 10) * p - d * p;
    }
  }

  /** Accumulating more digits moves away from zero. */
  lemma ShiftedGrows(acc: int, s: seq<Byte>, negative: bool)
    ensures AllDigits(s) && !negative && acc >= 0 ==> Shifted(acc, s, negative) >= acc
    ensures AllDigits(s) && negative && acc <= 0 ==> Shifted(acc, s, negative) <= acc
  {
    if AllDigits(s) {
      var p := Pow10(|s|);
      assert acc * p == acc + acc * (p - 1);
      if acc >= 0 {
        assert acc * (p - 1) >= 0;
      } else {
        assert acc * (p - 1) <= 0;
      }
    }
  }

  /**
   * The digit loop of `from_str_radix` with radix 10: left to right, the
   * first non-digit is `InvalidDigit`, the first step past `hi` is
   * `PosOverflow` and past `lo` is `NegOverflow`.
   */
  function Accumulate(s: seq<Byte>, acc: int, negative: bool, lo: int, hi: int): (r: Result<int, IntErrorKind>)
    requires lo <= acc <= hi
    requires if negative then acc <= 0 else acc >= 0
    ensures r.Success? <==> AllDigits(s) && lo <= Shifted(acc, s, negative) <= hi
    ensures r.Success? ==> r.value == Shifted(acc, s, negative)
    decreases |s|
  {
    if |s| == 0 then Success(acc)
    else if !IsDigit(s[0]) then Failure(InvalidDigit)
    else
      var d := s[0] - 0x30;
      var next := if negative then acc * 10 - d else acc * 10 + d;
      ShiftedStep(acc, s, negative, next);
      if next > hi then
        ShiftedGrows(next, s[1..], negative);
        Failure(PosOverflow)
      else if next < lo then
        ShiftedGrows(next, s[1..], negative);
        Failure(NegOverflow)
      else Accumulate(s[1..], next, negative, lo, hi)
  }

  /**
   * `str::parse` for an integer type with range `lo..=hi`: empty is
   * `Empty`, a lone sign is `InvalidDigit`, `+` is skipped, `-` is taken as
   * a sign only for a signed type.
   */
  function ParseInt(s: seq<Byte>, lo: int, hi: int): (r: Result<int, IntErrorKind>)
    requires lo <= 0 <= hi
    ensures r.Success? <==> IsIntLiteral(s, lo < 0) && lo <= LiteralValue(s) <= hi
    ensures r.Success? ==> r.value == LiteralValue(s)
    ensures |s| == 0 ==> r == Failure(Empty)
  {
    if |s| == 0 then Failure(Empty)
    else if |s| == 1 && (s[0] == PLUS || s[0] == MINUS) then Failure(InvalidDigit)
    else if s[0] == PLUS then Accumulate(s[1..], 0, false, lo, hi)
    else if s[0] == MINUS && lo < 0 then Accumulate(s[1..], 0, true, lo, hi)
    else Accumulate(s, 0, false, lo, hi)
  }

  /** `parse::<i32>`. */
  function ParseI32(s: seq<Byte>): (r: Result<int, IntErrorKind>)
    ensures r.Success? ==> -0x8000_0000 <= r.value <= 0x7FFF_FFFF
  {
    ParseInt(s, -0x8000_0000, 0x7FFF_FFFF)
  }

  /** `parse::<u32>` (`uid_t`, `gid_t`). */
  function ParseU32(s: seq<Byte>): (r: Result<int, IntErrorKind>)
    ensures r.Success? ==> 0 <= r.value <= 0xFFFF_FFFF
  {
    ParseInt(s, 0, 0xFFFF_FFFF)
  }

  /** The error kinds `parse` reports on small inputs. */
  lemma ParseExamples()
    ensures ParseI32([0x34, 0x32]) == Success(42)                // "42"
    ensures ParseI32([MINUS, 0x37]) == Success(-7)               // "-7"
    ensures ParseI32([PLUS, 0x37]) == Success(7)                 // "+7"
    ensures ParseI32([PLUS]) == Failure(InvalidDigit)            // "+"
    ensures ParseI32([0x34, 0x61]) == Failure(InvalidDigit)      // "4a"
    ensures ParseU32([MINUS, 0x37]) == Failure(InvalidDigit)     // "-7"
    ensures ParseU32([]) == Failure(Empty)                       // ""
  {
  }

  // ---------------------------------------------------------------------
  // Guards and argument conversions of the subcommands

  /** The errors the subcommands report themselves (`bail!`). */
  datatype CliError =
    | MissingPath          // "Missing required argument: 'path' and no default path set"
    | NothingToStop        // "Either a single container or all containers must be stopped"
    | NegativeTimeout      // "Invalid timeout (must be -1, 0 or positive)"
    | InvalidTimeout(kind: IntErrorKind)

  /**
   * The timeout of `stop`: absent or -1 waits forever (`None`), `n >= 0` is
   * `n` seconds, any other integer and any non-integer are errors.
   */
  function ParseTimeout(value: Option<seq<Byte>>): (r: Result<Option<Duration>, CliError>)
    ensures value.None? ==> r == Success(None)
    ensures value.Some? ==>
      (r == Success(None) <==> IsIntLiteral(value.value, true) && LiteralValue(value.value) == -1)
    ensures value.Some? ==>
      (r.Success? && r.value.Some? <==> IsIntLiteral(value.value, true) && 0 <= LiteralValue(value.value) < 0x8000_0000)
    ensures r.Success? && r.value.Some? ==>
      value.Some? && IsIntLiteral(value.value, true) && r.value.value == FromSecs(LiteralValue(value.value))
    ensures r == Failure(NegativeTimeout) <==>
      value.Some? && IsIntLiteral(value.value, true) && -0x8000_0000 <= LiteralValue(value.value) < -1
    ensures r.Failure? && r.error.InvalidTimeout? <==>
      value.Some? && !(IsIntLiteral(value.value, true) && -0x8000_0000 <= LiteralValue(value.value) < 0x8000_0000)
  {
    match value
    case None => Success(None)
    case Some(v) =>
      match ParseI32(v)
      case Failure(e) => Failure(InvalidTimeout(e))
      case Success(n) =>
        if n == -1 then Success(None)
        else if n < 0 then Failure(NegativeTimeout)
        else Success(Some(FromSecs(n)))
  }

  /** Every timeout `stop` accepts fits a `c_int`, so `shutdown` passes it exactly. */
  lemma ParsedTimeoutIsExact(value: Option<seq<Byte>>)
    ensures ParseTimeout(value).Success? ==>
      && CheckedShutdownTimeout(ParseTimeout(value).value).Success?
      && ShutdownTimeout(ParseTimeout(value).value) == CheckedShutdownTimeout(ParseTimeout(value).value)
  {
    if ParseTimeout(value).Success? {
      ShutdownTimeoutsAgree(ParseTimeout(value).value);
    }
  }

  /** The timeouts `stop` accepts and rejects, on small inputs. */
  lemma TimeoutExamples()
    ensures ParseTimeout(Some([MINUS, 0x31])) == Success(None)                      // "-1"
    ensures ParseTimeout(Some([0x33, 0x30])) == Success(Some(FromSecs(30)))         // "30"
    ensures ParseTimeout(Some([0x30])) == Success(Some(FromSecs(0)))                // "0"
    ensures ParseTimeout(Some([MINUS, 0x32])) == Failure(NegativeTimeout)           // "-2"
    ensures ParseTimeout(Some([0x31, 0x73])) == Failure(InvalidTimeout(InvalidDigit)) // "1s"
  {
  }

  /** The position of the first `b` in `s`, or `|s|`. */
  function IndexOf(s: seq<Byte>, b: Byte): (k: nat)
    ensures k <= |s|
    ensures forall i :: 0 <= i < k ==> s[i] != b
    ensures k < |s| ==> s[k] == b
  {
    if |s| == 0 || s[0] == b then 0 else 1 + IndexOf(s[1..], b)
  }

  /**
   * `splitn(2, '=')` of an `--env` entry, accepted only with two parts:
   * the name before the first `=` and everything after it.
   */
  function SplitEnv(e: seq<Byte>): (r: Option<(seq<Byte>, seq<Byte>)>)
    ensures r.None? <==> EQUALS !in e
    ensures r.Some? ==> EQUALS !in r.value.0 && EnvAssignment(r.value.0, r.value.1) == e
  {
    var k := IndexOf(e, EQUALS);
    if k == |e| then None
    else
      assert e[..k] + [EQUALS] + e[k + 1..] == e;
      Some((e[..k], e[k + 1..]))
  }

  /** Splitting an assignment gives back its name and value, `=` in the value included. */
  lemma SplitEnvOfAssignment(name: seq<Byte>, value: seq<Byte>)
    requires EQUALS !in name
    ensures SplitEnv(EnvAssignment(name, value)) == Some((name, value))
  {
    var e := EnvAssignment(name, value);
    var k := IndexOf(e, EQUALS);
    assert k == |name|;
  }

  /** A `--user` / `--group` value: absent is `None`, otherwise it must parse as a `u32`. */
  function ParseId(value: Option<seq<Byte>>): (r: Result<Option<U32>, IntErrorKind>)
    ensures value.None? ==> r == Success(None)
    ensures value.Some? ==>
      (r.Success? <==> IsIntLiteral(value.value, false) && LiteralValue(value.value) <= 0xFFFF_FFFF)
    ensures value.Some? && r.Success? ==> r.value == Some(LiteralValue(value.value))
  {
    match value
    case None => Success(None)
    case Some(v) =>
      match ParseU32(v)
      case Success(n) => Success(Some(n))
      case Failure(e) => Failure(e)
  }

  /** The path every subcommand uses: the given one, else the default; empty is an error. */
  function EffectivePath(given: Option<seq<Byte>>, default: seq<Byte>): (r: Result<seq<Byte>, CliError>)
    ensures r.Success? <==> (if given.Some? then given.value else default) != []
    ensures r.Success? ==> r.value == (if given.Some? then given.value else default)
    ensures r.Failure? ==> r.error == MissingPath
  {
    var spath := if given.Some? then given.value else default;
    if spath == [] then Failure(MissingPath) else Success(spath)
  }

  /** `stop` needs a name unless `--all` is given. */
  function StopGuard(all: bool, name: seq<Byte>): (r: Outcome<CliError>)
    ensures r.Fail? <==> !all && name == []
    ensures r.Fail? ==> r.error == NothingToStop
  {
    if !all && name == [] then Fail(NothingToStop) else Pass
  }

  // ---------------------------------------------------------------------
  // The exit status of `exec`

  /** `WTERMSIG`: the low seven bits of a wait status (two's complement). */
  function TermSig(status: I32): int { status % 0x80 }

  /** `WEXITSTATUS`: bits 8 to 15 of a wait status. */
  function ExitByte(status: I32): int { (status % 0x1_0000) / 0x100 }

  /** `WIFEXITED`. */
  predicate Exited(status: I32) { TermSig(status) == 0 }

  /** `WIFSIGNALED`: a signal number in 1..=0x7e (0x7f marks a stopped child). */
  predicate Signaled(status: I32) { 1 <= TermSig(status) <= 0x7E }

  /**
   * The exit code of `exec` for a wait status: 0 on success, the exit code
   * when there is one, 128 plus the signal when killed, -1 otherwise.
   */
  function ExitCode(status: I32): (code: int)
    ensures -1 <= code <= 255
    ensures status == 0 ==> code == 0
  {
    if status == 0 then 0
    else if Exited(status) then ExitByte(status)
    else if Signaled(status) then 128 + TermSig(status)
    else -1
  }

  /** A child that called `exit(c)` gives exit code `c`. */
  lemma ExitCodeOfExit(c: int)
    requires 0 <= c < 256
    ensures ExitCode(c * 0x100) == c
  {
  }

  /** A child killed by signal `sig`, with or without a core dump, gives `128 + sig`. */
  lemma ExitCodeOfSignal(sig: int, core: bool)
    requires 1 <= sig <= 0x7E
    ensures ExitCode(sig + (if core then 0x80 else 0)) == 128 + sig
  {
  }

  /** A stopped or continued child (neither exited nor signaled) gives -1. */
  lemma ExitCodeOfStoppedOrContinued(sig: int)
    requires 0 <= sig < 256
    ensures ExitCode(sig * 0x100 + 0x7F) == -1
    ensures ExitCode(0xFFFF) == -1
  {
  }

  // ---------------------------------------------------------------------
  // `initialize_log`

  /** The package name `clap::crate_name!()` expands to. */
  function CrateName(): (n: seq<Byte>)
    ensures 0 !in n && |n| == 4
  {
    AsciiLiteral("rlxc");
    Ascii("rlxc")
  }

  /** The log file: the one given, else "none". */
  function LogFileOrDefault(v: Option<seq<Byte>>): (f: seq<Byte>)
    ensures v.Some? ==> f == v.value
    ensures v.None? ==> f == Ascii("none") && f != [] && 0 !in f
  {
    AsciiLiteral("none");
    if v.Some? then v.value else Ascii("none")
  }

  /** The log level: the one given, else "ERROR". */
  function LogLevelOrDefault(v: Option<seq<Byte>>): (l: seq<Byte>)
    ensures v.Some? ==> l == v.value
    ensures v.None? ==> l == Ascii("ERROR") && 0 !in l
  {
    AsciiLiteral("ERROR");
    if v.Some? then v.value else Ascii("ERROR")
  }

  /** The log prefix "<crate> <subcommand>". */
  function LogPrefix(subcommand: seq<Byte>): (p: seq<Byte>)
    ensures |p| == 5 + |subcommand| && p[..4] == CrateName() && p[4] == SPACE && p[5..] == subcommand
    ensures 0 !in subcommand ==> 0 !in p
  {
    CrateName() + [SPACE] + subcommand
  }

  /** Whether `initialize_log` succeeds: no log file, or NUL-free settings and a non-negative init. */
  predicate LogSucceeds(subcommand: seq<Byte>, logfile: Option<seq<Byte>>, loglevel: Option<seq<Byte>>, ret: I32)
  {
    || LogFileOrDefault(logfile) == []
    || (&& 0 !in LogPrefix(subcommand) && 0 !in LogFileOrDefault(logfile)
        && 0 !in LogLevelOrDefault(loglevel) && ret >= 0)
  }

  /**
   * `initialize_log`: with an empty log file nothing happens; otherwise the
   * prefix, file and level are set in that order (the first with a 0 byte
   * is the error) and `set_log` is called.
   */
  method InitializeLog(native: Native, subcommand: seq<Byte>, logfile: Option<seq<Byte>>,
                       loglevel: Option<seq<Byte>>, ret: I32)
    returns (r: Outcome<Error>)
    modifies native`calls
    ensures r.Pass? <==> LogSucceeds(subcommand, logfile, loglevel, ret)
    ensures PutCount(native.calls) == PutCount(old(native.calls))
    ensures var file, level, prefix := LogFileOrDefault(logfile), LogLevelOrDefault(loglevel), LogPrefix(subcommand);
      && (file == [] ==> native.calls == old(native.calls))
      && (file != [] && 0 in prefix ==>
            r == Fail(Nul(CStringNew(prefix).error)) && native.calls == old(native.calls))
      && (file != [] && 0 !in prefix && 0 in file ==>
            r == Fail(Nul(CStringNew(file).error)) && native.calls == old(native.calls))
      && (file != [] && 0 !in prefix && 0 !in file && 0 in level ==>
            r == Fail(Nul(CStringNew(level).error)) && native.calls == old(native.calls))
      && (file != [] && 0 !in prefix && 0 !in file && 0 !in level ==>
            && native.calls == old(native.calls) + [Call.LogInit(LogRecord(None, None, Some(file), Some(level), Some(prefix), true))]
            && r == CheckStatus(ret, LogInitFailed))
  {
    var file := LogFileOrDefault(logfile);
    if file == [] {
      return Pass;
    }
    var options := new LogOptions();
    var res := options.SetLogPrefix(LogPrefix(subcommand));
    if res.Fail? {
      return Fail(Nul(res.error));
    }
    res := options.SetLogFile(file);
    if res.Fail? {
      return Fail(Nul(res.error));
    }
    res := options.SetLogLevel(LogLevelOrDefault(loglevel));
    if res.Fail? {
      return Fail(Nul(res.error));
    }
    r := SetLog(native, options, ret);
    PutCountAppendOne(old(native.calls), native.calls[|native.calls| - 1]);
  }

  // ---------------------------------------------------------------------
  // `exec`

  /** Every `--env` entry has a `=` and no 0 byte. */
  predicate EnvAccepted(env: seq<seq<Byte>>)
  {
    forall i :: 0 <= i < |env| ==> EQUALS in env[i] && 0 !in env[i]
  }

  /**
   * The option building of `cmd_exec`: each `--env` entry, in order, is
   * split and passed to `set_env_var`, then the user and group ids are set;
   * the first failure stops it. On success the environment list holds the
   * entries exactly as given, and an absent id keeps the `!0` default.
   */
  method ConfigureExec(env: seq<seq<Byte>>, user: Option<seq<Byte>>, group: Option<seq<Byte>>)
    returns (options: AttachOptions, ok: bool)
    ensures fresh(options) && fresh(options.extraEnvVars) && fresh(options.extraKeepEnv) && options.Valid()
    ensures ok <==> EnvAccepted(env) && ParseId(user).Success? && ParseId(group).Success?
    ensures ok ==> options.extraEnvVars.owned == env && options.extraKeepEnv.owned == []
    ensures ok ==> options.raw.uid == IdOrDefault(ParseId(user).value)
    ensures ok ==> options.raw.gid == IdOrDefault(ParseId(group).value)
    ensures ok && user.None? ==> options.raw.uid == ID_DEFAULT
    ensures ok && group.None? ==> options.raw.gid == ID_DEFAULT
  {
    options := new AttachOptions();
    ok := false;
    var i := 0;
    while i < |env|
      invariant 0 <= i <= |env|
      invariant options.Valid() && fresh(options.extraEnvVars) && fresh(options.extraKeepEnv)
      invariant options.extraEnvVars.owned == env[..i] && options.extraKeepEnv.owned == []
      invariant forall j :: 0 <= j < i ==> EQUALS in env[j] && 0 !in env[j]
    {
      var split := SplitEnv(env[i]);
      if split.None? {
        return;
      }
      var res := options.SetEnvVar(split.value.0, split.value.1);
      if res.Fail? {
        return;
      }
      assert env[..i + 1] == env[..i] + [env[i]];
      i := i + 1;
    }
    assert env[..i] == env;
    var uid := ParseId(user);
    if uid.Failure? {
      return;
    }
    options.Uid(uid.value);
    var gid := ParseId(group);
    if gid.Failure? {
      return;
    }
    options.Gid(gid.value);
    ok := true;
  }

  /** The `exec` subcommand accepts its options. */
  predicate ExecAccepted(env: seq<seq<Byte>>, user: Option<seq<Byte>>, group: Option<seq<Byte>>)
  {
    EnvAccepted(env) && ParseId(user).Success? && ParseId(group).Success?
  }

  /** `Lxc::new` yields a container for this name and path. */
  predicate Created(name: seq<Byte>, path: seq<Byte>, returned: Option<HandleId>)
  {
    0 !in name && 0 !in path && returned.Some?
  }

  /**
   * `cmd_exec` (without `may_control_container`): without `-p` it first
   * looks up the default path; every early exit is 1, a completed attach
   * maps the wait status with `ExitCode`, and the container, once created,
   * is put exactly once, as the last call.
   */
  method CmdExec(native: Native, name: seq<Byte>, path: Option<seq<Byte>>, configured: Option<CStr>,
                 command: seq<seq<Byte>>, env: seq<seq<Byte>>, user: Option<seq<Byte>>, group: Option<seq<Byte>>,
                 logfile: Option<seq<Byte>>, loglevel: Option<seq<Byte>>, logRet: I32,
                 returned: Option<HandleId>, running: bool, status: I32)
    returns (code: int)
    requires configured.Some? ==> ValidUtf8(configured.value)
    requires |command| >= 1 && forall i :: 0 <= i < |command| ==> 0 !in command[i]
    modifies native`calls
    ensures old(native.calls) + (if path.Some? then [] else [Call.GetConfigItem(LxcPathKey())]) <= native.calls
    ensures EffectivePath(path, DefaultPathOf(configured)).Failure? ==>
      code == 1 && native.calls == old(native.calls) + (if path.Some? then [] else [Call.GetConfigItem(LxcPathKey())])
    ensures var spath := if path.Some? then path.value else DefaultPathOf(configured);
      var created := spath != [] && LogSucceeds(Ascii("exec"), logfile, loglevel, logRet) && Created(name, spath, returned);
      && PutCount(native.calls) == PutCount(old(native.calls)) + (if created then 1 else 0)
      && (created ==> |native.calls| > 0 && native.calls[|native.calls| - 1] == Call.ContainerPut(returned.value))
      && (created && running && ExecAccepted(env, user, group) ==> code == ExitCode(status))
      && (!(created && running && ExecAccepted(env, user, group)) ==> code == 1)
  {
    var spath := path;
    if path.None? {
      ghost var c0 := native.calls;
      var p := GetDefaultPath(native, configured);
      PutCountAppendOne(c0, Call.GetConfigItem(LxcPathKey()));
      spath := Some(p);
    }
    if spath.value == [] {
      return 1;
    }
    code := CreateAndRun(native, name, spath.value, command, env, user, group, logfile, loglevel, logRet,
                         returned, running, status);
  }

  /**
   * The part of `cmd_exec` that follows the path check: log setup,
   * `Lxc::new`, then `RunInContainer`.
   */
  method CreateAndRun(native: Native, name: seq<Byte>, spath: seq<Byte>,
                      command: seq<seq<Byte>>, env: seq<seq<Byte>>, user: Option<seq<Byte>>, group: Option<seq<Byte>>,
                      logfile: Option<seq<Byte>>, loglevel: Option<seq<Byte>>, logRet: I32,
                      returned: Option<HandleId>, running: bool, status: I32)
    returns (code: int)
    requires |command| >= 1 && forall i :: 0 <= i < |command| ==> 0 !in command[i]
    modifies native`calls
    ensures old(native.calls) <= native.calls
    ensures var created := LogSucceeds(Ascii("exec"), logfile, loglevel, logRet) && Created(name, spath, returned);
      && PutCount(native.calls) == PutCount(old(native.calls)) + (if created then 1 else 0)
      && (created ==> |native.calls| > 0 && native.calls[|native.calls| - 1] == Call.ContainerPut(returned.value))
      && (created && running && ExecAccepted(env, user, group) ==> code == ExitCode(status))
      && (!(created && running && ExecAccepted(env, user, group)) ==> code == 1)
  {
    AsciiLiteral("exec");
    var log := InitializeLog(native, Ascii("exec"), logfile, loglevel, logRet);
    if log.Fail? {
      return 1;
    }
    ghost var c1 := native.calls;
    var container := Lxc.New(native, name, spath, returned);
    if container.Failure? {
      if native.calls != c1 {
        PutCountAppendOne(c1, Call.ContainerNew(name, spath));
      }
      return 1;
    }
    PutCountAppendOne(c1, Call.ContainerNew(name, spath));
    code := RunInContainer(container.value, command, env, user, group, running, status);
  }

  /**
   * The part of `cmd_exec` that follows `Lxc::new`: a stopped container or
   * rejected options give 1, otherwise the attach's wait status is mapped;
   * either way the handle is put, as the last call.
   */
  method RunInContainer(c: Lxc, command: seq<seq<Byte>>, env: seq<seq<Byte>>, user: Option<seq<Byte>>,
                        group: Option<seq<Byte>>, running: bool, status: I32)
    returns (code: int)
    requires c.Valid()
    requires |command| >= 1 && forall i :: 0 <= i < |command| ==> 0 !in command[i]
    modifies c.native`calls, c`released
    ensures old(c.native.calls) <= c.native.calls
    ensures PutCount(c.native.calls) == PutCount(old(c.native.calls)) + 1
    ensures |c.native.calls| > 0 && c.native.calls[|c.native.calls| - 1] == Call.ContainerPut(c.handle)
    ensures running && ExecAccepted(env, user, group) ==> code == ExitCode(status)
    ensures !(running && ExecAccepted(env, user, group)) ==> code == 1
  {
    var native := c.native;
    ghost var c2 := native.calls;
    var isRunning := c.IsRunning(running);
    PutCountAppendOne(c2, Call.IsRunning(c.handle));
    if !isRunning {
      code := 1;
    } else {
      var options, ok := ConfigureExec(env, user, group);
      if !ok {
        code := 1;
      } else {
        ghost var c3 := native.calls;
        var ret := c.AttachRunWait(options, command[0], command, status);
        PutCountAppendOne(c3, native.calls[|native.calls| - 1]);
        code := ExitCode(ret);
      }
    }
    ghost var c4 := native.calls;
    c.Drop();
    PutCountAppendOne(c4, Call.ContainerPut(c.handle));
  }

  // ---------------------------------------------------------------------
  // `stop`

  /**
   * The argument checks of `cmd_stop`, in the order it makes them: the
   * path, then the name guard, then the timeout.
   */
  function StopArguments(path: Option<seq<Byte>>, defaultPath: seq<Byte>, all: bool, name: seq<Byte>,
                         timeout: Option<seq<Byte>>): (r: Result<(seq<Byte>, Option<Duration>), CliError>)
    ensures EffectivePath(path, defaultPath).Failure? ==> r == Failure(MissingPath)
    ensures EffectivePath(path, defaultPath).Success? && StopGuard(all, name).Fail? ==> r == Failure(NothingToStop)
    ensures EffectivePath(path, defaultPath).Success? && StopGuard(all, name).Pass? ==>
      && (r.Success? <==> ParseTimeout(timeout).Success?)
      && (r.Success? ==> r.value == (EffectivePath(path, defaultPath).value, ParseTimeout(timeout).value))
      && (r.Failure? ==> r == Failure(ParseTimeout(timeout).error))
  {
    match EffectivePath(path, defaultPath)
    case Failure(e) => Failure(e)
    case Success(spath) =>
      match StopGuard(all, name)
      case Fail(e) => Failure(e)
      case Pass =>
        match ParseTimeout(timeout)
        case Failure(e) => Failure(e)
        case Success(t) => Success((spath, t))
  }

  /**
   * The `stop_function` closure of `cmd_stop` (without
   * `may_control_container`): a container that is not running is left
   * alone, `--force` stops it, otherwise it is shut down with the timeout;
   * the handle is put exactly once, last, whenever it was created.
   */
  method StopOne(native: Native, name: seq<Byte>, path: seq<Byte>, force: bool, timeout: Option<Duration>,
                 returned: Option<HandleId>, running: bool, succeeded: bool)
    returns (r: Outcome<Error>)
    modifies native`calls
    ensures !Created(name, path, returned) ==> r.Fail? && PutCount(native.calls) == PutCount(old(native.calls))
    ensures Created(name, path, returned) ==>
      var h := returned.value;
      && native.calls == old(native.calls) + [Call.ContainerNew(name, path), Call.IsRunning(h)]
           + (if !running then []
              else if force then [Call.Stop(h)]
              else if CheckedShutdownTimeout(timeout).Success? then [Call.Shutdown(h, CheckedShutdownTimeout(timeout).value)]
              else [])
           + [Call.ContainerPut(h)]
      && r == (if !running then Pass
               else if force then CheckBool(succeeded, StopFailed)
               else if CheckedShutdownTimeout(timeout).Success? then CheckBool(succeeded, ShutdownFailed)
               else Fail(TimeoutTooLarge))
      && PutCount(native.calls) == PutCount(old(native.calls)) + 1
  {
    var container := Lxc.New(native, name, path, returned);
    if container.Failure? {
      if native.calls != old(native.calls) {
        PutCountAppendOne(old(native.calls), Call.ContainerNew(name, path));
      }
      return Fail(container.error);
    }
    var c := container.value;
    PutCountAppendOne(old(native.calls), Call.ContainerNew(name, path));
    ghost var c1 := native.calls;
    var isRunning := c.IsRunning(running);
    PutCountAppendOne(c1, Call.IsRunning(c.handle));
    ghost var c2 := native.calls;
    if !isRunning {
      r := Pass;
    } else if force {
      r := c.Stop(succeeded);
      PutCountAppendOne(c2, Call.Stop(c.handle));
    } else {
      r := c.Shutdown(timeout, succeeded);
      if CheckedShutdownTimeout(timeout).Success? {
        PutCountAppendOne(c2, Call.Shutdown(c.handle, CheckedShutdownTimeout(timeout).value));
      }
    }
    ghost var c3 := native.calls;
    c.Drop();
    PutCountAppendOne(c3, Call.ContainerPut(c.handle));
  }
}
