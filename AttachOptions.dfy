/**
 * The attach-options builder of `src/lxc/attach_options.rs`. It accumulates
 * scalar settings directly in the native record `raw`, owns two `CStringVec`
 * lists and an optional working directory, borrows up to four file handles,
 * and `finish` points the record's pointer and descriptor fields at that
 * storage right before the record is handed to liblxc.
 */
module Attach {

  import opened Wrappers
  import opened Text
  import opened Ffi

  // Flag bits of liblxc's `attach_options.h`.
  const LXC_ATTACH_MOVE_TO_CGROUP: bv32 := 0x0000_0001
  const LXC_ATTACH_DROP_CAPABILITIES: bv32 := 0x0000_0002
  const LXC_ATTACH_SET_PERSONALITY: bv32 := 0x0000_0004
  const LXC_ATTACH_LSM_EXEC: bv32 := 0x0000_0008
  const LXC_ATTACH_REMOUNT_PROC_SYS: bv32 := 0x0001_0000
  const LXC_ATTACH_LSM_NOW: bv32 := 0x0002_0000
  const LXC_ATTACH_NO_NEW_PRIVS: bv32 := 0x0004_0000
  const LXC_ATTACH_TERMINAL: bv32 := 0x0008_0000
  const LXC_ATTACH_DEFAULT: bv32 := 0x0000_FFFF

  /** Linux's `EBADF`; an unset log handle becomes descriptor `-EBADF`. */
  const EBADF: int := 9

  type I32 = x: int | -0x8000_0000 <= x < 0x8000_0000
  type I64 = x: int | -0x8000_0000_0000_0000 <= x < 0x8000_0000_0000_0000
  type U32 = x: int | 0 <= x < 0x1_0000_0000

  /** `!0` as a `uid_t`/`gid_t`: "use the container's init id". */
  const ID_DEFAULT: U32 := 0xFFFF_FFFF
  /** `!0` as a `c_long`: "autodetect the personality". */
  const PERSONALITY_DEFAULT: I64 := -1

  /** `lxc_attach_env_policy_t`: KEEP_ENV is 0, CLEAR_ENV is 1. */
  datatype EnvPolicy = KeepEnv | ClearEnv

  /** A borrowed `&dyn AsRawFd`, known by its raw descriptor. */
  datatype FileHandle = FileHandle(fd: I32)

  /**
   * The fields of `lxc_attach_options_t` the builder writes. A pointer field
   * is `None` for NULL; `initialCwd` otherwise holds the bytes of the
   * builder's own buffer, the two lists their `char **` views.
   */
  datatype AttachRecord = AttachRecord(
    attachFlags: bv32,
    namespaces: I32,
    personality: I64,
    initialCwd: Option<CStr>,
    uid: U32,
    gid: U32,
    envPolicy: EnvPolicy,
    extraEnvVars: Option<seq<Ptr>>,
    extraKeepEnv: Option<seq<Ptr>>,
    stdinFd: I32,
    stdoutFd: I32,
    stderrFd: I32,
    logFd: I32)

  /** `std::mem::zeroed()`. */
  const ZEROED := AttachRecord(0, 0, 0, None, 0, 0, KeepEnv, None, None, 0, 0, 0, 0)

  /** `attach_flags |= flag` when `on`, else `attach_flags &= !flag`. */
  function ApplyFlag(flags: bv32, flag: bv32, on: bool): (r: bv32)
  {
    if on then flags | flag else flags & !flag
  }

  /** Setting `flag` sets its bits and keeps every other bit. */
  lemma ApplyFlagSets(flags: bv32, flag: bv32)
    ensures ApplyFlag(flags, flag, true) & flag == flag
    ensures ApplyFlag(flags, flag, true) & !flag == flags & !flag
  {
  }

  /** Clearing `flag` clears its bits and keeps every other bit. */
  lemma ApplyFlagClears(flags: bv32, flag: bv32)
    ensures ApplyFlag(flags, flag, false) & flag == 0
    ensures ApplyFlag(flags, flag, false) & !flag == flags & !flag
  {
  }

  /** Repeating the same flag update changes nothing more. */
  lemma ApplyFlagIdempotent(flags: bv32, flag: bv32, on: bool)
    ensures ApplyFlag(ApplyFlag(flags, flag, on), flag, on) == ApplyFlag(flags, flag, on)
  {
    if on {
      assert (flags | flag) | flag == flags | flag;
    } else {
      assert (flags & !flag) & !flag == flags & !flag;
    }
  }

  /** Setting a flag and clearing it again restores the bits it did not hold. */
  lemma ApplyFlagUndo(flags: bv32, flag: bv32)
    ensures ApplyFlag(ApplyFlag(flags, flag, true), flag, false) == flags & !flag
  {
  }

  /** `v.unwrap_or(!0)` for a uid or gid. */
  function IdOrDefault(v: Option<U32>): (r: U32)
    ensures v.Some? ==> r == v.value
    ensures v.None? ==> r == ID_DEFAULT
  {
    if v.Some? then v.value else ID_DEFAULT
  }

  /** `v.unwrap_or(!0)` for a personality. */
  function PersonalityOrDefault(v: Option<I64>): (r: I64)
    ensures v.Some? ==> r == v.value
    ensures v.None? ==> r == PERSONALITY_DEFAULT
  {
    if v.Some? then v.value else PERSONALITY_DEFAULT
  }

  /** `map(|f| f.as_raw_fd()).unwrap_or(d)`. */
  function FdOr(h: Option<FileHandle>, d: I32): (fd: I32)
    ensures h.Some? ==> fd == h.value.fd
    ensures h.None? ==> fd == d
  {
    if h.Some? then h.value.fd else d
  }

  /** `format!("{}={}", name, value)`. */
  function EnvAssignment(name: seq<Byte>, value: seq<Byte>): (e: seq<Byte>)
    ensures |e| == |name| + 1 + |value|
    ensures e[..|name|] == name && e[|name|] == 0x3D && e[|name| + 1..] == value
  {
    name + [0x3D] + value
  }

  /** The assignment of two texts is a text. */
  lemma EnvAssignmentIsText(name: seq<Byte>, value: seq<Byte>)
    requires ValidUtf8(name) && ValidUtf8(value)
    ensures ValidUtf8(EnvAssignment(name, value))
  {
    AsciiIsUtf8([0x3D]);
    ValidUtf8Concat(name, [0x3D]);
    ValidUtf8Concat(name + [0x3D], value);
  }

  class AttachOptions {
    var raw: AttachRecord
    const extraEnvVars: CStringVec
    const extraKeepEnv: CStringVec
    var initialCwd: Option<CStr>
    var stdin: Option<FileHandle>
    var stdout: Option<FileHandle>
    var stderr: Option<FileHandle>
    var logFile: Option<FileHandle>

    /** The two lists are separate objects, as two fields of a Rust struct are. */
    ghost predicate Valid()
      reads this
    {
      extraEnvVars != extraKeepEnv
    }

    /** The record `finish` produces from the current state of the builder. */
    ghost function Finished(): AttachRecord
      reads this, extraEnvVars, extraKeepEnv
    {
      raw.(extraEnvVars := Some(View(|extraEnvVars.owned|)),
           extraKeepEnv := Some(View(|extraKeepEnv.owned|)),
           stdinFd := FdOr(stdin, 0),
           stdoutFd := FdOr(stdout, 1),
           stderrFd := FdOr(stderr, 2),
           logFd := FdOr(logFile, -EBADF),
           initialCwd := initialCwd)
    }

    /** `AttachOptions::new`: a zeroed record with the defaults of `set_default`. */
    constructor ()
      ensures Valid() && fresh(extraEnvVars) && fresh(extraKeepEnv)
      ensures raw == ZEROED.(attachFlags := LXC_ATTACH_DEFAULT, namespaces := -1,
                             personality := -1, uid := ID_DEFAULT, gid := ID_DEFAULT,
                             envPolicy := EnvPolicy.KeepEnv)
      ensures extraEnvVars.owned == [] && extraKeepEnv.owned == []
      ensures initialCwd == None
      ensures stdin == None && stdout == None && stderr == None && logFile == None
    {
      raw := ZEROED;
      extraEnvVars := new CStringVec();
      extraKeepEnv := new CStringVec();
      initialCwd := None;
      stdin, stdout, stderr, logFile := None, None, None, None;
      new;
      SetDefault();
    }

    /** `set_default`. */
    method SetDefault()
      modifies this`raw
      ensures raw == old(raw).(attachFlags := LXC_ATTACH_DEFAULT, namespaces := -1,
                               personality := -1, uid := ID_DEFAULT, gid := ID_DEFAULT,
                               envPolicy := EnvPolicy.KeepEnv)
    {
      raw := raw.(attachFlags := LXC_ATTACH_DEFAULT, namespaces := -1, personality := -1,
                  uid := ID_DEFAULT, gid := ID_DEFAULT, envPolicy := EnvPolicy.KeepEnv);
    }

    /** `attach_flag`: sets or clears exactly the bits of `flag`. */
    method AttachFlag(flag: bv32, on: bool)
      modifies this`raw
      ensures raw == old(raw).(attachFlags := ApplyFlag(old(raw).attachFlags, flag, on))
    {
      if on {
        raw := raw.(attachFlags := raw.attachFlags | flag);
      } else {
        raw := raw.(attachFlags := raw.attachFlags & !flag);
      }
    }

    method MoveToCgroup(on: bool)
      modifies this`raw
      ensures raw == old(raw).(attachFlags := ApplyFlag(old(raw).attachFlags, LXC_ATTACH_MOVE_TO_CGROUP, on))
    {
      AttachFlag(LXC_ATTACH_MOVE_TO_CGROUP, on);
    }

    method DropCapabilities(on: bool)
      modifies this`raw
      ensures raw == old(raw).(attachFlags := ApplyFlag(old(raw).attachFlags, LXC_ATTACH_DROP_CAPABILITIES, on))
    {
      AttachFlag(LXC_ATTACH_DROP_CAPABILITIES, on);
    }

    method SetPersonality(on: bool)
      modifies this`raw
      ensures raw == old(raw).(attachFlags := ApplyFlag(old(raw).attachFlags, LXC_ATTACH_SET_PERSONALITY, on))
    {
      AttachFlag(LXC_ATTACH_SET_PERSONALITY, on);
    }

    method LsmExec(on: bool)
      modifies this`raw
      ensures raw == old(raw).(attachFlags := ApplyFlag(old(raw).attachFlags, LXC_ATTACH_LSM_EXEC, on))
    {
      AttachFlag(LXC_ATTACH_LSM_EXEC, on);
    }

    method RemountProcSys(on: bool)
      modifies this`raw
      ensures raw == old(raw).(attachFlags := ApplyFlag(old(raw).attachFlags, LXC_ATTACH_REMOUNT_PROC_SYS, on))
    {
      AttachFlag(LXC_ATTACH_REMOUNT_PROC_SYS, on);
    }

    method LsmNow(on: bool)
      modifies this`raw
      ensures raw == old(raw).(attachFlags := ApplyFlag(old(raw).attachFlags, LXC_ATTACH_LSM_NOW, on))
    {
      AttachFlag(LXC_ATTACH_LSM_NOW, on);
    }

    method NoNewPrivs(on: bool)
      modifies this`raw
      ensures raw == old(raw).(attachFlags := ApplyFlag(old(raw).attachFlags, LXC_ATTACH_NO_NEW_PRIVS, on))
    {
      AttachFlag(LXC_ATTACH_NO_NEW_PRIVS, on);
    }

    method Terminal(on: bool)
      modifies this`raw
      ensures raw == old(raw).(attachFlags := ApplyFlag(old(raw).attachFlags, LXC_ATTACH_TERMINAL, on))
    {
      AttachFlag(LXC_ATTACH_TERMINAL, on);
    }

    /** `namespaces`. */
    method Namespaces(v: I32)
      modifies this`raw
      ensures raw == old(raw).(namespaces := v)
    {
      raw := raw.(namespaces := v);
    }

    /** `personality`: `None` autodetects. */
    method Personality(v: Option<I64>)
      modifies this`raw
      ensures raw == old(raw).(personality := PersonalityOrDefault(v))
    {
      raw := raw.(personality := if v.Some? then v.value else PERSONALITY_DEFAULT);
    }

    /** `set_initial_cwd`: fails, changing nothing, on a 0 byte. */
    method SetInitialCwd(v: seq<Byte>) returns (r: Outcome<NulError>)
      modifies this`initialCwd
      ensures r.Pass? <==> 0 !in v
      ensures r.Pass? ==> initialCwd == Some(v)
      ensures r.Fail? ==> initialCwd == old(initialCwd) && r.error == CStringNew(v).error
    {
      var c := CStringNew(v);
      if c.Failure? {
        return Fail(c.error);
      }
      initialCwd := Some(c.value);
      r := Pass;
    }

    /** `unset_initial_cwd`. */
    method UnsetInitialCwd()
      modifies this`initialCwd
      ensures initialCwd == None
    {
      initialCwd := None;
    }

    /** `uid`: `None` keeps liblxc's default. */
    method Uid(v: Option<U32>)
      modifies this`raw
      ensures raw == old(raw).(uid := IdOrDefault(v))
    {
      raw := raw.(uid := if v.Some? then v.value else ID_DEFAULT);
    }

    /** `gid`: `None` keeps liblxc's default. */
    method Gid(v: Option<U32>)
      modifies this`raw
      ensures raw == old(raw).(gid := IdOrDefault(v))
    {
      raw := raw.(gid := if v.Some? then v.value else ID_DEFAULT);
    }

    /** `keep_env`. */
    method KeepEnv()
      modifies this`raw
      ensures raw == old(raw).(envPolicy := EnvPolicy.KeepEnv)
    {
      raw := raw.(envPolicy := EnvPolicy.KeepEnv);
    }

    /** `clear_env`. */
    method ClearEnv()
      modifies this`raw
      ensures raw == old(raw).(envPolicy := EnvPolicy.ClearEnv)
    {
      raw := raw.(envPolicy := EnvPolicy.ClearEnv);
    }

    /** `set_keep_env`: `keep_env` when `on`, else `clear_env`. */
    method SetKeepEnv(on: bool)
      modifies this`raw
      ensures raw == old(raw).(envPolicy := if on then EnvPolicy.KeepEnv else EnvPolicy.ClearEnv)
    {
      if on {
        KeepEnv();
      } else {
        ClearEnv();
      }
    }

    /** `stdin`: stores the handle and nothing else. */
    method Stdin(file: FileHandle)
      modifies this`stdin
      ensures stdin == Some(file)
    {
      stdin := Some(file);
    }

    /** `stdout`: stores the handle and nothing else. */
    method Stdout(file: FileHandle)
      modifies this`stdout
      ensures stdout == Some(file)
    {
      stdout := Some(file);
    }

    /** `stderr`: stores the handle and nothing else. */
    method Stderr(file: FileHandle)
      modifies this`stderr
      ensures stderr == Some(file)
    {
      stderr := Some(file);
    }

    /** `log_file`: stores the handle and nothing else. */
    method LogFile(file: FileHandle)
      modifies this`logFile
      ensures logFile == Some(file)
    {
      logFile := Some(file);
    }

    /** `set_env_var`: appends `name=value`, or fails, changing nothing, on a 0 byte. */
    method SetEnvVar(name: seq<Byte>, value: seq<Byte>) returns (r: Outcome<NulError>)
      modifies extraEnvVars`owned
      ensures r.Pass? <==> 0 !in EnvAssignment(name, value)
      ensures r.Pass? ==> extraEnvVars.owned == old(extraEnvVars.owned) + [EnvAssignment(name, value)]
      ensures r.Fail? ==> extraEnvVars.owned == old(extraEnvVars.owned)
      ensures r.Fail? ==> r.error == CStringNew(EnvAssignment(name, value)).error
      ensures r.Pass? && ValidUtf8(name) && ValidUtf8(value) ==>
        ValidUtf8(extraEnvVars.owned[|extraEnvVars.owned| - 1])
    {
      if ValidUtf8(name) && ValidUtf8(value) {
        EnvAssignmentIsText(name, value);
      }
      var c := CStringNew(name + [0x3D] + value);
      if c.Failure? {
        return Fail(c.error);
      }
      extraEnvVars.Push(c.value);
      r := Pass;
    }

    /** `keep_env_var`: appends `name`, or fails, changing nothing, on a 0 byte. */
    method KeepEnvVar(name: seq<Byte>) returns (r: Outcome<NulError>)
      modifies extraKeepEnv`owned
      ensures r.Pass? <==> 0 !in name
      ensures r.Pass? ==> extraKeepEnv.owned == old(extraKeepEnv.owned) + [name]
      ensures r.Fail? ==> extraKeepEnv.owned == old(extraKeepEnv.owned)
      ensures r.Fail? ==> r.error == CStringNew(name).error
    {
      var c := CStringNew(name);
      if c.Failure? {
        return Fail(c.error);
      }
      extraKeepEnv.Push(c.value);
      r := Pass;
    }

    /**
     * `finish`: rebuilds both views and points the record at them, at the
     * working directory (NULL when unset) and at the supplied descriptors
     * or their defaults 0, 1, 2 and `-EBADF`.
     */
    method Finish()
      requires Valid()
      modifies this`raw, extraEnvVars`ffi, extraKeepEnv`ffi
      ensures raw == old(Finished()) && raw == Finished()
      ensures extraEnvVars.ffi == View(|extraEnvVars.owned|)
      ensures extraKeepEnv.ffi == View(|extraKeepEnv.owned|)
    {
      var envView := extraEnvVars.GetRaw();
      var keepView := extraKeepEnv.GetRaw();
      ViewIsUnique(envView, |extraEnvVars.owned|);
      ViewIsUnique(keepView, |extraKeepEnv.owned|);
      raw := raw.(extraEnvVars := Some(envView), extraKeepEnv := Some(keepView));
      raw := raw.(stdinFd := if stdin.Some? then stdin.value.fd else 0);
      raw := raw.(stdoutFd := if stdout.Some? then stdout.value.fd else 1);
      raw := raw.(stderrFd := if stderr.Some? then stderr.value.fd else 2);
      raw := raw.(logFd := if logFile.Some? then logFile.value.fd else -EBADF);
      raw := raw.(initialCwd := initialCwd);
    }

    /**
     * `raw`: finishes and returns the record. On a builder that is already
     * finished and unmodified since, it returns the same record again.
     */
    method Raw() returns (r: AttachRecord)
      requires Valid()
      modifies this`raw, extraEnvVars`ffi, extraKeepEnv`ffi
      ensures r == raw && r == old(Finished())
      ensures old(raw) == old(Finished()) ==> r == old(raw)
    {
      Finish();
      r := raw;
    }
  }
}
