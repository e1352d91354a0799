/**
 * The container handle and free functions of `src/lxc/mod.rs`.
 *
 * liblxc itself is replaced by a fake: a `Native` object that logs every
 * native call with its arguments, and whose return values are parameters of
 * the operations. Native string arrays live in the fake allocator `Heap`.
 */
module Lxc {

  import opened Wrappers
  import opened Text
  import opened NativeHeap
  import opened Ffi
  import opened Attach
  import opened Log

  /** A non-NULL `struct lxc_container *`. */
  type HandleId = nat

  type U64 = x: int | 0 <= x < 0x1_0000_0000_0000_0000

  /** `std::time::Duration`: whole seconds and a sub-second part. */
  datatype Duration = Duration(secs: U64, nanos: nat)

  /** `Duration::from_secs`. */
  function FromSecs(n: U64): (d: Duration)
    ensures d.secs == n && d.nanos == 0
  {
    Duration(n, 0)
  }

  /** The failures the module reports (`anyhow` errors, by their message). */
  datatype Error =
    | Nul(nul: NulError)        // a name, path or key with a 0 byte
    | AllocFailed               // "failed to allocate new container"
    | ListFailed                // "failed to list containers"
    | ConfigItemNotFound(key: seq<Byte>)
    | LogInitFailed             // "failed to initialize log"
    | StartFailed               // "failed to start container"
    | TimeoutTooLarge           // "timeout too large"
    | ShutdownFailed            // "failed to shutdown container"
    | StopFailed                // `stop` also says "failed to start container"
    | TerminalFailed            // "failed to attach to terminal"

  /** One call into liblxc, with the arguments it received. */
  datatype Call =
    | ContainerNew(name: CStr, path: CStr)
    | ContainerPut(handle: HandleId)
    | GetVersion                       // `lxc_get_version`
    | GetConfigItem(key: CStr)         // `lxc_get_global_config_item`
    | ListAll(lxcpath: CStr)           // `list_all_containers`
    | LogInit(log: LogRecord)
    | Start(handle: HandleId, useinit: int, startArgv: Option<seq<Option<CStr>>>)
    | Shutdown(handle: HandleId, timeout: I32)
    | Stop(handle: HandleId)
    | MayControl(handle: HandleId)
    | IsRunning(handle: HandleId)
    | AttachRunWait(handle: HandleId, options: AttachRecord, program: CStr, argv: seq<Option<CStr>>)
    | State(handle: HandleId)
    | GetInterfaces(handle: HandleId)
    | GetIps(handle: HandleId, iface: CStr, family: CStr, scope: int)
    | WantDaemonize(handle: HandleId, on: bool)
    | Console(handle: HandleId, ttynum: int, stdinFd: int, stdoutFd: int, stderrFd: int, escape: int)

  /** The number of `lxc_container_put` calls in a log. */
  function PutCount(calls: seq<Call>): nat
  {
    if |calls| == 0 then 0
    else (if calls[0].ContainerPut? then 1 else 0) + PutCount(calls[1..])
  }

  lemma {:induction false} PutCountAppend(a: seq<Call>, b: seq<Call>)
    ensures PutCount(a + b) == PutCount(a) + PutCount(b)
    decreases |a|
  {
    if |a| == 0 {
      assert a + b == b;
    } else {
      assert (a + b)[1..] == a[1..] + b;
      PutCountAppend(a[1..], b);
    }
  }

  /** Appending one call adds one put exactly when that call is a put. */
  lemma PutCountAppendOne(a: seq<Call>, c: Call)
    ensures PutCount(a + [c]) == PutCount(a) + (if c.ContainerPut? then 1 else 0)
  {
    PutCountAppend(a, [c]);
    assert [c][1..] == [];
  }

  /** A log holds no put exactly when none of its calls is one. */
  lemma {:induction false} PutCountZero(calls: seq<Call>)
    ensures PutCount(calls) == 0 <==> forall i :: 0 <= i < |calls| ==> !calls[i].ContainerPut?
    decreases |calls|
  {
    if |calls| > 0 {
      PutCountZero(calls[1..]);
      assert forall i :: 1 <= i < |calls| ==> calls[i] == calls[1..][i - 1];
    }
  }

  /** The fake liblxc: the heap it allocates from and the log of calls made into it. */
  class Native {
    const heap: Heap
    var calls: seq<Call>

    constructor (heap: Heap)
      ensures this.heap == heap && calls == []
    {
      this.heap := heap;
      calls := [];
    }

    /** Issues one native call. */
    method Issue(c: Call)
      modifies this`calls
      ensures calls == old(calls) + [c]
    {
      calls := calls + [c];
    }
  }

  // ---------------------------------------------------------------------
  // Translations of native results

  /** A native boolean as a result: `false` is the error `e`. */
  function CheckBool(ok: bool, e: Error): (r: Outcome<Error>)
    ensures r.Pass? <==> ok
    ensures r.Fail? ==> r.error == e
  {
    if ok then Pass else Fail(e)
  }

  /** A native status as a result: a negative value is the error `e`. */
  function CheckStatus(ret: int, e: Error): (r: Outcome<Error>)
    ensures r.Pass? <==> ret >= 0
    ensures r.Fail? ==> r.error == e
  {
    if ret < 0 then Fail(e) else Pass
  }

  /** `useinit` of `start`: 1 exactly for a stub (`lxc.execute.cmd`) start. */
  function UseInit(stub: bool): (useinit: int)
    ensures useinit == 1 <==> stub
    ensures useinit == 0 <==> !stub
  {
    if stub then 1 else 0
  }

  /**
   * The `argv` that `start` hands to liblxc, as written: an empty list gets a
   * NULL pushed, so `args` is never empty and the native call always
   * receives NULL, whatever the command.
   */
  function StartArgv(argv: seq<CStr>): (passed: Option<seq<Option<CStr>>>)
    ensures passed == None
  {
    var args := Entries(argv);
    var args' := if |args| == 0 then [None] else args;
    if |args'| == 0 then Some(args') else None
  }

  /** A command given to `start` is lost. */
  lemma StartArgvDropsCommand()
    ensures StartArgv([Ascii("/bin/sh")]) == None
  {
    AsciiLiteral("/bin/sh");
  }

  /**
   * The `argv` `start` evidently means to pass: NULL for "use the configured
   * command", otherwise the command as a NULL-terminated array.
   */
  function IntendedStartArgv(argv: seq<CStr>): (passed: Option<seq<Option<CStr>>>)
    ensures passed.None? <==> argv == []
    ensures passed.Some? ==> |passed.value| == |argv| + 1 && passed.value[|argv|] == None
    ensures passed.Some? ==> forall i :: 0 <= i < |argv| ==> passed.value[i] == Some(argv[i])
  {
    if argv == [] then None else Some(Entries(argv) + [None])
  }

  /** `!(0 as c_int)`, i.e. -1. */
  const NOT_ZERO_C_INT: I32 := -1

  /** `x as u64` for a `c_int`: two's complement sign extension. */
  function I32AsU64(x: I32): (r: U64)
    ensures x >= 0 ==> r == x
    ensures x < 0 ==> r == x + 0x1_0000_0000_0000_0000
  {
    if x < 0 then x + 0x1_0000_0000_0000_0000 else x
  }

  /** `x as c_int` for a `u64`: keeps the low 32 bits, read as two's complement. */
  function U64AsI32(x: U64): (r: I32)
    ensures (r - x) % 0x1_0000_0000 == 0
    ensures x < 0x8000_0000 ==> r == x
  {
    var low := x % 0x1_0000_0000;
    if low < 0x8000_0000 then low else low - 0x1_0000_0000
  }

  /**
   * The timeout `shutdown` passes, as written: `None` waits forever (-1);
   * `Some(d)` is checked against `(!(0 as c_int)) as u64`, which is
   * `u64::MAX`, so the check never rejects and the seconds are truncated.
   */
  function ShutdownTimeout(timeout: Option<Duration>): (r: Result<I32, Error>)
    ensures r.Success?
    ensures timeout.None? ==> r.value == -1
    ensures timeout.Some? ==> r.value == U64AsI32(timeout.value.secs)
  {
    match timeout
    case None => Success(-1)
    case Some(to) =>
      var secs := to.secs;
      if secs > I32AsU64(NOT_ZERO_C_INT) then Failure(TimeoutTooLarge)
      else Success(U64AsI32(secs))
  }

  /** Timeouts past `c_int::MAX` wrap instead of being rejected. */
  lemma ShutdownTimeoutWraps()
    ensures ShutdownTimeout(Some(FromSecs(0x1_0000_0005))) == Success(5)
    ensures ShutdownTimeout(Some(FromSecs(0x8000_0000))) == Success(-0x8000_0000)
  {
  }

  /** The evidently intended conversion: seconds beyond `c_int::MAX` are an error. */
  function CheckedShutdownTimeout(timeout: Option<Duration>): (r: Result<I32, Error>)
    ensures r.Success? <==> timeout.None? || timeout.value.secs < 0x8000_0000
    ensures r.Success? && timeout.None? ==> r.value == -1
    ensures r.Success? && timeout.Some? ==> r.value == timeout.value.secs
    ensures r.Failure? ==> r.error == TimeoutTooLarge
  {
    match timeout
    case None => Success(-1 as I32)
    case Some(to) => if to.secs > 0x7FFF_FFFF then Failure(TimeoutTooLarge) else Success(to.secs as I32)
  }

  /** The two conversions agree on every timeout that fits a `c_int`. */
  lemma ShutdownTimeoutsAgree(timeout: Option<Duration>)
    requires timeout.Some? ==> timeout.value.secs < 0x8000_0000
    ensures ShutdownTimeout(timeout) == CheckedShutdownTimeout(timeout)
  {
  }

  /**
   * `to_str().unwrap_or(fallback)` on a string liblxc returns: the string
   * when it is UTF-8, else the fallback.
   */
  function Utf8Or(native: CStr, fallback: seq<Byte>): (s: seq<Byte>)
    requires ValidUtf8(fallback)
    ensures ValidUtf8(s)
    ensures ValidUtf8(native) ==> s == native
    ensures !ValidUtf8(native) ==> s == fallback
  {
    match ToStr(native)
    case Some(t) => t
    case None => fallback
  }

  /** The text of a `state` answer: the state name, or "UNKNOWN" when it is not UTF-8. */
  function StateText(native: CStr): (s: seq<Byte>)
    ensures ValidUtf8(native) ==> s == native
    ensures !ValidUtf8(native) ==> s == Ascii("UNKNOWN")
  {
    AsciiLiteral("UNKNOWN");
    Utf8Or(native, Ascii("UNKNOWN"))
  }

  /** The text of a `lxc_get_version` answer: the version, or "unknown" when it is not UTF-8. */
  function VersionText(native: CStr): (v: seq<Byte>)
    ensures ValidUtf8(native) ==> v == native
    ensures !ValidUtf8(native) ==> v == Ascii("unknown")
  {
    AsciiLiteral("unknown");
    Utf8Or(native, Ascii("unknown"))
  }

  /**
   * The result of `get_global_config_item` for the value liblxc returns
   * for `key`: the value, or an error for NULL. The value is unwrapped, so
   * one that is not UTF-8 would panic.
   */
  function ConfigItem(key: seq<Byte>, native: Option<CStr>): (r: Result<seq<Byte>, Error>)
    requires native.Some? ==> ValidUtf8(native.value)
    ensures r.Success? <==> native.Some?
    ensures r.Success? ==> r.value == native.value
    ensures r.Failure? ==> r.error == ConfigItemNotFound(key)
  {
    if native.None? then Failure(ConfigItemNotFound(key)) else Success(ToStr(native.value).value)
  }

  /** The configuration key of the default container path. */
  function LxcPathKey(): (k: seq<Byte>)
    ensures 0 !in k && |k| == 11
  {
    AsciiLiteral("lxc.lxcpath");
    Ascii("lxc.lxcpath")
  }

  /** The result of `get_default_path`: the `lxc.lxcpath` setting, or "" when it is missing. */
  function DefaultPathOf(native: Option<CStr>): (path: seq<Byte>)
    requires native.Some? ==> ValidUtf8(native.value)
    ensures native.Some? ==> path == native.value
    ensures native.None? ==> path == []
  {
    match ConfigItem(LxcPathKey(), native)
    case Success(s) => s
    case Failure(_) => []
  }

  // ---------------------------------------------------------------------
  // Free functions that call into liblxc

  /** `get_version`: one `lxc_get_version` call, decoded with the fallback "unknown". */
  method GetVersion(native: Native, answer: CStr) returns (v: seq<Byte>)
    modifies native`calls
    ensures native.calls == old(native.calls) + [Call.GetVersion]
    ensures v == VersionText(answer)
  {
    native.Issue(Call.GetVersion);
    v := VersionText(answer);
  }

  /**
   * `get_global_config_item`: one `lxc_get_global_config_item` call for
   * `key`. The key is unwrapped, so a key with a 0 byte would panic.
   */
  method GetGlobalConfigItem(native: Native, key: seq<Byte>, answer: Option<CStr>)
    returns (r: Result<seq<Byte>, Error>)
    requires 0 !in key
    requires answer.Some? ==> ValidUtf8(answer.value)
    modifies native`calls
    ensures native.calls == old(native.calls) + [Call.GetConfigItem(key)]
    ensures r == ConfigItem(key, answer)
  {
    native.Issue(Call.GetConfigItem(key));
    r := ConfigItem(key, answer);
  }

  /** `get_default_path`: looks up `lxc.lxcpath`, and gives "" when it is missing. */
  method GetDefaultPath(native: Native, answer: Option<CStr>) returns (path: seq<Byte>)
    requires answer.Some? ==> ValidUtf8(answer.value)
    modifies native`calls
    ensures native.calls == old(native.calls) + [Call.GetConfigItem(LxcPathKey())]
    ensures path == DefaultPathOf(answer)
  {
    var item := GetGlobalConfigItem(native, LxcPathKey(), answer);
    path := if item.Success? then item.value else [];
  }

  /**
   * What a native call hands over in `names` together with a count `nr`:
   * nothing when the count is negative, otherwise an array (or NULL for a
   * count of 0) whose strings before the first NULL among the first `nr`
   * slots become the caller's.
   */
  ghost predicate HandsOverArray(heap: Heap, names: Option<AllocId>, nr: int)
    reads heap
  {
    nr >= 0 ==>
      && (names.None? ==> nr == 0)
      && (names.Some? ==> && names.value in heap.live && names.value in heap.arrays
                          && nr <= |heap.arrays[names.value]|
                          && heap.OwnsStrings(names.value, FirstNull(heap.arrays[names.value][..nr])))
  }

  /**
   * `list_all_containers`: fails without a native call on a path with a 0
   * byte, fails on a negative count, and otherwise wraps the returned array
   * with the count as its declared length.
   */
  method ListAllContainers(native: Native, path: seq<Byte>, nr: I32, names: Option<AllocId>)
    returns (r: Result<StringArrayIter, Error>)
    requires HandsOverArray(native.heap, names, nr)
    modifies native`calls
    ensures 0 in path ==> r == Failure(Nul(CStringNew(path).error)) && native.calls == old(native.calls)
    ensures 0 !in path ==> native.calls == old(native.calls) + [Call.ListAll(path)]
    ensures 0 !in path ==> (r.Success? <==> nr >= 0)
    ensures 0 !in path && nr < 0 ==> r == Failure(ListFailed)
    ensures r.Success? ==> && fresh(r.value) && r.value.Valid()
                           && r.value.heap == native.heap && r.value.ptr == names && r.value.at == 0
                           && r.value.len == (if names.None? then 0 else FirstNull(native.heap.arrays[names.value][..nr]))
  {
    var cpath := ToCString(path);
    if cpath.Failure? {
      return Failure(Nul(cpath.error));
    }
    native.Issue(Call.ListAll(cpath.value.IntoOwned()));
    if nr < 0 {
      return Failure(ListFailed);
    }
    var it := new StringArrayIter(native.heap, names, nr);
    r := Success(it);
  }

  /** `set_log`: finishes the options, calls `lxc_log_init` and fails on a negative return. */
  method SetLog(native: Native, options: LogOptions, ret: I32) returns (r: Outcome<Error>)
    modifies native`calls, options`raw
    ensures native.calls == old(native.calls) + [Call.LogInit(old(options.Finished()))]
    ensures options.raw == options.Finished()
    ensures r == CheckStatus(ret, LogInitFailed)
  {
    var raw := options.Raw();
    native.Issue(Call.LogInit(raw));
    if ret < 0 {
      return Fail(LogInitFailed);
    }
    r := Pass;
  }

  // ---------------------------------------------------------------------
  // The handle

  /**
   * `Lxc`: exclusively owns one native container reference. `released`
   * records that `drop` has issued its `lxc_container_put`.
   */
  class Lxc {
    const native: Native
    const handle: HandleId
    var released: bool

    ghost predicate Valid()
      reads this
    {
      !released
    }

    /** `Lxc { handle }`. */
    constructor Wrap(native: Native, handle: HandleId)
      ensures this.native == native && this.handle == handle && Valid()
    {
      this.native, this.handle, released := native, handle, false;
    }

    /**
     * `Lxc::new`: converts name and path (failing with no native call on a
     * 0 byte), calls `lxc_container_new`, and fails when it returns NULL;
     * on failure no handle exists, so no put can follow.
     */
    static method New(native: Native, name: seq<Byte>, path: seq<Byte>, returned: Option<HandleId>)
      returns (r: Result<Lxc, Error>)
      modifies native`calls
      ensures 0 in name ==> r == Failure(Nul(CStringNew(name).error)) && native.calls == old(native.calls)
      ensures 0 !in name && 0 in path ==> r == Failure(Nul(CStringNew(path).error)) && native.calls == old(native.calls)
      ensures 0 !in name && 0 !in path ==> native.calls == old(native.calls) + [Call.ContainerNew(name, path)]
      ensures 0 !in name && 0 !in path ==> (r.Success? <==> returned.Some?)
      ensures 0 !in name && 0 !in path && returned.None? ==> r == Failure(AllocFailed)
      ensures r.Success? ==> && fresh(r.value) && r.value.Valid()
                             && r.value.native == native && r.value.handle == returned.value
    {
      var cname := ToCString(name);
      if cname.Failure? {
        return Failure(Nul(cname.error));
      }
      var cpath := ToCString(path);
      if cpath.Failure? {
        return Failure(Nul(cpath.error));
      }
      native.Issue(Call.ContainerNew(cname.value.IntoOwned(), cpath.value.IntoOwned()));
      if returned.None? {
        return Failure(AllocFailed);
      }
      var c := new Lxc.Wrap(native, returned.value);
      r := Success(c);
    }

    /** `drop`: exactly one `lxc_container_put` on the handle. */
    method Drop()
      requires Valid()
      modifies this`released, native`calls
      ensures released
      ensures native.calls == old(native.calls) + [Call.ContainerPut(handle)]
    {
      native.Issue(Call.ContainerPut(handle));
      released := true;
    }

    /**
     * `start`, corrected (see `StartArgv`): `useinit` is 1 exactly for a stub
     * start, the native call receives `IntendedStartArgv(argv)`, and a native
     * `false` is an error. Arguments are unwrapped, so one with a 0 byte
     * would panic.
     */
    method Start(stub: bool, argv: seq<seq<Byte>>, started: bool) returns (r: Outcome<Error>)
      requires Valid()
      requires forall i :: 0 <= i < |argv| ==> 0 !in argv[i]
      modifies native`calls
      ensures native.calls == old(native.calls) + [Call.Start(handle, UseInit(stub), IntendedStartArgv(argv))]
      ensures r == CheckBool(started, StartFailed)
    {
      var useinit := if stub then 1 else 0;
      var cargv: seq<CStr> := argv;
      var args := Entries(cargv) + [None];
      var passed: Option<seq<Option<CStr>>> := None;
      if |cargv| > 0 {
        passed := Some(args);
      }
      native.Issue(Call.Start(handle, useinit, passed));
      if !started {
        return Fail(StartFailed);
      }
      r := Pass;
    }

    /**
     * `shutdown`, corrected (see `ShutdownTimeout`): a timeout beyond
     * `c_int::MAX` seconds is an error before any native call; otherwise -1
     * for no timeout or the seconds are passed, and a native `false` is an
     * error.
     */
    method Shutdown(timeout: Option<Duration>, down: bool) returns (r: Outcome<Error>)
      requires Valid()
      modifies native`calls
      ensures CheckedShutdownTimeout(timeout).Failure? ==>
        r == Fail(TimeoutTooLarge) && native.calls == old(native.calls)
      ensures CheckedShutdownTimeout(timeout).Success? ==>
        && native.calls == old(native.calls) + [Call.Shutdown(handle, CheckedShutdownTimeout(timeout).value)]
        && r == CheckBool(down, ShutdownFailed)
    {
      var t := CheckedShutdownTimeout(timeout);
      if t.Failure? {
        return Fail(t.error);
      }
      native.Issue(Call.Shutdown(handle, t.value));
      if !down {
        return Fail(ShutdownFailed);
      }
      r := Pass;
    }

    /** `stop`: a native `false` is an error. */
    method Stop(stopped: bool) returns (r: Outcome<Error>)
      requires Valid()
      modifies native`calls
      ensures native.calls == old(native.calls) + [Call.Stop(handle)]
      ensures r == CheckBool(stopped, StopFailed)
    {
      native.Issue(Call.Stop(handle));
      if !stopped {
        return Fail(StopFailed);
      }
      r := Pass;
    }

    /** `may_control`: the native answer. */
    method MayControl(answer: bool) returns (b: bool)
      requires Valid()
      modifies native`calls
      ensures native.calls == old(native.calls) + [Call.MayControl(handle)]
      ensures b == answer
    {
      native.Issue(Call.MayControl(handle));
      b := answer;
    }

    /** `is_running`: the native answer. */
    method IsRunning(answer: bool) returns (b: bool)
      requires Valid()
      modifies native`calls
      ensures native.calls == old(native.calls) + [Call.IsRunning(handle)]
      ensures b == answer
    {
      native.Issue(Call.IsRunning(handle));
      b := answer;
    }

    /**
     * `attach_run_wait`: finishes the options, passes `argv` as a
     * NULL-terminated array, and returns the native wait status undecoded.
     */
    method AttachRunWait(options: AttachOptions, program: seq<Byte>, argv: seq<seq<Byte>>, status: I32)
      returns (ret: I32)
      requires Valid() && options.Valid()
      requires 0 !in program && forall i :: 0 <= i < |argv| ==> 0 !in argv[i]
      modifies native`calls, options`raw, options.extraEnvVars`ffi, options.extraKeepEnv`ffi
      ensures native.calls == old(native.calls) + [Call.AttachRunWait(handle, old(options.Finished()), program, Entries(argv) + [None])]
      ensures options.raw == old(options.Finished())
      ensures ret == status
    {
      var cprogram: CStr := program;
      var cargv: seq<CStr> := argv;
      var args := Entries(cargv) + [None];
      var raw := options.Raw();
      native.Issue(Call.AttachRunWait(handle, raw, cprogram, args));
      ret := status;
    }

    /** `state`: the decoded state name, "UNKNOWN" when it is not UTF-8. */
    method State(answer: CStr) returns (s: seq<Byte>)
      requires Valid()
      modifies native`calls
      ensures native.calls == old(native.calls) + [Call.State(handle)]
      ensures s == StateText(answer)
    {
      native.Issue(Call.State(handle));
      s := StateText(answer);
    }

    /**
     * `get_interfaces`: counts the slots before the NULL terminator (none for
     * a NULL result) and wraps the array with that length.
     */
    method GetInterfaces(names: Option<AllocId>) returns (it: StringArrayIter)
      requires Valid()
      requires names.Some? ==> && names.value in native.heap.live && names.value in native.heap.arrays
                               && None in native.heap.arrays[names.value]
                               && native.heap.OwnsStrings(names.value, FirstNull(native.heap.arrays[names.value]))
      modifies native`calls
      ensures native.calls == old(native.calls) + [Call.GetInterfaces(handle)]
      ensures fresh(it) && it.Valid() && it.heap == native.heap && it.ptr == names && it.at == 0
      ensures it.len == (if names.None? then 0 else FirstNull(native.heap.arrays[names.value]))
    {
      native.Issue(Call.GetInterfaces(handle));
      var len := CountToNull(native.heap, names);
      it := new StringArrayIter(native.heap, names, len);
    }

    /** `get_ipv4`: like `get_interfaces`, over `get_ips(iface, "inet", 0)`. */
    method GetIpv4(iface: seq<Byte>, addresses: Option<AllocId>) returns (it: StringArrayIter)
      requires Valid()
      requires 0 !in iface
      requires addresses.Some? ==> && addresses.value in native.heap.live && addresses.value in native.heap.arrays
                                   && None in native.heap.arrays[addresses.value]
                                   && native.heap.OwnsStrings(addresses.value, FirstNull(native.heap.arrays[addresses.value]))
      modifies native`calls, native.heap`live, native.heap`frees, native.heap`doubleFrees
      ensures native.calls == old(native.calls) + [Call.GetIps(handle, iface, Ascii("inet"), 0)]
      ensures native.heap.live == old(native.heap.live) && native.heap.frees == old(native.heap.frees)
      ensures native.heap.doubleFrees == old(native.heap.doubleFrees)
      ensures fresh(it) && it.Valid() && it.heap == native.heap && it.ptr == addresses && it.at == 0
      ensures it.len == (if addresses.None? then 0 else FirstNull(native.heap.arrays[addresses.value]))
    {
      AsciiLiteral("inet");
      native.Issue(Call.GetIps(handle, iface, Ascii("inet"), 0));
      var len := CountToNullFreeingTerminator(native.heap, addresses);
      it := new StringArrayIter(native.heap, addresses, len);
    }

    /** `get_ipv6`: like `get_interfaces`, over `get_ips(iface, "inet6", 0)`. */
    method GetIpv6(iface: seq<Byte>, addresses: Option<AllocId>) returns (it: StringArrayIter)
      requires Valid()
      requires 0 !in iface
      requires addresses.Some? ==> && addresses.value in native.heap.live && addresses.value in native.heap.arrays
                                   && None in native.heap.arrays[addresses.value]
                                   && native.heap.OwnsStrings(addresses.value, FirstNull(native.heap.arrays[addresses.value]))
      modifies native`calls, native.heap`live, native.heap`frees, native.heap`doubleFrees
      ensures native.calls == old(native.calls) + [Call.GetIps(handle, iface, Ascii("inet6"), 0)]
      ensures native.heap.live == old(native.heap.live) && native.heap.frees == old(native.heap.frees)
      ensures native.heap.doubleFrees == old(native.heap.doubleFrees)
      ensures fresh(it) && it.Valid() && it.heap == native.heap && it.ptr == addresses && it.at == 0
      ensures it.len == (if addresses.None? then 0 else FirstNull(native.heap.arrays[addresses.value]))
    {
      AsciiLiteral("inet6");
      native.Issue(Call.GetIps(handle, iface, Ascii("inet6"), 0));
      var len := CountToNullFreeingTerminator(native.heap, addresses);
      it := new StringArrayIter(native.heap, addresses, len);
    }

    /** `daemonize`: forwards the flag; there is no failure. */
    method Daemonize(on: bool)
      requires Valid()
      modifies native`calls
      ensures native.calls == old(native.calls) + [Call.WantDaemonize(handle, on)]
    {
      native.Issue(Call.WantDaemonize(handle, on));
    }

    /** `terminal`: `console(0, 0, 1, 2, 1)`; a negative return is an error. */
    method Terminal(ret: int) returns (r: Outcome<Error>)
      requires Valid()
      modifies native`calls
      ensures native.calls == old(native.calls) + [Call.Console(handle, 0, 0, 1, 2, 1)]
      ensures r == CheckStatus(ret, TerminalFailed)
    {
      native.Issue(Call.Console(handle, 0, 0, 1, 2, 1));
      if ret < 0 {
        return Fail(TerminalFailed);
      }
      r := Pass;
    }
  }

  /**
   * The counting loop of `get_interfaces`: the number of slots before the
   * NULL terminator, or 0 for a NULL array.
   */
  method CountToNull(heap: Heap, names: Option<AllocId>) returns (len: nat)
    requires names.Some? ==> names.value in heap.arrays && None in heap.arrays[names.value]
    ensures names.None? ==> len == 0
    ensures names.Some? ==> len == FirstNull(heap.arrays[names.value])
  {
    len := 0;
    if names.Some? {
      var a := heap.arrays[names.value];
      FirstNullIsBoundIff(a);
      var i := 0;
      while true
        invariant i == len && i <= FirstNull(a)
        decreases |a| - i
      {
        if a[i].None? {
          break;
        }
        len := len + 1;
        i := i + 1;
      }
    }
  }

  /**
   * The counting loop of `get_ipv4` and `get_ipv6`: as `CountToNull`, but
   * the terminator is passed to `free`, which ignores NULL, so the heap is
   * unchanged.
   */
  method CountToNullFreeingTerminator(heap: Heap, names: Option<AllocId>) returns (len: nat)
    requires names.Some? ==> names.value in heap.arrays && None in heap.arrays[names.value]
    modifies heap`live, heap`frees, heap`doubleFrees
    ensures heap.live == old(heap.live) && heap.frees == old(heap.frees)
    ensures heap.doubleFrees == old(heap.doubleFrees)
    ensures names.None? ==> len == 0
    ensures names.Some? ==> len == FirstNull(heap.arrays[names.value])
  {
    len := 0;
    if names.Some? {
      var a := heap.arrays[names.value];
      FirstNullIsBoundIff(a);
      var i := 0;
      while true
        invariant i == len && i <= FirstNull(a)
        invariant heap.arrays[names.value] == a
        invariant heap.live == old(heap.live) && heap.frees == old(heap.frees)
        invariant heap.doubleFrees == old(heap.doubleFrees)
        decreases |a| - i
      {
        if a[i].None? {
          heap.Free(a[i]);
          break;
        }
        len := len + 1;
        i := i + 1;
      }
    }
  }
}
