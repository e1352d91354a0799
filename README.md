# rlxc: a Dafny model of the liblxc bindings

rlxc is a Rust command-line tool for LXC containers. This project models its
bridge to liblxc:

- the FFI helpers: C-string conversion, the `CStringVec` builder of
  NULL-terminated `char **` arrays, and `StringArrayIter`, which owns a
  native string array and frees it;
- the attach-options and log-options builders;
- the `Lxc` container handle and the free functions of the `lxc` module;
- the pure decision logic of the `rlxc` binary: timeout, uid and gid
  parsing, `--env` splitting, the wait-status to exit-code mapping, the path
  and name guards, the log defaults, and the `exec` and `stop` flows.

liblxc itself is replaced by a fake, the class `Lxc.Native`:

- every liblxc call is appended, with its arguments, to a call log; this
  includes the version and configuration lookups;
- the values the native side returns are parameters of the operations;
- native string arrays come from a fake allocator, `NativeHeap.Heap`, which
  records every `free` and counts double frees.

This is how the model states ownership:

- every created handle is put exactly once;
- an iterator frees each string it owns once, then the array;
- a scenario of listing two containers leaks nothing.

Host text (`&str`, `OsStr`, `Path`) is bytes (`seq<Byte>`). A C string is a
byte sequence with no 0 byte. Text is UTF-8 when `Text.ValidUtf8` holds;
that predicate is the well-formedness rule of section 4 of RFC 3629.

Files:

- `Wrappers.dfy`: `Option`, `Result`, `Outcome`.
- `Text.dfy`: bytes, C strings, UTF-8 validity.
- `NativeHeap.dfy`: the fake allocator.
- `Ffi.dfy`: `src/util/ffi.rs`.
- `AttachOptions.dfy`: `src/lxc/attach_options.rs`.
- `LogOptions.dfy`: `src/lxc/log_options.rs`.
- `Lxc.dfy`: `src/lxc/mod.rs`.
- `Cli.dfy`: the modelled part of `src/bin/rlxc.rs`.
- `Scenario.dfy`: end-to-end runs of `list_all_containers` and of finishing attach and log options.

The Rust builders take `self` by value and return it, or drop it on error.
They are classes here, and each setter mutates in place. A setter that fails
leaves the state unchanged; the Rust caller loses the builder in that case.
`Drop` is an explicit method, guarded by a `released`/`dropped` flag, so
that "put exactly once" and "freed exactly once" can be stated.

The doc comment of `StringArrayIter` (src/util/ffi.rs:67-69) speaks of
consuming each string. The code (src/util/ffi.rs:105-125) copies each string
in `next` and frees nothing there; only `drop` frees, every slot below `len`,
then the array. The model follows the code.

`state` and `get_version` (src/lxc/mod.rs:204-209 and 57-60) decode in the
same way. `Lxc.StateText` and `Lxc.VersionText` apply `Lxc.Utf8Or` with the
fallbacks "UNKNOWN" and "unknown".

## Model

| member | source | states |
|---|---|---|
| Ffi.CStringNew | src/util/ffi.rs:165-169 | `CString::new` succeeds exactly on bytes with no 0 byte and keeps them; otherwise the error holds the bytes and the position of the first 0 byte |
| Ffi.BorrowCString | src/util/ffi.rs:153-163 | `ToCString` for `CStr` and `CString` always succeeds, borrowing the same string |
| Ffi.ToCString | src/util/ffi.rs:165-205 | `ToCString` for `str`, `[u8]`, `String`, `OsStr`, `OsString`, `Path` and `PathBuf` succeeds exactly on 0-free bytes, giving an owned copy, and otherwise fails with the `CString::new` error |
| Ffi.Cow.IntoOwned | src/lxc/log_options.rs:43-45 | `into_owned` gives the C string, whether it was borrowed or owned |
| Ffi.TextRoundTrip | src/util/ffi.rs:165-169 | converting 0-free UTF-8 text to a C string and reading it back with `to_str` gives the same text |
| Ffi.CStringVec.constructor | src/util/ffi.rs:21-26 | a new vector has no strings and no view |
| Ffi.CStringVec.Push | src/util/ffi.rs:61-65 | a push through `DerefMut` appends the string and keeps the order |
| Ffi.CStringVec.Update | src/util/ffi.rs:29-36 | afterwards the view is one pointer per owned string, in order, then NULL |
| Ffi.CStringVec.GetRaw | src/util/ffi.rs:41-44 | rebuilds the view and returns it; it resolves to exactly the owned strings followed by NULL |
| Ffi.View | src/util/ffi.rs:29-36 | the canonical NULL-terminated view of n strings |
| Ffi.ViewIsUnique | src/util/ffi.rs:29-36 | there is only one view of n strings |
| Ffi.ViewResolves | src/util/ffi.rs:10-12 | a view of the current strings points at exactly those strings, then NULL |
| Ffi.StaleViewAfterPush | src/util/ffi.rs:38-44 | a view taken before a push does not describe the strings after it, which is why `get_raw` rebuilds the view each time |
| Ffi.Entries | src/util/ffi.rs:32-34 | the owned strings as non-NULL entries, index for index |
| Ffi.FirstNull | src/util/ffi.rs:93-97 | the position of the first NULL slot, or the length: every slot before it is non-NULL and the slot at it is NULL |
| Ffi.FirstNullUnique | src/util/ffi.rs:93-97 | that position is the only index with those two properties |
| Ffi.FirstNullIsBoundIff | src/util/ffi.rs:93-97 | the first NULL lies inside the array exactly when the array holds a NULL |
| Ffi.FirstNullOfPrefix | src/util/ffi.rs:90-99 | clamping to the first NULL a second time changes nothing |
| Ffi.StringArrayIter.AsSlice | src/util/ffi.rs:79-83 | `as_slice` is the first `len` slots of the native array, and empty for NULL |
| Ffi.StringArrayIter.constructor | src/util/ffi.rs:90-99 | takes over the array with cursor 0 and clamps the length to the first NULL among the first `len` slots |
| Ffi.StringArrayIter.Next | src/util/ffi.rs:105-114 | below `len`, returns the text of slot `at` and advances by one; at `len`, returns `None` and stays put; frees nothing |
| Ffi.StringArrayIter.Collect | src/bin/rlxc.rs:131 | draining gives exactly the remaining texts in index order; the drop that follows frees every slot below `len`, then the array, and frees nothing twice |
| Ffi.StringArrayIter.Drop | src/util/ffi.rs:117-126 | frees every slot below `len`, in order, then the array, whatever the cursor; each of these allocations is freed exactly once, and nothing twice |
| Attach.AttachOptions.constructor | src/lxc/attach_options.rs:23-35 | a zeroed record with the defaults of `set_default`, empty lists, no working directory and no file handles |
| Attach.AttachOptions.SetDefault | src/lxc/attach_options.rs:40-49 | flags `LXC_ATTACH_DEFAULT`, namespaces and personality -1, uid and gid `!0`, `KEEP_ENV`; the rest of the record is unchanged |
| Attach.ApplyFlagSets | src/lxc/attach_options.rs:52-53 | setting a flag sets its bits and keeps every other bit |
| Attach.ApplyFlagClears | src/lxc/attach_options.rs:54-55 | clearing a flag clears its bits and keeps every other bit |
| Attach.ApplyFlagIdempotent | src/lxc/attach_options.rs:51-58 | the same flag update applied twice equals one application |
| Attach.ApplyFlagUndo | src/lxc/attach_options.rs:51-58 | setting a flag and then clearing it leaves the other bits as they were and this flag clear |
| Attach.AttachOptions.AttachFlag | src/lxc/attach_options.rs:51-58 | only the flags change, by `ApplyFlag` |
| Attach.AttachOptions.MoveToCgroup | src/lxc/attach_options.rs:60-62 | applies `LXC_ATTACH_MOVE_TO_CGROUP` (0x1) |
| Attach.AttachOptions.DropCapabilities | src/lxc/attach_options.rs:64-66 | applies `LXC_ATTACH_DROP_CAPABILITIES` (0x2) |
| Attach.AttachOptions.SetPersonality | src/lxc/attach_options.rs:68-70 | applies `LXC_ATTACH_SET_PERSONALITY` (0x4) |
| Attach.AttachOptions.LsmExec | src/lxc/attach_options.rs:72-74 | applies `LXC_ATTACH_LSM_EXEC` (0x8) |
| Attach.AttachOptions.RemountProcSys | src/lxc/attach_options.rs:76-78 | applies `LXC_ATTACH_REMOUNT_PROC_SYS` (0x10000) |
| Attach.AttachOptions.LsmNow | src/lxc/attach_options.rs:80-82 | applies `LXC_ATTACH_LSM_NOW` (0x20000) |
| Attach.AttachOptions.NoNewPrivs | src/lxc/attach_options.rs:84-86 | applies `LXC_ATTACH_NO_NEW_PRIVS` (0x40000) |
| Attach.AttachOptions.Terminal | src/lxc/attach_options.rs:88-90 | applies `LXC_ATTACH_TERMINAL` (0x80000) |
| Attach.AttachOptions.Namespaces | src/lxc/attach_options.rs:92-95 | only `namespaces` changes, to the value given |
| Attach.PersonalityOrDefault | src/lxc/attach_options.rs:98-101 | the value given, else `!0` (-1, autodetect) |
| Attach.AttachOptions.Personality | src/lxc/attach_options.rs:98-101 | only `personality` changes, to the value or -1 |
| Attach.AttachOptions.SetInitialCwd | src/lxc/attach_options.rs:103-109 | succeeds exactly on 0-free bytes and stores them; on failure nothing changes and the error is the `CString::new` error |
| Attach.AttachOptions.UnsetInitialCwd | src/lxc/attach_options.rs:111-114 | the working directory becomes unset |
| Attach.IdOrDefault | src/lxc/attach_options.rs:118-128 | the id given, else `!0` (0xFFFFFFFF, the container's init id) |
| Attach.AttachOptions.Uid | src/lxc/attach_options.rs:118-121 | only `uid` changes, to the id or `!0` |
| Attach.AttachOptions.Gid | src/lxc/attach_options.rs:125-128 | only `gid` changes, to the id or `!0` |
| Attach.AttachOptions.KeepEnv | src/lxc/attach_options.rs:130-134 | only the environment policy changes, to `KEEP_ENV` |
| Attach.AttachOptions.ClearEnv | src/lxc/attach_options.rs:136-140 | only the environment policy changes, to `CLEAR_ENV` |
| Attach.AttachOptions.SetKeepEnv | src/lxc/attach_options.rs:142-148 | `KEEP_ENV` when on, else `CLEAR_ENV` |
| Attach.AttachOptions.Stdin | src/lxc/attach_options.rs:150-158 | stores the handle and changes nothing else |
| Attach.AttachOptions.Stdout | src/lxc/attach_options.rs:160-168 | stores the handle and changes nothing else |
| Attach.AttachOptions.Stderr | src/lxc/attach_options.rs:170-178 | stores the handle and changes nothing else |
| Attach.AttachOptions.LogFile | src/lxc/attach_options.rs:180-188 | stores the handle and changes nothing else |
| Attach.EnvAssignment | src/lxc/attach_options.rs:195-196 | `name=value`: the name, one `=` byte, then the value |
| Attach.EnvAssignmentIsText | src/lxc/attach_options.rs:190-198 | the assignment of two UTF-8 texts is UTF-8 |
| Attach.AttachOptions.SetEnvVar | src/lxc/attach_options.rs:190-198 | succeeds exactly when `name=value` has no 0 byte, and then appends it to the environment list, where it is UTF-8 text when the name and the value are; on failure the list is unchanged |
| Attach.AttachOptions.KeepEnvVar | src/lxc/attach_options.rs:200-203 | succeeds exactly on a 0-free name, and then appends it to the keep list; on failure the list is unchanged |
| Attach.FdOr | src/lxc/attach_options.rs:210-214 | the handle's descriptor, else the default |
| Attach.AttachOptions.Finish | src/lxc/attach_options.rs:205-220 | both lists get fresh NULL-terminated views that the record points at; stdin, stdout and stderr become the handles' descriptors or 0, 1, 2; the log descriptor becomes its handle's or `-EBADF`; the working directory is copied, NULL when unset |
| Attach.AttachOptions.Raw | src/lxc/attach_options.rs:222-225 | finishes and returns the record; on a builder already finished and unchanged since, it returns the same record |
| Log.Converted | src/lxc/log_options.rs:43-45 | a setter stores the bytes exactly when they have no 0 byte, and otherwise fails with the `CString::new` error |
| Log.LogOptions.constructor | src/lxc/log_options.rs:19-29 | a zeroed record, nothing set, quiet |
| Log.LogOptions.SetLogName | src/lxc/log_options.rs:39-47 | succeeds exactly on 0-free bytes and stores them; on failure the name is unchanged |
| Log.LogOptions.SetLogPath | src/lxc/log_options.rs:49-57 | the same, for the path |
| Log.LogOptions.SetLogFile | src/lxc/log_options.rs:59-67 | the same, for the file |
| Log.LogOptions.SetLogLevel | src/lxc/log_options.rs:69-77 | the same, for the level |
| Log.LogOptions.SetLogPrefix | src/lxc/log_options.rs:79-87 | the same, for the prefix |
| Log.LogOptions.SetQuiet | src/lxc/log_options.rs:89-92 | sets the quiet flag |
| Log.LogOptions.Finish | src/lxc/log_options.rs:94-121 | every pointer field is NULL exactly when its option is unset, and otherwise points at that option's string; `quiet` is copied |
| Log.LogOptions.Raw | src/lxc/log_options.rs:123-126 | finishes and returns the record; on a builder already finished and unchanged since, it returns the same record |
| Lxc.Native.Issue | src/lxc/mod.rs:42-48 | a native call is appended to the log |
| Lxc.PutCountAppend | src/lxc/mod.rs:26-32 | the `lxc_container_put` count of a concatenation is the sum of the parts' counts |
| Lxc.PutCountAppendOne | src/lxc/mod.rs:26-32 | appending a call adds one put exactly when that call is a put |
| Lxc.PutCountZero | src/lxc/mod.rs:26-32 | a log holds no put exactly when none of its calls is one |
| Lxc.Lxc.Wrap | src/lxc/mod.rs:107 | a fresh handle wrapper, not yet put |
| Lxc.Lxc.New | src/lxc/mod.rs:93-108 | a 0 byte in the name, then in the path, is an error with no native call; otherwise `lxc_container_new(name, path)` is called, and the result is a fresh handle exactly when it returns non-NULL, else "failed to allocate new container" |
| Lxc.Lxc.Drop | src/lxc/mod.rs:26-32 | exactly one `lxc_container_put` on the handle |
| Lxc.UseInit | src/lxc/mod.rs:113 | `useinit` is 1 exactly for a stub start and 0 otherwise |
| Lxc.StartArgv | src/lxc/mod.rs:114-131 | as written, `start` passes NULL as `argv` for every argument list |
| Lxc.StartArgvDropsCommand | src/lxc/mod.rs:117-131 | as written, a command given to `start` (such as `/bin/sh`) never reaches liblxc |
| Lxc.IntendedStartArgv | src/lxc/mod.rs:114-131 | corrected: NULL exactly for an empty list, otherwise the arguments in order followed by NULL |
| Lxc.Lxc.Start | src/lxc/mod.rs:112-137 | corrected (see Findings): one native `start` call with `useinit` from `stub` and `argv` from `IntendedStartArgv`; a native `false` is "failed to start container" |
| Lxc.I32AsU64 | src/lxc/mod.rs:145 | `c_int as u64` sign-extends: -1 becomes 2^64 - 1 |
| Lxc.U64AsI32 | src/lxc/mod.rs:148 | `u64 as c_int` keeps the value modulo 2^32, and exactly a value below 2^31 |
| Lxc.ShutdownTimeout | src/lxc/mod.rs:141-151 | as written, the guard never fires: no timeout is -1, and a timeout is its seconds truncated to a `c_int` |
| Lxc.ShutdownTimeoutWraps | src/lxc/mod.rs:145-148 | as written, 2^32 + 5 seconds become 5, and 2^31 seconds become -2^31 |
| Lxc.CheckedShutdownTimeout | src/lxc/mod.rs:141-151 | corrected: succeeds exactly for no timeout or fewer than 2^31 seconds, giving -1 or the seconds unchanged; otherwise "timeout too large" |
| Lxc.ShutdownTimeoutsAgree | src/lxc/mod.rs:141-151 | the two conversions agree on every timeout that fits a `c_int` |
| Lxc.Lxc.Shutdown | src/lxc/mod.rs:140-158 | corrected (see Findings): a timeout beyond `c_int::MAX` is "timeout too large", with no native call; otherwise one native `shutdown` with the converted timeout, where a native `false` is "failed to shutdown container" |
| Lxc.Lxc.Stop | src/lxc/mod.rs:161-167 | one native `stop` call; a native `false` is an error |
| Lxc.CheckBool | src/lxc/mod.rs:133-135 | a native boolean succeeds exactly when it is true, otherwise it gives the operation's error |
| Lxc.CheckStatus | src/lxc/mod.rs:83-87 | a native status succeeds exactly when it is non-negative, otherwise it gives the operation's error |
| Lxc.Lxc.MayControl | src/lxc/mod.rs:170-172 | one native `may_control` call, whose answer is returned |
| Lxc.Lxc.IsRunning | src/lxc/mod.rs:175-177 | one native `is_running` call, whose answer is returned |
| Lxc.Lxc.AttachRunWait | src/lxc/mod.rs:180-201 | finishes the options and makes one native `attach_run_wait` call with the finished record, the program, and the arguments in order followed by NULL; returns the wait status undecoded |
| Lxc.Utf8Or | src/lxc/mod.rs:208 | `to_str().unwrap_or(fallback)`: the native string when it is UTF-8, else the fallback; always UTF-8 |
| Lxc.StateText | src/lxc/mod.rs:208 | the state name when it is UTF-8, else "UNKNOWN" |
| Lxc.Lxc.State | src/lxc/mod.rs:204-209 | one native `state` call, decoded by `StateText` |
| Lxc.VersionText | src/lxc/mod.rs:59 | the version string when it is UTF-8, else "unknown" |
| Lxc.GetVersion | src/lxc/mod.rs:56-60 | one `lxc_get_version` call, decoded by `VersionText` |
| Lxc.ConfigItem | src/lxc/mod.rs:62-71 | succeeds exactly when liblxc returns a value, giving it; NULL is "failed to find value of `key`" |
| Lxc.GetGlobalConfigItem | src/lxc/mod.rs:62-71 | one `lxc_get_global_config_item` call for the key, with the result `ConfigItem` gives |
| Lxc.LxcPathKey | src/lxc/mod.rs:74 | the key `lxc.lxcpath`: 11 bytes, no 0 byte |
| Lxc.DefaultPathOf | src/lxc/mod.rs:73-78 | the configured `lxc.lxcpath`, or empty when it has none |
| Lxc.GetDefaultPath | src/lxc/mod.rs:73-78 | one lookup of `lxc.lxcpath`, giving `DefaultPathOf` of the answer |
| Lxc.ListAllContainers | src/lxc/mod.rs:36-54 | a 0 byte in the path is an error with no native call; otherwise one native `list_all_containers` call; a negative count is "failed to list containers", any other count gives a fresh iterator over the array, clamped to its first NULL |
| Lxc.SetLog | src/lxc/mod.rs:80-88 | one `lxc_log_init` call with the finished log record; a negative status is "failed to initialize log" |
| Lxc.CountToNull | src/lxc/mod.rs:213-226 | the loop counts the slots before the NULL terminator, and gives 0 for a NULL array |
| Lxc.Lxc.GetInterfaces | src/lxc/mod.rs:212-228 | one native `get_interfaces` call, and a fresh iterator over the slots before the terminator |
| Lxc.CountToNullFreeingTerminator | src/lxc/mod.rs:244-255 | the same count; the terminator it frees is NULL, so no allocation is freed and nothing leaks |
| Lxc.Lxc.GetIpv4 | src/lxc/mod.rs:231-257 | one native `get_ips(iface, "inet", 0)` call, no change to the heap, and a fresh iterator over the slots before the terminator |
| Lxc.Lxc.GetIpv6 | src/lxc/mod.rs:260-286 | the same, with "inet6" |
| Lxc.Lxc.Daemonize | src/lxc/mod.rs:288-292 | one native `want_daemonize` call with the flag |
| Lxc.Lxc.Terminal | src/lxc/mod.rs:294-303 | one native `console(0, 0, 1, 2, 1)` call; a negative status is "failed to attach to terminal" |
| Lxc.FromSecs | src/bin/rlxc.rs:104 | `Duration::from_secs`: those seconds and no fraction |
| Cli.ShiftedStep | src/bin/rlxc.rs:98 | one step of the digit loop consumes the leading digit and keeps the value it will reach |
| Cli.ShiftedGrows | src/bin/rlxc.rs:98 | further digits only move the value away from zero, so the first overflow is final |
| Cli.Accumulate | src/bin/rlxc.rs:98 | the digit loop succeeds exactly when all bytes are digits and no intermediate value leaves the range, and then gives the positional value; otherwise the first bad digit or overflow is the error |
| Cli.ParseInt | src/bin/rlxc.rs:98 | `str::parse` succeeds exactly on a decimal literal in range, with a leading `+`, or `-` for a signed type, and gives its value; empty input is `Empty` |
| Cli.ParseI32 | src/bin/rlxc.rs:98 | the value lies in the `i32` range |
| Cli.ParseU32 | src/bin/rlxc.rs:195 | the value lies in the `u32` range |
| Cli.ParseExamples | src/bin/rlxc.rs:98 | "42", "-7" and "+7" parse as `i32`; "+" and "4a" are invalid digits; "-7" is invalid for `u32`; "" is empty |
| Cli.ParseTimeout | src/bin/rlxc.rs:96-108 | absent or "-1" waits forever; an integer from 0 to 2^31 - 1 is that many seconds; any other `i32` is the negative-timeout error; anything that is not an `i32` is the parse error |
| Cli.ParsedTimeoutIsExact | src/bin/rlxc.rs:96-108 | every timeout `stop` accepts passes the corrected check, and the code as written converts it to the same value |
| Cli.TimeoutExamples | src/bin/rlxc.rs:96-108 | "-1" is no timeout; "30" and "0" are seconds; "-2" is negative; "1s" is an invalid digit |
| Cli.IndexOf | src/bin/rlxc.rs:179 | the position of the first occurrence, or the length |
| Cli.SplitEnv | src/bin/rlxc.rs:179-183 | an entry is rejected exactly when it has no `=`; otherwise the parts are the name before the first `=` and everything after it, and they rebuild the entry |
| Cli.SplitEnvOfAssignment | src/bin/rlxc.rs:179-184 | splitting `name=value` for a name without `=` gives back the name and the value, even when the value holds `=` |
| Cli.ParseId | src/bin/rlxc.rs:193-214 | absent is the default; otherwise it succeeds exactly on an unsigned decimal literal below 2^32, giving its value |
| Cli.EffectivePath | src/bin/rlxc.rs:146-152 | the path given, else the default; it fails with the missing-path error exactly when that is empty |
| Cli.StopGuard | src/bin/rlxc.rs:89-93 | `stop` fails exactly when there is neither `--all` nor a name |
| Cli.StopArguments | src/bin/rlxc.rs:80-108 | the path check, then the name guard, then the timeout, the first failure being the error; the default path is the answer of `Lxc.GetDefaultPath`, which `cmd_stop` asks for only without `-p` |
| Cli.StopOne | src/bin/rlxc.rs:110-125 | the exact native calls: new, `is_running`, then nothing when stopped, `stop` with `--force`, or `shutdown` with the timeout, then one put, which is the only put when the handle was created; the result is success when stopped, otherwise the operation's |
| Cli.ExitCode | src/bin/rlxc.rs:217-229 | the exit code is -1 to 255, and 0 for a zero status |
| Cli.ExitCodeOfExit | src/bin/rlxc.rs:223-224 | a child that called `exit(c)` gives `c` |
| Cli.ExitCodeOfSignal | src/bin/rlxc.rs:225-226 | a child killed by signal `sig`, with or without a core dump, gives `128 + sig` |
| Cli.ExitCodeOfStoppedOrContinued | src/bin/rlxc.rs:227 | a stopped or continued child gives -1 |
| Cli.CrateName | src/bin/rlxc.rs:33 | the package name "rlxc", 4 bytes |
| Cli.LogFileOrDefault | src/bin/rlxc.rs:26-28 | the log file given, else "none" |
| Cli.LogLevelOrDefault | src/bin/rlxc.rs:37-40 | the log level given, else "ERROR" |
| Cli.LogPrefix | src/bin/rlxc.rs:31-35 | the prefix is the package name, one space, then the subcommand |
| Cli.InitializeLog | src/bin/rlxc.rs:22-44 | an empty log file does nothing and succeeds; otherwise a 0 byte in the prefix, then the file, then the level is the error with no native call; else one `lxc_log_init` with exactly that file, level and prefix, quiet and no name or path; no put is issued |
| Cli.ConfigureExec | src/bin/rlxc.rs:177-215 | succeeds exactly when every `--env` entry has `=` and no 0 byte and both ids parse; the environment list then holds the entries as given, and uid and gid are the parsed ids or `!0` |
| Cli.RunInContainer | src/bin/rlxc.rs:172-229 | a stopped container or rejected options give 1, otherwise the mapped wait status; the handle is put once, as the last call |
| Cli.CmdExec | src/bin/rlxc.rs:144-230 | without `-p` the first call is the `lxc.lxcpath` lookup, and with `-p` there is none; an empty path then gives 1 with no further call; a created handle is put exactly once, as the last call, and no put happens otherwise; the exit code is the mapped wait status exactly when the container was created, running and the options were accepted, and 1 otherwise |
| Cli.CreateAndRun | src/bin/rlxc.rs:157-230 | log setup, `Lxc::new` and `RunInContainer`: the log only grows, a created handle is put exactly once, last, and the exit code is as for `CmdExec` |
| Scenario.AllocateTwoNames | src/lxc/mod.rs:42-48 | the native side hands over two strings in a NULL-terminated array with a count of 2 |
| Scenario.ListGiven | src/lxc/mod.rs:36-54 | listing that array makes one native call and gives an iterator over exactly its two slots |
| Scenario.TwoSlotsRemaining | src/util/ffi.rs:105-114 | an iterator at the start of two slots yields their two texts |
| Scenario.ListTwoContainers | src/bin/rlxc.rs:131 | collecting `list_all_containers` over `web` and `db` gives exactly those names in order, leaves nothing allocated and frees nothing twice |
| Scenario.FinishFooBar | src/lxc/attach_options.rs:190-225 | after `set_env_var("FOO", "bar")`, the finished environment array points at `FOO=bar`, then NULL, the keep list is just NULL, and a second `raw` gives the same record |
| Scenario.LogRawTwice | src/lxc/log_options.rs:123-126 | two `raw` calls in a row give the same, finished log record |

## Left out

- Rust's ownership and lifetimes. They are stated only where they matter: put-once, free-once, and `get_raw` rebuilding the view.
- The `transmute` in `stdin`, `stdout`, `stderr` and `log_file` only changes a lifetime parameter. A handle is modelled by its raw descriptor.
- `may_control_container` (src/bin/rlxc.rs:15-20) is left out. It pattern-matches `Err` on the `bool` that `Lxc::may_control` returns (src/bin/rlxc.rs:16), so as written it does not type-check; its callers test the result with `is_err` (src/bin/rlxc.rs:168 and 245). `Cli.StopOne` and `Cli.CmdExec` therefore skip it. `Lxc.Lxc.MayControl` models the native call.
- `cmd_start`, `cmd_list`, `cmd_login`, the bulk `--all` branch of `cmd_stop` and `main`: printing, tables, the `rayon` parallel map, process exit and `clap` argument parsing are left out. The bulk branch lists with `Lxc.ListAllContainers` and drains with `Ffi.StringArrayIter.Collect`, which are modelled. `Scenario.ListTwoContainers` covers that part.
- liblxc, libc `free` and the kernel are not part of this model: the fake `Lxc.Native` and `NativeHeap.Heap` stand for them, and native results are parameters.
- The package name "rlxc" that `clap::crate_name!()` expands to comes from the `use rlxc::` paths at src/bin/rlxc.rs:8-9. Cargo.toml is not part of this model.
- The `LXC_ATTACH_*` values and the environment-policy numbering come from liblxc's `attach_options.h`, which is not part of this model. Neither is `EBADF` (9), from Linux.
- `Ffi.StringArrayIter.Next`: the `expect` on non-UTF-8 text panics, so UTF-8 is a precondition here.
- `Lxc.GetGlobalConfigItem`: the key and the value are unwrapped, so a 0 byte in the key and a non-UTF-8 value are preconditions. The code also calls `CStr::from_ptr` on the native result before checking it for NULL (src/lxc/mod.rs:64-69). That is undefined behaviour for NULL; the model follows the evident intent of the null check.
- `Lxc.ConfigItem`, `Lxc.DefaultPathOf` and `Lxc.GetDefaultPath`: the same precondition on the configured value.
- `Lxc.Lxc.Start` and `Lxc.Lxc.AttachRunWait`: the arguments and the program are unwrapped, so 0-free arguments are a precondition.
- `Lxc.Lxc.GetIpv4` and `Lxc.Lxc.GetIpv6`: the interface name is unwrapped, so a 0-free name is a precondition.
- `Lxc.ListAllContainers`: a NULL array with a positive count would be undefined behaviour in `slice::from_raw_parts`, so it is excluded by a precondition. So is an array that does not own its strings.
- `Lxc.Lxc.GetInterfaces`, `Lxc.Lxc.GetIpv4` and `Lxc.Lxc.GetIpv6` require the array to hold a NULL terminator. Without one the Rust loop reads past the end.
- `Lxc.Lxc.Stop`: its error message is "failed to start container" (src/lxc/mod.rs:164); the model names it `StopFailed`.
- `Cli.ExitCode`: its contract gives only the range and the zero case. The three `ExitCodeOf…` lemmas state the mapping for each kind of status.
- `Cli.ConfigureExec` returns `ok` instead of the messages printed to stderr.
- `Cli.ConfigureExec`, `Cli.RunInContainer`, `Cli.CreateAndRun` and `Cli.CmdExec` take `user` and `group` as inputs. The `exec` subcommand defines no such arguments (src/cli/rlxc.rs:47-72), so in the program both are always absent and the ids keep their `!0` default; the model is more general than that.
- `cmd_stop` is modelled by its parts, `Cli.StopArguments` and `Cli.StopOne`, not as one method, so its `lxc.lxcpath` lookup without `-p` is not in a call log; `Cli.StopArguments` takes the answer as a parameter.

## Findings

| source | as written | input that shows it | evidently intended | confidence | as-written member | corrected member |
|---|---|---|---|---|---|---|
| src/lxc/mod.rs:145-148 | `secs > (!(0 as c_int)) as u64` compares with `u64::MAX`, so it never rejects; `secs as _` then truncates to 32 bits | `shutdown(Some(Duration::from_secs(4294967301)))` passes 5 seconds; `from_secs(2147483648)` passes -2147483648 | a timeout beyond `c_int::MAX` seconds is "timeout too large" | high; not executed | Lxc.ShutdownTimeoutWraps | Lxc.CheckedShutdownTimeout |
| src/lxc/mod.rs:117-131 | NULL is pushed onto an empty list, so `args` is never empty and the `else` branch always passes NULL | `start(true, vec!["/bin/sh"])` hands liblxc NULL, not `["/bin/sh", NULL]` | a non-empty command is passed as a NULL-terminated array, NULL otherwise | high; not executed | Lxc.StartArgvDropsCommand | Lxc.IntendedStartArgv |

`Lxc.Lxc.Start` and `Lxc.Lxc.Shutdown` use the corrected definitions.
`Cli.ParsedTimeoutIsExact` shows that timeouts from the command line never
reach the difference. `stop` accepts at most 2^31 - 1 seconds, and the code
as written and the corrected conversion agree there.
