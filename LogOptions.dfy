/**
 * The log-options builder of `src/lxc/log_options.rs`: five optional owned
 * C strings and a `quiet` flag, finished into the `struct lxc_log` record
 * handed to `lxc_log_init`.
 */
module Log {

  import opened Wrappers
  import opened Text
  import opened Ffi

  /**
   * The fields of `struct lxc_log`. A pointer field is `None` for NULL and
   * otherwise holds the bytes of the builder's buffer it points at.
   */
  datatype LogRecord = LogRecord(
    name: Option<CStr>,
    lxcpath: Option<CStr>,
    file: Option<CStr>,
    level: Option<CStr>,
    prefix: Option<CStr>,
    quiet: bool)

  /** `std::mem::zeroed()`. */
  const ZEROED := LogRecord(None, None, None, None, None, false)

  /** The C string a setter stores: `to_c_string` followed by `into_owned`. */
  function Converted(v: seq<Byte>): (r: Result<CStr, NulError>)
    ensures r.Success? <==> 0 !in v
    ensures r.Success? ==> r.value == v
    ensures r.Failure? ==> r.error == CStringNew(v).error
  {
    match ToCString(v)
    case Success(cow) => Success(cow.IntoOwned())
    case Failure(e) => Failure(e)
  }

  class LogOptions {
    var raw: LogRecord
    var name: Option<CStr>
    var path: Option<CStr>
    var file: Option<CStr>
    var level: Option<CStr>
    var prefix: Option<CStr>
    var quiet: bool

    /** The record `finish` produces from the current fields. */
    ghost function Finished(): (r: LogRecord)
      reads this
    {
      LogRecord(name, path, file, level, prefix, quiet)
    }

    /** `LogOptions::new` (also `Default`): nothing set, quiet. */
    constructor ()
      ensures raw == ZEROED
      ensures name == None && path == None && file == None && level == None && prefix == None
      ensures quiet
    {
      raw := ZEROED;
      name, path, file, level, prefix := None, None, None, None, None;
      quiet := true;
    }

    /** `set_log_name`: stores `v`, or fails, changing nothing, on a 0 byte. */
    method SetLogName(v: seq<Byte>) returns (r: Outcome<NulError>)
      modifies this`name
      ensures r.Pass? <==> 0 !in v
      ensures r.Pass? ==> name == Some(v)
      ensures r.Fail? ==> name == old(name) && r.error == CStringNew(v).error
    {
      var cv := Converted(v);
      if cv.Failure? {
        return Fail(cv.error);
      }
      name := Some(cv.value);
      r := Pass;
    }

    /** `set_log_path`: stores `v`, or fails, changing nothing, on a 0 byte. */
    method SetLogPath(v: seq<Byte>) returns (r: Outcome<NulError>)
      modifies this`path
      ensures r.Pass? <==> 0 !in v
      ensures r.Pass? ==> path == Some(v)
      ensures r.Fail? ==> path == old(path) && r.error == CStringNew(v).error
    {
      var cv := Converted(v);
      if cv.Failure? {
        return Fail(cv.error);
      }
      path := Some(cv.value);
      r := Pass;
    }

    /** `set_log_file`: stores `v`, or fails, changing nothing, on a 0 byte. */
    method SetLogFile(v: seq<Byte>) returns (r: Outcome<NulError>)
      modifies this`file
      ensures r.Pass? <==> 0 !in v
      ensures r.Pass? ==> file == Some(v)
      ensures r.Fail? ==> file == old(file) && r.error == CStringNew(v).error
    {
      var cv := Converted(v);
      if cv.Failure? {
        return Fail(cv.error);
      }
      file := Some(cv.value);
      r := Pass;
    }

    /** `set_log_level`: stores `v`, or fails, changing nothing, on a 0 byte. */
    method SetLogLevel(v: seq<Byte>) returns (r: Outcome<NulError>)
      modifies this`level
      ensures r.Pass? <==> 0 !in v
      ensures r.Pass? ==> level == Some(v)
      ensures r.Fail? ==> level == old(level) && r.error == CStringNew(v).error
    {
      var cv := Converted(v);
      if cv.Failure? {
        return Fail(cv.error);
      }
      level := Some(cv.value);
      r := Pass;
    }

    /** `set_log_prefix`: stores `v`, or fails, changing nothing, on a 0 byte. */
    method SetLogPrefix(v: seq<Byte>) returns (r: Outcome<NulError>)
      modifies this`prefix
      ensures r.Pass? <==> 0 !in v
      ensures r.Pass? ==> prefix == Some(v)
      ensures r.Fail? ==> prefix == old(prefix) && r.error == CStringNew(v).error
    {
      var cv := Converted(v);
      if cv.Failure? {
        return Fail(cv.error);
      }
      prefix := Some(cv.value);
      r := Pass;
    }

    /** `set_quiet`. */
    method SetQuiet(q: bool)
      modifies this`quiet
      ensures quiet == q
    {
      quiet := q;
    }

    /**
     * `finish`: every pointer field is NULL exactly when its option is unset
     * and otherwise points at that option's buffer; `quiet` is copied.
     */
    method Finish()
      modifies this`raw
      ensures raw == Finished()
      ensures (raw.name.None? <==> name.None?) && (raw.lxcpath.None? <==> path.None?)
      ensures (raw.file.None? <==> file.None?) && (raw.level.None? <==> level.None?)
      ensures (raw.prefix.None? <==> prefix.None?) && raw.quiet == quiet
    {
      raw := raw.(name := if name.Some? then name else None);
      raw := raw.(lxcpath := if path.Some? then path else None);
      raw := raw.(file := if file.Some? then file else None);
      raw := raw.(level := if level.Some? then level else None);
      raw := raw.(prefix := if prefix.Some? then prefix else None);
      raw := raw.(quiet := quiet);
    }

    /** `raw`: finishes and returns the record; again on an unmodified builder gives the same record. */
    method Raw() returns (r: LogRecord)
      modifies this`raw
      ensures r == raw && r == Finished()
      ensures old(raw) == Finished() ==> r == old(raw)
    {
      Finish();
      r := raw;
    }
  }
}
