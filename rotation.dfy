/** The state of a FileLogWriter as a value, and the effect of each step the
    writer's worker performs on it (filelog.go): openLogFile, handleRotate,
    the per-record step and the rotation-request step. The class in FileLog
    performs these steps in place and is proved to agree with them. */
module Rotation {
  import opened Wrappers
  import opened Naming
  import opened Dates
  import opened Failures

  /** The writer's `file`: nil until the first successful open. */
  datatype Handle = NoFile | Fd(id: nat)

  datatype RotateError =
    | NoFreeName(cause: NamingError)  // nextIntegerFilename / nextDateFilename gave up
    | RenameFailed                    // os.Rename failed
    | DirectoryFailed                 // makeDirectory failed
    | OpenFailed                      // os.OpenFile failed

  /** What the operating system and the clock answer during openLogFile:
      whether makeDirectory and os.OpenFile succeed, the handle OpenFile
      returns, and the day of the month of the clock reading taken after the
      open. */
  datatype OpenEnv = OpenEnv(dirOk: bool, openOk: bool, fd: nat, today: nat)

  /** What the operating system answers during handleRotate: whether the
      rename succeeds, then what the open sees. */
  datatype RotateEnv = RotateEnv(renameOk: bool, open: OpenEnv)

  /** Every field of the writer that the modelled code reads or writes, plus
      the filesystem (the set of existing path names) and the handles closed
      so far, in closing order. */
  datatype Sink = Sink(
    filename: string,
    format: string, header: string, trailer: string,
    maxlines: int, curlines: int,
    maxsize: int, cursize: int,
    daily: bool, opendate: int,
    rotate: bool, dateSuffix: bool,
    rotationFailures: Uint64, writeFailures: Uint64,
    file: Handle, closed: seq<nat>,
    fs: set<string>)

  /** A step that can fail: the resulting state and the error it returns. */
  datatype Outcome = Outcome(sink: Sink, err: Option<RotateError>)

  const DefaultFormat: string := "[%D %T] [%L] (%S) %M"

  /** The writer as NewFileLogWriter allocates it, before the first open. */
  function Initial(filename: string, rotate: bool, fs: set<string>): Sink
  {
    Sink(filename, DefaultFormat, "", "", 0, 0, 0, 0, false, 0, rotate, false, 0, 0, NoFile, [], fs)
  }

  /** The handle an open closes: the previous one, if any. */
  function Closing(h: Handle): seq<nat>
  {
    if h.Fd? then [h.id] else []
  }

  /** openLogFile */
  function OpenStep(s: Sink, env: OpenEnv): Outcome
  {
    if !env.dirOk then Outcome(s, Some(DirectoryFailed))
    else if !env.openOk then Outcome(s, Some(OpenFailed))
    else Outcome(s.(fs := s.fs + {s.filename}, file := Fd(env.fd), closed := s.closed + Closing(s.file),
                    opendate := env.today, curlines := 0, cursize := 0), None)
  }

  /** The name the current file is moved to under the configured strategy. */
  function Destination(s: Sink, rotateTime: Date): Result<string, NamingError>
  {
    if s.dateSuffix then LeastFreeDateName(s.fs, s.filename, FormatDate(rotateTime))
    else LeastFreeIntegerName(s.fs, s.filename)
  }

  /** handleRotate(rotateTime) */
  function RotateStep(s: Sink, rotateTime: Date, env: RotateEnv): Outcome
  {
    if s.rotate && s.filename in s.fs then
      match Destination(s, rotateTime)
      case Err(e) => Outcome(s, Some(NoFreeName(e)))
      case Ok(dest) =>
        if !env.renameOk then Outcome(s, Some(RenameFailed))
        else OpenStep(s.(fs := s.fs - {s.filename} + {dest}), env.open)
    else OpenStep(s, env.open)
  }

  /** handleRotationFailure applied to the error a rotation returned. */
  function Bookkeep(o: Outcome, e: Emits): Sink
  {
    o.sink.(rotationFailures := FailureStep(o.sink.rotationFailures, o.err.Some?, e))
  }

  /** handleRotate followed by handleRotationFailure, as the worker does
      for a rotation request and for the rotation a record sets off. */
  function RotateReported(s: Sink, rotateTime: Date, env: RotateEnv, e: Emits): Sink
  {
    Bookkeep(RotateStep(s, rotateTime, env), e)
  }

  /** NewFileLogWriter: an existing file last modified on another date is
      rotated (named for its modification date); otherwise the file is
      opened directly. The result is no writer at all when this fails. */
  function Construct(filename: string, rotate: bool, fs: set<string>, mtime: Date, today: Date, env: RotateEnv): Outcome
  {
    var s := Initial(filename, rotate, fs);
    if filename in fs && !DateEqual(mtime, today) then RotateStep(s, mtime, env)
    else OpenStep(s, env.open)
  }

  datatype Trigger = NoTrigger | Threshold | DayChange

  /** Which rotation, if any, a record sets off before it is written. */
  function TriggerOf(s: Sink, today: nat): Trigger
  {
    if (s.maxlines > 0 && s.curlines >= s.maxlines) || (s.maxsize > 0 && s.cursize >= s.maxsize) then Threshold
    else if s.daily && today != s.opendate then DayChange
    else NoTrigger
  }

  /** Everything the environment decides while one record is processed:
      the clock (the date of now and of now minus 24 hours), the OS answers
      for a rotation, the diagnostic outcomes, and what the write returns. */
  datatype Tick = Tick(
    now: Date, dayBefore: Date,
    env: RotateEnv, rotationEmits: Emits,
    written: nat, writeOk: bool, writeEmits: Emits)

  /** The state after the optional rotation that precedes a write. */
  function RotatePhase(s: Sink, t: Tick): Sink
  {
    match TriggerOf(s, t.now.day)
    case NoTrigger => s
    case Threshold => RotateReported(s, t.now, t.env, t.rotationEmits)
    case DayChange => RotateReported(s, t.dayBefore, t.env, t.rotationEmits)
  }

  /** A write to a nil handle fails having written nothing. */
  function WriteResult(h: Handle, t: Tick): (nat, bool)
  {
    if h.Fd? then (t.written, t.writeOk) else (0, false)
  }

  /** The write of a record and the counter updates that follow it. */
  function WritePhase(r: Sink, t: Tick): Sink
  {
    var (n, ok) := WriteResult(r.file, t);
    r.(writeFailures := FailureStep(r.writeFailures, !ok, t.writeEmits),
       curlines := r.curlines + 1, cursize := r.cursize + n)
  }

  /** One record: the optional rotation, then the write, the write
      bookkeeping and the counter updates. */
  function RecordStep(s: Sink, t: Tick): Sink
  {
    WritePhase(RotatePhase(s, t), t)
  }

  /** Records processed one after another. */
  function Run(s: Sink, ticks: seq<Tick>): Sink
    decreases |ticks|
  {
    if ticks == [] then s else Run(RecordStep(s, ticks[0]), ticks[1..])
  }

  /** Number of rotations attempted while processing the records. */
  function Rotations(s: Sink, ticks: seq<Tick>): nat
    decreases |ticks|
  {
    if ticks == [] then 0
    else (if TriggerOf(s, ticks[0].now.day) != NoTrigger then 1 else 0) + Rotations(RecordStep(s, ticks[0]), ticks[1..])
  }

  /** The rotation a record sets off, if any, succeeds. */
  predicate RotationSucceeds(s: Sink, t: Tick)
  {
    match TriggerOf(s, t.now.day)
    case NoTrigger => true
    case Threshold => RotateStep(s, t.now, t.env).err.None?
    case DayChange => RotateStep(s, t.dayBefore, t.env).err.None?
  }

  /** Every rotation along the run succeeds. */
  predicate AllRotationsSucceed(s: Sink, ticks: seq<Tick>)
    decreases |ticks|
  {
    ticks == [] || (RotationSucceeds(s, ticks[0]) && AllRotationsSucceed(RecordStep(s, ticks[0]), ticks[1..]))
  }
}
