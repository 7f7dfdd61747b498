/** FileLogWriter (filelog.go) as a class: the worker's steps update the
    fields in place, in the order the Go code does, and each step is proved
    to agree with its counterpart in Rotation. The filesystem is the field
    `fs`, the set of existing path names; the clock, the OS answers and the
    outcomes of diagnostic output arrive as parameters. */
module FileLog {
  import opened Wrappers
  import opened Naming
  import opened Dates
  import opened Failures
  import opened Rotation

  class FileLogWriter {
    const filename: string

    var file: Handle
    /** Handles closed by this writer, in closing order. */
    var closed: seq<nat>

    var format: string
    var header: string
    var trailer: string

    var maxlines: int
    var curlines: int   // maxlines_curlines
    var maxsize: int
    var cursize: int    // maxsize_cursize
    var daily: bool
    var opendate: int   // daily_opendate

    var rotate: bool
    var rotateDateSuffix: bool

    var rotationFailures: Uint64
    var writeFailures: Uint64

    /** The path names that exist on disk. */
    var fs: set<string>

    /** The writer's state as a value. */
    ghost function Abs(): Sink
      reads this
    {
      Sink(filename, format, header, trailer, maxlines, curlines, maxsize, cursize, daily, opendate,
           rotate, rotateDateSuffix, rotationFailures, writeFailures, file, closed, fs)
    }

    /** The allocation in NewFileLogWriter, before the first open. */
    constructor Init(filename: string, rotate: bool, fs: set<string>)
      ensures Abs() == Initial(filename, rotate, fs)
    {
      this.filename := filename;
      this.rotate := rotate;
      this.fs := fs;
      format := DefaultFormat;
      header, trailer := "", "";
      maxlines, curlines, maxsize, cursize := 0, 0, 0, 0;
      daily, opendate := false, 0;
      rotateDateSuffix := false;
      rotationFailures, writeFailures := 0, 0;
      file, closed := NoFile, [];
    }

    /** NewFileLogWriter: null when the first open (or the rotation of a
        stale file) fails. */
    static method New(filename: string, rotate: bool, fs: set<string>, mtime: Date, today: Date, env: RotateEnv)
      returns (w: FileLogWriter?, fsAfter: set<string>)
      ensures (w == null) == Construct(filename, rotate, fs, mtime, today, env).err.Some?
      ensures w != null ==> fresh(w) && w.Abs() == Construct(filename, rotate, fs, mtime, today, env).sink
      // A failed construction still leaves behind whatever it did on disk.
      ensures fsAfter == Construct(filename, rotate, fs, mtime, today, env).sink.fs
    {
      var x := new FileLogWriter.Init(filename, rotate, fs);
      var err: Option<RotateError>;
      if filename in fs && !DateEqual(mtime, today) {
        err := x.HandleRotate(mtime, env);
      } else {
        err := x.OpenLogFile(env.open);
      }
      fsAfter := x.fs;
      if err.Some? {
        w := null;
      } else {
        w := x;
      }
    }

    /** handleWriteFailure */
    method HandleWriteFailure(failed: bool, e: Emits)
      modifies this`writeFailures
      ensures writeFailures == FailureStep(old(writeFailures), failed, e)
    {
      if writeFailures != 0 {
        if !e.summaryOk {
          if failed {
            writeFailures := Inc(writeFailures);
          }
          return;
        } else {
          writeFailures := 0;
        }
      }
      if failed {
        if !e.failureOk {
          writeFailures := Inc(writeFailures);
        }
      }
    }

    /** handleRotationFailure */
    method HandleRotationFailure(err: Option<RotateError>, e: Emits)
      modifies this`rotationFailures
      ensures rotationFailures == FailureStep(old(rotationFailures), err.Some?, e)
    {
      if rotationFailures != 0 {
        if !e.summaryOk {
          if err.Some? {
            rotationFailures := Inc(rotationFailures);
          }
          return;
        } else {
          rotationFailures := 0;
        }
      }
      if err.Some? {
        if !e.failureOk {
          rotationFailures := Inc(rotationFailures);
        }
      }
    }

    /** openLogFile */
    method OpenLogFile(env: OpenEnv) returns (err: Option<RotateError>)
      modifies this
      ensures Abs() == OpenStep(old(Abs()), env).sink
      ensures err == OpenStep(old(Abs()), env).err
    {
      if !env.dirOk {
        return Some(DirectoryFailed);
      }
      if !env.openOk {
        return Some(OpenFailed);
      }
      ghost var s := Abs();
      fs := fs + {filename};
      // The old handle (if any) is closed only now that the new one is open.
      closed := closed + Closing(file);
      file := Fd(env.fd);
      opendate := env.today;
      curlines := 0;
      cursize := 0;
      assert Abs() == s.(fs := s.fs + {filename}, file := Fd(env.fd), closed := s.closed + Closing(s.file),
                         opendate := env.today, curlines := 0, cursize := 0);
      return None;
    }

    /** handleRotate */
    method HandleRotate(rotateTime: Date, env: RotateEnv) returns (err: Option<RotateError>)
      modifies this
      ensures Abs() == RotateStep(old(Abs()), rotateTime, env).sink
      ensures err == RotateStep(old(Abs()), rotateTime, env).err
    {
      if rotate && filename in fs {
        var fname: Result<string, NamingError>;
        if rotateDateSuffix {
          fname := NextDateFilename(fs, filename, FormatDate(rotateTime));
        } else {
          fname := NextIntegerFilename(fs, filename);
        }
        if fname.Err? {
          return Some(NoFreeName(fname.error));
        }
        if !env.renameOk {
          return Some(RenameFailed);
        }
        fs := fs - {filename} + {fname.value};
      }
      err := OpenLogFile(env.open);
    }

    /** The rotation check that precedes each write: the line and size
        thresholds rotate with the current time, otherwise a change of the
        day of the month rotates with the time 24 hours earlier. */
    method RotateIfDue(t: Tick)
      modifies this
      ensures Abs() == RotatePhase(old(Abs()), t)
    {
      if (maxlines > 0 && curlines >= maxlines) || (maxsize > 0 && cursize >= maxsize) {
        RotateAndReport(t.now, t.env, t.rotationEmits);
      } else if daily && t.now.day != opendate {
        RotateAndReport(t.dayBefore, t.env, t.rotationEmits);
      }
    }

    /** The worker's handling of one record: rotate first when a trigger
        fires, then write and count. */
    method ProcessRecord(now: Date, dayBefore: Date, env: RotateEnv, rotationEmits: Emits,
                         written: nat, writeOk: bool, writeEmits: Emits)
      modifies this
      ensures Abs() == RecordStep(old(Abs()), Tick(now, dayBefore, env, rotationEmits, written, writeOk, writeEmits))
    {
      var t := Tick(now, dayBefore, env, rotationEmits, written, writeOk, writeEmits);
      RotateIfDue(t);
      ghost var r := Abs();
      // A write to a nil *os.File fails having written nothing.
      var n, ok := 0, false;
      if file.Fd? {
        n, ok := written, writeOk;
      }
      HandleWriteFailure(!ok, writeEmits);
      curlines := curlines + 1;
      cursize := cursize + n;
      assert Abs() == WritePhase(r, t);
    }

    /** handleRotate followed by handleRotationFailure: the worker's
        handling of a rotation request (with the current time), and the
        rotation a record sets off. */
    method RotateAndReport(rotateTime: Date, env: RotateEnv, e: Emits)
      modifies this
      ensures Abs() == RotateReported(old(Abs()), rotateTime, env, e)
    {
      var err := HandleRotate(rotateTime, env);
      HandleRotationFailure(err, e);
    }

    method SetFormat(format: string) returns (w: FileLogWriter)
      modifies this`format
      ensures w == this && Abs() == old(Abs()).(format := format)
    {
      this.format := format;
      return this;
    }

    method SetHeadFoot(head: string, foot: string) returns (w: FileLogWriter)
      modifies this`header, this`trailer
      ensures w == this && Abs() == old(Abs()).(header := head, trailer := foot)
    {
      header, trailer := head, foot;
      return this;
    }

    method SetRotateLines(maxlines: int) returns (w: FileLogWriter)
      modifies this`maxlines
      ensures w == this && Abs() == old(Abs()).(maxlines := maxlines)
    {
      this.maxlines := maxlines;
      return this;
    }

    method SetRotateSize(maxsize: int) returns (w: FileLogWriter)
      modifies this`maxsize
      ensures w == this && Abs() == old(Abs()).(maxsize := maxsize)
    {
      this.maxsize := maxsize;
      return this;
    }

    method SetRotateDaily(daily: bool) returns (w: FileLogWriter)
      modifies this`daily
      ensures w == this && Abs() == old(Abs()).(daily := daily)
    {
      this.daily := daily;
      return this;
    }

    method SetRotate(rotate: bool) returns (w: FileLogWriter)
      modifies this`rotate
      ensures w == this && Abs() == old(Abs()).(rotate := rotate)
    {
      this.rotate := rotate;
      return this;
    }

    method SetRotateDateSuffix(dateSuffix: bool) returns (w: FileLogWriter)
      modifies this`rotateDateSuffix
      ensures w == this && Abs() == old(Abs()).(dateSuffix := dateSuffix)
    {
      rotateDateSuffix := dateSuffix;
      return this;
    }
  }
}
