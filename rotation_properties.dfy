/** What the rotation steps of Rotation guarantee, one step at a time and
    over runs of records. */
module RotationProperties {
  import opened Naming
  import opened Dates
  import opened Rotation

  /** openLogFile resets the rotation counters and takes the new handle only
      when both the directory check and the open succeed; on either error
      nothing changes, and the old handle is closed only after the new one
      is open. */
  lemma OpenResetsOnlyOnSuccess(s: Sink, env: OpenEnv)
    ensures OpenStep(s, env).err.None? <==> env.dirOk && env.openOk
    ensures OpenStep(s, env).err.Some? ==> OpenStep(s, env).sink == s
    ensures var r := OpenStep(s, env).sink;
      OpenStep(s, env).err.None? ==>
        r.file == Fd(env.fd) && r.closed == s.closed + Closing(s.file) &&
        r.curlines == 0 && r.cursize == 0 && r.opendate == env.today &&
        r.fs == s.fs + {s.filename} &&
        r == s.(file := r.file, closed := r.closed, curlines := 0, cursize := 0, opendate := r.opendate, fs := r.fs)
  {
  }

  /** A failed rotation leaves the handle, the counters and the open date as
      they were; when it fails before the rename it changes nothing at all. */
  lemma RotateFailureLeavesWriterAlone(s: Sink, rotateTime: Date, env: RotateEnv)
    ensures var o := RotateStep(s, rotateTime, env);
      o.err.Some? ==> o.sink == s.(fs := o.sink.fs)
    ensures var o := RotateStep(s, rotateTime, env);
      o.err.Some? && (o.err.value.NoFreeName? || o.err.value.RenameFailed?) ==> o.sink == s
  {
  }

  /** Rotation never destroys a file other than the current one, and a
      successful rotation that keeps the old log moves it to a name that was
      free: the filesystem gains exactly that one name. */
  lemma RotateNeverOverwrites(s: Sink, rotateTime: Date, env: RotateEnv)
    ensures s.fs - {s.filename} <= RotateStep(s, rotateTime, env).sink.fs
    ensures s.rotate && s.filename in s.fs && RotateStep(s, rotateTime, env).err.None? ==>
              Destination(s, rotateTime).Ok? && Destination(s, rotateTime).value !in s.fs &&
              RotateStep(s, rotateTime, env).sink.fs == s.fs + {Destination(s, rotateTime).value}
  {
  }

  /** Without keeping old logs no name is renamed: the open alone may create
      the current file. */
  lemma NoKeepRenamesNothing(s: Sink, rotateTime: Date, env: RotateEnv)
    requires !s.rotate
    ensures var o := RotateStep(s, rotateTime, env);
      o.sink.fs == (if o.err.None? then s.fs + {s.filename} else s.fs)
    ensures RotateStep(s, rotateTime, env).err.None? <==> env.open.dirOk && env.open.openOk
  {
  }

  /** The line and size thresholds take priority; the day change is
      considered only when neither is reached. */
  lemma TriggerPriority(s: Sink, today: nat)
    ensures TriggerOf(s, today) == Threshold <==>
              (s.maxlines > 0 && s.curlines >= s.maxlines) || (s.maxsize > 0 && s.cursize >= s.maxsize)
    ensures TriggerOf(s, today) == DayChange <==>
              TriggerOf(s, today) != Threshold && s.daily && today != s.opendate
    ensures s.maxlines <= 0 && s.maxsize <= 0 && !s.daily ==> TriggerOf(s, today) == NoTrigger
  {
  }

  /** A record rotated the file before being written. */
  predicate Rotated(s: Sink, t: Tick)
  {
    TriggerOf(s, t.now.day) != NoTrigger && RotationSucceeds(s, t)
  }

  /** After a record the line count is one more than before (or 1 after a
      successful rotation), and the byte count grows by what the write
      reported, whether or not the write failed. Configuration is kept. */
  lemma RecordCounters(s: Sink, t: Tick)
    ensures var r := RecordStep(s, t);
      r.curlines == (if Rotated(s, t) then 0 else s.curlines) + 1
    ensures var r := RecordStep(s, t);
      RotatePhase(s, t).file.Fd? ==> r.cursize == (if Rotated(s, t) then 0 else s.cursize) + t.written
    ensures var r := RecordStep(s, t);
      RotatePhase(s, t).file.NoFile? ==> r.cursize == s.cursize
    ensures var r := RecordStep(s, t);
      r.filename == s.filename && r.maxlines == s.maxlines && r.maxsize == s.maxsize && r.daily == s.daily &&
      r.rotate == s.rotate && r.dateSuffix == s.dateSuffix && r.format == s.format
    ensures var r := RecordStep(s, t);
      !Rotated(s, t) ==> r.opendate == s.opendate && r.file == s.file && r.closed == s.closed
  {
    RotatePhaseCounters(s, t);
  }

  /** The rotation phase of a record: counters are reset exactly when the
      rotation succeeds; configuration is kept. */
  lemma RotatePhaseCounters(s: Sink, t: Tick)
    ensures var r := RotatePhase(s, t);
      r.curlines == (if Rotated(s, t) then 0 else s.curlines) &&
      r.cursize == (if Rotated(s, t) then 0 else s.cursize)
    ensures var r := RotatePhase(s, t);
      r.filename == s.filename && r.maxlines == s.maxlines && r.maxsize == s.maxsize && r.daily == s.daily &&
      r.rotate == s.rotate && r.dateSuffix == s.dateSuffix && r.format == s.format
    ensures var r := RotatePhase(s, t);
      !Rotated(s, t) ==> r.opendate == s.opendate && r.file == s.file && r.closed == s.closed
  {
    match TriggerOf(s, t.now.day)
    case NoTrigger =>
    case Threshold =>
      RotateFailureLeavesWriterAlone(s, t.now, t.env);
    case DayChange =>
      RotateFailureLeavesWriterAlone(s, t.dayBefore, t.env);
  }

  /** A day change that is detected while the thresholds are not reached
      names the kept file for the day before (now minus 24 hours), and the
      new file starts with the record just written. */
  lemma DailyRotationNamedForPreviousDay(s: Sink, t: Tick)
    requires TriggerOf(s, t.now.day) == DayChange
    requires s.rotate && s.dateSuffix && s.filename in s.fs
    requires DateName(s.filename, FormatDate(t.dayBefore)) !in s.fs
    requires t.env.renameOk && t.env.open.dirOk && t.env.open.openOk
    ensures DateName(s.filename, FormatDate(t.dayBefore)) in RecordStep(s, t).fs
    ensures RecordStep(s, t).curlines == 1 && RecordStep(s, t).opendate == t.env.open.today
  {
  }

  /** A threshold rotation names the kept file for the current date. */
  lemma ThresholdRotationNamedForToday(s: Sink, t: Tick)
    requires TriggerOf(s, t.now.day) == Threshold
    requires s.rotate && s.dateSuffix && s.filename in s.fs
    requires DateName(s.filename, FormatDate(t.now)) !in s.fs
    requires t.env.renameOk && t.env.open.dirOk && t.env.open.openOk
    ensures DateName(s.filename, FormatDate(t.now)) in RecordStep(s, t).fs
    ensures RecordStep(s, t).curlines == 1 && RecordStep(s, t).opendate == t.env.open.today
  {
  }

  /** With no line limit, no size limit and no daily rotation, the writer
      never rotates: files, handle and rotation bookkeeping stay as they are
      and every record adds one line. */
  lemma {:induction false} DisabledNeverRotates(s: Sink, ticks: seq<Tick>)
    requires s.maxlines <= 0 && s.maxsize <= 0 && !s.daily
    ensures Rotations(s, ticks) == 0
    ensures var r := Run(s, ticks);
      r.fs == s.fs && r.file == s.file && r.closed == s.closed &&
      r.opendate == s.opendate && r.rotationFailures == s.rotationFailures &&
      r.curlines == s.curlines + |ticks|
    decreases |ticks|
  {
    if ticks != [] {
      var s' := RecordStep(s, ticks[0]);
      assert TriggerOf(s, ticks[0].now.day) == NoTrigger;
      DisabledNeverRotates(s', ticks[1..]);
    }
  }

  /** With only a line limit L, and every rotation succeeding, the k
      rotations of a run of n records that starts from c lines satisfy
      k * L < c + n <= (k + 1) * L, that is k = ceil((c + n) / L) - 1; from
      a freshly opened file (c = 0) this is ceil(n / L) - 1. */
  lemma {:induction false} LineRotationCount(s: Sink, ticks: seq<Tick>)
    requires s.maxlines > 0 && s.maxsize <= 0 && !s.daily
    requires 0 <= s.curlines <= s.maxlines
    requires |ticks| + s.curlines >= 1
    requires AllRotationsSucceed(s, ticks)
    ensures Rotations(s, ticks) * s.maxlines < |ticks| + s.curlines <= (Rotations(s, ticks) + 1) * s.maxlines
    decreases |ticks|
  {
    if ticks != [] {
      var t := ticks[0];
      var s' := RecordStep(s, t);
      RecordCounters(s, t);
      LineRotationCount(s', ticks[1..]);
      var k, k' := Rotations(s, ticks), Rotations(s', ticks[1..]);
      if s.curlines == s.maxlines {
        assert k == k' + 1;
        assert k * s.maxlines == k' * s.maxlines + s.maxlines;
        assert (k + 1) * s.maxlines == (k' + 1) * s.maxlines + s.maxlines;
      } else {
        assert k == k';
      }
    }
  }

  /** A writer that NewFileLogWriter returns has an open file and fresh
      counters; a file that does not exist yet is simply opened. */
  lemma ConstructedWriterIsOpen(filename: string, rotate: bool, fs: set<string>, mtime: Date, today: Date, env: RotateEnv)
    ensures var o := Construct(filename, rotate, fs, mtime, today, env);
      o.err.None? ==>
        o.sink.file == Fd(env.open.fd) && o.sink.closed == [] && filename in o.sink.fs &&
        o.sink.curlines == 0 && o.sink.cursize == 0 && o.sink.opendate == env.open.today
    ensures filename !in fs ==>
      (Construct(filename, rotate, fs, mtime, today, env).err.None? <==> env.open.dirOk && env.open.openOk)
  {
  }

  /** NewFileLogWriter can fail after it has already renamed a stale log:
      the rename stays on disk although no writer is returned. */
  lemma FailedConstructionKeepsRename(filename: string, rotate: bool, fs: set<string>, mtime: Date, today: Date, env: RotateEnv)
    requires rotate && filename in fs && mtime != today && env.renameOk
    requires !(env.open.dirOk && env.open.openOk)
    ensures var s := Initial(filename, rotate, fs);
      var o := Construct(filename, rotate, fs, mtime, today, env);
      Destination(s, mtime).Ok? ==>
        o.err.Some? && o.sink.fs == fs - {filename} + {Destination(s, mtime).value}
  {
    assert !DateEqual(mtime, today);
  }
}
