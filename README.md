# Rotating file log writer — a verified model

This project models the rotation and bookkeeping core of `FileLogWriter`, the
file sink of the log4go logging package (`filelog.go`). A single worker
serialises log records to one file. Before each write it decides whether to
rotate:

- when the line count reaches `maxlines`, or
- when the byte count reaches `maxsize`, or
- otherwise, when the day of the month differs from the day the file was opened.

When `rotate` is set, rotation moves the current file out of the way. The new
name comes from one of two strategies:

- **integer**: `<path>.001` … `<path>.999`;
- **date**: `<path>.YYYY-MM-DD`, then `<path>.YYYY-MM-DD.0001` … `.9999`.

Rotation then reopens `<path>`. Write and rotation failures go into two
`uint64` counters. Each counter holds the failures whose diagnostic line
could not be emitted.

Modules:

- `Wrappers` (wrappers.dfy): `Option` and `Result`.
- `Decimal` (decimal.dfy): Go's `%0Nd` zero padding and its read-back.
- `Dates` (dates.dfy): `dateEqual` and the `2006-01-02` date-suffix layout.
- `Naming` (naming.dfy): the candidate names. The least-free search is
  specified as a function, and `nextIntegerFilename`/`nextDateFilename` are
  loop methods proved equal to it.
- `Failures` (failures.dfy): the failure-counter step on a wrapping `uint64`.
- `Rotation` (rotation.dfy): the writer's state as a value (`Sink`), plus the
  pure effect of each worker step: `OpenStep`, `RotateStep`, `RotatePhase`,
  `RecordStep`, and `Run` over a sequence of records.
- `RotationProperties` (rotation_properties.dfy): lemmas about those steps.
- `FileLog` (filelog.dfy): the class `FileLogWriter`. Its fields are the Go
  struct's fields. Its methods update them in the same order as the Go code.
  Each method is proved to leave `Abs()` equal to the matching step of
  `Rotation` applied to the old `Abs()`.

The environment arrives as parameters:

- The filesystem is the field `fs`, the set of path names that exist.
  Renaming, and opening with `O_CREATE`, update this set.
- `makeDirectory`, `os.OpenFile` and `os.Rename` report success as booleans.
  The handle `OpenFile` returns is a number.
- The clock arrives as `Date` values: now, and the date of now minus 24 hours.
  The day of the month read after an open is a separate input, because
  `openLogFile` reads the clock again.
- For each diagnostic line, a boolean says whether emitting it succeeded.
- A write returns its byte count and a success flag. A write to a nil handle
  fails and writes nothing.

Four behaviours of the code that are easy to misread:

- The counters grow after every write, failed or not (filelog.go:206-211).
- A failed rotation never leaves the writer without a handle. `file` is
  replaced only after a successful open (filelog.go:295-305).
- The daily trigger compares only the day of the month (filelog.go:199,
  filelog.go:311). A record that arrives on the same day of a later month
  does not rotate.
- `openLogFile` opens with `O_APPEND|O_CREATE` and no `O_TRUNC`
  (filelog.go:295). With `rotate` off, a rotation therefore reopens the same
  file and keeps appending to it; only the counters are reset. The comment on
  `SetRotate` (filelog.go:362-365) says the file is overwritten instead.

## Model

| member | source | states |
|---|---|---|
| `Decimal.PadRoundTrip` | filelog.go:227 | a zero-padded number reads back as itself at any width, and is all digits |
| `Decimal.PadLength` | filelog.go:227 | a number below 10^w pads to exactly w characters, so `%03d` of 1..999 is three digits |
| `Decimal.PadInjective` | filelog.go:249 | distinct numbers pad to distinct strings |
| `Naming.FirstFree` | filelog.go:226-230 | returns the first candidate that does not exist, with every earlier one existing; returns none exactly when all exist |
| `Naming.FirstFreeAt` | filelog.go:226-230 | a free candidate preceded only by existing ones is the one the search returns |
| `Naming.LeastFreeIntegerNameIsLeast` | filelog.go:225-234 | the name chosen is `<path>.NNN` for the least free NNN in 1..999 and never an existing name; the error comes exactly when all 999 exist |
| `Naming.LeastFreeIntegerNameFromTaken` | filelog.go:225-234 | conversely, a free `<path>.NNN` whose smaller numbers all exist is the name chosen |
| `Naming.NextIntegerFilename` | filelog.go:225-234 | the probing loop returns exactly the least free integer name, or the error when none is free |
| `Naming.LeastFreeDateNameIsLeast` | filelog.go:237-258 | the result is `<path>.<date>` exactly when that is free, else the least free `<path>.<date>.NNNN` in 1..9999; never an existing name; the error comes exactly when the bare name and all 9999 exist |
| `Naming.LeastFreeDateNameFromTaken` | filelog.go:240-255 | conversely, when `<path>.<date>` exists, a free `<path>.<date>.NNNN` whose smaller counters all exist is the name chosen |
| `Naming.NextDateFilename` | filelog.go:237-258 | the bare-name probe followed by the counter loop returns exactly the least free date name, or the error |
| `Naming.IntegerNamesDistinct` | filelog.go:226-227 | the 999 integer candidates are pairwise distinct |
| `Naming.DateCounterNamesDistinct` | filelog.go:248-249 | the 9999 counter candidates are pairwise distinct |
| `Naming.NameLayout` | filelog.go:237-249 | rotated names are bit-exact: `app.log.006`, `app.log.2024-03-07.0001` |
| `Naming.SkipsTakenNumbers` | filelog.go:226-230 | with `<path>.001`..`.005` present, the next integer name is `<path>.006` |
| `Naming.SameDateRotations` | filelog.go:239-251 | two rotations on one date yield `<path>.<date>`, then `<path>.<date>.0001` |
| `Dates.DateEqual` | filelog.go:19-26 | true exactly when year, month and day all agree |
| `Dates.FormatDateInjective` | filelog.go:269 | different dates (years 0..9999) give different date suffixes |
| `Dates.SuffixLayout` | filelog.go:15 | the date suffix is `YYYY-MM-DD` zero-padded |
| `Failures.Inc` | filelog.go:105 | `+= 1` on a uint64 wraps modulo 2^64 |
| `Failures.FailureStep` | filelog.go:99-118 | with no current error the counter never grows, and falls to 0 exactly when the backlog summary is emitted (or it was 0); with an error it becomes c+1 when a nonzero backlog cannot be reported, else 1 or 0 as the failure report fails or succeeds |
| `Failures.SilentFailuresAccumulate` | filelog.go:99-118 | k failures whose diagnostics all fail raise the counter by exactly k (mod 2^64) |
| `FileLog.FileLogWriter.HandleWriteFailure` | filelog.go:99-118 | updates only `writeFailures`, to `FailureStep` of its old value |
| `FileLog.FileLogWriter.HandleRotationFailure` | filelog.go:121-140 | updates only `rotationFailures`, by the same step as write failures |
| `FileLog.FileLogWriter.OpenLogFile` | filelog.go:289-318 | the new state and the error are those of `OpenStep` |
| `RotationProperties.OpenResetsOnlyOnSuccess` | filelog.go:289-318 | succeeds exactly when the directory check and the open succeed; on success it takes the new handle, closes the old one, resets both counters, records the open day and creates the file; on failure it changes nothing |
| `FileLog.FileLogWriter.HandleRotate` | filelog.go:261-287 | the new state and the error are those of `RotateStep` |
| `RotationProperties.RotateFailureLeavesWriterAlone` | filelog.go:261-287 | a failed rotation keeps handle, counters and open day; a naming or rename failure returns before the open and changes nothing |
| `RotationProperties.RotateNeverOverwrites` | filelog.go:263-283 | no file other than the current one is ever lost; a kept rotation moves the log to a previously free name, so the filesystem gains exactly that name |
| `RotationProperties.NoKeepRenamesNothing` | filelog.go:263-286 | with `rotate` off, no name is renamed; the open alone may create the current file |
| `FileLog.FileLogWriter.RotateAndReport` | filelog.go:186-188 | handleRotate and then handleRotationFailure, giving the state `RotateReported` |
| `RotationProperties.TriggerPriority` | filelog.go:195-199 | the line or size threshold decides first; the day change counts only when neither threshold is reached; with every trigger disabled nothing fires |
| `FileLog.FileLogWriter.RotateIfDue` | filelog.go:195-203 | rotates at most once: with time now on a threshold, else with the time 24 hours earlier on a day change |
| `RotationProperties.RotatePhaseCounters` | filelog.go:195-203 | the rotation phase of a record resets both counters exactly when a rotation fires and succeeds, and keeps the configuration and, otherwise, the handle and open day |
| `FileLog.FileLogWriter.ProcessRecord` | filelog.go:194-211 | the state after one record is `RecordStep` of the old state |
| `RotationProperties.RecordCounters` | filelog.go:205-211 | after a record the line count is one more than before, or 1 after a successful rotation; the byte count grows by the bytes the write reported, even when the write failed; configuration is kept |
| `RotationProperties.DailyRotationNamedForPreviousDay` | filelog.go:199-202 | a day-change rotation names the kept file for the date of now minus 24 hours |
| `RotationProperties.ThresholdRotationNamedForToday` | filelog.go:195-198 | a threshold rotation names the kept file for the current date |
| `RotationProperties.DisabledNeverRotates` | filelog.go:195-211 | with no line limit, no size limit and no daily rotation, a run of any length never rotates; files, handle and rotation counter stay unchanged and each record adds a line |
| `RotationProperties.LineRotationCount` | filelog.go:195-211 | with only a line limit L and successful rotations, k rotations over n records from c lines satisfy k·L < c+n ≤ (k+1)·L, i.e. ⌈n/L⌉−1 rotations from a fresh file |
| `FileLog.FileLogWriter.Init` | filelog.go:152-161 | the allocated writer: default format, rotate flag as given, no file, zero counters |
| `FileLog.FileLogWriter.New` | filelog.go:151-174 | an existing file last modified on another date is rotated, otherwise the file is opened; null exactly when that fails; the filesystem afterwards is that of `Construct`, failure included |
| `RotationProperties.FailedConstructionKeepsRename` | filelog.go:163-168 | when the stale file was renamed but the open then fails, no writer is returned and the rename stays on disk |
| `RotationProperties.ConstructedWriterIsOpen` | filelog.go:163-174 | a returned writer holds the new handle and has zero counters; a path that did not exist is simply opened |
| `FileLog.FileLogWriter.SetFormat` | filelog.go:322-325 | sets `format` only and returns the writer |
| `FileLog.FileLogWriter.SetHeadFoot` | filelog.go:330-336 | sets `header` and `trailer` only and returns the writer |
| `FileLog.FileLogWriter.SetRotateLines` | filelog.go:340-344 | sets `maxlines` only and returns the writer |
| `FileLog.FileLogWriter.SetRotateSize` | filelog.go:348-352 | sets `maxsize` only and returns the writer |
| `FileLog.FileLogWriter.SetRotateDaily` | filelog.go:356-360 | sets `daily` only and returns the writer |
| `FileLog.FileLogWriter.SetRotate` | filelog.go:366-370 | sets `rotate` only and returns the writer |
| `FileLog.FileLogWriter.SetRotateDateSuffix` | filelog.go:374-377 | sets `rotateDateSuffix` only and returns the writer |

## Left out

- The goroutine, its channels and `select`, `LogWrite`, `Rotate` and `Close`
  (filelog.go:89-96, 176-192, 214, 220-222). They exist for concurrency. The
  model keeps the sequential steps the worker runs: `ProcessRecord` and
  `RotateAndReport`.
- The trailer write and file close when the worker shuts down
  (filelog.go:177-182). This is I/O at shutdown.
- All text output is left out: headers, trailers, formatted records
  (`FormatLogRecord` is not part of this model), and the wording of the
  diagnostic lines. Only the byte count and the success of each write or
  emission are modelled.
- The header write in `SetHeadFoot` (filelog.go:332-334). This is I/O.
- `NewXMLLogWriter` (filelog.go:381-388). It only configures a writer.
- `makeDirectory` (filelog.go:29-44) is one boolean outcome. Directories that
  `MkdirAll` creates are not added to `fs`.
- `os.Lstat`/`os.Stat` are plain membership in `fs`. The code treats a probe
  error other than "does not exist" differently in two places: the naming
  searches count it as taken, while the existence check in `handleRotate`
  counts it as absent. The model has no such third outcome.
- `maxlines_curlines` and `maxsize_cursize` are unbounded integers. Go's
  `int` is 32 or 64 bits wide depending on the target. On a 64-bit target
  overflow needs more than 2^63 records or bytes. On a 32-bit target
  `maxsize_cursize` wraps once 2^31 bytes have been written to one file. With
  a size limit set, that happens only while rotations keep failing; the byte
  count then turns negative and the size trigger (filelog.go:196) stops firing
  until it climbs back. The model does not capture this 32-bit case.
- `Dates.FormatDate` covers non-negative years only. The date of "now minus
  24 hours" is an input and is not computed from now: time zones and
  daylight-saving shifts are left to the clock that supplies it.
- Record contents and order within files are not modelled. The model counts
  rotations and lines. It does not show which records land in which rotated
  file.
