# Rotating file logger (qwm/log/log.h)

This project models the logger in `qwm/log/log.h`. A `Logger` picks a sink from
a severity level:

- `ERROR` and `WARNING` get a `FileLogger`. It appends timestamped records to a
  file. When the stream position reported by `tellp()` has reached `maxSize`
  before a write, it first renames the file to `<path>.bak`, replacing any older
  backup, and reopens the path.
- `INFO` gets a `ConsoleLogger`, which writes the record to standard output.
- Any other value gets a `NullLogger`, which does nothing.

The macros `LOG_ERROR`, `LOG_WARNING` and `LOG_INFO` build a fresh `Logger` for
each message.

Files:

- `io.dfy` (module `Io`) models the facilities the logger calls but does not
  implement. Files are a map from path to contents. `std::rename`, opening for
  append and appending are operations on that map. The `Disk` class changes the
  map in place. Standard output is the `Console` class, which holds everything
  written so far. Whether the environment permits a rename or an open is an
  explicit boolean input. A rename also needs its source to exist. An open also
  needs a non-empty path.
- `log.dfy` (module `Log`) holds functions on values that say what each
  operation does to the files and the stream: `Opened`, `RolledOver`,
  `Appended`, `Logged` and `Routed`. It also holds the level selection
  `Select`, the classes `FileLogger` and `Logger`, and the macros. Each class
  method performs the source's steps in order (close, rename, reopen; test,
  roll over, write). Each one is proved to produce the state its function
  describes.
- `runs.dfy` (module `Runs`) covers sequences of calls, both for one persistent
  `FileLogger` and for the macros, which reopen the file on every call.

The stream position is explicit. An open stream carries the position `tellp()`
reports. A stream that is not open reports -1. Every write of an append-mode
stream lands at the end of the file and leaves the position there, so after a
write the position is the file's new length. What `tellp()` reports right
after an append-mode open, before any write, is not fixed by the C++ standard:
it depends on the library and the C runtime under it. So it is a parameter
(`OpenPosition`):

- `AtStart` is a library that leaves the file offset at 0 after the open.
- `AtEnd` is one that moves the offset to the end of the file. Opening with
  `std::ios::ate` always gives this. By a reading of their sources (nothing was
  executed), libstdc++ on glibc behaves this way too, because glibc seeks a
  write-only append stream to the end when it opens it.

The initial position matters only for the first test after each open; every
later test at line 24 compares the file's size.

A size query on a stream that is not open might be taken as 0. The code calls
`tellp()`, which reports -1 on a failed stream, and the model follows the code.
The two readings differ only when `maxSize` is 0, the `Logger` default. The
code then does not roll over a closed sink, because -1 < 0. With a negative
`maxSize`, both readings roll over a closed sink, and the rename may succeed.
`ClosedSinkIsSilent` therefore requires `maxSize >= 0`.

## Model

| member | source | states |
|---|---|---|
| `Io.Renamed` | qwm/log/log.h:39 | on success the source name is gone and the target holds the source's old contents, replacing the target's; on failure (not permitted, or no source) no file changes; no other path changes either way |
| `Io.OpenedForAppend` | qwm/log/log.h:20 | a successful append-mode open leaves the file existing with unchanged contents (created empty when missing); a failed one changes nothing; no other path changes |
| `Io.Disk.Rename` | qwm/log/log.h:39 | the disk afterwards is `Renamed` of the disk before, and the result says whether the rename succeeded |
| `Io.Disk.OpenForAppend` | qwm/log/log.h:20 | the disk afterwards is `OpenedForAppend` of the disk before, and the result says whether the open succeeded |
| `Io.Disk.Append` | qwm/log/log.h:32 | a write to an append-mode stream adds the text at the end of the file and changes nothing else |
| `Io.Console.Write` | qwm/log/log.h:51 | standard output afterwards is the old output followed by the text |
| `Log.Backup` | qwm/log/log.h:38 | the backup path is the live path plus ".bak", which is never the live path itself |
| `Log.Opened` | qwm/log/log.h:19-21 | the stream is open exactly when the open succeeds; then the live file exists with its old contents and the position is the library's initial one; otherwise no file changes and `tellp()` will report -1 |
| `Log.RolledOver` | qwm/log/log.h:36-41 | only the live file and the backup change; after a successful rename the backup holds exactly the old live contents (one generation) and the live file is empty at position 0 if the reopen succeeds, absent if not; after a failed rename both files keep their contents and the reopened stream's position is the library's initial one |
| `Log.Logged` | qwm/log/log.h:23-34 | below `maxSize` an open sink appends exactly timestamp + message + "\n" to the live file, leaves every other file alone and ends with the position at the file's new length, while a closed sink changes nothing; at or above `maxSize` a complete rotation leaves the old live contents in the backup and only this record in the live file, at position its length; a failed rename puts the record at the end of the original file, leaves the backup untouched and ends at that file's length; a failed reopen keeps the rename and loses the record |
| `Log.Appended` | qwm/log/log.h:32 | an open stream adds the text at the end of the live file and leaves the position at the file's new length; a closed stream changes neither; no other file changes |
| `Log.OvershootBound` | qwm/log/log.h:24-32 | for a positive `maxSize` and a position at the file's end (as after any write), a call that started below the limit or rotated after a successful rename leaves a live file shorter than `maxSize` plus its own record, and `tellp()` reports that length |
| `Log.ClosedSinkIsSilent` | qwm/log/log.h:20 | a sink whose stream is not open, with `maxSize >= 0`, changes no file and returns normally |
| `Log.LoggedEndsAtFileEnd` | qwm/log/log.h:24-40 | whatever the position before, a `log` call leaves it at the live file's length (or the stream closed), so only the first test after an open can see the library's initial position |
| `Log.FirstCallAfterOpenAtStart` | qwm/log/log.h:19-32 | when an open reports position 0, the first call never rotates, however large the file: it appends the record and the position becomes the file's length |
| `Log.Select` | qwm/log/log.h:64-72 | a file sink with the given path and `maxSize` exactly for `ERROR` and `WARNING`; the console sink exactly for `INFO`; the null sink exactly for any other value (a cast value outside 0, 1 and 2) |
| `Log.Routed` | qwm/log/log.h:64-85 | one macro-style call (build a `Logger`, log, drop it): the file levels write nothing to standard output and touch no file except the live file and its backup; `INFO` adds exactly the record to standard output and changes no file; any other level changes nothing |
| `Log.FileLogger.constructor` | qwm/log/log.h:19-21 | stores the path, `maxSize` and initial-position rule, and opens the file for append, giving the state `Opened` describes |
| `Log.FileLogger.OpenForAppend` | qwm/log/log.h:20 | `logFile.open(filePath, std::ios::app)` performed on the disk gives the state `Opened` describes |
| `Log.FileLogger.Log` | qwm/log/log.h:23-34 | the test, the optional rollover and the write, performed in place, give exactly the state `Logged` describes and keep an open stream tied to an existing file |
| `Log.FileLogger.RollOver` | qwm/log/log.h:36-41 | close, rename and reopen, performed in place, give exactly the state `RolledOver` describes |
| `Log.FileLogger.Write` | qwm/log/log.h:32-33 | the insertion into the stream appends to the live file and leaves the position at its new length when the stream is open, and does nothing otherwise; the result is `Appended` of the old state |
| `Log.ConsoleLog` | qwm/log/log.h:46-52 | standard output gains exactly timestamp + message + "\n" |
| `Log.Logger.constructor` | qwm/log/log.h:64-72 | the sink built is the one `Select` names: a fresh `FileLogger` on the path and `maxSize` (its file opened as `Opened` says) for `ERROR`/`WARNING`, the console for `INFO`, the null sink otherwise; only a file sink touches the disk |
| `Log.Logger.Log` | qwm/log/log.h:78-80 | forwards the message unchanged: a file sink's state becomes `Logged` of its old state, the console gains the record, and the null sink changes nothing, because its frame is empty (lines 78-80 and 57) |
| `Log.LogThrough` | qwm/log/log.h:83-85 | constructing a `Logger` and logging once changes the files and standard output exactly as `Routed` says |
| `Log.LogError` | qwm/log/log.h:83 | `LOG_ERROR` is `Routed` with `ERROR`, "error.log" and 1048576 |
| `Log.LogWarning` | qwm/log/log.h:84 | `LOG_WARNING` is `Routed` with `WARNING`, "warning.log" and 1048576 |
| `Log.LogInfo` | qwm/log/log.h:85 | `LOG_INFO` creates and changes no file and adds exactly the record to standard output |
| `Runs.Run` | qwm/log/log.h:23-41 | a persistent sink logging a sequence of calls always keeps an open stream tied to an existing live file |
| `Runs.RunBelowLimit` | qwm/log/log.h:24-33 | from a position at the file's end, while the live file plus the records still fits within `maxSize`, no call rotates: the live file grows by exactly the records in order, every other file is unchanged, and the position follows the file's end |
| `Runs.RunEndsAtFileEnd` | qwm/log/log.h:20-40 | after at least one call (or from a position already at the file's end) the position equals the live file's length, so every later test at line 24 is a test of the file size |
| `Runs.SecondCallRotatesAtStart` | qwm/log/log.h:19-41 | a persistent sink opened at position 0 on a file that, with its first record, has reached `maxSize` rotates on its second call: the backup holds the old file and the first record, the live file only the second record |
| `Runs.MacroNeverRotates` | qwm/log/log.h:20-24 | on a library whose append-mode open reports position 0, any sequence of `LOG_ERROR`/`LOG_WARNING` calls never rotates, because each fresh logger tests once, before its only write: the backup and every other file are unchanged, standard output is untouched, and the live file is its old contents followed by the records of the calls whose open succeeded |
| `Runs.MacroOverflowsAsWritten` | qwm/log/log.h:24 | with initial position 0, a macro call on a live file that already holds 1 MiB or more leaves it at least 1 MiB plus the record long, and leaves the backup untouched |
| `Runs.MacroRotatesAtEnd` | qwm/log/log.h:24-41 | when the initial position is the file's end and every foreign call succeeds, a macro call rotates exactly when the live file holds 1 MiB or more (the backup then holds the old live contents and the live file only the record); otherwise it only appends the record |
| `Runs.MacroRunBoundedAtEnd` | qwm/log/log.h:24-41 | when the initial position is the file's end and every foreign call succeeds, any sequence of macro calls with records of at most `bound` characters keeps both the live file and its backup shorter than 1 MiB plus `bound` |

## Findings

| source | as written | input that shows it | evidently intended | confidence | as-written member | corrected member |
|---|---|---|---|---|---|---|
| qwm/log/log.h:20 | the file is opened with `std::ios::app` alone, so `tellp()` before the first write is whatever the library leaves; on a library that leaves it at 0, each `LOG_ERROR`/`LOG_WARNING` opens a fresh stream and tests only before its one write, so the test at line 24 always compares 0 with 1048576 and never rotates | on such a library, "error.log" already holding 1048576 characters and one successful `LOG_ERROR("x")`: the record is appended past the limit and no "error.log.bak" is made | rotate once the file has reached 1 MiB, as the size argument of the macros asks; opening with `std::ios::app \| std::ios::ate` makes `tellp()` report the file's length on every library (`OpenPosition.AtEnd`) | low, not executed; it holds only where the initial `tellp()` is 0, and libstdc++ on glibc reports the file's length instead | `Runs.MacroNeverRotates` | `Runs.MacroRunBoundedAtEnd` |

The initial position is a parameter of every constructor and call in the
model. So the same `FileLogger`, `Logger` and macro methods describe both the
code as written on a library that reports 0 (`AtStart`) and the corrected open
(`AtEnd`).

## Left out

- Real `std::ofstream`, `std::rename` and `std::cout` are not modelled. They
  are abstract operations on a map of files and a string, and the
  environment's permission for each rename and open is an input.
- The clock is left out. `std::time`, `std::localtime` and `strftime` are not
  modelled: the "[%F %T] " timestamp is an opaque input string.
- The flush of `std::endl` and `flush()`, and durability in general, are I/O
  concerns with no effect on the contents modelled here.
- Write errors on an open stream (a full disk, say) are left out. In the model
  a write to an open stream always succeeds.
- Heap allocation, virtual dispatch and the destructors are not modelled. The
  sink is the tagged datatype `Sink`. Closing the stream when the `Logger` is
  destroyed changes no file contents.
- `NullLogger::log` has no member of its own. It is the `NullSink` case of
  `Logger.Log`, whose empty frame says that it changes nothing.
- Concurrent writers to the same path are left out. The code does nothing to
  coordinate them.
- The 32-bit width of `maxSize` is not modelled. It is an unbounded integer,
  and no arithmetic is done on it.
- Two sinks constructed one after the other on the same path are not modelled
  as a separate property. Each one is `Opened` followed by `Logged` on the
  files the previous one left.
