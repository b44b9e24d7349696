/** The logger of qwm/log/log.h: a file sink that rotates its file to a
    single ".bak" backup once the stream position reaches a size limit, a
    console sink, a null sink, and the router that picks one of them from a
    severity level.

    The value-level functions (Opened, RolledOver, Appended, Logged, Routed)
    say what each operation does to the files and the stream; the classes
    FileLogger and Logger carry out the same operations step by step and are
    proved to agree with them. */
module Log {
  import opened Io

  /** The value a cast gives a LogLevel outside its enumerators 0, 1 and 2. */
  type UnlistedCode = k: int | k < 0 || 2 < k witness 3

  /** The enumerators of LogLevel, plus any other value a cast can produce. */
  datatype LogLevel = ERROR | WARNING | INFO | Unlisted(code: UnlistedCode)

  /** What tellp() reports right after a file is opened in append mode, before
      anything is written. The C++ standard leaves it to the library and the C
      runtime below it: AtStart is a library that leaves the file offset at 0,
      AtEnd one that moves it to the end of the file (as opening with
      std::ios::ate always does). */
  datatype OpenPosition = AtStart | AtEnd

  /** The state of the sink's std::ofstream: closed (or failed to open), or
      open with the write position that tellp() reports. Every write of an
      append-mode stream lands at the end of the file and leaves the offset
      there, so after a write the position is the file's length. */
  datatype Stream = Closed | Open(pos: nat)

  /** tellp() on a stream that is not open fails and reports -1. */
  function Tellp(s: Stream): int
  {
    if s.Open? then s.pos else -1
  }

  function InitialPos(position: OpenPosition, existing: string): nat
  {
    match position
    case AtStart => 0
    case AtEnd => |existing|
  }

  /** The line a sink writes: the "[%F %T] " timestamp, the message and the
      newline of std::endl. The timestamp is an input: clocks and calendar
      formatting are not part of this model. */
  function Record(timestamp: string, message: string): string
  {
    timestamp + message + "\n"
  }

  function Backup(p: Path): (b: Path)
    ensures b != p && |b| == |p| + 4
  {
    p + ".bak"
  }

  /** One call to log(): its message, its timestamp, and what the environment
      permits to the rename and the reopen of a rollover, should one happen. */
  datatype Call = Call(timestamp: string, message: string, renameOk: bool, reopenOk: bool)
  {
    function Line(): string
    {
      Record(timestamp, message)
    }
  }

  /** The fixed settings of a file sink. */
  datatype FileConfig = FileConfig(filePath: Path, maxSize: int, position: OpenPosition)

  /** What a file sink acts on: the files and its own stream. */
  datatype Sys = Sys(files: Files, stream: Stream)

  /** An open stream always refers to an existing live file. */
  predicate Consistent(c: FileConfig, s: Sys)
  {
    s.stream.Open? ==> c.filePath in s.files
  }

  /** logFile.open(filePath, std::ios::app): on success the live file exists
      with its old contents and the position is what the library reports; on
      failure the stream stays closed and no file changes. */
  function Opened(c: FileConfig, files: Files, permitted: bool): (r: Sys)
    ensures Consistent(c, r)
    ensures r.stream.Open? <==> OpenSucceeds(c.filePath, permitted)
    ensures r.stream.Open? ==>
      r.files == files[c.filePath := Content(files, c.filePath)] &&
      r.stream.pos == InitialPos(c.position, Content(files, c.filePath))
    ensures r.stream.Closed? ==> r.files == files
  {
    var after := OpenedForAppend(files, c.filePath, permitted);
    if OpenSucceeds(c.filePath, permitted) then
      Sys(after, Open(InitialPos(c.position, after[c.filePath])))
    else
      Sys(after, Closed)
  }

  /** rollOver(): close, rename the live file over the backup, reopen. */
  function RolledOver(c: FileConfig, s: Sys, renameOk: bool, reopenOk: bool): (r: Sys)
    ensures Consistent(c, r)
    // only the live file and its backup are touched
    ensures r.files - {c.filePath, Backup(c.filePath)} == s.files - {c.filePath, Backup(c.filePath)}
    // a successful rename leaves exactly one generation: the old live contents
    ensures RenameSucceeds(s.files, c.filePath, renameOk) ==>
      Backup(c.filePath) in r.files && r.files[Backup(c.filePath)] == s.files[c.filePath] &&
      (if OpenSucceeds(c.filePath, reopenOk)
       then c.filePath in r.files && r.files[c.filePath] == "" && r.stream == Open(0)
       else c.filePath !in r.files && r.stream == Closed)
    // a failed rename leaves both files' contents as they were
    ensures !RenameSucceeds(s.files, c.filePath, renameOk) ==>
      (Backup(c.filePath) in r.files <==> Backup(c.filePath) in s.files) &&
      Content(r.files, Backup(c.filePath)) == Content(s.files, Backup(c.filePath)) &&
      Content(r.files, c.filePath) == Content(s.files, c.filePath) &&
      r.stream == (if OpenSucceeds(c.filePath, reopenOk)
                   then Open(InitialPos(c.position, Content(s.files, c.filePath)))
                   else Closed)
  {
    var renamed := Renamed(s.files, c.filePath, Backup(c.filePath), renameOk);
    Opened(c, renamed, reopenOk)
  }

  /** logFile << text: appended to the live file when the stream is open,
      silently dropped otherwise. */
  function Appended(c: FileConfig, s: Sys, text: string): (r: Sys)
    requires Consistent(c, s)
    ensures Consistent(c, r)
    ensures r.files - {c.filePath} == s.files - {c.filePath}
    ensures Content(r.files, c.filePath) ==
      Content(s.files, c.filePath) + (if s.stream.Open? then text else "")
    // an append-mode write leaves the position at the new end of the file
    ensures s.stream.Open? ==> Tellp(r.stream) == |Content(r.files, c.filePath)|
    ensures s.stream.Closed? ==> r.stream == Closed
  {
    if s.stream.Open? then
      var grown := s.files[c.filePath] + text;
      Sys(s.files[c.filePath := grown], Open(|grown|))
    else
      s
  }

  /** The test at the head of FileLogger::log: the position before writing. */
  predicate RollsOver(c: FileConfig, s: Sys)
  {
    Tellp(s.stream) >= c.maxSize
  }

  /** FileLogger::log: roll over when the position before writing has reached
      maxSize, then append the record. */
  function Logged(c: FileConfig, s: Sys, call: Call): (r: Sys)
    requires Consistent(c, s)
    ensures Consistent(c, r)
    // below the limit the backup is untouched and the live file only grows by the record
    ensures !RollsOver(c, s) && s.stream.Open? ==>
      r.files == s.files[c.filePath := s.files[c.filePath] + call.Line()] &&
      Tellp(r.stream) == |s.files[c.filePath]| + |call.Line()|
    ensures !RollsOver(c, s) && s.stream.Closed? ==> r == s
    // a complete rotation: the backup holds the old live file, the live file only this record
    ensures RollsOver(c, s) && RenameSucceeds(s.files, c.filePath, call.renameOk) &&
            OpenSucceeds(c.filePath, call.reopenOk) ==>
      r.files == s.files[Backup(c.filePath) := s.files[c.filePath]][c.filePath := call.Line()] &&
      r.stream == Open(|call.Line()|)
    // a failed rename: the record goes to the end of the original file, the backup is untouched
    ensures RollsOver(c, s) && !RenameSucceeds(s.files, c.filePath, call.renameOk) &&
            OpenSucceeds(c.filePath, call.reopenOk) ==>
      r.files == s.files[c.filePath := Content(s.files, c.filePath) + call.Line()] &&
      r.stream == Open(|Content(s.files, c.filePath)| + |call.Line()|)
    // a failed reopen: the rename stands and the record is lost
    ensures RollsOver(c, s) && !OpenSucceeds(c.filePath, call.reopenOk) ==>
      r.files == Renamed(s.files, c.filePath, Backup(c.filePath), call.renameOk) &&
      r.stream == Closed
  {
    var ready := if RollsOver(c, s) then RolledOver(c, s, call.renameOk, call.reopenOk) else s;
    if RollsOver(c, s) && RenameSucceeds(s.files, c.filePath, call.renameOk) then
      RotationFiles(s.files, c.filePath, call.Line());
      Appended(c, ready, call.Line())
    else
      Appended(c, ready, call.Line())
  }

  /** Renaming the live file to the backup, recreating it empty and appending
      `text` leaves the old live contents in the backup and `text` alone live. */
  lemma RotationFiles(files: Files, p: Path, text: string)
    requires p in files
    ensures (files - {p})[Backup(p) := files[p]][p := "" + text] == files[Backup(p) := files[p]][p := text]
  {
    assert "" + text == text;
  }

  /** The overshoot bound: when the position is the file's length (as after
      any write), a call that started below the limit, or that rotated into a
      fresh file, leaves a live file shorter than maxSize plus its own record,
      and tellp() reports that length. */
  lemma OvershootBound(c: FileConfig, s: Sys, call: Call)
    requires Consistent(c, s) && PositionExact(c, s) && c.maxSize > 0
    requires !RollsOver(c, s) || RenameSucceeds(s.files, c.filePath, call.renameOk)
    ensures Tellp(Logged(c, s, call).stream) < c.maxSize + |call.Line()|
    ensures Logged(c, s, call).stream.Open? ==>
      |Logged(c, s, call).files[c.filePath]| == Tellp(Logged(c, s, call).stream)
  {
  }

  /** A sink whose stream never opened writes nothing and changes no file,
      as long as maxSize is not negative (tellp() then reports -1 < maxSize). */
  lemma ClosedSinkIsSilent(c: FileConfig, s: Sys, call: Call)
    requires s.stream.Closed? && c.maxSize >= 0
    ensures Logged(c, s, call) == s
  {
  }

  /** The position is the live file's length. */
  predicate PositionExact(c: FileConfig, s: Sys)
  {
    s.stream.Open? ==> c.filePath in s.files && s.stream.pos == |s.files[c.filePath]|
  }

  /** Whatever the position was before, a log call leaves it at the live
      file's length: the call ends with a write, or with the stream closed.
      Only the first test after an open can see the library's initial
      position; every later test compares the file's size. */
  lemma LoggedEndsAtFileEnd(c: FileConfig, s: Sys, call: Call)
    requires Consistent(c, s)
    ensures PositionExact(c, Logged(c, s, call))
  {
  }

  /** The first call after a successful open that reports 0 never rotates
      (for a positive maxSize), however large the file already is: the
      record is appended and the position jumps to the file's end. */
  lemma FirstCallAfterOpenAtStart(c: FileConfig, files: Files, call: Call)
    requires c.position == AtStart && c.maxSize > 0 && OpenSucceeds(c.filePath, true)
    ensures Logged(c, Opened(c, files, true), call) ==
      Sys(files[c.filePath := Content(files, c.filePath) + call.Line()],
          Open(|Content(files, c.filePath)| + |call.Line()|))
  {
  }

  /** The sink a Logger builds. */
  datatype Choice = FileChoice(filePath: Path, maxSize: int) | ConsoleChoice | NullChoice

  /** The Logger constructor's selection: a total case split on the level. */
  function Select(level: LogLevel, filePath: Path, maxSize: int): (k: Choice)
    ensures k.FileChoice? <==> level == ERROR || level == WARNING
    ensures k.FileChoice? ==> k.filePath == filePath && k.maxSize == maxSize
    ensures k.ConsoleChoice? <==> level == INFO
    ensures k.NullChoice? <==> level.Unlisted?
  {
    if level == WARNING || level == ERROR then FileChoice(filePath, maxSize)
    else if level == INFO then ConsoleChoice
    else NullChoice
  }

  /** Everything a log call can observably change. */
  datatype World = World(files: Files, stdout: string)

  /** Logger(level, filePath, maxSize).log(message), as the macros use it: build
      the selected sink (opening its file), forward the message, drop the sink. */
  function Routed(level: LogLevel, filePath: Path, maxSize: int, position: OpenPosition,
                  w: World, openOk: bool, call: Call): (r: World)
    // a file sink writes no output and touches no file but its own and the backup
    ensures (level == ERROR || level == WARNING) ==>
      r.stdout == w.stdout &&
      r.files - {filePath, Backup(filePath)} == w.files - {filePath, Backup(filePath)}
    // the console sink writes exactly the record to standard output and creates no file
    ensures level == INFO ==> r == World(w.files, w.stdout + call.Line())
    // the null sink changes nothing
    ensures level.Unlisted? ==> r == w
  {
    match Select(level, filePath, maxSize)
    case FileChoice(p, m) =>
      var c := FileConfig(p, m, position);
      World(Logged(c, Opened(c, w.files, openOk), call).files, w.stdout)
    case ConsoleChoice => World(w.files, w.stdout + call.Line())
    case NullChoice => w
  }

  /** FileLogger: owns one append-mode stream on filePath. */
  class FileLogger {
    const disk: Disk
    const filePath: Path
    const maxSize: int
    const position: OpenPosition
    var stream: Stream

    function Config(): FileConfig
    {
      FileConfig(filePath, maxSize, position)
    }

    function State(): Sys
      reads this, disk
    {
      Sys(disk.files, stream)
    }

    ghost predicate Valid()
      reads this, disk
    {
      Consistent(Config(), State())
    }

    constructor (disk: Disk, filePath: Path, maxSize: int, position: OpenPosition, openOk: bool)
      modifies disk
      ensures this.disk == disk && Config() == FileConfig(filePath, maxSize, position)
      ensures Valid() && State() == Opened(Config(), old(disk.files), openOk)
    {
      this.disk := disk;
      this.filePath := filePath;
      this.maxSize := maxSize;
      this.position := position;
      new;
      OpenForAppend(openOk);
    }

    method OpenForAppend(permitted: bool)
      modifies this, disk
      ensures Valid() && State() == Opened(Config(), old(disk.files), permitted)
    {
      var ok := disk.OpenForAppend(filePath, permitted);
      stream := if ok then Open(InitialPos(position, disk.files[filePath])) else Closed;
    }

    method Log(timestamp: string, message: string, renameOk: bool, reopenOk: bool)
      requires Valid()
      modifies this, disk
      ensures Valid()
      ensures State() == Logged(Config(), old(State()), Call(timestamp, message, renameOk, reopenOk))
    {
      if Tellp(stream) >= maxSize {
        RollOver(renameOk, reopenOk);
      }
      Write(Record(timestamp, message));
    }

    method RollOver(renameOk: bool, reopenOk: bool)
      modifies this, disk
      ensures Valid()
      ensures State() == RolledOver(Config(), old(State()), renameOk, reopenOk)
    {
      stream := Closed;
      var _ := disk.Rename(filePath, Backup(filePath), renameOk);
      OpenForAppend(reopenOk);
    }

    method Write(text: string)
      requires Valid()
      modifies this, disk
      ensures Valid()
      ensures State() == Appended(Config(), old(State()), text)
    {
      if stream.Open? {
        disk.Append(filePath, text);
        stream := Open(|disk.files[filePath]|);
      }
    }
  }

  /** ConsoleLogger::log: the record goes to standard output. */
  method ConsoleLog(console: Console, timestamp: string, message: string)
    modifies console
    ensures console.out == old(console.out) + Record(timestamp, message)
  {
    console.Write(Record(timestamp, message));
  }

  /** The sink a Logger owns. NullLogger has no state and its log does nothing. */
  datatype Sink = FileSink(file: FileLogger) | ConsoleSink(console: Console) | NullSink

  class Logger {
    const sink: Sink

    function Footprint(): set<object>
    {
      match sink
      case FileSink(f) => {f, f.disk}
      case ConsoleSink(c) => {c}
      case NullSink => {}
    }

    ghost predicate Valid()
      reads Footprint()
    {
      sink.FileSink? ==> sink.file.Valid()
    }

    constructor (level: LogLevel, filePath: Path, maxSize: int, position: OpenPosition,
                 disk: Disk, console: Console, openOk: bool)
      modifies disk
      ensures Valid()
      ensures match Select(level, filePath, maxSize)
        case FileChoice(p, m) =>
          sink.FileSink? && fresh(sink.file) && sink.file.disk == disk &&
          sink.file.Config() == FileConfig(p, m, position) &&
          sink.file.State() == Opened(sink.file.Config(), old(disk.files), openOk)
        case ConsoleChoice => sink == ConsoleSink(console) && disk.files == old(disk.files)
        case NullChoice => sink == NullSink && disk.files == old(disk.files)
    {
      if level == WARNING || level == ERROR {
        var f := new FileLogger(disk, filePath, maxSize, position, openOk);
        sink := FileSink(f);
      } else if level == INFO {
        sink := ConsoleSink(console);
      } else {
        sink := NullSink;
      }
    }

    /** Forwards the message, unchanged, to the owned sink. */
    method Log(timestamp: string, message: string, renameOk: bool, reopenOk: bool)
      requires Valid()
      modifies Footprint()
      ensures Valid()
      ensures match sink
        case FileSink(f) =>
          f.State() == Logged(f.Config(), old(f.State()), Call(timestamp, message, renameOk, reopenOk))
        case ConsoleSink(c) => c.out == old(c.out) + Record(timestamp, message)
        case NullSink => true
    {
      match sink
      case FileSink(f) => f.Log(timestamp, message, renameOk, reopenOk);
      case ConsoleSink(c) => ConsoleLog(c, timestamp, message);
      case NullSink =>
    }
  }

  /** The size limit the LOG_ERROR and LOG_WARNING macros pass. */
  const MacroMaxSize: int := 1024 * 1024

  /** A macro call site: a fresh Logger for one message, then dropped. */
  method LogThrough(level: LogLevel, filePath: Path, maxSize: int, position: OpenPosition,
                    disk: Disk, console: Console, openOk: bool,
                    timestamp: string, message: string, renameOk: bool, reopenOk: bool)
    modifies disk, console
    ensures World(disk.files, console.out) ==
      Routed(level, filePath, maxSize, position, World(old(disk.files), old(console.out)),
             openOk, Call(timestamp, message, renameOk, reopenOk))
  {
    var logger := new Logger(level, filePath, maxSize, position, disk, console, openOk);
    logger.Log(timestamp, message, renameOk, reopenOk);
  }

  /** LOG_ERROR(x) */
  method LogError(disk: Disk, console: Console, position: OpenPosition, openOk: bool,
                  timestamp: string, message: string, renameOk: bool, reopenOk: bool)
    modifies disk, console
    ensures World(disk.files, console.out) ==
      Routed(ERROR, "error.log", MacroMaxSize, position, World(old(disk.files), old(console.out)),
             openOk, Call(timestamp, message, renameOk, reopenOk))
  {
    LogThrough(ERROR, "error.log", MacroMaxSize, position, disk, console, openOk,
               timestamp, message, renameOk, reopenOk);
  }

  /** LOG_WARNING(x) */
  method LogWarning(disk: Disk, console: Console, position: OpenPosition, openOk: bool,
                    timestamp: string, message: string, renameOk: bool, reopenOk: bool)
    modifies disk, console
    ensures World(disk.files, console.out) ==
      Routed(WARNING, "warning.log", MacroMaxSize, position, World(old(disk.files), old(console.out)),
             openOk, Call(timestamp, message, renameOk, reopenOk))
  {
    LogThrough(WARNING, "warning.log", MacroMaxSize, position, disk, console, openOk,
               timestamp, message, renameOk, reopenOk);
  }

  /** LOG_INFO(x): Logger(INFO) with the default "" and 0, which the console sink ignores. */
  method LogInfo(disk: Disk, console: Console, timestamp: string, message: string)
    modifies disk, console
    ensures disk.files == old(disk.files)
    ensures console.out == old(console.out) + Record(timestamp, message)
  {
    LogThrough(INFO, "", 0, AtStart, disk, console, false, timestamp, message, false, false);
  }
}
