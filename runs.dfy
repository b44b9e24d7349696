/** Sequences of log calls: a persistent file sink logging one message after
    another, and the LOG_ERROR / LOG_WARNING macros, which build a fresh
    Logger (and so reopen the file) for every message. */
module Runs {
  import opened Io
  import opened Log

  /** The records of a sequence of calls, in order. */
  function Lines(calls: seq<Call>): string
  {
    if calls == [] then "" else calls[0].Line() + Lines(calls[1..])
  }

  /** One FileLogger receiving `calls` in order. */
  function Run(c: FileConfig, s: Sys, calls: seq<Call>): (r: Sys)
    requires Consistent(c, s)
    ensures Consistent(c, r)
    decreases |calls|
  {
    if calls == [] then s else Run(c, Logged(c, s, calls[0]), calls[1..])
  }

  /** Regrouping of string concatenation, used where RunBelowLimit and
      MacroNeverRotates join the first record with the records after it. */
  lemma AppendAssoc(a: string, b: string, c: string)
    ensures (a + b) + c == a + (b + c)
  {
  }

  /** With the position at the file's end (as after any write), while the
      live file plus the records still fits within maxSize nothing rotates: the
      backup is untouched and the live file grows by exactly the records, in
      order, with the position following its end. */
  lemma {:induction false} RunBelowLimit(c: FileConfig, s: Sys, calls: seq<Call>)
    requires Consistent(c, s) && s.stream.Open? && PositionExact(c, s)
    requires |s.files[c.filePath]| + |Lines(calls)| <= c.maxSize
    ensures Run(c, s, calls) ==
      Sys(s.files[c.filePath := s.files[c.filePath] + Lines(calls)],
          Open(|s.files[c.filePath]| + |Lines(calls)|))
    decreases |calls|
  {
    var p := c.filePath;
    if calls == [] {
      assert s.files[p] + "" == s.files[p];
      assert s.files[p := s.files[p]] == s.files;
    } else {
      var line, rest := calls[0].Line(), calls[1..];
      assert Lines(calls) == line + Lines(rest);
      var s1 := Logged(c, s, calls[0]);
      assert !RollsOver(c, s);
      assert s1 == Sys(s.files[p := s.files[p] + line], Open(|s.files[p]| + |line|));
      RunBelowLimit(c, s1, rest);
      AppendAssoc(s.files[p], line, Lines(rest));
    }
  }

  /** After at least one call, or from a position already at the file's
      end, the position is the live file's length, so every later test at the
      head of log() is a test of the file's size. */
  lemma {:induction false} RunEndsAtFileEnd(c: FileConfig, s: Sys, calls: seq<Call>)
    requires Consistent(c, s)
    requires calls != [] || PositionExact(c, s)
    ensures PositionExact(c, Run(c, s, calls))
    decreases |calls|
  {
    if calls != [] {
      LoggedEndsAtFileEnd(c, s, calls[0]);
      RunEndsAtFileEnd(c, Logged(c, s, calls[0]), calls[1..]);
    }
  }

  /** A persistent sink that opened with position 0 on a file already at or
      past maxSize appends its first record without rotating; its second call
      then sees the file's length and rotates: the backup holds the old file
      and the first record, the live file only the second record. */
  lemma SecondCallRotatesAtStart(c: FileConfig, files: Files, first: Call, second: Call)
    requires c.position == AtStart && c.maxSize > 0 && c.filePath != ""
    requires |Content(files, c.filePath)| + |first.Line()| >= c.maxSize
    requires second.renameOk && second.reopenOk
    ensures Run(c, Opened(c, files, true), [first, second]).files ==
      files[Backup(c.filePath) := Content(files, c.filePath) + first.Line()][c.filePath := second.Line()]
  {
    var s0 := Opened(c, files, true);
    var s1 := Logged(c, s0, first);
    FirstCallAfterOpenAtStart(c, files, first);
    assert [first, second][1..] == [second];
    assert Run(c, s0, [first, second]) == Run(c, s1, [second]);
    assert Run(c, s1, [second]) == Logged(c, s1, second);
    assert files[c.filePath := Content(files, c.filePath) + first.Line()]
              [Backup(c.filePath) := Content(files, c.filePath) + first.Line()][c.filePath := second.Line()]
        == files[Backup(c.filePath) := Content(files, c.filePath) + first.Line()][c.filePath := second.Line()];
  }

  /** One use of a macro: whether its Logger's file opened, and the call. */
  datatype MacroCall = MacroCall(openOk: bool, call: Call)

  /** LOG_ERROR or LOG_WARNING (as `level` and `path` say) used once per element of `ms`. */
  function MacroRun(level: LogLevel, path: Path, position: OpenPosition, w: World,
                    ms: seq<MacroCall>): World
    decreases |ms|
  {
    if ms == [] then w
    else MacroRun(level, path, position,
                  Routed(level, path, MacroMaxSize, position, w, ms[0].openOk, ms[0].call), ms[1..])
  }

  /** The records of the macro calls whose file opened, in order. */
  function MacroLines(path: Path, ms: seq<MacroCall>): string
  {
    if ms == [] then ""
    else (if OpenSucceeds(path, ms[0].openOk) then ms[0].call.Line() else "") + MacroLines(path, ms[1..])
  }

  /** As written, with tellp() reporting 0 after an append-mode open: every
      macro call compares 0 against 1 MiB, so none ever rotates. The backup and
      every other file stay as they were, nothing reaches standard output, and
      the live file only accumulates the records, without bound. */
  lemma {:induction false} MacroNeverRotates(level: LogLevel, path: Path, w: World, ms: seq<MacroCall>)
    requires level == ERROR || level == WARNING
    ensures MacroRun(level, path, AtStart, w, ms).stdout == w.stdout
    ensures MacroRun(level, path, AtStart, w, ms).files - {path} == w.files - {path}
    ensures path in MacroRun(level, path, AtStart, w, ms).files <==>
      path in w.files || exists i :: 0 <= i < |ms| && OpenSucceeds(path, ms[i].openOk)
    ensures Content(MacroRun(level, path, AtStart, w, ms).files, path) ==
      Content(w.files, path) + MacroLines(path, ms)
    decreases |ms|
  {
    if ms == [] {
      assert Content(w.files, path) + "" == Content(w.files, path);
    } else {
      var m, rest := ms[0], ms[1..];
      var w1 := Routed(level, path, MacroMaxSize, AtStart, w, m.openOk, m.call);
      var c := FileConfig(path, MacroMaxSize, AtStart);
      var fresh0 := Opened(c, w.files, m.openOk);
      assert !RollsOver(c, fresh0);
      var line := if OpenSucceeds(path, m.openOk) then m.call.Line() else "";
      assert Content(w1.files, path) == Content(w.files, path) + line;
      assert path in w1.files <==> path in w.files || OpenSucceeds(path, m.openOk);
      MacroNeverRotates(level, path, w1, rest);
      AppendAssoc(Content(w.files, path), line, MacroLines(path, rest));
      if exists i :: 0 <= i < |rest| && OpenSucceeds(path, rest[i].openOk) {
        var i :| 0 <= i < |rest| && OpenSucceeds(path, rest[i].openOk);
        assert ms[i + 1] == rest[i];
      }
      if OpenSucceeds(path, m.openOk) {
        assert ms[0] == m;
      }
    }
  }

  /** The same, for one call on a file that already holds 1 MiB or more: the
      record is appended past the limit and no backup is made. */
  lemma MacroOverflowsAsWritten(level: LogLevel, path: Path, w: World, m: MacroCall)
    requires level == ERROR || level == WARNING
    requires OpenSucceeds(path, m.openOk) && |Content(w.files, path)| >= MacroMaxSize
    ensures |Content(Routed(level, path, MacroMaxSize, AtStart, w, m.openOk, m.call).files, path)|
            >= MacroMaxSize + |m.call.Line()|
    ensures Content(Routed(level, path, MacroMaxSize, AtStart, w, m.openOk, m.call).files, Backup(path))
            == Content(w.files, Backup(path))
  {
    MacroNeverRotates(level, path, w, [m]);
    assert MacroRun(level, path, AtStart, w, [m]) == Routed(level, path, MacroMaxSize, AtStart, w, m.openOk, m.call);
    assert MacroLines(path, [m]) == m.call.Line() + "";
  }

  /** When the position reported on opening is the file's length, each macro
      call rotates exactly when the live file has reached 1 MiB. */
  lemma MacroRotatesAtEnd(level: LogLevel, path: Path, w: World, m: MacroCall)
    requires level == ERROR || level == WARNING
    requires OpenSucceeds(path, m.openOk) && m.call.renameOk && m.call.reopenOk
    ensures var r := Routed(level, path, MacroMaxSize, AtEnd, w, m.openOk, m.call);
      if |Content(w.files, path)| >= MacroMaxSize then
        r.files == w.files[Backup(path) := Content(w.files, path)][path := m.call.Line()]
      else
        r.files == w.files[path := Content(w.files, path) + m.call.Line()]
  {
  }

  /** Corrected: with the position reported at the file's end, repeated macro
      calls whose records are at most `bound` long keep both the live file and
      its backup shorter than 1 MiB plus `bound`. */
  lemma {:induction false} MacroRunBoundedAtEnd(level: LogLevel, path: Path, w: World,
                                               ms: seq<MacroCall>, bound: nat)
    requires level == ERROR || level == WARNING
    requires |Content(w.files, path)| < MacroMaxSize + bound
    requires |Content(w.files, Backup(path))| < MacroMaxSize + bound
    requires forall i :: 0 <= i < |ms| ==>
      |ms[i].call.Line()| <= bound && OpenSucceeds(path, ms[i].openOk) &&
      ms[i].call.renameOk && ms[i].call.reopenOk
    ensures |Content(MacroRun(level, path, AtEnd, w, ms).files, path)| < MacroMaxSize + bound
    ensures |Content(MacroRun(level, path, AtEnd, w, ms).files, Backup(path))| < MacroMaxSize + bound
    decreases |ms|
  {
    if ms != [] {
      var m := ms[0];
      assert |m.call.Line()| <= bound && OpenSucceeds(path, m.openOk) && m.call.renameOk && m.call.reopenOk;
      MacroRotatesAtEnd(level, path, w, m);
      var w1 := Routed(level, path, MacroMaxSize, AtEnd, w, m.openOk, m.call);
      assert |Content(w1.files, path)| < MacroMaxSize + bound;
      assert |Content(w1.files, Backup(path))| < MacroMaxSize + bound;
      forall i | 0 <= i < |ms[1..]|
        ensures |ms[1..][i].call.Line()| <= bound && OpenSucceeds(path, ms[1..][i].openOk) &&
                ms[1..][i].call.renameOk && ms[1..][i].call.reopenOk
      {
        assert ms[1..][i] == ms[i + 1];
      }
      MacroRunBoundedAtEnd(level, path, w1, ms[1..], bound);
    }
  }
}
