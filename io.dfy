/** The operating-system facilities the logger calls but does not implement:
    a file system (a map from path to contents), std::rename, opening a file
    for append, appending to it, and the standard output stream. Whether a
    rename or an open is permitted (permissions, locks, missing directories)
    is not visible to the logger, so every such call takes the outcome the
    environment allows as an explicit `permitted` input. */
module Io {

  type Path = string

  /** Every existing file and its contents. */
  type Files = map<Path, string>

  /** What a file holds, or "" when it does not exist. */
  function Content(files: Files, p: Path): string
  {
    if p in files then files[p] else ""
  }

  /** std::rename succeeds when the environment permits it and the source exists. */
  predicate RenameSucceeds(files: Files, from: Path, permitted: bool)
  {
    permitted && from in files
  }

  /** The files after std::rename(from, to): on success the source name is gone
      and the target holds the source's contents, replacing whatever it held;
      on failure nothing changes. */
  function Renamed(files: Files, from: Path, to: Path, permitted: bool): (r: Files)
    requires from != to
    ensures RenameSucceeds(files, from, permitted) ==> from !in r && to in r && r[to] == files[from]
    ensures !RenameSucceeds(files, from, permitted) ==> r == files
    ensures r - {from, to} == files - {from, to}
  {
    if RenameSucceeds(files, from, permitted) then (files - {from})[to := files[from]] else files
  }

  /** Opening a file for append succeeds when permitted and the path names something. */
  predicate OpenSucceeds(p: Path, permitted: bool)
  {
    permitted && p != ""
  }

  /** The files after opening `p` for append: a missing file is created empty,
      an existing one keeps its contents, nothing else changes. */
  function OpenedForAppend(files: Files, p: Path, permitted: bool): (r: Files)
    ensures OpenSucceeds(p, permitted) ==> p in r && r[p] == Content(files, p)
    ensures !OpenSucceeds(p, permitted) ==> r == files
    ensures r - {p} == files - {p}
  {
    if OpenSucceeds(p, permitted) && p !in files then files[p := ""] else files
  }

  /** The file system, changed in place by the logger. */
  class Disk {
    var files: Files

    constructor (files: Files)
      ensures this.files == files
    {
      this.files := files;
    }

    method Rename(from: Path, to: Path, permitted: bool) returns (ok: bool)
      requires from != to
      modifies this
      ensures ok == RenameSucceeds(old(files), from, permitted)
      ensures files == Renamed(old(files), from, to, permitted)
    {
      ok := RenameSucceeds(files, from, permitted);
      files := Renamed(files, from, to, permitted);
    }

    method OpenForAppend(p: Path, permitted: bool) returns (ok: bool)
      modifies this
      ensures ok == OpenSucceeds(p, permitted)
      ensures files == OpenedForAppend(old(files), p, permitted)
    {
      ok := OpenSucceeds(p, permitted);
      files := OpenedForAppend(files, p, permitted);
    }

    /** A write through an append-mode stream lands at the end of the file. */
    method Append(p: Path, text: string)
      requires p in files
      modifies this
      ensures files == old(files)[p := old(files)[p] + text]
    {
      files := files[p := files[p] + text];
    }
  }

  /** The standard output stream, as everything written to it so far. */
  class Console {
    var out: string

    constructor ()
      ensures out == ""
    {
      out := "";
    }

    method Write(text: string)
      modifies this
      ensures out == old(out) + text
    {
      out := out + text;
    }
  }
}
