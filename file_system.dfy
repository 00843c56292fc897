/** Destination resolution and precondition checks of the file-system
    helpers (`rename`, `copy`, `move`, `delete`, `create_archive`,
    `extract_archive`, `get_metadata`, `list_folder`) over an abstract
    filesystem: the sets of regular files, directories and other entries,
    keyed by the path as spelled. The `shutil`/`os` operations are abstract
    effects; a failing one is an input (`fault`, the text of the OSError it
    raises) and then leaves no effect. */
module FileSystem {
  import opened Wrappers
  import opened Text

  /** The exceptions the helpers raise. */
  datatype FsError =
    | FileNotFound(message: string)
    | OsError(message: string)
    | NotADirectory(message: string)   // NotADirectoryError, an OSError `os.listdir` raises
    | ValueError(message: string)
    | UnboundLocal(name: string)   // UnboundLocalError for the named variable

  /** The filesystem effects the helpers request. */
  datatype Effect =
    | MoveTo(src: string, dst: string)        // os.rename, shutil.move
    | CopyFile(src: string, dst: string)      // shutil.copy
    | CopyTree(src: string, dst: string)      // shutil.copytree
    | MakeDirs(dir: string)                   // os.makedirs(..., exist_ok=True)
    | RemoveTree(dir: string)                 // shutil.rmtree
    | RemoveFile(file: string)                // os.remove
    | MakeArchive(base: string, format: string, root: string)
    | Unpack(archive: string, dst: string)

  datatype FsState = FsState(files: set<string>, dirs: set<string>, special: set<string>)

  /** What an operation returns (the path whose metadata it reports, or
      None) and the effects it performed. */
  datatype Plan = Plan(result: Result<Option<string>, FsError>, effects: seq<Effect>)

  predicate Exists(st: FsState, p: string)
  {
    p in st.files || p in st.dirs || p in st.special
  }

  /** A real filesystem entry has one kind. */
  predicate Disjoint(st: FsState)
  {
    st.files !! st.dirs && st.files !! st.special && st.dirs !! st.special
  }

  // ---- os.path on POSIX ----

  /** Index of the last `c` in `s`, or -1. */
  function LastIndex(s: string, c: char): (r: int)
    ensures -1 <= r < |s|
    ensures r >= 0 ==> s[r] == c
    ensures forall j :: r < j < |s| ==> s[j] != c
  {
    if |s| == 0 then -1
    else if s[|s| - 1] == c then |s| - 1
    else LastIndex(s[..|s| - 1], c)
  }

  /** `os.path.basename`: the text after the last '/'. */
  function BaseName(p: string): (name: string)
    ensures '/' !in name
  {
    var i := LastIndex(p, '/') + 1;
    assert forall j :: 0 <= j < |p[i..]| ==> p[i..][j] == p[i + j];
    p[i..]
  }

  function RStripSlashes(s: string): string
  {
    if |s| > 0 && s[|s| - 1] == '/' then RStripSlashes(s[..|s| - 1]) else s
  }

  predicate AllSlashes(s: string)
  {
    forall j :: 0 <= j < |s| ==> s[j] == '/'
  }

  /** `os.path.dirname`: everything before the last '/', trailing slashes
      removed unless it is only slashes; "" for a bare name. */
  function DirName(p: string): (d: string)
    ensures '/' !in p ==> d == ""
  {
    var head := p[..LastIndex(p, '/') + 1];
    if head != "" && !AllSlashes(head) then RStripSlashes(head) else head
  }

  /** `os.path.join(a, b)` for two parts. */
  function PathJoin(a: string, b: string): string
  {
    if |b| > 0 && b[0] == '/' then b
    else if a == "" || a[|a| - 1] == '/' then a + b
    else a + "/" + b
  }

  /** `os.path.splitext`: the extension starts at the last dot of the
      final component, unless only dots precede it there. */
  function SplitExt(p: string): (r: (string, string))
    ensures r.0 + r.1 == p
  {
    var sep := LastIndex(p, '/');
    var dot := LastIndex(p, '.');
    if dot > sep && exists j :: sep + 1 <= j < dot && p[j] != '.' then (p[..dot], p[dot..]) else (p, "")
  }

  /** `f"{base}_copy{ext}"` */
  function CopyName(p: string): (q: string)
    ensures |q| == |p| + 5 && q != p
  {
    var (base, ext) := SplitExt(p);
    base + "_copy" + ext
  }

  function StartsWith(s: string, prefix: string): bool
  {
    |prefix| <= |s| && s[..|prefix|] == prefix
  }

  /** `os.path.abspath` relative to the working directory. */
  function AbsPath(cwd: string, p: string): string
  {
    if |p| > 0 && p[0] == '/' then p else PathJoin(cwd, p)
  }

  // ---- archive formats ----

  /** The extension `shutil.make_archive` gives the archive it writes in
      each registered format, or None for a format it does not know (it
      then raises ValueError before writing anything). */
  function ArchiveExtension(format: string): (ext: Option<string>)
    ensures ext.Some? <==> format in {"zip", "tar", "gztar", "bztar", "xztar"}
    ensures ext.Some? ==> |ext.value| > 1 && ext.value[0] == '.'
  {
    if format == "zip" then Some(".zip")
    else if format == "tar" then Some(".tar")
    else if format == "gztar" then Some(".tar.gz")
    else if format == "bztar" then Some(".tar.bz2")
    else if format == "xztar" then Some(".tar.xz")
    else None
  }

  /** The ValueError `shutil.make_archive` raises for an unknown format. */
  function UnknownFormat(format: string): FsError
  {
    ValueError("unknown archive format '" + format + "'")
  }

  // ---- effects ----

  function Apply(st: FsState, e: Effect): FsState
  {
    match e
    case MoveTo(s, d) =>
      if s in st.files then st.(files := st.files - {s} + {d})
      else if s in st.dirs then st.(dirs := st.dirs - {s} + {d})
      else st.(special := st.special - {s} + {d})
    case CopyFile(_, d) => st.(files := st.files + {d})
    case CopyTree(_, d) => st.(dirs := st.dirs + {d})
    case MakeDirs(d) => st.(dirs := st.dirs + {d})
    case RemoveTree(d) => st.(dirs := st.dirs - {d})
    case RemoveFile(f) => st.(files := st.files - {f}, special := st.special - {f})
    case MakeArchive(base, format, _) =>
      var ext := ArchiveExtension(format);
      if ext.Some? then st.(files := st.files + {base + ext.value}) else st
    case Unpack(_, _) => st
  }

  function ApplyAll(st: FsState, es: seq<Effect>): FsState
    decreases |es|
  {
    if |es| == 0 then st else ApplyAll(Apply(st, es[0]), es[1..])
  }

  // ---- the operations ----

  /** `rename` */
  function RenamePlan(st: FsState, path: string, newName: string, fault: Option<string>): Plan
  {
    if !Exists(st, path) then Plan(Err(FileNotFound("The file/folder at " + path + " does not exist.")), [])
    else
      var loc := PathJoin(DirName(path), newName);
      if fault.Some? then
        Plan(Err(OsError("Failed to rename the file/folder " + path + " to " + newName + ". Error: " + fault.value)), [])
      else Plan(Ok(Some(loc)), [MoveTo(path, loc)])
  }

  /** A file copied or moved onto a directory lands inside it; a target
      that exists gets `_copy` inserted once before the extension. */
  function FileTarget(st: FsState, path: string, destination: string): string
  {
    var d := if destination in st.dirs then PathJoin(destination, BaseName(path)) else destination;
    if Exists(st, d) then CopyName(d) else d
  }

  /** The part of `copy` after the subdirectory test for a folder. */
  function CopyTreeTail(st: FsState, path: string, destination: string, fault: Option<string>): Plan
  {
    var d := if Exists(st, destination) then destination + "_copy" else destination;
    if fault.Some? then Plan(Err(OsError("Failed to copy " + path + " to " + d + ". Error: " + fault.value)), [])
    else Plan(Ok(Some(d)), [CopyTree(path, d)])
  }

  /** `copy` as written: the folder test is a plain string-prefix test. */
  function CopyPlanAsWritten(st: FsState, cwd: string, path: string, destination: string, fault: Option<string>): Plan
  {
    if !Exists(st, path) then Plan(Err(FileNotFound("The path " + path + " does not exist.")), [])
    else if path in st.files then
      var d := FileTarget(st, path, destination);
      if fault.Some? then Plan(Err(OsError("Failed to copy " + path + " to " + d + ". Error: " + fault.value)), [])
      else Plan(Ok(Some(d)), [CopyFile(path, d)])
    else if path in st.dirs then
      if StartsWith(AbsPath(cwd, destination), AbsPath(cwd, path)) then
        Plan(Err(OsError("Failed to copy " + path + " to " + destination +
                         ". Error: Cannot copy a folder into one of its subdirectories.")), [])
      else CopyTreeTail(st, path, destination, fault)
    else Plan(Err(OsError("Failed to copy " + path + " to " + destination + ". Error: The path " + path +
                          " is neither a file nor a directory.")), [])
  }

  /** `src` with one trailing '/', the prefix of every path below it. */
  function AsFolder(src: string): string
  {
    if |src| > 0 && src[|src| - 1] == '/' then src else src + "/"
  }

  /** `dst` is `src` itself or lies below it. */
  predicate Within(dst: string, src: string)
  {
    dst == src || StartsWith(dst, AsFolder(src))
  }

  /** `copy` with the folder test the error message describes: only the
      folder itself or a path below it is refused. */
  function CopyPlan(st: FsState, cwd: string, path: string, destination: string, fault: Option<string>): Plan
  {
    if !Exists(st, path) then Plan(Err(FileNotFound("The path " + path + " does not exist.")), [])
    else if path in st.files then CopyPlanAsWritten(st, cwd, path, destination, fault)
    else if path in st.dirs then
      if Within(AbsPath(cwd, destination), AbsPath(cwd, path)) then
        Plan(Err(OsError("Failed to copy " + path + " to " + destination +
                         ". Error: Cannot copy a folder into one of its subdirectories.")), [])
      else CopyTreeTail(st, path, destination, fault)
    else CopyPlanAsWritten(st, cwd, path, destination, fault)
  }

  /** The `shutil.move` step of `move`, after the parent directory. */
  function MoveTail(st: FsState, path: string, d: string, fault: Option<string>): Plan
  {
    if fault.Some? then Plan(Err(OsError("Failed to move the file/folder " + path + " to " + d + ". Error: " + fault.value)), [])
    else Plan(Ok(Some(d)), [MoveTo(path, d)])
  }

  /** `move` as written: `os.makedirs` is called on the target's parent even
      when that is "", which always fails. */
  function MovePlanAsWritten(st: FsState, path: string, destination: string, fault: Option<string>): Plan
  {
    if !Exists(st, path) then Plan(Err(FileNotFound("The file/folder at " + path + " does not exist.")), [])
    else
      var d := FileTarget(st, path, destination);
      var parent := DirName(d);
      if parent == "" then
        Plan(Err(OsError("Failed to move the file/folder " + path + " to " + d +
                         ". Error: [Errno 2] No such file or directory: ''")), [])
      else
        var tail := MoveTail(st, path, d, fault);
        Plan(tail.result, [MakeDirs(parent)] + tail.effects)
  }

  /** `move` creating the parent only when the target has one. */
  function MovePlan(st: FsState, path: string, destination: string, fault: Option<string>): Plan
  {
    if !Exists(st, path) then Plan(Err(FileNotFound("The file/folder at " + path + " does not exist.")), [])
    else
      var d := FileTarget(st, path, destination);
      var parent := DirName(d);
      var tail := MoveTail(st, path, d, fault);
      if parent == "" then tail else Plan(tail.result, [MakeDirs(parent)] + tail.effects)
  }

  /** `delete` */
  function DeletePlan(st: FsState, path: string, fault: Option<string>): Plan
  {
    if !Exists(st, path) then Plan(Err(FileNotFound("The file/folder at " + path + " does not exist.")), [])
    else if fault.Some? then Plan(Err(OsError("Failed to delete the file/folder at " + path + ". Error: " + fault.value)), [])
    else if path in st.dirs then Plan(Ok(None), [RemoveTree(path)])
    else Plan(Ok(None), [RemoveFile(path)])
  }

  /** The part of `create_archive` after the archive directory exists, as
      written: the `_copy` test and the closing `get_metadata` look at
      `<base>.<format>`, which is not the file `shutil.make_archive` writes
      for the tar formats, so there the existing archive is overwritten and
      the closing `get_metadata` raises FileNotFoundError. */
  function ArchiveTailAsWritten(st: FsState, name: string, folder: string, archivePath: string, format: string,
                                fault: Option<string>): Plan
  {
    var base := PathJoin(archivePath, name);
    var made := Apply(st, MakeDirs(archivePath));
    var b := if Exists(made, base + "." + format) then base + "_copy" else base;
    if ArchiveExtension(format).None? then Plan(Err(UnknownFormat(format)), [MakeDirs(archivePath)])
    else if fault.Some? then
      Plan(Err(OsError("Failed to compress the folder " + folder + " into " + b + "." + format + ". Error: " + fault.value)),
           [MakeDirs(archivePath)])
    else
      var reported := b + "." + format;
      var effects := [MakeDirs(archivePath), MakeArchive(b, format, folder)];
      if Exists(Apply(made, MakeArchive(b, format, folder)), reported) then Plan(Ok(Some(reported)), effects)
      else Plan(Err(FileNotFound("The file at " + reported + " does not exist.")), effects)
  }

  /** The part of `create_archive` after the archive directory exists,
      testing and reporting the file `shutil.make_archive` writes. */
  function ArchiveTail(st: FsState, name: string, folder: string, archivePath: string, format: string,
                       fault: Option<string>): Plan
  {
    var base := PathJoin(archivePath, name);
    var ext := ArchiveExtension(format);
    if ext.None? then Plan(Err(UnknownFormat(format)), [MakeDirs(archivePath)])
    else
      var b := if Exists(Apply(st, MakeDirs(archivePath)), base + ext.value) then base + "_copy" else base;
      if fault.Some? then
        Plan(Err(OsError("Failed to compress the folder " + folder + " into " + b + "." + format + ". Error: " + fault.value)),
             [MakeDirs(archivePath)])
      else Plan(Ok(Some(b + ext.value)), [MakeDirs(archivePath), MakeArchive(b, format, folder)])
  }

  /** `create_archive` as written: when `os.makedirs` fails (always for an
      empty archive path) the error handler formats `full_archive_base`,
      which is not assigned yet, so UnboundLocalError escapes instead of the
      OSError. `dirFault` is the failure of `os.makedirs`. The rest is
      `ArchiveTailAsWritten`. */
  function ArchivePlanAsWritten(st: FsState, name: string, folder: string, archivePath: string, format: string,
                                dirFault: Option<string>, fault: Option<string>): Plan
  {
    if !Exists(st, folder) then Plan(Err(FileNotFound("The folder at " + folder + " does not exist.")), [])
    else if archivePath == "" || dirFault.Some? then Plan(Err(UnboundLocal("full_archive_base")), [])
    else ArchiveTailAsWritten(st, name, folder, archivePath, format, fault)
  }

  /** The text of the OSError `os.makedirs` raises. */
  function MakeDirsError(archivePath: string, dirFault: Option<string>): string
  {
    if archivePath == "" then "[Errno 2] No such file or directory: ''"
    else if dirFault.Some? then dirFault.value
    else ""
  }

  /** `create_archive` with the makedirs failure reported as the OSError
      the handler means to raise, naming the archive it was making, and
      with the archive file named as `shutil.make_archive` names it. */
  function ArchivePlan(st: FsState, name: string, folder: string, archivePath: string, format: string,
                       dirFault: Option<string>, fault: Option<string>): Plan
  {
    if !Exists(st, folder) then Plan(Err(FileNotFound("The folder at " + folder + " does not exist.")), [])
    else if archivePath == "" || dirFault.Some? then
      Plan(Err(OsError("Failed to compress the folder " + folder + " into " + PathJoin(archivePath, name) + "." +
                       format + ". Error: " + MakeDirsError(archivePath, dirFault))), [])
    else ArchiveTail(st, name, folder, archivePath, format, fault)
  }

  /** `extract_archive`; an empty destination makes `os.makedirs` fail. */
  function ExtractPlan(st: FsState, archive: string, destination: string, fault: Option<string>): Plan
  {
    if !Exists(st, archive) then Plan(Err(FileNotFound("The archive file at " + archive + " does not exist.")), [])
    else if destination == "" then
      Plan(Err(OsError("Failed to extract the contents of " + archive + " to " + destination +
                       ". Error: [Errno 2] No such file or directory: ''")), [])
    else if fault.Some? then
      Plan(Err(OsError("Failed to extract the contents of " + archive + " to " + destination + ". Error: " + fault.value)),
           [MakeDirs(destination)])
    else Plan(Ok(None), [MakeDirs(destination), Unpack(archive, destination)])
  }

  /** The path-derived part of `get_metadata`'s dictionary. */
  datatype Metadata = Metadata(name: string, path: string, extension: string, isDirectory: bool)

  /** `get_metadata`, without the `os.stat` data. */
  function GetMetadata(st: FsState, cwd: string, path: string): (r: Result<Metadata, FsError>)
    ensures r.Err? <==> !Exists(st, path)
    ensures r.Ok? ==> r.value.name == BaseName(path) && '/' !in r.value.name &&
                      r.value.isDirectory == (path in st.dirs) && SplitExt(path).0 + r.value.extension == path
  {
    if !Exists(st, path) then Err(FileNotFound("The file at " + path + " does not exist."))
    else Ok(Metadata(BaseName(path), AbsPath(cwd, path), SplitExt(path).1, path in st.dirs))
  }

  /** The metadata of each listed name, in order; the first name whose
      metadata cannot be read decides the error. */
  function MetadataAll(st: FsState, cwd: string, folder: string, listing: seq<string>): (r: Result<seq<Metadata>, FsError>)
    ensures r.Ok? ==>
              |r.value| == |listing| &&
              forall i :: 0 <= i < |listing| ==> GetMetadata(st, cwd, PathJoin(folder, listing[i])) == Ok(r.value[i])
  {
    if |listing| == 0 then Ok([])
    else
      var m := GetMetadata(st, cwd, PathJoin(folder, listing[0]));
      var rest := MetadataAll(st, cwd, folder, listing[1..]);
      if m.Err? then Err(m.error)
      else if rest.Err? then rest
      else
        var r := Ok([m.value] + rest.value);
        assert forall i :: 1 <= i < |listing| ==> listing[i] == listing[1..][i - 1];
        r
  }

  /** `list_folder`; `os.listdir` of an entry that is not a folder raises
      NotADirectoryError, which passes through. */
  function ListFolder(st: FsState, cwd: string, folder: string, listing: seq<string>): (r: Result<seq<Metadata>, FsError>)
    ensures !Exists(st, folder) ==> r == Err(FileNotFound("The folder at " + folder + " does not exist."))
    ensures Exists(st, folder) && folder !in st.dirs ==>
              r == Err(NotADirectory("[Errno 20] Not a directory: '" + folder + "'"))
    ensures folder in st.dirs ==> r == MetadataAll(st, cwd, folder, listing)
  {
    if !Exists(st, folder) then Err(FileNotFound("The folder at " + folder + " does not exist."))
    else if folder !in st.dirs then Err(NotADirectory("[Errno 20] Not a directory: '" + folder + "'"))
    else MetadataAll(st, cwd, folder, listing)
  }

  lemma ApplyAllOne(st: FsState, a: Effect)
    ensures ApplyAll(st, [a]) == Apply(st, a)
  {
  }

  lemma ApplyAllTwo(st: FsState, a: Effect, b: Effect)
    ensures ApplyAll(st, [a, b]) == Apply(Apply(st, a), b)
  {
    assert [a, b][0] == a && [a, b][1..] == [b];
    assert ApplyAll(st, [a, b]) == ApplyAll(Apply(st, a), [b]);
    assert [b][0] == b && [b][1..] == [];
    assert ApplyAll(Apply(st, a), [b]) == ApplyAll(Apply(Apply(st, a), b), []);
  }

  /** The filesystem the helpers act on. */
  class Disk {
    var files: set<string>
    var dirs: set<string>
    var special: set<string>
    /** The effects performed so far. */
    var effects: seq<Effect>
    /** The working directory relative paths are resolved against. */
    const cwd: string

    ghost function State(): FsState
      reads this
    {
      FsState(files, dirs, special)
    }

    constructor(cwd: string, files: set<string>, dirs: set<string>, special: set<string>)
      ensures State() == FsState(files, dirs, special) && effects == [] && this.cwd == cwd
    {
      this.cwd := cwd;
      this.files, this.dirs, this.special := files, dirs, special;
      effects := [];
    }

    predicate Present(p: string)
      reads this
    {
      p in files || p in dirs || p in special
    }

    /** Performs one effect. */
    method Perform(e: Effect)
      modifies this
      ensures State() == Apply(old(State()), e) && effects == old(effects) + [e]
    {
      match e {
        case MoveTo(s, d) =>
          if s in files {
            files := files - {s} + {d};
          } else if s in dirs {
            dirs := dirs - {s} + {d};
          } else {
            special := special - {s} + {d};
          }
        case CopyFile(_, d) => files := files + {d};
        case CopyTree(_, d) => dirs := dirs + {d};
        case MakeDirs(d) => dirs := dirs + {d};
        case RemoveTree(d) => dirs := dirs - {d};
        case RemoveFile(f) =>
          files := files - {f};
          special := special - {f};
        case MakeArchive(base, format, _) =>
          var ext := ArchiveExtension(format);
          if ext.Some? {
            files := files + {base + ext.value};
          }
        case Unpack(_, _) =>
      }
      effects := effects + [e];
    }

    /** `rename` */
    method Rename(path: string, newName: string, fault: Option<string>) returns (r: Result<Option<string>, FsError>)
      modifies this
      ensures var p := RenamePlan(old(State()), path, newName, fault);
              r == p.result && effects == old(effects) + p.effects && State() == ApplyAll(old(State()), p.effects)
    {
      if !Present(path) {
        return Err(FileNotFound("The file/folder at " + path + " does not exist."));
      }
      var newLocation := PathJoin(DirName(path), newName);
      if fault.Some? {
        return Err(OsError("Failed to rename the file/folder " + path + " to " + newName + ". Error: " + fault.value));
      }
      Perform(MoveTo(path, newLocation));
      r := Ok(Some(newLocation));
    }

    /** Where `copy` and `move` put a file: into a destination directory
        under its own name, with `_copy` added when that path is taken. */
    method Target(path: string, destination: string) returns (dest: string)
      ensures dest == FileTarget(State(), path, destination)
    {
      dest := destination;
      if dest in dirs {
        dest := PathJoin(dest, BaseName(path));
      }
      if Present(dest) {
        dest := CopyName(dest);
      }
    }

    /** `copy`, with the corrected folder test. */
    method Copy(path: string, destination: string, fault: Option<string>) returns (r: Result<Option<string>, FsError>)
      modifies this
      ensures var p := CopyPlan(old(State()), cwd, path, destination, fault);
              r == p.result && effects == old(effects) + p.effects && State() == ApplyAll(old(State()), p.effects)
    {
      if !Present(path) {
        return Err(FileNotFound("The path " + path + " does not exist."));
      }
      var dest := destination;
      if path in files {
        dest := Target(path, destination);
        if fault.Some? {
          return Err(OsError("Failed to copy " + path + " to " + dest + ". Error: " + fault.value));
        }
        Perform(CopyFile(path, dest));
      } else if path in dirs {
        if Within(AbsPath(cwd, dest), AbsPath(cwd, path)) {
          return Err(OsError("Failed to copy " + path + " to " + dest +
                             ". Error: Cannot copy a folder into one of its subdirectories."));
        }
        if Present(dest) {
          dest := dest + "_copy";
        }
        if fault.Some? {
          return Err(OsError("Failed to copy " + path + " to " + dest + ". Error: " + fault.value));
        }
        Perform(CopyTree(path, dest));
      } else {
        return Err(OsError("Failed to copy " + path + " to " + dest + ". Error: The path " + path +
                           " is neither a file nor a directory."));
      }
      r := Ok(Some(dest));
    }

    /** `move`, creating the parent directory only when there is one. */
    method Move(path: string, destination: string, fault: Option<string>) returns (r: Result<Option<string>, FsError>)
      modifies this
      ensures var p := MovePlan(old(State()), path, destination, fault);
              r == p.result && effects == old(effects) + p.effects && State() == ApplyAll(old(State()), p.effects)
    {
      ghost var st0 := State();
      if !Present(path) {
        return Err(FileNotFound("The file/folder at " + path + " does not exist."));
      }
      var dest := Target(path, destination);
      var parent := DirName(dest);
      if parent != "" {
        Perform(MakeDirs(parent));
        ApplyAllOne(st0, MakeDirs(parent));
      }
      if fault.Some? {
        return Err(OsError("Failed to move the file/folder " + path + " to " + dest + ". Error: " + fault.value));
      }
      Perform(MoveTo(path, dest));
      if parent != "" {
        ApplyAllTwo(st0, MakeDirs(parent), MoveTo(path, dest));
      } else {
        ApplyAllOne(st0, MoveTo(path, dest));
      }
      r := Ok(Some(dest));
    }

    /** `delete` */
    method Delete(path: string, fault: Option<string>) returns (r: Result<Option<string>, FsError>)
      modifies this
      ensures var p := DeletePlan(old(State()), path, fault);
              r == p.result && effects == old(effects) + p.effects && State() == ApplyAll(old(State()), p.effects)
    {
      if !Present(path) {
        return Err(FileNotFound("The file/folder at " + path + " does not exist."));
      }
      if fault.Some? {
        return Err(OsError("Failed to delete the file/folder at " + path + ". Error: " + fault.value));
      }
      if path in dirs {
        Perform(RemoveTree(path));
      } else {
        Perform(RemoveFile(path));
      }
      r := Ok(None);
    }

    /** `create_archive`, reporting a failed `os.makedirs` as OSError and
        naming the archive as `shutil.make_archive` does. */
    method CreateArchive(name: string, folder: string, archivePath: string, format: string,
                         dirFault: Option<string>, fault: Option<string>)
      returns (r: Result<Option<string>, FsError>)
      modifies this
      ensures var p := ArchivePlan(old(State()), name, folder, archivePath, format, dirFault, fault);
              r == p.result && effects == old(effects) + p.effects && State() == ApplyAll(old(State()), p.effects)
    {
      if !Present(folder) {
        return Err(FileNotFound("The folder at " + folder + " does not exist."));
      }
      if archivePath == "" || dirFault.Some? {
        return Err(OsError("Failed to compress the folder " + folder + " into " + PathJoin(archivePath, name) + "." +
                           format + ". Error: " + MakeDirsError(archivePath, dirFault)));
      }
      ghost var st0 := State();
      Perform(MakeDirs(archivePath));
      var base := PathJoin(archivePath, name);
      var ext := ArchiveExtension(format);
      if ext.None? {
        return Err(UnknownFormat(format));
      }
      if Present(base + ext.value) {
        base := base + "_copy";
      }
      if fault.Some? {
        return Err(OsError("Failed to compress the folder " + folder + " into " + base + "." + format + ". Error: " + fault.value));
      }
      Perform(MakeArchive(base, format, folder));
      ApplyAllTwo(st0, MakeDirs(archivePath), MakeArchive(base, format, folder));
      r := Ok(Some(base + ext.value));
    }

    /** `extract_archive` */
    method ExtractArchive(archive: string, destination: string, fault: Option<string>)
      returns (r: Result<Option<string>, FsError>)
      modifies this
      ensures var p := ExtractPlan(old(State()), archive, destination, fault);
              r == p.result && effects == old(effects) + p.effects && State() == ApplyAll(old(State()), p.effects)
    {
      if !Present(archive) {
        return Err(FileNotFound("The archive file at " + archive + " does not exist."));
      }
      if destination == "" {
        return Err(OsError("Failed to extract the contents of " + archive + " to " + destination +
                           ". Error: [Errno 2] No such file or directory: ''"));
      }
      ghost var st0 := State();
      Perform(MakeDirs(destination));
      if fault.Some? {
        return Err(OsError("Failed to extract the contents of " + archive + " to " + destination + ". Error: " + fault.value));
      }
      Perform(Unpack(archive, destination));
      ApplyAllTwo(st0, MakeDirs(destination), Unpack(archive, destination));
      r := Ok(None);
    }
  }

  // ---- properties ----

  /** Every operation first checks that its source exists: a missing
      source raises FileNotFoundError and touches nothing. */
  lemma MissingSourceRefused(st: FsState, cwd: string, src: string, other: string, name: string, format: string,
                             dirFault: Option<string>, fault: Option<string>)
    requires !Exists(st, src)
    ensures var ps := [RenamePlan(st, src, other, fault), CopyPlan(st, cwd, src, other, fault),
                       MovePlan(st, src, other, fault), DeletePlan(st, src, fault),
                       ArchivePlan(st, name, src, other, format, dirFault, fault), ExtractPlan(st, src, other, fault)];
            forall k :: 0 <= k < |ps| ==> ps[k].result.Err? && ps[k].result.error.FileNotFound? && ps[k].effects == []
    ensures GetMetadata(st, cwd, src).Err? && ListFolder(st, cwd, src, [other]).Err?
  {
  }

  /** The path whose metadata `rename` reports exists once its effect is
      done, so the closing `get_metadata` does not raise. */
  lemma RenameTargetExists(st: FsState, path: string, newName: string, fault: Option<string>)
    ensures var p := RenamePlan(st, path, newName, fault);
            p.result.Ok? ==>
              p.result.value == Some(PathJoin(DirName(path), newName)) && Exists(ApplyAll(st, p.effects), p.result.value.value)
  {
    var r := RenamePlan(st, path, newName, fault);
    if r.result.Ok? {
      ApplyAllOne(st, r.effects[0]);
    }
  }

  /** Likewise for `copy`: the reported copy exists afterwards. */
  lemma CopyTargetExists(st: FsState, cwd: string, path: string, destination: string, fault: Option<string>)
    ensures var p := CopyPlan(st, cwd, path, destination, fault);
            p.result.Ok? ==> Exists(ApplyAll(st, p.effects), p.result.value.value)
  {
    var c := CopyPlan(st, cwd, path, destination, fault);
    if c.result.Ok? {
      assert c.effects == [c.effects[0]];
      ApplyAllOne(st, c.effects[0]);
    }
  }

  /** Likewise for `create_archive`: the reported archive exists
      afterwards. */
  lemma ArchiveTargetExists(st: FsState, name: string, folder: string, archivePath: string, format: string,
                            dirFault: Option<string>, fault: Option<string>)
    ensures var p := ArchivePlan(st, name, folder, archivePath, format, dirFault, fault);
            p.result.Ok? ==> Exists(ApplyAll(st, p.effects), p.result.value.value)
  {
    var a := ArchivePlan(st, name, folder, archivePath, format, dirFault, fault);
    if a.result.Ok? {
      assert a.effects == [a.effects[0], a.effects[1]];
      ApplyAllTwo(st, a.effects[0], a.effects[1]);
    }
  }

  /** On a filesystem where every entry has one kind, a successful
      `delete` leaves nothing at the path: a folder is removed as a tree,
      anything else (a file, a link, a socket, a device) by `os.remove`. */
  lemma DeleteRemoves(st: FsState, path: string)
    requires Disjoint(st)
    ensures var p := DeletePlan(st, path, None);
            Exists(st, path) ==>
              p.result == Ok(None) && !Exists(ApplyAll(st, p.effects), path) &&
              p.effects == [if path in st.dirs then RemoveTree(path) else RemoveFile(path)]
  {
    var p := DeletePlan(st, path, None);
    if Exists(st, path) {
      ApplyAllOne(st, p.effects[0]);
    }
  }

  /** A file copied into a directory lands under its own base name; when
      that name is taken, `_copy` goes in once, before the extension, and
      the result is used even if it exists too (it is overwritten). */
  lemma CopyFileIntoDirectory(st: FsState, cwd: string, path: string, dir: string)
    requires path in st.files && dir in st.dirs
    ensures var target := PathJoin(dir, BaseName(path));
            var p := CopyPlan(st, cwd, path, dir, None);
            p.result == Ok(Some(if Exists(st, target) then CopyName(target) else target)) &&
            SplitExt(target).0 + "_copy" + SplitExt(target).1 == CopyName(target)
  {
  }

  /** A folder copied onto an existing destination goes to
      `destination + "_copy"`, with no extension split. */
  lemma CopyFolderOntoExisting(st: FsState, cwd: string, path: string, destination: string)
    requires path in st.dirs && path !in st.files && Exists(st, destination)
    requires !Within(AbsPath(cwd, destination), AbsPath(cwd, path))
    ensures CopyPlan(st, cwd, path, destination, None) ==
            Plan(Ok(Some(destination + "_copy")), [CopyTree(path, destination + "_copy")])
  {
  }

  /** The corrected folder test refuses exactly the folder itself and
      paths below it. */
  lemma CopyRefusesExactlyWithin(st: FsState, cwd: string, path: string, destination: string, fault: Option<string>)
    requires path in st.dirs && path !in st.files
    ensures var p := CopyPlan(st, cwd, path, destination, fault);
            (p.result == Err(OsError("Failed to copy " + path + " to " + destination +
                                     ". Error: Cannot copy a folder into one of its subdirectories."))
             && p.effects == []) ||
            !Within(AbsPath(cwd, destination), AbsPath(cwd, path))
    ensures Within(AbsPath(cwd, destination), AbsPath(cwd, path)) ==>
              CopyPlan(st, cwd, path, destination, fault).result.Err?
    ensures !Within(AbsPath(cwd, destination), AbsPath(cwd, path)) && fault.None? ==>
              CopyPlan(st, cwd, path, destination, fault).result.Ok?
  {
  }

  /** The root folder counts as a folder too: copying "/" anywhere below
      it is refused. */
  lemma CopyRootRefused(st: FsState, cwd: string, destination: string, fault: Option<string>)
    requires "/" in st.dirs && "/" !in st.files
    requires |destination| > 0 && destination[0] == '/'
    ensures CopyPlan(st, cwd, "/", destination, fault) ==
            Plan(Err(OsError("Failed to copy " + "/" + " to " + destination +
                             ". Error: Cannot copy a folder into one of its subdirectories.")), [])
  {
    assert AsFolder("/") == "/";
    assert StartsWith(destination, "/") by {
      assert destination[..1] == [destination[0]];
    }
  }

  /** As written, copying the folder `/data/rep` to its sibling
      `/data/report` is refused as a copy into a subdirectory; with the
      corrected test it goes ahead. */
  lemma SiblingPrefixRefusedAsWritten()
    ensures var st := FsState({}, {"/data/rep"}, {});
            CopyPlanAsWritten(st, "/", "/data/rep", "/data/report", None).result ==
              Err(OsError("Failed to copy " + "/data/rep" + " to " + "/data/report" +
                          ". Error: Cannot copy a folder into one of its subdirectories."))
    ensures var st := FsState({}, {"/data/rep"}, {});
            CopyPlan(st, "/", "/data/rep", "/data/report", None) ==
              Plan(Ok(Some("/data/report")), [CopyTree("/data/rep", "/data/report")])
  {
    var src := "/data/rep";
    var dst := "/data/report";
    assert StartsWith(dst, src) by {
      assert dst[..|src|] == src;
    }
    assert !StartsWith(dst, src + "/") by {
      assert (src + "/")[9] == '/' && dst[9] == 'o';
    }
    var st := FsState({}, {"/data/rep"}, {});
    assert AbsPath("/", src) == src && AbsPath("/", dst) == dst;
    assert !Exists(st, dst);
  }

  /** As written, moving a file to a bare name in the working directory
      always fails, because `os.makedirs("")` raises. */
  lemma MoveToBareNameFailsAsWritten(st: FsState, path: string, dest: string)
    requires Exists(st, path) && dest !in st.dirs && !Exists(st, dest) && '/' !in dest
    ensures MovePlanAsWritten(st, path, dest, None) ==
            Plan(Err(OsError("Failed to move the file/folder " + path + " to " + dest +
                             ". Error: [Errno 2] No such file or directory: ''")), [])
  {
  }

  /** With the parent created only when there is one, a move whose
      `shutil.move` succeeds always succeeds, to the resolved target, and
      the source is gone afterwards. */
  lemma MoveSucceeds(st: FsState, path: string, destination: string)
    requires Exists(st, path) && Disjoint(st)
    ensures var d := FileTarget(st, path, destination);
            var p := MovePlan(st, path, destination, None);
            p.result == Ok(Some(d)) && Exists(ApplyAll(st, p.effects), d) &&
            (d != path && path != DirName(d) ==> !Exists(ApplyAll(st, p.effects), path))
  {
    var d := FileTarget(st, path, destination);
    var p := MovePlan(st, path, destination, None);
    if DirName(d) == "" {
      ApplyAllOne(st, MoveTo(path, d));
    } else {
      assert p.effects == [MakeDirs(DirName(d)), MoveTo(path, d)];
      ApplyAllTwo(st, MakeDirs(DirName(d)), MoveTo(path, d));
    }
  }

  /** As written, `create_archive` into the working directory (an empty
      archive path) raises UnboundLocalError from its own error handler. */
  lemma ArchiveIntoWorkingDirectoryAsWritten(st: FsState, name: string, folder: string, format: string)
    requires Exists(st, folder)
    ensures ArchivePlanAsWritten(st, name, folder, "", format, None, None).result == Err(UnboundLocal("full_archive_base"))
    ensures ArchivePlan(st, name, folder, "", format, None, None).result ==
            Err(OsError("Failed to compress the folder " + folder + " into " + name + "." + format +
                        ". Error: " + "[Errno 2] No such file or directory: ''"))
  {
    assert PathJoin("", name) == name;
  }

  /** The corrected `create_archive` raises FileNotFoundError, OSError, or
      the ValueError of an unknown format, which happens exactly when the
      folder exists, the archive directory was made and the format is not
      one of the five; otherwise it reports the archive `make_archive`
      writes, whose base gains `_copy` when that archive already exists. */
  lemma ArchiveOutcomes(st: FsState, name: string, folder: string, archivePath: string, format: string,
                        dirFault: Option<string>, fault: Option<string>)
    ensures var p := ArchivePlan(st, name, folder, archivePath, format, dirFault, fault);
            (p.result.Err? ==> p.result.error.FileNotFound? || p.result.error.OsError? || p.result.error.ValueError?) &&
            (p.result == Err(UnknownFormat(format)) <==>
               Exists(st, folder) && archivePath != "" && dirFault.None? && ArchiveExtension(format).None?) &&
            (p.result.Ok? ==>
               ArchiveExtension(format).Some? &&
               var ext := ArchiveExtension(format).value;
               var base := PathJoin(archivePath, name);
               var after := Apply(st, MakeDirs(archivePath));
               p.result.value == Some((if Exists(after, base + ext) then base + "_copy" else base) + ext))
  {
  }

  /** As written, a `gztar` archive is written to `out/a.tar.gz` while the
      `_copy` test and the closing `get_metadata` look at `out/a.gztar`: the
      call raises FileNotFoundError after writing the archive, and an
      existing `out/a.tar.gz` is overwritten. The corrected plan reports
      `out/a.tar.gz`, or `out/a_copy.tar.gz` when that is taken. */
  lemma GztarReportedMissingAsWritten()
    ensures var st := FsState({}, {"src", "out"}, {});
            ArchivePlanAsWritten(st, "a", "src", "out", "gztar", None, None) ==
              Plan(Err(FileNotFound("The file at " + "out/a.gztar" + " does not exist.")),
                   [MakeDirs("out"), MakeArchive("out/a", "gztar", "src")]) &&
            ArchivePlan(st, "a", "src", "out", "gztar", None, None).result == Ok(Some("out/a.tar.gz"))
    ensures var st := FsState({"out/a.tar.gz"}, {"src", "out"}, {});
            ArchivePlanAsWritten(st, "a", "src", "out", "gztar", None, None).effects ==
              [MakeDirs("out"), MakeArchive("out/a", "gztar", "src")] &&
            ArchivePlan(st, "a", "src", "out", "gztar", None, None) ==
              Plan(Ok(Some("out/a_copy.tar.gz")), [MakeDirs("out"), MakeArchive("out/a_copy", "gztar", "src")])
  {
    assert PathJoin("out", "a") == "out/a";
    assert ArchiveExtension("gztar") == Some(".tar.gz");
    assert "out/a" + ".tar.gz" == "out/a.tar.gz";
    assert "out/a" + "." + "gztar" == "out/a.gztar";
    assert "out/a_copy" + ".tar.gz" == "out/a_copy.tar.gz";
    assert "out/a" + "_copy" == "out/a_copy";
    assert "out/a.gztar" != "out/a.tar.gz" by {
      assert "out/a.gztar"[6] == 'g' && "out/a.tar.gz"[6] == 't';
    }
    var st := FsState({}, {"src", "out"}, {});
    var made := Apply(st, MakeDirs("out"));
    assert made == st;
    assert !Exists(made, "out/a.gztar");
    assert Apply(made, MakeArchive("out/a", "gztar", "src")) == FsState({"out/a.tar.gz"}, {"src", "out"}, {});
    assert !Exists(Apply(made, MakeArchive("out/a", "gztar", "src")), "out/a.gztar");
    assert ArchiveTailAsWritten(st, "a", "src", "out", "gztar", None) ==
           Plan(Err(FileNotFound("The file at " + "out/a.gztar" + " does not exist.")),
                [MakeDirs("out"), MakeArchive("out/a", "gztar", "src")]);
    assert ArchiveTail(st, "a", "src", "out", "gztar", None).result == Ok(Some("out/a.tar.gz"));
    var st2 := FsState({"out/a.tar.gz"}, {"src", "out"}, {});
    assert !Exists(Apply(st2, MakeDirs("out")), "out/a.gztar");
    assert Exists(Apply(st2, MakeDirs("out")), "out/a.tar.gz");
  }

  /** For `zip` and `tar` the archive is `<base>.<format>`, so there the
      plan as written and the corrected plan agree once the archive
      directory exists. */
  lemma ZipAndTarAgree(st: FsState, name: string, folder: string, archivePath: string, format: string,
                       fault: Option<string>)
    requires format == "zip" || format == "tar"
    requires archivePath != ""
    ensures ArchivePlanAsWritten(st, name, folder, archivePath, format, None, fault) ==
            ArchivePlan(st, name, folder, archivePath, format, None, fault)
  {
    if format == "zip" {
      assert "." + format == ".zip";
    } else {
      assert format != "zip" by {
        assert format[0] == 't';
      }
      assert ArchiveExtension(format) == Some(".tar");
      assert "." + format == ".tar";
    }
    var ext := ArchiveExtension(format).value;
    var base := PathJoin(archivePath, name);
    var made := Apply(st, MakeDirs(archivePath));
    var b := if Exists(made, base + ext) then base + "_copy" else base;
    assert b + "." + format == b + ext;
    assert base + "." + format == base + ext;
    assert Exists(Apply(made, MakeArchive(b, format, folder)), b + ext);
  }

  /** Listing a folder succeeds exactly when every listed name exists, and
      then yields each name's metadata in the listed order. */
  lemma {:induction false} MetadataAllOk(st: FsState, cwd: string, folder: string, listing: seq<string>)
    ensures MetadataAll(st, cwd, folder, listing).Ok? <==>
            forall i :: 0 <= i < |listing| ==> Exists(st, PathJoin(folder, listing[i]))
  {
    if |listing| > 0 {
      MetadataAllOk(st, cwd, folder, listing[1..]);
      assert forall i :: 1 <= i < |listing| ==> listing[i] == listing[1..][i - 1];
      if !(forall i :: 0 <= i < |listing[1..]| ==> Exists(st, PathJoin(folder, listing[1..][i]))) {
        var i :| 0 <= i < |listing[1..]| && !Exists(st, PathJoin(folder, listing[1..][i]));
        assert !Exists(st, PathJoin(folder, listing[i + 1]));
      }
    }
  }
}
