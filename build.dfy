/**
 * `Project.Build` of internal/templates/project.go: the directory pass, the
 * file pass, and the initialisation of Go modules and git, run in the project
 * directory.
 *
 * Each pass is stated twice: as a function of the tree before it (recursive
 * from the back of the list, one step per entry) and as the loop that
 * `buildDirs` and `buildFiles` run over a `FileSystem`; the loops are proved
 * to compute the functions. The outcome lists stand for the lines the passes
 * print: no error of either pass reaches the caller of `Build`.
 */
module Build {
  import opened Wrappers
  import opened Paths
  import opened Config
  import opened Projects
  import opened Os
  import opened Templates

  /** What building a file identifier yields: where the file goes and what it holds. */
  datatype Produced = Produced(target: string, content: string)

  /** `buildFile`: the registered constructor for `id`, run on the project. */
  function Produce(p: Project, id: string): Result<Produced, TemplateError>
  {
    match GetFileConstructor(id)
    case Failure(e) => Failure(e)
    case Success(k) => Success(Produced(Join(Directory(k), Filename(k)), Text(k, p)))
  }

  /**
   * Building fails exactly on the identifiers that are not registered, and a
   * registered kind's file goes below its directory under its file name.
   */
  lemma ProduceSpec(p: Project, k: Kind, id: string)
    ensures Produce(p, id).Failure? <==> id !in RegisteredIds()
    ensures Produce(p, id).Failure? ==> Produce(p, id).error == NotRegistered(id)
    ensures Produce(p, Identifier(k)) == Success(Produced(Join(Directory(k), Filename(k)), Text(k, p)))
  {
    GetFileConstructorSpec(id);
    IdentifierRoundTrip(k);
  }

  /** What a pass runs for each identifier of the layout. */
  type Producer = string -> Result<Produced, TemplateError>

  /** `buildFile` for the project `p`, as the file pass calls it. */
  function ProducerFor(p: Project): Producer
  {
    id => Produce(p, id)
  }

  /** `buildFile` on objects: looks the constructor up and runs it. */
  method BuildFile(p: Project, id: string) returns (r: Result<File, TemplateError>)
    ensures r.Success? <==> Produce(p, id).Success?
    ensures r.Failure? ==> r.error == Produce(p, id).error
    ensures r.Success? ==> fresh(r.value)
    ensures r.Success? ==> r.value.Target() == Produce(p, id).value.target && r.value.content == Produce(p, id).value.content
  {
    match GetFileConstructor(id)
    case Failure(e) =>
      r := Failure(e);
    case Success(k) =>
      r := Construct(k, p);
  }

  datatype DirOutcome = DirCreated | DirFailed(at: string)

  datatype FileOutcome =
    | Written
    | NotWritten(path: string)
    | TargetExists
    | StatSkipped(path: string)
    | NotBuilt(error: TemplateError)

  /** One iteration of `buildDirs`. */
  function DirStep(t: Tree, faults: Faults, d: string): (Tree, DirOutcome)
  {
    var (t1, err) := MkdirAll(t, faults, d);
    (t1, if err.None? then DirCreated else DirFailed(err.value))
  }

  /** `buildDirs` over the directories, in order; a failure is reported and the pass goes on. */
  function DirsPass(t: Tree, faults: Faults, dirs: seq<string>): (Tree, seq<DirOutcome>)
  {
    if dirs == [] then (t, [])
    else
      var (t1, outs) := DirsPass(t, faults, dirs[..|dirs| - 1]);
      var (t2, out) := DirStep(t1, faults, dirs[|dirs| - 1]);
      (t2, outs + [out])
  }

  /**
   * One iteration of `buildFiles`: a file that cannot be built is reported; one
   * whose target exists, or cannot be examined, is skipped; any other is written.
   */
  function FileStep(t: Tree, faults: Faults, produce: Producer, id: string): (Tree, FileOutcome)
  {
    match produce(id)
    case Failure(e) => (t, NotBuilt(e))
    case Success(f) =>
      match Stat(t, faults, f.target)
      case Found => (t, TargetExists)
      case StatFailed(x) => (t, StatSkipped(x))
      case NotFound =>
        var (t1, err) := WriteFile(t, faults, f.target, f.content, FileMode);
        (t1, if err.None? then Written else NotWritten(err.value))
  }

  /** `buildFiles` over the identifiers, in order. */
  function FilesPass(t: Tree, faults: Faults, produce: Producer, ids: seq<string>): (Tree, seq<FileOutcome>)
  {
    if ids == [] then (t, [])
    else
      var (t1, outs) := FilesPass(t, faults, produce, ids[..|ids| - 1]);
      var (t2, out) := FileStep(t1, faults, produce, ids[|ids| - 1]);
      (t2, outs + [out])
  }

  /** Both passes of `Build`, directories first. */
  function LayoutPass(t: Tree, faults: Faults, p: Project): Tree
  {
    FilesPass(DirsPass(t, faults, p.layout.directories).0, faults, ProducerFor(p), p.layout.files).0
  }

  /** One iteration of `buildDirs` on a file system. */
  method BuildDirStep(fs: FileSystem, d: string) returns (out: DirOutcome)
    modifies fs
    ensures (fs.tree, out) == DirStep(old(fs.tree), fs.faults, d)
  {
    var err := fs.MkdirAllPath(d, DirMode);
    out := if err.None? then DirCreated else DirFailed(err.value);
  }

  /** The directory pass over one more directory is one more step. */
  lemma DirsPassSnoc(t: Tree, faults: Faults, dirs: seq<string>, i: nat)
    requires i < |dirs|
    ensures DirsPass(t, faults, dirs[..i + 1]) ==
      (DirStep(DirsPass(t, faults, dirs[..i]).0, faults, dirs[i]).0,
       DirsPass(t, faults, dirs[..i]).1 + [DirStep(DirsPass(t, faults, dirs[..i]).0, faults, dirs[i]).1])
  {
    assert dirs[..i + 1][..i] == dirs[..i];
  }

  /** `buildDirs`. */
  method BuildDirs(fs: FileSystem, dirs: seq<string>) returns (outs: seq<DirOutcome>)
    modifies fs
    ensures (fs.tree, outs) == DirsPass(old(fs.tree), fs.faults, dirs)
  {
    outs := [];
    var i := 0;
    while i < |dirs|
      invariant 0 <= i <= |dirs|
      invariant (fs.tree, outs) == DirsPass(old(fs.tree), fs.faults, dirs[..i])
    {
      DirsPassSnoc(old(fs.tree), fs.faults, dirs, i);
      var out := BuildDirStep(fs, dirs[i]);
      outs := outs + [out];
      i := i + 1;
    }
    assert dirs[..|dirs|] == dirs;
  }

  /** One iteration of `buildFiles` on a file system. */
  method BuildFileStep(fs: FileSystem, p: Project, id: string) returns (out: FileOutcome)
    modifies fs
    ensures (fs.tree, out) == FileStep(old(fs.tree), fs.faults, ProducerFor(p), id)
  {
    var r := BuildFile(p, id);
    match r
    case Failure(e) =>
      out := NotBuilt(e);
    case Success(f) =>
      var st := fs.StatPath(f.Target());
      if st == Found {
        out := TargetExists;
      } else if st.StatFailed? {
        out := StatSkipped(st.path);
      } else {
        var err := f.Write(fs);
        out := if err.None? then Written else NotWritten(err.value);
      }
  }

  /** `buildFiles`. */
  method BuildFiles(fs: FileSystem, p: Project, ids: seq<string>) returns (outs: seq<FileOutcome>)
    modifies fs
    ensures (fs.tree, outs) == FilesPass(old(fs.tree), fs.faults, ProducerFor(p), ids)
  {
    outs := [];
    var i := 0;
    while i < |ids|
      invariant 0 <= i <= |ids|
      invariant (fs.tree, outs) == FilesPass(old(fs.tree), fs.faults, ProducerFor(p), ids[..i])
    {
      var out := BuildFileStep(fs, p, ids[i]);
      outs := outs + [out];
      assert ids[..i + 1][..i] == ids[..i];
      i := i + 1;
    }
    assert ids[..|ids|] == ids;
  }

  /** Why `Build` fails. */
  datatype BuildError =
    | ToolFailed(command: string, message: string)
    | StatFailedAt(path: string)

  /**
   * `gitInit`: an existing `.git` is left alone, one that cannot be examined
   * is an error, and otherwise `git init` runs (`gitErr` is its outcome) and
   * makes the directory.
   */
  function GitInit(t: Tree, faults: Faults, gitErr: Option<string>): (Tree, Option<BuildError>)
  {
    match Stat(t, faults, ".git")
    case Found => (t, None)
    case StatFailed(x) => (t, Some(StatFailedAt(x)))
    case NotFound =>
      if gitErr.Some? then (t, Some(ToolFailed("git init", gitErr.value)))
      else (Tree(t.dirs + {".git"}, t.files), None)
  }

  /**
   * `Build`: both passes, then `go mod init` (`goModErr` is its outcome; it
   * always runs), then `gitInit`.
   */
  function BuildProject(t: Tree, faults: Faults, p: Project, goModErr: Option<string>, gitErr: Option<string>): (Tree, Option<BuildError>)
  {
    var t1 := LayoutPass(t, faults, p);
    if goModErr.Some? then (t1, Some(ToolFailed("go mod init", goModErr.value)))
    else GitInit(t1, faults, gitErr)
  }

  /** `Build` on a file system; the two tools are given by their outcomes. */
  method BuildOn(fs: FileSystem, p: Project, goModErr: Option<string>, gitErr: Option<string>)
    returns (err: Option<BuildError>, dirOuts: seq<DirOutcome>, fileOuts: seq<FileOutcome>)
    modifies fs
    ensures (fs.tree, err) == BuildProject(old(fs.tree), fs.faults, p, goModErr, gitErr)
    ensures dirOuts == DirsPass(old(fs.tree), fs.faults, p.layout.directories).1
    ensures fileOuts == FilesPass(DirsPass(old(fs.tree), fs.faults, p.layout.directories).0, fs.faults, ProducerFor(p), p.layout.files).1
  {
    dirOuts := BuildDirs(fs, p.layout.directories);
    fileOuts := BuildFiles(fs, p, p.layout.files);
    if goModErr.Some? {
      err := Some(ToolFailed("go mod init", goModErr.value));
      return;
    }
    match fs.StatPath(".git")
    case Found =>
      err := None;
    case StatFailed(x) =>
      err := Some(StatFailedAt(x));
    case NotFound =>
      if gitErr.Some? {
        err := Some(ToolFailed("git init", gitErr.value));
      } else {
        fs.AddDir(".git");
        err := None;
      }
  }
}
