/**
 * What the two passes of `Project.Build` guarantee about the tree: files that
 * exist are never overwritten, every identifier is tried once and in order,
 * and building the same layout again over the result changes nothing.
 */
module Rebuild {
  import opened Wrappers
  import opened Paths
  import opened Config
  import opened Projects
  import opened Os
  import opened Templates
  import opened Build

  /**
   * `t2` is `t1` after further passes: directories and files only appear, and
   * no directory that appears is one the system refuses to create.
   */
  predicate Grows(faults: Faults, t1: Tree, t2: Tree)
  {
    && t1.dirs <= t2.dirs
    && t1.files.Keys <= t2.files.Keys
    && (forall x :: x in t2.dirs && x !in t1.dirs ==> x !in faults.mkdir)
  }

  lemma GrowsTransitive(faults: Faults, t1: Tree, t2: Tree, t3: Tree)
    requires Grows(faults, t1, t2) && Grows(faults, t2, t3)
    ensures Grows(faults, t1, t3)
  {
  }

  lemma MkdirAllGrows(t: Tree, faults: Faults, d: string)
    ensures Grows(faults, t, MkdirAll(t, faults, d).0)
  {
    var chain := Chain(d);
    var i := FirstBlocked(t, faults, chain);
    forall x | x in MkdirAll(t, faults, d).0.dirs && x !in t.dirs
      ensures x !in faults.mkdir
    {
      var j :| 0 <= j < i && chain[j] == x;
      assert !Blocked(t, faults, chain[j]);
    }
  }

  /**
   * Once `MkdirAll(d)` has run, running it again on any tree that grew from
   * the result makes nothing new and reports the same failure, if any.
   */
  lemma MkdirAllSettles(t1: Tree, faults: Faults, d: string, f: Tree)
    requires Grows(faults, MkdirAll(t1, faults, d).0, f) && WellFormed(f)
    ensures MkdirAll(f, faults, d) == (f, MkdirAll(t1, faults, d).1)
  {
    var chain := Chain(d);
    var i := FirstBlocked(t1, faults, chain);
    var made := set j | 0 <= j < i :: chain[j];
    var t1' := MkdirAll(t1, faults, d).0;
    forall j | 0 <= j < i
      ensures !Blocked(f, faults, chain[j])
    {
      assert chain[j] in made;
    }
    if i < |chain| {
      assert Blocked(t1, faults, chain[i]);
      assert chain[i] !in made by {
        forall j | 0 <= j < i
          ensures chain[j] != chain[i]
        {
          assert !Blocked(t1, faults, chain[j]);
        }
      }
      assert Blocked(f, faults, chain[i]);
    }
    var i' := FirstBlocked(f, faults, chain);
    assert i' == i;
    assert f.dirs + made == f.dirs;
  }

  /** After the directory pass, each of its directories is settled in any tree grown from the result. */
  lemma {:induction false} DirsPassSettles(t: Tree, faults: Faults, dirs: seq<string>, f: Tree)
    requires Grows(faults, DirsPass(t, faults, dirs).0, f) && WellFormed(f)
    ensures forall d :: d in dirs ==> MkdirAll(f, faults, d).0 == f
  {
    if dirs != [] {
      var init := dirs[..|dirs| - 1];
      var last := dirs[|dirs| - 1];
      var mid := DirsPass(t, faults, init).0;
      MkdirAllGrows(mid, faults, last);
      GrowsTransitive(faults, mid, MkdirAll(mid, faults, last).0, f);
      DirsPassSettles(t, faults, init, f);
      MkdirAllSettles(mid, faults, last, f);
      assert forall d :: d in dirs ==> d in init || d == last;
    }
  }

  /** A directory pass over settled directories leaves the tree as it is. */
  lemma {:induction false} DirsPassIdle(f: Tree, faults: Faults, dirs: seq<string>)
    requires forall d :: d in dirs ==> MkdirAll(f, faults, d).0 == f
    ensures DirsPass(f, faults, dirs).0 == f
  {
    if dirs != [] {
      var init := dirs[..|dirs| - 1];
      assert forall d :: d in init ==> d in dirs;
      DirsPassIdle(f, faults, init);
      assert dirs[|dirs| - 1] in dirs;
    }
  }

  /** The directory pass touches no file and keeps the tree well formed. */
  lemma {:induction false} DirsPassKeepsFiles(t: Tree, faults: Faults, dirs: seq<string>)
    requires WellFormed(t)
    ensures DirsPass(t, faults, dirs).0.files == t.files
    ensures t.dirs <= DirsPass(t, faults, dirs).0.dirs
    ensures WellFormed(DirsPass(t, faults, dirs).0)
  {
    if dirs != [] {
      var init := dirs[..|dirs| - 1];
      DirsPassKeepsFiles(t, faults, init);
      OperationsKeepWellFormed(DirsPass(t, faults, init).0, faults, dirs[|dirs| - 1], "", "", 0);
    }
  }

  /**
   * One file step never overwrites: an existing file keeps its content and
   * mode, directories are untouched, and files only appear.
   */
  lemma FileStepNeverOverwrites(t: Tree, faults: Faults, produce: Producer, id: string)
    requires WellFormed(t)
    ensures FileStep(t, faults, produce, id).0.dirs == t.dirs
    ensures t.files.Keys <= FileStep(t, faults, produce, id).0.files.Keys
    ensures forall k :: k in t.files ==> FileStep(t, faults, produce, id).0.files[k] == t.files[k]
    ensures WellFormed(FileStep(t, faults, produce, id).0)
    ensures FileStep(t, faults, produce, id).1 == Written ==> FileStep(t, faults, produce, id).0 != t
  {
    match produce(id)
    case Failure(_) =>
    case Success(f) =>
      OperationsKeepWellFormed(t, faults, ".", f.target, f.content, FileMode);
      if Stat(t, faults, f.target) == NotFound {
        assert Clean(f.target) !in t.files;
      }
  }

  /** The file pass never overwrites a file, creates no directory and keeps the tree well formed. */
  lemma {:induction false} FilesPassNeverOverwrites(t: Tree, faults: Faults, produce: Producer, ids: seq<string>)
    requires WellFormed(t)
    ensures FilesPass(t, faults, produce, ids).0.dirs == t.dirs
    ensures t.files.Keys <= FilesPass(t, faults, produce, ids).0.files.Keys
    ensures forall k :: k in t.files ==> FilesPass(t, faults, produce, ids).0.files[k] == t.files[k]
    ensures WellFormed(FilesPass(t, faults, produce, ids).0)
  {
    if ids != [] {
      var init := ids[..|ids| - 1];
      FilesPassNeverOverwrites(t, faults, produce, init);
      FileStepNeverOverwrites(FilesPass(t, faults, produce, init).0, faults, produce, ids[|ids| - 1]);
    }
  }

  /** A file step is a build error exactly when building the identifier fails. */
  lemma FileStepNotBuilt(t: Tree, faults: Faults, produce: Producer, id: string)
    ensures FileStep(t, faults, produce, id).1.NotBuilt? <==> produce(id).Failure?
  {
  }

  /**
   * Every identifier gets exactly one outcome, in order, and it is a build
   * error exactly when building that identifier fails.
   */
  lemma {:induction false} FilesPassOutcomes(t: Tree, faults: Faults, produce: Producer, ids: seq<string>)
    ensures |FilesPass(t, faults, produce, ids).1| == |ids|
    ensures forall i :: 0 <= i < |ids| ==>
      (FilesPass(t, faults, produce, ids).1[i].NotBuilt? <==> produce(ids[i]).Failure?)
  {
    if ids != [] {
      var init := ids[..|ids| - 1];
      var last := ids[|ids| - 1];
      var mid := FilesPass(t, faults, produce, init).0;
      var outs := FilesPass(t, faults, produce, init).1;
      var out := FileStep(mid, faults, produce, last).1;
      assert FilesPass(t, faults, produce, ids).1 == outs + [out];
      FilesPassOutcomes(t, faults, produce, init);
      FileStepNotBuilt(mid, faults, produce, last);
      NotBuiltSnoc(ids, outs, out, produce);
    }
  }

  /** In a project's file pass, the identifiers reported as not built are exactly the unregistered ones. */
  lemma FilesPassReportsUnregistered(t: Tree, faults: Faults, p: Project, ids: seq<string>)
    ensures |FilesPass(t, faults, ProducerFor(p), ids).1| == |ids|
    ensures forall i :: 0 <= i < |ids| ==>
      (FilesPass(t, faults, ProducerFor(p), ids).1[i].NotBuilt? <==> ids[i] !in RegisteredIds())
  {
    FilesPassOutcomes(t, faults, ProducerFor(p), ids);
    forall i | 0 <= i < |ids|
      ensures ProducerFor(p)(ids[i]).Failure? <==> ids[i] !in RegisteredIds()
    {
      GetFileConstructorSpec(ids[i]);
    }
  }

  lemma NotBuiltSnoc(ids: seq<string>, outs: seq<FileOutcome>, out: FileOutcome, produce: Producer)
    requires |ids| == |outs| + 1
    requires forall i :: 0 <= i < |outs| ==> (outs[i].NotBuilt? <==> produce(ids[i]).Failure?)
    requires out.NotBuilt? <==> produce(ids[|ids| - 1]).Failure?
    ensures forall i :: 0 <= i < |ids| ==> ((outs + [out])[i].NotBuilt? <==> produce(ids[i]).Failure?)
  {
  }

  /**
   * Once a file step has run, running it again on a tree with the same
   * directories and at least the same files changes nothing.
   */
  lemma FileStepSettles(t1: Tree, faults: Faults, produce: Producer, id: string, f: Tree)
    requires f.dirs == t1.dirs && FileStep(t1, faults, produce, id).0.files.Keys <= f.files.Keys
    requires FileStep(t1, faults, produce, id).0.dirs == t1.dirs
    ensures FileStep(f, faults, produce, id).0 == f
  {
    match produce(id)
    case Failure(_) =>
    case Success(pr) =>
      var c := Clean(pr.target);
      if Stat(t1, faults, pr.target) == NotFound {
        var w := WriteFile(t1, faults, pr.target, pr.content, FileMode);
        if w.1.None? {
          assert c in f.files;
        }
      }
  }

  /** After the file pass, each of its identifiers is settled in any tree with more files. */
  lemma {:induction false} FilesPassSettles(t: Tree, faults: Faults, produce: Producer, ids: seq<string>, f: Tree)
    requires WellFormed(t)
    requires f.dirs == t.dirs && FilesPass(t, faults, produce, ids).0.files.Keys <= f.files.Keys
    ensures forall id :: id in ids ==> FileStep(f, faults, produce, id).0 == f
  {
    if ids != [] {
      var init := ids[..|ids| - 1];
      var last := ids[|ids| - 1];
      var mid := FilesPass(t, faults, produce, init).0;
      FilesPassNeverOverwrites(t, faults, produce, init);
      FileStepNeverOverwrites(mid, faults, produce, last);
      FilesPassSettles(t, faults, produce, init, f);
      FileStepSettles(mid, faults, produce, last, f);
      assert forall id :: id in ids ==> id in init || id == last;
    }
  }

  /** A file pass over settled identifiers leaves the tree as it is and writes nothing. */
  lemma {:induction false} FilesPassIdle(f: Tree, faults: Faults, produce: Producer, ids: seq<string>)
    requires WellFormed(f)
    requires forall id :: id in ids ==> FileStep(f, faults, produce, id).0 == f
    ensures FilesPass(f, faults, produce, ids).0 == f
    ensures forall o :: o in FilesPass(f, faults, produce, ids).1 ==> o != Written
  {
    if ids != [] {
      var init := ids[..|ids| - 1];
      var last := ids[|ids| - 1];
      assert forall id :: id in init ==> id in ids;
      FilesPassIdle(f, faults, produce, init);
      assert last in ids;
      FileStepNeverOverwrites(f, faults, produce, last);
    }
  }

  /**
   * Building a project's layout over the tree a first build left behind
   * changes nothing: no directory is made, no file is written or replaced.
   */
  lemma RebuildChangesNothing(t: Tree, faults: Faults, p: Project)
    requires WellFormed(t)
    ensures LayoutPass(LayoutPass(t, faults, p), faults, p) == LayoutPass(t, faults, p)
    ensures var again := DirsPass(LayoutPass(t, faults, p), faults, p.layout.directories).0;
      forall o :: o in FilesPass(again, faults, ProducerFor(p), p.layout.files).1 ==> o != Written
  {
    var dirs := p.layout.directories;
    var ids := p.layout.files;
    var d := DirsPass(t, faults, dirs).0;
    DirsPassKeepsFiles(t, faults, dirs);
    var f := FilesPass(d, faults, ProducerFor(p), ids).0;
    FilesPassNeverOverwrites(d, faults, ProducerFor(p), ids);
    DirsPassSettles(t, faults, dirs, f);
    DirsPassIdle(f, faults, dirs);
    FilesPassSettles(d, faults, ProducerFor(p), ids, f);
    FilesPassIdle(f, faults, ProducerFor(p), ids);
  }

  /** Files that existed before a build come out of it unchanged. */
  lemma BuildKeepsExistingFiles(t: Tree, faults: Faults, p: Project, k: string)
    requires WellFormed(t) && k in t.files
    ensures k in LayoutPass(t, faults, p).files && LayoutPass(t, faults, p).files[k] == t.files[k]
  {
    DirsPassKeepsFiles(t, faults, p.layout.directories);
    FilesPassNeverOverwrites(DirsPass(t, faults, p.layout.directories).0, faults, ProducerFor(p), p.layout.files);
  }

  /**
   * `Build` fails only through one of the tools or a `.git` that cannot be
   * examined; no failure of either pass makes it fail, and an existing `.git`
   * is left alone.
   */
  lemma BuildFailsOnlyOnTools(t: Tree, faults: Faults, p: Project, goModErr: Option<string>, gitErr: Option<string>)
    ensures BuildProject(t, faults, p, goModErr, gitErr).1.Some? <==>
      goModErr.Some? || ".git" in faults.stat || (gitErr.Some? && Stat(LayoutPass(t, faults, p), faults, ".git") == NotFound)
    ensures goModErr.None? && ".git" !in faults.stat && ".git" in LayoutPass(t, faults, p).dirs ==>
      BuildProject(t, faults, p, goModErr, gitErr) == (LayoutPass(t, faults, p), None)
  {
    assert Clean(".git") == ".git" by {
      assert JoinSegments([".git"]) == ".git";
      CleanPlain([".git"]);
    }
  }

  /** A plain name is its own cleaned path, and `MkdirAll` of it makes just that directory. */
  lemma PlainName(n: string)
    requires Plain(n)
    ensures Clean(n) == n && Dir(n) == "." && Chain(n) == [n]
  {
    assert JoinSegments([n]) == n;
    CleanPlain([n]);
    DirOfPlain(n);
    JoinSplitRoundTrip([n]);
  }

  /** The `gitignore` file of any project is the fixed ignore text at `.gitignore`. */
  lemma GitignoreProduced(p: Project)
    ensures ProducerFor(p)("gitignore") == Success(Produced(".gitignore", GitignoreKind.Text))
  {
    GitignoreLookup();
    GitignoreTarget();
    assert Produce(p, "gitignore") == Success(Produced(Join(Directory(Gitignore), Filename(Gitignore)), Text(Gitignore, p)));
  }

  lemma GitignoreLookup()
    ensures GetFileConstructor("gitignore") == Success(Gitignore)
  {
    IdentifierRoundTrip(Gitignore);
  }

  lemma GitignoreTarget()
    ensures Join(Directory(Gitignore), Filename(Gitignore)) == ".gitignore"
  {
    JoinDot(".gitignore");
  }

  /** `MkdirAll` of a plain name that nothing blocks makes exactly that directory. */
  lemma MkdirPlain(t: Tree, faults: Faults, n: string)
    requires Plain(n) && n !in t.files && n !in faults.mkdir
    ensures MkdirAll(t, faults, n) == (Tree(t.dirs + {n}, t.files), None)
  {
    PlainName(n);
    assert FirstBlocked(t, faults, [n]) == 1;
    assert (set j | 0 <= j < 1 :: [n][j]) == {n};
  }

  /** A pass over one directory is one step. */
  lemma DirsPassOne(t: Tree, faults: Faults, d: string)
    ensures DirsPass(t, faults, [d]) == (DirStep(t, faults, d).0, [DirStep(t, faults, d).1])
  {
    assert [d][..0] == [];
    assert [] + [DirStep(t, faults, d).1] == [DirStep(t, faults, d).1];
  }

  /** A pass over one identifier is one step. */
  lemma FilesPassOne(t: Tree, faults: Faults, produce: Producer, id: string)
    ensures FilesPass(t, faults, produce, [id]) == (FileStep(t, faults, produce, id).0, [FileStep(t, faults, produce, id).1])
  {
    assert [id][..0] == [];
    assert [] + [FileStep(t, faults, produce, id).1] == [FileStep(t, faults, produce, id).1];
  }

  /** A file whose target is free, writable and below an existing directory is written, with the mode of new files. */
  lemma FileStepWrites(t: Tree, faults: Faults, produce: Producer, id: string, target: string, content: string)
    requires produce(id) == Success(Produced(target, content))
    requires Clean(target) !in faults.stat && Clean(target) !in faults.write
    requires Clean(target) !in t.dirs && Clean(target) !in t.files && Dir(Clean(target)) in t.dirs
    ensures FileStep(t, faults, produce, id) == (Tree(t.dirs, t.files[Clean(target) := Entry(content, FileMode)]), Written)
  {
  }

  /** A file whose target exists, and can be examined, is skipped. */
  lemma FileStepSkips(t: Tree, faults: Faults, produce: Producer, id: string, target: string, content: string)
    requires produce(id) == Success(Produced(target, content))
    requires Clean(target) !in faults.stat && Clean(target) in t.files
    ensures FileStep(t, faults, produce, id) == (t, TargetExists)
  {
  }

  const NoFaults := Faults({}, {}, {})

  /**
   * A layout of directory `src` and file `gitignore`, built in an empty
   * directory where nothing fails: `src` is made, `.gitignore` holds the
   * fixed text with the file mode of new files, git is initialised, and
   * `Build` succeeds.
   */
  lemma FreshBuildScenario(p: Project)
    requires p.layout == Layout(["src"], ["gitignore"])
    ensures DirsPass(Tree({"."}, map[]), NoFaults, ["src"]) == (Tree({".", "src"}, map[]), [DirCreated])
    ensures FilesPass(Tree({".", "src"}, map[]), NoFaults, ProducerFor(p), ["gitignore"]) ==
      (Tree({".", "src"}, map[".gitignore" := Entry(GitignoreKind.Text, FileMode)]), [Written])
    ensures BuildProject(Tree({"."}, map[]), NoFaults, p, None, None) ==
      (Tree({".", "src", ".git"}, map[".gitignore" := Entry(GitignoreKind.Text, FileMode)]), None)
  {
    GitignoreProduced(p);
    FreshBuildWith(p, GitignoreKind.Text);
  }

  /** The fresh build, for whatever text the `gitignore` kind produces. */
  lemma FreshBuildWith(p: Project, text: string)
    requires p.layout == Layout(["src"], ["gitignore"])
    requires ProducerFor(p)("gitignore") == Success(Produced(".gitignore", text))
    ensures DirsPass(Tree({"."}, map[]), NoFaults, ["src"]) == (Tree({".", "src"}, map[]), [DirCreated])
    ensures FilesPass(Tree({".", "src"}, map[]), NoFaults, ProducerFor(p), ["gitignore"]) ==
      (Tree({".", "src"}, map[".gitignore" := Entry(text, FileMode)]), [Written])
    ensures BuildProject(Tree({"."}, map[]), NoFaults, p, None, None) ==
      (Tree({".", "src", ".git"}, map[".gitignore" := Entry(text, FileMode)]), None)
  {
    FreshPassesWith(ProducerFor(p), text);
    FreshLayout(p, text);
    FreshGit(p, Tree({".", "src"}, map[".gitignore" := Entry(text, FileMode)]));
  }

  lemma FreshLayout(p: Project, text: string)
    requires p.layout == Layout(["src"], ["gitignore"])
    requires FilesPass(Tree({".", "src"}, map[]), NoFaults, ProducerFor(p), ["gitignore"]).0 ==
      Tree({".", "src"}, map[".gitignore" := Entry(text, FileMode)])
    ensures LayoutPass(Tree({"."}, map[]), NoFaults, p) == Tree({".", "src"}, map[".gitignore" := Entry(text, FileMode)])
  {
    FreshDirsPass();
  }

  lemma FreshGit(p: Project, t2: Tree)
    requires LayoutPass(Tree({"."}, map[]), NoFaults, p) == t2
    requires t2.dirs == {".", "src"} && ".git" !in t2.files
    ensures BuildProject(Tree({"."}, map[]), NoFaults, p, None, None) == (Tree({".", "src", ".git"}, t2.files), None)
  {
    GitInitFresh(t2);
    assert t2.dirs + {".git"} == {".", "src", ".git"};
  }

  /** The passes of the fresh build, for whatever the `gitignore` identifier produces. */
  lemma FreshPassesWith(produce: Producer, text: string)
    requires produce("gitignore") == Success(Produced(".gitignore", text))
    ensures DirsPass(Tree({"."}, map[]), NoFaults, ["src"]) == (Tree({".", "src"}, map[]), [DirCreated])
    ensures FilesPass(Tree({".", "src"}, map[]), NoFaults, produce, ["gitignore"]) ==
      (Tree({".", "src"}, map[".gitignore" := Entry(text, FileMode)]), [Written])
  {
    FreshDirsPass();
    FreshFilesPass(produce, text);
  }

  lemma FreshDirsPass()
    ensures DirsPass(Tree({"."}, map[]), NoFaults, ["src"]) == (Tree({".", "src"}, map[]), [DirCreated])
  {
    var t0 := Tree({"."}, map[]);
    MkdirPlain(t0, NoFaults, "src");
    DirsPassOne(t0, NoFaults, "src");
    assert t0.dirs + {"src"} == {".", "src"};
  }

  lemma FreshFilesPass(produce: Producer, text: string)
    requires produce("gitignore") == Success(Produced(".gitignore", text))
    ensures FilesPass(Tree({".", "src"}, map[]), NoFaults, produce, ["gitignore"]) ==
      (Tree({".", "src"}, map[".gitignore" := Entry(text, FileMode)]), [Written])
  {
    var t1 := Tree({".", "src"}, map[]);
    PlainName(".gitignore");
    FileStepWrites(t1, NoFaults, produce, "gitignore", ".gitignore", text);
    FilesPassOne(t1, NoFaults, produce, "gitignore");
  }

  /** Where nothing fails and there is no `.git`, git is initialised. */
  lemma GitInitFresh(t: Tree)
    requires ".git" !in t.dirs && ".git" !in t.files
    ensures GitInit(t, NoFaults, None) == (Tree(t.dirs + {".git"}, t.files), None)
  {
    PlainName(".git");
  }

  /**
   * The same layout over a directory that already holds `.gitignore`: the
   * file keeps its content and mode and is reported as existing.
   */
  lemma ExistingGitignoreScenario(p: Project, e: Entry)
    requires p.layout == Layout(["src"], ["gitignore"])
    ensures FilesPass(Tree({".", "src"}, map[".gitignore" := e]), NoFaults, ProducerFor(p), ["gitignore"]) ==
      (Tree({".", "src"}, map[".gitignore" := e]), [TargetExists])
    ensures LayoutPass(Tree({"."}, map[".gitignore" := e]), NoFaults, p) == Tree({".", "src"}, map[".gitignore" := e])
  {
    GitignoreProduced(p);
    ExistingPassesWith(ProducerFor(p), e, GitignoreKind.Text);
  }

  /** The passes over an existing `.gitignore`, for whatever the `gitignore` identifier produces. */
  lemma ExistingPassesWith(produce: Producer, e: Entry, text: string)
    requires produce("gitignore") == Success(Produced(".gitignore", text))
    ensures DirsPass(Tree({"."}, map[".gitignore" := e]), NoFaults, ["src"]).0 == Tree({".", "src"}, map[".gitignore" := e])
    ensures FilesPass(Tree({".", "src"}, map[".gitignore" := e]), NoFaults, produce, ["gitignore"]) ==
      (Tree({".", "src"}, map[".gitignore" := e]), [TargetExists])
  {
    ExistingDirsPass(e);
    ExistingFilesPass(produce, e, text);
  }

  lemma ExistingDirsPass(e: Entry)
    ensures DirsPass(Tree({"."}, map[".gitignore" := e]), NoFaults, ["src"]).0 == Tree({".", "src"}, map[".gitignore" := e])
  {
    var t0 := Tree({"."}, map[".gitignore" := e]);
    MkdirPlain(t0, NoFaults, "src");
    DirsPassOne(t0, NoFaults, "src");
    assert t0.dirs + {"src"} == {".", "src"};
  }

  lemma ExistingFilesPass(produce: Producer, e: Entry, text: string)
    requires produce("gitignore") == Success(Produced(".gitignore", text))
    ensures FilesPass(Tree({".", "src"}, map[".gitignore" := e]), NoFaults, produce, ["gitignore"]) ==
      (Tree({".", "src"}, map[".gitignore" := e]), [TargetExists])
  {
    var t1 := Tree({".", "src"}, map[".gitignore" := e]);
    PlainName(".gitignore");
    FileStepSkips(t1, NoFaults, produce, "gitignore", ".gitignore", text);
    FilesPassOne(t1, NoFaults, produce, "gitignore");
  }
}
