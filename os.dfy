/**
 * The part of the operating system the scaffold touches: `os.MkdirAll`,
 * `os.Stat` and `ioutil.WriteFile` on the tree below the working directory.
 *
 * The tree is a set of directories and a map from file paths to contents, both
 * keyed by cleaned relative paths ("." is the working directory). What the
 * system refuses (permissions, I/O errors) is given up front as `Faults`: the
 * paths at which creating a directory, examining an entry or writing a file
 * fails.
 */
module Os {
  import opened Wrappers
  import opened Paths

  datatype Entry = Entry(content: string, mode: int)

  datatype Tree = Tree(dirs: set<string>, files: map<string, Entry>)

  datatype Faults = Faults(mkdir: set<string>, stat: set<string>, write: set<string>)

  /** What `os.Stat` reports, classified as `os.IsNotExist` does. */
  datatype StatResult = Found | NotFound | StatFailed(path: string)

  /** The working directory exists, and no path is both a directory and a file. */
  predicate WellFormed(t: Tree)
  {
    "." in t.dirs && t.dirs !! t.files.Keys
  }

  /** `os.Stat(p)`. */
  function Stat(t: Tree, faults: Faults, p: string): (r: StatResult)
    ensures r == NotFound <==> Clean(p) !in faults.stat && Clean(p) !in t.dirs && Clean(p) !in t.files
    ensures r.StatFailed? <==> Clean(p) in faults.stat
  {
    var c := Clean(p);
    if c in faults.stat then StatFailed(c)
    else if c in t.dirs || c in t.files then Found
    else NotFound
  }

  /** The paths `a`, `a/b`, `a/b/c`, ... leading to `JoinSegments(parts)`, outermost first. */
  function Prefixes(parts: seq<string>): (r: seq<string>)
    ensures |r| == |parts|
    ensures parts != [] ==> r[|r| - 1] == JoinSegments(parts)
  {
    if parts == [] then [] else Prefixes(parts[..|parts| - 1]) + [JoinSegments(parts)]
  }

  /**
   * The directories `os.MkdirAll(d)` makes sure of, outermost first: every
   * ancestor of the cleaned path and the path itself (none for "."; a rooted
   * path starts below the root).
   */
  function Chain(d: string): seq<string>
  {
    var c := Clean(d);
    if c == "." then []
    else
      var ps := Prefixes(Split(c));
      if ps[0] == "" then ps[1..] else ps
  }

  /** `MkdirAll` cannot pass `x`: a file is in the way, or the directory is missing and cannot be made. */
  predicate Blocked(t: Tree, faults: Faults, x: string)
  {
    x in t.files || (x !in t.dirs && x in faults.mkdir)
  }

  /** The first blocked element of a chain, or its length when none is. */
  function FirstBlocked(t: Tree, faults: Faults, chain: seq<string>): (i: nat)
    ensures i <= |chain|
    ensures forall j :: 0 <= j < i ==> !Blocked(t, faults, chain[j])
    ensures i < |chain| ==> Blocked(t, faults, chain[i])
  {
    if chain == [] then 0
    else if Blocked(t, faults, chain[0]) then 0
    else 1 + FirstBlocked(t, faults, chain[1..])
  }

  /**
   * `os.MkdirAll(d)`: makes the missing directories of the chain, outermost
   * first, up to the first one that is blocked, and reports that one.
   */
  function MkdirAll(t: Tree, faults: Faults, d: string): (r: (Tree, Option<string>))
    ensures r.0.files == t.files && t.dirs <= r.0.dirs
    ensures r.1.None? ==> forall x :: x in Chain(d) ==> x in r.0.dirs
    ensures r.1.Some? ==> r.1.value in Chain(d) && Blocked(t, faults, r.1.value)
  {
    var chain := Chain(d);
    var i := FirstBlocked(t, faults, chain);
    var made := set j | 0 <= j < i :: chain[j];
    (Tree(t.dirs + made, t.files), if i < |chain| then Some(chain[i]) else None)
  }

  /**
   * `ioutil.WriteFile(p, content, perm)`: fails when the path is refused, is a
   * directory, or its parent directory is missing; otherwise the file holds
   * `content`, keeping its mode if it existed and taking `perm` if it is new.
   */
  function WriteFile(t: Tree, faults: Faults, p: string, content: string, perm: int): (r: (Tree, Option<string>))
    ensures r.0.dirs == t.dirs
    ensures r.1.Some? <==> Clean(p) in faults.write || Clean(p) in t.dirs || Dir(Clean(p)) !in t.dirs
    ensures r.1.Some? ==> r.0 == t
    ensures r.1.None? ==> Clean(p) in r.0.files && r.0.files[Clean(p)].content == content
    ensures r.1.None? ==> r.0.files.Keys == t.files.Keys + {Clean(p)}
    ensures forall k :: k in t.files && k != Clean(p) ==> k in r.0.files && r.0.files[k] == t.files[k]
  {
    var c := Clean(p);
    if c in faults.write || c in t.dirs || Dir(c) !in t.dirs then (t, Some(c))
    else
      var mode := if c in t.files then t.files[c].mode else perm;
      (Tree(t.dirs, t.files[c := Entry(content, mode)]), None)
  }

  /** Neither operation can put a file where a directory is or the reverse. */
  lemma OperationsKeepWellFormed(t: Tree, faults: Faults, d: string, p: string, content: string, perm: int)
    requires WellFormed(t)
    ensures WellFormed(MkdirAll(t, faults, d).0)
    ensures WellFormed(WriteFile(t, faults, p, content, perm).0)
  {
    var chain := Chain(d);
    var i := FirstBlocked(t, faults, chain);
    forall j | 0 <= j < i
      ensures chain[j] !in t.files
    {
      assert !Blocked(t, faults, chain[j]);
    }
  }

  /** The file system object: the tree as it stands, and what the system refuses. */
  class FileSystem {
    var tree: Tree
    const faults: Faults

    constructor (tree: Tree, faults: Faults)
      ensures this.tree == tree && this.faults == faults
    {
      this.tree := tree;
      this.faults := faults;
    }

    function StatPath(p: string): StatResult
      reads this
    {
      Stat(tree, faults, p)
    }

    /** `os.MkdirAll(d, mode)`; the mode of created directories is not recorded. */
    method MkdirAllPath(d: string, mode: int) returns (err: Option<string>)
      modifies this
      ensures (tree, err) == MkdirAll(old(tree), faults, d)
    {
      var r := MkdirAll(tree, faults, d);
      tree := r.0;
      err := r.1;
    }

    /** A directory made by a program the scaffold runs (`git init` makes `.git`). */
    method AddDir(d: string)
      modifies this
      ensures tree == Tree(old(tree).dirs + {d}, old(tree).files)
    {
      tree := Tree(tree.dirs + {d}, tree.files);
    }

    /** `ioutil.WriteFile(p, content, perm)`. */
    method WriteFilePath(p: string, content: string, perm: int) returns (err: Option<string>)
      modifies this
      ensures (tree, err) == WriteFile(old(tree), faults, p, content, perm)
    {
      var r := WriteFile(tree, faults, p, content, perm);
      tree := r.0;
      err := r.1;
    }
  }
}
