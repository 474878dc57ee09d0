/**
 * The template registry and the file object of internal/templates/templates.go:
 * the ten file kinds a layout may name, the constructor lookup by identifier,
 * and the rendering of a kind's template against the values it draws from a
 * project.
 */
module Templates {
  import opened Wrappers
  import opened Paths
  import opened Render
  import opened Config
  import opened Projects
  import opened Os
  import DocKind
  import DockerfileKind
  import GitignoreKind
  import GolangciKind
  import MakefileKind
  import PreCommitKind
  import ReadmeKind
  import SonarKind
  import TravisKind
  import VersionKind

  /** The registered file kinds. */
  datatype Kind = Doc | Dockerfile | Gitignore | Golangci | Makefile | PreCommit | Readme | Sonar | Travis | Version

  /** Every kind, in the order the registry lists them. */
  const Kinds: seq<Kind> := [Doc, Dockerfile, Gitignore, Golangci, Makefile, PreCommit, Readme, Sonar, Travis, Version]

  function Identifier(k: Kind): string
  {
    match k
    case Doc => DocKind.Identifier
    case Dockerfile => DockerfileKind.Identifier
    case Gitignore => GitignoreKind.Identifier
    case Golangci => GolangciKind.Identifier
    case Makefile => MakefileKind.Identifier
    case PreCommit => PreCommitKind.Identifier
    case Readme => ReadmeKind.Identifier
    case Sonar => SonarKind.Identifier
    case Travis => TravisKind.Identifier
    case Version => VersionKind.Identifier
  }

  function Filename(k: Kind): string
  {
    match k
    case Doc => DocKind.Filename
    case Dockerfile => DockerfileKind.Filename
    case Gitignore => GitignoreKind.Filename
    case Golangci => GolangciKind.Filename
    case Makefile => MakefileKind.Filename
    case PreCommit => PreCommitKind.Filename
    case Readme => ReadmeKind.Filename
    case Sonar => SonarKind.Filename
    case Travis => TravisKind.Filename
    case Version => VersionKind.Filename
  }

  function Directory(k: Kind): string
  {
    match k
    case Doc => DocKind.Directory
    case Dockerfile => DockerfileKind.Directory
    case Gitignore => GitignoreKind.Directory
    case Golangci => GolangciKind.Directory
    case Makefile => MakefileKind.Directory
    case PreCommit => PreCommitKind.Directory
    case Readme => ReadmeKind.Directory
    case Sonar => SonarKind.Directory
    case Travis => TravisKind.Directory
    case Version => VersionKind.Directory
  }

  function TemplateOf(k: Kind): Template
  {
    match k
    case Doc => DocKind.Template
    case Dockerfile => DockerfileKind.Template
    case Gitignore => GitignoreKind.Template
    case Golangci => GolangciKind.Template
    case Makefile => MakefileKind.Template
    case PreCommit => PreCommitKind.Template
    case Readme => ReadmeKind.Template
    case Sonar => SonarKind.Template
    case Travis => TravisKind.Template
    case Version => VersionKind.Template
  }

  /** The values a kind's constructor takes from the project for its template. */
  function Values(k: Kind, p: Project): Context
  {
    match k
    case Doc => DocKind.Values(p)
    case Dockerfile => DockerfileKind.Values(p)
    case Gitignore => GitignoreKind.Values(p)
    case Golangci => GolangciKind.Values(p)
    case Makefile => MakefileKind.Values(p)
    case PreCommit => PreCommitKind.Values(p)
    case Readme => ReadmeKind.Values(p)
    case Sonar => SonarKind.Values(p)
    case Travis => TravisKind.Values(p)
    case Version => VersionKind.Values(p)
  }

  /** The text each kind's file is meant to hold for a project, stated kind by kind. */
  function Text(k: Kind, p: Project): string
  {
    var c := p.profile.conf;
    match k
    case Doc => DocKind.Text(p.name)
    case Dockerfile => DockerfileKind.Text(GetString(c, "docker.maintainer"), p.name)
    case Gitignore => GitignoreKind.Text
    case Golangci => GolangciKind.Text
    case Makefile => MakefileKind.Text
    case PreCommit => PreCommitKind.Text
    case Readme => ReadmeKind.Text(p.name)
    case Sonar => SonarKind.Text(GetString(c, "sonar.org"), GetString(c, "name"), GetString(c, "travis.profile"), GetString(c, "git.URL"))
    case Travis => TravisKind.Text(GetString(c, "sonar.org"))
    case Version => VersionKind.Text
  }

  /**
   * Every registered template executes, for every project, to the text its
   * kind states: the execution error of `newProjectFile` cannot arise from a
   * registered kind.
   */
  lemma RenderedAll(k: Kind, p: Project)
    ensures Execute(TemplateOf(k), Values(k, p)) == Success(Text(k, p))
  {
    match k
    case Doc => DocKind.Rendered(p);
    case Dockerfile => DockerfileKind.Rendered(p);
    case Gitignore => GitignoreKind.Rendered(p);
    case Golangci => GolangciKind.Rendered(p);
    case Makefile => MakefileKind.Rendered(p);
    case PreCommit => PreCommitKind.Rendered(p);
    case Readme => ReadmeKind.Rendered(p);
    case Sonar => SonarKind.Rendered(p);
    case Travis => TravisKind.Rendered(p);
    case Version => VersionKind.Rendered(p);
  }

  /** Why a file could not be produced. */
  datatype TemplateError =
    | NotRegistered(id: string)
    | ExecFailed(id: string, cause: ExecError)

  /** The registry: every kind's identifier, in registry order. */
  function RegisteredIds(): (ids: seq<string>)
    ensures |ids| == |Kinds|
    ensures forall i :: 0 <= i < |Kinds| ==> ids[i] == Identifier(Kinds[i])
  {
    seq(|Kinds|, i requires 0 <= i < |Kinds| => Identifier(Kinds[i]))
  }

  /** The first registered kind identified by `id`. */
  function Find(id: string, ks: seq<Kind>): Option<Kind>
  {
    if ks == [] then None
    else if Identifier(ks[0]) == id then Some(ks[0])
    else Find(id, ks[1..])
  }

  /**
   * `getFileConstructor`: the constructor registered under `id`, or the error
   * naming the identifier that is not registered.
   */
  function GetFileConstructor(id: string): (r: Result<Kind, TemplateError>)
  {
    match Find(id, Kinds)
    case Some(k) => Success(k)
    case None => Failure(NotRegistered(id))
  }

  lemma {:induction false} FindSpec(id: string, ks: seq<Kind>)
    ensures Find(id, ks).Some? ==> Find(id, ks).value in ks && Identifier(Find(id, ks).value) == id
    ensures Find(id, ks).None? ==> forall k :: k in ks ==> Identifier(k) != id
  {
    if ks != [] && Identifier(ks[0]) != id {
      FindSpec(id, ks[1..]);
      assert forall k :: k in ks ==> k == ks[0] || k in ks[1..];
    }
  }

  /** The identifiers of distinct kinds differ, so the registry has one entry per kind. */
  lemma IdentifiersDistinct(k1: Kind, k2: Kind)
    ensures Identifier(k1) == Identifier(k2) <==> k1 == k2
  {
  }

  /**
   * The lookup succeeds exactly on the ten identifiers, returns the kind so
   * identified, and otherwise reports `id` as not registered.
   */
  lemma GetFileConstructorSpec(id: string)
    ensures GetFileConstructor(id).Success? <==> id in RegisteredIds()
    ensures GetFileConstructor(id).Success? ==> Identifier(GetFileConstructor(id).value) == id
    ensures GetFileConstructor(id).Failure? ==> GetFileConstructor(id).error == NotRegistered(id)
  {
    FindSpec(id, Kinds);
    var ids := RegisteredIds();
    if id in ids {
      var i :| 0 <= i < |ids| && ids[i] == id;
      assert Kinds[i] in Kinds;
    }
    if GetFileConstructor(id).Success? {
      var k := GetFileConstructor(id).value;
      var i :| 0 <= i < |Kinds| && Kinds[i] == k;
      assert ids[i] == id;
    }
  }

  /** Looking a kind up by its own identifier finds that kind. */
  lemma IdentifierRoundTrip(k: Kind)
    ensures GetFileConstructor(Identifier(k)) == Success(k)
  {
    GetFileConstructorSpec(Identifier(k));
    assert k in Kinds;
    assert Identifier(k) in RegisteredIds() by {
      var i :| 0 <= i < |Kinds| && Kinds[i] == k;
      assert RegisteredIds()[i] == Identifier(k);
    }
    IdentifiersDistinct(GetFileConstructor(Identifier(k)).value, k);
  }

  /**
   * The default layout lists every registered identifier exactly once, so a
   * default project asks for each kind of file once and for nothing else.
   */
  lemma DefaultLayoutFilesRegistered()
    ensures forall id :: id in DefaultLayout.files ==> GetFileConstructor(id).Success?
    ensures forall k :: k in Kinds ==> Identifier(k) in DefaultLayout.files
    ensures forall i, j :: 0 <= i < j < |DefaultLayout.files| ==> DefaultLayout.files[i] != DefaultLayout.files[j]
  {
    forall id | id in DefaultLayout.files
      ensures GetFileConstructor(id).Success?
    {
      GetFileConstructorSpec(id);
      var i :| 0 <= i < |DefaultLayout.files| && DefaultLayout.files[i] == id;
      assert id in RegisteredIds() by { DefaultFileIsRegistered(i); }
    }
    forall k | k in Kinds
      ensures Identifier(k) in DefaultLayout.files
    {
      DefaultFileOfKind(k);
    }
  }

  lemma DefaultFileIsRegistered(i: nat)
    requires i < |DefaultLayout.files|
    ensures DefaultLayout.files[i] in RegisteredIds()
  {
    var ids := RegisteredIds();
    assert ids[0] == "doc" && ids[1] == "dockerfile" && ids[2] == "gitignore" && ids[3] == "golangci" && ids[4] == "makefile";
    assert ids[5] == "pre-commit" && ids[6] == "readme" && ids[7] == "sonar" && ids[8] == "travis" && ids[9] == "version";
  }

  lemma DefaultFileOfKind(k: Kind)
    ensures Identifier(k) in DefaultLayout.files
  {
    var fs := DefaultLayout.files;
    match k
    case Gitignore => assert fs[0] == Identifier(k);
    case Doc => assert fs[1] == Identifier(k);
    case Dockerfile => assert fs[2] == Identifier(k);
    case Golangci => assert fs[3] == Identifier(k);
    case Makefile => assert fs[4] == Identifier(k);
    case PreCommit => assert fs[5] == Identifier(k);
    case Readme => assert fs[6] == Identifier(k);
    case Sonar => assert fs[7] == Identifier(k);
    case Travis => assert fs[8] == Identifier(k);
    case Version => assert fs[9] == Identifier(k);
  }

  /** The only file below the root goes to a directory the default layout creates. */
  lemma DefaultLayoutHoldsEveryDirectory()
    ensures forall k :: k in Kinds && Directory(k) != "." ==> Directory(k) in DefaultLayout.directories
  {
  }

  /** The `file` record: what a constructor produces and `write` puts on disk. */
  class File {
    const identifier: string
    const filename: string
    const directory: string
    const template: Template
    var content: string

    /** `newFile`: the content stays empty until the template is executed. */
    constructor (identifier: string, filename: string, directory: string, template: Template)
      ensures this.identifier == identifier && this.filename == filename
      ensures this.directory == directory && this.template == template
      ensures content == ""
    {
      this.identifier := identifier;
      this.filename := filename;
      this.directory := directory;
      this.template := template;
      content := "";
    }

    /** Where `write` puts the file: the directory joined with the file name. */
    function Target(): string
    {
      Join(directory, filename)
    }

    /** `write`: the content goes to `Target()` with the file mode of new files. */
    method Write(fs: FileSystem) returns (err: Option<string>)
      modifies fs
      ensures (fs.tree, err) == WriteFile(old(fs.tree), fs.faults, Target(), content, FileMode)
    {
      err := fs.WriteFilePath(Target(), content, FileMode);
    }
  }

  /**
   * `newProjectFile`: executes the file's template against `ctx`. On success
   * the file's content is the output; on failure the file is left as it was
   * and the error names the file's identifier.
   */
  method NewProjectFile(f: File, ctx: Context) returns (err: Option<TemplateError>)
    modifies f
    ensures Execute(f.template, ctx).Success? ==> err == None && f.content == Execute(f.template, ctx).value
    ensures Execute(f.template, ctx).Failure? ==>
      err == Some(ExecFailed(f.identifier, Execute(f.template, ctx).error)) && f.content == old(f.content)
  {
    match Execute(f.template, ctx)
    case Success(out) =>
      f.content := out;
      err := None;
    case Failure(e) =>
      err := Some(ExecFailed(f.identifier, e));
  }

  /**
   * A kind's constructor (`docConstructor`, ...): a new file of that kind
   * whose content is the kind's text for the project.
   */
  method Construct(k: Kind, p: Project) returns (r: Result<File, TemplateError>)
    ensures r.Success?
    ensures fresh(r.value)
    ensures r.value.identifier == Identifier(k) && r.value.filename == Filename(k)
    ensures r.value.directory == Directory(k) && r.value.content == Text(k, p)
  {
    var f := new File(Identifier(k), Filename(k), Directory(k), TemplateOf(k));
    RenderedAll(k, p);
    var err := NewProjectFile(f, Values(k, p));
    r := Success(f);
  }
}
