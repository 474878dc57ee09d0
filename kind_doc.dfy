/**
 * The `doc` file kind (internal/templates/doc.go): the package documentation file `doc.go`, naming the
 * package after the project.
 */
module DocKind {
  import opened Wrappers
  import opened Render
  import opened Config
  import opened Projects

  const Identifier := "doc"
  const Filename := "doc.go"
  const Directory := "."

  /** The template's literal text, cut at its interpolations. */
  const Pieces: seq<string> := [
    "/*\n" +
      "Package ",
    " [short description]\n" +
      "\n" +
      "*/\n" +
      "package ",
    "\n"]

  /** The field interpolated at each cut, in order. */
  const Fields: seq<string> := ["PackageName", "PackageName"]

  const Template: Render.Template := Interleave(Pieces, Fields)

  /** `docConstructor`: the package is named after the project; the profile is not read. */
  function Values(p: Project): Context
  {
    map["PackageName" := p.name]
  }

  /** The file a package called `packageName` gets: its name in the doc comment and in the package clause. */
  function Text(packageName: string): string
  {
    Splice(Pieces, [packageName, packageName])
  }

  /** Rendering never fails, and yields the file for a package named after the project. */
  lemma Rendered(p: Project)
    ensures Execute(Template, Values(p)) == Success(Text(p.name))
  {
    ExecuteInterleave(Pieces, Fields, Values(p));
    assert Lookup(Fields, Values(p)) == [p.name, p.name];
  }

  /** Two projects with the same name get the same file, whatever their profiles. */
  lemma DependsOnNameOnly(p1: Project, p2: Project)
    requires p1.name == p2.name
    ensures Execute(Template, Values(p1)) == Execute(Template, Values(p2))
  {
    Rendered(p1);
    Rendered(p2);
  }
}
