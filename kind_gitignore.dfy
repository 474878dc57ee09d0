/**
 * The `gitignore` file kind (internal/templates/gitignore.go): the `.gitignore` file. Its constructor passes
 * no directory; the file is placed in the project's root like the others.
 */
module GitignoreKind {
  import opened Wrappers
  import opened Render
  import opened Config
  import opened Projects

  const Identifier := "gitignore"
  const Filename := ".gitignore"
  const Directory := "."

  /** The template: plain text, without a single action. */
  const Text :=
    "# Binaries for programs and plugins\n" +
    "*.exe\n" +
    "*.exe~\n" +
    "*.dll\n" +
    "*.so\n" +
    "*.dylib\n" +
    "\n" +
    "# Test binary, build with go test -c\n" +
    "*.test\n" +
    "\n" +
    "# Output of the go coverage tool, specifically when used with LiteIDE\n" +
    "*.out\n" +
    "\n" +
    "# IDE settings\n" +
    ".idea\n" +
    "\n" +
    "# Directories\n" +
    "bin\n" +
    "coverage\n"

  const Template: Render.Template := [Lit(Text)]

  /** The values the template is given: none, whatever the project. */
  function Values(p: Project): Context
  {
    map[]
  }

  /** The file is the template's text verbatim, the same for every project. */
  lemma Rendered(p: Project)
    ensures Execute(Template, Values(p)) == Success(Text)
  {
    assert Template[1..] == [];
    assert Text + "" == Text;
  }
}
