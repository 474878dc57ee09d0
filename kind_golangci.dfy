/**
 * The `golangci` file kind (internal/templates/golangci.go): the linter settings `.golangci.yml`. Its
 * constructor passes no directory; the file is placed in the project's root
 * like the others.
 */
module GolangciKind {
  import opened Wrappers
  import opened Render
  import opened Config
  import opened Projects

  const Identifier := "golangci"
  const Filename := ".golangci.yml"
  const Directory := "."

  /** The template: plain text, without a single action. */
  const Text :=
    "linters-settings:\n" +
    "  golint:\n" +
    "    min-confidence: 0\n" +
    "  maligned:\n" +
    "    suggest-new: true\n" +
    "\n" +
    "linters:\n" +
    "  enable-all: true\n" +
    "  disable:\n" +
    "    - wsl\n"

  const Template: Render.Template := [Lit(Text)]

  /** The values the template is given: none, whatever the project. */
  function Values(p: Project): Context
  {
    map[]
  }

  /** The file is the template's text verbatim, the same for every project. */
  lemma Rendered(p: Project)
    ensures Execute(Template, Values(p)) == Success(Text)
  {
    assert Template[1..] == [];
    assert Text + "" == Text;
  }
}
