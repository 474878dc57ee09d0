/**
 * The `version` file kind (internal/templates/version.go): the `version` package source `version.go`, the
 * one file placed below the project's root.
 */
module VersionKind {
  import opened Wrappers
  import opened Render
  import opened Config
  import opened Projects

  const Identifier := "version"
  const Filename := "version.go"
  const Directory := "internal/version"

  /** The template: plain text, without a single action. */
  const Text :=
    "// Package version holds all the goproject's core mechanisms\n" +
    "package version\n" +
    "\n" +
    "import \"fmt\"\n" +
    "\n" +
    "var (\n" +
    "\tversion = \"?\" //nolint:gochecknoglobals // used at compile time to inject app version\n" +
    "\tcommit  = \"?\" //nolint:gochecknoglobals // used at compile time to inject commit hash\n" +
    "\tdate    = \"?\" //nolint:gochecknoglobals // used at compile time to inject compilation time\n" +
    ")\n" +
    "\n" +
    "// GetVersion returns the version the program was compiled with\n" +
    "func GetVersion() string {\n" +
    "\treturn version\n" +
    "}\n" +
    "\n" +
    "// GetCommit returns the commit the program was compiled with\n" +
    "func GetCommit() string {\n" +
    "\treturn commit\n" +
    "}\n" +
    "\n" +
    "// PrintableVersion returns a string representing the version, commit tag and date of built\n" +
    "func PrintableVersion() string {\n" +
    "\treturn fmt.Sprintf(\"Version %s:%s - compiled on %s\", version, commit, date)\n" +
    "}\n" +
    "\n" +
    "// Upgrade attempts to upgrade the program to the latest version\n" +
    "func Upgrade() {\n" +
    "\tfmt.Printf(\"Upgrade not implemented yet - %s\\n\", PrintableVersion())\n" +
    "}\n" +
    "\n"

  const Template: Render.Template := [Lit(Text)]

  /** The values the template is given: none, whatever the project. */
  function Values(p: Project): Context
  {
    map[]
  }

  /** The file is the template's text verbatim, the same for every project. */
  lemma Rendered(p: Project)
    ensures Execute(Template, Values(p)) == Success(Text)
  {
    assert Template[1..] == [];
    assert Text + "" == Text;
  }
}
