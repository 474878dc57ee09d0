/**
 * The `pre-commit` file kind (internal/templates/pre-commit.go): the hook settings `.pre-commit-config.yaml`.
 */
module PreCommitKind {
  import opened Wrappers
  import opened Render
  import opened Config
  import opened Projects

  const Identifier := "pre-commit"
  const Filename := ".pre-commit-config.yaml"
  const Directory := "."

  /** The template: plain text, without a single action. */
  const Text :=
    "repos:\n" +
    "  -   repo: https://github.com/pre-commit/pre-commit-hooks\n" +
    "      rev: v2.5.0\n" +
    "      hooks:\n" +
    "        -   id: trailing-whitespace\n" +
    "        -   id: check-docstring-first\n" +
    "        -   id: end-of-file-fixer\n" +
    "        -   id: check-yaml\n" +
    "        -   id: check-toml\n" +
    "        -   id: detect-aws-credentials\n" +
    "            args: [--allow-missing-credentials]\n" +
    "        -   id: detect-private-key\n" +
    "        -   id: no-commit-to-branch\n" +
    "        -   id: check-added-large-files\n" +
    "  - repo: https://github.com/syntaqx/git-hooks\n" +
    "    rev: v0.0.16\n" +
    "    hooks:\n" +
    "      - id: forbid-binary\n" +
    "      - id: go-mod-tidy\n" +
    "      - id: shfmt\n" +
    "  - repo: git://github.com/detailyang/pre-commit-shell\n" +
    "    rev: 1.0.5\n" +
    "    hooks:\n" +
    "      - id: shell-lint\n" +
    "        args: [--format=json]\n" +
    "  - repo: https://github.com/mattlqx/pre-commit-sign\n" +
    "    rev: v1.1.1\n" +
    "    hooks:\n" +
    "      - id: sign-commit\n" +
    "  - repo: https://github.com/golangci/golangci-lint\n" +
    "    rev: v1.24.0\n" +
    "    hooks:\n" +
    "      - id: golangci-lint\n" +
    "  - repo: local\n" +
    "    hooks:\n" +
    "      - id: testing\n" +
    "        name: 'Testing'\n" +
    "        entry: make test\n" +
    "        language: 'system'\n" +
    "        files: Makefile\n" +
    "        description: \"Runs the Makefile's test command\"\n" +
    "\n"

  const Template: Render.Template := [Lit(Text)]

  /** The values the template is given: none, whatever the project. */
  function Values(p: Project): Context
  {
    map[]
  }

  /** The file is the template's text verbatim, the same for every project. */
  lemma Rendered(p: Project)
    ensures Execute(Template, Values(p)) == Success(Text)
  {
    assert Template[1..] == [];
    assert Text + "" == Text;
  }
}
