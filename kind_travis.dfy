/**
 * The `travis` file kind (internal/templates/travis.go): the Travis CI settings `.travis.yml`, with a
 * SonarCloud block present only when the profile names a Sonar organisation.
 */
module TravisKind {
  import opened Wrappers
  import opened Render
  import opened Config
  import opened Projects

  const Identifier := "travis"
  const Filename := ".travis.yml"
  const Directory := "."

  /** The text before the SonarCloud block. */
  const Before :=
    "language: go\n" +
    "\n" +
    "env:\n" +
    "  - GO111MODULE=on\n" +
    "\n" +
    "#branches:\n" +
    "  #only:\n" +
    "    #- dev\n" +
    "\n" +
    "git:\n" +
    "  depth: false # Sonar doesn't like shallow clones\n" +
    "\n" +
    "notifications:\n" +
    "  email: false\n" +
    "\n" +
    "stages:\n" +
    "  - \"Static Analysis, Unit Tests and Coverage\"\n" +
    "  - \"Unit Tests and Coverage\"\n" +
    "  #- name: deploy\n" +
    "  #  if: branch = release\n" +
    "\n" +
    "addons:\n" +
    "  apt:\n" +
    "    packages:\n" +
    "      - \"python3\"\n" +
    "      - \"python3-dev\"\n" +
    "      - \"python3-pip\"\n" +
    "      - \"python3-setuptools\"\n" +
    "\n" +
    "jobs:\n" +
    "  include:\n" +
    "    - stage: \"Static Analysis, Unit Tests and Coverage\"\n" +
    "      go: 1.14.x\n" +
    "      name: \"GolangCI Linting, and Snyk Analysis\"\n" +
    "      os: linux\n" +
    "      install:\n" +
    "        - make prepare-pre-commit\n" +
    "        - npm install -g snyk\n" +
    "      script:\n" +
    "        - pre-commit autoupdate\n" +
    "        - pre-commit run --all-files\n" +
    "        - snyk test\n" +
    "      after_success:\n" +
    "        - snyk monitor\n" +
    "    - go: 1.14.x\n" +
    "      name: \"Unit Tests and Coverage\"\n" +
    "      "

  /** The SonarCloud block, cut where the organisation goes. */
  const BlockPieces: seq<string> := [
    "addons:\n" +
      "        sonarcloud:\n" +
      "          organization: \"",
    "\"\n" +
      "          token:\n" +
      "            secure: ${SONAR_TOKEN}\n" +
      "\t  "]

  /** The text after the SonarCloud block. */
  const After :=
    "\n" +
    "      os: linux\n" +
    "      install:\n" +
    "        - make prepare-tests\n" +
    "      script:\n" +
    "        - make cover\n" +
    "      after_success:\n" +
    "        - sonar-scanner -X\n" +
    "        #- bash <(curl -s https://codecov.io/bash)\n" +
    "        #- goveralls -coverprofile=coverage.out -service=travis-ci\n" +
    "    #- stage: release\n" +
    "    #  name: \"Release a new version\"\n" +
    "    #  deploy:\n" +
    "    #    provider: script\n" +
    "    #    cleanup: true\n" +
    "    #    script:\n" +
    "    #      - nvm install lts/*\n" +
    "    #      - npx semantic-release\n" +
    "    #    on:\n" +
    "    #      all_branches: true\n" +
    "\n" +
    "go:\n" +
    "  - 1.11.x\n" +
    "  - 1.12.x\n" +
    "  - 1.13.x\n" +
    "  - 1.14.x\n" +
    "os:\n" +
    "  - linux\n" +
    "  - osx\n" +
    "  - windows\n" +
    "script:\n" +
    "  - if [ \"$TRAVIS_OS_NAME\" = \"windows\" ];\n" +
    "    then go test -v -i -race -covermode=atomic;\n" +
    "    else make test;\n" +
    "    fi\n" +
    "\n"

  /** The template's shape, for any literal text around and inside the block. */
  function TemplateFrom(before: string, block: seq<string>, after: string): Render.Template
    requires |block| == 2
  {
    [Lit(before), IfNonEmpty("SonarOrg", Interleave(block, ["SonarOrg"])), Lit(after)]
  }

  const Template: Render.Template := TemplateFrom(Before, BlockPieces, After)

  /** `travisConstructor`: the profile's `git.URL` and `sonar.org` settings. */
  function Values(p: Project): Context
  {
    map["RepoURL" := GetString(p.profile.conf, "git.URL"), "SonarOrg" := GetString(p.profile.conf, "sonar.org")]
  }

  /** The block for an organisation: nothing at all when it is empty. */
  function Block(block: seq<string>, sonarOrg: string): string
    requires |block| == 2
  {
    if sonarOrg == "" then "" else Splice(block, [sonarOrg])
  }

  function TextFrom(before: string, block: seq<string>, after: string, sonarOrg: string): string
    requires |block| == 2
  {
    before + Block(block, sonarOrg) + after
  }

  /** The file for a Sonar organisation; the repository URL plays no part. */
  function Text(sonarOrg: string): string
  {
    TextFrom(Before, BlockPieces, After, sonarOrg)
  }

  /** Whatever the literal text, the output is the text around the block and the block for the organisation. */
  lemma RenderedFrom(before: string, block: seq<string>, after: string, p: Project)
    requires |block| == 2
    ensures Execute(TemplateFrom(before, block, after), Values(p)) == Success(TextFrom(before, block, after, GetString(p.profile.conf, "sonar.org")))
  {
    var ctx := Values(p);
    var org := GetString(p.profile.conf, "sonar.org");
    var body := Interleave(block, ["SonarOrg"]);
    var t := TemplateFrom(before, block, after);
    var middle := [IfNonEmpty("SonarOrg", body)];
    assert t == [Lit(before)] + middle + [Lit(after)];
    assert Execute([Lit(before)], ctx) == Success(before) by {
      assert [Lit(before)][1..] == [];
      assert before + "" == before;
    }
    assert Execute([Lit(after)], ctx) == Success(after) by {
      assert [Lit(after)][1..] == [];
      assert after + "" == after;
    }
    if org == "" {
      ExecuteEmptyCondition("SonarOrg", body, ctx);
    } else {
      ExecuteNonEmptyCondition("SonarOrg", body, ctx);
      ExecuteInterleave(block, ["SonarOrg"], ctx);
      assert Lookup(["SonarOrg"], ctx) == [org];
    }
    ExecuteAppend([Lit(before)], middle, ctx);
    ExecuteAppend([Lit(before)] + middle, [Lit(after)], ctx);
  }

  /** Rendering never fails, and depends on the `sonar.org` setting alone. */
  lemma Rendered(p: Project)
    ensures Execute(Template, Values(p)) == Success(Text(GetString(p.profile.conf, "sonar.org")))
  {
    RenderedFrom(Before, BlockPieces, After, p);
  }

  /** The `git.URL` setting is passed to the template but never shows: only `sonar.org` matters. */
  lemma IgnoresRepoURL(p1: Project, p2: Project)
    requires GetString(p1.profile.conf, "sonar.org") == GetString(p2.profile.conf, "sonar.org")
    ensures Execute(Template, Values(p1)) == Execute(Template, Values(p2))
  {
    Rendered(p1);
    Rendered(p2);
  }

  /**
   * The SonarCloud block is there exactly when the organisation is non-empty,
   * and then carries `organization: "<org>"`.
   */
  lemma BlockPresentIffOrganisation(sonarOrg: string)
    ensures sonarOrg == "" <==> Text(sonarOrg) == Before + After
    ensures sonarOrg != "" ==> Text(sonarOrg) == Before + (BlockPieces[0] + sonarOrg + BlockPieces[1]) + After
  {
    var before, block, after := Before, BlockPieces, After;
    assert Text(sonarOrg) == TextFrom(before, block, after, sonarOrg);
    BlockIff(before, block, after, sonarOrg);
  }

  lemma BlockIff(before: string, block: seq<string>, after: string, sonarOrg: string)
    requires |block| == 2
    ensures sonarOrg == "" <==> TextFrom(before, block, after, sonarOrg) == before + after
    ensures sonarOrg != "" ==> TextFrom(before, block, after, sonarOrg) == before + (block[0] + sonarOrg + block[1]) + after
  {
    if sonarOrg == "" {
      assert before + "" == before;
    } else {
      var b := Splice(block, [sonarOrg]);
      assert b == block[0] + sonarOrg + block[1] by {
        assert [sonarOrg][1..] == [];
        assert Splice(block[1..], []) == block[1];
      }
      assert |before + b + after| > |before + after|;
    }
  }
}
