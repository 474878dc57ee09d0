/**
 * The `sonar` file kind (internal/templates/sonar.go): the SonarCloud analysis settings
 * `sonar-Project.properties`.
 */
module SonarKind {
  import opened Wrappers
  import opened Render
  import opened Config
  import opened Projects

  const Identifier := "sonar"
  const Filename := "sonar-Project.properties"
  const Directory := "."

  /** The template's literal text, cut at its interpolations. */
  const Pieces: seq<string> := [
    "# Project identification\n" +
      "sonar.organization=",
    "\n" +
      "sonar.projectKey=",
    "\n" +
      "sonar.projectName=",
    "\n" +
      "#sonar.projectVersion=1\n" +
      "\n" +
      "# Project Metadata\n" +
      "sonar.links.ci=",
    "\n" +
      "sonar.links.homepage=",
    "\n" +
      "sonar.links.scm=",
    "\n" +
      "sonar.host.url=https://sonarcloud.io\n" +
      "\n" +
      "# Project files\n" +
      "# Path is relative to the sonar-Project.properties file. Replace \"\\\" by \"/\" on Windows.\n" +
      "# This property is optional if sonar.modules is set.\n" +
      "sonar.sources=.\n" +
      "sonar.sourceEncoding=UTF-8\n" +
      "sonar.exclusions=**/*_test.go,**/vendor/**\n" +
      "\n" +
      "# Testing\n" +
      "#sonar.tests=./Tests/\n" +
      "sonar.test.inclusions=**/*_test.go\n" +
      "sonar.go.tests.reportPaths=./trace.out\n" +
      "#sonar.test.exclusions=**/vendor/**\n" +
      "\n" +
      "# Coverage\n" +
      "sonar.coverage.exclusions= **/*_test.go\n" +
      "sonar.go.coverage.reportPaths=./coverage.out\n" +
      "\n" +
      "# Other Modules\n" +
      "#sonar.go.golangci-lint.reportPaths=\n"]

  /** The field interpolated at each cut, in order. */
  const Fields: seq<string> := ["SonarOrg", "SonarProject", "SonarProject", "RepoCI", "RepoURL", "RepoURL"]

  const Template: Render.Template := Interleave(Pieces, Fields)

  /**
   * `sonarConstructor`: four profile settings. The project key is the profile's
   * own `name` setting, not the project's name.
   */
  function Values(p: Project): Context
  {
    map["SonarOrg" := GetString(p.profile.conf, "sonar.org"), "SonarProject" := GetString(p.profile.conf, "name"), "RepoCI" := GetString(p.profile.conf, "travis.profile"), "RepoURL" := GetString(p.profile.conf, "git.URL")]
  }

  /**
   * The file for an organisation, a project key, a CI link and a repository
   * URL: the key serves as both `projectKey` and `projectName`, the URL as both
   * `homepage` and `scm`; everything from `sonar.host.url` on is fixed.
   */
  function Text(sonarOrg: string, sonarProject: string, repoCI: string, repoURL: string): string
  {
    Splice(Pieces, [sonarOrg, sonarProject, sonarProject, repoCI, repoURL, repoURL])
  }

  /** Rendering never fails, and fills the file from the four settings. */
  lemma Rendered(p: Project)
    ensures Execute(Template, Values(p)) == Success(Text(GetString(p.profile.conf, "sonar.org"), GetString(p.profile.conf, "name"), GetString(p.profile.conf, "travis.profile"), GetString(p.profile.conf, "git.URL")))
  {
    ExecuteInterleave(Pieces, Fields, Values(p));
    assert Lookup(Fields, Values(p)) == [GetString(p.profile.conf, "sonar.org"), GetString(p.profile.conf, "name"), GetString(p.profile.conf, "name"), GetString(p.profile.conf, "travis.profile"), GetString(p.profile.conf, "git.URL"), GetString(p.profile.conf, "git.URL")];
  }

  /** The project's own name never reaches the file: only the four settings do. */
  lemma IgnoresProjectName(p: Project, name: string)
    ensures Execute(Template, Values(p.(name := name))) == Execute(Template, Values(p))
  {
    Rendered(p);
    Rendered(p.(name := name));
  }
}
