/**
 * The `dockerfile` file kind (internal/templates/dockerfile.go): a `Dockerfile` that copies the project's static
 * binary into a distroless image.
 */
module DockerfileKind {
  import opened Wrappers
  import opened Render
  import opened Config
  import opened Projects

  const Identifier := "dockerfile"
  const Filename := "Dockerfile"
  const Directory := "."

  /** The template's literal text, cut at its interpolations. */
  const Pieces: seq<string> := [
    "# We could have used multi-stage,\n" +
      "# but compiling to a go static binary and inserting it is faster and smaller.\n" +
      "\n" +
      "FROM gcr.io/distroless/static\n" +
      "LABEL maintainer=\"",
    "\"\n" +
      "COPY ",
    " ",
    "\n" +
      "RUN echo \"nonroot:x:65534:65534:nonroot:/:\" > /etc/passwd\n" +
      "USER nonroot\n" +
      "ENTRYPOINT [\"",
    "\"]\n"]

  /** The field interpolated at each cut, in order. */
  const Fields: seq<string> := ["Maintainer", "StaticBin", "StaticBin", "StaticBin"]

  const Template: Render.Template := Interleave(Pieces, Fields)

  /** `dockerfileConstructor`: the maintainer is the profile's `docker.maintainer` setting, the binary is named after the project. */
  function Values(p: Project): Context
  {
    map["Maintainer" := GetString(p.profile.conf, "docker.maintainer"), "StaticBin" := p.name]
  }

  /**
   * The file for a maintainer and a binary name: the maintainer in the LABEL
   * line, the binary twice in COPY and once in ENTRYPOINT.
   */
  function Text(maintainer: string, staticBin: string): string
  {
    Splice(Pieces, [maintainer, staticBin, staticBin, staticBin])
  }

  /** Rendering never fails; an absent `docker.maintainer` leaves the label empty. */
  lemma Rendered(p: Project)
    ensures Execute(Template, Values(p)) == Success(Text(GetString(p.profile.conf, "docker.maintainer"), p.name))
  {
    ExecuteInterleave(Pieces, Fields, Values(p));
    assert Lookup(Fields, Values(p)) == [GetString(p.profile.conf, "docker.maintainer"), p.name, p.name, p.name];
  }

  /** Only the `docker.maintainer` setting and the project's name reach the file. */
  lemma DependsOnMaintainerAndName(p1: Project, p2: Project)
    requires p1.name == p2.name
    requires GetString(p1.profile.conf, "docker.maintainer") == GetString(p2.profile.conf, "docker.maintainer")
    ensures Execute(Template, Values(p1)) == Execute(Template, Values(p2))
  {
    Rendered(p1);
    Rendered(p2);
  }
}
