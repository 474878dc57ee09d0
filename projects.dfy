/**
 * The `Project` value of internal/templates/project.go: what a scaffold is
 * built from, and how `NewProject` derives it from a loaded profile.
 */
module Projects {
  import opened Config

  /**
   * A project: the profile it is built for, its name, where it lives, the
   * directory and file layout to create, and its author.
   */
  datatype Project = Project(profile: Profile, name: string, path: string, layout: Layout, author: Author)

  /** The layout a project starts with before the profile is decoded into it. */
  const EmptyLayout := Layout([], [])

  /** A top-level profile setting that, when present, replaces the value `fallback`. */
  function Override(c: Conf, key: string, fallback: string): (r: string)
    ensures key in c.settings ==> r == c.settings[key]
    ensures key !in c.settings ==> r == fallback
  {
    if key in c.settings then c.settings[key] else fallback
  }

  /**
   * `NewProject`. The project starts from `name` and `location`, an empty
   * layout and the profile's author; the profile's settings are then decoded
   * into it (`decodeOk` is whether that decoding succeeded). Decoding takes the
   * profile's layout and lets a top-level `name` or `path` setting replace the
   * name or the location; its `author` table refills the same author. A failed
   * decoding is only reported: the project is still returned, as it started.
   */
  function NewProject(prof: Profile, name: string, location: string, decodeOk: bool): (p: Project)
    ensures p.profile == prof && p.author == prof.author
    ensures !decodeOk ==> p.name == name && p.path == location && p.layout == EmptyLayout
    ensures decodeOk ==> p.layout == prof.conf.layout
    ensures decodeOk && "name" !in prof.conf.settings ==> p.name == name
    ensures decodeOk && "path" !in prof.conf.settings ==> p.path == location
    ensures decodeOk && "name" in prof.conf.settings ==> p.name == prof.conf.settings["name"]
    ensures decodeOk && "path" in prof.conf.settings ==> p.path == prof.conf.settings["path"]
  {
    var initial := Project(prof, name, location, EmptyLayout, prof.author);
    if !decodeOk then initial
    else initial.(
      name := Override(prof.conf, "name", name),
      path := Override(prof.conf, "path", location),
      layout := prof.conf.layout)
  }

  /**
   * The default profile sets neither `name` nor `path`, so a project decoded
   * from it keeps the name and location it was given and takes the default layout.
   */
  lemma NewProjectFromDefault(name: string, location: string)
    ensures NewProject(DefaultProfile, name, location, true) ==
      Project(DefaultProfile, name, location, DefaultLayout, DefaultProfile.author)
  {
    assert "name" !in DefaultProfile.conf.settings;
    assert "path" !in DefaultProfile.conf.settings;
  }
}
