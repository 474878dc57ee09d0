/**
 * The `new` command of internal/commands/new.go: where the project goes and
 * what it is called, which profile it is built from, and the exit status.
 *
 * The working directory, changing into the project directory, loading a
 * profile, decoding it into the project and the two external tools are given
 * as their outcomes. The tree below the working directory (`here`) and the
 * tree of the project directory the build runs in (`project`) are separate
 * file systems; they are the same directory when no argument is given.
 */
module NewCommand {
  import opened Wrappers
  import opened Paths
  import opened Config
  import opened Projects
  import opened Os
  import opened Build
  import opened Rebuild

  datatype CommandError =
    | NoWorkingDirectory(message: string)
    | ProjectDirFailed(argument: string, at: string)
    | ChdirFailed(argument: string, message: string)
    | NoProfile
    | LoadFailed(profile: string, message: string)

  /**
   * The name and location `newProjectDirectory` reports for `argument`
   * relative to `wd`, as written: the name is the argument's last element.
   */
  function NameLocationAsWritten(wd: string, argument: string): (string, string)
  {
    (Base(argument), Join(wd, argument))
  }

  /**
   * The name and location as the command evidently means them: the name is
   * the last element of the location, as when no argument is given.
   */
  function NameLocation(wd: string, argument: string): (r: (string, string))
    ensures r.1 == Join(wd, argument) && r.0 == Base(r.1)
  {
    var location := Join(wd, argument);
    (Base(location), location)
  }

  /**
   * For an argument that is a single plain element (`myApp`), both readings
   * agree: the project is called by the argument and lives in `wd/argument`.
   */
  lemma NameLocationOfPlainArgument(wd: string, argument: string)
    requires wd != "" && Plain(argument)
    ensures NameLocationAsWritten(wd, argument) == NameLocation(wd, argument)
    ensures NameLocation(wd, argument).0 == argument
  {
    BaseOfJoin(wd, argument);
    assert JoinSegments([argument]) == argument;
    JoinSplitRoundTrip([argument]);
    BaseAfterSlash("", argument);
  }

  /**
   * As written, `new .` in `/w` names the project "." although it lives in
   * `/w`; run without an argument in the same directory it is called "w".
   */
  lemma DotArgumentNamesProjectDot()
    ensures NameLocationAsWritten("/w", ".") == (".", "/w")
    ensures NameLocation("/w", ".") == ("w", "/w")
  {
    JoinSlashWDot();
    BaseDot();
    BaseSlashW();
  }

  lemma JoinSlashWDot()
    ensures Join("/w", ".") == "/w"
  {
    assert "/w" + "/" + "." == "/w/.";
    SplitSlashWDot();
    ReduceSlashWDot();
    assert JoinSegments(["w"]) == "w";
  }

  lemma SplitSlashW()
    ensures Split("/w") == ["", "w"]
  {
    LastIndexOfUnique("/w", '/', 0);
    LastIndexOfUnique("", '/', -1);
    assert "/w"[..0] == "" && "/w"[1..] == "w";
  }

  lemma SplitSlashWDot()
    ensures Split("/w/.") == ["", "w", "."]
  {
    LastIndexOfUnique("/w/.", '/', 2);
    assert "/w/."[..2] == "/w" && "/w/."[3..] == ".";
    SplitSlashW();
  }

  lemma ReduceSlashWDot()
    ensures Reduce(["", "w", "."], true) == ["w"]
  {
    assert ["", "w", "."][..2] == ["", "w"];
    assert ["", "w"][..1] == [""];
    assert [""][..0] == [];
    assert Reduce([""], true) == [];
    assert Reduce(["", "w"], true) == ["w"];
  }

  lemma BaseDot()
    ensures Base(".") == "."
  {
    assert TrimTrailingSlashes(".") == ".";
    LastIndexOfUnique(".", '/', -1);
    assert "."[0..] == ".";
  }

  lemma BaseSlashW()
    ensures Base("/w") == "w"
  {
    assert TrimTrailingSlashes("/w") == "/w";
    LastIndexOfUnique("/w", '/', 0);
    assert "/w"[1..] == "w";
  }

  /**
   * `newProjectDirectory`: creates the directory named by the argument below
   * the working directory, changes into it (`chdirErr` is the outcome), and
   * reports the project's name and location as written.
   */
  method NewProjectDirectory(here: FileSystem, wd: string, argument: string, chdirErr: Option<string>)
    returns (r: Result<(string, string), CommandError>)
    modifies here
    ensures here.tree == MkdirAll(old(here.tree), here.faults, argument).0
    ensures MkdirAll(old(here.tree), here.faults, argument).1.Some? ==>
      r == Failure(ProjectDirFailed(argument, MkdirAll(old(here.tree), here.faults, argument).1.value))
    ensures MkdirAll(old(here.tree), here.faults, argument).1.None? && chdirErr.Some? ==>
      r == Failure(ChdirFailed(argument, chdirErr.value))
    ensures MkdirAll(old(here.tree), here.faults, argument).1.None? && chdirErr.None? ==>
      r == Success(NameLocationAsWritten(wd, argument))
  {
    var err := here.MkdirAllPath(argument, DirMode);
    if err.Some? {
      return Failure(ProjectDirFailed(argument, err.value));
    }
    if chdirErr.Some? {
      return Failure(ChdirFailed(argument, chdirErr.value));
    }
    r := Success(NameLocationAsWritten(wd, argument));
  }

  /** The tree below the working directory once `setupProjectDirectory` is done. */
  function DirectoryTree(t: Tree, faults: Faults, wd: Result<string, string>, args: seq<string>): Tree
  {
    if wd.Success? && args != [] then MkdirAll(t, faults, args[0]).0 else t
  }

  /** The name and location `setupProjectDirectory` settles on, or why it fails. */
  function DirectoryOutcome(t: Tree, faults: Faults, wd: Result<string, string>, args: seq<string>,
                            chdirErr: Option<string>): Result<(string, string), CommandError>
  {
    if wd.Failure? then Failure(NoWorkingDirectory(wd.error))
    else if args == [] then Success((Base(wd.value), wd.value))
    else if MkdirAll(t, faults, args[0]).1.Some? then Failure(ProjectDirFailed(args[0], MkdirAll(t, faults, args[0]).1.value))
    else if chdirErr.Some? then Failure(ChdirFailed(args[0], chdirErr.value))
    else Success(NameLocationAsWritten(wd.value, args[0]))
  }

  /**
   * When the argument is a single plain element (or there is none), the
   * project's name is the last element of its location; `DotArgumentNamesProjectDot`
   * shows an argument for which it is not.
   */
  lemma DirectoryNameIsLocationBase(t: Tree, faults: Faults, wd: Result<string, string>, args: seq<string>,
                                    chdirErr: Option<string>)
    requires wd.Failure? || wd.value != ""
    requires args == [] || Plain(args[0])
    ensures var r := DirectoryOutcome(t, faults, wd, args, chdirErr);
      r.Success? ==> r.value.0 == Base(r.value.1)
  {
    if wd.Success? && args != [] {
      NameLocationOfPlainArgument(wd.value, args[0]);
    }
  }

  /**
   * `setupProjectDirectory`: without an argument the project is the working
   * directory and takes its name; otherwise it is the argument's directory,
   * named by the argument's last element.
   */
  method SetupProjectDirectory(here: FileSystem, wd: Result<string, string>, args: seq<string>, chdirErr: Option<string>)
    returns (r: Result<(string, string), CommandError>)
    modifies here
    ensures here.tree == DirectoryTree(old(here.tree), here.faults, wd, args)
    ensures r == DirectoryOutcome(old(here.tree), here.faults, wd, args, chdirErr)
    ensures wd.Failure? ==> r == Failure(NoWorkingDirectory(wd.error))
    ensures wd.Success? && args == [] ==> r == Success((Base(wd.value), wd.value))
    ensures wd.Success? && args != [] && r.Success? ==> r.value == (Base(args[0]), Join(wd.value, args[0]))
  {
    if wd.Failure? {
      return Failure(NoWorkingDirectory(wd.error));
    }
    if args == [] {
      return Success((Base(wd.value), wd.value));
    }
    r := NewProjectDirectory(here, wd.value, args[0], chdirErr);
  }

  /**
   * The profile `setProfile` loads: the one named on the command line, or
   * else the configured default; there is none when both are empty.
   */
  function ChooseProfile(flag: string, defaultName: string): (r: Result<string, CommandError>)
    ensures r.Success? <==> flag != "" || defaultName != ""
    ensures r.Success? ==> r.value != ""
    ensures flag != "" ==> r == Success(flag)
    ensures r.Failure? ==> r.error == NoProfile
  {
    if flag != "" then Success(flag)
    else if defaultName != "" then Success(defaultName)
    else Failure(NoProfile)
  }

  /** The configured default only matters when no profile is named on the command line. */
  lemma FlagOverridesDefault(flag: string, d1: string, d2: string)
    requires flag != ""
    ensures ChooseProfile(flag, d1) == ChooseProfile(flag, d2)
  {
  }

  /**
   * `setProfile`: loads the chosen profile (`load` stands for
   * `LoadProfile`) and records its name under "profile" only when it loaded.
   */
  method SetProfile(store: ConfigStore, flag: string, load: string -> Result<Profile, string>)
    returns (r: Result<Profile, CommandError>)
    modifies store
    ensures ChooseProfile(flag, old(store.Get(DefaultConfigProfileKeyName))).Failure? ==>
      r == Failure(NoProfile) && store.values == old(store.values)
    ensures ChooseProfile(flag, old(store.Get(DefaultConfigProfileKeyName))).Success? ==>
      var name := ChooseProfile(flag, old(store.Get(DefaultConfigProfileKeyName))).value;
      && (load(name).Success? ==> r == Success(load(name).value) && store.values == old(store.values)["profile" := name])
      && (load(name).Failure? ==> r == Failure(LoadFailed(name, load(name).error)) && store.values == old(store.values))
  {
    var choice := ChooseProfile(flag, store.Get(DefaultConfigProfileKeyName));
    if choice.Failure? {
      return Failure(NoProfile);
    }
    var name := choice.value;
    match load(name)
    case Success(prof) =>
      store.Set("profile", name);
      r := Success(prof);
    case Failure(e) =>
      r := Failure(LoadFailed(name, e));
  }

  /** What `setupNewProject` hands to `newProject`. */
  datatype Setup = Setup(name: string, location: string, profile: Profile)

  /** What `setupNewProject` returns, given how the directory step went. */
  function SetupOutcome(dir: Result<(string, string), CommandError>, flag: string, defaultName: string,
                        load: string -> Result<Profile, string>): Result<Setup, CommandError>
  {
    if dir.Failure? then Failure(dir.error)
    else
      var choice := ChooseProfile(flag, defaultName);
      if choice.Failure? then Failure(NoProfile)
      else if load(choice.value).Failure? then Failure(LoadFailed(choice.value, load(choice.value).error))
      else Success(Setup(dir.value.0, dir.value.1, load(choice.value).value))
  }

  /** The configuration `setupNewProject` leaves behind, given how the directory step went. */
  function SetupStore(values: map<string, string>, dir: Result<(string, string), CommandError>, flag: string,
                      defaultName: string, load: string -> Result<Profile, string>): map<string, string>
  {
    if dir.Failure? then values
    else
      var recorded := values["name" := dir.value.0]["location" := dir.value.1];
      var flagged := if flag != "" then recorded["profile" := flag] else recorded;
      var choice := ChooseProfile(flag, defaultName);
      if choice.Success? && load(choice.value).Success? then flagged["profile" := choice.value] else flagged
  }

  /**
   * Once the directory is settled the name and location stay recorded, and a
   * profile named on the command line stays recorded, even when no profile
   * can be chosen or loaded; a failed directory step records nothing.
   */
  lemma SetupStoreRecordsBeforeLoading(values: map<string, string>, dir: Result<(string, string), CommandError>,
                                       flag: string, defaultName: string, load: string -> Result<Profile, string>)
    ensures dir.Failure? ==> SetupStore(values, dir, flag, defaultName, load) == values
    ensures dir.Success? ==>
      var m := SetupStore(values, dir, flag, defaultName, load);
      && "name" in m && m["name"] == dir.value.0
      && "location" in m && m["location"] == dir.value.1
      && (flag != "" ==> "profile" in m && m["profile"] == flag)
      && (forall k :: k in values && k != "name" && k != "location" && k != "profile" ==> k in m && m[k] == values[k])
  {
  }

  /**
   * `setupNewProject` succeeds exactly when the directory is settled and the
   * chosen profile loads, and then returns that directory and profile.
   */
  lemma SetupSucceedsIff(dir: Result<(string, string), CommandError>, flag: string, defaultName: string,
                         load: string -> Result<Profile, string>)
    ensures var r := SetupOutcome(dir, flag, defaultName, load);
      var choice := ChooseProfile(flag, defaultName);
      && (r.Success? <==> dir.Success? && choice.Success? && load(choice.value).Success?)
      && (r.Success? ==> r.value == Setup(dir.value.0, dir.value.1, load(choice.value).value))
      && (dir.Failure? ==> r == Failure(dir.error))
  {
  }

  /**
   * `setupNewProject`: settles the directory, records the name and location,
   * records a profile named on the command line, then loads the profile.
   */
  method SetupNewProject(here: FileSystem, store: ConfigStore, wd: Result<string, string>, args: seq<string>,
                         chdirErr: Option<string>, flag: string, load: string -> Result<Profile, string>)
    returns (r: Result<Setup, CommandError>)
    modifies here, store
    ensures here.tree == DirectoryTree(old(here.tree), here.faults, wd, args)
    ensures var dir := DirectoryOutcome(old(here.tree), here.faults, wd, args, chdirErr);
      var defaultName := old(store.Get(DefaultConfigProfileKeyName));
      && r == SetupOutcome(dir, flag, defaultName, load)
      && store.values == SetupStore(old(store.values), dir, flag, defaultName, load)
    ensures r.Success? && wd.Success? && args == [] ==> r.value.name == Base(wd.value) && r.value.location == wd.value
    ensures r.Success? && wd.Success? && args != [] ==> r.value.name == Base(args[0]) && r.value.location == Join(wd.value, args[0])
    ensures r.Success? ==> store.Get("name") == r.value.name && store.Get("location") == r.value.location
    ensures r.Success? ==> var chosen := if flag != "" then flag else old(store.Get(DefaultConfigProfileKeyName));
      store.Get("profile") == chosen && load(chosen) == Success(r.value.profile)
    ensures wd.Failure? ==> r == Failure(NoWorkingDirectory(wd.error)) && store.values == old(store.values)
  {
    var dir := SetupProjectDirectory(here, wd, args, chdirErr);
    if dir.Failure? {
      return Failure(dir.error);
    }
    var (pname, location) := dir.value;
    SetProjectNameLocation(store, pname, location);
    if flag != "" {
      store.Set("profile", flag);
    }
    ghost var recorded := store.values;
    assert store.Get(DefaultConfigProfileKeyName) == old(store.Get(DefaultConfigProfileKeyName));
    var prof := SetProfile(store, flag, load);
    if prof.Failure? {
      return Failure(prof.error);
    }
    assert recorded["name"] == pname && recorded["location"] == location;
    r := Success(Setup(pname, location, prof.value));
  }

  /** `setProjectNameLocation`: records the project's name and location. */
  method SetProjectNameLocation(store: ConfigStore, pname: string, location: string)
    modifies store
    ensures store.values == old(store.values)["name" := pname]["location" := location]
  {
    store.Set("name", pname);
    store.Set("location", location);
  }

  datatype RunError = SetupFailed(setupError: CommandError) | BuildFailed(buildError: BuildError)

  /**
   * The `new` command: set up, derive the project from the profile, build it
   * in the project directory, and exit with 1 on any error and 0 otherwise.
   * The working directory's tree and the project directory's tree are two
   * separate file systems here.
   */
  method RunNew(here: FileSystem, project: FileSystem, store: ConfigStore, wd: Result<string, string>, args: seq<string>,
                chdirErr: Option<string>, flag: string, load: string -> Result<Profile, string>,
                decodeOk: bool, goModErr: Option<string>, gitErr: Option<string>)
    returns (exit: int, err: Option<RunError>)
    requires here != project
    modifies here, project, store
    ensures exit == (if err.None? then 0 else 1)
    ensures var setup := SetupOutcome(DirectoryOutcome(old(here.tree), here.faults, wd, args, chdirErr), flag,
                                      old(store.Get(DefaultConfigProfileKeyName)), load);
      && (setup.Failure? ==> err == Some(SetupFailed(setup.error)) && project.tree == old(project.tree))
      && (setup.Success? ==>
            var p := NewProject(setup.value.profile, setup.value.name, setup.value.location, decodeOk);
            var b := BuildProject(old(project.tree), project.faults, p, goModErr, gitErr);
            project.tree == b.0 && err == (if b.1.Some? then Some(BuildFailed(b.1.value)) else None))
    ensures err.Some? && err.value.BuildFailed? ==> goModErr.Some? || gitErr.Some? || ".git" in project.faults.stat
    ensures goModErr.Some? ==> err.Some?
  {
    var setup := SetupNewProject(here, store, wd, args, chdirErr, flag, load);
    if setup.Failure? {
      return 1, Some(SetupFailed(setup.error));
    }
    var s := setup.value;
    var p := NewProject(s.profile, s.name, s.location, decodeOk);
    BuildFailsOnlyOnTools(project.tree, project.faults, p, goModErr, gitErr);
    var buildErr, _, _ := BuildOn(project, p, goModErr, gitErr);
    if buildErr.Some? {
      return 1, Some(BuildFailed(buildErr.value));
    }
    return 0, None;
  }
}
