/**
 * The `config` package: the settings of a profile, the constants of the
 * configuration layout, the profile files shipped by default, and the rules by
 * which profile names map to files of the profile directory.
 *
 * The profile directory's contents, the user's configuration directory and the
 * outcome of writing a file are inputs (`listing`, `configDir`, `writeOk`);
 * the process-wide viper store is the `ConfigStore` object.
 */
module Config {
  import opened Wrappers
  import opened Paths

  // --- internal/config/parameters.go ---

  const ConfType := "toml"
  const ProfileDirName := "profiles"
  const DefaultConfigProfileKeyName := "defaultprofile"
  /** 0700 */
  const DirMode := 448
  /** 0600 */
  const FileMode := 384

  /** The suffix of a profile file name. */
  const ProfileSuffix := "." + ConfType

  // --- internal/config/profile.go: data ---

  datatype Author = Author(name: string, contact: string)

  datatype Layout = Layout(directories: seq<string>, files: seq<string>)

  /**
   * What a profile file holds once read: its string settings under their dotted
   * keys ("sonar.org", "git.URL", ...) and the `layout` lists (empty when the
   * file declares none).
   */
  datatype Conf = Conf(settings: map<string, string>, layout: Layout)

  datatype Profile = Profile(author: Author, conf: Conf)

  /** `viper.GetString`: an absent key reads as the empty string. */
  function GetString(c: Conf, key: string): string
  {
    if key in c.settings then c.settings[key] else ""
  }

  // --- internal/config/profileDefault.go ---

  const DefaultProfileName := "default.toml"

  const DefaultLayout := Layout(
    ["cmd", "internal", "internal/commands", "internal/config", "internal/version"],
    ["gitignore", "doc", "dockerfile", "golangci", "makefile", "pre-commit", "readme", "sonar", "travis", "version"])

  /** The profile written as `default.toml` when the configuration is first created. */
  const DefaultProfile := Profile(
    Author("Bytemare", "dev@bytema.re"),
    Conf(
      map[
        "title" := "default goproject profile",
        "author.name" := "Bytemare",
        "author.contact" := "dev@bytema.re",
        "git.user" := "bytemare",
        "git.mail" := "dev@bytema.re",
        "git.URL" := "github.com/bytemare",
        "travis.profile" := "https://travis-ci.com/bytemare",
        "sonar.org" := "bytemare-github",
        "docker.maintainer" := "Bytemare <dev@bytema.re>"],
      DefaultLayout))

  /** The profile written by `CreateNewProfileFile`: the default layout with every value blank. */
  const NewProfile := Profile(
    Author("", ""),
    Conf(
      map[
        "title" := "",
        "author.name" := "",
        "author.contact" := "",
        "git.user" := "",
        "git.mail" := "",
        "git.URL" := "",
        "travis.profile" := "",
        "sonar.org" := "",
        "docker.maintainer" := ""],
      DefaultLayout))

  /** A new profile declares the default layout and the default's keys, all blank. */
  lemma NewProfileIsBlankDefault()
    ensures NewProfile.conf.layout == DefaultProfile.conf.layout
    ensures NewProfile.conf.settings.Keys == DefaultProfile.conf.settings.Keys
    ensures forall k :: k in NewProfile.conf.settings ==> GetString(NewProfile.conf, k) == ""
    ensures NewProfile.author == Author("", "")
  {
  }

  // --- internal/config/profile.go: profile names ---

  datatype DirEntry = DirEntry(name: string, isDir: bool)

  datatype ConfigError =
    | ListFailed(cause: string)
    | ConfigDirFailed(cause: string)
    | AlreadyExists(profile: string)
    | WriteFailed(path: string)

  /** The profile names a directory listing shows: its files, without the ".toml" suffix, in listing order. */
  function ProfileNames(entries: seq<DirEntry>): seq<string>
  {
    if entries == [] then []
    else
      var front := ProfileNames(entries[..|entries| - 1]);
      var e := entries[|entries| - 1];
      if e.isDir then front else front + [TrimSuffix(e.name, ProfileSuffix)]
  }

  /** Where the profile called `p` lives under the configuration directory `dir`. */
  function ProfilePath(dir: string, p: string): string
  {
    Join3(dir, ProfileDirName, p + ProfileSuffix)
  }

  /** The file name a profile name is recorded under: ".toml" appended unless present. */
  function NormaliseProfileName(profile: string): (r: string)
    ensures HasSuffix(r, ProfileSuffix)
    ensures HasSuffix(profile, ProfileSuffix) ==> r == profile
    ensures !HasSuffix(profile, ProfileSuffix) ==> r == profile + ProfileSuffix
  {
    if HasSuffix(profile, ProfileSuffix) then profile else profile + ProfileSuffix
  }

  /** `ListProfiles`, reading the profile directory's `listing`. */
  method ListProfiles(listing: Result<seq<DirEntry>, string>) returns (r: Result<seq<string>, ConfigError>)
    ensures listing.Failure? ==> r == Failure(ListFailed(listing.error))
    ensures listing.Success? ==> r == Success(ProfileNames(listing.value))
  {
    if listing.Failure? {
      return Failure(ListFailed(listing.error));
    }
    var files := listing.value;
    var res: seq<string> := [];
    var i := 0;
    while i < |files|
      invariant 0 <= i <= |files|
      invariant res == ProfileNames(files[..i])
    {
      assert files[..i + 1][..i] == files[..i];
      if !files[i].isDir {
        res := res + [TrimSuffix(files[i].name, ProfileSuffix)];
      }
      i := i + 1;
    }
    assert files[..|files|] == files;
    return Success(res);
  }

  /** The outcome of `verifyProfile`: the profile's path when listed, "" when not. */
  function VerifyOutcome(profile: string, listing: Result<seq<DirEntry>, string>, configDir: Result<string, string>): Result<string, ConfigError>
  {
    if listing.Failure? then Failure(ListFailed(listing.error))
    else if configDir.Failure? then Failure(ConfigDirFailed(configDir.error))
    else if profile in ProfileNames(listing.value) then Success(ProfilePath(configDir.value, profile))
    else Success("")
  }

  /** `verifyProfile`: scans the listed names and returns at the first match. */
  method VerifyProfile(profile: string, listing: Result<seq<DirEntry>, string>, configDir: Result<string, string>)
    returns (r: Result<string, ConfigError>)
    ensures r == VerifyOutcome(profile, listing, configDir)
    ensures r.Success? ==> (r.value != "" <==> profile in ProfileNames(listing.value))
  {
    var profiles := ListProfiles(listing);
    if profiles.Failure? {
      return Failure(profiles.error);
    }
    if configDir.Failure? {
      return Failure(ConfigDirFailed(configDir.error));
    }
    var names := profiles.value;
    var i := 0;
    while i < |names|
      invariant 0 <= i <= |names|
      invariant profile !in names[..i]
    {
      if names[i] == profile {
        return Success(ProfilePath(configDir.value, names[i]));
      }
      assert names[..i + 1] == names[..i] + [names[i]];
      i := i + 1;
    }
    assert names[..|names|] == names;
    return Success("");
  }

  /** The outcome of `CreateNewProfileFile`, as the source checks and builds it. */
  function CreateOutcome(profile: string, listing: Result<seq<DirEntry>, string>, configDir: Result<string, string>, writeOk: bool)
    : Result<string, ConfigError>
  {
    var found := VerifyOutcome(profile, listing, configDir);
    if found.Success? && found.value != "" then Failure(AlreadyExists(profile))
    else if found.Failure? then Failure(found.error)
    else
      var path := Join3(configDir.value, ProfileDirName, NormaliseProfileName(profile));
      if writeOk then Success(path) else Failure(WriteFailed(path))
  }

  /**
   * `CreateNewProfileFile`: refuses a name `verifyProfile` finds, then writes the
   * blank `NewProfile` under the normalised name. `attempted` says whether the
   * file was written (its outcome is `writeOk`).
   */
  method CreateNewProfileFile(profile: string, listing: Result<seq<DirEntry>, string>, configDir: Result<string, string>, writeOk: bool)
    returns (r: Result<string, ConfigError>, attempted: bool)
    ensures r == CreateOutcome(profile, listing, configDir, writeOk)
    ensures attempted <==> listing.Success? && configDir.Success? && profile !in ProfileNames(listing.value)
  {
    var p := VerifyProfile(profile, listing, configDir);
    if p.Success? && p.value != "" {
      return Failure(AlreadyExists(profile)), false;
    }
    if p.Failure? {
      return Failure(p.error), false;
    }
    var path := Join3(configDir.value, ProfileDirName, NormaliseProfileName(profile));
    attempted := true;
    if !writeOk {
      return Failure(WriteFailed(path)), attempted;
    }
    return Success(path), attempted;
  }

  /** The process-wide configuration store (viper's global instance). */
  class ConfigStore {
    var values: map<string, string>

    constructor (values: map<string, string>)
      ensures this.values == values
    {
      this.values := values;
    }

    /** `viper.GetString` on the global store. */
    function Get(key: string): string
      reads this
    {
      if key in values then values[key] else ""
    }

    /** `viper.Set`. */
    method Set(key: string, value: string)
      modifies this
      ensures values == old(values)[key := value]
    {
      values := values[key := value];
    }

    /**
     * `SetDefaultProfile`: only a failure to list or to locate the configuration
     * aborts; otherwise the normalised name is recorded (listed or not) and the
     * outcome is that of writing the configuration file.
     */
    method SetDefaultProfile(profile: string, listing: Result<seq<DirEntry>, string>, configDir: Result<string, string>, writeOk: bool)
      returns (err: Option<ConfigError>)
      modifies this
      ensures VerifyOutcome(profile, listing, configDir).Failure? ==>
        err == Some(VerifyOutcome(profile, listing, configDir).error) && values == old(values)
      ensures VerifyOutcome(profile, listing, configDir).Success? ==>
        values == old(values)[DefaultConfigProfileKeyName := NormaliseProfileName(profile)] && (err.None? <==> writeOk)
    {
      var v := VerifyProfile(profile, listing, configDir);
      if v.Failure? {
        return Some(v.error);
      }
      Set(DefaultConfigProfileKeyName, NormaliseProfileName(profile));
      if !writeOk {
        return Some(WriteFailed(DefaultConfigProfileKeyName));
      }
      return None;
    }
  }

  // --- profile-name rules ---

  /** A name is listed exactly when some file (not directory) of the listing carries it, ".toml" stripped. */
  lemma {:induction false} ProfileNamesListed(entries: seq<DirEntry>, n: string)
    ensures n in ProfileNames(entries) <==>
      exists i :: 0 <= i < |entries| && !entries[i].isDir && TrimSuffix(entries[i].name, ProfileSuffix) == n
  {
    if entries != [] {
      var front := entries[..|entries| - 1];
      var e := entries[|entries| - 1];
      ProfileNamesListed(front, n);
      var carries := !e.isDir && TrimSuffix(e.name, ProfileSuffix) == n;
      assert n in ProfileNames(entries) <==> n in ProfileNames(front) || carries;
      ExistsInFront(entries, front, n);
    }
  }

  /** A witness in the listing is one in all but its last entry, or the last entry. */
  lemma ExistsInFront(entries: seq<DirEntry>, front: seq<DirEntry>, n: string)
    requires entries != [] && front == entries[..|entries| - 1]
    ensures (exists i :: 0 <= i < |entries| && !entries[i].isDir && TrimSuffix(entries[i].name, ProfileSuffix) == n) <==>
      (exists i :: 0 <= i < |front| && !front[i].isDir && TrimSuffix(front[i].name, ProfileSuffix) == n)
      || (!entries[|entries| - 1].isDir && TrimSuffix(entries[|entries| - 1].name, ProfileSuffix) == n)
  {
    if exists i :: 0 <= i < |entries| && !entries[i].isDir && TrimSuffix(entries[i].name, ProfileSuffix) == n {
      var i :| 0 <= i < |entries| && !entries[i].isDir && TrimSuffix(entries[i].name, ProfileSuffix) == n;
      if i < |front| {
        assert front[i] == entries[i];
      }
    }
    if exists i :: 0 <= i < |front| && !front[i].isDir && TrimSuffix(front[i].name, ProfileSuffix) == n {
      var i :| 0 <= i < |front| && !front[i].isDir && TrimSuffix(front[i].name, ProfileSuffix) == n;
      assert entries[i] == front[i];
    }
  }

  /** Listing preserves order: the names of two listings back to back are their names back to back. */
  lemma {:induction false} ProfileNamesAppend(a: seq<DirEntry>, b: seq<DirEntry>)
    ensures ProfileNames(a + b) == ProfileNames(a) + ProfileNames(b)
  {
    if b == [] {
      assert a + b == a;
    } else {
      var b' := b[..|b| - 1];
      ProfileNamesAppend(a, b');
      assert (a + b)[..|a + b| - 1] == a + b';
      assert (a + b)[|a + b| - 1] == b[|b| - 1];
    }
  }

  /** Normalising a profile name twice changes nothing more. */
  lemma NormaliseIdempotent(profile: string)
    ensures NormaliseProfileName(NormaliseProfileName(profile)) == NormaliseProfileName(profile)
  {
  }

  /**
   * A name given with its ".toml" suffix is listed only when a file carries the
   * suffix twice; the file that the name designates on disk is not found by it.
   */
  lemma SuffixedNameLookup(entries: seq<DirEntry>, profile: string)
    requires HasSuffix(profile, ProfileSuffix)
    ensures profile in ProfileNames(entries) <==>
      exists i :: 0 <= i < |entries| && !entries[i].isDir && entries[i].name == profile + ProfileSuffix
  {
    ProfileNamesListed(entries, profile);
    forall i | 0 <= i < |entries|
      ensures TrimSuffix(entries[i].name, ProfileSuffix) == profile <==> entries[i].name == profile + ProfileSuffix
    {
      var name := entries[i].name;
      if name == profile + ProfileSuffix {
        assert name[|name| - |ProfileSuffix|..] == ProfileSuffix;
        assert TrimSuffix(name, ProfileSuffix) + ProfileSuffix == name;
      }
    }
  }

  /**
   * As written, creating a profile under its file name passes the
   * already-exists guard although that file is listed, and the write targets
   * the existing profile's own file.
   */
  lemma CreateOverwritesSuffixedName()
    ensures ProfileNames([DirEntry("work.toml", false)]) == ["work"]
    ensures VerifyOutcome("work", Success([DirEntry("work.toml", false)]), Success("/cfg")) == Success(ProfilePath("/cfg", "work"))
    ensures CreateOutcome("work.toml", Success([DirEntry("work.toml", false)]), Success("/cfg"), true) == Success(ProfilePath("/cfg", "work"))
  {
    var entries := [DirEntry("work.toml", false)];
    assert HasSuffix("work.toml", ProfileSuffix) by {
      assert "work.toml"[4..] == ".toml";
    }
    assert TrimSuffix("work.toml", ProfileSuffix) == "work" by {
      assert "work.toml"[..4] == "work";
    }
    assert entries[..0] == [];
    assert ProfileNames(entries) == ["work"];
    assert "work" + ProfileSuffix == "work.toml";
    assert !HasSuffix("work", ProfileSuffix);
    assert "work.toml" !in ["work"];
  }

  /** `CreateNewProfileFile` with the guard applied to the profile's name without its suffix. */
  function CreateOutcomeChecked(profile: string, listing: Result<seq<DirEntry>, string>, configDir: Result<string, string>, writeOk: bool)
    : Result<string, ConfigError>
  {
    var found := VerifyOutcome(TrimSuffix(profile, ProfileSuffix), listing, configDir);
    if found.Success? && found.value != "" then Failure(AlreadyExists(profile))
    else if found.Failure? then Failure(found.error)
    else
      var path := Join3(configDir.value, ProfileDirName, NormaliseProfileName(profile));
      if writeOk then Success(path) else Failure(WriteFailed(path))
  }

  /** The checked creation: whether or not the name carries ".toml". */
  method CreateNewProfileFileChecked(profile: string, listing: Result<seq<DirEntry>, string>, configDir: Result<string, string>, writeOk: bool)
    returns (r: Result<string, ConfigError>)
    ensures r == CreateOutcomeChecked(profile, listing, configDir, writeOk)
  {
    var p := VerifyProfile(TrimSuffix(profile, ProfileSuffix), listing, configDir);
    if p.Success? && p.value != "" {
      return Failure(AlreadyExists(profile));
    }
    if p.Failure? {
      return Failure(p.error);
    }
    var path := Join3(configDir.value, ProfileDirName, NormaliseProfileName(profile));
    if !writeOk {
      return Failure(WriteFailed(path));
    }
    return Success(path);
  }

  /** The checked creation never writes over a listed profile file, with or without the suffix given. */
  lemma CreateCheckedNeverOverwrites(profile: string, listing: Result<seq<DirEntry>, string>, configDir: Result<string, string>, writeOk: bool)
    requires CreateOutcomeChecked(profile, listing, configDir, writeOk).Success?
    ensures listing.Success?
    ensures forall i :: 0 <= i < |listing.value| && !listing.value[i].isDir ==>
      listing.value[i].name != NormaliseProfileName(profile)
  {
    var key := TrimSuffix(profile, ProfileSuffix);
    var entries := listing.value;
    ProfileNamesListed(entries, key);
    forall i | 0 <= i < |entries| && !entries[i].isDir
      ensures entries[i].name != NormaliseProfileName(profile)
    {
    }
  }
}
