# goproject scaffolding core, in Dafny

goproject creates the skeleton of a new Go project. It takes a name or
directory from the command line and the layout from a profile, a TOML file of
settings. The layout lists the directories to create and the files to
generate. The tool creates the directories and renders each file kind's
template with values drawn from the project and the profile. It writes each
file unless one is already there. Then it runs `go mod init` and `git init`.

This project models that core:

| module | file | what it holds |
|---|---|---|
| `Wrappers` | wrappers.dfy | `Option` and `Result` |
| `Paths` | paths.dfy | Go's `path.Clean`, `Join`, `Base` and `Dir`, and `strings.HasSuffix`/`TrimSuffix`, on '/'-separated strings |
| `Render` | render.dfy | the part of `text/template` the templates use: literal text, `{{.Field}}` and `{{if .Field}}…{{end}}` |
| `Config` | config.dfy | constants, the default and blank profiles, `ListProfiles`, `verifyProfile`, `SetDefaultProfile`, `CreateNewProfileFile`, and viper's global store as the `ConfigStore` class |
| `Projects` | projects.dfy | the `Project` value and `NewProject` |
| `DocKind` … `VersionKind` | kind_*.dfy | one module per file kind: identifier, file name, directory, template, the values the constructor passes, and the rendered text |
| `Templates` | templates.dfy | the registry `getFileConstructor`, the `file` object (a class whose `content` is set once the template runs), `newProjectFile` and `write` |
| `Os` | os.dfy | the tree below the working directory, `os.MkdirAll`, `os.Stat` and `ioutil.WriteFile`, with refused operations as `Faults` |
| `Build` | build.dfy | `buildFile`, `buildDirs`, `buildFiles`, `gitInit`, `goMod` and `Build`: each pass is a function, and a loop method on a `FileSystem` object is proved to compute it |
| `Rebuild` | rebuild.dfy | what the passes guarantee: existing files are never overwritten, the outcome of every identifier is reported, building twice changes nothing, and `Build` fails only because of the tools |
| `NewCommand` | new_command.dfy | the `new` command: project directory, name and location, profile choice, and exit status |

Several inputs are given as parameters:

- the working directory;
- the outcome of `os.Chdir`;
- the profile loader;
- whether viper's decoding succeeded;
- the outcomes of `go mod init` and `git init`;
- the listing of the profile directory;
- the user's configuration directory;
- the outcome of writing the configuration.

## Model

| member | source | states |
|---|---|---|
| `Config.NewProfileIsBlankDefault` | internal/config/profileDefault.go:40-73 | the profile written for a new name has the default layout and the default profile's keys, every value blank, and a blank author |
| `Config.NormaliseProfileName` | internal/config/profile.go:131-135 | the recorded name always ends in ".toml"; a name that has the suffix is kept and any other gets it appended |
| `Config.ListProfiles` | internal/config/profile.go:78-98 | a failed directory read is a list error; otherwise the result is the listing's non-directory entries with ".toml" removed, in listing order |
| `Config.ProfileNamesListed` | internal/config/profile.go:91-95 | a name is listed iff some non-directory entry, with ".toml" removed, is that name |
| `Config.ProfileNamesAppend` | internal/config/profile.go:91-95 | listing two directories' entries one after the other lists their names one after the other |
| `Config.VerifyProfile` | internal/config/profile.go:102-121 | a listing or configuration-directory error is returned; otherwise the path is non-empty iff the profile is among the listed names, and the path is `dir/profiles/<profile>.toml` |
| `Config.CreateNewProfileFile` | internal/config/profile.go:147-175 | refuses a name `verifyProfile` finds; propagates its errors; otherwise writes under the normalised name; a write happens iff the listing and directory are readable and the name is not listed |
| `Config.ConfigStore.constructor` | internal/config/profile.go:137 | the store starts with the given values |
| `Config.ConfigStore.Set` | internal/config/profile.go:137 | `viper.Set` replaces one key and keeps every other |
| `Config.ConfigStore.SetDefaultProfile` | internal/config/profile.go:124-144 | a verification error leaves the store untouched; otherwise "defaultprofile" holds the normalised name and the call fails iff writing the configuration fails |
| `Config.NormaliseIdempotent` | internal/config/profile.go:131-135 | normalising a normalised name changes nothing |
| `Config.SuffixedNameLookup` | internal/config/profile.go:113-117 | a name that ends in ".toml" is listed iff a file named `<name>.toml` exists, so the file `<name>` itself is never matched |
| `Config.CreateOverwritesSuffixedName` | internal/config/profile.go:148-170 | as written: with `work.toml` on disk, creating "work.toml" passes the exists-guard and writes over `profiles/work.toml` |
| `Config.CreateNewProfileFileChecked` | internal/config/profile.go:147-175 | the corrected creation checks the name without its suffix |
| `Config.CreateCheckedNeverOverwrites` | internal/config/profile.go:146 | when the corrected creation succeeds, no listed file has the name it writes, whether or not ".toml" was given |
| `Projects.Override` | internal/templates/project.go:43 | a top-level setting that is present replaces the fallback, and an absent one leaves it |
| `Projects.NewProject` | internal/templates/project.go:31-49 | the project keeps the profile and its author; on a failed decoding it keeps the name and location with an empty layout; on success it takes the profile's layout, and a top-level `name` or `path` setting replaces the name or location |
| `Projects.NewProjectFromDefault` | internal/config/profileDefault.go:6-39 | a project decoded from the default profile keeps its name and location and takes the default layout |
| `Render.Execute` | internal/templates/templates.go:99-101 | execution fails only on a field the values lack, and it succeeds whenever every mentioned field is present |
| `Render.ExecuteAppend` | internal/templates/templates.go:99-101 | executing two concatenated templates is executing the first, then the second, stopping at the first error |
| `Render.ExecuteVerbatim` | internal/templates/templates.go:99-101 | a template without actions renders to its literal text, whatever the values |
| `Render.ExecuteDependsOnMentions` | internal/templates/templates.go:99-101 | two value sets that agree on the fields a template mentions render it identically |
| `Render.Lookup` | internal/templates/templates.go:99 | the looked-up values have the fields' length, and each value is the one bound to its field |
| `Render.ExecuteInterleave` | internal/templates/templates.go:99-101 | text interleaved with fields renders to the text spliced with the fields' values |
| `Render.ExecuteEmptyCondition` | internal/templates/travis.go:94-100 | an `if` on an empty field renders nothing |
| `Render.ExecuteNonEmptyCondition` | internal/templates/travis.go:94-100 | an `if` on a non-empty field renders its body |
| `DocKind.Rendered` | internal/templates/doc.go:12-50 | the doc template renders to the package documentation with the project name as package name |
| `DocKind.DependsOnNameOnly` | internal/templates/doc.go:12-14 | doc.go depends on the project name alone |
| `DockerfileKind.Rendered` | internal/templates/dockerfile.go:13-59 | the Dockerfile renders with the profile's `docker.maintainer` and the project name as the static binary |
| `DockerfileKind.DependsOnMaintainerAndName` | internal/templates/dockerfile.go:13-18 | two projects with the same name and maintainer get the same Dockerfile |
| `GitignoreKind.Rendered` | internal/templates/gitignore.go:5-32 | `.gitignore` is the fixed text, for any project |
| `GolangciKind.Rendered` | internal/templates/golangci.go:5-23 | `.golangci.yml` is the fixed text, for any project |
| `MakefileKind.Rendered` | internal/templates/makefile.go:7-247 | the Makefile is the fixed text as the source spells it, unbalanced coverage name included, for any project |
| `MakefileKind.BackquotesAppend` | internal/templates/makefile.go:191 | backquotes in a concatenation add up |
| `MakefileKind.NoBackquotes` | internal/templates/makefile.go:191 | a text without the character has no backquotes |
| `MakefileKind.CommandHasNoBackquote` | internal/templates/makefile.go:191 | the shell command inside the coverage file name has no backquote |
| `MakefileKind.CountAround` | internal/templates/makefile.go:191 | around such a command the written name has one backquote and the intended name has two |
| `MakefileKind.CoverFileAsWrittenUnbalanced` | internal/templates/makefile.go:191 | as written, the coverage profile name holds one backquote, so the shell substitution is never opened |
| `MakefileKind.CoverFileBalanced` | internal/templates/makefile.go:191 | the corrected name holds a matched pair of backquotes around the command |
| `PreCommitKind.Rendered` | internal/templates/pre-commit.go:7-62 | `.pre-commit-config.yaml` is the fixed text, for any project |
| `ReadmeKind.RenderedFrom` | internal/templates/readme.go:40-198 | for any text of the right shape, the README renders with every `ProjectName` replaced by the name and the empty CI block dropped |
| `ReadmeKind.Rendered` | internal/templates/readme.go:14-26 | the README renders to its text for the project name |
| `ReadmeKind.DependsOnNameOnly` | internal/templates/readme.go:14-16 | the README depends on the project name alone |
| `SonarKind.Rendered` | internal/templates/sonar.go:15-23 | the sonar properties render with the profile's `sonar.org`, `name`, `travis.profile` and `git.URL` settings |
| `SonarKind.IgnoresProjectName` | internal/templates/sonar.go:18 | the sonar properties do not depend on the project's name; the key comes from the profile |
| `TravisKind.RenderedFrom` | internal/templates/travis.go:43-139 | for any surrounding text, the travis file renders with the sonar block filled in from `sonar.org` |
| `TravisKind.Rendered` | internal/templates/travis.go:13-19 | the travis file renders to its text for the profile's `sonar.org` |
| `TravisKind.IgnoresRepoURL` | internal/templates/travis.go:13-19 | `git.URL` is passed but not used: profiles that agree on `sonar.org` give the same file |
| `TravisKind.BlockPresentIffOrganisation` | internal/templates/travis.go:94-100 | the sonar block is absent iff `sonar.org` is empty; when present, it carries the organisation |
| `TravisKind.BlockIff` | internal/templates/travis.go:94-100 | the same, for any surrounding text |
| `VersionKind.Rendered` | internal/templates/version.go:7-51 | `internal/version/version.go` is the fixed text, for any project |
| `Templates.RenderedAll` | internal/templates/templates.go:90-107 | every registered kind's template executes without error on the values its constructor passes |
| `Templates.RegisteredIds` | internal/templates/templates.go:69-80 | the registry holds one identifier per kind, in order |
| `Templates.FindSpec` | internal/templates/templates.go:82 | a lookup finds a kind with that identifier, or there is none |
| `Templates.IdentifiersDistinct` | internal/templates/templates.go:69-80 | no two kinds share an identifier |
| `Templates.GetFileConstructorSpec` | internal/templates/templates.go:67-88 | lookup succeeds iff the identifier is registered and returns the kind with that identifier; otherwise it reports the identifier as not registered |
| `Templates.IdentifierRoundTrip` | internal/templates/templates.go:67-88 | looking up a kind's identifier gives back that kind |
| `Templates.DefaultLayoutFilesRegistered` | internal/config/profileDefault.go:14-24 | every file of the default layout is registered, every kind is in it, and no identifier is listed twice |
| `Templates.DefaultLayoutHoldsEveryDirectory` | internal/config/profileDefault.go:13 | every directory a kind writes into, other than ".", is created by the default layout |
| `Templates.File.constructor` | internal/templates/templates.go:57-64 | `newFile` sets identifier, file name, directory and template, and leaves the content empty |
| `Templates.File.Write` | internal/templates/templates.go:53-55 | `write` writes the content to directory/filename with the file mode, as `WriteFile` does |
| `Templates.NewProjectFile` | internal/templates/templates.go:90-107 | on success the content is the template's output; on failure the file is unchanged and the error names the identifier |
| `Templates.Construct` | internal/templates/doc.go:12-14 | a kind's constructor always succeeds with a new file whose fields are the kind's and whose content is the rendered text |
| `Os.Stat` | internal/templates/project.go:155-166 | not found iff the path is neither refused nor present; an error iff examining it is refused |
| `Os.MkdirAll` | internal/commands/new.go:112 | files stay; directories only grow; without an error every element of the path is a directory; an error names an element that is blocked |
| `Os.WriteFile` | internal/templates/templates.go:54 | fails iff refused, the path is a directory, or its parent is missing; a failure changes nothing; success stores the content and changes no other file |
| `Os.OperationsKeepWellFormed` | internal/templates/project.go:81 | neither operation makes a path both a file and a directory |
| `Os.FileSystem.MkdirAllPath` | internal/templates/project.go:81 | the file system's tree becomes the one `MkdirAll` gives |
| `Os.FileSystem.WriteFilePath` | internal/templates/templates.go:54 | the file system's tree becomes the one `WriteFile` gives |
| `Os.FileSystem.AddDir` | internal/templates/project.go:141-143 | `git init` adds the one directory and nothing else |
| `Build.ProduceSpec` | internal/templates/project.go:118-127 | building fails exactly on unregistered identifiers; a kind's file goes to its directory under its name with its rendered text |
| `Build.BuildFile` | internal/templates/project.go:118-127 | the built file's target and content are those `Produce` gives, and its error is the lookup error |
| `Build.BuildDirStep` | internal/templates/project.go:79-85 | one iteration: the tree becomes the one `MkdirAll` gives, and a failure is reported with the element that blocked it |
| `Build.BuildDirs` | internal/templates/project.go:71-87 | the loop computes `DirsPass`: each directory in order, every failure reported and skipped |
| `Build.BuildFileStep` | internal/templates/project.go:96-114 | one iteration: a build error is reported, an existing or unexaminable target is skipped, otherwise the file is written |
| `Build.BuildFiles` | internal/templates/project.go:89-116 | the loop computes `FilesPass` over the identifiers in order |
| `Build.BuildOn` | internal/templates/project.go:52-67 | `Build` on a file system gives `BuildProject`'s tree and error, and the outcomes of both passes |
| `Rebuild.GrowsTransitive` | internal/templates/project.go:52-67 | growth across passes composes |
| `Rebuild.MkdirAllGrows` | internal/templates/project.go:81 | `MkdirAll` only adds directories it is allowed to make |
| `Rebuild.MkdirAllSettles` | internal/templates/project.go:81 | over any tree grown from its result, the same `MkdirAll` changes nothing and reports the same error |
| `Rebuild.DirsPassSettles` | internal/templates/project.go:71-87 | over any tree grown from the directory pass, each directory's `MkdirAll` changes nothing |
| `Rebuild.DirsPassIdle` | internal/templates/project.go:71-87 | a pass of directories that each change nothing changes nothing |
| `Rebuild.DirsPassKeepsFiles` | internal/templates/project.go:71-87 | the directory pass keeps every file and directory and keeps the tree well formed |
| `Rebuild.FileStepNeverOverwrites` | internal/templates/project.go:102-113 | one file step keeps the directories and every existing file's content, and a `Written` outcome means the tree changed |
| `Rebuild.FilesPassNeverOverwrites` | internal/templates/project.go:89-116 | the file pass keeps the directories and the content of every file that existed |
| `Rebuild.FileStepNotBuilt` | internal/templates/project.go:99-100 | a step reports a build error iff the file cannot be built |
| `Rebuild.FilesPassOutcomes` | internal/templates/project.go:96-115 | one outcome per identifier, and the i-th reports a build error iff the i-th identifier cannot be built |
| `Rebuild.FilesPassReportsUnregistered` | internal/templates/project.go:96-115 | with the project's constructors, the i-th outcome reports a build error iff the i-th identifier is not registered |
| `Rebuild.FileStepSettles` | internal/templates/project.go:102-108 | after a step, any tree that has its files and the same directories is left alone by that step |
| `Rebuild.FilesPassSettles` | internal/templates/project.go:89-116 | over any tree with the pass's files and directories, every step of the pass changes nothing |
| `Rebuild.FilesPassIdle` | internal/templates/project.go:89-116 | a pass whose steps each change nothing changes nothing and writes nothing |
| `Rebuild.RebuildChangesNothing` | internal/templates/project.go:52-56 | running both passes again over their own result gives the same tree and writes no file |
| `Rebuild.BuildKeepsExistingFiles` | internal/templates/project.go:52-56 | a file that existed before the passes has the same content after them |
| `Rebuild.BuildFailsOnlyOnTools` | internal/templates/project.go:52-67 | `Build` fails iff `go mod init` fails, `.git` cannot be examined, or `git init` fails on a missing `.git`; with `.git` present it only runs the passes |
| `Rebuild.FreshBuildScenario` | internal/templates/project.go:52-67 | layout `src` + `gitignore` in an empty directory: creates `src`, writes `.gitignore` with its text and mode 0600, adds `.git`, no error |
| `Rebuild.ExistingGitignoreScenario` | internal/templates/project.go:102-108 | the same layout with a `.gitignore` already there: the file is skipped and kept as it was |
| `NewCommand.NameLocation` | internal/commands/new.go:122 | corrected: the location is `wd` joined with the argument, and the name is the location's last element |
| `NewCommand.NameLocationOfPlainArgument` | internal/commands/new.go:122 | for a plain argument such as `myApp`, the code as written and the corrected form agree, and the name is the argument |
| `NewCommand.DotArgumentNamesProjectDot` | internal/commands/new.go:122 | as written: `new .` in `/w` names the project "." although it lives in `/w`; the corrected form names it "w" |
| `NewCommand.NewProjectDirectory` | internal/commands/new.go:110-123 | creates the argument's directory; a directory error, then a chdir error, is returned; otherwise the name is the argument's last element and the location is `wd` joined with the argument |
| `NewCommand.SetupProjectDirectory` | internal/commands/new.go:93-108 | without a working directory it fails and creates nothing; without an argument the project is the working directory, named by its last element, and nothing is created; otherwise the tree and the outcome are those of `newProjectDirectory` for the first argument: name `Base(argument)`, location `Join(wd, argument)` |
| `NewCommand.DirectoryNameIsLocationBase` | internal/commands/new.go:93-123 | with no argument or a single plain one, the name settled on is the last element of the location |
| `NewCommand.SetProjectNameLocation` | internal/commands/new.go:125-128 | records "name" and "location" and keeps every other setting |
| `NewCommand.ChooseProfile` | internal/commands/new.go:72-83 | a profile is chosen iff the flag or the configured default is non-empty; a non-empty flag wins; the choice is never empty |
| `NewCommand.FlagOverridesDefault` | internal/commands/new.go:74 | with a flag, the configured default does not matter |
| `NewCommand.SetProfile` | internal/commands/new.go:72-91 | with no profile chosen it fails and changes nothing; otherwise it loads the choice and records "profile" only when the load succeeds |
| `NewCommand.SetupNewProject` | internal/commands/new.go:53-70 | the result and the whole new configuration follow the directory outcome, the profile choice and its load: a directory failure records nothing; after it, "name" and "location" stay recorded and a flag stays recorded under "profile" even when no profile can be chosen or loaded; on success the name is `Base(argument)` (or the working directory's last element), "profile" is the chosen profile and the profile is the one loaded for it |
| `NewCommand.SetupStoreRecordsBeforeLoading` | internal/commands/new.go:53-70 | once the directory is settled, name, location and a flag's profile name are recorded whatever the load does, and every other setting is kept; a failed directory step leaves the configuration as it was |
| `NewCommand.SetupSucceedsIff` | internal/commands/new.go:53-91 | setup succeeds iff the directory is settled, a profile is chosen and it loads; it then returns that name, location and profile; a directory failure is returned as is |
| `NewCommand.RunNew` | internal/commands/new.go:37-45 | a setup failure is returned and the project tree is untouched; otherwise the project tree is the build of `newProject`'s project from the set-up profile, name and location, and the command fails exactly with the build's error; exits 1 iff there is an error; a build error needs a failing tool or an unexaminable `.git`; a failing `go mod init` always fails the command |

## Left out

- The `text/template` parser is not modelled. Templates are modelled already parsed, as literal text, fields and `if` blocks, so the parse error at internal/templates/templates.go:92-95 cannot arise for the registered templates. Trim markers (`{{-`, `-}}`) are applied by hand to the literal text.
- The README's `{{range .CI}}` block is not modelled on its own. The constructor always passes a nil `CI`, so the block is modelled as an `if` that renders nothing.
- Viper's case-insensitive keys, its TOML decoding and its `Unmarshal` into structs are not modelled. A profile is a map of dotted keys plus its layout. Whether decoding succeeds is the parameter `decodeOk`, and a partial decode is not modelled.
- `LoadProfile`, `GetProfileDirName` and `configDir` are not modelled. Their results are parameters: the loader `load`, the `listing` and `configDir`. The wording of `LoadProfile`'s two error messages is not modelled.
- `initProfiles`, `EditProfile`, `isSymlink` and the rest of internal/config/profile.go past `CreateNewProfileFile` are not modelled: they launch an editor or inspect links, which the `new` command never does.
- The file system is modelled as cleaned relative paths with fault sets. Directory modes, symbolic links, absolute paths and an `ENOTDIR` from `Stat` are not modelled.
- `Os.MkdirAll` only records the first blocked element. It does not model partial creation by concurrent processes.
- `os.Chdir` is only its outcome. The tree below the working directory (`here`) and the project's tree (`project`) are separate parameters of `RunNew`, which requires them to be distinct objects; the model does not tie the project directory to the directory just created, nor see a build into the working directory itself through `here`.
- internal/templates/gitignore.go:6 and internal/templates/golangci.go:6 call the four-parameter `newFile` (internal/templates/templates.go:57) with three arguments, so the source as written does not compile. The model gives these two kinds the directory ".", the value their file names evidently call for.
- `go mod init` is only its outcome: the model does not create `go.mod`. The source runs it on every build without checking for an existing `go.mod`, unlike `git init`, so only the two passes are idempotent. `git init` is modelled as adding `.git`.
- Console output is not modelled: the progress lines, the error lines of the passes, and `Build project directory …`. As written, `buildFiles` prints "success." even after a write error. Pass outcomes stand for what each line reports.
- A file whose target cannot be examined (`exists` returns true with an error) is skipped silently, as in internal/templates/project.go:102-108. The model reports it as `StatSkipped`, without a message.
- `Rebuild.RebuildChangesNothing`: the pass outcomes of the second run are not all "exists". A directory error is reported again, and a file the first pass could not write is tried again.
- `Templates.Construct` assumes every registered kind renders. This holds because each template only mentions fields its constructor supplies (`Templates.RenderedAll`).
- The CLI wiring through cobra (internal/config/config.go, cmd/) is not modelled, nor are the other commands and the `version` and `upgrade` helpers. The one flag of `new` is the parameter `flag`.
- The exit through `os.Exit` is modelled as the returned status of `RunNew`.
- `Paths` models Go's `path` package only on the strings the core gives it. `Clean` is proved only for the plain names and relative layouts the scenarios use.

## Findings

| source | as written | input that shows it | evidently intended | confidence | as-written member | corrected member |
|---|---|---|---|---|---|---|
| internal/config/profile.go:147-175 | the exists-guard compares the given name with listed names that have ".toml" removed, but the file written is `<name>` when the name already ends in ".toml" | profile directory holding `work.toml`; `CreateNewProfileFile("work.toml")` | refuse the name when `<name without .toml>` is listed, so an existing profile file is never overwritten | high, not executed | `Config.CreateOverwritesSuffixedName` | `Config.CreateNewProfileFileChecked` |
| internal/templates/makefile.go:191 | the coverage profile name closes a shell command substitution that it never opens: the backquote before `echo` is missing, because the raw string ends there | any project built with the `makefile` identifier | `unit-`, then the per-package command in a matched pair of backquotes, then `.out` | medium, not executed | `MakefileKind.CoverFileAsWrittenUnbalanced` | `MakefileKind.CoverFileBalanced` |
| internal/commands/new.go:122 | the name is the argument's last element while the location is `wd` joined with the argument | `goproject new .` in `/w`: name ".", location `/w` | the name is the location's last element ("w"), as when no argument is given | medium, not executed | `NewCommand.DotArgumentNamesProjectDot` | `NewCommand.NameLocation` |
