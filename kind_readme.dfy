/**
 * The `readme` file kind (internal/templates/readme.go): a `README` skeleton titled with the project's
 * name. Its CI badge list ranges over a field that is always nil; the range is
 * modelled as a block showing that one field, so it is never emitted.
 */
module ReadmeKind {
  import opened Wrappers
  import opened Render
  import opened Config
  import opened Projects

  const Identifier := "readme"
  const Filename := "README"
  const Directory := "."

  /** The text before the CI block, cut where the project's name goes. */
  const HeadPieces: seq<string> := [
    "\n" +
      "[Template inspired by Jesse Luoto // https://github.com/jehna/readme-best-practices/blob/master/README-default.md]\n" +
      "\n" +
      "# ",
    "\n" +
      "![Logo of the Project](https://raw.githubusercontent.com/jehna/readme-best-practices/master/sample-logo.png)\n" +
      "\n" +
      "  "]

  /** The text after the CI block, cut where the project's name goes. */
  const TailPieces: seq<string> := [
    "\n" +
      "> Additional information or tagline\n" +
      "\n" +
      "A brief description of your Project, what it is used for and how does life get\n" +
      "awesome when someone starts to use it.\n" +
      "\n" +
      "## Installing / Getting started\n" +
      "\n" +
      "A quick introduction of the minimal setup you need to get a hello world up &\n" +
      "running.\n" +
      "\n" +
      "\\'\\'\\'shell\n" +
      "\tpackagemanager install ",
    "\n" +
      "\t",
    " start\n" +
      "\t",
    " \"Do something!\"  # prints \"Nah.\"\n" +
      "\t\\'\\'\\'\n" +
      "\n" +
      "Here you should say what actually happens when you execute the code above.\n" +
      "\n" +
      "### Initial Configuration\n" +
      "\n" +
      "Some projects require initial configuration (e.g. access tokens or keys, \\'npm i\\').\n" +
      "This is the section where you would document those requirements.\n" +
      "\n" +
      "## Developing\n" +
      "\n" +
      "Here's a brief intro about what a developer must do in order to start developing\n" +
      "the Project further:\n" +
      "\n" +
      "\\'\\'\\'shell\n" +
      "\tgit clone https://github.com/your/",
    ".git\n" +
      "\tcd ",
    "/\n" +
      "\t\tpackagemanager install\n" +
      "\t\\'\\'\\'\n" +
      "\n" +
      "And state what happens step-by-step.\n" +
      "\n" +
      "### Building\n" +
      "\n" +
      "If your Project needs some additional steps for the developer to build the\n" +
      "Project after some code changes, state them here:\n" +
      "\n" +
      "\\'\\'\\'shell\n" +
      "\t./configure\n" +
      "\tmake\n" +
      "\tmake install\n" +
      "\t\\'\\'\\'\n" +
      "\n" +
      "Here again you should state what actually happens when the code above gets\n" +
      "executed.\n" +
      "\n" +
      "### Deploying / Publishing\n" +
      "\n" +
      "In case there's some step you have to take that publishes this Project to a\n" +
      "server, this is the right time to state it.\n" +
      "\n" +
      "\\'\\'\\'shell\n" +
      "\tpackagemanager deploy ",
    " -s server.com -u username -p password\n" +
      "\t\\'\\'\\'\n" +
      "\n" +
      "And again you'd need to tell what the previous code actually does.\n" +
      "\n" +
      "## Features\n" +
      "\n" +
      "What's all the bells and whistles this Project can perform?\n" +
      "* What's the main functionality\n" +
      "* You can also do another thing\n" +
      "* If you get really randy, you can even do this\n" +
      "\n" +
      "## Configuration\n" +
      "\n" +
      "Here you should write what are all of the configurations a user can enter when\n" +
      "using the Project.\n" +
      "\n" +
      "#### Argument 1\n" +
      "Type: \\'String\\'\n" +
      "Default: \\''default value'\\'\n" +
      "\n" +
      "\tState what an argument does and how you can use it. If needed, you can provide\n" +
      "\tan example below.\n" +
      "\n" +
      "\t\tExample:\n" +
      "\t\\'\\'\\'bash\n",
    " \"Some other value\"  # Prints \"You're nailing this readme!\"\n" +
      "\\'\\'\\'\n" +
      "\n" +
      "\t#### Argument 2\n" +
      "Type: \\'Number|Boolean\\'\n" +
      "Default: 100\n" +
      "\n" +
      "\tCopy-paste as many of these as you need.\n" +
      "\n" +
      "\t## Usage\n" +
      "\n" +
      "\t> Some usage examples, with arguments and expected result\n" +
      "\n" +
      "\t## Supported Go versions\n" +
      "\n" +
      "\t> Go versions the Project has been tested and validated on\n" +
      "\n" +
      "\tGo Project works with the last three major Go versions, which are 1.11, 1.12 and 1.13 at the moment.\n" +
      "\n" +
      "\t## Contributing\n" +
      "\n" +
      "\tWhen you publish something open source, one of the greatest motivations is that\n" +
      "\tanyone can just jump in and start contributing to your Project.\n" +
      "\n" +
      "\t\tThese paragraphs are meant to welcome those kind souls to feel that they are\n" +
      "\tneeded. You should state something like:\n" +
      "\n" +
      "\t\"If you'd like to contribute, please fork the repository and use a feature\n" +
      "\tbranch. Pull requests are warmly welcome.\"\n" +
      "\n" +
      "\tIf there's anything else the developer needs to know (e.g. the code style\n" +
      "\tguide), you should link it here. If there's a lot of things to take into\n" +
      "\tconsideration, it is common to separate this section to its own file called\n" +
      "\t\\'CONTRIBUTING.md\\' (or similar). If so, you should say that it exists here.\n" +
      "\n" +
      "\t## Links\n" +
      "\n" +
      "\tEven though this information can be found inside the Project on machine-readable\n" +
      "\tformat like in a .json file, it's good to include a summary of most useful\n" +
      "\tlinks to humans using your Project. You can include links like:\n" +
      "\n" +
      "\t- Project homepage: https://your.github.com/",
    "/\n" +
      "\t- Repository: https://github.com/your/",
    "/\n" +
      "\t- Issue tracker: https://github.com/your/",
    "/issues\n" +
      "\t- In case of sensitive bugs like security vulnerabilities, please contact\n" +
      "my@email.com directly instead of using issue tracker. We value your effort\n" +
      "to improve the security and privacy of this Project!\n" +
      "- Related projects:\n" +
      "- Your other Project: https://github.com/your/other-Project/\n" +
      "- Someone else's Project: https://github.com/someones/",
    "/\n" +
      "\n" +
      "## Licensing\n" +
      "\n" +
      "One really important part: Give your Project a proper license. Here you should\n" +
      "state what the license is and how to find the text version of the license.\n" +
      "Something like:\n" +
      "\n" +
      "\"The code in this Project is licensed under MIT license.\"\n"]

  const HeadFields: seq<string> := ["ProjectName"]
  const TailFields: seq<string> := ["ProjectName", "ProjectName", "ProjectName", "ProjectName", "ProjectName", "ProjectName", "ProjectName", "ProjectName", "ProjectName", "ProjectName", "ProjectName"]

  /** The CI block: one line per CI entry, the range taken as a single entry. */
  const CIBlock: Render.Template := Interleave(["\n  ", "\n  "], ["CI"])

  /** The template's shape, for any literal text before and after the CI block. */
  function TemplateFrom(head: seq<string>, tail: seq<string>): Render.Template
    requires |head| == 2 && |tail| == 12
  {
    Interleave(head, HeadFields) + [IfNonEmpty("CI", CIBlock)] + Interleave(tail, TailFields)
  }

  const Template: Render.Template := TemplateFrom(HeadPieces, TailPieces)

  /** `readmeConstructor`: the project's name, and a CI list that is always nil; the profile is not read. */
  function Values(p: Project): Context
  {
    map["ProjectName" := p.name, "CI" := ""]
  }

  /** The text with the project's name at every site and no CI lines. */
  function TextFrom(head: seq<string>, tail: seq<string>, projectName: string): string
    requires |head| == 2 && |tail| == 12
  {
    Splice(head, [projectName]) + Splice(tail, [projectName, projectName, projectName, projectName, projectName, projectName, projectName, projectName, projectName, projectName, projectName])
  }

  /** The file for a project called `projectName`: the name in the title and at every other site, and no CI lines. */
  function Text(projectName: string): string
  {
    TextFrom(HeadPieces, TailPieces, projectName)
  }

  /** Whatever the literal text, the CI block emits nothing and every site shows the project's name. */
  lemma RenderedFrom(head: seq<string>, tail: seq<string>, p: Project)
    requires |head| == 2 && |tail| == 12
    ensures Execute(TemplateFrom(head, tail), Values(p)) == Success(TextFrom(head, tail, p.name))
  {
    var ctx := Values(p);
    var h := Splice(head, [p.name]);
    var before, block, after := Interleave(head, HeadFields), [IfNonEmpty("CI", CIBlock)], Interleave(tail, TailFields);
    ExecuteInterleave(head, HeadFields, ctx);
    assert Lookup(HeadFields, ctx) == [p.name];
    ExecuteInterleave(tail, TailFields, ctx);
    assert Lookup(TailFields, ctx) == [p.name, p.name, p.name, p.name, p.name, p.name, p.name, p.name, p.name, p.name, p.name];
    ExecuteEmptyCondition("CI", CIBlock, ctx);
    assert Execute(before + block, ctx) == Success(h) by {
      ExecuteAppend(before, block, ctx);
      assert h + "" == h;
    }
    ExecuteAppend(before + block, after, ctx);
  }

  /** Rendering never fails; the CI block emits nothing. */
  lemma Rendered(p: Project)
    ensures Execute(Template, Values(p)) == Success(Text(p.name))
  {
    RenderedFrom(HeadPieces, TailPieces, p);
  }

  /** Two projects with the same name get the same file, whatever their profiles. */
  lemma DependsOnNameOnly(p1: Project, p2: Project)
    requires p1.name == p2.name
    ensures Execute(Template, Values(p1)) == Execute(Template, Values(p2))
  {
    Rendered(p1);
    Rendered(p2);
  }
}
