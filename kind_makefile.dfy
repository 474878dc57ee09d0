/**
 * The `makefile` file kind (internal/templates/makefile.go): the project's `Makefile`.
 */
module MakefileKind {
  import opened Wrappers
  import opened Render
  import opened Config
  import opened Projects

  const Identifier := "makefile"
  const Filename := "Makefile"
  const Directory := "."

  /** The Makefile up to the name of the per-package coverage profile. */
  const Head :=
    "#\n" +
    "# Some copyright\n" +
    "#\n" +
    "\n" +
    "# Target main files\n" +
    "TARGETS  := \"\"\n" +
    "\n" +
    "# Project path and name\n" +
    "PROJECT_REPO := $(shell go list -m)\n" +
    "PROJECT_NAME := $(shell basename $(PROJECT_REPO))\n" +
    "BINARY  :=  $(PROJECT_NAME)\n" +
    "\n" +
    "# Get the list of packages in the project\n" +
    "PACKAGES    := $(shell go list ./...)\n" +
    "\n" +
    "# Use git tags to set version, and commit hash to identify the build\n" +
    "VERSION             := $(shell git describe --tags --always --dirty)\n" +
    "COMMIT              := $(shell git rev-parse HEAD)\n" +
    "DATE                := $(shell date +'%F_%T:%N')\n" +
    "\n" +
    "# Go compiler flags\n" +
    "# these are the global variables' names inside the program code source\n" +
    "SYMBOL_NAME_VERSION := \"version\"\n" +
    "SYMBOL_NAME_COMMIT  := \"commit\"\n" +
    "SYMBOL_NAME_DATE    := \"date\"\n" +
    "\n" +
    "SYMBOLS             =$(shell (go tool nm \"$(BUILD_DIR)/$(OS)_$(ARCH)/$(BINARY)\" | grep \"$(BINARY)\" | grep \" D \" | cut -d ' ' -f5))\n" +
    "SYMBOL_PATH_VERSION =$(shell (echo $(SYMBOLS) | tr \" \" \"\\n\" | grep \"\\.$(SYMBOL_NAME_VERSION)$$\"))\n" +
    "SYMBOL_PATH_COMMIT  =$(shell (echo $(SYMBOLS) | tr \" \" \"\\n\" | grep \"\\.$(SYMBOL_NAME_COMMIT)$$\"))\n" +
    "SYMBOL_PATH_DATE    =$(shell (echo $(SYMBOLS) | tr \" \" \"\\n\" | grep \"\\.$(SYMBOL_NAME_DATE)$$\"))\n" +
    "LD_BIN_INFO         = -X \"'$(SYMBOL_PATH_VERSION)=$(VERSION)'\" -X \"'$(SYMBOL_PATH_COMMIT)=$(COMMIT)'\" -X \"'$(SYMBOL_PATH_DATE)=$(DATE)'\"\n" +
    "LD_STATIC           := -extldflags \"-static\" -installsuffix \"-static\"\n" +
    "LD_LIGHT            := -s -w\n" +
    "#LD_NO_UNSAFE_PKG    := -u\n" +
    "LD_ALL_FLAGS        = $(LD_BIN_INFO) $(LD_STATIC) $(LD_LIGHT)\n" +
    "\n" +
    "# Go env vars\n" +
    "OS          := $(if $(GOOS),$(GOOS),$(shell go env GOOS))\n" +
    "ARCH        := $(if $(GOARCH),$(GOARCH),$(shell go env GOARCH))\n" +
    "PLATFORMS   := linux_amd64 linux_arm64\n" +
    "\n" +
    "# Directories for builds and tests\n" +
    "BUILD_DIR   := bin\n" +
    "COVERAGE    := coverage\n" +
    "\n" +
    "# Security profiles\n" +
    "SECCOMP     := $(BUILD_DIR)/$(BINARY).seccomp\n" +
    "\n" +
    "# Make flags\n" +
    "MAKEFLAGS += --warn-undefined-variables\n" +
    "SHELL := bash\n" +
    ".SHELLFLAGS := -eu -o pipefail -c\n" +
    ".DEFAULT_GOAL := all\n" +
    ".DELETE_ON_ERROR:\n" +
    ".SUFFIXES:\n" +
    "\n" +
    "#\n" +
    "#   Commands\n" +
    "#\n" +
    "\n" +
    "all:\n" +
    "\n" +
    "# Install tools and check environment\n" +
    "\n" +
    ".PHONY: prepare-lint\n" +
    "prepare-lint:\n" +
    "\t@echo \"Installing golangci-lint ...\"\n" +
    "\t@curl -sSfL https://raw.githubusercontent.com/golangci/golangci-lint/master/install.sh | sh -s -- -b $(GOPATH)/bin latest\n" +
    "\n" +
    ".PHONY: prepare-python3\n" +
    "prepare-python3:\n" +
    "\t@echo \"Installing python3  ...\"\n" +
    "\t@sudo apt-get -y install python3.5 python3-pip python3-dev python3-setuptools\n" +
    "\n" +
    ".PHONY: prepare-pre-commit\n" +
    "prepare-pre-commit: prepare-lint\n" +
    "\t@echo \"Installing pre-commit ...\"\n" +
    "\t@pip3 install --upgrade pip\n" +
    "\t@pip3 install pre-commit\n" +
    "\t@pre-commit install\n" +
    "\n" +
    ".PHONY: prepare-tests\n" +
    "prepare-tests:\n" +
    "\t@echo \"Installing libs for tests ...\"\n" +
    "\t@go get -u github.com/onsi/ginkgo/ginkgo\n" +
    "\t@go get -u github.com/onsi/gomega/...\n" +
    "\n" +
    "GINKGO ?= $(GOBIN)/ginkgo\n" +
    "\n" +
    "# Create directories\n" +
    ".PHONY: dirs\n" +
    "dirs:\n" +
    "\t@echo \"Creating dirs ...\"\n" +
    "\t@mkdir -v -p $@\n" +
    "\n" +
    ".PHONY: values\n" +
    "values:\n" +
    "\t@echo \"Values\"\n" +
    "\t@echo \"PROJECT_REPO :\" $(PROJECT_REPO)\n" +
    "\t@echo \"PROJECT_NAME :\" $(PROJECT_NAME)\n" +
    "\t@echo \"BINARY :\" $(BINARY)\n" +
    "\t@echo \"PACKAGES :\" $(PACKAGES)\n" +
    "\t@echo \"VERSION :\" $(VERSION)\n" +
    "\t@echo \"COMMIT :\" $(COMMIT)\n" +
    "\t@echo \"DATE :\" $(DATE)\n" +
    "\t@echo \"SYMBOL_NAME_VERSION :\" $(SYMBOL_NAME_VERSION)\n" +
    "\t@echo \"SYMBOL_NAME_COMMIT :\" $(SYMBOL_NAME_COMMIT)\n" +
    "\t@echo \"SYMBOL_NAME_DATE :\" $(SYMBOL_NAME_DATE)\n" +
    "\t@echo \"SYMBOLS :\" $(SYMBOLS)\n" +
    "\t@echo \"SYMBOL_PATH_VERSION :\" $(SYMBOL_PATH_VERSION)\n" +
    "\t@echo \"SYMBOL_PATH_COMMIT :\" $(SYMBOL_PATH_COMMIT)\n" +
    "\t@echo \"SYMBOL_PATH_DATE :\" $(SYMBOL_PATH_DATE)\n" +
    "\t@echo \"LD_BIN_INFO :\" $(LD_BIN_INFO)\n" +
    "\t@echo \"LD_STATIC :\" $(LD_STATIC)\n" +
    "\t@echo \"LD_LIGHT :\" $(LD_LIGHT)\n" +
    "\t@echo \"LD_ALL_FLAGS :\" $(LD_ALL_FLAGS)\n" +
    "\t@echo \"OS :\" $(OS)\n" +
    "\t@echo \"ARCH :\" $(ARCH)\n" +
    "\t@echo \"PLATFORMS :\" $(PLATFORMS)\n" +
    "\t@echo \"BUILD_DIR :\" $(BUILD_DIR)\n" +
    "\t@echo \"COVERAGE :\" $(COVERAGE)\n" +
    "\t@echo \"SECCOMP :\" $(SECCOMP)\n" +
    "\n" +
    ".PHONY: fmt\n" +
    "fmt:\n" +
    "\t@echo \"Formatting ...\"\n" +
    "\t@go fmt ./...\n" +
    "\n" +
    ".PHONY: lint\n" +
    "lint: fmt\n" +
    "\t@echo \"Linting and security ...\"\n" +
    "\t@go vet ./...\n" +
    "\t@golangci-lint run --fix ./...\n" +
    "\n" +
    ".PHONY: pre-commit\n" +
    "pre-commit:\n" +
    "\t@echo \"Extensive checking with pre-commit ...\"\n" +
    "\t@pre-commit run --all-files\n" +
    "\n" +
    "# Build a first time to read symbol location, then a 2nd time with loading LD FLAGS\n" +
    ".PHONY: pre-build\n" +
    "pre-build: dirs\n" +
    "\t@echo \"Vanilla build of $(BINARY) in $(BUILD_DIR)/$(OS)_$(ARCH)\"\n" +
    "\t@go build -v \\\n" +
    "\t    -o $(BUILD_DIR)/$(OS)_$(ARCH)/$(BINARY) \\\n" +
    "\t    $(TARGETS)\n" +
    "\n" +
    ".PHONY: build\n" +
    "build: lint pre-build\n" +
    "\t@echo \"Fetching symbols and Building $(BINARY) in $(BUILD_DIR)/$(OS)_$(ARCH) with flags\"\n" +
    "\t@go build -v \\\n" +
    "\t    -ldflags '$(LD_ALL_FLAGS)' \\\n" +
    "\t    -o $(BUILD_DIR)/$(OS)_$(ARCH)/$(BINARY) \\\n" +
    "\t    $(TARGETS)\n" +
    "\n" +
    ".PHONY: install\n" +
    "install: lint\n" +
    "\t@echo \"Installing $(BINARY) in $(BUILD_DIR)/$(OS)_$(ARCH)\"\"\n" +
    "\t@go install -v \\\n" +
    "\t    -ldflags $(LD_ALL_FLAGS) \\\n" +
    "\t    -o $(BUILD_DIR)/$(OS)_$(ARCH)/$(BINARY) \\\n" +
    "\t    $(TARGETS)\n" +
    "\n" +
    ".PHONY: uninstall\n" +
    "uninstall:\n" +
    "\t@echo \"Uninstall $(TARGETS) ... TODO.\"\n" +
    "\n" +
    ".PHONY: cover\n" +
    "cover:\n" +
    "\t@echo \"Coverage ...\"\n" +
    "\t@for PACK in $(PACKAGES); do \\\n" +
    "\t\techo \"Testing $(PACK)\" \\\n" +
    "\t\tgo test -v -i -race -covermode=atomic \\\n" +
    "\t\t    -coverpkg=$(PACKAGES) \\\n" +
    "\t\t    -coverprofile=$(COVERAGE)/"

  /** The Makefile after the name of the per-package coverage profile. */
  const Tail :=
    "\n" +
    "\n" +
    ".PHONY: test\n" +
    "test:\n" +
    "\t@echo \"Testing ... TODO.\"\n" +
    "#@$(GINKGO) -r -v\n" +
    "\n" +
    ".PHONY: release\n" +
    "release: lint\n" +
    "\t@echo \"Releasing\"\n" +
    "\tgoreleaser release\n" +
    "\n" +
    ".PHONY: version\n" +
    "version:\n" +
    "\t@echo $(VERSION) - $(COMMIT)\n" +
    "\n" +
    ".PHONY: clean\n" +
    "clean:\n" +
    "\trm -rf $(BUILD_DIR) $(COVERAGE)\n" +
    "\n" +
    "#\n" +
    "#   Docker\n" +
    "#\n" +
    "\n" +
    "# Docker run arguments\n" +
    "DOCKER_GO_COMPILER_ENV  := GOOS=linux GOARCH=amd64 CGO_ENABLED=0\n" +
    "DOCKER_NO_NETWORK       := --net=none      # disable network access\n" +
    "DOCKER_DROP_CAP         := --cap-drop=all  # drop all process capabilities\n" +
    "DOCKER_ATTACH_STD       := --attach=STDIN --attach=STDOUT --attach=STDERR\n" +
    "DOCKER_RO               := --read-only     # make the root file system read-only\n" +
    "DOCKER_NO_PRIV          := --security-opt=\"no-new-privileges\"\n" +
    "DOCKER_SECC_PROFILE     := --security-opt=\"seccomp=$seccomp\"\n" +
    "DOCKER_LOCKDOWN         := $(DOCKER_NO_NETWORK) $(DOCKER_DROP_CAP) $(DOCKER_RO)\n" +
    "DOCKER_SHARE_FS         := --mount type=bind,source=\"$file\",target=/\"$base\",readonly\n" +
    "\n" +
    ".PHONY: build-docker\n" +
    "build-docker:\n" +
    "    # Build seccomp profile\n" +
    "    #@go2seccomp $(BINARY) $(SECCOMP)\n" +
    "    # Build binary\n" +
    "\t@$(DOCKER_GO_COMPILER_ENV) \\\n" +
    "\t go build -a -msan -u \\\n" +
    "\t    --tags netgo \\\n" +
    "\t    -ldflags $(LD_ALL_FLAGS) \\\n" +
    "\t    -o $(BINARY) \\\n" +
    "\t    $(TARGETS)\n" +
    "\n" +
    ".PHONY: docker-run\n" +
    "docker-run:\n" +
    "\t@docker run \\\n" +
    "\t    $(DOCKER_LOCKDOWN) \\\n" +
    "\t    --rm -i\n" +
    "\n"

  /** The shell command whose output names each package's coverage profile. */
  const CoverCommand := "echo $$PACK | tr \"/\" \"_\""

  /**
   * The coverage profile's name as the source assembles it: the closing
   * backquote of the command substitution is there, the opening one is not.
   */
  const CoverFileAsWritten := "unit-" + CoverCommand + "`" + ".out"

  /** The evidently intended name: the command's output between `unit-` and `.out`. */
  const CoverFile := "unit-`" + CoverCommand + "`.out"

  /** The Makefile as the source's template text spells it: the text the program writes. */
  const Text := Head + CoverFileAsWritten + Tail

  /** The Makefile with the command substitution balanced, as evidently intended. */
  const TextCorrected := Head + CoverFile + Tail

  /** The template: plain text, without a single action. */
  const Template: Render.Template := [Lit(Text)]

  /** The values the template is given: none, whatever the project. */
  function Values(p: Project): Context
  {
    map[]
  }

  /** The file is the template's text verbatim, the same for every project. */
  lemma Rendered(p: Project)
    ensures Execute(Template, Values(p)) == Success(Text)
  {
    assert Template[1..] == [];
    assert Text + "" == Text;
  }

  /** How many backquotes a text holds. */
  function Backquotes(s: string): nat
  {
    if s == [] then 0 else (if s[0] == '`' then 1 else 0) + Backquotes(s[1..])
  }

  lemma {:induction false} BackquotesAppend(a: string, b: string)
    ensures Backquotes(a + b) == Backquotes(a) + Backquotes(b)
  {
    if a != [] {
      assert (a + b)[1..] == a[1..] + b;
      BackquotesAppend(a[1..], b);
    } else {
      assert a + b == b;
    }
  }

  lemma {:induction false} NoBackquotes(s: string)
    requires '`' !in s
    ensures Backquotes(s) == 0
  {
    if s != [] {
      assert s[0] in s;
      assert forall c :: c in s[1..] ==> c in s;
      NoBackquotes(s[1..]);
    }
  }

  /** The command itself holds no backquote. */
  lemma CommandHasNoBackquote()
    ensures '`' !in CoverCommand
  {
  }

  /** A name `unit-` + cmd + closing backquote + `.out` holds one backquote; with both backquotes, two. */
  lemma CountAround(cmd: string)
    requires '`' !in cmd
    ensures Backquotes("unit-" + cmd + "`" + ".out") == 1
    ensures Backquotes("unit-`" + cmd + "`.out") == 2
  {
    NoBackquotes(cmd);
    NoBackquotes("unit-");
    NoBackquotes(".out");
    assert Backquotes("`") == 1 by {
      assert "`"[1..] == [];
    }
    BackquotesAppend("unit-", cmd);
    BackquotesAppend("unit-" + cmd, "`");
    BackquotesAppend("unit-" + cmd + "`", ".out");
    assert "unit-`" == "unit-" + "`";
    assert "`.out" == "`" + ".out";
    BackquotesAppend("unit-", "`");
    BackquotesAppend("`", ".out");
    BackquotesAppend("unit-`", cmd);
    BackquotesAppend("unit-`" + cmd, "`.out");
  }

  /**
   * As the source spells it, the coverage profile's name holds a single
   * backquote: the shell reads an unterminated command substitution.
   */
  lemma CoverFileAsWrittenUnbalanced()
    ensures Backquotes(CoverFileAsWritten) == 1
  {
    CommandHasNoBackquote();
    CountAround(CoverCommand);
  }

  /** The intended name opens and closes the command substitution: two backquotes around the command. */
  lemma CoverFileBalanced()
    ensures Backquotes(CoverFile) == 2
  {
    CommandHasNoBackquote();
    CountAround(CoverCommand);
  }
}
