/** The `kam` command catalogue: the fixed command table and the lookup
    helpers the front end uses to list, search and open commands. */
module Kam {
  import opened Wrappers
  import opened Text

  /** One command-line flag of a command, with an optional explanation. */
  datatype Flag = Flag(flag: string, description: Option<string>)

  /** One catalogue entry; every field but the name and the summary is optional. */
  datatype Command = Command(
    name: string,
    summary: string,
    description: Option<string>,
    usage: Option<string>,
    flags: Option<seq<Flag>>,
    examples: Option<seq<string>>)

  /** The optional fields of one entry. */
  datatype Details = Details(
    description: Option<string>,
    usage: Option<string>,
    flags: Option<seq<Flag>>,
    examples: Option<seq<string>>)

  /** `KAM_COMMANDS`, the authoritative table of the sixteen `kam` commands, in
      order. The table is stored column by column (names, summaries, the other
      fields) and assembled entry by entry on demand, so that a proof about the
      names never has to unfold the long texts. */
  function Commands(): seq<Command> {
    seq(16, i requires 0 <= i < 16 => Entry(i))
  }

  /** The `i`-th entry of the table. */
  function Entry(i: nat): Command
    requires i < 16
  {
    var d := DetailsOf(i);
    Command(TableNames()[i], Summary(i), d.description, d.usage, d.flags, d.examples)
  }

  /** The names, in table order. */
  function TableNames(): seq<string> {
    ["init", "build", "version", "cache", "tmpl", "validate", "completions", "secret",
     "sign", "verify", "check", "export", "toml", "config", "about", "help"]
  }

  /** The one-line summaries, in table order. */
  function Summary(i: nat): string
    requires i < 16
  {
    match i
    case 0 => // init
      "Initialize a new Kam project from "
      + "templates (supports meta and kernel "
      + "templates)"
    case 1 => // build
      "Build and package a module into a "
      + "deployable ZIP artifact"
    case 2 => // version
      "Manage module versions and bump policies"
    case 3 => // cache
      "Manage local template and artifact cache"
    case 4 => // tmpl
      "Manage templates: import, export, "
      + "package, and list"
    case 5 => // validate
      "Validate `kam.toml` configuration and "
      + "templates"
    case 6 => // completions
      "Generate shell completion scripts for "
      + "common shells"
    case 7 => // secret
      "Secret keyring management (used by "
      + "sign/verify tasks)"
    case 8 => // sign
      "Sign an artifact using a key from the "
      + "keyring or a PEM file"
    case 9 => // verify
      "Verify an artifact signature (.sig) or a "
      + "sigstore bundle (DSSE)"
    case 10 => // check
      "Check project JSON/YAML/Markdown files "
      + "(lint/format/parse)"
    case 11 => // export
      "Export `kam.toml` to `module.prop`, "
      + "`module.json`, `repo.json`, "
      + "`track.json`, `config.json`, or "
      + "`update.json`"
    case 12 => // toml
      "Inspect and edit `kam.toml` using "
      + "dot-path keys (get/set/unset/list)"
    case 13 => // config
      "Manage per-project or global kam "
      + "configuration (similar to git config)"
    case 14 => // about
      "Display about information for Kam and "
      + "credits"
    case _ => // help
      "Print this message or the help of the "
      + "given subcommand(s)"
  }

  /** The remaining fields of each entry, in table order. */
  function DetailsOf(i: nat): Details
    requires i < 16
  {
    match i
    case 0 => // init, src/data/kam.ts:67
      Details(
        description := Some("Create a new Kam module or project from "
            + "predefined templates. Templates may "
            + "include meta templates and kernel "
            + "templates that bootstrap a module with "
            + "opinionated configuration and layout."),
        usage := Some("kam init [OPTIONS] [PATH]"),
        flags := Some([
          Flag("-i, --interactive", Some("Run the init interactively; prompt for "
              + "required values")),
          Flag("-f, --force", Some("Force creation and overwrite existing "
              + "files")),
          Flag("-t, --template <TEMPLATE>", Some("Specify template to use (alias: --tmpl)")),
          Flag("--id <ID>", Some("Override generated module id")),
          Flag("--project-name <PROJECT_NAME>", Some("Set the project display name")),
          Flag("--version <VERSION>", Some("Set initial module version")),
          Flag("--author <AUTHOR>", Some("Set author/maintainer name")),
          Flag("--update-json <UPDATE_JSON>", Some("Provide update.json metadata")),
          Flag("--description <DESCRIPTION>", Some("Short module description")),
          Flag("--var <VAR>", Some("Provide a template variable (format: "
              + "key=value). Can be repeated")),
          Flag("--tmpl", Some("Legacy alias for --template (preserved "
              + "for compatibility)")),
          Flag("-h, --help", Some("Print help for init"))
        ]),
        examples := Some([
          "kam init --template kernel/basic",
          "kam init --project-name \"My Module\" "
            + "--author \"Alice\" ./my-module",
          "kam init --var maintainer=alice --var "
            + "license=MIT kernel/basic"
        ]))
    case 1 => // build, src/data/kam.ts:124
      Details(
        description := Some("Compiles and packages a module into a "
            + "ZIP artifact suitable for distribution "
            + "and deployment. The exact build process "
            + "depends on the module configuration and "
            + "included build scripts."),
        usage := Some("kam build [OPTIONS] [PATH]"),
        flags := Some([
          Flag("-a, --all", Some("Build all workspace members")),
          Flag("-o, --output <OUTPUT>", Some("Output directory (default: dist)")),
          Flag("-b, --bump", Some("Enable version bump behaviour "
              + "(KAM_BUMP_ENABLED=1)")),
          Flag("-r, --release", Some("Enable release build behavior "
              + "(KAM_RELEASE_ENABLED=1)")),
          Flag("-s, --sign", Some("Sign artifacts after building "
              + "(KAM_SIGN_ENABLE=1)")),
          Flag("-i, --interactive", Some("Run build interactively; ask for "
              + "confirmations")),
          Flag("-P, --pre-release", Some("Mark this as a pre-release build "
              + "(KAM_PRE_RELEASE=1)")),
          Flag("-q, --quiet", Some("Suppress most output; only warnings and "
              + "errors are printed")),
          Flag("-j, --jobs <JOBS>", Some("Number of parallel jobs (default: CPU "
              + "cores)")),
          Flag("-h, --help", Some("Print help for build"))
        ]),
        examples := Some([
          "kam build",
          "kam build -o out/ -r -s --jobs 4",
          "kam build ./path/to/project"
        ]))
    case 2 => // version, src/data/kam.ts:174
      Details(
        description := Some("Manage or inspect the module's version. "
            + "Provide a version to set it, or run "
            + "without arguments to display the current "
            + "version. Some projects may provide "
            + "additional subcommands for advanced "
            + "bump/list operations."),
        usage := Some("kam version [VERSION]"),
        flags := Some([
          Flag("-h, --help", Some("Print help for version"))
        ]),
        examples := Some([
          "kam version",
          "kam version 1.2.0"
        ]))
    case 3 => // cache, src/data/kam.ts:184
      Details(
        description := Some("Controls the local cache used by Kam for "
            + "templates and artifacts. Subcommands "
            + "include `list`, `clean`, `add`, "
            + "`remove`, and `path` for inspecting or "
            + "manipulating template cache entries."),
        usage := Some("kam cache <COMMAND> [OPTIONS]"),
        flags := None,
        examples := Some([
          "kam cache list",
          "kam cache clean",
          "kam cache add mytmpl /path/to/template"
        ]))
    case 4 => // tmpl, src/data/kam.ts:197
      Details(
        description := Some("Template management utilities. This "
            + "includes importing templates into your "
            + "local cache, exporting or packaging "
            + "templates as distributable artifacts, "
            + "listing available templates, and "
            + "fetching templates from remote sources "
            + "(pull/update)."),
        usage := Some("kam tmpl <COMMAND> [OPTIONS] [ARGS]"),
        flags := Some([
          Flag("-n, --name <NAME>", Some("Specify a name when importing a template")),
          Flag("-f, --force", Some("Force overwrite when importing or "
              + "exporting")),
          Flag("-o, --output <OUTPUT>", Some("Output path for export commands")),
          Flag("--global", Some("Some tmpl subcommands accept --global "
              + "for consistency (may be no-op)")),
          Flag("-h, --help", Some("Print help for tmpl or a subcommand"))
        ]),
        examples := Some([
          "kam tmpl list",
          "kam tmpl import templates.tar.gz -n "
            + "mytmpl",
          "kam tmpl export -o templates.zip "
            + "kernel/basic"
        ]))
    case 5 => // validate, src/data/kam.ts:233
      Details(
        description := Some("Checks your project configuration "
            + "(kam.toml) and templates for syntax, "
            + "required fields, and other consistency "
            + "validations. Defaults to the current "
            + "directory if no PATH is provided."),
        usage := Some("kam validate [PATH]"),
        flags := Some([
          Flag("-h, --help", Some("Print help for validate"))
        ]),
        examples := Some([
          "kam validate",
          "kam validate ./my-module"
        ]))
    case 6 => // completions, src/data/kam.ts:243
      Details(
        description := Some("Generate shell completion scripts that "
            + "help with tab-completion for `kam` "
            + "commands on supported shells (bash, zsh, "
            + "fish, powershell, elvish). If --out is "
            + "omitted, the completion script is "
            + "printed to STDOUT."),
        usage := Some("kam completions [OPTIONS] <SHELL>"),
        flags := Some([
          Flag("-o, --out <OUT>", Some("Write completion script to file (else "
              + "prints to stdout)")),
          Flag("--install", Some("Install the completion script into the "
              + "standard shell completion directory (may "
              + "require root)")),
          Flag("-h, --help", Some("Print help for completions"))
        ]),
        examples := Some([
          "kam completions zsh --out "
            + "~/.zsh/completion/_kam",
          "kam completions zsh --install",
          "kam completions bash"
        ]))
    case 7 => // secret, src/data/kam.ts:268
      Details(
        description := Some("Manage secrets (keys) stored locally for "
            + "signing and cryptographic operations. "
            + "Subcommands include `list`, `add`, "
            + "`get`, `remove`, `export`, `import`, "
            + "`export-pub`, `import-cert`, and `trust` "
            + "for working with keys, certs, and "
            + "trusted Root CAs."),
        usage := Some("kam secret <COMMAND> [OPTIONS] [ARGS]"),
        flags := Some([
          Flag("-f, --file <FILE>", Some("Read secret data from a file (for "
              + "add/import)")),
          Flag("-v, --value <VALUE>", Some("Provide secret value directly on the "
              + "command line (use with care)")),
          Flag("-o, --out <OUT>", Some("Write output to a file instead of stdout "
              + "(used by get/export-pub)")),
          Flag("--encrypted", Some("Export secret as encrypted blob (for "
              + "export)")),
          Flag("--name <NAME>", Some("Name to use when importing certificates "
              + "or secrets")),
          Flag("-h, --help", Some("Print help for secret or subcommands"))
        ]),
        examples := Some([
          "kam secret list",
          "kam secret add mykey --file "
            + "./private.pem",
          "kam secret get mykey --out ./key.pem",
          "kam secret export mykey ./mykey.pem "
            + "--encrypted"
        ]))
    case 8 => // sign, src/data/kam.ts:310
      Details(
        description := Some("Creates a cryptographic signature for an "
            + "artifact (e.g., the packaged ZIP) using "
            + "a key from your secret keyring or a "
            + "provided PEM/Key file. Can sign a single "
            + "file or multiple artifacts in a dist "
            + "directory."),
        usage := Some("kam sign [OPTIONS] [SRC]"),
        flags := Some([
          Flag("--secret <SECRET>", Some("Secret name in keyring with the private "
              + "key (default: main)")),
          Flag("--out <OUT>", Some("Output directory for signatures "
              + "(default: dist)")),
          Flag("--dist <DIR>", Some("Sign all artifacts in the given "
              + "directory")),
          Flag("--all", Some("Sign all artifacts inside dist (alias "
              + "for --dist <dir>)")),
          Flag("--cert <CERT>", Some("Include certificate PEM chain in "
              + "signature metadata")),
          Flag("--key-path <KEY_PATH>", Some("Use a private key PEM file instead of a "
              + "keyring secret")),
          Flag("-h, --help", Some("Print help for sign"))
        ]),
        examples := Some([
          "kam sign module.zip",
          "kam sign --dist dist --out signed-dist",
          "kam sign --key-path ./private.pem "
            + "module.zip"
        ]))
    case 9 => // verify, src/data/kam.ts:351
      Details(
        description := Some("Verify that an artifact\U{E2}\U{20AC}\U{2122}s signature is "
            + "valid and matches a trusted identity or "
            + "key. Supports .sig signatures and "
            + "sigstore DSSE bundles and offers several "
            + "options to specify verification "
            + "materials."),
        usage := Some("kam verify [OPTIONS] [SRC]"),
        flags := Some([
          Flag("--sig <SIG>", Some("Path to a signature file (defaults to "
              + "<src>.sig)")),
          Flag("--bundle <BUNDLE>", Some("Path to a sigstore JSON bundle "
              + "containing DSSE envelope and certs")),
          Flag("--cert <CERT>", Some("Optional certificate PEM to use for "
              + "verification")),
          Flag("--root <ROOT>", Some("Trust anchor root CA PEM for verifying "
              + "certificate chains")),
          Flag("--secret <SECRET>", Some("Secret name to derive a public key for "
              + "verification (default: main)")),
          Flag("--key <KEY>", Some("Path to public key PEM to use for "
              + "verification")),
          Flag("--cert-name <CERT_NAME>", Some("Use a cached developer certificate by "
              + "name")),
          Flag("--cert-chain <CERT_CHAIN>", Some("Path to certificate chain PEM file")),
          Flag("--skip-crl", Some("Skip CRL (certificate revocation list) "
              + "checks")),
          Flag("-v, --verbose", Some("Show verbose verification steps")),
          Flag("-h, --help", Some("Print help for verify"))
        ]),
        examples := Some([
          "kam verify module.zip --sig "
            + "module.zip.sig",
          "kam verify module.zip --bundle "
            + "module.sigstore.json",
          "kam verify module.zip --key ./pub.pem"
        ]))
    case 10 => // check, src/data/kam.ts:407
      Details(
        description := Some("Static checking utilities for files in "
            + "the project, including linting, "
            + "formatting, and parsing validations. "
            + "Useful in CI and local development."),
        usage := Some("kam check [OPTIONS] [PATH]"),
        flags := Some([
          Flag("--json", Some("Output results as JSON")),
          Flag("--fix", Some("Attempt to automatically fix/format "
              + "files")),
          Flag("-h, --help", Some("Print help for check"))
        ]),
        examples := Some([
          "kam check",
          "kam check --fix",
          "kam check --json"
        ]))
    case 11 => // export, src/data/kam.ts:424
      Details(
        description := Some("Export module metadata defined in "
            + "kam.toml to one of the supported "
            + "artifact formats. FORMAT values include: "
            + "prop, json, repo, track, config, update. "
            + "OUTPUT is optional and defaults to a "
            + "sensible filename in the current "
            + "directory."),
        usage := Some("kam export [FORMAT] [OUTPUT]"),
        flags := Some([
          Flag("-h, --help", Some("Print help for export"))
        ]),
        examples := Some([
          "kam export json module.json",
          "kam export prop"
        ]))
    case 12 => // toml, src/data/kam.ts:435
      Details(
        description := Some("Utility to inspect and edit the kam.toml "
            + "configuration file programmatically. "
            + "Supports `get`, `set`, `unset`, `list` "
            + "subcommands and accepts a `--file` "
            + "option to operate on a specific file."),
        usage := Some("kam toml [OPTIONS] <COMMAND> [ARGS]"),
        flags := Some([
          Flag("--file <FILE>", Some("Operate on a specific kam.toml file "
              + "instead of the project file")),
          Flag("-h, --help", Some("Print help for toml or its subcommands"))
        ]),
        examples := Some([
          "kam toml get prop.name",
          "kam toml set prop.name \"Value\"",
          "kam toml set prop.name=value",
          "kam toml list"
        ]))
    case 13 => // config, src/data/kam.ts:461
      Details(
        description := Some("Manage configuration values for Kam "
            + "either per-project (local) or globally. "
            + "Subcommands include `get`, `set`, "
            + "`unset`, `list`, and `show`. Use "
            + "`--global` to operate on the global "
            + "config or `--local` to force the local "
            + "file."),
        usage := Some("kam config [OPTIONS] <COMMAND> [ARGS]"),
        flags := Some([
          Flag("--global", Some("Use the global configuration file "
              + "(~/.kam/config.toml)")),
          Flag("--local", Some("Force use of the local project "
              + "configuration file")),
          Flag("-h, --help", Some("Print help for config or its subcommands"))
        ]),
        examples := Some([
          "kam config get default.author",
          "kam config set --global default.author "
            + "\"Alice\"",
          "kam config show"
        ]))
    case 14 => // about, src/data/kam.ts:489
      Details(
        description := Some("Show information about Kam, project "
            + "credits, and licensing details."),
        usage := Some("kam about"),
        flags := None,
        examples := None)
    case _ => // help, src/data/kam.ts:497
      Details(
        description := Some("Show help text for the general `kam` "
            + "tool or for a specific subcommand. This "
            + "is the canonical way to learn more about "
            + "usage when working with the CLI."),
        usage := Some("kam help [COMMAND]"),
        flags := None,
        examples := Some([
          "kam help build",
          "kam build --help"
        ]))
  }

  lemma TableNamesAgree()
    ensures |Commands()| == |TableNames()| == 16
    ensures forall i :: 0 <= i < 16 ==> Commands()[i].name == TableNames()[i]
  {
  }

  /** Every entry has a non-empty name and a non-empty summary. */
  lemma TableEntriesComplete()
    ensures forall i :: 0 <= i < |Commands()| ==> Commands()[i].name != [] && Commands()[i].summary != []
  {
    TableNamesAgree();
    TableNamesAreLowerWords();
    SummariesNonEmpty();
  }

  lemma SummariesNonEmpty()
    ensures forall i :: 0 <= i < 16 ==> Summary(i) != []
  {
    forall i | 0 <= i < 16 ensures Summary(i) != [] {
      SummaryNonEmpty(i / 2 * 2, i);
    }
  }

  /** One pair of summaries at a time: `from` picks the even index the pair
      starts at, so each call of this lemma unfolds `Summary` for only two
      literal cases instead of all sixteen. */
  lemma SummaryNonEmpty(from: nat, i: nat)
    requires from % 2 == 0 && from <= i < from + 2 && i < 16
    ensures Summary(i) != []
  {
  }


  // ---------------------------------------------------------------------------
  // getAllCommands

  /** `getAllCommands()`: a fresh array holding the table's entries in order. */
  function GetAllCommands(): (r: seq<Command>)
    ensures |r| == |Commands()|
    ensures forall i :: 0 <= i < |r| ==> r[i] == Commands()[i]
  {
    Commands()[..]
  }

  // ---------------------------------------------------------------------------
  // getCommandByName

  /** The key a name is compared under: trimmed, then lower-cased. */
  function NameKey(name: string): string {
    ToLower(Trim(name))
  }

  /** `Array.prototype.find` with the test `c.name.toLowerCase() === key`:
      the first entry whose lower-cased name is `key`, if any. */
  function FindByKey(cmds: seq<Command>, key: string): (r: Option<Command>)
    ensures r.None? <==> forall i :: 0 <= i < |cmds| ==> ToLower(cmds[i].name) != key
    ensures r.Some? ==> exists i :: 0 <= i < |cmds| && cmds[i] == r.value && IsFirstWithKey(cmds, key, i)
  {
    if cmds == [] then None
    else if ToLower(cmds[0].name) == key then
      assert IsFirstWithKey(cmds, key, 0);
      Some(cmds[0])
    else
      var r := FindByKey(cmds[1..], key);
      if r.Some? then
        var i :| 0 <= i < |cmds[1..]| && cmds[1..][i] == r.value && IsFirstWithKey(cmds[1..], key, i);
        assert IsFirstWithKey(cmds, key, i + 1);
        r
      else r
  }

  /** Position `i` holds the first entry whose lower-cased name is `key`. */
  predicate IsFirstWithKey(cmds: seq<Command>, key: string, i: int) {
    && 0 <= i < |cmds|
    && ToLower(cmds[i].name) == key
    && forall j :: 0 <= j < i ==> ToLower(cmds[j].name) != key
  }

  /** The lookup returns exactly the first entry whose lower-cased name is the key. */
  lemma FindByKeyFindsFirst(cmds: seq<Command>, key: string, i: int)
    requires IsFirstWithKey(cmds, key, i)
    ensures FindByKey(cmds, key) == Some(cmds[i])
  {
    var r := FindByKey(cmds, key);
    var j :| 0 <= j < |cmds| && cmds[j] == r.value && IsFirstWithKey(cmds, key, j);
    assert j == i;
  }

  /** `getCommandByName(name)`: nothing exactly when no command's lower-cased
      name is the trimmed, lower-cased query; otherwise a table command whose
      lower-cased name is. */
  function GetCommandByName(name: string): (r: Option<Command>)
    ensures r.None? <==> forall i :: 0 <= i < |Commands()| ==> ToLower(Commands()[i].name) != NameKey(name)
    ensures r.Some? ==> exists i :: 0 <= i < |Commands()| && Commands()[i] == r.value && ToLower(r.value.name) == NameKey(name)
  {
    FindByKey(Commands(), NameKey(name))
  }

  /** Looking a command up ignores the case of the query. */
  lemma GetCommandByNameIgnoresCase(name: string)
    ensures GetCommandByName(ToLower(name)) == GetCommandByName(name)
  {
    TrimToLower(name);
    ToLowerIdempotent(Trim(name));
  }

  /** Looking a command up ignores white space around the query. */
  lemma GetCommandByNameIgnoresPadding(pre: string, name: string, post: string)
    requires AllSpace(pre) && AllSpace(post)
    ensures GetCommandByName(pre + name + post) == GetCommandByName(name)
  {
    TrimPadded(pre, name, post);
  }

  /** A word of lower-case ASCII letters. */
  predicate IsLowerWord(s: string) {
    s != [] && forall k :: 0 <= k < |s| ==> 'a' <= s[k] <= 'z'
  }

  /** A lower-case word is unchanged by lower-casing and by trimming. */
  lemma LowerWordIsKey(s: string)
    requires IsLowerWord(s)
    ensures ToLower(s) == s && Trim(s) == s && NameKey(s) == s
  {
    LowerWordTrimmed(s);
    var l := ToLower(s);
    assert forall k :: 0 <= k < |s| ==> l[k] == s[k];
  }

  lemma LowerWordTrimmed(s: string)
    requires IsLowerWord(s)
    ensures Trim(s) == s
  {
    assert !IsSpace(s[0]) && !IsSpace(s[|s| - 1]);
    assert TrimStart(s) == s;
    assert TrimEnd(s) == s;
  }

  lemma TableNamesAreLowerWords()
    ensures forall i :: 0 <= i < 16 ==> IsLowerWord(TableNames()[i])
  {
  }

  /** Each table name is its own key: it is trimmed and lower-case already. */
  lemma TableNamesAreKeys()
    ensures forall i :: 0 <= i < 16 ==> ToLower(TableNames()[i]) == TableNames()[i]
    ensures forall i :: 0 <= i < 16 ==> NameKey(TableNames()[i]) == TableNames()[i]
  {
    TableNamesAreLowerWords();
    forall i | 0 <= i < 16
      ensures ToLower(TableNames()[i]) == TableNames()[i] && NameKey(TableNames()[i]) == TableNames()[i]
    {
      LowerWordIsKey(TableNames()[i]);
    }
  }

  /** The sixteen names are pairwise distinct. */
  lemma TableNamesDistinct()
    ensures forall i, j :: 0 <= i < j < 16 ==> TableNames()[i] != TableNames()[j]
  {
  }

  /** Every entry is found by its own name: `getCommandByName(c.name)` is `c`. */
  lemma CommandNamesAreKeys()
    ensures forall i :: 0 <= i < |Commands()| ==> ToLower(Commands()[i].name) == Commands()[i].name
    ensures forall i, j :: 0 <= i < j < |Commands()| ==> Commands()[i].name != Commands()[j].name
  {
    TableNamesAgree();
    TableNamesAreKeys();
    TableNamesDistinct();
  }

  lemma DistinctKeysFound(cmds: seq<Command>, i: int)
    requires 0 <= i < |cmds|
    requires forall k :: 0 <= k < |cmds| ==> ToLower(cmds[k].name) == cmds[k].name
    requires forall k, l :: 0 <= k < l < |cmds| ==> cmds[k].name != cmds[l].name
    ensures FindByKey(cmds, cmds[i].name) == Some(cmds[i])
  {
    FindByKeyFindsFirst(cmds, cmds[i].name, i);
  }

  lemma GetCommandByNameFindsEveryEntry(i: int)
    requires 0 <= i < |Commands()|
    ensures GetCommandByName(Commands()[i].name) == Some(Commands()[i])
  {
    CommandNamesAreKeys();
    TableNamesAgree();
    TableNamesAreKeys();
    assert NameKey(Commands()[i].name) == Commands()[i].name;
    DistinctKeysFound(Commands(), i);
  }

  /** The main commands are all present. */
  lemma MainCommandsPresent()
    ensures forall n :: n in ["init", "build", "version", "tmpl", "export"] ==> GetCommandByName(n).Some?
  {
    TableNamesAgree();
    forall n | n in ["init", "build", "version", "tmpl", "export"]
      ensures GetCommandByName(n).Some?
    {
      assert n in TableNames();
      var k :| 0 <= k < 16 && TableNames()[k] == n;
      GetCommandByNameFindsEveryEntry(k);
    }
  }


  // ---------------------------------------------------------------------------
  // searchCommands

  /** The filter test of `searchCommands`: the lower-cased name, summary or
      description (empty when absent) contains `q`. */
  predicate MatchesQuery(c: Command, q: string) {
    || Contains(ToLower(c.name), q)
    || Contains(ToLower(c.summary), q)
    || Contains(ToLower(c.description.GetOr("")), q)
  }

  /** `Array.prototype.filter` with `MatchesQuery`. */
  function FilterMatching(cmds: seq<Command>, q: string): (r: seq<Command>)
    ensures |r| <= |cmds|
    ensures forall c :: c in r <==> c in cmds && MatchesQuery(c, q)
  {
    if cmds == [] then []
    else if MatchesQuery(cmds[0], q) then [cmds[0]] + FilterMatching(cmds[1..], q)
    else FilterMatching(cmds[1..], q)
  }

  /** Filtering keeps every matching entry as often as it occurs and drops
      every other one. */
  lemma {:induction false} FilterMatchingCounts(cmds: seq<Command>, q: string)
    ensures forall c :: multiset(FilterMatching(cmds, q))[c] == if MatchesQuery(c, q) then multiset(cmds)[c] else 0
  {
    if cmds != [] {
      FilterMatchingCounts(cmds[1..], q);
      assert cmds == [cmds[0]] + cmds[1..];
      assert multiset(cmds) == multiset{cmds[0]} + multiset(cmds[1..]);
      if MatchesQuery(cmds[0], q) {
        assert multiset(FilterMatching(cmds, q)) == multiset{cmds[0]} + multiset(FilterMatching(cmds[1..], q));
      }
    }
  }

  /** The normalised query: trimmed, then lower-cased. */
  function QueryKey(query: string): string {
    ToLower(Trim(query))
  }

  /** `searchCommands(query)`. */
  function SearchCommands(query: string): seq<Command> {
    var q := QueryKey(query);
    if q == [] then GetAllCommands() else FilterMatching(Commands(), q)
  }

  /** A blank query (empty or only white space) lists the whole table. */
  lemma SearchBlankListsAll(query: string)
    requires AllSpace(query)
    ensures SearchCommands(query) == Commands()
  {
    TrimPadded(query, [], []);
    assert query + [] + [] == query;
  }

  /** `a` is `b` with some entries left out: there is a strictly increasing
      choice of positions of `b` that spells `a`. */
  ghost predicate IsSubsequence<T>(a: seq<T>, b: seq<T>) {
    exists idx :: Embeds(idx, a, b)
  }

  ghost predicate Embeds<T>(idx: seq<int>, a: seq<T>, b: seq<T>) {
    && |idx| == |a|
    && (forall k :: 0 <= k < |idx| ==> 0 <= idx[k] < |b| && a[k] == b[idx[k]])
    && (forall k, l :: 0 <= k < l < |idx| ==> idx[k] < idx[l])
  }

  /** Positions shifted one place to the right. */
  function Shift(idx: seq<int>): (r: seq<int>)
    ensures |r| == |idx| && forall k :: 0 <= k < |idx| ==> r[k] == idx[k] + 1
  {
    seq(|idx|, k requires 0 <= k < |idx| => idx[k] + 1)
  }

  lemma EmbedsSkip<T>(idx: seq<int>, a: seq<T>, x: T, b: seq<T>)
    requires Embeds(idx, a, b)
    ensures Embeds(Shift(idx), a, [x] + b)
  {
  }

  lemma EmbedsKeep<T>(idx: seq<int>, a: seq<T>, x: T, b: seq<T>)
    requires Embeds(idx, a, b)
    ensures Embeds([0] + Shift(idx), [x] + a, [x] + b)
  {
  }

  /** Filtering keeps the survivors in their original order. */
  lemma {:induction false} FilterIsSubsequence(cmds: seq<Command>, q: string)
    ensures IsSubsequence(FilterMatching(cmds, q), cmds)
  {
    if cmds == [] {
      assert Embeds([], FilterMatching(cmds, q), cmds);
    } else {
      FilterIsSubsequence(cmds[1..], q);
      var rest := FilterMatching(cmds[1..], q);
      var idx :| Embeds(idx, rest, cmds[1..]);
      assert cmds == [cmds[0]] + cmds[1..];
      if MatchesQuery(cmds[0], q) {
        EmbedsKeep(idx, rest, cmds[0], cmds[1..]);
        assert FilterMatching(cmds, q) == [cmds[0]] + rest;
      } else {
        EmbedsSkip(idx, rest, cmds[0], cmds[1..]);
        assert FilterMatching(cmds, q) == rest;
      }
    }
  }

  /** For a non-blank query the result is the table, in order, restricted to
      exactly the matching entries. */
  lemma SearchIsOrderedFilter(query: string)
    requires QueryKey(query) != []
    ensures IsSubsequence(SearchCommands(query), Commands())
    ensures forall c :: c in SearchCommands(query) <==> c in Commands() && MatchesQuery(c, QueryKey(query))
  {
    var table, q := Commands(), QueryKey(query);
    assert SearchCommands(query) == FilterMatching(table, q);
    FilterIsSubsequence(table, q);
  }

  /** Searching ignores the case of the query. */
  lemma SearchIgnoresCase(query: string)
    ensures SearchCommands(ToLower(query)) == SearchCommands(query)
  {
    TrimToLower(query);
    ToLowerIdempotent(Trim(query));
  }

  // ---------------------------------------------------------------------------
  // getCommandNames

  /** `cmds.map(c => c.name)`. */
  function NamesOf(cmds: seq<Command>): (r: seq<string>)
    ensures |r| == |cmds|
    ensures forall i :: 0 <= i < |cmds| ==> r[i] == cmds[i].name
  {
    if cmds == [] then [] else [cmds[0].name] + NamesOf(cmds[1..])
  }

  /** `getCommandNames()`. */
  function GetCommandNames(): seq<string> {
    NamesOf(Commands())
  }

  /** The command names are exactly the sixteen table names, in order. */
  lemma GetCommandNamesIsTableNames()
    ensures GetCommandNames() == TableNames()
  {
    TableNamesAgree();
  }
}
