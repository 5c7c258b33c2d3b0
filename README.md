# Tauri build CLI: configuration, `build`, and the DMG bundler, in Dafny

This project models three parts of the Tauri command-line tooling and proves
properties about them:

- **Configuration resolution** (`cli/core/src/helpers/config.rs`), in the
  modules `Json` and `Config`:
  - a typed `tauri.conf.json` tree, with a default for every optional field;
  - the embedded-server `Port` codec: `"random"` or a number cast to `u16`;
  - the schema check that reads the tree from JSON;
  - the JSON Merge Patch of section 2 of RFC 7396, which `json_patch::merge`
    applies when an override document is given;
  - the process-wide cache, `ConfigStore`, which loads the configuration once.
    `get` hands back the cached value, and `reload` loads it again.
- **The `build` command** (`cli/core/src/build.rs`), in the module
  `BuildCommand`:
  - the `Build` builder;
  - the loop that validates bundle-format names: it stops at `"none"` and
    fails on the first unknown name;
  - the naive space-split tokenizer of `beforeBuildCommand`;
  - the ordered external steps of `Build::run`.
- **The macOS DMG bundler** (`cli/tauri-bundler/src/bundle/dmg_bundle.rs`), in
  the module `DmgBundle`:
  - artifact naming, where `x86_64` is written `x64`;
  - the reset of the output directory and the template writes;
  - the argument list of `bundle_dmg.sh`, with its two optional parts: the
    licence and the CI flag;
  - the verbosity-dependent error message;
  - the returned paths `[bundle_path, dmg_path]`.

External steps, such as changing directory, writing a file or running a
subprocess, become values of an effect type. A routine that propagates errors
with `?` performs a prefix of its plan: every step up to and including the
first one that fails (module `Effects`). Which kinds of step fail is a
parameter, `failing`.

The imperative parts are methods proved against specification functions:
- `ConfigStore.GetInternal` against `Load`;
- `ValidateTargets` against `ResolveTargets`;
- `Tokenize` against `CommandLine(Split(..))`;
- `Execute` against `ExecuteSpec`;
- `AssembleArguments` against `ScriptArguments`;
- `BundleProject` against `BundleSpec`.

Lemmas then prove what the source promises about those functions. `DmgBundle`
also interprets the file-system effects on a small file-system model.

Parameters stand for what the code reads from outside:
- the contents of `tauri.conf.json`, as a `Document`, or `None` when the file
  cannot be opened;
- `tauri_dir()` and `app_dir()`, as an `Environment`;
- the `CI` variable;
- whether the output directory exists;
- the registry `PackageType::from_short_name`, as a function
  `string -> Option<T>`.

## Model

| member | source | states |
|---|---|---|
| Json.MergePatch | cli/core/src/helpers/config.rs:351-354 | merging yields an object exactly when the patch is an object |
| Json.MergeReplacesWithNonObject | cli/core/src/helpers/config.rs:351-354 | a patch that is not an object (arrays included) replaces the target wholesale |
| Json.MergeDeletesNullMember | cli/core/src/helpers/config.rs:351-354 | a `null` member of the patch removes that key |
| Json.MergeRecursesIntoMember | cli/core/src/helpers/config.rs:351-354 | a non-null patch member is present and is merged into the target's member, or into `null` when the target lacks it |
| Json.MergeKeepsUnmentionedMember | cli/core/src/helpers/config.rs:351-354 | keys the patch does not mention keep their value, and absent ones stay absent |
| Json.MergeIgnoresNonObjectTarget | cli/core/src/helpers/config.rs:351-354 | an object patch treats a non-object target as the empty object |
| Json.MergeEmptyPatchIsIdentity | cli/core/src/helpers/config.rs:351-354 | the patch `{}` leaves an object unchanged |
| Json.MergeIsIdempotent | cli/core/src/helpers/config.rs:351-354 | applying the same patch twice equals applying it once |
| Config.SerializePort | cli/core/src/helpers/config.rs:54-62 | `Random` is written as a string and only it; a fixed port is written as a number in 0..65535 |
| Config.DeserializePort | cli/core/src/helpers/config.rs:64-98 | accepted exactly: the string `"random"`, or an integer in [0, 2^64); a string reads back to itself; a number n reads as port n mod 65536 |
| Config.PortRoundTrip | cli/core/src/helpers/config.rs:54-98 | serialising then deserialising a port gives it back |
| Config.PortRejectsOtherStrings | cli/core/src/helpers/config.rs:76-87 | any other string fails with "expected a 'random' string or a port number" |
| Config.PortTruncatesExample | cli/core/src/helpers/config.rs:89-94 | 65616 is truncated to port 80, not rejected |
| Config.OmittedConfigDefaults | cli/core/src/helpers/config.rs:247-338 | `{}` gives host `http://127.0.0.1`, port `Random`, an inactive bundle with identifier `""`, no CLI, an empty allowlist, devPath `""`, distDir `../dist`, no commands, withGlobalTauri false, no plugins |
| Config.BundleIdentifierIsRequired | cli/core/src/helpers/config.rs:247-255 | every bundle section without `identifier` is rejected, whatever else it holds; one with a string `identifier` and no `active` reads as inactive with that identifier |
| Config.LongDescriptionReadsDescription | cli/core/src/helpers/config.rs:227-230 | `long_description()` returns the `description` field: when only `longDescription` is set, the accessor gives none |
| Config.IntendedLongDescriptionReadsField | cli/core/src/helpers/config.rs:227-230 | the corrected accessor returns exactly the document's `longDescription` string |
| Config.Load | cli/core/src/helpers/config.rs:346-356 | a file that cannot be opened, a malformed file, and a malformed override each give their own error, in that order |
| Config.EmptyFileLoadsDefaults | cli/core/src/helpers/config.rs:306-338 | a file holding `{}` with no override loads as the defaults |
| Config.EmptyPatchLoadsAsNoPatch | cli/core/src/helpers/config.rs:351-354 | for a file holding an object, the override `{}` loads the same as no override |
| Config.BuildSectionPatch | cli/core/src/helpers/config.rs:281-302 | patching `distDir` into a build section (or an absent one) changes only that field |
| Config.PatchOverridesDistDir | cli/core/src/helpers/config.rs:346-356 | the override `{"build":{"distDir":d}}` changes only `build.distDir` of a configuration that loaded |
| Config.TauriSectionWithoutBundle | cli/core/src/helpers/config.rs:264-279 | deleting `bundle` from a tauri section changes only the bundle, which becomes the default |
| Config.NullPatchRestoresBundleDefault | cli/core/src/helpers/config.rs:346-356 | the override `{"tauri":{"bundle":null}}` resets the bundle section to its default and changes nothing else |
| Config.ConfigStore.constructor | cli/core/src/helpers/config.rs:17-22 | the cache starts empty |
| Config.ConfigStore.GetInternal | cli/core/src/helpers/config.rs:341-360 | without `reload` a filled cache is returned and kept; otherwise the result is a fresh load, stored only on success, and any failure leaves the cache as it was |
| Config.ConfigStore.Get | cli/core/src/helpers/config.rs:362-364 | returns the cached value when there is one, and otherwise loads and caches it on success |
| Config.ConfigStore.Reload | cli/core/src/helpers/config.rs:366-369 | always loads again; succeeds exactly when the load does, then overwrites the cache; a failure keeps the old cache |
| Config.SecondGetIsCached | cli/core/src/helpers/config.rs:341-344 | after a successful `get`, a second `get` returns the same value whatever the file and override now hold |
| BuildCommand.BuilderSetters | cli/core/src/build.rs:34-52 | each setter sets its own option and leaves every other option as it was; a later `targets`/`config` replaces an earlier one; any two different setters commute |
| BuildCommand.RequestedSettings | cli/core/src/build.rs:59-84 | the settings `run` hands to the settings builder, once the directory change, manifest and bridging script succeeded: a release build exactly when not a debug build, verbose exactly when the build is, the `embedded-server` feature; with no targets the package types are left unset, and with targets they are exactly the validated types |
| BuildCommand.PreparationReachesSettings | cli/core/src/build.rs:87-106 | when the directory change, the manifest rewrite and the bridging script succeed, the sixth step of preparation builds the settings from the request |
| BuildCommand.FreshBuildRequest | cli/core/src/build.rs:21-32 | a build made with `Build::new()` alone requests a release build, not verbose, with the package types unset |
| BuildCommand.BeforeNone | cli/core/src/build.rs:68-71 | only the prefix before the first `"none"` is looked at |
| BuildCommand.ResolveAll | cli/core/src/build.rs:72-82 | succeeds exactly when every name is known, with the package types in order; otherwise the error names the first unknown name |
| BuildCommand.BeforeNoneKeepsPrefix | cli/core/src/build.rs:68-71 | a prefix free of `"none"` survives, and is all that survives when a `"none"` or the end follows it |
| BuildCommand.StopsAtNone | cli/core/src/build.rs:68-71 | names after the first `"none"` are ignored, even unknown ones |
| BuildCommand.ValidateTargets | cli/core/src/build.rs:66-85 | the validation loop computes exactly `ResolveTargets` |
| BuildCommand.Split | cli/core/src/build.rs:111 | `split(' ')` yields at least one piece, and no piece contains a space |
| BuildCommand.SplitJoinRoundTrip | cli/core/src/build.rs:111 | joining the pieces with single spaces gives the command back |
| BuildCommand.JoinSplitRoundTrip | cli/core/src/build.rs:111 | splitting pieces that were joined with spaces gives the pieces back |
| BuildCommand.FirstNonEmpty | cli/core/src/build.rs:109-117 | every token before the program is empty, and the program is not |
| BuildCommand.Tokenize | cli/core/src/build.rs:108-117 | the tokenizing loop yields the first non-empty token as the program and every other token as an argument, in order |
| BuildCommand.CommandLineReassembles | cli/core/src/build.rs:109-117 | the arguments with the program put back at its position are exactly the tokens, and the arguments before it are empty |
| BuildCommand.BlankCommandRunsNothing | cli/core/src/build.rs:119-123 | a command made only of spaces runs no program |
| BuildCommand.SplitWord | cli/core/src/build.rs:111 | a word without spaces is a single token |
| BuildCommand.SplitWordThenSpace | cli/core/src/build.rs:111 | a space-free word followed by a space becomes the first token, and splitting goes on after the space |
| BuildCommand.TwoLeadingSpaces | cli/core/src/build.rs:111 | two leading spaces give two empty tokens before the rest |
| BuildCommand.SplitExample | cli/core/src/build.rs:111 | a command such as `"  npm run build"` splits into `"", "", "npm", "run", "build"`, for any three space-free words |
| BuildCommand.LeadingSpacesBecomeArguments | cli/core/src/build.rs:109-117 | leading spaces are not trimmed: `"  npm run build"` runs `npm` with the arguments `"", "", "run", "build"`, and likewise for any space-free program and arguments |
| BuildCommand.Prepare | cli/core/src/build.rs:87-106 | the preparation steps run in order, each propagating its error |
| BuildCommand.Produce | cli/core/src/build.rs:108-129 | the pre-build command, compilation and bundling (only when active) run in order, each propagating its error |
| BuildCommand.Execute | cli/core/src/build.rs:59-130 | the whole of `run` after loading: validation first, then the planned steps, with the first failing step's error |
| BuildCommand.Run | cli/core/src/build.rs:54-57 | a configuration error stops the build before any step; otherwise the build runs on the cached or freshly loaded configuration; a filled cache is kept, and an empty one afterwards holds the fresh load when it succeeded |
| BuildCommand.UnknownFormatHasNoEffects | cli/core/src/build.rs:66-104 | the first unknown format before any `"none"` fails the build with its name, and no step is taken |
| BuildCommand.RunInPhases | cli/core/src/build.rs:87-129 | production runs only when preparation succeeded, and preparation performs a prefix of its steps |
| BuildCommand.PreparationOnlyPrepares | cli/core/src/build.rs:87-106 | preparation runs no command, compiles nothing and bundles nothing |
| BuildCommand.ProductionSplit | cli/core/src/build.rs:108-129 | production is the pre-build command (at most one) followed by compilation and, when active, bundling |
| BuildCommand.CompileAfterPreBuild | cli/core/src/build.rs:108-126 | when compilation happens, the pre-build command ran just before it and did not fail |
| BuildCommand.BundleAfterCompile | cli/core/src/build.rs:126-129 | bundling happens only when the bundle section is active, and after all other production steps |
| BuildCommand.PreBuildFailureEndsProduction | cli/core/src/build.rs:119-126 | a failing pre-build command ends production with its error |
| BuildCommand.ProductionCompletes | cli/core/src/build.rs:108-130 | with no failure every production step runs and production succeeds |
| BuildCommand.PreBuildBeforeCompile | cli/core/src/build.rs:108-126 | in a build that compiles, the pre-build command is the seventh step, did not fail, and compilation follows it |
| BuildCommand.PreBuildFailureStopsBuild | cli/core/src/build.rs:119-129 | a failing pre-build command means no compilation and no bundling |
| BuildCommand.BundleOnlyIfActive | cli/core/src/build.rs:126-130 | bundling happens only with an active bundle section; with no failure the build succeeds and ends with bundling (active) or compilation (inactive) |
| DmgBundle.NamingExample | cli/tauri-bundler/src/bundle/dmg_bundle.rs:21-33 | `App`, `1.2.0`, `x86_64` give `App_1.2.0_x64`, `.dmg` and `.app` |
| DmgBundle.ArchLabelCollisions | cli/tauri-bundler/src/bundle/dmg_bundle.rs:25-28 | two architectures get the same label exactly when equal or when they are `x86_64` and `x64` |
| DmgBundle.ArtifactPaths | cli/tauri-bundler/src/bundle/dmg_bundle.rs:20-35 | the image lies in `bundle/dmg` and the app in `bundle/osx`; the two paths and the two names differ |
| DmgBundle.SupportFilesInOutput | cli/tauri-bundler/src/bundle/dmg_bundle.rs:37-51 | the support directory and all three scripts lie inside the output directory |
| DmgBundle.AssembleArguments | cli/tauri-bundler/src/bundle/dmg_bundle.rs:80-117 | the conditional pushes build exactly `ScriptArguments` |
| DmgBundle.ArgumentsLayout | cli/tauri-bundler/src/bundle/dmg_bundle.rs:80-117 | the 16 fixed arguments come first and the image and app names last; between them `--eula <path>` appears exactly with a licence and `--skip-jenkins` exactly when `CI` is `true`, in that order |
| DmgBundle.ScriptErrorMessageHint | cli/tauri-bundler/src/bundle/dmg_bundle.rs:120-129 | the message starts with "error running bundle_dmg.sh" and is exactly that when verbose; otherwise the rest of it is the hint to run with `--verbose` |
| DmgBundle.ResetOutput | cli/tauri-bundler/src/bundle/dmg_bundle.rs:16-53 | the app bundle, the removal (only when the directory exists), the support directory and the announcement run in order, each with its error |
| DmgBundle.WriteTemplates | cli/tauri-bundler/src/bundle/dmg_bundle.rs:55-67 | the three template writes run in order, each with its error |
| DmgBundle.Prepare | cli/tauri-bundler/src/bundle/dmg_bundle.rs:16-67 | the reset, then the templates |
| DmgBundle.Package | cli/tauri-bundler/src/bundle/dmg_bundle.rs:69-131 | chmod (a spawn failure panics), the notice, the script run from `bundle/osx` with the assembled arguments, then the move of the image |
| DmgBundle.BundleProject | cli/tauri-bundler/src/bundle/dmg_bundle.rs:15-133 | the whole of `bundle_project`, as `BundleSpec` |
| DmgBundle.AppBundleComesFirst | cli/tauri-bundler/src/bundle/dmg_bundle.rs:16-17 | every run starts by making the `.app` bundle; when that fails nothing else happens |
| DmgBundle.BundleOutcome | cli/tauri-bundler/src/bundle/dmg_bundle.rs:131-132 | a run succeeds exactly when no step fails; it then returns `[bundle_path, dmg_path]` after moving the image last; a failure carries the error of its last step |
| DmgBundle.PackagingStopsAtScript | cli/tauri-bundler/src/bundle/dmg_bundle.rs:112-129 | whenever the script fails after chmod and the notice succeeded, packaging ends with the script as the failing step, before the move |
| DmgBundle.PreparationRunsNoScript | cli/tauri-bundler/src/bundle/dmg_bundle.rs:16-67 | no step before the templates are written is the script run |
| DmgBundle.ScriptFailureReported | cli/tauri-bundler/src/bundle/dmg_bundle.rs:119-129 | when only the script fails, the error is `ShellScriptError` with the verbosity-dependent message, and nothing is moved |
| DmgBundle.RemoveEmpties | cli/tauri-bundler/src/bundle/dmg_bundle.rs:38-41 | `remove_dir_all` leaves nothing inside the directory |
| DmgBundle.CreateSupport | cli/tauri-bundler/src/bundle/dmg_bundle.rs:42-47 | creating `support` adds it and the output directory, and nothing else, to the output directory |
| DmgBundle.WriteInside | cli/tauri-bundler/src/bundle/dmg_bundle.rs:55-67 | a write inside a directory adds exactly that file to it |
| DmgBundle.FreshOutputDirectory | cli/tauri-bundler/src/bundle/dmg_bundle.rs:38-67 | whatever the output directory held before, after the templates it holds exactly itself, `support` and the three fresh scripts |

## Left out

- JSON numbers are integers. serde_json's floating-point numbers are not modelled: a port given as `80.0` is not represented.
- The `CliArg` schema keeps only the required `name`. The other fields stay as the raw JSON object, and their types are not checked.
- serde's error wording is not modelled, except for the port visitor's message. When several fields are wrong, the model reports the first one in declaration order.
- serde's positional form, a struct written as a JSON array, is not modelled.
- The `Arc<Mutex<..>>` handle of `config_handle()` is not modelled. `ConfigStore` holds the `Option<Config>` and returns the value, so locking, sharing and poisoning are out of scope.
- Reading `tauri.conf.json` and the override text become a `Document`: the file's JSON, or `Malformed`.
- `tauri_dir()` and `app_dir()` are parameters.
- `Paths.Join` always puts a `/` between its parts. `PathBuf::join` with an absolute component, and path normalisation, are not modelled.
- Code that is called but not part of this model is represented by effects. Whether each effect fails is given by the `failing` set of step kinds:
  - `rewrite_manifest`, `TauriScript`, `SettingsBuilder::build`, `execute_with_output` and `build_project`;
  - `osx_bundle::bundle_project`, `common::print_bundling`, `common::print_info` and `execute_with_verbosity`.
- `BuildCommand.Execute`: creating `__tauri.js` and writing it are one effect with one error kind. So are the pre-build command's spawn and its exit status.
- `BuildCommand.Execute` uses one configuration value for the whole run. The source releases the lock, calls `rewrite_manifest`, then locks again and reads the cached configuration anew (build.rs:92-96). The model assumes `rewrite_manifest` leaves the cached configuration unchanged.
- `DmgBundle.BundleProject`: `fs::write` and `fs::rename` fail with a bare I/O error. The paths in `WriteFailed` and `RenameFailed` only label which write or move failed; the source attaches no such context.
- `DmgBundle.Package`: the `chmod` call fails only when it cannot be started, which is a panic. It is modelled as the error `ChmodPanicked`. A non-zero exit of `chmod` is ignored, as in the source.
- The `CI` variable is an `Option<string>`. Non-UTF-8 values are not modelled.
- `{:?}` formatting of a path is modelled as the path in double quotes. Escaping is not modelled.
- The contents of the three templates are not modelled; each is a `Template` value.
- The file-system model interprets only the effects that change the output directory:
  - `remove_dir_all`, `create_dir_all` (with its parent directories), the template writes and the rename;
  - permissions, symlinks and whatever `bundle_dmg.sh` itself writes are not modelled.
- `json_patch::merge` is not part of this model. `Json.MergePatch` follows section 2 of RFC 7396, where a missing target member is treated as `null`.
- `tauri/src/endpoints/file_system.rs`, `tauri/src/settings.rs`, `tauri-api/src/lib.rs`, `cli/core/src/main.rs` and the JavaScript build files are not part of this model. They are I/O forwarding, re-exports or argument wiring.
- Panics from `lock().unwrap()` and `as_ref().unwrap()` are not modelled. After a successful `get` the value is present.

## Findings

| source | as written | input that shows it | evidently intended | confidence | as-written member | corrected member |
|---|---|---|---|---|---|---|
| cli/core/src/helpers/config.rs:227-230 | `long_description()` returns `self.description` | a `cli` section `{"longDescription": "text"}`: the accessor returns none | return `self.long_description` | high (not executed) | Config.LongDescriptionReadsDescription | Config.IntendedLongDescriptionReadsField |
