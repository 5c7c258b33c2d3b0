/** The `build` command of the CLI: the `Build` builder and `Build::run`, which
    resolves the configuration, validates the requested bundle formats, prepares
    the environment, runs the pre-build command, compiles and bundles. Every
    external step is an effect in a trace; the package-type registry
    (`PackageType::from_short_name`) is a parameter. */
module BuildCommand {
  import opened Wrappers
  import opened Config
  import opened Effects
  import Paths

  // ---------------------------------------------------------------------------
  // The builder

  /** The options of one build; `config` is the override document. */
  datatype Build = Build(debug: bool, verbose: bool, targets: Option<seq<string>>, config: Option<Document>)
  {
    static function New(): Build {
      Build(false, false, None, None)
    }

    function Debug(): Build { this.(debug := true) }

    function Verbose(): Build { this.(verbose := true) }

    function Targets(targets: seq<string>): Build { this.(targets := Some(targets)) }

    function Config(config: Document): Build { this.(config := Some(config)) }
  }

  /** Each setter changes only its own option, a later `Targets` or `Config`
      replaces an earlier one, and the order of the setters does not matter. */
  lemma BuilderSetters(b: Build, t1: seq<string>, t2: seq<string>, c1: Document, c2: Document)
    ensures b.Config(c1).Config(c2) == b.Config(c2)
    ensures b.Targets(t1).Targets(t2) == b.Targets(t2)
    ensures b.Debug().Verbose() == b.Verbose().Debug()
    ensures b.Debug().Config(c1) == b.Config(c1).Debug()
    ensures b.Debug().debug && b.Debug().(debug := b.debug) == b
    ensures b.Verbose().verbose && b.Verbose().(verbose := b.verbose) == b
    ensures b.Targets(t1).targets == Some(t1) && b.Targets(t1).(targets := b.targets) == b
    ensures b.Config(c1).config == Some(c1) && b.Config(c1).(config := b.config) == b
    ensures b.Debug().Targets(t1) == b.Targets(t1).Debug()
    ensures b.Verbose().Targets(t1) == b.Targets(t1).Verbose()
    ensures b.Verbose().Config(c1) == b.Config(c1).Verbose()
    ensures b.Targets(t1).Config(c1) == b.Config(c1).Targets(t1)
  {
  }

  /** What `run` hands to the bundler's `SettingsBuilder`. */
  datatype SettingsRequest<T> = SettingsRequest(
    features: seq<string>, release: bool, verbose: bool, packageTypes: Option<seq<T>>)

  /** The settings-builder calls of `run`: `release()` exactly when the build is
      not a debug build, `verbose()` exactly when it is verbose. */
  function Request<T>(b: Build, packageTypes: Option<seq<T>>): SettingsRequest<T> {
    SettingsRequest(["embedded-server"], !b.debug, b.verbose, packageTypes)
  }

  // ---------------------------------------------------------------------------
  // Requested bundle formats

  function UnsupportedFormat(name: string): string {
    "Unsupported bundle format: " + name
  }

  /** The names that are looked at: those before the first "none". */
  function BeforeNone(names: seq<string>): (r: seq<string>)
    ensures r <= names && "none" !in r
    ensures |r| < |names| ==> names[|r|] == "none"
  {
    if names == [] || names[0] == "none" then [] else [names[0]] + BeforeNone(names[1..])
  }

  /** Looks every name up in the registry; the first unknown name is the error. */
  function ResolveAll<T>(names: seq<string>, fromShortName: string -> Option<T>): (r: Result<seq<T>, string>)
    ensures r.Success? <==> forall i | 0 <= i < |names| :: fromShortName(names[i]).Some?
    ensures r.Success? ==> |r.value| == |names|
    ensures r.Success? ==> forall i | 0 <= i < |names| :: r.value[i] == fromShortName(names[i]).value
    ensures r.Failure? ==>
              exists i | 0 <= i < |names| ::
                && fromShortName(names[i]).None?
                && r.error == UnsupportedFormat(names[i])
                && forall j | 0 <= j < i :: fromShortName(names[j]).Some?
  {
    if names == [] then Success([])
    else match fromShortName(names[0])
      case None => Failure(UnsupportedFormat(names[0]))
      case Some(t) =>
        var rest :- ResolveAll(names[1..], fromShortName);
        Success([t] + rest)
  }

  /** The package types of `run`'s validation: the names before the first
      "none", each looked up in order. */
  function ResolveTargets<T>(names: seq<string>, fromShortName: string -> Option<T>): Result<seq<T>, string> {
    ResolveAll(BeforeNone(names), fromShortName)
  }

  /** A prefix without "none" is kept by `BeforeNone`. */
  lemma {:induction false} BeforeNoneKeepsPrefix(names: seq<string>, i: nat)
    requires i <= |names| && "none" !in names[..i]
    ensures |BeforeNone(names)| >= i && BeforeNone(names)[..i] == names[..i]
    ensures i == |names| || names[i] == "none" ==> BeforeNone(names) == names[..i]
  {
    if i > 0 {
      assert names[0] == names[..i][0];
      assert names[1..][..i - 1] == names[..i][1..];
      BeforeNoneKeepsPrefix(names[1..], i - 1);
    } else if i < |names| && names[i] == "none" {
      assert BeforeNone(names) == [];
    }
  }

  /** Names after the first "none" are ignored, even if they are not formats. */
  lemma StopsAtNone<T>(before: seq<string>, after: seq<string>, fromShortName: string -> Option<T>)
    requires "none" !in before
    ensures ResolveTargets(before + ["none"] + after, fromShortName) == ResolveAll(before, fromShortName)
  {
    var names := before + ["none"] + after;
    assert names[..|before|] == before;
    BeforeNoneKeepsPrefix(names, |before|);
  }

  /** The validation loop of `run`: stops at "none", fails on the first name the
      registry does not know, and otherwise collects the package types. */
  method ValidateTargets<T>(names: seq<string>, fromShortName: string -> Option<T>)
    returns (r: Result<seq<T>, string>)
    ensures r == ResolveTargets(names, fromShortName)
  {
    var types: seq<T> := [];
    var i := 0;
    while i < |names|
      invariant 0 <= i <= |names|
      invariant "none" !in names[..i]
      invariant |types| == i
      invariant forall j | 0 <= j < i :: fromShortName(names[j]).Some? && types[j] == fromShortName(names[j]).value
    {
      var name := names[i];
      if name == "none" {
        break;
      }
      match fromShortName(name) {
        case Some(packageType) =>
          types := types + [packageType];
        case None =>
          BeforeNoneKeepsPrefix(names, i + 1);
          assert names[..i + 1] == names[..i] + [name];
          ghost var expected := ResolveAll(BeforeNone(names), fromShortName);
          assert BeforeNone(names)[i] == name;
          return Failure(UnsupportedFormat(name));
      }
      assert names[..i + 1] == names[..i] + [name];
      i := i + 1;
    }
    BeforeNoneKeepsPrefix(names, i);
    ghost var resolved := ResolveAll(BeforeNone(names), fromShortName);
    assert resolved.Success? && resolved.value == types;
    return Success(types);
  }

  // ---------------------------------------------------------------------------
  // The pre-build command

  /** `str::split(' ')`: the pieces between single spaces, empty ones included. */
  function Split(s: string): (r: seq<string>)
    ensures |r| >= 1
    ensures forall i | 0 <= i < |r| :: ' ' !in r[i]
  {
    if s == [] then [""]
    else
      var rest := Split(s[1..]);
      if s[0] == ' ' then [""] + rest else [[s[0]] + rest[0]] + rest[1..]
  }

  /** The pieces put back together with single spaces. */
  function JoinWords(parts: seq<string>): string
    requires |parts| >= 1
  {
    if |parts| == 1 then parts[0] else parts[0] + " " + JoinWords(parts[1..])
  }

  /** Splitting loses nothing: the pieces joined again are the command. */
  lemma {:induction false} SplitJoinRoundTrip(s: string)
    ensures JoinWords(Split(s)) == s
  {
    if s != [] {
      var rest := Split(s[1..]);
      SplitJoinRoundTrip(s[1..]);
      if s[0] == ' ' {
        assert Split(s) == [""] + rest;
        assert Split(s)[1..] == rest;
      } else {
        var r := Split(s);
        assert r[1..] == rest[1..];
        if |rest| > 1 {
          assert rest == [rest[0]] + rest[1..];
          assert JoinWords(rest) == rest[0] + " " + JoinWords(rest[1..]);
        }
      }
    }
  }

  /** Joining pieces without spaces and splitting again gives the pieces back. */
  lemma {:induction false} JoinSplitRoundTrip(parts: seq<string>)
    requires |parts| >= 1
    requires forall i | 0 <= i < |parts| :: ' ' !in parts[i]
    ensures Split(JoinWords(parts)) == parts
    decreases |parts|, |parts[0]|
  {
    if parts[0] == [] {
      if |parts| > 1 {
        JoinSplitRoundTrip(parts[1..]);
        assert JoinWords(parts) == [' '] + JoinWords(parts[1..]);
        assert JoinWords(parts)[1..] == JoinWords(parts[1..]);
      }
    } else {
      var first := parts[0];
      var shorter := parts[0 := first[1..]];
      assert first[0] != ' ' by { assert first[0] in first; }
      forall i | 0 <= i < |shorter| ensures ' ' !in shorter[i] {
        if i == 0 {
          forall c | c in first[1..] ensures c != ' ' { assert c in first; }
        }
      }
      JoinSplitRoundTrip(shorter);
      if |parts| == 1 {
        assert JoinWords(parts)[1..] == JoinWords(shorter);
      } else {
        assert shorter[1..] == parts[1..];
        assert JoinWords(parts) == [first[0]] + JoinWords(shorter);
      }
      assert JoinWords(parts) == [first[0]] + JoinWords(shorter);
      assert JoinWords(parts)[1..] == JoinWords(shorter);
      assert [first[0]] + shorter[0] == first;
      assert Split(JoinWords(parts)) == [[first[0]] + shorter[0]] + shorter[1..];
    }
  }

  /** The position of the first non-empty token, or the number of tokens. */
  function FirstNonEmpty(tokens: seq<string>): (i: nat)
    ensures i <= |tokens|
    ensures forall j | 0 <= j < i :: tokens[j] == ""
    ensures i < |tokens| ==> tokens[i] != ""
  {
    if tokens == [] || tokens[0] != "" then 0 else 1 + FirstNonEmpty(tokens[1..])
  }

  /** The program and arguments of a tokenized command: the first non-empty
      token is the program; every other token, empty ones included, is an
      argument, in order. */
  function CommandLine(tokens: seq<string>): (Option<string>, seq<string>) {
    var i := FirstNonEmpty(tokens);
    if i == |tokens| then (None, tokens) else (Some(tokens[i]), tokens[..i] + tokens[i + 1..])
  }

  /** The tokenizing loop of `run`, over `before_build.split(' ')`. */
  method Tokenize(command: string) returns (cmd: Option<string>, args: seq<string>)
    ensures (cmd, args) == CommandLine(Split(command))
  {
    var tokens := Split(command);
    ghost var first := FirstNonEmpty(tokens);
    cmd := None;
    args := [];
    var k := 0;
    while k < |tokens|
      invariant 0 <= k <= |tokens|
      invariant k <= first ==> cmd == None && args == tokens[..k]
      invariant k > first ==> cmd == Some(tokens[first]) && args == tokens[..first] + tokens[first + 1..k]
    {
      var token := tokens[k];
      if cmd.None? && token != "" {
        assert k == first;
        cmd := Some(token);
        assert args == tokens[..first] + tokens[first + 1..k + 1];
      } else {
        if k < first {
          assert tokens[..k + 1] == tokens[..k] + [token];
        } else {
          assert tokens[first + 1..k + 1] == tokens[first + 1..k] + [token];
        }
        args := args + [token];
      }
      k := k + 1;
    }
    assert tokens[..k] == tokens;
  }

  /** No program runs when the command is only spaces (or empty): every token
      is empty. */
  lemma {:induction false} BlankCommandRunsNothing(s: string)
    requires forall i | 0 <= i < |s| :: s[i] == ' '
    ensures CommandLine(Split(s)).0 == None
    ensures forall t | t in Split(s) :: t == ""
  {
    if s != [] {
      BlankCommandRunsNothing(s[1..]);
    }
  }

  /** The program sits among its arguments where it stood among the tokens:
      putting it back after the leading empty tokens gives the token list. */
  lemma CommandLineReassembles(tokens: seq<string>)
    requires CommandLine(tokens).0.Some?
    ensures var (cmd, args) := CommandLine(tokens);
            var i := FirstNonEmpty(tokens);
            && cmd.value != ""
            && args[..i] + [cmd.value] + args[i..] == tokens
            && forall j | 0 <= j < i :: args[j] == ""
  {
    var i := FirstNonEmpty(tokens);
    assert tokens == tokens[..i] + [tokens[i]] + tokens[i + 1..];
  }

  /** A space-free word followed by a space is the first token. */
  lemma {:induction false} SplitWordThenSpace(w: string, t: string)
    requires ' ' !in w
    ensures Split(w + " " + t) == [w] + Split(t)
  {
    if w == [] {
      assert w + " " + t == [' '] + t;
    } else {
      assert w[0] != ' ' by { assert w[0] in w; }
      assert ' ' !in w[1..] by {
        forall c | c in w[1..] ensures c != ' ' { assert c in w; }
      }
      SplitWordThenSpace(w[1..], t);
      assert (w + " " + t)[1..] == w[1..] + " " + t;
      assert [w[0]] + w[1..] == w;
    }
  }

  /** A space-free word alone is one token. */
  lemma {:induction false} SplitWord(w: string)
    requires ' ' !in w
    ensures Split(w) == [w]
  {
    if w != [] {
      assert w[0] != ' ' by { assert w[0] in w; }
      assert ' ' !in w[1..] by {
        forall c | c in w[1..] ensures c != ' ' { assert c in w; }
      }
      SplitWord(w[1..]);
      assert [w[0]] + w[1..] == w;
    }
  }

  /** Two leading spaces are two empty tokens. */
  lemma TwoLeadingSpaces(line: string)
    ensures Split("  " + line) == ["", ""] + Split(line)
  {
    assert ("  " + line)[1..] == " " + line;
    assert (" " + line)[1..] == line;
  }

  /** The command `"  " + program + " " + a + " " + b`, grouped from the right. */
  lemma RegroupCommand(program: string, a: string, b: string)
    ensures "  " + program + " " + a + " " + b == "  " + (program + " " + (a + " " + b))
  {
  }

  /** A command with two leading spaces, such as `"  npm run build"`, splits
      into two empty tokens and then its words. */
  lemma SplitExample(program: string, a: string, b: string)
    requires ' ' !in program && ' ' !in a && ' ' !in b
    ensures Split("  " + program + " " + a + " " + b) == ["", "", program, a, b]
  {
    var words := a + " " + b;
    SplitWord(b);
    SplitWordThenSpace(a, b);
    SplitWordThenSpace(program, words);
    TwoLeadingSpaces(program + " " + words);
    RegroupCommand(program, a, b);
  }

  /** Leading spaces are not trimmed: `"  npm run build"` runs `npm` with the
      arguments `"", "", "run", "build"`, the leading empty tokens included. */
  lemma LeadingSpacesBecomeArguments(program: string, a: string, b: string)
    requires program != "" && ' ' !in program && ' ' !in a && ' ' !in b
    ensures CommandLine(Split("  " + program + " " + a + " " + b)) == (Some(program), ["", "", a, b])
  {
    SplitExample(program, a, b);
    var parts := ["", "", program, a, b];
    assert FirstNonEmpty(parts[2..]) == 0;
    assert FirstNonEmpty(parts) == 2;
    assert parts[..2] + parts[3..] == ["", "", a, b];
  }

  // ---------------------------------------------------------------------------
  // The ordered steps of `run`

  /** The external steps of `run` that can fail. */
  datatype Step = ChangeDirStep | ManifestStep | BridgeScriptStep | SettingsStep | PreBuildStep | CompileStep | BundleStep

  datatype Effect<T> =
    | SetCurrentDir(path: string)
    | SetEnv(name: string, value: string)
    | RewriteManifest
    | WriteBridgeScript(path: string, withGlobalTauri: bool)
    | FinalizeSettings(request: SettingsRequest<T>)
    | RunCommand(program: string, args: seq<string>, cwd: string)
    | CompileProject
    | BundleProject

  /** The kind of a step that can fail; setting an environment variable cannot. */
  function StepOf<T>(e: Effect<T>): Option<Step> {
    match e
    case SetCurrentDir(_) => Some(ChangeDirStep)
    case SetEnv(_, _) => None
    case RewriteManifest => Some(ManifestStep)
    case WriteBridgeScript(_, _) => Some(BridgeScriptStep)
    case FinalizeSettings(_) => Some(SettingsStep)
    case RunCommand(_, _, _) => Some(PreBuildStep)
    case CompileProject => Some(CompileStep)
    case BundleProject => Some(BundleStep)
  }

  /** The environment's answer for each step: the kinds in `failing` fail. */
  function Outcomes<T>(failing: set<Step>): Effect<T> -> bool {
    e => StepOf(e).Some? && StepOf(e).value in failing
  }

  /** The project directories `tauri_dir()` and `app_dir()`. */
  datatype Environment = Environment(tauriDir: string, appDir: string)

  datatype BuildError =
    | ConfigFailed(configError: ConfigError)
    | Unsupported(message: string)
    | StepFailed(step: Step)

  /** The pre-build command, if one is configured and has a program. */
  function PreBuildEffects<T>(beforeBuild: Option<string>, appDir: string): seq<Effect<T>> {
    if beforeBuild.None? then []
    else
      var (cmd, args) := CommandLine(Split(beforeBuild.value));
      if cmd.None? then [] else [RunCommand(cmd.value, args, appDir)]
  }

  /** The preparation steps, in order: working directory and variables,
      manifest, bridging script, settings. */
  function Preparation<T>(config: Config, request: SettingsRequest<T>, env: Environment): seq<Effect<T>> {
    [ SetCurrentDir(env.tauriDir),
      SetEnv("TAURI_DIR", env.tauriDir),
      SetEnv("TAURI_DIST_DIR", Paths.Join(env.tauriDir, config.build.distDir)),
      RewriteManifest,
      WriteBridgeScript(Paths.Join(config.build.distDir, "__tauri.js"), config.build.withGlobalTauri),
      FinalizeSettings(request) ]
  }

  /** The steps after preparation: pre-build command, compilation, and
      bundling only when the bundle section is active. */
  function Production<T>(config: Config, env: Environment): seq<Effect<T>> {
    PreBuildEffects(config.build.beforeBuildCommand, env.appDir)
    + [CompileProject]
    + (if config.tauri.bundle.active then [BundleProject] else [])
  }

  /** The steps after validation, in order. */
  function Plan<T>(config: Config, request: SettingsRequest<T>, env: Environment): seq<Effect<T>> {
    Preparation(config, request, env) + Production(config, env)
  }

  /** The package types `run` requests: none when no targets were given. */
  function PackageTypes<T>(b: Build, fromShortName: string -> Option<T>): Result<Option<seq<T>>, string> {
    match b.targets
    case None => Success(None)
    case Some(names) =>
      var types :- ResolveTargets(names, fromShortName);
      Success(Some(types))
  }

  /** The result `run` reports for an execution of its plan: success when no
      step failed, otherwise the kind of the failing step. */
  function Report<T>(x: Execution<Effect<T>>): (Result<(), BuildError>, seq<Effect<T>>)
    requires x.failed.Some? ==> StepOf(x.failed.value).Some?
  {
    (if x.failed.None? then Success(()) else Failure(StepFailed(StepOf(x.failed.value).value)), x.performed)
  }

  /** The result and trace of running `plan` step by step, the kinds in
      `failing` failing. */
  function RunPlan<T>(plan: seq<Effect<T>>, failing: set<Step>): (Result<(), BuildError>, seq<Effect<T>>) {
    PerformStopsAtFirstFailure(plan, Outcomes(failing));
    Report(Perform(plan, Outcomes(failing)))
  }

  /** The result and trace of `run` once the configuration is loaded. */
  function ExecuteSpec<T>(b: Build, config: Config, fromShortName: string -> Option<T>, env: Environment, failing: set<Step>)
    : (Result<(), BuildError>, seq<Effect<T>>)
  {
    match PackageTypes(b, fromShortName)
    case Failure(message) => (Failure(Unsupported(message)), [])
    case Success(types) =>
      RunPlan(Plan(config, Request(b, types), env), failing)
  }

  /** The preparation part of `Build::run`, each step propagating its error. */
  method Prepare<T>(config: Config, request: SettingsRequest<T>, env: Environment, failing: set<Step>)
    returns (res: Result<(), BuildError>, trace: seq<Effect<T>>)
    ensures (res, trace) == RunPlan(Preparation(config, request, env), failing)
  {
    var fails := Outcomes<T>(failing);
    ghost var plan := Preparation(config, request, env);
    trace := [];
    var ok;
    trace, ok := Attempt(trace, SetCurrentDir(env.tauriDir), fails, plan, 0);
    if !ok {
      return Failure(StepFailed(ChangeDirStep)), trace;
    }
    trace, ok := Attempt(trace, SetEnv("TAURI_DIR", env.tauriDir), fails, plan, 1);
    trace, ok := Attempt(trace, SetEnv("TAURI_DIST_DIR", Paths.Join(env.tauriDir, config.build.distDir)), fails, plan, 2);
    trace, ok := Attempt(trace, RewriteManifest, fails, plan, 3);
    if !ok {
      return Failure(StepFailed(ManifestStep)), trace;
    }
    trace, ok := Attempt(trace, WriteBridgeScript(Paths.Join(config.build.distDir, "__tauri.js"), config.build.withGlobalTauri), fails, plan, 4);
    if !ok {
      return Failure(StepFailed(BridgeScriptStep)), trace;
    }
    trace, ok := Attempt(trace, FinalizeSettings(request), fails, plan, 5);
    if !ok {
      return Failure(StepFailed(SettingsStep)), trace;
    }
    assert trace == plan;
    PerformCompleted(plan, fails);
    res := Success(());
  }

  /** The production part of `Build::run`: the pre-build command, compilation
      and bundling, each step propagating its error. */
  method Produce<T>(config: Config, env: Environment, failing: set<Step>)
    returns (res: Result<(), BuildError>, trace: seq<Effect<T>>)
    ensures (res, trace) == RunPlan(Production<T>(config, env), failing)
  {
    var fails := Outcomes<T>(failing);
    ghost var plan := Production<T>(config, env);
    ghost var pre := PreBuildEffects<T>(config.build.beforeBuildCommand, env.appDir);
    trace := [];
    var ok;
    if config.build.beforeBuildCommand.Some? {
      var cmd, args := Tokenize(config.build.beforeBuildCommand.value);
      if cmd.Some? {
        trace, ok := Attempt(trace, RunCommand(cmd.value, args, env.appDir), fails, plan, 0);
        if !ok {
          return Failure(StepFailed(PreBuildStep)), trace;
        }
      }
    }
    trace, ok := Attempt(trace, CompileProject, fails, plan, |pre|);
    if !ok {
      return Failure(StepFailed(CompileStep)), trace;
    }
    if config.tauri.bundle.active {
      trace, ok := Attempt(trace, BundleProject, fails, plan, |pre| + 1);
      if !ok {
        return Failure(StepFailed(BundleStep)), trace;
      }
    }
    assert trace == plan;
    PerformCompleted(plan, fails);
    res := Success(());
  }

  /** `Build::run` after the configuration is loaded: validation first, then the
      external steps in order, each stopping the build when it fails. */
  method Execute<T>(b: Build, config: Config, fromShortName: string -> Option<T>, env: Environment, failing: set<Step>)
    returns (res: Result<(), BuildError>, trace: seq<Effect<T>>)
    ensures (res, trace) == ExecuteSpec(b, config, fromShortName, env, failing)
  {
    var packageTypes: Option<seq<T>> := None;
    if b.targets.Some? {
      var types := ValidateTargets(b.targets.value, fromShortName);
      if types.Failure? {
        return Failure(Unsupported(types.error)), [];
      }
      packageTypes := Some(types.value);
    }
    var request := SettingsRequest(["embedded-server"], !b.debug, b.verbose, packageTypes);
    ghost var prep := Preparation(config, request, env);
    ghost var prod := Production<T>(config, env);
    PerformAppend(prep, prod, Outcomes(failing));
    PerformStopsAtFirstFailure(prep, Outcomes(failing));
    res, trace := Prepare(config, request, env, failing);
    if res.Failure? {
      return;
    }
    assert trace == prep;
    var rest;
    res, rest := Produce(config, env, failing);
    trace := trace + rest;
  }

  /** `Build::run`: loads the configuration through the cache (with the build's
      override), then runs the build. A configuration error happens before any
      step. */
  method Run<T>(b: Build, store: ConfigStore, file: Option<Document>, fromShortName: string -> Option<T>,
                env: Environment, failing: set<Step>)
    returns (res: Result<(), BuildError>, trace: seq<Effect<T>>)
    modifies store
    ensures var loaded := if old(store.cached).Some? then Success(old(store.cached).value) else Load(file, b.config);
            && (loaded.Failure? ==> res == Failure(ConfigFailed(loaded.error)) && trace == [])
            && (loaded.Success? ==> (res, trace) == ExecuteSpec(b, loaded.value, fromShortName, env, failing))
    ensures old(store.cached).Some? ==> store.cached == old(store.cached)
    ensures old(store.cached).None? ==>
              store.cached == if Load(file, b.config).Success? then Some(Load(file, b.config).value) else None
  {
    var config := store.Get(b.config, file);
    if config.Failure? {
      return Failure(ConfigFailed(config.error)), [];
    }
    res, trace := Execute(b, config.value, fromShortName, env, failing);
  }

  // ---------------------------------------------------------------------------
  // Properties of the step order

  /** An unknown format before any "none" stops the build with its name and
      before any step: no directory change, no variable, no file written. */
  lemma UnknownFormatHasNoEffects<T>(b: Build, config: Config, fromShortName: string -> Option<T>,
                                     env: Environment, failing: set<Step>, i: nat)
    requires b.targets.Some? && i < |b.targets.value|
    requires "none" !in b.targets.value[..i + 1] && fromShortName(b.targets.value[i]).None?
    requires forall j | 0 <= j < i :: fromShortName(b.targets.value[j]).Some?
    ensures ExecuteSpec(b, config, fromShortName, env, failing)
            == (Failure(Unsupported(UnsupportedFormat(b.targets.value[i]))), [])
  {
    var names := b.targets.value;
    BeforeNoneKeepsPrefix(names, i + 1);
    var r := ResolveAll(BeforeNone(names), fromShortName);
    assert BeforeNone(names)[i] == names[i];
    assert r.Failure?;
    var k :| 0 <= k < |BeforeNone(names)| && fromShortName(BeforeNone(names)[k]).None?
             && r.error == UnsupportedFormat(BeforeNone(names)[k])
             && forall j | 0 <= j < k :: fromShortName(BeforeNone(names)[j]).Some?;
    assert k == i;
  }

  /** The plan runs its preparation first, and its production only when the
      preparation succeeded; what preparation performs is a prefix of it. */
  lemma RunInPhases<T>(config: Config, request: SettingsRequest<T>, env: Environment, failing: set<Step>)
    ensures var prep := RunPlan(Preparation(config, request, env), failing);
            var prod := RunPlan(Production<T>(config, env), failing);
            && prep.1 <= Preparation(config, request, env)
            && (prep.0.Success? ==> prep.1 == Preparation(config, request, env))
            && RunPlan(Plan(config, request, env), failing)
               == if prep.0.Failure? then prep else (prod.0, prep.1 + prod.1)
  {
    var fails := Outcomes<T>(failing);
    PerformAppend(Preparation(config, request, env), Production<T>(config, env), fails);
    PerformStopsAtFirstFailure(Preparation(config, request, env), fails);
  }

  /** What `run` hands to the settings builder, once the working directory,
      the manifest and the bridging script succeeded: a release build exactly
      when not a debug build, verbose exactly when the build is, the
      `embedded-server` feature, and package types left unset when no targets
      were given, or else the validated types. */
  lemma RequestedSettings<T>(b: Build, config: Config, fromShortName: string -> Option<T>,
                             env: Environment, failing: set<Step>)
    requires PackageTypes(b, fromShortName).Success?
    requires ChangeDirStep !in failing && ManifestStep !in failing && BridgeScriptStep !in failing
    ensures var trace := ExecuteSpec(b, config, fromShortName, env, failing).1;
            && |trace| > 5 && trace[5].FinalizeSettings?
            && trace[5].request.release == !b.debug
            && trace[5].request.verbose == b.verbose
            && trace[5].request.features == ["embedded-server"]
            && (b.targets.None? ==> trace[5].request.packageTypes.None?)
            && (b.targets.Some? ==>
                  trace[5].request.packageTypes == Some(ResolveTargets(b.targets.value, fromShortName).value))
  {
    var request := Request(b, PackageTypes(b, fromShortName).value);
    RunInPhases(config, request, env, failing);
    PreparationReachesSettings(config, request, env, failing);
  }

  /** Once the directory change, the manifest and the bridging script
      succeeded, preparation goes on to build the settings. */
  lemma PreparationReachesSettings<T>(config: Config, request: SettingsRequest<T>, env: Environment, failing: set<Step>)
    requires ChangeDirStep !in failing && ManifestStep !in failing && BridgeScriptStep !in failing
    ensures var trace := RunPlan(Preparation(config, request, env), failing).1;
            |trace| > 5 && trace[5] == FinalizeSettings(request)
  {
    var prep := Preparation(config, request, env);
    var fails := Outcomes<T>(failing);
    assert NoneFailBefore(prep, 5, fails);
    PerformAfterPrefix(prep, 5, fails);
    assert prep[5..][0] == FinalizeSettings(request);
    assert Perform(prep[5..], fails).performed[0] == FinalizeSettings(request);
  }

  /** A build made with `Build::new()` and nothing else requests a release
      build, not verbose, with the package types unset. */
  lemma FreshBuildRequest<T>(config: Config, fromShortName: string -> Option<T>,
                             env: Environment, failing: set<Step>)
    requires ChangeDirStep !in failing && ManifestStep !in failing && BridgeScriptStep !in failing
    ensures var trace := ExecuteSpec(Build.New(), config, fromShortName, env, failing).1;
            && |trace| > 5 && trace[5].FinalizeSettings?
            && trace[5].request.release && !trace[5].request.verbose
            && trace[5].request.packageTypes.None?
  {
    RequestedSettings(Build.New(), config, fromShortName, env, failing);
  }

  /** Preparation neither runs a command, nor compiles, nor bundles. */
  lemma PreparationOnlyPrepares<T>(config: Config, request: SettingsRequest<T>, env: Environment, trace: seq<Effect<T>>)
    requires trace <= Preparation(config, request, env)
    ensures forall e | e in trace :: !e.RunCommand? && e != CompileProject && e != BundleProject
  {
    var prep := Preparation(config, request, env);
    forall e | e in trace
      ensures !e.RunCommand? && e != CompileProject && e != BundleProject
    {
      var j :| 0 <= j < |trace| && trace[j] == e;
      assert e == prep[j];
    }
  }

  /** The production steps split at compilation: the pre-build command first,
      then compilation and maybe bundling. */
  lemma ProductionSplit<T>(config: Config, env: Environment, failing: set<Step>)
    ensures var pre := PreBuildEffects<T>(config.build.beforeBuildCommand, env.appDir);
            var post := [CompileProject] + (if config.tauri.bundle.active then [BundleProject] else []);
            var fails := Outcomes<T>(failing);
            && (pre == [] || (pre == [pre[0]] && pre[0].RunCommand?))
            && Production<T>(config, env) == pre + post
            && Perform(pre + post, fails)
               == if Perform(pre, fails).failed.Some? then Perform(pre, fails) else Continue(pre, Perform(post, fails))
  {
    var pre := PreBuildEffects<T>(config.build.beforeBuildCommand, env.appDir);
    var post := [CompileProject] + (if config.tauri.bundle.active then [BundleProject] else []);
    PerformAppend(pre, post, Outcomes<T>(failing));
  }

  /** Compilation follows the pre-build command, which must have succeeded. */
  lemma CompileAfterPreBuild<T>(config: Config, env: Environment, failing: set<Step>)
    ensures var pre := PreBuildEffects<T>(config.build.beforeBuildCommand, env.appDir);
            var trace := RunPlan(Production<T>(config, env), failing).1;
            CompileProject in trace ==>
              |trace| > |pre| && trace[..|pre|] == pre && trace[|pre|] == CompileProject
              && (pre != [] ==> PreBuildStep !in failing)
  {
    ProductionSplit<T>(config, env, failing);
  }

  /** Bundling follows compilation and needs an active bundle section. */
  lemma BundleAfterCompile<T>(config: Config, env: Environment, failing: set<Step>)
    ensures var trace := RunPlan(Production<T>(config, env), failing).1;
            BundleProject in trace ==> config.tauri.bundle.active && trace == Production<T>(config, env)
  {
    var pre := PreBuildEffects<T>(config.build.beforeBuildCommand, env.appDir);
    var post: seq<Effect<T>> := [CompileProject] + (if config.tauri.bundle.active then [BundleProject] else []);
    var prod := Production<T>(config, env);
    ProductionSplit<T>(config, env, failing);
    PerformStopsAtFirstFailure(prod, Outcomes<T>(failing));
    var trace := RunPlan(prod, failing).1;
    if BundleProject in trace {
      var j :| 0 <= j < |trace| && trace[j] == BundleProject;
      assert prod[j] == BundleProject;
      assert j >= |pre| && post[j - |pre|] == BundleProject;
      assert j - |pre| == 1;
      assert |trace| == |prod|;
    }
  }

  /** A failing pre-build command ends production with its error. */
  lemma PreBuildFailureEndsProduction<T>(config: Config, env: Environment, failing: set<Step>)
    requires PreBuildEffects<T>(config.build.beforeBuildCommand, env.appDir) != [] && PreBuildStep in failing
    ensures RunPlan(Production<T>(config, env), failing)
            == (Failure(StepFailed(PreBuildStep)), PreBuildEffects<T>(config.build.beforeBuildCommand, env.appDir))
  {
    ProductionSplit<T>(config, env, failing);
  }

  /** With no failure every production step runs. */
  lemma ProductionCompletes<T>(config: Config, env: Environment)
    ensures RunPlan(Production<T>(config, env), {}) == (Success(()), Production<T>(config, env))
  {
    PerformCompleted(Production<T>(config, env), Outcomes<T>({}));
  }

  /** The pre-build command finishes, successfully, before compilation starts:
      when compilation is in the trace, the configured command ran right after
      the six preparation steps, did not fail, and compilation came next. */
  lemma PreBuildBeforeCompile<T>(b: Build, config: Config, fromShortName: string -> Option<T>,
                                 env: Environment, failing: set<Step>)
    requires CompileProject in ExecuteSpec(b, config, fromShortName, env, failing).1
    requires PreBuildEffects<T>(config.build.beforeBuildCommand, env.appDir) != []
    ensures var trace := ExecuteSpec(b, config, fromShortName, env, failing).1;
            && |trace| > 7 && trace[6].RunCommand? && trace[7] == CompileProject
            && PreBuildStep !in failing
  {
    var request := Request(b, PackageTypes(b, fromShortName).value);
    var prep := RunPlan(Preparation(config, request, env), failing);
    var prod := RunPlan(Production<T>(config, env), failing);
    RunInPhases(config, request, env, failing);
    PreparationOnlyPrepares(config, request, env, prep.1);
    CompileAfterPreBuild<T>(config, env, failing);
    assert prep.0.Success?;
    assert prep.1 == Preparation(config, request, env);
    var trace := prep.1 + prod.1;
    assert CompileProject in prod.1;
    assert trace[6] == prod.1[0] && trace[7] == prod.1[1];
  }

  /** A failing pre-build command stops the build before compilation and
      bundling. */
  lemma PreBuildFailureStopsBuild<T>(b: Build, config: Config, fromShortName: string -> Option<T>,
                                     env: Environment, failing: set<Step>)
    requires PreBuildStep in failing
    requires PreBuildEffects<T>(config.build.beforeBuildCommand, env.appDir) != []
    ensures var trace := ExecuteSpec(b, config, fromShortName, env, failing).1;
            CompileProject !in trace && BundleProject !in trace
  {
    if PackageTypes(b, fromShortName).Success? {
      var request := Request(b, PackageTypes(b, fromShortName).value);
      var prep := RunPlan(Preparation(config, request, env), failing);
      var prod := RunPlan(Production<T>(config, env), failing);
      RunInPhases(config, request, env, failing);
      PreparationOnlyPrepares(config, request, env, prep.1);
      PreBuildFailureEndsProduction<T>(config, env, failing);
    }
  }

  /** Bundling happens only when the bundle section is active; when no step
      fails, the build succeeds and ends with bundling when the section is
      active, with compilation otherwise. */
  lemma BundleOnlyIfActive<T>(b: Build, config: Config, fromShortName: string -> Option<T>,
                              env: Environment, failing: set<Step>)
    ensures BundleProject in ExecuteSpec(b, config, fromShortName, env, failing).1 ==> config.tauri.bundle.active
    ensures PackageTypes(b, fromShortName).Success? && failing == {} ==>
              var (res, trace) := ExecuteSpec(b, config, fromShortName, env, failing);
              && res == Success(())
              && trace[|trace| - 1] == (if config.tauri.bundle.active then BundleProject else CompileProject)
  {
    if PackageTypes(b, fromShortName).Success? {
      var request := Request(b, PackageTypes(b, fromShortName).value);
      var prep := RunPlan(Preparation(config, request, env), failing);
      RunInPhases(config, request, env, failing);
      PreparationOnlyPrepares(config, request, env, prep.1);
      BundleAfterCompile<T>(config, env, failing);
      if failing == {} {
        PerformCompleted(Preparation(config, request, env), Outcomes<T>(failing));
        ProductionCompletes<T>(config, env);
      }
    }
  }
}
