/** The macOS disk-image bundler `dmg_bundle::bundle_project`: it names the
    artifacts, resets the output directory, writes the `bundle_dmg.sh` script
    and its support files, assembles the script's arguments, runs it and
    moves the image into place. File-system and subprocess steps are effects;
    `FileSystem` interprets the ones that change the output directory. */
module DmgBundle {
  import opened Wrappers
  import opened Effects
  import Paths

  /** What `bundle_project` reads from the bundler settings. */
  datatype Settings = Settings(
    projectOutDirectory: string,
    mainBinaryName: string,
    versionString: string,
    binaryArch: string,
    osxLicense: Option<string>,
    verbose: bool)

  // ---------------------------------------------------------------------------
  // Artifact names and paths

  /** The architecture as it appears in the file name: `x86_64` is written
      `x64`, every other architecture as it is. */
  function ArchLabel(arch: string): string {
    if arch == "x86_64" then "x64" else arch
  }

  /** `{binary}_{version}_{arch}`. */
  function PackageBaseName(s: Settings): string {
    s.mainBinaryName + "_" + s.versionString + "_" + ArchLabel(s.binaryArch)
  }

  function DmgName(s: Settings): string {
    PackageBaseName(s) + ".dmg"
  }

  function AppName(s: Settings): string {
    PackageBaseName(s) + ".app"
  }

  /** `<out>/bundle/dmg`, the directory the image is made in. */
  function OutputPath(s: Settings): string {
    Paths.Join(s.projectOutDirectory, "bundle/dmg")
  }

  /** `<out>/bundle/osx`, where the `.app` bundler leaves the application. */
  function BundleDir(s: Settings): string {
    Paths.Join(s.projectOutDirectory, "bundle/osx")
  }

  function DmgPath(s: Settings): string {
    Paths.Join(OutputPath(s), DmgName(s))
  }

  function BundlePath(s: Settings): string {
    Paths.Join(BundleDir(s), AppName(s))
  }

  function SupportDir(s: Settings): string {
    Paths.Join(OutputPath(s), "support")
  }

  function ScriptPath(s: Settings): string {
    Paths.Join(OutputPath(s), "bundle_dmg.sh")
  }

  function AppleScriptPath(s: Settings): string {
    Paths.Join(SupportDir(s), "template.applescript")
  }

  function LicenseScriptPath(s: Settings): string {
    Paths.Join(SupportDir(s), "dmg-license.py")
  }

  /** The binary `App`, version `1.2.0` on `x86_64` is packaged as
      `App_1.2.0_x64`. */
  lemma NamingExample(s: Settings)
    requires s.mainBinaryName == "App" && s.versionString == "1.2.0" && s.binaryArch == "x86_64"
    ensures PackageBaseName(s) == "App_1.2.0_x64"
    ensures DmgName(s) == "App_1.2.0_x64.dmg" && AppName(s) == "App_1.2.0_x64.app"
  {
  }

  /** Two architectures get the same label exactly when they are equal or are
      `x86_64` and `x64`, its canonical spelling. */
  lemma ArchLabelCollisions(a: string, b: string)
    ensures ArchLabel(a) == ArchLabel(b)
            <==> a == b || (a == "x86_64" && b == "x64") || (a == "x64" && b == "x86_64")
  {
  }

  /** The image lies in the output directory and the application in the
      `.app` bundler's directory; the two differ, and so do their names. */
  lemma ArtifactPaths(s: Settings)
    ensures Paths.InDir(OutputPath(s), DmgPath(s))
    ensures Paths.InDir(BundleDir(s), BundlePath(s))
    ensures DmgName(s) != AppName(s)
    ensures DmgPath(s) != BundlePath(s)
  {
    Paths.JoinIsInDir(OutputPath(s), DmgName(s));
    Paths.JoinIsInDir(BundleDir(s), AppName(s));
    var d := DmgName(s);
    assert d[|d| - 3] == 'd' && AppName(s)[|d| - 3] == 'a';
    var o := s.projectOutDirectory;
    assert DmgPath(s)[|o| + 8] == 'd' && BundlePath(s)[|o| + 8] == 'o';
  }

  /** The support files all lie in the output directory. */
  lemma SupportFilesInOutput(s: Settings)
    ensures Paths.InDir(OutputPath(s), SupportDir(s))
    ensures Paths.InDir(OutputPath(s), ScriptPath(s))
    ensures Paths.InDir(OutputPath(s), AppleScriptPath(s))
    ensures Paths.InDir(OutputPath(s), LicenseScriptPath(s))
  {
    Paths.JoinIsInDir(OutputPath(s), "support");
    Paths.JoinIsInDir(OutputPath(s), "bundle_dmg.sh");
    Paths.JoinIsInDir(SupportDir(s), "template.applescript");
    Paths.JoinIsInDir(SupportDir(s), "dmg-license.py");
    Paths.InDirTransitive(OutputPath(s), "support", AppleScriptPath(s));
    Paths.InDirTransitive(OutputPath(s), "support", LicenseScriptPath(s));
  }

  // ---------------------------------------------------------------------------
  // The arguments of `bundle_dmg.sh`

  /** Volume name and icon, the application icon and the drop link with their
      positions, the window size, and the hidden extension. */
  function WindowArguments(s: Settings): seq<string> {
    [ "--volname", PackageBaseName(s),
      "--volicon", "../../../../icons/icon.icns",
      "--icon", AppName(s), "180", "170",
      "--app-drop-link", "480", "170",
      "--window-size", "660", "400",
      "--hide-extension", AppName(s) ]
  }

  /** The licence agreement, when one is configured. */
  function EulaArguments(license: Option<string>): seq<string> {
    if license.Some? then ["--eula", license.value] else []
  }

  /** Skipping the Finder decoration on a continuous-integration machine, that
      is, when the variable `CI` holds exactly `true`. */
  function CiArguments(ci: Option<string>): seq<string> {
    if ci == Some("true") then ["--skip-jenkins"] else []
  }

  /** The script's whole argument list: the image and application names come
      last. */
  function ScriptArguments(s: Settings, ci: Option<string>): seq<string> {
    WindowArguments(s) + EulaArguments(s.osxLicense) + CiArguments(ci) + [DmgName(s), AppName(s)]
  }

  /** The argument vector of `bundle_project`, built by conditional pushes,
      followed by the two names passed to the command. */
  method AssembleArguments(s: Settings, ci: Option<string>) returns (args: seq<string>)
    ensures args == ScriptArguments(s, ci)
  {
    var base := PackageBaseName(s);
    var app := AppName(s);
    args := [ "--volname", base, "--volicon", "../../../../icons/icon.icns",
              "--icon", app, "180", "170", "--app-drop-link", "480", "170",
              "--window-size", "660", "400", "--hide-extension", app ];
    if s.osxLicense.Some? {
      args := args + ["--eula"];
      args := args + [s.osxLicense.value];
    }
    if ci.Some? {
      if ci.value == "true" {
        args := args + ["--skip-jenkins"];
      }
    }
    args := args + [DmgName(s), app];
  }

  /** The 16 window arguments come first and the two names last; in between
      stand two licence arguments exactly when a licence is configured, and
      then the CI flag exactly when `CI` is `true`. */
  lemma ArgumentsLayout(s: Settings, ci: Option<string>)
    ensures |ScriptArguments(s, ci)| >= 18
    ensures var args := ScriptArguments(s, ci);
            var middle := args[16..|args| - 2];
            && args[..16] == WindowArguments(s)
            && args[0] == "--volname" && args[1] == PackageBaseName(s)
            && args[|args| - 2..] == [DmgName(s), AppName(s)]
            && |middle| == (if s.osxLicense.Some? then 2 else 0) + (if ci == Some("true") then 1 else 0)
            && (s.osxLicense.Some? ==> middle[..2] == ["--eula", s.osxLicense.value])
            && (ci == Some("true") ==> middle[|middle| - 1] == "--skip-jenkins")
  {
    var args := ScriptArguments(s, ci);
    var optional := EulaArguments(s.osxLicense) + CiArguments(ci);
    assert |WindowArguments(s)| == 16;
    assert args == WindowArguments(s) + optional + [DmgName(s), AppName(s)];
    assert args[16..|args| - 2] == optional;
  }

  // ---------------------------------------------------------------------------
  // Errors

  const SCRIPT_ERROR := "error running bundle_dmg.sh"
  const VERBOSE_HINT := ", try running with --verbose to see command output"

  /** The message of a failed script run: the hint to rerun verbosely is added
      only when output was hidden. */
  function ScriptErrorMessage(verbose: bool): string {
    SCRIPT_ERROR + (if verbose then "" else VERBOSE_HINT)
  }

  /** The message always names the script, and it is the bare message exactly
      when the run was verbose. */
  lemma ScriptErrorMessageHint(verbose: bool)
    ensures ScriptErrorMessage(verbose)[..|SCRIPT_ERROR|] == SCRIPT_ERROR
    ensures ScriptErrorMessage(verbose) == SCRIPT_ERROR <==> verbose
    ensures !verbose ==> ScriptErrorMessage(verbose)[|SCRIPT_ERROR|..] == VERBOSE_HINT
  {
    if !verbose {
      assert |ScriptErrorMessage(verbose)| != |SCRIPT_ERROR|;
    }
  }

  /** `{:?}` of a path: the path in double quotes (escapes are not modelled). */
  function Quoted(path: string): string {
    "\"" + path + "\""
  }

  datatype BundleError =
    | AppBundleFailed                        // the `.app` bundler's own error, passed on
    | RemoveFailed(context: string)
    | CreateFailed(context: string)
    | PrintFailed
    | WriteFailed(path: string)
    | ChmodPanicked(message: string)         // `expect` on a chmod that could not start
    | ShellScriptError(message: string)
    | RenameFailed(from: string, to: string)

  // ---------------------------------------------------------------------------
  // The steps of `bundle_project`

  /** The three files written from the bundler's templates. */
  datatype Template = BundleDmgScript | AppleScriptTemplate | LicenseScript

  datatype DmgEffect =
    | BundleApp
    | RemoveDirAll(path: string)
    | CreateDirAll(path: string)
    | PrintBundling(message: string)
    | WriteTemplate(path: string, template: Template)
    | Chmod(paths: seq<string>, cwd: string)
    | PrintInfo(message: string)
    | RunScript(program: string, args: seq<string>, cwd: string)
    | Rename(from: string, to: string)

  /** The kinds of step, each of which can fail. */
  datatype DmgStep =
    | AppStep | RemoveStep | CreateStep | PrintBundlingStep | WriteStep(template: Template)
    | ChmodStep | PrintInfoStep | ScriptStep | RenameStep

  function StepOf(e: DmgEffect): DmgStep {
    match e
    case BundleApp => AppStep
    case RemoveDirAll(_) => RemoveStep
    case CreateDirAll(_) => CreateStep
    case PrintBundling(_) => PrintBundlingStep
    case WriteTemplate(_, t) => WriteStep(t)
    case Chmod(_, _) => ChmodStep
    case PrintInfo(_) => PrintInfoStep
    case RunScript(_, _, _) => ScriptStep
    case Rename(_, _) => RenameStep
  }

  /** The environment's answer for each step: the kinds in `failing` fail. */
  function Outcomes(failing: set<DmgStep>): DmgEffect -> bool {
    e => StepOf(e) in failing
  }

  /** The error `bundle_project` returns when effect `e` fails. */
  function ErrorOf(s: Settings, e: DmgEffect): BundleError {
    match e
    case BundleApp => AppBundleFailed
    case RemoveDirAll(_) => RemoveFailed("Failed to remove old " + DmgName(s))
    case CreateDirAll(p) => CreateFailed("Failed to create output directory at " + Quoted(p))
    case PrintBundling(_) => PrintFailed
    case WriteTemplate(p, _) => WriteFailed(p)
    case Chmod(_, _) => ChmodPanicked("Failed to chmod script")
    case PrintInfo(_) => PrintFailed
    case RunScript(_, _, _) => ShellScriptError(ScriptErrorMessage(s.verbose))
    case Rename(from, to) => RenameFailed(from, to)
  }

  /** The `.app` bundle, the reset of the output directory (removed only when
      it exists), the support directory and the announcement. */
  function ResetSteps(s: Settings, outputExists: bool): seq<DmgEffect> {
    [BundleApp]
    + (if outputExists then [RemoveDirAll(OutputPath(s))] else [])
    + [CreateDirAll(SupportDir(s)), PrintBundling(Quoted(DmgPath(s)))]
  }

  /** The three templates, written into the output directory. */
  function TemplateWrites(s: Settings): seq<DmgEffect> {
    [ WriteTemplate(ScriptPath(s), BundleDmgScript),
      WriteTemplate(AppleScriptPath(s), AppleScriptTemplate),
      WriteTemplate(LicenseScriptPath(s), LicenseScript) ]
  }

  /** Up to the templates. */
  function Preparation(s: Settings, outputExists: bool): seq<DmgEffect> {
    ResetSteps(s, outputExists) + TemplateWrites(s)
  }

  /** From the templates on: making the scripts executable, running
      `bundle_dmg.sh` from the `.app` bundler's directory, and moving the image
      it leaves there into the output directory. */
  function Packaging(s: Settings, ci: Option<string>): seq<DmgEffect> {
    [ Chmod([ScriptPath(s), LicenseScriptPath(s)], OutputPath(s)),
      PrintInfo("running bundle_dmg.sh"),
      RunScript(ScriptPath(s), ScriptArguments(s, ci), BundleDir(s)),
      Rename(Paths.Join(BundleDir(s), DmgName(s)), DmgPath(s)) ]
  }

  function Plan(s: Settings, ci: Option<string>, outputExists: bool): seq<DmgEffect> {
    Preparation(s, outputExists) + Packaging(s, ci)
  }

  /** The result and trace of running `plan`: the error of the first failing
      step, or `done` when none fails. */
  function RunPlan<R>(s: Settings, plan: seq<DmgEffect>, failing: set<DmgStep>, done: R)
    : (Result<R, BundleError>, seq<DmgEffect>)
  {
    var x := Perform(plan, Outcomes(failing));
    (if x.failed.None? then Success(done) else Failure(ErrorOf(s, x.failed.value)), x.performed)
  }

  /** What `bundle_project` returns, and the steps it takes, given the
      settings, the `CI` variable, whether the output directory exists, and
      the kinds of step that fail. */
  function BundleSpec(s: Settings, ci: Option<string>, outputExists: bool, failing: set<DmgStep>)
    : (Result<seq<string>, BundleError>, seq<DmgEffect>)
  {
    RunPlan(s, Plan(s, ci, outputExists), failing, [BundlePath(s), DmgPath(s)])
  }

  /** Lines 16-53 of `bundle_project`, each step propagating its error. */
  method ResetOutput(s: Settings, outputExists: bool, failing: set<DmgStep>)
    returns (res: Result<(), BundleError>, trace: seq<DmgEffect>)
    ensures (res, trace) == RunPlan(s, ResetSteps(s, outputExists), failing, ())
  {
    var fails := Outcomes(failing);
    ghost var plan := ResetSteps(s, outputExists);
    var ok;
    trace := [];
    trace, ok := Attempt(trace, BundleApp, fails, plan, 0);
    if !ok {
      return Failure(AppBundleFailed), trace;
    }
    var outputPath := OutputPath(s);
    ghost var k := 1;
    if outputExists {
      trace, ok := Attempt(trace, RemoveDirAll(outputPath), fails, plan, 1);
      if !ok {
        return Failure(RemoveFailed("Failed to remove old " + DmgName(s))), trace;
      }
      k := 2;
    }
    var support := SupportDir(s);
    trace, ok := Attempt(trace, CreateDirAll(support), fails, plan, k);
    if !ok {
      return Failure(CreateFailed("Failed to create output directory at " + Quoted(support))), trace;
    }
    trace, ok := Attempt(trace, PrintBundling(Quoted(DmgPath(s))), fails, plan, k + 1);
    if !ok {
      return Failure(PrintFailed), trace;
    }
    assert trace == plan;
    PerformCompleted(plan, fails);
    res := Success(());
  }

  /** Lines 55-67 of `bundle_project`, each write propagating its error. */
  method WriteTemplates(s: Settings, failing: set<DmgStep>)
    returns (res: Result<(), BundleError>, trace: seq<DmgEffect>)
    ensures (res, trace) == RunPlan(s, TemplateWrites(s), failing, ())
  {
    var fails := Outcomes(failing);
    ghost var plan := TemplateWrites(s);
    var ok;
    trace := [];
    var script := ScriptPath(s);
    trace, ok := Attempt(trace, WriteTemplate(script, BundleDmgScript), fails, plan, 0);
    if !ok {
      return Failure(WriteFailed(script)), trace;
    }
    var appleScript := AppleScriptPath(s);
    trace, ok := Attempt(trace, WriteTemplate(appleScript, AppleScriptTemplate), fails, plan, 1);
    if !ok {
      return Failure(WriteFailed(appleScript)), trace;
    }
    var licenseScript := LicenseScriptPath(s);
    trace, ok := Attempt(trace, WriteTemplate(licenseScript, LicenseScript), fails, plan, 2);
    if !ok {
      return Failure(WriteFailed(licenseScript)), trace;
    }
    assert trace == plan;
    PerformCompleted(plan, fails);
    res := Success(());
  }

  /** Lines 16-67 of `bundle_project`: the reset, then the templates. */
  method Prepare(s: Settings, outputExists: bool, failing: set<DmgStep>)
    returns (res: Result<(), BundleError>, trace: seq<DmgEffect>)
    ensures (res, trace) == RunPlan(s, Preparation(s, outputExists), failing, ())
  {
    ghost var reset := ResetSteps(s, outputExists);
    PerformAppend(reset, TemplateWrites(s), Outcomes(failing));
    PerformStopsAtFirstFailure(reset, Outcomes(failing));
    res, trace := ResetOutput(s, outputExists, failing);
    if res.Failure? {
      return;
    }
    assert trace == reset;
    var rest;
    res, rest := WriteTemplates(s, failing);
    trace := trace + rest;
  }

  /** Lines 69-131 of `bundle_project`, each step propagating its error. */
  method Package(s: Settings, ci: Option<string>, failing: set<DmgStep>)
    returns (res: Result<(), BundleError>, trace: seq<DmgEffect>)
    ensures (res, trace) == RunPlan(s, Packaging(s, ci), failing, ())
  {
    var fails := Outcomes(failing);
    ghost var plan := Packaging(s, ci);
    var ok;
    var script := ScriptPath(s);
    trace := [];
    trace, ok := Attempt(trace, Chmod([script, LicenseScriptPath(s)], OutputPath(s)), fails, plan, 0);
    if !ok {
      return Failure(ChmodPanicked("Failed to chmod script")), trace;
    }
    var args := AssembleArguments(s, ci);
    trace, ok := Attempt(trace, PrintInfo("running bundle_dmg.sh"), fails, plan, 1);
    if !ok {
      return Failure(PrintFailed), trace;
    }
    trace, ok := Attempt(trace, RunScript(script, args, BundleDir(s)), fails, plan, 2);
    if !ok {
      return Failure(ShellScriptError(ScriptErrorMessage(s.verbose))), trace;
    }
    var from := Paths.Join(BundleDir(s), DmgName(s));
    trace, ok := Attempt(trace, Rename(from, DmgPath(s)), fails, plan, 3);
    if !ok {
      return Failure(RenameFailed(from, DmgPath(s))), trace;
    }
    assert trace == plan;
    PerformCompleted(plan, fails);
    res := Success(());
  }

  /** `bundle_project`: on success, the application bundle and the image. */
  method BundleProject(s: Settings, ci: Option<string>, outputExists: bool, failing: set<DmgStep>)
    returns (res: Result<seq<string>, BundleError>, trace: seq<DmgEffect>)
    ensures (res, trace) == BundleSpec(s, ci, outputExists, failing)
  {
    ghost var prep := Preparation(s, outputExists);
    ghost var pack := Packaging(s, ci);
    PerformAppend(prep, pack, Outcomes(failing));
    PerformStopsAtFirstFailure(prep, Outcomes(failing));
    var r1, r2;
    r1, trace := Prepare(s, outputExists, failing);
    if r1.Failure? {
      return Failure(r1.error), trace;
    }
    assert trace == prep;
    var rest;
    r2, rest := Package(s, ci, failing);
    trace := trace + rest;
    if r2.Failure? {
      return Failure(r2.error), trace;
    }
    res := Success([BundlePath(s), DmgPath(s)]);
  }

  // ---------------------------------------------------------------------------
  // Properties of a run

  /** The `.app` bundle is made first, and when it fails nothing else
      happens. */
  lemma AppBundleComesFirst(s: Settings, ci: Option<string>, outputExists: bool, failing: set<DmgStep>)
    ensures var trace := BundleSpec(s, ci, outputExists, failing).1;
            |trace| > 0 && trace[0] == BundleApp
    ensures AppStep in failing ==> BundleSpec(s, ci, outputExists, failing) == (Failure(AppBundleFailed), [BundleApp])
  {
    PerformStopsAtFirstFailure(Plan(s, ci, outputExists), Outcomes(failing));
  }

  /** A run succeeds exactly when no step of the plan fails; it then returns
      the application bundle and the image, in that order, after moving the
      image from the `.app` bundler's directory into the output directory. A
      failed run returns the error of its last step, whose kind failed. */
  lemma BundleOutcome(s: Settings, ci: Option<string>, outputExists: bool, failing: set<DmgStep>)
    ensures var plan := Plan(s, ci, outputExists);
            var (res, trace) := BundleSpec(s, ci, outputExists, failing);
            && (res.Success? <==> forall e | e in plan :: StepOf(e) !in failing)
            && (res.Success? ==> res.value == [BundlePath(s), DmgPath(s)] && trace == plan
                                 && trace[|trace| - 1] == Rename(Paths.Join(BundleDir(s), DmgName(s)), DmgPath(s)))
            && (res.Failure? ==> |trace| > 0 && StepOf(trace[|trace| - 1]) in failing
                                 && res.error == ErrorOf(s, trace[|trace| - 1]))
  {
    var plan := Plan(s, ci, outputExists);
    var fails := Outcomes(failing);
    PerformStopsAtFirstFailure(plan, fails);
    if NoneFailBefore(plan, |plan|, fails) {
      forall e | e in plan ensures StepOf(e) !in failing {
        var j :| 0 <= j < |plan| && plan[j] == e;
        assert !fails(plan[j]);
      }
    } else {
      var j :| 0 <= j < |plan| && fails(plan[j]);
      assert plan[j] in plan;
    }
  }

  /** Packaging stops at the script when the script fails and the two steps
      before it succeed: the image is not moved. */
  lemma PackagingStopsAtScript(s: Settings, ci: Option<string>, failing: set<DmgStep>)
    requires ScriptStep in failing && ChmodStep !in failing && PrintInfoStep !in failing
    ensures var pack := Packaging(s, ci);
            Perform(pack, Outcomes(failing)) == Execution(pack[..3], Some(pack[2]))
  {
    var pack := Packaging(s, ci);
    var fails := Outcomes(failing);
    PerformAfterPrefix(pack, 2, fails);
    assert pack[2..][0] == pack[2];
    assert pack[..2] + [pack[2]] == pack[..3];
  }

  /** No step of the preparation runs the script. */
  lemma PreparationRunsNoScript(s: Settings, outputExists: bool)
    ensures NoneFailBefore(Preparation(s, outputExists), |Preparation(s, outputExists)|, Outcomes({ScriptStep}))
  {
    var prep := Preparation(s, outputExists);
    forall i | 0 <= i < |prep|
      ensures StepOf(prep[i]) != ScriptStep
    {
      assert prep[i] in ResetSteps(s, outputExists) || prep[i] in TemplateWrites(s);
    }
  }

  /** With `bundle_dmg.sh` the only step that fails, the run reports the script
      error, worded by the verbosity, after running the script and before
      moving anything. */
  lemma ScriptFailureReported(s: Settings, ci: Option<string>, outputExists: bool)
    ensures var (res, trace) := BundleSpec(s, ci, outputExists, {ScriptStep});
            && res == Failure(ShellScriptError(ScriptErrorMessage(s.verbose)))
            && trace == Preparation(s, outputExists) + Packaging(s, ci)[..3]
  {
    var prep := Preparation(s, outputExists);
    var pack := Packaging(s, ci);
    var fails := Outcomes({ScriptStep});
    PreparationRunsNoScript(s, outputExists);
    PerformCompleted(prep, fails);
    assert Perform(prep, fails).failed.None?;
    PerformAppend(prep, pack, fails);
    PackagingStopsAtScript(s, ci, {ScriptStep});
    var x := Perform(prep + pack, fails);
    assert x == Execution(prep + pack[..3], Some(pack[2]));
    assert ErrorOf(s, pack[2]) == ShellScriptError(ScriptErrorMessage(s.verbose));
  }

  // ---------------------------------------------------------------------------
  // The output directory on disk

  datatype Content = FromTemplate(template: Template) | Data(data: string)

  /** Directories and files by path. */
  datatype FileSystem = FileSystem(dirs: set<string>, files: map<string, Content>)

  /** `path` is `dir` or lies inside it. */
  predicate Within(dir: string, path: string) {
    path == dir || Paths.InDir(dir, path)
  }

  /** The directories `create_dir_all` creates above `path`. */
  function Ancestors(path: string): set<string> {
    set i | 0 < i < |path| && path[i] == '/' :: path[..i]
  }

  predicate Exists(fs: FileSystem, path: string) {
    path in fs.dirs || path in fs.files
  }

  /** The part of `fs` at or inside `dir`. */
  function Under(fs: FileSystem, dir: string): FileSystem {
    FileSystem(set d | d in fs.dirs && Within(dir, d),
               map f | f in fs.files && Within(dir, f) :: fs.files[f])
  }

  /** Nothing lies inside a path that does not exist. */
  predicate Rooted(fs: FileSystem, path: string) {
    !Exists(fs, path) ==> Under(fs, path) == FileSystem({}, map[])
  }

  /** What an effect does to the file system. The `.app` bundler, printing,
      the permissions change and the script are not interpreted. */
  function Apply(fs: FileSystem, e: DmgEffect): FileSystem {
    match e
    case RemoveDirAll(p) =>
      FileSystem(set d | d in fs.dirs && !Within(p, d),
                 map f | f in fs.files && !Within(p, f) :: fs.files[f])
    case CreateDirAll(p) => fs.(dirs := fs.dirs + Ancestors(p) + {p})
    case WriteTemplate(p, t) => fs.(files := fs.files[p := FromTemplate(t)])
    case Rename(from, to) =>
      if from in fs.files then fs.(files := (fs.files - {from})[to := fs.files[from]]) else fs
    case _ => fs
  }

  /** The effects applied one after another. */
  function ApplyAll(fs: FileSystem, effects: seq<DmgEffect>): FileSystem {
    if effects == [] then fs
    else Apply(ApplyAll(fs, effects[..|effects| - 1]), effects[|effects| - 1])
  }

  /** Removing a directory leaves nothing inside it. */
  lemma RemoveEmpties(fs: FileSystem, dir: string)
    ensures Under(Apply(fs, RemoveDirAll(dir)), dir) == FileSystem({}, map[])
  {
    var r := Under(Apply(fs, RemoveDirAll(dir)), dir);
    assert r.files.Keys == {};
  }

  /** Creating the support directory adds it and the output directory to
      what lies in the output directory, and nothing else. */
  lemma CreateSupport(fs: FileSystem, s: Settings)
    ensures Under(Apply(fs, CreateDirAll(SupportDir(s))), OutputPath(s))
            == Under(fs, OutputPath(s)).(dirs := Under(fs, OutputPath(s)).dirs + {OutputPath(s), SupportDir(s)})
  {
    var out := OutputPath(s);
    var sup := SupportDir(s);
    SupportFilesInOutput(s);
    assert sup[..|out|] == out && sup[|out|] == '/';
    assert sup[|out| + 1..] == "support";
    forall k | |out| < k < |sup|
      ensures sup[k] != '/'
    {
      assert sup[k] == "support"[k - |out| - 1];
    }
    forall d | d in Ancestors(sup) && Within(out, d)
      ensures d == out
    {
      var i :| 0 < i < |sup| && sup[i] == '/' && d == sup[..i];
    }
    assert out in Ancestors(sup);
  }

  /** Writing a file inside `dir` adds it to what lies there. */
  lemma WriteInside(fs: FileSystem, dir: string, p: string, t: Template)
    requires Within(dir, p)
    ensures Under(Apply(fs, WriteTemplate(p, t)), dir)
            == Under(fs, dir).(files := Under(fs, dir).files[p := FromTemplate(t)])
  {
  }

  /** Applying one more effect. */
  lemma ApplyAllSnoc(fs: FileSystem, effects: seq<DmgEffect>, e: DmgEffect)
    ensures ApplyAll(fs, effects + [e]) == Apply(ApplyAll(fs, effects), e)
  {
    assert (effects + [e])[..|effects|] == effects;
  }

  /** However the output directory looked before (or whether it existed), once
      the templates are written it holds exactly itself, the support
      directory and the three fresh templates: nothing stale survives. */
  lemma FreshOutputDirectory(fs: FileSystem, s: Settings)
    requires Rooted(fs, OutputPath(s))
    ensures Under(ApplyAll(fs, Preparation(s, Exists(fs, OutputPath(s)))), OutputPath(s))
            == FileSystem({OutputPath(s), SupportDir(s)},
                          map[ScriptPath(s) := FromTemplate(BundleDmgScript),
                              AppleScriptPath(s) := FromTemplate(AppleScriptTemplate),
                              LicenseScriptPath(s) := FromTemplate(LicenseScript)])
  {
    var out := OutputPath(s);
    var present := Exists(fs, out);
    // The `.app` bundle, then the reset.
    var p0 := [BundleApp];
    ApplyAllSnoc(fs, [], BundleApp);
    var p1 := if present then p0 + [RemoveDirAll(out)] else p0;
    if present {
      ApplyAllSnoc(fs, p0, RemoveDirAll(out));
      RemoveEmpties(fs, out);
    }
    assert Under(ApplyAll(fs, p1), out) == FileSystem({}, map[]);
    // The support directory.
    var p2 := p1 + [CreateDirAll(SupportDir(s))];
    ApplyAllSnoc(fs, p1, CreateDirAll(SupportDir(s)));
    CreateSupport(ApplyAll(fs, p1), s);
    // The announcement and the templates.
    var p3 := p2 + [PrintBundling(Quoted(DmgPath(s)))];
    ApplyAllSnoc(fs, p2, PrintBundling(Quoted(DmgPath(s))));
    SupportFilesInOutput(s);
    var p4 := p3 + [WriteTemplate(ScriptPath(s), BundleDmgScript)];
    ApplyAllSnoc(fs, p3, WriteTemplate(ScriptPath(s), BundleDmgScript));
    WriteInside(ApplyAll(fs, p3), out, ScriptPath(s), BundleDmgScript);
    var p5 := p4 + [WriteTemplate(AppleScriptPath(s), AppleScriptTemplate)];
    ApplyAllSnoc(fs, p4, WriteTemplate(AppleScriptPath(s), AppleScriptTemplate));
    WriteInside(ApplyAll(fs, p4), out, AppleScriptPath(s), AppleScriptTemplate);
    var p6 := p5 + [WriteTemplate(LicenseScriptPath(s), LicenseScript)];
    ApplyAllSnoc(fs, p5, WriteTemplate(LicenseScriptPath(s), LicenseScript));
    WriteInside(ApplyAll(fs, p5), out, LicenseScriptPath(s), LicenseScript);
    assert p3 == ResetSteps(s, present);
    assert p6 == p3 + TemplateWrites(s);
  }
}
