/** The `tauri.conf.json` configuration of the build CLI: the typed configuration
    tree with a default for every field, the codec of the embedded-server port,
    the schema check that turns a JSON document into that tree, the override
    patch, and the process-wide cache that loads the configuration once. */
module Config {
  import opened Wrappers
  import opened Json

  /** An unsigned 16-bit integer (Rust `u16`). */
  type U16 = n: int | 0 <= n < 0x1_0000

  /** One more than the largest JSON integer serde_json reads as an unsigned
      64-bit value; larger integers are read as floating-point numbers. */
  const U64_LIMIT: int := 0x1_0000_0000_0000_0000

  // ---------------------------------------------------------------------------
  // The embedded-server port

  /** The embedded-server port: a fixed number, or one chosen at run time. */
  datatype Port = Value(port: U16) | Random

  const PORT_EXPECTING: string := "a port number or the 'random' string"
  const PORT_STRING_ERROR: string := "expected a 'random' string or a port number"

  function InvalidType(expected: string): string {
    "invalid type: expected " + expected
  }

  /** `port_serializer`: `Random` is written as the string "random", a fixed port
      as the number. */
  function SerializePort(p: Port): (j: Json)
    ensures j.String? <==> p.Random?
    ensures p.Value? ==> j.Number? && 0 <= j.n < 0x1_0000
  {
    match p
    case Random => String("random")
    case Value(v) => Number(v)
  }

  /** `port_deserializer`: exactly the string "random" and the unsigned 64-bit
      integers are accepted; an integer is cast to `u16`, so it is truncated
      modulo 65536 rather than rejected. */
  function DeserializePort(j: Json): (r: Result<Port, string>)
    ensures r.Success? <==> j == String("random") || (j.Number? && 0 <= j.n < U64_LIMIT)
    ensures r.Success? && j.String? ==> SerializePort(r.value) == j
    ensures r.Success? && j.Number? ==> SerializePort(r.value) == Number(j.n % 0x1_0000)
  {
    match j
    case String(s) => if s != "random" then Failure(PORT_STRING_ERROR) else Success(Random)
    case Number(n) =>
      if 0 <= n < U64_LIMIT then Success(Value(n % 0x1_0000)) else Failure(InvalidType(PORT_EXPECTING))
    case _ => Failure(InvalidType(PORT_EXPECTING))
  }

  /** Writing a port and reading it back gives the same port. */
  lemma PortRoundTrip(p: Port)
    ensures DeserializePort(SerializePort(p)) == Success(p)
  {
  }

  /** A string other than "random" is an error with the visitor's message. */
  lemma PortRejectsOtherStrings(s: string)
    requires s != "random"
    ensures DeserializePort(String(s)) == Failure(PORT_STRING_ERROR)
  {
  }

  /** 65616 does not fit in 16 bits and is read as port 80. */
  lemma PortTruncatesExample()
    ensures DeserializePort(Number(65616)) == Success(Value(80))
  {
  }

  // ---------------------------------------------------------------------------
  // The typed configuration tree

  datatype EmbeddedServerConfig = EmbeddedServerConfig(host: string, port: Port)

  /** A CLI argument definition: its required `name`, with the remaining fields
      kept as the raw JSON object. */
  datatype CliArg = CliArg(name: string, fields: map<string, Json>)

  /** The CLI root command definition. */
  datatype CliConfig = CliConfig(
    description: Option<string>,
    longDescription: Option<string>,
    beforeHelp: Option<string>,
    afterHelp: Option<string>,
    args: Option<seq<CliArg>>,
    subcommands: Option<map<string, CliConfig>>)
  {
    /** List of args for the command. */
    function Args(): Option<seq<CliArg>> { args }

    /** Subcommands of this command. */
    function Subcommands(): Option<map<string, CliConfig>> { subcommands }

    /** Command description shown in the help information. */
    function Description(): Option<string> { description }

    /** The long description accessor; as written it returns the `description`
        field, not `longDescription`. */
    function LongDescription(): Option<string> { description }

    /** The long description accessor as evidently intended: the
        `longDescription` field. */
    function IntendedLongDescription(): Option<string> { longDescription }

    function BeforeHelp(): Option<string> { beforeHelp }

    function AfterHelp(): Option<string> { afterHelp }
  }

  datatype BundleConfig = BundleConfig(active: bool, identifier: string)

  datatype TauriConfig = TauriConfig(
    embeddedServer: EmbeddedServerConfig,
    cli: Option<CliConfig>,
    bundle: BundleConfig,
    allowlist: map<string, bool>)

  datatype BuildConfig = BuildConfig(
    devPath: string,
    distDir: string,
    beforeDevCommand: Option<string>,
    beforeBuildCommand: Option<string>,
    withGlobalTauri: bool)

  datatype Config = Config(
    tauri: TauriConfig,
    build: BuildConfig,
    plugins: map<string, map<string, Json>>)

  // ---------------------------------------------------------------------------
  // Defaults of omitted fields

  function DefaultHost(): string { "http://127.0.0.1" }

  function DefaultPort(): Port { Random }

  function DefaultEmbeddedServer(): EmbeddedServerConfig {
    EmbeddedServerConfig(DefaultHost(), DefaultPort())
  }

  function DefaultBundle(): BundleConfig { BundleConfig(false, "") }

  function DefaultDevPath(): string { "" }

  function DefaultDistDir(): string { "../dist" }

  function DefaultTauri(): TauriConfig {
    TauriConfig(DefaultEmbeddedServer(), None, DefaultBundle(), map[])
  }

  function DefaultBuild(): BuildConfig {
    BuildConfig(DefaultDevPath(), DefaultDistDir(), None, None, false)
  }

  // ---------------------------------------------------------------------------
  // Reading the typed tree from a JSON document (serde's derived Deserialize)

  function AsString(j: Json): Result<string, string> {
    if j.String? then Success(j.s) else Failure(InvalidType("a string"))
  }

  function AsBool(j: Json): Result<bool, string> {
    if j.Bool? then Success(j.b) else Failure(InvalidType("a boolean"))
  }

  /** An `Option<String>` field: `null` reads as `None`. */
  function AsOptionalString(j: Json): Result<Option<string>, string> {
    match j
    case Null => Success(None)
    case String(s) => Success(Some(s))
    case _ => Failure(InvalidType("a string"))
  }

  /** A field with a default: an absent key gives the default. */
  function FieldOr<T>(m: map<string, Json>, key: string, default: T, read: Json -> Result<T, string>): Result<T, string> {
    if key in m then read(m[key]) else Success(default)
  }

  /** A field without a default: an absent key is an error. */
  function RequiredField<T>(m: map<string, Json>, key: string, read: Json -> Result<T, string>): Result<T, string> {
    if key in m then read(m[key]) else Failure("missing field `" + key + "`")
  }

  function ParseEmbeddedServer(j: Json): Result<EmbeddedServerConfig, string> {
    if !j.Object? then Failure(InvalidType("struct EmbeddedServerConfig"))
    else
      var host :- FieldOr(j.members, "host", DefaultHost(), AsString);
      var port :- FieldOr(j.members, "port", DefaultPort(), DeserializePort);
      Success(EmbeddedServerConfig(host, port))
  }

  function ParseBundle(j: Json): Result<BundleConfig, string> {
    if !j.Object? then Failure(InvalidType("struct BundleConfig"))
    else
      var active :- FieldOr(j.members, "active", false, AsBool);
      var identifier :- RequiredField(j.members, "identifier", AsString);
      Success(BundleConfig(active, identifier))
  }

  function ParseAllowlist(j: Json): Result<map<string, bool>, string> {
    if j.Object? && forall k | k in j.members :: j.members[k].Bool? then
      Success(map k | k in j.members :: j.members[k].b)
    else Failure(InvalidType("a map of booleans"))
  }

  function ParseCliArg(j: Json): Result<CliArg, string> {
    if !j.Object? then Failure(InvalidType("struct CliArg"))
    else
      var name :- RequiredField(j.members, "name", AsString);
      Success(CliArg(name, j.members))
  }

  function ParseCliArgs(items: seq<Json>): (r: Result<seq<CliArg>, string>)
    ensures r.Success? ==> |r.value| == |items|
  {
    if items == [] then Success([])
    else
      var first :- ParseCliArg(items[0]);
      var rest :- ParseCliArgs(items[1..]);
      Success([first] + rest)
  }

  function ParseCli(j: Json): Result<CliConfig, string>
    decreases j
  {
    if !j.Object? then Failure(InvalidType("struct CliConfig"))
    else
      var m := j.members;
      var description :- FieldOr(m, "description", None, AsOptionalString);
      var longDescription :- FieldOr(m, "longDescription", None, AsOptionalString);
      var beforeHelp :- FieldOr(m, "beforeHelp", None, AsOptionalString);
      var afterHelp :- FieldOr(m, "afterHelp", None, AsOptionalString);
      var args :-
        if "args" !in m || m["args"].Null? then Success(None)
        else if m["args"].Array? then
          var parsed :- ParseCliArgs(m["args"].items);
          Success(Some(parsed))
        else Failure(InvalidType("a sequence"));
      var subcommands :-
        if "subcommands" !in m then Success(None)
        else match m["subcommands"]
          case Null => Success(None)
          case Object(subs) =>
            if forall k | k in subs :: ParseCli(subs[k]).Success? then
              Success(Some(map k | k in subs :: ParseCli(subs[k]).value))
            else Failure(InvalidType("a map of commands"))
          case _ => Failure(InvalidType("a map of commands"));
      Success(CliConfig(description, longDescription, beforeHelp, afterHelp, args, subcommands))
  }

  function ParseTauri(j: Json): Result<TauriConfig, string> {
    if !j.Object? then Failure(InvalidType("struct TauriConfig"))
    else
      var m := j.members;
      var embeddedServer :- FieldOr(m, "embeddedServer", DefaultEmbeddedServer(), ParseEmbeddedServer);
      var cli :-
        if "cli" !in m || m["cli"].Null? then Success(None)
        else
          var c :- ParseCli(m["cli"]);
          Success(Some(c));
      var bundle :- FieldOr(m, "bundle", DefaultBundle(), ParseBundle);
      var allowlist :- FieldOr(m, "allowlist", map[], ParseAllowlist);
      Success(TauriConfig(embeddedServer, cli, bundle, allowlist))
  }

  function ParseBuild(j: Json): Result<BuildConfig, string> {
    if !j.Object? then Failure(InvalidType("struct BuildConfig"))
    else
      var m := j.members;
      var devPath :- FieldOr(m, "devPath", DefaultDevPath(), AsString);
      var distDir :- FieldOr(m, "distDir", DefaultDistDir(), AsString);
      var beforeDevCommand :- FieldOr(m, "beforeDevCommand", None, AsOptionalString);
      var beforeBuildCommand :- FieldOr(m, "beforeBuildCommand", None, AsOptionalString);
      var withGlobalTauri :- FieldOr(m, "withGlobalTauri", false, AsBool);
      Success(BuildConfig(devPath, distDir, beforeDevCommand, beforeBuildCommand, withGlobalTauri))
  }

  function ParsePlugins(j: Json): Result<map<string, map<string, Json>>, string> {
    if j.Object? && forall k | k in j.members :: j.members[k].Object? then
      Success(map k | k in j.members :: j.members[k].members)
    else Failure(InvalidType("a map of objects"))
  }

  /** `serde_json::from_value::<Config>`: every omitted field takes its default;
      a value of the wrong type at a known field is an error. */
  function ParseConfig(j: Json): Result<Config, string> {
    if !j.Object? then Failure(InvalidType("struct Config"))
    else
      var m := j.members;
      var tauri :- FieldOr(m, "tauri", DefaultTauri(), ParseTauri);
      var build :- FieldOr(m, "build", DefaultBuild(), ParseBuild);
      var plugins :- FieldOr(m, "plugins", map[], ParsePlugins);
      Success(Config(tauri, build, plugins))
  }

  /** An empty configuration document reads as the documented defaults. */
  lemma OmittedConfigDefaults()
    ensures ParseConfig(Object(map[])).Success?
    ensures var c := ParseConfig(Object(map[])).value;
            && c.tauri.embeddedServer.host == "http://127.0.0.1"
            && c.tauri.embeddedServer.port == Random
            && c.tauri.bundle.active == false
            && c.tauri.bundle.identifier == ""
            && c.tauri.cli == None
            && c.tauri.allowlist == map[]
            && c.build.devPath == ""
            && c.build.distDir == "../dist"
            && c.build.beforeDevCommand == None
            && c.build.beforeBuildCommand == None
            && c.build.withGlobalTauri == false
            && c.plugins == map[]
  {
  }

  /** A `bundle` section is allowed to omit `active`, which then is false, but
      not `identifier`, whatever else the section holds. */
  lemma BundleIdentifierIsRequired(m: map<string, Json>, id: string)
    ensures "identifier" !in m ==> ParseBundle(Object(m)).Failure?
    ensures "active" !in m && "identifier" in m && m["identifier"].String? ==>
              ParseBundle(Object(m)) == Success(BundleConfig(false, m["identifier"].s))
    ensures ParseBundle(Object(map["identifier" := String(id)])) == Success(BundleConfig(false, id))
  {
  }

  /** The long description accessor ignores the `longDescription` field: a CLI
      section that only sets `longDescription` has none. */
  lemma LongDescriptionReadsDescription(text: string)
    ensures ParseCli(Object(map["longDescription" := String(text)])).Success?
    ensures var c := ParseCli(Object(map["longDescription" := String(text)])).value;
            c.longDescription == Some(text) && c.LongDescription() == None
  {
  }

  /** With the intended accessor, the long description read from a CLI section
      is the `longDescription` member of the document, whatever `description`
      holds. */
  lemma IntendedLongDescriptionReadsField(j: Json)
    requires ParseCli(j).Success?
    ensures var c := ParseCli(j).value;
            && (c.IntendedLongDescription().Some? <==> "longDescription" in j.members && j.members["longDescription"].String?)
            && (c.IntendedLongDescription().Some? ==> c.IntendedLongDescription().value == j.members["longDescription"].s)
  {
  }

  // ---------------------------------------------------------------------------
  // Loading: read, parse, patch, check

  /** A text that is or is not valid JSON; the text itself is not modelled. */
  datatype Document = Malformed | WellFormed(value: Json)

  datatype ConfigError =
    | OpenFailed                     // the file could not be opened
    | ParseFailed                    // the file is not valid JSON
    | PatchParseFailed               // the override is not valid JSON
    | SchemaInvalid(message: string) // the merged document does not fit the schema

  /** The document the schema check sees: the file's JSON with the override
      merged in when one is given. */
  function Merged(base: Json, mergeConfig: Option<Document>): Result<Json, ConfigError> {
    match mergeConfig
    case None => Success(base)
    case Some(Malformed) => Failure(PatchParseFailed)
    case Some(WellFormed(patch)) => Success(MergePatch(base, patch))
  }

  /** What one load produces from the file (`None` when it cannot be opened)
      and the optional override. */
  function Load(file: Option<Document>, mergeConfig: Option<Document>): (r: Result<Config, ConfigError>)
    ensures file.None? ==> r == Failure(OpenFailed)
    ensures file == Some(Malformed) ==> r == Failure(ParseFailed)
    ensures file.Some? && file.value.WellFormed? && mergeConfig == Some(Malformed) ==> r == Failure(PatchParseFailed)
  {
    match file
    case None => Failure(OpenFailed)
    case Some(Malformed) => Failure(ParseFailed)
    case Some(WellFormed(base)) =>
      var merged :- Merged(base, mergeConfig);
      match ParseConfig(merged)
      case Success(c) => Success(c)
      case Failure(message) => Failure(SchemaInvalid(message))
  }

  /** Without an override, a file holding `{}` loads as the defaults. */
  lemma EmptyFileLoadsDefaults()
    ensures Load(Some(WellFormed(Object(map[]))), None)
            == Success(Config(DefaultTauri(), DefaultBuild(), map[]))
  {
  }

  /** The empty override `{}` changes nothing. */
  lemma EmptyPatchLoadsAsNoPatch(base: Json)
    requires base.Object?
    ensures Load(Some(WellFormed(base)), Some(WellFormed(Object(map[])))) == Load(Some(WellFormed(base)), None)
  {
    MergeEmptyPatchIsIdentity(base);
  }

  /** An override that sets `build.distDir` changes that field and nothing else
      of a configuration that loaded before. */
  lemma PatchOverridesDistDir(base: Json, dir: string)
    requires ParseConfig(base).Success?
    ensures var patch := Object(map["build" := Object(map["distDir" := String(dir)])]);
            var r := Load(Some(WellFormed(base)), Some(WellFormed(patch)));
            var c := ParseConfig(base).value;
            r == Success(c.(build := c.build.(distDir := dir)))
  {
    var inner := Object(map["distDir" := String(dir)]);
    var m := base.members;
    BuildSectionPatch(MemberOrNull(m, "build"), dir);
    assert MergePatch(base, Object(map["build" := inner])).members
           == m["build" := MergePatch(MemberOrNull(m, "build"), inner)];
  }

  /** The build section of `PatchOverridesDistDir`: an absent section becomes the
      defaults with the new directory. */
  lemma BuildSectionPatch(section: Json, dir: string)
    requires section == Null || ParseBuild(section).Success?
    ensures var inner := Object(map["distDir" := String(dir)]);
            var was := if section == Null then DefaultBuild() else ParseBuild(section).value;
            ParseBuild(MergePatch(section, inner)) == Success(was.(distDir := dir))
  {
    var inner := Object(map["distDir" := String(dir)]);
    assert MergePatch(section, inner).members == BaseMembers(section)["distDir" := String(dir)];
  }

  /** The tauri section of `NullPatchRestoresBundleDefault`: with `bundle`
      deleted, the section reads as before but with the default bundle. */
  lemma TauriSectionWithoutBundle(section: Json)
    requires section == Null || ParseTauri(section).Success?
    ensures var inner := Object(map["bundle" := Null]);
            var was := if section == Null then DefaultTauri() else ParseTauri(section).value;
            ParseTauri(MergePatch(section, inner)) == Success(was.(bundle := DefaultBundle()))
  {
    var inner := Object(map["bundle" := Null]);
    assert MergePatch(section, inner).members == BaseMembers(section) - {"bundle"};
  }

  /** An override member `null` deletes the key, so the field falls back to its
      default: `{"tauri": {"bundle": null}}` resets the bundle section. */
  lemma NullPatchRestoresBundleDefault(base: Json)
    requires ParseConfig(base).Success?
    ensures var patch := Object(map["tauri" := Object(map["bundle" := Null])]);
            var r := Load(Some(WellFormed(base)), Some(WellFormed(patch)));
            var c := ParseConfig(base).value;
            r == Success(c.(tauri := c.tauri.(bundle := DefaultBundle())))
  {
    var inner := Object(map["bundle" := Null]);
    var patch := Object(map["tauri" := inner]);
    var m := base.members;
    var merged := MergePatch(base, patch);
    assert merged.members == m["tauri" := MergePatch(MemberOrNull(m, "tauri"), inner)];
    TauriSectionWithoutBundle(MemberOrNull(m, "tauri"));
  }

  // ---------------------------------------------------------------------------
  // The process-wide cache

  /** The cached configuration behind `config_handle()`. The lock and the
      reference-counted handle are not modelled: callers receive the value. */
  class ConfigStore {
    var cached: Option<Config>

    constructor ()
      ensures cached == None
    {
      cached := None;
    }

    /** `get_internal`: returns the cached configuration unless it is empty or
        `reload` is set; otherwise loads it again and, on success only, stores
        it. Every failure leaves the cache as it was. */
    method GetInternal(mergeConfig: Option<Document>, reload: bool, file: Option<Document>)
      returns (r: Result<Config, ConfigError>)
      modifies this
      ensures !reload && old(cached).Some? ==> r == Success(old(cached).value) && cached == old(cached)
      ensures reload || old(cached).None? ==> r == Load(file, mergeConfig)
      ensures reload || old(cached).None? ==>
                cached == if r.Success? then Some(r.value) else old(cached)
    {
      if !reload && cached.Some? {
        return Success(cached.value);
      }
      if file.None? {
        return Failure(OpenFailed);
      }
      if file.value.Malformed? {
        return Failure(ParseFailed);
      }
      var config := file.value.value;
      if mergeConfig.Some? {
        if mergeConfig.value.Malformed? {
          return Failure(PatchParseFailed);
        }
        config := MergePatch(config, mergeConfig.value.value);
      }
      var parsed := ParseConfig(config);
      if parsed.Failure? {
        return Failure(SchemaInvalid(parsed.error));
      }
      cached := Some(parsed.value);
      return Success(parsed.value);
    }

    /** `get`: the cached configuration, loading it on first use. */
    method Get(mergeConfig: Option<Document>, file: Option<Document>) returns (r: Result<Config, ConfigError>)
      modifies this
      ensures old(cached).Some? ==> r == Success(old(cached).value) && cached == old(cached)
      ensures old(cached).None? ==> r == Load(file, mergeConfig)
      ensures old(cached).None? ==> cached == if r.Success? then Some(r.value) else None
    {
      r := GetInternal(mergeConfig, false, file);
    }

    /** `reload`: always loads again and, on success, replaces the cache. */
    method Reload(mergeConfig: Option<Document>, file: Option<Document>) returns (r: Result<(), ConfigError>)
      modifies this
      ensures r.Success? <==> Load(file, mergeConfig).Success?
      ensures r.Failure? ==> r.error == Load(file, mergeConfig).error && cached == old(cached)
      ensures r.Success? ==> cached == Some(Load(file, mergeConfig).value)
    {
      var loaded := GetInternal(mergeConfig, true, file);
      if loaded.Failure? {
        return Failure(loaded.error);
      }
      return Success(());
    }
  }

  /** A second `get` returns what the first returned and neither re-reads nor
      changes the cache, whatever the file and override are by then. */
  method SecondGetIsCached(store: ConfigStore, merge1: Option<Document>, file1: Option<Document>,
                           merge2: Option<Document>, file2: Option<Document>)
    returns (first: Result<Config, ConfigError>, second: Result<Config, ConfigError>)
    modifies store
    ensures first.Success? ==> second == first && store.cached == Some(first.value)
  {
    first := store.Get(merge1, file1);
    second := store.Get(merge2, file2);
  }
}
