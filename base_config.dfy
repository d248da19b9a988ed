/**
 * src/BaseConfig.ts: the state shared by the client and server builders and
 * the three fragments they are assembled from (common, development overlay,
 * production overlay).
 */
module BaseConfig {
  import opened Wrappers
  import Js
  import Json
  import Paths
  import AppConfig
  import EnvHolder
  import DotEnv
  import opened Webpack

  datatype BuildError =
    | MissingNodeEnv     // NODE_ENV unset or empty when a builder is constructed
    | InvalidArguments   // an alias with an empty name or target

  /** What a builder reads from outside the program. */
  datatype Host = Host(
    env: DotEnv.Env,                      // the process environment at construction
    appFile: Option<AppConfig.AppFile>,   // what app.config.js exports; None when there is no such file
    loadDotEnv: DotEnv.Loader,            // loading the candidate dot-env files into the environment
    buildTime: string)                    // the local time string taken at construction

  /** An entry as a value: one path, or a caller-owned array of paths. */
  datatype EntryValue = Single(path: string) | List(paths: array<string>)

  /** An entry, or a function of the development flag giving one. */
  datatype EntryObject = Entry(value: EntryValue) | EntryOf(f: bool -> EntryValue)

  /** A target name, or a function of the development flag giving one. */
  datatype TargetObject = Target(name: string) | TargetOf(f: bool -> string)

  function Apply(entry: EntryObject, dev: bool): EntryValue {
    match entry
    case Entry(v) => v
    case EntryOf(f) => f(dev)
  }

  /** The paths an entry value stands for, read out of the caller's array when it is one. */
  function Items(e: EntryValue): (r: seq<string>)
    reads if e.List? then {e.paths} else {}
    ensures e.Single? ==> r == [e.path]
    ensures e.List? ==> r == e.paths[..]
  {
    match e
    case Single(p) => [p]
    case List(a) => a[..]
  }

  /** NODE_ENV must be set and non-empty; the build is a development one unless it is "production". */
  function DevFlag(env: DotEnv.Env): (r: Result<bool, BuildError>)
    ensures r.Failure? <==> "NODE_ENV" !in env || env["NODE_ENV"] == ""
    ensures r.Failure? ==> r.error == MissingNodeEnv
    ensures r.Success? ==> (r.value <==> env["NODE_ENV"] != "production")
  {
    if "NODE_ENV" !in env || env["NODE_ENV"] == "" then Failure(MissingNodeEnv)
    else Success(env["NODE_ENV"] != "production")
  }

  /** How entries and alias targets are resolved: absolute ones on their own, relative ones against the root. */
  function ResolveAgainst(rootPath: string, target: string): (r: string)
    ensures Paths.IsAbsolute(r)
  {
    if Paths.StartsWith(target, "/") then Paths.Resolve([target]) else Paths.Resolve([rootPath, target])
  }

  /** The explicit absolute check agrees with resolving against the root, which ignores the root for absolute targets. */
  lemma ResolveAgainstIsResolve(rootPath: string, target: string)
    ensures ResolveAgainst(rootPath, target) == Paths.Resolve([rootPath, target])
    ensures Paths.IsAbsolute(target) ==> ResolveAgainst(rootPath, target) == target
  {
    if Paths.IsAbsolute(target) {
      Paths.ResolveAbsolute(rootPath, target);
    }
  }

  /** The aliases among `names` with a non-empty name and target, resolved. */
  function AliasTableAmong(rootPath: string, aliases: map<string, string>, names: set<string>): map<string, string> {
    map name | name in names && name in aliases && name != "" && aliases[name] != "" :: ResolveAgainst(rootPath, aliases[name])
  }

  /** The alias table `setAliases` builds: every entry with a non-empty name and target, resolved. */
  function AliasTable(rootPath: string, aliases: map<string, string>): map<string, string> {
    AliasTableAmong(rootPath, aliases, aliases.Keys)
  }

  /** Visiting one more name adds its alias when it is usable and changes nothing otherwise. */
  lemma AliasTableAmongStep(rootPath: string, aliases: map<string, string>, names: set<string>, name: string)
    requires name in aliases
    ensures AliasTableAmong(rootPath, aliases, names + {name}) ==
      if name != "" && aliases[name] != ""
      then AliasTableAmong(rootPath, aliases, names)[name := ResolveAgainst(rootPath, aliases[name])]
      else AliasTableAmong(rootPath, aliases, names)
  {
  }

  /** The table depends only on the given map, has exactly its usable names and absolute targets. */
  lemma AliasTableShape(rootPath: string, aliases: map<string, string>)
    ensures forall name :: name in AliasTable(rootPath, aliases) <==> name in aliases && name != "" && aliases[name] != ""
    ensures forall name :: name in AliasTable(rootPath, aliases) ==>
      AliasTable(rootPath, aliases)[name] == Paths.Resolve([rootPath, aliases[name]])
  {
    forall name | name in AliasTable(rootPath, aliases)
      ensures AliasTable(rootPath, aliases)[name] == Paths.Resolve([rootPath, aliases[name]])
    {
      ResolveAgainstIsResolve(rootPath, aliases[name]);
    }
  }

  /** The asset file name: plain in development, with a 7-character content hash in production. */
  function AssetName(dev: bool): (r: string)
    ensures Paths.EndsWith(r, ".[ext]")
  {
    if dev then "[name].[ext]" else "[name].[contenthash:7].[ext]"
  }

  /** Asset names carry a content hash exactly in production builds. */
  lemma AssetNameHashed(dev: bool)
    ensures Paths.Contains(AssetName(dev), "[contenthash:7]") <==> !dev
  {
    var name := AssetName(dev);
    if dev {
      if Paths.Contains(name, "[contenthash:7]") {
        Paths.ContainsIsShorter(name, "[contenthash:7]");
      }
    } else {
      assert name[7..][..15] == "[contenthash:7]";
      Paths.ContainsAt(name, "[contenthash:7]", 7);
    }
  }

  /** An asset rule's last loader emits files only for non-server builds and names them by the mode's policy. */
  predicate FollowsAssetPolicy(rule: Rule, dev: bool, server: bool) {
    && |rule.use| > 0
    && rule.use[|rule.use| - 1].WithOptions?
    && var options := rule.use[|rule.use| - 1].options;
    && "emitFile" in options && options["emitFile"] == Js.Bool(!server)
    && "name" in options && options["name"].Str?
    && Paths.EndsWith(options["name"].s, AssetName(dev))
  }

  /** A joined path ends with its last, non-empty segment. */
  lemma JoinEndsWithLast(segments: seq<string>)
    requires |segments| > 0 && segments[|segments| - 1] != ""
    ensures Paths.EndsWith(Paths.Join(segments), segments[|segments| - 1])
  {
  }

  /** The option `key` of a rule's last loader, when that loader has options and sets it. */
  function LastOption(rule: Rule, key: string): Option<Js.Value> {
    if |rule.use| > 0 && rule.use[|rule.use| - 1].WithOptions? && key in rule.use[|rule.use| - 1].options
    then Some(rule.use[|rule.use| - 1].options[key])
    else None
  }

  function AssetOptions(server: bool, dev: bool, outputPath: string): map<string, Js.Value> {
    map["emitFile" := Js.Bool(!server), "outputPath" := Js.Str(outputPath), "name" := Js.Str(AssetName(dev))]
  }

  /** Scripts and type scripts outside node_modules go through babel with its cache on. */
  const ScriptRule := Rule(Pattern("\\.[jt]sx?$", ""), Some(NodeModules), None,
    [WithOptions("babel-loader", map["cacheDirectory" := Js.Bool(true)])])

  /** Source maps of scripts are read before any other loader runs. */
  const SourceMapRule := Rule(Pattern("\\.js$", ""), None, Some("pre"), [Named("source-map-loader")])

  const MediaTest := Pattern("\\.(mp4|webm|ogg|mp3|wav|flac|aac)$", "i")

  const FontTest := Pattern("\\.(woff2?|eot|ttf|otf)$", "i")

  /** Images are inlined below 8 KiB; otherwise the name itself places them under `<assetsDir>/img`. */
  function ImageRule(assetsDir: string, dev: bool, server: bool): Rule {
    Rule(Pattern("\\.(png|jpe?g|gif)$", "i"), Some(NodeModules), None,
      [WithOptions("url-loader", map[
        "limit" := Js.Number(8192.0),
        "emitFile" := Js.Bool(!server),
        "name" := Js.Str(Paths.Join([assetsDir, "img", AssetName(dev)]))])])
  }

  /** A file-loader rule without size limit that writes its files under `outputPath`. */
  function FileRule(test: Pattern, dev: bool, server: bool, outputPath: string): Rule {
    Rule(test, None, None, [WithOptions("file-loader", AssetOptions(server, dev, outputPath))])
  }

  /** Svg files become components, and are otherwise inlined below 8 KiB or written under `<assetsDir>/img`. */
  function SvgRule(assetsDir: string, dev: bool, server: bool): Rule {
    Rule(Pattern("\\.svg$", "i"), Some(NodeModules), None,
      [Named("@svgr/webpack"),
       WithOptions("url-loader", AssetOptions(server, dev, Paths.Join([assetsDir, "img"]))["limit" := Js.Number(8192.0)])])
  }

  /**
   * The common module rules: scripts through babel with its cache, source maps
   * read before any other loader, then images, media, svg and fonts.
   */
  function CommonRules(assetsDir: string, dev: bool, server: bool): (r: seq<Rule>)
    ensures |r| == 6
    ensures r[0] == ScriptRule && r[1] == SourceMapRule
    ensures r[2] == ImageRule(assetsDir, dev, server)
    ensures r[3] == FileRule(MediaTest, dev, server, Paths.Join([assetsDir, "media"]))
    ensures r[4] == SvgRule(assetsDir, dev, server)
    ensures r[5] == FileRule(FontTest, dev, server, Paths.Join([assetsDir, "fonts"]))
  {
    [ScriptRule, SourceMapRule,
     ImageRule(assetsDir, dev, server),
     FileRule(MediaTest, dev, server, Paths.Join([assetsDir, "media"])),
     SvgRule(assetsDir, dev, server),
     FileRule(FontTest, dev, server, Paths.Join([assetsDir, "fonts"]))]
  }

  /** The image rule emits by the build's role, names by the mode and puts the name under `<assetsDir>/img`. */
  lemma ImageRuleShape(assetsDir: string, dev: bool, server: bool)
    ensures FollowsAssetPolicy(ImageRule(assetsDir, dev, server), dev, server)
    ensures LastOption(ImageRule(assetsDir, dev, server), "name") == Some(Js.Str(Paths.Join([assetsDir, "img", AssetName(dev)])))
    ensures LastOption(ImageRule(assetsDir, dev, server), "outputPath") == None
    ensures LastOption(ImageRule(assetsDir, dev, server), "limit") == Some(Js.Number(8192.0))
  {
    JoinEndsWithLast([assetsDir, "img", AssetName(dev)]);
  }

  /** A file rule emits by the build's role, names by the mode and writes under its output path, never inlining. */
  lemma FileRuleShape(test: Pattern, dev: bool, server: bool, outputPath: string)
    ensures FollowsAssetPolicy(FileRule(test, dev, server, outputPath), dev, server)
    ensures LastOption(FileRule(test, dev, server, outputPath), "outputPath") == Some(Js.Str(outputPath))
    ensures LastOption(FileRule(test, dev, server, outputPath), "limit") == None
  {
  }

  /** The svg rule runs svgr first, then emits by the build's role under `<assetsDir>/img`. */
  lemma SvgRuleShape(assetsDir: string, dev: bool, server: bool)
    ensures FollowsAssetPolicy(SvgRule(assetsDir, dev, server), dev, server)
    ensures |SvgRule(assetsDir, dev, server).use| == 2 && SvgRule(assetsDir, dev, server).use[0] == Named("@svgr/webpack")
    ensures LastOption(SvgRule(assetsDir, dev, server), "outputPath") == Some(Js.Str(Paths.Join([assetsDir, "img"])))
    ensures LastOption(SvgRule(assetsDir, dev, server), "limit") == Some(Js.Number(8192.0))
  {
  }

  /** Each of the four asset rules emits files exactly for non-server builds and names them by the mode's policy. */
  lemma CommonRulesFollowPolicy(assetsDir: string, dev: bool, server: bool)
    ensures forall i :: 2 <= i < 6 ==> FollowsAssetPolicy(CommonRules(assetsDir, dev, server)[i], dev, server)
  {
    var r := CommonRules(assetsDir, dev, server);
    forall i | 2 <= i < 6
      ensures FollowsAssetPolicy(r[i], dev, server)
    {
      if i == 2 {
        ImageRuleShape(assetsDir, dev, server);
      } else if i == 3 {
        FileRuleShape(MediaTest, dev, server, Paths.Join([assetsDir, "media"]));
      } else if i == 4 {
        SvgRuleShape(assetsDir, dev, server);
      } else {
        FileRuleShape(FontTest, dev, server, Paths.Join([assetsDir, "fonts"]));
      }
    }
  }

  /** Images and svg files land in the same directory: the image name is the svg output path, "/" and the asset name. */
  lemma ImagesShareDirectory(assetsDir: string, dev: bool, server: bool)
    requires assetsDir != ""
    ensures var r := CommonRules(assetsDir, dev, server);
      LastOption(r[2], "name") == Some(Js.Str(Paths.Append(assetsDir, "img") + "/" + AssetName(dev)))
      && LastOption(r[4], "outputPath") == Some(Js.Str(Paths.Append(assetsDir, "img")))
  {
    ImageRuleShape(assetsDir, dev, server);
    SvgRuleShape(assetsDir, dev, server);
    Paths.JoinUnder(assetsDir, "img", AssetName(dev));
    Paths.JoinPair(assetsDir, "img");
  }

  /** A string map as a JavaScript object of strings. */
  function StringObject(m: map<string, string>): (r: Js.Value)
    ensures r.Object? && r.fields.Keys == m.Keys
    ensures forall name :: name in m ==> r.fields[name] == Js.Str(m[name])
  {
    Js.Object(map name | name in m :: Js.Str(m[name]))
  }

  /** The define plugin's table: the stringified environment plus the two role flags as JSON booleans. */
  function DefineDefinitions(stringified: map<string, map<string, string>>, server: bool): (r: map<string, Js.Value>)
    ensures r.Keys == stringified.Keys + {"__isClient__", "__isServer__"}
    ensures r["__isClient__"] == Js.Str(Json.Boolean(!server))
    ensures r["__isServer__"] == Js.Str(Json.Boolean(server))
    ensures forall key :: key in stringified && key != "__isClient__" && key != "__isServer__" ==>
      r[key] == StringObject(stringified[key])
  {
    var spread := map key | key in stringified :: StringObject(stringified[key]);
    spread["__isClient__" := Js.Str(Json.Boolean(!server))]["__isServer__" := Js.Str(Json.Boolean(server))]
  }

  /** Exactly one of the two role flags reads "true". */
  lemma RoleFlagsComplementary(stringified: map<string, map<string, string>>, server: bool)
    ensures var d := DefineDefinitions(stringified, server);
      (d["__isClient__"] == Js.Str("true")) != (d["__isServer__"] == Js.Str("true"))
    ensures DefineDefinitions(stringified, server)["__isServer__"] == Js.Str("true") <==> server
  {
  }

  /** The fixed presentation of build statistics. */
  const Stats: map<string, Js.Value> := map[
    "all" := Js.Bool(false), "assets" := Js.Bool(true), "assetsSort" := Js.Str("size"),
    "entrypoints" := Js.Bool(true), "errors" := Js.Bool(true), "timings" := Js.Bool(true),
    "warnings" := Js.Bool(true)]

  datatype ResolveOptions = ResolveOptions(alias: map<string, string>, roots: seq<string>, extensions: seq<string>)

  datatype CommonFragment = CommonFragment(resolve: ResolveOptions, rules: seq<Rule>, plugins: seq<Plugin>, stats: map<string, Js.Value>)

  datatype DevFragment = DevFragment(mode: string, devtool: string, plugins: seq<Plugin>)

  datatype ProdFragment = ProdFragment(mode: string, devtool: string, performanceHints: bool, minimize: bool, minimizer: seq<Plugin>)

  /** What Terser keeps of the comments: none in a server bundle, "some" in a browser bundle. */
  function KeptComments(server: bool): (r: Js.Value)
    ensures r == Js.Bool(false) <==> server
    ensures !server ==> r == Js.Str("some")
  {
    if server then Js.Bool(false) else Js.Str("some")
  }

  /** The Terser minimiser's options: the comment policy of the build's role, and no comment extraction. */
  function TerserOptions(server: bool): (r: map<string, Js.Value>)
    ensures "extractComments" in r && r["extractComments"] == Js.Bool(false)
    ensures "terserOptions" in r && r["terserOptions"] == Js.Object(map["format" := Js.Object(map["comments" := KeptComments(server)])])
  {
    map[
      "terserOptions" := Js.Object(map["format" := Js.Object(map["comments" := KeptComments(server)])]),
      "extractComments" := Js.Bool(false)]
  }

  /** Lint plugin options: report errors and warnings, never fail the build. */
  const LintReporting: map<string, Js.Value> := map[
    "emitError" := Js.Bool(true), "emitWarning" := Js.Bool(true),
    "failOnError" := Js.Bool(false), "failOnWarning" := Js.Bool(false)]

  predicate NeverFailsBuild(plugin: Plugin) {
    && plugin.Enabled?
    && "failOnError" in plugin.options && plugin.options["failOnError"] == Js.Bool(false)
    && "failOnWarning" in plugin.options && plugin.options["failOnWarning"] == Js.Bool(false)
    && "emitError" in plugin.options && plugin.options["emitError"] == Js.Bool(true)
    && "emitWarning" in plugin.options && plugin.options["emitWarning"] == Js.Bool(true)
  }

  /** The common plugins: cleaning the output directory, then the definitions table. */
  function CommonPlugins(stringified: map<string, map<string, string>>, server: bool): (r: seq<Plugin>)
    ensures |r| == 2 && r[0] == Enabled(Clean, map[])
    ensures r[1] == Enabled(Define, DefineDefinitions(stringified, server))
    ensures Kinds(r) == {Clean, Define}
  {
    var plugins := [Enabled(Clean, map[]), Enabled(Define, DefineDefinitions(stringified, server))];
    KindsOfTwo(plugins[0], plugins[1]);
    plugins
  }

  /** The development plugins: HMR only when enabled (else the no-op), then lint plugins that never fail the build. */
  function DevPlugins(hot: bool): (r: seq<Plugin>)
    ensures |r| == 3
    ensures r[0].Enabled? <==> hot
    ensures r[0].Enabled? ==> r[0] == Enabled(HotModuleReplacement, map[])
    ensures r[1].Enabled? && r[1].kind == ESLint && NeverFailsBuild(r[1])
    ensures r[2].Enabled? && r[2].kind == Stylelint && NeverFailsBuild(r[2])
    ensures Kinds(r) == (if hot then {HotModuleReplacement} else {}) + {ESLint, Stylelint}
  {
    var plugins := [if hot then Enabled(HotModuleReplacement, map[]) else Noop,
      Enabled(ESLint, LintReporting["extensions" := Js.Array([Js.Str("js"), Js.Str("jsx"), Js.Str("ts"), Js.Str("tsx")])]),
      Enabled(Stylelint, LintReporting)];
    KindsOfThree(plugins[0], plugins[1], plugins[2]);
    plugins
  }

  class BaseConfig {
    const rootPath: string
    const entry: seq<string>
    var alias: map<string, string>
    const appConfig: AppConfig.AppConfig
    const envHolder: EnvHolder.EnvHolder
    const dev: bool
    var devHMREnabled: bool
    var target: string
    const server: bool

    /** The environment snapshot is well formed and every alias has a name and an absolute target. */
    ghost predicate Valid()
      reads this
    {
      && envHolder.Valid()
      && envHolder.appConfig == appConfig
      && forall name :: name in alias ==> name != "" && Paths.IsAbsolute(alias[name])
    }

    /**
     * The success path of construction: NODE_ENV is set. A function entry is
     * applied once to the development flag, an array entry is copied and a
     * single path becomes a one-element list.
     */
    constructor (rootPath: string, entry: EntryObject, server: bool, host: Host)
      requires DevFlag(host.env).Success?
      ensures Valid()
      ensures this.rootPath == rootPath && this.server == server
      ensures dev == DevFlag(host.env).value
      ensures this.entry == Items(Apply(entry, dev))
      ensures alias == map[] && devHMREnabled
      ensures target == (if server then "node" else "web")
      ensures fresh(appConfig) && appConfig.rootPath == rootPath && appConfig.Loaded(host.appFile)
      ensures fresh(envHolder) && envHolder.rootPath == rootPath
      ensures envHolder.raw == DotEnv.RawEnv(
        host.loadDotEnv(host.env, DotEnv.CandidateFiles(rootPath, DotEnv.Mode(host.env))),
        EnvHolder.PublicPathKey, appConfig.GetPublicPath(), host.buildTime)
    {
      var isDev := DevFlag(host.env).value;
      this.rootPath := rootPath;
      this.entry := Items(Apply(entry, isDev));
      this.dev := isDev;
      var config := new AppConfig.AppConfig(rootPath, host.appFile);
      appConfig := config;
      envHolder := new EnvHolder.EnvHolder(rootPath, config, host.env, host.loadDotEnv, host.buildTime);
      this.target := if server then "node" else "web";
      this.server := server;
      alias := map[];
      devHMREnabled := true;
    }

    /** Construction as the source does it: it fails when NODE_ENV is unset or empty. */
    static method Create(rootPath: string, entry: EntryObject, server: bool, host: Host) returns (r: Result<BaseConfig, BuildError>)
      ensures r.Failure? <==> DevFlag(host.env).Failure?
      ensures r.Failure? ==> r.error == MissingNodeEnv
      ensures r.Success? ==> fresh(r.value) && r.value.Valid()
      ensures r.Success? ==>
        && r.value.rootPath == rootPath && r.value.server == server
        && r.value.dev == DevFlag(host.env).value
        && r.value.entry == Items(Apply(entry, r.value.dev))
        && r.value.alias == map[] && r.value.devHMREnabled
        && r.value.target == (if server then "node" else "web")
    {
      if DevFlag(host.env).Failure? {
        return Failure(MissingNodeEnv);
      }
      var config := new BaseConfig(rootPath, entry, server, host);
      return Success(config);
    }

    /** Sets one alias, resolved against the root unless absolute; an empty name or target is rejected. */
    method SetAlias(name: string, target: string) returns (outcome: Result<(), BuildError>)
      requires Valid()
      modifies this`alias
      ensures Valid()
      ensures outcome.Failure? <==> name == "" || target == ""
      ensures outcome.Failure? ==> outcome.error == InvalidArguments && alias == old(alias)
      ensures outcome.Success? ==> alias == old(alias)[name := ResolveAgainst(rootPath, target)]
    {
      if name == "" || target == "" {
        return Failure(InvalidArguments);
      }
      alias := alias[name := ResolveAgainst(rootPath, target)];
      return Success(());
    }

    /** Replaces the whole alias table, skipping entries with an empty name or target. */
    method SetAliases(aliases: map<string, string>)
      requires Valid()
      modifies this`alias
      ensures Valid()
      ensures alias == AliasTable(rootPath, aliases)
    {
      alias := map[];
      var pending := aliases.Keys;
      while pending != {}
        invariant pending <= aliases.Keys
        invariant Valid()
        invariant alias == AliasTableAmong(rootPath, aliases, aliases.Keys - pending)
        decreases pending
      {
        var name :| name in pending;
        AliasTableAmongStep(rootPath, aliases, aliases.Keys - pending, name);
        assert aliases.Keys - (pending - {name}) == (aliases.Keys - pending) + {name};
        if name != "" && aliases[name] != "" {
          var outcome := SetAlias(name, aliases[name]);
        }
        pending := pending - {name};
      }
      assert aliases.Keys - pending == aliases.Keys;
    }

    method SetDevHMREnabled(enabled: bool)
      modifies this`devHMREnabled
      ensures devHMREnabled == enabled
    {
      devHMREnabled := enabled;
    }

    /** A function target is applied to the development flag; a name is stored as given. */
    method SetTarget(target: TargetObject)
      modifies this`target
      ensures target.Target? ==> this.target == target.name
      ensures target.TargetOf? ==> this.target == target.f(dev)
    {
      this.target := match target
        case Target(name) => name
        case TargetOf(f) => f(dev);
    }

    /** The entries resolved like alias targets, in their order; the stored list is untouched. */
    function GetEntry(): (r: seq<string>)
      ensures |r| == |entry|
      ensures forall i :: 0 <= i < |r| ==> r[i] == ResolveAgainst(rootPath, entry[i]) && Paths.IsAbsolute(r[i])
    {
      seq(|entry|, i requires 0 <= i < |entry| => ResolveAgainst(rootPath, entry[i]))
    }

    /**
     * The common fragment: resolution options, the six module rules, the clean
     * and define plugins and the statistics presentation.
     */
    function GetCommonConfig(): (r: CommonFragment)
      requires Valid()
      reads this
      ensures r.resolve == ResolveOptions(alias, [rootPath], [".js", ".jsx", ".ts", ".tsx"])
      ensures r.rules == CommonRules(appConfig.GetAssetsDir(), dev, server)
      ensures forall i :: 2 <= i < 6 ==> FollowsAssetPolicy(r.rules[i], dev, server)
      ensures r.plugins == CommonPlugins(envHolder.stringified, server)
      ensures r.stats == Stats
    {
      var stringifiedEnv := envHolder.GetStringified();
      CommonRulesFollowPolicy(appConfig.GetAssetsDir(), dev, server);
      CommonFragment(
        ResolveOptions(alias, [rootPath], [".js", ".jsx", ".ts", ".tsx"]),
        CommonRules(appConfig.GetAssetsDir(), dev, server),
        CommonPlugins(stringifiedEnv, server),
        Stats)
    }

    /** The development overlay: the HMR plugin only when enabled (else the no-op), and lint plugins that never fail the build. */
    function GetDevConfig(): (r: DevFragment)
      reads this
      ensures r.mode == "development" && r.devtool == "eval-cheap-module-source-map"
      ensures r.plugins == DevPlugins(devHMREnabled)
    {
      DevFragment("development", "eval-cheap-module-source-map", DevPlugins(devHMREnabled))
    }

    /** The production overlay: no performance hints, minimised by Terser keeping "some" comments for clients and none for servers. */
    function GetProdConfig(): (r: ProdFragment)
      ensures r.mode == "production" && r.devtool == "nosources-source-map"
      ensures !r.performanceHints && r.minimize
      ensures r.minimizer == [Enabled(Terser, TerserOptions(server))]
    {
      ProdFragment("production", "nosources-source-map", false, true, [Enabled(Terser, TerserOptions(server))])
    }
  }

  /** The builder keeps a copy of an array entry: changing the caller's array afterwards leaves it alone. */
  method EntryArrayIsCopied(rootPath: string, paths: array<string>, host: Host) returns (config: BaseConfig)
    requires DevFlag(host.env).Success? && paths.Length > 0
    modifies paths
    ensures config.entry == old(paths[..])
    ensures paths[0] != old(paths[0])
  {
    config := new BaseConfig(rootPath, Entry(List(paths)), false, host);
    paths[0] := paths[0] + "*";
  }
}
