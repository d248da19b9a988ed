/**
 * src/ServerConfig.ts: the Node.js build. Like the browser build it keeps its
 * own single entry and target next to the shared base state; it also keeps
 * the run-script settings of development builds. Style sheets are ignored,
 * and Node's `__dirname` and `__filename` are left to the runtime.
 */
module ServerConfig {
  import opened Wrappers
  import Js
  import Json
  import Paths
  import opened Webpack
  import BaseConfig
  import DotEnv
  import EnvHolder

  /** The hot-reload client prepended to the development entry; it restarts on a signal. */
  const HotSignalShim := "webpack/hot/signal"

  /**
   * The `server` flag the base constructor ends up with for a call
   * `super(rootPath, extra...)`: arguments bind by position, so the first
   * extra argument is the entry and the second one is the flag, which keeps
   * its default `false` when it is not passed.
   */
  function BoundServerFlag(extra: seq<bool>): (r: bool)
    ensures r <==> |extra| >= 2 && extra[1]
  {
    if |extra| >= 2 then extra[1] else false
  }

  /**
   * As written, the server builder calls `super(rootPath, true)`: `true`
   * lands in the entry and the base believes it builds for the browser, so
   * the define table announces a client build, the asset rules emit files
   * and the production bundle keeps "some" comments.
   */
  lemma SuperCallMisbindsServer(stringified: map<string, map<string, string>>, assetsDir: string, dev: bool)
    ensures !BoundServerFlag([true])
    ensures BaseConfig.DefineDefinitions(stringified, BoundServerFlag([true]))["__isServer__"] == Js.Str("false")
    ensures BaseConfig.DefineDefinitions(stringified, BoundServerFlag([true]))["__isClient__"] == Js.Str("true")
    ensures forall i :: 2 <= i < 6 ==>
      BaseConfig.FollowsAssetPolicy(BaseConfig.CommonRules(assetsDir, dev, BoundServerFlag([true]))[i], dev, false)
    ensures BaseConfig.TerserOptions(BoundServerFlag([true]))["terserOptions"] ==
      Js.Object(map["format" := Js.Object(map["comments" := Js.Str("some")])])
  {
    BaseConfig.CommonRulesFollowPolicy(assetsDir, dev, false);
  }

  /** `/\.s?[ac]ss$/` matching from offset `i` to the end of the name. */
  predicate StyleMatchAt(name: string, i: nat)
    requires i <= |name|
  {
    var rest := name[i..];
    || (|rest| == 4 && rest[0] == '.' && rest[1] in "ac" && rest[2..] == "ss")
    || (|rest| == 5 && rest[0] == '.' && rest[1] == 's' && rest[2] in "ac" && rest[3..] == "ss")
  }

  /** The null-loader's test: the expression matches somewhere in the name. */
  predicate IsIgnoredStyle(name: string) {
    exists i :: 0 <= i <= |name| && StyleMatchAt(name, i)
  }

  /** A match at offset `i` reaches the end of the name with one of the four endings. */
  lemma MatchGivesSuffix(name: string, i: nat)
    requires i <= |name| && StyleMatchAt(name, i)
    ensures Paths.EndsWith(name, ".css") || Paths.EndsWith(name, ".scss")
      || Paths.EndsWith(name, ".sass") || Paths.EndsWith(name, ".ass")
  {
    var rest := name[i..];
    assert name[|name| - |rest|..] == rest;
    if |rest| == 4 {
      if rest[1] == 'a' {
        assert rest == ".ass";
      } else {
        assert rest == ".css";
      }
    } else {
      if rest[2] == 'a' {
        assert rest == ".sass";
      } else {
        assert rest == ".scss";
      }
    }
  }

  /**
   * The server build ignores exactly the names ending in ".css", ".scss" and
   * ".sass", and also those ending in ".ass", which the optional "s" lets through.
   */
  lemma IgnoredStyleSuffixes(name: string)
    ensures IsIgnoredStyle(name) <==>
      Paths.EndsWith(name, ".css") || Paths.EndsWith(name, ".scss")
      || Paths.EndsWith(name, ".sass") || Paths.EndsWith(name, ".ass")
  {
    if IsIgnoredStyle(name) {
      var i :| 0 <= i <= |name| && StyleMatchAt(name, i);
      MatchGivesSuffix(name, i);
    } else if Paths.EndsWith(name, ".css") || Paths.EndsWith(name, ".scss")
      || Paths.EndsWith(name, ".sass") || Paths.EndsWith(name, ".ass") {
      SuffixGivesMatch(name);
    }
  }

  /** Each of the four endings is matched where it starts. */
  lemma SuffixGivesMatch(name: string)
    requires Paths.EndsWith(name, ".css") || Paths.EndsWith(name, ".scss")
      || Paths.EndsWith(name, ".sass") || Paths.EndsWith(name, ".ass")
    ensures IsIgnoredStyle(name)
  {
    var four, five := |name| - 4, |name| - 5;
    if Paths.EndsWith(name, ".css") {
      assert name[four..] == ".css";
      Witness(name, four);
    } else if Paths.EndsWith(name, ".ass") {
      assert name[four..] == ".ass";
      Witness(name, four);
    } else if Paths.EndsWith(name, ".scss") {
      assert name[five..] == ".scss";
      Witness(name, five);
    } else {
      assert name[five..] == ".sass";
      Witness(name, five);
    }
  }

  /** A match at one offset makes the name ignored. */
  lemma Witness(name: string, i: nat)
    requires i <= |name| && StyleMatchAt(name, i)
    ensures IsIgnoredStyle(name)
  {
  }

  /** Style sheets are bundled as nothing. */
  const IgnoreStyles := Rule(Pattern("\\.s?[ac]ss$", ""), None, None, [Named("null-loader")])

  /** Modules left out of the bundle, except these: the hot client and non-script files. */
  const ExternalsAllowlist: seq<Js.Value> := [Js.Str(HotSignalShim), Js.RegExp("\\.(?!(?:jsx?|json)$).{1,5}$", "i")]

  /** The server's part of the common fragment. */
  datatype ServerCommon = ServerCommon(
    base: BaseConfig.CommonFragment,
    name: string,
    outputPath: string,
    publicPath: string,
    rules: seq<Rule>,
    nodeDirname: bool,
    nodeFilename: bool)

  /** The server's development overlay. */
  datatype ServerDev = ServerDev(
    common: ServerCommon,
    base: BaseConfig.DevFragment,
    target: string,
    watch: bool,
    entry: seq<string>,
    filename: string,
    chunkFilename: string,
    externalsAllowlist: seq<Js.Value>,
    plugins: seq<Plugin>)

  /** The server's production overlay. */
  datatype ServerProd = ServerProd(
    common: ServerCommon,
    base: BaseConfig.ProdFragment,
    target: string,
    entry: string,
    filename: string,
    library: string,
    chunkFilename: string)

  datatype ServerBuild = DevBuild(dev: ServerDev) | ProdBuild(prod: ServerProd)

  /** Every plugin of a build in the order webpack-merge concatenates the fragments' lists. */
  function AllPlugins(build: ServerBuild): seq<Plugin> {
    match build
    case DevBuild(d) => d.common.base.plugins + d.base.plugins + d.plugins
    case ProdBuild(p) => p.common.base.plugins
  }

  /**
   * A development server build runs the bundle exactly when asked to and
   * reloads modules exactly when HMR is on; the rest of its plugins are fixed.
   */
  lemma DevBuildKinds(d: ServerDev, stringified: map<string, map<string, string>>, hot: bool, run: bool, args: seq<string>)
    requires d.common.base.plugins == BaseConfig.CommonPlugins(stringified, true)
    requires d.base.plugins == BaseConfig.DevPlugins(hot)
    requires d.plugins == ServerDevPlugins(run, args)
    ensures Kinds(AllPlugins(DevBuild(d))) ==
      {Clean, Define} + ((if hot then {HotModuleReplacement} else {}) + {ESLint, Stylelint}) + ({WatchIgnore} + (if run then {RunScript} else {}))
    ensures RunScript in Kinds(AllPlugins(DevBuild(d))) <==> run
    ensures HotModuleReplacement in Kinds(AllPlugins(DevBuild(d))) <==> hot
  {
    KindsConcat(d.common.base.plugins, d.base.plugins);
    KindsConcat(d.common.base.plugins + d.base.plugins, d.plugins);
    assert RunScript !in Kinds(d.common.base.plugins) && HotModuleReplacement !in Kinds(d.common.base.plugins);
    assert RunScript !in Kinds(d.base.plugins) && HotModuleReplacement !in Kinds(d.plugins);
  }

  /** A production server build enables only the common plugins: cleaning and the definitions table. */
  lemma ProdBuildKinds(p: ServerProd, stringified: map<string, map<string, string>>)
    requires p.common.base.plugins == BaseConfig.CommonPlugins(stringified, true)
    ensures Kinds(AllPlugins(ProdBuild(p))) == {Clean, Define}
  {
  }

  /** Every module rule of a build: the base rules, then the style filter. */
  function AllRules(build: ServerBuild): seq<Rule> {
    match build
    case DevBuild(d) => d.common.base.rules + d.common.rules
    case ProdBuild(p) => p.common.base.rules + p.common.rules
  }

  /** The server's development plugins: rebuilds ignore declaration files; the bundle is run when enabled, else the no-op. */
  function ServerDevPlugins(runScript: bool, args: seq<string>): (r: seq<Plugin>)
    ensures |r| == 2
    ensures r[0] == Enabled(WatchIgnore, map["paths" := Js.Array([Js.RegExp("\\.d\\.ts$", "")])])
    ensures r[1].Enabled? <==> runScript
    ensures r[1].Enabled? ==> (
      && r[1].kind == RunScript
      && "name" in r[1].options && r[1].options["name"] == Js.Str("main.js")
      && "args" in r[1].options && r[1].options["args"] == Js.StrArray(args)
      && "signal" in r[1].options && r[1].options["signal"] == Js.Bool(true)
      && "restartable" in r[1].options && r[1].options["restartable"] == Js.Bool(true))
    ensures Kinds(r) == {WatchIgnore} + (if runScript then {RunScript} else {})
  {
    var plugins := [
      Enabled(WatchIgnore, map["paths" := Js.Array([Js.RegExp("\\.d\\.ts$", "")])]),
      if runScript then
        Enabled(RunScript, map[
          "name" := Js.Str("main.js"),
          "args" := Js.StrArray(args),
          "signal" := Js.Bool(true),
          "restartable" := Js.Bool(true)])
      else Noop];
    assert plugins[..1] == [plugins[0]];
    KindsSingle(plugins[0]);
    plugins
  }

  class ServerConfig {
    const base: BaseConfig.BaseConfig
    const rootPath: string
    const entry: string
    var devRunScript: bool
    var runScriptArgs: seq<string>
    var target: string

    ghost predicate Valid()
      reads this, base
    {
      base.Valid() && base.rootPath == rootPath && base.server
    }

    /**
     * The success path of construction, with the base told that it builds for
     * the server. The bundle is run in development with no arguments, and the
     * target starts as "node".
     */
    constructor (rootPath: string, entry: string, host: BaseConfig.Host)
      requires BaseConfig.DevFlag(host.env).Success?
      ensures Valid() && fresh(base)
      ensures this.rootPath == rootPath && this.entry == entry
      ensures devRunScript && runScriptArgs == [] && target == "node"
      ensures base.dev == BaseConfig.DevFlag(host.env).value
      ensures base.alias == map[] && base.devHMREnabled
      ensures base.entry == [entry]
      ensures base.appConfig.rootPath == rootPath && base.appConfig.Loaded(host.appFile)
      ensures base.envHolder.raw == DotEnv.RawEnv(
        host.loadDotEnv(host.env, DotEnv.CandidateFiles(rootPath, DotEnv.Mode(host.env))),
        EnvHolder.PublicPathKey, base.appConfig.GetPublicPath(), host.buildTime)
    {
      base := new BaseConfig.BaseConfig(rootPath, BaseConfig.Entry(BaseConfig.Single(entry)), BoundServerFlag([true, true]), host);
      this.rootPath := rootPath;
      this.entry := entry;
      devRunScript := true;
      runScriptArgs := [];
      target := "node";
    }

    /** Construction fails exactly when NODE_ENV is unset or empty. */
    static method Create(rootPath: string, entry: string, host: BaseConfig.Host) returns (r: Result<ServerConfig, BaseConfig.BuildError>)
      ensures r.Failure? <==> BaseConfig.DevFlag(host.env).Failure?
      ensures r.Failure? ==> r.error == BaseConfig.MissingNodeEnv
      ensures r.Success? ==> fresh(r.value) && fresh(r.value.base) && r.value.Valid()
      ensures r.Success? ==> r.value.base.dev == BaseConfig.DevFlag(host.env).value
      ensures r.Success? ==> r.value.base.alias == map[] && r.value.base.devHMREnabled
      ensures r.Success? ==> r.value.base.entry == [entry]
      ensures r.Success? ==> r.value.base.appConfig.rootPath == rootPath && r.value.base.appConfig.Loaded(host.appFile)
      ensures r.Success? ==> r.value.base.envHolder.raw == DotEnv.RawEnv(
        host.loadDotEnv(host.env, DotEnv.CandidateFiles(rootPath, DotEnv.Mode(host.env))),
        EnvHolder.PublicPathKey, r.value.base.appConfig.GetPublicPath(), host.buildTime)
      ensures r.Success? ==> r.value.rootPath == rootPath && r.value.entry == entry
      ensures r.Success? ==> r.value.devRunScript && r.value.runScriptArgs == [] && r.value.target == "node"
    {
      if BaseConfig.DevFlag(host.env).Failure? {
        return Failure(BaseConfig.MissingNodeEnv);
      }
      var config := new ServerConfig(rootPath, entry, host);
      return Success(config);
    }

    /** Stores whether development builds run the bundle, and hands back the same builder. */
    method SetDevRunScript(run: bool) returns (self: ServerConfig)
      modifies this`devRunScript
      ensures self == this && devRunScript == run
    {
      devRunScript := run;
      return this;
    }

    /** Stores a copy of the arguments, so later changes to the caller's array do not reach it. */
    method SetRunScriptArgs(args: array<string>) returns (self: ServerConfig)
      modifies this`runScriptArgs
      ensures self == this && runScriptArgs == args[..]
    {
      runScriptArgs := args[..];
      return this;
    }

    /** Stores the target and hands back the same builder. */
    method SetTarget(target: string) returns (self: ServerConfig)
      modifies this`target
      ensures self == this && this.target == target
    {
      this.target := target;
      return this;
    }

    /**
     * The common fragment: the server output directory `<dist>/server` under
     * the root, the configured public path, style sheets ignored, and
     * `__dirname`/`__filename` left to Node. Because the base knows it builds
     * for the server, the asset rules name files without emitting them.
     */
    function GetCommonConfig(): (r: ServerCommon)
      requires Valid()
      reads this, base
      ensures r.base == base.GetCommonConfig()
      ensures forall i :: 2 <= i < 6 ==> BaseConfig.FollowsAssetPolicy(r.base.rules[i], base.dev, true)
      ensures r.name == "server"
      ensures r.outputPath == Paths.Append(Paths.Resolve([rootPath, base.appConfig.GetDistDir()]), "server")
      ensures r.publicPath == base.appConfig.GetPublicPath()
      ensures r.rules == [IgnoreStyles]
      ensures !r.nodeDirname && !r.nodeFilename
    {
      var appConfig := base.appConfig;
      assert !Paths.IsAbsolute("server") by { assert "server"[..1][0] != "/"[0]; }
      Paths.ResolveUnder(rootPath, appConfig.GetDistDir(), "server");
      ServerCommon(
        base.GetCommonConfig(),
        "server",
        Paths.Resolve([rootPath, appConfig.GetDistDir(), "server"]),
        appConfig.GetPublicPath(),
        [IgnoreStyles],
        false,
        false)
    }

    /**
     * The development overlay: watch mode follows HMR, the signal client (only
     * with HMR on) then the resolved entry, unhashed names, externals except
     * the allowlist, and the watch-ignore and run-script plugins.
     */
    function GetDevConfig(): (r: ServerDev)
      requires Valid()
      reads this, base
      ensures r.common == GetCommonConfig() && r.base == base.GetDevConfig()
      ensures r.target == target && r.watch == base.devHMREnabled
      ensures |r.entry| == (if base.devHMREnabled then 2 else 1)
      ensures r.entry[|r.entry| - 1] == Paths.Resolve([rootPath, entry])
      ensures base.devHMREnabled ==> r.entry[0] == HotSignalShim
      ensures r.filename == "[name].js"
      ensures r.chunkFilename == Paths.Append(base.appConfig.GetAssetsDir(), "js") + "/" + "[name].chunk.js"
      ensures r.externalsAllowlist == ExternalsAllowlist
      ensures r.plugins == ServerDevPlugins(devRunScript, runScriptArgs)
    {
      var assetsDir := base.appConfig.GetAssetsDir();
      Paths.JoinUnder(assetsDir, "js", "[name].chunk.js");
      ServerDev(
        GetCommonConfig(),
        base.GetDevConfig(),
        target,
        base.devHMREnabled,
        HotEntry(HotSignalShim, base.devHMREnabled, Paths.Resolve([rootPath, entry])),
        "[name].js",
        Paths.Join([assetsDir, "js", "[name].chunk.js"]),
        ExternalsAllowlist,
        ServerDevPlugins(devRunScript, runScriptArgs))
    }

    /**
     * The production overlay: the single resolved entry, entry bundles named
     * and exported as a library by their chunk name, content-hashed chunks.
     */
    function GetProdConfig(): (r: ServerProd)
      requires Valid()
      reads this, base
      ensures r.common == GetCommonConfig() && r.base == base.GetProdConfig()
      ensures r.target == target
      ensures r.entry == Paths.Resolve([rootPath, entry])
      ensures r.filename == "[name].js" && r.library == "[name]"
      ensures r.chunkFilename == Paths.Append(base.appConfig.GetAssetsDir(), "js") + "/" + "[name].[contenthash:7].chunk.js"
    {
      var assetsDir := base.appConfig.GetAssetsDir();
      Paths.JoinUnder(assetsDir, "js", "[name].[contenthash:7].chunk.js");
      ServerProd(
        GetCommonConfig(),
        base.GetProdConfig(),
        target,
        Paths.Resolve([rootPath, entry]),
        "[name].js",
        "[name]",
        Paths.Join([assetsDir, "js", "[name].[contenthash:7].chunk.js"]))
    }

    /** The development build exactly when the builder is in development mode, else the production build. */
    function ToConfig(): (r: ServerBuild)
      requires Valid()
      reads this, base
      ensures r.DevBuild? <==> base.dev
      ensures r.DevBuild? ==> r.dev == GetDevConfig()
      ensures r.ProdBuild? ==> r.prod == GetProdConfig()
    {
      if base.dev then DevBuild(GetDevConfig()) else ProdBuild(GetProdConfig())
    }
  }

  /**
   * A build assembled the way the builder assembles it: the base plugins of a
   * server build, and in development the base and server plugin lists of the
   * given settings.
   */
  ghost predicate Assembled(build: ServerBuild, stringified: map<string, map<string, string>>,
                            hot: bool, run: bool, args: seq<string>)
  {
    match build
    case DevBuild(d) =>
      && d.common.base.plugins == BaseConfig.CommonPlugins(stringified, true)
      && d.base.plugins == BaseConfig.DevPlugins(hot)
      && d.plugins == ServerDevPlugins(run, args)
    case ProdBuild(p) =>
      p.common.base.plugins == BaseConfig.CommonPlugins(stringified, true)
  }

  /** The bundle runner is enabled exactly in an assembled development build told to run it. */
  lemma RunsScriptExactly(build: ServerBuild, stringified: map<string, map<string, string>>,
                          hot: bool, run: bool, args: seq<string>)
    requires Assembled(build, stringified, hot, run, args)
    ensures RunScript in Kinds(AllPlugins(build)) <==> build.DevBuild? && run
  {
    match build
    case DevBuild(d) =>
      DevBuildKinds(d, stringified, hot, run, args);
    case ProdBuild(p) =>
      ProdBuildKinds(p, stringified);
  }

  /** The builder's own build is assembled the way the lemmas above require. */
  lemma ToConfigAssembled(c: ServerConfig)
    requires c.Valid()
    ensures Assembled(c.ToConfig(), c.base.envHolder.stringified, c.base.devHMREnabled, c.devRunScript, c.runScriptArgs)
  {
    var common := c.GetCommonConfig();
    assert common.base.plugins == BaseConfig.CommonPlugins(c.base.envHolder.stringified, true);
    if c.base.dev {
      assert c.ToConfig() == DevBuild(c.GetDevConfig());
    } else {
      assert c.ToConfig() == ProdBuild(c.GetProdConfig());
    }
  }

  /**
   * The builder's own build enables exactly the plugin kinds of its mode: in
   * development the bundle runner and module reloading follow the builder's
   * settings; in production only the common plugins remain.
   */
  lemma BuilderPluginKinds(c: ServerConfig)
    requires c.Valid()
    ensures c.base.dev ==> (Kinds(AllPlugins(c.ToConfig())) ==
      {Clean, Define} + ((if c.base.devHMREnabled then {HotModuleReplacement} else {}) + {ESLint, Stylelint})
        + ({WatchIgnore} + (if c.devRunScript then {RunScript} else {})))
    ensures !c.base.dev ==> Kinds(AllPlugins(c.ToConfig())) == {Clean, Define}
  {
    var build := c.ToConfig();
    var stringified := c.base.envHolder.stringified;
    ToConfigAssembled(c);
    match build
    case DevBuild(d) =>
      DevBuildKinds(d, stringified, c.base.devHMREnabled, c.devRunScript, c.runScriptArgs);
    case ProdBuild(p) =>
      ProdBuildKinds(p, stringified);
  }

  /** The builder's own build runs the bundle exactly in development and when told to. */
  lemma BuilderRunsScript(c: ServerConfig)
    requires c.Valid()
    ensures RunScript in Kinds(AllPlugins(c.ToConfig())) <==> c.base.dev && c.devRunScript
  {
    var build := c.ToConfig();
    ToConfigAssembled(c);
    RunsScriptExactly(build, c.base.envHolder.stringified, c.base.devHMREnabled, c.devRunScript, c.runScriptArgs);
  }

  /**
   * The builder's own build carries the six shared rules, told that they are
   * for the server, then the one rule that ignores style sheets.
   */
  lemma BuilderRules(c: ServerConfig)
    requires c.Valid()
    ensures AllRules(c.ToConfig()) == BaseConfig.CommonRules(c.base.appConfig.GetAssetsDir(), c.base.dev, true) + [IgnoreStyles]
    ensures |AllRules(c.ToConfig())| == 7
  {
    var common := c.GetCommonConfig();
    ToConfigCommon(c);
    RulesOfCommon(c.ToConfig(), c.base.appConfig.GetAssetsDir(), c.base.dev);
  }

  /** A build whose base rules are the shared ones carries them, then the style filter. */
  lemma RulesOfCommon(build: ServerBuild, assetsDir: string, dev: bool)
    requires CommonOf(build).base.rules == BaseConfig.CommonRules(assetsDir, dev, true)
    requires CommonOf(build).rules == [IgnoreStyles]
    ensures AllRules(build) == BaseConfig.CommonRules(assetsDir, dev, true) + [IgnoreStyles]
    ensures |AllRules(build)| == 7
  {
  }

  /** The server's share of the common fragment of a build. */
  function CommonOf(build: ServerBuild): ServerCommon {
    match build
    case DevBuild(d) => d.common
    case ProdBuild(p) => p.common
  }

  /** Both modes of the builder's build carry the builder's common fragment. */
  lemma ToConfigCommon(c: ServerConfig)
    requires c.Valid()
    ensures CommonOf(c.ToConfig()) == c.GetCommonConfig()
  {
    if c.base.dev {
      assert c.ToConfig().dev == c.GetDevConfig();
    } else {
      assert c.ToConfig().prod == c.GetProdConfig();
    }
  }
}
