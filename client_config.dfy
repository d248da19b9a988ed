/**
 * src/ClientConfig.ts: the browser build. The builder keeps its own single
 * entry and target next to the shared base state, and contributes one
 * fragment on top of each base fragment.
 */
module ClientConfig {
  import opened Wrappers
  import Js
  import Paths
  import opened Webpack
  import BaseConfig
  import DotEnv
  import EnvHolder

  /** The hot-middleware client prepended to the development entry. */
  const HotClientShim := "webpack-hot-middleware/client"

  /**
   * Stands for `MiniCssExtractPlugin.loader`, which at run time is the
   * installed loader's absolute path.
   */
  const ExtractLoader := "mini-css-extract-plugin/loader"

  const ContentHash := "[contenthash:7]"

  /** The first loader of both style chains: injection into the page in development, extraction to files in production. */
  function InjectLoader(dev: bool): string {
    if dev then "style-loader" else ExtractLoader
  }

  function CssRule(dev: bool): Rule {
    Rule(Pattern("\\.css$", ""), None, None,
      [Named(InjectLoader(dev)), Named("css-loader"), Named("postcss-loader")])
  }

  function SassRule(dev: bool, additionalData: string): Rule {
    Rule(Pattern("\\.s[ac]ss$", ""), Some(NodeModules), None,
      [Named(InjectLoader(dev)), Named("css-loader"), Named("postcss-loader"),
       WithOptions("sass-loader", map["additionalData" := Js.Str(additionalData)])])
  }

  /**
   * The sass chain is the css chain with the sass loader appended; both start
   * with the mode's injection loader followed by css-loader and postcss-loader.
   */
  lemma LoaderChainOrder(dev: bool, additionalData: string)
    ensures SassRule(dev, additionalData).use ==
      CssRule(dev).use + [WithOptions("sass-loader", map["additionalData" := Js.Str(additionalData)])]
    ensures CssRule(dev).use[0] == Named(if dev then "style-loader" else ExtractLoader)
    ensures CssRule(dev).use[1..] == [Named("css-loader"), Named("postcss-loader")]
    ensures SassRule(dev, additionalData).exclude == Some(NodeModules) && CssRule(dev).exclude == None
  {
  }

  /** A script name under `<assetsDir>/js`. */
  function ScriptPath(assetsDir: string, name: string): string {
    Paths.Join([assetsDir, "js", name])
  }

  /** A script path is the assets directory, "js", then the name. */
  lemma ScriptPathShape(assetsDir: string, name: string)
    requires assetsDir != "" && name != ""
    ensures ScriptPath(assetsDir, name) == Paths.Append(assetsDir, "js") + "/" + name
  {
    Paths.JoinUnder(assetsDir, "js", name);
  }

  /** Production file names carry the content hash wherever they are placed. */
  lemma HashedNames(prefix: string)
    ensures Paths.Contains(prefix + "[name].[contenthash:7].js", ContentHash)
    ensures Paths.Contains(prefix + "[name].[contenthash:7].chunk.js", ContentHash)
    ensures Paths.Contains(prefix + "[name].[contenthash:7].css", ContentHash)
    ensures Paths.Contains(prefix + "[name].[contenthash:7].chunk.css", ContentHash)
  {
    var names := ["[name].[contenthash:7].js", "[name].[contenthash:7].chunk.js",
                  "[name].[contenthash:7].css", "[name].[contenthash:7].chunk.css"];
    forall i | 0 <= i < 4
      ensures Paths.Contains(prefix + names[i], ContentHash)
    {
      assert names[i][7..][..15] == ContentHash;
      Paths.ContainsAt(names[i], ContentHash, 7);
      Paths.ContainsInSuffix(prefix, names[i], ContentHash);
    }
    assert names[0] == "[name].[contenthash:7].js";
    assert names[1] == "[name].[contenthash:7].chunk.js";
    assert names[2] == "[name].[contenthash:7].css";
    assert names[3] == "[name].[contenthash:7].chunk.css";
  }

  /** The extracted style sheets under `<assetsDir>/css` carry the content hash. */
  lemma StyleNamesHashed(assetsDir: string)
    ensures Paths.Contains(Paths.Join([assetsDir, "css", "[name].[contenthash:7].css"]), ContentHash)
    ensures Paths.Contains(Paths.Join([assetsDir, "css", "[name].[contenthash:7].chunk.css"]), ContentHash)
  {
    HashedNames("");
    assert "" + "[name].[contenthash:7].css" == "[name].[contenthash:7].css";
    assert "" + "[name].[contenthash:7].chunk.css" == "[name].[contenthash:7].chunk.css";
    BaseConfig.JoinEndsWithLast([assetsDir, "css", "[name].[contenthash:7].css"]);
    BaseConfig.JoinEndsWithLast([assetsDir, "css", "[name].[contenthash:7].chunk.css"]);
    Paths.ContainsInEnding(Paths.Join([assetsDir, "css", "[name].[contenthash:7].css"]), "[name].[contenthash:7].css", ContentHash);
    Paths.ContainsInEnding(Paths.Join([assetsDir, "css", "[name].[contenthash:7].chunk.css"]), "[name].[contenthash:7].chunk.css", ContentHash);
  }

  /** The bare development names carry no content hash. */
  lemma BareNamesUnhashed()
    ensures !Paths.Contains("[name].js", ContentHash)
    ensures !Paths.Contains("[name].chunk.js", ContentHash)
  {
    if Paths.Contains("[name].js", ContentHash) {
      Paths.ContainsIsShorter("[name].js", ContentHash);
    }
    var chunk := "[name].chunk.js";
    assert !Paths.StartsWith(chunk, ContentHash) by {
      assert chunk[1] != ContentHash[1];
    }
    if Paths.Contains(chunk[1..], ContentHash) {
      Paths.ContainsIsShorter(chunk[1..], ContentHash);
    }
  }

  /** A name without the hash keeps none once placed under "js/". */
  lemma UnhashedUnderJsDir(name: string)
    requires !Paths.Contains(name, ContentHash)
    ensures !Paths.Contains("js" + "/" + name, ContentHash)
  {
    assert '/' !in ContentHash;
    if Paths.Contains("js" + "/" + name, ContentHash) {
      Paths.ContainsAcrossSlash("js", name, ContentHash);
      if Paths.Contains("js", ContentHash) {
        Paths.ContainsIsShorter("js", ContentHash);
      }
      assert false;
    }
  }

  /** A name without the hash, placed under `<assetsDir>/js`, has none unless the assets directory has one. */
  lemma UnhashedUnderJs(assetsDir: string, name: string)
    requires !Paths.Contains(assetsDir, ContentHash) && !Paths.Contains(name, ContentHash)
    ensures !Paths.Contains(Paths.Append(assetsDir, "js") + "/" + name, ContentHash)
  {
    assert '/' !in ContentHash;
    var tail := "js" + "/" + name;
    UnhashedUnderJsDir(name);
    var whole := Paths.Append(assetsDir, "js") + "/" + name;
    var dir := if Paths.EndsWith(assetsDir, "/") then assetsDir[..|assetsDir| - 1] else assetsDir;
    assert whole == dir + "/" + tail;
    if Paths.Contains(whole, ContentHash) {
      Paths.ContainsAcrossSlash(dir, tail, ContentHash);
      if Paths.Contains(dir, ContentHash) && dir != assetsDir {
        assert assetsDir == dir + "/";
        Paths.ContainsExtended(dir, "/", ContentHash);
      }
      assert false;
    }
  }

  /**
   * The development script names, `<assetsDir>/js/[name].js` and
   * `<assetsDir>/js/[name].chunk.js`, carry no content hash unless the
   * configured assets directory itself does.
   */
  lemma UnhashedNames(assetsDir: string)
    ensures !Paths.Contains(assetsDir, ContentHash) ==>
      && !Paths.Contains(Paths.Append(assetsDir, "js") + "/" + "[name].js", ContentHash)
      && !Paths.Contains(Paths.Append(assetsDir, "js") + "/" + "[name].chunk.js", ContentHash)
  {
    if !Paths.Contains(assetsDir, ContentHash) {
      BareNamesUnhashed();
      UnhashedUnderJs(assetsDir, "[name].js");
      UnhashedUnderJs(assetsDir, "[name].chunk.js");
    }
  }

  /** The client's part of the common fragment. */
  datatype ClientCommon = ClientCommon(
    base: BaseConfig.CommonFragment,
    name: string,
    target: string,
    outputPath: string,
    publicPath: string,
    rules: seq<Rule>,
    plugins: seq<Plugin>)

  /** The client's development overlay. */
  datatype ClientDev = ClientDev(
    common: ClientCommon,
    base: BaseConfig.DevFragment,
    entry: seq<string>,
    filename: string,
    chunkFilename: string,
    infrastructureLogging: string,
    plugins: seq<Plugin>)

  /** The client's production overlay. */
  datatype ClientProd = ClientProd(
    common: ClientCommon,
    base: BaseConfig.ProdFragment,
    entry: string,
    filename: string,
    chunkFilename: string,
    runtimeChunk: bool,
    splitChunks: map<string, Js.Value>,
    plugins: seq<Plugin>)

  datatype ClientBuild = DevBuild(dev: ClientDev) | ProdBuild(prod: ClientProd)

  /** Every plugin of a build in the order webpack-merge concatenates the fragments' lists. */
  function AllPlugins(build: ClientBuild): seq<Plugin> {
    match build
    case DevBuild(d) => d.common.base.plugins + d.common.plugins + d.base.plugins + d.plugins
    case ProdBuild(p) => p.common.base.plugins + p.common.plugins + p.plugins
  }

  /** Every module rule of a build: the base rules, then the style rules. */
  function AllRules(build: ClientBuild): seq<Rule> {
    match build
    case DevBuild(d) => d.common.base.rules + d.common.rules
    case ProdBuild(p) => p.common.base.rules + p.common.rules
  }


  const SplitChunks: map<string, Js.Value> := map[
    "chunks" := Js.Str("all"),
    "cacheGroups" := Js.Object(map[
      "react" := Js.Object(map[
        "test" := Js.RegExp("[\\\\/]node_modules[\\\\/](react|react-dom)[\\\\/]", ""),
        "name" := Js.Str("react"),
        "priority" := Js.Number(10.0)]),
      "redux" := Js.Object(map[
        "test" := Js.RegExp("[\\\\/]node_modules[\\\\/](redux|react-redux|redux-thunk)[\\\\/]", ""),
        "name" := Js.Str("redux")])])]

  /** Copies the project's public directory into the output, tolerating its absence. */
  function CopyPublic(rootPath: string): (r: Plugin)
    ensures r.Enabled? && r.kind == Copy
    ensures "patterns" in r.options && r.options["patterns"].Array? && |r.options["patterns"].items| == 1
    ensures var pattern := r.options["patterns"].items[0];
      && pattern.Object?
      && "from" in pattern.fields && pattern.fields["from"] == Js.Str("**/*")
      && "context" in pattern.fields && pattern.fields["context"] == Js.Str(Paths.Resolve([rootPath, "public"]))
      && Paths.IsAbsolute(pattern.fields["context"].s)
      && "noErrorOnMissing" in pattern.fields && pattern.fields["noErrorOnMissing"] == Js.Bool(true)
  {
    Enabled(Copy, map["patterns" := Js.Array([Js.Object(map[
      "from" := Js.Str("**/*"),
      "context" := Js.Str(Paths.Resolve([rootPath, "public"])),
      "noErrorOnMissing" := Js.Bool(true)])])])
  }

  /** The client's development plugins: React fast refresh over the hot middleware, and the type checker. */
  function ClientDevPlugins(): (r: seq<Plugin>)
    ensures |r| == 2 && r[0].Enabled? && r[0].kind == ReactRefresh
    ensures r[1] == Enabled(ForkTsChecker, map[])
    ensures Kinds(r) == {ReactRefresh, ForkTsChecker}
  {
    var plugins := [Enabled(ReactRefresh, map["overlay" := Js.Object(map["sockIntegration" := Js.Str("whm")])]),
      Enabled(ForkTsChecker, map[])];
    KindsOfTwo(plugins[0], plugins[1]);
    plugins
  }

  /** The production plugins: CSS extraction, gzip compression and the assets manifest in the dist directory. */
  function ProdPlugins(rootPath: string, assetsDir: string, distDir: string): (r: seq<Plugin>)
    ensures |r| == 3
    ensures r[0].Enabled? && r[0].kind == MiniCssExtract
    ensures "filename" in r[0].options
      && r[0].options["filename"] == Js.Str(Paths.Join([assetsDir, "css", "[name].[contenthash:7].css"]))
      && Paths.Contains(r[0].options["filename"].s, ContentHash)
    ensures "chunkFilename" in r[0].options
      && r[0].options["chunkFilename"] == Js.Str(Paths.Join([assetsDir, "css", "[name].[contenthash:7].chunk.css"]))
      && Paths.Contains(r[0].options["chunkFilename"].s, ContentHash)
    ensures r[1].Enabled? && r[1].kind == Compression
    ensures "algorithm" in r[1].options && r[1].options["algorithm"] == Js.Str("gzip")
    ensures "test" in r[1].options && r[1].options["test"] == Js.RegExp("\\.(js|css)$", "")
    ensures "threshold" in r[1].options && r[1].options["threshold"] == Js.Number(8192.0)
    ensures "minRatio" in r[1].options && r[1].options["minRatio"] == Js.Number(0.8)
    ensures r[2].Enabled? && r[2].kind == Assets
    ensures "path" in r[2].options && r[2].options["path"] == Js.Str(Paths.Resolve([rootPath, distDir]))
    ensures Kinds(r) == {MiniCssExtract, Compression, Assets}
  {
    var css := Paths.Join([assetsDir, "css", "[name].[contenthash:7].css"]);
    var chunk := Paths.Join([assetsDir, "css", "[name].[contenthash:7].chunk.css"]);
    StyleNamesHashed(assetsDir);
    var plugins := [Enabled(MiniCssExtract, map[
       "filename" := Js.Str(css),
       "chunkFilename" := Js.Str(chunk)]),
     Enabled(Compression, map[
       "algorithm" := Js.Str("gzip"),
       "filename" := Js.Str("[path][base].gz[query]"),
       "test" := Js.RegExp("\\.(js|css)$", ""),
       "minRatio" := Js.Number(0.8),
       "threshold" := Js.Number(8192.0)]),
     Enabled(Assets, map[
       "filename" := Js.Str("assets.json"),
       "useCompilerPath" := Js.Bool(false),
       "fullPath" := Js.Bool(true),
       "entrypoints" := Js.Bool(true),
       "path" := Js.Str(Paths.Resolve([rootPath, distDir]))])];
    KindsOfThree(plugins[0], plugins[1], plugins[2]);
    plugins
  }

  class ClientConfig {
    const base: BaseConfig.BaseConfig
    const rootPath: string
    const entry: string
    var target: string

    ghost predicate Valid()
      reads this, base
    {
      base.Valid() && base.rootPath == rootPath && !base.server
    }

    /** The success path of construction: NODE_ENV is set. The target starts as "web". */
    constructor (rootPath: string, entry: string, host: BaseConfig.Host)
      requires BaseConfig.DevFlag(host.env).Success?
      ensures Valid() && fresh(base)
      ensures this.rootPath == rootPath && this.entry == entry && target == "web"
      ensures base.dev == BaseConfig.DevFlag(host.env).value
      ensures base.alias == map[] && base.devHMREnabled
      ensures base.entry == [entry]
      ensures base.appConfig.rootPath == rootPath && base.appConfig.Loaded(host.appFile)
      ensures base.envHolder.raw == DotEnv.RawEnv(
        host.loadDotEnv(host.env, DotEnv.CandidateFiles(rootPath, DotEnv.Mode(host.env))),
        EnvHolder.PublicPathKey, base.appConfig.GetPublicPath(), host.buildTime)
    {
      base := new BaseConfig.BaseConfig(rootPath, BaseConfig.Entry(BaseConfig.Single(entry)), false, host);
      this.rootPath := rootPath;
      this.entry := entry;
      target := "web";
    }

    /** Construction fails exactly when NODE_ENV is unset or empty. */
    static method Create(rootPath: string, entry: string, host: BaseConfig.Host) returns (r: Result<ClientConfig, BaseConfig.BuildError>)
      ensures r.Failure? <==> BaseConfig.DevFlag(host.env).Failure?
      ensures r.Failure? ==> r.error == BaseConfig.MissingNodeEnv
      ensures r.Success? ==> fresh(r.value) && fresh(r.value.base) && r.value.Valid()
      ensures r.Success? ==> r.value.base.dev == BaseConfig.DevFlag(host.env).value
      ensures r.Success? ==> r.value.base.alias == map[] && r.value.base.devHMREnabled
      ensures r.Success? ==> r.value.base.entry == [entry]
      ensures r.Success? ==> r.value.base.appConfig.rootPath == rootPath && r.value.base.appConfig.Loaded(host.appFile)
      ensures r.Success? ==> r.value.base.envHolder.raw == DotEnv.RawEnv(
        host.loadDotEnv(host.env, DotEnv.CandidateFiles(rootPath, DotEnv.Mode(host.env))),
        EnvHolder.PublicPathKey, r.value.base.appConfig.GetPublicPath(), host.buildTime)
      ensures r.Success? ==> r.value.rootPath == rootPath && r.value.entry == entry && r.value.target == "web"
    {
      if BaseConfig.DevFlag(host.env).Failure? {
        return Failure(BaseConfig.MissingNodeEnv);
      }
      var config := new ClientConfig(rootPath, entry, host);
      return Success(config);
    }

    /** Stores the target and hands back the same builder for chaining. */
    method SetTarget(target: string) returns (self: ClientConfig)
      modifies this`target
      ensures self == this && this.target == target
    {
      this.target := target;
      return this;
    }

    /**
     * The common fragment: the client output directory `<dist>/client` under the
     * root, the configured public path, the css and sass rules for the mode and
     * a copy of the public directory.
     */
    function GetCommonConfig(): (r: ClientCommon)
      requires Valid()
      reads this, base
      ensures r.base == base.GetCommonConfig()
      ensures r.name == "client" && r.target == target
      ensures r.outputPath == Paths.Append(Paths.Resolve([rootPath, base.appConfig.GetDistDir()]), "client")
      ensures r.publicPath == base.appConfig.GetPublicPath()
      ensures r.rules == [CssRule(base.dev), SassRule(base.dev, base.appConfig.GetSassAdditionalData())]
      ensures r.plugins == [CopyPublic(rootPath)]
    {
      var appConfig := base.appConfig;
      assert !Paths.IsAbsolute("client") by { assert "client"[..1][0] != "/"[0]; }
      Paths.ResolveUnder(rootPath, appConfig.GetDistDir(), "client");
      ClientCommon(
        base.GetCommonConfig(),
        "client",
        target,
        Paths.Resolve([rootPath, appConfig.GetDistDir(), "client"]),
        appConfig.GetPublicPath(),
        [CssRule(base.dev), SassRule(base.dev, appConfig.GetSassAdditionalData())],
        [CopyPublic(rootPath)])
    }

    /**
     * The development overlay: the hot client (only with HMR on) then the
     * resolved entry, unhashed script names under `<assetsDir>/js`, silent
     * infrastructure logging, React refresh and the type checker.
     */
    function GetDevConfig(): (r: ClientDev)
      requires Valid()
      reads this, base
      ensures r.common == GetCommonConfig() && r.base == base.GetDevConfig()
      ensures |r.entry| == (if base.devHMREnabled then 2 else 1)
      ensures r.entry[|r.entry| - 1] == Paths.Resolve([rootPath, entry])
      ensures base.devHMREnabled ==> r.entry[0] == HotClientShim
      ensures r.filename == Paths.Append(base.appConfig.GetAssetsDir(), "js") + "/" + "[name].js"
      ensures r.chunkFilename == Paths.Append(base.appConfig.GetAssetsDir(), "js") + "/" + "[name].chunk.js"
      ensures !Paths.Contains(base.appConfig.GetAssetsDir(), ContentHash) ==>
        !Paths.Contains(r.filename, ContentHash) && !Paths.Contains(r.chunkFilename, ContentHash)
      ensures r.infrastructureLogging == "none"
      ensures r.plugins == ClientDevPlugins()
    {
      var assetsDir := base.appConfig.GetAssetsDir();
      UnhashedNames(assetsDir);
      ScriptPathShape(assetsDir, "[name].js");
      ScriptPathShape(assetsDir, "[name].chunk.js");
      ClientDev(
        GetCommonConfig(),
        base.GetDevConfig(),
        HotEntry(HotClientShim, base.devHMREnabled, Paths.Resolve([rootPath, entry])),
        ScriptPath(assetsDir, "[name].js"),
        ScriptPath(assetsDir, "[name].chunk.js"),
        "none",
        ClientDevPlugins())
    }

    /**
     * The production overlay: the single resolved entry, content-hashed script
     * and style names, a runtime chunk, vendor split chunks, CSS extraction,
     * gzip compression and the assets manifest in the dist directory.
     */
    function GetProdConfig(): (r: ClientProd)
      requires Valid()
      reads this, base
      ensures r.common == GetCommonConfig() && r.base == base.GetProdConfig()
      ensures r.entry == Paths.Resolve([rootPath, entry])
      ensures r.filename == Paths.Append(base.appConfig.GetAssetsDir(), "js") + "/" + "[name].[contenthash:7].js"
      ensures r.chunkFilename == Paths.Append(base.appConfig.GetAssetsDir(), "js") + "/" + "[name].[contenthash:7].chunk.js"
      ensures Paths.Contains(r.filename, ContentHash) && Paths.Contains(r.chunkFilename, ContentHash)
      ensures r.runtimeChunk && r.splitChunks == SplitChunks
      ensures r.plugins == ProdPlugins(rootPath, base.appConfig.GetAssetsDir(), base.appConfig.GetDistDir())
    {
      var assetsDir := base.appConfig.GetAssetsDir();
      ScriptPathShape(assetsDir, "[name].[contenthash:7].js");
      ScriptPathShape(assetsDir, "[name].[contenthash:7].chunk.js");
      HashedNames(Paths.Append(assetsDir, "js") + "/");
      assert Paths.Append(assetsDir, "js") + "/" + "[name].[contenthash:7].js"
        == (Paths.Append(assetsDir, "js") + "/") + "[name].[contenthash:7].js";
      ClientProd(
        GetCommonConfig(),
        base.GetProdConfig(),
        Paths.Resolve([rootPath, entry]),
        ScriptPath(assetsDir, "[name].[contenthash:7].js"),
        ScriptPath(assetsDir, "[name].[contenthash:7].chunk.js"),
        true,
        SplitChunks,
        ProdPlugins(rootPath, assetsDir, base.appConfig.GetDistDir()))
    }

    /** The development build exactly when the builder is in development mode, else the production build. */
    function ToConfig(): (r: ClientBuild)
      requires Valid()
      reads this, base
      ensures r.DevBuild? <==> base.dev
      ensures r.DevBuild? ==> r.dev == GetDevConfig()
      ensures r.ProdBuild? ==> r.prod == GetProdConfig()
    {
      if base.dev then DevBuild(GetDevConfig()) else ProdBuild(GetProdConfig())
    }
  }

  /** Every plugin kind a development build enables, across all its fragments. */
  lemma DevBuildKinds(d: ClientDev, stringified: map<string, map<string, string>>, rootPath: string, hot: bool)
    requires d.common.base.plugins == BaseConfig.CommonPlugins(stringified, false)
    requires d.common.plugins == [CopyPublic(rootPath)]
    requires d.base.plugins == BaseConfig.DevPlugins(hot)
    requires d.plugins == ClientDevPlugins()
    ensures Kinds(AllPlugins(DevBuild(d))) ==
      {Clean, Define} + {Copy} + ((if hot then {HotModuleReplacement} else {}) + {ESLint, Stylelint}) + {ReactRefresh, ForkTsChecker}
    ensures MiniCssExtract !in Kinds(AllPlugins(DevBuild(d)))
  {
    KindsSingle(CopyPublic(rootPath));
    KindsConcat(d.common.base.plugins, d.common.plugins);
    KindsConcat(d.common.base.plugins + d.common.plugins, d.base.plugins);
    KindsConcat(d.common.base.plugins + d.common.plugins + d.base.plugins, d.plugins);
    assert MiniCssExtract !in Kinds(d.common.base.plugins);
    assert MiniCssExtract !in Kinds(d.common.plugins);
    assert MiniCssExtract !in Kinds(d.base.plugins);
    assert MiniCssExtract !in Kinds(d.plugins);
  }

  /** Every plugin kind a production build enables, across all its fragments. */
  lemma ProdBuildKinds(p: ClientProd, stringified: map<string, map<string, string>>, rootPath: string, assetsDir: string, distDir: string)
    requires p.common.base.plugins == BaseConfig.CommonPlugins(stringified, false)
    requires p.common.plugins == [CopyPublic(rootPath)]
    requires p.plugins == ProdPlugins(rootPath, assetsDir, distDir)
    ensures Kinds(AllPlugins(ProdBuild(p))) == {Clean, Define} + {Copy} + {MiniCssExtract, Compression, Assets}
  {
    KindsSingle(CopyPublic(rootPath));
    KindsConcat(p.common.base.plugins, p.common.plugins);
    KindsConcat(p.common.base.plugins + p.common.plugins, p.plugins);
  }

  /** Both style rules start with the same loader, the extraction loader exactly in production. */
  lemma StyleRulesAgree(dev: bool, sassData: string)
    ensures CssRule(dev).use[0] == SassRule(dev, sassData).use[0]
    ensures CssRule(dev).use[0] == Named(ExtractLoader) <==> !dev
  {
    assert "style-loader"[0] != ExtractLoader[0];
  }

  /** The client's share of the common fragment of a build. */
  function CommonOf(build: ClientBuild): ClientCommon {
    match build
    case DevBuild(d) => d.common
    case ProdBuild(p) => p.common
  }

  /**
   * A build assembled the way the builder assembles it: the base and client
   * plugin lists of its mode and the style rules of its mode.
   */
  ghost predicate Assembled(build: ClientBuild, stringified: map<string, map<string, string>>, rootPath: string,
                            hot: bool, assetsDir: string, distDir: string, sassData: string)
  {
    var dev := build.DevBuild?;
    CommonOf(build).base.plugins == BaseConfig.CommonPlugins(stringified, false)
    && CommonOf(build).plugins == [CopyPublic(rootPath)]
    && CommonOf(build).rules == [CssRule(dev), SassRule(dev, sassData)]
    && (build.DevBuild? ==> build.dev.base.plugins == BaseConfig.DevPlugins(hot) && build.dev.plugins == ClientDevPlugins())
    && (build.ProdBuild? ==> build.prod.plugins == ProdPlugins(rootPath, assetsDir, distDir))
  }

  /**
   * The style rules and the plugin list agree: both style rules start with the
   * same loader, and it is the extraction loader exactly when the build
   * enables the extraction plugin, which is exactly the production build.
   */
  lemma ExtractionConsistent(build: ClientBuild, stringified: map<string, map<string, string>>, rootPath: string,
                             hot: bool, assetsDir: string, distDir: string, sassData: string)
    requires Assembled(build, stringified, rootPath, hot, assetsDir, distDir, sassData)
    ensures CommonOf(build).rules[0].use[0] == CommonOf(build).rules[1].use[0]
    ensures CommonOf(build).rules[0].use[0] == Named(ExtractLoader) <==> build.ProdBuild?
    ensures MiniCssExtract in Kinds(AllPlugins(build)) <==> build.ProdBuild?
  {
    match build
    case DevBuild(d) =>
      StyleRulesAgree(true, sassData);
      DevBuildKinds(d, stringified, rootPath, hot);
    case ProdBuild(p) =>
      StyleRulesAgree(false, sassData);
      ProdBuildKinds(p, stringified, rootPath, assetsDir, distDir);
      assert MiniCssExtract in Kinds(AllPlugins(build));
  }

  /** The builder's own build is assembled the way the lemmas above require. */
  lemma ToConfigAssembled(c: ClientConfig)
    requires c.Valid()
    ensures Assembled(c.ToConfig(), c.base.envHolder.stringified, c.rootPath, c.base.devHMREnabled,
      c.base.appConfig.GetAssetsDir(), c.base.appConfig.GetDistDir(), c.base.appConfig.GetSassAdditionalData())
  {
    var common := c.GetCommonConfig();
    assert common.base.plugins == BaseConfig.CommonPlugins(c.base.envHolder.stringified, false);
    if c.base.dev {
      assert c.ToConfig() == DevBuild(c.GetDevConfig());
    } else {
      assert c.ToConfig() == ProdBuild(c.GetProdConfig());
    }
  }

  /** The builder enables the extraction plugin exactly in production builds, where the style rules extract. */
  lemma BuilderExtracts(c: ClientConfig)
    requires c.Valid()
    ensures MiniCssExtract in Kinds(AllPlugins(c.ToConfig())) <==> !c.base.dev
    ensures CommonOf(c.ToConfig()).rules[0].use[0] == Named(ExtractLoader) <==> !c.base.dev
  {
    var build := c.ToConfig();
    var stringified, hot := c.base.envHolder.stringified, c.base.devHMREnabled;
    var assetsDir, distDir := c.base.appConfig.GetAssetsDir(), c.base.appConfig.GetDistDir();
    var sassData := c.base.appConfig.GetSassAdditionalData();
    ToConfigAssembled(c);
    ExtractionConsistent(build, stringified, c.rootPath, hot, assetsDir, distDir, sassData);
  }

  /**
   * The builder's own build carries the six shared rules, told that they are
   * for the browser, then the css and Sass rules of its mode.
   */
  lemma BuilderRules(c: ClientConfig)
    requires c.Valid()
    ensures AllRules(c.ToConfig()) == BaseConfig.CommonRules(c.base.appConfig.GetAssetsDir(), c.base.dev, false)
      + [CssRule(c.base.dev), SassRule(c.base.dev, c.base.appConfig.GetSassAdditionalData())]
    ensures |AllRules(c.ToConfig())| == 8
  {
    var build, common := c.ToConfig(), c.GetCommonConfig();
    ToConfigCommon(c);
    assert AllRules(build) == CommonOf(build).base.rules + CommonOf(build).rules;
    assert common.base == c.base.GetCommonConfig();
  }

  /** Both modes of the builder's build carry the builder's common fragment. */
  lemma ToConfigCommon(c: ClientConfig)
    requires c.Valid()
    ensures CommonOf(c.ToConfig()) == c.GetCommonConfig()
  {
    if c.base.dev {
      assert c.ToConfig().dev == c.GetDevConfig();
    } else {
      assert c.ToConfig().prod == c.GetProdConfig();
    }
  }
}
