/**
 * The newer project-configuration holder (src/AppConfigParser.ts): the same
 * default-returning getters plus per-loader CSS option maps, where the user's
 * options are laid over built-in defaults.
 */
module AppConfigParser {
  import opened Wrappers
  import Js

  datatype CSSLoaderType = Css | PostCss | Sass | Less | Stylus

  /** The options handed to one CSS loader. */
  type LoaderOption = map<string, Js.Value>

  datatype CSSConfiguration = CSSConfiguration(loaderOptions: Option<map<CSSLoaderType, LoaderOption>>)

  /** What `app.config.js` exports; `None` is a missing field. */
  datatype AppConfiguration = AppConfiguration(
    outputDir: Option<string>,
    assetsDir: Option<string>,
    publicPath: Option<string>,
    css: Option<CSSConfiguration>)

  const DefaultOutputDir := "dist"
  const DefaultAssetsDir := "static"
  const DefaultPublicPath := "/"

  /** The built-in options of every loader kind: all empty. */
  const DefaultCSSLoaderOptions: map<CSSLoaderType, LoaderOption> :=
    map[Css := map[], PostCss := map[], Sass := map[], Less := map[], Stylus := map[]]

  lemma DefaultsCoverEveryKind(kind: CSSLoaderType)
    ensures kind in DefaultCSSLoaderOptions && DefaultCSSLoaderOptions[kind] == map[]
  {
  }

  /** `{ ...base, ...over }`: every key of either map, the overlay's value winning on shared keys. */
  function Overlay(base: LoaderOption, over: LoaderOption): (r: LoaderOption)
    ensures r.Keys == base.Keys + over.Keys
    ensures forall key :: key in over ==> r[key] == over[key]
    ensures forall key :: key in base && key !in over ==> r[key] == base[key]
  {
    base + over
  }

  class CSSConfigParser {
    const loaderOptions: map<CSSLoaderType, LoaderOption>

    /** `config` is the `css` entry of the configuration; a missing one, or one without loader options, stores none. */
    constructor (config: Option<CSSConfiguration>)
      ensures loaderOptions == (if config.Some? && config.value.loaderOptions.Some? then config.value.loaderOptions.value else map[])
    {
      loaderOptions := if config.Some? && config.value.loaderOptions.Some? then config.value.loaderOptions.value else map[];
    }

    /**
     * The options for one loader kind: the built-in defaults overlaid by the
     * user's map for that kind, the user winning on shared keys; just the
     * defaults when the user gave none. The stored options are not touched.
     */
    function GetLoaderOption(kind: CSSLoaderType): (r: LoaderOption)
      ensures kind in DefaultCSSLoaderOptions
      ensures kind in loaderOptions ==> r == Overlay(DefaultCSSLoaderOptions[kind], loaderOptions[kind])
      ensures kind !in loaderOptions ==> r == DefaultCSSLoaderOptions[kind]
    {
      DefaultsCoverEveryKind(kind);
      var defaultOption := DefaultCSSLoaderOptions[kind];
      if kind in loaderOptions then Overlay(defaultOption, loaderOptions[kind]) else defaultOption
    }
  }

  /** Since every default map is empty, a loader's options are exactly what the user gave for it, or empty. */
  lemma LoaderOptionIsUserOption(parser: CSSConfigParser, kind: CSSLoaderType)
    ensures parser.GetLoaderOption(kind) == (if kind in parser.loaderOptions then parser.loaderOptions[kind] else map[])
  {
    DefaultsCoverEveryKind(kind);
    if kind in parser.loaderOptions {
      var r := parser.GetLoaderOption(kind);
      assert r.Keys == parser.loaderOptions[kind].Keys;
    }
  }

  class AppConfigParser {
    const rootPath: string
    const outputDir: Option<string>
    const assetsDir: Option<string>
    const publicPath: Option<string>
    const css: CSSConfigParser?

    /**
     * `file` is what `<rootPath>/app.config.js` exports, or `None` when there is
     * no such file. A present file sets every field, a missing entry becoming
     * "" (or an empty CSS configuration).
     */
    constructor (rootPath: string, file: Option<AppConfiguration>)
      ensures this.rootPath == rootPath
      ensures file.None? ==> outputDir.None? && assetsDir.None? && publicPath.None? && css == null
      ensures file.Some? ==>
        && outputDir == Some(file.value.outputDir.GetOr(""))
        && assetsDir == Some(file.value.assetsDir.GetOr(""))
        && publicPath == Some(file.value.publicPath.GetOr(""))
        && css != null && fresh(css)
        && css.loaderOptions == (if file.value.css.Some? && file.value.css.value.loaderOptions.Some?
                                 then file.value.css.value.loaderOptions.value else map[])
      ensures file.None? ==> GetOutputDir() == "dist" && GetAssetsDir() == "static" && GetPublicPath() == "/"
    {
      this.rootPath := rootPath;
      match file
      case None =>
        outputDir, assetsDir, publicPath, css := None, None, None, null;
      case Some(f) =>
        outputDir := Some(f.outputDir.GetOr(""));
        assetsDir := Some(f.assetsDir.GetOr(""));
        publicPath := Some(f.publicPath.GetOr(""));
        css := new CSSConfigParser(f.css);
    }

    /** The output directory: the captured one unless missing or empty, then "dist". */
    function GetOutputDir(): (r: string)
      ensures r != ""
      ensures r == (if outputDir.Some? && outputDir.value != "" then outputDir.value else DefaultOutputDir)
    {
      Js.Or(outputDir, DefaultOutputDir)
    }

    /** The assets directory: the captured one unless missing or empty, then "static". */
    function GetAssetsDir(): (r: string)
      ensures r != ""
      ensures r == (if assetsDir.Some? && assetsDir.value != "" then assetsDir.value else DefaultAssetsDir)
    {
      Js.Or(assetsDir, DefaultAssetsDir)
    }

    /** The public path: the captured one unless missing or empty, then "/". */
    function GetPublicPath(): (r: string)
      ensures r != ""
      ensures r == (if publicPath.Some? && publicPath.value != "" then publicPath.value else DefaultPublicPath)
    {
      Js.Or(publicPath, DefaultPublicPath)
    }

    /** The captured CSS holder, or a new one without user options when no file was found. */
    method GetCSSConfig() returns (holder: CSSConfigParser)
      ensures css != null ==> holder == css
      ensures css == null ==> fresh(holder) && holder.loaderOptions == map[]
      ensures css == null ==> forall kind :: holder.GetLoaderOption(kind) == map[]
    {
      if css != null {
        holder := css;
      } else {
        holder := new CSSConfigParser(None);
        forall kind: CSSLoaderType ensures holder.GetLoaderOption(kind) == map[] {
          DefaultsCoverEveryKind(kind);
        }
      }
    }
  }
}
