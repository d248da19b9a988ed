# webpack-utils configuration builders in Dafny

A model of the configuration builders of `webpack-utils`. This library turns
a short project description into a complete webpack configuration. The
project description covers the root directory, one entry, aliases, a target
and the process environment. The output is a browser build or a Node.js
build, in development or production mode.

The model has one module per source file:

- `AppConfig` and `AppConfigParser`: the two project-configuration holders.
  Each reads `app.config.js` once and falls back on fixed defaults.
- `EnvHolder` and `EnvParser`: the two environment snapshots. Both run the
  shared `DotEnv` algorithm. It picks the mode, lists the dot-env candidate
  files, seeds three reserved keys, copies every `APP_` variable and encodes
  the values as JSON.
- `BaseConfig`: the shared builder state, its mutators, and the three
  fragments every build is assembled from: common, development overlay and
  production overlay.
- `ClientConfig` and `ServerConfig`: the two concrete builders.

Helper modules:

- `Paths` models `path.resolve` and `path.join` as segment joins.
- `Json` models `JSON.stringify` on strings and booleans. The string encoding
  is the one of section 7 of RFC 8259. A decoder is its partner.
- `Js` models `||` on optional strings, template interpolation,
  `filter(Boolean)` and string arrays.
- `Webpack` holds configuration data: rules, loaders, plugins, and the set of
  enabled plugin kinds.

Builders are classes. Fields set only in a constructor are `const`, and fields
a setter changes are `var`. The fragment getters are functions that read the
builder. Each one returns a datatype holding the fields the source's object
literal sets. The subclasses hold their `BaseConfig` as a field, `base`, and
keep their own entry and target next to it. At run time there is a single
object. The subclass's parameter property `entry` and its field initialiser
`target` overwrite the values the base constructor stored in the same two
properties. The model keeps two copies instead, and nothing modelled reads
the base's copy once a subclass exists.

Outside input becomes parameters. A `BaseConfig.Host` carries four things:

- the process environment;
- the exports of `app.config.js` (`None` when the file is missing);
- a loader function standing for the dot-env files;
- the build-time string.

## Model

| member | source | states |
|---|---|---|
| AppConfig.AppConfig.constructor | src/AppConfig.ts:13-34 | Without `app.config.js` every getter returns its default. With the file, each field is the exported value, or "" when that value is missing. |
| AppConfig.AppConfig.GetDistDir | src/AppConfig.ts:36-38 | Never empty: the configured directory unless it is missing or empty, else "dist". |
| AppConfig.AppConfig.GetAssetsDir | src/AppConfig.ts:40-42 | Never empty: the configured directory unless it is missing or empty, else "static". |
| AppConfig.AppConfig.GetPublicPath | src/AppConfig.ts:44-46 | Never empty: the configured path unless it is missing or empty, else "/". |
| AppConfig.AppConfig.GetSassAdditionalData | src/AppConfig.ts:48-50 | Empty exactly when the field is missing or empty, otherwise the field. |
| AppConfigParser.DefaultsCoverEveryKind | src/AppConfigParser.ts:14-20 | Every CSS loader kind has a built-in option map, and it is empty. |
| AppConfigParser.Overlay | src/AppConfigParser.ts:45 | An object spread has the keys of both maps. The overlay's value wins on shared keys and the base's value is kept elsewhere. |
| AppConfigParser.CSSConfigParser.constructor | src/AppConfigParser.ts:36-38 | Stores the user's loader options, or none when the configuration or its `loaderOptions` is missing. |
| AppConfigParser.CSSConfigParser.GetLoaderOption | src/AppConfigParser.ts:40-47 | The defaults overlaid by the user's map for that kind, or just the defaults when the user gave none. |
| AppConfigParser.LoaderOptionIsUserOption | src/AppConfigParser.ts:40-47 | Since the defaults are empty, a loader's options are exactly the user's map for it, or empty. |
| AppConfigParser.AppConfigParser.constructor | src/AppConfigParser.ts:59-80 | Without a file the getters return "dist", "static" and "/". With a file every field is captured, "" for a missing one, and a fresh CSS holder is made from the `css` entry. |
| AppConfigParser.AppConfigParser.GetOutputDir | src/AppConfigParser.ts:82-84 | Never empty: the configured directory unless it is missing or empty, else "dist". |
| AppConfigParser.AppConfigParser.GetAssetsDir | src/AppConfigParser.ts:86-88 | Never empty: the configured directory unless it is missing or empty, else "static". |
| AppConfigParser.AppConfigParser.GetPublicPath | src/AppConfigParser.ts:90-92 | Never empty: the configured path unless it is missing or empty, else "/". |
| AppConfigParser.AppConfigParser.GetCSSConfig | src/AppConfigParser.ts:94-96 | The captured holder. Without one, a fresh holder whose every loader option is empty. |
| DotEnv.Mode | src/EnvHolder.ts:23 | MODE when it is set and non-empty, otherwise NODE_ENV (possibly unset). |
| DotEnv.CandidateFiles | src/EnvHolder.ts:25-32 | Four files in precedence order: `.env.<mode>.local`, `.env.<mode>`, `.env.local`, `.env`, all under the resolved `<root>/.env`. |
| DotEnv.AppKeyCases | src/EnvHolder.ts:43 | `/^APP_/i` accepts exactly the keys whose first four characters are `a`/`A`, `p`/`P`, `p`/`P`, `_`. |
| DotEnv.StripTrailingSlash | src/EnvHolder.ts:52 | Removes one trailing "/" when present and otherwise changes nothing. |
| DotEnv.StripTrailingSlashExamples | src/EnvHolder.ts:52 | "/" becomes "", "/app/" becomes "/app", and only one of two trailing slashes is removed. |
| DotEnv.CollectRaw | src/EnvHolder.ts:42-54 | The fold over the environment's keys yields the seed plus exactly the `APP_` variables, whatever the key order. |
| DotEnv.StringifyValues | src/EnvHolder.ts:56-64 | The fold yields every raw key mapped to its JSON encoding. |
| DotEnv.ReservedKeysAreNotAppKeys | src/EnvHolder.ts:42-54 | No reserved key is an `APP_` key, so the copied variables never overwrite the seed. |
| DotEnv.RawEnvShape | src/EnvHolder.ts:42-54 | The raw map holds NODE_ENV (default "production"), BUILD_TIME and the public path without its trailing slash. It also holds every `APP_` variable with its value, and nothing else. |
| DotEnv.StringifiedDecodes | src/EnvHolder.ts:56-64 | The encoded map has the single key "process.env" and the raw keys, and every value decodes back to the raw value. |
| EnvHolder.EnvHolder.constructor | src/EnvHolder.ts:22-68 | The snapshot is the raw map of the environment after loading the candidate files, with PUBLIC_URL as the public-path key. The encoded copy matches it. |
| EnvHolder.EnvHolder.GetRaw | src/EnvHolder.ts:70-72 | The raw snapshot, which has the reserved keys and otherwise only `APP_` keys. |
| EnvHolder.EnvHolder.GetStringified | src/EnvHolder.ts:74-76 | The encoded snapshot: one key, "process.env", holding exactly the raw keys, each JSON-encoded. |
| EnvHolder.StringifiedRoundTrip | src/EnvHolder.ts:56-64 | Every encoded value decodes back to the raw value. |
| EnvParser.EnvParser.constructor | src/EnvParser.ts:13-59 | Same as the older holder, with PUBLIC_PATH as the public-path key and the newer configuration holder. |
| EnvParser.EnvParser.GetRaw | src/EnvParser.ts:61-63 | The raw snapshot, which has the reserved keys and otherwise only `APP_` keys. |
| EnvParser.EnvParser.GetStringified | src/EnvParser.ts:65-67 | The encoded snapshot: one key, "process.env", holding exactly the raw keys, each JSON-encoded. |
| EnvParser.StringifiedRoundTrip | src/EnvParser.ts:47-55 | Every encoded value decodes back to the raw value. |
| EnvParser.NoPublicUrlKey | src/EnvParser.ts:40-44 | This copy publishes PUBLIC_PATH and never a PUBLIC_URL key. |
| Json.Boolean | src/BaseConfig.ts:221-222 | "true" exactly for true and "false" exactly for false. |
| Json.UnescapeEscapeBody | src/EnvHolder.ts:59 | Decoding the escaped body of any string gives the string back. |
| Json.QuoteRoundTrip | src/EnvHolder.ts:59 | `JSON.parse(JSON.stringify(s))` is `s` for every string. |
| Json.QuoteInjective | src/EnvHolder.ts:59 | Different strings have different encodings. |
| Js.Or | src/AppConfig.ts:37 | `v \|\| fallback` is `v` exactly when `v` is present and non-empty, and the fallback otherwise. It is non-empty when the fallback is. |
| Js.Interpolate | src/EnvHolder.ts:28-29 | A present value is printed as itself, and a missing one as "undefined", which is how an unset mode yields `.env.undefined`. |
| Js.Compact | src/ClientConfig.ts:91-94 | `filter(Boolean)` keeps exactly the non-empty strings and never lengthens the list. |
| Js.CompactConcat | src/ClientConfig.ts:91-94 | Filtering distributes over concatenation, so kept strings stay in order. |
| Js.CompactPair | src/ClientConfig.ts:91-94 | Filtering a pair keeps its non-empty members, first one first. |
| Paths.Resolve | src/BaseConfig.ts:66-68 | `path.resolve` always yields an absolute path. |
| Paths.ResolveAbsolute | src/BaseConfig.ts:66 | An absolute path resolves to itself, whatever precedes it. |
| Paths.ResolveRelative | src/BaseConfig.ts:68 | A relative, non-empty target is appended to an absolute root. |
| Paths.ResolveUnder | src/ClientConfig.ts:36 | `path.resolve(root, dir, name)` with a plain name is that name under `path.resolve(root, dir)`. |
| Paths.Join | src/BaseConfig.ts:161-165 | `path.join` never yields the empty string. |
| Paths.JoinPair | src/BaseConfig.ts:175 | `path.join(dir, sub)` of two non-empty segments appends `sub` to `dir`. |
| Paths.JoinUnder | src/ClientConfig.ts:96 | `path.join(dir, sub, name)` is `sub` under `dir`, then "/" and the name. |
| Webpack.KindsConcat | src/ClientConfig.ts:90 | Concatenating plugin lists unions their enabled kinds. |
| Webpack.KindsMembers | src/BaseConfig.ts:242-243 | A kind is enabled exactly when some enabled plugin of the list has it. The no-op placeholder enables nothing. |
| Webpack.HotEntry | src/ClientConfig.ts:91-94 | The entry list is the shim then the app entry with hot reloading on, and the app entry alone otherwise. |
| BaseConfig.Items | src/BaseConfig.ts:50 | A single path becomes a one-element list, and an array is read as its current contents. |
| BaseConfig.DevFlag | src/BaseConfig.ts:40-46 | Fails exactly when NODE_ENV is unset or empty. Otherwise the build is a development build exactly when NODE_ENV is not "production". |
| BaseConfig.ResolveAgainst | src/BaseConfig.ts:66-68 | Alias targets and entries always resolve to absolute paths. |
| BaseConfig.ResolveAgainstIsResolve | src/BaseConfig.ts:66-68 | The explicit leading-slash test agrees with `path.resolve(root, target)`, and absolute targets are kept. |
| BaseConfig.AliasTableAmongStep | src/BaseConfig.ts:74-79 | Visiting one more name adds its resolved alias when name and target are non-empty, and changes nothing otherwise. |
| BaseConfig.AliasTableShape | src/BaseConfig.ts:71-80 | The table has exactly the names with a non-empty name and target, each resolved against the root. |
| BaseConfig.AssetName | src/BaseConfig.ts:164 | Every asset name keeps the file's extension. |
| BaseConfig.AssetNameHashed | src/BaseConfig.ts:176-178 | Asset names carry a content hash exactly in production. |
| BaseConfig.CommonRules | src/BaseConfig.ts:137-215 | Six rules in this order: babel with its cache on for scripts outside node_modules, source-map-loader enforced "pre", then the image rule, the media rule under `<assetsDir>/media`, the svg rule, and the font rule under `<assetsDir>/fonts`. |
| BaseConfig.ImageRuleShape | src/BaseConfig.ts:153-168 | The image rule emits files exactly for non-server builds and inlines below 8192 bytes. It has no output path, and its name is `<assetsDir>/img/` joined with the mode's asset name. |
| BaseConfig.FileRuleShape | src/BaseConfig.ts:169-181 | A file-loader rule emits files exactly for non-server builds, names them by the mode and writes them under its output path. It never inlines. |
| BaseConfig.SvgRuleShape | src/BaseConfig.ts:182-199 | The svg rule runs `@svgr/webpack` first. Its url-loader emits exactly for non-server builds, inlines below 8192 bytes and writes under `<assetsDir>/img`. |
| BaseConfig.CommonRulesFollowPolicy | src/BaseConfig.ts:153-214 | Each of the four asset rules emits files exactly when the build is not a server build, and names them by the mode's policy. |
| BaseConfig.ImagesShareDirectory | src/BaseConfig.ts:161-165 | Images and svg files land in the same directory: the image name is the svg rule's output path, "/" and the asset name. |
| BaseConfig.DefineDefinitions | src/BaseConfig.ts:219-223 | The environment keys plus `__isClient__` and `__isServer__`. The flags are the JSON booleans of not-server and server, and the other keys hold their encoded maps. |
| BaseConfig.RoleFlagsComplementary | src/BaseConfig.ts:221-222 | Exactly one role flag reads "true", and `__isServer__` does exactly for server builds. |
| BaseConfig.CommonPlugins | src/BaseConfig.ts:217-224 | Cleaning, then the definitions table; the enabled kinds are exactly these two. |
| BaseConfig.DevPlugins | src/BaseConfig.ts:241-257 | HMR exactly when enabled, else the no-op. Then ESLint and Stylelint, both reporting errors and warnings without failing the build. |
| BaseConfig.BaseConfig.constructor | src/BaseConfig.ts:35-59 | Sets the development flag from NODE_ENV, applies a function entry once and copies the entry list. Starts with an empty alias table, HMR on, and target "node" for servers and "web" otherwise. The snapshot is taken from the host. |
| BaseConfig.BaseConfig.Create | src/BaseConfig.ts:40-44 | Construction fails with the missing-NODE_ENV error exactly when NODE_ENV is unset or empty. |
| BaseConfig.BaseConfig.SetAlias | src/BaseConfig.ts:61-69 | Rejects an empty name or target and leaves the table alone. Otherwise it stores the resolved target under the name. |
| BaseConfig.BaseConfig.SetAliases | src/BaseConfig.ts:71-80 | Replaces the table with exactly the usable entries of the given map, resolved. |
| BaseConfig.BaseConfig.SetDevHMREnabled | src/BaseConfig.ts:82-84 | Stores the HMR flag. |
| BaseConfig.BaseConfig.SetTarget | src/BaseConfig.ts:86-89 | A function target is applied to the development flag, and a name is stored as given. |
| BaseConfig.BaseConfig.GetEntry | src/BaseConfig.ts:107-111 | Every entry, in order, resolved against the root unless absolute. |
| BaseConfig.BaseConfig.GetCommonConfig | src/BaseConfig.ts:125-235 | The alias table, the root and the four extensions for resolution. The rules are the common rules over the configured assets directory, so every asset rule follows the asset policy. Also the common plugins over the stored snapshot and the fixed stats. |
| BaseConfig.BaseConfig.GetDevConfig | src/BaseConfig.ts:237-259 | Development mode, the eval source maps and the development plugins for the HMR flag. |
| BaseConfig.BaseConfig.GetProdConfig | src/BaseConfig.ts:261-282 | Production mode, no performance hints, and a single Terser minimizer with the Terser options of the build's role. |
| BaseConfig.KeptComments | src/BaseConfig.ts:274 | The comment setting is `false` exactly for server builds, and "some" otherwise. |
| BaseConfig.TerserOptions | src/BaseConfig.ts:271-278 | Terser formats with the role's comment setting and extracts no comments. |
| BaseConfig.EntryArrayIsCopied | src/BaseConfig.ts:50 | Changing the caller's array after construction leaves the stored entry as it was. |
| ClientConfig.LoaderChainOrder | src/ClientConfig.ts:40-66 | The sass chain is the css chain plus the sass loader. Both start with the mode's injection loader, then css-loader and postcss-loader, and only the sass rule excludes node_modules. |
| ClientConfig.StyleRulesAgree | src/ClientConfig.ts:43-56 | Both style rules start with the same loader, which is the extraction loader exactly in production. |
| ClientConfig.ScriptPathShape | src/ClientConfig.ts:96-101 | A script name lands under `<assetsDir>/js/`. |
| ClientConfig.HashedNames | src/ClientConfig.ts:127-136 | The production script and style names contain the content hash, whatever directory precedes them. |
| ClientConfig.BareNamesUnhashed | src/ClientConfig.ts:96-101 | "[name].js" and "[name].chunk.js" contain no content hash. |
| ClientConfig.UnhashedUnderJs | src/ClientConfig.ts:96-101 | A name without the hash, placed under `<assetsDir>/js`, has none unless the assets directory has one. The hash cannot straddle a "/". |
| ClientConfig.UnhashedNames | src/ClientConfig.ts:96-101 | The development names `<assetsDir>/js/[name].js` and `<assetsDir>/js/[name].chunk.js` contain no content hash unless the assets directory does. |
| ClientConfig.StyleNamesHashed | src/ClientConfig.ts:157-166 | The extracted style sheet names under `<assetsDir>/css` contain the content hash. |
| ClientConfig.CopyPublic | src/ClientConfig.ts:69-79 | A copy plugin with a single pattern. It copies "**/*" from the absolute `path.resolve(root, "public")` and does not fail when that directory is missing. |
| ClientConfig.ClientDevPlugins | src/ClientConfig.ts:106-113 | React refresh over the hot middleware, then the type checker; exactly these two kinds. |
| ClientConfig.ProdPlugins | src/ClientConfig.ts:155-182 | CSS extraction, gzip compression and the assets manifest. Extraction writes `<assetsDir>/css/[name].[contenthash:7].css` and `.chunk.css`, both carrying the content hash. Compression is gzip over `.js` and `.css` files from 8192 bytes at a minimum ratio of 0.8. The manifest is written to the resolved dist directory. |
| ClientConfig.ClientConfig.constructor | src/ClientConfig.ts:15-19 | A client base (not a server build), the given root and entry, and target "web". The base's configuration is loaded from the host's `app.config.js`, its entry is the given one, and its snapshot is the raw environment after loading the candidate files for NODE_ENV's mode. |
| ClientConfig.ClientConfig.Create | src/ClientConfig.ts:17-19 | Construction fails with the missing-NODE_ENV error exactly when NODE_ENV is unset or empty. On success the builder is set up as the constructor states, base configuration and snapshot included. |
| ClientConfig.ClientConfig.SetTarget | src/ClientConfig.ts:21-24 | Stores the target and returns the same builder. |
| ClientConfig.ClientConfig.GetCommonConfig | src/ClientConfig.ts:26-81 | The base common fragment, name "client", the target and the output directory `<dist>/client` under the root. Also the public path, the css and sass rules of the mode, and the copy plugin. |
| ClientConfig.ClientConfig.GetDevConfig | src/ClientConfig.ts:83-115 | The hot client only with HMR on, then the resolved entry. Names under `<assetsDir>/js/` that carry no content hash unless the assets directory does, silent infrastructure logging, and the client development plugins. |
| ClientConfig.ClientConfig.GetProdConfig | src/ClientConfig.ts:117-184 | The resolved entry, content-hashed names under `<assetsDir>/js/`, a runtime chunk, the two cache groups, and the production plugins. |
| ClientConfig.ClientConfig.ToConfig | src/ClientConfig.ts:186-188 | The development build exactly in development mode, otherwise the production build. |
| ClientConfig.DevBuildKinds | src/ClientConfig.ts:83-115 | A development build enables exactly these kinds: cleaning, definitions, copy, HMR when on, the two linters, React refresh and the type checker. Extraction is never among them. |
| ClientConfig.ProdBuildKinds | src/ClientConfig.ts:117-184 | A production build enables exactly cleaning, definitions, copy, extraction, compression and the manifest. |
| ClientConfig.ExtractionConsistent | src/ClientConfig.ts:43-167 | In an assembled build both style rules start with the same loader. It is the extraction loader exactly when the extraction plugin is enabled, which is exactly the production build. |
| ClientConfig.ToConfigAssembled | src/ClientConfig.ts:186-188 | The builder's own build is assembled from its snapshot, root, HMR flag and configured directories, so the build lemmas apply to it. |
| ClientConfig.BuilderExtracts | src/ClientConfig.ts:43-167 | The builder's build enables the extraction plugin, and its css rule starts with the extraction loader, exactly in production. |
| ClientConfig.ToConfigCommon | src/ClientConfig.ts:186-188 | Both modes of the builder's build carry the builder's own common fragment. |
| ClientConfig.BuilderRules | src/ClientConfig.ts:26-66 | The builder's build carries the six shared rules for a browser build, then the css and Sass rules of its mode: eight rules in all. |
| ServerConfig.BoundServerFlag | src/ServerConfig.ts:18-20 | The base's `server` flag is set only by a second extra argument to `super`, and is `false` otherwise. |
| ServerConfig.SuperCallMisbindsServer | src/ServerConfig.ts:19 | As written, the base gets `server = false`, which reaches all three uses of the flag. The definitions announce a client build, every asset rule emits files, and Terser keeps "some" comments in the server's production bundle. |
| ServerConfig.IgnoredStyleSuffixes | src/ServerConfig.ts:50-53 | `/\.s?[ac]ss$/` matches exactly the names ending in ".css", ".scss", ".sass" or ".ass". |
| ServerConfig.MatchGivesSuffix | src/ServerConfig.ts:51 | A match of the style test ends the name with ".css", ".scss", ".sass" or ".ass". |
| ServerConfig.SuffixGivesMatch | src/ServerConfig.ts:51 | A name with one of those four endings is matched by the style test. |
| ServerConfig.ServerDevPlugins | src/ServerConfig.ts:93-105 | The watch-ignore plugin for declaration files. Then, exactly when enabled, the run-script plugin for "main.js" with the stored arguments, signal and restart on; otherwise the no-op. |
| ServerConfig.DevBuildKinds | src/ServerConfig.ts:64-107 | A development server build enables run-script exactly when asked to, and HMR exactly when on. Its enabled kinds are listed in full. |
| ServerConfig.ProdBuildKinds | src/ServerConfig.ts:109-129 | A production server build enables only cleaning and the definitions table. |
| ServerConfig.ServerConfig.constructor | src/ServerConfig.ts:12-20 | A base that knows it builds for the server, the given root and entry, run-script on with no arguments, and target "node". The base's configuration is loaded from the host's `app.config.js`, its entry is the given one, and its snapshot is the raw environment after loading the candidate files for NODE_ENV's mode. |
| ServerConfig.ServerConfig.Create | src/ServerConfig.ts:18-20 | Construction fails with the missing-NODE_ENV error exactly when NODE_ENV is unset or empty. On success the builder is set up as the constructor states, base configuration and snapshot included. |
| ServerConfig.ServerConfig.SetDevRunScript | src/ServerConfig.ts:22-25 | Stores the run-script flag and returns the same builder. |
| ServerConfig.ServerConfig.SetRunScriptArgs | src/ServerConfig.ts:27-30 | Stores a copy of the arguments and returns the same builder. |
| ServerConfig.ServerConfig.SetTarget | src/ServerConfig.ts:32-35 | Stores the target and returns the same builder. |
| ServerConfig.ServerConfig.GetCommonConfig | src/ServerConfig.ts:37-61 | The base common fragment, whose asset rules do not emit files, and name "server". The output directory `<dist>/server` under the root, the public path, style sheets routed to the null loader, and `__dirname`/`__filename` left to Node. |
| ServerConfig.ServerConfig.GetDevConfig | src/ServerConfig.ts:64-107 | The target, watch mode following HMR, and the signal client only with HMR on, then the resolved entry. Also "[name].js", chunks under `<assetsDir>/js/`, the externals allowlist and the server development plugins. |
| ServerConfig.ServerConfig.GetProdConfig | src/ServerConfig.ts:109-129 | The target, the resolved entry, "[name].js" exported as library "[name]", and content-hashed chunks under `<assetsDir>/js/`. |
| ServerConfig.ServerConfig.ToConfig | src/ServerConfig.ts:131-133 | The development build exactly in development mode, otherwise the production build. |
| ServerConfig.RunsScriptExactly | src/ServerConfig.ts:64-133 | In an assembled server build the bundle runner is enabled exactly in development when the run-script flag is on. |
| ServerConfig.ToConfigAssembled | src/ServerConfig.ts:131-133 | The builder's own build is assembled from its snapshot, HMR flag and run-script settings, so the build lemmas apply to it. |
| ServerConfig.BuilderPluginKinds | src/ServerConfig.ts:64-133 | The builder's build enables exactly the kinds of its mode: in development HMR follows the HMR flag and run-script the run-script flag; in production only cleaning and the definitions table. |
| ServerConfig.BuilderRunsScript | src/ServerConfig.ts:93-104 | The builder's build runs the bundle exactly in development with the run-script flag on. |
| ServerConfig.ToConfigCommon | src/ServerConfig.ts:131-133 | Both modes of the builder's build carry the builder's own common fragment. |
| ServerConfig.RulesOfCommon | src/ServerConfig.ts:47-54 | A build whose base rules are the shared server rules carries them, then the style filter: seven rules. |
| ServerConfig.BuilderRules | src/ServerConfig.ts:36-60 | The builder's build carries the six shared rules for a server build (no emitted assets), then the rule that ignores style sheets. |

## Left out

- File-system probes and `require` of `app.config.js`: the exports are a parameter, with `None` when the file is missing.
- The dot-env parser and its precedence rules: a loader function (`DotEnv.Loader`) turns the environment and the candidate files into the environment afterwards.
- The clock: BUILD_TIME (`new Date().toLocaleString()`) is a parameter.
- `path.resolve` and `path.join` are segment joins without canonicalisation (".", "..", repeated separators), and the working directory is replaced by "/".
- webpack-merge is not modelled as a deep merge. A build is kept as its fragments, and only the concatenation of plugin lists (`AllPlugins`) and rule lists (`AllRules`) is spelled out.
- Plugin classes are a kind tag plus the literal options passed to them. What the plugins, loaders and `webpack-node-externals` do at build time is not modelled. Regular expressions are kept as their source text, except the server's style test, which `ServerConfig.IsIgnoredStyle` also gives a meaning.
- `ClientConfig.ExtractLoader` stands for `MiniCssExtractPlugin.loader`, which at run time is the installed loader's path.
- Numbers in plugin options are Dafny reals.
- Json.Quote: JavaScript strings can hold lone UTF-16 surrogates, which `JSON.stringify` escapes as `\udXXX`. A Dafny `char` cannot hold one, so the model does not cover that escape.
- `AppConfig.AppConfig.GetDistDir`, `GetAssetsDir` and `GetPublicPath` state the fallback rule and non-emptiness. They do not cover JavaScript truthiness of non-string exports, since the exports are typed as strings here.
- BaseConfig.BaseConfig.constructor: both subclasses pass a boolean as the base's entry. The base constructor stores `[true]` or `[false]` in `this.entry` (src/BaseConfig.ts:48-50). The subclass's parameter property then overwrites that same property with its string entry, and its field initialiser overwrites `target` (src/ClientConfig.ts:15-17, src/ServerConfig.ts:16-18). The base's `getEntry` would then map over a string, but no subclass calls it. The model passes the subclass's own entry to the base and keeps the subclass's entry and target as separate fields; nothing modelled reads the base's copies.
- The plain accessors of `BaseConfig` (`isServer`, `isDevelopment`, `getTarget`, `getRootPath`, `getAppConfig`, `getEnvHolder`, `isDevHMREnabled`) are reads of the corresponding fields.
- The abstract `toConfig` of `BaseConfig` exists only through the two subclasses' `ToConfig`.
- Some behaviour of the builders is easy to misread. The model follows the code:
  - React refresh is enabled in every client development build, not only with HMR on.
  - The client has css and sass rules only, with no less or stylus rules.
  - The fallbacks use `||`, so an empty MODE, NODE_ENV or configuration value also falls back.
  - The production entry is the single resolved entry.
  - The server's target is set in the development and production overlays, not in the common fragment.
- EnvHolder.EnvHolder.GetStringified: it states that the result is the encoding of the raw snapshot. That every value decodes back is a separate lemma, `EnvHolder.StringifiedRoundTrip`, so that the many callers of the getter do not carry it. The same holds for `EnvParser.EnvParser.GetStringified`.

## Findings

| source | as written | input that shows it | evidently intended | confidence | as-written member | corrected member |
|---|---|---|---|---|---|---|
| src/ServerConfig.ts:19 | `super(rootPath, true)` binds `true` to the base's `entry` parameter, so `server` keeps its default `false` | Any server builder: `__isServer__` is defined as "false", `__isClient__` as "true", every asset rule has `emitFile: true` (src/BaseConfig.ts:160-206), and the production Terser options keep "some" comments (src/BaseConfig.ts:274) | The base is told it builds for the server (`server = true`), so the role flags say "server" and asset files are not emitted twice | not executed | ServerConfig.SuperCallMisbindsServer | ServerConfig.ServerConfig.constructor |

The corrected constructor gives the base `server = true`. `ServerConfig.ServerConfig.GetCommonConfig` then states that no asset rule emits files. `BaseConfig.KeptComments` gives `false` exactly for server builds. `BaseConfig.RoleFlagsComplementary` shows that `__isServer__` reads "true" exactly for server builds.
