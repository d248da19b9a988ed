/**
 * The parts of a webpack configuration the builders emit, as data. Regular
 * expressions are kept as their literal text; plugins are a kind tag plus the
 * literal options the builders pass, or the no-op placeholder.
 */
module Webpack {
  import opened Wrappers
  import Js

  /** A regular-expression literal, kept as its source text and flags. */
  datatype Pattern = Pattern(source: string, flags: string)

  /** One entry of a rule's `use`: a loader named by a string, or a loader object with options. */
  datatype LoaderUse =
    | Named(loader: string)
    | WithOptions(loader: string, options: map<string, Js.Value>)

  /** A module rule; a single `use` entry is a one-element list. */
  datatype Rule = Rule(test: Pattern, exclude: Option<Pattern>, enforce: Option<string>, use: seq<LoaderUse>)

  datatype PluginKind =
    | Clean | Define | HotModuleReplacement | ESLint | Stylelint | Terser
    | ReactRefresh | ForkTsChecker | Copy | MiniCssExtract | Compression | Assets
    | WatchIgnore | RunScript

  /** A plugin slot: an enabled plugin with its options, or the no-op placeholder. */
  datatype Plugin = Enabled(kind: PluginKind, options: map<string, Js.Value>) | Noop

  const NodeModules := Pattern("node_modules", "")

  /** The kinds of the enabled plugins of a list; no-op placeholders contribute nothing. */
  function Kinds(plugins: seq<Plugin>): set<PluginKind>
    decreases |plugins|
  {
    if plugins == [] then {}
    else
      var last := plugins[|plugins| - 1];
      Kinds(plugins[..|plugins| - 1]) + (if last.Enabled? then {last.kind} else {})
  }

  /** Listing one plugin list after another enables the kinds of both. */
  lemma {:induction false} KindsConcat(a: seq<Plugin>, b: seq<Plugin>)
    ensures Kinds(a + b) == Kinds(a) + Kinds(b)
    decreases |b|
  {
    if b == [] {
      assert a + b == a;
    } else {
      assert (a + b)[..|a + b| - 1] == a + b[..|b| - 1];
      KindsConcat(a, b[..|b| - 1]);
    }
  }

  /** A kind is enabled by a list exactly when some enabled plugin of the list has it. */
  lemma {:induction false} KindsMembers(plugins: seq<Plugin>, kind: PluginKind)
    ensures kind in Kinds(plugins) <==> exists i :: 0 <= i < |plugins| && plugins[i].Enabled? && plugins[i].kind == kind
    decreases |plugins|
  {
    if plugins != [] {
      var init := plugins[..|plugins| - 1];
      KindsMembers(init, kind);
      if kind in Kinds(init) {
        var i :| 0 <= i < |init| && init[i].Enabled? && init[i].kind == kind;
        assert plugins[i] == init[i];
      }
      if exists i :: 0 <= i < |plugins| && plugins[i].Enabled? && plugins[i].kind == kind {
        var i :| 0 <= i < |plugins| && plugins[i].Enabled? && plugins[i].kind == kind;
        if i < |init| {
          assert init[i] == plugins[i];
        }
      }
    }
  }

  /** The kinds of a list of three: the first one's if it is enabled, and the two enabled ones after it. */
  lemma KindsOfThree(a: Plugin, b: Plugin, c: Plugin)
    requires b.Enabled? && c.Enabled?
    ensures Kinds([a, b, c]) == (if a.Enabled? then {a.kind} else {}) + {b.kind, c.kind}
  {
    assert [a, b, c][..2] == [a, b];
    assert [a, b][..1] == [a];
    assert [a][..0] == [];
    assert Kinds([a]) == (if a.Enabled? then {a.kind} else {});
    assert Kinds([a, b]) == Kinds([a]) + {b.kind};
  }

  /** The kinds of a list of two enabled plugins. */
  lemma KindsOfTwo(a: Plugin, b: Plugin)
    requires a.Enabled? && b.Enabled?
    ensures Kinds([a, b]) == {a.kind, b.kind}
  {
    assert [a, b][..1] == [a];
    assert [a][..0] == [];
    assert Kinds([a]) == {a.kind};
  }

  /** The kinds of a single plugin. */
  lemma KindsSingle(plugin: Plugin)
    requires plugin.Enabled?
    ensures Kinds([plugin]) == {plugin.kind}
  {
    assert [plugin][..0] == [];
  }

  /**
   * A development entry list: the hot-reload shim when hot reloading is on,
   * then the application entry, with empty strings filtered out.
   */
  function HotEntry(shim: string, hot: bool, app: string): (r: seq<string>)
    requires shim != "" && app != ""
    ensures |r| == (if hot then 2 else 1)
    ensures r[|r| - 1] == app
    ensures hot ==> r[0] == shim
  {
    Js.CompactPair(if hot then shim else "", app);
    Js.Compact([if hot then shim else "", app])
  }
}
