/**
 * The exported wrapper `nextConfig => ({...nextConfig, webpack(config, options) {...}})` and its
 * `webpack` hook, which mutates the bundler configuration in place.
 */
module NextSass {
  import opened Js
  import opened Patterns
  import opened Loaders
  import opened Plugins
  import opened Optimization

  /** The parts of the bundler's `config` the hook changes. */
  class BuildConfig {
    var rules: seq<Rule>        // config.module.rules
    var plugins: seq<Plugin>    // config.plugins
    var optimization: Value     // config.optimization

    constructor (rules: seq<Rule>, plugins: seq<Plugin>, optimization: Value)
      ensures this.rules == rules && this.plugins == plugins && this.optimization == optimization
    {
      this.rules := rules;
      this.plugins := plugins;
      this.optimization := optimization;
    }

    function State(): Snapshot
      reads this
    {
      Snapshot(rules, plugins, optimization)
    }
  }

  /** `options.defaultLoaders`, of which the hook writes only the `sass` entry. */
  class DefaultLoaders {
    var sass: Option<SassFactory>

    constructor ()
      ensures sass == None
    {
      sass := None;
    }
  }

  /** The hook's `options` argument; a falsy `defaultLoaders` is `null`. */
  datatype HookOptions = HookOptions(defaultLoaders: DefaultLoaders?, dev: bool, isServer: bool)

  datatype Snapshot = Snapshot(rules: seq<Rule>, plugins: seq<Plugin>, optimization: Value)

  /** How the hook ends. */
  datatype Outcome =
    | Threw(error: JsError)
    | ReturnedConfig                  // `return config`: the mutated configuration itself
    | ReturnedFromPrior(prior: Value) // `return nextConfig.webpack(config, options)` on the mutated configuration

  datatype Run = Run(after: Snapshot, outcome: Outcome)

  function ConfigOption(nextConfig: map<string, Value>, name: string): Value {
    Field(Obj(nextConfig), name)
  }

  /** The factory registered as `defaultLoaders.sass`; `sassLoaderOptions` defaults to `{}`. */
  function SassFactoryFor(nextConfig: map<string, Value>, dev: bool, isServer: bool): SassFactory {
    var sassLoaderOptions := ConfigOption(nextConfig, "sassLoaderOptions");
    SassFactory(
      ConfigOption(nextConfig, "cssLoaderOptions"),
      ConfigOption(nextConfig, "postcssLoaderOptions"),
      if sassLoaderOptions.Undefined? then Obj(map[]) else sassLoaderOptions,
      dev,
      isServer)
  }

  /** `cssExtractOutput`, whose destructuring default applies only when it is `undefined`. */
  function CssExtractOutput(nextConfig: map<string, Value>): Value {
    var v := ConfigOption(nextConfig, "cssExtractOutput");
    if v.Undefined? then DEFAULT_EXTRACT_OUTPUT else v
  }

  /** The final `return`: delegate to the caller's own `webpack` when it is a function. */
  function Chain(nextConfig: map<string, Value>): (r: Outcome)
    ensures !r.Threw?
    ensures r.ReturnedFromPrior? <==> IsFunction(ConfigOption(nextConfig, "webpack"))
    ensures r.ReturnedFromPrior? ==> r.prior == nextConfig["webpack"]
  {
    var prior := ConfigOption(nextConfig, "webpack");
    if IsFunction(prior) then ReturnedFromPrior(prior) else ReturnedConfig
  }

  function Finish(nextConfig: map<string, Value>, s: Snapshot): Run {
    match MergeCacheGroups(s.optimization)
    case Err(e) => Run(s, Threw(e))
    case Ok(optimization) => Run(s.(optimization := optimization), Chain(nextConfig))
  }

  /** The extraction plugin the hook appends for the given names. */
  function NewExtractPlugin(names: OutputNames): Plugin {
    MiniCssExtract(names.filename, names.chunkFilename)
  }

  /**
   * One call of the hook, as a function of what it reads: the state after it and how it ends.
   * It throws before touching anything when `defaultLoaders` is missing; a TypeError raised
   * later leaves the steps already done in place.
   */
  function WebpackRun(nextConfig: map<string, Value>, hasDefaultLoaders: bool, dev: bool, isServer: bool, before: Snapshot): (r: Run)
    ensures !hasDefaultLoaders <==> r.outcome == Threw(IncompatibleNextVersion)
    ensures !hasDefaultLoaders ==> r.after == before
    ensures hasDefaultLoaders ==>
      var factory := SassFactoryFor(nextConfig, dev, isServer);
      r.after.rules == before.rules + [GlobalRule(factory), ModuleRule(factory)]
    ensures hasDefaultLoaders && isServer ==> r.after.plugins == before.plugins
    ensures hasDefaultLoaders && !isServer ==>
      var names := ExtractNames(CssExtractOutput(nextConfig), dev);
      var scanned := Survivors(before.plugins, |before.plugins|);
      && (names.Err? ==> r.after.plugins == scanned && r.outcome == Threw(TypeError))
      && (names.Ok? ==> r.after.plugins == scanned + [NewExtractPlugin(names.value)])
    ensures r.outcome.Threw? ==> r.after.optimization == before.optimization
    ensures !r.outcome.Threw? ==>
      && MergeCacheGroups(before.optimization).Ok?
      && r.after.optimization == MergeCacheGroups(before.optimization).value
      && r.outcome == Chain(nextConfig)
  {
    if !hasDefaultLoaders then Run(before, Threw(IncompatibleNextVersion))
    else
      var factory := SassFactoryFor(nextConfig, dev, isServer);
      var withRules := before.(rules := before.rules + [GlobalRule(factory), ModuleRule(factory)]);
      if isServer then Finish(nextConfig, withRules)
      else
        var scanned := withRules.(plugins := Survivors(before.plugins, |before.plugins|));
        match ExtractNames(CssExtractOutput(nextConfig), dev)
        case Err(e) => Run(scanned, Threw(e))
        case Ok(names) => Finish(nextConfig, scanned.(plugins := scanned.plugins + [NewExtractPlugin(names)]))
  }

  /**
   * After a browser build, the new extraction plugin is last and every other plugin keeps its
   * relative order; the stale extraction plugins are all gone when no two of them were adjacent.
   */
  lemma ClientBuildPlugins(nextConfig: map<string, Value>, dev: bool, before: Snapshot)
    requires ExtractNames(CssExtractOutput(nextConfig), dev).Ok?
    ensures
      var names := ExtractNames(CssExtractOutput(nextConfig), dev).value;
      var after := WebpackRun(nextConfig, true, dev, false, before).after.plugins;
      && |after| > 0
      && after[|after| - 1] == NewExtractPlugin(names)
      && Others(after) == Others(before.plugins)
      && (NoAdjacentExtract(before.plugins) ==> after == Reconciled(before.plugins, NewExtractPlugin(names)))
  {
    var names := ExtractNames(CssExtractOutput(nextConfig), dev).value;
    var p := NewExtractPlugin(names);
    var scanned := Survivors(before.plugins, |before.plugins|);
    NonExtractPluginsKept(before.plugins);
    OthersAppend(scanned, [p]);
    assert [p][..0] == [];
    if NoAdjacentExtract(before.plugins) {
      ScanAgreesWhenIsolated(before.plugins, p);
    }
  }

  /**
   * A browser run over two adjacent stale extraction plugins leaves two extraction plugins, and
   * a second run over that result again leaves two: the hook as written never gets back to one.
   */
  lemma RepeatedRunKeepsStalePlugin(nextConfig: map<string, Value>, dev: bool, a: Plugin, b: Plugin, optimization: Value)
    requires IsExtract(a) && IsExtract(b)
    requires ExtractNames(CssExtractOutput(nextConfig), dev).Ok?
    ensures
      var p := NewExtractPlugin(ExtractNames(CssExtractOutput(nextConfig), dev).value);
      var first := WebpackRun(nextConfig, true, dev, false, Snapshot([], [a, b], optimization));
      var second := WebpackRun(nextConfig, true, dev, false, first.after);
      first.after.plugins == [b, p] && second.after.plugins == [p, p]
  {
    var p := NewExtractPlugin(ExtractNames(CssExtractOutput(nextConfig), dev).value);
    AdjacentStaleSurvives(a, b);
    AdjacentStaleSurvives(b, p);
  }

  // ---------------------------------------------------------------------------------------------
  // The hook's in-place steps.

  lemma SpliceAt(kept: seq<Plugin>, rest: seq<Plugin>)
    requires rest != []
    ensures (kept + rest)[..|kept|] + (kept + rest)[|kept| + 1..] == kept + rest[1..]
  {
  }

  /** One visit of the scan at position `j` of the original list, seen from the original list. */
  lemma ScanStep(orig: seq<Plugin>, j: nat)
    requires j < |orig| && (j > 0 ==> !SplicedOut(orig, j - 1))
    ensures (Survivors(orig, j) + orig[j..])[|Survivors(orig, j)|] == orig[j]
    ensures !IsExtract(orig[j]) ==>
      Survivors(orig, j + 1) == Survivors(orig, j) + [orig[j]]
      && Survivors(orig, j) + orig[j..] == Survivors(orig, j + 1) + orig[j + 1..]
    ensures IsExtract(orig[j]) && j + 1 < |orig| ==>
      && !SplicedOut(orig, j + 1)
      && Survivors(orig, j + 2) == Survivors(orig, j) + [orig[j + 1]]
      && Survivors(orig, j) + orig[j + 1..] == Survivors(orig, j + 2) + orig[j + 2..]
    ensures IsExtract(orig[j]) && j + 1 == |orig| ==>
      Survivors(orig, j + 1) == Survivors(orig, j) && orig[j + 1..] == []
  {
  }

  /**
   * `config.plugins.forEach(function(plugin, index) { if (plugin instanceof MiniCssExtractPlugin)
   * config.plugins.splice(index, 1) })`: the range is fixed when the scan starts, an index past
   * the shrunken end is not visited, and the plugin shifted into a spliced index is passed over.
   */
  method SpliceOutExtractPlugins(config: BuildConfig)
    modifies config`plugins
    ensures config.plugins == Survivors(old(config.plugins), |old(config.plugins)|)
    ensures config.rules == old(config.rules) && config.optimization == old(config.optimization)
  {
    ghost var orig := config.plugins;
    var len := |config.plugins|;
    var index := 0;
    ghost var j := 0;  // position in `orig` of the plugin now at `index`
    while index < len
      invariant index <= len == |orig|
      invariant index <= j <= |orig|
      invariant config.plugins == Survivors(orig, j) + orig[j..]
      invariant |Survivors(orig, j)| <= index
      invariant j < |orig| ==> |Survivors(orig, j)| == index
      invariant 0 < j < |orig| ==> !SplicedOut(orig, j - 1)
    {
      if index < |config.plugins| {
        ScanStep(orig, j);
        if IsExtract(config.plugins[index]) {
          SpliceAt(Survivors(orig, j), orig[j..]);
          config.plugins := config.plugins[..index] + config.plugins[index + 1..];
          j := if j + 1 < |orig| then j + 2 else j + 1;
        } else {
          j := j + 1;
        }
      }
      index := index + 1;
    }
    assert orig[j..] == [];
  }

  /** One visit of the corrected scan at position `j` of the original list. */
  lemma FilterStep(orig: seq<Plugin>, j: nat)
    requires j < |orig|
    ensures (Others(orig[..j]) + orig[j..])[|Others(orig[..j])|] == orig[j]
    ensures IsExtract(orig[j]) ==> Others(orig[..j + 1]) == Others(orig[..j])
    ensures !IsExtract(orig[j]) ==>
      && Others(orig[..j + 1]) == Others(orig[..j]) + [orig[j]]
      && Others(orig[..j]) + orig[j..] == Others(orig[..j + 1]) + orig[j + 1..]
  {
    assert orig[..j + 1][..j] == orig[..j];
    assert orig[j..] == [orig[j]] + orig[j + 1..];
  }

  /**
   * The corrected scan: an index is advanced only past a plugin that stays, so every
   * extraction plugin is removed.
   */
  method RemoveExtractPlugins(config: BuildConfig)
    modifies config`plugins
    ensures config.plugins == Others(old(config.plugins))
  {
    ghost var orig := config.plugins;
    var index := 0;
    ghost var j := 0;       // position in `orig` of the plugin now at `index`
    ghost var kept := [];   // the plugins before `index`
    while index < |config.plugins|
      invariant j <= |orig|
      invariant kept == Others(orig[..j])
      invariant config.plugins == kept + orig[j..]
      invariant index == |kept|
      decreases |config.plugins| - index
    {
      FilterStep(orig, j);
      if IsExtract(config.plugins[index]) {
        SpliceAt(kept, orig[j..]);
        config.plugins := config.plugins[..index] + config.plugins[index + 1..];
      } else {
        kept := kept + [orig[j]];
        index := index + 1;
      }
      j := j + 1;
    }
    assert orig[..j] == orig;
  }

  /**
   * `webpack(config, options)`: check the host, register the sass loader factory, append the
   * two rules, reconcile the extraction plugin on browser builds, merge the cache groups and
   * chain to the caller's own hook.
   */
  method Webpack(nextConfig: map<string, Value>, config: BuildConfig, options: HookOptions) returns (r: Outcome)
    modifies config, options.defaultLoaders
    ensures
      var run := WebpackRun(nextConfig, options.defaultLoaders != null, options.dev, options.isServer, old(config.State()));
      config.State() == run.after && r == run.outcome
    ensures options.defaultLoaders != null ==>
      options.defaultLoaders.sass == Some(SassFactoryFor(nextConfig, options.dev, options.isServer))
  {
    if options.defaultLoaders == null {
      return Threw(IncompatibleNextVersion);
    }
    var dev, isServer := options.dev, options.isServer;
    var factory := SassFactoryFor(nextConfig, dev, isServer);
    options.defaultLoaders.sass := Some(factory);

    config.rules := config.rules + [GlobalRule(factory), ModuleRule(factory)];

    if !isServer {
      SpliceOutExtractPlugins(config);
      var names := ExtractNames(CssExtractOutput(nextConfig), dev);
      if names.Err? {
        return Threw(names.error);
      }
      config.plugins := config.plugins + [NewExtractPlugin(names.value)];
    }

    var merged := MergeCacheGroups(config.optimization);
    if merged.Err? {
      return Threw(merged.error);
    }
    config.optimization := merged.value;

    r := Chain(nextConfig);
  }

  // ---------------------------------------------------------------------------------------------
  // The exported wrapper.

  /** `Object.assign({}, nextConfig, { webpack })`: every field copied, `webpack` replaced by the hook. */
  function WithSass(nextConfig: map<string, Value>): (r: map<string, Value>)
    ensures r.Keys == nextConfig.Keys + {"webpack"}
    ensures forall key | key in nextConfig && key != "webpack" :: r[key] == nextConfig[key]
    ensures r["webpack"] == WebpackHook(nextConfig) && IsFunction(r["webpack"])
  {
    nextConfig["webpack" := WebpackHook(nextConfig)]
  }

  /**
   * A wrapper applied to an already wrapped configuration chains to the inner hook, so stacked
   * wrappers run innermost last, each on the configuration the outer one has mutated.
   */
  lemma StackedWrapperChainsToInner(nextConfig: map<string, Value>)
    ensures Chain(WithSass(nextConfig)) == ReturnedFromPrior(WebpackHook(nextConfig))
    ensures Chain(WithSass(WithSass(nextConfig))) == ReturnedFromPrior(WebpackHook(WithSass(nextConfig)))
  {
  }
}
