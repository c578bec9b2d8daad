# next-sass, modelled in Dafny

next-sass is a Next.js configuration wrapper. `withSass(nextConfig)` returns a copy of
`nextConfig` whose `webpack(config, options)` hook does the following to the webpack
configuration:

1. It refuses hosts without `options.defaultLoaders`.
2. It registers a `defaultLoaders.sass(cssModules)` loader factory.
3. It appends two rules to `config.module.rules`. One is for global `.scss`/`.sass` files and the
   other for `.module.scss`/`.module.sass` files.
4. On browser builds it replaces the `MiniCssExtractPlugin` in `config.plugins`. The new
   instance gets file names chosen by mode, and the caller can override them.
5. It adds a `styles` group to `optimization.splitChunks.cacheGroups`.
6. It hands the mutated configuration to the caller's own `webpack` hook, if there is one.

The model has these modules:

- `Patterns` (patterns.dfy): the three regular expressions, written as suffix predicates.
- `Js` (js.dfy): the JavaScript value semantics the hook depends on. This covers truthiness,
  `typeof === 'function'`, property reads that throw a TypeError on `null`/`undefined`, and
  object spread.
- `Loaders` (loaders.dfy): the loader factory and the two rules.
- `Plugins` (plugins.dfy): the `forEach`/`splice` scan as written, the corrected
  replace-by-type reconciliation, and the choice of file names.
- `Optimization` (optimization.dfy): the cache-group merge.
- `NextSass` (next_sass.dfy): the configuration as a class whose fields the hook changes in
  place. The hook is written twice: as the specification function `WebpackRun` and as the
  imperative method `Webpack`, which is proved equal to it.

## Model

| member | source | states |
|---|---|---|
| `Patterns.ModuleStyleIsStyle` | index.js:44-45 | every path ending in `.module.scss` or `.module.sass` also ends in `.scss` or `.sass`, so the module rule's expression accepts only style files |
| `Patterns.DottedStyleIsStyle` | index.js:100 | the cache group's expression (one or more dots, then `scss` or `sass`, at the end) accepts exactly the paths ending in `.scss` or `.sass`, the same paths the global rule's `test` accepts |
| `Loaders.ExactlyOneRuleApplies` | index.js:42-64 | the module rule applies iff the path ends in `.module.scss`/`.module.sass`, and the global rule applies iff the path is a style file without that marker. Each style file gets exactly one of the two rules; any other path gets neither |
| `Loaders.RuleChainsDifferOnlyInScoping` | index.js:26-61 | the global chain is built with `cssModules = false` and the module chain with `true`. The two chains are otherwise identical: extensions `scss`/`sass` and `sass-loader` with `sassLoaderOptions`. Both rules end in the extraction loader with `hot` and `reloadAll` set |
| `Plugins.NonExtractPluginsKept` | index.js:67-70 | every plugin that is not a `MiniCssExtractPlugin` survives the scan, and the survivors keep their relative order |
| `Plugins.FollowerOfSplicedSurvives` | index.js:67-70 | the plugin right after a spliced-out one is never visited. It survives even when it is an extraction plugin |
| `Plugins.AllStaleRemovedWhenIsolated` | index.js:67-70 | if no two extraction plugins are adjacent, the scan removes all of them and keeps everything else |
| `Plugins.AdjacentStaleLeavesOne` | index.js:67-70 | wherever two extraction plugins stand next to each other, at least one extraction plugin survives the scan |
| `Plugins.StaleSurvivesIffAdjacent` | index.js:67-70 | some stale extraction plugin survives the scan exactly when two of them were adjacent |
| `Plugins.AdjacentStaleSurvives` | index.js:67-70 | for two adjacent stale extraction plugins, the scan removes the first and keeps the second |
| `Plugins.Reconciled` | index.js:66-90 | corrected reconciliation: the result has exactly one extraction plugin, the new one, in last place. Every other plugin is kept in order |
| `Plugins.ReconcileIdempotent` | index.js:66-90 | with the corrected reconciliation, two reconciliations leave only the second call's plugin |
| `Plugins.ScanAgreesWhenIsolated` | index.js:66-90 | if no stale extraction plugins are adjacent, scan-then-push gives the same list as the corrected reconciliation |
| `Plugins.ExtractNames` | index.js:72-88 | each of `filename` and `chunkFilename` is the mode's override when that override is truthy, and otherwise the mode's default. It throws a TypeError when `cssExtractOutput` is null or lacks the `filename` or `chunkFilename` entry |
| `Plugins.DefaultOutputGivesDefaultNames` | index.js:20-23 | with the default `cssExtractOutput`, the names are `static/css/[name].css` / `static/css/[name].chunk.css` in dev and the `[contenthash:8]` forms in prod |
| `Plugins.ContentHashOnlyInProduction` | index.js:72-79 | without overrides, the file name and the chunk name each contain `[contenthash:8]` exactly when the build is not in dev mode. In each mode, file and chunk names differ |
| `Plugins.OverridesIndependent` | index.js:81-88 | the chosen file name does not depend on the `chunkFilename` override |
| `Optimization.MergeCacheGroups` | index.js:93-109 | it throws iff `optimization` or `optimization.splitChunks` is null or undefined. At each of the three levels, every existing key is kept with its value. Only `splitChunks`, `cacheGroups` and `styles` are set, and `styles` becomes `{test, name:'styles', chunks:'all', minChunks:2, reuseExistingChunk:true, enforce:true}` |
| `Optimization.MergeIdempotent` | index.js:93-109 | merging an already merged optimization changes nothing |
| `Optimization.CallerGroupsSurvive` | index.js:97-106 | caller groups `vendor` and `common` come through the merge unchanged, next to an enforced `styles` group |
| `NextSass.Chain` | index.js:111-115 | the hook returns the caller's `webpack` result exactly when `nextConfig.webpack` is a function, and the mutated `config` otherwise |
| `NextSass.WebpackRun` | index.js:7-116 | with `defaultLoaders` missing, it throws the compatibility error and changes nothing. Otherwise the rules grow by the global rule and then the module rule. A server build keeps its plugins. A browser build ends with the scan's survivors plus the new plugin, or with the survivors alone if reading the name overrides throws. The optimization is the merge result unless something threw, and a run that does not throw ends with `Chain` |
| `NextSass.ClientBuildPlugins` | index.js:66-91 | after a browser build, the last plugin is the new extraction plugin and the non-extraction plugins keep their order. If no stale instances were adjacent, the list equals the corrected reconciliation |
| `NextSass.RepeatedRunKeepsStalePlugin` | index.js:66-91 | a browser build over `[stale, stale]` ends with `[stale, new]`, and running the hook again on that list ends with `[new, new]`: the list never gets back to a single extraction plugin |
| `NextSass.SpliceOutExtractPlugins` | index.js:67-70 | the in-place `forEach`/`splice` loop leaves exactly `Survivors` of the old list |
| `NextSass.RemoveExtractPlugins` | index.js:67-70 | the corrected in-place loop leaves exactly the non-extraction plugins of the old list |
| `NextSass.Webpack` | index.js:7-116 | the in-place hook leaves the configuration in `WebpackRun`'s state and ends as `WebpackRun` does. When `defaultLoaders` is present, `defaultLoaders.sass` is the factory built from the configuration's loader options, `dev` and `isServer` |
| `NextSass.WithSass` | index.js:5-7 | the returned configuration has every field of `nextConfig` except `webpack`, and its `webpack` is this wrapper's hook, closed over the original `nextConfig`; that hook is a function |
| `NextSass.StackedWrapperChainsToInner` | index.js:111-113 | a wrapper applied to an already wrapped configuration chains to the inner wrapper's hook |

## Findings

| source | as written | input that shows it | evidently intended | confidence | as-written member | corrected member |
|---|---|---|---|---|---|---|
| index.js:67-70 | `config.plugins.splice(index, 1)` inside `config.plugins.forEach`. The plugin shifted into `index` is never visited | `config.plugins = [MiniCssExtractPlugin a, MiniCssExtractPlugin b]` on a browser build. Afterwards the list is `[b, new]`, with two extraction plugins | remove every stale `MiniCssExtractPlugin` so that exactly one remains after the push, and calling the hook twice does not duplicate it | high; not executed | `Plugins.AdjacentStaleSurvives` | `NextSass.RemoveExtractPlugins` |

`NextSass.Webpack` and `NextSass.WebpackRun` keep the loop as the code writes it, because they
model the code as written. `Plugins.Reconciled`, `Plugins.ReconcileIdempotent` and
`NextSass.RemoveExtractPlugins` give the corrected behaviour. `Plugins.ScanAgreesWhenIsolated`
and `NextSass.ClientBuildPlugins` show that the two agree whenever no stale instances are adjacent.

## Left out

- `cssLoaderConfig` (index.js:1, 27-40) is not part of this model. A chain is represented by the
  arguments it is built from; the `config` argument it also receives is dropped.
- The `MiniCssExtractPlugin` and `ExtractCssChunks` constructors and the ExtractCssChunks
  loader are left out. A plugin is a type tag plus its `filename`/`chunkFilename`. A rule's
  `use` is the chain plus the extraction loader's `hot`/`reloadAll` options.
- `Object.assign` copies `loader` and `options` onto the array that the loader factory returns.
  The model treats a rule's `use` as a single record instead.
- Regular-expression matching is replaced by suffix predicates on paths. Only the three
  expressions of the wrapper are modelled.
- The text of the compatibility error, including its URL, is not modelled; only the fact that the
  hook throws.
- `NextSass.Chain`: the caller's own `webpack` function is code the model cannot see. The outcome
  records that it is called on the mutated configuration. What it returns or does to the
  configuration is not modelled.
- JavaScript details outside the hook's normal inputs are not modelled:
  - inherited properties and getters;
  - spreading a string into indexed keys;
  - properties of primitive values, such as `length`;
  - non-integer numbers and `NaN`.
- TypeErrors that only a malformed host configuration can cause are not modelled: a missing
  `config.module`, a non-array `config.plugins`, or a non-object `options`. The host always
  supplies these. `dev` and `isServer` are taken as booleans.
- `withSass()` called with no argument uses `{}` as `nextConfig`. The model takes the
  configuration object as given.
- `withSass(null)` is not modelled, because `nextConfig` is a map of fields and cannot be `null`.
  `Object.assign` skips the `null` source (index.js:6). The hook would then pass the guard and
  throw a TypeError when it destructures `nextConfig` (index.js:16-24).
- `NextSass.WebpackRun`: assumes that the two `cssLoaderConfig(config, ...)` calls made while
  building the rules (index.js:46, 56) leave `config.plugins` and `config.optimization` unchanged.
  That library is not part of this model, and the model does not pass `config` to it.
- `defaultLoaders` entries other than `sass` are not modelled.
- Building for the browser and the server at run time is not modelled: webpack's use of the
  rules, plugins and cache groups is outside the model.
