/**
 * The style loader factory the wrapper registers as `defaultLoaders.sass`, and the two rules it
 * appends to `config.module.rules`.
 */
module Loaders {
  import opened Js
  import opened Patterns

  datatype LoaderEntry = LoaderEntry(loader: string, options: Value)

  /**
   * The loader chain `cssLoaderConfig` builds. That library is not part of this model, so a
   * chain is represented by the arguments it was built from.
   */
  datatype LoaderChain = CssLoaderConfig(
    extensions: seq<string>,
    cssModules: bool,
    cssLoaderOptions: Value,
    postcssLoaderOptions: Value,
    dev: bool,
    isServer: bool,
    loaders: seq<LoaderEntry>)

  /** The closure `cssModules => cssLoaderConfig(config, {...})` with what it captures. */
  datatype SassFactory = SassFactory(
    cssLoaderOptions: Value,
    postcssLoaderOptions: Value,
    sassLoaderOptions: Value,
    dev: bool,
    isServer: bool)

  /** `defaultLoaders.sass(cssModules)` */
  function SassChain(factory: SassFactory, cssModules: bool): LoaderChain {
    CssLoaderConfig(
      ["scss", "sass"],
      cssModules,
      factory.cssLoaderOptions,
      factory.postcssLoaderOptions,
      factory.dev,
      factory.isServer,
      [LoaderEntry("sass-loader", factory.sassLoaderOptions)])
  }

  /**
   * A rule's `use`: the chain, onto which the ExtractCssChunks loader is assigned with its
   * `hot` and `reloadAll` options.
   */
  datatype RuleUse = RuleUse(chain: LoaderChain, hot: bool, reloadAll: bool)

  datatype Rule =
    | StyleRule(test: Pattern, exclude: Option<Pattern>, use: RuleUse)
    | HostRule(id: nat)  // a rule that was already in the list; the wrapper never looks inside it

  function ExtractingUse(chain: LoaderChain): RuleUse {
    RuleUse(chain, true, true)
  }

  /** The rule for global `.scss`/`.sass` files. */
  function GlobalRule(factory: SassFactory): Rule {
    StyleRule(StyleFile, Some(ModuleStyleFile), ExtractingUse(SassChain(factory, false)))
  }

  /** The rule for `.module.scss`/`.module.sass` files. */
  function ModuleRule(factory: SassFactory): Rule {
    StyleRule(ModuleStyleFile, None, ExtractingUse(SassChain(factory, true)))
  }

  /** The bundler applies a rule to a path when `test` matches it and `exclude` does not. */
  predicate Applies(rule: Rule, path: string)
    requires rule.StyleRule?
  {
    Matches(rule.test, path) && (rule.exclude.None? || !Matches(rule.exclude.value, path))
  }

  /**
   * Every style file is handled by exactly one of the two rules, chosen by the `.module.`
   * marker alone; a path without a style extension is handled by neither.
   */
  lemma ExactlyOneRuleApplies(factory: SassFactory, path: string)
    ensures Applies(ModuleRule(factory), path) <==> HasModuleStyleExtension(path)
    ensures Applies(GlobalRule(factory), path) <==> HasStyleExtension(path) && !HasModuleStyleExtension(path)
    ensures HasStyleExtension(path) ==> Applies(GlobalRule(factory), path) != Applies(ModuleRule(factory), path)
    ensures !HasStyleExtension(path) ==> !Applies(GlobalRule(factory), path) && !Applies(ModuleRule(factory), path)
  {
    ModuleStyleIsStyle(path);
  }

  /**
   * The two rules' chains come from the same factory and differ only in `cssModules`, false for
   * the global rule and true for the module rule; both end in the extraction loader with hot
   * reloading and reload-all on.
   */
  lemma RuleChainsDifferOnlyInScoping(factory: SassFactory)
    ensures GlobalRule(factory).use.chain.cssModules == false
    ensures ModuleRule(factory).use.chain.cssModules == true
    ensures GlobalRule(factory).use.chain.(cssModules := true) == ModuleRule(factory).use.chain
    ensures GlobalRule(factory).use.chain.extensions == ["scss", "sass"]
    ensures GlobalRule(factory).use.chain.loaders == [LoaderEntry("sass-loader", factory.sassLoaderOptions)]
    ensures GlobalRule(factory).use.hot && GlobalRule(factory).use.reloadAll
    ensures ModuleRule(factory).use.hot && ModuleRule(factory).use.reloadAll
  {
  }
}
