/**
 * The rebuilt `config.optimization`: `{...optimization, splitChunks: {...splitChunks,
 * cacheGroups: {...cacheGroups, styles: {...}}}}`.
 */
module Optimization {
  import opened Js
  import opened Patterns

  /** The `styles` cache group the wrapper inserts. */
  const STYLES_GROUP: Value :=
    Obj(map[
      "test" := RegExp(DottedStyleFile),
      "name" := Str("styles"),
      "chunks" := Str("all"),
      "minChunks" := Num(2),
      "reuseExistingChunk" := Bool(true),
      "enforce" := Bool(true)])

  function SplitChunks(optimization: Value): Value {
    Field(optimization, "splitChunks")
  }

  function CacheGroups(optimization: Value): Value {
    Field(SplitChunks(optimization), "cacheGroups")
  }

  /**
   * The new `optimization`. Reading `splitChunks` of a `null` or `undefined` optimization, or
   * `cacheGroups` of a `null` or `undefined` `splitChunks`, throws; a missing `cacheGroups`
   * spreads as an empty object. Every key at every level is kept, only `styles` is set.
   */
  function MergeCacheGroups(optimization: Value): (r: Result<Value>)
    ensures r.Ok? <==> optimization.Obj? && !Nullish(SplitChunks(optimization))
    ensures r.Err? ==> r.error == TypeError
    ensures r.Ok? ==>
      && r.value.Obj?
      && r.value.fields.Keys == optimization.fields.Keys + {"splitChunks"}
      && forall key | key != "splitChunks" :: Field(r.value, key) == Field(optimization, key)
    ensures r.Ok? ==>
      && SplitChunks(r.value).Obj?
      && SplitChunks(r.value).fields.Keys == Spread(SplitChunks(optimization)).Keys + {"cacheGroups"}
      && forall key | key != "cacheGroups" :: Field(SplitChunks(r.value), key) == Field(SplitChunks(optimization), key)
    ensures r.Ok? ==>
      && CacheGroups(r.value).Obj?
      && CacheGroups(r.value).fields.Keys == Spread(CacheGroups(optimization)).Keys + {"styles"}
      && (forall key | key != "styles" :: Field(CacheGroups(r.value), key) == Field(CacheGroups(optimization), key))
      && Field(CacheGroups(r.value), "styles") == STYLES_GROUP
  {
    match Get(optimization, "splitChunks")
    case Err(e) => Err(e)
    case Ok(splitChunks) =>
      match Get(splitChunks, "cacheGroups")
      case Err(e) => Err(e)
      case Ok(cacheGroups) =>
        var groups := Spread(cacheGroups)["styles" := STYLES_GROUP];
        var chunks := Spread(splitChunks)["cacheGroups" := Obj(groups)];
        Ok(Obj(Spread(optimization)["splitChunks" := Obj(chunks)]))
  }

  /** Merging an already merged optimization changes nothing: the wrapper can be stacked. */
  lemma MergeIdempotent(optimization: Value)
    requires MergeCacheGroups(optimization).Ok?
    ensures MergeCacheGroups(MergeCacheGroups(optimization).value) == MergeCacheGroups(optimization)
  {
    var once := MergeCacheGroups(optimization).value;
    var twice := MergeCacheGroups(once);
    assert twice.Ok?;
    var m, sc, cg := once.fields, SplitChunks(once).fields, CacheGroups(once).fields;
    assert cg["styles" := STYLES_GROUP] == cg;
    assert sc["cacheGroups" := Obj(cg)] == sc;
    assert m["splitChunks" := Obj(sc)] == m;
  }

  /** Caller-defined groups such as `vendor` and `common` survive the merge unchanged. */
  lemma CallerGroupsSurvive(vendor: Value, common: Value)
    ensures
      var optimization := Obj(map["splitChunks" := Obj(map["cacheGroups" := Obj(map["vendor" := vendor, "common" := common])])]);
      var merged := MergeCacheGroups(optimization);
      && merged.Ok?
      && Field(CacheGroups(merged.value), "vendor") == vendor
      && Field(CacheGroups(merged.value), "common") == common
      && Field(Field(CacheGroups(merged.value), "styles"), "enforce") == Bool(true)
  {
  }
}
