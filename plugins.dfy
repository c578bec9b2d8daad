/**
 * The plugin list and the extraction plugin: which stale `MiniCssExtractPlugin` instances the
 * `forEach`/`splice` scan removes, the file names the new instance gets, and the corrected
 * replace-by-type reconciliation.
 */
module Plugins {
  import opened Js

  datatype Plugin =
    | MiniCssExtract(filename: Value, chunkFilename: Value)  // `instanceof MiniCssExtractPlugin`
    | OtherPlugin(id: nat)                                     // any other plugin, ExtractCssChunks included

  predicate IsExtract(p: Plugin) {
    p.MiniCssExtract?
  }

  predicate NoAdjacentExtract(s: seq<Plugin>) {
    forall i | 0 <= i < |s| - 1 :: !(IsExtract(s[i]) && IsExtract(s[i + 1]))
  }

  // ---------------------------------------------------------------------------------------------
  // The scan as written: `plugins.forEach((p, index) => { if (extract) plugins.splice(index, 1) })`.
  // Splicing at `index` shifts the next plugin into `index`, which the scan has already passed,
  // so that plugin is never looked at.

  /** The scan splices out `s[i]`: it is an extraction plugin and was not shifted past the scan. */
  predicate SplicedOut(s: seq<Plugin>, i: nat)
    requires i < |s|
    decreases i
  {
    IsExtract(s[i]) && (i == 0 || !SplicedOut(s, i - 1))
  }

  /** The plugins of `s[..n]` that the scan leaves, in their order. */
  function Survivors(s: seq<Plugin>, n: nat): seq<Plugin>
    requires n <= |s|
  {
    if n == 0 then []
    else Survivors(s, n - 1) + (if SplicedOut(s, n - 1) then [] else [s[n - 1]])
  }

  /** The plugins of `s` that are not extraction plugins, in their order. */
  function Others(s: seq<Plugin>): seq<Plugin> {
    if s == [] then []
    else Others(s[..|s| - 1]) + (if IsExtract(s[|s| - 1]) then [] else [s[|s| - 1]])
  }

  lemma {:induction false} OthersAppend(a: seq<Plugin>, b: seq<Plugin>)
    ensures Others(a + b) == Others(a) + Others(b)
    decreases |b|
  {
    if b == [] {
      assert a + b == a;
    } else {
      var b' := b[..|b| - 1];
      assert (a + b)[..|a + b| - 1] == a + b';
      OthersAppend(a, b');
    }
  }

  lemma {:induction false} OthersHasNoExtract(s: seq<Plugin>)
    ensures forall i | 0 <= i < |Others(s)| :: !IsExtract(Others(s)[i])
    decreases |s|
  {
    if s != [] {
      OthersHasNoExtract(s[..|s| - 1]);
    }
  }

  lemma {:induction false} OthersIdempotent(s: seq<Plugin>)
    ensures Others(Others(s)) == Others(s)
    decreases |s|
  {
    if s != [] {
      var s' := s[..|s| - 1];
      OthersIdempotent(s');
      var tail := if IsExtract(s[|s| - 1]) then [] else [s[|s| - 1]];
      OthersAppend(Others(s'), tail);
      assert Others(tail) == tail by {
        if tail != [] {
          assert tail[..0] == [];
        }
      }
    }
  }

  lemma {:induction false} SurvivorsOthers(s: seq<Plugin>, n: nat)
    requires n <= |s|
    ensures Others(Survivors(s, n)) == Others(s[..n])
  {
    if n > 0 {
      SurvivorsOthers(s, n - 1);
      var tail := if SplicedOut(s, n - 1) then [] else [s[n - 1]];
      OthersAppend(Survivors(s, n - 1), tail);
      assert s[..n][..n - 1] == s[..n - 1];
      if tail != [] {
        assert tail[..0] == [];
      }
    }
  }

  /** Every plugin that is not an extraction plugin survives the scan, in its original order. */
  lemma NonExtractPluginsKept(s: seq<Plugin>)
    ensures Others(Survivors(s, |s|)) == Others(s)
  {
    SurvivorsOthers(s, |s|);
    assert s[..|s|] == s;
  }

  lemma SplicedOutWhenIsolated(s: seq<Plugin>, i: nat)
    requires NoAdjacentExtract(s) && i < |s|
    ensures SplicedOut(s, i) == IsExtract(s[i])
  {
  }

  lemma {:induction false} SurvivorsWhenIsolated(s: seq<Plugin>, n: nat)
    requires NoAdjacentExtract(s) && n <= |s|
    ensures Survivors(s, n) == Others(s[..n])
  {
    if n > 0 {
      SurvivorsWhenIsolated(s, n - 1);
      SplicedOutWhenIsolated(s, n - 1);
      assert s[..n][..n - 1] == s[..n - 1];
    }
  }

  /** When no two extraction plugins are adjacent, the scan removes every one of them. */
  lemma AllStaleRemovedWhenIsolated(s: seq<Plugin>)
    requires NoAdjacentExtract(s)
    ensures Survivors(s, |s|) == Others(s)
    ensures forall i | 0 <= i < |Survivors(s, |s|)| :: !IsExtract(Survivors(s, |s|)[i])
  {
    SurvivorsWhenIsolated(s, |s|);
    assert s[..|s|] == s;
    OthersHasNoExtract(s);
  }

  lemma {:induction false} KeptIsInSurvivors(s: seq<Plugin>, k: nat, n: nat)
    requires k < n <= |s| && !SplicedOut(s, k)
    ensures s[k] in Survivors(s, n)
  {
    if k < n - 1 {
      KeptIsInSurvivors(s, k, n - 1);
    }
  }

  /**
   * The plugin right after one the scan splices out is skipped by the scan, so it survives even
   * when it is itself an extraction plugin.
   */
  lemma FollowerOfSplicedSurvives(s: seq<Plugin>, i: nat)
    requires i + 1 < |s| && SplicedOut(s, i)
    ensures !SplicedOut(s, i + 1)
    ensures s[i + 1] in Survivors(s, |s|)
  {
    KeptIsInSurvivors(s, i + 1, |s|);
  }

  /** Two adjacent stale extraction plugins: the scan removes the first and keeps the second. */
  lemma AdjacentStaleSurvives(a: Plugin, b: Plugin)
    requires IsExtract(a) && IsExtract(b)
    ensures Survivors([a, b], 2) == [b]
  {
    var s := [a, b];
    assert SplicedOut(s, 0) && !SplicedOut(s, 1);
    assert Survivors(s, 1) == [];
  }

  /**
   * Wherever two extraction plugins are adjacent, at least one extraction plugin survives the
   * scan: the second when the first is spliced out, otherwise the first.
   */
  lemma AdjacentStaleLeavesOne(s: seq<Plugin>, i: nat)
    requires i + 1 < |s| && IsExtract(s[i]) && IsExtract(s[i + 1])
    ensures exists k | 0 <= k < |Survivors(s, |s|)| :: IsExtract(Survivors(s, |s|)[k])
  {
    var r := Survivors(s, |s|);
    var x := if SplicedOut(s, i) then s[i + 1] else s[i];
    if SplicedOut(s, i) {
      FollowerOfSplicedSurvives(s, i);
    } else {
      KeptIsInSurvivors(s, i, |s|);
    }
    var k :| 0 <= k < |r| && r[k] == x;
    assert IsExtract(r[k]);
  }

  /** Some stale extraction plugin survives the scan exactly when two of them were adjacent. */
  lemma StaleSurvivesIffAdjacent(s: seq<Plugin>)
    ensures (exists k | 0 <= k < |Survivors(s, |s|)| :: IsExtract(Survivors(s, |s|)[k]))
      <==> !NoAdjacentExtract(s)
  {
    if NoAdjacentExtract(s) {
      AllStaleRemovedWhenIsolated(s);
    } else {
      var i :| 0 <= i < |s| - 1 && IsExtract(s[i]) && IsExtract(s[i + 1]);
      AdjacentStaleLeavesOne(s, i);
    }
  }

  // ---------------------------------------------------------------------------------------------
  // The corrected reconciliation: remove every extraction plugin, then append the new one.

  /** Replace-by-type: all extraction plugins removed, `p` appended. */
  function Reconciled(s: seq<Plugin>, p: Plugin): (r: seq<Plugin>)
    requires IsExtract(p)
    ensures |r| > 0 && r[|r| - 1] == p
    ensures forall i | 0 <= i < |r| :: IsExtract(r[i]) <==> i == |r| - 1
    ensures Others(r) == Others(s)
  {
    OthersHasNoExtract(s);
    OthersIdempotent(s);
    OthersAppend(Others(s), [p]);
    assert [p][..0] == [];
    Others(s) + [p]
  }

  /** Reconciling twice leaves one extraction plugin, the second call's. */
  lemma ReconcileIdempotent(s: seq<Plugin>, p1: Plugin, p2: Plugin)
    requires IsExtract(p1) && IsExtract(p2)
    ensures Reconciled(Reconciled(s, p1), p2) == Reconciled(s, p2)
  {
  }

  /** Where no two extraction plugins are adjacent, the scan as written reconciles correctly. */
  lemma ScanAgreesWhenIsolated(s: seq<Plugin>, p: Plugin)
    requires IsExtract(p) && NoAdjacentExtract(s)
    ensures Survivors(s, |s|) + [p] == Reconciled(s, p)
  {
    AllStaleRemovedWhenIsolated(s);
  }

  // ---------------------------------------------------------------------------------------------
  // File names of the new instance.

  const DEV_FILENAME := "static/css/[name].css"
  const PROD_FILENAME := "static/css/[name].[contenthash:8].css"
  const DEV_CHUNK_FILENAME := "static/css/[name].chunk.css"
  const PROD_CHUNK_FILENAME := "static/css/[name].[contenthash:8].chunk.css"
  const CONTENT_HASH := "[contenthash:8]"

  /** `cssExtractOutput` when the configuration leaves it undefined. */
  const DEFAULT_EXTRACT_OUTPUT: Value :=
    Obj(map[
      "filename" := Obj(map["dev" := Null, "prod" := Null]),
      "chunkFilename" := Obj(map["dev" := Null, "prod" := Null])])

  datatype OutputNames = OutputNames(filename: Value, chunkFilename: Value)

  function ModeKey(dev: bool): string {
    if dev then "dev" else "prod"
  }

  function DefaultNames(dev: bool): OutputNames {
    if dev then OutputNames(Str(DEV_FILENAME), Str(DEV_CHUNK_FILENAME))
    else OutputNames(Str(PROD_FILENAME), Str(PROD_CHUNK_FILENAME))
  }

  /** `cssExtractOutput[option][dev ? 'dev' : 'prod']` */
  function Override(cssExtractOutput: Value, option: string, dev: bool): Result<Value> {
    match Get(cssExtractOutput, option)
    case Err(e) => Err(e)
    case Ok(perMode) => Get(perMode, ModeKey(dev))
  }

  /** A truthy override replaces the default; anything else keeps it. */
  function Pick(override: Value, default: Value): Value {
    if Truthy(override) then override else default
  }

  /**
   * The `filename` and `chunkFilename` the new extraction plugin is built with. Reading an
   * override out of a `null` `cssExtractOutput`, or out of a missing `filename` or
   * `chunkFilename` entry, throws.
   */
  function ExtractNames(cssExtractOutput: Value, dev: bool): (r: Result<OutputNames>)
    ensures r.Err? <==>
      Nullish(cssExtractOutput)
      || Nullish(Field(cssExtractOutput, "filename"))
      || Nullish(Field(cssExtractOutput, "chunkFilename"))
    ensures r.Err? ==> r.error == TypeError
    ensures r.Ok? ==>
      var f := Field(Field(cssExtractOutput, "filename"), ModeKey(dev));
      (Truthy(f) ==> r.value.filename == f) && (!Truthy(f) ==> r.value.filename == DefaultNames(dev).filename)
    ensures r.Ok? ==>
      var c := Field(Field(cssExtractOutput, "chunkFilename"), ModeKey(dev));
      (Truthy(c) ==> r.value.chunkFilename == c)
      && (!Truthy(c) ==> r.value.chunkFilename == DefaultNames(dev).chunkFilename)
  {
    match Override(cssExtractOutput, "filename", dev)
    case Err(e) => Err(e)
    case Ok(f) =>
      match Override(cssExtractOutput, "chunkFilename", dev)
      case Err(e) => Err(e)
      case Ok(c) => Ok(OutputNames(Pick(f, DefaultNames(dev).filename), Pick(c, DefaultNames(dev).chunkFilename)))
  }

  /** Without overrides the names are the mode's defaults. */
  lemma DefaultOutputGivesDefaultNames(dev: bool)
    ensures ExtractNames(DEFAULT_EXTRACT_OUTPUT, dev) == Ok(DefaultNames(dev))
  {
  }

  predicate OccursAt(s: string, t: string, i: int) {
    0 <= i <= |s| - |t| && s[i..i + |t|] == t
  }

  ghost predicate Contains(s: string, t: string) {
    exists i :: OccursAt(s, t, i)
  }

  /** A name without a `:` cannot hold the content-hash placeholder, which has one. */
  lemma NoColonNoContentHash(name: string)
    requires ':' !in name
    ensures !Contains(name, CONTENT_HASH)
  {
    forall i | 0 <= i <= |name| - |CONTENT_HASH|
      ensures !OccursAt(name, CONTENT_HASH, i)
    {
      assert name[i..i + |CONTENT_HASH|][12] == name[i + 12];
      assert CONTENT_HASH[12] == ':';
    }
  }

  /**
   * Without overrides, a name carries the 8-character content hash exactly in production, for
   * both the file and the chunk name; in each mode the chunk name differs from the file name.
   */
  lemma ContentHashOnlyInProduction(dev: bool)
    ensures ExtractNames(DEFAULT_EXTRACT_OUTPUT, dev).Ok?
    ensures Contains(ExtractNames(DEFAULT_EXTRACT_OUTPUT, dev).value.filename.s, CONTENT_HASH) <==> !dev
    ensures Contains(ExtractNames(DEFAULT_EXTRACT_OUTPUT, dev).value.chunkFilename.s, CONTENT_HASH) <==> !dev
    ensures DefaultNames(dev).filename != DefaultNames(dev).chunkFilename
  {
    assert OccursAt(PROD_FILENAME, CONTENT_HASH, 18);
    assert OccursAt(PROD_CHUNK_FILENAME, CONTENT_HASH, 18);
    NoColonNoContentHash(DEV_FILENAME);
    NoColonNoContentHash(DEV_CHUNK_FILENAME);
  }

  /** The two overrides are read independently: the file name does not depend on the chunk entry. */
  lemma OverridesIndependent(out1: Value, out2: Value, dev: bool)
    requires ExtractNames(out1, dev).Ok? && ExtractNames(out2, dev).Ok?
    requires Field(out1, "filename") == Field(out2, "filename")
    ensures ExtractNames(out1, dev).value.filename == ExtractNames(out2, dev).value.filename
  {
  }
}
