/**
 * The three regular expressions of the wrapper, written as suffix predicates on paths:
 *   /\.(scss|sass)$/          the global style rule's `test`
 *   /\.module\.(scss|sass)$/  the module style rule's `test` and the global rule's `exclude`
 *   /\.+(scss|sass)$/         the `styles` cache group's `test`
 */
module Patterns {

  /** `s` ends with `suffix` (a `$`-anchored literal tail). */
  predicate EndsWith(s: string, suffix: string) {
    |suffix| <= |s| && s[|s| - |suffix|..] == suffix
  }

  /** `/\.(scss|sass)$/` */
  predicate HasStyleExtension(path: string) {
    EndsWith(path, ".scss") || EndsWith(path, ".sass")
  }

  /** `/\.module\.(scss|sass)$/` */
  predicate HasModuleStyleExtension(path: string) {
    EndsWith(path, ".module.scss") || EndsWith(path, ".module.sass")
  }

  /**
   * `/\.+(ext)$/` for one alternative: the path ends with `ext` and a non-empty run
   * of dots stands right before it (the expression is not anchored at the start).
   */
  predicate DotRunThen(path: string, ext: string) {
    EndsWith(path, ext) && exists i | 0 <= i < |path| - |ext| :: DotsFrom(path, i, ext)
  }

  /** Every character from index `i` up to the final `ext` is a dot. */
  predicate DotsFrom(path: string, i: int, ext: string)
    requires 0 <= i <= |path| - |ext|
  {
    forall m | i <= m < |path| - |ext| :: path[m] == '.'
  }

  datatype Pattern =
    | StyleFile        // /\.(scss|sass)$/
    | ModuleStyleFile  // /\.module\.(scss|sass)$/
    | DottedStyleFile  // /\.+(scss|sass)$/

  /** `pattern.test(path)` */
  predicate Matches(pattern: Pattern, path: string) {
    match pattern
    case StyleFile => HasStyleExtension(path)
    case ModuleStyleFile => HasModuleStyleExtension(path)
    case DottedStyleFile => DotRunThen(path, "scss") || DotRunThen(path, "sass")
  }

  /** A module style file is in particular a style file. */
  lemma ModuleStyleIsStyle(path: string)
    ensures HasModuleStyleExtension(path) ==> HasStyleExtension(path)
  {
  }

  lemma {:induction false} DotRunThenIsDotExtension(path: string, ext: string)
    ensures DotRunThen(path, ext) <==> EndsWith(path, "." + ext)
  {
    var e := |path| - |ext|;
    if DotRunThen(path, ext) {
      var i :| 0 <= i < e && DotsFrom(path, i, ext);
      assert path[e - 1] == '.';
      assert path[e - 1..] == [path[e - 1]] + path[e..];
    }
    if EndsWith(path, "." + ext) {
      assert path[e - 1..] == "." + ext;
      assert path[e - 1] == ("." + ext)[0] == '.';
      assert path[e..] == path[e - 1..][1..] == ext;
      assert DotsFrom(path, e - 1, ext);
    }
  }

  /**
   * The cache group's `/\.+(scss|sass)$/` accepts exactly the paths the rules' `/\.(scss|sass)$/`
   * accepts: a run of several dots before the extension changes nothing.
   */
  lemma DottedStyleIsStyle(path: string)
    ensures Matches(DottedStyleFile, path) <==> Matches(StyleFile, path)
  {
    DotRunThenIsDotExtension(path, "scss");
    DotRunThenIsDotExtension(path, "sass");
  }
}
