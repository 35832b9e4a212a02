/**
 * The pure part of the CLI's base generator (lib/cli/src/generators/baseGenerator.ts):
 * merging the framework options with their defaults, and choosing which
 * packages to install — the framework package, the addon packages, the
 * caller's extra packages and addons and, under yarn 2, two more — minus
 * empty entries and packages the project already depends on.
 */
module BaseGenerator {
  import opened Wrappers

  /** `FrameworkOptions`: every property may be absent (`None`). */
  datatype FrameworkOptions = FrameworkOptions(
    extraPackages: Option<seq<string>>,
    extraAddons: Option<seq<string>>,
    staticDir: Option<string>,
    addScripts: Option<bool>,
    addComponents: Option<bool>,
    addBabel: Option<bool>,
    addESLint: Option<bool>)

  /** The options after `{ ...defaultOptions, ...options }` has been destructured. */
  datatype ResolvedOptions = ResolvedOptions(
    extraPackages: seq<string>,
    extraAddons: seq<string>,
    staticDir: Option<string>,
    addScripts: bool,
    addComponents: bool,
    addBabel: bool,
    addESLint: bool)

  /** `defaultOptions`. */
  const DefaultOptions := ResolvedOptions([], [], None, true, true, true, false)

  /**
   * `{ ...defaultOptions, ...options }`, with `options` itself defaulting to
   * `defaultOptions` when the caller passes none.
   */
  function MergeOptions(options: Option<FrameworkOptions>): (r: ResolvedOptions)
    ensures options.None? ==> r == DefaultOptions
    ensures options.Some? ==>
      var o := options.value;
      && (o.extraPackages.None? ==> r.extraPackages == []) && (o.extraPackages.Some? ==> r.extraPackages == o.extraPackages.value)
      && (o.extraAddons.None? ==> r.extraAddons == []) && (o.extraAddons.Some? ==> r.extraAddons == o.extraAddons.value)
      && r.staticDir == o.staticDir
      && (o.addScripts.None? ==> r.addScripts) && (o.addScripts.Some? ==> r.addScripts == o.addScripts.value)
      && (o.addComponents.None? ==> r.addComponents) && (o.addComponents.Some? ==> r.addComponents == o.addComponents.value)
      && (o.addBabel.None? ==> r.addBabel) && (o.addBabel.Some? ==> r.addBabel == o.addBabel.value)
      && (o.addESLint.None? ==> !r.addESLint) && (o.addESLint.Some? ==> r.addESLint == o.addESLint.value)
  {
    match options
    case None => DefaultOptions
    case Some(o) =>
      ResolvedOptions(
        Or(o.extraPackages, DefaultOptions.extraPackages),
        Or(o.extraAddons, DefaultOptions.extraAddons),
        if o.staticDir.Some? then o.staticDir else DefaultOptions.staticDir,
        Or(o.addScripts, DefaultOptions.addScripts),
        Or(o.addComponents, DefaultOptions.addComponents),
        Or(o.addBabel, DefaultOptions.addBabel),
        Or(o.addESLint, DefaultOptions.addESLint))
  }

  /** One property of an object spread: the supplied value if present, else the default. */
  function Or<T>(supplied: Option<T>, default: T): T
  {
    if supplied.Some? then supplied.value else default
  }

  /** The options object that supplies every property of `r`. */
  function Supply(r: ResolvedOptions): FrameworkOptions
  {
    FrameworkOptions(Some(r.extraPackages), Some(r.extraAddons), r.staticDir,
      Some(r.addScripts), Some(r.addComponents), Some(r.addBabel), Some(r.addESLint))
  }

  /** Supplying every property overrides every default: merging gives back exactly what was supplied. */
  lemma MergeSuppliedRoundTrip(r: ResolvedOptions)
    ensures MergeOptions(Some(Supply(r))) == r
  {
  }

  // ---------------------------------------------------------------------------
  // The packages to install
  // ---------------------------------------------------------------------------

  /** The addons registered in main.js. */
  const Addons: seq<string> := ["@storybook/addon-links", "@storybook/addon-essentials"]

  /** The addon packages added to package.json. */
  const AddonPackages: seq<string> := Addons + ["@storybook/addon-actions"]

  /** Extra dependencies that only yarn 2 needs. */
  const Yarn2Only: seq<string> := ["@storybook/addon-docs", "@mdx-js/react"]

  function Yarn2Dependencies(packageManagerType: string): seq<string>
  {
    if packageManagerType == "yarn2" then Yarn2Only else []
  }

  /** The array the package list is filtered from, in order. */
  function Candidates(framework: string, options: ResolvedOptions, packageManagerType: string): seq<string>
  {
    ["@storybook/" + framework] + AddonPackages + options.extraPackages + options.extraAddons
      + Yarn2Dependencies(packageManagerType)
  }

  /** `s` is `t` with some elements left out and the rest in their original order. */
  predicate IsSubsequence(s: seq<string>, t: seq<string>)
    decreases |t|
  {
    if s == [] then true
    else if t == [] then false
    else if s[0] == t[0] then IsSubsequence(s[1..], t[1..])
    else IsSubsequence(s, t[1..])
  }

  lemma {:induction false} SubsequenceDropHead(s: seq<string>, t: seq<string>)
    requires s != [] && IsSubsequence(s, t)
    ensures IsSubsequence(s[1..], t)
    decreases |t|
  {
    if s[0] != t[0] {
      SubsequenceDropHead(s, t[1..]);
      SubsequenceSkip(s[1..], t);
    } else {
      SubsequenceSkip(s[1..], t);
    }
  }

  lemma {:induction false} SubsequenceSkip(s: seq<string>, t: seq<string>)
    requires t != [] && IsSubsequence(s, t[1..])
    ensures IsSubsequence(s, t)
    decreases |t|, 0
  {
    if s != [] && s[0] == t[0] {
      SubsequenceDropHead(s, t[1..]);
    }
  }

  lemma {:induction false} SubsequenceTransitive(a: seq<string>, b: seq<string>, c: seq<string>)
    requires IsSubsequence(a, b) && IsSubsequence(b, c)
    ensures IsSubsequence(a, c)
    decreases |c|
  {
    if a != [] {
      if b[0] == c[0] && a[0] == b[0] {
        SubsequenceTransitive(a[1..], b[1..], c[1..]);
      } else {
        if b[0] == c[0] {
          SubsequenceTransitive(a, b[1..], c[1..]);
        } else {
          SubsequenceTransitive(a, b, c[1..]);
        }
        SubsequenceSkip(a, c);
      }
    }
  }

  /** `Array.prototype.filter`. */
  function Filter(s: seq<string>, keep: string -> bool): (r: seq<string>)
    ensures IsSubsequence(r, s)
    ensures forall x :: x in r <==> x in s && keep(x)
    ensures forall x :: multiset(r)[x] == if keep(x) then multiset(s)[x] else 0
  {
    if s == [] then []
    else
      var rest := Filter(s[1..], keep);
      assert s == [s[0]] + s[1..];
      if keep(s[0]) then [s[0]] + rest
      else
        SubsequenceSkip(rest, s);
        rest
  }

  /**
   * The `packages` array of `baseGenerator`: the candidates without falsy
   * (empty) entries and without those whose package name — `nameOf`, the
   * first component of `getPackageDetails` — is already a dependency.
   */
  function PackagesToInstall(framework: string, options: ResolvedOptions, packageManagerType: string,
                             dependencies: map<string, string>, nameOf: string -> string): (r: seq<string>)
    ensures IsSubsequence(r, Candidates(framework, options, packageManagerType))
    ensures forall p :: p in r ==> p != "" && nameOf(p) !in dependencies
    ensures forall p :: p in Candidates(framework, options, packageManagerType) ==>
              (p in r <==> p != "" && nameOf(p) !in dependencies)
    ensures forall p :: multiset(r)[p] ==
              if p != "" && nameOf(p) !in dependencies
              then multiset(Candidates(framework, options, packageManagerType))[p] else 0
  {
    var candidates := Candidates(framework, options, packageManagerType);
    var truthy := Filter(candidates, p => p != "");
    var r := Filter(truthy, p => nameOf(p) !in dependencies);
    SubsequenceTransitive(r, truthy, candidates);
    r
  }

  /** `yarn2Dependencies` contribute candidates only under yarn 2. */
  lemma Yarn2OnlyUnderYarn2(framework: string, options: ResolvedOptions, packageManagerType: string, dep: string)
    requires dep in Yarn2Only
    requires dep !in ["@storybook/" + framework] + AddonPackages + options.extraPackages + options.extraAddons
    ensures dep in Candidates(framework, options, packageManagerType) <==> packageManagerType == "yarn2"
  {
  }

  /** The addons passed to `configure`: the built-in addons, then the extra ones. */
  function ConfiguredAddons(options: ResolvedOptions): seq<string>
  {
    Addons + options.extraAddons
  }

  /** Every addon registered in main.js is also a candidate for installation. */
  lemma ConfiguredAddonsAreCandidates(framework: string, options: ResolvedOptions, packageManagerType: string)
    ensures forall a :: a in ConfiguredAddons(options) ==> a in Candidates(framework, options, packageManagerType)
  {
  }
}
