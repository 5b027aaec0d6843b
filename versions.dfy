/** The decision rules of the documentation plugin's version metadata: banner,
    badge, class name, label, path part, the version filter and the choice of
    the last version. */
module Versions {
  import opened Values

  /** The name of the unreleased, in-progress version of the docs. */
  const CurrentVersionName := "current"

  /** The per-version options a site may set; None is an option left unset
      (`undefined` or `null`). */
  datatype VersionOptions = VersionOptions(
    banner: Option<string>,
    badge: Option<bool>,
    className: Option<string>,
    labelText: Option<string>,  // the `label` option (a reserved word here)
    path: Option<string>)

  /** The plugin options the rules read. */
  datatype PluginOptions = PluginOptions(
    versions: map<string, VersionOptions>,
    lastVersion: Option<string>,
    onlyIncludeVersions: Option<seq<string>>)

  /** The per-version context every rule is called with. */
  datatype VersionContext = VersionContext(
    versionName: string,
    versionNames: seq<string>,
    lastVersionName: string,
    options: PluginOptions)

  /** `Array.prototype.indexOf`: the first position of `x`, or -1. */
  function IndexOf(names: seq<string>, x: string): (r: int)
    ensures -1 <= r < |names|
    ensures r == -1 <==> x !in names
    ensures 0 <= r ==> names[r] == x && forall j :: 0 <= j < r ==> names[j] != x
  {
    if names == [] then -1
    else if names[0] == x then 0
    else
      var k := IndexOf(names[1..], x);
      if k == -1 then -1 else k + 1
  }

  /** `options.versions[versionName]?.<field>`: the options of the version,
      if any were given. */
  function OptionsOf(ctx: VersionContext): Option<VersionOptions> {
    if ctx.versionName in ctx.options.versions
    then Some(ctx.options.versions[ctx.versionName]) else None
  }

  /** The banners a version can carry; None is "no banner". */
  const Unreleased := "unreleased"
  const Unmaintained := "unmaintained"

  /** getDefaultVersionBanner: no banner for the last version, "unreleased"
      for a version listed before it, "unmaintained" otherwise. */
  function DefaultBanner(versionName: string, versionNames: seq<string>, lastVersionName: string): (r: Option<string>)
    ensures r == None <==> versionName == lastVersionName
    ensures r == Some(Unreleased) <==>
      versionName != lastVersionName && IndexOf(versionNames, versionName) < IndexOf(versionNames, lastVersionName)
    ensures r.Some? ==> r.value == Unreleased || r.value == Unmaintained
  {
    if versionName == lastVersionName then None
    else if IndexOf(versionNames, versionName) < IndexOf(versionNames, lastVersionName) then Some(Unreleased)
    else Some(Unmaintained)
  }

  /** Both listed: a version is "unreleased" exactly when it is listed before
      the last version, and "unmaintained" exactly when after it. */
  lemma DefaultBannerByPosition(names: seq<string>, i: nat, j: nat)
    requires i < |names| && j < |names|
    requires forall p, q :: 0 <= p < q < |names| ==> names[p] != names[q]
    requires i != j
    ensures DefaultBanner(names[i], names, names[j]) == (if i < j then Some(Unreleased) else Some(Unmaintained))
  {
  }

  /** A version missing from the list, beside a listed last version, counts
      as "unreleased" (-1 is below every position). */
  lemma UnlistedVersionIsUnreleased(versionName: string, names: seq<string>, last: string)
    requires versionName !in names && last in names
    ensures DefaultBanner(versionName, names, last) == Some(Unreleased)
  {
  }

  /** getVersionBanner: an explicit non-empty banner option wins, "none"
      meaning no banner; without one the default rule applies. */
  function VersionBanner(ctx: VersionContext): (r: Option<string>)
    ensures var o := OptionsOf(ctx);
      if o.Some? && o.value.banner.Some? && o.value.banner.value != "" then
        r == (if o.value.banner.value == "none" then None else o.value.banner)
      else
        r == DefaultBanner(ctx.versionName, ctx.versionNames, ctx.lastVersionName)
  {
    var opt := OptionsOf(ctx);
    var bannerOption := if opt.Some? then opt.value.banner else None;
    if bannerOption.Some? && bannerOption.value != "" then
      (if bannerOption.value == "none" then None else bannerOption)
    else DefaultBanner(ctx.versionName, ctx.versionNames, ctx.lastVersionName)
  }

  /** getVersionBadge: by default a badge unless exactly one version is
      listed; a set badge option, false included, overrides. */
  function VersionBadge(ctx: VersionContext): (r: bool)
    ensures var o := OptionsOf(ctx);
      if o.Some? && o.value.badge.Some? then r == o.value.badge.value
      else r <==> |ctx.versionNames| != 1
  {
    var opt := OptionsOf(ctx);
    var defaultBadge := |ctx.versionNames| != 1;
    if opt.Some? && opt.value.badge.Some? then opt.value.badge.value else defaultBadge
  }

  const ClassNamePrefix := "docs-version-"

  /** getVersionClassName: `docs-version-<name>` unless set. */
  function VersionClassName(ctx: VersionContext): (r: string)
    ensures var o := OptionsOf(ctx);
      if o.Some? && o.value.className.Some? then r == o.value.className.value
      else |r| >= |ClassNamePrefix| && r[..|ClassNamePrefix|] == ClassNamePrefix && r[|ClassNamePrefix|..] == ctx.versionName
  {
    var opt := OptionsOf(ctx);
    if opt.Some? && opt.value.className.Some? then opt.value.className.value
    else ClassNamePrefix + ctx.versionName
  }

  /** getVersionLabel: "Next" for the current version, the name otherwise,
      unless set. */
  function VersionLabel(ctx: VersionContext): (r: string)
    ensures var o := OptionsOf(ctx);
      if o.Some? && o.value.labelText.Some? then r == o.value.labelText.value
      else if ctx.versionName == CurrentVersionName then r == "Next"
      else r == ctx.versionName
  {
    var opt := OptionsOf(ctx);
    var defaultLabel := if ctx.versionName == CurrentVersionName then "Next" else ctx.versionName;
    if opt.Some? && opt.value.labelText.Some? then opt.value.labelText.value else defaultLabel
  }

  /** getVersionPathPart: "" for the last version, "next" for the current
      one, the name otherwise, unless a path is set. */
  function VersionPathPart(ctx: VersionContext): (r: string)
    ensures var o := OptionsOf(ctx);
      if o.Some? && o.value.path.Some? then r == o.value.path.value
      else if ctx.versionName == ctx.lastVersionName then r == ""
      else if ctx.versionName == CurrentVersionName then r == "next"
      else r == ctx.versionName
  {
    var opt := OptionsOf(ctx);
    var defaultPathPart :=
      if ctx.versionName == ctx.lastVersionName then ""
      else if ctx.versionName == CurrentVersionName then "next"
      else ctx.versionName;
    if opt.Some? && opt.value.path.Some? then opt.value.path.value else defaultPathPart
  }

  /** Without explicit options, the last version is served at the root and
      no other version is, provided no version is literally named "". */
  lemma OnlyLastVersionAtRoot(ctx: VersionContext)
    requires OptionsOf(ctx).None? && ctx.versionName != ""
    ensures VersionPathPart(ctx) == "" <==> ctx.versionName == ctx.lastVersionName
  {
  }

  /** `s` keeps some of the elements of `t`, in their order. */
  predicate IsSubsequence(s: seq<string>, t: seq<string>)
    decreases |t|
  {
    if s == [] then true
    else if t == [] then false
    else if s[0] == t[0] then IsSubsequence(s[1..], t[1..])
    else IsSubsequence(s, t[1..])
  }

  /** The names of `names` that `includes` lists, in the order of `names`. */
  function KeepIncluded(names: seq<string>, includes: seq<string>): (r: seq<string>)
    ensures forall x :: x in r <==> x in names && x in includes
    ensures forall x :: multiset(r)[x] == if x in includes then multiset(names)[x] else 0
    ensures IsSubsequence(r, names)
  {
    if names == [] then []
    else
      var rest := KeepIncluded(names[1..], includes);
      assert names == [names[0]] + names[1..];
      if names[0] in includes then [names[0]] + rest else rest
  }

  /** filterVersions: every name when no filter is set; otherwise the listed
      names, in the order they were given (the filter's order is ignored). */
  function FilterVersions(names: seq<string>, options: PluginOptions): (r: seq<string>)
    ensures options.onlyIncludeVersions.None? ==> r == names
    ensures options.onlyIncludeVersions.Some? ==>
      IsSubsequence(r, names) &&
      (forall x :: x in r <==> x in names && x in options.onlyIncludeVersions.value) &&
      (forall x :: multiset(r)[x] == if x in options.onlyIncludeVersions.value then multiset(names)[x] else 0)
  {
    if options.onlyIncludeVersions.Some? then KeepIncluded(names, options.onlyIncludeVersions.value)
    else names
  }

  /** Filtering a second time with the same options changes nothing. */
  lemma {:induction false} FilterVersionsIdempotent(names: seq<string>, options: PluginOptions)
    ensures FilterVersions(FilterVersions(names, options), options) == FilterVersions(names, options)
  {
    if options.onlyIncludeVersions.Some? {
      KeepIncludedIdempotent(names, options.onlyIncludeVersions.value);
    }
  }

  lemma {:induction false} KeepIncludedIdempotent(names: seq<string>, includes: seq<string>)
    ensures KeepIncluded(KeepIncluded(names, includes), includes) == KeepIncluded(names, includes)
  {
    if names != [] {
      KeepIncludedIdempotent(names[1..], includes);
      var rest := KeepIncluded(names[1..], includes);
      if names[0] in includes {
        assert ([names[0]] + rest)[1..] == rest;
      }
    }
  }

  /** Every name is the current version's. */
  predicate AllCurrent(names: seq<string>) {
    forall i :: 0 <= i < |names| ==> names[i] == CurrentVersionName
  }

  /** `versionNames.find(name => name !== CURRENT)`: the first name that is
      not the current version's, if any. */
  function FirstReleased(names: seq<string>): (r: Option<string>)
    ensures r.None? <==> AllCurrent(names)
    ensures r.Some? ==>
      (r.value != CurrentVersionName &&
       exists k :: 0 <= k < |names| && names[k] == r.value && AllCurrent(names[..k]))
  {
    if names == [] then None
    else if names[0] != CurrentVersionName then
      assert AllCurrent(names[..0]);
      Some(names[0])
    else
      var r := FirstReleased(names[1..]);
      assert names == [names[0]] + names[1..];
      assert r.Some? ==> exists k :: 0 <= k < |names| && names[k] == r.value && AllCurrent(names[..k]) by {
        if r.Some? {
          var k :| 0 <= k < |names[1..]| && names[1..][k] == r.value && AllCurrent(names[1..][..k]);
          assert names[..k + 1] == [names[0]] + names[1..][..k];
          assert names[k + 1] == r.value;
        }
      }
      r
  }

  /** getLastVersionName: the configured last version, else the first listed
      version that is not the current one, else the current version. */
  function LastVersionName(names: seq<string>, options: PluginOptions): (r: string)
    ensures options.lastVersion.Some? ==> r == options.lastVersion.value
    ensures options.lastVersion.None? ==> (r == CurrentVersionName <==> AllCurrent(names))
    ensures options.lastVersion.None? && r != CurrentVersionName ==>
      exists k :: 0 <= k < |names| && names[k] == r && AllCurrent(names[..k])
  {
    if options.lastVersion.Some? then options.lastVersion.value
    else
      var first := FirstReleased(names);
      if first.Some? then first.value else CurrentVersionName
  }
}
