/**
 * The icon registry of the icon service: a table of icon families, a table of
 * icon references per family, a cache of parsed svg icons per family key, and
 * the stream of "icon loaded" notifications, kept here as an append-only log.
 *
 * The service is a class whose methods update those tables in place. Their
 * meaning is given by the pure functions below, which work on the table values;
 * the lemmas after them state what the service promises about its lookups.
 */
module IconService {
  import opened Wrappers

  /** The kinds of icon a family can hold. */
  datatype IconType = Svg | Font | Liga

  /** What a family name stands for: its CSS class, its icon type and an optional name prefix. */
  datatype FamilyMeta = FamilyMeta(className: string, iconType: IconType, prefix: Option<string>)

  datatype IconFamily = IconFamily(name: string, meta: FamilyMeta)

  /** A stored icon reference; `iconType` is missing when neither the caller nor the family supplied one. */
  datatype IconMeta = IconMeta(name: string, family: string, iconType: Option<IconType>)

  /** What a lookup of an icon reference returns. */
  datatype IconReference = IconReference(className: string, iconType: Option<IconType>, name: string, family: string)

  /** One notification on the "icon loaded" stream; `value` is the svg text when the event comes from the svg cache. */
  datatype IconLoadedEvent = IconLoadedEvent(name: string, value: Option<string>, family: string)

  /** A parsed and sanitized svg element, as produced by the DOM parsing step. */
  datatype SvgIcon = SvgIcon(markup: string)

  /** The errors the service throws. */
  datatype IconError = MissingNameOrText | MissingNameOrUrl | UntrustedUrl | UnsanitizedUrl

  type Families = map<string, FamilyMeta>
  type IconRefs = map<string, map<string, IconMeta>>
  type SvgCache = map<string, map<string, SvgIcon>>

  /** The family registered when the service is created. */
  const MaterialFamily := IconFamily("material", FamilyMeta("material-icons", Liga, None))

  // ---------------------------------------------------------------------------
  // The meaning of the lookups, as functions of the tables

  /** `familyClassName`: the registered class name, or the alias itself when there is none or it is empty. */
  function ClassNameOf(families: Families, alias: string): string {
    if alias in families && families[alias].className != "" then families[alias].className else alias
  }

  /** `familyType`: the registered icon type, missing for an unregistered family. */
  function TypeOf(families: Families, alias: string): Option<IconType> {
    if alias in families then Some(families[alias].iconType) else None
  }

  /** The name prefix registered for a family, if any. */
  function PrefixOf(families: Families, alias: string): Option<string> {
    if alias in families then families[alias].prefix else None
  }

  /** The icon reference stored for `name` in `family`, if any. */
  function RefOf(refs: IconRefs, family: string, name: string): Option<IconMeta> {
    if family in refs && name in refs[family] then Some(refs[family][name]) else None
  }

  /** `refs` with the reference for (`family`, `name`) set to `meta`; the family's inner table is created on demand. */
  function RefsWith(refs: IconRefs, family: string, name: string, meta: IconMeta): IconRefs {
    refs[family := (if family in refs then refs[family] else map[])[name := meta]]
  }

  /** What `setIconRef` stores: the caller's reference, with its type filled in from `icon.family` when it has none. */
  function StoredRef(families: Families, icon: IconMeta): IconMeta {
    icon.(iconType := if icon.iconType.Some? then icon.iconType else TypeOf(families, icon.family))
  }

  /** JavaScript's `String.prototype.includes`: `sub` occurs somewhere in `s`. */
  predicate Includes(s: string, sub: string)
    decreases |s|
  {
    sub <= s || (|s| > 0 && Includes(s[1..], sub))
  }

  /** The name a lookup returns: prefixed once, when both the name and the prefix are non-empty. */
  function WithPrefix(name: string, prefix: Option<string>): string {
    if name != "" && prefix.Some? && prefix.value != "" then
      (if Includes(name, prefix.value) then name else prefix.value + name)
    else name
  }

  /** `getIconRef`: a stored reference or the requested name and family, completed from the family table. */
  function ResolveRef(families: Families, refs: IconRefs, name: string, family: string): IconReference {
    var icon := RefOf(refs, family, name);
    var iconFamily := if icon.Some? then icon.value.family else family;
    var iconName := if icon.Some? then icon.value.name else name;
    var iconType := if icon.Some? && icon.value.iconType.Some? then icon.value.iconType else TypeOf(families, iconFamily);
    IconReference(ClassNameOf(families, iconFamily), iconType, WithPrefix(iconName, PrefixOf(families, iconFamily)), iconFamily)
  }

  /** The key `cacheSvgIcon` stores under: the family name, or the default family's name when it is empty. */
  function CacheKey(defaultName: string, family: string): string {
    if family != "" then family else defaultName
  }

  /** `isSvgIconCached`: the cache is searched under the family's class name. */
  predicate IsCachedIn(families: Families, cache: SvgCache, name: string, family: string) {
    var key := ClassNameOf(families, family);
    key in cache && name in cache[key]
  }

  /** `getSvgIcon`: the icon cached under the family's class name, if any. */
  function CachedSvgIn(families: Families, cache: SvgCache, name: string, family: string): Option<SvgIcon> {
    var key := ClassNameOf(families, family);
    if key in cache && name in cache[key] then Some(cache[key][name]) else None
  }

  /** The cache after `cacheSvgIcon` has parsed `svg`: the inner table for `key` exists, and holds `svg` if the parse found one. */
  function CacheStep(cache: SvgCache, key: string, name: string, svg: Option<SvgIcon>): SvgCache {
    var inner := if key in cache then cache[key] else map[];
    if svg.Some? then cache[key := inner[name := svg.value]] else cache[key := inner]
  }

  // ---------------------------------------------------------------------------
  // What the lookups promise

  /** After construction the default family `material` has class `material-icons` and type `liga`. */
  lemma MaterialRegistered()
    ensures ClassNameOf(map[MaterialFamily.name := MaterialFamily.meta], "material") == "material-icons"
    ensures TypeOf(map[MaterialFamily.name := MaterialFamily.meta], "material") == Some(Liga)
  {
  }

  /** `setFamily(name, meta)` changes what `name` resolves to and nothing else. */
  lemma SetFamilyIsolated(families: Families, name: string, meta: FamilyMeta, alias: string)
    ensures alias == name ==>
      && ClassNameOf(families[name := meta], alias) == (if meta.className != "" then meta.className else name)
      && TypeOf(families[name := meta], alias) == Some(meta.iconType)
      && PrefixOf(families[name := meta], alias) == meta.prefix
    ensures alias != name ==>
      && ClassNameOf(families[name := meta], alias) == ClassNameOf(families, alias)
      && TypeOf(families[name := meta], alias) == TypeOf(families, alias)
      && PrefixOf(families[name := meta], alias) == PrefixOf(families, alias)
  {
  }

  /** A family registered without a class name resolves to itself. */
  lemma UnregisteredClassName(families: Families, alias: string)
    requires alias !in families || families[alias].className == ""
    ensures ClassNameOf(families, alias) == alias
  {
  }

  /** Setting a reference replaces exactly that one entry. */
  lemma RefsWithIsolated(refs: IconRefs, family: string, name: string, meta: IconMeta, f: string, n: string)
    ensures RefOf(RefsWith(refs, family, name, meta), f, n) ==
      if f == family && n == name then Some(meta) else RefOf(refs, f, n)
  {
  }

  /** A lookup of a reference that was never stored returns the requested name and family, completed from the family table. */
  lemma ResolveMissingRef(families: Families, refs: IconRefs, name: string, family: string)
    requires RefOf(refs, family, name).None?
    ensures ResolveRef(families, refs, name, family) ==
      IconReference(ClassNameOf(families, family), TypeOf(families, family), WithPrefix(name, PrefixOf(families, family)), family)
    ensures PrefixOf(families, family).None? ==> ResolveRef(families, refs, name, family).name == name
  {
  }

  /** Round trip: the reference `setIconRef` stores is the one `getIconRef` then returns. */
  lemma ResolveAfterSetRef(families: Families, refs: IconRefs, name: string, family: string, icon: IconMeta)
    ensures ResolveRef(families, RefsWith(refs, family, name, StoredRef(families, icon)), name, family) ==
      IconReference(
        ClassNameOf(families, icon.family),
        if icon.iconType.Some? then icon.iconType else TypeOf(families, icon.family),
        WithPrefix(icon.name, PrefixOf(families, icon.family)),
        icon.family)
  {
  }

  /** `includes` agrees with the positional definition of a substring. */
  lemma {:induction false} IncludesAt(s: string, sub: string)
    ensures Includes(s, sub) <==> exists i :: 0 <= i <= |s| - |sub| && sub <= s[i..]
    decreases |s|
  {
    if Includes(s, sub) {
      if sub <= s {
        assert s[0..] == s;
      } else {
        IncludesAt(s[1..], sub);
        var i :| 0 <= i <= |s[1..]| - |sub| && sub <= s[1..][i..];
        assert s[1..][i..] == s[i + 1..];
      }
    }
    if exists i :: 0 <= i <= |s| - |sub| && sub <= s[i..] {
      var i :| 0 <= i <= |s| - |sub| && sub <= s[i..];
      if i > 0 {
        assert s[1..][i - 1..] == s[i..];
        IncludesAt(s[1..], sub);
      } else {
        assert s[0..] == s;
      }
    }
  }

  /** A prefix is part of what it prefixes. */
  lemma PrefixIncluded(prefix: string, name: string)
    ensures Includes(prefix + name, prefix)
  {
    assert prefix <= prefix + name;
  }

  /** The prefix is applied at most once: prefixing a prefixed name changes nothing. */
  lemma WithPrefixOnce(name: string, prefix: Option<string>)
    ensures WithPrefix(WithPrefix(name, prefix), prefix) == WithPrefix(name, prefix)
  {
    if name != "" && prefix.Some? && prefix.value != "" && !Includes(name, prefix.value) {
      PrefixIncluded(prefix.value, name);
    }
  }

  /** With a non-empty name and prefix the result contains the prefix; a name already containing it is kept as it is. */
  lemma WithPrefixContains(name: string, prefix: string)
    requires name != "" && prefix != ""
    ensures Includes(WithPrefix(name, Some(prefix)), prefix)
    ensures Includes(name, prefix) ==> WithPrefix(name, Some(prefix)) == name
    ensures !Includes(name, prefix) ==> WithPrefix(name, Some(prefix)) == prefix + name
  {
    PrefixIncluded(prefix, name);
  }

  /** A lookup finds an icon exactly when it names one. */
  lemma CachedIffFound(families: Families, cache: SvgCache, name: string, family: string)
    ensures IsCachedIn(families, cache, name, family) <==> CachedSvgIn(families, cache, name, family).Some?
  {
  }

  /** Caching under one key leaves every other key as it was. */
  lemma CacheStepIsolated(cache: SvgCache, key: string, name: string, svg: Option<SvgIcon>, k: string)
    requires k != key
    ensures k in CacheStep(cache, key, name, svg) <==> k in cache
    ensures k in cache ==> CacheStep(cache, key, name, svg)[k] == cache[k]
    ensures key in CacheStep(cache, key, name, svg)
  {
  }

  /**
   * The key the cache is written under equals the key it is read under, for a non-empty family,
   * exactly when that family's class name is unset, empty or the family name itself.
   */
  lemma CacheKeyAgreement(families: Families, defaultName: string, family: string)
    requires family != ""
    ensures CacheKey(defaultName, family) == ClassNameOf(families, family) <==>
      family !in families || families[family].className == "" || families[family].className == family
  {
  }

  /** `addSvgIconFromText` on a non-empty family: once the svg is parsed, it is found under that family. */
  lemma CachedAfterAddFromText(families: Families, cache: SvgCache, defaultName: string, name: string, family: string, svg: SvgIcon)
    requires family != ""
    ensures var families' := families[family := FamilyMeta(family, Svg, None)];
      var cache' := CacheStep(cache, CacheKey(defaultName, family), name, Some(svg));
      IsCachedIn(families', cache', name, family) && CachedSvgIn(families', cache', name, family) == Some(svg)
  {
  }

  /**
   * `addSvgIconFromText` on the empty family writes under the default family's name but reads under
   * the empty class name, so the icon never shows up as cached there.
   */
  lemma EmptyFamilyStaysUncached(families: Families, cache: SvgCache, defaultName: string, name: string, svg: Option<SvgIcon>)
    requires defaultName != ""
    requires !("" in cache && name in cache[""])
    ensures var families' := families["" := FamilyMeta("", Svg, None)];
      !IsCachedIn(families', CacheStep(cache, CacheKey(defaultName, ""), name, svg), name, "")
  {
  }

  /** The family keys announced by svg-cache events of a log. */
  ghost function SvgFamilies(events: seq<IconLoadedEvent>): set<string> {
    if events == [] then {}
    else SvgFamilies(events[..|events| - 1]) + (if events[|events| - 1].value.Some? then {events[|events| - 1].family} else {})
  }

  // ---------------------------------------------------------------------------
  // The service

  class IconService {
    /** `_families`: family name to family meta. */
    var families: Families
    /** `_iconRefs`: family to icon name to stored reference. */
    var iconRefs: IconRefs
    /** `_cachedIcons`: family key to icon name to svg. */
    var cachedIcons: SvgCache
    /** `_defaultFamily`. */
    var defaultFamily: IconFamily
    /** Every event emitted on `iconLoaded`, oldest first. */
    var loaded: seq<IconLoadedEvent>
    /** Whether the platform is a browser (only then is a DOM parser available). */
    const isBrowser: bool
    /** Parsing svg text, setting its fit attributes, optionally stripping title and desc, and sanitizing it. */
    const renderSvg: (string, bool) -> Option<SvgIcon>

    /**
     * Every stored reference and every cache key has been announced on `iconLoaded`,
     * and no family holds an empty reference table.
     */
    ghost predicate Valid()
      reads this
    {
      && (forall f | f in iconRefs :: iconRefs[f] != map[])
      && (forall f, n | f in iconRefs && n in iconRefs[f] :: IconLoadedEvent(n, None, f) in loaded)
      && cachedIcons.Keys <= SvgFamilies(loaded)
    }

    /** The service starts with the `material` family registered and everything else empty. */
    constructor (isBrowser: bool, renderSvg: (string, bool) -> Option<SvgIcon>)
      ensures Valid()
      ensures defaultFamily == MaterialFamily
      ensures families == map["material" := FamilyMeta("material-icons", Liga, None)]
      ensures iconRefs == map[] && cachedIcons == map[] && loaded == []
      ensures this.isBrowser == isBrowser && this.renderSvg == renderSvg
    {
      this.isBrowser := isBrowser;
      this.renderSvg := renderSvg;
      defaultFamily := MaterialFamily;
      iconRefs := map[];
      cachedIcons := map[];
      loaded := [];
      families := map[MaterialFamily.name := MaterialFamily.meta];
    }

    /** The `defaultFamily` setter: it also registers the new default family. */
    method SetDefaultFamily(family: IconFamily)
      modifies this`defaultFamily, this`families
      ensures defaultFamily == family
      ensures families == old(families)[family.name := family.meta]
    {
      defaultFamily := family;
      SetFamily(defaultFamily.name, defaultFamily.meta);
    }

    /** `registerFamilyAlias`: `setFamily` with the class name defaulting to the alias and the type to font. */
    method RegisterFamilyAlias(alias: string, className: Option<string>, iconType: Option<IconType>)
      modifies this`families
      ensures families == old(families)[alias := FamilyMeta(className.GetOr(alias), iconType.GetOr(Font), None)]
    {
      SetFamily(alias, FamilyMeta(className.GetOr(alias), iconType.GetOr(Font), None));
    }

    /** `familyClassName`. */
    method FamilyClassName(alias: string) returns (r: string)
      ensures r == ClassNameOf(families, alias)
    {
      if alias in families && families[alias].className != "" {
        r := families[alias].className;
      } else {
        r := alias;
      }
    }

    /** `familyType`. */
    method FamilyType(alias: string) returns (r: Option<IconType>)
      ensures r == TypeOf(families, alias)
    {
      r := None;
      if alias in families {
        r := Some(families[alias].iconType);
      }
    }

    /** `setFamily`: replaces the entry for `name`. */
    method SetFamily(name: string, meta: FamilyMeta)
      modifies this`families
      ensures families == old(families)[name := meta]
    {
      families := families[name := meta];
    }

    /** `addIconRef`: stores the reference only when none is stored for (`family`, `name`). */
    method AddIconRef(name: string, family: string, icon: IconMeta)
      requires Valid()
      modifies this`iconRefs, this`loaded
      ensures Valid()
      ensures RefOf(old(iconRefs), family, name).Some? ==> iconRefs == old(iconRefs) && loaded == old(loaded)
      ensures RefOf(old(iconRefs), family, name).None? ==>
        && iconRefs == RefsWith(old(iconRefs), family, name, StoredRef(families, icon))
        && loaded == old(loaded) + [IconLoadedEvent(name, None, family)]
    {
      var known := family in iconRefs && name in iconRefs[family];
      if !known {
        SetIconRef(name, family, icon);
      }
    }

    /** `setIconRef`: always stores the reference, then announces it. */
    method SetIconRef(name: string, family: string, icon: IconMeta)
      requires Valid()
      modifies this`iconRefs, this`loaded
      ensures Valid()
      ensures iconRefs == RefsWith(old(iconRefs), family, name, StoredRef(families, icon))
      ensures loaded == old(loaded) + [IconLoadedEvent(name, None, family)]
    {
      // the family's table is created on demand
      var familyRef: map<string, IconMeta> := map[];
      if family in iconRefs {
        familyRef := iconRefs[family];
      }
      var familyType := FamilyType(icon.family);
      var stored := icon.(iconType := if icon.iconType.Some? then icon.iconType else familyType);
      // the inner table is shared by reference in the source; as a value it is written back
      iconRefs := iconRefs[family := familyRef[name := stored]];
      loaded := loaded + [IconLoadedEvent(name, None, family)];
      assert name in iconRefs[family];
    }

    /** `getIconRef`. */
    method GetIconRef(name: string, family: string) returns (r: IconReference)
      ensures r == ResolveRef(families, iconRefs, name, family)
    {
      var icon: Option<IconMeta> := None;
      if family in iconRefs && name in iconRefs[family] {
        icon := Some(iconRefs[family][name]);
      }
      var iconFamily := if icon.Some? then icon.value.family else family;
      var iconName := if icon.Some? then icon.value.name else name;
      var familyType := FamilyType(iconFamily);
      var iconType := if icon.Some? && icon.value.iconType.Some? then icon.value.iconType else familyType;
      var className := FamilyClassName(iconFamily);
      var prefix := if iconFamily in families then families[iconFamily].prefix else None;
      var resolved := iconName;
      if resolved != "" && prefix.Some? && prefix.value != "" {
        resolved := if Includes(iconName, prefix.value) then iconName else prefix.value + iconName;
      }
      r := IconReference(className, iconType, resolved, iconFamily);
    }

    /**
     * The synchronous part of `addSvgIcon`. The outcomes of the two sanitizer calls are parameters;
     * `Success(true)` means that the fetch of `url` was issued, and its response is later handed to
     * `CacheSvgIcon` with the same name, the resolved family and the caller's `stripMeta`.
     */
    method AddSvgIcon(name: string, url: string, family: Option<string>, urlTrusted: bool, urlSanitized: bool)
      returns (r: Result<bool, IconError>)
      modifies this`families
      ensures name == "" || url == "" ==> r == Failure(MissingNameOrUrl)
      ensures name != "" && url != "" && !urlTrusted ==> r == Failure(UntrustedUrl)
      ensures name != "" && url != "" && urlTrusted && !urlSanitized ==> r == Failure(UnsanitizedUrl)
      ensures r.Success? <==> name != "" && url != "" && urlTrusted && urlSanitized
      ensures r.Success? ==> r.value == !IsCachedIn(old(families), cachedIcons, name, family.GetOr(defaultFamily.name))
      ensures families ==
        if r.Success? && r.value then old(families)[family.GetOr(defaultFamily.name) := FamilyMeta(family.GetOr(defaultFamily.name), Svg, None)]
        else old(families)
    {
      if name != "" && url != "" {
        if !urlTrusted {
          return Failure(UntrustedUrl);
        }
        if !urlSanitized {
          return Failure(UnsanitizedUrl);
        }
        var f := family.GetOr(defaultFamily.name);
        var cached := IsSvgIconCached(name, f);
        if !cached {
          families := families[f := FamilyMeta(f, Svg, None)];
        }
        r := Success(!cached);
      } else {
        r := Failure(MissingNameOrUrl);
      }
    }

    /** `addSvgIconFromText`: throws on a missing name or text, does nothing when the icon is cached. */
    method AddSvgIconFromText(name: string, iconText: string, family: string, stripMeta: bool) returns (r: Outcome<IconError>)
      requires Valid()
      modifies this`families, this`cachedIcons, this`loaded
      ensures Valid()
      ensures r == if name != "" && iconText != "" then Pass else Fail(MissingNameOrText)
      ensures r.Fail? || IsCachedIn(old(families), old(cachedIcons), name, family) ==>
        families == old(families) && cachedIcons == old(cachedIcons) && loaded == old(loaded)
      ensures r.Pass? && !IsCachedIn(old(families), old(cachedIcons), name, family) ==>
        families == old(families)[family := FamilyMeta(family, Svg, None)] && SvgCached(name, iconText, family, stripMeta)
    {
      if name != "" && iconText != "" {
        var cached := IsSvgIconCached(name, family);
        if cached {
          return Pass;
        }
        families := families[family := FamilyMeta(family, Svg, None)];
        CacheSvgIcon(name, iconText, family, stripMeta);
        r := Pass;
      } else {
        r := Fail(MissingNameOrText);
      }
    }

    /** `isSvgIconCached`. */
    method IsSvgIconCached(name: string, family: string) returns (r: bool)
      ensures r == IsCachedIn(families, cachedIcons, name, family)
    {
      var key := FamilyClassName(family);
      r := false;
      if key in cachedIcons {
        var familyRegistry := cachedIcons[key];
        r := name in familyRegistry;
      }
    }

    /** `getSvgIcon`. */
    method GetSvgIcon(name: string, family: string) returns (r: Option<SvgIcon>)
      ensures r == CachedSvgIn(families, cachedIcons, name, family)
    {
      var key := FamilyClassName(family);
      r := None;
      if key in cachedIcons && name in cachedIcons[key] {
        r := Some(cachedIcons[key][name]);
      }
    }

    /**
     * The effect of `cacheSvgIcon(name, value, family, stripMeta)`: in a browser, with a name and a text,
     * the family key gets its inner table (announced the first time it appears) and the parsed svg, if any.
     */
    twostate predicate SvgCached(name: string, value: string, family: string, stripMeta: bool)
      reads this
    {
      var key := CacheKey(defaultFamily.name, family);
      if isBrowser && name != "" && value != "" then
        && cachedIcons == CacheStep(old(cachedIcons), key, name, renderSvg(value, stripMeta))
        && loaded == old(loaded) + (if key in old(cachedIcons) then [] else [IconLoadedEvent(name, Some(value), key)])
      else
        cachedIcons == old(cachedIcons) && loaded == old(loaded)
    }

    /** `cacheSvgIcon`. */
    method CacheSvgIcon(name: string, value: string, family: string, stripMeta: bool)
      requires Valid()
      modifies this`cachedIcons, this`loaded
      ensures Valid()
      ensures SvgCached(name, value, family, stripMeta)
    {
      var key := if family != "" then family else defaultFamily.name;
      if isBrowser && name != "" && value != "" {
        var svg := renderSvg(value, stripMeta);
        if key !in cachedIcons {
          cachedIcons := cachedIcons[key := map[]];
          loaded := loaded + [IconLoadedEvent(name, Some(value), key)];
          assert loaded[..|loaded| - 1] == old(loaded);
        }
        if svg.Some? {
          cachedIcons := cachedIcons[key := cachedIcons[key][name := svg.value]];
        }
      }
    }
  }

  /** A client of the service: the default family, and `addIconRef` keeping the first reference. */
  method DefaultFamilyScenario(renderSvg: (string, bool) -> Option<SvgIcon>)
  {
    var service := new IconService(true, renderSvg);
    var className := service.FamilyClassName("material");
    assert className == "material-icons";
    service.AddIconRef("aruba", "default", IconMeta("aruba", "svg-flags", None));
    service.AddIconRef("aruba", "default", IconMeta("other", "svg-flags", Some(Font)));
    var ref := service.GetIconRef("aruba", "default");
    assert ref == IconReference("svg-flags", None, "aruba", "svg-flags");
    assert |service.loaded| == 1;
  }
}
