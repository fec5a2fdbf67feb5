/** Building bundles from the built-in defaults and from sections and category
    groups, the version-gated sync with the config files, and the bulk
    creation loops, stated as functions of the world and the table. */
module Construction {
  import opened Wrappers
  import opened Versions
  import opened Model
  import opened Store

  /** `$siteSettings[$siteId]`: the site settings array is indexed by site id,
      so a later entry for the same site replaces an earlier one. */
  function SettingFor(settings: seq<SiteSetting>, siteId: int): (r: Option<SiteSetting>)
    ensures r.Some? ==> r.value in settings && r.value.siteId == siteId
    ensures r.None? ==> forall x :: x in settings ==> x.siteId != siteId
  {
    if settings == [] then None
    else if settings[|settings| - 1].siteId == siteId then Some(settings[|settings| - 1])
    else SettingFor(settings[..|settings| - 1], siteId)
  }

  /** `sourceAltSiteSettings`: the URL-enabled settings with their site's
      language, indexed by site id. The settings are keyed by site id before
      the filter, so a later entry for a site replaces an earlier one even
      when it has no URLs. */
  function AltSites(settings: seq<SiteSetting>, language: int -> string): map<int, AltSiteSetting>
  {
    if settings == [] then map[]
    else
      var rest := AltSites(settings[..|settings| - 1], language);
      var last := settings[|settings| - 1];
      if last.hasUrls then rest[last.siteId := AltSiteSetting(last, language(last.siteId))]
      else rest - {last.siteId}
  }

  /** The alternate-site map holds exactly the sites whose setting (as
      `$siteSettings[$siteId]` reads it) has URLs, each with that setting and
      its site's language. */
  lemma {:induction false} AltSitesContents(settings: seq<SiteSetting>, language: int -> string)
    ensures forall k :: k in AltSites(settings, language) <==>
      SettingFor(settings, k).Some? && SettingFor(settings, k).value.hasUrls
    ensures forall k :: k in AltSites(settings, language) ==>
      AltSites(settings, language)[k] == AltSiteSetting(SettingFor(settings, k).value, language(k))
  {
    if settings != [] {
      AltSitesContents(settings[..|settings| - 1], language);
    }
  }

  /** The site setting the bundle is built from is the one its alternate-site
      map holds for that site. */
  lemma {:induction false} AltSitesHoldTarget(settings: seq<SiteSetting>, language: int -> string, siteId: int)
    requires SettingFor(settings, siteId).Some? && SettingFor(settings, siteId).value.hasUrls
    ensures siteId in AltSites(settings, language)
    ensures AltSites(settings, language)[siteId].setting == SettingFor(settings, siteId).value
  {
    var last := settings[|settings| - 1];
    if last.siteId != siteId {
      AltSitesHoldTarget(settings[..|settings| - 1], language, siteId);
    }
  }

  /** The loop at the head of both construction routines that gathers the
      URL-enabled site settings into `$siteSettingsArray`. */
  method BuildAltSiteSettings(settings: seq<SiteSetting>, language: int -> string)
    returns (alt: map<int, AltSiteSetting>)
    ensures alt == AltSites(settings, language)
    ensures forall k :: k in alt <==> SettingFor(settings, k).Some? && SettingFor(settings, k).value.hasUrls
  {
    alt := map[];
    var i := 0;
    while i < |settings|
      invariant 0 <= i <= |settings|
      invariant alt == AltSites(settings[..i], language)
    {
      var setting := settings[i];
      if setting.hasUrls {
        alt := alt[setting.siteId := AltSiteSetting(setting, language(setting.siteId))];
      } else {
        // The settings are keyed by site id, so this entry replaces any
        // earlier one for its site.
        alt := alt - {setting.siteId};
      }
      assert settings[..i + 1][..i] == settings[..i];
      i := i + 1;
    }
    assert settings[..i] == settings;
    AltSitesContents(settings, language);
  }

  /** `$element->dateUpdated ?? $element->dateCreated`, or now when the source
      has no element on that site yet. */
  function DateUpdated(latest: Option<ContentItem>, now: int): int
  {
    match latest
    case None => now
    case Some(e) =>
      match e.dateUpdated
      case Some(d) => d
      case None => e.dateCreated
  }

  function LatestItem(w: World, kind: ContentKind, handle: string, siteId: int): Option<ContentItem>
  {
    if (kind, handle, siteId) in w.latest then Some(w.latest[(kind, handle, siteId)]) else None
  }

  /** The attributes copied from the source; the category routine does not
      set `sourceType`. */
  function SourceFields(kind: ContentKind, src: ContentSource, setting: SiteSetting,
                        alt: map<int, AltSiteSetting>, date: int): Attrs
  {
    var common := map[
      SourceIdKey := IntVal(src.id),
      SourceNameKey := StrVal(src.name),
      SourceHandleKey := StrVal(src.handle),
      SourceTemplateKey := StrVal(setting.template),
      SourceSiteIdKey := IntVal(setting.siteId),
      SourceAltSiteSettingsKey := SitesVal(alt),
      SourceDateUpdatedKey := DateVal(date)];
    match kind
    case SectionKind => common[SourceTypeKey := StrVal(src.sectionType)]
    case CategoryKind => common
  }

  /** The source fields for the site setting the bundle is built on, with
      the alternate-site map and the latest element's date. */
  function ContentFields(w: World, kind: ContentKind, src: ContentSource, setting: SiteSetting): Attrs
  {
    SourceFields(kind, src, setting, AltSites(src.siteSettings, w.siteLanguage),
                 DateUpdated(LatestItem(w, kind, src.handle, setting.siteId), w.now))
  }

  /** The source fields set exactly the source keys, never the version or the
      type tag, and copy the source's values. */
  lemma ContentFieldsShape(w: World, kind: ContentKind, src: ContentSource, setting: SiteSetting)
    ensures var f := ContentFields(w, kind, src, setting);
      f.Keys == SourceFieldKeys(kind) &&
      f[SourceIdKey] == IntVal(src.id) && f[SourceNameKey] == StrVal(src.name) &&
      f[SourceHandleKey] == StrVal(src.handle) && f[SourceTemplateKey] == StrVal(setting.template) &&
      f[SourceSiteIdKey] == IntVal(setting.siteId) &&
      f[SourceAltSiteSettingsKey] == SitesVal(AltSites(src.siteSettings, w.siteLanguage)) &&
      f[SourceDateUpdatedKey] == DateVal(DateUpdated(LatestItem(w, kind, src.handle, setting.siteId), w.now)) &&
      (kind == SectionKind ==> f[SourceTypeKey] == StrVal(src.sectionType))
  {
  }

  /** The source fields never set the version or the type tag. */
  lemma ContentFieldsOmit(w: World, kind: ContentKind, src: ContentSource, setting: SiteSetting)
    ensures BundleVersionKey !in ContentFields(w, kind, src, setting)
    ensures SourceBundleTypeKey !in ContentFields(w, kind, src, setting)
  {
  }

  /** createMetaBundleFromSection / createMetaBundleFromCategory, before the
      save: null unless the target site has URL-enabled settings; otherwise
      merge($baseConfig, config + source fields). */
  function ContentBundle(w: World, kind: ContentKind, src: ContentSource, siteId: int, base: Attrs): Option<Attrs>
  {
    match SettingFor(src.siteSettings, siteId)
    case None => None
    case Some(setting) =>
      if !setting.hasUrls then None
      else Some(Merge(base, Merge(KindConfig(w, kind), ContentFields(w, kind, src, setting))))
  }

  /** Section and category construction yields a bundle exactly when the
      target site has settings with URLs; the bundle is scoped to that site
      and names the source. */
  lemma ContentBundleScope(w: World, kind: ContentKind, src: ContentSource, siteId: int, base: Attrs)
    ensures ContentBundle(w, kind, src, siteId, base).Some? <==>
      SettingFor(src.siteSettings, siteId).Some? && SettingFor(src.siteSettings, siteId).value.hasUrls
    ensures ContentBundle(w, kind, src, siteId, base).Some? ==>
      var b := ContentBundle(w, kind, src, siteId, base).value;
      SiteIdOf(b) == siteId && SourceIdOf(b) == src.id && HandleOf(b) == src.handle &&
      StrAttr(b, SourceNameKey) == src.name &&
      StrAttr(b, SourceTemplateKey) == SettingFor(src.siteSettings, siteId).value.template &&
      b[SourceDateUpdatedKey] == DateVal(DateUpdated(LatestItem(w, kind, src.handle, siteId), w.now))
  {
    match SettingFor(src.siteSettings, siteId) {
      case None =>
      case Some(setting) =>
        if setting.hasUrls {
          var fields := ContentFields(w, kind, src, setting);
          ContentFieldsShape(w, kind, src, setting);
          MergeLayers(base, KindConfig(w, kind), fields);
        }
    }
  }

  /** The bundle's `sourceAltSiteSettings` holds exactly the URL-enabled sites
      of the source, the target site among them. */
  lemma ContentBundleAltSites(w: World, kind: ContentKind, src: ContentSource, siteId: int, base: Attrs)
    requires ContentBundle(w, kind, src, siteId, base).Some?
    ensures var b := ContentBundle(w, kind, src, siteId, base).value;
      SourceAltSiteSettingsKey in b && b[SourceAltSiteSettingsKey].SitesVal? &&
      (forall k :: k in b[SourceAltSiteSettingsKey].sites <==>
         SettingFor(src.siteSettings, k).Some? && SettingFor(src.siteSettings, k).value.hasUrls) &&
      siteId in b[SourceAltSiteSettingsKey].sites
  {
    var setting := SettingFor(src.siteSettings, siteId).value;
    ContentFieldsShape(w, kind, src, setting);
    MergeLayers(base, KindConfig(w, kind), ContentFields(w, kind, src, setting));
    AltSitesContents(src.siteSettings, w.siteLanguage);
    AltSitesHoldTarget(src.siteSettings, w.siteLanguage, siteId);
  }

  /** The keys the source fields set for a kind. */
  function SourceFieldKeys(kind: ContentKind): set<Key>
  {
    var common := {SourceIdKey, SourceNameKey, SourceHandleKey, SourceTemplateKey,
                   SourceSiteIdKey, SourceAltSiteSettingsKey, SourceDateUpdatedKey};
    if kind == SectionKind then common + {SourceTypeKey} else common
  }

  /** Merge precedence as written: source fields beat the config file, the
      config file beats the base bundle, and only base keys that neither sets
      survive. The category routine leaves `sourceType` to the config file or
      the base bundle; the section routine sets it from the section. */
  lemma ContentBundlePrecedence(w: World, kind: ContentKind, src: ContentSource, siteId: int, base: Attrs)
    requires ContentBundle(w, kind, src, siteId, base).Some?
    ensures var b := ContentBundle(w, kind, src, siteId, base).value;
      var config := KindConfig(w, kind);
      b.Keys == base.Keys + config.Keys + SourceFieldKeys(kind) &&
      (forall k :: k in config && k !in SourceFieldKeys(kind) ==> b[k] == config[k]) &&
      (forall k :: k in base && k !in config && k !in SourceFieldKeys(kind) ==> b[k] == base[k]) &&
      (kind == SectionKind ==> b[SourceTypeKey] == StrVal(src.sectionType)) &&
      (kind == CategoryKind ==> (SourceTypeKey in b <==> SourceTypeKey in base || SourceTypeKey in config))
  {
    var setting := SettingFor(src.siteSettings, siteId).value;
    ContentFieldsShape(w, kind, src, setting);
    MergeLayers(base, KindConfig(w, kind), ContentFields(w, kind, src, setting));
  }

  /** Three-layer merge: the last layer wins, then the middle one, then the
      first. */
  lemma MergeLayers(base: Attrs, config: Attrs, fields: Attrs)
    ensures var b := Merge(base, Merge(config, fields));
      b.Keys == base.Keys + config.Keys + fields.Keys &&
      (forall k :: k in fields ==> b[k] == fields[k]) &&
      (forall k :: k in config && k !in fields ==> b[k] == config[k]) &&
      (forall k :: k in base && k !in config && k !in fields ==> b[k] == base[k])
  {
  }

  /** createGlobalMetaBundleForSite, before the save. */
  function GlobalBundle(w: World, siteId: int, base: Attrs): Attrs
  {
    Merge(base, Merge(w.globalConfig, map[SourceSiteIdKey := IntVal(siteId)]))
  }

  /** A global bundle is scoped to its site, tagged global, and carries the
      config file's version. */
  lemma GlobalBundleShape(w: World, siteId: int, base: Attrs)
    requires ConfigsTagged(w)
    ensures var b := GlobalBundle(w, siteId, base);
      SiteIdOf(b) == siteId && IsGlobal(b) &&
      (BundleVersionKey in w.globalConfig ==> VersionOf(b) == VersionOf(w.globalConfig)) &&
      (BundleVersionKey !in w.globalConfig ==> VersionOf(b) == VersionOf(base))
  {
  }

  /** createGlobalMetaBundleForSite: the bundle and the table after the save
      (upsert by global type and site, only when it validates). */
  function CreateGlobal(w: World, siteId: int, base: Attrs, rows: Rows): (r: (Attrs, Rows))
    ensures r.0 == GlobalBundle(w, siteId, base)
    ensures !w.validate(r.0) ==> r.1 == rows
    ensures w.validate(r.0) && ConfigsTagged(w) ==> FindOne(r.1, ByTypeSite(GLOBAL_META_BUNDLE, siteId)) == Some(r.0)
  {
    var b := GlobalBundle(w, siteId, base);
    var q := ByTypeSite(GLOBAL_META_BUNDLE, siteId);
    var r := (b, Persist(w, rows, q, b));
    if Matches(b, q) then UpsertThenFind(rows, q, b); r else r
  }

  /** createMetaBundleFromSection / createMetaBundleFromCategory: the bundle
      (or null) and the table after the save (upsert by the kind's type tag
      and the bundle's source and site, only when it validates). */
  function CreateContent(w: World, kind: ContentKind, src: ContentSource, siteId: int, base: Attrs, rows: Rows)
    : (r: (Option<Attrs>, Rows))
    ensures r.0 == ContentBundle(w, kind, src, siteId, base)
    ensures r.0.None? || !w.validate(r.0.value) ==> r.1 == rows
  {
    match ContentBundle(w, kind, src, siteId, base)
    case None => (None, rows)
    case Some(b) => (Some(b), Persist(w, rows, ByKey(KindTag(kind), SourceIdOf(b), SiteIdOf(b)), b))
  }

  /** A constructed content bundle that validates is what the table then
      holds for its kind, source and site. */
  lemma CreateContentThenFind(w: World, kind: ContentKind, src: ContentSource, siteId: int, base: Attrs, rows: Rows)
    requires ConfigsTagged(w)
    requires ContentBundle(w, kind, src, siteId, base).Some?
    requires w.validate(ContentBundle(w, kind, src, siteId, base).value)
    ensures FindOne(CreateContent(w, kind, src, siteId, base, rows).1, ByKey(KindTag(kind), src.id, siteId))
            == ContentBundle(w, kind, src, siteId, base)
  {
    var b := ContentBundle(w, kind, src, siteId, base).value;
    ContentBundleScope(w, kind, src, siteId, base);
    ContentBundleTagged(w, kind, src, siteId, base);
    var q := ByKey(KindTag(kind), SourceIdOf(b), SiteIdOf(b));
    UpsertThenFind(rows, q, b);
  }

  lemma CreateGlobalKeepsInvariant(w: World, siteId: int, base: Attrs, rows: Rows)
    requires ConfigsTagged(w) && StoreInvariant(rows)
    ensures StoreInvariant(CreateGlobal(w, siteId, base, rows).1)
  {
    GlobalBundleShape(w, siteId, base);
    PersistKeepsInvariant(w, rows, ByTypeSite(GLOBAL_META_BUNDLE, siteId), GlobalBundle(w, siteId, base));
  }

  lemma CreateContentKeepsInvariant(w: World, kind: ContentKind, src: ContentSource, siteId: int, base: Attrs, rows: Rows)
    requires ConfigsTagged(w) && StoreInvariant(rows)
    ensures StoreInvariant(CreateContent(w, kind, src, siteId, base, rows).1)
  {
    match ContentBundle(w, kind, src, siteId, base) {
      case None =>
      case Some(b) =>
        ContentBundleTagged(w, kind, src, siteId, base);
        PersistKeepsInvariant(w, rows, ByKey(KindTag(kind), SourceIdOf(b), SiteIdOf(b)), b);
    }
  }

  /** The config file syncBundleWithConfig loads for a type tag; none for a tag
      its switch does not list. */
  function SyncConfig(w: World, t: string): Attrs
  {
    if t == GLOBAL_META_BUNDLE then w.globalConfig
    else if t == CATEGORYGROUP_META_BUNDLE then w.categoryConfig
    else if t == SECTION_META_BUNDLE then w.entryConfig
    else map[]
  }

  /** syncBundleWithConfig: when the config file's bundleVersion is strictly
      newer than the bundle's, rebuild the bundle with its own attributes as
      the base config (which can also turn it into null); otherwise keep it. */
  function Sync(w: World, t: string, b: Attrs, rows: Rows): (Option<Attrs>, Rows)
  {
    var config := SyncConfig(w, t);
    if config == map[] || !Newer(VersionOf(config), VersionOf(b)) then (Some(b), rows)
    else if t == GLOBAL_META_BUNDLE then
      var g := CreateGlobal(w, SiteIdOf(b), b, rows);
      (Some(g.0), g.1)
    else match KindOfTag(t)
      case None => (Some(b), rows)
      case Some(kind) =>
        match LookupSource(w, kind, ById(SourceIdOf(b)))
        case None => (None, rows)
        case Some(src) => CreateContent(w, kind, src, SiteIdOf(b), b, rows)
  }

  /** The version gate: a bundle whose version equals the config file's, or is
      newer, comes back unchanged and nothing is written. */
  lemma SyncGate(w: World, t: string, b: Attrs, rows: Rows)
    requires VersionOf(b) == VersionOf(SyncConfig(w, t)) || Older(VersionOf(SyncConfig(w, t)), VersionOf(b))
    ensures Sync(w, t, b, rows) == (Some(b), rows)
  {
    var c := VersionOf(SyncConfig(w, t));
    if VersionOf(b) == c {
      OlderIrreflexive(c);
    } else {
      OlderAsymmetric(c, VersionOf(b));
    }
  }

  /** A stale global bundle is rebuilt at the config file's version, so a
      second sync of the result is a no-op. */
  lemma SyncGlobalSettles(w: World, b: Attrs, rows: Rows)
    requires ConfigsTagged(w)
    requires Newer(VersionOf(w.globalConfig), VersionOf(b))
    ensures var (r, rows') := Sync(w, GLOBAL_META_BUNDLE, b, rows);
      r.Some? && VersionOf(r.value) == VersionOf(w.globalConfig) &&
      SiteIdOf(r.value) == SiteIdOf(b) &&
      Sync(w, GLOBAL_META_BUNDLE, r.value, rows') == (r, rows')
  {
    GlobalBundleShape(w, SiteIdOf(b), b);
    SyncGate(w, GLOBAL_META_BUNDLE, GlobalBundle(w, SiteIdOf(b), b), CreateGlobal(w, SiteIdOf(b), b, rows).1);
  }

  /** A stale content bundle that is rebuilt takes the config file's version
      (when the config file states one), so a second sync is a no-op. */
  lemma SyncContentSettles(w: World, t: string, b: Attrs, rows: Rows)
    requires t == SECTION_META_BUNDLE || t == CATEGORYGROUP_META_BUNDLE
    requires Newer(VersionOf(SyncConfig(w, t)), VersionOf(b))
    requires Sync(w, t, b, rows).0.Some?
    ensures var (r, rows') := Sync(w, t, b, rows);
      VersionOf(r.value) == VersionOf(SyncConfig(w, t)) &&
      Sync(w, t, r.value, rows') == (r, rows')
  {
    var kind := KindOfTag(t).value;
    var src := LookupSource(w, kind, ById(SourceIdOf(b))).value;
    var res := CreateContent(w, kind, src, SiteIdOf(b), b, rows);
    assert Sync(w, t, b, rows) == res;
    ContentVersionFromConfig(w, kind, src, SiteIdOf(b), b);
    SyncGate(w, t, res.0.value, res.1);
  }

  /** A built content bundle carries its config file's version whenever the
      config file states one. */
  lemma ContentVersionFromConfig(w: World, kind: ContentKind, src: ContentSource, siteId: int, base: Attrs)
    requires ContentBundle(w, kind, src, siteId, base).Some?
    requires VersionOf(KindConfig(w, kind)) != []
    ensures VersionOf(ContentBundle(w, kind, src, siteId, base).value) == VersionOf(KindConfig(w, kind))
  {
    var setting := SettingFor(src.siteSettings, siteId).value;
    var config := KindConfig(w, kind);
    var fields := ContentFields(w, kind, src, setting);
    var b := Merge(base, Merge(config, fields));
    assert ContentBundle(w, kind, src, siteId, base) == Some(b);
    ContentFieldsOmit(w, kind, src, setting);
    assert BundleVersionKey in config && BundleVersionKey !in fields;
    MergeLayers(base, config, fields);
    assert b[BundleVersionKey] == config[BundleVersionKey];
  }

  /** A built content bundle carries its kind's type tag, which the config
      file supplies and neither the source fields nor the base override. */
  lemma ContentBundleTagged(w: World, kind: ContentKind, src: ContentSource, siteId: int, base: Attrs)
    requires ConfigsTagged(w)
    requires ContentBundle(w, kind, src, siteId, base).Some?
    ensures var b := ContentBundle(w, kind, src, siteId, base).value;
      TypeOf(b) == KindTag(kind) && !IsGlobal(b)
  {
    var setting := SettingFor(src.siteSettings, siteId).value;
    var config := KindConfig(w, kind);
    var fields := ContentFields(w, kind, src, setting);
    var b := Merge(base, Merge(config, fields));
    assert ContentBundle(w, kind, src, siteId, base) == Some(b);
    ContentFieldsOmit(w, kind, src, setting);
    assert SourceBundleTypeKey in config && SourceBundleTypeKey !in fields;
    MergeLayers(base, config, fields);
    assert b[SourceBundleTypeKey] == config[SourceBundleTypeKey];
    assert KindTag(kind) != GLOBAL_META_BUNDLE;
  }

  lemma SyncKeepsInvariant(w: World, t: string, b: Attrs, rows: Rows)
    requires ConfigsTagged(w) && StoreInvariant(rows)
    ensures StoreInvariant(Sync(w, t, b, rows).1)
  {
    var config := SyncConfig(w, t);
    if config == map[] || !Newer(VersionOf(config), VersionOf(b)) {
    } else if t == GLOBAL_META_BUNDLE {
      CreateGlobalKeepsInvariant(w, SiteIdOf(b), b, rows);
    } else if KindOfTag(t).Some? {
      var kind := KindOfTag(t).value;
      match LookupSource(w, kind, ById(SourceIdOf(b))) {
        case None =>
        case Some(src) => CreateContentKeepsInvariant(w, kind, src, SiteIdOf(b), b, rows);
      }
    }
  }

  /** The miss branch of getMetaBundleBySourceId / BySourceHandle: dispatch on
      the type tag, look the source up, and construct with an empty base; null
      for any other tag. */
  function BuildOnMiss(w: World, t: string, ref: SourceRef, siteId: int, rows: Rows): (r: (Option<Attrs>, Rows))
    ensures t != SECTION_META_BUNDLE && t != CATEGORYGROUP_META_BUNDLE ==> r == (None, rows)
  {
    match KindOfTag(t)
    case None => (None, rows)
    case Some(kind) =>
      match LookupSource(w, kind, ref)
      case None => (None, rows)
      case Some(src) => CreateContent(w, kind, src, siteId, map[], rows)
  }

  lemma BuildOnMissKeepsInvariant(w: World, t: string, ref: SourceRef, siteId: int, rows: Rows)
    requires ConfigsTagged(w) && StoreInvariant(rows)
    ensures StoreInvariant(BuildOnMiss(w, t, ref, siteId, rows).1)
  {
    match KindOfTag(t) {
      case None =>
      case Some(kind) =>
        match LookupSource(w, kind, ref) {
          case None =>
          case Some(src) => CreateContentKeepsInvariant(w, kind, src, siteId, map[], rows);
        }
    }
  }

  /** createGlobalMetaBundles: one global bundle per site, in site order. */
  function GlobalsForSites(w: World, sites: seq<int>, rows: Rows): Rows
  {
    if sites == [] then rows
    else GlobalsForSites(w, sites[1..], CreateGlobal(w, sites[0], map[], rows).1)
  }

  /** Creating the global bundle of one site leaves another site's global row
      where the query finds it. */
  lemma CreateGlobalKeepsOtherSite(w: World, s: int, other: int, rows: Rows)
    requires ConfigsTagged(w) && s != other
    ensures FindFirst(CreateGlobal(w, other, map[], rows).1, ByTypeSite(GLOBAL_META_BUNDLE, s)) ==
            FindFirst(rows, ByTypeSite(GLOBAL_META_BUNDLE, s))
  {
    var b := GlobalBundle(w, other, map[]);
    var q := ByTypeSite(GLOBAL_META_BUNDLE, other);
    GlobalBundleShape(w, other, map[]);
    if w.validate(b) {
      match FindFirst(rows, q) {
        case Some(i) => FindFirstIgnoresUnmatched(rows, ByTypeSite(GLOBAL_META_BUNDLE, s), i, b);
        case None => FindFirstIgnoresUnmatched(rows, ByTypeSite(GLOBAL_META_BUNDLE, s), |rows|, b);
      }
    }
  }

  /** After createGlobalMetaBundles every listed site whose global bundle
      validates has exactly that bundle stored as its global row. */
  lemma {:induction false} GlobalsForSitesCovers(w: World, sites: seq<int>, rows: Rows, s: int)
    requires ConfigsTagged(w)
    requires s in sites && w.validate(GlobalBundle(w, s, map[]))
    ensures FindOne(GlobalsForSites(w, sites, rows), ByTypeSite(GLOBAL_META_BUNDLE, s)) == Some(GlobalBundle(w, s, map[]))
  {
    var next := CreateGlobal(w, sites[0], map[], rows).1;
    if sites[0] == s {
      GlobalsForSitesKeeps(w, sites[1..], next, s);
    } else {
      GlobalsForSitesCovers(w, sites[1..], next, s);
    }
  }

  lemma {:induction false} GlobalsForSitesKeeps(w: World, sites: seq<int>, rows: Rows, s: int)
    requires ConfigsTagged(w) && w.validate(GlobalBundle(w, s, map[]))
    requires FindOne(rows, ByTypeSite(GLOBAL_META_BUNDLE, s)) == Some(GlobalBundle(w, s, map[]))
    ensures FindOne(GlobalsForSites(w, sites, rows), ByTypeSite(GLOBAL_META_BUNDLE, s)) == Some(GlobalBundle(w, s, map[]))
  {
    if sites != [] {
      var next := CreateGlobal(w, sites[0], map[], rows).1;
      if sites[0] != s {
        CreateGlobalKeepsOtherSite(w, s, sites[0], rows);
      }
      GlobalsForSitesKeeps(w, sites[1..], next, s);
    }
  }

  lemma {:induction false} GlobalsForSitesKeepInvariant(w: World, sites: seq<int>, rows: Rows)
    requires ConfigsTagged(w) && StoreInvariant(rows)
    ensures StoreInvariant(GlobalsForSites(w, sites, rows))
  {
    if sites != [] {
      CreateGlobalKeepsInvariant(w, sites[0], map[], rows);
      GlobalsForSitesKeepInvariant(w, sites[1..], CreateGlobal(w, sites[0], map[], rows).1);
    }
  }

  /** createContentMetaBundleForSection / ForCategoryGroup: the source's
      bundle on every site, in site order. */
  function ContentForSites(w: World, kind: ContentKind, src: ContentSource, sites: seq<int>, rows: Rows): Rows
  {
    if sites == [] then rows
    else ContentForSites(w, kind, src, sites[1..], CreateContent(w, kind, src, sites[0], map[], rows).1)
  }

  lemma {:induction false} ContentForSitesKeepInvariant(w: World, kind: ContentKind, src: ContentSource, sites: seq<int>, rows: Rows)
    requires ConfigsTagged(w) && StoreInvariant(rows)
    ensures StoreInvariant(ContentForSites(w, kind, src, sites, rows))
  {
    if sites != [] {
      CreateContentKeepsInvariant(w, kind, src, sites[0], map[], rows);
      ContentForSitesKeepInvariant(w, kind, src, sites[1..], CreateContent(w, kind, src, sites[0], map[], rows).1);
    }
  }

  /** Creating the content bundle of one (kind, source, site) leaves the row
      of every other (type, id, site) key where the query finds it. */
  lemma CreateContentKeepsOtherKey(w: World, kind: ContentKind, src: ContentSource, site: int, rows: Rows,
                                   t: string, id: int, s: int)
    requires ConfigsTagged(w)
    requires (t, id, s) != (KindTag(kind), src.id, site)
    ensures FindFirst(CreateContent(w, kind, src, site, map[], rows).1, ByKey(t, id, s)) == FindFirst(rows, ByKey(t, id, s))
    ensures FindOne(CreateContent(w, kind, src, site, map[], rows).1, ByKey(t, id, s)) == FindOne(rows, ByKey(t, id, s))
  {
    match ContentBundle(w, kind, src, site, map[]) {
      case None =>
      case Some(b) =>
        if w.validate(b) {
          ContentBundleScope(w, kind, src, site, map[]);
          ContentBundleTagged(w, kind, src, site, map[]);
          var q := ByKey(t, id, s);
          match FindFirst(rows, ByKey(KindTag(kind), src.id, site)) {
            case Some(i) => FindFirstIgnoresUnmatched(rows, q, i, b);
            case None => FindFirstIgnoresUnmatched(rows, q, |rows|, b);
          }
        }
    }
  }

  /** The site loop for one source leaves every key it does not write alone. */
  lemma {:induction false} ContentForSitesKeeps(w: World, kind: ContentKind, src: ContentSource, sites: seq<int>,
                                                rows: Rows, t: string, id: int, s: int)
    requires ConfigsTagged(w)
    requires (t, id) != (KindTag(kind), src.id) || s !in sites
    ensures FindOne(ContentForSites(w, kind, src, sites, rows), ByKey(t, id, s)) == FindOne(rows, ByKey(t, id, s))
  {
    if sites != [] {
      CreateContentKeepsOtherKey(w, kind, src, sites[0], rows, t, id, s);
      ContentForSitesKeeps(w, kind, src, sites[1..], CreateContent(w, kind, src, sites[0], map[], rows).1, t, id, s);
    }
  }

  /** After createContentMetaBundleForSection / ForCategoryGroup, every
      listed site whose bundle is built and validates holds exactly that
      bundle under the source's (type, id, site). */
  lemma {:induction false} ContentForSitesCovers(w: World, kind: ContentKind, src: ContentSource, sites: seq<int>,
                                                 rows: Rows, s: int)
    requires ConfigsTagged(w)
    requires s in sites && ContentBundle(w, kind, src, s, map[]).Some?
    requires w.validate(ContentBundle(w, kind, src, s, map[]).value)
    ensures FindOne(ContentForSites(w, kind, src, sites, rows), ByKey(KindTag(kind), src.id, s))
            == ContentBundle(w, kind, src, s, map[])
  {
    var next := CreateContent(w, kind, src, sites[0], map[], rows).1;
    if s in sites[1..] {
      ContentForSitesCovers(w, kind, src, sites[1..], next, s);
    } else {
      CreateContentThenFind(w, kind, src, s, map[], rows);
      ContentForSitesKeeps(w, kind, src, sites[1..], next, KindTag(kind), src.id, s);
    }
  }

  /** createContentMetaBundles, for one kind: every source on every site. */
  function ContentForSources(w: World, kind: ContentKind, sources: seq<ContentSource>, rows: Rows): Rows
  {
    if sources == [] then rows
    else ContentForSources(w, kind, sources[1..], ContentForSites(w, kind, sources[0], w.sites, rows))
  }

  lemma {:induction false} ContentForSourcesKeepInvariant(w: World, kind: ContentKind, sources: seq<ContentSource>, rows: Rows)
    requires ConfigsTagged(w) && StoreInvariant(rows)
    ensures StoreInvariant(ContentForSources(w, kind, sources, rows))
  {
    if sources != [] {
      ContentForSitesKeepInvariant(w, kind, sources[0], w.sites, rows);
      ContentForSourcesKeepInvariant(w, kind, sources[1..], ContentForSites(w, kind, sources[0], w.sites, rows));
    }
  }

  /** The loop over sources leaves every key of another type, or of a source
      id not in the list, alone. */
  lemma {:induction false} ContentForSourcesKeeps(w: World, kind: ContentKind, sources: seq<ContentSource>,
                                                  rows: Rows, t: string, id: int, s: int)
    requires ConfigsTagged(w)
    requires t != KindTag(kind) || forall o :: o in sources ==> o.id != id
    ensures FindOne(ContentForSources(w, kind, sources, rows), ByKey(t, id, s)) == FindOne(rows, ByKey(t, id, s))
  {
    if sources != [] {
      ContentForSitesKeeps(w, kind, sources[0], w.sites, rows, t, id, s);
      ContentForSourcesKeeps(w, kind, sources[1..], ContentForSites(w, kind, sources[0], w.sites, rows), t, id, s);
    }
  }

  /** With distinct source ids, every source of the list ends up with its
      valid bundle stored on every site that builds one. */
  lemma {:induction false} ContentForSourcesCovers(w: World, kind: ContentKind, sources: seq<ContentSource>,
                                                   rows: Rows, src: ContentSource, s: int)
    requires ConfigsTagged(w) && DistinctIds(sources)
    requires src in sources && s in w.sites
    requires ContentBundle(w, kind, src, s, map[]).Some? && w.validate(ContentBundle(w, kind, src, s, map[]).value)
    ensures FindOne(ContentForSources(w, kind, sources, rows), ByKey(KindTag(kind), src.id, s))
            == ContentBundle(w, kind, src, s, map[])
  {
    var next := ContentForSites(w, kind, sources[0], w.sites, rows);
    if sources[0] == src {
      ContentForSitesCovers(w, kind, src, w.sites, rows, s);
      forall o | o in sources[1..] ensures o.id != src.id {
        var k :| 0 <= k < |sources[1..]| && sources[1..][k] == o;
        assert sources[k + 1] == o;
      }
      ContentForSourcesKeeps(w, kind, sources[1..], next, KindTag(kind), src.id, s);
    } else {
      assert DistinctIds(sources[1..]) by {
        forall i, j | 0 <= i < j < |sources[1..]| ensures sources[1..][i].id != sources[1..][j].id {
          assert sources[1..][i] == sources[i + 1] && sources[1..][j] == sources[j + 1];
        }
      }
      ContentForSourcesCovers(w, kind, sources[1..], next, src, s);
    }
  }

  /** createContentMetaBundles: every section on every site, then every
      category group on every site. */
  function AllContent(w: World, rows: Rows): Rows
  {
    ContentForSources(w, CategoryKind, w.categoryGroups, ContentForSources(w, SectionKind, w.sections, rows))
  }

  /** After createContentMetaBundles every section and every category group
      holds its valid bundle on every site that builds one; the category pass
      does not disturb the section rows. */
  lemma AllContentCovers(w: World, rows: Rows, kind: ContentKind, src: ContentSource, s: int)
    requires ConfigsTagged(w) && DistinctIds(SourcesOf(w, kind))
    requires src in SourcesOf(w, kind) && s in w.sites
    requires ContentBundle(w, kind, src, s, map[]).Some? && w.validate(ContentBundle(w, kind, src, s, map[]).value)
    ensures FindOne(AllContent(w, rows), ByKey(KindTag(kind), src.id, s)) == ContentBundle(w, kind, src, s, map[])
  {
    var mid := ContentForSources(w, SectionKind, w.sections, rows);
    match kind {
      case SectionKind =>
        ContentForSourcesCovers(w, SectionKind, w.sections, rows, src, s);
        ContentForSourcesKeeps(w, CategoryKind, w.categoryGroups, mid, SECTION_META_BUNDLE, src.id, s);
      case CategoryKind =>
        ContentForSourcesCovers(w, CategoryKind, w.categoryGroups, mid, src, s);
    }
  }

  lemma AllContentKeepsInvariant(w: World, rows: Rows)
    requires ConfigsTagged(w) && StoreInvariant(rows)
    ensures StoreInvariant(AllContent(w, rows))
  {
    ContentForSourcesKeepInvariant(w, SectionKind, w.sections, rows);
    ContentForSourcesKeepInvariant(w, CategoryKind, w.categoryGroups, ContentForSources(w, SectionKind, w.sections, rows));
  }

  /** updateMetaBundleById: when a row for (type, id, site) exists, rebuild
      from the row's own type tag; a global row rebuilds every site's global
      bundle. */
  function UpdateStore(w: World, t: string, id: int, siteId: int, rows: Rows): Rows
  {
    match FindOne(rows, ByKey(t, id, siteId))
    case None => rows
    case Some(row) =>
      if TypeOf(row) == GLOBAL_META_BUNDLE then GlobalsForSites(w, w.sites, rows)
      else match KindOfTag(TypeOf(row))
        case None => rows
        case Some(kind) =>
          match LookupSource(w, kind, ById(id))
          case None => rows
          case Some(src) => CreateContent(w, kind, src, siteId, map[], rows).1
  }

  /** Updating a global bundle rebuilds the global bundle of every site, not
      only of the site asked for. */
  lemma UpdateGlobalRebuildsAllSites(w: World, id: int, siteId: int, rows: Rows, s: int)
    requires ConfigsTagged(w)
    requires FindOne(rows, ByKey(GLOBAL_META_BUNDLE, id, siteId)).Some?
    requires s in w.sites && w.validate(GlobalBundle(w, s, map[]))
    ensures FindOne(UpdateStore(w, GLOBAL_META_BUNDLE, id, siteId, rows), ByTypeSite(GLOBAL_META_BUNDLE, s))
            == Some(GlobalBundle(w, s, map[]))
  {
    GlobalsForSitesCovers(w, w.sites, rows, s);
  }

  lemma UpdateKeepsInvariant(w: World, t: string, id: int, siteId: int, rows: Rows)
    requires ConfigsTagged(w) && StoreInvariant(rows)
    ensures StoreInvariant(UpdateStore(w, t, id, siteId, rows))
  {
    match FindOne(rows, ByKey(t, id, siteId)) {
      case None =>
      case Some(row) =>
        if TypeOf(row) == GLOBAL_META_BUNDLE {
          GlobalsForSitesKeepInvariant(w, w.sites, rows);
        } else if KindOfTag(TypeOf(row)).Some? {
          var kind := KindOfTag(TypeOf(row)).value;
          match LookupSource(w, kind, ById(id)) {
            case None =>
            case Some(src) => CreateContentKeepsInvariant(w, kind, src, siteId, map[], rows);
          }
        }
    }
  }
}
