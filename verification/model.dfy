/** Option type used for PHP's nullable results. */
module Wrappers {
  datatype Option<+T> = None | Some(value: T)
}

/** The entities the registry works on: bundle attribute maps, the host CMS's
    sections, category groups, site settings and elements, and the outward
    invalidation calls. */
module Model {
  import opened Wrappers
  import opened Versions

  // Bundle type tags as stored in the `sourceBundleType` column.
  const GLOBAL_META_BUNDLE: string := "__GLOBAL_BUNDLE__"
  const SECTION_META_BUNDLE: string := "section"
  const CATEGORYGROUP_META_BUNDLE: string := "categorygroup"

  /** Attribute names of a meta bundle: the ones the registry reads or
      writes, and any other setting a config file carries. */
  datatype Key =
    | BundleVersionKey
    | SourceBundleTypeKey
    | SourceIdKey
    | SourceNameKey
    | SourceHandleKey
    | SourceTypeKey
    | SourceTemplateKey
    | SourceSiteIdKey
    | SourceAltSiteSettingsKey
    | SourceDateUpdatedKey
    | SettingKey(name: string)

  /** One site's settings of a section or category group. */
  datatype SiteSetting = SiteSetting(siteId: int, hasUrls: bool, template: string)

  /** A site setting snapshot stored in `sourceAltSiteSettings`, with the
      site's language added. */
  datatype AltSiteSetting = AltSiteSetting(setting: SiteSetting, language: string)

  /** An attribute value of a bundle or a config file. Config values the
      registry never inspects (image policies and the like) are strings. */
  datatype Value =
    | IntVal(i: int)
    | StrVal(s: string)
    | VersionVal(v: Version)
    | SitesVal(sites: map<int, AltSiteSetting>)
    | DateVal(t: int)

  /** A meta bundle, a config file's contents and a stored row are all
      attribute maps. */
  type Attrs = map<Key, Value>

  /** Integer attribute, 0 when missing. */
  function IntAttr(a: Attrs, k: Key): int
  {
    if k in a && a[k].IntVal? then a[k].i else 0
  }

  /** String attribute, "" when missing. */
  function StrAttr(a: Attrs, k: Key): string
  {
    if k in a && a[k].StrVal? then a[k].s else ""
  }

  /** The bundle version; a missing version is older than every version. */
  function VersionOf(a: Attrs): Version
  {
    if BundleVersionKey in a && a[BundleVersionKey].VersionVal? then a[BundleVersionKey].v else []
  }

  function TypeOf(a: Attrs): string { StrAttr(a, SourceBundleTypeKey) }
  function SourceIdOf(a: Attrs): int { IntAttr(a, SourceIdKey) }
  function SiteIdOf(a: Attrs): int { IntAttr(a, SourceSiteIdKey) }
  function HandleOf(a: Attrs): string { StrAttr(a, SourceHandleKey) }

  predicate IsGlobal(a: Attrs) { TypeOf(a) == GLOBAL_META_BUNDLE }

  /** ArrayHelper::merge(a, b) and array_merge(a, b) on string keys: every key
      of either map, the later argument winning where both have it. */
  function Merge(a: Attrs, b: Attrs): Attrs
  {
    a + b
  }

  /** The two kinds of content source a bundle can be built from. */
  datatype ContentKind = SectionKind | CategoryKind

  /** A section or a category group: its site settings, one per site
      (`sectionType` is only meaningful for sections). */
  datatype ContentSource = ContentSource(
    id: int,
    name: string,
    handle: string,
    sectionType: string,
    siteSettings: seq<SiteSetting>)

  /** The most recently updated entry or category of a source on one site. */
  datatype ContentItem = ContentItem(dateCreated: int, dateUpdated: Option<int>)

  /** A saved element handed to invalidateMetaBundleByElement. */
  datatype Element =
    | EntryElement(sectionId: int, siteId: int, uri: string)
    | CategoryElement(groupId: int, siteId: int, uri: string)
    | OtherElement(siteId: int, uri: string)

  /** The outward calls the registry makes to the meta-container and sitemap
      services. */
  datatype Invalidation =
    | ContainerCacheById(sourceId: int)
    | ContainerCacheByPath(uri: string, siteId: int)
    | SitemapCache(handle: string, siteId: int)
    | SitemapIndexCache

  /** Everything outside the registry that it consults: the CMS's sites,
      sections and category groups, the latest element per (kind, handle,
      site), the three bundle config files, MetaBundle::validate,
      MetaValue::getSiteLanguage, the current time, and the sites on which a
      record delete throws. */
  datatype World = World(
    sites: seq<int>,
    sections: seq<ContentSource>,
    categoryGroups: seq<ContentSource>,
    latest: map<(ContentKind, string, int), ContentItem>,
    globalConfig: Attrs,
    entryConfig: Attrs,
    categoryConfig: Attrs,
    validate: Attrs -> bool,
    siteLanguage: int -> string,
    now: int,
    deleteFailures: set<int>)

  function KindTag(kind: ContentKind): string
  {
    match kind
    case SectionKind => SECTION_META_BUNDLE
    case CategoryKind => CATEGORYGROUP_META_BUNDLE
  }

  /** getConfigFromFile('entrymeta/Bundle') or ('categorymeta/Bundle'). */
  function KindConfig(w: World, kind: ContentKind): Attrs
  {
    match kind
    case SectionKind => w.entryConfig
    case CategoryKind => w.categoryConfig
  }

  /** The shipped bundle config files tag their bundles with their own kind. */
  predicate ConfigsTagged(w: World)
  {
    && SourceBundleTypeKey in w.globalConfig && w.globalConfig[SourceBundleTypeKey] == StrVal(GLOBAL_META_BUNDLE)
    && SourceBundleTypeKey in w.entryConfig && w.entryConfig[SourceBundleTypeKey] == StrVal(SECTION_META_BUNDLE)
    && SourceBundleTypeKey in w.categoryConfig && w.categoryConfig[SourceBundleTypeKey] == StrVal(CATEGORYGROUP_META_BUNDLE)
  }

  /** The CMS's sections or category groups. */
  function SourcesOf(w: World, kind: ContentKind): seq<ContentSource>
  {
    match kind
    case SectionKind => w.sections
    case CategoryKind => w.categoryGroups
  }

  /** No two sources in the list share an id, as the CMS's own ids do not. */
  predicate DistinctIds(sources: seq<ContentSource>)
  {
    forall i, j :: 0 <= i < j < |sources| ==> sources[i].id != sources[j].id
  }

  /** How a miss in the registry names its source: getSectionById /
      getGroupById, or getSectionByHandle / getGroupByHandle. */
  datatype SourceRef = ById(id: int) | ByHandle(handle: string)

  predicate RefersTo(src: ContentSource, ref: SourceRef)
  {
    match ref
    case ById(id) => src.id == id
    case ByHandle(h) => src.handle == h
  }

  /** The first source in the CMS's list that the reference names. */
  function FindSource(sources: seq<ContentSource>, ref: SourceRef): (r: Option<ContentSource>)
    ensures r.Some? ==> r.value in sources && RefersTo(r.value, ref)
    ensures r.None? ==> forall s :: s in sources ==> !RefersTo(s, ref)
  {
    if sources == [] then None
    else if RefersTo(sources[0], ref) then Some(sources[0])
    else FindSource(sources[1..], ref)
  }

  function LookupSource(w: World, kind: ContentKind, ref: SourceRef): Option<ContentSource>
  {
    FindSource(SourcesOf(w, kind), ref)
  }

  /** The content kind a type tag dispatches to; None for the global tag and
      for any tag the switch statements do not list. */
  function KindOfTag(t: string): (r: Option<ContentKind>)
    ensures r.Some? ==> KindTag(r.value) == t
    ensures r.None? ==> t != SECTION_META_BUNDLE && t != CATEGORYGROUP_META_BUNDLE
  {
    if t == SECTION_META_BUNDLE then Some(SectionKind)
    else if t == CATEGORYGROUP_META_BUNDLE then Some(CategoryKind)
    else None
  }
}
