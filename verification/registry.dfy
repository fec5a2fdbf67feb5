/** The meta-bundle registry: its process caches, the bundle table, and the
    lookups, construction, sync, invalidation, update and deletion that
    change them. */
module Registry {
  import opened Wrappers
  import opened Versions
  import opened Model
  import opened Store
  import opened Construction

  /** getMetaSourceIdFromElement: (section id, site) for an entry, (group id,
      site) for a category, (0, 0) for any other element. */
  function MetaSourceIdFromElement(e: Element): (r: (int, int))
    ensures r.0 != 0 ==> !e.OtherElement? && r.1 == e.siteId
    ensures e.OtherElement? ==> r == (0, 0)
    ensures e.EntryElement? ==> r.0 == e.sectionId
    ensures e.CategoryElement? ==> r.0 == e.groupId
  {
    match e
    case EntryElement(sectionId, siteId, _) => (sectionId, siteId)
    case CategoryElement(groupId, siteId, _) => (groupId, siteId)
    case OtherElement(_, _) => (0, 0)
  }

  /** The type tag invalidateMetaBundleByElement picks from the element's
      class: a content tag for an entry or a category, empty otherwise. */
  function ElementTypeTag(e: Element): (r: string)
    ensures KindOfTag(r).Some? <==> !e.OtherElement?
    ensures e.EntryElement? ==> KindOfTag(r) == Some(SectionKind)
    ensures e.CategoryElement? ==> KindOfTag(r) == Some(CategoryKind)
  {
    match e
    case EntryElement(_, _, _) => SECTION_META_BUNDLE
    case CategoryElement(_, _, _) => CATEGORYGROUP_META_BUNDLE
    case OtherElement(_, _) => ""
  }

  /** Number of sitemap-index invalidations in an event log. */
  function IndexCalls(es: seq<Invalidation>): nat
  {
    if es == [] then 0
    else (if es[0] == SitemapIndexCache then 1 else 0) + IndexCalls(es[1..])
  }

  lemma {:induction false} IndexCallsAppend(a: seq<Invalidation>, b: seq<Invalidation>)
    ensures IndexCalls(a + b) == IndexCalls(a) + IndexCalls(b)
  {
    if a != [] {
      assert (a + b)[0] == a[0] && (a + b)[1..] == a[1..] + b;
      IndexCallsAppend(a[1..], b);
    } else {
      assert a + b == b;
    }
  }

  /** Moving the head of what is left onto what is collected. */
  lemma AppendAssoc<T>(done: seq<T>, next: seq<T>, rest: seq<T>)
    ensures (done + next) + rest == done + (next + rest)
  {
  }

  /** The cached bundle an index entry points to. `!empty()` makes an index
      entry of 0 a miss, and so is a null bundle. */
  function Cached<K>(bundles: seq<Option<Attrs>>, index: map<K, int>, key: K): Option<Attrs>
  {
    if key in index && index[key] != 0 && 0 <= index[key] < |bundles| then bundles[index[key]]
    else None
  }

  /** The part of the registry that the lookup by id and the invalidations
      read and write: the bundle cache, its by-id index, and the table. */
  datatype IdState = IdState(bundles: seq<Option<Attrs>>, byId: map<(string, int, int), int>, rows: Rows)

  /** getMetaBundleBySourceId on a state: the bundle it returns and the state
      it leaves. */
  function LookupById(w: World, t: string, id: int, siteId: int, s: IdState): (Option<Attrs>, IdState)
  {
    var hit := Cached(s.bundles, s.byId, (t, id, siteId));
    if hit.Some? then (hit, s)
    else match FindOne(s.rows, ByKey(t, id, siteId))
      case Some(row) =>
        var (r, rows) := Sync(w, t, row, s.rows);
        (r, IdState(s.bundles + [r], s.byId[(t, id, siteId) := |s.bundles|], rows))
      case None =>
        var (r, rows) := BuildOnMiss(w, t, ById(id), siteId, s.rows);
        (r, s.(rows := rows))
  }

  /** One site of invalidateMetaBundleById, from state `before` to state
      `after`: the lookup resolves `b`; unless the source is new, a resolved
      bundle is then updated. */
  ghost predicate SiteStep(w: World, t: string, id: int, site: int, isNew: bool,
                           before: IdState, b: Option<Attrs>, after: IdState)
  {
    var (r, s1) := LookupById(w, t, id, site, before);
    b == r && after == (if b.Some? && !isNew then s1.(rows := UpdateStore(w, t, id, site, s1.rows)) else s1)
  }

  /** Site k of the loop went from `views[k]` to `views[k + 1]`, resolving
      `resolved[k]`. */
  ghost predicate StepAt(w: World, t: string, id: int, sites: seq<int>, isNew: bool,
                         views: seq<IdState>, resolved: seq<Option<Attrs>>, k: int)
  {
    0 <= k < |sites| && k < |resolved| && k + 1 < |views| &&
    SiteStep(w, t, id, sites[k], isNew, views[k], resolved[k], views[k + 1])
  }

  /** The first n sites of the loop ran one after another through `views`. */
  ghost predicate StepsHold(w: World, t: string, id: int, sites: seq<int>, isNew: bool,
                            views: seq<IdState>, resolved: seq<Option<Attrs>>, n: nat)
  {
    n <= |sites| && |resolved| == n && |views| == n + 1 &&
    forall k :: 0 <= k < n ==> StepAt(w, t, id, sites, isNew, views, resolved, k)
  }

  /** Running one more site extends the record of the loop by one step. */
  lemma StepsExtend(w: World, t: string, id: int, sites: seq<int>, isNew: bool,
                    views: seq<IdState>, resolved: seq<Option<Attrs>>, n: nat, b: Option<Attrs>, next: IdState)
    requires StepsHold(w, t, id, sites, isNew, views, resolved, n) && n < |sites|
    requires SiteStep(w, t, id, sites[n], isNew, views[n], b, next)
    ensures StepsHold(w, t, id, sites, isNew, views + [next], resolved + [b], n + 1)
  {
    forall k | 0 <= k < n + 1
      ensures StepAt(w, t, id, sites, isNew, views + [next], resolved + [b], k)
    {
      if k < n {
        assert StepAt(w, t, id, sites, isNew, views, resolved, k);
        assert (views + [next])[k + 1] == views[k + 1];
      }
    }
  }

  /** The calls one site makes: the container cache by id and the resolved
      bundle's sitemap cache, unless nothing resolved or the source is new. */
  function SiteCall(id: int, b: Option<Attrs>, isNew: bool): seq<Invalidation>
  {
    if b.Some? && !isNew then [ContainerCacheById(id), SitemapCache(HandleOf(b.value), SiteIdOf(b.value))] else []
  }

  /** The calls of the whole site loop, given what each site resolved. */
  function SiteCalls(id: int, resolved: seq<Option<Attrs>>, isNew: bool): seq<Invalidation>
  {
    if resolved == [] then [] else SiteCalls(id, resolved[..|resolved| - 1], isNew) + SiteCall(id, resolved[|resolved| - 1], isNew)
  }

  /** invalidateMetaBundleById: the site loop's calls, then the sitemap index
      once if any site invalidated something (a site that invalidates makes
      two calls, so "some site invalidated" is "the loop made a call"). */
  function InvalidateByIdCalls(id: int, resolved: seq<Option<Attrs>>, isNew: bool): seq<Invalidation>
  {
    var loop := SiteCalls(id, resolved, isNew);
    if loop == [] then [] else loop + [SitemapIndexCache]
  }

  /** The site loop calls only this source's container cache and sitemap
      caches, never the sitemap index, and makes a call exactly when the
      source is not new and some site resolved a bundle. */
  lemma {:induction false} SiteCallsShape(id: int, resolved: seq<Option<Attrs>>, isNew: bool)
    ensures IndexCalls(SiteCalls(id, resolved, isNew)) == 0
    ensures forall x :: x in SiteCalls(id, resolved, isNew) ==> x == ContainerCacheById(id) || x.SitemapCache?
    ensures SiteCalls(id, resolved, isNew) != [] <==> !isNew && exists k :: 0 <= k < |resolved| && resolved[k].Some?
  {
    if resolved != [] {
      var init := resolved[..|resolved| - 1];
      var last := SiteCall(id, resolved[|resolved| - 1], isNew);
      SiteCallsShape(id, init, isNew);
      IndexCallsAppend(SiteCalls(id, init, isNew), last);
      if last != [] {
        IndexCallsAppend([last[0]], [last[1]]);
        assert last == [last[0]] + [last[1]];
      }
      if exists k :: 0 <= k < |init| && init[k].Some? {
        var k :| 0 <= k < |init| && init[k].Some?;
        assert resolved[k] == init[k];
      }
      if exists k :: 0 <= k < |resolved| && resolved[k].Some? {
        var k :| 0 <= k < |resolved| && resolved[k].Some?;
        if k < |init| {
          assert init[k] == resolved[k];
        }
      }
    }
  }

  /** invalidateMetaBundleById invalidates the sitemap index exactly once, as
      its last call, when the source is not new and some site resolved a
      bundle, however many sites did; otherwise it makes no call at all. */
  lemma InvalidateByIdIndexOnce(id: int, resolved: seq<Option<Attrs>>, isNew: bool)
    ensures var calls := InvalidateByIdCalls(id, resolved, isNew);
      IndexCalls(calls) == (if calls == [] then 0 else 1) &&
      (calls != [] ==> calls[|calls| - 1] == SitemapIndexCache) &&
      (calls == [] <==> isNew || forall k :: 0 <= k < |resolved| ==> resolved[k].None?)
  {
    var loop := SiteCalls(id, resolved, isNew);
    SiteCallsShape(id, resolved, isNew);
    if loop != [] {
      IndexCallsAppend(loop, [SitemapIndexCache]);
    }
  }

  /** The site loop's calls, site by site: the calls of the sites so far, then
      those of the next site. */
  lemma SiteCallsAppend(id: int, resolved: seq<Option<Attrs>>, b: Option<Attrs>, isNew: bool)
    ensures SiteCalls(id, resolved + [b], isNew) == SiteCalls(id, resolved, isNew) + SiteCall(id, b, isNew)
  {
    assert (resolved + [b])[..|resolved|] == resolved;
  }

  /** Each site's calls appear in site order, each site that resolved a
      bundle contributing its container and sitemap invalidations. */
  lemma {:induction false} SiteCallsAt(id: int, resolved: seq<Option<Attrs>>, isNew: bool, k: nat)
    requires k < |resolved|
    ensures var before := SiteCalls(id, resolved[..k], isNew);
      var calls := SiteCalls(id, resolved, isNew);
      |before| + |SiteCall(id, resolved[k], isNew)| <= |calls| &&
      calls[|before|..|before| + |SiteCall(id, resolved[k], isNew)|] == SiteCall(id, resolved[k], isNew)
  {
    var n := |resolved|;
    var init := resolved[..n - 1];
    if k < n - 1 {
      assert init[..k] == resolved[..k] && init[k] == resolved[k];
      SiteCallsAt(id, init, isNew, k);
    } else {
      assert resolved[..k] == init;
    }
  }

  /** A site step keeps the table invariant. */
  lemma SiteStepKeepsInvariant(w: World, t: string, id: int, site: int, isNew: bool,
                               before: IdState, b: Option<Attrs>, after: IdState)
    requires ConfigsTagged(w) && StoreInvariant(before.rows)
    requires SiteStep(w, t, id, site, isNew, before, b, after)
    ensures StoreInvariant(after.rows)
  {
    var s1 := LookupById(w, t, id, site, before).1;
    LookupByIdKeepsInvariant(w, t, id, site, before);
    UpdateKeepsInvariant(w, t, id, site, s1.rows);
  }

  /** The lookup keeps the table invariant. */
  lemma LookupByIdKeepsInvariant(w: World, t: string, id: int, siteId: int, s: IdState)
    requires ConfigsTagged(w) && StoreInvariant(s.rows)
    ensures StoreInvariant(LookupById(w, t, id, siteId, s).1.rows)
  {
    match FindOne(s.rows, ByKey(t, id, siteId)) {
      case Some(row) => SyncKeepsInvariant(w, t, row, s.rows);
      case None => BuildOnMissKeepsInvariant(w, t, ById(id), siteId, s.rows);
    }
  }

  /** invalidateMetaBundleByElement: for a saved entry or category that is
      not new, invalidate the container cache by path, update the bundle,
      resolve it again and invalidate its sitemap cache if it resolves, then
      invalidate the sitemap index. */
  function InvalidateElement(w: World, element: Option<Element>, isNew: bool, s: IdState)
    : (seq<Invalidation>, IdState)
  {
    if element.None? || isNew then ([], s)
    else
      var e := element.value;
      var (sourceId, siteId) := MetaSourceIdFromElement(e);
      if sourceId == 0 then ([], s)
      else
        var (_, calls, s1) := RefreshSource(w, ElementTypeTag(e), sourceId, siteId, e.uri, s);
        (calls + [SitemapIndexCache], s1)
  }

  /** The part of invalidateMetaBundleByElement that names the source:
      invalidate the container cache by path, update the bundle, resolve it
      again and invalidate its sitemap cache if it resolves. Also returns the
      bundle resolved. */
  function RefreshSource(w: World, t: string, sourceId: int, siteId: int, uri: string, s: IdState)
    : (Option<Attrs>, seq<Invalidation>, IdState)
  {
    var (b, s1) := LookupById(w, t, sourceId, siteId, s.(rows := UpdateStore(w, t, sourceId, siteId, s.rows)));
    (b, [ContainerCacheByPath(uri, siteId)] +
        (if b.Some? then [SitemapCache(HandleOf(b.value), SiteIdOf(b.value))] else []), s1)
  }

  /** invalidateMetaBundleByElement makes no call and changes nothing for a
      null element, a new one, or one without a source. Otherwise it first
      invalidates the container cache by the element's path and site, then
      the sitemap cache of the bundle the lookup resolves after the update
      (exactly when it resolves one), and last the sitemap index, once. */
  lemma InvalidateElementCalls(w: World, element: Option<Element>, isNew: bool, s: IdState)
    ensures var (calls, s') := InvalidateElement(w, element, isNew, s);
      (calls == [] <==> element.None? || isNew || MetaSourceIdFromElement(element.value).0 == 0) &&
      (calls == [] ==> s' == s)
    ensures var calls := InvalidateElement(w, element, isNew, s).0;
      calls != [] ==>
        var e := element.value;
        var t := ElementTypeTag(e);
        var sourceId := MetaSourceIdFromElement(e).0;
        var b := LookupById(w, t, sourceId, e.siteId, s.(rows := UpdateStore(w, t, sourceId, e.siteId, s.rows))).0;
        calls[0] == ContainerCacheByPath(e.uri, e.siteId) &&
        calls[|calls| - 1] == SitemapIndexCache && IndexCalls(calls) == 1 &&
        (|calls| == 3 <==> b.Some?) && |calls| >= 2 &&
        (b.Some? ==> calls[1] == SitemapCache(HandleOf(b.value), SiteIdOf(b.value)))
  {
    var calls := InvalidateElement(w, element, isNew, s).0;
    if calls != [] {
      IndexCallsAppend(calls[..|calls| - 1], [SitemapIndexCache]);
      assert calls == calls[..|calls| - 1] + [SitemapIndexCache];
      IndexCallsAppend([calls[0]], calls[1..|calls| - 1]);
      assert calls[..|calls| - 1] == [calls[0]] + calls[1..|calls| - 1];
    }
  }

  class MetaBundles {
    /** Bundles loaded from the table, indexed by surrogate id (append-only). */
    var metaBundles: seq<Option<Attrs>>
    /** [type][sourceId][siteId] = id */
    var metaBundlesBySourceId: map<(string, int, int), int>
    /** [type][sourceHandle][siteId] = id */
    var metaBundlesBySourceHandle: map<(string, string, int), int>
    /** [siteId] = global bundle */
    var globalMetaBundles: map<int, Attrs>
    /** The `seomatic_metabundles` table. */
    var store: Rows
    /** Calls made to the meta-container and sitemap services, in order. */
    var events: seq<Invalidation>

    ghost predicate Valid()
      reads this
    {
      && (forall k :: k in metaBundlesBySourceId ==> 0 <= metaBundlesBySourceId[k] < |metaBundles|)
      && (forall k :: k in metaBundlesBySourceHandle ==> 0 <= metaBundlesBySourceHandle[k] < |metaBundles|)
      && StoreInvariant(store)
    }

    /** A registry for one request, over the table as it stands. */
    constructor (rows: Rows)
      requires StoreInvariant(rows)
      ensures Valid()
      ensures store == rows && events == []
      ensures metaBundles == [] && metaBundlesBySourceId == map[] && metaBundlesBySourceHandle == map[]
      ensures globalMetaBundles == map[]
    {
      metaBundles := [];
      metaBundlesBySourceId := map[];
      metaBundlesBySourceHandle := map[];
      globalMetaBundles := map[];
      store := rows;
      events := [];
    }

    /** The part of the registry the lookup by id and the invalidations touch. */
    function IdView(): IdState
      reads this
    {
      IdState(metaBundles, metaBundlesBySourceId, store)
    }

    /** getGlobalMetaBundle: the cached global bundle of the site, else the
        stored one (synced with the config file), else a new one; always
        cached before it is returned. */
    method GetGlobalMetaBundle(w: World, siteId: int) returns (b: Attrs)
      requires Valid() && ConfigsTagged(w)
      modifies this
      ensures Valid()
      ensures metaBundles == old(metaBundles) && events == old(events)
      ensures metaBundlesBySourceId == old(metaBundlesBySourceId)
      ensures metaBundlesBySourceHandle == old(metaBundlesBySourceHandle)
      ensures globalMetaBundles == old(globalMetaBundles)[siteId := b]
      ensures siteId in old(globalMetaBundles) ==> b == old(globalMetaBundles)[siteId] && store == old(store)
      ensures siteId !in old(globalMetaBundles) ==>
        var found := FindOne(old(store), ByTypeSite(GLOBAL_META_BUNDLE, siteId));
        if found.Some? then (Some(b), store) == Sync(w, GLOBAL_META_BUNDLE, found.value, old(store))
        else (b, store) == CreateGlobal(w, siteId, map[], old(store))
      ensures siteId !in old(globalMetaBundles) && FindOne(old(store), ByTypeSite(GLOBAL_META_BUNDLE, siteId)).None? ==>
        IsGlobal(b) && SiteIdOf(b) == siteId
    {
      if siteId in globalMetaBundles {
        return globalMetaBundles[siteId];
      }
      var found := FindOne(store, ByTypeSite(GLOBAL_META_BUNDLE, siteId));
      if found.Some? {
        var synced := SyncBundleWithConfig(w, GLOBAL_META_BUNDLE, found.value);
        b := synced.value;
      } else {
        b := CreateGlobalMetaBundleForSite(w, siteId, map[]);
        GlobalBundleShape(w, siteId, map[]);
      }
      globalMetaBundles := globalMetaBundles[siteId := b];
    }

    /** getMetaBundleBySourceId: a cache hit; else the stored row for (type,
        id, site), synced with the config file and cached under a new id;
        else a bundle built from the source, not cached. */
    method GetMetaBundleBySourceId(w: World, t: string, id: int, siteId: int) returns (r: Option<Attrs>)
      requires Valid() && ConfigsTagged(w)
      modifies this
      ensures Valid()
      ensures globalMetaBundles == old(globalMetaBundles) && events == old(events)
      ensures metaBundlesBySourceHandle == old(metaBundlesBySourceHandle)
      ensures old(metaBundles) <= metaBundles
      ensures var hit := old(Cached(metaBundles, metaBundlesBySourceId, (t, id, siteId)));
        hit.Some? ==>
          r == hit && store == old(store) && metaBundles == old(metaBundles) &&
          metaBundlesBySourceId == old(metaBundlesBySourceId)
      ensures var hit := old(Cached(metaBundles, metaBundlesBySourceId, (t, id, siteId)));
        var found := FindOne(old(store), ByKey(t, id, siteId));
        hit.None? && found.Some? ==>
          (r, store) == Sync(w, t, found.value, old(store)) &&
          metaBundles == old(metaBundles) + [r] &&
          metaBundlesBySourceId == old(metaBundlesBySourceId)[(t, id, siteId) := |old(metaBundles)|] &&
          Cached(metaBundles, metaBundlesBySourceId, (t, id, siteId)) == (if old(metaBundles) == [] then None else r)
      ensures var hit := old(Cached(metaBundles, metaBundlesBySourceId, (t, id, siteId)));
        var found := FindOne(old(store), ByKey(t, id, siteId));
        hit.None? && found.None? ==>
          (r, store) == BuildOnMiss(w, t, ById(id), siteId, old(store)) &&
          metaBundles == old(metaBundles) && metaBundlesBySourceId == old(metaBundlesBySourceId)
    {
      var key := (t, id, siteId);
      var hit := Cached(metaBundles, metaBundlesBySourceId, key);
      if hit.Some? {
        return hit;
      }
      var found := FindOne(store, ByKey(t, id, siteId));
      if found.Some? {
        r := SyncBundleWithConfig(w, t, found.value);
        var newId := |metaBundles|;
        metaBundles := metaBundles + [r];
        metaBundlesBySourceId := metaBundlesBySourceId[key := newId];
      } else {
        r := BuildOnMissing(w, t, ById(id), siteId);
      }
    }

    /** getMetaBundleBySourceHandle: like the lookup by id, but the table is
        searched by handle and site only (any type), and the row is cached
        without a config sync. */
    method GetMetaBundleBySourceHandle(w: World, t: string, handle: string, siteId: int) returns (r: Option<Attrs>)
      requires Valid() && ConfigsTagged(w)
      modifies this
      ensures Valid()
      ensures globalMetaBundles == old(globalMetaBundles) && events == old(events)
      ensures metaBundlesBySourceId == old(metaBundlesBySourceId)
      ensures old(metaBundles) <= metaBundles
      ensures var hit := old(Cached(metaBundles, metaBundlesBySourceHandle, (t, handle, siteId)));
        hit.Some? ==>
          r == hit && store == old(store) && metaBundles == old(metaBundles) &&
          metaBundlesBySourceHandle == old(metaBundlesBySourceHandle)
      ensures var hit := old(Cached(metaBundles, metaBundlesBySourceHandle, (t, handle, siteId)));
        var found := FindOne(old(store), ByHandleSite(handle, siteId));
        hit.None? && found.Some? ==>
          r == found && store == old(store) &&
          metaBundles == old(metaBundles) + [r] &&
          metaBundlesBySourceHandle == old(metaBundlesBySourceHandle)[(t, handle, siteId) := |old(metaBundles)|] &&
          Cached(metaBundles, metaBundlesBySourceHandle, (t, handle, siteId)) == (if old(metaBundles) == [] then None else r)
      ensures var hit := old(Cached(metaBundles, metaBundlesBySourceHandle, (t, handle, siteId)));
        var found := FindOne(old(store), ByHandleSite(handle, siteId));
        hit.None? && found.None? ==>
          (r, store) == BuildOnMiss(w, t, ByHandle(handle), siteId, old(store)) &&
          metaBundles == old(metaBundles) && metaBundlesBySourceHandle == old(metaBundlesBySourceHandle)
    {
      var key := (t, handle, siteId);
      var hit := Cached(metaBundles, metaBundlesBySourceHandle, key);
      if hit.Some? {
        return hit;
      }
      var found := FindOne(store, ByHandleSite(handle, siteId));
      if found.Some? {
        r := found;
        var newId := |metaBundles|;
        metaBundles := metaBundles + [r];
        metaBundlesBySourceHandle := metaBundlesBySourceHandle[key := newId];
      } else {
        r := BuildOnMissing(w, t, ByHandle(handle), siteId);
      }
    }

    /** The switch of both lookups' miss branch. */
    method BuildOnMissing(w: World, t: string, ref: SourceRef, siteId: int) returns (r: Option<Attrs>)
      requires Valid() && ConfigsTagged(w)
      modifies this`store
      ensures Valid()
      ensures (r, store) == BuildOnMiss(w, t, ref, siteId, old(store))
    {
      r := None;
      if t == SECTION_META_BUNDLE {
        var section := LookupSource(w, SectionKind, ref);
        if section.Some? {
          r := CreateMetaBundleFromSource(w, SectionKind, section.value, siteId, map[]);
        }
      } else if t == CATEGORYGROUP_META_BUNDLE {
        var category := LookupSource(w, CategoryKind, ref);
        if category.Some? {
          r := CreateMetaBundleFromSource(w, CategoryKind, category.value, siteId, map[]);
        }
      }
    }

    /** getMetaBundleBySourceId as the invalidation methods use it: the bundle
        and the new state are those of the lookup function, and the lookup
        touches no service. */
    method ResolveBySourceId(w: World, t: string, id: int, siteId: int) returns (r: Option<Attrs>)
      requires Valid() && ConfigsTagged(w)
      modifies this
      ensures Valid()
      ensures globalMetaBundles == old(globalMetaBundles) && events == old(events)
      ensures metaBundlesBySourceHandle == old(metaBundlesBySourceHandle)
      ensures (r, IdView()) == LookupById(w, t, id, siteId, old(IdView()))
    {
      r := GetMetaBundleBySourceId(w, t, id, siteId);
    }

    /** The loop body of invalidateMetaBundleById for one site: resolve the
        bundle and, unless the source is new, invalidate its container and
        sitemap caches and update it. */
    method InvalidateOnSite(w: World, t: string, id: int, site: int, isNew: bool)
      returns (b: Option<Attrs>, hit: bool, calls: seq<Invalidation>)
      requires Valid() && ConfigsTagged(w)
      modifies this
      ensures Valid()
      ensures globalMetaBundles == old(globalMetaBundles)
      ensures metaBundlesBySourceHandle == old(metaBundlesBySourceHandle)
      ensures SiteStep(w, t, id, site, isNew, old(IdView()), b, IdView())
      ensures b == LookupById(w, t, id, site, old(IdView())).0
      ensures hit <==> !isNew && b.Some?
      ensures hit ==> calls == [ContainerCacheById(id), SitemapCache(HandleOf(b.value), SiteIdOf(b.value))]
      ensures !hit ==> calls == []
      ensures events == old(events) + calls
    {
      hit := false;
      calls := [];
      b := ResolveBySourceId(w, t, id, site);
      if b.Some? {
        if !isNew {
          hit := true;
          calls := [ContainerCacheById(id), SitemapCache(HandleOf(b.value), SiteIdOf(b.value))];
          events := events + calls;
          UpdateMetaBundleById(w, t, id, site);
        }
      }
    }

    /** Site `i` of invalidateMetaBundleById's loop, recorded as one more
        step of `views` and `resolved`. */
    method InvalidateNextSite(w: World, t: string, id: int, isNew: bool, i: nat,
                              ghost views: seq<IdState>, ghost resolved: seq<Option<Attrs>>)
      returns (b: Option<Attrs>, hit: bool)
      requires Valid() && ConfigsTagged(w)
      requires i < |w.sites| && StepsHold(w, t, id, w.sites, isNew, views, resolved, i) && views[i] == IdView()
      modifies this
      ensures Valid()
      ensures globalMetaBundles == old(globalMetaBundles)
      ensures metaBundlesBySourceHandle == old(metaBundlesBySourceHandle)
      ensures StepsHold(w, t, id, w.sites, isNew, views + [IdView()], resolved + [b], i + 1)
      ensures hit <==> !isNew && b.Some?
      ensures events == old(events) + SiteCall(id, b, isNew)
    {
      var calls;
      b, hit, calls := InvalidateOnSite(w, t, id, w.sites[i], isNew);
      StepsExtend(w, t, id, w.sites, isNew, views, resolved, i, b, IdView());
    }

    /** invalidateMetaBundleById: for every site whose bundle resolves, unless
        the source is new, invalidate the container and sitemap caches and
        update the bundle; then invalidate the sitemap index at most once.
        `resolved` holds what each site resolved and `views` the lookup state
        before each site and after the last. */
    method InvalidateMetaBundleById(w: World, t: string, id: int, isNew: bool)
      returns (ghost resolved: seq<Option<Attrs>>, ghost views: seq<IdState>)
      requires Valid() && ConfigsTagged(w)
      modifies this
      ensures Valid()
      ensures globalMetaBundles == old(globalMetaBundles)
      ensures metaBundlesBySourceHandle == old(metaBundlesBySourceHandle)
      ensures StepsHold(w, t, id, w.sites, isNew, views, resolved, |w.sites|)
      ensures views[0] == old(IdView()) && views[|w.sites|] == IdView()
      ensures events == old(events) + InvalidateByIdCalls(id, resolved, isNew)
    {
      var invalidated := false;
      resolved, views := [], [IdView()];
      var i := 0;
      while i < |w.sites|
        invariant 0 <= i <= |w.sites|
        invariant Valid()
        invariant globalMetaBundles == old(globalMetaBundles)
        invariant metaBundlesBySourceHandle == old(metaBundlesBySourceHandle)
        invariant StepsHold(w, t, id, w.sites, isNew, views, resolved, i)
        invariant views[0] == old(IdView()) && views[i] == IdView()
        invariant events == old(events) + SiteCalls(id, resolved, isNew)
        invariant invalidated <==> !isNew && exists k :: 0 <= k < i && resolved[k].Some?
      {
        var b, hit := InvalidateNextSite(w, t, id, isNew, i, views, resolved);
        SiteCallsAppend(id, resolved, b, isNew);
        resolved, views := resolved + [b], views + [IdView()];
        invalidated := invalidated || hit;
        i := i + 1;
      }
      SiteCallsShape(id, resolved, isNew);
      if invalidated {
        events := events + [SitemapIndexCache];
      }
    }

    /** The body of invalidateMetaBundleByElement once the element names a
        source: invalidate the container cache by path, update the bundle,
        and invalidate its sitemap cache when the bundle then resolves. */
    method InvalidateElementSource(w: World, t: string, sourceId: int, siteId: int, uri: string)
      returns (b: Option<Attrs>, calls: seq<Invalidation>)
      requires Valid() && ConfigsTagged(w)
      modifies this
      ensures Valid()
      ensures globalMetaBundles == old(globalMetaBundles)
      ensures metaBundlesBySourceHandle == old(metaBundlesBySourceHandle)
      ensures events == old(events) + calls
      ensures calls == [ContainerCacheByPath(uri, siteId)] +
        (if b.Some? then [SitemapCache(HandleOf(b.value), SiteIdOf(b.value))] else [])
      ensures (b, calls, IdView()) == RefreshSource(w, t, sourceId, siteId, uri, old(IdView()))
    {
      // The update and the lookup touch no service, so logging the calls
      // after them keeps the order in which the services see them.
      UpdateMetaBundleById(w, t, sourceId, siteId);
      b := ResolveBySourceId(w, t, sourceId, siteId);
      calls := [ContainerCacheByPath(uri, siteId)];
      if b.Some? {
        calls := calls + [SitemapCache(HandleOf(b.value), SiteIdOf(b.value))];
      }
      events := events + calls;
    }

    /** invalidateMetaBundleByElement: for a saved entry or category that is
        not new, invalidate the container cache by path, update its bundle,
        invalidate its sitemap cache when the bundle resolves, and then the
        sitemap index once. */
    method InvalidateMetaBundleByElement(w: World, element: Option<Element>, isNew: bool)
      requires Valid() && ConfigsTagged(w)
      modifies this
      ensures Valid()
      ensures globalMetaBundles == old(globalMetaBundles)
      ensures metaBundlesBySourceHandle == old(metaBundlesBySourceHandle)
      ensures old(events) <= events
      ensures (events[|old(events)|..], IdView()) == InvalidateElement(w, element, isNew, old(IdView()))
    {
      if element.Some? {
        var e := element.value;
        var ids := MetaSourceIdFromElement(e);
        if ids.0 != 0 && !isNew {
          var _, calls := InvalidateElementSource(w, ElementTypeTag(e), ids.0, ids.1, e.uri);
          events := events + [SitemapIndexCache];
        }
      }
      assert events[|old(events)|..] == InvalidateElement(w, element, isNew, old(IdView())).0;
    }

    /** updateMetaBundleById: rebuild the stored bundle for (type, id, site)
        from its source; a global bundle rebuilds every site's. */
    method UpdateMetaBundleById(w: World, t: string, id: int, siteId: int)
      requires Valid() && ConfigsTagged(w)
      modifies this`store
      ensures Valid()
      ensures store == UpdateStore(w, t, id, siteId, old(store))
    {
      var row := FindOne(store, ByKey(t, id, siteId));
      if row.Some? {
        var tag := TypeOf(row.value);
        if tag == GLOBAL_META_BUNDLE {
          CreateGlobalMetaBundles(w);
        } else if tag == SECTION_META_BUNDLE {
          var section := LookupSource(w, SectionKind, ById(id));
          if section.Some? {
            var _ := CreateMetaBundleFromSource(w, SectionKind, section.value, siteId, map[]);
          }
        } else if tag == CATEGORYGROUP_META_BUNDLE {
          var category := LookupSource(w, CategoryKind, ById(id));
          if category.Some? {
            var _ := CreateMetaBundleFromSource(w, CategoryKind, category.value, siteId, map[]);
          }
        }
      }
    }

    /** deleteMetaBundleBySourceId: delete the row for (type, id, site) on
        every site; a delete that throws is logged and the loop goes on. */
    method DeleteMetaBundleBySourceId(w: World, t: string, id: int)
      requires Valid()
      modifies this`store
      ensures Valid()
      ensures store == DeleteOnSites(w, t, id, w.sites, old(store))
      ensures forall s :: s in w.sites && s !in w.deleteFailures ==> FindFirst(store, ByKey(t, id, s)).None?
    {
      var i := 0;
      while i < |w.sites|
        invariant 0 <= i <= |w.sites|
        invariant StoreInvariant(store)
        invariant DeleteOnSites(w, t, id, w.sites[i..], store) == DeleteOnSites(w, t, id, w.sites, old(store))
      {
        var site := w.sites[i];
        var found := FindFirst(store, ByKey(t, id, site));
        if found.Some? {
          if site !in w.deleteFailures {
            RemoveKeepsInvariant(store, found.value);
            store := RemoveAt(store, found.value);
          }
        }
        assert w.sites[i..][1..] == w.sites[i + 1..];
        i := i + 1;
      }
      forall s | s in w.sites && s !in w.deleteFailures
        ensures FindFirst(store, ByKey(t, id, s)).None?
      {
        DeleteOnSitesClears(w, t, id, w.sites, old(store), s);
      }
    }

    /** createContentMetaBundleForSection / ForCategoryGroup: build the
        source's bundle on every site. */
    method CreateContentMetaBundleForSource(w: World, kind: ContentKind, src: ContentSource)
      requires Valid() && ConfigsTagged(w)
      modifies this`store
      ensures Valid()
      ensures store == ContentForSites(w, kind, src, w.sites, old(store))
      ensures forall s :: s in w.sites && ContentBundle(w, kind, src, s, map[]).Some? &&
                          w.validate(ContentBundle(w, kind, src, s, map[]).value) ==>
                FindOne(store, ByKey(KindTag(kind), src.id, s)) == ContentBundle(w, kind, src, s, map[])
    {
      var i := 0;
      while i < |w.sites|
        invariant 0 <= i <= |w.sites|
        invariant Valid()
        invariant ContentForSites(w, kind, src, w.sites[i..], store) == ContentForSites(w, kind, src, w.sites, old(store))
      {
        var _ := CreateMetaBundleFromSource(w, kind, src, w.sites[i], map[]);
        assert w.sites[i..][1..] == w.sites[i + 1..];
        i := i + 1;
      }
      forall s | s in w.sites && ContentBundle(w, kind, src, s, map[]).Some? &&
                 w.validate(ContentBundle(w, kind, src, s, map[]).value)
        ensures FindOne(store, ByKey(KindTag(kind), src.id, s)) == ContentBundle(w, kind, src, s, map[])
      {
        ContentForSitesCovers(w, kind, src, w.sites, old(store), s);
      }
    }

    /** createContentMetaBundles: every section, then every category group. */
    method CreateContentMetaBundles(w: World)
      requires Valid() && ConfigsTagged(w)
      modifies this`store
      ensures Valid()
      ensures store == AllContent(w, old(store))
      ensures forall kind, src, s :: DistinctIds(SourcesOf(w, kind)) && src in SourcesOf(w, kind) && s in w.sites &&
                                     ContentBundle(w, kind, src, s, map[]).Some? &&
                                     w.validate(ContentBundle(w, kind, src, s, map[]).value) ==>
                FindOne(store, ByKey(KindTag(kind), src.id, s)) == ContentBundle(w, kind, src, s, map[])
    {
      var i := 0;
      while i < |w.sections|
        invariant 0 <= i <= |w.sections|
        invariant Valid()
        invariant ContentForSources(w, SectionKind, w.sections[i..], store) ==
                  ContentForSources(w, SectionKind, w.sections, old(store))
      {
        CreateContentMetaBundleForSource(w, SectionKind, w.sections[i]);
        assert w.sections[i..][1..] == w.sections[i + 1..];
        i := i + 1;
      }
      ghost var afterSections := store;
      var j := 0;
      while j < |w.categoryGroups|
        invariant 0 <= j <= |w.categoryGroups|
        invariant Valid()
        invariant ContentForSources(w, CategoryKind, w.categoryGroups[j..], store) ==
                  ContentForSources(w, CategoryKind, w.categoryGroups, afterSections)
      {
        CreateContentMetaBundleForSource(w, CategoryKind, w.categoryGroups[j]);
        assert w.categoryGroups[j..][1..] == w.categoryGroups[j + 1..];
        j := j + 1;
      }
      forall kind, src, s | DistinctIds(SourcesOf(w, kind)) && src in SourcesOf(w, kind) && s in w.sites &&
                            ContentBundle(w, kind, src, s, map[]).Some? &&
                            w.validate(ContentBundle(w, kind, src, s, map[]).value)
        ensures FindOne(store, ByKey(KindTag(kind), src.id, s)) == ContentBundle(w, kind, src, s, map[])
      {
        AllContentCovers(w, old(store), kind, src, s);
      }
    }

    /** createGlobalMetaBundles: build the global bundle of every site. */
    method CreateGlobalMetaBundles(w: World)
      requires Valid() && ConfigsTagged(w)
      modifies this`store
      ensures Valid()
      ensures store == GlobalsForSites(w, w.sites, old(store))
    {
      var i := 0;
      while i < |w.sites|
        invariant 0 <= i <= |w.sites|
        invariant Valid()
        invariant GlobalsForSites(w, w.sites[i..], store) == GlobalsForSites(w, w.sites, old(store))
      {
        var _ := CreateGlobalMetaBundleForSite(w, w.sites[i], map[]);
        assert w.sites[i..][1..] == w.sites[i + 1..];
        i := i + 1;
      }
    }

    /** getContentMetaBundles: the non-global rows in table order, only the
        first per handle unless all sites are asked for. */
    method GetContentMetaBundles(allSites: bool) returns (bundles: Rows)
      ensures bundles == ContentListing(store, allSites, {})
      ensures forall b :: b in bundles ==> b in store && !IsGlobal(b)
      ensures allSites ==> bundles == NonGlobal(store)
      ensures !allSites ==> forall i, j :: 0 <= i < j < |bundles| ==> HandleOf(bundles[i]) != HandleOf(bundles[j])
      ensures !allSites ==> forall b :: b in bundles ==> FirstOfHandle(store, HandleOf(b)) == Some(b)
      ensures !allSites ==> forall x :: x in store && !IsGlobal(x) ==> exists b :: b in bundles && HandleOf(b) == HandleOf(x)
      ensures Subsequence(bundles, NonGlobal(store))
    {
      bundles := [];
      var handles: seq<string> := [];
      ghost var seen: set<string> := {};
      var i := 0;
      while i < |store|
        invariant 0 <= i <= |store|
        invariant forall h :: h in handles <==> h in seen
        invariant allSites ==> seen == {}
        invariant bundles + ContentListing(store[i..], allSites, seen) == ContentListing(store, allSites, {})
      {
        var row := store[i];
        ghost var seen0 := seen;
        assert store[i..][0] == row && store[i..][1..] == store[i + 1..];
        if !IsGlobal(row) {
          var add := true;
          if !allSites {
            if HandleOf(row) in handles {
              add := false;
              assert seen + {HandleOf(row)} == seen;
            }
            handles := handles + [HandleOf(row)];
            seen := seen + {HandleOf(row)};
          }
          if add {
            AppendAssoc(bundles, [row], ContentListing(store[i + 1..], allSites, seen));
            bundles := bundles + [row];
          }
        }
        i := i + 1;
      }
      assert store[i..] == [];
      ListingFromRows(store, allSites, {});
      if allSites {
        ListingAllSites(store, {});
      } else {
        ListingDistinctHandles(store, {});
        forall b | b in bundles ensures FirstOfHandle(store, HandleOf(b)) == Some(b) {
          ListingKeepsFirst(store, {}, b);
        }
        forall x | x in store && !IsGlobal(x) ensures exists b :: b in bundles && HandleOf(b) == HandleOf(x) {
          ListingCoversHandles(store, {}, x);
        }
      }
      ListingSubsequence(store, allSites, {});
    }

    /** syncBundleWithConfig: rebuild the bundle with its own attributes as the
        base config when the config file's bundleVersion is strictly newer. */
    method SyncBundleWithConfig(w: World, t: string, b: Attrs) returns (r: Option<Attrs>)
      requires Valid() && ConfigsTagged(w)
      modifies this`store
      ensures Valid()
      ensures (r, store) == Sync(w, t, b, old(store))
      ensures t == GLOBAL_META_BUNDLE ==> r.Some?
    {
      var config := SyncConfig(w, t);
      r := Some(b);
      if config != map[] && Newer(VersionOf(config), VersionOf(b)) {
        if t == GLOBAL_META_BUNDLE {
          var g := CreateGlobalMetaBundleForSite(w, SiteIdOf(b), b);
          r := Some(g);
        } else if t == CATEGORYGROUP_META_BUNDLE {
          var category := LookupSource(w, CategoryKind, ById(SourceIdOf(b)));
          r := None;
          if category.Some? {
            r := CreateMetaBundleFromSource(w, CategoryKind, category.value, SiteIdOf(b), b);
          }
        } else if t == SECTION_META_BUNDLE {
          var section := LookupSource(w, SectionKind, ById(SourceIdOf(b)));
          r := None;
          if section.Some? {
            r := CreateMetaBundleFromSource(w, SectionKind, section.value, SiteIdOf(b), b);
          }
        }
      }
    }

    /** createGlobalMetaBundleForSite: merge the base config under the global
        defaults and the site id; save by (global, site) only if it validates;
        return the bundle either way. */
    method CreateGlobalMetaBundleForSite(w: World, siteId: int, base: Attrs) returns (b: Attrs)
      requires Valid() && ConfigsTagged(w)
      modifies this`store
      ensures Valid()
      ensures (b, store) == CreateGlobal(w, siteId, base, old(store))
    {
      var defaults := Merge(w.globalConfig, map[SourceSiteIdKey := IntVal(siteId)]);
      b := Merge(base, defaults);
      CreateGlobalKeepsInvariant(w, siteId, base, store);
      if w.validate(b) {
        var found := FindFirst(store, ByTypeSite(GLOBAL_META_BUNDLE, siteId));
        if found.Some? {
          store := store[found.value := b];
        } else {
          store := store + [b];
        }
      }
    }

    /** createMetaBundleFromSection / createMetaBundleFromCategory: null
        unless the target site has URL-enabled settings; otherwise merge the
        base config under the defaults and source fields, save by (type,
        source, site) only if it validates, and return the bundle either way. */
    method CreateMetaBundleFromSource(w: World, kind: ContentKind, src: ContentSource, siteId: int, base: Attrs)
      returns (r: Option<Attrs>)
      requires Valid() && ConfigsTagged(w)
      modifies this`store
      ensures Valid()
      ensures (r, store) == CreateContent(w, kind, src, siteId, base, old(store))
    {
      r := None;
      CreateContentKeepsInvariant(w, kind, src, siteId, base, store);
      var setting := SettingFor(src.siteSettings, siteId);
      if setting.Some? {
        var alt := BuildAltSiteSettings(src.siteSettings, w.siteLanguage);
        if setting.value.hasUrls {
          var date := DateUpdated(LatestItem(w, kind, src.handle, setting.value.siteId), w.now);
          var defaults := Merge(KindConfig(w, kind), SourceFields(kind, src, setting.value, alt, date));
          var b := Merge(base, defaults);
          if w.validate(b) {
            var found := FindFirst(store, ByKey(KindTag(kind), SourceIdOf(b), SiteIdOf(b)));
            if found.Some? {
              store := store[found.value := b];
            } else {
              store := store + [b];
            }
          }
          r := Some(b);
        }
      }
    }
  }
}
