# SEOmatic meta-bundle registry in Dafny

This project models the meta-bundle registry of the SEOmatic plugin for Craft
CMS: the `MetaBundles` service in `src/services/MetaBundles.php`. A meta bundle
is the per-site bundle of SEO settings that belongs to a source. The source is
either the site itself (the global bundle), a section, or a category group.
The registry finds bundles through four per-request caches. On a cache miss it
falls back to the `seomatic_metabundles` table. When the table has no row, it
builds the bundle from the source and saves it.

When a stored bundle's `bundleVersion` is older than the version in the shipped
config file, the registry rebuilds it. When sources or elements are saved, it
invalidates the downstream meta-container and sitemap caches. It also updates,
deletes and lists the stored bundles.

The model has five modules:

- `Versions` (versions.dfy): dotted numeric bundle versions. The module defines
  the `version_compare(..., '>')` order and proves that it is a strict total
  order.
- `Model` (model.dfy): bundles as attribute maps, plus the CMS entities the
  registry reads: sections, category groups, site settings and elements.
  `World` gathers everything outside the registry: the sites, sources, config
  files, validator, site languages, latest elements, the clock, and the sites
  where a delete throws.
- `Store` (store.dfy): the bundle table as a sequence of rows in table order.
  The module covers the `one()` query, the `findOne`/save upsert, per-site
  deletion, the content listing, and the table invariant: one row per (type,
  source, site) and one global row per site.
- `Construction` (construction.dfy): the construction, sync, update and
  bulk-creation routines, written as functions of the world and the table.
- `Registry` (registry.dfy): the `MetaBundles` class. It holds the cache fields,
  the table and a log of outward invalidation calls. Its methods update these
  fields in place and are proved against the `Construction` functions.

Two behaviours of the code worth knowing:

- The bundle is built as `ArrayHelper::merge($baseConfig, $defaults)`. The
  later argument wins, so when a stale bundle is rebuilt during a sync, the
  config file and the source fields override the stored values. Only stored
  keys that neither of them sets survive. `Construction.ContentBundlePrecedence`
  and `Construction.MergeLayers` state this order.
- The by-handle lookup queries the table by handle and site only. The row it
  returns can therefore have a different type from the one asked for. That row
  is cached under the requested type.

## Model

| member | source | states |
|---|---|---|
| Versions.OlderIrreflexive | src/services/MetaBundles.php:553 | No version is newer than itself. |
| Versions.OlderAsymmetric | src/services/MetaBundles.php:553 | The version order is asymmetric. |
| Versions.OlderTransitive | src/services/MetaBundles.php:553 | The version order is transitive. |
| Versions.OlderTotal | src/services/MetaBundles.php:553 | Two distinct versions are always ordered one way or the other, so the order is strict and total. |
| Versions.NewerGate | src/services/MetaBundles.php:552-553 | The sync gate fires exactly when the config version differs from the stored version and is not older than it. |
| Model.FindSource | src/services/MetaBundles.php:151-162 | getSectionById / getGroupById (and the ByHandle variants): a found source is in the CMS list and has that id or handle. None means that no source has it. |
| Model.KindOfTag | src/services/MetaBundles.php:151-164 | The content switch dispatches only on the section and category-group tags. Every other tag, the global one included, falls through. |
| Store.FindFirst | src/services/MetaBundles.php:134-142 | `one()` returns the first matching row: it matches, and no earlier row does. None means that no row matches. |
| Store.FindOne | src/services/MetaBundles.php:134-142 | The query returns a row exactly when some row matches, and the row it returns matches. |
| Store.Upsert | src/services/MetaBundles.php:706-712 | findOne, else a new record, then save. The bundle replaces the first matching row in place, or is appended when no row matches. Every other row stays at its index. |
| Store.Persist | src/services/MetaBundles.php:701-712 | A bundle that fails validation leaves the table unchanged. A bundle that passes ends up in the table, which grows by at most one row and keeps its length when the key was already present. Every row other than the first match stays at its index. |
| Store.MatchesUnique | src/services/MetaBundles.php:604-615 | Under the table invariant, at most one row matches an upsert key. |
| Store.UpsertKeepsInvariant | src/services/MetaBundles.php:604-615 | The upsert keeps (type, source, site) unique and keeps one global row per site. |
| Store.PersistKeepsInvariant | src/services/MetaBundles.php:701-712 | A validate-gated save keeps the table invariant. |
| Store.UpsertThenFind | src/services/MetaBundles.php:706-712 | After the save, the same query finds exactly the saved bundle. |
| Store.FindFirstIgnoresUnmatched | src/services/MetaBundles.php:706-712 | Overwriting or appending a row that another query does not match leaves that query's first match where it was. |
| Store.RemoveAt | src/services/MetaBundles.php:385 | Removing a record drops that one row and keeps the others in order. |
| Store.RemoveKeepsInvariant | src/services/MetaBundles.php:385 | Deleting a row keeps the table invariant. |
| Store.DeleteOnSitesShrinks | src/services/MetaBundles.php:370-402 | The per-site delete loop keeps the invariant and only removes rows. |
| Store.DeleteOnSitesClears | src/services/MetaBundles.php:374-392 | After the loop, no row for (type, id, site) remains on any listed site whose delete did not throw. |
| Store.DeleteOnSitesStaysClear | src/services/MetaBundles.php:374-392 | A (type, id, site) key that has no row still has none after the loop, so a deleted row is never brought back. |
| Store.DeleteSubset | src/services/MetaBundles.php:370-402 | Every row left after the loop was in the table before. |
| Store.DeleteOnSitesKeepsOthers | src/services/MetaBundles.php:377-385 | The loop keeps every row that matches no listed site's (type, id, site) key. |
| Store.NonGlobal | src/services/MetaBundles.php:471-474 | The `!= GLOBAL` query holds exactly the non-global rows. |
| Store.ListingAllSites | src/services/MetaBundles.php:468-495 | With allSites, the listing is every non-global row, in table order. |
| Store.ListingFromRows | src/services/MetaBundles.php:471-490 | Every listed bundle is a non-global row of the table. |
| Store.ListingDistinctHandles | src/services/MetaBundles.php:476-483 | Without allSites, the handles in the listing are pairwise distinct. |
| Store.ListingCoversHandles | src/services/MetaBundles.php:476-483 | Without allSites, every non-global row's handle still appears in the listing, so de-duplication loses no handle. |
| Store.FirstOfHandle | src/services/MetaBundles.php:476-483 | The first non-global row with a handle is a non-global row of the table with that handle. None means that no non-global row has it. |
| Store.ListingKeepsFirst | src/services/MetaBundles.php:476-483 | Without allSites, every listed bundle is the first non-global row in table order with its handle, so de-duplication keeps the first row and drops the later ones. |
| Store.ListingSubsequence | src/services/MetaBundles.php:468-495 | With or without allSites, the listing is the non-global rows with some dropped and the rest in table order. |
| Construction.SettingFor | src/services/MetaBundles.php:654-655 | `$siteSettings[$siteId]` is a setting for that site, or there is no setting for that site at all. |
| Construction.AltSitesContents | src/services/MetaBundles.php:654-666 | `sourceAltSiteSettings` holds a site exactly when that site's setting, as `$siteSettings[$siteId]` reads it, has URLs. Each entry holds that same setting together with the site's language. |
| Construction.AltSitesHoldTarget | src/services/MetaBundles.php:656-666 | The target site's setting is the one its alternate-site entry holds. |
| Construction.BuildAltSiteSettings | src/services/MetaBundles.php:656-666 | The gathering loop computes the alternate-site map (its loop invariant is the map of the prefix seen so far). Its keys are the sites whose setting has URLs. |
| Construction.ContentFieldsShape | src/services/MetaBundles.php:683-695 | The source fields set exactly the source keys, with the source's id, name, handle, template, site, alternate sites and date. Only the section routine sets sourceType. |
| Construction.ContentFieldsOmit | src/services/MetaBundles.php:683-695 | The source fields never set bundleVersion or sourceBundleType. |
| Construction.ContentBundleScope | src/services/MetaBundles.php:654-699 | Construction yields a bundle if and only if the target site has settings with URLs. That bundle belongs to the requested site and carries the source's id, handle and name, the site's template, and the `dateUpdated ?? dateCreated ?? now` date. |
| Construction.ContentBundleAltSites | src/services/MetaBundles.php:656-692 | The built bundle's alternate sites are exactly the sites whose setting has URLs, and the target site is among them. |
| Construction.ContentBundlePrecedence | src/services/MetaBundles.php:683-699 | Source fields beat the config file, and the config file beats the base bundle. Only base keys that neither sets survive. A section sets sourceType. A category keeps it only when the base or the config sets it. |
| Construction.MergeLayers | src/services/MetaBundles.php:696-699 | The three-layer merge has the union of the keys, and the last layer that has a key decides its value. |
| Construction.GlobalBundleShape | src/services/MetaBundles.php:594-603 | A global bundle carries the global tag and the requested site. It has the config file's version when the file states one, and otherwise the base bundle's version. |
| Construction.CreateGlobal | src/services/MetaBundles.php:591-641 | The global bundle is returned either way. An invalid one leaves the table unchanged. A valid one is found afterwards by (global, site). |
| Construction.CreateContent | src/services/MetaBundles.php:650-740 | The content bundle (or null) is returned either way. A null or invalid bundle leaves the table unchanged. |
| Construction.CreateContentThenFind | src/services/MetaBundles.php:701-712 | A valid content bundle is what the table then holds for its (type, source, site). |
| Construction.CreateGlobalKeepsInvariant | src/services/MetaBundles.php:604-615 | Global creation keeps the table invariant. |
| Construction.CreateContentKeepsInvariant | src/services/MetaBundles.php:701-712 | Content creation keeps the table invariant. |
| Construction.SyncGate | src/services/MetaBundles.php:552-553 | When the stored version is equal to the config version or newer, sync returns the bundle unchanged and writes nothing. |
| Construction.SyncGlobalSettles | src/services/MetaBundles.php:552-561 | A stale global bundle is rebuilt at the config version for the same site, so syncing it again changes nothing. |
| Construction.SyncContentSettles | src/services/MetaBundles.php:552-580 | A stale content bundle that is rebuilt takes the config version, so syncing it again changes nothing. |
| Construction.ContentVersionFromConfig | src/services/MetaBundles.php:683-699 | A built content bundle carries the config file's version whenever the file states one. |
| Construction.ContentBundleTagged | src/services/MetaBundles.php:683-712 | A built content bundle carries its kind's tag, never the global one, so the upsert key matches the saved row. |
| Construction.SyncKeepsInvariant | src/services/MetaBundles.php:537-583 | Sync keeps the table invariant. |
| Construction.BuildOnMiss | src/services/MetaBundles.php:151-164 | On a miss with any tag other than section or category group, the result is null and nothing is written. |
| Construction.BuildOnMissKeepsInvariant | src/services/MetaBundles.php:151-164 | The miss branch keeps the table invariant. |
| Construction.CreateGlobalKeepsOtherSite | src/services/MetaBundles.php:604-615 | Creating one site's global bundle does not move another site's global row. |
| Construction.GlobalsForSitesCovers | src/services/MetaBundles.php:519-528 | After createGlobalMetaBundles, every listed site whose global bundle validates has that bundle stored as its global row. |
| Construction.GlobalsForSitesKeeps | src/services/MetaBundles.php:519-528 | A site's stored global bundle survives the creation loop over the other sites. |
| Construction.GlobalsForSitesKeepInvariant | src/services/MetaBundles.php:519-528 | The global creation loop keeps the table invariant. |
| Construction.ContentForSitesKeepInvariant | src/services/MetaBundles.php:409-431 | Creating a source's bundles on every site keeps the table invariant. |
| Construction.ContentForSourcesKeepInvariant | src/services/MetaBundles.php:500-515 | Creating every source's bundles keeps the table invariant. |
| Construction.CreateContentKeepsOtherKey | src/services/MetaBundles.php:701-712 | Creating one (kind, source, site) bundle leaves the query result of every other (type, id, site) key unchanged. |
| Construction.ContentForSitesKeeps | src/services/MetaBundles.php:409-431 | The site loop for one source leaves every key of another type or source, and every site outside the loop, unchanged. |
| Construction.ContentForSitesCovers | src/services/MetaBundles.php:409-431 | After the site loop, every listed site whose bundle is built and validates holds exactly that bundle under the source's (type, id, site). |
| Construction.ContentForSourcesKeeps | src/services/MetaBundles.php:500-515 | The loop over sources leaves every key of another type, or of an id no listed source has, unchanged. |
| Construction.ContentForSourcesCovers | src/services/MetaBundles.php:500-515 | With distinct source ids, every listed source ends up with its valid bundle stored on every site that builds one. |
| Construction.AllContentCovers | src/services/MetaBundles.php:500-517 | With distinct section ids and distinct category-group ids: after all sections and then all category groups, every source of either kind holds its valid bundle on every site that builds one; the category pass does not disturb the section rows. |
| Construction.AllContentKeepsInvariant | src/services/MetaBundles.php:500-517 | Creating all content bundles keeps the table invariant. |
| Construction.UpdateGlobalRebuildsAllSites | src/services/MetaBundles.php:338-339 | Updating a global bundle stores the fresh global bundle of every site whose bundle validates, not only of the site that was asked for. |
| Construction.UpdateKeepsInvariant | src/services/MetaBundles.php:326-362 | Update keeps the table invariant. |
| Registry.MetaSourceIdFromElement | src/services/MetaBundles.php:438-458 | An entry maps to its section and a category to its group, each with its own site. Any other element maps to (0, 0). A nonzero source id implies an entry or a category. |
| Registry.ElementTypeTag | src/services/MetaBundles.php:288-299 | An entry dispatches to the section kind, a category to the category-group kind, and any other element to no kind at all. |
| Registry.LookupByIdKeepsInvariant | src/services/MetaBundles.php:124-169 | The lookup by id, hit, sync or miss, keeps the table invariant. |
| Registry.SiteStepKeepsInvariant | src/services/MetaBundles.php:233-256 | One site of the invalidation loop (lookup, then the update) keeps the table invariant. |
| Registry.SiteCallsShape | src/services/MetaBundles.php:233-256 | The site loop calls only this source's container cache and sitemap caches, never the sitemap index. It makes a call exactly when the source is not new and some site resolved a bundle. |
| Registry.SiteCallsAt | src/services/MetaBundles.php:233-256 | Each site's container and sitemap calls appear in the log in site order, right after those of the sites before it. |
| Registry.InvalidateByIdIndexOnce | src/services/MetaBundles.php:229-262 | The sitemap index is invalidated exactly once, as the last call, when the source is not new and at least one site resolved a bundle, however many did. Otherwise no call is made at all. |
| Registry.InvalidateElementCalls | src/services/MetaBundles.php:270-317 | A null, new or sourceless element makes no call and changes nothing. Otherwise the container cache by path comes first and the sitemap index once, last. The sitemap cache of the bundle that the lookup resolves after the update is called in between, exactly when that bundle resolves. |
| Registry.MetaBundles.constructor | src/services/MetaBundles.php:58-76 | A registry starts with empty caches, an empty call log, and the table as given. |
| Registry.MetaBundles.GetGlobalMetaBundle | src/services/MetaBundles.php:88-115 | A cached global bundle is returned unchanged and the table is not touched. Otherwise the stored row is synced, or a new bundle is created for the site. The result is always cached for the site. |
| Registry.MetaBundles.GetMetaBundleBySourceId | src/services/MetaBundles.php:124-169 | A cache hit returns the cached bundle. A table hit is synced and appended under the new id `count(metaBundles)`, and the existing entries are kept. A later hit finds the new entry unless that id is 0, which `!empty` treats as a miss. A miss builds from the source and caches nothing. |
| Registry.MetaBundles.GetMetaBundleBySourceHandle | src/services/MetaBundles.php:178-220 | The same as the by-id lookup, except that the table is queried by handle and site only and the row is cached without a sync. |
| Registry.MetaBundles.BuildOnMissing | src/services/MetaBundles.php:151-164 | The miss switch looks the source up by id or handle and builds with an empty base. Any other tag returns null and writes nothing. |
| Registry.MetaBundles.ResolveBySourceId | src/services/MetaBundles.php:124-169 | The bundle returned and the cache, index and table afterwards are those the lookup-by-id function defines. No service is called. |
| Registry.MetaBundles.InvalidateOnSite | src/services/MetaBundles.php:235-255 | It returns the bundle the lookup resolves. It invalidates exactly when the source is not new and that bundle exists, and then it calls the container cache by id and the bundle's sitemap cache, in that order, and updates the bundle. Otherwise it makes no call. |
| Registry.MetaBundles.InvalidateNextSite | src/services/MetaBundles.php:233-256 | One iteration of the site loop: the record of sites run so far grows by this site's step, and the log grows by exactly this site's calls. |
| Registry.MetaBundles.InvalidateMetaBundleById | src/services/MetaBundles.php:229-262 | Site by site, in order, the lookup resolves a bundle and a resolved bundle of a source that is not new is updated; the ghost `resolved` and `views` record each site's result and state. The log grows by each such site's container and sitemap calls, then by one sitemap-index call when any site made one. |
| Registry.MetaBundles.InvalidateElementSource | src/services/MetaBundles.php:287-309 | It invalidates the container cache by path, updates the bundle, and resolves it again. It then calls the sitemap cache of the resolved bundle's handle and site exactly when that bundle exists. |
| Registry.MetaBundles.InvalidateMetaBundleByElement | src/services/MetaBundles.php:270-317 | The calls appended and the cache, index and table afterwards are those the element-invalidation function defines (see `Registry.InvalidateElementCalls`). |
| Registry.MetaBundles.UpdateMetaBundleById | src/services/MetaBundles.php:326-362 | The table afterwards is the old table rebuilt from the stored row's own type tag (nothing happens when no row exists). With `Construction.UpdateGlobalRebuildsAllSites`, a global row rebuilds every site's global bundle. |
| Registry.MetaBundles.DeleteMetaBundleBySourceId | src/services/MetaBundles.php:370-402 | The loop computes the per-site delete fold. No row for the source remains on any site whose delete did not throw. |
| Registry.MetaBundles.CreateContentMetaBundleForSource | src/services/MetaBundles.php:409-431 | The site loop computes the per-site creation fold. Afterwards every site whose bundle is built and validates holds that bundle under the source's (type, id, site). |
| Registry.MetaBundles.CreateContentMetaBundles | src/services/MetaBundles.php:500-517 | Every section is processed first, then every category group. Afterwards every section and category group, on every site whose bundle is built and validates, holds that bundle. |
| Registry.MetaBundles.CreateGlobalMetaBundles | src/services/MetaBundles.php:519-528 | The site loop stores a fresh global bundle for every site in turn. |
| Registry.MetaBundles.GetContentMetaBundles | src/services/MetaBundles.php:468-495 | The loop returns non-global rows in table order, never a global one. With allSites, every non-global row is returned. Without allSites, the handles are distinct, each bundle is the first non-global row with its handle, and every handle is kept. |
| Registry.MetaBundles.SyncBundleWithConfig | src/services/MetaBundles.php:537-583 | The bundle and the table afterwards are those the sync function defines. A global bundle never syncs to null. |
| Registry.MetaBundles.CreateGlobalMetaBundleForSite | src/services/MetaBundles.php:591-641 | The bundle returned and the table afterwards are those the global construction defines. |
| Registry.MetaBundles.CreateMetaBundleFromSource | src/services/MetaBundles.php:650-838 | The gathering loop, the merge and the validate-gated upsert give the bundle and the table that the content construction defines. |

## Left out

- Logging through `Craft::info` and `Craft::error` has no observable effect on the registry, so the model drops it.
- `IGNORE_DB_ATTRIBUTES` (the id and timestamp columns that `array_diff_key` strips) is not modelled. Rows hold only bundle attributes.
- `MetaBundle::create` is assumed to succeed on every attribute array. `validate` is an arbitrary predicate supplied by the world.
- `save()` is assumed to succeed whenever validation passed. A failing save would leave the table unchanged and is not modelled.
- Deletion failures are a per-site flag in the world rather than the `StaleObjectException` / `Throwable` classes.
- When the section or category group of a row no longer exists, PHP passes null to a typed parameter and throws a TypeError. This happens in three places:
  - during a sync of a stored row;
  - in the miss branch of both lookups when no source has the id or handle (src/services/MetaBundles.php:156-162, 207-213);
  - in `updateMetaBundleById` (src/services/MetaBundles.php:351-352, 356-357).

  In all three the model returns null or leaves the table unchanged instead (`Construction.Sync`, `Construction.BuildOnMiss`, `Construction.UpdateStore`). Neither invalidation method catches the exception. In the source, `invalidateMetaBundleById` therefore abandons its site loop and `invalidateMetaBundleByElement` stops after the container call; neither reaches `invalidateSitemapIndexCache` (src/services/MetaBundles.php:259-261, 314-316). The model carries on to the next site and makes the index call. `Registry.InvalidateByIdIndexOnce`, `Registry.InvalidateElementCalls` and the two invalidation methods state their calls for such runs as if nothing had thrown.
- Every registry method and every invariant lemma assumes `ConfigsTagged`: each shipped config file (global, entry, category) sets `sourceBundleType` to its own tag. The config files are not part of this model, so the tag is assumed, not read.
- The table is a sequence of rows, not a map keyed by (type, source, site). `one()` returns the first match in table order, and the by-handle query and the listing depend on that order.
- Bundle versions are dotted numeric sequences. `version_compare` pre-release tags such as "alpha" and "RC" are not modelled.
- `ArrayHelper::merge` is modelled as a shallow merge where the later argument wins. Recursive merging of nested arrays and the appending of integer keys are not modelled. `ArrayHelper::index` keeps the last entry per site id.
- The element queries for the latest entry or category are an input map, and `new \DateTime()` is the world's `now`.
- `in_array` uses loose comparison in PHP. Handles are compared as strings.
- The `@TODO` Commerce product branches and concurrent access to the table are out of scope.
- The `MetaBundle` object identity that PHP callers can share and mutate is not modelled. Cached bundles are values.
- Registry.MetaBundles.constructor: the table is assumed to start with one row per (type, source, site) key and at most one global row per site. Every method keeps this, and `Registry.MetaBundles.DeleteMetaBundleBySourceId`'s promise that no row for the source remains relies on it, because the loop deletes only the first match per site (src/services/MetaBundles.php:374-392). The source never checks it. It holds because the registry is the table's only writer and concurrent access is out of scope: two requests running the findOne-then-insert at src/services/MetaBundles.php:607-615 or 703-712 at the same time could both insert a row.
- Registry.MetaBundles.CreateContentMetaBundles: the coverage promise assumes that no two sections share an id and no two category groups share an id, as the CMS's ids do not. With a duplicate id, the later source's row overwrites the earlier one's.
