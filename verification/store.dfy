/** The `seomatic_metabundles` table as a sequence of rows in storage order.
    A query's `one()` is the first matching row; `findOne` + `save` is an
    upsert; `delete` removes the row. */
module Store {
  import opened Wrappers
  import opened Model

  type Rows = seq<Attrs>

  /** The `where` conditions the registry puts on the table. */
  datatype Query =
    | ByKey(bundleType: string, sourceId: int, siteId: int)   // type, id and site
    | ByTypeSite(bundleType: string, siteId: int)             // type and site (global bundles)
    | ByHandleSite(handle: string, siteId: int)               // handle and site only

  predicate Matches(row: Attrs, q: Query)
  {
    match q
    case ByKey(t, id, s) => TypeOf(row) == t && SourceIdOf(row) == id && SiteIdOf(row) == s
    case ByTypeSite(t, s) => TypeOf(row) == t && SiteIdOf(row) == s
    case ByHandleSite(h, s) => HandleOf(row) == h && SiteIdOf(row) == s
  }

  /** Index of the first row the query matches. */
  function FindFirst(rows: Rows, q: Query): (r: Option<nat>)
    ensures r.Some? ==> r.value < |rows| && Matches(rows[r.value], q)
    ensures r.Some? ==> forall j :: 0 <= j < r.value ==> !Matches(rows[j], q)
    ensures r.None? ==> forall j :: 0 <= j < |rows| ==> !Matches(rows[j], q)
  {
    if rows == [] then None
    else if Matches(rows[0], q) then Some(0)
    else match FindFirst(rows[1..], q)
      case None => None
      case Some(i) => Some(i + 1)
  }

  /** The row `one()` returns. */
  function FindOne(rows: Rows, q: Query): (r: Option<Attrs>)
    ensures r.Some? <==> exists j :: 0 <= j < |rows| && Matches(rows[j], q)
    ensures r.Some? ==> r.value in rows && Matches(r.value, q)
  {
    match FindFirst(rows, q)
    case None => None
    case Some(i) => Some(rows[i])
  }

  /** findOne, else a new record; setAttributes; save. */
  function Upsert(rows: Rows, q: Query, b: Attrs): (r: Rows)
    ensures b in r
    ensures FindFirst(rows, q).Some? ==> |r| == |rows| && r[FindFirst(rows, q).value] == b
    ensures FindFirst(rows, q).None? ==> |r| == |rows| + 1 && r[|rows|] == b
    ensures forall j :: 0 <= j < |rows| && FindFirst(rows, q) != Some(j) ==> r[j] == rows[j]
  {
    match FindFirst(rows, q)
    case Some(i) => var r := rows[i := b]; assert r[i] == b; r
    case None => rows + [b]
  }

  /** The save step of every construction routine: only a bundle that
      validates is written. */
  function Persist(w: World, rows: Rows, q: Query, b: Attrs): (r: Rows)
    ensures !w.validate(b) ==> r == rows
    ensures w.validate(b) ==> b in r && |rows| <= |r| <= |rows| + 1
    ensures w.validate(b) && FindFirst(rows, q).Some? ==> |r| == |rows|
    ensures w.validate(b) ==> forall j :: 0 <= j < |rows| && FindFirst(rows, q) != Some(j) ==> r[j] == rows[j]
  {
    if w.validate(b) then Upsert(rows, q, b) else rows
  }

  /** The identity of a row: (sourceBundleType, sourceId, sourceSiteId). */
  function RowKey(row: Attrs): (string, int, int)
  {
    (TypeOf(row), SourceIdOf(row), SiteIdOf(row))
  }

  /** At most one row per (type, source, site), and at most one global row
      per site. */
  ghost predicate StoreInvariant(rows: Rows)
  {
    && (forall i, j :: 0 <= i < j < |rows| ==> RowKey(rows[i]) != RowKey(rows[j]))
    && (forall i, j :: 0 <= i < j < |rows| && IsGlobal(rows[i]) && IsGlobal(rows[j]) ==>
          SiteIdOf(rows[i]) != SiteIdOf(rows[j]))
  }

  /** The bundle written under an upsert query carries that query's key:
      content bundles under their (type, id, site), globals under their site. */
  predicate KeyedBy(q: Query, b: Attrs)
  {
    match q
    case ByKey(t, id, s) => t != GLOBAL_META_BUNDLE && RowKey(b) == (t, id, s)
    case ByTypeSite(t, s) => t == GLOBAL_META_BUNDLE && IsGlobal(b) && SiteIdOf(b) == s
    case ByHandleSite(_, _) => false
  }

  /** Any two rows that share a KeyedBy query's key are the same row. */
  lemma MatchesUnique(rows: Rows, q: Query, b: Attrs, i: nat, j: nat)
    requires StoreInvariant(rows) && KeyedBy(q, b)
    requires i < |rows| && j < |rows| && Matches(rows[i], q) && Matches(rows[j], q)
    ensures i == j
  {
    match q {
      case ByKey(_, _, _) =>
        assert RowKey(rows[i]) == RowKey(rows[j]);
      case ByTypeSite(_, _) =>
        assert IsGlobal(rows[i]) && IsGlobal(rows[j]) && SiteIdOf(rows[i]) == SiteIdOf(rows[j]);
      case ByHandleSite(_, _) =>
    }
  }

  /** An upsert keeps the table free of duplicate keys. */
  lemma UpsertKeepsInvariant(rows: Rows, q: Query, b: Attrs)
    requires StoreInvariant(rows) && KeyedBy(q, b)
    ensures StoreInvariant(Upsert(rows, q, b))
  {
    var r := Upsert(rows, q, b);
    match FindFirst(rows, q)
    case Some(k) =>
      forall i, j | 0 <= i < j < |r|
        ensures RowKey(r[i]) != RowKey(r[j])
        ensures IsGlobal(r[i]) && IsGlobal(r[j]) ==> SiteIdOf(r[i]) != SiteIdOf(r[j])
      {
        if i == k {
          assert !Matches(rows[j], q) by {
            if Matches(rows[j], q) { MatchesUnique(rows, q, b, k, j); }
          }
        } else if j == k {
          assert !Matches(rows[i], q);
        }
      }
    case None =>
      forall i, j | 0 <= i < j < |r|
        ensures RowKey(r[i]) != RowKey(r[j])
        ensures IsGlobal(r[i]) && IsGlobal(r[j]) ==> SiteIdOf(r[i]) != SiteIdOf(r[j])
      {
        if j == |rows| {
          assert !Matches(rows[i], q);
        }
      }
  }

  lemma PersistKeepsInvariant(w: World, rows: Rows, q: Query, b: Attrs)
    requires StoreInvariant(rows) && KeyedBy(q, b)
    ensures StoreInvariant(Persist(w, rows, q, b))
  {
    if w.validate(b) {
      UpsertKeepsInvariant(rows, q, b);
    }
  }

  /** After a successful save, the query finds exactly the saved bundle. */
  lemma {:induction false} UpsertThenFind(rows: Rows, q: Query, b: Attrs)
    requires Matches(b, q)
    ensures FindOne(Upsert(rows, q, b), q) == Some(b)
  {
    var r := Upsert(rows, q, b);
    match FindFirst(rows, q)
    case Some(k) =>
      assert r[k] == b;
      assert forall j :: 0 <= j < k ==> r[j] == rows[j];
    case None =>
      assert r[|rows|] == b;
      assert forall j :: 0 <= j < |rows| ==> r[j] == rows[j];
  }

  /** Overwriting or appending a row the query does not match leaves that
      query's answer as it was. */
  lemma FindFirstIgnoresUnmatched(rows: Rows, q: Query, i: nat, b: Attrs)
    requires i <= |rows| && !Matches(b, q)
    requires i < |rows| ==> !Matches(rows[i], q)
    ensures i < |rows| ==> FindFirst(rows[i := b], q) == FindFirst(rows, q)
    ensures i == |rows| ==> FindFirst(rows + [b], q) == FindFirst(rows, q)
  {
    var r := if i < |rows| then rows[i := b] else rows + [b];
    assert forall j :: 0 <= j < |r| ==> (Matches(r[j], q) <==> j < |rows| && Matches(rows[j], q));
    FirstIsDetermined(r, rows, q);
  }

  /** Two tables that agree on which indices match agree on the first match. */
  lemma FirstIsDetermined(r: Rows, rows: Rows, q: Query)
    requires |r| >= |rows|
    requires forall j :: 0 <= j < |r| ==> (Matches(r[j], q) <==> j < |rows| && Matches(rows[j], q))
    ensures FindFirst(r, q) == FindFirst(rows, q)
  {
    var a, b := FindFirst(r, q), FindFirst(rows, q);
    if b.Some? {
      assert Matches(r[b.value], q);
    }
    if a.Some? {
      assert a.value < |rows| && Matches(rows[a.value], q);
    }
    if a.Some? && b.Some? {
      assert !(a.value < b.value) && !(b.value < a.value);
    }
  }

  /** Remove the row at index i. */
  function RemoveAt(rows: Rows, i: nat): (r: Rows)
    requires i < |rows|
    ensures |r| == |rows| - 1
    ensures forall j :: 0 <= j < i ==> r[j] == rows[j]
    ensures forall j :: i <= j < |r| ==> r[j] == rows[j + 1]
  {
    rows[..i] + rows[i + 1..]
  }

  /** One iteration of the per-site delete loop: findOne by (type, id, site),
      then delete it, unless the delete throws on that site. */
  function DeleteOnSite(w: World, t: string, id: int, site: int, rows: Rows): Rows
  {
    match FindFirst(rows, ByKey(t, id, site))
    case None => rows
    case Some(i) => if site in w.deleteFailures then rows else RemoveAt(rows, i)
  }

  function DeleteOnSites(w: World, t: string, id: int, sites: seq<int>, rows: Rows): Rows
  {
    if sites == [] then rows
    else DeleteOnSites(w, t, id, sites[1..], DeleteOnSite(w, t, id, sites[0], rows))
  }

  lemma RemoveKeepsInvariant(rows: Rows, i: nat)
    requires StoreInvariant(rows) && i < |rows|
    ensures StoreInvariant(RemoveAt(rows, i))
  {
    var r := RemoveAt(rows, i);
    forall a, b | 0 <= a < b < |r|
      ensures RowKey(r[a]) != RowKey(r[b])
      ensures IsGlobal(r[a]) && IsGlobal(r[b]) ==> SiteIdOf(r[a]) != SiteIdOf(r[b])
    {
      var a', b' := if a < i then a else a + 1, if b < i then b else b + 1;
      assert r[a] == rows[a'] && r[b] == rows[b'] && a' < b';
    }
  }

  /** Deleting never creates rows: what is left was there before. */
  lemma {:induction false} DeleteOnSitesShrinks(w: World, t: string, id: int, sites: seq<int>, rows: Rows)
    requires StoreInvariant(rows)
    ensures StoreInvariant(DeleteOnSites(w, t, id, sites, rows))
    ensures forall x :: x in DeleteOnSites(w, t, id, sites, rows) ==> x in rows
  {
    if sites != [] {
      var next := DeleteOnSite(w, t, id, sites[0], rows);
      match FindFirst(rows, ByKey(t, id, sites[0])) {
        case None =>
        case Some(i) =>
          if sites[0] !in w.deleteFailures {
            RemoveKeepsInvariant(rows, i);
          }
      }
      DeleteSubset(w, t, id, [sites[0]], rows);
      assert DeleteOnSites(w, t, id, [sites[0]], rows) == next;
      DeleteOnSitesShrinks(w, t, id, sites[1..], next);
    }
  }

  /** Best-effort deletion: on every listed site whose delete does not throw,
      no row for (type, id, site) is left. */
  lemma {:induction false} DeleteOnSitesClears(w: World, t: string, id: int, sites: seq<int>, rows: Rows, s: int)
    requires StoreInvariant(rows)
    requires s in sites && s !in w.deleteFailures
    ensures FindFirst(DeleteOnSites(w, t, id, sites, rows), ByKey(t, id, s)).None?
  {
    var next := DeleteOnSite(w, t, id, sites[0], rows);
    DeleteOnSitesShrinks(w, t, id, [sites[0]], rows);
    assert DeleteOnSites(w, t, id, [sites[0]], rows) == next;
    if sites[0] == s {
      match FindFirst(rows, ByKey(t, id, s)) {
        case None =>
        case Some(i) =>
        OnlyRowWithKey(rows, i);
        assert forall j :: 0 <= j < |next| ==> !Matches(next[j], ByKey(t, id, s)) by {
          forall j | 0 <= j < |next| ensures !Matches(next[j], ByKey(t, id, s)) {
            var j' := if j < i then j else j + 1;
            assert next[j] == rows[j'] && j' != i;
          }
        }
      }
      DeleteOnSitesStaysClear(w, t, id, sites[1..], next, s);
    } else {
      DeleteOnSitesClears(w, t, id, sites[1..], next, s);
    }
  }

  /** In a table that keeps the invariant, no other row shares a row's key. */
  lemma OnlyRowWithKey(rows: Rows, i: nat)
    requires StoreInvariant(rows) && i < |rows|
    ensures forall j :: 0 <= j < |rows| && j != i ==> RowKey(rows[j]) != RowKey(rows[i])
  {
    forall j | 0 <= j < |rows| && j != i ensures RowKey(rows[j]) != RowKey(rows[i]) {
      if j < i {
        assert RowKey(rows[j]) != RowKey(rows[i]);
      } else {
        assert RowKey(rows[i]) != RowKey(rows[j]);
      }
    }
  }

  /** Once no row matches (type, id, s), deleting more keeps it that way. */
  lemma DeleteOnSitesStaysClear(w: World, t: string, id: int, sites: seq<int>, rows: Rows, s: int)
    requires FindFirst(rows, ByKey(t, id, s)).None?
    ensures FindFirst(DeleteOnSites(w, t, id, sites, rows), ByKey(t, id, s)).None?
  {
    var r := DeleteOnSites(w, t, id, sites, rows);
    forall j | 0 <= j < |r| ensures !Matches(r[j], ByKey(t, id, s)) {
      DeleteSubset(w, t, id, sites, rows);
      assert r[j] in rows;
    }
  }

  lemma {:induction false} DeleteSubset(w: World, t: string, id: int, sites: seq<int>, rows: Rows)
    ensures forall x :: x in DeleteOnSites(w, t, id, sites, rows) ==> x in rows
  {
    if sites != [] {
      var next := DeleteOnSite(w, t, id, sites[0], rows);
      assert forall x :: x in next ==> x in rows by {
        match FindFirst(rows, ByKey(t, id, sites[0])) {
          case None =>
          case Some(i) =>
            forall x | x in next ensures x in rows {
              var j :| 0 <= j < |next| && next[j] == x;
              if sites[0] !in w.deleteFailures {
                assert x == rows[if j < i then j else j + 1];
              }
            }
        }
      }
      DeleteSubset(w, t, id, sites[1..], next);
    }
  }

  /** A row whose key is not one of the deleted ones survives. */
  lemma {:induction false} DeleteOnSitesKeepsOthers(w: World, t: string, id: int, sites: seq<int>, rows: Rows, x: Attrs)
    requires x in rows
    requires forall s :: s in sites ==> !Matches(x, ByKey(t, id, s))
    ensures x in DeleteOnSites(w, t, id, sites, rows)
  {
    if sites != [] {
      var next := DeleteOnSite(w, t, id, sites[0], rows);
      match FindFirst(rows, ByKey(t, id, sites[0])) {
        case None =>
        case Some(i) =>
          if sites[0] !in w.deleteFailures {
            var k :| 0 <= k < |rows| && rows[k] == x;
            assert k != i;
            assert next[if k < i then k else k - 1] == x;
          }
      }
      DeleteOnSitesKeepsOthers(w, t, id, sites[1..], next, x);
    }
  }

  /** getContentMetaBundles: the non-global rows in table order; when not all
      sites are wanted, only the first row seen for each source handle
      (`seen` holds the handles met so far). */
  function ContentListing(rows: Rows, allSites: bool, seen: set<string>): Rows
  {
    if rows == [] then []
    else if IsGlobal(rows[0]) then ContentListing(rows[1..], allSites, seen)
    else if allSites then [rows[0]] + ContentListing(rows[1..], allSites, seen)
    else if HandleOf(rows[0]) in seen then ContentListing(rows[1..], allSites, seen)
    else [rows[0]] + ContentListing(rows[1..], allSites, seen + {HandleOf(rows[0])})
  }

  /** The non-global rows, in table order. */
  function NonGlobal(rows: Rows): (r: Rows)
    ensures forall x :: x in r <==> x in rows && !IsGlobal(x)
  {
    if rows == [] then []
    else if IsGlobal(rows[0]) then NonGlobal(rows[1..])
    else [rows[0]] + NonGlobal(rows[1..])
  }

  /** With allSites, every non-global row is listed, in order. */
  lemma {:induction false} ListingAllSites(rows: Rows, seen: set<string>)
    ensures ContentListing(rows, true, seen) == NonGlobal(rows)
  {
    if rows != [] {
      ListingAllSites(rows[1..], seen);
    }
  }

  /** Every listed bundle is a non-global row of the table. */
  lemma {:induction false} ListingFromRows(rows: Rows, allSites: bool, seen: set<string>)
    ensures forall x :: x in ContentListing(rows, allSites, seen) ==> x in rows && !IsGlobal(x)
  {
    if rows != [] {
      ListingFromRows(rows[1..], allSites, seen);
      if !IsGlobal(rows[0]) && !allSites && HandleOf(rows[0]) !in seen {
        ListingFromRows(rows[1..], allSites, seen + {HandleOf(rows[0])});
      }
    }
  }

  /** Without allSites, handles in the listing are pairwise distinct and none
      was already seen. */
  lemma {:induction false} ListingDistinctHandles(rows: Rows, seen: set<string>)
    ensures forall i :: 0 <= i < |ContentListing(rows, false, seen)| ==>
      HandleOf(ContentListing(rows, false, seen)[i]) !in seen
    ensures forall i, j :: 0 <= i < j < |ContentListing(rows, false, seen)| ==>
      HandleOf(ContentListing(rows, false, seen)[i]) != HandleOf(ContentListing(rows, false, seen)[j])
  {
    if rows == [] {
    } else if IsGlobal(rows[0]) || HandleOf(rows[0]) in seen {
      ListingDistinctHandles(rows[1..], seen);
    } else {
      var h := HandleOf(rows[0]);
      var rest := ContentListing(rows[1..], false, seen + {h});
      ListingDistinctHandles(rows[1..], seen + {h});
      var r := ContentListing(rows, false, seen);
      assert r == [rows[0]] + rest;
      forall i | 0 <= i < |r| ensures HandleOf(r[i]) !in seen {
        if i > 0 { assert r[i] == rest[i - 1]; }
      }
      forall i, j | 0 <= i < j < |r| ensures HandleOf(r[i]) != HandleOf(r[j]) {
        assert r[j] == rest[j - 1];
        if i > 0 { assert r[i] == rest[i - 1]; }
      }
    }
  }

  /** Without allSites, every handle of a non-global row is either listed or
      was already seen: de-duplication loses no handle. */
  lemma {:induction false} ListingCoversHandles(rows: Rows, seen: set<string>, x: Attrs)
    requires x in rows && !IsGlobal(x)
    ensures HandleOf(x) in seen || exists y :: y in ContentListing(rows, false, seen) && HandleOf(y) == HandleOf(x)
  {
    if rows[0] == x {
      if HandleOf(x) !in seen {
        assert x in ContentListing(rows, false, seen);
      }
    } else {
      var r := ContentListing(rows, false, seen);
      if IsGlobal(rows[0]) || HandleOf(rows[0]) in seen {
        ListingCoversHandles(rows[1..], seen, x);
      } else {
        ListingCoversHandles(rows[1..], seen + {HandleOf(rows[0])}, x);
        if HandleOf(x) == HandleOf(rows[0]) {
          assert rows[0] in r;
        }
      }
    }
  }

  /** The first non-global row with the given handle, in table order. */
  function FirstOfHandle(rows: Rows, h: string): (r: Option<Attrs>)
    ensures r.Some? ==> r.value in rows && !IsGlobal(r.value) && HandleOf(r.value) == h
    ensures r.None? ==> forall x :: x in rows && !IsGlobal(x) ==> HandleOf(x) != h
  {
    if rows == [] then None
    else if !IsGlobal(rows[0]) && HandleOf(rows[0]) == h then Some(rows[0])
    else FirstOfHandle(rows[1..], h)
  }

  /** `a` is `b` with some rows dropped and the rest kept in order. */
  predicate Subsequence(a: Rows, b: Rows)
    decreases |a| + |b|
  {
    if a == [] then true
    else if b == [] then false
    else (a[0] == b[0] && Subsequence(a[1..], b[1..])) || Subsequence(a, b[1..])
  }

  /** The listing keeps table order: with or without allSites it is the
      non-global rows with some of them dropped. */
  lemma {:induction false} ListingSubsequence(rows: Rows, allSites: bool, seen: set<string>)
    ensures Subsequence(ContentListing(rows, allSites, seen), NonGlobal(rows))
  {
    if rows != [] {
      var l, ng := ContentListing(rows, allSites, seen), NonGlobal(rows);
      if IsGlobal(rows[0]) {
        ListingSubsequence(rows[1..], allSites, seen);
      } else if allSites || HandleOf(rows[0]) !in seen {
        var seen' := if allSites then seen else seen + {HandleOf(rows[0])};
        ListingSubsequence(rows[1..], allSites, seen');
        assert l[0] == ng[0] && l[1..] == ContentListing(rows[1..], allSites, seen') && ng[1..] == NonGlobal(rows[1..]);
      } else {
        ListingSubsequence(rows[1..], allSites, seen);
        assert ng[1..] == NonGlobal(rows[1..]);
      }
    }
  }

  /** No listed handle was among those already seen. */
  lemma ListingNotSeen(rows: Rows, seen: set<string>, x: Attrs)
    requires x in ContentListing(rows, false, seen)
    ensures HandleOf(x) !in seen
  {
    ListingDistinctHandles(rows, seen);
  }

  /** Without allSites, each listed bundle is the first non-global row of the
      table with its handle: de-duplication keeps the first row, not a later
      one. */
  lemma {:induction false} ListingKeepsFirst(rows: Rows, seen: set<string>, x: Attrs)
    requires x in ContentListing(rows, false, seen)
    ensures FirstOfHandle(rows, HandleOf(x)) == Some(x)
  {
    var r0 := rows[0];
    if IsGlobal(r0) || HandleOf(r0) in seen {
      ListingNotSeen(rows[1..], seen, x);
      ListingKeepsFirst(rows[1..], seen, x);
    } else if x != r0 {
      var seen' := seen + {HandleOf(r0)};
      ListingNotSeen(rows[1..], seen', x);
      ListingKeepsFirst(rows[1..], seen', x);
    }
  }
}
