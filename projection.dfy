/** The `filtered` projection of the catalog view: the items the grid shows
    for the active tab and the search text, and which of the three screens
    (spinner, empty state, grid) the page renders. */
module Projection {
  import opened Media
  import opened Text

  /** The key of the tab that shows every kind. */
  const AllTab: string := "all"

  predicate MatchesTab(item: MediaItem, active: string) {
    active == AllTab || item.kind == Some(active)
  }

  /** With a non-empty query the item needs a title whose lower-cased form
      includes the lower-cased query; a missing title never matches. */
  predicate MatchesQuery(item: MediaItem, query: string) {
    query == "" || (item.title.Some? && Includes(Lower(item.title.value), Lower(query)))
  }

  predicate Matches(item: MediaItem, active: string, query: string) {
    MatchesTab(item, active) && MatchesQuery(item, query)
  }

  /** `items.filter(...)`: the matching items, in the order they are held. */
  function Filter(items: seq<MediaItem>, active: string, query: string): (r: seq<MediaItem>)
    ensures |r| <= |items|
    ensures forall k :: 0 <= k < |r| ==> r[k] in items && Matches(r[k], active, query)
  {
    if items == [] then []
    else (if Matches(items[0], active, query) then [items[0]] else [])
         + Filter(items[1..], active, query)
  }

  /** `r` is `s` with some entries dropped and the rest kept in order:
      `idx` says where each entry of `r` sits in `s`. */
  ghost predicate IsEmbedding<T>(idx: seq<int>, r: seq<T>, s: seq<T>) {
    && |idx| == |r|
    && (forall k :: 0 <= k < |idx| ==> 0 <= idx[k] < |s| && r[k] == s[idx[k]])
    && (forall j, k :: 0 <= j < k < |idx| ==> idx[j] < idx[k])
  }

  ghost predicate IsSubsequence<T>(r: seq<T>, s: seq<T>) {
    exists idx :: IsEmbedding(idx, r, s)
  }

  /** With the "all" tab and an empty query nothing is dropped. */
  lemma {:induction false} FilterAllEmpty(items: seq<MediaItem>)
    ensures Filter(items, AllTab, "") == items
  {
    if items != [] {
      FilterAllEmpty(items[1..]);
    }
  }

  /** An item is shown iff it is held and matches both the tab and the query. */
  lemma {:induction false} FilterMembership(items: seq<MediaItem>, active: string, query: string, x: MediaItem)
    ensures x in Filter(items, active, query) <==> x in items && Matches(x, active, query)
  {
    if items != [] {
      FilterMembership(items[1..], active, query, x);
      assert items == [items[0]] + items[1..];
    }
  }

  /** Every index moved one place to the right. */
  function Shift(idx: seq<int>): seq<int> {
    seq(|idx|, k requires 0 <= k < |idx| => idx[k] + 1)
  }

  /** The projection is an order-preserving subsequence of the held items. */
  lemma {:induction false} FilterSubsequence(items: seq<MediaItem>, active: string, query: string)
    ensures IsSubsequence(Filter(items, active, query), items)
  {
    var r := Filter(items, active, query);
    if items == [] {
      assert IsEmbedding([], r, items);
    } else {
      var rest := Filter(items[1..], active, query);
      FilterSubsequence(items[1..], active, query);
      var idx :| IsEmbedding(idx, rest, items[1..]);
      var sh := Shift(idx);
      if Matches(items[0], active, query) {
        assert r == [items[0]] + rest;
        assert IsEmbedding([0] + sh, r, items);
      } else {
        assert r == rest;
        assert IsEmbedding(sh, r, items);
      }
    }
  }

  /** Filtering a concatenation filters each part: the projection is a
      stable filter that looks at each item on its own. */
  lemma {:induction false} FilterAppend(a: seq<MediaItem>, b: seq<MediaItem>, active: string, query: string)
    ensures Filter(a + b, active, query) == Filter(a, active, query) + Filter(b, active, query)
  {
    if a == [] {
      assert a + b == b;
    } else {
      assert (a + b)[0] == a[0];
      assert (a + b)[1..] == a[1..] + b;
      FilterAppend(a[1..], b, active, query);
    }
  }

  /** Re-filtering the projection changes nothing. */
  lemma {:induction false} FilterIdempotent(items: seq<MediaItem>, active: string, query: string)
    ensures Filter(Filter(items, active, query), active, query) == Filter(items, active, query)
  {
    if items != [] {
      var head := if Matches(items[0], active, query) then [items[0]] else [];
      FilterAppend(head, Filter(items[1..], active, query), active, query);
      FilterIdempotent(items[1..], active, query);
      if head != [] {
        assert head[1..] == [];
      }
    }
  }

  /** Nothing is dropped iff every held item matches. */
  lemma {:induction false} FilterKeepsAll(items: seq<MediaItem>, active: string, query: string)
    ensures Filter(items, active, query) == items <==> forall k :: 0 <= k < |items| ==> Matches(items[k], active, query)
  {
    if items != [] {
      FilterKeepsAll(items[1..], active, query);
      var rest := Filter(items[1..], active, query);
      if !Matches(items[0], active, query) {
        assert |Filter(items, active, query)| < |items|;
      } else {
        assert Filter(items, active, query) == [items[0]] + rest;
        if rest != items[1..] {
          assert [items[0]] + rest != items by {
            assert ([items[0]] + rest)[1..] == rest;
          }
        }
        assert (forall k :: 0 <= k < |items| ==> Matches(items[k], active, query))
           <==> (forall k :: 0 <= k < |items[1..]| ==> Matches(items[1..][k], active, query)) by {
          if forall k :: 0 <= k < |items[1..]| ==> Matches(items[1..][k], active, query) {
            forall k | 0 <= k < |items| ensures Matches(items[k], active, query) {
              if k > 0 { assert items[k] == items[1..][k - 1]; }
            }
          }
        }
      }
    }
  }

  /** The projection is empty iff no held item matches. */
  lemma FilterEmptyIff(items: seq<MediaItem>, active: string, query: string)
    ensures Filter(items, active, query) == [] <==> forall x :: x in items ==> !Matches(x, active, query)
  {
    var r := Filter(items, active, query);
    if r != [] {
      FilterMembership(items, active, query, r[0]);
    }
    forall x | x in items && Matches(x, active, query) ensures x in r {
      FilterMembership(items, active, query, x);
    }
  }

  /** A specific tab with an empty query shows exactly the items of that kind. */
  lemma TabOnly(items: seq<MediaItem>, tab: string, x: MediaItem)
    requires tab != AllTab
    ensures x in Filter(items, tab, "") <==> x in items && x.kind == Some(tab)
  {
    FilterMembership(items, tab, "", x);
  }

  /** The "all" tab shows exactly the items whose title contains the query,
      ignoring ASCII case; the empty query matches every item. */
  lemma QueryOnly(items: seq<MediaItem>, query: string, x: MediaItem)
    ensures x in Filter(items, AllTab, query) <==>
      x in items && (query == "" || (x.title.Some? && exists i :: OccursAt(Lower(x.title.value), Lower(query), i)))
  {
    FilterMembership(items, AllTab, query, x);
    if x.title.Some? {
      IncludesIff(Lower(x.title.value), Lower(query));
    }
  }

  /** With a non-empty query an item without a title is never shown. */
  lemma UntitledHidden(items: seq<MediaItem>, active: string, query: string, x: MediaItem)
    requires query != "" && x.title.None?
    ensures x !in Filter(items, active, query)
  {
    FilterMembership(items, active, query, x);
  }

  /** Queries that differ only in ASCII case give the same projection. */
  lemma {:induction false} CaseInsensitive(items: seq<MediaItem>, active: string, q1: string, q2: string)
    requires Lower(q1) == Lower(q2)
    ensures Filter(items, active, q1) == Filter(items, active, q2)
  {
    assert |q1| == |Lower(q1)| == |Lower(q2)| == |q2|;
    if items != [] {
      CaseInsensitive(items[1..], active, q1, q2);
    }
  }

  /** What the main area of the page renders. */
  datatype Screen = Spinner | EmptyState | Grid(cards: seq<MediaItem>)

  /** The spinner while loading; otherwise the empty state when nothing is
      shown, else the grid of the shown items. */
  function ScreenOf(items: seq<MediaItem>, active: string, query: string, loading: bool): (v: Screen)
    ensures v.Spinner? <==> loading
    ensures v.EmptyState? <==> !loading && forall x :: x in items ==> !Matches(x, active, query)
    ensures v.Grid? ==> v.cards == Filter(items, active, query) && v.cards != []
  {
    FilterEmptyIff(items, active, query);
    var shown := Filter(items, active, query);
    if loading then Spinner
    else if |shown| == 0 then EmptyState
    else Grid(shown)
  }

  /** Under the "all" tab with no query the empty state (and with it the
      seed button) appears iff nothing is loading and nothing is held. */
  lemma SeedGateUnfiltered(items: seq<MediaItem>, loading: bool)
    ensures ScreenOf(items, AllTab, "", loading).EmptyState? <==> !loading && items == []
  {
    FilterAllEmpty(items);
  }

  /** The gate looks at the projection, not at the catalog: the empty state
      can appear while items are held. */
  lemma SeedGateIsPostFilter()
    ensures exists items, active :: items != [] && ScreenOf(items, active, "", false).EmptyState?
  {
    var movie := MediaItem("1", Some("Neon Drift"), Some("movie"), Some(2022), Num(0));
    assert !Matches(movie, "anime", "");
    assert Filter([movie], "anime", "") == [];
    assert ScreenOf([movie], "anime", "", false).EmptyState?;
  }
}
