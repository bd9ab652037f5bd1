/**
 * The Gallery page: the loaded images sorted by creation time (newest or oldest first),
 * narrowed by a case-insensitive search on the prompt, and the panels shown for each state.
 */
module Gallery {

  import opened JsText

  /** A gallery entry; `createdAt` is the millisecond timestamp `getTime()` returns. */
  datatype GalleryImage = GalleryImage(id: int, url: string, prompt: string, createdAt: int)

  // ----- ordering -----

  /** The comparator of the sort: negative or zero when `a` may stay before `b`. */
  function Compare(a: GalleryImage, b: GalleryImage, newest: bool): int
  {
    if newest then b.createdAt - a.createdAt else a.createdAt - b.createdAt
  }

  predicate InOrder(a: GalleryImage, b: GalleryImage, newest: bool)
  {
    Compare(a, b, newest) <= 0
  }

  /** Newest first: timestamps never increase; otherwise they never decrease. */
  predicate Sorted(s: seq<GalleryImage>, newest: bool)
  {
    forall i, j :: 0 <= i < j < |s| ==> InOrder(s[i], s[j], newest)
  }

  /** Puts `x` before the first element it may stand before, so it stays ahead of its equals. */
  function Insert(x: GalleryImage, s: seq<GalleryImage>, newest: bool): (r: seq<GalleryImage>)
    ensures multiset(r) == multiset(s) + multiset{x}
  {
    if s == [] then [x]
    else if InOrder(x, s[0], newest) then [x] + s
    else
      assert s == [s[0]] + s[1..];
      [s[0]] + Insert(x, s[1..], newest)
  }

  /** An element that may stand before every element of a sorted list can head it. */
  lemma SortedCons(a: GalleryImage, s: seq<GalleryImage>, newest: bool)
    requires Sorted(s, newest)
    requires forall k :: 0 <= k < |s| ==> InOrder(a, s[k], newest)
    ensures Sorted([a] + s, newest)
  {
    var r := [a] + s;
    forall i, j | 0 <= i < j < |r| ensures InOrder(r[i], r[j], newest) {
      assert r[j] == s[j - 1];
      if i > 0 {
        assert r[i] == s[i - 1];
      }
    }
  }

  lemma SortedTail(s: seq<GalleryImage>, newest: bool)
    requires Sorted(s, newest) && s != []
    ensures Sorted(s[1..], newest)
    ensures forall k :: 0 <= k < |s[1..]| ==> InOrder(s[0], s[1..][k], newest)
  {
    var t := s[1..];
    forall i, j | 0 <= i < j < |t| ensures InOrder(t[i], t[j], newest) {
      assert t[i] == s[i + 1] && t[j] == s[j + 1];
    }
    forall k | 0 <= k < |t| ensures InOrder(s[0], t[k], newest) {
      assert t[k] == s[k + 1];
    }
  }

  /** Inserting into a sorted list keeps it sorted. */
  lemma {:induction false} InsertKeepsSorted(x: GalleryImage, s: seq<GalleryImage>, newest: bool)
    requires Sorted(s, newest)
    ensures Sorted(Insert(x, s, newest), newest)
  {
    if s == [] {
    } else if InOrder(x, s[0], newest) {
      forall k | 0 <= k < |s| ensures InOrder(x, s[k], newest) {
        if k > 0 {
          assert InOrder(s[0], s[k], newest);
        }
      }
      SortedCons(x, s, newest);
    } else {
      SortedTail(s, newest);
      var rest := Insert(x, s[1..], newest);
      InsertKeepsSorted(x, s[1..], newest);
      forall k | 0 <= k < |rest| ensures InOrder(s[0], rest[k], newest) {
        assert rest[k] in multiset(rest);
        if rest[k] != x {
          assert rest[k] in multiset(s[1..]);
          var j :| 0 <= j < |s[1..]| && s[1..][j] == rest[k];
        }
      }
      SortedCons(s[0], rest, newest);
    }
  }

  /**
   * `[...images].sort(comparator)`: a copy of the images in comparator order, equals keeping
   * their original order (the sort is stable).
   */
  function SortImages(images: seq<GalleryImage>, newest: bool): (r: seq<GalleryImage>)
    ensures multiset(r) == multiset(images)
    ensures Sorted(r, newest)
  {
    if images == [] then []
    else
      assert images == [images[0]] + images[1..];
      var rest := SortImages(images[1..], newest);
      InsertKeepsSorted(images[0], rest, newest);
      Insert(images[0], rest, newest)
  }

  /** Images already in order are left exactly as they are. */
  lemma {:induction false} SortKeepsSorted(images: seq<GalleryImage>, newest: bool)
    requires Sorted(images, newest)
    ensures SortImages(images, newest) == images
  {
    if images != [] {
      SortedTail(images, newest);
      SortKeepsSorted(images[1..], newest);
      if |images| > 1 {
        assert InOrder(images[0], images[1..][0], newest);
      }
      assert images == [images[0]] + images[1..];
    }
  }

  /** Sorting twice gives what sorting once gives. */
  lemma SortIdempotent(images: seq<GalleryImage>, newest: bool)
    ensures SortImages(SortImages(images, newest), newest) == SortImages(images, newest)
  {
    SortKeepsSorted(SortImages(images, newest), newest);
  }

  // ----- search -----

  /** The search predicate: the lowercased prompt contains the lowercased query. */
  predicate Matches(image: GalleryImage, query: string)
  {
    Includes(ToLower(image.prompt), ToLower(query))
  }

  /** `sortedImages.filter(…)`: the matching images, in the order given. */
  function FilterImages(images: seq<GalleryImage>, query: string): (r: seq<GalleryImage>)
    ensures |r| <= |images|
    ensures forall x :: x in r <==> x in images && Matches(x, query)
  {
    if images == [] then []
    else
      assert forall x :: x in images <==> x == images[0] || x in images[1..];
      (if Matches(images[0], query) then [images[0]] else []) + FilterImages(images[1..], query)
  }

  /** Every matching image is kept as often as it occurs, and no other image is kept. */
  lemma {:induction false} FilterMultiplicity(images: seq<GalleryImage>, query: string)
    ensures forall x ::
      multiset(FilterImages(images, query))[x] == (if Matches(x, query) then multiset(images)[x] else 0)
  {
    if images != [] {
      FilterMultiplicity(images[1..], query);
      assert images == [images[0]] + images[1..];
    }
  }

  /** `a` is `b` with some elements left out, the rest in the same order. */
  predicate IsSubsequence(a: seq<GalleryImage>, b: seq<GalleryImage>)
    decreases |b|
  {
    if a == [] then true
    else if b == [] then false
    else (a[0] == b[0] && IsSubsequence(a[1..], b[1..])) || IsSubsequence(a, b[1..])
  }

  /** The search only removes images; it never reorders them. */
  lemma {:induction false} FilterIsSubsequence(images: seq<GalleryImage>, query: string)
    ensures IsSubsequence(FilterImages(images, query), images)
  {
    if images != [] {
      FilterIsSubsequence(images[1..], query);
      var r := FilterImages(images, query);
      if Matches(images[0], query) {
        assert r[0] == images[0] && r[1..] == FilterImages(images[1..], query);
      } else {
        assert r == FilterImages(images[1..], query);
      }
    }
  }

  /** A sorted list stays sorted under the search. */
  lemma {:induction false} FilterKeepsSorted(images: seq<GalleryImage>, query: string, newest: bool)
    requires Sorted(images, newest)
    ensures Sorted(FilterImages(images, query), newest)
  {
    if images != [] {
      var tail := images[1..];
      SortedTail(images, newest);
      FilterKeepsSorted(tail, query, newest);
      var rest := FilterImages(tail, query);
      forall k | 0 <= k < |rest| ensures InOrder(images[0], rest[k], newest) {
        assert rest[k] in tail;
        var j :| 0 <= j < |tail| && tail[j] == rest[k];
      }
      if Matches(images[0], query) {
        SortedCons(images[0], rest, newest);
      }
    }
  }

  /** An empty query keeps every image. */
  lemma {:induction false} EmptyQueryKeepsAll(images: seq<GalleryImage>)
    ensures FilterImages(images, "") == images
  {
    if images != [] {
      assert Includes(ToLower(images[0].prompt), ToLower(""));
      EmptyQueryKeepsAll(images[1..]);
      assert images == [images[0]] + images[1..];
    }
  }

  /** The search ignores ASCII case in the query. */
  lemma QueryCaseIgnored(images: seq<GalleryImage>, query: string)
    ensures FilterImages(images, ToLower(query)) == FilterImages(images, query)
  {
    ToLowerIdempotent(query);
    FilterSameMatches(images, ToLower(query), query);
  }

  lemma {:induction false} FilterSameMatches(images: seq<GalleryImage>, q1: string, q2: string)
    requires ToLower(q1) == ToLower(q2)
    ensures FilterImages(images, q1) == FilterImages(images, q2)
  {
    if images != [] {
      FilterSameMatches(images[1..], q1, q2);
    }
  }

  // ----- the page -----

  /** The main panel: the loading indicator, the image grid, or the "no mockups found" panel. */
  datatype GalleryView = Loading | Grid(items: seq<GalleryImage>) | NoResults

  class GalleryPage {
    var images: seq<GalleryImage>
    var searchQuery: string
    var sortBy: string
    var isLoading: bool

    /** The initial state: no images, an empty query, newest first, loading. */
    constructor ()
      ensures images == [] && searchQuery == "" && sortBy == "newest" && isLoading
    {
      images := [];
      searchQuery := "";
      sortBy := "newest";
      isLoading := true;
    }

    /** `sortedImages`: newest first exactly when `sortBy` is `"newest"`. */
    function SortedImages(): seq<GalleryImage>
      reads this
    {
      SortImages(images, sortBy == "newest")
    }

    /** `filteredImages`. */
    function FilteredImages(): seq<GalleryImage>
      reads this
    {
      FilterImages(SortedImages(), searchQuery)
    }

    function View(): GalleryView
      reads this
    {
      if isLoading then Loading
      else if |FilteredImages()| > 0 then Grid(FilteredImages())
      else NoResults
    }

    /** The "Load More" button. */
    predicate LoadMoreShown()
      reads this
    {
      !isLoading && |FilteredImages()| > 0
    }

    /** The "Create Your Own 3D Mockups" panel. */
    predicate CreatePanelShown()
      reads this
    {
      !isLoading
    }

    /** The end of the loading effect: the fetched images are in place and loading is over. */
    method FinishLoading(fetched: seq<GalleryImage>)
      modifies this
      ensures images == fetched && !isLoading
      ensures searchQuery == old(searchQuery) && sortBy == old(sortBy)
    {
      images := fetched;
      isLoading := false;
    }

    /** Typing in the search box. */
    method SetSearchQuery(query: string)
      modifies this
      ensures searchQuery == query
      ensures images == old(images) && sortBy == old(sortBy) && isLoading == old(isLoading)
    {
      searchQuery := query;
    }

    /** The "Clear search" button: the query is empty again, so every loaded image is shown. */
    method ClearSearch()
      modifies this
      ensures searchQuery == ""
      ensures images == old(images) && sortBy == old(sortBy) && isLoading == old(isLoading)
      ensures FilteredImages() == SortedImages()
      ensures !isLoading ==> (View() == NoResults <==> images == [])
    {
      searchQuery := "";
      EmptyQueryKeepsAll(SortedImages());
      if images != [] {
        assert images[0] in multiset(SortedImages());
      }
    }

    /** Choosing an order in the select. */
    method SetSortBy(value: string)
      modifies this
      ensures sortBy == value
      ensures images == old(images) && searchQuery == old(searchQuery) && isLoading == old(isLoading)
    {
      sortBy := value;
    }
  }

  /**
   * Once loaded, the page shows the grid or the "no mockups found" panel, the latter exactly when
   * no image matches; "Load More" accompanies the grid and nothing else; the invitation to create
   * a mockup follows both of them.
   */
  lemma PanelsShown(page: GalleryPage)
    ensures page.LoadMoreShown() <==> page.View().Grid?
    ensures !page.isLoading ==> (page.View() == NoResults <==> page.FilteredImages() == [])
    ensures page.isLoading <==> page.View() == Loading
    ensures page.CreatePanelShown() <==> !page.isLoading
  {
  }

  /**
   * The grid shows exactly the loaded images whose prompt matches the query, in the chosen
   * order, without changing the loaded list.
   */
  lemma GridShowsMatches(page: GalleryPage)
    requires page.View().Grid?
    ensures forall x :: x in page.View().items <==> x in page.images && Matches(x, page.searchQuery)
    ensures forall x ::
      multiset(page.View().items)[x] == (if Matches(x, page.searchQuery) then multiset(page.images)[x] else 0)
    ensures Sorted(page.View().items, page.sortBy == "newest")
    ensures IsSubsequence(page.View().items, page.SortedImages())
  {
    var sorted := page.SortedImages();
    forall x ensures x in sorted <==> x in page.images {
      assert x in sorted <==> x in multiset(sorted);
    }
    FilterMultiplicity(sorted, page.searchQuery);
    FilterKeepsSorted(sorted, page.searchQuery, page.sortBy == "newest");
    FilterIsSubsequence(sorted, page.searchQuery);
  }
}
