/**
 * Fixed-size pagination of the dish catalogue on the menu page, and the filter that
 * keeps hidden dishes off the page.
 */
module MenuPages {
  import opened Seqs
  import opened MenuCart

  /** Dishes per page. */
  const ItemsPerPage: nat := 8

  /** `startIndex`: the catalogue index where page `page` begins. */
  function StartIndex(page: int): int {
    (page - 1) * ItemsPerPage
  }

  /**
   * How `Array.prototype.slice` resolves an index against a length `n`: a negative
   * index counts back from the end, and the result is clamped to `0..n`.
   */
  function SliceIndex(i: int, n: nat): (r: nat)
    ensures r <= n
  {
    if i < 0 then (if n + i < 0 then 0 else n + i)
    else if i < n then i else n
  }

  /** `Array.prototype.slice` on a sequence. */
  function Slice<T>(s: seq<T>, start: int, end: int): seq<T> {
    var from, to := SliceIndex(start, |s|), SliceIndex(end, |s|);
    if from < to then s[from..to] else []
  }

  /** `paginatedDishes`: the dishes of page `page` (pages are numbered from 1). */
  function Paginated(dishes: seq<Dish>, page: int): seq<Dish> {
    Slice(dishes, StartIndex(page), StartIndex(page) + ItemsPerPage)
  }

  /** `pageCount`: enough pages of 8 for `n` dishes. */
  function PageCount(n: nat): (r: nat)
    ensures (r - 1) * ItemsPerPage < n <= r * ItemsPerPage
  {
    (n + ItemsPerPage - 1) / ItemsPerPage
  }

  /** The page's filter that drops hidden dishes. */
  function Visible(dishes: seq<Dish>): (r: seq<Dish>)
    ensures forall x :: x in r <==> x in dishes && x.status != Hidden
  {
    if dishes == [] then []
    else if dishes[0].status != Hidden then [dishes[0]] + Visible(dishes[1..])
    else Visible(dishes[1..])
  }

  /** The dish cards rendered for a page. */
  function DisplayedDishes(dishes: seq<Dish>, page: int): seq<Dish> {
    Visible(Paginated(dishes, page))
  }

  /** The pages `1..k` laid end to end. */
  function PagesUpTo(dishes: seq<Dish>, k: nat): seq<Dish> {
    if k == 0 then [] else PagesUpTo(dishes, k - 1) + Paginated(dishes, k)
  }

  function Min(a: int, b: int): int {
    if a < b then a else b
  }

  // ---------------------------------------------------------------------------

  /** A page never holds more than 8 dishes; page `p >= 1` is `dishes[(p-1)*8 .. min(n, p*8)]`. */
  lemma PageContents(dishes: seq<Dish>, page: int)
    ensures |Paginated(dishes, page)| <= ItemsPerPage
    ensures page >= 1 ==>
      var n := |dishes|;
      var from := Min(StartIndex(page), n);
      from <= Min(n, page * ItemsPerPage) &&
      Paginated(dishes, page) == dishes[from..Min(n, page * ItemsPerPage)]
  {
  }

  /** Pages after the last one are empty. */
  lemma PagesPastTheEndAreEmpty(dishes: seq<Dish>, page: int)
    requires page > PageCount(|dishes|)
    ensures Paginated(dishes, page) == []
  {
  }

  /** Index `i` is on page `i / 8 + 1`, at position `i % 8`, and on no other page `1..pageCount`. */
  lemma EveryIndexOnExactlyOnePage(dishes: seq<Dish>, i: nat)
    requires i < |dishes|
    ensures var p := i / ItemsPerPage + 1;
      && 1 <= p <= PageCount(|dishes|)
      && StartIndex(p) <= i < StartIndex(p) + |Paginated(dishes, p)|
      && Paginated(dishes, p)[i - StartIndex(p)] == dishes[i]
      && (forall q :: 1 <= q <= PageCount(|dishes|) && q != p ==> !(StartIndex(q) <= i < StartIndex(q) + ItemsPerPage))
  {
    var p := i / ItemsPerPage + 1;
    var n := PageCount(|dishes|);
    assert StartIndex(p) <= i < StartIndex(p) + ItemsPerPage;
    assert p <= n;
    PageContents(dishes, p);
    forall q | 1 <= q <= n && q != p ensures !(StartIndex(q) <= i < StartIndex(q) + ItemsPerPage) {
      if q < p {
        assert StartIndex(q) + ItemsPerPage <= StartIndex(p);
      } else {
        assert StartIndex(p) + ItemsPerPage <= StartIndex(q);
      }
    }
  }

  /** Pages `1..k` together are the first `min(n, 8k)` dishes, in order. */
  lemma {:induction false} PagesUpToIsPrefix(dishes: seq<Dish>, k: nat)
    ensures PagesUpTo(dishes, k) == dishes[..Min(|dishes|, k * ItemsPerPage)]
  {
    if k > 0 {
      PagesUpToIsPrefix(dishes, k - 1);
      PageContents(dishes, k);
      var n := |dishes|;
      assert dishes[..Min(n, k * ItemsPerPage)]
          == dishes[..Min(n, (k - 1) * ItemsPerPage)] + dishes[Min(n, (k - 1) * ItemsPerPage)..Min(n, k * ItemsPerPage)];
    }
  }

  /** Pages `1..pageCount` lay out the whole catalogue exactly once, in order. */
  lemma PagesCoverCatalogue(dishes: seq<Dish>)
    ensures PagesUpTo(dishes, PageCount(|dishes|)) == dishes
  {
    PagesUpToIsPrefix(dishes, PageCount(|dishes|));
  }

  lemma {:induction false} VisibleIsSubsequence(dishes: seq<Dish>)
    ensures IsSubsequence(Visible(dishes), dishes)
  {
    if dishes != [] {
      VisibleIsSubsequence(dishes[1..]);
      var r := Visible(dishes);
      if dishes[0].status != Hidden {
        assert r[0] == dishes[0] && r[1..] == Visible(dishes[1..]);
      } else {
        SubsequenceOfTail(r, dishes);
      }
    }
  }

  /** A page shows no hidden dish, shows every other dish of its slice, and keeps the slice's order. */
  lemma DisplayedDishesOfPage(dishes: seq<Dish>, page: int)
    ensures var shown := DisplayedDishes(dishes, page);
      && (forall k :: 0 <= k < |shown| ==> shown[k].status != Hidden)
      && (forall x :: x in Paginated(dishes, page) && x.status != Hidden ==> x in shown)
      && IsSubsequence(shown, Paginated(dishes, page))
  {
    VisibleIsSubsequence(Paginated(dishes, page));
  }
}
