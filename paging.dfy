/**
 * getPaging: the page count, the previous and next pages, the window of at
 * most five page numbers around the current page, and the links of the
 * navigation. The navigation is modelled as its list of items; the markup
 * around them is not.
 */
module Paging {
  import opened Schema

  function Max(a: int, b: int): int {
    if a < b then b else a
  }

  function Min(a: int, b: int): int {
    if a < b then a else b
  }

  /** ceil(totalRows / perPage). */
  function TotalPages(totalRows: nat, perPage: nat): nat
    requires perPage > 0
  {
    (totalRows + perPage - 1) / perPage
  }

  /** The page count is the ceiling of the quotient: enough pages for every row, and no empty last page. */
  lemma TotalPagesIsCeiling(totalRows: nat, perPage: nat)
    requires perPage > 0
    ensures TotalPages(totalRows, perPage) * perPage >= totalRows
    ensures (TotalPages(totalRows, perPage) - 1) * perPage < totalRows || totalRows == 0
    ensures TotalPages(totalRows, perPage) == 0 <==> totalRows == 0
  {
    var n := totalRows + perPage - 1;
    var q := n / perPage;
    assert n == q * perPage + n % perPage;
  }

  /** How many page numbers are shown on each side of the current one. */
  const MaxLinks := 2

  function Previous(page: int): Option<int> {
    if page > 1 then Some(page - 1) else None
  }

  function Next(page: int, totalPages: int): Option<int> {
    if page < totalPages then Some(page + 1) else None
  }

  /** The consecutive integers lo..hi, empty when lo > hi. */
  function Range(lo: int, hi: int): (r: seq<int>)
    ensures |r| == if lo > hi then 0 else hi - lo + 1
    ensures forall k :: 0 <= k < |r| ==> r[k] == lo + k
    decreases hi - lo
  {
    if lo > hi then [] else [lo] + Range(lo + 1, hi)
  }

  function Window(page: int, totalPages: int): seq<int> {
    Range(Max(1, page - MaxLinks), Min(totalPages, page + MaxLinks))
  }

  /**
   * The window is at most five consecutive pages, all between 1 and the page
   * count, and holds the current page whenever that page exists.
   */
  lemma WindowBounds(page: int, totalPages: int)
    ensures |Window(page, totalPages)| <= 2 * MaxLinks + 1
    ensures forall k :: 0 <= k < |Window(page, totalPages)| ==> 1 <= Window(page, totalPages)[k] <= totalPages
    ensures forall k :: 0 < k < |Window(page, totalPages)| ==> Window(page, totalPages)[k] == Window(page, totalPages)[k - 1] + 1
    ensures 1 <= page <= totalPages ==> page in Window(page, totalPages)
  {
    var w := Window(page, totalPages);
    if 1 <= page <= totalPages {
      assert w[page - Max(1, page - MaxLinks)] == page;
    }
  }

  // ---------------------------------------------------------------------------
  // The base URL

  predicate DigitChar(c: char) {
    '0' <= c <= '9'
  }

  /** The end of the digit run that starts at i. */
  function DigitRunEnd(s: string, i: nat): (r: nat)
    requires i <= |s|
    ensures i <= r <= |s|
    ensures forall j :: i <= j < r ==> DigitChar(s[j])
    ensures r < |s| ==> !DigitChar(s[r])
    decreases |s| - i
  {
    if i < |s| && DigitChar(s[i]) then DigitRunEnd(s, i + 1) else i
  }

  /** A match of `&page=[0-9]+` starts at i. */
  predicate PageArgAt(s: string, i: nat) {
    i + 7 <= |s| && s[i..i + 6] == "&page=" && DigitChar(s[i + 6])
  }

  /** One left-to-right pass of the replacement, from position i. */
  function StripFrom(s: string, i: nat): string
    requires i <= |s|
    decreases |s| - i
  {
    if i == |s| then []
    else if PageArgAt(s, i) then StripFrom(s, DigitRunEnd(s, i + 6))
    else [s[i]] + StripFrom(s, i + 1)
  }

  /** `preg_replace('/&page=[0-9]+/', '', url)`. */
  function StripPage(url: string): string {
    StripFrom(url, 0)
  }

  lemma {:induction false} StripFromUnchanged(s: string, i: nat)
    requires i <= |s|
    requires forall j :: i <= j < |s| ==> !PageArgAt(s, j)
    ensures StripFrom(s, i) == s[i..]
    decreases |s| - i
  {
    if i < |s| {
      StripFromUnchanged(s, i + 1);
      assert s[i..] == [s[i]] + s[i + 1..];
    }
  }

  /** A URL without a `&page=N` parameter is left as it is. */
  lemma NoPageArgUnchanged(url: string)
    requires forall j :: 0 <= j < |url| ==> !PageArgAt(url, j)
    ensures StripPage(url) == url
  {
    StripFromUnchanged(url, 0);
  }

  /** A trailing `&page=N` after a base without `&` is removed. */
  lemma {:induction false} TrailingPageArgRemoved(base: string, digits: string)
    requires '&' !in base
    requires |digits| > 0 && forall j :: 0 <= j < |digits| ==> DigitChar(digits[j])
    ensures StripPage(base + "&page=" + digits) == base
  {
    var s := base + "&page=" + digits;
    var b := |base|;
    assert s[b..b + 6] == "&page=";
    assert s[b + 6] == digits[0];
    assert DigitRunEnd(s, b + 6) == |s| by {
      DigitRunAll(s, b + 6);
    }
    assert StripFrom(s, b) == [];
    StripPrefix(s, base, 0);
  }

  lemma {:induction false} DigitRunAll(s: string, i: nat)
    requires i <= |s| && forall j :: i <= j < |s| ==> DigitChar(s[j])
    ensures DigitRunEnd(s, i) == |s|
    decreases |s| - i
  {
    if i < |s| {
      DigitRunAll(s, i + 1);
    }
  }

  /** The pass over a prefix without `&` copies it. */
  lemma {:induction false} StripPrefix(s: string, base: string, i: nat)
    requires |base| <= |s| && s[..|base|] == base && '&' !in base && i <= |base|
    ensures StripFrom(s, i) == base[i..] + StripFrom(s, |base|)
    decreases |base| - i
  {
    if i < |base| {
      assert s[i] == base[i];
      assert !PageArgAt(s, i);
      StripPrefix(s, base, i + 1);
      assert base[i..] == [base[i]] + base[i + 1..];
    }
  }

  /**
   * The replacement is a single pass: removing one parameter can bring a new
   * `&page=` together out of the text around it, and that one stays.
   */
  lemma StripIsOnePass()
    ensures StripPage("&pa&page=1ge=2") == "&page=2"
    ensures PageArgAt("&page=2", 0)
  {
    var s := "&pa&page=1ge=2";
    assert !PageArgAt(s, 0) && !PageArgAt(s, 1) && !PageArgAt(s, 2);
    assert PageArgAt(s, 3);
    assert DigitRunEnd(s, 9) == 10;
    assert !PageArgAt(s, 10) && !PageArgAt(s, 11) && !PageArgAt(s, 12) && !PageArgAt(s, 13);
    assert StripFrom(s, 10) == "ge=2";
  }

  /** The separator: `?` when the URL has no query, `&` otherwise. */
  function Separator(url: string): char {
    if '?' in url then '&' else '?'
  }

  // ---------------------------------------------------------------------------
  // The navigation

  /** Decimal text of a natural number. */
  function NatText(n: nat): string
    decreases n
  {
    if n < 10 then [(48 + n) as char] else NatText(n / 10) + [(48 + n % 10) as char]
  }

  /** Decimal text of an integer, as string concatenation writes it. */
  function IntText(i: int): string {
    if i < 0 then "-" + NatText(-i) else NatText(i)
  }

  function Href(base: string, sep: char, p: int): string {
    base + [sep] + "page=" + IntText(p)
  }

  datatype PageItem =
    | PrevLink(href: string)
    | PrevDisabled
    | PageLink(number: int, href: string)
    | PageActive(number: int)
    | NextLink(href: string)
    | NextDisabled

  /** No navigation (the empty string), or the navigation's items in order. */
  datatype Nav = NoNav | Nav(items: seq<PageItem>)

  function PageItemOf(p: int, page: int, base: string, sep: char): PageItem {
    if p == page then PageActive(p) else PageLink(p, Href(base, sep, p))
  }

  function PageItems(pages: seq<int>, page: int, base: string, sep: char): (r: seq<PageItem>)
    ensures |r| == |pages|
    ensures forall k :: 0 <= k < |pages| ==> r[k] == PageItemOf(pages[k], page, base, sep)
  {
    if |pages| == 0 then [] else [PageItemOf(pages[0], page, base, sep)] + PageItems(pages[1..], page, base, sep)
  }

  function NavOf(page: int, totalRows: nat, perPage: nat, url: string): Nav
    requires perPage > 0
  {
    var total := TotalPages(totalRows, perPage);
    if total == 0 then NoNav
    else
      var base := StripPage(url);
      var sep := Separator(base);
      var prev := match Previous(page) case Some(p) => PrevLink(Href(base, sep, p)) case None => PrevDisabled;
      var next := match Next(page, total) case Some(p) => NextLink(Href(base, sep, p)) case None => NextDisabled;
      Nav([prev] + PageItems(Window(page, total), page, base, sep) + [next])
  }

  /** getPaging's first loop: the page numbers from startPage to endPage. */
  method PagesBetween(startPage: int, endPage: int) returns (pages: seq<int>)
    ensures pages == Range(startPage, endPage)
  {
    pages := [];
    var i := startPage;
    while i <= endPage
      invariant startPage <= i <= Max(startPage, endPage + 1)
      invariant pages + Range(i, endPage) == Range(startPage, endPage)
      decreases endPage - i
    {
      assert Range(i, endPage) == [i] + Range(i + 1, endPage);
      pages := pages + [i];
      i := i + 1;
    }
  }

  /** getPaging's second loop: one item per page number. */
  method ItemsFor(pages: seq<int>, page: int, base: string, sep: char) returns (items: seq<PageItem>)
    ensures items == PageItems(pages, page, base, sep)
  {
    items := [];
    var k := 0;
    while k < |pages|
      invariant 0 <= k <= |pages|
      invariant items == PageItems(pages[..k], page, base, sep)
    {
      PageItemsSnoc(pages, k, page, base, sep);
      var p := pages[k];
      if p == page {
        items := items + [PageActive(p)];
      } else {
        items := items + [PageLink(p, base + [sep] + "page=" + IntText(p))];
      }
      k := k + 1;
    }
    assert pages[..k] == pages;
  }

  lemma PageItemsSnoc(pages: seq<int>, k: nat, page: int, base: string, sep: char)
    requires k < |pages|
    ensures PageItems(pages[..k + 1], page, base, sep) == PageItems(pages[..k], page, base, sep) + [PageItemOf(pages[k], page, base, sep)]
  {
    assert pages[..k + 1] == pages[..k] + [pages[k]];
    PageItemsConcat(pages[..k], [pages[k]], page, base, sep);
  }

  /** getPaging: the page count, the window, then the previous link, the page items and the next link. */
  method GetPaging(page: int, totalRows: nat, perPage: nat, url: string) returns (nav: Nav)
    requires perPage > 0
    ensures nav == NavOf(page, totalRows, perPage, url)
  {
    var totalPages := (totalRows + perPage - 1) / perPage;
    if totalPages <= 0 {
      return NoNav;
    }
    var base := StripPage(url);
    var sep := if '?' in base then '&' else '?';
    var pages := PagesBetween(Max(1, page - MaxLinks), Min(totalPages, page + MaxLinks));
    var prev := if page > 1 then PrevLink(Href(base, sep, page - 1)) else PrevDisabled;
    var middle := ItemsFor(pages, page, base, sep);
    var next := if page < totalPages then NextLink(Href(base, sep, page + 1)) else NextDisabled;
    return Nav([prev] + middle + [next]);
  }

  lemma PageItemsConcat(a: seq<int>, b: seq<int>, page: int, base: string, sep: char)
    ensures PageItems(a + b, page, base, sep) == PageItems(a, page, base, sep) + PageItems(b, page, base, sep)
  {
  }

  /**
   * In the navigation the current page is shown active without a link, and
   * every other listed page links to the stripped URL, the separator and
   * `page=` followed by its number. The previous link goes to page − 1 exactly
   * after page 1 and the next link to page + 1 exactly before the last page;
   * otherwise they are disabled.
   */
  lemma NavLinks(page: int, totalRows: nat, perPage: nat, url: string)
    requires perPage > 0 && totalRows > 0
    ensures var n := NavOf(page, totalRows, perPage, url);
      var w := Window(page, TotalPages(totalRows, perPage));
      var base := StripPage(url);
      && n.Nav?
      && |n.items| == |w| + 2
      && (forall k :: 0 <= k < |w| && w[k] == page ==> n.items[k + 1] == PageActive(page))
      && (forall k :: 0 <= k < |w| && w[k] != page ==> n.items[k + 1] == PageLink(w[k], base + [Separator(base)] + "page=" + IntText(w[k])))
      && (page > 1 ==> n.items[0] == PrevLink(base + [Separator(base)] + "page=" + IntText(page - 1)))
      && (page <= 1 ==> n.items[0] == PrevDisabled)
      && (page < TotalPages(totalRows, perPage) ==>
            n.items[|n.items| - 1] == NextLink(base + [Separator(base)] + "page=" + IntText(page + 1)))
      && (page >= TotalPages(totalRows, perPage) ==> n.items[|n.items| - 1] == NextDisabled)
  {
    TotalPagesIsCeiling(totalRows, perPage);
  }
}
