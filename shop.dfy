/**
 * The product listing page: its query-string editor add_query_arg, the offset
 * of a page of nine products, and the choice between the category listing,
 * the price range and the paged, sorted listing.
 */
module Shop {
  import opened Schema

  // ---------------------------------------------------------------------------
  // add_query_arg

  /** The end of the run of characters other than `&` that starts at k. */
  function ValueEnd(s: string, k: nat): (r: nat)
    requires k <= |s|
    ensures k <= r <= |s|
    decreases |s| - k
  {
    if k < |s| && s[k] != '&' then ValueEnd(s, k + 1) else k
  }

  /** A match of `([?&])key=[^&]+(&|$)` starts at i. */
  predicate ArgAt(s: string, i: nat, key: string) {
    var j := i + 1 + |key|;
    && j + 1 < |s|
    && (s[i] == '?' || s[i] == '&')
    && s[i + 1..j] == key
    && s[j] == '='
    && s[j + 1] != '&'
  }

  /** Where the match at i ends: after the value and the `&` that follows it, if any. */
  function MatchEnd(s: string, i: nat, key: string): (r: nat)
    requires ArgAt(s, i, key)
    ensures i < r <= |s|
  {
    var e := ValueEnd(s, i + 2 + |key|);
    if e < |s| then e + 1 else e
  }

  /** One left-to-right pass of the replacement by `$1`, from position i. */
  function RemoveFrom(s: string, i: nat, key: string): string
    requires i <= |s|
    decreases |s| - i
  {
    if i == |s| then []
    else if ArgAt(s, i, key) then [s[i]] + RemoveFrom(s, MatchEnd(s, i, key), key)
    else [s[i]] + RemoveFrom(s, i + 1, key)
  }

  /** The preg_replace that drops an earlier value of key, keeping its leading separator. */
  function RemoveArg(url: string, key: string): string {
    RemoveFrom(url, 0, key)
  }

  predicate EndsWithAmp(s: string) {
    |s| > 0 && s[|s| - 1] == '&'
  }

  /** rtrim(s, '&'). */
  function RTrimAmp(s: string): (r: string)
    ensures !EndsWithAmp(r)
    ensures |r| <= |s| && r == s[..|r|]
    ensures forall j :: |r| <= j < |s| ==> s[j] == '&'
  {
    if EndsWithAmp(s) then RTrimAmp(s[..|s| - 1]) else s
  }

  /** The URL after the removal with key=value appended. */
  function Appended(u: string, key: string, value: string): string {
    if '?' in u then (if EndsWithAmp(u) then u else u + "&") + key + "=" + value
    else u + "?" + key + "=" + value
  }

  function AddQueryArg(key: string, value: string, url: string): string {
    RTrimAmp(Appended(RemoveArg(url, key), key, value))
  }

  /** The result never ends with `&`. */
  lemma NeverEndsWithAmp(key: string, value: string, url: string)
    ensures !EndsWithAmp(AddQueryArg(key, value, url))
  {
  }

  lemma {:induction false} RemoveFromUnchanged(s: string, i: nat, key: string)
    requires i <= |s|
    requires forall j :: i <= j < |s| ==> !ArgAt(s, j, key)
    ensures RemoveFrom(s, i, key) == s[i..]
    decreases |s| - i
  {
    if i < |s| {
      RemoveFromUnchanged(s, i + 1, key);
      assert s[i..] == [s[i]] + s[i + 1..];
    }
  }

  /** A value that rtrim leaves alone: empty, or not ending with `&`. */
  predicate KeptValue(value: string) {
    !EndsWithAmp(value)
  }

  lemma RTrimKeeps(s: string)
    requires !EndsWithAmp(s)
    ensures RTrimAmp(s) == s
  {
  }

  /**
   * On a URL without a query and without the key, the pair is attached after
   * a `?`.
   */
  lemma NoQueryAppends(key: string, value: string, url: string)
    requires '?' !in url
    requires forall j :: 0 <= j < |url| ==> !ArgAt(url, j, key)
    requires KeptValue(value)
    ensures AddQueryArg(key, value, url) == url + "?" + key + "=" + value
  {
    RemoveFromUnchanged(url, 0, key);
    var s := url + "?" + key + "=" + value;
    assert s[|s| - 1] == if |value| > 0 then value[|value| - 1] else '=';
  }

  /**
   * On a URL with a query, the pair is joined by the URL's own trailing `&`
   * when it has one and by a new `&` otherwise; when the URL did not end with
   * `&&`, the junction is a single `&`.
   */
  lemma QueryJoinsWithOneAmp(key: string, value: string, url: string)
    requires '?' in RemoveArg(url, key)
    requires KeptValue(value)
    ensures var u := RemoveArg(url, key);
      var pre := if EndsWithAmp(u) then u[..|u| - 1] else u;
      && AddQueryArg(key, value, url) == pre + "&" + key + "=" + value
      && (!(EndsWithAmp(u) && EndsWithAmp(u[..|u| - 1])) ==> !EndsWithAmp(pre))
  {
    var u := RemoveArg(url, key);
    var pre := if EndsWithAmp(u) then u[..|u| - 1] else u;
    if EndsWithAmp(u) {
      assert u == pre + "&";
    }
    var s := pre + "&" + key + "=" + value;
    assert s[|s| - 1] == if |value| > 0 then value[|value| - 1] else '=';
  }

  // The pass over a suffix does not depend on what precedes it.

  lemma {:induction false} ValueEndShift(p: string, s: string, k: nat)
    requires k <= |s|
    ensures ValueEnd(p + s, |p| + k) == |p| + ValueEnd(s, k)
    decreases |s| - k
  {
    if k < |s| {
      assert (p + s)[|p| + k] == s[k];
      ValueEndShift(p, s, k + 1);
    }
  }

  lemma ArgAtShift(p: string, s: string, i: nat, key: string)
    requires i < |s|
    ensures ArgAt(p + s, |p| + i, key) <==> ArgAt(s, i, key)
  {
    var j := i + 1 + |key|;
    if j + 1 < |s| {
      assert (p + s)[|p| + i + 1..|p| + j] == s[i + 1..j];
    }
  }

  lemma MatchEndShift(p: string, s: string, i: nat, key: string)
    requires i < |s| && ArgAt(s, i, key) && ArgAt(p + s, |p| + i, key)
    ensures MatchEnd(p + s, |p| + i, key) == |p| + MatchEnd(s, i, key)
  {
    ValueEndShift(p, s, i + 2 + |key|);
  }

  lemma {:induction false} RemoveFromShift(p: string, s: string, i: nat, key: string)
    requires i <= |s|
    ensures RemoveFrom(p + s, |p| + i, key) == RemoveFrom(s, i, key)
    decreases |s| - i
  {
    if i < |s| {
      if ArgAt(s, i, key) {
        RemoveFromShift(p, s, MatchEnd(s, i, key), key);
        ShiftMatchStep(p, s, i, key);
      } else {
        RemoveFromShift(p, s, i + 1, key);
        ShiftPlainStep(p, s, i, key);
      }
    }
  }

  /** A match at i of s is a match at |p| + i of p + s, and the passes after it agree. */
  lemma ShiftMatchStep(p: string, s: string, i: nat, key: string)
    requires i < |s| && ArgAt(s, i, key)
    requires RemoveFrom(p + s, |p| + MatchEnd(s, i, key), key) == RemoveFrom(s, MatchEnd(s, i, key), key)
    ensures RemoveFrom(p + s, |p| + i, key) == RemoveFrom(s, i, key)
  {
    ArgAtShift(p, s, i, key);
    assert (p + s)[|p| + i] == s[i];
    MatchEndShift(p, s, i, key);
    SameMatchStep(p + s, s, |p| + i, i, |p|, key);
  }

  /** Two passes at matches that emit the same separator and resume at corresponding places agree. */
  lemma SameMatchStep(t: string, s: string, a: nat, i: nat, off: nat, key: string)
    requires a < |t| && i < |s| && ArgAt(t, a, key) && ArgAt(s, i, key) && t[a] == s[i]
    requires MatchEnd(t, a, key) == off + MatchEnd(s, i, key)
    requires RemoveFrom(t, off + MatchEnd(s, i, key), key) == RemoveFrom(s, MatchEnd(s, i, key), key)
    ensures RemoveFrom(t, a, key) == RemoveFrom(s, i, key)
  {
    UnfoldAt(t, a, key);
    UnfoldAt(s, i, key);
  }

  /** No match at i of s is no match at |p| + i of p + s, and the passes after it agree. */
  lemma ShiftPlainStep(p: string, s: string, i: nat, key: string)
    requires i < |s| && !ArgAt(s, i, key)
    requires RemoveFrom(p + s, |p| + i + 1, key) == RemoveFrom(s, i + 1, key)
    ensures RemoveFrom(p + s, |p| + i, key) == RemoveFrom(s, i, key)
  {
    ArgAtShift(p, s, i, key);
    assert (p + s)[|p| + i] == s[i];
    SamePlainStep(p + s, s, |p| + i, i, key);
  }

  /** Two passes where no match starts, over the same character, that resume at corresponding places agree. */
  lemma SamePlainStep(t: string, s: string, a: nat, i: nat, key: string)
    requires a < |t| && i < |s| && !ArgAt(t, a, key) && !ArgAt(s, i, key) && t[a] == s[i]
    requires RemoveFrom(t, a + 1, key) == RemoveFrom(s, i + 1, key)
    ensures RemoveFrom(t, a, key) == RemoveFrom(s, i, key)
  {
    StepAt(t, a, key);
    StepAt(s, i, key);
  }

  lemma {:induction false} RemovePrefix(s: string, pre: string, i: nat, key: string)
    requires |pre| <= |s| && s[..|pre|] == pre && '?' !in pre && '&' !in pre && i <= |pre|
    ensures RemoveFrom(s, i, key) == pre[i..] + RemoveFrom(s, |pre|, key)
    decreases |pre| - i
  {
    if i < |pre| {
      assert s[i] == pre[i];
      RemovePrefix(s, pre, i + 1, key);
      assert pre[i..] == [pre[i]] + pre[i + 1..];
    }
  }

  /**
   * The removal on `pre` `sep` key `=` val, followed by nothing or by `&`
   * and more: the pair and its trailing `&` are dropped, the separator stays,
   * and the pass goes on over the rest.
   */
  lemma RemovesEarlierValue(pre: string, sep: char, key: string, val: string, rest: string)
    requires '?' !in pre && '&' !in pre
    requires sep == '?' || sep == '&'
    requires |val| > 0 && '&' !in val
    requires rest == [] || rest[0] == '&'
    ensures RemoveArg(pre + [sep] + key + "=" + val + rest, key)
         == pre + [sep] + (if rest == [] then [] else RemoveArg(rest[1..], key))
  {
    var head := pre + [sep] + key + "=" + val;
    var s := head + rest;
    var tail := if rest == [] then [] else RemoveArg(rest[1..], key);
    PairLayout(pre, sep, key, val, rest);
    RemoveFromSeparator(pre, sep, key, val, rest);
    RemovePrefix(s, pre, 0, key);
    assert pre[0..] == pre;
    assert RemoveArg(s, key) == pre + ([sep] + tail);
    AppendAssoc(pre, [sep], tail);
  }

  /** From the separator on, the pass keeps the separator and resumes over the rest. */
  lemma RemoveFromSeparator(pre: string, sep: char, key: string, val: string, rest: string)
    requires sep == '?' || sep == '&'
    requires |val| > 0 && '&' !in val
    requires rest == [] || rest[0] == '&'
    ensures RemoveFrom(pre + [sep] + key + "=" + val + rest, |pre|, key)
         == [sep] + (if rest == [] then [] else RemoveArg(rest[1..], key))
  {
    if rest == [] {
      SeparatorAtEnd(pre, sep, key, val);
      assert pre + [sep] + key + "=" + val + rest == pre + [sep] + key + "=" + val;
    } else {
      SeparatorBeforeRest(pre, sep, key, val, rest);
    }
  }

  lemma SeparatorAtEnd(pre: string, sep: char, key: string, val: string)
    requires sep == '?' || sep == '&'
    requires |val| > 0 && '&' !in val
    ensures RemoveFrom(pre + [sep] + key + "=" + val, |pre|, key) == [sep]
  {
    var head := pre + [sep] + key + "=" + val;
    HeadMatch(pre, sep, key, val, []);
    assert head + [] == head;
    assert RemoveFrom(head, |head|, key) == [];
  }

  lemma SeparatorBeforeRest(pre: string, sep: char, key: string, val: string, rest: string)
    requires sep == '?' || sep == '&'
    requires |val| > 0 && '&' !in val
    requires rest != [] && rest[0] == '&'
    ensures RemoveFrom(pre + [sep] + key + "=" + val + rest, |pre|, key) == [sep] + RemoveArg(rest[1..], key)
  {
    HeadStep(pre, sep, key, val, rest);
    ResumeAfterPair(pre, sep, key, val, rest);
  }

  /** The step over the pair when an `&` follows it. */
  lemma HeadStep(pre: string, sep: char, key: string, val: string, rest: string)
    requires sep == '?' || sep == '&'
    requires |val| > 0 && '&' !in val
    requires rest != [] && rest[0] == '&'
    ensures RemoveFrom(pre + [sep] + key + "=" + val + rest, |pre|, key)
         == [sep] + RemoveFrom(pre + [sep] + key + "=" + val + rest, |pre + [sep] + key + "=" + val| + 1, key)
  {
    HeadMatch(pre, sep, key, val, rest);
  }

  /** Once the pass has stepped over the pair and its `&`, it resumes as a fresh pass over the rest. */
  lemma ResumeAfterPair(pre: string, sep: char, key: string, val: string, rest: string)
    requires rest != [] && rest[0] == '&'
    requires RemoveFrom(pre + [sep] + key + "=" + val + rest, |pre|, key)
          == [sep] + RemoveFrom(pre + [sep] + key + "=" + val + rest, |pre + [sep] + key + "=" + val| + 1, key)
    ensures RemoveFrom(pre + [sep] + key + "=" + val + rest, |pre|, key) == [sep] + RemoveArg(rest[1..], key)
  {
    RemoveAfterMatch(pre + [sep] + key + "=" + val, rest, key);
  }

  lemma AppendAssoc(a: string, b: string, c: string)
    ensures a + (b + c) == a + b + c
  {
  }

  /** After a match that took the `&`, the pass goes on as a fresh pass over the rest. */
  lemma RemoveAfterMatch(head: string, rest: string, key: string)
    requires rest != [] && rest[0] == '&'
    ensures RemoveFrom(head + rest, |head| + 1, key) == RemoveArg(rest[1..], key)
  {
    var p := head + "&";
    assert head + rest == p + rest[1..];
    RemoveFromShift(p, rest[1..], 0, key);
  }

  /** The pair after `pre` is a match, ending after the value and its `&`. */
  lemma HeadMatch(pre: string, sep: char, key: string, val: string, rest: string)
    requires sep == '?' || sep == '&'
    requires |val| > 0 && '&' !in val
    requires rest == [] || rest[0] == '&'
    ensures var head := pre + [sep] + key + "=" + val;
      && ArgAt(head + rest, |pre|, key)
      && (head + rest)[|pre|] == sep
      && MatchEnd(head + rest, |pre|, key) == |head| + (if rest == [] then 0 else 1)
      && RemoveFrom(head + rest, |pre|, key) == [sep] + RemoveFrom(head + rest, |head| + (if rest == [] then 0 else 1), key)
  {
    var head := pre + [sep] + key + "=" + val;
    var s := head + rest;
    var j := |pre| + 1 + |key|;
    PairLayout(pre, sep, key, val, rest);
    forall m | j + 1 <= m < |head|
      ensures s[m] != '&'
    {
      assert s[m] == s[j + 1..|head|][m - j - 1];
      assert val[m - j - 1] in val;
    }
    ValueEndValue(s, j + 1, |head|);
    UnfoldAt(s, |pre|, key);
  }

  /** Where the parts of `pre` `sep` key `=` val rest sit. */
  lemma PairLayout(pre: string, sep: char, key: string, val: string, rest: string)
    ensures var head := pre + [sep] + key + "=" + val;
      var s := head + rest;
      var j := |pre| + 1 + |key|;
      && |head| == j + 1 + |val| && |s| == |head| + |rest|
      && s[..|pre|] == pre
      && s[|pre|] == sep && s[|pre| + 1..j] == key && s[j] == '='
      && s[j + 1..|head|] == val
      && (|val| > 0 ==> s[j + 1] == val[0])
      && (rest != [] ==> s[|head|] == rest[0])
  {
    var head := pre + [sep] + key + "=" + val;
    var s := head + rest;
    var j := |pre| + 1 + |key|;
    assert s == pre + ([sep] + (key + ("=" + (val + rest))));
    assert s[..|pre|] == pre;
    assert s[|pre| + 1..j] == key;
    assert s[j + 1..|head|] == val;
  }

  /** One step of the pass where no match starts. */
  lemma StepAt(s: string, i: nat, key: string)
    requires i < |s| && !ArgAt(s, i, key)
    ensures RemoveFrom(s, i, key) == [s[i]] + RemoveFrom(s, i + 1, key)
  {
  }

  /** One step of the pass at a match. */
  lemma UnfoldAt(s: string, i: nat, key: string)
    requires i < |s| && ArgAt(s, i, key)
    ensures RemoveFrom(s, i, key) == [s[i]] + RemoveFrom(s, MatchEnd(s, i, key), key)
  {
  }

  lemma {:induction false} ValueEndValue(s: string, k: nat, e: nat)
    requires k <= e <= |s|
    requires forall m :: k <= m < e ==> s[m] != '&'
    requires e == |s| || s[e] == '&'
    ensures ValueEnd(s, k) == e
    decreases e - k
  {
    if k < e {
      ValueEndValue(s, k + 1, e);
    }
  }

  /**
   * Replacing the only parameter: the old pair goes, and the new one is joined
   * by `?&` because the remaining `?` is not an `&`.
   */
  lemma ReplaceOnlyArg(pre: string, key: string, oldValue: string, value: string)
    requires '?' !in pre && '&' !in pre
    requires |oldValue| > 0 && '&' !in oldValue
    requires KeptValue(value)
    ensures AddQueryArg(key, value, pre + "?" + key + "=" + oldValue) == pre + "?&" + key + "=" + value
  {
    RemovesEarlierValue(pre, '?', key, oldValue, []);
    assert pre + "?" + key + "=" + oldValue + [] == pre + "?" + key + "=" + oldValue;
    var u := pre + "?";
    assert '?' in u && u[|u| - 1] == '?';
    var s := u + "&" + key + "=" + value;
    assert s[|s| - 1] == if |value| > 0 then value[|value| - 1] else '=';
    assert s == pre + "?&" + key + "=" + value;
  }

  // ---------------------------------------------------------------------------
  // The listing

  const RecordsPerPage := 9

  /** The first row of a page: page 1 starts at 0 and each page is nine rows on. */
  function PageOffset(page: int): int {
    RecordsPerPage * page - RecordsPerPage
  }

  /** A page number of 0 or less gives a negative LIMIT offset; the next page starts nine rows on. */
  lemma OffsetSign(page: int)
    ensures PageOffset(page) >= 0 <==> page >= 1
    ensures PageOffset(page + 1) == PageOffset(page) + RecordsPerPage
  {
  }

  /** A query parameter as PHP tests it in `if`: unset, "" and "0" are false. */
  predicate Given(p: Option<string>) {
    p.Some? && !EmptyText(p.value)
  }

  datatype Listing =
    | ByCategory(categoryId: string, sortBy: string, sortOrder: string)
    | ByPriceRange(minPrice: string, maxPrice: string, sortBy: string, sortOrder: string)
    | Sorted(offset: int, limit: int, sortBy: string, sortOrder: string)

  /** The query the page runs, with its default sort. */
  function ListingFor(page: int, categoryId: Option<string>, minPrice: Option<string>, maxPrice: Option<string>,
                      sortBy: Option<string>, sortOrder: Option<string>): Listing
  {
    var column := sortBy.GetOr("created");
    var order := sortOrder.GetOr("DESC");
    if Given(categoryId) && Given(minPrice) && Given(maxPrice) then ByCategory(categoryId.value, column, order)
    else if Given(categoryId) then ByCategory(categoryId.value, column, order)
    else if Given(minPrice) && Given(maxPrice) then ByPriceRange(minPrice.value, maxPrice.value, column, order)
    else Sorted(PageOffset(page), RecordsPerPage, column, order)
  }

  /** Whether the navigation is shown below the listing. */
  predicate ShowsPaging(categoryId: Option<string>, minPrice: Option<string>, maxPrice: Option<string>) {
    !Given(categoryId) && !Given(minPrice) && !Given(maxPrice)
  }

  /**
   * A category selects the category listing whatever the price bounds are; a
   * price range is used exactly when there is no category and both bounds are
   * given; otherwise the ninth-row page of the sorted listing is shown.
   */
  lemma Dispatch(page: int, categoryId: Option<string>, minPrice: Option<string>, maxPrice: Option<string>,
                 sortBy: Option<string>, sortOrder: Option<string>)
    ensures var l := ListingFor(page, categoryId, minPrice, maxPrice, sortBy, sortOrder);
      && (Given(categoryId) ==> l == ByCategory(categoryId.value, sortBy.GetOr("created"), sortOrder.GetOr("DESC")))
      && (l.ByPriceRange? <==> !Given(categoryId) && Given(minPrice) && Given(maxPrice))
      && (l.Sorted? <==> !Given(categoryId) && !(Given(minPrice) && Given(maxPrice)))
      && (l.Sorted? ==> l.offset == RecordsPerPage * (page - 1) && l.limit == RecordsPerPage)
  {
  }

  /** The navigation only ever accompanies the sorted listing. */
  lemma PagingOnlyWithSorted(page: int, categoryId: Option<string>, minPrice: Option<string>, maxPrice: Option<string>,
                             sortBy: Option<string>, sortOrder: Option<string>)
    requires ShowsPaging(categoryId, minPrice, maxPrice)
    ensures ListingFor(page, categoryId, minPrice, maxPrice, sortBy, sortOrder).Sorted?
  {
  }

  /**
   * A single price bound is neither a filter nor a reason to page: the page
   * shows the first nine rows of the sorted listing with no navigation.
   */
  lemma SingleBoundHidesPaging(page: int, minPrice: string, sortBy: Option<string>, sortOrder: Option<string>)
    requires !EmptyText(minPrice)
    ensures ListingFor(page, None, Some(minPrice), None, sortBy, sortOrder).Sorted?
    ensures !ShowsPaging(None, Some(minPrice), None)
  {
  }
}
