/**
 * The pagination of `GET /api/cars`: the `||` defaulting of the parsed query parameters,
 * the start and end indices, `Array.prototype.slice` with its index normalisation, and the
 * metadata block with `Math.ceil(totalItems / limit)` computed on integers.
 */
module Pagination {
  import opened Wrappers

  const DEFAULT_PAGE := 1
  const DEFAULT_LIMIT := 10

  function Min(a: int, b: int): int { if a <= b then a else b }
  function Max(a: int, b: int): int { if a <= b then b else a }

  /**
   * `parseInt(x) || default`: the parsed value is kept when it is truthy, that is, when it is
   * a number (not `NaN`, modelled as `None`) other than zero; otherwise the default is used.
   */
  function OrDefault(parsed: Option<int>, default: int): (r: int)
    ensures parsed.Some? && parsed.value != 0 ==> r == parsed.value
    ensures parsed.None? || parsed.value == 0 ==> r == default
    ensures default != 0 ==> r != 0
  {
    if parsed.Some? && parsed.value != 0 then parsed.value else default
  }

  /**
   * The index normalisation of `slice`: a negative index counts from the end and stops at 0,
   * any index stops at the length.
   */
  function SliceIndex(i: int, len: nat): (r: nat)
    ensures r <= len
    ensures 0 <= i ==> r == Min(i, len)
    ensures i < 0 ==> r == Max(len + i, 0)
  {
    if i < 0 then (if len + i < 0 then 0 else len + i)
    else if i < len then i
    else len
  }

  /** `s.slice(start, end)`: the elements from the normalised start up to the normalised end. */
  function Slice<T>(s: seq<T>, start: int, end: int): (r: seq<T>)
    ensures |r| == Max(SliceIndex(end, |s|) - SliceIndex(start, |s|), 0)
    ensures forall k :: 0 <= k < |r| ==> r[k] == s[SliceIndex(start, |s|) + k]
  {
    var from, to := SliceIndex(start, |s|), SliceIndex(end, |s|);
    if from < to then s[from..to] else []
  }

  /**
   * `Math.ceil(n / d)` for a nonzero integer divisor: the least integer q with n / d <= q,
   * which for a positive d is the least q with n <= q * d.
   */
  function CeilDiv(n: nat, d: int): (q: int)
    requires d != 0
    ensures d > 0 ==> (q - 1) * d < n <= q * d
    ensures d < 0 ==> q * d <= n < (q - 1) * d
  {
    if d > 0 then
      var q := (n + d - 1) / d;
      assert n + d - 1 == q * d + (n + d - 1) % d;
      assert (q - 1) * d == q * d - d;
      q
    else
      var e := -d;
      var m := n / e;
      assert n == m * e + n % e;
      assert (-m - 1) * d == m * e + e;
      -m
  }

  datatype PageInfo = PageInfo(currentPage: int, totalPages: int, totalItems: nat, itemsPerPage: int)

  datatype Page<T> = Page(pagination: PageInfo, data: seq<T>)

  /** The listing handler once the collection is loaded and the query parameters are parsed. */
  function Paginate<T>(items: seq<T>, pageParam: Option<int>, limitParam: Option<int>): (p: Page<T>)
    ensures p.pagination.totalItems == |items|
    ensures p.pagination.currentPage == OrDefault(pageParam, DEFAULT_PAGE) != 0
    ensures p.pagination.itemsPerPage == OrDefault(limitParam, DEFAULT_LIMIT) != 0
    ensures |p.data| <= |items|
    ensures var page, limit := OrDefault(pageParam, DEFAULT_PAGE), OrDefault(limitParam, DEFAULT_LIMIT);
      && p.data == Slice(items, (page - 1) * limit, page * limit)
      && p.pagination.totalPages == CeilDiv(|items|, limit)
  {
    var page := OrDefault(pageParam, DEFAULT_PAGE);
    var limit := OrDefault(limitParam, DEFAULT_LIMIT);
    var startIndex := (page - 1) * limit;
    var endIndex := page * limit;
    Page(PageInfo(page, CeilDiv(|items|, limit), |items|, limit), Slice(items, startIndex, endIndex))
  }

  /**
   * For a page and a limit of at least 1, the data is the part of the collection between
   * (page - 1) * limit and page * limit, clipped to the collection: at most `limit` records,
   * none once the start is past the end.
   */
  lemma PageInRange<T>(items: seq<T>, page: int, limit: int)
    requires page >= 1 && limit >= 1
    ensures var start, end := (page - 1) * limit, page * limit;
      && 0 <= start <= end
      && Paginate(items, Some(page), Some(limit)).data == items[Min(start, |items|)..Min(end, |items|)]
      && |Paginate(items, Some(page), Some(limit)).data| <= limit
      && (start >= |items| ==> Paginate(items, Some(page), Some(limit)).data == [])
  {
    var start, end := (page - 1) * limit, page * limit;
    assert end == start + limit;
    assert 0 <= start by { MulNonNegative(page - 1, limit); }
    var data := Paginate(items, Some(page), Some(limit)).data;
    assert data == items[Min(start, |items|)..Min(end, |items|)];
  }

  /**
   * The metadata describes the whole collection: `totalPages` is the ceiling of
   * `totalItems / limit`, 0 exactly for an empty collection, and it is the same whatever page
   * was asked for, in range or not.
   */
  lemma PageMetadata<T>(items: seq<T>, pageParam: Option<int>, otherPage: Option<int>, limit: int)
    requires limit >= 1
    ensures var info := Paginate(items, pageParam, Some(limit)).pagination;
      && info.totalItems == |items|
      && info.itemsPerPage == limit
      && (info.totalPages - 1) * limit < |items| <= info.totalPages * limit
      && (info.totalPages == 0 <==> |items| == 0)
      && info.totalPages >= 0
      && info.(currentPage := 0) == Paginate(items, otherPage, Some(limit)).pagination.(currentPage := 0)
  {
  }

  /**
   * With a page and a limit of at least 1, a page holds data exactly when its number is at
   * most `totalPages`.
   */
  lemma PageNonEmptyIffInRange<T>(items: seq<T>, page: int, limit: int)
    requires page >= 1 && limit >= 1
    ensures var p := Paginate(items, Some(page), Some(limit));
      |p.data| > 0 <==> page <= p.pagination.totalPages
  {
    var p := Paginate(items, Some(page), Some(limit));
    var tp := p.pagination.totalPages;
    PageInRange(items, page, limit);
    PageMetadata(items, Some(page), Some(page), limit);
    if page <= tp {
      assert (page - 1) * limit <= (tp - 1) * limit by { MulMonotonic(page - 1, tp - 1, limit); }
    } else {
      assert tp * limit <= (page - 1) * limit by { MulMonotonic(tp, page - 1, limit); }
    }
  }

  /** The data of pages 1 to n, one after the other. */
  function PagesUpTo<T>(items: seq<T>, limit: int, n: nat): seq<T>
    requires limit != 0
  {
    if n == 0 then [] else PagesUpTo(items, limit, n - 1) + Paginate(items, Some(n), Some(limit)).data
  }

  /** Pages 1 to n together are the first n * limit records of the collection, in order. */
  lemma {:induction false} PagesUpToArePrefix<T>(items: seq<T>, limit: int, n: nat)
    requires limit >= 1
    ensures PagesUpTo(items, limit, n) == items[..Min(n * limit, |items|)]
  {
    if n > 0 {
      var previous := PagesUpTo(items, limit, n - 1);
      var data := Paginate(items, Some(n), Some(limit)).data;
      assert PagesUpTo(items, limit, n) == previous + data;
      PagesUpToArePrefix(items, limit, n - 1);
      PageInRange(items, n, limit);
      PrefixThenSlice(items, Min((n - 1) * limit, |items|), Min(n * limit, |items|));
    }
  }

  lemma PrefixThenSlice<T>(s: seq<T>, a: nat, b: nat)
    requires a <= b <= |s|
    ensures s[..a] + s[a..b] == s[..b]
  {
  }

  /**
   * Walking the pages from 1 to `totalPages` visits every record exactly once, in the
   * collection's order.
   */
  lemma AllPagesCoverCollection<T>(items: seq<T>, limit: int)
    requires limit >= 1
    ensures var tp := Paginate(items, None, Some(limit)).pagination.totalPages;
      tp >= 0 && PagesUpTo(items, limit, tp) == items
  {
    var tp := Paginate(items, None, Some(limit)).pagination.totalPages;
    PageMetadata(items, None, None, limit);
    PagesUpToArePrefix(items, limit, tp);
  }

  /**
   * Without usable query parameters the listing is page 1 of 10: the first ten records, or
   * all of them when there are fewer.
   */
  lemma DefaultListing<T>(items: seq<T>, pageParam: Option<int>, limitParam: Option<int>)
    requires pageParam == None || pageParam == Some(0)
    requires limitParam == None || limitParam == Some(0)
    ensures var p := Paginate(items, pageParam, limitParam);
      && p.pagination.currentPage == 1
      && p.pagination.itemsPerPage == 10
      && p.pagination.totalItems == |items|
      && p.data == items[..Min(10, |items|)]
  {
  }

  /**
   * A negative page (`parseInt` lets it through the `||`) makes both indices negative, so
   * `slice` counts them from the end of the collection.
   */
  lemma NegativePageCountsFromEnd<T>(items: seq<T>, page: int, limit: int)
    requires page < 0 && limit >= 1
    ensures var start, end := (page - 1) * limit, page * limit;
      && start < end < 0
      && Paginate(items, Some(page), Some(limit)).data
         == items[Max(|items| + start, 0)..Max(|items| + end, 0)]
  {
  }

  /**
   * A negative limit (also let through by the `||`) on the first page makes the end index
   * negative, so the listing drops `-limit` records from the end; `totalPages` is then the
   * ceiling of a negative quotient, never positive.
   */
  lemma NegativeLimitDropsFromEnd<T>(items: seq<T>, pageParam: Option<int>, limit: int)
    requires pageParam == None || pageParam == Some(0) || pageParam == Some(1)
    requires limit < 0
    ensures var p := Paginate(items, pageParam, Some(limit));
      && p.data == items[..Max(|items| + limit, 0)]
      && p.pagination.totalPages <= 0
      && p.pagination.totalPages == -(|items| / -limit)
  {
    var p := Paginate(items, pageParam, Some(limit));
    assert p.data == items[..Max(|items| + limit, 0)];
  }

  lemma MulNonNegative(a: int, b: int)
    requires a >= 0 && b >= 0
    ensures a * b >= 0
  {
  }

  lemma MulMonotonic(a: int, b: int, c: int)
    requires a <= b && c >= 0
    ensures a * c <= b * c
  {
    MulNonNegative(b - a, c);
    assert (b - a) * c == b * c - a * c;
  }
}
