/**
 * Paged shipment listings (backend/app/api/schemas/pagination.py and the `get_shipments`
 * routes of both routers): the query parameters with their defaults, and the one listing
 * query both routers run — filter by owner, order by creation time, skip
 * `(page - 1) * pageSize` rows, keep at most `pageSize`, and report the page count.
 */
module Pagination {
  import opened Wrappers

  /** `Literal["asc", "desc"]`. */
  datatype Order = Asc | Desc

  /** The listing query parameters. */
  datatype PaginationParams = PaginationParams(page: int, pageSize: int, order: Order)

  /** Why a listing request fails. */
  datatype ListingError =
    | InvalidOrder            // `order` is neither "asc" nor "desc": rejected by request validation
    | NegativeLimitOrOffset   // the database refuses a negative LIMIT or OFFSET
    | ZeroDivision            // `ceil(total / pageSize)` with `pageSize == 0`

  const DefaultPage: int := 1
  const DefaultPageSize: int := 10

  /** `get_pagination_params`: absent query parameters take their defaults, given ones are kept as they are. */
  function GetPaginationParams(page: Option<int>, pageSize: Option<int>, order: Option<string>)
    : (r: Result<PaginationParams, ListingError>)
    ensures r.Err? <==> order.Some? && order.value != "asc" && order.value != "desc"
    ensures r.Err? ==> r.error == InvalidOrder
    ensures r.Ok? ==> r.value.page == (if page.Some? then page.value else 1)
    ensures r.Ok? ==> r.value.pageSize == (if pageSize.Some? then pageSize.value else 10)
    ensures r.Ok? ==> (r.value.order == Asc <==> order.None? || order.value == "asc")
  {
    var o := if order.None? || order.value == "asc" then Some(Asc)
             else if order.value == "desc" then Some(Desc)
             else None;
    if o.None? then Err(InvalidOrder)
    else Ok(PaginationParams(
      if page.Some? then page.value else DefaultPage,
      if pageSize.Some? then pageSize.value else DefaultPageSize,
      o.value))
  }

  /** `a` may come before `b` when ordering by creation time in direction `order`. */
  predicate Precedes<T>(a: T, b: T, createdAt: T -> int, order: Order)
  {
    if order == Asc then createdAt(a) <= createdAt(b) else createdAt(a) >= createdAt(b)
  }

  /** Every earlier element may come before every later one. */
  predicate Sorted<T>(s: seq<T>, createdAt: T -> int, order: Order)
  {
    forall i, j :: 0 <= i < j < |s| ==> Precedes(s[i], s[j], createdAt, order)
  }

  /** Inserts `x` into a sequence, before the first element it may precede. */
  function Insert<T(==)>(x: T, s: seq<T>, createdAt: T -> int, order: Order): (r: seq<T>)
    ensures multiset(r) == multiset(s) + multiset{x}
    ensures forall k :: 0 <= k < |r| ==> r[k] == x || r[k] in s
  {
    if s == [] then [x]
    else if Precedes(x, s[0], createdAt, order) then [x] + s
    else
      assert s == [s[0]] + s[1..];
      [s[0]] + Insert(x, s[1..], createdAt, order)
  }

  /** Inserting into a sorted sequence keeps it sorted. */
  lemma {:induction false} InsertKeepsSorted<T>(x: T, s: seq<T>, createdAt: T -> int, order: Order)
    requires Sorted(s, createdAt, order)
    ensures Sorted(Insert(x, s, createdAt, order), createdAt, order)
  {
    if s != [] && !Precedes(x, s[0], createdAt, order) {
      var rest := Insert(x, s[1..], createdAt, order);
      InsertKeepsSorted(x, s[1..], createdAt, order);
      forall k | 0 <= k < |rest|
        ensures Precedes(s[0], rest[k], createdAt, order)
      {
        if rest[k] != x {
          var m :| 0 <= m < |s[1..]| && s[1..][m] == rest[k];
          assert s[1 + m] == rest[k];
        }
      }
      var r := [s[0]] + rest;
      assert r == Insert(x, s, createdAt, order);
      forall i, j | 0 <= i < j < |r|
        ensures Precedes(r[i], r[j], createdAt, order)
      {
        if i > 0 {
          assert r[i] == rest[i - 1] && r[j] == rest[j - 1];
        } else {
          assert r[j] == rest[j - 1];
        }
      }
    }
  }

  /** `ORDER BY created_at ASC|DESC`: a permutation of the rows, sorted in the requested direction. */
  function OrderByCreatedAt<T(==)>(s: seq<T>, createdAt: T -> int, order: Order): (r: seq<T>)
    ensures multiset(r) == multiset(s)
    ensures Sorted(r, createdAt, order)
  {
    if s == [] then []
    else
      assert s == [s[0]] + s[1..];
      var rest := OrderByCreatedAt(s[1..], createdAt, order);
      InsertKeepsSorted(s[0], rest, createdAt, order);
      Insert(s[0], rest, createdAt, order)
  }

  /** `WHERE <owner column> == <owner id>`: the rows the owner predicate accepts, in table order. */
  function Owned<T>(table: seq<T>, owned: T -> bool): (r: seq<T>)
    ensures |r| <= |table|
    ensures forall i :: 0 <= i < |r| ==> r[i] in table && owned(r[i])
    ensures forall i :: 0 <= i < |table| && owned(table[i]) ==> table[i] in r
    ensures |table| == 1 ==> r == if owned(table[0]) then table else []
  {
    if table == [] then []
    else if owned(table[0]) then [table[0]] + Owned(table[1..], owned)
    else Owned(table[1..], owned)
  }

  /**
   * The filter works row by row: filtering two tables one after the other gives the filtered
   * first table followed by the filtered second, so it keeps the table's order and multiplicity.
   */
  lemma {:induction false} OwnedConcat<T>(a: seq<T>, b: seq<T>, owned: T -> bool)
    ensures Owned(a + b, owned) == Owned(a, owned) + Owned(b, owned)
  {
    if a != [] {
      assert (a + b)[1..] == a[1..] + b;
      OwnedConcat(a[1..], b, owned);
    } else {
      assert a + b == b;
    }
  }

  /** Ordering keeps the filter's guarantee: every ordered row is an owned row of the table. */
  lemma OrderedRowsAreOwned<T>(table: seq<T>, owned: T -> bool, createdAt: T -> int, order: Order)
    ensures var ordered := OrderedListing(table, owned, createdAt, order);
      forall k :: 0 <= k < |ordered| ==> ordered[k] in table && owned(ordered[k])
  {
    var rows := Owned(table, owned);
    var ordered := OrderByCreatedAt(rows, createdAt, order);
    forall k | 0 <= k < |ordered|
      ensures ordered[k] in table && owned(ordered[k])
    {
      assert ordered[k] in multiset(ordered);
      assert ordered[k] in multiset(rows);
      var m :| 0 <= m < |rows| && rows[m] == ordered[k];
    }
  }

  /** `OFFSET offset LIMIT limit`: the rows from position `offset` on, at most `limit` of them. */
  function PageSlice<T>(s: seq<T>, offset: nat, limit: nat): (r: seq<T>)
    ensures |r| <= limit
    ensures |r| == if offset >= |s| then 0 else if |s| - offset < limit then |s| - offset else limit
    ensures forall i :: 0 <= i < |r| ==> r[i] == s[offset + i]
  {
    var lo := if offset < |s| then offset else |s|;
    var hi := if offset + limit < |s| then offset + limit else |s|;
    s[lo..hi]
  }

  /** `ceil(n / d)` on integers: the least count of `d`-sized pages that holds `n` rows. */
  function CeilDiv(n: nat, d: int): (r: nat)
    requires d > 0
    ensures r * d >= n
    ensures r == 0 || (r - 1) * d < n
  {
    if n == 0 then 0
    else
      var r := CeilDiv(if n >= d then n - d else 0, d);
      assert (r + 1) * d == r * d + d;
      r + 1
  }

  /** A contiguous piece of a sorted sequence is sorted. */
  lemma SliceKeepsSorted<T>(s: seq<T>, offset: nat, limit: nat, createdAt: T -> int, order: Order)
    requires Sorted(s, createdAt, order)
    ensures Sorted(PageSlice(s, offset, limit), createdAt, order)
  {
    var r := PageSlice(s, offset, limit);
    forall i, j | 0 <= i < j < |r|
      ensures Precedes(r[i], r[j], createdAt, order)
    {
      assert r[i] == s[offset + i] && r[j] == s[offset + j];
    }
  }

  /** With a positive page size the offset `(page - 1) * pageSize` is negative exactly when `page < 1`. */
  lemma OffsetSign(page: int, pageSize: int)
    requires pageSize >= 1
    ensures (page - 1) * pageSize >= 0 <==> page >= 1
  {
    if page < 1 {
      assert (page - 1) * pageSize <= -pageSize by {
        assert (page - 1) * pageSize == -((1 - page) * pageSize);
        assert (1 - page) * pageSize >= pageSize;
      }
    }
  }

  /** One page of a listing, as the routes return it. */
  datatype ShipmentPage<T> = ShipmentPage(shipments: seq<T>, totalShipments: nat, page: int, totalPages: nat)

  /** The owner's rows in the requested order: what the listing query pages through. */
  function OrderedListing<T(==)>(table: seq<T>, owned: T -> bool, createdAt: T -> int, order: Order): seq<T>
  {
    OrderByCreatedAt(Owned(table, owned), createdAt, order)
  }

  /**
   * The listing query shared by both `get_shipments` routes. `total` is the length of the
   * owner's `shipments` relationship, which the routes report instead of counting the query.
   */
  function ListShipments<T(==)>(table: seq<T>, owned: T -> bool, createdAt: T -> int, total: nat, params: PaginationParams)
    : (r: Result<ShipmentPage<T>, ListingError>)
    ensures r.Ok? <==> params.page >= 1 && params.pageSize >= 1
    ensures params.pageSize == 0 ==> r == Err(ZeroDivision)
    ensures r.Ok? ==> r.value.page == params.page && r.value.totalShipments == total
    ensures r.Ok? ==> r.value.totalPages * params.pageSize >= total
    ensures r.Ok? ==> r.value.totalPages == 0 || (r.value.totalPages - 1) * params.pageSize < total
  {
    var limit := params.pageSize;
    var offset := (params.page - 1) * params.pageSize;
    if limit < 0 || offset < 0 then
      assert limit >= 1 ==> params.page < 1 by {
        if limit >= 1 { OffsetSign(params.page, params.pageSize); }
      }
      Err(NegativeLimitOrOffset)
    else if params.pageSize == 0 then
      Err(ZeroDivision)
    else
      OffsetSign(params.page, params.pageSize);
      Ok(ShipmentPage(
        PageSlice(OrderedListing(table, owned, createdAt, params.order), offset, limit),
        total, params.page, CeilDiv(total, params.pageSize)))
  }

  /**
   * A successful page holds at most `pageSize` rows, all of them rows of the table the owner
   * filter accepts, in the requested order, and it is the contiguous run of the ordered
   * listing that starts at `(page - 1) * pageSize`: all of that run up to `pageSize` rows, and
   * empty once the offset is past the end of the listing.
   */
  lemma ListedPage<T>(table: seq<T>, owned: T -> bool, createdAt: T -> int, total: nat, params: PaginationParams)
    requires params.page >= 1 && params.pageSize >= 1
    ensures var rows := ListShipments(table, owned, createdAt, total, params).value.shipments;
      && |rows| <= params.pageSize
      && (forall i :: 0 <= i < |rows| ==> rows[i] in table && owned(rows[i]))
      && Sorted(rows, createdAt, params.order)
      && (var offset := (params.page - 1) * params.pageSize;
          var n := |OrderedListing(table, owned, createdAt, params.order)|;
          |rows| == if offset >= n then 0 else if n - offset < params.pageSize then n - offset else params.pageSize)
      && (forall i :: 0 <= i < |rows| ==>
            rows[i] == OrderedListing(table, owned, createdAt, params.order)[(params.page - 1) * params.pageSize + i])
  {
    OffsetSign(params.page, params.pageSize);
    var offset: nat := (params.page - 1) * params.pageSize;
    var ordered := OrderedListing(table, owned, createdAt, params.order);
    var rows := ListShipments(table, owned, createdAt, total, params).value.shipments;
    assert rows == PageSlice(ordered, offset, params.pageSize);
    SliceKeepsSorted(ordered, offset, params.pageSize, createdAt, params.order);
    OrderedRowsAreOwned(table, owned, createdAt, params.order);
    forall i | 0 <= i < |rows|
      ensures rows[i] in table && owned(rows[i])
    {
      assert rows[i] == ordered[offset + i];
    }
  }

  /** Pages 1 to `n` of a listing, one after the other. */
  function PagesUpTo<T(==)>(table: seq<T>, owned: T -> bool, createdAt: T -> int, total: nat, pageSize: int, order: Order, n: nat): seq<T>
    requires pageSize >= 1
  {
    if n == 0 then []
    else
      PagesUpTo(table, owned, createdAt, total, pageSize, order, n - 1)
      + ListShipments(table, owned, createdAt, total, PaginationParams(n, pageSize, order)).value.shipments
  }

  /** `x` cut down to at most `len`. */
  function Cut(x: nat, len: nat): nat
  {
    if x <= len then x else len
  }

  /** Page `n` ends one page size after page `n - 1` does. */
  lemma NextPageEnd(n: nat, pageSize: nat)
    requires n >= 1
    ensures n * pageSize == (n - 1) * pageSize + pageSize
    ensures (n - 1) * pageSize >= 0
  {
  }

  /** The slices at offsets `0, pageSize, ..., (n - 1) * pageSize` of `s`, one after the other. */
  function Slices<T>(s: seq<T>, pageSize: nat, n: nat): seq<T>
  {
    if n == 0 then []
    else
      NextPageEnd(n, pageSize);
      Slices(s, pageSize, n - 1) + PageSlice(s, (n - 1) * pageSize, pageSize)
  }

  /** The first `n` slices of size `pageSize` are the first `n * pageSize` elements. */
  lemma {:induction false} SlicesArePrefix<T>(s: seq<T>, pageSize: nat, n: nat, end: nat)
    requires end == n * pageSize
    ensures Slices(s, pageSize, n) == s[..Cut(end, |s|)]
  {
    if n > 0 {
      NextPageEnd(n, pageSize);
      var prev := (n - 1) * pageSize;
      SlicesArePrefix(s, pageSize, n - 1, prev);
      assert s[..Cut(prev, |s|)] + s[Cut(prev, |s|)..Cut(end, |s|)] == s[..Cut(end, |s|)];
    }
  }

  /** Pages 1 to `n` of the listing are the first `n` slices of the ordered listing. */
  lemma {:induction false} PagesUpToAreSlices<T>(table: seq<T>, owned: T -> bool, createdAt: T -> int, total: nat, pageSize: int, order: Order, n: nat)
    requires pageSize >= 1
    ensures PagesUpTo(table, owned, createdAt, total, pageSize, order, n)
      == Slices(OrderedListing(table, owned, createdAt, order), pageSize, n)
  {
    if n > 0 {
      PagesUpToAreSlices(table, owned, createdAt, total, pageSize, order, n - 1);
    }
  }

  /** No two different rows of `s` share a creation time. */
  ghost predicate CreationTimesIdentify<T>(s: seq<T>, createdAt: T -> int)
  {
    forall i, j :: 0 <= i < |s| && 0 <= j < |s| && createdAt(s[i]) == createdAt(s[j]) ==> s[i] == s[j]
  }

  /** Two sorted permutations of rows that creation times identify start with the same row. */
  lemma SortedHeadsAgree<T>(a: seq<T>, b: seq<T>, createdAt: T -> int, order: Order)
    requires a != [] && multiset(a) == multiset(b)
    requires Sorted(a, createdAt, order) && Sorted(b, createdAt, order)
    requires CreationTimesIdentify(a, createdAt)
    ensures b != [] && a[0] == b[0]
  {
    assert a[0] in multiset(b);
    var m :| 0 <= m < |b| && b[m] == a[0];
    assert b[0] in multiset(a);
    var k :| 0 <= k < |a| && a[k] == b[0];
    if k != 0 && m != 0 {
      assert Precedes(a[0], a[k], createdAt, order);
      assert Precedes(b[0], b[m], createdAt, order);
    }
    assert createdAt(a[0]) == createdAt(a[k]);
  }

  /** Dropping the first row keeps a sequence sorted. */
  lemma SortedTail<T>(s: seq<T>, createdAt: T -> int, order: Order)
    requires s != [] && Sorted(s, createdAt, order)
    ensures Sorted(s[1..], createdAt, order)
  {
    forall i, j | 0 <= i < j < |s[1..]| ensures Precedes(s[1..][i], s[1..][j], createdAt, order) {
      assert s[1..][i] == s[i + 1] && s[1..][j] == s[j + 1];
    }
  }

  /** Dropping the first row keeps creation times identifying rows. */
  lemma IdentifyTail<T>(s: seq<T>, createdAt: T -> int)
    requires s != [] && CreationTimesIdentify(s, createdAt)
    ensures CreationTimesIdentify(s[1..], createdAt)
  {
    forall i, j | 0 <= i < |s[1..]| && 0 <= j < |s[1..]| && createdAt(s[1..][i]) == createdAt(s[1..][j])
      ensures s[1..][i] == s[1..][j]
    {
      assert s[1..][i] == s[i + 1] && s[1..][j] == s[j + 1];
    }
  }

  /**
   * When creation times identify rows, there is only one way to order them: two sorted
   * permutations of the same rows are equal.
   */
  lemma {:induction false} SortedPermutationIsUnique<T>(a: seq<T>, b: seq<T>, createdAt: T -> int, order: Order)
    requires multiset(a) == multiset(b)
    requires Sorted(a, createdAt, order) && Sorted(b, createdAt, order)
    requires CreationTimesIdentify(a, createdAt)
    ensures a == b
    decreases |a|
  {
    if a == [] {
      assert |b| == |multiset(b)| == 0;
    } else {
      SortedHeadsAgree(a, b, createdAt, order);
      assert a == [a[0]] + a[1..] && b == [b[0]] + b[1..];
      assert multiset(a[1..]) == multiset(b[1..]) by {
        assert multiset(a) == multiset{a[0]} + multiset(a[1..]);
        assert multiset(b) == multiset{b[0]} + multiset(b[1..]);
        assert multiset(a[1..]) == multiset(a) - multiset{a[0]};
        assert multiset(b[1..]) == multiset(b) - multiset{b[0]};
      }
      SortedTail(a, createdAt, order);
      SortedTail(b, createdAt, order);
      IdentifyTail(a, createdAt);
      SortedPermutationIsUnique(a[1..], b[1..], createdAt, order);
    }
  }

  /**
   * When no two owned rows share a creation time, every order `ORDER BY created_at` may
   * return is the ordered listing: each page query sees the rows in the same order.
   */
  lemma OrderedListingIsUnique<T>(table: seq<T>, owned: T -> bool, createdAt: T -> int, order: Order, listing: seq<T>)
    requires CreationTimesIdentify(Owned(table, owned), createdAt)
    requires multiset(listing) == multiset(Owned(table, owned))
    requires Sorted(listing, createdAt, order)
    ensures listing == OrderedListing(table, owned, createdAt, order)
  {
    var rows := Owned(table, owned);
    assert CreationTimesIdentify(listing, createdAt) by {
      forall i, j | 0 <= i < |listing| && 0 <= j < |listing| && createdAt(listing[i]) == createdAt(listing[j])
        ensures listing[i] == listing[j]
      {
        assert listing[i] in multiset(rows) && listing[j] in multiset(rows);
        var i' :| 0 <= i' < |rows| && rows[i'] == listing[i];
        var j' :| 0 <= j' < |rows| && rows[j'] == listing[j];
      }
    }
    SortedPermutationIsUnique(listing, OrderedListing(table, owned, createdAt, order), createdAt, order);
  }

  /**
   * Why the page guarantee needs distinct creation times: with two rows created at the same
   * time, both orders are valid answers to `ORDER BY created_at`, and if page 1 sees one
   * order and page 2 the other, the first row is shown twice and the second never.
   */
  lemma TiedRowsCanRepeatAcrossPages()
    ensures var createdAt := (x: int) => 0;
      && Sorted([1, 2], createdAt, Asc) && Sorted([2, 1], createdAt, Asc)
      && multiset([1, 2]) == multiset([2, 1])
      && PageSlice([1, 2], 0, 1) + PageSlice([2, 1], 1, 1) == [1, 1]
    ensures var answers := (p: nat) => if p == 1 then [1, 2] else [2, 1];
      QueriedPages(answers, 1, 2) == [1, 1]
  {
  }

  /**
   * When the reported total is the number of rows the owner filter keeps and every page is
   * cut from the same ordered listing, concatenating pages 1 to `totalPages` gives back the
   * whole ordered listing, each row once.
   */
  lemma PagesCoverListing<T>(table: seq<T>, owned: T -> bool, createdAt: T -> int, pageSize: int, order: Order)
    requires pageSize >= 1
    ensures var total := |Owned(table, owned)|;
      PagesUpTo(table, owned, createdAt, total, pageSize, order, CeilDiv(total, pageSize))
      == OrderedListing(table, owned, createdAt, order)
  {
    var total := |Owned(table, owned)|;
    var ordered := OrderedListing(table, owned, createdAt, order);
    assert |ordered| == total by {
      assert |multiset(ordered)| == |multiset(Owned(table, owned))|;
    }
    PagesUpToAreSlices(table, owned, createdAt, total, pageSize, order, CeilDiv(total, pageSize));
    SlicesArePrefix(ordered, pageSize, CeilDiv(total, pageSize), CeilDiv(total, pageSize) * pageSize);
    assert ordered[..|ordered|] == ordered;
  }

  /**
   * Pages 1 to `n` when each page runs its own query: page `p` is cut from `answers(p)`, the
   * order the database returned to that query.
   */
  function QueriedPages<T>(answers: nat -> seq<T>, pageSize: nat, n: nat): seq<T>
  {
    if n == 0 then []
    else
      NextPageEnd(n, pageSize);
      QueriedPages(answers, pageSize, n - 1) + PageSlice(answers(n), (n - 1) * pageSize, pageSize)
  }

  /** `answer` is an order `ORDER BY created_at` may return for the owned rows. */
  ghost predicate ValidAnswer<T>(answer: seq<T>, table: seq<T>, owned: T -> bool, createdAt: T -> int, order: Order)
  {
    multiset(answer) == multiset(Owned(table, owned)) && Sorted(answer, createdAt, order)
  }

  /** Each of the queries for pages 1 to `n` returned the owned rows sorted by creation time. */
  ghost predicate ValidAnswers<T>(answers: nat -> seq<T>, table: seq<T>, owned: T -> bool, createdAt: T -> int, order: Order, n: nat)
  {
    forall p :: 1 <= p <= n ==> ValidAnswer(answers(p), table, owned, createdAt, order)
  }

  /** Pages cut from answers that all equal `s` are the slices of `s`. */
  lemma {:induction false} QueriedPagesAreSlices<T>(answers: nat -> seq<T>, s: seq<T>, pageSize: nat, n: nat)
    requires forall p :: 1 <= p <= n ==> answers(p) == s
    ensures QueriedPages(answers, pageSize, n) == Slices(s, pageSize, n)
  {
    if n > 0 {
      QueriedPagesAreSlices(answers, s, pageSize, n - 1);
    }
  }

  /**
   * The pages a client fetches one query at a time: when the owned rows have distinct creation
   * times and each page's query returns them in some order `ORDER BY created_at` allows, pages
   * 1 to `totalPages` together give the whole ordered listing, each row once.
   */
  lemma QueriedPagesCoverListing<T>(answers: nat -> seq<T>, table: seq<T>, owned: T -> bool, createdAt: T -> int, order: Order, pageSize: nat)
    requires pageSize >= 1
    requires CreationTimesIdentify(Owned(table, owned), createdAt)
    requires ValidAnswers(answers, table, owned, createdAt, order, CeilDiv(|Owned(table, owned)|, pageSize))
    ensures QueriedPages(answers, pageSize, CeilDiv(|Owned(table, owned)|, pageSize))
      == OrderedListing(table, owned, createdAt, order)
  {
    var total := |Owned(table, owned)|;
    var ordered := OrderedListing(table, owned, createdAt, order);
    assert |ordered| == total by {
      assert |multiset(ordered)| == |multiset(Owned(table, owned))|;
    }
    forall p | 1 <= p <= CeilDiv(total, pageSize)
      ensures answers(p) == ordered
    {
      assert ValidAnswer(answers(p), table, owned, createdAt, order);
      OrderedListingIsUnique(table, owned, createdAt, order, answers(p));
    }
    QueriedPagesAreSlices(answers, ordered, pageSize, CeilDiv(total, pageSize));
    SlicesArePrefix(ordered, pageSize, CeilDiv(total, pageSize), CeilDiv(total, pageSize) * pageSize);
    assert ordered[..|ordered|] == ordered;
  }
}
