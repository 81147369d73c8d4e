/** The management list: filters, a stable order, and offset paging over a fixed table. */
module Listing {
  import opened Wrappers
  import opened Ordering
  import opened Domain
  import opened Catalog

  datatype Row = Row(id: Id, updatedAt: int, product: Product)

  /** ORDER BY updated_at DESC, id DESC. */
  predicate Before(a: Row, b: Row) {
    a.updatedAt > b.updatedAt || (a.updatedAt == b.updatedAt && a.id >= b.id)
  }

  type Filter = Row -> bool

  predicate Passes(filters: seq<Filter>, row: Row) {
    forall i :: 0 <= i < |filters| ==> filters[i](row)
  }

  function Matching(table: seq<Row>, filters: seq<Filter>): seq<Row> {
    if table == [] then []
    else if Passes(filters, table[0]) then [table[0]] + Matching(table[1..], filters)
    else Matching(table[1..], filters)
  }

  function Ordered(table: seq<Row>, filters: seq<Filter>): seq<Row> {
    Sort(Before, Matching(table, filters))
  }

  /** OFFSET and LIMIT: the slice clipped to what exists. */
  function Slice(rows: seq<Row>, offset: nat, limit: nat): seq<Row> {
    rows[Min(offset, |rows|)..Min(offset + limit, |rows|)]
  }

  function Page(rows: seq<Row>, page: nat, size: nat): seq<Row>
    requires page >= 1
  {
    Slice(rows, (page - 1) * size, size)
  }

  /** The filters a request asks for: the optional keyword, type and status. */
  predicate Requested(keyword: Option<Filter>, ptype: Option<ProductType>, status: Option<ProductStatus>, row: Row) {
    && (keyword.Some? ==> keyword.value(row))
    && (ptype.Some? ==> row.product.ptype == ptype.value)
    && (status.Some? ==> row.product.status == status.value)
  }

  ghost predicate Selects(filters: seq<Filter>, keyword: Option<Filter>, ptype: Option<ProductType>, status: Option<ProductStatus>) {
    forall row :: Passes(filters, row) <==> Requested(keyword, ptype, status, row)
  }

  method BuildFilters(keyword: Option<Filter>, ptype: Option<ProductType>, status: Option<ProductStatus>) returns (filters: seq<Filter>)
    ensures Selects(filters, keyword, ptype, status)
  {
    filters := [];
    assert Selects(filters, None, None, None);
    if keyword.Some? {
      OneMoreFilter(filters, keyword.value);
      filters := filters + [keyword.value];
    }
    assert Selects(filters, keyword, None, None);
    if ptype.Some? {
      var f := (row: Row) => row.product.ptype == ptype.value;
      OneMoreFilter(filters, f);
      filters := filters + [f];
    }
    assert Selects(filters, keyword, ptype, None);
    if status.Some? {
      var f := (row: Row) => row.product.status == status.value;
      OneMoreFilter(filters, f);
      filters := filters + [f];
    }
  }

  method List(table: seq<Row>, keyword: Option<Filter>, ptype: Option<ProductType>, status: Option<ProductStatus>, page: nat, size: nat)
    returns (items: seq<Row>, total: nat)
    requires page >= 1 && size >= 1
    ensures items == Page(Sort(Before, Wanted(table, keyword, ptype, status)), page, size)
    ensures total == |Wanted(table, keyword, ptype, status)| == |Sort(Before, Wanted(table, keyword, ptype, status))|
    ensures NewestFirst(items)
    ensures total == |WantedAt(table, keyword, ptype, status)|
    ensures forall row :: row in items ==> StandsAt(table, WantedAt(table, keyword, ptype, status), row)
  {
    var filters := BuildFilters(keyword, ptype, status);
    MatchingIsWanted(table, filters, keyword, ptype, status);
    OrderedIsListing(table, filters);
    ListingHasWanted(table, keyword, ptype, status);
    total := |Matching(table, filters)|;
    var offset := (page - 1) * size;
    items := Slice(Ordered(table, filters), offset, size);
    SliceOf(Ordered(table, filters), offset, size);
  }

  /** A slice has rows of the whole, in the same order. */
  lemma SliceOf(rows: seq<Row>, offset: nat, limit: nat)
    ensures NewestFirst(rows) ==> NewestFirst(Slice(rows, offset, limit))
    ensures forall row :: row in Slice(rows, offset, limit) ==> row in rows
  {
  }

  /** Later updates first; of two at one time, the greater id first. */
  ghost predicate NewestFirst(rows: seq<Row>) {
    forall i, j :: 0 <= i < j < |rows| ==>
      rows[i].updatedAt >= rows[j].updatedAt && (rows[i].updatedAt == rows[j].updatedAt ==> rows[i].id >= rows[j].id)
  }

  /** The positions of the rows that pass each given criterion. */
  ghost function WantedAt(table: seq<Row>, keyword: Option<Filter>, ptype: Option<ProductType>, status: Option<ProductStatus>): set<nat> {
    set k: nat | k < |table|
      && (keyword.Some? ==> keyword.value(table[k]))
      && (ptype.Some? ==> table[k].product.ptype == ptype.value)
      && (status.Some? ==> table[k].product.status == status.value)
  }

  ghost predicate StandsAt(table: seq<Row>, positions: set<nat>, row: Row) {
    exists k :: k in positions && k < |table| && table[k] == row
  }

  function Shifted(a: set<nat>): set<nat> {
    set k | k in a :: k + 1
  }

  lemma ShiftedHas(a: set<nat>, k: nat)
    ensures k in Shifted(a) <==> k > 0 && k - 1 in a
  {
    if k > 0 && k - 1 in a {
      assert k - 1 + 1 in Shifted(a);
    }
  }

  lemma {:induction false} ShiftedSize(a: set<nat>)
    ensures |Shifted(a)| == |a|
  {
    if a != {} {
      var x :| x in a;
      forall k: nat
        ensures k in Shifted(a) <==> k in Shifted(a - {x}) + {x + 1}
      {
        ShiftedHas(a, k);
        ShiftedHas(a - {x}, k);
      }
      ShiftedHas(a - {x}, x + 1);
      ShiftedSize(a - {x});
      assert Shifted(a) == Shifted(a - {x}) + {x + 1};
    }
  }

  lemma WantedShifts(table: seq<Row>, keyword: Option<Filter>, ptype: Option<ProductType>, status: Option<ProductStatus>)
    requires table != []
    ensures WantedAt(table, keyword, ptype, status)
      == Shifted(WantedAt(table[1..], keyword, ptype, status)) + (if Requested(keyword, ptype, status, table[0]) then {0} else {})
  {
    forall k: nat
      ensures k > 0 ==> (k in WantedAt(table, keyword, ptype, status) <==> k in Shifted(WantedAt(table[1..], keyword, ptype, status)))
      ensures 0 !in Shifted(WantedAt(table[1..], keyword, ptype, status))
    {
      ShiftedHas(WantedAt(table[1..], keyword, ptype, status), k);
      ShiftedHas(WantedAt(table[1..], keyword, ptype, status), 0);
    }
  }

  lemma {:induction false} WantedCount(table: seq<Row>, keyword: Option<Filter>, ptype: Option<ProductType>, status: Option<ProductStatus>)
    ensures |Wanted(table, keyword, ptype, status)| == |WantedAt(table, keyword, ptype, status)|
  {
    if table != [] {
      WantedCount(table[1..], keyword, ptype, status);
      WantedShifts(table, keyword, ptype, status);
      ShiftedSize(WantedAt(table[1..], keyword, ptype, status));
      ShiftedHas(WantedAt(table[1..], keyword, ptype, status), 0);
    }
  }

  lemma {:induction false} WantedIff(table: seq<Row>, keyword: Option<Filter>, ptype: Option<ProductType>,
                                     status: Option<ProductStatus>, row: Row)
    ensures row in Wanted(table, keyword, ptype, status) <==> row in table && Requested(keyword, ptype, status, row)
  {
    if table != [] {
      assert table == [table[0]] + table[1..];
      WantedIff(table[1..], keyword, ptype, status, row);
    }
  }

  /** The listing of a request: as many rows as pass, each of them passing, in order. */
  lemma ListingHasWanted(table: seq<Row>, keyword: Option<Filter>, ptype: Option<ProductType>, status: Option<ProductStatus>)
    ensures var rows := Sort(Before, Wanted(table, keyword, ptype, status));
      && NewestFirst(rows)
      && |rows| == |WantedAt(table, keyword, ptype, status)|
      && forall row :: row in rows ==> StandsAt(table, WantedAt(table, keyword, ptype, status), row)
  {
    var wanted := Wanted(table, keyword, ptype, status);
    var rows := Sort(Before, wanted);
    BeforeIsPreorder();
    SortSorts(Before, wanted);
    assert |multiset(rows)| == |rows| && |multiset(wanted)| == |wanted|;
    WantedCount(table, keyword, ptype, status);
    forall row | row in rows
      ensures StandsAt(table, WantedAt(table, keyword, ptype, status), row)
    {
      assert row in multiset(rows);
      WantedStands(table, keyword, ptype, status, row);
    }
  }

  lemma WantedStands(table: seq<Row>, keyword: Option<Filter>, ptype: Option<ProductType>, status: Option<ProductStatus>, row: Row)
    requires row in Wanted(table, keyword, ptype, status)
    ensures StandsAt(table, WantedAt(table, keyword, ptype, status), row)
  {
    WantedIff(table, keyword, ptype, status, row);
    var k :| 0 <= k < |table| && table[k] == row;
    assert k in WantedAt(table, keyword, ptype, status);
  }

  /** The rows a request asks for, in table order. */
  function Wanted(table: seq<Row>, keyword: Option<Filter>, ptype: Option<ProductType>, status: Option<ProductStatus>): seq<Row> {
    if table == [] then []
    else if Requested(keyword, ptype, status, table[0]) then [table[0]] + Wanted(table[1..], keyword, ptype, status)
    else Wanted(table[1..], keyword, ptype, status)
  }

  lemma {:induction false} MatchingIsWanted(table: seq<Row>, filters: seq<Filter>, keyword: Option<Filter>,
                                            ptype: Option<ProductType>, status: Option<ProductStatus>)
    requires Selects(filters, keyword, ptype, status)
    ensures Matching(table, filters) == Wanted(table, keyword, ptype, status)
  {
    if table != [] {
      MatchingIsWanted(table[1..], filters, keyword, ptype, status);
    }
  }

  lemma OneMoreFilter(filters: seq<Filter>, f: Filter)
    ensures forall row :: Passes(filters + [f], row) <==> Passes(filters, row) && f(row)
  {
    forall row
      ensures Passes(filters + [f], row) <==> Passes(filters, row) && f(row)
    {
      var all := filters + [f];
      assert all[|filters|] == f;
      assert forall i :: 0 <= i < |filters| ==> all[i] == filters[i];
    }
  }

  ghost predicate DistinctIds(table: seq<Row>) {
    forall i, j :: 0 <= i < j < |table| ==> table[i].id != table[j].id
  }

  lemma BeforeIsPreorder()
    ensures Preorder(Before)
  {
  }

  lemma {:induction false} MatchingIff(table: seq<Row>, filters: seq<Filter>, row: Row)
    ensures row in Matching(table, filters) <==> row in table && Passes(filters, row)
    ensures multiset(Matching(table, filters))[row] == if Passes(filters, row) then multiset(table)[row] else 0
  {
    if table != [] {
      assert table == [table[0]] + table[1..];
      MatchingIff(table[1..], filters, row);
    }
  }

  /** The listing: every matching row as often as the table has it, newest first, ids breaking ties. */
  lemma OrderedIsListing(table: seq<Row>, filters: seq<Filter>)
    ensures Sorted(Before, Ordered(table, filters)) && NewestFirst(Ordered(table, filters))
    ensures |Ordered(table, filters)| == |Matching(table, filters)|
    ensures forall row :: multiset(Ordered(table, filters))[row] == if Passes(filters, row) then multiset(table)[row] else 0
  {
    BeforeIsPreorder();
    SortSorts(Before, Matching(table, filters));
    var m, o := Matching(table, filters), Ordered(table, filters);
    assert |multiset(o)| == |o| && |multiset(m)| == |m|;
    forall row
      ensures multiset(o)[row] == if Passes(filters, row) then multiset(table)[row] else 0
    {
      MatchingIff(table, filters, row);
    }
  }

  /** With distinct ids there is only one such order: any sorted arrangement of the same rows is this one. */
  lemma ListingIsUnique(table: seq<Row>, filters: seq<Filter>, other: seq<Row>)
    requires DistinctIds(table)
    requires Sorted(Before, other) && multiset(other) == multiset(Matching(table, filters))
    ensures other == Ordered(table, filters)
  {
    BeforeIsPreorder();
    SortSorts(Before, Matching(table, filters));
    forall x, y | x in other && y in other && Before(x, y) && Before(y, x)
      ensures x == y
    {
      assert x in multiset(other) && y in multiset(other);
      MatchingIff(table, filters, x);
      MatchingIff(table, filters, y);
      var i :| 0 <= i < |table| && table[i] == x;
      var j :| 0 <= j < |table| && table[j] == y;
    }
    SortedUnique(Before, other, Ordered(table, filters));
  }

  /** Pages 1 to `k`, one after the other. */
  ghost function Pages(rows: seq<Row>, k: nat, size: nat): seq<Row> {
    if k == 0 then [] else Pages(rows, k - 1, size) + Page(rows, k, size)
  }

  function PageCount(total: nat, size: nat): nat
    requires size >= 1
  {
    (total + size - 1) / size
  }

  lemma {:induction false} PagesArePrefix(rows: seq<Row>, k: nat, size: nat)
    ensures Pages(rows, k, size) == rows[..Min(k * size, |rows|)]
  {
    if k > 0 {
      PagesArePrefix(rows, k - 1, size);
      var a, b := (k - 1) * size, k * size;
      assert b == a + size;
      assert rows[..Min(a, |rows|)] + rows[Min(a, |rows|)..Min(b, |rows|)] == rows[..Min(b, |rows|)];
    }
  }

  lemma EnoughPages(total: nat, size: nat)
    requires size >= 1
    ensures (PageCount(total, size) - 1) * size < total || total == 0
    ensures total <= PageCount(total, size) * size
  {
    var n := PageCount(total, size);
    assert n * size + (total + size - 1) % size == total + size - 1;
  }

  /** A page past the last one starts after the last row. */
  lemma LaterPagesEmpty(rows: seq<Row>, size: nat, later: nat)
    requires size >= 1 && later > PageCount(|rows|, size)
    ensures Page(rows, later, size) == []
  {
    EnoughPages(|rows|, size);
    MulMonotone(PageCount(|rows|, size), later - 1, size);
  }

  /** Paging partitions the listing: the pages in order are all rows, each once; later pages are empty. */
  lemma PagesPartition(rows: seq<Row>, size: nat, later: nat)
    requires size >= 1 && later > (|rows| + size - 1) / size
    ensures Pages(rows, (|rows| + size - 1) / size, size) == rows
    ensures Page(rows, later, size) == []
  {
    var n := PageCount(|rows|, size);
    EnoughPages(|rows|, size);
    PagesArePrefix(rows, n, size);
    assert Min(n * size, |rows|) == |rows| && rows[..|rows|] == rows;
    LaterPagesEmpty(rows, size, later);
  }

  lemma Division(i: nat, size: nat)
    requires size >= 1
    ensures i / size * size + i % size == i && i % size < size
  {
  }

  lemma RowInSlice(rows: seq<Row>, i: nat, start: nat, size: nat)
    requires start <= i < |rows| && i < start + size
    ensures i - start < |Slice(rows, start, size)| && Slice(rows, start, size)[i - start] == rows[i]
  {
  }

  /** Where each row is: row `i` of the listing stands on page `i / size + 1`, at place `i % size`. */
  lemma RowsPage(rows: seq<Row>, i: nat, size: nat)
    requires size >= 1 && i < |rows|
    ensures i / size + 1 <= PageCount(|rows|, size)
    ensures var page := Page(rows, i / size + 1, size);
      i % size < |page| && page[i % size] == rows[i]
  {
    var p := i / size;
    Division(i, size);
    RowInSlice(rows, i, p * size, size);
    assert Page(rows, p + 1, size) == Slice(rows, p * size, size);
    if p >= PageCount(|rows|, size) {
      EnoughPages(|rows|, size);
      MulMonotone(PageCount(|rows|, size), p, size);
    }
  }
}
