/// The mapped list handler: filter, count, sort, page and map a query over
/// the persistence records of one type.
module MappedListHandler {
  import opened Base
  import opened Requests
  import opened Capabilities

  /** LINQ `Skip`: a count of zero or less skips nothing, one past the end leaves nothing. */
  function Skip<T>(s: seq<T>, count: int): seq<T> {
    if count <= 0 then s else if count >= |s| then [] else s[count..]
  }

  /** LINQ `Take`: a count of zero or less takes nothing, one past the end takes everything. */
  function Take<T>(s: seq<T>, count: int): seq<T> {
    if count <= 0 then [] else if count >= |s| then s else s[..count]
  }

  /** The paging step: skip `startIndex` then take `pageSize`, but only when `pageSize > 0`. */
  function Page<T>(s: seq<T>, startIndex: int, pageSize: int): seq<T> {
    if pageSize > 0 then Take(Skip(s, startIndex), pageSize) else s
  }

  /** The filter step: applied only when filters are present (and a handler is there to apply them). */
  function Filtered<R>(rows: seq<R>, filterHandler: Option<FilterHandler<R>>, filters: seq<FilterDefinition>): seq<R> {
    if |filters| > 0 && filterHandler.Some? then ApplyFilters(filters, filterHandler.value, rows) else rows
  }

  /** The sort step: applied only when sorters are present (and a handler is there to apply them). */
  function Sorted<R>(rows: seq<R>, sortHandler: Option<SortHandler<R>>, sorters: seq<SortDefinition>): seq<R> {
    if |sorters| > 0 && sortHandler.Some? then sortHandler.value.addSortsToQuery(rows, sorters) else rows
  }

  /** True when every configuration check of the list handler passes. */
  predicate Configured<Dbo, Dco>(
    mapper: Option<EntityMap<Dbo, Dco>>,
    filterHandler: Option<FilterHandler<Dbo>>,
    sortHandler: Option<SortHandler<Dbo>>,
    request: ListQueryRequest)
  {
    mapper.Some? && (|request.filters| == 0 || filterHandler.Some?) && (|request.sorters| == 0 || sortHandler.Some?)
  }

  /**
   * What `GetQueryAsync` produces for a store holding `rows`: a pipeline
   * exception for each missing service it needs, else a successful result
   * whose total count is taken after filtering and before sorting and paging,
   * and whose items are the mapped page of the filtered, sorted rows.
   */
  function ListQuery<Dbo, Dco>(
    rows: seq<Dbo>,
    mapper: Option<EntityMap<Dbo, Dco>>,
    filterHandler: Option<FilterHandler<Dbo>>,
    sortHandler: Option<SortHandler<Dbo>>,
    request: ListQueryRequest): (r: Outcome<ListQueryResult<Dco>>)
    ensures mapper.None? ==> r == Thrown(NoMapperDefined)
    ensures mapper.Some? && |request.filters| > 0 && filterHandler.None? ==> r == Thrown(FiltersWithoutFilterHandler)
    ensures mapper.Some? && (|request.filters| == 0 || filterHandler.Some?) && |request.sorters| > 0 && sortHandler.None? ==>
      r == Thrown(SortersWithoutSortHandler)
    ensures r.Returned? <==> Configured(mapper, filterHandler, sortHandler, request)
    ensures r.Returned? ==> r.value.successful
    ensures r.Returned? ==> r.value.totalCount == |Filtered(rows, filterHandler, request.filters)| <= |rows|
    ensures r.Returned? && |request.filters| == 0 ==> r.value.totalCount == |rows|
    ensures r.Returned? ==>
      var paged := Page(Sorted(Filtered(rows, filterHandler, request.filters), sortHandler, request.sorters), request.startIndex, request.pageSize);
      |r.value.items| == |paged| && forall i :: 0 <= i < |paged| ==> r.value.items[i] == mapper.value.toDomain(paged[i])
  {
    if mapper.None? then Thrown(NoMapperDefined)
    else if |request.filters| > 0 && filterHandler.None? then Thrown(FiltersWithoutFilterHandler)
    else if |request.sorters| > 0 && sortHandler.None? then Thrown(SortersWithoutSortHandler)
    else
      var filtered := Filtered(rows, filterHandler, request.filters);
      var sorted := Sorted(filtered, sortHandler, request.sorters);
      Returned(ListSuccess(MapAll(Page(sorted, request.startIndex, request.pageSize), mapper.value.toDomain), |filtered|))
  }

  /**
   * `GetQueryAsync`, step by step: check the mapper, filter if there are
   * filters, count, sort if there are sorters, page if the page size is
   * positive, then map each record.
   */
  method GetQuery<Dbo, Dco>(
    store: seq<Dbo>,
    mapper: Option<EntityMap<Dbo, Dco>>,
    filterHandler: Option<FilterHandler<Dbo>>,
    sortHandler: Option<SortHandler<Dbo>>,
    request: ListQueryRequest) returns (r: Outcome<ListQueryResult<Dco>>)
    ensures r == ListQuery(store, mapper, filterHandler, sortHandler, request)
  {
    var totalRecordCount := 0;
    if mapper.None? {
      return Thrown(NoMapperDefined);
    }
    var inQuery := store;
    if |request.filters| > 0 {
      if filterHandler.None? {
        return Thrown(FiltersWithoutFilterHandler);
      }
      inQuery := ApplyFilters(request.filters, filterHandler.value, inQuery);
    }
    totalRecordCount := |inQuery|;
    if |request.sorters| > 0 {
      if sortHandler.None? {
        return Thrown(SortersWithoutSortHandler);
      }
      inQuery := sortHandler.value.addSortsToQuery(inQuery, request.sorters);
    }
    if request.pageSize > 0 {
      inQuery := Take(Skip(inQuery, request.startIndex), request.pageSize);
    }
    var list := MapAll(inQuery, mapper.value.toDomain);
    return Returned(ListSuccess(list, totalRecordCount));
  }

  function Min(a: int, b: int): int {
    if a <= b then a else b
  }

  function Max(a: int, b: int): int {
    if a <= b then b else a
  }

  /**
   * A positive page is the window of `s` starting at `startIndex` (a negative
   * start counting as 0): at most `pageSize` elements, and exactly that many
   * whenever enough elements remain.
   */
  lemma PageIsWindow<T>(s: seq<T>, startIndex: int, pageSize: int)
    requires pageSize > 0
    ensures var from := Max(0, startIndex);
      var p := Page(s, startIndex, pageSize);
      |p| == Min(pageSize, Max(0, |s| - from)) &&
      |p| <= pageSize && |p| <= |s| &&
      forall i :: 0 <= i < |p| ==> p[i] == s[from + i]
  {
  }

  /** With no positive page size the page is the whole sequence. */
  lemma UnpagedIsEverything<T>(s: seq<T>, startIndex: int, pageSize: int)
    requires pageSize <= 0
    ensures Page(s, startIndex, pageSize) == s
  {
  }

  /** True when the sort handler only reorders the rows it is given. */
  ghost predicate Reorders<R>(sortHandler: SortHandler<R>, rows: seq<R>, sorters: seq<SortDefinition>) {
    multiset(sortHandler.addSortsToQuery(rows, sorters)) == multiset(rows)
  }

  /** The total count depends on the filters only: start index, page size and sorters do not change it. */
  lemma TotalCountIgnoresPagingAndSorting<Dbo, Dco>(
    rows: seq<Dbo>,
    mapper: Option<EntityMap<Dbo, Dco>>,
    filterHandler: Option<FilterHandler<Dbo>>,
    sortHandler: Option<SortHandler<Dbo>>,
    a: ListQueryRequest, b: ListQueryRequest)
    requires a.filters == b.filters
    requires ListQuery(rows, mapper, filterHandler, sortHandler, a).Returned?
    requires ListQuery(rows, mapper, filterHandler, sortHandler, b).Returned?
    ensures ListQuery(rows, mapper, filterHandler, sortHandler, a).value.totalCount ==
            ListQuery(rows, mapper, filterHandler, sortHandler, b).value.totalCount
  {
  }

  /**
   * Page bounds: when the sort only reorders, a positive page holds at most
   * `pageSize` and at most `totalCount` items, exactly
   * min(pageSize, totalCount - startIndex) of them for a non-negative start,
   * and an unpaged query returns all `totalCount` items.
   */
  lemma {:induction false} ItemCountBounds<Dbo, Dco>(
    rows: seq<Dbo>,
    mapper: Option<EntityMap<Dbo, Dco>>,
    filterHandler: Option<FilterHandler<Dbo>>,
    sortHandler: Option<SortHandler<Dbo>>,
    request: ListQueryRequest)
    requires ListQuery(rows, mapper, filterHandler, sortHandler, request).Returned?
    requires |request.sorters| > 0 ==> Reorders(sortHandler.value, Filtered(rows, filterHandler, request.filters), request.sorters)
    ensures var res := ListQuery(rows, mapper, filterHandler, sortHandler, request).value;
      (request.pageSize > 0 ==> |res.items| <= request.pageSize && |res.items| <= res.totalCount) &&
      (request.pageSize > 0 && request.startIndex >= 0 ==>
        |res.items| == Min(request.pageSize, Max(0, res.totalCount - request.startIndex))) &&
      (request.pageSize <= 0 ==> |res.items| == res.totalCount)
  {
    var filtered := Filtered(rows, filterHandler, request.filters);
    var sorted := Sorted(filtered, sortHandler, request.sorters);
    if |request.sorters| > 0 {
      assert |multiset(sorted)| == |multiset(filtered)|;
    }
    assert |sorted| == |filtered|;
    if request.pageSize > 0 {
      PageIsWindow(sorted, request.startIndex, request.pageSize);
    }
  }

  /**
   * Without sorters the items are the mapped window of the filtered rows:
   * from the start index (a negative start counting as 0) when paged, from
   * the first row otherwise.
   */
  lemma UnsortedItemsAreMappedWindow<Dbo, Dco>(
    rows: seq<Dbo>,
    mapper: EntityMap<Dbo, Dco>,
    filterHandler: Option<FilterHandler<Dbo>>,
    request: ListQueryRequest)
    requires |request.sorters| == 0 && (|request.filters| == 0 || filterHandler.Some?)
    ensures ListQuery(rows, Some(mapper), filterHandler, None, request).Returned?
    ensures var items := ListQuery(rows, Some(mapper), filterHandler, None, request).value.items;
      var filtered := Filtered(rows, filterHandler, request.filters);
      |items| == (if request.pageSize > 0 then Min(request.pageSize, Max(0, |filtered| - Max(0, request.startIndex))) else |filtered|)
    ensures var items := ListQuery(rows, Some(mapper), filterHandler, None, request).value.items;
      var filtered := Filtered(rows, filterHandler, request.filters);
      var from := if request.pageSize > 0 then Max(0, request.startIndex) else 0;
      forall i :: 0 <= i < |items| ==> from + i < |filtered| && items[i] == mapper.toDomain(filtered[from + i])
  {
    var filtered := Filtered(rows, filterHandler, request.filters);
    var paged := Page(filtered, request.startIndex, request.pageSize);
    assert ListQuery(rows, Some(mapper), filterHandler, None, request).value.items == MapAll(paged, mapper.toDomain);
    if request.pageSize > 0 {
      PageIsWindow(filtered, request.startIndex, request.pageSize);
    }
  }

  /**
   * An unsorted filtered query whose mapped filtered rows are `matching`:
   * it counts `matching`, returns its window from the start index, and
   * returns nothing outside it.
   */
  lemma UnsortedQueryReturnsWindowOf<Dbo, Dco>(
    rows: seq<Dbo>,
    mapper: EntityMap<Dbo, Dco>,
    filterHandler: FilterHandler<Dbo>,
    request: ListQueryRequest,
    matching: seq<Dco>)
    requires |request.sorters| == 0
    requires MapAll(Filtered(rows, Some(filterHandler), request.filters), mapper.toDomain) == matching
    ensures ListQuery(rows, Some(mapper), Some(filterHandler), None, request).Returned?
    ensures var res := ListQuery(rows, Some(mapper), Some(filterHandler), None, request).value;
      var from := if request.pageSize > 0 then Max(0, request.startIndex) else 0;
      res.totalCount == |matching| &&
      |res.items| == (if request.pageSize > 0 then Min(request.pageSize, Max(0, |matching| - from)) else |matching|) &&
      forall i :: 0 <= i < |res.items| ==> from + i < |matching| && res.items[i] == matching[from + i]
    ensures var res := ListQuery(rows, Some(mapper), Some(filterHandler), None, request).value;
      request.pageSize <= 0 ==> res.items == matching
    ensures var res := ListQuery(rows, Some(mapper), Some(filterHandler), None, request).value;
      forall x :: x in res.items ==> x in matching
  {
    var filtered := Filtered(rows, Some(filterHandler), request.filters);
    var from := if request.pageSize > 0 then Max(0, request.startIndex) else 0;
    UnsortedItemsAreMappedWindow(rows, mapper, Some(filterHandler), request);
    var items := ListQuery(rows, Some(mapper), Some(filterHandler), None, request).value.items;
    assert forall i :: 0 <= i < |items| ==> items[i] == matching[from + i];
  }

  /** With no filters the filter handler is never consulted; with no sorters the sort handler is never consulted. */
  lemma AbsentStepsConsultNoHandler<Dbo, Dco>(
    rows: seq<Dbo>,
    mapper: Option<EntityMap<Dbo, Dco>>,
    f1: Option<FilterHandler<Dbo>>, f2: Option<FilterHandler<Dbo>>,
    s1: Option<SortHandler<Dbo>>, s2: Option<SortHandler<Dbo>>,
    request: ListQueryRequest)
    requires |request.filters| == 0 || f1 == f2
    requires |request.sorters| == 0 || s1 == s2
    ensures ListQuery(rows, mapper, f1, s1, request) == ListQuery(rows, mapper, f2, s2, request)
  {
  }

  /** With no sorters and no paging the items are the filtered rows, mapped in their order. */
  lemma {:induction false} UnsortedUnpagedKeepsOrder<Dbo, Dco>(
    rows: seq<Dbo>,
    mapper: EntityMap<Dbo, Dco>,
    filterHandler: Option<FilterHandler<Dbo>>,
    sortHandler: Option<SortHandler<Dbo>>,
    request: ListQueryRequest)
    requires |request.sorters| == 0 && request.pageSize <= 0
    requires |request.filters| == 0 || filterHandler.Some?
    ensures ListQuery(rows, Some(mapper), filterHandler, sortHandler, request).Returned?
    ensures ListQuery(rows, Some(mapper), filterHandler, sortHandler, request).value.items ==
            MapAll(Filtered(rows, filterHandler, request.filters), mapper.toDomain)
  {
    var filtered := Filtered(rows, filterHandler, request.filters);
    assert Page(Sorted(filtered, sortHandler, request.sorters), request.startIndex, request.pageSize) == filtered;
  }

  // ----- sorting in both directions -----

  /** `s` is ordered by `key`, ascending or descending. */
  ghost predicate OrderedBy<R>(s: seq<R>, key: R -> int, descending: bool) {
    forall i, j :: 0 <= i < j < |s| ==> if descending then key(s[j]) <= key(s[i]) else key(s[i]) <= key(s[j])
  }

  /** True when the sort handler orders `rows` by `key` for `sorters`, as a reordering. */
  ghost predicate SortsBy<R>(sortHandler: SortHandler<R>, rows: seq<R>, sorters: seq<SortDefinition>, key: R -> int, descending: bool) {
    Reorders(sortHandler, rows, sorters) && OrderedBy(sortHandler.addSortsToQuery(rows, sorters), key, descending)
  }

  /** No two rows share a key. */
  ghost predicate KeysDistinct<R>(rows: seq<R>, key: R -> int) {
    forall i, j :: 0 <= i < |rows| && 0 <= j < |rows| && key(rows[i]) == key(rows[j]) ==> rows[i] == rows[j]
  }

  /** Of two orderings of the same rows, descending one's first and ascending one's last share the largest key. */
  lemma {:induction false} ExtremesAgree<R>(rows: seq<R>, asc: seq<R>, desc: seq<R>, key: R -> int)
    requires |rows| > 0 && KeysDistinct(rows, key)
    requires multiset(asc) == multiset(rows) && multiset(desc) == multiset(rows)
    requires OrderedBy(asc, key, false) && OrderedBy(desc, key, true)
    ensures |asc| == |desc| == |rows|
    ensures desc[0] == asc[|asc| - 1]
  {
    assert |asc| == |multiset(asc)| == |multiset(rows)| == |rows|;
    assert |desc| == |multiset(desc)| == |multiset(rows)| == |rows|;
    var first, last := desc[0], asc[|asc| - 1];
    assert first in multiset(desc);
    assert last in multiset(asc);
    assert first in asc && last in desc && first in rows && last in rows;
    var i :| 0 <= i < |asc| && asc[i] == first;
    var j :| 0 <= j < |desc| && desc[j] == last;
    assert key(first) <= key(last) by {
      if i < |asc| - 1 {
        assert key(asc[i]) <= key(asc[|asc| - 1]);
      }
    }
    assert key(last) <= key(first) by {
      if 0 < j {
        assert key(desc[j]) <= key(desc[0]);
      }
    }
    var p :| 0 <= p < |rows| && rows[p] == first;
    var q :| 0 <= q < |rows| && rows[q] == last;
  }

  /**
   * Sorting one field descending puts first the record that sorting it
   * ascending puts last, when the page is large enough to hold all rows and
   * the field's values are distinct.
   */
  lemma {:induction false} DescendingFirstIsAscendingLast<Dbo, Dco>(
    rows: seq<Dbo>,
    mapper: EntityMap<Dbo, Dco>,
    filterHandler: Option<FilterHandler<Dbo>>,
    sortHandler: SortHandler<Dbo>,
    field: string, key: Dbo -> int,
    ascPageSize: int, descPageSize: int)
    requires |rows| > 0 && KeysDistinct(rows, key)
    requires ascPageSize >= |rows| && descPageSize >= |rows|
    requires SortsBy(sortHandler, rows, [SortDefinition(field, false)], key, false)
    requires SortsBy(sortHandler, rows, [SortDefinition(field, true)], key, true)
    ensures var asc := ListQuery(rows, Some(mapper), filterHandler, Some(sortHandler), ListQueryRequest(0, ascPageSize, [], [SortDefinition(field, false)]));
      var desc := ListQuery(rows, Some(mapper), filterHandler, Some(sortHandler), ListQueryRequest(0, descPageSize, [], [SortDefinition(field, true)]));
      asc.Returned? && desc.Returned? &&
      |asc.value.items| == |desc.value.items| == |rows| &&
      desc.value.items[0] == asc.value.items[|rows| - 1]
  {
    var a := sortHandler.addSortsToQuery(rows, [SortDefinition(field, false)]);
    var d := sortHandler.addSortsToQuery(rows, [SortDefinition(field, true)]);
    ExtremesAgree(rows, a, d, key);
    assert Page(a, 0, ascPageSize) == a;
    assert Page(d, 0, descPageSize) == d;
  }
}
