/// The per-record-type services a handler resolves: the entity map, the
/// filter handler and the sort handler, and what applying filters means.
module Capabilities {
  import opened Base
  import opened Requests

  /** `IDboEntityMap<Dbo, Dco>`: the two `MapTo` conversions between persistence and domain records. */
  datatype EntityMap<!Dbo, !Dco> = EntityMap(toDomain: Dbo -> Dco, toDbo: Dco -> Dbo)

  /**
   * `IRecordFilterHandler<R>`: resolves a filter definition to a predicate,
   * or to none when it does not know the filter's name.
   */
  datatype FilterHandler<!R> = FilterHandler(getSpecification: FilterDefinition -> Option<R -> bool>)

  /** `IRecordSortHandler<R>`: orders a sequence by a list of sort definitions; its ordering is not modelled. */
  datatype SortHandler<!R> = SortHandler(addSortsToQuery: (seq<R>, seq<SortDefinition>) -> seq<R>)

  /** `Where`: the elements satisfying `p`, in their order. */
  function Where<R>(rows: seq<R>, p: R -> bool): (r: seq<R>)
    ensures |r| <= |rows|
  {
    if rows == [] then []
    else if p(rows[0]) then [rows[0]] + Where(rows[1..], p)
    else Where(rows[1..], p)
  }

  /** `AddFiltersToQuery`: one `Where` per filter, in request order; an unknown filter adds no condition. */
  function ApplyFilters<R>(filters: seq<FilterDefinition>, handler: FilterHandler<R>, rows: seq<R>): (r: seq<R>)
    ensures |r| <= |rows|
    decreases |filters|
  {
    if filters == [] then rows
    else
      var once :=
        match handler.getSpecification(filters[0])
        case Some(p) => Where(rows, p)
        case None => rows;
      ApplyFilters(filters[1..], handler, once)
  }

  /** A row survives a filter exactly when it satisfies that filter's predicate. */
  lemma {:induction false} WhereMembership<R>(rows: seq<R>, p: R -> bool, x: R)
    ensures x in Where(rows, p) <==> x in rows && p(x)
    decreases |rows|
  {
    if rows != [] {
      WhereMembership(rows[1..], p, x);
      assert rows == [rows[0]] + rows[1..];
    }
  }

  /** A predicate that holds of every row keeps them all, in order. */
  lemma {:induction false} WhereKeepsAll<R>(rows: seq<R>, p: R -> bool)
    requires forall i :: 0 <= i < |rows| ==> p(rows[i])
    ensures Where(rows, p) == rows
    decreases |rows|
  {
    if rows != [] {
      WhereKeepsAll(rows[1..], p);
    }
  }

  /** Filters are conjunctive: a row is kept exactly when every recognised filter's predicate holds of it. */
  lemma {:induction false} ApplyFiltersMembership<R>(filters: seq<FilterDefinition>, handler: FilterHandler<R>, rows: seq<R>, x: R)
    ensures x in ApplyFilters(filters, handler, rows) <==>
      x in rows &&
      forall i :: 0 <= i < |filters| && handler.getSpecification(filters[i]).Some? ==>
        handler.getSpecification(filters[i]).value(x)
    decreases |filters|
  {
    if filters != [] {
      var once :=
        match handler.getSpecification(filters[0])
        case Some(p) => Where(rows, p)
        case None => rows;
      ApplyFiltersMembership(filters[1..], handler, once, x);
      match handler.getSpecification(filters[0])
      case Some(p) => WhereMembership(rows, p, x);
      case None =>
      forall i | 1 <= i < |filters|
        ensures filters[i] == filters[1..][i - 1]
      {
      }
    }
  }

  /** Filters the handler does not recognise leave the sequence unchanged (the permissive policy). */
  lemma {:induction false} UnknownFiltersKeepEverything<R>(filters: seq<FilterDefinition>, handler: FilterHandler<R>, rows: seq<R>)
    requires forall i :: 0 <= i < |filters| ==> handler.getSpecification(filters[i]).None?
    ensures ApplyFilters(filters, handler, rows) == rows
    decreases |filters|
  {
    if filters != [] {
      UnknownFiltersKeepEverything(filters[1..], handler, rows);
    }
  }

  /**
   * `Where` commutes with a record map: filtering by a predicate `q` that
   * reads only the mapped record, then mapping, equals filtering the mapped
   * rows by that reading `p`.
   */
  lemma {:induction false} WhereCommutesWithMap<A, B>(rows: seq<A>, f: A -> B, q: A -> bool, p: B -> bool)
    requires forall a :: q(a) == p(f(a))
    ensures MapAll(Where(rows, q), f) == Where(MapAll(rows, f), p)
    decreases |rows|
  {
    if rows != [] {
      WhereCommutesWithMap(rows[1..], f, q, p);
      assert MapAll(rows, f)[1..] == MapAll(rows[1..], f);
    }
  }

  /** `Select`: the element-wise image of a sequence, in order. */
  function MapAll<A, B>(rows: seq<A>, f: A -> B): (r: seq<B>)
    ensures |r| == |rows|
    ensures forall i :: 0 <= i < |rows| ==> r[i] == f(rows[i])
  {
    seq(|rows|, i requires 0 <= i < |rows| => f(rows[i]))
  }

  /** `FindAsync`: the record stored under `key`, or null. */
  function Find<K, R>(store: map<K, R>, key: K): (r: Option<R>)
    ensures r.Some? <==> key in store
    ensures r.Some? ==> r.value == store[key]
  {
    if key in store then Some(store[key]) else None
  }
}
