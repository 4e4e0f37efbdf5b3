/** The read side of the two in-memory query repositories of the tests:
    `_filter`, `_order`, `_paginate` and `list`, on a set of entity states. The two
    variants differ only in that the `template_module` one also filters on the value and
    has no `None` check in `_order`; both are written once here, generic over how an
    entity's id, value and timestamp are read. */
module FakeQueries {
  import opened Common
  import opened OrderingForm
  import opened TextOps

  /** `TemplatesFilters`; `value` is only present in the `template_module` variant. */
  datatype Filters<V> = Filters(value: Option<V>, query: Option<string>,
                                timestampFrom: Option<Timestamp>, timestampTo: Option<Timestamp>)

  /** How the repository reads an entity; `idText` is `str(template.id)`. */
  datatype View<!T, V> = View(id: T -> Id, idText: Id -> string, value: T -> V, timestamp: T -> Timestamp)

  /** The `Pagination` the query takes. */
  datatype Page = Page(offset: int, recordsPerPage: int)

  /** An entity that every given filter accepts: the value is equal, `str(id)` contains the
      query ignoring case, and the timestamp lies within the inclusive bounds. */
  predicate Kept<T, V(==)>(v: View<T, V>, f: Filters<V>, t: T) {
    (f.value.None? || v.value(t) == f.value.value) &&
    (f.query.None? || Occurs(Lower(f.query.value), Lower(v.idText(v.id(t))))) &&
    (f.timestampFrom.None? || v.timestamp(t) >= f.timestampFrom.value) &&
    (f.timestampTo.None? || v.timestamp(t) <= f.timestampTo.value)
  }

  /** `_filter`: one comprehension per given filter, in turn. */
  function Filter<T(==), V(==)>(ts: set<T>, f: Filters<V>, v: View<T, V>): (r: set<T>)
    ensures r <= ts
    ensures forall t :: t in ts ==> (t in r <==> Kept(v, f, t))
  {
    var byValue := if f.value.Some? then set t | t in ts && v.value(t) == f.value.value else ts;
    var byQuery := if f.query.Some? then set t | t in byValue && Occurs(Lower(f.query.value), Lower(v.idText(v.id(t)))) else byValue;
    var byFrom := if f.timestampFrom.Some? then set t | t in byQuery && v.timestamp(t) >= f.timestampFrom.value else byQuery;
    if f.timestampTo.Some? then set t | t in byFrom && v.timestamp(t) <= f.timestampTo.value else byFrom
  }

  /** An entry of `_order` that calls `sorted`. */
  predicate Sorts(o: Ordering) {
    o.field == "timestamp" || o.field == "value"
  }

  /** Two entities with different values. Their sort keys `(False, value)` then compare
      two `TemplateValue`s with `<`, which the dataclass does not define. */
  predicate Incomparable<T, V(==)>(ts: set<T>, v: View<T, V>) {
    exists a, b :: a in ts && b in ts && v.value(a) != v.value(b)
  }

  /** An entry `_order` gets past: `None` only when it skips them, a sorting entry only
      when the values can be compared. */
  predicate Passes<T, V(==)>(ts: set<T>, e: Option<Ordering>, skipNone: bool, v: View<T, V>) {
    match e
    case None => skipNone
    case Some(o) => !(Sorts(o) && Incomparable(ts, v))
  }

  /** `_order`: every `sorted(...)` result is discarded, so the input comes back as it
      was. On the way, a `None` entry is skipped (`skipNone`) or raises AttributeError on
      `.field`, and sorting entities with different values raises TypeError. */
  function Order<T(==), V(==)>(ts: set<T>, ordering: seq<Option<Ordering>>, skipNone: bool, v: View<T, V>): (r: Result<set<T>>)
    ensures r.Ok? ==> r.value == ts
    ensures r.Err? ==> r.error == TypeError || r.error == AttributeError
    decreases |ordering|
  {
    if ordering == [] then Ok(ts)
    else match ordering[0]
      case None => if skipNone then Order(ts, ordering[1..], skipNone, v) else Err(AttributeError)
      case Some(o) => if Sorts(o) && Incomparable(ts, v) then Err(TypeError) else Order(ts, ordering[1..], skipNone, v)
  }

  /** `_order` succeeds exactly when it gets past every entry, and then it is the
      identity; otherwise the first entry it cannot get past decides the exception. */
  lemma {:induction false} OrderPasses<T, V>(ts: set<T>, ordering: seq<Option<Ordering>>, skipNone: bool, v: View<T, V>)
    ensures Order(ts, ordering, skipNone, v) == Ok(ts) <==> forall i :: 0 <= i < |ordering| ==> Passes(ts, ordering[i], skipNone, v)
    ensures forall k :: 0 <= k < |ordering| && !Passes(ts, ordering[k], skipNone, v) &&
                        (forall i :: 0 <= i < k ==> Passes(ts, ordering[i], skipNone, v)) ==>
              Order(ts, ordering, skipNone, v) == Err(if ordering[k].None? then AttributeError else TypeError)
    decreases |ordering|
  {
    if ordering != [] {
      OrderPasses(ts, ordering[1..], skipNone, v);
      assert forall i :: 1 <= i < |ordering| ==> ordering[1..][i - 1] == ordering[i];
      forall k | 0 <= k < |ordering| && !Passes(ts, ordering[k], skipNone, v) &&
                 (forall i :: 0 <= i < k ==> Passes(ts, ordering[i], skipNone, v))
        ensures Order(ts, ordering, skipNone, v) == Err(if ordering[k].None? then AttributeError else TypeError)
      {
        if k > 0 {
          assert Passes(ts, ordering[0], skipNone, v);
          assert !Passes(ts, ordering[1..][k - 1], skipNone, v);
          assert forall i :: 0 <= i < k - 1 ==> Passes(ts, ordering[1..][i], skipNone, v);
        }
      }
    }
  }

  /** With at most one distinct value among the entities (for instance a single entity),
      `_order` is the identity for every ordering without `None` entries. */
  lemma OrderComparable<T, V>(ts: set<T>, ordering: seq<Option<Ordering>>, skipNone: bool, v: View<T, V>)
    requires !Incomparable(ts, v)
    requires skipNone || forall i :: 0 <= i < |ordering| ==> ordering[i].Some?
    ensures Order(ts, ordering, skipNone, v) == Ok(ts)
  {
    OrderPasses(ts, ordering, skipNone, v);
  }

  /** `s[a:b]` on a list, with Python's clamping of the bounds and counting of negative
      bounds from the end. */
  function PySlice<T>(s: seq<T>, a: int, b: int): (r: seq<T>)
    ensures 0 <= a ==> |r| <= |s| - a || |r| == 0
    ensures 0 <= a && a <= b ==> |r| == (if b <= |s| then b - a else |s| - a) || (a >= |s| && r == [])
    ensures forall i :: 0 <= i < |r| ==> r[i] in s
  {
    var lo := if a < 0 then (if |s| + a < 0 then 0 else |s| + a) else (if a > |s| then |s| else a);
    var hi := if b < 0 then (if |s| + b < 0 then 0 else |s| + b) else (if b > |s| then |s| else b);
    if lo < hi then s[lo..hi] else []
  }

  /** `_paginate`: `set(list(templates)[offset : offset + records_per_page])`, where
      `listed` is the set's iteration order. */
  function Paginate<T>(listed: seq<T>, p: Page): (r: set<T>)
    ensures forall t :: t in r ==> t in listed
  {
    var slice := PySlice(listed, p.offset, p.offset + p.recordsPerPage);
    set t | t in slice
  }

  /** A list enumerating a set: each element once. */
  predicate Enumerates<T>(listed: seq<T>, ts: set<T>) {
    (forall i :: 0 <= i < |listed| ==> listed[i] in ts) && (forall t :: t in ts ==> t in listed) &&
    (forall i, j :: 0 <= i < j < |listed| ==> listed[i] != listed[j])
  }

  /** The elements of a list without repetitions are as many as its length. */
  lemma {:induction false} DistinctCount<T>(s: seq<T>)
    requires forall i, j :: 0 <= i < j < |s| ==> s[i] != s[j]
    ensures |set t | t in s| == |s|
    decreases |s|
  {
    if s != [] {
      var rest := s[..|s| - 1];
      var last := s[|s| - 1];
      assert forall i, j :: 0 <= i < j < |rest| ==> rest[i] != rest[j];
      DistinctCount(rest);
      assert (set t | t in s) == (set t | t in rest) + {last};
      assert last !in rest;
    }
  }

  /** A page of a non-negative offset holds `records_per_page` entities or, near the end,
      those that remain, all from the set. */
  lemma PaginateSize<T>(listed: seq<T>, ts: set<T>, p: Page)
    requires Enumerates(listed, ts)
    requires p.offset >= 0 && p.recordsPerPage >= 0
    ensures Paginate(listed, p) <= ts
    ensures |Paginate(listed, p)| == if p.offset >= |ts| then 0
                                    else if p.offset + p.recordsPerPage <= |ts| then p.recordsPerPage
                                    else |ts| - p.offset
  {
    DistinctCount(listed);
    assert (set t | t in listed) == ts;
    var r := PySlice(listed, p.offset, p.offset + p.recordsPerPage);
    assert forall i, j :: 0 <= i < j < |r| ==> r[i] != r[j] by {
      if p.offset < |listed| && p.recordsPerPage > 0 {
        var hi := if p.offset + p.recordsPerPage > |listed| then |listed| else p.offset + p.recordsPerPage;
        assert r == listed[p.offset..hi];
        forall i, j | 0 <= i < j < |r| ensures r[i] != r[j] {
          assert r[i] == listed[p.offset + i] && r[j] == listed[p.offset + j];
        }
      }
    }
    DistinctCount(r);
  }

  /** `list`: filter, order, then paginate when a page is asked for; the entities and
      their number after pagination. `iter` gives a set's iteration order. */
  function List<T(==), V(==)>(ts: set<T>, f: Filters<V>, ordering: seq<Option<Ordering>>, page: Option<Page>,
                              skipNone: bool, v: View<T, V>, iter: set<T> -> seq<T>): (r: Result<(set<T>, nat)>)
    ensures r.Ok? ==> r.value.1 == |r.value.0|
    ensures r.Ok? ==> forall t :: t in r.value.0 ==> t in iter(Filter(ts, f, v)) || (page.None? && t in ts)
  {
    match Order(Filter(ts, f, v), ordering, skipNone, v)
    case Err(e) => Err(e)
    case Ok(ordered) =>
      var result := if page.Some? then Paginate(iter(ordered), page.value) else ordered;
      Ok((result, |result|))
  }

  /** Without a page, `list` returns exactly the filtered entities; with one, at most
      `records_per_page` of them, and the count is the page's size, not the number of
      matches. */
  lemma ListContents<T, V>(ts: set<T>, f: Filters<V>, ordering: seq<Option<Ordering>>, page: Option<Page>,
                                   skipNone: bool, v: View<T, V>, iter: set<T> -> seq<T>)
    requires forall s :: Enumerates(iter(s), s)
    requires List(ts, f, ordering, page, skipNone, v, iter).Ok?
    ensures var (result, count) := List(ts, f, ordering, page, skipNone, v, iter).value;
            (forall t :: t in result ==> t in ts && Kept(v, f, t)) &&
            (page.None? ==> forall t :: t in ts && Kept(v, f, t) ==> t in result) &&
            (page.Some? && page.value.offset >= 0 && page.value.recordsPerPage >= 0 ==> count <= page.value.recordsPerPage)
  {
    var filtered := Filter(ts, f, v);
    if page.Some? && page.value.offset >= 0 && page.value.recordsPerPage >= 0 {
      PaginateSize(iter(filtered), filtered, page.value);
    }
  }
}
