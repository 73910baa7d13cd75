/** The admin controller: the filtered, paginated listing of every shipment and the
    status, payment, amount and delete operations on one shipment. */
module AdminController {
  import opened Common
  import opened Schema
  import opened OperatorRewrite
  import opened QueryParams
  import opened Store

  // ---------------------------------------------------------------------------
  // The listing's query

  /** The only keys deleted from the copy of the query before it becomes the filter. */
  const RemoveFields: seq<string> := ["select", "sort", "page", "limit"]

  const NegativeSkip: string := "skip value must be non-negative"

  /** `req.query[key]`: the value of the first field with that key. */
  function Lookup(q: seq<Field>, key: string): (r: Option<Param>)
    ensures r.Some? ==> Field(key, r.value) in q
    ensures r.None? ==> forall f :: f in q ==> f.key != key
  {
    if q == [] then None else if q[0].key == key then Some(q[0].value) else Lookup(q[1..], key)
  }

  /** The value found is that of the first field with the key. */
  lemma {:induction false} LookupIsFirst(q: seq<Field>, key: string)
    ensures Lookup(q, key).Some? ==>
      exists i :: 0 <= i < |q| && q[i] == Field(key, Lookup(q, key).value) && forall j :: 0 <= j < i ==> q[j].key != key
  {
    if q != [] && q[0].key != key && Lookup(q, key).Some? {
      LookupIsFirst(q[1..], key);
      var i :| 0 <= i < |q[1..]| && q[1..][i] == Field(key, Lookup(q, key).value) && forall j :: 0 <= j < i ==> q[1..][j].key != key;
      assert forall j :: 1 <= j < i + 1 ==> q[j] == q[1..][j - 1];
      assert q[i + 1] == Field(key, Lookup(q, key).value);
    }
  }

  /** JavaScript truthiness of a query value: absent and "" are falsy, arrays and objects
      are truthy. */
  predicate TruthyParam(v: Option<Param>) {
    v.Some? && (v.value.Str? ==> v.value.s != "")
  }

  /** The fields of `q` whose key is not in `drop`, in their order. */
  function KeepFields(q: seq<Field>, drop: seq<string>): (r: seq<Field>)
    ensures |r| <= |q|
    ensures forall f :: f in r <==> f in q && f.key !in drop
  {
    if q == [] then []
    else (if q[0].key in drop then [] else [q[0]]) + KeepFields(q[1..], drop)
  }

  /** `delete reqQuery[key]`. */
  function DeleteKey(q: seq<Field>, key: string): seq<Field> {
    KeepFields(q, [key])
  }

  /** Each field is kept or dropped on its own, so the kept fields stay in their order. */
  lemma KeepFieldsCons(head: Field, rest: seq<Field>, drop: seq<string>)
    ensures KeepFields([head] + rest, drop) == (if head.key in drop then [] else [head]) + KeepFields(rest, drop)
  {
    assert ([head] + rest)[1..] == rest;
  }

  /** Dropping no key keeps the query as it is. */
  lemma {:induction false} KeepAll(q: seq<Field>)
    ensures KeepFields(q, []) == q
  {
    if q != [] {
      KeepAll(q[1..]);
      assert q == [q[0]] + q[1..];
    }
  }

  /** Deleting one more key from what is left is dropping both sets of keys at once. */
  lemma {:induction false} DeleteAfterKeep(q: seq<Field>, drop: seq<string>, key: string)
    ensures DeleteKey(KeepFields(q, drop), key) == KeepFields(q, drop + [key])
  {
    if q != [] {
      var all := drop + [key];
      var head := q[0];
      DeleteAfterKeep(q[1..], drop, key);
      var rest := KeepFields(q[1..], drop);
      if head.key in drop {
        assert head.key in all;
        assert KeepFields(q, drop) == rest;
        assert KeepFields(q, all) == KeepFields(q[1..], all);
      } else {
        assert KeepFields(q, drop) == [head] + rest;
        KeepFieldsCons(head, rest, [key]);
        if head.key == key {
          assert head.key in all;
        } else {
          assert head.key !in all;
        }
      }
    }
  }

  /** The generic filter: the query without `select`, `sort`, `page` and `limit`. Every
      other key, `trackingId`, `startDate` and `endDate` included, stays, with its value
      and in its place. */
  function GenericFilter(q: seq<Field>): (r: seq<Field>)
    ensures forall f :: f in r <==> f in q && f.key !in RemoveFields
    ensures forall f :: f in q && f.key in {"trackingId", "startDate", "endDate"} ==> f in r
  {
    KeepFields(q, RemoveFields)
  }

  /** The filter handed to `find` and `countDocuments`: the rewritten JSON text. */
  function FilterText(q: seq<Field>): string {
    Rewrite(Json(Obj(GenericFilter(q))))
  }

  /** The documents of `rs` that the database finds for `filter`, in the order of `rs`. */
  function Matching(rs: seq<Shipment>, filter: string, matches: (string, Shipment) -> bool): (r: seq<Shipment>)
    ensures |r| <= |rs|
    ensures forall s :: s in r <==> s in rs && matches(filter, s)
  {
    if rs == [] then []
    else (if matches(filter, rs[0]) then [rs[0]] else []) + Matching(rs[1..], filter, matches)
  }

  /** Matching keeps the order of the collection: it distributes over concatenation. */
  lemma {:induction false} MatchingConcat(a: seq<Shipment>, b: seq<Shipment>, filter: string,
                                          matches: (string, Shipment) -> bool)
    ensures Matching(a + b, filter, matches) == Matching(a, filter, matches) + Matching(b, filter, matches)
  {
    if a == [] {
      assert a + b == b;
    } else {
      assert (a + b)[1..] == a[1..] + b;
      MatchingConcat(a[1..], b, filter, matches);
    }
  }

  // ---------------------------------------------------------------------------
  // select and sort

  /** `value.split(',')` succeeds only on a string; the call is skipped for a falsy value. */
  predicate Splittable(v: Option<Param>) {
    !TruthyParam(v) || v.value.Str?
  }

  /** Lines 32-43 call `split` on a truthy `select` and then on a truthy `sort`. An array (a
      repeated key) or an object (a bracketed key) has no `split`, so a TypeError is thrown
      before anything reaches the database. */
  function SplitError(q: seq<Field>): (r: Option<Error>)
    ensures r.None? <==> Splittable(Lookup(q, "select")) && Splittable(Lookup(q, "sort"))
    ensures !Splittable(Lookup(q, "select")) ==> r == Some(TypeError("req.query.select.split is not a function"))
    ensures Splittable(Lookup(q, "select")) && r.Some? ==> r == Some(TypeError("req.query.sort.split is not a function"))
  {
    if !Splittable(Lookup(q, "select")) then Some(TypeError("req.query.select.split is not a function"))
    else if !Splittable(Lookup(q, "sort")) then Some(TypeError("req.query.sort.split is not a function"))
    else None
  }

  // ---------------------------------------------------------------------------
  // The conditions `where` sets on the page query

  /** Both `startDate` and `endDate` are truthy: the page query gets a date range. */
  predicate Dated(q: seq<Field>) {
    TruthyParam(Lookup(q, "startDate")) && TruthyParam(Lookup(q, "endDate"))
  }

  /** `trackingId` is truthy: line 61 calls `where('trackingId', value)`. */
  predicate Tracked(q: seq<Field>) {
    TruthyParam(Lookup(q, "trackingId"))
  }

  /** A key Mongoose reads as a query operator. */
  predicate IsOperatorKey(k: string) {
    k != [] && k[0] == '$'
  }

  /** An object of operators, such as the value of `trackingId[$ne]=x`: Mongoose casts it
      as an operator query on the path, so `where` leaves the filter's condition for the
      path as the query gave it, and the database evaluates it. */
  predicate OperatorCondition(v: Param) {
    v.Obj? && v.fields != [] && forall i :: 0 <= i < |v.fields| ==> IsOperatorKey(v.fields[i].key)
  }

  /** A truthy `trackingId` that is not an object of operators: the page query's
      `trackingId` condition becomes an equality with it (or `$in` for an array). */
  predicate TrackedByValue(q: seq<Field>) {
    Tracked(q) && !OperatorCondition(Lookup(q, "trackingId").value)
  }

  /** The keys of a `createdAt` condition object that become `$gte` and `$lte`. */
  const DateBounds: seq<string> := ["gte", "lte"]

  /** `where('createdAt').gte(from).lte(to)` applied to the parsed filter: a `createdAt`
      condition object keeps its other operators and gets `$gte` and `$lte` from the range;
      a `createdAt` value that is not an object is replaced. The range itself is applied
      by `Admits`, so what is left of `createdAt` here is the other operators, and nothing
      when there are none. */
  function WithoutDateBounds(fs: seq<Field>): (r: seq<Field>)
    ensures forall f :: f in r && f.key != "createdAt" <==> f in fs && f.key != "createdAt"
    ensures forall f :: f in r && f.key == "createdAt" ==>
              f.value.Obj? && f.value.fields != [] && forall g :: g in f.value.fields ==> g.key !in DateBounds
    ensures forall f :: f in fs && f.key == "createdAt" && f.value.Obj? && KeepFields(f.value.fields, DateBounds) != [] ==>
              Field("createdAt", Obj(KeepFields(f.value.fields, DateBounds))) in r
  {
    if fs == [] then []
    else
      var f := fs[0];
      (if f.key != "createdAt" then [f]
       else if f.value.Obj? && KeepFields(f.value.fields, DateBounds) != [] then
         [Field("createdAt", Obj(KeepFields(f.value.fields, DateBounds)))]
       else []) + WithoutDateBounds(fs[1..])
  }

  /** The conditions of the page query: the generic filter after `where` has replaced the
      `trackingId` condition (line 61) and set the bounds of `createdAt` (line 56). An
      object of operators given as the tracking id is itself the new condition, so the
      filter's `trackingId` stays. The count at line 50 does not see these changes. */
  function PageFilter(q: seq<Field>): (r: seq<Field>)
    ensures forall f: Field :: f.key != "createdAt" && f.key != "trackingId" ==> (f in r <==> f in GenericFilter(q))
    ensures TrackedByValue(q) ==> forall f :: f in r ==> f.key != "trackingId"
    ensures !TrackedByValue(q) ==> forall f: Field :: f.key == "trackingId" ==> (f in r <==> f in GenericFilter(q))
    ensures Dated(q) ==> forall f :: f in r && f.key == "createdAt" ==>
              f.value.Obj? && f.value.fields != [] && forall g :: g in f.value.fields ==> g.key !in DateBounds
    ensures !Dated(q) ==> forall f: Field :: f.key == "createdAt" ==> (f in r <==> f in GenericFilter(q))
    ensures !Dated(q) && !TrackedByValue(q) ==> r == GenericFilter(q)
  {
    var generic := GenericFilter(q);
    var dated := if Dated(q) then WithoutDateBounds(generic) else generic;
    if TrackedByValue(q) then DeleteKey(dated, "trackingId") else dated
  }

  /** The page query's filter as the rewritten JSON text. */
  function PageFilterText(q: seq<Field>): string {
    Rewrite(Json(Obj(PageFilter(q))))
  }

  datatype DateRange = DateRange(from: int, to: int)

  /** The conditions `where` adds that the abstract filter text does not carry: an
      inclusive range on `createdAt`, and the tracking ids a document's `trackingId` must
      be among. */
  datatype Refinement = Refinement(dates: Option<DateRange>, trackingIds: Option<seq<string>>)

  predicate Admits(ref: Refinement, s: Shipment) {
    && (ref.dates.Some? ==> ref.dates.value.from <= s.createdAt <= ref.dates.value.to)
    && (ref.trackingIds.Some? ==> s.trackingId in ref.trackingIds.value)
  }

  /** The documents of `rs` the refinement admits, in the order of `rs`. */
  function Refined(rs: seq<Shipment>, ref: Refinement): (r: seq<Shipment>)
    ensures |r| <= |rs|
    ensures forall s :: s in r <==> s in rs && Admits(ref, s)
  {
    if rs == [] then []
    else (if Admits(ref, rs[0]) then [rs[0]] else []) + Refined(rs[1..], ref)
  }

  /** Refining keeps the order: it distributes over concatenation. */
  lemma {:induction false} RefinedConcat(a: seq<Shipment>, b: seq<Shipment>, ref: Refinement)
    ensures Refined(a + b, ref) == Refined(a, ref) + Refined(b, ref)
  {
    if a == [] {
      assert a + b == b;
    } else {
      assert (a + b)[1..] == a[1..] + b;
      RefinedConcat(a[1..], b, ref);
    }
  }

  /** How a `trackingId` value is cast for the equality `where('trackingId', value)`: a
      string matches itself, an array of strings becomes `$in`. An object of operators is
      not an equality (`OperatorCondition`); any other value fails to cast. */
  function TrackingValues(v: Param): (r: Option<seq<string>>)
    ensures r.Some? <==> v.Str? || (v.Arr? && forall i :: 0 <= i < |v.items| ==> v.items[i].Str?)
    ensures v.Str? ==> r == Some([v.s])
    ensures v.Arr? && r.Some? ==> forall t :: t in r.value <==> Str(t) in v.items
  {
    match v
    case Str(t) => Some([t])
    case Arr(items) =>
      if forall i :: 0 <= i < |items| ==> items[i].Str? then
        var ts := seq(|items|, i requires 0 <= i < |items| && items[i].Str? => items[i].s);
        assert forall t :: t in ts <==> Str(t) in items by {
          forall t ensures t in ts <==> Str(t) in items {
            if Str(t) in items {
              var i :| 0 <= i < |items| && items[i] == Str(t);
              assert ts[i] == t;
            }
          }
        }
        Some(ts)
      else None
    case Obj(_) => None
  }

  /** A date range that `new Date` cannot read: the page query fails to cast `createdAt`. */
  predicate BadDates(q: seq<Field>, parseDate: Param -> Option<int>) {
    Dated(q) && (parseDate(Lookup(q, "startDate").value).None? || parseDate(Lookup(q, "endDate").value).None?)
  }

  /** A tracking id value that is neither an object of operators nor castable to a string
      or a list of strings. */
  predicate BadTracking(q: seq<Field>) {
    TrackedByValue(q) && TrackingValues(Lookup(q, "trackingId").value).None?
  }

  /** The refinements of lines 55-62, or the cast error the page query then fails with:
      `createdAt` is cast before `trackingId`. `parseDate` is `new Date(...)`, None for an
      invalid date. */
  function RefinementOf(q: seq<Field>, parseDate: Param -> Option<int>): (r: Result<Refinement>)
    ensures r.Err? <==> BadDates(q, parseDate) || BadTracking(q)
    ensures BadDates(q, parseDate) ==> r == Err(Cast("createdAt"))
    ensures !BadDates(q, parseDate) && BadTracking(q) ==> r == Err(Cast("trackingId"))
    ensures r.Ok? ==> (r.value.dates.Some? <==> Dated(q)) && (r.value.trackingIds.Some? <==> TrackedByValue(q))
  {
    var start, end, tracking := Lookup(q, "startDate"), Lookup(q, "endDate"), Lookup(q, "trackingId");
    if BadDates(q, parseDate) then Err(Cast("createdAt"))
    else if BadTracking(q) then Err(Cast("trackingId"))
    else Ok(Refinement(
      if Dated(q) then Some(DateRange(parseDate(start.value).value, parseDate(end.value).value)) else None,
      if TrackedByValue(q) then TrackingValues(tracking.value) else None))
  }

  /** What the refinements admit: documents created inside the inclusive date range when
      both dates are given, and documents whose tracking id is one of the given ones when a
      tracking id is given; nothing is asked when neither is. */
  lemma RefinementOfAdmits(q: seq<Field>, parseDate: Param -> Option<int>, s: Shipment)
    requires RefinementOf(q, parseDate).Ok?
    ensures Admits(RefinementOf(q, parseDate).value, s) <==>
      && (Dated(q) ==> parseDate(Lookup(q, "startDate").value).value <= s.createdAt <= parseDate(Lookup(q, "endDate").value).value)
      && (TrackedByValue(q) ==> s.trackingId in TrackingValues(Lookup(q, "trackingId").value).value)
  {
  }

  // ---------------------------------------------------------------------------
  // The listing

  datatype Listing = Listing(count: nat, pagination: Pagination, data: seq<Shipment>)

  /** What `getAllShipments` answers for query `q` when the collection, in the order the
      sort asks for, is `rs`: the count sees the generic filter, the page query its own
      conditions. */
  function ListingOf(q: seq<Field>, rs: seq<Shipment>, matches: (string, Shipment) -> bool,
                     parseDate: Param -> Option<int>): Result<Listing> {
    ListingFrom(q, |Matching(rs, FilterText(q), matches)|, Matching(rs, PageFilterText(q), matches), parseDate)
  }

  /** The answer once `total`, the count of the generic filter, and `candidates`, the
      documents the page query's filter text matches, are known. */
  function ListingFrom(q: seq<Field>, total: nat, candidates: seq<Shipment>, parseDate: Param -> Option<int>): Result<Listing> {
    var page, limit := PageNumber(Lookup(q, "page")), PageLimit(Lookup(q, "limit"));
    if SplitError(q).Some? then Err(SplitError(q).value)
    else match RefinementOf(q, parseDate)
      case Err(e) => Err(e)
      case Ok(ref) =>
        if StartIndex(page, limit) < 0 then Err(Query(NegativeSkip))
        else Ok(Page(total, candidates, ref, page, limit))
  }

  /** The listing fails exactly on a `select` or `sort` without `split`, a refinement the
      database cannot cast, or a negative skip, in that order; otherwise it is the page of
      the refined candidates, with metadata from the unrefined total. */
  lemma ListingFromSpec(q: seq<Field>, total: nat, candidates: seq<Shipment>, parseDate: Param -> Option<int>)
    ensures var r, page, limit, ref := ListingFrom(q, total, candidates, parseDate), PageNumber(Lookup(q, "page")),
                                      PageLimit(Lookup(q, "limit")), RefinementOf(q, parseDate);
      && (r.Err? <==> SplitError(q).Some? || ref.Err? || StartIndex(page, limit) < 0)
      && (SplitError(q).Some? ==> r == Err(SplitError(q).value))
      && (SplitError(q).None? && ref.Err? ==> r == Err(ref.error))
      && (SplitError(q).None? && ref.Ok? && StartIndex(page, limit) < 0 ==> r == Err(Query(NegativeSkip)))
      && (r.Ok? ==>
        && StartIndex(page, limit) >= 0
        && r.value == Page(total, candidates, ref.value, page, limit)
        && r.value.count == |r.value.data| <= Abs(limit)
        && r.value.pagination == PaginationOf(page, limit, total)
        && (forall s :: s in r.value.data ==> s in candidates && Admits(ref.value, s)))
  {
  }

  /** For a collection: the metadata is computed from the documents the generic filter
      matches, and every document returned matches the page query's filter and its
      refinements; without refinements that filter is the generic filter. */
  lemma ListingOfSpec(q: seq<Field>, rs: seq<Shipment>, matches: (string, Shipment) -> bool,
                      parseDate: Param -> Option<int>)
    ensures var r, page, limit := ListingOf(q, rs, matches, parseDate), PageNumber(Lookup(q, "page")), PageLimit(Lookup(q, "limit"));
      r.Ok? ==>
        && r.value.pagination == PaginationOf(page, limit, |Matching(rs, FilterText(q), matches)|)
        && r.value.count <= Abs(limit)
        && (forall s :: s in r.value.data ==>
              s in rs && matches(PageFilterText(q), s) && Admits(RefinementOf(q, parseDate).value, s))
        && (!Dated(q) && !TrackedByValue(q) ==> forall s :: s in r.value.data ==> matches(FilterText(q), s))
  {
    ListingFromSpec(q, |Matching(rs, FilterText(q), matches)|, Matching(rs, PageFilterText(q), matches), parseDate);
  }

  /** The page: the refined candidates in the skip/limit window, with the metadata computed
      from the unrefined `total`. */
  function Page(total: nat, candidates: seq<Shipment>, ref: Refinement, page: int, limit: int): (l: Listing)
    requires StartIndex(page, limit) >= 0
    ensures l.count == |l.data| <= Abs(limit)
    ensures l.pagination == PaginationOf(page, limit, total)
    ensures forall s :: s in l.data ==> s in candidates && Admits(ref, s)
  {
    var refined := Refined(candidates, ref);
    var data := Window(refined, StartIndex(page, limit), limit);
    assert forall s :: s in data ==> s in refined;
    Listing(|data|, PaginationOf(page, limit, total), data)
  }

  /** Which documents form the page: the refined candidates from the start index on, as
      many as the limit allows, in their order; none past the end. */
  lemma PageIsSlice(total: nat, candidates: seq<Shipment>, ref: Refinement, page: int, limit: int)
    requires StartIndex(page, limit) >= 0
    ensures var l, refined, start := Page(total, candidates, ref, page, limit), Refined(candidates, ref), StartIndex(page, limit);
      && l.count == (if start >= |refined| then 0 else if |refined| - start < Abs(limit) then |refined| - start else Abs(limit))
      && (start < |refined| ==> l.data == refined[start..start + l.count])
  {
    var refined, start := Refined(candidates, ref), StartIndex(page, limit);
    if start < |refined| {
      WindowIsSlice(refined, start, limit);
    }
  }

  /** Without a date range or tracking id, and with `select` and `sort` absent or strings,
      the listing is the unrefined page. */
  lemma ListingWithoutRefinements(q: seq<Field>, total: nat, candidates: seq<Shipment>, parseDate: Param -> Option<int>)
    requires SplitError(q).None? && !Dated(q) && !TrackedByValue(q)
    requires StartIndex(PageNumber(Lookup(q, "page")), PageLimit(Lookup(q, "limit"))) >= 0
    ensures ListingFrom(q, total, candidates, parseDate) ==
      Ok(Page(total, candidates, Refinement(None, None), PageNumber(Lookup(q, "page")), PageLimit(Lookup(q, "limit"))))
  {
    NoRefinements(q, parseDate);
  }

  lemma NoRefinements(q: seq<Field>, parseDate: Param -> Option<int>)
    requires !Dated(q) && !TrackedByValue(q)
    ensures RefinementOf(q, parseDate) == Ok(Refinement(None, None))
  {
  }

  /** Without refinements the page is the slice [(page-1)*limit, page*limit) of the
      candidates, so it holds min(limit, |candidates| - (page-1)*limit) of them. */
  lemma PageWithoutRefinements(total: nat, candidates: seq<Shipment>, page: int, limit: int)
    requires page >= 1 && limit >= 1
    ensures StartIndex(page, limit) >= 0
    ensures var start, l := StartIndex(page, limit), Page(total, candidates, Refinement(None, None), page, limit);
      && l.count == (if |candidates| <= start then 0 else if |candidates| - start < limit then |candidates| - start else limit)
      && (start < |candidates| ==> l.data == candidates[start..start + l.count])
  {
    StartIndexNonNegative(page, limit);
    RefinedByNothing(candidates);
    PageIsSlice(total, candidates, Refinement(None, None), page, limit);
  }

  lemma {:induction false} RefinedByNone(rs: seq<Shipment>, ref: Refinement)
    requires forall s :: s in rs ==> !Admits(ref, s)
    ensures Refined(rs, ref) == []
  {
    if rs != [] {
      assert rs[0] in rs;
      RefinedByNone(rs[1..], ref);
    }
  }

  lemma {:induction false} RefinedByNothing(rs: seq<Shipment>)
    ensures Refined(rs, Refinement(None, None)) == rs
  {
    if rs != [] {
      RefinedByNothing(rs[1..]);
      assert rs == [rs[0]] + rs[1..];
    }
  }

  /** `next` is computed from the unrefined total: refinements that exclude every
      candidate leave the page empty while `next` still announces another page. */
  lemma RefinementsDoNotReachTotal(q: seq<Field>, total: nat, candidates: seq<Shipment>, parseDate: Param -> Option<int>)
    requires ListingFrom(q, total, candidates, parseDate).Ok?
    requires forall s :: s in candidates ==> !Admits(RefinementOf(q, parseDate).value, s)
    requires EndIndex(PageNumber(Lookup(q, "page")), PageLimit(Lookup(q, "limit"))) < total
    ensures ListingFrom(q, total, candidates, parseDate).value.count == 0
    ensures ListingFrom(q, total, candidates, parseDate).value.pagination.next.Some?
  {
    RefinedByNone(candidates, RefinementOf(q, parseDate).value);
  }

  /** An object of operators as the tracking id (without a date range) is no refinement:
      the page query's filter is the count's, and the listing is the page of what the
      count matches. */
  lemma OperatorTrackingId(q: seq<Field>, rs: seq<Shipment>, matches: (string, Shipment) -> bool,
                           parseDate: Param -> Option<int>)
    requires Tracked(q) && OperatorCondition(Lookup(q, "trackingId").value) && !Dated(q)
    ensures PageFilterText(q) == FilterText(q)
    ensures RefinementOf(q, parseDate) == Ok(Refinement(None, None))
    ensures var page, limit, matched := PageNumber(Lookup(q, "page")), PageLimit(Lookup(q, "limit")), Matching(rs, FilterText(q), matches);
      SplitError(q).None? && StartIndex(page, limit) >= 0 ==>
        ListingOf(q, rs, matches, parseDate) == Ok(Page(|matched|, matched, Refinement(None, None), page, limit))
  {
    NoRefinements(q, parseDate);
    var page, limit := PageNumber(Lookup(q, "page")), PageLimit(Lookup(q, "limit"));
    if SplitError(q).None? && StartIndex(page, limit) >= 0 {
      var matched := Matching(rs, FilterText(q), matches);
      ListingWithoutRefinements(q, |matched|, matched, parseDate);
    }
  }

  /** The query `?trackingId[$ne]=x`. */
  const NotEqualTrackingQuery: seq<Field> := [Field("trackingId", Obj([Field("$ne", Str("x"))]))]

  /** `?trackingId[$ne]=x` is answered, not refused: with the default page and limit,
      the listing is the first page of the documents the filter matches. */
  lemma NotEqualTrackingListing(rs: seq<Shipment>, matches: (string, Shipment) -> bool, parseDate: Param -> Option<int>)
    ensures var matched := Matching(rs, FilterText(NotEqualTrackingQuery), matches);
      ListingOf(NotEqualTrackingQuery, rs, matches, parseDate) == Ok(Page(|matched|, matched, Refinement(None, None), 1, 25))
  {
    var q := NotEqualTrackingQuery;
    assert Lookup(q, "trackingId") == Some(Obj([Field("$ne", Str("x"))]));
    assert IsOperatorKey("$ne");
    assert Lookup(q, "startDate") == None && Lookup(q, "page") == None && Lookup(q, "limit") == None;
    assert Lookup(q, "select") == None && Lookup(q, "sort") == None;
    OperatorTrackingId(q, rs, matches, parseDate);
  }

  /** The query `?createdAt[gte]=a&startDate=s&endDate=e`. */
  function BoundsOnlyQuery(a: string, s: string, e: string): seq<Field> {
    [Field("createdAt", Obj([Field("gte", Str(a))])), Field("startDate", Str(s)), Field("endDate", Str(e))]
  }

  /** For that query `where` overwrites the only bound the query gave, so the page query
      keeps no `createdAt` condition of its own; the range is the refinement. */
  lemma BoundsOnlyCreatedAt(a: string, s: string, e: string)
    requires s != "" && e != ""
    ensures Dated(BoundsOnlyQuery(a, s, e))
    ensures PageFilter(BoundsOnlyQuery(a, s, e)) == [Field("startDate", Str(s)), Field("endDate", Str(e))]
  {
    BoundsOnlyConditions(a, s, e);
    BoundsOnlyDropped(a, s, e);
  }

  lemma BoundsOnlyConditions(a: string, s: string, e: string)
    requires s != "" && e != ""
    ensures var q := BoundsOnlyQuery(a, s, e); Dated(q) && !TrackedByValue(q) && GenericFilter(q) == q
  {
    var q := BoundsOnlyQuery(a, s, e);
    assert Lookup(q, "startDate") == Some(Str(s)) && Lookup(q, "endDate") == Some(Str(e));
    assert Lookup(q, "trackingId") == None;
    KeepUntouched(q, RemoveFields);
  }

  lemma BoundsOnlyDropped(a: string, s: string, e: string)
    ensures WithoutDateBounds(BoundsOnlyQuery(a, s, e)) == [Field("startDate", Str(s)), Field("endDate", Str(e))]
  {
    var q := BoundsOnlyQuery(a, s, e);
    var dates := [Field("startDate", Str(s)), Field("endDate", Str(e))];
    assert KeepFields([Field("gte", Str(a))], DateBounds) == [];
    assert q[1..] == dates;
    WithoutDateBoundsUntouched(dates);
  }

  /** Fields whose keys are not dropped are all kept. */
  lemma {:induction false} KeepUntouched(q: seq<Field>, drop: seq<string>)
    requires forall i :: 0 <= i < |q| ==> q[i].key !in drop
    ensures KeepFields(q, drop) == q
  {
    if q != [] {
      KeepUntouched(q[1..], drop);
      assert q == [q[0]] + q[1..];
    }
  }

  /** Fields on other paths than `createdAt` are left as they are. */
  lemma {:induction false} WithoutDateBoundsUntouched(fs: seq<Field>)
    requires forall i :: 0 <= i < |fs| ==> fs[i].key != "createdAt"
    ensures WithoutDateBounds(fs) == fs
  {
    if fs != [] {
      WithoutDateBoundsUntouched(fs[1..]);
      assert fs == [fs[0]] + fs[1..];
    }
  }

  /** The query `?trackingId=in`. */
  const TrackingInQuery: seq<Field> := [Field("trackingId", Str("in"))]

  /** For `?trackingId=in` the count's filter asks for the tracking id "$in" (the rewrite
      reaches the value), ... */
  lemma TrackingInCountFilter()
    ensures FilterText(TrackingInQuery) == "{\"trackingId\":\"$in\"}"
  {
    var q := TrackingInQuery;
    assert GenericFilter(q) == q;
    JsonOfPlainField("trackingId", "in");
    TrackingInRewrite();
  }

  lemma TrackingInRewrite()
    ensures Rewrite("{\"" + "trackingId" + "\":\"" + "in" + "\"}") == "{\"trackingId\":\"$in\"}"
  {
    RewriteWordPair("trackingId", "in");
    assert Marked("trackingId") == "trackingId" && Marked("in") == "$in";
    TrackingInText();
  }

  lemma TrackingInText()
    ensures "{\"" + "trackingId" + "\":\"" + "$in" + "\"}" == "{\"trackingId\":\"$in\"}"
  {
  }

  /** ... while the page query's `where` drops the rewritten condition and asks for "in"
      itself. */
  lemma TrackingInPageFilter(parseDate: Param -> Option<int>)
    ensures PageFilterText(TrackingInQuery) == "{}"
    ensures RefinementOf(TrackingInQuery, parseDate) == Ok(Refinement(None, Some(["in"])))
  {
    TrackingInConditions();
    RewriteSymbols("{}");
  }

  lemma TrackingInConditions()
    ensures PageFilter(TrackingInQuery) == []
    ensures Lookup(TrackingInQuery, "trackingId") == Some(Str("in")) && !Dated(TrackingInQuery)
  {
    var q := TrackingInQuery;
    assert Lookup(q, "trackingId") == Some(Str("in"));
    assert Lookup(q, "startDate") == None;
    assert GenericFilter(q) == q;
  }

  /** So the two can disagree: a shipment whose tracking id is "in" is returned on the page
      while the count that the metadata is computed from is 0. */
  lemma CountCanMissThePage(s: Shipment, matches: (string, Shipment) -> bool, parseDate: Param -> Option<int>)
    requires s.trackingId == "in"
    requires matches("{}", s) && !matches("{\"trackingId\":\"$in\"}", s)
    ensures ListingOf(TrackingInQuery, [s], matches, parseDate) == Ok(Listing(1, Pagination(None, None), [s]))
  {
    var q := TrackingInQuery;
    TrackingInCountFilter();
    TrackingInPageFilter(parseDate);
    assert Matching([s], FilterText(q), matches) == [];
    assert Matching([s], PageFilterText(q), matches) == [s];
    TrackingInListing(s, parseDate);
  }

  /** The page query of `?trackingId=in` over one such shipment, against a total of 0. */
  lemma TrackingInListing(s: Shipment, parseDate: Param -> Option<int>)
    requires s.trackingId == "in"
    ensures ListingFrom(TrackingInQuery, 0, [s], parseDate) == Ok(Listing(1, Pagination(None, None), [s]))
  {
    var q := TrackingInQuery;
    TrackingInPageFilter(parseDate);
    assert Lookup(q, "page") == None && Lookup(q, "limit") == None;
    assert Lookup(q, "select") == None && Lookup(q, "sort") == None;
    var ref := Refinement(None, Some(["in"]));
    assert Refined([s], ref) == [s];
    assert PaginationOf(1, 25, 0) == Pagination(None, None);
    assert ListingFrom(q, 0, [s], parseDate) == Ok(Page(0, [s], ref, 1, 25));
  }

  /** The query `?status[gte]=in-transit&page=2&limit=10`. */
  const ExampleQuery: seq<Field> := [
    Field("status", Obj([Field("gte", Str("in-transit"))])),
    Field("page", Str("2")),
    Field("limit", Str("10"))
  ]

  /** Against 25 candidates, page 2 holds the 11th to 20th, with `prev` page 1 and `next`
      page 3. */
  lemma ListingExample(candidates: seq<Shipment>, parseDate: Param -> Option<int>)
    requires |candidates| == 25
    ensures var r := ListingFrom(ExampleQuery, |candidates|, candidates, parseDate);
      && r.Ok?
      && r.value.data == candidates[10..20]
      && r.value.pagination == Pagination(Some(PageRef(3, 10)), Some(PageRef(1, 10)))
  {
    ExampleQueryParams();
    PageWithoutRefinements(|candidates|, candidates, 2, 10);
    ListingWithoutRefinements(ExampleQuery, |candidates|, candidates, parseDate);
  }

  lemma ExampleQueryParams()
    ensures PageNumber(Lookup(ExampleQuery, "page")) == 2
    ensures PageLimit(Lookup(ExampleQuery, "limit")) == 10
    ensures !Dated(ExampleQuery) && !Tracked(ExampleQuery) && SplitError(ExampleQuery).None?
  {
    ExampleLookups();
    NatStringSmall();
    PageParamDecimal(2);
    PageParamDecimal(10);
  }

  lemma ExampleLookups()
    ensures Lookup(ExampleQuery, "page") == Some(Str("2"))
    ensures Lookup(ExampleQuery, "limit") == Some(Str("10"))
    ensures Lookup(ExampleQuery, "startDate") == None && Lookup(ExampleQuery, "trackingId") == None
    ensures Lookup(ExampleQuery, "select") == None && Lookup(ExampleQuery, "sort") == None
  {
  }

  lemma NatStringSmall()
    ensures NatString(2) == "2" && NatString(10) == "10"
  {
  }

  /** `removeFields.forEach(param => delete reqQuery[param])` on a copy of the query. */
  method DeleteRemoveFields(query: seq<Field>) returns (reqQuery: seq<Field>)
    ensures reqQuery == GenericFilter(query)
  {
    reqQuery := query;
    KeepAll(query);
    assert RemoveFields[..0] == [];
    for i := 0 to |RemoveFields|
      invariant reqQuery == KeepFields(query, RemoveFields[..i])
    {
      DeleteAfterKeep(query, RemoveFields[..i], RemoveFields[i]);
      assert RemoveFields[..i] + [RemoveFields[i]] == RemoveFields[..i + 1];
      reqQuery := DeleteKey(reqQuery, RemoveFields[i]);
    }
    assert RemoveFields[..|RemoveFields|] == RemoveFields;
  }

  /** Lines 54-62 on the parsed filter `reqQuery`: the date range sets the bounds of
      `createdAt`, and the tracking id replaces the `trackingId` condition. */
  method SetPageConditions(query: seq<Field>, reqQuery: seq<Field>) returns (conditions: seq<Field>)
    requires reqQuery == GenericFilter(query)
    ensures conditions == PageFilter(query)
  {
    conditions := reqQuery;
    if Dated(query) {
      conditions := WithoutDateBounds(conditions);
    }
    if TrackedByValue(query) {
      conditions := DeleteKey(conditions, "trackingId");
    }
  }

  /** Lines 68-82: `next` when the page ends before the total, `prev` when it starts after
      the first document. */
  method PaginationResult(page: int, limit: int, total: nat) returns (pagination: Pagination)
    ensures pagination == PaginationOf(page, limit, total)
  {
    var next: Option<PageRef> := None;
    var prev: Option<PageRef> := None;
    if page * limit < total {
      next := Some(PageRef(page + 1, limit));
    }
    if (page - 1) * limit > 0 {
      prev := Some(PageRef(page - 1, limit));
    }
    pagination := Pagination(next, prev);
  }

  /** `getAllShipments`: the copy of the query loses the four keys one by one, the rest is
      serialised and rewritten; `select` and `sort` are split; the count uses the filter
      alone, and the page query has its conditions replaced by `where`. `ordered` is the
      order the sort asks for. */
  method GetAllShipments(store: ShipmentStore, query: seq<Field>, ordered: seq<Id>,
                         matches: (string, Shipment) -> bool, parseDate: Param -> Option<int>)
    returns (r: Result<Listing>)
    requires Enumerates(ordered, store.shipments)
    ensures r == ListingOf(query, Records(ordered, store.shipments), matches, parseDate)
  {
    var reqQuery := DeleteRemoveFields(query);
    var queryStr := Json(Obj(reqQuery));
    queryStr := Rewrite(queryStr);

    if !Splittable(Lookup(query, "select")) {
      return Err(TypeError("req.query.select.split is not a function"));
    }
    if !Splittable(Lookup(query, "sort")) {
      return Err(TypeError("req.query.sort.split is not a function"));
    }

    var page := PageNumber(Lookup(query, "page"));
    var limit := PageLimit(Lookup(query, "limit"));
    var startIndex := (page - 1) * limit;
    var records := Records(ordered, store.shipments);
    var total := |Matching(records, queryStr, matches)|;

    var conditions := SetPageConditions(query, reqQuery);
    var refinement := RefinementOf(query, parseDate);
    if refinement.Err? {
      return Err(refinement.error);
    }
    if startIndex < 0 {
      return Err(Query(NegativeSkip));
    }
    var candidates := Matching(records, Rewrite(Json(Obj(conditions))), matches);
    var shipments := Window(Refined(candidates, refinement.value), startIndex, limit);
    var pagination := PaginationResult(page, limit, total);
    r := Ok(Listing(|shipments|, pagination, shipments));
  }

  // ---------------------------------------------------------------------------
  // Mutators

  /** `updateShipmentStatus`: 400 for a missing or empty status before any lookup, 404
      for an unknown id; otherwise an audit entry `{shipment: status}` is pushed, `status`
      is set and the document is saved, which validates both against the enumeration.
      `save` does not run the update hook, so `updatedAt` keeps its value. */
  method UpdateShipmentStatus(store: ShipmentStore, id: Id, status: Option<string>, now: int)
    returns (r: Result<Shipment>)
    requires store.Valid()
    modifies store
    ensures store.Valid()
    ensures !Truthy(status) ==> r == Err(Http(400, "Please provide a status"))
    ensures Truthy(status) && id !in old(store.shipments) ==> r == Err(NotFound(id))
    ensures Truthy(status) && id in old(store.shipments) && status.value !in StatusValues ==>
      r == Err(Validation({"status", EntryPath(|old(store.shipments)[id].updatedStatus|)}))
    ensures r.Ok? <==> Truthy(status) && id in old(store.shipments) && status.value in StatusValues
    ensures r.Err? ==> store.shipments == old(store.shipments)
    ensures r.Ok? ==>
      var before := old(store.shipments)[id];
      && r.value == before.(status := status.value,
                            updatedStatus := before.updatedStatus + [StatusEntry(status.value, now)])
      && |r.value.updatedStatus| == |before.updatedStatus| + 1
      && r.value.updatedStatus[|before.updatedStatus|].shipment == status.value
      && r.value.updatedAt == before.updatedAt
      && store.shipments == old(store.shipments)[id := r.value]
  {
    if !Truthy(status) {
      return Err(Http(400, "Please provide a status"));
    }
    if id !in store.shipments {
      return Err(NotFound(id));
    }
    var shipment := store.shipments[id];
    shipment := shipment.(updatedStatus := shipment.updatedStatus + [StatusEntry(status.value, now)]);
    shipment := shipment.(status := status.value);
    if status.value !in StatusValues {
      return Err(Validation({"status", EntryPath(|shipment.updatedStatus| - 1)}));
    }
    PushStatusKeepsValid(store.shipments[id], status.value, now);
    ReplaceKeepsValid(store.shipments, id, shipment);
    store.shipments := store.shipments[id := shipment];
    r := Ok(shipment);
  }

  /** `updatePaymentStatus`: 400 for a falsy payment status before any lookup, 404 for an
      unknown id, then `findByIdAndUpdate` with validators: a value outside the payment
      enumeration is refused, otherwise `paymentStatus` and `updatedAt` change. */
  method UpdatePaymentStatus(store: ShipmentStore, id: Id, paymentStatus: Option<string>, now: int)
    returns (r: Result<Shipment>)
    requires store.Valid()
    modifies store
    ensures store.Valid()
    ensures !Truthy(paymentStatus) ==> r == Err(Http(400, "Please provide a payment status"))
    ensures Truthy(paymentStatus) && id !in old(store.shipments) ==> r == Err(NotFound(id))
    ensures Truthy(paymentStatus) && id in old(store.shipments) && paymentStatus.value !in PaymentValues ==>
      r == Err(Validation({"paymentStatus"}))
    ensures r.Ok? <==> Truthy(paymentStatus) && id in old(store.shipments) && paymentStatus.value in PaymentValues
    ensures r.Err? ==> store.shipments == old(store.shipments)
    ensures r.Ok? ==>
      && r.value == old(store.shipments)[id].(paymentStatus := paymentStatus.value, updatedAt := now)
      && store.shipments == old(store.shipments)[id := r.value]
  {
    if !Truthy(paymentStatus) {
      return Err(Http(400, "Please provide a payment status"));
    }
    if id !in store.shipments {
      return Err(NotFound(id));
    }
    var update := SetPaymentStatus(paymentStatus.value);
    if UpdateErrors(update) != {} {
      return Err(Validation(UpdateErrors(update)));
    }
    var shipment := FindOneAndUpdate(store.shipments[id], update, now);
    ReplaceKeepsValid(store.shipments, id, shipment);
    store.shipments := store.shipments[id := shipment];
    r := Ok(shipment);
  }

  /** `updateAmount`: 400 for a negative amount before any lookup (an absent amount is not
      negative), 404 for an unknown id, then `findByIdAndUpdate`: `amount` (when given) and
      `updatedAt` change. There is no lower bound in the schema itself. */
  method UpdateAmount(store: ShipmentStore, id: Id, amount: Option<int>, now: int)
    returns (r: Result<Shipment>)
    requires store.Valid()
    modifies store
    ensures store.Valid()
    ensures amount.Some? && amount.value < 0 ==> r == Err(Http(400, "Please provide a valid amount"))
    ensures !(amount.Some? && amount.value < 0) && id !in old(store.shipments) ==> r == Err(NotFound(id))
    ensures r.Ok? <==> !(amount.Some? && amount.value < 0) && id in old(store.shipments)
    ensures r.Err? ==> store.shipments == old(store.shipments)
    ensures r.Ok? ==>
      var before := old(store.shipments)[id];
      && r.value == before.(amount := if amount.Some? then amount.value else before.amount, updatedAt := now)
      && store.shipments == old(store.shipments)[id := r.value]
  {
    if amount.Some? && amount.value < 0 {
      return Err(Http(400, "Please provide a valid amount"));
    }
    if id !in store.shipments {
      return Err(NotFound(id));
    }
    var shipment := FindOneAndUpdate(store.shipments[id], SetAmount(amount), now);
    ReplaceKeepsValid(store.shipments, id, shipment);
    store.shipments := store.shipments[id := shipment];
    r := Ok(shipment);
  }

  /** `deleteShipment`: 404 for an unknown id, otherwise that document alone is removed
      and the answer carries no data. */
  method DeleteShipment(store: ShipmentStore, id: Id) returns (r: Result<()>)
    requires store.Valid()
    modifies store
    ensures store.Valid()
    ensures r.Err? <==> id !in old(store.shipments)
    ensures r.Err? ==> r.error == NotFound(id) && store.shipments == old(store.shipments)
    ensures r.Ok? ==> store.shipments == old(store.shipments) - {id}
  {
    if id !in store.shipments {
      return Err(NotFound(id));
    }
    store.shipments := store.shipments - {id};
    r := Ok(());
  }
}
