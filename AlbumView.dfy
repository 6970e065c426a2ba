/** `GET /top-albums/`: turning the query string into a plan over the album table (a
    top-albums base, ordering from `sort`, filters and excludes from feature parameters),
    and the response, with its optional page window and pagination links. */
module AlbumView {
  import opened Wrappers
  import opened Text
  import opened Models
  import opened Query
  import opened Features

  // ---------------------------------------------------------------------------------
  // Ordering from `sort`

  /** `_add_ordering_from_sort_param`: `order_by` replaces the ordering and keeps the rest. */
  function AddOrderingFromSortParam(plan: Plan, sort: string): (r: Plan)
    ensures r.ordering == SortKeys(sort)
    ensures r.topOnly == plan.topOnly && r.filters == plan.filters && r.excludes == plan.excludes
  {
    plan.(ordering := SortKeys(sort))
  }

  // ---------------------------------------------------------------------------------
  // Filters from the other parameters

  /** `any(param.startswith(k) for k in feature_keys)`. */
  predicate IsFeatureParam(param: string)
  {
    exists j :: 0 <= j < |FeatureTable| && FeatureTable[j].0 <= param
  }

  /** Whether a mapped parameter is an exclusion: `"__not" in field`. */
  predicate Negated(field: string)
  {
    Contains(field, "__not")
  }

  /** The filter one parameter adds: a feature parameter whose field has no "__not". */
  function FilterBy(param: string, value: string): seq<Condition>
  {
    var field := ReplaceFeatureWithField(param);
    if IsFeatureParam(param) && !Negated(field) then [Condition(field, value)] else []
  }

  /** The exclude one parameter adds: a feature parameter whose field has "__not", with
      every "__not" removed. */
  function ExcludeBy(param: string, value: string): seq<Condition>
  {
    var field := ReplaceFeatureWithField(param);
    if IsFeatureParam(param) && Negated(field) then [Condition(RemoveAll(field, "__not"), value)] else []
  }

  /** The filter conditions the parameters add, in parameter order. */
  function Included(params: seq<(string, string)>): seq<Condition>
  {
    if |params| == 0 then []
    else Included(params[..|params| - 1]) + FilterBy(params[|params| - 1].0, params[|params| - 1].1)
  }

  /** The exclude conditions the parameters add, in parameter order. */
  function Excluded(params: seq<(string, string)>): seq<Condition>
  {
    if |params| == 0 then []
    else Excluded(params[..|params| - 1]) + ExcludeBy(params[|params| - 1].0, params[|params| - 1].1)
  }

  /** `_apply_filters_from_params`: one `filter` or `exclude` call per feature parameter, in
      the dictionary's order. */
  method ApplyFiltersFromParams(plan: Plan, params: seq<(string, string)>) returns (r: Plan)
    ensures r == plan.(filters := plan.filters + Included(params), excludes := plan.excludes + Excluded(params))
  {
    r := plan;
    var i := 0;
    while i < |params|
      invariant 0 <= i <= |params|
      invariant r == plan.(filters := plan.filters + Included(params[..i]), excludes := plan.excludes + Excluded(params[..i]))
    {
      var (param, value) := params[i];
      ghost var before := r;
      if IsFeatureParam(param) {
        var field := ReplaceFeatureWithField(param);
        if Negated(field) {
          r := r.(excludes := r.excludes + [Condition(RemoveAll(field, "__not"), value)]);
        } else {
          r := r.(filters := r.filters + [Condition(field, value)]);
        }
      }
      ConditionsStep(plan, params, i, before, r);
      i := i + 1;
    }
    assert params[..i] == params;
  }

  lemma AppendAssociates<T>(a: seq<T>, b: seq<T>, c: seq<T>)
    ensures a + b + c == a + (b + c)
  {
  }

  lemma ConditionsStep(plan: Plan, params: seq<(string, string)>, i: nat, before: Plan, after: Plan)
    requires i < |params|
    requires before == plan.(filters := plan.filters + Included(params[..i]), excludes := plan.excludes + Excluded(params[..i]))
    requires after == before.(filters := before.filters + FilterBy(params[i].0, params[i].1),
                              excludes := before.excludes + ExcludeBy(params[i].0, params[i].1))
    ensures after == plan.(filters := plan.filters + Included(params[..i + 1]), excludes := plan.excludes + Excluded(params[..i + 1]))
  {
    assert params[..i + 1][..i] == params[..i];
    AppendAssociates(plan.filters, Included(params[..i]), FilterBy(params[i].0, params[i].1));
    AppendAssociates(plan.excludes, Excluded(params[..i]), ExcludeBy(params[i].0, params[i].1));
  }

  /** Every feature parameter contributes one condition, a filter on its mapped field or,
      when that holds "__not", an exclude on the field with "__not" removed. */
  lemma {:induction false} FeatureParamsContribute(params: seq<(string, string)>, i: nat)
    requires i < |params| && IsFeatureParam(params[i].0)
    ensures var field := ReplaceFeatureWithField(params[i].0);
            if Negated(field) then Condition(RemoveAll(field, "__not"), params[i].1) in Excluded(params)
            else Condition(field, params[i].1) in Included(params)
  {
    if i < |params| - 1 {
      FeatureParamsContribute(params[..|params| - 1], i);
    }
  }

  /** Every condition comes from a feature parameter. */
  lemma {:induction false} ConditionsFromFeatureParams(params: seq<(string, string)>)
    ensures forall c :: c in Included(params) ==>
              exists i :: 0 <= i < |params| && IsFeatureParam(params[i].0)
                && !Negated(ReplaceFeatureWithField(params[i].0))
                && c == Condition(ReplaceFeatureWithField(params[i].0), params[i].1)
    ensures forall c :: c in Excluded(params) ==>
              exists i :: 0 <= i < |params| && IsFeatureParam(params[i].0)
                && Negated(ReplaceFeatureWithField(params[i].0))
                && c == Condition(RemoveAll(ReplaceFeatureWithField(params[i].0), "__not"), params[i].1)
  {
    if |params| > 0 {
      var front := params[..|params| - 1];
      ConditionsFromFeatureParams(front);
      assert forall i :: 0 <= i < |front| ==> front[i] == params[i];
    }
  }

  /** The paging and sorting parameters are not feature parameters, so they never become
      conditions. */
  lemma ControlParamsIgnored()
    ensures !IsFeatureParam("page") && !IsFeatureParam("page_size") && !IsFeatureParam("sort")
  {
    forall j | 0 <= j < |FeatureTable| ensures !(FeatureTable[j].0 <= "page") && !(FeatureTable[j].0 <= "page_size") && !(FeatureTable[j].0 <= "sort") {
      var k := FeatureTable[j].0;
      assert k[0] != 's';
      if k[0] == 'p' {
        assert k[1] == 'r';
      }
    }
  }

  /** `category__not=Foo` excludes the albums whose category term is "Foo". */
  lemma ExcludeExample(value: string)
    ensures Included([("category__not", value)]) == []
    ensures Excluded([("category__not", value)]) == [Condition("itunes_category__term", value)]
  {
    CategoryNotExample();
    assert IsFeatureParam("category__not") by {
      assert FeatureTable[1].0 <= "category__not";
    }
    assert [("category__not", value)][..0] == [];
  }

  // ---------------------------------------------------------------------------------
  // The query string

  /** A query string: its (key, value) pairs in order; a key may repeat. */
  type QueryString = seq<(string, string)>

  /** `request.GET.get(key)`: the last value given for the key. */
  function Param(query: QueryString, key: string): (r: Option<string>)
    ensures r.Some? <==> exists i :: 0 <= i < |query| && query[i].0 == key
    ensures r.Some? ==> exists i :: 0 <= i < |query| && query[i] == (key, r.value)
                                    && forall j :: i < j < |query| ==> query[j].0 != key
  {
    if |query| == 0 then None
    else if query[|query| - 1].0 == key then Some(query[|query| - 1].1)
    else
      var front := query[..|query| - 1];
      var r := Param(front, key);
      assert forall i :: 0 <= i < |front| ==> front[i] == query[i];
      assert r.Some? ==> exists i :: 0 <= i < |query| && query[i] == (key, r.value)
                                    && forall j :: i < j < |query| ==> query[j].0 != key by {
        if r.Some? {
          var i :| 0 <= i < |front| && front[i] == (key, r.value)
                   && forall j :: i < j < |front| ==> front[j].0 != key;
          assert query[i] == (key, r.value);
        }
      }
      r
  }

  /** `request.GET.keys()`: each key once, in order of first appearance. */
  function KeysOf(query: QueryString): (keys: seq<string>)
    ensures forall k :: k in keys <==> exists i :: 0 <= i < |query| && query[i].0 == k
    ensures forall i, j :: 0 <= i < j < |keys| ==> keys[i] != keys[j]
  {
    if |query| == 0 then []
    else
      var keys := KeysOf(query[..|query| - 1]);
      var key := query[|query| - 1].0;
      assert forall i :: 0 <= i < |query| - 1 ==> query[..|query| - 1][i] == query[i];
      if key in keys then keys else keys + [key]
  }

  /** `{k: request.GET.get(k) for k in request.GET.keys()}`. */
  function ParamDict(query: QueryString): (params: seq<(string, string)>)
    ensures |params| == |KeysOf(query)|
    ensures forall i :: 0 <= i < |params| ==> params[i].0 == KeysOf(query)[i] && Some(params[i].1) == Param(query, params[i].0)
  {
    var keys := KeysOf(query);
    assert forall i :: 0 <= i < |keys| ==> keys[i] in keys && Param(query, keys[i]).Some?;
    seq(|keys|, i requires 0 <= i < |keys| => (keys[i], Param(query, keys[i]).value))
  }

  // ---------------------------------------------------------------------------------
  // Pagination

  /** The "pagination" object: the page size, and the page numbers the previous_page and
      next_page links point to, when present. */
  datatype Pagination = Pagination(pageSize: int, previousPage: Option<int>, nextPage: Option<int>)

  /** The page window: `[(page - 1) * page_size, (page - 1) * page_size + page_size)`. */
  function WindowStart(page: int, pageSize: int): int
  {
    (page - 1) * pageSize
  }

  /** Python's `s[start:stop]` for non-negative bounds. */
  function Slice<T>(s: seq<T>, start: nat, stop: nat): (r: seq<T>)
    ensures |r| == if stop <= start || start >= |s| then 0 else (if stop < |s| then stop else |s|) - start
    ensures forall i :: 0 <= i < |r| ==> start + i < |s| && r[i] == s[start + i]
  {
    if start >= |s| || stop <= start then []
    else if stop >= |s| then s[start..]
    else s[start..stop]
  }

  /** The albums of page `page`. */
  function PageOf<T>(results: seq<T>, page: int, pageSize: int): (r: seq<T>)
    requires WindowStart(page, pageSize) >= 0 && WindowStart(page, pageSize) + pageSize >= 0
    ensures |r| == if pageSize <= 0 || WindowStart(page, pageSize) >= |results| then 0
                   else if |results| - WindowStart(page, pageSize) < pageSize then |results| - WindowStart(page, pageSize)
                   else pageSize
    ensures forall i :: 0 <= i < |r| ==>
              WindowStart(page, pageSize) + i < |results| && r[i] == results[WindowStart(page, pageSize) + i]
  {
    Slice(results, WindowStart(page, pageSize), WindowStart(page, pageSize) + pageSize)
  }

  /** What `_make_response_pagination_part` returns. */
  function PaginationPart(countAll: int, page: int, pageSize: int): (p: Pagination)
    ensures p.pageSize == pageSize
    ensures p.previousPage == (if page > 1 then Some(page - 1) else None)
    ensures p.nextPage == (if countAll > page * pageSize then Some(page + 1) else None)
  {
    Pagination(pageSize,
               if page > 1 then Some(page - 1) else None,
               if countAll > page * pageSize then Some(page + 1) else None)
  }

  /** `_make_response_pagination_part`: the page size, then each link when it applies. */
  method MakeResponsePaginationPart(countAll: int, page: int, pageSize: int) returns (p: Pagination)
    ensures p == PaginationPart(countAll, page, pageSize)
  {
    p := Pagination(pageSize, None, None);
    if page > 1 {
      p := p.(previousPage := Some(page - 1));
    }
    if countAll > page * pageSize {
      p := p.(nextPage := Some(page + 1));
    }
  }

  /** With a positive page size, the next_page link is present exactly when the next page
      holds albums. */
  lemma NextPageLink<T>(results: seq<T>, page: int, pageSize: int)
    requires page >= 1 && pageSize >= 1
    ensures PaginationPart(|results|, page, pageSize).nextPage.Some? <==> |PageOf(results, page + 1, pageSize)| > 0
  {
    assert WindowStart(page + 1, pageSize) == page * pageSize;
  }

  /** The previous_page link is present exactly from page 2 on; when the current page holds
      albums, the previous page it points to is a full page. */
  lemma PreviousPageLink<T>(results: seq<T>, page: int, pageSize: int)
    requires page >= 2 && pageSize >= 1
    requires |PageOf(results, page, pageSize)| > 0
    ensures PaginationPart(|results|, page, pageSize).previousPage == Some(page - 1)
    ensures |PageOf(results, page - 1, pageSize)| == pageSize
  {
    assert WindowStart(page - 1, pageSize) + pageSize == WindowStart(page, pageSize);
    assert WindowStart(page - 1, pageSize) >= 0;
  }

  // ---------------------------------------------------------------------------------
  // The response

  datatype Response =
    | BadRequest(message: string)                                        // 400 with {"message": ...}
    | ServerError                                                        // an exception escapes: 500
    | Listing(contents: seq<map<string, Value>>, pagination: Pagination) // 200

  const PageSizeRequired := "page_size required when page is specified"

  /** The plan `get` builds: the top albums, ordered by `sort` when given, with the
      filters of the parameter dictionary. */
  function PlanFor(query: QueryString): Plan
  {
    var sort := Param(query, "sort");
    var ordered := if sort.Some? then AddOrderingFromSortParam(AllTop, sort.value) else AllTop;
    var params := ParamDict(query);
    ordered.(filters := ordered.filters + Included(params), excludes := ordered.excludes + Excluded(params))
  }

  /** `list(all_top)`: the albums the plan yields from the table. */
  function Results(query: QueryString, rows: seq<Album>, matches: Matcher): seq<Album>
  {
    Evaluate(rows, PlanFor(query), matches)
  }

  /** `[f(x) for x in xs]`. */
  function MapSeq<A, B>(xs: seq<A>, f: A -> B): (ys: seq<B>)
    ensures |ys| == |xs| && forall i :: 0 <= i < |xs| ==> ys[i] == f(xs[i])
  {
    seq(|xs|, i requires 0 <= i < |xs| => f(xs[i]))
  }

  /** The 200 response listing these albums, each serialized, in order. */
  function ListingOf(albums: seq<Album>, pagination: Pagination): (r: Response)
    ensures r.Listing? && |r.contents| == |albums| && r.pagination == pagination
  {
    Listing(MapSeq(albums, Serialize), pagination)
  }

  /** The listing holds each album's serialization at the album's place. */
  lemma ListingContents(albums: seq<Album>, pagination: Pagination)
    ensures forall i :: 0 <= i < |albums| ==> ListingOf(albums, pagination).contents[i] == Serialize(albums[i])
  {
  }

  /** The page number and the page size, as `int()` reads them; `page` defaults to 1. */
  function PageNumbers(page: Option<string>, pageSize: string): Option<(int, int)>
  {
    var number := if page.None? then Some(1) else ParseInt(page.value);
    var size := ParseInt(pageSize);
    if number.Some? && size.Some? then Some((number.value, size.value)) else None
  }

  /** What `get` answers for a query string over the album table. */
  function Respond(query: QueryString, rows: seq<Album>, matches: Matcher): Response
  {
    var page := Param(query, "page");
    var pageSize := Param(query, "page_size");
    if page.Some? && pageSize.None? then BadRequest(PageSizeRequired)
    else Paged(Results(query, rows, matches), page, pageSize)
  }

  /** The listing of the results: all of them without a page size, else the page's window.
      A page number or size that is not an integer, or a window with a negative bound
      (which the query set refuses), is an exception, so a server error. */
  function Paged(results: seq<Album>, page: Option<string>, pageSize: Option<string>): Response
  {
    if pageSize.None? then ListingOf(results, Pagination(|results|, None, None))
    else
      var numbers := PageNumbers(page, pageSize.value);
      if numbers.None? then ServerError
      else
        var (number, size) := numbers.value;
        var start := WindowStart(number, size);
        if start < 0 || start + size < 0 then ServerError
        else ListingOf(PageOf(results, number, size), PaginationPart(|results|, number, size))
  }

  /** `TopAlbumsView.get`. */
  method Get(query: QueryString, rows: seq<Album>, matches: Matcher) returns (r: Response)
    ensures r == Respond(query, rows, matches)
  {
    var page := Param(query, "page");
    var pageSize := Param(query, "page_size");
    var sort := Param(query, "sort");
    if page.Some? && pageSize.None? {
      return BadRequest(PageSizeRequired);
    }
    var allTop := AllTop;
    if sort.Some? {
      allTop := AddOrderingFromSortParam(allTop, sort.value);
    }
    allTop := ApplyFiltersFromParams(allTop, ParamDict(query));
    assert allTop == PlanFor(query);
    var results := Evaluate(rows, allTop, matches);
    assert Respond(query, rows, matches) == Paged(results, page, pageSize);
    if pageSize.None? {
      return ListingOf(results, Pagination(|results|, None, None));
    }
    var numbers := PageNumbers(page, pageSize.value);
    if numbers.None? {
      return ServerError;
    }
    var (number, size) := numbers.value;
    var start := (number - 1) * size;
    if start < 0 || start + size < 0 {
      return ServerError;
    }
    assert start == WindowStart(number, size);
    var albums := Slice(results, start, start + size);
    assert albums == PageOf(results, number, size);
    var pagination := MakeResponsePaginationPart(|results|, number, size);
    return ListingOf(albums, pagination);
  }

  /** A page without a page size is refused with a 400 and its message, and only then. */
  lemma BadRequestExactly(query: QueryString, rows: seq<Album>, matches: Matcher)
    ensures Respond(query, rows, matches).BadRequest? <==> Param(query, "page").Some? && Param(query, "page_size").None?
    ensures Respond(query, rows, matches).BadRequest? ==> Respond(query, rows, matches).message == PageSizeRequired
  {
  }

  /** The results are the top albums of the table that satisfy every filter and no
      exclude, each as often as in the table, in the order `sort` asks for. */
  lemma ResultsAreTop(query: QueryString, rows: seq<Album>, matches: Matcher)
    ensures forall a :: a in Results(query, rows, matches) ==> a in rows && a.isItunesTop
    ensures forall a :: a in Results(query, rows, matches) <==> a in rows && Selected(a, PlanFor(query), matches)
    ensures multiset(Results(query, rows, matches)) == multiset(Select(rows, PlanFor(query), matches))
    ensures Ordered(Results(query, rows, matches), PlanFor(query).ordering)
  {
    EvaluateFacts(rows, PlanFor(query), matches);
  }

  /** Without a page size every result is listed, in order; the reported page size is
      their number and no link is given. */
  lemma UnpaginatedListsAll(results: seq<Album>)
    ensures Paged(results, None, None) == ListingOf(results, Pagination(|results|, None, None))
    ensures |Paged(results, None, None).contents| == |results| == Paged(results, None, None).pagination.pageSize
  {
  }

  /** With a page size whose window has no negative bound, the listing is that page of
      the results with the links of that page. */
  lemma PaginatedListsWindow(results: seq<Album>, page: Option<string>, pageSize: string, number: int, size: int)
    requires PageNumbers(page, pageSize) == Some((number, size))
    requires WindowStart(number, size) >= 0 && WindowStart(number, size) + size >= 0
    ensures Paged(results, page, Some(pageSize)) == ListingOf(PageOf(results, number, size), PaginationPart(|results|, number, size))
  {
  }

  /** A page size with no page lists the first page, with no previous_page link. */
  lemma PageDefaultsToFirst(results: seq<Album>, pageSize: string)
    requires ParseInt(pageSize).Some? && ParseInt(pageSize).value >= 0
    ensures Paged(results, None, Some(pageSize)).Listing?
    ensures Paged(results, None, Some(pageSize)).pagination == PaginationPart(|results|, 1, ParseInt(pageSize).value)
    ensures Paged(results, None, Some(pageSize)).pagination.previousPage.None?
  {
  }

  /** With a page size, the answer is a server error exactly when the page number or the
      size is not an integer or the window has a negative bound. */
  lemma ServerErrorExactly(results: seq<Album>, page: Option<string>, pageSize: string)
    ensures Paged(results, page, Some(pageSize)) == ServerError <==>
              || PageNumbers(page, pageSize).None?
              || WindowStart(PageNumbers(page, pageSize).value.0, PageNumbers(page, pageSize).value.1) < 0
              || WindowStart(PageNumbers(page, pageSize).value.0, PageNumbers(page, pageSize).value.1)
                   + PageNumbers(page, pageSize).value.1 < 0
  {
  }
}
