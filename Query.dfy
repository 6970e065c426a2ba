/** The part of the album query the view builds that the database evaluates: which rows
    are selected (top albums, filter and exclude predicates) and how they are ordered
    (`order_by` with field paths, "-" for descending). A predicate's lookup (`__lt`,
    `__contains`, ...) belongs to the database and is a parameter here. */
module Query {
  import opened Models
  import opened Text

  /** One keyword argument of `filter(...)` or `exclude(...)`: a field path with its lookup,
      and the value it is compared with. */
  datatype Condition = Condition(path: string, value: string)

  /** A query over the album table: `filter(is_itunes_top=True)` when `topOnly`, then the
      filters and the excludes in the order they were added, then `order_by(*ordering)`. */
  datatype Plan = Plan(topOnly: bool, filters: seq<Condition>, excludes: seq<Condition>, ordering: seq<string>)

  /** `Album.objects.filter(is_itunes_top=True)`. */
  const AllTop := Plan(true, [], [], [])

  /** The database's lookup semantics: whether an album satisfies a condition. */
  type Matcher = (Album, Condition) -> bool

  predicate Selected(a: Album, plan: Plan, matches: Matcher)
  {
    && (plan.topOnly ==> a.isItunesTop)
    && (forall i :: 0 <= i < |plan.filters| ==> matches(a, plan.filters[i]))
    && (forall i :: 0 <= i < |plan.excludes| ==> !matches(a, plan.excludes[i]))
  }

  /** The rows the plan selects, in the order of the table: each selected row as often as
      the table holds it, and no other row. */
  function Select(rows: seq<Album>, plan: Plan, matches: Matcher): (r: seq<Album>)
    ensures forall a :: multiset(r)[a] == if Selected(a, plan, matches) then multiset(rows)[a] else 0
    ensures forall a :: a in r <==> a in rows && Selected(a, plan, matches)
    ensures |r| <= |rows|
  {
    if |rows| == 0 then []
    else
      var rest := Select(rows[1..], plan, matches);
      assert rows == [rows[0]] + rows[1..];
      assert multiset(rows) == multiset{rows[0]} + multiset(rows[1..]);
      if Selected(rows[0], plan, matches) then [rows[0]] + rest else rest
  }

  // ---------------------------------------------------------------------------------
  // Ordering

  /** The value an album has for one of the orderable field paths the view produces. */
  datatype SortValue = SText(s: string) | SNumber(r: real) | SDate(d: Date) | SNone

  function SortValueOf(a: Album, path: string): SortValue
  {
    if path == "artist" then SText(a.artist)
    else if path == "itunes_category__term" then SText(a.itunesCategory.term)
    else if path == "name" then SText(a.name)
    else if path == "itunes_price_dollars" then SNumber(DecimalValue(a.itunesPriceDollars))
    else if path == "release_date" then SDate(a.releaseDate)
    else SNone
  }

  function Sign(b: bool, c: bool): int
  {
    if b then -1 else if c then 1 else 0
  }

  function CompareDate(x: Date, y: Date): int
  {
    if x.year != y.year then Sign(x.year < y.year, x.year > y.year)
    else if x.month != y.month then Sign(x.month < y.month, x.month > y.month)
    else Sign(x.day < y.day, x.day > y.day)
  }

  /** Three-way comparison of two values of the same path. */
  function CompareValues(x: SortValue, y: SortValue): int
  {
    match (x, y)
    case (SText(s), SText(t)) => CompareText(s, t)
    case (SNumber(r), SNumber(q)) => Sign(r < q, r > q)
    case (SDate(d), SDate(e)) => CompareDate(d, e)
    case _ => 0
  }

  /** One ORDER BY term: a field path, descending when it starts with "-". */
  function CompareTerm(a: Album, b: Album, term: string): int
  {
    if |term| > 0 && term[0] == '-' then -CompareValues(SortValueOf(a, term[1..]), SortValueOf(b, term[1..]))
    else CompareValues(SortValueOf(a, term), SortValueOf(b, term))
  }

  /** ORDER BY t1, t2, ...: the first term on which the two albums differ decides. */
  function Compare(a: Album, b: Album, ordering: seq<string>): int
  {
    if |ordering| == 0 then 0
    else
      var c := CompareTerm(a, b, ordering[0]);
      if c != 0 then c else Compare(a, b, ordering[1..])
  }

  lemma CompareDateProperties(x: Date, y: Date, z: Date)
    ensures CompareDate(x, y) == -CompareDate(y, x)
    ensures CompareDate(x, y) == 0 <==> x == y
    ensures CompareDate(x, y) <= 0 && CompareDate(y, z) <= 0 ==> CompareDate(x, z) <= 0
  {
  }

  lemma CompareValuesProperties(x: SortValue, y: SortValue, z: SortValue)
    requires x.SText? == y.SText? == z.SText? && x.SNumber? == y.SNumber? == z.SNumber?
    requires x.SDate? == y.SDate? == z.SDate?
    ensures CompareValues(x, y) == -CompareValues(y, x)
    ensures -1 <= CompareValues(x, y) <= 1
    ensures CompareValues(x, y) <= 0 && CompareValues(y, z) <= 0 ==> CompareValues(x, z) <= 0
    ensures CompareValues(x, y) == 0 && CompareValues(y, z) == 0 ==> CompareValues(x, z) == 0
  {
    match x
    case SText(s) =>
      CompareTextProperties(s, y.s);
      CompareTextProperties(y.s, z.s);
      CompareTextProperties(s, z.s);
      if CompareValues(x, y) <= 0 && CompareValues(y, z) <= 0 {
        CompareTextTransitive(s, y.s, z.s);
      }
    case SNumber(_) =>
    case SDate(d) =>
      CompareDateProperties(d, y.d, z.d);
      CompareDateProperties(d, y.d, y.d);
    case SNone =>
  }

  /** Every term compares the same path of both albums, so the values have the same shape. */
  lemma SameShape(a: Album, b: Album, path: string)
    ensures SortValueOf(a, path).SText? == SortValueOf(b, path).SText?
    ensures SortValueOf(a, path).SNumber? == SortValueOf(b, path).SNumber?
    ensures SortValueOf(a, path).SDate? == SortValueOf(b, path).SDate?
  {
  }

  lemma CompareTermProperties(a: Album, b: Album, c: Album, term: string)
    ensures CompareTerm(a, b, term) == -CompareTerm(b, a, term)
    ensures -1 <= CompareTerm(a, b, term) <= 1
    ensures CompareTerm(a, b, term) <= 0 && CompareTerm(b, c, term) <= 0 ==> CompareTerm(a, c, term) <= 0
    ensures CompareTerm(a, b, term) == 0 && CompareTerm(b, c, term) == 0 ==> CompareTerm(a, c, term) == 0
  {
    var path := if |term| > 0 && term[0] == '-' then term[1..] else term;
    var x, y, z := SortValueOf(a, path), SortValueOf(b, path), SortValueOf(c, path);
    SameShape(a, b, path);
    SameShape(b, c, path);
    CompareValuesProperties(x, y, z);
    CompareValuesProperties(z, y, x);
    CompareValuesProperties(x, z, y);
    CompareValuesProperties(y, z, x);
  }

  /** The ordering is a total preorder: antisymmetric and transitive. */
  lemma {:induction false} CompareProperties(a: Album, b: Album, c: Album, ordering: seq<string>)
    ensures Compare(a, b, ordering) == -Compare(b, a, ordering)
    ensures Compare(a, b, ordering) <= 0 && Compare(b, c, ordering) <= 0 ==> Compare(a, c, ordering) <= 0
    ensures Compare(a, b, ordering) == 0 && Compare(b, c, ordering) == 0 ==> Compare(a, c, ordering) == 0
  {
    if |ordering| > 0 {
      CompareTermProperties(a, b, c, ordering[0]);
      CompareTermProperties(a, c, b, ordering[0]);
      CompareTermProperties(b, a, c, ordering[0]);
      CompareTermProperties(b, c, a, ordering[0]);
      CompareTermProperties(c, a, b, ordering[0]);
      CompareTermProperties(c, b, a, ordering[0]);
      CompareProperties(a, b, c, ordering[1..]);
    }
  }

  predicate Ordered(s: seq<Album>, ordering: seq<string>)
  {
    forall i, j :: 0 <= i < j < |s| ==> Compare(s[i], s[j], ordering) <= 0
  }

  /** Inserts `a` after every album that does not come after it. */
  function Insert(a: Album, s: seq<Album>, ordering: seq<string>): seq<Album>
  {
    if |s| == 0 || Compare(a, s[0], ordering) < 0 then [a] + s
    else [s[0]] + Insert(a, s[1..], ordering)
  }

  /** The rows in ORDER BY order; rows the ordering does not tell apart keep the order of
      the table. */
  function Sort(s: seq<Album>, ordering: seq<string>): seq<Album>
  {
    if |s| == 0 then [] else Insert(s[|s| - 1], Sort(s[..|s| - 1], ordering), ordering)
  }

  lemma {:induction false} InsertPermutes(a: Album, s: seq<Album>, ordering: seq<string>)
    ensures multiset(Insert(a, s, ordering)) == multiset{a} + multiset(s)
  {
    if |s| > 0 && Compare(a, s[0], ordering) >= 0 {
      InsertPermutes(a, s[1..], ordering);
      assert s == [s[0]] + s[1..];
    }
  }

  lemma {:induction false} InsertOrdered(a: Album, s: seq<Album>, ordering: seq<string>)
    requires Ordered(s, ordering)
    ensures Ordered(Insert(a, s, ordering), ordering)
  {
    var r := Insert(a, s, ordering);
    if |s| == 0 {
    } else if Compare(a, s[0], ordering) < 0 {
      forall j | 0 < j < |r| ensures Compare(r[0], r[j], ordering) <= 0 {
        CompareProperties(a, s[0], r[j], ordering);
      }
    } else {
      var rest := Insert(a, s[1..], ordering);
      InsertOrdered(a, s[1..], ordering);
      InsertPermutes(a, s[1..], ordering);
      assert r[1..] == rest;
      forall j | 0 < j < |r| ensures Compare(r[0], r[j], ordering) <= 0 {
        assert r[j] in multiset(rest);
        if r[j] == a {
          CompareProperties(s[0], a, a, ordering);
        } else {
          assert r[j] in s[1..];
        }
      }
    }
  }

  /** Sorting yields the same rows, in order. */
  lemma SortFacts(s: seq<Album>, ordering: seq<string>)
    ensures Ordered(Sort(s, ordering), ordering)
    ensures multiset(Sort(s, ordering)) == multiset(s)
  {
    SortOrdered(s, ordering);
    SortPermutes(s, ordering);
  }

  lemma {:induction false} SortOrdered(s: seq<Album>, ordering: seq<string>)
    ensures Ordered(Sort(s, ordering), ordering)
  {
    if |s| > 0 {
      SortOrdered(s[..|s| - 1], ordering);
      InsertOrdered(s[|s| - 1], Sort(s[..|s| - 1], ordering), ordering);
    }
  }

  lemma {:induction false} SortPermutes(s: seq<Album>, ordering: seq<string>)
    ensures multiset(Sort(s, ordering)) == multiset(s)
  {
    if |s| > 0 {
      var front := s[..|s| - 1];
      SortPermutes(front, ordering);
      InsertPermutes(s[|s| - 1], Sort(front, ordering), ordering);
      assert multiset(s) == multiset(front) + multiset{s[|s| - 1]} by {
        assert s == front + [s[|s| - 1]];
      }
    }
  }

  /** What `list(queryset)` yields for the plan. */
  function Evaluate(rows: seq<Album>, plan: Plan, matches: Matcher): seq<Album>
  {
    Sort(Select(rows, plan, matches), plan.ordering)
  }

  /** The plan's results are exactly the selected rows, each as often as in the table, in
      the order the plan asks for. */
  lemma EvaluateFacts(rows: seq<Album>, plan: Plan, matches: Matcher)
    ensures Ordered(Evaluate(rows, plan, matches), plan.ordering)
    ensures multiset(Evaluate(rows, plan, matches)) == multiset(Select(rows, plan, matches))
    ensures forall a :: a in Evaluate(rows, plan, matches) <==> a in rows && Selected(a, plan, matches)
    ensures |Evaluate(rows, plan, matches)| == |Select(rows, plan, matches)| <= |rows|
  {
    var selected := Select(rows, plan, matches);
    SortFacts(selected, plan.ordering);
    assert forall a :: a in Evaluate(rows, plan, matches) <==> a in multiset(selected);
    assert |multiset(Evaluate(rows, plan, matches))| == |multiset(selected)|;
  }
}
