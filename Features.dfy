/** The feature names the top-albums endpoint accepts, the field paths they stand for,
    and the rewriting of a sort clause or a filter parameter from one to the other. */
module Features {
  import opened Text

  // ---------------------------------------------------------------------------------
  // Features and field paths

  /** `_FEATURE_PARAMS_TO_FIELDS`, in the order of its keys: a public feature name and the
      field path it stands for. */
  const FeatureTable: seq<(string, string)> := [
    ("artist", "artist"),
    ("category", "itunes_category__term"),
    ("name", "name"),
    ("price", "itunes_price_dollars"),
    ("release_date", "release_date")
  ]

  /** The fold of `_replace_feature_with_field` over part of the table: each feature name,
      in table order, has its first occurrence replaced by its field path. */
  function ReplaceEach(token: string, table: seq<(string, string)>): string
    decreases |table|
  {
    if |table| == 0 then token
    else ReplaceEach(ReplaceFirst(token, table[0].0, table[0].1), table[1..])
  }

  /** `_replace_feature_with_field`. */
  function ReplaceFeatureWithField(feature: string): string
  {
    ReplaceEach(feature, FeatureTable)
  }

  lemma {:induction false} ReplaceEachConcat(token: string, t1: seq<(string, string)>, t2: seq<(string, string)>)
    ensures ReplaceEach(token, t1 + t2) == ReplaceEach(ReplaceEach(token, t1), t2)
    decreases |t1|
  {
    if |t1| > 0 {
      assert (t1 + t2)[0] == t1[0] && (t1 + t2)[1..] == t1[1..] + t2;
      ReplaceEachConcat(ReplaceFirst(token, t1[0].0, t1[0].1), t1[1..], t2);
    } else {
      assert t1 + t2 == t2;
    }
  }

  /** A token `p + suffix` is left as it is when no feature name of the table starts inside
      `p` and none occurs in `suffix`. */
  lemma {:induction false} ReplaceEachUnaffected(p: string, suffix: string, table: seq<(string, string)>)
    requires forall j :: 0 <= j < |table| ==> NoneStartsWithin(p, table[j].0) && !Contains(suffix, table[j].0)
    ensures ReplaceEach(p + suffix, table) == p + suffix
  {
    if |table| > 0 {
      ReplaceFirstSkips(p, suffix, table[0].0, table[0].1);
      ReplaceFirstAbsent(suffix, table[0].0, table[0].1);
      ReplaceEachUnaffected(p, suffix, table[1..]);
    }
  }

  /** A prefix `sign + feature` in which no earlier feature name starts, a field path after
      which no later one starts, and a suffix in which none occurs: the fold replaces
      exactly that feature. */
  lemma ReplaceEachHit(sign: string, table: seq<(string, string)>, n: nat, suffix: string)
    requires n < |table|
    requires NoneStartsWithin(sign, table[n].0)
    requires forall j :: 0 <= j < n ==> NoneStartsWithin(sign + table[n].0, table[j].0)
    requires forall j :: n < j < |table| ==> NoneStartsWithin(sign + table[n].1, table[j].0)
    requires forall j :: 0 <= j < |table| ==> !Contains(suffix, table[j].0)
    ensures ReplaceEach(sign + table[n].0 + suffix, table) == sign + table[n].1 + suffix
  {
    var (feature, field) := table[n];
    var before, after := table[..n], table[n + 1..];
    assert table == before + [table[n]] + after;
    assert forall j :: 0 <= j < |before| ==> before[j] == table[j];
    assert forall j :: 0 <= j < |after| ==> after[j] == table[n + 1 + j];
    ReplaceEachConcat(sign + feature + suffix, before + [table[n]], after);
    ReplaceEachConcat(sign + feature + suffix, before, [table[n]]);
    ReplaceEachUnaffected(sign + feature, suffix, before);
    ReplaceFirstHit(sign, feature, field, suffix);
    assert ReplaceEach(sign + feature + suffix, [table[n]]) == sign + field + suffix by {
      assert [table[n]][1..] == [];
    }
    ReplaceEachUnaffected(sign + field, suffix, after);
  }

  lemma ReplaceFirstHit(sign: string, feature: string, field: string, suffix: string)
    requires NoneStartsWithin(sign, feature)
    ensures ReplaceFirst(sign + feature + suffix, feature, field) == sign + field + suffix
  {
    assert sign + feature + suffix == sign + (feature + suffix);
    ReplaceFirstSkips(sign, feature + suffix, feature, field);
    assert feature <= feature + suffix && (feature + suffix)[|feature|..] == suffix;
    assert sign + (field + suffix) == sign + field + suffix;
  }

  // Where feature names start: the pairs that need a look past the first character.

  lemma CategoryAvoidsArtist()
    ensures NoneStartsWithin("category", "artist")
  {
    NoneStartsWithinFree("c", "artist");
    NoneStartsWithinPair('a', 't', "artist");
    NoneStartsWithinFree("egory", "artist");
    NoneStartsWithinConcat("c", "at", "artist");
    NoneStartsWithinConcat("c" + "at", "egory", "artist");
    assert "c" + "at" + "egory" == "category";
  }

  lemma NameAvoidsArtist()
    ensures NoneStartsWithin("name", "artist")
  {
    NoneStartsWithinFree("n", "artist");
    NoneStartsWithinPair('a', 'm', "artist");
    NoneStartsWithinFree("e", "artist");
    NoneStartsWithinConcat("n", "am", "artist");
    NoneStartsWithinConcat("n" + "am", "e", "artist");
    assert "n" + "am" + "e" == "name";
  }

  lemma PriceAvoidsCategory()
    ensures NoneStartsWithin("price", "category")
  {
    NoneStartsWithinFree("pri", "category");
    NoneStartsWithinPair('c', 'e', "category");
    NoneStartsWithinConcat("pri", "ce", "category");
    assert "pri" + "ce" == "price";
  }

  lemma ReleaseDateAvoidsArtist()
    ensures NoneStartsWithin("release_date", "artist")
  {
    NoneStartsWithinFree("rele", "artist");
    NoneStartsWithinPair('a', 's', "artist");
    NoneStartsWithinFree("e_d", "artist");
    NoneStartsWithinPair('a', 't', "artist");
    NoneStartsWithinFree("e", "artist");
    NoneStartsWithinConcat("rele", "as", "artist");
    NoneStartsWithinConcat("rele" + "as", "e_d", "artist");
    NoneStartsWithinConcat("rele" + "as" + "e_d", "at", "artist");
    NoneStartsWithinConcat("rele" + "as" + "e_d" + "at", "e", "artist");
    assert "rele" + "as" + "e_d" + "at" + "e" == "release_date";
  }

  lemma ArtistAvoidsReleaseDate()
    ensures NoneStartsWithin("artist", "release_date")
  {
    NoneStartsWithinFree("a", "release_date");
    NoneStartsWithinPair('r', 't', "release_date");
    NoneStartsWithinFree("ist", "release_date");
    NoneStartsWithinConcat("a", "rt", "release_date");
    NoneStartsWithinConcat("a" + "rt", "ist", "release_date");
    assert "a" + "rt" + "ist" == "artist";
  }

  lemma TermAvoidsName()
    ensures NoneStartsWithin("itunes_category__term", "name")
  {
    NoneStartsWithinFree("itu", "name");
    NoneStartsWithinPair('n', 'e', "name");
    NoneStartsWithinFree("s_category__term", "name");
    NoneStartsWithinConcat("itu", "ne", "name");
    NoneStartsWithinConcat("itu" + "ne", "s_category__term", "name");
    assert "itu" + "ne" + "s_category__term" == "itunes_category__term";
  }

  lemma TermAvoidsReleaseDate()
    ensures NoneStartsWithin("itunes_category__term", "release_date")
  {
    NoneStartsWithinFree("itunes_catego", "release_date");
    NoneStartsWithinPair('r', 'y', "release_date");
    NoneStartsWithinFree("__te", "release_date");
    NoneStartsWithinPair('r', 'm', "release_date");
    NoneStartsWithinConcat("itunes_catego", "ry", "release_date");
    NoneStartsWithinConcat("itunes_catego" + "ry", "__te", "release_date");
    NoneStartsWithinConcat("itunes_catego" + "ry" + "__te", "rm", "release_date");
    assert "itunes_catego" + "ry" + "__te" + "rm" == "itunes_category__term";
  }

  lemma PriceFieldAvoidsReleaseDate()
    ensures NoneStartsWithin("itunes_price_dollars", "release_date")
  {
    NoneStartsWithinFree("itunes_p", "release_date");
    NoneStartsWithinPair('r', 'i', "release_date");
    NoneStartsWithinFree("ce_dolla", "release_date");
    NoneStartsWithinPair('r', 's', "release_date");
    NoneStartsWithinConcat("itunes_p", "ri", "release_date");
    NoneStartsWithinConcat("itunes_p" + "ri", "ce_dolla", "release_date");
    NoneStartsWithinConcat("itunes_p" + "ri" + "ce_dolla", "rs", "release_date");
    assert "itunes_p" + "ri" + "ce_dolla" + "rs" == "itunes_price_dollars";
  }

  /** No feature name starts inside a feature name that precedes it in the table. */
  lemma FeatureAvoidsEarlier(n: nat, j: nat)
    requires j < n < |FeatureTable|
    ensures NoneStartsWithin(FeatureTable[n].0, FeatureTable[j].0)
  {
    var (feature, earlier) := (FeatureTable[n].0, FeatureTable[j].0);
    if feature == "category" || (feature == "name" && j == 0) || (feature == "price" && j == 1)
       || (feature == "release_date" && j == 0) {
      if n == 1 { CategoryAvoidsArtist(); }
      else if n == 2 { NameAvoidsArtist(); }
      else if n == 3 { PriceAvoidsCategory(); }
      else { ReleaseDateAvoidsArtist(); }
    } else {
      NoneStartsWithinFree(feature, earlier);
    }
  }

  /** No feature name starts inside the field path of a feature that precedes it. */
  lemma FieldAvoidsLater(n: nat, j: nat)
    requires n < j < |FeatureTable|
    ensures NoneStartsWithin(FeatureTable[n].1, FeatureTable[j].0)
  {
    var (field, later) := (FeatureTable[n].1, FeatureTable[j].0);
    if (n == 0 && j == 4) || (n == 1 && j != 3) || (n == 3 && j == 4) {
      if n == 0 { ArtistAvoidsReleaseDate(); }
      else if n == 3 { PriceFieldAvoidsReleaseDate(); }
      else if j == 2 { TermAvoidsName(); }
      else { TermAvoidsReleaseDate(); }
    } else {
      NoneStartsWithinFree(field, later);
    }
  }

  /** A leading "-" hides nothing: no feature name starts with "-". */
  lemma SignClashes(sign: string, p: string, j: nat)
    requires sign == "" || sign == "-"
    requires j < |FeatureTable| && NoneStartsWithin(p, FeatureTable[j].0)
    ensures NoneStartsWithin(sign, FeatureTable[j].0)
    ensures NoneStartsWithin(sign + p, FeatureTable[j].0)
  {
    if sign == "-" {
      NoneStartsWithinFree(sign, FeatureTable[j].0);
      NoneStartsWithinConcat(sign, p, FeatureTable[j].0);
    } else {
      assert sign + p == p;
    }
  }

  /** A sort clause or parameter made of an optional "-", a feature name, and a suffix
      in which no feature name occurs (a lookup such as "__lt" or "__not__contains") maps
      to the same "-", the feature's field path and the same suffix. */
  lemma FeatureToField(sign: string, n: nat, suffix: string)
    requires sign == "" || sign == "-"
    requires n < |FeatureTable|
    requires forall j :: 0 <= j < |FeatureTable| ==> !Contains(suffix, FeatureTable[j].0)
    ensures ReplaceFeatureWithField(sign + FeatureTable[n].0 + suffix) == sign + FeatureTable[n].1 + suffix
  {
    forall j | 0 <= j < n ensures NoneStartsWithin(sign + FeatureTable[n].0, FeatureTable[j].0) {
      FeatureAvoidsEarlier(n, j);
      SignClashes(sign, FeatureTable[n].0, j);
    }
    forall j | n < j < |FeatureTable| ensures NoneStartsWithin(sign + FeatureTable[n].1, FeatureTable[j].0) {
      FieldAvoidsLater(n, j);
      SignClashes(sign, FeatureTable[n].1, j);
    }
    SignClashes(sign, "", n);
    ReplaceEachHit(sign, FeatureTable, n, suffix);
  }

  /** A bare feature name maps to its field path. */
  lemma BareFeatureToField(n: nat)
    requires n < |FeatureTable|
    ensures ReplaceFeatureWithField(FeatureTable[n].0) == FeatureTable[n].1
  {
    FeatureToField("", n, "");
    assert "" + FeatureTable[n].0 + "" == FeatureTable[n].0;
    assert "" + FeatureTable[n].1 + "" == FeatureTable[n].1;
  }

  /** A token in which no feature name occurs comes back unchanged. */
  lemma NoFeatureUnchanged(token: string)
    requires forall j :: 0 <= j < |FeatureTable| ==> !Contains(token, FeatureTable[j].0)
    ensures ReplaceFeatureWithField(token) == token
  {
    assert "" + token == token;
    ReplaceEachUnaffected("", token, FeatureTable);
  }

  // ---------------------------------------------------------------------------------
  // Ordering from `sort`

  /** The ORDER BY terms of a `sort` value: each comma-separated clause, mapped. */
  function SortKeys(sort: string): (keys: seq<string>)
    ensures |keys| == |Split(sort, ',')|
    ensures forall i :: 0 <= i < |keys| ==> keys[i] == ReplaceFeatureWithField(Split(sort, ',')[i])
  {
    var clauses := Split(sort, ',');
    seq(|clauses|, i requires 0 <= i < |clauses| => ReplaceFeatureWithField(clauses[i]))
  }

  /** The terms are the clauses of `sort` in input order, the first one primary: joined back
      with commas the clauses give `sort`, and none of them holds a comma. */
  lemma SortKeysAreClauses(sort: string)
    ensures Join(Split(sort, ','), ',') == sort
    ensures forall i :: 0 <= i < |SortKeys(sort)| ==>
              ',' !in Split(sort, ',')[i] && SortKeys(sort)[i] == ReplaceFeatureWithField(Split(sort, ',')[i])
  {
    SplitJoin(sort, ',');
  }

  /** `sort=category,-price` orders by category term, then by price descending. */
  lemma SortKeysExample()
    ensures SortKeys("category,-price") == ["itunes_category__term", "-itunes_price_dollars"]
  {
    SortClausesExample();
    CategoryField();
    PriceDescending();
  }

  lemma SortClausesExample()
    ensures Split("category,-price", ',') == ["category", "-price"]
  {
    SplitTwo("category", "-price", ',');
    assert "category" + [','] + "-price" == "category,-price";
  }

  lemma SplitTwo(a: string, b: string, sep: char)
    requires sep !in a && sep !in b
    ensures Split(a + [sep] + b, sep) == [a, b]
  {
    SplitAt(a, b, sep);
    SplitNone(b, sep);
  }

  lemma CategoryField()
    ensures ReplaceFeatureWithField("category") == "itunes_category__term"
  {
    BareFeatureToField(1);
  }

  lemma PriceDescending()
    ensures ReplaceFeatureWithField("-price") == "-itunes_price_dollars"
  {
    EmptyHasNoFeature();
    FeatureToField("-", 3, "");
    PriceLiterals();
  }

  lemma PriceLiterals()
    ensures "-" + FeatureTable[3].0 + "" == "-price"
    ensures "-" + FeatureTable[3].1 + "" == "-itunes_price_dollars"
  {
  }

  lemma EmptyHasNoFeature()
    ensures forall j :: 0 <= j < |FeatureTable| ==> !Contains("", FeatureTable[j].0)
  {
  }

  lemma {:induction false} SplitNone(s: string, sep: char)
    requires sep !in s
    ensures Split(s, sep) == [s]
  {
    if |s| > 0 {
      SplitNone(s[1..], sep);
      assert [s[0]] + s[1..] == s;
    }
  }

  lemma {:induction false} SplitAt(a: string, b: string, sep: char)
    requires sep !in a
    ensures Split(a + [sep] + b, sep) == [a] + Split(b, sep)
  {
    if |a| == 0 {
      assert a + [sep] + b == [sep] + b;
      assert ([sep] + b)[1..] == b;
    } else {
      SplitAt(a[1..], b, sep);
      assert (a + [sep] + b)[1..] == a[1..] + [sep] + b;
      assert [a[0]] + a[1..] == a;
    }
  }

  /** `category__not` maps to a field path that holds "__not" and that, with "__not"
      removed, is the category's term. */
  lemma CategoryNotExample()
    ensures ReplaceFeatureWithField("category__not") == "itunes_category__term__not"
    ensures Contains("itunes_category__term__not", "__not")
    ensures RemoveAll("itunes_category__term__not", "__not") == "itunes_category__term"
  {
    CategoryNotMaps();
    CategoryNotNegated();
    CategoryNotStripped();
  }

  lemma CategoryNotMaps()
    ensures ReplaceFeatureWithField("category__not") == "itunes_category__term__not"
  {
    NotHasNoFeature();
    FeatureToField("", 1, "__not");
    CategoryNotLiterals();
  }

  lemma CategoryNotLiterals()
    ensures "" + FeatureTable[1].0 + "__not" == "category__not"
    ensures "" + FeatureTable[1].1 + "__not" == "itunes_category__term__not"
  {
  }

  lemma CategoryNotNegated()
    ensures Contains("itunes_category__term__not", "__not")
  {
    CategoryNotStripped();
    RemoveAllChanges("itunes_category__term__not", "__not");
  }

  /** Removing a pattern changes only a text that contains it. */
  lemma RemoveAllChanges(s: string, pat: string)
    requires |pat| > 0 && RemoveAll(s, pat) != s
    ensures Contains(s, pat)
  {
    if !Contains(s, pat) {
      RemoveAllAbsent(s, pat);
    }
  }

  lemma CategoryNotStripped()
    ensures RemoveAll("itunes_category__term__not", "__not") == "itunes_category__term"
  {
    TermAvoidsNot();
    RemoveAllSkips("itunes_category__term", "__not", "__not");
    assert "itunes_category__term" + "__not" == "itunes_category__term__not";
    RemoveAllEmptyAfter("__not");
  }

  lemma RemoveAllEmptyAfter(pat: string)
    requires |pat| > 0
    ensures RemoveAll(pat, pat) == ""
  {
    assert pat + "" == pat;
    RemoveAllHead("", pat);
  }

  /** No feature name occurs in "__not". */
  lemma NotHasNoFeature()
    ensures forall j :: 0 <= j < |FeatureTable| ==> !Contains("__not", FeatureTable[j].0)
  {
    forall j | 0 <= j < |FeatureTable| ensures !Contains("__not", FeatureTable[j].0) {
      if j == 2 {
        NotAvoidsName();
      } else {
        NoneStartsWithinFree("__not", FeatureTable[j].0);
      }
      NoneStartsWithinAbsent("__not", FeatureTable[j].0);
    }
  }

  lemma NotAvoidsName()
    ensures NoneStartsWithin("__not", "name")
  {
    NoneStartsWithinFree("__", "name");
    NoneStartsWithinPair('n', 'o', "name");
    NoneStartsWithinFree("t", "name");
    NoneStartsWithinConcat("__", "no", "name");
    NoneStartsWithinConcat("__" + "no", "t", "name");
    assert "__" + "no" + "t" == "__not";
  }

  lemma TermAvoidsNot()
    ensures NoneStartsWithin("itunes_category__term", "__not")
  {
    NoneStartsWithinFree("itunes", "__not");
    NoneStartsWithinPair('_', 'c', "__not");
    NoneStartsWithinFree("ategory", "__not");
    NoneStartsWithinTriple('_', '_', 't', "__not");
    NoneStartsWithinFree("erm", "__not");
    NoneStartsWithinConcat("itunes", "_c", "__not");
    NoneStartsWithinConcat("itunes" + "_c", "ategory", "__not");
    NoneStartsWithinConcat("itunes" + "_c" + "ategory", "__t", "__not");
    NoneStartsWithinConcat("itunes" + "_c" + "ategory" + "__t", "erm", "__not");
    assert "itunes" + "_c" + "ategory" + "__t" + "erm" == "itunes_category__term";
  }
}
