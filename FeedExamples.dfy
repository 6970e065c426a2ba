/** A concrete feed entry, shaped like the iTunes feed's, on which the handler of
    `_models_from_feed_entry` lets a malformed price escape. */
module FeedExamples {
  import opened Wrappers
  import opened Models
  import opened Document
  import opened Feed

  /** `{"label": s}`. */
  function Label(s: string): Json { JObject(map["label" := JString(s)]) }

  /** `{"attributes": {key: value}}`. */
  function AttributesOf(key: string, value: string): Json
  {
    JObject(map["attributes" := JObject(map[key := JString(value)])])
  }

  function CategoryJson(): Json
  {
    JObject(map["attributes" := JObject(map[
      "im:id" := JString("5"), "label" := JString("Rock"), "term" := JString("Rock"), "scheme" := JString("s")])])
  }

  /** An entry with every field the parser reads before the price well formed, no
      artist attributes, no images, and the given price amount. */
  function PricedEntry(amount: string): Json
  {
    JObject(map[
      "category" := CategoryJson(),
      "id" := AttributesOf("im:id", "7"),
      "im:name" := Label("Abbey Road"),
      "im:artist" := Label("The Beatles"),
      "im:releaseDate" := Label("1969-09-26"),
      "im:itemCount" := Label("9"),
      "rights" := Label("Apple"),
      "link" := AttributesOf("href", "h"),
      "im:price" := AttributesOf("amount", amount),
      "im:image" := JArray([])
    ])
  }

  lemma Digit(s: string, n: int)
    requires |s| == 1 && '0' <= s[0] <= '9' && n == s[0] as int - '0' as int
    ensures Text.ParseInt(s) == Some(n)
  {
    assert s[..0] == "";
    assert Text.AllDigits(s);
    assert Text.DigitsValue(s) == 10 * Text.DigitsValue(s[..0]) + n;
  }

  lemma Path1(v: Json, a: string)
    ensures Path(v, [a]) == Get(v, a)
  {
    assert [a][1..] == [];
  }

  lemma Path2(v: Json, a: string, b: string)
    ensures Path(v, [a, b]) == (var x :- Get(v, a); Get(x, b))
  {
    assert [a, b][1..] == [b];
    if Get(v, a).Ok? {
      Path1(Get(v, a).value, b);
    }
  }

  lemma Path3(v: Json, a: string, b: string, c: string)
    ensures Path(v, [a, b, c]) == (var x :- Get(v, a); var y :- Get(x, b); Get(y, c))
  {
    assert [a, b, c][1..] == [b, c];
    if Get(v, a).Ok? {
      Path2(Get(v, a).value, b, c);
    }
  }

  lemma SampleCategory(amount: string)
    ensures CategoryOf(PricedEntry(amount)) == Ok(Category(5, "Rock", "Rock", "s"))
  {
    var e := PricedEntry(amount);
    assert Get(e, "category") == Ok(CategoryJson());
    Path2(e, "category", "attributes");
    var attrs := Path(e, ["category", "attributes"]).value;
    Path1(attrs, "im:id");
    Path1(attrs, "label");
    Path1(attrs, "term");
    Path1(attrs, "scheme");
    Digit("5", 5);
  }

  lemma SampleId(amount: string)
    ensures IntAt(PricedEntry(amount), ["id", "attributes", "im:id"]) == Ok(7)
  {
    var e := PricedEntry(amount);
    assert Get(e, "id") == Ok(AttributesOf("im:id", "7"));
    Path3(e, "id", "attributes", "im:id");
    Digit("7", 7);
  }

  lemma SampleNames(amount: string)
    ensures TextAt(PricedEntry(amount), ["im:name", "label"]) == Ok("Abbey Road")
    ensures TextAt(PricedEntry(amount), ["im:artist", "label"]) == Ok("The Beatles")
    ensures ArtistUrlOf(PricedEntry(amount)) == Ok(None)
  {
    var e := PricedEntry(amount);
    assert Get(e, "im:name") == Ok(Label("Abbey Road"));
    assert Get(e, "im:artist") == Ok(Label("The Beatles"));
    Path2(e, "im:name", "label");
    Path2(e, "im:artist", "label");
  }

  lemma SampleDateAndCount(amount: string, p: Parsers)
    requires p.parseDate("1969-09-26").Parsed?
    ensures Path(PricedEntry(amount), ["im:releaseDate", "label"]).Ok?
    ensures DateOf(Path(PricedEntry(amount), ["im:releaseDate", "label"]).value, p) == Ok(p.parseDate("1969-09-26").date)
    ensures IntAt(PricedEntry(amount), ["im:itemCount", "label"]) == Ok(9)
  {
    var e := PricedEntry(amount);
    assert Get(e, "im:releaseDate") == Ok(Label("1969-09-26"));
    assert Get(e, "im:itemCount") == Ok(Label("9"));
    Path2(e, "im:releaseDate", "label");
    Path2(e, "im:itemCount", "label");
    Digit("9", 9);
  }

  lemma SampleRightsAndLink(amount: string)
    ensures TextAt(PricedEntry(amount), ["rights", "label"]) == Ok("Apple")
    ensures TextAt(PricedEntry(amount), ["link", "attributes", "href"]) == Ok("h")
    ensures Path(PricedEntry(amount), ["im:price", "attributes", "amount"]) == Ok(JString(amount))
  {
    var e := PricedEntry(amount);
    assert Get(e, "rights") == Ok(Label("Apple"));
    assert Get(e, "link") == Ok(AttributesOf("href", "h"));
    assert Get(e, "im:price") == Ok(AttributesOf("amount", amount));
    Path2(e, "rights", "label");
    Path3(e, "link", "attributes", "href");
    Path3(e, "im:price", "attributes", "amount");
  }

  /** A price amount the decimal parser rejects, such as "$9.99", raises InvalidOperation,
      and the handler as written lets it out of `_models_from_feed_entry` unconverted. */
  lemma RejectedPriceExample(amount: string, p: Parsers)
    requires p.parseDate("1969-09-26").Parsed? && p.parseDecimal(amount).None?
    ensures EntryFields(PricedEntry(amount), true, p) == Err(InvalidOperation)
    ensures EntryModelsAsWritten(PricedEntry(amount), true, p) == Err(Uncaught(InvalidOperation))
  {
    SampleCategory(amount);
    SampleId(amount);
    SampleNames(amount);
    SampleDateAndCount(amount, p);
    SampleRightsAndLink(amount);
  }
}
