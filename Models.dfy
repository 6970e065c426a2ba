/** The two persisted records, iTunes categories and albums, and the public form an album
    takes in a response (`Album.serialize`). Both records are identified by the integer id
    the iTunes feed assigns; every album refers to exactly one category. */
module Models {
  import opened Wrappers
  import opened Text

  /** A `DateField` value, what `dateutil`'s `parse(...).date()` yields. */
  datatype Date = Date(year: nat, month: nat, day: nat)

  /** A finite `Decimal` as Python keeps it, the `(sign, digits, exponent)` of `as_tuple()`:
      the number `(-1)^sign * coefficient * 10^exponent`. The exponent is part of the value,
      so `Decimal(false, 1990, -2)` ("19.90") and `Decimal(false, 199, -1)` ("19.9") differ
      but compare equal, and zero keeps its sign ("-0.00"). */
  datatype Decimal = Decimal(negative: bool, coefficient: nat, exponent: int)

  /** An iTunes genre; `id` is the primary key and comes from the feed. `labelText` is the
      `label` column (`label` is a Dafny keyword). */
  datatype Category = Category(id: int, labelText: string, term: string, scheme: string)

  /** An album of the top-albums feed; `id` is the primary key and comes from the feed.
      The three images are three fixed, nullable (url, height) column pairs, not a list. */
  datatype Album = Album(
    id: int,
    name: string,
    artist: string,
    artistUrl: Option<string>,
    releaseDate: Date,
    trackCount: int,
    rights: string,
    isItunesTop: bool,
    itunesCategory: Category,
    itunesLink: string,
    itunesPriceDollars: Decimal,
    image1Url: Option<string>,
    image1Height: Option<int>,
    image2Url: Option<string>,
    image2Height: Option<int>,
    image3Url: Option<string>,
    image3Height: Option<int>)

  /** The number of image slots an album has. */
  const ImageSlots := 3

  /** `Album(...)` with the arguments the feed parser passes: `is_itunes_top` defaults to
      True and every image column starts out null. */
  function NewAlbum(id: int, name: string, artist: string, artistUrl: Option<string>,
                    releaseDate: Date, trackCount: int, rights: string,
                    itunesCategory: Category, itunesLink: string, itunesPriceDollars: Decimal,
                    isItunesTop: bool := true): (a: Album)
    ensures a.id == id && a.itunesCategory == itunesCategory && a.isItunesTop == isItunesTop
    ensures a.name == name && a.artist == artist && a.artistUrl == artistUrl
    ensures a.releaseDate == releaseDate && a.trackCount == trackCount && a.rights == rights
    ensures a.itunesLink == itunesLink && a.itunesPriceDollars == itunesPriceDollars
    ensures forall n :: 1 <= n <= ImageSlots ==> ImageUrl(a, n) == None && ImageHeight(a, n) == None
  {
    Album(id, name, artist, artistUrl, releaseDate, trackCount, rights, isItunesTop,
          itunesCategory, itunesLink, itunesPriceDollars, None, None, None, None, None, None)
  }

  /** `image_<n>_url`. */
  function ImageUrl(a: Album, n: int): Option<string>
    requires 1 <= n <= ImageSlots
  {
    if n == 1 then a.image1Url else if n == 2 then a.image2Url else a.image3Url
  }

  /** `image_<n>_height`. */
  function ImageHeight(a: Album, n: int): Option<int>
    requires 1 <= n <= ImageSlots
  {
    if n == 1 then a.image1Height else if n == 2 then a.image2Height else a.image3Height
  }

  /** The two `setattr` calls for slot `n`: that slot now holds the image, everything else
      about the album is as it was. */
  function WithImage(a: Album, n: int, url: string, height: int): (r: Album)
    requires 1 <= n <= ImageSlots
    ensures ImageUrl(r, n) == Some(url) && ImageHeight(r, n) == Some(height)
    ensures forall m :: 1 <= m <= ImageSlots && m != n ==>
              ImageUrl(r, m) == ImageUrl(a, m) && ImageHeight(r, m) == ImageHeight(a, m)
    ensures r == a.(image1Url := r.image1Url, image1Height := r.image1Height,
                    image2Url := r.image2Url, image2Height := r.image2Height,
                    image3Url := r.image3Url, image3Height := r.image3Height)
  {
    if n == 1 then a.(image1Url := Some(url), image1Height := Some(height))
    else if n == 2 then a.(image2Url := Some(url), image2Height := Some(height))
    else a.(image3Url := Some(url), image3Height := Some(height))
  }

  // ---------------------------------------------------------------------------------
  // Serialisation

  /** A value in the dictionary `serialize` builds. */
  datatype Value =
    | VInt(i: int)
    | VText(s: string)
    | VBool(b: bool)
    | VNull
    | VDate(d: Date)
    | VDecimal(dec: Decimal)
    | VCategory(c: Category)

  function TextOrNull(o: Option<string>): Value
  {
    if o.Some? then VText(o.value) else VNull
  }

  function IntOrNull(o: Option<int>): Value
  {
    if o.Some? then VInt(o.value) else VNull
  }

  predicate IsFieldNameChar(c: char)
  {
    'a' <= c <= 'z' || IsDigit(c) || c == '_'
  }

  /** `RE_FIELD_NAME.match(name)` for `^(?!object)[a-z][a-z\d_]+$`: not starting with
      "object", a lower-case letter, then one or more lower-case letters, digits or
      underscores. */
  predicate IsFieldName(name: string)
  {
    && !("object" <= name)
    && |name| >= 2
    && 'a' <= name[0] <= 'z'
    && forall i :: 1 <= i < |name| ==> IsFieldNameChar(name[i])
  }

  /** The names `dir(album)` lists: the Django model's column attributes, the foreign key's
      `itunes_category_id`, the `pk` property, the `objects` manager (which an instance may
      not read), the model's methods and its private and upper-case members. */
  const DirNames: seq<string> := [
    "DoesNotExist", "MultipleObjectsReturned", "__class__", "__dict__", "__init__",
    "_meta", "_state", "artist", "artist_url", "check", "clean", "clean_fields",
    "date_error_message", "delete", "from_db", "full_clean", "get_deferred_fields",
    "get_next_by_release_date", "get_previous_by_release_date", "id",
    "image_1_height", "image_1_url", "image_2_height", "image_2_url",
    "image_3_height", "image_3_url", "is_itunes_top", "itunes_category",
    "itunes_category_id", "itunes_link", "itunes_price_dollars", "name", "objects", "pk",
    "prepare_database_save", "refresh_from_db", "release_date", "rights", "save",
    "save_base", "serializable_value", "serialize", "track_count",
    "unique_error_message", "validate_unique"]

  /** The attributes of an album that are not callable, by name, with what `getattr` gives. */
  function Attributes(a: Album): map<string, Value>
  {
    map[
      "id" := VInt(a.id),
      "pk" := VInt(a.id),
      "name" := VText(a.name),
      "artist" := VText(a.artist),
      "artist_url" := TextOrNull(a.artistUrl),
      "release_date" := VDate(a.releaseDate),
      "track_count" := VInt(a.trackCount),
      "rights" := VText(a.rights),
      "is_itunes_top" := VBool(a.isItunesTop),
      "itunes_category" := VCategory(a.itunesCategory),
      "itunes_category_id" := VInt(a.itunesCategory.id),
      "itunes_link" := VText(a.itunesLink),
      "itunes_price_dollars" := VDecimal(a.itunesPriceDollars),
      "image_1_url" := TextOrNull(a.image1Url),
      "image_1_height" := IntOrNull(a.image1Height),
      "image_2_url" := TextOrNull(a.image2Url),
      "image_2_height" := IntOrNull(a.image2Height),
      "image_3_url" := TextOrNull(a.image3Url),
      "image_3_height" := IntOrNull(a.image3Height),
      "_state" := VNull
    ]
  }

  /** The keys `serialize` sets or rewrites after collecting the attributes. */
  const RewrittenKeys: set<string> :=
    {"itunes_price_dollars", "release_date", "itunes_category_id", "itunes_category_term"}

  /** The attributes `dir` lists whose names pass RE_FIELD_NAME, before any rewriting. */
  function Collected(a: Album): map<string, Value>
  {
    var attributes := Attributes(a);
    map k | k in DirNames && IsFieldName(k) && k in attributes :: attributes[k]
  }

  /** The keys of a serialized album: the public record schema. */
  const RecordKeys: set<string> := {
    "id", "pk", "name", "artist", "artist_url", "release_date", "track_count", "rights",
    "is_itunes_top", "itunes_category_id", "itunes_category_term", "itunes_link",
    "itunes_price_dollars", "image_1_url", "image_1_height", "image_2_url", "image_2_height",
    "image_3_url", "image_3_height"}

  /** `Album.serialize`: every non-callable attribute whose name passes RE_FIELD_NAME, with
      the price and the release date as text and the category reference replaced by the
      category's id and term. */
  function Serialize(a: Album): map<string, Value>
  {
    var collected := Collected(a);
    var stringified := collected["itunes_price_dollars" := VText(DecimalString(a.itunesPriceDollars))]
                                ["release_date" := VText(IsoDate(a.releaseDate))];
    var referenced := stringified["itunes_category_id" := VInt(a.itunesCategory.id)]
                                 ["itunes_category_term" := VText(a.itunesCategory.term)];
    referenced - {"itunes_category"}
  }

  /** The category reference is replaced by its id and term. */
  lemma SerializeCategory(a: Album)
    ensures var data := Serialize(a);
            && "itunes_category" !in data
            && "itunes_category_id" in data && data["itunes_category_id"] == VInt(a.itunesCategory.id)
            && "itunes_category_term" in data && data["itunes_category_term"] == VText(a.itunesCategory.term)
  {
  }

  /** The price and the release date are given as text. */
  lemma SerializeStringified(a: Album)
    ensures var data := Serialize(a);
            && "itunes_price_dollars" in data
            && data["itunes_price_dollars"] == VText(DecimalString(a.itunesPriceDollars))
            && "release_date" in data && data["release_date"] == VText(IsoDate(a.releaseDate))
  {
  }

  /** Every other key is a collected attribute with its attribute value, and every collected
      attribute but the category reference is kept. */
  lemma SerializeKeepsAttributes(a: Album)
    ensures forall k :: k in Serialize(a) && k !in RewrittenKeys ==> k in Collected(a) && Serialize(a)[k] == Collected(a)[k]
    ensures forall k :: k in Collected(a) && k != "itunes_category" ==> k in Serialize(a)
  {
  }

  /** The names of the attributes that are columns or the `pk` property. */
  const ColumnNames: set<string> := (RecordKeys - {"itunes_category_term"}) + {"itunes_category"}

  lemma ColumnNamesListed(k: string)
    requires k in ColumnNames
    ensures k in DirNames
  {
  }

  lemma ShortNamesPass()
    ensures IsFieldName("id") && IsFieldName("pk") && IsFieldName("name") && IsFieldName("artist")
    ensures IsFieldName("rights") && IsFieldName("artist_url") && IsFieldName("track_count")
  {
  }

  lemma DateAndFlagPass()
    ensures IsFieldName("release_date") && IsFieldName("is_itunes_top") && IsFieldName("itunes_link")
  {
  }

  lemma CategoryNamesPass()
    ensures IsFieldName("itunes_category") && IsFieldName("itunes_category_id")
    ensures IsFieldName("itunes_price_dollars")
  {
  }

  lemma ImageUrlsPass()
    ensures IsFieldName("image_1_url") && IsFieldName("image_2_url") && IsFieldName("image_3_url")
  {
  }

  lemma ImageHeightsPass()
    ensures IsFieldName("image_1_height") && IsFieldName("image_2_height") && IsFieldName("image_3_height")
  {
  }

  /** The attributes of an album are its columns and `_state`. */
  lemma AttributeNames(a: Album)
    ensures Attributes(a).Keys == ColumnNames + {"_state"}
  {
  }

  /** Each column name passes RE_FIELD_NAME. */
  lemma ColumnNamePasses(k: string)
    requires k in ColumnNames
    ensures IsFieldName(k)
  {
    ShortNamesPass();
    DateAndFlagPass();
    CategoryNamesPass();
    ImageUrlsPass();
    ImageHeightsPass();
  }

  lemma CollectedHas(a: Album, k: string)
    requires k in ColumnNames
    ensures k in Collected(a)
  {
    ColumnNamesListed(k);
    ColumnNamePasses(k);
    AttributeNames(a);
  }

  lemma CollectedOnly(a: Album, k: string)
    requires k in Collected(a)
    ensures k in ColumnNames
  {
    AttributeNames(a);
    assert !IsFieldName("_state");
  }

  /** Among the attributes, `dir` lists and RE_FIELD_NAME accepts exactly the column names:
      `_state` starts with an underscore. */
  lemma CollectedKeys(a: Album)
    ensures Collected(a).Keys == ColumnNames
  {
    forall k ensures k in Collected(a) <==> k in ColumnNames {
      if k in ColumnNames {
        CollectedHas(a, k);
      }
      if k in Collected(a) {
        CollectedOnly(a, k);
      }
    }
  }

  lemma CategoryNotRecordKey()
    ensures "itunes_category" !in RecordKeys
  {
  }

  /** A serialized album has exactly the keys of the public record schema: the primary key
      under both `id` and `pk`, the columns, and the category's id and term in place of the
      category itself. */
  lemma SerializeKeys(a: Album)
    ensures Serialize(a).Keys == RecordKeys
  {
    CollectedKeys(a);
    var keys := Serialize(a).Keys;
    assert keys == ColumnNames + RewrittenKeys - {"itunes_category"};
    CategoryNotRecordKey();
    assert RewrittenKeys <= RecordKeys;
    assert keys == RecordKeys;
  }

  // ---------------------------------------------------------------------------------
  // `str()` of the two stringified columns

  /** `n` in decimal, left-padded with zeros to at least `width` digits (`%0<width>d`). */
  function ZeroPadded(n: nat, width: nat): (s: string)
    ensures |s| >= width && AllDigits(s)
  {
    var digits := NatToString(n);
    if |digits| >= width then digits else Zeros(width - |digits|) + digits
  }

  function Zeros(n: nat): (s: string)
    ensures |s| == n && AllDigits(s)
  {
    if n == 0 then "" else "0" + Zeros(n - 1)
  }

  /** `str(date)`: ISO 8601, `YYYY-MM-DD`. */
  function IsoDate(d: Date): string
  {
    ZeroPadded(d.year, 4) + "-" + ZeroPadded(d.month, 2) + "-" + ZeroPadded(d.day, 2)
  }

  /** `str(decimal)`, Python's to-scientific-string rule: the coefficient's digits with the
      point placed by the exponent when the exponent is not positive and the number has more
      than -6 digits before the point; otherwise one digit before the point and an `E`
      exponent. A negative sign is written even for zero. */
  function DecimalString(d: Decimal): string
  {
    var digits := NatToString(d.coefficient);
    var leftDigits := d.exponent + |digits|;
    var dotPlace := if d.exponent <= 0 && leftDigits > -6 then leftDigits else 1;
    var exponent := if leftDigits == dotPlace then "" else "E" + SignedString(leftDigits - dotPlace);
    (if d.negative then "-" else "") + WithPoint(digits, dotPlace) + exponent
  }

  /** `digits` with a decimal point `dotPlace` digits from the left, padded with zeros. */
  function WithPoint(digits: string, dotPlace: int): string
  {
    if dotPlace <= 0 then "0." + Zeros(-dotPlace) + digits
    else if dotPlace >= |digits| then digits + Zeros(dotPlace - |digits|)
    else digits[..dotPlace] + "." + digits[dotPlace..]
  }

  /** `"%+d" % n`. */
  function SignedString(n: int): string
  {
    if n >= 0 then "+" + NatToString(n) else "-" + NatToString(-n)
  }

  lemma IsoDateExample()
    ensures IsoDate(Date(1973, 3, 1)) == "1973-03-01"
  {
    assert NatToString(1973) == "1973" by {
      assert NatToString(197) == "197" by {
        assert NatToString(19) == "19";
      }
    }
  }

  lemma DecimalStringExamples()
    ensures DecimalString(Decimal(false, 1999, -2)) == "19.99"
    ensures DecimalString(Decimal(false, 5, -2)) == "0.05"
    ensures DecimalString(Decimal(true, 120, -1)) == "-12.0"
  {
    assert NatToString(1999) == "1999" by {
      assert NatToString(199) == "199" by {
        assert NatToString(19) == "19";
      }
    }
    assert NatToString(120) == "120" by {
      assert NatToString(12) == "12";
    }
    assert Zeros(1) == "0";
  }

  /** Zero keeps its sign and its places. */
  lemma NegativeZeroString()
    ensures DecimalString(Decimal(true, 0, -2)) == "-0.00"
  {
    assert Zeros(2) == "00";
  }

  /** A positive exponent, and a small number, are written in scientific notation. */
  lemma ScientificStringExamples()
    ensures DecimalString(Decimal(false, 12, 3)) == "1.2E+4"
    ensures DecimalString(Decimal(false, 1, -7)) == "1E-7"
  {
    assert NatToString(12) == "12";
    assert SignedString(4) == "+4";
    assert SignedString(-7) == "-7";
  }

  /** The number a decimal stands for, for comparisons. */
  function DecimalValue(d: Decimal): real
  {
    var magnitude := if d.exponent >= 0 then (d.coefficient * Pow10(d.exponent)) as real
                     else (d.coefficient as real) / (Pow10(-d.exponent) as real);
    if d.negative then -magnitude else magnitude
  }

  function Pow10(n: nat): (p: nat)
    ensures p >= 1
  {
    if n == 0 then 1 else 10 * Pow10(n - 1)
  }

  // ---------------------------------------------------------------------------------
  // The price column

  /** `DecimalField(max_digits=6, decimal_places=2)`. */
  const PriceDigits := 6
  const PricePlaces := 2

  /** `n / d` rounded to the nearest integer, ties to the even one: `ROUND_HALF_EVEN`, the
      rounding of Python's default decimal context. */
  function RoundHalfEven(n: nat, d: nat): nat
    requires d >= 1
  {
    var q := n / d;
    var r := n % d;
    if 2 * r > d || (2 * r == d && q % 2 == 1) then q + 1 else q
  }

  /** What saving a price into the column does: Django's `format_number` quantizes it to two
      places in a context of six digits. `None` is the InvalidOperation that `quantize`
      signals when the result would need more than six digits. */
  function Quantized(d: Decimal): Option<Decimal>
  {
    var coefficient :=
      if d.exponent >= -PricePlaces then d.coefficient * Pow10(d.exponent + PricePlaces)
      else RoundHalfEven(d.coefficient, Pow10(-PricePlaces - d.exponent));
    if coefficient < Pow10(PriceDigits) then Some(Decimal(d.negative, coefficient, -PricePlaces)) else None
  }

  lemma {:induction false} Pow10Add(a: nat, b: nat)
    ensures Pow10(a + b) == Pow10(a) * Pow10(b)
    decreases a
  {
    if a > 0 {
      Pow10Add(a - 1, b);
    }
  }

  /** Rounding moves a quotient by at most a half: `|q - n/d| <= 1/2`. */
  lemma RoundHalfEvenNearest(n: nat, d: nat)
    requires d >= 1
    ensures -(d as int) <= 2 * (d * RoundHalfEven(n, d) - n) <= d
  {
    assert n == d * (n / d) + n % d;
  }

  lemma MulMonotone(k: nat, a: int, b: int)
    requires a <= b
    ensures k * a <= k * b
  {
  }

  /** Below an even bound `m`, rounding stays below `m` exactly when `n/d < m - 1/2`: a
      tie at `m - 1/2` rounds up to the even `m`. */
  lemma RoundHalfEvenBelow(n: nat, d: nat, m: nat)
    requires d >= 1 && m >= 2 && m % 2 == 0
    ensures RoundHalfEven(n, d) < m <==> 2 * n < (2 * m - 1) * d
  {
    var q, r := n / d, n % d;
    assert n == d * q + r && 0 <= r < d;
    if q >= m {
      RoundingFarAbove(n, d, m, q, r);
    } else if q <= m - 2 {
      RoundingFarBelow(n, d, m, q, r);
    } else {
      assert (2 * m - 1) * d == 2 * (d * q) + d by {
        assert d * q == d * m - d;
      }
    }
  }

  lemma RoundingFarAbove(n: nat, d: nat, m: nat, q: nat, r: nat)
    requires d >= 1 && n == d * q + r && q >= m
    ensures 2 * n >= (2 * m - 1) * d
  {
    MulMonotone(d, m, q);
    assert (2 * m - 1) * d == 2 * (d * m) - d;
  }

  lemma RoundingFarBelow(n: nat, d: nat, m: nat, q: nat, r: nat)
    requires d >= 1 && n == d * q + r && r < d && q + 2 <= m
    ensures 2 * n < (2 * m - 1) * d
  {
    MulMonotone(d, q + 1, m - 1);
    assert d * (q + 1) == d * q + d;
    assert (2 * m - 1) * d == 2 * (d * (m - 1)) + d;
  }

  /** The number `c * 10^-places`, for `places` of at least two, as hundredths. */
  lemma HundredthsValue(c: nat, e: int)
    requires e >= -PricePlaces
    ensures DecimalValue(Decimal(false, c * Pow10(e + PricePlaces), -PricePlaces))
            == DecimalValue(Decimal(false, c, e))
  {
    assert Pow10(2) == 100;
    var scaled := c * Pow10(e + PricePlaces);
    if e >= 0 {
      Pow10Add(e, 2);
      assert scaled == c * Pow10(e) * 100;
      assert (scaled as real) / 100.0 == (c * Pow10(e)) as real;
    } else if e == -1 {
      assert scaled == c * 10;
      assert (scaled as real) / 100.0 == (c as real) / 10.0;
    } else {
      assert scaled == c;
    }
  }

  lemma MulLess(a: real, b: real, k: real)
    requires k > 0.0 && a < b
    ensures a * k < b * k
  {
  }

  lemma MulCancel(a: real, b: real, k: real)
    requires k > 0.0 && a * k <= b * k
    ensures a <= b
  {
    if a > b {
      MulLess(b, a, k);
    }
  }

  lemma DivCancel(a: real, k: real)
    requires k > 0.0
    ensures a / k * k == a
  {
  }

  /** A number whose product with `k > 0` lies within `k/200` of zero lies within 1/200. */
  lemma WithinHalfCent(y: real, k: real, x: real)
    requires k > 0.0 && y * k == x && -k / 200.0 <= x <= k / 200.0
    ensures -1.0 / 200.0 <= y <= 1.0 / 200.0
  {
    assert (1.0 / 200.0) * k == k / 200.0;
    assert (-1.0 / 200.0) * k == -k / 200.0;
    MulCancel(y, 1.0 / 200.0, k);
    MulCancel(-1.0 / 200.0, y, k);
  }

  lemma HalfCent(q: int, c: nat, d: nat)
    requires d >= 1 && -(d as int) <= 2 * (d * q - c) <= d
    ensures -1.0 / 200.0 <= (q as real) / 100.0 - (c as real) / ((100 * d) as real) <= 1.0 / 200.0
  {
    var scale := (100 * d) as real;
    var cents := (q as real) / 100.0;
    var share := (c as real) / scale;
    DivCancel(c as real, scale);
    assert cents * scale == (d * q) as real;
    assert (cents - share) * scale == cents * scale - share * scale;
    var x := (d * q - c) as real;
    assert -scale / 200.0 <= x <= scale / 200.0;
    WithinHalfCent(cents - share, scale, x);
  }

  /** Saving a price moves it by at most half a cent, and not at all when it has at most
      two places. */
  lemma QuantizedNearest(d: Decimal)
    requires Quantized(d).Some?
    ensures var stored := DecimalValue(Quantized(d).value);
            -1.0 / 200.0 <= stored - DecimalValue(d) <= 1.0 / 200.0
    ensures d.exponent >= -PricePlaces ==> DecimalValue(Quantized(d).value) == DecimalValue(d)
  {
    var q := Quantized(d).value;
    var unsigned := Decimal(false, d.coefficient, d.exponent);
    var storedUnsigned := Decimal(false, q.coefficient, q.exponent);
    assert Pow10(2) == 100;
    if d.exponent >= -PricePlaces {
      HundredthsValue(d.coefficient, d.exponent);
    } else {
      var scale := Pow10(-PricePlaces - d.exponent);
      Pow10Add(-PricePlaces - d.exponent, 2);
      RoundHalfEvenNearest(d.coefficient, scale);
      HalfCent(q.coefficient, d.coefficient, scale);
      assert DecimalValue(unsigned) == (d.coefficient as real) / ((100 * scale) as real);
    }
    assert DecimalValue(d) == (if d.negative then -DecimalValue(unsigned) else DecimalValue(unsigned));
    assert DecimalValue(q) == (if d.negative then -DecimalValue(storedUnsigned) else DecimalValue(storedUnsigned));
  }

  lemma HundredthsBelow(k: int)
    ensures k < 1000000 <==> (k as real) / 100.0 < 9999.995
  {
  }

  lemma QuotientBelow(c: nat, d: nat)
    requires d >= 1
    ensures 2 * c < 1999999 * d <==> (c as real) / ((100 * d) as real) < 9999.995
  {
    var scale := (100 * d) as real;
    var y := (c as real) / scale;
    assert y * scale == c as real;
    assert 9999.995 * scale == 999999.5 * (d as real);
    if y < 9999.995 {
      MulLess(y, 9999.995, scale);
    } else if y > 9999.995 {
      MulLess(9999.995, y, scale);
    }
  }

  /** The column holds a price exactly when its magnitude is below 9999.995, the largest
      amount that does not round to 10000.00, which would need seven digits. */
  lemma QuantizedFits(d: Decimal)
    ensures Quantized(d).Some? <==> DecimalValue(d.(negative := false)) < 9999.995
  {
    assert Pow10(2) == 100;
    assert Pow10(PriceDigits) == 1000000;
    var unsigned := d.(negative := false);
    if d.exponent >= -PricePlaces {
      HundredthsValue(d.coefficient, d.exponent);
      HundredthsBelow(d.coefficient * Pow10(d.exponent + PricePlaces));
    } else {
      var scale := Pow10(-PricePlaces - d.exponent);
      Pow10Add(-PricePlaces - d.exponent, 2);
      RoundHalfEvenBelow(d.coefficient, scale, 1000000);
      QuotientBelow(d.coefficient, scale);
      assert DecimalValue(unsigned) == (d.coefficient as real) / ((100 * scale) as real);
    }
  }

  /** A stored price is stored unchanged again: saving a row read back changes nothing. */
  lemma QuantizedStable(d: Decimal)
    requires Quantized(d).Some?
    ensures Quantized(Quantized(d).value) == Quantized(d)
  {
  }

  /** "9.990" is stored as 9.99; ties go to the even cent; 10000 does not fit. */
  lemma QuantizedExamples()
    ensures Quantized(Decimal(false, 9990, -3)) == Some(Decimal(false, 999, -2))
    ensures DecimalString(Decimal(false, 999, -2)) == "9.99"
    ensures Quantized(Decimal(false, 125, -3)) == Some(Decimal(false, 12, -2))
    ensures Quantized(Decimal(false, 135, -3)) == Some(Decimal(false, 14, -2))
    ensures Quantized(Decimal(false, 1, 4)) == None
  {
    assert Pow10(1) == 10;
    assert Pow10(6) == 1000000;
    assert NatToString(999) == "999" by {
      assert NatToString(99) == "99";
    }
  }

  /** The row an album becomes when it is saved: only its price changes, to two places and
      at most six digits. */
  function StoredForm(a: Album): (r: Option<Album>)
    ensures r.Some? ==> r.value.(itunesPriceDollars := a.itunesPriceDollars) == a
    ensures r.Some? ==> r.value.itunesPriceDollars.exponent == -PricePlaces
                        && r.value.itunesPriceDollars.coefficient < Pow10(PriceDigits)
  {
    var price := Quantized(a.itunesPriceDollars);
    if price.Some? then Some(a.(itunesPriceDollars := price.value)) else None
  }

  /** An album can be saved exactly when its price is below 9999.995, and is saved within
      half a cent of its price. */
  lemma StoredFormFits(a: Album)
    ensures StoredForm(a).Some? <==> DecimalValue(a.itunesPriceDollars.(negative := false)) < 9999.995
    ensures StoredForm(a).Some? ==>
              -1.0 / 200.0 <= DecimalValue(StoredForm(a).value.itunesPriceDollars) - DecimalValue(a.itunesPriceDollars) <= 1.0 / 200.0
  {
    QuantizedFits(a.itunesPriceDollars);
    if StoredForm(a).Some? {
      QuantizedNearest(a.itunesPriceDollars);
    }
  }
}
