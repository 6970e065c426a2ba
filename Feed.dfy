/** The iTunes top-albums feed: turning each entry of the parsed feed document into an
    (album, category) pair, collapsing the categories to one per id, and merging the result
    into the store so that exactly the albums of the latest feed are marked top. */
module Feed {
  import opened Wrappers
  import opened Models
  import opened Document
  import opened Text

  /** What a `FeedError` says went wrong. */
  datatype FeedErrorReason =
    | StructureChange(clue: Fault) // "iTunes feed structure change? Clue: ..."
    | EmptyFeed                    // "Cannot merge empty top-albums list into database"

  /** How the feed operations fail: a `FeedError`, which carries the raw entry when one entry
      was malformed, or a Python exception that no handler catches. */
  datatype Failure =
    | FeedError(reason: FeedErrorReason, jsonEntry: Option<Json>)
    | Uncaught(fault: Fault)

  /** What dateutil's free-text parser does with a string: a date, a ParserError (a
      ValueError), or an OverflowError for numbers too large for a date. */
  datatype DateParse = Parsed(date: Date) | Unparsable | Overflow

  /** The two foreign parsers: dateutil's free-text date parser (followed by `.date()`) and
      `decimal.Decimal` on a string, where `None` is a string it rejects. */
  datatype Parsers = Parsers(parseDate: string -> DateParse, parseDecimal: string -> Option<Decimal>)

  // ---------------------------------------------------------------------------------
  // One entry

  /** `parser.parse(value).date()`: a value that is not a string is a TypeError; a string
      fails as the parser does. */
  function DateOf(value: Json, p: Parsers): (r: Result<Date, Fault>)
    ensures r.Ok? <==> value.JString? && p.parseDate(value.s).Parsed?
    ensures r.Ok? ==> r.value == p.parseDate(value.s).date
    ensures r.Err? ==> r.error == if !value.JString? then TypeError
                                  else if p.parseDate(value.s).Overflow? then OverflowError
                                  else ValueError
  {
    match value
    case JString(s) =>
      (match p.parseDate(s)
       case Parsed(d) => Ok(d)
       case Unparsable => Err(ValueError)
       case Overflow => Err(OverflowError))
    case _ => Err(TypeError)
  }

  /** The integer a JSON value is to Python's `isinstance(value, int)`: a bool is one. */
  function PyInt(value: Json): Option<int>
  {
    match value
    case JInt(i) => Some(i)
    case JBool(b) => Some(if b then 1 else 0)
    case _ => None
  }

  predicate IsDigitItem(value: Json)
  {
    PyInt(value).Some? && 0 <= PyInt(value).value <= 9
  }

  /** The number a list of digit items spells, most significant first; no digits spell 0. */
  function DigitItemsValue(items: seq<Json>): nat
    requires forall i :: 0 <= i < |items| ==> IsDigitItem(items[i])
  {
    if |items| == 0 then 0
    else
      var last := items[|items| - 1];
      assert IsDigitItem(last);
      10 * DigitItemsValue(items[..|items| - 1]) + PyInt(last).value
  }

  /** `Decimal((sign, digits, exponent))`: three items, a sign of 0 or 1, a list of digits
      0..9 and an integer exponent; every other shape is a ValueError. */
  function DecimalOfTuple(items: seq<Json>): (r: Result<Decimal, Fault>)
    ensures r.Err? ==> r.error == ValueError
    ensures r.Ok? ==> && |items| == 3 && items[1].JArray?
                      && PyInt(items[0]) == Some(if r.value.negative then 1 else 0)
                      && PyInt(items[2]) == Some(r.value.exponent)
                      && |NatToString(r.value.coefficient)| <= |items[1].items| + 1
  {
    if |items| != 3 then Err(ValueError)
    else
      var sign, exponent := PyInt(items[0]), PyInt(items[2]);
      if sign.None? || !(sign.value == 0 || sign.value == 1) || exponent.None? || !items[1].JArray? then Err(ValueError)
      else
        var digits := items[1].items;
        if !(forall i :: 0 <= i < |digits| ==> IsDigitItem(digits[i])) then Err(ValueError)
        else
          DigitItemsLength(digits);
          Ok(Decimal(sign.value == 1, DigitItemsValue(digits), exponent.value))
  }

  lemma {:induction false} DigitItemsLength(items: seq<Json>)
    requires forall i :: 0 <= i < |items| ==> IsDigitItem(items[i])
    ensures |NatToString(DigitItemsValue(items))| <= |items| + 1
  {
    if |items| > 0 {
      var front := items[..|items| - 1];
      assert forall i :: 0 <= i < |front| ==> front[i] == items[i];
      DigitItemsLength(front);
      var n := DigitItemsValue(items);
      if n >= 10 {
        assert n / 10 == DigitItemsValue(front);
      }
    }
  }

  /** `decimal.Decimal(value)`: a string the decimal parser rejects signals InvalidOperation;
      an integer or a boolean converts exactly; a list is read as a (sign, digits, exponent)
      tuple; a null or an object is a TypeError. */
  function DecimalOf(value: Json, p: Parsers): (r: Result<Decimal, Fault>)
    ensures r == Err(InvalidOperation) <==> value.JString? && p.parseDecimal(value.s).None?
    ensures r == Err(TypeError) <==> value.JNull? || value.JObject?
    ensures r.Err? ==> r.error in {InvalidOperation, ValueError, TypeError}
    ensures r.Ok? && PyInt(value).Some? ==> r.value.exponent == 0 && DecimalValue(r.value) == PyInt(value).value as real
  {
    match value
    case JString(s) => var d := p.parseDecimal(s); if d.Some? then Ok(d.value) else Err(InvalidOperation)
    case JInt(i) => Ok(Decimal(i < 0, if i < 0 then -i else i, 0))
    case JBool(b) => Ok(Decimal(false, if b then 1 else 0, 0))
    case JArray(items) => DecimalOfTuple(items)
    case _ => Err(TypeError)
  }

  /** `d.as_tuple()` written as the JSON list it would be dumped as. */
  function AsTuple(d: Decimal): Json
  {
    var digits := NatToString(d.coefficient);
    JArray([JInt(if d.negative then 1 else 0),
            JArray(seq(|digits|, i requires 0 <= i < |digits| => JInt(digits[i] as int - '0' as int))),
            JInt(d.exponent)])
  }

  lemma {:induction false} DigitItemsOfText(s: string, items: seq<Json>)
    requires AllDigits(s) && |items| == |s|
    requires forall i :: 0 <= i < |s| ==> items[i] == JInt(s[i] as int - '0' as int)
    ensures forall i :: 0 <= i < |items| ==> IsDigitItem(items[i])
    ensures DigitItemsValue(items) == DigitsValue(s)
  {
    if |s| > 0 {
      var front, frontItems := s[..|s| - 1], items[..|items| - 1];
      assert forall i :: 0 <= i < |front| ==> front[i] == s[i] && frontItems[i] == items[i];
      DigitItemsOfText(front, frontItems);
    }
  }

  /** A decimal read back from its own `as_tuple()` is the same decimal. */
  lemma DecimalOfAsTuple(d: Decimal, p: Parsers)
    ensures DecimalOf(AsTuple(d), p) == Ok(d)
  {
    var digits := NatToString(d.coefficient);
    var items := AsTuple(d).items[1].items;
    DigitItemsOfText(digits, items);
    NatToStringValue(d.coefficient);
  }

  /** `Decimal([0, [1, 9, 9, 9], -2])` is 19.99; a sign of 2, a digit 10 and a missing
      exponent are ValueErrors; `Decimal(-5)` is -5. */
  lemma DecimalOfTupleExamples(p: Parsers)
    ensures DecimalOf(JArray([JInt(0), JArray([JInt(1), JInt(9), JInt(9), JInt(9)]), JInt(-2)]), p)
            == Ok(Decimal(false, 1999, -2))
    ensures DecimalOf(JArray([JInt(2), JArray([JInt(1)]), JInt(0)]), p) == Err(ValueError)
    ensures DecimalOf(JArray([JInt(0), JArray([JInt(10)]), JInt(0)]), p) == Err(ValueError)
    ensures DecimalOf(JArray([JInt(0), JArray([JInt(1)])]), p) == Err(ValueError)
    ensures DecimalOf(JInt(-5), p) == Ok(Decimal(true, 5, 0))
  {
    var digits := [JInt(1), JInt(9), JInt(9), JInt(9)];
    assert DigitItemsValue(digits[..1]) == 1 by {
      assert digits[..1][..0] == [];
    }
    assert DigitItemsValue(digits[..2]) == 19 by {
      assert digits[..2][..1] == digits[..1];
    }
    assert DigitItemsValue(digits[..3]) == 199 by {
      assert digits[..3][..2] == digits[..2];
    }
    assert DigitItemsValue(digits) == 1999 by {
      assert digits[..|digits| - 1] == digits[..3];
    }
  }

  function TextAt(value: Json, keys: seq<string>): (r: Result<string, Fault>)
    ensures r.Err? ==> r.error in {KeyError, TypeError, ValueError}
  {
    var v :- Path(value, keys);
    TextOf(v)
  }

  function IntAt(value: Json, keys: seq<string>): (r: Result<int, Fault>)
    ensures r.Err? ==> r.error in {KeyError, TypeError, ValueError}
  {
    var v :- Path(value, keys);
    IntOf(v)
  }

  /** `ITunesCategory(id=int(...), label=..., term=..., scheme=...)` from `entry["category"]["attributes"]`. */
  function CategoryOf(entry: Json): (r: Result<Category, Fault>)
    ensures r.Err? ==> r.error in {KeyError, TypeError, ValueError}
  {
    var attributes :- Path(entry, ["category", "attributes"]);
    var id :- IntAt(attributes, ["im:id"]);
    var labelText :- TextAt(attributes, ["label"]);
    var term :- TextAt(attributes, ["term"]);
    var scheme :- TextAt(attributes, ["scheme"]);
    Ok(Category(id, labelText, term, scheme))
  }

  /** `entry["im:artist"]["attributes"]["href"] if "attributes" in entry["im:artist"] else None`. */
  function ArtistUrlOf(entry: Json): (r: Result<Option<string>, Fault>)
    ensures r.Err? ==> r.error in {KeyError, TypeError, ValueError}
  {
    var artist :- Get(entry, "im:artist");
    var hasAttributes :- Has(artist, "attributes");
    if hasAttributes then
      var href :- TextAt(artist, ["attributes", "href"]);
      Ok(Some(href))
    else Ok(None)
  }

  /** The `Album(...)` call: its keyword arguments in the order Python evaluates them. */
  function AlbumOf(entry: Json, category: Category, isTop: bool, p: Parsers): (r: Result<Album, Fault>)
    ensures r.Ok? ==>
              && r.value.itunesCategory == category && r.value.isItunesTop == isTop
              && IntAt(entry, ["id", "attributes", "im:id"]) == Ok(r.value.id)
              && TextAt(entry, ["im:name", "label"]) == Ok(r.value.name)
              && TextAt(entry, ["im:artist", "label"]) == Ok(r.value.artist)
              && ArtistUrlOf(entry) == Ok(r.value.artistUrl)
              && IntAt(entry, ["im:itemCount", "label"]) == Ok(r.value.trackCount)
              && TextAt(entry, ["rights", "label"]) == Ok(r.value.rights)
              && TextAt(entry, ["link", "attributes", "href"]) == Ok(r.value.itunesLink)
  {
    var id :- IntAt(entry, ["id", "attributes", "im:id"]);
    var name :- TextAt(entry, ["im:name", "label"]);
    var artist :- TextAt(entry, ["im:artist", "label"]);
    var artistUrl :- ArtistUrlOf(entry);
    var dateValue :- Path(entry, ["im:releaseDate", "label"]);
    var releaseDate :- DateOf(dateValue, p);
    var trackCount :- IntAt(entry, ["im:itemCount", "label"]);
    var rights :- TextAt(entry, ["rights", "label"]);
    var link :- TextAt(entry, ["link", "attributes", "href"]);
    var priceValue :- Path(entry, ["im:price", "attributes", "amount"]);
    var price :- DecimalOf(priceValue, p);
    Ok(NewAlbum(id, name, artist, artistUrl, releaseDate, trackCount, rights, category, link, price, isTop))
  }

  /** The url and the height of image `index` of the image list. */
  function ImageOf(images: Json, index: nat): (r: Result<(string, int), Fault>)
    ensures r.Err? ==> r.error in {IndexError, KeyError, TypeError, ValueError}
    ensures r == Err(IndexError) ==> At(images, index) == Err(IndexError)
  {
    var image :- At(images, index);
    var url :- TextAt(image, ["label"]);
    var height :- IntAt(image, ["attributes", "height"]);
    Ok((url, height))
  }

  /** Slots 1..count of `album` filled from the first `count` images, in order, stopping at
      the first image that cannot be read. */
  function WithImages(album: Album, images: Json, count: nat): Result<Album, Fault>
    requires count <= ImageSlots
  {
    if count == 0 then Ok(album)
    else
      var previous :- WithImages(album, images, count - 1);
      var image :- ImageOf(images, count - 1);
      Ok(WithImage(previous, count, image.0, image.1))
  }

  function Min(a: nat, b: nat): nat { if a <= b then a else b }

  /** The images of the entry copied into the album's slots: at most three of them. */
  function EntryImages(album: Album, entry: Json): Result<Album, Fault>
  {
    var images :- Get(entry, "im:image");
    var length :- Len(images);
    WithImages(album, images, Min(ImageSlots, length))
  }

  /** The body of the `try` block of `_models_from_feed_entry`, with the exception it raises. */
  function EntryFields(entry: Json, isTop: bool, p: Parsers): Result<(Album, Category), Fault>
  {
    var category :- CategoryOf(entry);
    var album :- AlbumOf(entry, category, isTop, p);
    var withImages :- EntryImages(album, entry);
    Ok((withImages, category))
  }

  /** `except (KeyError, ValueError)`, as written. */
  predicate CaughtAsWritten(f: Fault)
  {
    f == KeyError || f == ValueError
  }

  /** The handler as intended: a price the decimal parser rejects is a parse failure too. */
  predicate Caught(f: Fault)
  {
    f == KeyError || f == ValueError || f == InvalidOperation
  }

  /** What leaves the handler for exception `f` raised while parsing `entry`. */
  function Handled(entry: Json, f: Fault, caught: Fault -> bool): Failure
  {
    if caught(f) then FeedError(StructureChange(f), Some(entry)) else Uncaught(f)
  }

  /** `_models_from_feed_entry(entry, is_top)` with the handler as written. */
  function EntryModelsAsWritten(entry: Json, isTop: bool, p: Parsers): Result<(Album, Category), Failure>
  {
    match EntryFields(entry, isTop, p)
    case Ok(models) => Ok(models)
    case Err(f) => Err(Handled(entry, f, CaughtAsWritten))
  }

  /** `_models_from_feed_entry(entry, is_top)` with the intended handler; the rest of the
      model uses this one. */
  function EntryModels(entry: Json, isTop: bool, p: Parsers): Result<(Album, Category), Failure>
  {
    match EntryFields(entry, isTop, p)
    case Ok(models) => Ok(models)
    case Err(f) => Err(Handled(entry, f, Caught))
  }

  lemma {:induction false} WithImagesFailureStays(album: Album, images: Json, k: nat, n: nat)
    requires k <= n <= ImageSlots
    requires WithImages(album, images, k).Err?
    ensures WithImages(album, images, n) == WithImages(album, images, k)
    decreases n
  {
    if n > k {
      WithImagesFailureStays(album, images, k, n - 1);
    }
  }

  /** The image list of `_models_from_feed_entry` and its length, then the image loop. */
  method CopyImages(album: Album, entry: Json) returns (r: Result<Album, Fault>)
    ensures r == EntryImages(album, entry)
  {
    var images := Get(entry, "im:image");
    if images.Err? {
      return Err(images.error);
    }
    var length := Len(images.value);
    if length.Err? {
      return Err(length.error);
    }
    r := FillSlots(album, images.value, Min(ImageSlots, length.value));
  }

  /** The image loop: copies the first `count` images into the album's slots, one
      `setattr` pair at a time. */
  method FillSlots(album: Album, images: Json, count: nat) returns (r: Result<Album, Fault>)
    requires count <= ImageSlots
    ensures r == WithImages(album, images, count)
  {
    var filled := album;
    var index := 0;
    while index < count
      invariant 0 <= index <= count
      invariant WithImages(album, images, index) == Ok(filled)
    {
      var image := ImageOf(images, index);
      if image.Err? {
        assert WithImages(album, images, index + 1) == Err(image.error) by {
          WithImagesNext(album, images, index, filled);
        }
        WithImagesFailureStays(album, images, index + 1, count);
        return Err(image.error);
      }
      var next := WithImage(filled, index + 1, image.value.0, image.value.1);
      assert WithImages(album, images, index + 1) == Ok(next) by {
        WithImagesNext(album, images, index, filled);
      }
      filled := next;
      index := index + 1;
    }
    return Ok(filled);
  }

  /** `_models_from_feed_entry`: the category, then the album, then its images; an exception
      the handler catches becomes a `FeedError` carrying the entry. */
  method ModelsFromFeedEntry(entry: Json, isTop: bool, p: Parsers) returns (r: Result<(Album, Category), Failure>)
    ensures r == EntryModels(entry, isTop, p)
  {
    var category := CategoryOf(entry);
    if category.Err? {
      return Err(Handled(entry, category.error, Caught));
    }
    var album := AlbumOf(entry, category.value, isTop, p);
    if album.Err? {
      return Err(Handled(entry, album.error, Caught));
    }
    var withImages := CopyImages(album.value, entry);
    if withImages.Err? {
      return Err(Handled(entry, withImages.error, Caught));
    }
    return Ok((withImages.value, category.value));
  }

  /** The images fill slots 1..count from the first `count` images, in order, and leave the
      other slots and every other field as they were. */
  lemma WithImagesSlots(album: Album, images: Json, count: nat)
    requires count <= ImageSlots
    requires WithImages(album, images, count).Ok?
    ensures var r := WithImages(album, images, count).value;
            && (forall n :: 1 <= n <= count ==>
                  && ImageOf(images, n - 1).Ok?
                  && ImageUrl(r, n) == Some(ImageOf(images, n - 1).value.0)
                  && ImageHeight(r, n) == Some(ImageOf(images, n - 1).value.1))
            && (forall n :: count < n <= ImageSlots ==>
                  ImageUrl(r, n) == ImageUrl(album, n) && ImageHeight(r, n) == ImageHeight(album, n))
            && r == album.(image1Url := r.image1Url, image1Height := r.image1Height,
                           image2Url := r.image2Url, image2Height := r.image2Height,
                           image3Url := r.image3Url, image3Height := r.image3Height)
  {
    forall n | 1 <= n <= ImageSlots {
      WithImagesSlot(album, images, count, n);
    }
    WithImagesFrame(album, images, count);
  }

  /** One more image on top of the slots filled so far. */
  lemma WithImagesNext(album: Album, images: Json, k: nat, filled: Album)
    requires k < ImageSlots && WithImages(album, images, k) == Ok(filled)
    ensures ImageOf(images, k).Err? ==> WithImages(album, images, k + 1) == Err(ImageOf(images, k).error)
    ensures ImageOf(images, k).Ok? ==>
              WithImages(album, images, k + 1)
              == Ok(WithImage(filled, k + 1, ImageOf(images, k).value.0, ImageOf(images, k).value.1))
  {
  }

  /** The last step of `WithImages`: the slot `count` is filled on top of the earlier ones. */
  lemma WithImagesLast(album: Album, images: Json, count: nat)
    requires 0 < count <= ImageSlots
    requires WithImages(album, images, count).Ok?
    ensures WithImages(album, images, count - 1).Ok? && ImageOf(images, count - 1).Ok?
    ensures WithImages(album, images, count).value
            == WithImage(WithImages(album, images, count - 1).value, count,
                         ImageOf(images, count - 1).value.0, ImageOf(images, count - 1).value.1)
  {
  }

  /** What one slot holds after `count` images were copied. */
  lemma {:induction false} WithImagesSlot(album: Album, images: Json, count: nat, n: int)
    requires count <= ImageSlots && 1 <= n <= ImageSlots
    requires WithImages(album, images, count).Ok?
    ensures n <= count ==>
              && ImageOf(images, n - 1).Ok?
              && ImageUrl(WithImages(album, images, count).value, n) == Some(ImageOf(images, n - 1).value.0)
              && ImageHeight(WithImages(album, images, count).value, n) == Some(ImageOf(images, n - 1).value.1)
    ensures count < n ==>
              && ImageUrl(WithImages(album, images, count).value, n) == ImageUrl(album, n)
              && ImageHeight(WithImages(album, images, count).value, n) == ImageHeight(album, n)
  {
    if count > 0 {
      WithImagesLast(album, images, count);
      WithImagesSlot(album, images, count - 1, n);
    }
  }

  lemma {:induction false} WithImagesFrame(album: Album, images: Json, count: nat)
    requires count <= ImageSlots
    requires WithImages(album, images, count).Ok?
    ensures var r := WithImages(album, images, count).value;
            r == album.(image1Url := r.image1Url, image1Height := r.image1Height,
                        image2Url := r.image2Url, image2Height := r.image2Height,
                        image3Url := r.image3Url, image3Height := r.image3Height)
  {
    if count > 0 {
      WithImagesLast(album, images, count);
      WithImagesFrame(album, images, count - 1);
    }
  }

  /** Reading the images never runs past the end of the list: at most `len(image_list)`
      indices are read. */
  lemma {:induction false} WithImagesInRange(album: Album, images: Json, count: nat)
    requires count <= ImageSlots
    requires Len(images).Ok? && count <= Len(images).value
    ensures WithImages(album, images, count) != Err(IndexError)
  {
    if count > 0 {
      WithImagesInRange(album, images, count - 1);
    }
  }

  /** A parsed entry went through every step: the category, the album, the image list
      and its length, and the images. */
  lemma EntryFieldsSteps(entry: Json, isTop: bool, p: Parsers)
    requires EntryFields(entry, isTop, p).Ok?
    ensures CategoryOf(entry).Ok? && AlbumOf(entry, CategoryOf(entry).value, isTop, p).Ok?
    ensures Get(entry, "im:image").Ok? && Len(Get(entry, "im:image").value).Ok?
    ensures var base := AlbumOf(entry, CategoryOf(entry).value, isTop, p).value;
            var images := Get(entry, "im:image").value;
            && WithImages(base, images, Min(ImageSlots, Len(images).value)).Ok?
            && EntryFields(entry, isTop, p).value == (WithImages(base, images, Min(ImageSlots, Len(images).value)).value, CategoryOf(entry).value)
  {
  }

  /** The category a parsed entry yields is the one its album refers to, the album has the
      flag it was given, and its columns are the entry's values. */
  lemma EntryModelsFields(entry: Json, isTop: bool, p: Parsers)
    requires EntryModels(entry, isTop, p).Ok?
    ensures var (album, category) := EntryModels(entry, isTop, p).value;
            && CategoryOf(entry) == Ok(category)
            && album.itunesCategory == category
            && album.isItunesTop == isTop
            && IntAt(entry, ["id", "attributes", "im:id"]) == Ok(album.id)
            && TextAt(entry, ["im:name", "label"]) == Ok(album.name)
            && TextAt(entry, ["im:artist", "label"]) == Ok(album.artist)
            && ArtistUrlOf(entry) == Ok(album.artistUrl)
            && IntAt(entry, ["im:itemCount", "label"]) == Ok(album.trackCount)
            && TextAt(entry, ["rights", "label"]) == Ok(album.rights)
            && TextAt(entry, ["link", "attributes", "href"]) == Ok(album.itunesLink)
  {
    assert EntryFields(entry, isTop, p).Ok?;
    EntryFieldsSteps(entry, isTop, p);
    var base := AlbumOf(entry, CategoryOf(entry).value, isTop, p).value;
    var images := Get(entry, "im:image").value;
    var count := Min(ImageSlots, Len(images).value);
    assert EntryModels(entry, isTop, p).value.0 == WithImages(base, images, count).value;
    WithImagesSlots(base, images, count);
  }

  /** The artist url is null exactly when the "im:artist" object has no "attributes". */
  lemma ArtistUrlNull(entry: Json, isTop: bool, p: Parsers)
    requires EntryModels(entry, isTop, p).Ok?
    ensures EntryModels(entry, isTop, p).value.0.artistUrl.None? <==>
            Get(entry, "im:artist").Ok? && Has(Get(entry, "im:artist").value, "attributes") == Ok(false)
  {
    EntryModelsFields(entry, isTop, p);
  }

  /** A parsed entry's album holds an image in slot `n` exactly when the entry lists at
      least `n` images, and that image is the entry's `n`-th. */
  lemma EntryModelsImages(entry: Json, isTop: bool, p: Parsers)
    requires EntryModels(entry, isTop, p).Ok?
    ensures Get(entry, "im:image").Ok? && Len(Get(entry, "im:image").value).Ok?
    ensures var album := EntryModels(entry, isTop, p).value.0;
            var images := Get(entry, "im:image").value;
            forall n :: 1 <= n <= ImageSlots ==>
              && (ImageUrl(album, n).Some? <==> n <= Len(images).value)
              && (ImageHeight(album, n).Some? <==> n <= Len(images).value)
              && (n <= Len(images).value ==>
                    ImageOf(images, n - 1).Ok? &&
                    (ImageUrl(album, n).value, ImageHeight(album, n).value) == ImageOf(images, n - 1).value)
  {
    assert EntryFields(entry, isTop, p).Ok?;
    EntryFieldsSteps(entry, isTop, p);
    var base := AlbumOf(entry, CategoryOf(entry).value, isTop, p).value;
    var images := Get(entry, "im:image").value;
    var count := Min(ImageSlots, Len(images).value);
    assert EntryModels(entry, isTop, p).value.0 == WithImages(base, images, count).value;
    WithImagesSlots(base, images, count);
  }

  /** No index error can come out of an entry: the image loop stops at the list's length. */
  lemma EntryFieldsNoIndexError(entry: Json, isTop: bool, p: Parsers)
    ensures EntryFields(entry, isTop, p) != Err(IndexError)
  {
    var category := CategoryOf(entry);
    if category.Ok? {
      var album := AlbumOf(entry, category.value, isTop, p);
      if album.Ok? && Get(entry, "im:image").Ok? {
        var images := Get(entry, "im:image").value;
        if Len(images).Ok? {
          WithImagesInRange(album.value, images, Min(ImageSlots, Len(images).value));
        }
      }
    }
  }

  /** With the intended handler, the only exception that escapes the parser is a TypeError:
      a value of the wrong JSON type where a dict, a list or a string is indexed. */
  lemma EntryModelsEscapes(entry: Json, isTop: bool, p: Parsers)
    requires EntryModels(entry, isTop, p).Err?
    ensures match EntryModels(entry, isTop, p).error
            case FeedError(reason, jsonEntry) =>
              reason.StructureChange? && reason.clue in {KeyError, ValueError, InvalidOperation} && jsonEntry == Some(entry)
            case Uncaught(f) => f == TypeError || f == OverflowError
  {
    EntryFieldsNoIndexError(entry, isTop, p);
  }

  /** OverflowError has one origin: a release date the date parser overflows on. */
  lemma OverflowErrorOrigin(entry: Json, isTop: bool, p: Parsers)
    requires EntryFields(entry, isTop, p) == Err(OverflowError)
    ensures Path(entry, ["im:releaseDate", "label"]).Ok?
    ensures var date := Path(entry, ["im:releaseDate", "label"]).value;
            date.JString? && p.parseDate(date.s).Overflow?
  {
    var category := CategoryOf(entry);
    var album := AlbumOf(entry, category.value, isTop, p);
    if album.Ok? {
      var images := Get(entry, "im:image");
      OverflowErrorNotFromImages(album.value, images.value, Min(ImageSlots, Len(images.value).value));
      assert false;
    }
    AlbumOverflowError(entry, category.value, isTop, p);
  }

  /** Of the album's columns, only the release date can raise OverflowError. */
  lemma AlbumOverflowError(entry: Json, category: Category, isTop: bool, p: Parsers)
    requires AlbumOf(entry, category, isTop, p) == Err(OverflowError)
    ensures Path(entry, ["im:releaseDate", "label"]).Ok?
    ensures var date := Path(entry, ["im:releaseDate", "label"]).value;
            date.JString? && p.parseDate(date.s).Overflow?
  {
  }

  lemma {:induction false} OverflowErrorNotFromImages(album: Album, images: Json, count: nat)
    requires count <= ImageSlots
    ensures WithImages(album, images, count) != Err(OverflowError)
  {
    if count > 0 {
      OverflowErrorNotFromImages(album, images, count - 1);
    }
  }

  /** Neither handler catches an OverflowError: a release date too large for the date
      parser escapes `_models_from_feed_entry` as it is. */
  lemma OverflowEscapes(entry: Json, isTop: bool, p: Parsers)
    requires EntryFields(entry, isTop, p) == Err(OverflowError)
    ensures EntryModelsAsWritten(entry, isTop, p) == Err(Uncaught(OverflowError))
    ensures EntryModels(entry, isTop, p) == Err(Uncaught(OverflowError))
  {
  }

  /** InvalidOperation has one origin: a price amount that is a string the decimal parser
      rejects. */
  lemma InvalidOperationOrigin(entry: Json, isTop: bool, p: Parsers)
    requires EntryFields(entry, isTop, p) == Err(InvalidOperation)
    ensures Path(entry, ["im:price", "attributes", "amount"]).Ok?
    ensures var amount := Path(entry, ["im:price", "attributes", "amount"]).value;
            amount.JString? && p.parseDecimal(amount.s).None?
  {
    var category := CategoryOf(entry);
    var album := AlbumOf(entry, category.value, isTop, p);
    if album.Ok? {
      var images := Get(entry, "im:image");
      InvalidOperationNotFromImages(album.value, images.value, Min(ImageSlots, Len(images.value).value));
      assert false;
    }
    AlbumInvalidOperation(entry, category.value, isTop, p);
  }

  /** Of the album's columns, only the price can signal InvalidOperation. */
  lemma AlbumInvalidOperation(entry: Json, category: Category, isTop: bool, p: Parsers)
    requires AlbumOf(entry, category, isTop, p) == Err(InvalidOperation)
    ensures Path(entry, ["im:price", "attributes", "amount"]).Ok?
    ensures var amount := Path(entry, ["im:price", "attributes", "amount"]).value;
            amount.JString? && p.parseDecimal(amount.s).None?
  {
  }


  lemma {:induction false} InvalidOperationNotFromImages(album: Album, images: Json, count: nat)
    requires count <= ImageSlots
    ensures WithImages(album, images, count) != Err(InvalidOperation)
  {
    if count > 0 {
      InvalidOperationNotFromImages(album, images, count - 1);
    }
  }

  /** The handler as written lets a price the decimal parser rejects escape as a bare
      InvalidOperation, where every other malformed value becomes a FeedError carrying the
      entry; the intended handler reports it like the others. */
  lemma RejectedPriceEscapesAsWritten(entry: Json, isTop: bool, p: Parsers)
    requires EntryFields(entry, isTop, p) == Err(InvalidOperation)
    ensures EntryModelsAsWritten(entry, isTop, p) == Err(Uncaught(InvalidOperation))
    ensures EntryModels(entry, isTop, p) == Err(FeedError(StructureChange(InvalidOperation), Some(entry)))
  {
  }

  /** The two handlers agree on every other outcome. */
  lemma HandlersAgreeOtherwise(entry: Json, isTop: bool, p: Parsers)
    requires EntryFields(entry, isTop, p) != Err(InvalidOperation)
    ensures EntryModelsAsWritten(entry, isTop, p) == EntryModels(entry, isTop, p)
  {
  }

  // ---------------------------------------------------------------------------------
  // The whole document

  /** Iterating `document["feed"]["entry"]`, outside any handler. A dict or a string iterates
      over key or character strings, and the first of those fails in the parser with a
      TypeError (a string cannot be indexed by "category"); only an empty one yields no entry. */
  function FeedEntries(document: Json): Result<seq<Json>, Fault>
  {
    var feed :- Get(document, "feed");
    var entries :- Get(feed, "entry");
    match entries
    case JArray(items) => Ok(items)
    case JObject(fields) => if |fields| == 0 then Ok([]) else Err(TypeError)
    case JString(s) => if |s| == 0 then Ok([]) else Err(TypeError)
    case _ => Err(TypeError)
  }

  /** `_models_from_feed_entry(entry)` as the download loop calls it: with `is_top` True. */
  function EntryParser(p: Parsers): Json -> Result<(Album, Category), Failure>
  {
    entry => EntryModels(entry, true, p)
  }

  /** The albums and the categories of the entries, in entry order, or the failure of the
      first entry that fails. */
  function ParseEntries(entries: seq<Json>, parse: Json -> Result<(Album, Category), Failure>): Result<(seq<Album>, seq<Category>), Failure>
  {
    if |entries| == 0 then Ok(([], []))
    else
      var prefix :- ParseEntries(entries[..|entries| - 1], parse);
      var models :- parse(entries[|entries| - 1]);
      Ok((prefix.0 + [models.0], prefix.1 + [models.1]))
  }

  /** What `download_top_albums` returns for a parsed document. */
  function DownloadedTopAlbums(document: Json, p: Parsers): Result<(seq<Album>, seq<Category>), Failure>
  {
    match FeedEntries(document)
    case Err(f) => Err(Uncaught(f))
    case Ok(entries) =>
      var parsed :- ParseEntries(entries, EntryParser(p));
      Ok((parsed.0, DedupById(parsed.1)))
  }

  lemma {:induction false} ParseEntriesFailureStays(entries: seq<Json>, k: nat, parse: Json -> Result<(Album, Category), Failure>)
    requires k <= |entries|
    requires ParseEntries(entries[..k], parse).Err?
    ensures ParseEntries(entries, parse) == ParseEntries(entries[..k], parse)
    decreases |entries| - k
  {
    if k < |entries| {
      assert entries[..k + 1][..k] == entries[..k];
      ParseEntriesFailureStays(entries, k + 1, parse);
    } else {
      assert entries[..k] == entries;
    }
  }

  /** `download_top_albums` on an already parsed document: parses every entry, appending
      its album and its category, then collapses the categories. */
  method DownloadTopAlbums(document: Json, p: Parsers) returns (r: Result<(seq<Album>, seq<Category>), Failure>)
    ensures r == DownloadedTopAlbums(document, p)
  {
    var entries := FeedEntries(document);
    if entries.Err? {
      return Err(Uncaught(entries.error));
    }
    var albums: seq<Album> := [];
    var categories: seq<Category> := [];
    var i := 0;
    while i < |entries.value|
      invariant 0 <= i <= |entries.value|
      invariant ParseEntries(entries.value[..i], EntryParser(p)) == Ok((albums, categories))
    {
      var models := ModelsFromFeedEntry(entries.value[i], true, p);
      assert entries.value[..i + 1][..i] == entries.value[..i];
      if models.Err? {
        ParseEntriesFailureStays(entries.value, i + 1, EntryParser(p));
        return Err(models.error);
      }
      albums := albums + [models.value.0];
      categories := categories + [models.value.1];
      i := i + 1;
    }
    assert entries.value[..i] == entries.value;
    return Ok((albums, DedupById(categories)));
  }

  /** The parse succeeds exactly when every entry parses. */
  lemma {:induction false} ParseEntriesSucceeds(entries: seq<Json>, parse: Json -> Result<(Album, Category), Failure>)
    ensures ParseEntries(entries, parse).Ok? <==> forall i :: 0 <= i < |entries| ==> parse(entries[i]).Ok?
  {
    if |entries| > 0 {
      var front := entries[..|entries| - 1];
      ParseEntriesSucceeds(front, parse);
      assert forall i :: 0 <= i < |front| ==> front[i] == entries[i];
    }
  }

  /** A successful parse yields one album and one category per entry, in entry order, each
      the models of that entry. */
  lemma {:induction false} ParseEntriesOk(entries: seq<Json>, parse: Json -> Result<(Album, Category), Failure>)
    requires ParseEntries(entries, parse).Ok?
    ensures var (albums, categories) := ParseEntries(entries, parse).value;
            && |albums| == |entries| && |categories| == |entries|
            && forall i :: 0 <= i < |entries| ==> parse(entries[i]) == Ok((albums[i], categories[i]))
  {
    if |entries| > 0 {
      var front := entries[..|entries| - 1];
      ParseEntriesOk(front, parse);
      assert forall i :: 0 <= i < |front| ==> front[i] == entries[i];
    }
  }

  /** A failed parse reports the failure of the first entry that fails. */
  lemma {:induction false} ParseEntriesFirstFailure(entries: seq<Json>, parse: Json -> Result<(Album, Category), Failure>)
    requires ParseEntries(entries, parse).Err?
    ensures exists k :: 0 <= k < |entries| && parse(entries[k]) == Err(ParseEntries(entries, parse).error)
                        && forall i :: 0 <= i < k ==> parse(entries[i]).Ok?
  {
    var front := entries[..|entries| - 1];
    assert forall i :: 0 <= i < |front| ==> front[i] == entries[i];
    if ParseEntries(front, parse).Err? {
      ParseEntriesFirstFailure(front, parse);
      var k :| 0 <= k < |front| && parse(front[k]) == Err(ParseEntries(front, parse).error)
               && forall i :: 0 <= i < k ==> parse(front[i]).Ok?;
      assert parse(entries[k]) == Err(ParseEntries(entries, parse).error);
    } else {
      ParseEntriesSucceeds(front, parse);
      var k := |entries| - 1;
      assert parse(entries[k]) == Err(ParseEntries(entries, parse).error);
    }
  }

  /** Every album the download yields is marked top. */
  lemma DownloadedAlbumsAreTop(document: Json, p: Parsers)
    requires DownloadedTopAlbums(document, p).Ok?
    ensures forall a :: a in DownloadedTopAlbums(document, p).value.0 ==> a.isItunesTop
  {
    var entries := FeedEntries(document).value;
    ParseEntriesOk(entries, EntryParser(p));
    var albums := ParseEntries(entries, EntryParser(p)).value.0;
    forall a | a in albums ensures a.isItunesTop {
      var i :| 0 <= i < |albums| && albums[i] == a;
      EntryModelsFields(entries[i], true, p);
    }
  }

  /** The download yields the albums of the document's entries, in order, and their
      categories de-duplicated. */
  lemma DownloadedFromEntries(document: Json, p: Parsers)
    requires DownloadedTopAlbums(document, p).Ok?
    ensures FeedEntries(document).Ok?
    ensures var entries := FeedEntries(document).value;
            var (albums, categories) := DownloadedTopAlbums(document, p).value;
            && |albums| == |entries|
            && (forall i :: 0 <= i < |entries| ==>
                  EntryModels(entries[i], true, p).Ok? && albums[i] == EntryModels(entries[i], true, p).value.0)
            && categories == DedupById(seq(|entries|, i requires 0 <= i < |entries| => EntryModels(entries[i], true, p).value.1))
  {
    var entries := FeedEntries(document).value;
    ParseEntriesOk(entries, EntryParser(p));
    var parsed := ParseEntries(entries, EntryParser(p)).value;
    assert parsed.1 == seq(|entries|, i requires 0 <= i < |entries| => EntryModels(entries[i], true, p).value.1);
  }

  // ---------------------------------------------------------------------------------
  // Category de-duplication: `sorted(..., key=id)` and the `reduce` over (acc, last id)

  /** Inserts `c` before the first element whose id is not smaller, so that among equal ids
      the earlier element of the input stays first. */
  function InsertById(c: Category, sorted: seq<Category>): seq<Category>
  {
    if |sorted| == 0 || c.id <= sorted[0].id then [c] + sorted
    else [sorted[0]] + InsertById(c, sorted[1..])
  }

  /** `sorted(categories, key=lambda x: x.id)`: a stable sort by id. */
  function SortById(cs: seq<Category>): seq<Category>
  {
    if |cs| == 0 then [] else InsertById(cs[0], SortById(cs[1..]))
  }

  /** The `reduce`: walks the categories carrying (acc, last id) and appends a category
      whose id differs from the last id seen. */
  function CollapseRuns(cs: seq<Category>, acc: seq<Category>, lastId: int): (seq<Category>, int)
  {
    if |cs| == 0 then (acc, lastId)
    else CollapseRuns(cs[1..], if lastId != cs[0].id then acc + [cs[0]] else acc, cs[0].id)
  }

  /** The de-duplicated category list of `download_top_albums`; the fold starts from ([], 0). */
  function DedupById(cs: seq<Category>): seq<Category>
  {
    CollapseRuns(SortById(cs), [], 0).0
  }

  predicate SortedById(cs: seq<Category>)
  {
    forall i, j :: 0 <= i < j < |cs| ==> cs[i].id <= cs[j].id
  }

  predicate StrictlyAscendingIds(cs: seq<Category>)
  {
    forall i, j :: 0 <= i < j < |cs| ==> cs[i].id < cs[j].id
  }

  function Ids(cs: seq<Category>): set<int>
  {
    set c | c in cs :: c.id
  }

  /** The categories with id `x`, in their order in `cs`. */
  function WithId(cs: seq<Category>, x: int): (r: seq<Category>)
    ensures |r| > 0 <==> x in Ids(cs)
  {
    if |cs| == 0 then []
    else (if cs[0].id == x then [cs[0]] else []) + WithId(cs[1..], x)
  }

  lemma {:induction false} InsertByIdPermutes(c: Category, sorted: seq<Category>)
    ensures multiset(InsertById(c, sorted)) == multiset{c} + multiset(sorted)
    decreases |sorted|
  {
    if |sorted| > 0 && c.id > sorted[0].id {
      InsertByIdPermutes(c, sorted[1..]);
      assert sorted == [sorted[0]] + sorted[1..];
    }
  }

  lemma {:induction false} InsertByIdSorted(c: Category, sorted: seq<Category>)
    requires SortedById(sorted)
    ensures SortedById(InsertById(c, sorted))
    decreases |sorted|
  {
    var r := InsertById(c, sorted);
    if |sorted| > 0 && c.id > sorted[0].id {
      var rest := InsertById(c, sorted[1..]);
      InsertByIdSorted(c, sorted[1..]);
      InsertByIdMembers(c, sorted[1..]);
      assert r[1..] == rest;
      forall j | 0 < j < |r| ensures r[0].id <= r[j].id {
        assert r[j] in rest;
      }
    }
  }

  lemma {:induction false} InsertByIdMembers(c: Category, sorted: seq<Category>)
    ensures forall x :: x in InsertById(c, sorted) <==> x == c || x in sorted
    decreases |sorted|
  {
    if |sorted| > 0 && c.id > sorted[0].id {
      InsertByIdMembers(c, sorted[1..]);
      assert forall x :: x in sorted <==> x == sorted[0] || x in sorted[1..];
    }
  }

  lemma {:induction false} InsertByIdWithId(c: Category, sorted: seq<Category>, x: int)
    ensures WithId(InsertById(c, sorted), x) == (if c.id == x then [c] else []) + WithId(sorted, x)
    decreases |sorted|
  {
    if |sorted| == 0 || c.id <= sorted[0].id {
      WithIdCons(c, sorted, x);
    } else {
      InsertByIdWithId(c, sorted[1..], x);
      InsertByIdWithIdStep(c, sorted[0], sorted[1..], x);
      assert sorted == [sorted[0]] + sorted[1..];
    }
  }

  /** Inserting past a smaller head adds `c` to the categories with id `x` of the tail. */
  lemma InsertByIdWithIdStep(c: Category, head: Category, rest: seq<Category>, x: int)
    requires c.id > head.id
    requires WithId(InsertById(c, rest), x) == (if c.id == x then [c] else []) + WithId(rest, x)
    ensures WithId(InsertById(c, [head] + rest), x) == (if c.id == x then [c] else []) + WithId([head] + rest, x)
  {
    var inserted := InsertById(c, rest);
    assert ([head] + rest)[1..] == rest;
    assert InsertById(c, [head] + rest) == [head] + inserted;
    WithIdCons(head, inserted, x);
    WithIdCons(head, rest, x);
    var w := WithId(rest, x);
    if head.id == x {
      assert WithId(inserted, x) == w;
    }
  }

  lemma WithIdCons(a: Category, s: seq<Category>, x: int)
    ensures WithId([a] + s, x) == (if a.id == x then [a] else []) + WithId(s, x)
  {
    assert ([a] + s)[1..] == s;
  }

  /** `sorted(..., key=id)`: ascending by id, the same categories, and among those with the
      same id the order of the input. */
  lemma {:induction false} SortByIdFacts(cs: seq<Category>)
    ensures SortedById(SortById(cs))
    ensures multiset(SortById(cs)) == multiset(cs)
    ensures forall x :: WithId(SortById(cs), x) == WithId(cs, x)
  {
    if |cs| > 0 {
      SortByIdFacts(cs[1..]);
      InsertByIdSorted(cs[0], SortById(cs[1..]));
      InsertByIdPermutes(cs[0], SortById(cs[1..]));
      forall x ensures WithId(SortById(cs), x) == WithId(cs, x) {
        InsertByIdWithId(cs[0], SortById(cs[1..]), x);
      }
      assert cs == [cs[0]] + cs[1..];
    }
  }

  lemma {:induction false} CollapseRunsAccumulates(cs: seq<Category>, acc: seq<Category>, lastId: int)
    ensures CollapseRuns(cs, acc, lastId).0 == acc + CollapseRuns(cs, [], lastId).0
    decreases |cs|
  {
    if |cs| > 0 {
      var kept := if lastId != cs[0].id then [cs[0]] else [];
      assert (if lastId != cs[0].id then acc + [cs[0]] else acc) == acc + kept;
      CollapseRunsAccumulates(cs[1..], acc + kept, cs[0].id);
      CollapseRunsAccumulates(cs[1..], kept, cs[0].id);
      assert [] + kept == kept;
      assert (acc + kept) + CollapseRuns(cs[1..], [], cs[0].id).0 == acc + (kept + CollapseRuns(cs[1..], [], cs[0].id).0);
    }
  }

  /** One step of the fold from an empty accumulator: the head is kept when its id differs
      from the last id, and the fold goes on from the head's id. */
  lemma CollapseRunsStep(cs: seq<Category>, lastId: int)
    requires |cs| > 0
    ensures CollapseRuns(cs, [], lastId).0
            == (if lastId != cs[0].id then [cs[0]] else []) + CollapseRuns(cs[1..], [], cs[0].id).0
  {
    var kept := if lastId != cs[0].id then [cs[0]] else [];
    assert (if lastId != cs[0].id then [] + [cs[0]] else []) == kept;
    CollapseRunsAccumulates(cs[1..], kept, cs[0].id);
  }

  lemma IdsConcat(a: seq<Category>, b: seq<Category>)
    ensures Ids(a + b) == Ids(a) + Ids(b)
  {
    forall x | x in Ids(a + b) ensures x in Ids(a) + Ids(b) {
      var c :| c in a + b && c.id == x;
    }
    forall x | x in Ids(a) + Ids(b) ensures x in Ids(a + b) {
      if x in Ids(a) {
        var c :| c in a && c.id == x;
        assert c in a + b;
      } else {
        var c :| c in b && c.id == x;
        assert c in a + b;
      }
    }
  }

  /** In a sorted list no id is below the first one. */
  lemma SortedLeast(cs: seq<Category>, x: int)
    requires SortedById(cs) && x in Ids(cs)
    ensures cs[0].id <= x
  {
    var c :| c in cs && c.id == x;
    var k :| 0 <= k < |cs| && cs[k] == c;
  }

  /** On categories sorted by id, the fold keeps every id but the starting last id when the
      first run has it. */
  lemma {:induction false} CollapseRunsIds(cs: seq<Category>, lastId: int)
    requires SortedById(cs)
    ensures Ids(CollapseRuns(cs, [], lastId).0) == Ids(cs) - (if |cs| > 0 && cs[0].id == lastId then {lastId} else {})
    decreases |cs|
  {
    if |cs| > 0 {
      var head := cs[0].id;
      var kept := if lastId != head then [cs[0]] else [];
      var tail := CollapseRuns(cs[1..], [], head).0;
      CollapseRunsIds(cs[1..], head);
      TailIds(cs, tail);
      CollapseRunsStep(cs, lastId);
      IdsConcat(kept, tail);
      assert Ids(kept) == if lastId != head then {head} else {};
    }
  }

  /** The ids of the fold over the tail, from the head's id: those of the tail without it. */
  lemma TailIds(cs: seq<Category>, tail: seq<Category>)
    requires SortedById(cs) && |cs| > 0
    requires Ids(tail) == Ids(cs[1..]) - (if |cs| > 1 && cs[1].id == cs[0].id then {cs[0].id} else {})
    ensures Ids(tail) == Ids(cs[1..]) - {cs[0].id}
    ensures Ids(cs) == {cs[0].id} + Ids(cs[1..])
  {
    var rest := cs[1..];
    IdsConcat([cs[0]], rest);
    assert cs == [cs[0]] + rest;
    assert Ids([cs[0]]) == {cs[0].id};
    if cs[0].id in Ids(rest) {
      SortedLeast(rest, cs[0].id);
    }
  }

  /** On categories sorted by id, the fold yields strictly ascending ids. */
  lemma {:induction false} CollapseRunsAscending(cs: seq<Category>, lastId: int)
    requires SortedById(cs)
    ensures StrictlyAscendingIds(CollapseRuns(cs, [], lastId).0)
    decreases |cs|
  {
    if |cs| > 0 {
      var head := cs[0].id;
      var rest := cs[1..];
      var kept := if lastId != head then [cs[0]] else [];
      var tail := CollapseRuns(rest, [], head).0;
      CollapseRunsAscending(rest, head);
      CollapseRunsIds(rest, head);
      CollapseRunsStep(cs, lastId);
      if |kept| == 1 {
        var r := kept + tail;
        forall j | 0 < j < |r| ensures head < r[j].id {
          assert r[j] == tail[j - 1];
          assert r[j].id in Ids(tail);
          SortedLeast(rest, r[j].id);
        }
        assert StrictlyAscendingIds(r);
      } else {
        assert kept + tail == tail;
      }
    }
  }

  /** On categories sorted by id, each category the fold keeps is the first of its id. */
  lemma CollapseRunsFirst(cs: seq<Category>, lastId: int)
    requires SortedById(cs)
    ensures var r := CollapseRuns(cs, [], lastId).0;
            forall i :: 0 <= i < |r| ==> |WithId(cs, r[i].id)| > 0 && r[i] == WithId(cs, r[i].id)[0]
  {
    var r := CollapseRuns(cs, [], lastId).0;
    forall i | 0 <= i < |r| ensures |WithId(cs, r[i].id)| > 0 && r[i] == WithId(cs, r[i].id)[0] {
      CollapseRunsFirstAt(cs, lastId, i);
    }
  }

  lemma {:induction false} CollapseRunsFirstAt(cs: seq<Category>, lastId: int, i: nat)
    requires SortedById(cs)
    requires i < |CollapseRuns(cs, [], lastId).0|
    ensures var c := CollapseRuns(cs, [], lastId).0[i];
            |WithId(cs, c.id)| > 0 && c == WithId(cs, c.id)[0]
    decreases |cs|
  {
    var rest := cs[1..];
    var kept := if lastId != cs[0].id then [cs[0]] else [];
    var tail := CollapseRuns(rest, [], cs[0].id).0;
    CollapseRunsStep(cs, lastId);
    var c := (kept + tail)[i];
    if |kept| == 0 || i > 0 {
      var j := i - |kept|;
      assert c == tail[j];
      CollapseRunsFirstAt(rest, cs[0].id, j);
      CollapseRunsIds(rest, cs[0].id);
      assert c.id in Ids(tail);
      assert WithId(cs, c.id) == WithId(rest, c.id);
    } else {
      assert WithId(cs, c.id) == [cs[0]] + WithId(rest, c.id);
    }
  }

  /** The de-duplicated categories are in ascending id order, one per id. */
  lemma DedupAscending(cs: seq<Category>)
    ensures StrictlyAscendingIds(DedupById(cs))
  {
    SortByIdFacts(cs);
    CollapseRunsAscending(SortById(cs), 0);
  }

  /** Every id of the feed's categories survives, except 0 when no id is below it: the fold
      starts with 0 as the last id seen, so a run of id 0 at the front is dropped. */
  lemma DedupIds(cs: seq<Category>)
    ensures Ids(DedupById(cs)) == Ids(cs) - (if 0 in Ids(cs) && forall c :: c in cs ==> c.id >= 0 then {0} else {})
  {
    var sorted := SortById(cs);
    SortByIdFacts(cs);
    CollapseRunsIds(sorted, 0);
    assert forall c :: c in sorted <==> c in cs by {
      forall c ensures c in sorted <==> c in cs {
        assert c in sorted <==> c in multiset(sorted);
      }
    }
    assert Ids(sorted) == Ids(cs);
    if |sorted| > 0 {
      assert forall c :: c in sorted ==> sorted[0].id <= c.id by {
        forall c | c in sorted ensures sorted[0].id <= c.id {
          var k :| 0 <= k < |sorted| && sorted[k] == c;
        }
      }
      if sorted[0].id == 0 {
        assert sorted[0] in cs;
      }
    }
  }

  /** The copy kept of each id is its first occurrence in feed order. */
  lemma DedupKeepsFirst(cs: seq<Category>)
    ensures forall i :: 0 <= i < |DedupById(cs)| ==>
              |WithId(cs, DedupById(cs)[i].id)| > 0 && DedupById(cs)[i] == WithId(cs, DedupById(cs)[i].id)[0]
  {
    var sorted := SortById(cs);
    var r := DedupById(cs);
    SortByIdFacts(cs);
    CollapseRunsFirst(sorted, 0);
    assert r == CollapseRuns(sorted, [], 0).0;
    forall i | 0 <= i < |r| ensures |WithId(cs, r[i].id)| > 0 && r[i] == WithId(cs, r[i].id)[0] {
      var x := r[i].id;
      assert |WithId(sorted, x)| > 0 && r[i] == WithId(sorted, x)[0];
      assert WithId(sorted, x) == WithId(cs, x);
    }
  }

  // ---------------------------------------------------------------------------------
  // The store and the merge

  function CategoryKey(c: Category): int { c.id }

  function AlbumKey(a: Album): int { a.id }

  /** `update_or_create(defaults=..., id=key(x))` for each `x` in turn: insert, or overwrite
      every field of the row with that id. */
  function Upsert<T>(m: map<int, T>, xs: seq<T>, key: T -> int): map<int, T>
  {
    if |xs| == 0 then m
    else Upsert(m, xs[..|xs| - 1], key)[key(xs[|xs| - 1]) := xs[|xs| - 1]]
  }

  function AlbumIds(albums: seq<Album>): set<int>
  {
    set a | a in albums :: a.id
  }

  /** `Album.objects.exclude(id__in=top_ids).filter(is_itunes_top=True).update(is_itunes_top=False)`. */
  function Dethroned(stored: map<int, Album>, topIds: set<int>): map<int, Album>
  {
    map k | k in stored :: if k !in topIds && stored[k].isItunesTop then stored[k].(isItunesTop := false) else stored[k]
  }

  /** The categories after a merge of `categories`. */
  function MergedCategories(stored: map<int, Category>, categories: seq<Category>): map<int, Category>
  {
    Upsert(stored, categories, CategoryKey)
  }

  /** The albums after a merge of `albums`. */
  function MergedAlbums(stored: map<int, Album>, albums: seq<Album>): map<int, Album>
  {
    Dethroned(Upsert(stored, albums, AlbumKey), AlbumIds(albums))
  }

  /** The rows `update_or_create` writes for the feed's albums, each in its stored form,
      up to the first album whose price the column cannot hold: saving that one signals
      InvalidOperation and ends the loop. */
  function StoredRows(albums: seq<Album>): (r: seq<Album>)
    ensures |r| <= |albums|
    ensures |r| < |albums| ==> StoredForm(albums[|r|]).None?
  {
    if |albums| == 0 then []
    else
      match StoredForm(albums[0])
      case None => []
      case Some(row) =>
        var rest := StoredRows(albums[1..]);
        assert |rest| < |albums| - 1 ==> albums[1..][|rest|] == albums[|rest| + 1];
        [row] + rest
  }

  /** Each stored row is the stored form of the album at its position. */
  lemma {:induction false} StoredRowsAt(albums: seq<Album>, i: nat)
    requires i < |StoredRows(albums)|
    ensures StoredForm(albums[i]) == Some(StoredRows(albums)[i])
  {
    if i > 0 {
      StoredRowsAt(albums[1..], i - 1);
    }
  }

  /** A stored row is its album with the price the column holds: the same id and top flag,
      and a price of two places and at most six digits. */
  lemma StoredRowsForm(albums: seq<Album>, i: nat)
    requires i < |StoredRows(albums)|
    ensures var row := StoredRows(albums)[i];
            && row.id == albums[i].id && row.isItunesTop == albums[i].isItunesTop
            && row.itunesPriceDollars.exponent == -PricePlaces
            && row.itunesPriceDollars.coefficient < Pow10(PriceDigits)
  {
    var row := StoredRows(albums)[i];
    StoredRowsAt(albums, i);
    assert row.(itunesPriceDollars := albums[i].itunesPriceDollars) == albums[i];
  }

  /** Saving album `j` after the first `j` were saved: it fails exactly at the end of the
      stored rows, and otherwise writes the next stored row. */
  lemma StoredRowsStep(albums: seq<Album>, j: nat)
    requires j <= |StoredRows(albums)| && j < |albums|
    ensures StoredForm(albums[j]).None? <==> j == |StoredRows(albums)|
    ensures StoredForm(albums[j]).Some? ==> StoredRows(albums)[j] == StoredForm(albums[j]).value
                                            && StoredRows(albums)[j].id == albums[j].id
  {
    if j < |StoredRows(albums)| {
      StoredRowsAt(albums, j);
      StoredRowsForm(albums, j);
    }
  }

  lemma UpsertStep<T>(m: map<int, T>, xs: seq<T>, key: T -> int, j: nat)
    requires j < |xs|
    ensures Upsert(m, xs[..j + 1], key) == Upsert(m, xs[..j], key)[key(xs[j]) := xs[j]]
  {
    assert xs[..j + 1][..j] == xs[..j];
  }

  /** Every album of the feed is stored exactly when every price is below 9999.995. */
  lemma StoredRowsComplete(albums: seq<Album>)
    ensures |StoredRows(albums)| == |albums| <==>
              forall i :: 0 <= i < |albums| ==> DecimalValue(albums[i].itunesPriceDollars.(negative := false)) < 9999.995
  {
    var r := StoredRows(albums);
    forall i | 0 <= i < |albums|
      ensures StoredForm(albums[i]).Some? <==> DecimalValue(albums[i].itunesPriceDollars.(negative := false)) < 9999.995
    {
      StoredFormFits(albums[i]);
    }
    if |r| < |albums| {
      assert StoredForm(albums[|r|]).None?;
    }
  }

  /** When every album is stored, the stored rows carry the feed's ids. */
  lemma StoredRowsIds(albums: seq<Album>)
    requires |StoredRows(albums)| == |albums|
    ensures AlbumIds(StoredRows(albums)) == AlbumIds(albums)
  {
    var r := StoredRows(albums);
    forall i | 0 <= i < |albums| ensures r[i].id == albums[i].id {
      StoredRowsForm(albums, i);
    }
    forall id | id in AlbumIds(r) ensures id in AlbumIds(albums) {
      var a :| a in r && a.id == id;
      var k :| 0 <= k < |r| && r[k] == a;
      assert albums[k] in albums;
    }
    forall id | id in AlbumIds(albums) ensures id in AlbumIds(r) {
      var a :| a in albums && a.id == id;
      var k :| 0 <= k < |albums| && albums[k] == a;
      assert r[k] in r;
    }
  }

  function Keys<T>(xs: seq<T>, key: T -> int): set<int>
  {
    set i | 0 <= i < |xs| :: key(xs[i])
  }

  /** The upserts into an empty table. */
  function Rows<T>(xs: seq<T>, key: T -> int): map<int, T>
  {
    Upsert(map[], xs, key)
  }

  /** Upserting is a union in which the upserted rows win. */
  lemma {:induction false} UpsertIsUnion<T>(m: map<int, T>, xs: seq<T>, key: T -> int)
    ensures Upsert(m, xs, key) == m + Rows(xs, key)
  {
    if |xs| > 0 {
      UpsertIsUnion(m, xs[..|xs| - 1], key);
    }
  }

  /** After the upserts the table holds the rows it held and one row per upserted key. */
  lemma {:induction false} UpsertKeys<T>(m: map<int, T>, xs: seq<T>, key: T -> int)
    ensures Upsert(m, xs, key).Keys == m.Keys + Keys(xs, key)
  {
    if |xs| > 0 {
      var front := xs[..|xs| - 1];
      UpsertKeys(m, front, key);
      assert xs == front + [xs[|xs| - 1]];
      assert Keys(xs, key) == Keys(front, key) + {key(xs[|xs| - 1])};
    }
  }

  /** The row of a key holds the last element upserted with that key. */
  lemma {:induction false} UpsertLastWins<T>(m: map<int, T>, xs: seq<T>, key: T -> int, i: nat)
    requires i < |xs|
    requires forall j :: i < j < |xs| ==> key(xs[j]) != key(xs[i])
    ensures key(xs[i]) in Upsert(m, xs, key) && Upsert(m, xs, key)[key(xs[i])] == xs[i]
  {
    if i < |xs| - 1 {
      UpsertLastWins(m, xs[..|xs| - 1], key, i);
    }
  }

  /** A key no upserted element has keeps its row, or its absence. */
  lemma {:induction false} UpsertUntouched<T>(m: map<int, T>, xs: seq<T>, key: T -> int, k: int)
    requires k !in Keys(xs, key)
    ensures k in Upsert(m, xs, key) <==> k in m
    ensures k in m ==> Upsert(m, xs, key)[k] == m[k]
  {
    if |xs| > 0 {
      var front := xs[..|xs| - 1];
      assert Keys(front, key) <= Keys(xs, key) by {
        forall i | 0 <= i < |front| ensures key(front[i]) in Keys(xs, key) {
          assert front[i] == xs[i];
        }
      }
      UpsertUntouched(m, front, key, k);
      assert key(xs[|xs| - 1]) in Keys(xs, key);
    }
  }

  /** Upserting the same elements twice is upserting them once. */
  lemma UpsertIdempotent<T>(m: map<int, T>, xs: seq<T>, key: T -> int)
    ensures Upsert(Upsert(m, xs, key), xs, key) == Upsert(m, xs, key)
  {
    UpsertIsUnion(m, xs, key);
    UpsertIsUnion(Upsert(m, xs, key), xs, key);
    assert (m + Rows(xs, key)) + Rows(xs, key) == m + Rows(xs, key);
  }

  lemma AlbumIdsAreKeys(albums: seq<Album>)
    ensures AlbumIds(albums) == Keys(albums, AlbumKey)
  {
  }

  /** The merge keeps every stored album and adds the feed's. */
  lemma MergedAlbumsKeys(stored: map<int, Album>, albums: seq<Album>)
    ensures MergedAlbums(stored, albums).Keys == stored.Keys + AlbumIds(albums)
  {
    UpsertKeys(stored, albums, AlbumKey);
    AlbumIdsAreKeys(albums);
  }

  /** An album the feed names is stored as the feed's last copy of it. */
  lemma MergedAlbumsFromFeed(stored: map<int, Album>, albums: seq<Album>, i: nat)
    requires i < |albums|
    requires forall j :: i < j < |albums| ==> albums[j].id != albums[i].id
    ensures albums[i].id in MergedAlbums(stored, albums) && MergedAlbums(stored, albums)[albums[i].id] == albums[i]
  {
    UpsertLastWins(stored, albums, AlbumKey, i);
    assert albums[i] in albums;
  }

  /** A stored album the feed does not name stays, no longer top. */
  lemma MergedAlbumsOthers(stored: map<int, Album>, albums: seq<Album>, k: int)
    requires k in stored && k !in AlbumIds(albums)
    ensures k in MergedAlbums(stored, albums) && MergedAlbums(stored, albums)[k] == stored[k].(isItunesTop := false)
  {
    AlbumIdsAreKeys(albums);
    UpsertUntouched(stored, albums, AlbumKey, k);
  }

  /** When the feed's albums are top, exactly the feed's albums are top after the merge. */
  lemma MergedAlbumsTop(stored: map<int, Album>, albums: seq<Album>)
    requires forall a :: a in albums ==> a.isItunesTop
    ensures forall k :: k in MergedAlbums(stored, albums) ==> (MergedAlbums(stored, albums)[k].isItunesTop <==> k in AlbumIds(albums))
  {
    var merged := MergedAlbums(stored, albums);
    MergedAlbumsKeys(stored, albums);
    forall k | k in merged ensures merged[k].isItunesTop <==> k in AlbumIds(albums) {
      if k in AlbumIds(albums) {
        var i := LastWithId(albums, k);
        MergedAlbumsFromFeed(stored, albums, i);
      } else {
        MergedAlbumsOthers(stored, albums, k);
      }
    }
  }

  /** The position of the last album with id `k`. */
  function LastWithId(albums: seq<Album>, k: int): (i: nat)
    requires k in AlbumIds(albums)
    ensures i < |albums| && albums[i].id == k
    ensures forall j :: i < j < |albums| ==> albums[j].id != k
  {
    if albums[|albums| - 1].id == k then |albums| - 1
    else
      assert k in AlbumIds(albums[..|albums| - 1]) by {
        var a :| a in albums && a.id == k;
        var n :| 0 <= n < |albums| && albums[n] == a;
        assert albums[..|albums| - 1][n] == a;
      }
      LastWithId(albums[..|albums| - 1], k)
  }

  /** Merging the same feed twice is merging it once. */
  lemma MergedAlbumsIdempotent(stored: map<int, Album>, albums: seq<Album>)
    ensures MergedAlbums(MergedAlbums(stored, albums), albums) == MergedAlbums(stored, albums)
  {
    var once := MergedAlbums(stored, albums);
    var twice := MergedAlbums(once, albums);
    MergedAlbumsKeys(stored, albums);
    MergedAlbumsKeys(once, albums);
    forall k | k in once ensures twice[k] == once[k] {
      if k in AlbumIds(albums) {
        var i := LastWithId(albums, k);
        MergedAlbumsFromFeed(stored, albums, i);
        MergedAlbumsFromFeed(once, albums, i);
      } else {
        MergedAlbumsOthers(once, albums, k);
        MergedAlbumsOthers(stored, albums, k);
      }
    }
  }

  /** The categories after merging categories with distinct ids (as the download yields
      them): the stored ones and the feed's, each feed category under its id, the others as
      they were; merging them again changes nothing. */
  lemma MergedCategoriesFacts(stored: map<int, Category>, categories: seq<Category>)
    requires StrictlyAscendingIds(categories)
    ensures MergedCategories(stored, categories).Keys == stored.Keys + Ids(categories)
    ensures forall c :: c in categories ==> MergedCategories(stored, categories)[c.id] == c
    ensures forall k :: k in stored && k !in Ids(categories) ==> MergedCategories(stored, categories)[k] == stored[k]
    ensures MergedCategories(MergedCategories(stored, categories), categories) == MergedCategories(stored, categories)
  {
    UpsertKeys(stored, categories, CategoryKey);
    assert Keys(categories, CategoryKey) == Ids(categories);
    forall c | c in categories ensures MergedCategories(stored, categories)[c.id] == c {
      var n :| 0 <= n < |categories| && categories[n] == c;
      UpsertLastWins(stored, categories, CategoryKey, n);
    }
    forall k | k in stored && k !in Ids(categories) ensures MergedCategories(stored, categories)[k] == stored[k] {
      UpsertUntouched(stored, categories, CategoryKey, k);
    }
    UpsertIdempotent(stored, categories, CategoryKey);
  }

  /** What a complete merge of a download leaves in the store: exactly the feed's albums
      are top, each stored with a price of two places, and each downloaded category is
      stored under its id. */
  lemma MergeOfDownload(categories: map<int, Category>, albums: map<int, Album>, document: Json, p: Parsers)
    requires DownloadedTopAlbums(document, p).Ok?
    ensures var (feedAlbums, feedCategories) := DownloadedTopAlbums(document, p).value;
            var merged := MergedAlbums(albums, StoredRows(feedAlbums));
            && merged.Keys == albums.Keys + AlbumIds(StoredRows(feedAlbums))
            && (forall k :: k in merged ==> (merged[k].isItunesTop <==> k in AlbumIds(StoredRows(feedAlbums))))
            && (forall k :: k in AlbumIds(StoredRows(feedAlbums)) ==> merged[k].itunesPriceDollars.exponent == -PricePlaces)
            && (forall c :: c in feedCategories ==>
                  c.id in MergedCategories(categories, feedCategories) && MergedCategories(categories, feedCategories)[c.id] == c)
  {
    var (feedAlbums, feedCategories) := DownloadedTopAlbums(document, p).value;
    var rows := StoredRows(feedAlbums);
    DownloadedAlbumsAreTop(document, p);
    forall a | a in rows ensures a.isItunesTop && a.itunesPriceDollars.exponent == -PricePlaces {
      var i :| 0 <= i < |rows| && rows[i] == a;
      StoredRowsForm(feedAlbums, i);
      assert feedAlbums[i] in feedAlbums;
    }
    var merged := MergedAlbums(albums, rows);
    MergedAlbumsKeys(albums, rows);
    MergedAlbumsTop(albums, rows);
    forall k | k in AlbumIds(rows) ensures merged[k].itunesPriceDollars.exponent == -PricePlaces {
      var i := LastWithId(rows, k);
      MergedAlbumsFromFeed(albums, rows, i);
    }
    var parsed := ParseEntries(FeedEntries(document).value, EntryParser(p)).value;
    DedupAscending(parsed.1);
    MergedCategoriesFacts(categories, feedCategories);
  }

  /** A merge that stops at a price the column cannot hold clears no top flag: every album
      the feed did not reach keeps its row, so albums of an older feed stay top. */
  lemma PartialMergeKeepsOthers(albums: map<int, Album>, feedAlbums: seq<Album>, k: int)
    requires k in albums && k !in AlbumIds(StoredRows(feedAlbums))
    ensures var upserted := Upsert(albums, StoredRows(feedAlbums), AlbumKey);
            k in upserted && upserted[k] == albums[k]
  {
    AlbumIdsAreKeys(StoredRows(feedAlbums));
    UpsertUntouched(albums, StoredRows(feedAlbums), AlbumKey, k);
  }

  /** `top_ids` holds exactly the ids of the feed's albums. */
  lemma IdsOfTopIds(feedAlbums: seq<Album>, topIds: seq<int>)
    requires |topIds| == |feedAlbums| && forall k :: 0 <= k < |feedAlbums| ==> topIds[k] == feedAlbums[k].id
    ensures (set id | id in topIds) == AlbumIds(feedAlbums)
  {
    forall id | id in topIds ensures id in AlbumIds(feedAlbums) {
      var k :| 0 <= k < |topIds| && topIds[k] == id;
      assert feedAlbums[k] in feedAlbums;
    }
    forall id | id in AlbumIds(feedAlbums) ensures id in topIds {
      var a :| a in feedAlbums && a.id == id;
      var k :| 0 <= k < |feedAlbums| && feedAlbums[k] == a;
      assert topIds[k] == id;
    }
  }

  /** The persisted categories and albums, by primary key. */
  class Store {
    var categories: map<int, Category>
    var albums: map<int, Album>

    constructor (categories: map<int, Category>, albums: map<int, Album>)
      ensures this.categories == categories && this.albums == albums
    {
      this.categories := categories;
      this.albums := albums;
    }

    /** `ITunesCategory.objects.update_or_create(...)` for each category in turn. */
    method UpsertCategories(feedCategories: seq<Category>)
      modifies this
      ensures categories == Upsert(old(categories), feedCategories, CategoryKey)
      ensures albums == old(albums)
    {
      var i := 0;
      while i < |feedCategories|
        invariant 0 <= i <= |feedCategories|
        invariant categories == Upsert(old(categories), feedCategories[..i], CategoryKey)
        invariant albums == old(albums)
      {
        assert feedCategories[..i + 1][..i] == feedCategories[..i];
        categories := categories[feedCategories[i].id := feedCategories[i]];
        i := i + 1;
      }
      assert feedCategories[..i] == feedCategories;
    }

    /** `Album.objects.update_or_create(...)` for each album in turn, collecting `top_ids`.
        Saving an album whose price the column cannot hold signals InvalidOperation, which
        nothing catches: the rows saved before it stay, as no transaction encloses the loop. */
    method UpsertAlbums(feedAlbums: seq<Album>) returns (r: Result<seq<int>, Failure>)
      modifies this
      ensures albums == Upsert(old(albums), StoredRows(feedAlbums), AlbumKey)
      ensures categories == old(categories)
      ensures r.Ok? <==> |StoredRows(feedAlbums)| == |feedAlbums|
      ensures r.Err? ==> r.error == Uncaught(InvalidOperation)
      ensures r.Ok? ==> |r.value| == |feedAlbums| &&
                        forall k :: 0 <= k < |feedAlbums| ==> r.value[k] == feedAlbums[k].id
    {
      ghost var rows := StoredRows(feedAlbums);
      var table := albums;
      var topIds := [];
      var j := 0;
      while j < |feedAlbums|
        invariant 0 <= j <= |rows|
        invariant table == Upsert(old(albums), rows[..j], AlbumKey)
        invariant |topIds| == j
        invariant forall k :: 0 <= k < j ==> topIds[k] == feedAlbums[k].id
        invariant unchanged(this)
      {
        var stored := StoredForm(feedAlbums[j]);
        StoredRowsStep(feedAlbums, j);
        if stored.None? {
          assert rows[..j] == rows;
          albums := table;
          return Err(Uncaught(InvalidOperation));
        }
        UpsertStep(old(albums), rows, AlbumKey, j);
        table := table[feedAlbums[j].id := stored.value];
        topIds := topIds + [feedAlbums[j].id];
        j := j + 1;
      }
      assert rows[..j] == rows;
      albums := table;
      return Ok(topIds);
    }

    /** `download_and_merge_top_albums` on an already parsed document. */
    method DownloadAndMergeTopAlbums(document: Json, p: Parsers) returns (r: Result<nat, Failure>)
      modifies this
      ensures DownloadedTopAlbums(document, p).Err? ==>
                r == Err(DownloadedTopAlbums(document, p).error) && unchanged(this)
      ensures DownloadedTopAlbums(document, p).Ok? && |DownloadedTopAlbums(document, p).value.0| == 0 ==>
                r == Err(FeedError(EmptyFeed, None)) && unchanged(this)
      ensures DownloadedTopAlbums(document, p).Ok? && |DownloadedTopAlbums(document, p).value.0| > 0 ==>
                var (feedAlbums, feedCategories) := DownloadedTopAlbums(document, p).value;
                && categories == MergedCategories(old(categories), feedCategories)
                && (|StoredRows(feedAlbums)| == |feedAlbums| ==>
                      r == Ok(|feedAlbums|) && albums == MergedAlbums(old(albums), StoredRows(feedAlbums)))
                && (|StoredRows(feedAlbums)| < |feedAlbums| ==>
                      r == Err(Uncaught(InvalidOperation)) && albums == Upsert(old(albums), StoredRows(feedAlbums), AlbumKey))
    {
      var downloaded := DownloadTopAlbums(document, p);
      if downloaded.Err? {
        return Err(downloaded.error);
      }
      var (feedAlbums, feedCategories) := downloaded.value;
      if |feedAlbums| == 0 {
        return Err(FeedError(EmptyFeed, None));
      }

      UpsertCategories(feedCategories);
      var saved := UpsertAlbums(feedAlbums);
      if saved.Err? {
        return Err(saved.error);
      }
      var topIds := saved.value;
      IdsOfTopIds(feedAlbums, topIds);
      StoredRowsIds(feedAlbums);
      albums := Dethroned(albums, set id | id in topIds);
      return Ok(|topIds|);
    }
  }
}
