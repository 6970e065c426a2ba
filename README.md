# WeeRock top albums, modelled in Dafny

WeeRock serves the iTunes "top albums" chart. It has two halves, and this project models both:

- **The feed side** (`top_albums/feed.py`). It parses each entry of the iTunes RSS JSON feed into an `Album` and an `ITunesCategory`. It collapses the categories to one per id. It then merges the result into the database, so that exactly the albums of the latest feed are marked top.
- **The read side** (`top_albums/album_view.py`). `GET /top-albums/` lists the top albums as JSON. It takes an optional sort order (`sort=category,-price`), Django-style filters on five public feature names (`price__lt=12`, `artist__not=...`) and optional pagination.
- **The records** (`top_albums/models.py`): the two persisted records and `Album.serialize`, the public form an album takes in a response.

Modules:

- `Wrappers`: `Option` and `Result`.
- `Text`: the Python string operations the source relies on. These are `in`, `str.replace(old, new, 1)`, `str.replace(old, "")`, `str.split`, `str.join`, `int()` on a string, `str()` on an integer, and the code-point order of strings.
- `Document`: a parsed JSON value and the Python operations the parser applies to it (`v[key]`, `v[i]`, `len(v)`, `key in v`, `int(v)`). Each operation comes with the exception Python raises when the value has the wrong shape.
- `Models`: the `Date`, `Decimal`, `Category` and `Album` records. It also has `serialize`, with `RE_FIELD_NAME` and the `dir()` listing it filters, `str()` of a date and of a decimal, and the price column `DecimalField(max_digits=6, decimal_places=2)`, which rounds a saved price half-even to cents and refuses one of seven digits or more.
- `Feed`: `_models_from_feed_entry`, `download_top_albums` with the sort-and-`reduce` de-duplication of categories, and `download_and_merge_top_albums`. That last one is a method of the `Store` class, whose two maps are the category and album tables.
- `FeedExamples`: a concrete feed entry with a malformed price. It is the witness of the finding below.
- `Query`: what the database does with the query set the view builds. That is selection by `filter`/`exclude` conditions and `order_by` on field paths by a stable sort.
- `Features`: `_FEATURE_PARAMS_TO_FIELDS`, `_replace_feature_with_field` and the sort keys built from a `sort` parameter.
- `AlbumView`: `_add_ordering_from_sort_param`, `_apply_filters_from_params`, `_make_response_pagination_part` and `get` itself.

State-changing code is written imperatively, and each such method is proved equal to a specification function:

- the image loop (`Feed.FillSlots`);
- the entry loop of the download (`Feed.DownloadTopAlbums`);
- the two `update_or_create` loops of the merge (`Feed.Store.UpsertCategories`, `Feed.Store.UpsertAlbums`);
- the filter loop (`AlbumView.ApplyFiltersFromParams`);
- `get` (`AlbumView.Get`).

The properties are proved as lemmas about those functions.

The source's functions that compute a value are defined by these functions, whose properties the lemmas of the table below state:

- `Models.Serialize` is `Album.serialize`.
- `Features.ReplaceFeatureWithField` is `_replace_feature_with_field`.
- `Feed.EntryModels` is `_models_from_feed_entry` with the intended handler, and `Feed.EntryModelsAsWritten` is the same with the handler as written.
- `Feed.DedupById` is the sort by id and the `reduce` that keeps one category per id.
- `Feed.MergedCategories` and `Feed.MergedAlbums` are the tables the merge leaves: the categories upserted by id, and the albums upserted by id, with the top flag cleared on those not in the feed.
- `Query.Evaluate` is `list(queryset)`: the selected rows in `order_by` order.
- `AlbumView.PlanFor` is the query set `get` builds from the query string, and `AlbumView.Respond` is the response `get` returns.

## Model

| member | source | states |
|---|---|---|
| Text.ReplaceFirstAbsent | top_albums/album_view.py:146 | `replace(k, v, 1)` leaves a string without `k` unchanged |
| Text.ReplaceFirstSame | top_albums/album_view.py:146 | replacing a pattern by itself changes nothing |
| Text.ReplaceFirstSkips | top_albums/album_view.py:146 | a prefix in which the pattern starts nowhere is kept, and the replacement happens in the rest |
| Text.RemoveAllAbsent | top_albums/album_view.py:138 | removing `__not` from a string without it changes nothing |
| Text.RemoveAllSkips | top_albums/album_view.py:138 | a prefix in which the pattern starts nowhere survives the removal unchanged |
| Text.RemoveAllHead | top_albums/album_view.py:138 | a leading occurrence of the pattern is removed |
| Text.SplitJoin | top_albums/album_view.py:128 | joining the pieces of `split(",")` with "," gives back the input, and no piece holds a comma |
| Text.NatToStringValue | top_albums/models.py:69 | the decimal digits `str()` writes denote the number |
| Text.ParseIntOfIntToString | top_albums/album_view.py:114-115 | `int(str(i)) == i` for every integer, negative ones included |
| Text.CompareTextProperties | top_albums/album_view.py:128 | string order is antisymmetric, zero exactly on equal strings, and three-valued |
| Text.CompareTextTransitive | top_albums/album_view.py:128 | string order is transitive |
| Document.Get | top_albums/feed.py:76 | `v[key]` succeeds exactly on a dict holding the key and yields its value; otherwise KeyError on a dict, TypeError on anything else |
| Document.Path | top_albums/feed.py:76-95 | a chain of `[key]` lookups fails only with KeyError or TypeError |
| Document.At | top_albums/feed.py:100-101 | `v[i]` fails only with IndexError, KeyError or TypeError; IndexError exactly when a sized non-dict value is too short |
| Document.Len | top_albums/feed.py:99 | `len(v)` is defined exactly on lists, strings and dicts, and is a TypeError otherwise |
| Document.Has | top_albums/feed.py:88 | `key in v` is defined exactly on lists, strings and dicts, and is a TypeError otherwise |
| Document.IntOf | top_albums/feed.py:78 | `int(s)` of a string succeeds exactly when the text is an integer literal; a failure is a ValueError on a string and a TypeError on another value |
| Document.TextOf | top_albums/feed.py:79-81 | a text column accepts exactly a JSON string |
| Models.NewAlbum | top_albums/models.py:40-58 | a new album holds every given value in its column (id, name, artist, artist url, release date, track count, rights, category, link, price and top flag), and its three image slots are null |
| Models.WithImage | top_albums/feed.py:100-101 | the two `setattr` calls fill slot n with the url and height and change no other field |
| Models.AttributeNames | top_albums/models.py:40-58 | an album's non-callable attributes are its column attributes (the category under `itunes_category` and its id under `itunes_category_id`), `pk` and Django's `_state` |
| Models.CollectedHas | top_albums/models.py:61-66 | every column name, and `pk`, passes `RE_FIELD_NAME` and is collected |
| Models.CollectedOnly | top_albums/models.py:61-66 | nothing else is collected: `_state` fails `RE_FIELD_NAME` |
| Models.CollectedKeys | top_albums/models.py:61-66 | the collected keys are exactly the column names and `pk` |
| Models.SerializeKeys | top_albums/models.py:60-75 | a serialized album has exactly the 19 keys of the response schema: `id`, `pk`, the columns, `itunes_category_id` and `itunes_category_term`, and no `itunes_category` |
| Models.SerializeCategory | top_albums/models.py:71-73 | the category reference is dropped and replaced by the category's id and term |
| Models.SerializeStringified | top_albums/models.py:68-69 | the price and the release date are given as their `str()` text |
| Models.SerializeKeepsAttributes | top_albums/models.py:60-75 | every other key is a collected attribute with its value, and every collected attribute except the category reference is kept |
| Models.IsoDateExample | top_albums/models.py:68-69 | `str()` of 1 March 1973 is "1973-03-01" |
| Models.DecimalStringExamples | top_albums/models.py:68-69 | `str()` of decimals: "19.99", "0.05" and "-12.0" |
| Models.NegativeZeroString | top_albums/models.py:68-69 | `str()` keeps the sign of a negative zero: "-0.00" |
| Models.ScientificStringExamples | top_albums/models.py:68-69 | `str()` switches to exponent notation for a positive exponent or a small number: "1.2E+4", "1E-7" |
| Models.RoundHalfEvenNearest | top_albums/models.py:51 | rounding to an integer quotient moves it by at most one half |
| Models.RoundHalfEvenBelow | top_albums/models.py:51 | below an even bound m, the rounded quotient stays below m exactly when the quotient is below m - 1/2 |
| Models.QuantizedNearest | top_albums/models.py:51 | a saved price is within half a cent of the price, and equal to it when the price has at most two places |
| Models.QuantizedFits | top_albums/models.py:51 | the column holds a price exactly when its magnitude is below 9999.995 |
| Models.QuantizedStable | top_albums/models.py:51 | saving a stored price again leaves it unchanged |
| Models.QuantizedExamples | top_albums/models.py:51 | 9.990 is stored as 9.99 ("9.99"), 0.125 as 0.12 and 0.135 as 0.14 (ties to even), and 10000 does not fit |
| Models.StoredForm | top_albums/models.py:51 | saving an album changes only its price, to two places and at most six digits |
| Models.StoredFormFits | top_albums/models.py:51 | an album can be saved exactly when its price is below 9999.995, and is saved within half a cent of it |
| Feed.DateOf | top_albums/feed.py:89 | the release date parses exactly when it is a string the date parser reads; otherwise TypeError for a non-string, OverflowError when the parser overflows, ValueError when it rejects the text |
| Feed.DecimalOf | top_albums/feed.py:95 | the price fails with InvalidOperation exactly when it is a string that `Decimal` rejects, and with TypeError exactly on a null or an object; an integer or a boolean converts to its exact value |
| Feed.DecimalOfTuple | top_albums/feed.py:95 | a list is read as `(sign, digits, exponent)`; every malformed shape is a ValueError, and the sign and exponent are the list's |
| Feed.DecimalOfAsTuple | top_albums/feed.py:95 | `Decimal(d.as_tuple()) == d` for every finite decimal |
| Feed.DecimalOfTupleExamples | top_albums/feed.py:95 | `[0, [1, 9, 9, 9], -2]` is 19.99; a sign of 2, a digit 10 or a missing exponent is a ValueError; `-5` is -5 |
| Feed.CategoryOf | top_albums/feed.py:76-82 | building the category fails only with KeyError, TypeError or ValueError |
| Feed.ArtistUrlOf | top_albums/feed.py:88 | the artist url fails only with KeyError, TypeError or ValueError |
| Feed.AlbumOf | top_albums/feed.py:84-96 | a built album carries the category and top flag it was given, and its id, name, artist, artist url, track count, rights and link are the entry's values at the cited paths |
| Feed.ImageOf | top_albums/feed.py:100-101 | reading one image fails only with the four access errors, and IndexError only when the list is too short |
| Feed.WithImagesFailureStays | top_albums/feed.py:99-101 | once an image cannot be read, the loop's outcome is that failure |
| Feed.FillSlots | top_albums/feed.py:99-101 | the image loop yields what copying the first `count` images gives |
| Feed.CopyImages | top_albums/feed.py:98-101 | reading `im:image`, its length and then the images yields the entry's images copied into the album |
| Feed.ModelsFromFeedEntry | top_albums/feed.py:74-105 | the entry parser returns the parsed pair or the handled failure |
| Feed.WithImagesSlots | top_albums/feed.py:99-101 | slots 1..count hold the first count images in order; later slots and every other field are unchanged |
| Feed.WithImagesSlot | top_albums/feed.py:99-101 | the same fact for one slot |
| Feed.WithImagesFrame | top_albums/feed.py:99-101 | copying images changes only image fields |
| Feed.WithImagesInRange | top_albums/feed.py:99 | with `min(3, len)` iterations the loop never indexes past the list |
| Feed.EntryModelsFields | top_albums/feed.py:76-96 | a parsed entry yields the category of the entry and an album whose fields are the entry's values |
| Feed.ArtistUrlNull | top_albums/feed.py:88 | the artist url is null exactly when `im:artist` has no `attributes` |
| Feed.EntryModelsImages | top_albums/feed.py:98-101 | image slot n is set exactly when the list has at least n images, and then it holds image n-1's url and height |
| Feed.EntryFieldsNoIndexError | top_albums/feed.py:98-101 | parsing an entry never raises IndexError |
| Feed.EntryModelsEscapes | top_albums/feed.py:104-105 | with the intended handler, a failure is a structure-change FeedError carrying the entry, or an uncaught TypeError or OverflowError |
| Feed.OverflowErrorOrigin | top_albums/feed.py:89 | OverflowError comes only from a release date the date parser overflows on |
| Feed.AlbumOverflowError | top_albums/feed.py:84-96 | of the album's columns only the release date can raise OverflowError |
| Feed.OverflowEscapes | top_albums/feed.py:104-105 | neither handler catches OverflowError: it escapes `_models_from_feed_entry` unchanged |
| Feed.InvalidOperationOrigin | top_albums/feed.py:95 | InvalidOperation comes only from a price string that `Decimal` rejects |
| Feed.RejectedPriceEscapesAsWritten | top_albums/feed.py:104-105 | on such a price the handler as written lets InvalidOperation escape, while the intended one reports a FeedError |
| Feed.HandlersAgreeOtherwise | top_albums/feed.py:104-105 | on every other entry the two handlers agree |
| Feed.ParseEntriesFailureStays | top_albums/feed.py:39-42 | after the first failing entry the download's outcome is that failure |
| Feed.DownloadTopAlbums | top_albums/feed.py:33-51 | the entry loop and the de-duplication yield the download function's result |
| Feed.ParseEntriesSucceeds | top_albums/feed.py:39-42 | the entries parse exactly when each of them parses |
| Feed.ParseEntriesOk | top_albums/feed.py:39-42 | the album and category lists are as long as the entries, and pair i is what entry i parses to |
| Feed.ParseEntriesFirstFailure | top_albums/feed.py:39-42 | a failed download reports the failure of the first entry that fails |
| Feed.DownloadedAlbumsAreTop | top_albums/feed.py:40 | every downloaded album is marked top |
| Feed.DownloadedFromEntries | top_albums/feed.py:33-51 | album i is entry i's album, and the categories are the de-duplicated categories of the entries |
| Feed.WithId | top_albums/feed.py:46-49 | the categories with a given id are non-empty iff that id occurs |
| Feed.InsertByIdPermutes | top_albums/feed.py:46 | inserting into the sorted list adds exactly that category |
| Feed.InsertByIdSorted | top_albums/feed.py:46 | inserting keeps the list sorted by id |
| Feed.InsertByIdMembers | top_albums/feed.py:46 | the members after insertion are the old ones and the new one |
| Feed.InsertByIdWithId | top_albums/feed.py:46 | the inserted category goes before the others with its id |
| Feed.InsertByIdWithIdStep | top_albums/feed.py:46 | inserting past a smaller head adds the category to the tail's categories with its id |
| Feed.SortByIdFacts | top_albums/feed.py:46 | `sorted(key=id)` is sorted, a permutation, and stable: categories with one id keep their feed order |
| Feed.CollapseRunsAccumulates | top_albums/feed.py:47-49 | the fold appends to whatever the accumulator holds |
| Feed.CollapseRunsIds | top_albums/feed.py:47-49 | on sorted input the fold keeps every id except the starting last id when the first run has it |
| Feed.CollapseRunsAscending | top_albums/feed.py:47-49 | on sorted input the fold yields strictly ascending ids |
| Feed.CollapseRunsFirst | top_albums/feed.py:47-49 | on sorted input each kept category is the first one with its id |
| Feed.DedupAscending | top_albums/feed.py:44-49 | the de-duplicated categories have strictly ascending ids, one per id |
| Feed.DedupIds | top_albums/feed.py:44-49 | every id survives except 0 when no id is below it, because the fold starts with 0 as the last id |
| Feed.DedupKeepsFirst | top_albums/feed.py:44-49 | the copy kept of each id is its first occurrence in feed order |
| Feed.UpsertIsUnion | top_albums/feed.py:59-66 | the `update_or_create` loop overrides the table with the rows' last version by key |
| Feed.UpsertKeys | top_albums/feed.py:59-66 | the keys afterwards are the old ones and the rows' |
| Feed.UpsertLastWins | top_albums/feed.py:59-66 | the last row with a key is what is stored under it |
| Feed.UpsertUntouched | top_albums/feed.py:59-66 | keys no row has are as they were |
| Feed.UpsertIdempotent | top_albums/feed.py:59-66 | repeating the loop changes nothing |
| Feed.AlbumIdsAreKeys | top_albums/feed.py:62-67 | the collected top ids are the albums' keys |
| Feed.MergedAlbumsKeys | top_albums/feed.py:63-69 | after the merge the album table holds the old ids and the feed's |
| Feed.MergedAlbumsFromFeed | top_albums/feed.py:63-66 | the last feed album with an id is stored under it |
| Feed.MergedAlbumsOthers | top_albums/feed.py:69 | an album not in the feed is kept with its top flag cleared |
| Feed.MergedAlbumsTop | top_albums/feed.py:63-69 | after the merge an album is top exactly when the feed has its id |
| Feed.MergedAlbumsIdempotent | top_albums/feed.py:53-71 | merging the same feed twice equals merging it once |
| Feed.MergedCategoriesFacts | top_albums/feed.py:59-60 | the category table gains the feed's ids, each feed category is stored under its id, others stay, and merging again changes nothing |
| Feed.StoredRows | top_albums/feed.py:63-66 | the saved rows are at most the feed's albums, and when they stop short the next album's price does not fit the column |
| Feed.StoredRowsAt | top_albums/feed.py:63-66 | saved row i is album i in its stored form |
| Feed.StoredRowsForm | top_albums/feed.py:63-66 | a saved row keeps the album's id and top flag and has a two-place price of at most six digits |
| Feed.StoredRowsStep | top_albums/feed.py:63-66 | saving album j after the first j fails exactly at the end of the saved rows, and otherwise writes the next one |
| Feed.StoredRowsComplete | top_albums/feed.py:63-66 | every album is saved exactly when every price is below 9999.995 |
| Feed.StoredRowsIds | top_albums/feed.py:62-67 | when every album is saved, the saved rows carry exactly the feed's ids |
| Feed.MergeOfDownload | top_albums/feed.py:53-69 | after merging a download's saved rows exactly their albums are top, each with a two-place price, and each downloaded category is stored |
| Feed.PartialMergeKeepsOthers | top_albums/feed.py:62-69 | when the album loop stops at a price that does not fit, every album it did not reach keeps its row, top flag included |
| Feed.IdsOfTopIds | top_albums/feed.py:62-67 | `top_ids` is exactly the set of the feed's album ids |
| Feed.Store.UpsertCategories | top_albums/feed.py:59-60 | the category loop updates the category table by id and leaves the albums |
| Feed.Store.UpsertAlbums | top_albums/feed.py:62-67 | the album loop saves the stored rows by id and leaves the categories; it collects the ids in order when every price fits, and stops with an uncaught InvalidOperation at the first that does not, keeping the rows saved before it |
| Feed.Store.DownloadAndMergeTopAlbums | top_albums/feed.py:53-71 | a failed download or an empty feed leaves the store unchanged; otherwise the categories are merged, and either every album is saved and the feed's albums alone are top, or the loop stops with InvalidOperation after saving a prefix and clears no top flag |
| FeedExamples.RejectedPriceExample | top_albums/feed.py:95-105 | an entry whose price text `Decimal` rejects fails with InvalidOperation, which escapes the handler as written |
| Query.Select | top_albums/album_view.py:100-105 | the selection holds each row that is top and satisfies every filter and no exclude as often as the table holds it, and no other row |
| Query.CompareProperties | top_albums/album_view.py:127-128 | ORDER BY over the mapped fields is an antisymmetric, transitive preorder |
| Query.InsertPermutes | top_albums/album_view.py:127-128 | inserting into the ordered list adds exactly that row |
| Query.InsertOrdered | top_albums/album_view.py:127-128 | inserting keeps the list ordered |
| Query.SortFacts | top_albums/album_view.py:127-128 | the ordered results are ordered and a permutation of the selection |
| Query.SortOrdered | top_albums/album_view.py:127-128 | the sort yields its rows in ORDER BY order |
| Query.SortPermutes | top_albums/album_view.py:127-128 | the sort yields the same rows, each as often |
| Query.EvaluateFacts | top_albums/album_view.py:108 | `list(queryset)` is ordered, holds exactly the selected rows each once per table row, and is no longer than the table |
| Features.ReplaceEachConcat | top_albums/album_view.py:145-149 | the fold over the feature table splits at any point |
| Features.ReplaceEachUnaffected | top_albums/album_view.py:145-149 | features that start nowhere in a token leave it unchanged |
| Features.ReplaceEachHit | top_albums/album_view.py:145-149 | the fold rewrites exactly the one feature the token starts with |
| Features.FeatureAvoidsEarlier | top_albums/album_view.py:14-20 | an earlier feature name starts nowhere in a later one |
| Features.FieldAvoidsLater | top_albums/album_view.py:14-20 | a later feature name starts nowhere in an earlier field path |
| Features.FeatureToField | top_albums/album_view.py:144-149 | an optional "-", a feature name and a suffix without feature names become "-", the field path and the same suffix |
| Features.BareFeatureToField | top_albums/album_view.py:14-20 | each feature name maps to its field path |
| Features.NoFeatureUnchanged | top_albums/album_view.py:144-149 | a token without a feature name is unchanged |
| Features.SortKeys | top_albums/album_view.py:128 | one ordering key per comma-separated clause, each clause rewritten |
| Features.SortKeysAreClauses | top_albums/album_view.py:128 | the clauses rejoin to the parameter and hold no comma |
| Features.SortKeysExample | top_albums/album_view.py:33-36 | "category,-price" orders by category term ascending, then price descending |
| Features.CategoryNotExample | top_albums/album_view.py:135-138 | "category__not" maps to a path holding `__not`, which removing `__not` turns into the category term path |
| AlbumView.AddOrderingFromSortParam | top_albums/album_view.py:127-128 | the ordering becomes the rewritten sort clauses; the selection is untouched |
| AlbumView.ApplyFiltersFromParams | top_albums/album_view.py:130-142 | the loop appends, in parameter order, the filters and the excludes of all parameters |
| AlbumView.FeatureParamsContribute | top_albums/album_view.py:133-140 | each feature parameter contributes its condition: negated ones to the excludes with `__not` removed, others to the filters |
| AlbumView.ConditionsFromFeatureParams | top_albums/album_view.py:133-140 | every condition comes from some feature parameter |
| AlbumView.ControlParamsIgnored | top_albums/album_view.py:133-134 | `page`, `page_size` and `sort` are not feature parameters |
| AlbumView.ExcludeExample | top_albums/album_view.py:137-138 | `category__not=v` adds no filter and excludes category term v |
| AlbumView.Param | top_albums/album_view.py:90-92 | `request.GET.get(k)` has a value exactly when the key occurs, and that value is the one given with the last occurrence of the key |
| AlbumView.KeysOf | top_albums/album_view.py:104 | the keys are each key of the query string once |
| AlbumView.ParamDict | top_albums/album_view.py:104 | the parameter dictionary maps each key to `request.GET.get(key)` |
| AlbumView.Slice | top_albums/album_view.py:120 | Python slice `[start:stop]`: its length and its elements |
| AlbumView.PageOf | top_albums/album_view.py:116-120 | the page holds exactly `page_size` albums, or the ones left from `(page-1)*page_size` on when fewer remain, or none past the end; they are the results from `(page-1)*page_size` on |
| AlbumView.PaginationPart | top_albums/album_view.py:151-158 | the page size; a previous page exactly when page > 1; a next page exactly when more results lie beyond this page |
| AlbumView.MakeResponsePaginationPart | top_albums/album_view.py:151-158 | the method builds that pagination part |
| AlbumView.NextPageLink | top_albums/album_view.py:156-157 | for a positive page and size, the next link is present exactly when the next page is non-empty |
| AlbumView.PreviousPageLink | top_albums/album_view.py:153-155 | when page ≥ 2 is non-empty, the previous link is present and that page is full |
| AlbumView.ListingOf | top_albums/album_view.py:109-112 | the listing has one entry per album and the given pagination |
| AlbumView.ListingContents | top_albums/album_view.py:110 | entry i is album i serialized |
| AlbumView.Get | top_albums/album_view.py:90-125 | `get` answers what the response function specifies |
| AlbumView.BadRequestExactly | top_albums/album_view.py:94-98 | a 400 with its message exactly when `page` is given without `page_size` |
| AlbumView.ResultsAreTop | top_albums/album_view.py:100-105 | the results are exactly the top rows the filters keep, each as often as in the table, in sort order |
| AlbumView.UnpaginatedListsAll | top_albums/album_view.py:107-112 | without `page_size` all results are listed, and `page_size` is their count |
| AlbumView.PaginatedListsWindow | top_albums/album_view.py:114-125 | with integer page numbers and a valid window, the listing is that page with its pagination part |
| AlbumView.PageDefaultsToFirst | top_albums/album_view.py:114 | without `page` the first page is served, with no previous link |
| AlbumView.ServerErrorExactly | top_albums/album_view.py:114-120 | the pagination step of a paginated request fails exactly when a page number or size is not an integer or the window has a negative bound; the query set's own failures are outside this step (see Left out) |

## Left out

- Reading the feed is left out: the HTTPS download, `json.loads` and the injected downloader. Both feed operations take the parsed document.
- `dateutil`'s date parser and `decimal.Decimal`'s string parser are parameters (`Feed.Parsers`). Their formats are not modelled. The date parser reports a parse error and an overflow apart, because they raise different exceptions.
- JSON numbers are integers only. A float in the feed is not modelled.
- `int()` is modelled on `[+-]?[0-9]+`. Surrounding whitespace, underscores and non-ASCII digits are not accepted.
- Document.TextOf: a text column refuses a JSON value that is not a string, with ValueError. Django's text fields would store such a value as its `str()` text. This is narrower than the source.
- Feed.DecimalOf: decimals are finite. A string the decimal parser reads as `Infinity` or `NaN`, and a `(sign, digits, exponent)` list whose exponent is 'F', 'n' or 'N', denote values the model cannot hold; the model rejects such a list with ValueError. Exponents beyond the decimal module's own limits are not modelled either.
- Feed.Store.UpsertAlbums: the price is saved as Django prepares it for the column: rounded half-even to cents, with InvalidOperation at seven digits or more. The database's own storage and its conversion back on reading are not modelled; a row reads back as it was prepared.
- `RE_FIELD_NAME` is modelled on ASCII names. Python's `\d` also matches other Unicode digits. `$` also matches before a final newline, which no attribute name contains.
- The album row holds its category as a value, not as a foreign key resolved through the category table.
- The database's lookup operators (`__lt`, `__contains`, …) are a parameter of the query evaluator (`Query.Matcher`).
- Ordering is modelled on the five mapped field paths. Any other path compares equal. Ties keep table order.
- AlbumView.Get: a `sort` clause or a filter key that names no field (`sort=`, `sort=foo`, `sort=category,`, `pricey=1`) makes Django raise FieldError when the query runs, a 500 in the source. The model answers a listing instead: it orders by such a path as if all rows compared equal, and hands such a filter to the lookup parameter (`Query.Matcher`). Likewise, a filter value the field cannot convert (`price=abc` on the decimal price, `release_date=soon` on the date, an empty `price__lt=`) makes Django raise ValidationError while building the filter, also a 500 in the source; `Query.Matcher` is total, so the model lists whatever it decides for such a value.
- The previous and next page links are modelled as page numbers. The absolute URI text is not modelled.
- `page` or `page_size` values that are not integers are modelled, not excluded by a precondition. So is a window with a negative bound, which Django's query set refuses. Both give a 500 (`AlbumView.Response.ServerError`).
- A previous page link appears whenever page > 1, even when that page is empty, as the code does. The view's docstring says the links appear only for non-empty pages.
- Feed.ModelsFromFeedEntry: it uses the intended handler (`Feed.Caught`), which also catches InvalidOperation. The handler as written is `Feed.EntryModelsAsWritten`; see Findings.
- Feed.DownloadTopAlbums: it is built on the intended handler, so a price string that `Decimal` rejects gives a FeedError here. In the source the InvalidOperation escapes the download.
- Feed.Store.DownloadAndMergeTopAlbums: the same holds. In both the source and the model the failure comes before anything is saved, so the store is unchanged either way.
- Transactions, concurrency and the database backend are left out. So are authentication (`auth.py`), the health view, the management commands, the API docs, the test factories and the other HTTP methods. None of these are part of this model.

## Findings

| source | as written | input that shows it | evidently intended | confidence | as-written member | corrected member |
|---|---|---|---|---|---|---|
| top_albums/feed.py:104-105 | the handler catches KeyError and ValueError only, but `decimal.Decimal` signals a malformed price string with InvalidOperation, an ArithmeticError | an entry whose `im:price.attributes.amount` is a string `Decimal` rejects, such as "N/A" | the malformed price is reported as a feed structure change (FeedError carrying the entry), like every other malformed field | not executed | Feed.EntryModelsAsWritten, FeedExamples.RejectedPriceExample | Feed.EntryModels, Feed.EntryModelsEscapes |
