# Leaflet scraper — a Dafny model

The modelled program is a small Python scraper for the German leaflet portal
prospektmaschine.de (`main.py`). It fetches the retailer directory page. For every
retailer link, in page order, it fetches that retailer's listing page and turns
each leaflet fragment into a `Leaflet` record. Each record has a fixed title, the
thumbnail URL, the shop name, a validity range parsed out of free text by a
regular expression, and a capture timestamp. The records go into an
insertion-ordered `LeafletCollection` keyed by shop name, which is then serialised
to a dictionary of lists of dictionaries for the JSON writer.

The model has four modules (plus `Wrappers`, holding `Option` and `Result`):

- `DateRange` (date_range.dfy) models `LeafletScraper.__parser_date`.
  - `IsHit` is the declarative reading of the regular expression
    `(\d{2}\.\d{2}\.?(?:\d{4})?)\s*-\s*(\d{2}\.\d{2}\.\d{4})`.
  - `ParseDateRange` is the leftmost search as a function. It returns the groups
    of the first match, or two empty strings.
  - `ScanDateRange` is the position-by-position scanner, proved equal to it.
  - At any position at most one split of the expression matches
    (`HitAtComplete`). So the backtracking order of the optional parts cannot
    change the result.
- `Leaflets` (leaflets.dfy) models the `Leaflet` class.
  - Its six mutable fields, the constructor, the getters and the setters.
  - `to_dict`, which returns an insertion-ordered dictionary (a sequence of
    name/value fields), and a reader that recovers the record from that
    dictionary.
- `Collection` (collection.dfy) models `LeafletCollection`.
  - An insertion-ordered `dict[str, list]` as a key order plus a map (`OrderedLists`).
  - `append` as the function `Extend` and the in-place method `Append`.
  - `__serialize` as the nested loop `Serialize`.
- `Scraper` (scraper.dfy) models `LeafletScraper.scrape_all_leaflets`,
  `__scrape_leaflets` and `__extract_leaflet_data`.
  - The specification functions `ScrapeAll`, `Fold`, `ScrapeShop`, `ExtractList`
    and `RecordOf`, with the properties of a scrape proved about them.
  - The class `LeafletScraper`, whose loops are proved against those functions.

The network is a function from URL to an optional page: `None` when the request
raises. A page is reduced to what the CSS selectors pick out of it:
- retailer links, each with its text and optional `href`;
- leaflet fragments, each with an optional image (with an optional `src`) and
  an optional date text.

The wall clock is a function from (link index, fragment index) to a timestamp
string.

The scraper functions take the date parser as a parameter. The scraper class
always passes `ParseDateRange`, as `__extract_leaflet_data` does.

Three places where the model follows the code of main.py rather than the
behaviour one might expect of it:
- A non-success HTTP status does not abort a scrape. main.py never calls
  `raise_for_status`, so an error page is parsed like any other page, usually
  with no links or fragments. Only a request that raises aborts.
- A link without `href` gives the URL `https://www.prospektmaschine.de` followed
  by the text `None`, because the f-string renders the missing value that way.
- The `Leaflet` constructor of main.py takes five arguments and reads the clock
  itself. The model's constructor takes the timestamp as a sixth argument.

## Model

| member | source | states |
|---|---|---|
| `DateRange.IsHit` | main.py:167 | defines a match of the expression at a position: a first group of 5, 6, 9 or 10 characters (`\d{2}\.\d{2}`, an optional dot, an optional four-digit year), whitespace, a hyphen, whitespace, and a `DD.DD.YYYY` second group |
| `DateRange.IsFirstHit` | main.py:168 | defines the match `pattern.search` reports: a match such that no other match starts earlier in the text |
| `DateRange.StartText` | main.py:167 | the first group of a match is a whole first-group token (`\d{2}\.\d{2}\.?(?:\d{4})?`), 5 to 10 characters long |
| `DateRange.EndText` | main.py:167 | the second group of a match is a whole `DD.DD.YYYY` token of exactly 10 characters |
| `DateRange.MatchIsContiguous` | main.py:167-168 | a match is one contiguous piece of the text: first group, whitespace, hyphen, whitespace, second group |
| `DateRange.StartLenAt` | main.py:167 | the greedy length of the first group at a position is a valid first-group length there |
| `DateRange.SpaceRun` | main.py:167 | a greedy `\s*` consumes only whitespace and stops at the end or before a non-whitespace character |
| `DateRange.StartLenExact` | main.py:167 | a first group followed by whitespace or the hyphen is exactly the one the greedy quantifiers take |
| `DateRange.SpaceRunExact` | main.py:167 | a whitespace run ending before a non-whitespace character is the longest run there |
| `DateRange.HitAt` | main.py:167-168 | the match computed at a position starts there and satisfies the expression |
| `DateRange.HitAtComplete` | main.py:167-168 | every match at a position is the one `HitAt` computes, so at most one split matches at any position |
| `DateRange.HitAtOfRuns` | main.py:167-168 | the match at a position in terms of where the first group, the hyphen and the second group fall |
| `DateRange.NoHitAt` | main.py:167-168 | where `HitAt` finds nothing, no match starts |
| `DateRange.FirstHitFrom` | main.py:168 | the search from a position finds a match at or after it, and no match at or after it starts earlier than the one found |
| `DateRange.ParseDateRange` | main.py:166-175 | both results are empty or both non-empty; they are empty exactly when nothing matches; otherwise they are the groups of the leftmost match, a valid start token and a 10-character end token |
| `DateRange.ParseDateRangeOfFirstHit` | main.py:168-175 | the result is decided by the leftmost match alone |
| `DateRange.HitExtend` | main.py:167-168 | text after a match does not change the match or its groups |
| `DateRange.HitShiftTexts` | main.py:167-168 | text before a match moves the match along without changing its groups |
| `DateRange.NoHitInProse` | main.py:167-168 | no match starts inside text without digits |
| `DateRange.HitOfParts` | main.py:167 | a start token, a hyphen between blanks and an end token written one after another match with exactly those groups |
| `DateRange.ParseDateRangeOfParts` | main.py:166-175 | digit-free text, a start token, a hyphen between blanks, an end token, then anything: the parser returns the two tokens verbatim |
| `DateRange.ExampleStartWithoutYear` | main.py:166-175 | `Angebote 01.03 - 07.03.2024` gives `01.03` and `07.03.2024` |
| `DateRange.ExampleTrailingDigit` | main.py:167 | the second group is not anchored on the right: `07.03.20245` yields `07.03.2024` |
| `DateRange.ExampleBareDot` | main.py:167 | the optional dot may be taken without a year: the first group `01.03.` ends in a dot |
| `DateRange.ExampleTwoRanges` | main.py:168 | of two ranges in the text only the first is returned |
| `DateRange.ExampleNoRange` | main.py:170-171 | text without a range gives two empty strings, not a failure |
| `DateRange.SkipSpaces` | main.py:167 | the scanner's `\s*` stops after the longest whitespace run |
| `DateRange.MatchStartToken` | main.py:167 | the scanner consumes the first group exactly as far as the greedy quantifiers do |
| `DateRange.MatchAt` | main.py:167-168 | the scanner's attempt at one position gives exactly the match `HitAt` defines |
| `DateRange.ScanDateRange` | main.py:166-175 | the position-by-position scan returns exactly `ParseDateRange` of its input |
| `Leaflets.FieldNamesDistinct` | main.py:57-65 | the six keys of a serialised leaflet are pairwise distinct |
| `Leaflets.AsDict` | main.py:57-65 | a serialised record has exactly the keys `title`, `thumbnail`, `shop_name`, `valid_from`, `valid_to`, `parsed_time` in that order, each mapped to its own field |
| `Leaflets.DictRoundTrip` | main.py:57-65 | reading a record back from its dictionary gives the same record |
| `Leaflets.AsDictInjective` | main.py:57-65 | different records have different dictionaries |
| `Leaflets.Leaflet.constructor` | main.py:42-55 | the new leaflet holds its arguments verbatim, with the clock reading as `parsed_time` |
| `Leaflets.Leaflet.ToDict` | main.py:57-65 | `to_dict` is the dictionary of the leaflet's current content, and that content can be read back from it |
| `Leaflets.Leaflet.GetTitle` | main.py:67-68 | returns the stored title |
| `Leaflets.Leaflet.GetThumbnail` | main.py:70-71 | returns the stored thumbnail |
| `Leaflets.Leaflet.GetShopName` | main.py:73-74 | returns the stored shop name |
| `Leaflets.Leaflet.GetValidFrom` | main.py:76-77 | returns the stored start date |
| `Leaflets.Leaflet.GetValidTo` | main.py:79-80 | returns the stored end date |
| `Leaflets.Leaflet.GetParsedTime` | main.py:82-83 | returns the stored timestamp |
| `Leaflets.Leaflet.SetTitle` | main.py:85-86 | changes the title and no other field |
| `Leaflets.Leaflet.SetThumbnail` | main.py:88-89 | changes the thumbnail and no other field |
| `Leaflets.Leaflet.SetShopName` | main.py:91-92 | changes the shop name and no other field |
| `Leaflets.Leaflet.SetValidFrom` | main.py:94-95 | changes the start date and no other field |
| `Leaflets.Leaflet.SetValidTo` | main.py:97-98 | changes the end date and no other field |
| `Collection.Empty` | main.py:14-15 | a new collection has no keys |
| `Collection.Extend` | main.py:18-22 | `append` keeps each key listed once. An absent key is added last with exactly `data`, even when `data` is empty. A present key keeps its place, its old list stays as a prefix and `data` follows. No other key's list changes |
| `Collection.ExtendTwice` | main.py:18-22 | appending `a` then `b` to one key equals appending `a + b` |
| `Collection.ExtendNothing` | main.py:18-22 | appending an empty list to an existing key changes nothing |
| `Collection.SnapshotExtend` | main.py:18-22 | taking the records of the leaflets commutes with `append` |
| `Collection.LeafletCollection.constructor` | main.py:14-16 | a new collection object is empty |
| `Collection.LeafletCollection.Append` | main.py:18-22 | the object's dictionary becomes `Extend` of the old one, it stays well formed, and no leaflet's content changes |
| `Collection.LeafletCollection.Serialize` | main.py:27-36 | the result has the same keys in the same insertion order. Each key's list has the same length, and element `i` is `to_dict` of the `i`-th leaflet. The collection is only read |
| `Scraper.TrailingSpaces` | main.py:131 | counts exactly the trailing whitespace of a text |
| `Scraper.Strip` | main.py:131 | `str.strip`: the result is empty exactly when the text is all whitespace. It neither begins nor ends with whitespace and is the text minus whitespace at both ends |
| `Scraper.StripIdempotent` | main.py:131 | stripping a stripped name changes nothing |
| `Scraper.LinkUrl` | main.py:132 | the listing URL is the base URL followed by the link's `href`, or by the text `None` when the link has no `href` |
| `Scraper.Defect` | main.py:154-155 | what `__extract_leaflet_data` raises, in the order it looks: no image element, then no `src`, then no date element; nothing exactly when all three are present |
| `Scraper.RecordOf` | main.py:153-164 | the record of a complete fragment has the title `Prospekt`, the link's shop name, the image `src` as thumbnail, the parsed date range and the clock reading |
| `Scraper.ExtractList` | main.py:145-151 | defines the loop over a listing page's fragments: records in document order, the first incomplete fragment aborting the loop with its defect |
| `Scraper.ExtractListSpec` | main.py:145-151 | extracting a listing fails exactly when some fragment is incomplete. Otherwise there is one record per fragment, in document order, fragment `j` giving `RecordOf` it |
| `Scraper.ExtractListFirstDefect` | main.py:147-155 | a failed extraction reports the defect of the first incomplete fragment |
| `Scraper.ExtractListStep` | main.py:147-149 | after a complete prefix, an incomplete fragment aborts the extraction with its defect, and a complete one adds its record at the end |
| `Scraper.ScrapeShop` | main.py:140-151 | defines `__scrape_leaflets`: a fetch that raises aborts with `FetchFailed`; otherwise the page's fragments are extracted |
| `Scraper.Outcome` | main.py:131-134 | defines one iteration of the link loop: the link text is stripped, the URL is built from the `href`, and `__scrape_leaflets` runs with clock index `i` |
| `Scraper.ShopNames` | main.py:130-131 | the shop name of each link, in link order |
| `Scraper.Outcomes` | main.py:130-134 | what each link yields, in link order, link `i` stamped with clock readings for index `i` |
| `Scraper.Fold` | main.py:128-138 | defines the loop of `scrape_all_leaflets`: starting from an empty collection, each link's records are appended under its name in link order, and the first failing link aborts the scrape |
| `Scraper.ScrapeAll` | main.py:123-138 | defines `scrape_all_leaflets`: a directory fetch that raises aborts with `FetchFailed`; otherwise the links are folded |
| `Scraper.FoldStep` | main.py:130-136 | after a successful prefix of links, a failing link aborts the whole scrape with its error, and a successful one appends its records under its name |
| `Scraper.Dedup` | main.py:19-20 | the names, each once: no name repeats, and the result holds exactly the names of the input |
| `Scraper.DedupOrder` | main.py:19-20 | `Dedup` keeps the order of first occurrence: of two names in its result, the earlier one occurs in the input before every occurrence of the later one. This is the key order an insertion-ordered dict ends with |
| `Scraper.FoldOk` | main.py:130-138 | the scrape succeeds exactly when every link succeeds |
| `Scraper.FoldFirstFailure` | main.py:130-138 | a failed scrape reports the failure of the first failing link |
| `Scraper.FoldKeys` | main.py:128-138 | on success the collection is well formed, and its keys are `Dedup` of the shop names, which `DedupOrder` shows is their order of first appearance |
| `Scraper.GatheredAbsent` | main.py:130-136 | a name no link carries gathers no records |
| `Scraper.FoldGathers` | main.py:128-138 | on success every link's name is a key, also for a shop with no leaflets. Each key's list is the records of the links with that name, link after link |
| `Scraper.FoldFiles` | main.py:130-136 | a relation between each link's records and its name holds between every filed record and its key |
| `Scraper.OutcomeFields` | main.py:140-164 | every record a link yields has the title `Prospekt` and that link's shop name |
| `Scraper.RecordFields` | main.py:123-164 | every record of a successful scrape has the title `Prospekt` and is filed under its own shop name |
| `Scraper.IncompleteFragmentAborts` | main.py:147-155 | a fragment without image, `src` or date text on any fetched listing page aborts the whole scrape |
| `Scraper.ScenarioNames` | main.py:131 | stripping ` ShopA\n` gives `ShopA`; `ShopB` is left as it is |
| `Scraper.ScenarioFirstShop` | main.py:140-164 | a listing page with one complete fragment yields exactly one record with the expected fields |
| `Scraper.ScenarioShopNames` | main.py:130-131 | the two links of the example are named `ShopA` and `ShopB`, in link order |
| `Scraper.ScenarioOutcomes` | main.py:140-164 | in the two-shop example the first link yields its one record and the second link yields none |
| `Scraper.ScenarioFold` | main.py:128-138 | one record for the first link and none for the second give both keys in link order, the empty one too |
| `Scraper.ScenarioCollection` | main.py:18-22 | appending one record under `ShopA` and then nothing under `ShopB` gives both keys in that order |
| `Scraper.ScrapeAllScenario` | main.py:123-164 | a directory with two shops, one leaflet for the first and none for the second, gives both keys in link order, the empty one too, with the expected record |
| `Scraper.ScrapeAllScenarioParsed` | main.py:123-175 | the same scrape with the scraper's own date parser on the text `Angebote 01.03 - 07.03.2024` |
| `Scraper.LeafletScraper.constructor` | main.py:119-121 | the scraper keeps its HTTP client |
| `Scraper.LeafletScraper.ExtractLeafletData` | main.py:153-164 | a fragment without image, `src` or date text fails with that defect. Otherwise the result is a new leaflet holding `RecordOf` the fragment, with `ParseDateRange` as the date parser |
| `Scraper.LeafletScraper.ScrapeLeaflets` | main.py:140-151 | fails exactly when `ScrapeShop` fails, with the same error. Otherwise it returns new leaflets whose contents are `ScrapeShop`'s records, in order |
| `Scraper.LeafletScraper.ScrapeAllLeaflets` | main.py:123-138 | fails exactly when `ScrapeAll` fails, with the same error. Otherwise it returns a new, well-formed collection whose contents are `ScrapeAll`'s collection |

## Left out

- `HttpClient` (main.py:101-109) is not modelled: the session, its `User-Agent` header and the 15-second timeout are network I/O. A fetch is a function from URL to an optional page.
- BeautifulSoup and the four CSS selectors (main.py:114-117, 125-126, 142-143, 154-155) are not modelled. A page is given already reduced to its retailer links and leaflet fragments, and `link.text` and the date element's `.text` are given strings.
- `DataSaver.save_json` and `LeafletCollection.get_json` (main.py:8-11, 24-25) write the JSON file. File output and JSON formatting are left out; the model stops at the result of `__serialize`.
- The `data_saver` field of `LeafletCollection` (main.py:16) is left out with the file output.
- `ProspektMaschineScraper` and `main` (main.py:177-196) only wire the objects together and are left out.
- `datetime.now().strftime(...)` (main.py:55) reads the wall clock. It is a timestamp argument of the constructor, supplied by the clock function; its format is not modelled.
- Python's exceptions (`TypeError`, `KeyError`, `AttributeError` and the request errors) are the `Failure` datatype. Their Python types and messages are not modelled.
- `DateRange.IsDigit` and `DateRange.IsSpace` cover only ASCII. `IsSpace` counts space and the controls 9 to 13. Python's `\s` and `str.strip` also count the ASCII controls U+001C to U+001F and non-ASCII whitespace. Python's `\d` also accepts non-ASCII decimal digits.
- `Scraper.LeafletScraper.ScrapeAllLeaflets` and `Scraper.LeafletScraper.ScrapeLeaflets` state their results by the records the leaflets hold, not by object identity. That the same objects end up in the collection is visible only through `Collection.LeafletCollection.Append`.
