# Thailand daily news digest — a Dafny model

This project models the deterministic core of a small news service with two
programs: an ingestion function and a calendar viewer.

- **Ingestion.** Once a day the ingestion function fetches RSS/Atom feeds in
  three categories: politics (政治), economy (経済) and tech (テック). Fetching
  follows these rules:
  - HTML pages served instead of a feed are refused;
  - every entry becomes an item with a cleaned title and summary and a link
    without tracking parameters;
  - items are deduplicated by link, ranked (items with a summary first, then
    by publication text) and cut to a per-category limit.
- **Summaries and storage.** For each category the function has a language
  model summarise the items, then pulls the Markdown out of whichever of
  several response shapes came back. A category with no items gets a fixed
  placeholder and no model call. The three sections are assembled into one
  Markdown document and stored under `Thailand/<yyyy_mm_dd>.md`.
- **Viewer.** The viewer shows a Monday-first month calendar. Days whose
  document exists carry a marker, days outside the month are disabled, and
  the month can be paged back and forth. Clicking a day loads its document,
  and a failed load is reported as "not yet stored", a storage error or an
  unexpected error.

Modules, one per file:

| module | models |
|---|---|
| `Text` | Python string operations: whitespace, `strip`, `lower`, `split`, `join`, slicing, decimal formatting |
| `CleanText` | `_clean_text` |
| `UrlNormalizer` | `_normalize_url` |
| `FetchFilter` | the accept/reject rule of `_fetch_url` |
| `Ranking` | the stable ranking sort |
| `FeedItems` | `fetch_rss_items` |
| `Summarizer` | the compact projection and the response extraction chain of `bedrock_summarize_and_translate` |
| `DailyDigest` | feed-list configuration, `build_daily_markdown`, the storage key and `lambda_handler` |
| `Calendar` | dates, weekdays and `month_grid` |
| `Viewer` | `md_key_for`, month navigation, the month prefix, day buttons, load-error classification, `list_month_objects` and the session state |

The code has loops and mutable state in several places, and the model keeps
them as loops and mutable state. Each such method is proved equal to a
function, and the properties are lemmas about that function. The loops are
in `FilterQuery`, `EntryLoop`, `DedupLoop`, `FetchRssItems`,
`CompactProjection`, `ContentLoop`, `MessageLoop`, `ExtractMarkdown`,
`BuildDailyMarkdown` and `ListMonthObjects`. The viewer's session state is
the class `Viewer.Session`.

In the extraction chain, `completion` and `output_text` are tested
with `if`/`elif` (lambda_function.py:271-274). A `completion` string that is
only whitespace therefore hides a usable `output_text`, and the payload is
dumped (`Summarizer.BlankCompletionHidesOutputText`).

## Model

| member | source | states |
|---|---|---|
| Text.Strip | lambda_function.py:61 | `strip()` returns a slice of its input, only whitespace is removed at each end, and the result has no whitespace at either end |
| Text.StripEmptyIffAllSpace | lambda_function.py:42 | `u.strip()` is empty exactly when every character of `u` is whitespace |
| Text.StripOfTrimmed | lambda_function.py:42 | stripping a string with no whitespace at its ends leaves it unchanged |
| Text.Lower | lambda_function.py:81 | `lower()` keeps the length and maps each character on its own, ASCII capitals to small letters |
| Text.Split | lambda_function.py:42 | `split(",")` gives at least one piece and no piece holds the separator |
| Text.SplitJoin | lambda_function.py:42 | splitting a separator-joined list of separator-free pieces gives the list back |
| Text.SlicePrefix | lambda_function.py:151 | `s[:n]` is a prefix of `s` whose length is `min(n, len(s))` for `n >= 0` and `len(s) + n`, floored at 0, for negative `n` |
| Text.Join | lambda_function.py:259 | joining no parts gives "", joining one part gives that part |
| Text.PaddedDigits | app.py:63 | the `%Y`/`%m`/`%d` fields are exactly `w` decimal digits |
| Text.DigitsValuePadded | app.py:63 | reading a zero-padded field back gives the number written |
| Text.WidthDigitsUnpadded | app.py:184 | a number of exactly `w` digits prints the same with and without padding to width `w` |
| Text.FourDigitsUnpadded | app.py:184 | for years 1000..9999, `str(year)` equals the `%Y` field |
| CleanText.FirstClose | lambda_function.py:60 | the end of a tag match is the first `>` after the `<` |
| CleanText.StripTagsLeavesNoTag | lambda_function.py:60 | after `re.sub(r"<[^>]+>", " ", s)` no match of the pattern is left |
| CleanText.StripTagsKeepsNoClose | lambda_function.py:60 | tag stripping adds no `>` to text without one |
| CleanText.CollapseSpacesShape | lambda_function.py:61 | after `re.sub(r"\s+", " ", s)` no two whitespace characters are adjacent, the only whitespace is the plain space, and the visible characters are those of `s` in order |
| CleanText.StripCollapsed | lambda_function.py:61 | stripping collapsed text keeps it collapsed and keeps its visible characters |
| CleanText.Clean | lambda_function.py:56-62 | `_clean_text`: unescape, replace each tag with a space, collapse whitespace runs to one space, strip; its shape is stated by CleanText.CleanShape |
| CleanText.CleanShape | lambda_function.py:56-62 | `_clean_text` gives "" for "". Otherwise the result has no whitespace at either end, never two whitespace characters in a row and only plain spaces, and it holds the visible characters of the unescaped, tag-stripped text in order |
| UrlNormalizer.UntrackedKeepsExactly | lambda_function.py:80-86 | a query pair survives exactly when its lower-cased key neither starts with `utm_` nor is `fbclid`, `gclid`, `igshid`, `mc_cid` or `mc_eid`; survivors keep their relative order, and a query without tracking keys is unchanged |
| UrlNormalizer.UntrackedIdempotent | lambda_function.py:80-86 | filtering the query twice equals filtering it once |
| UrlNormalizer.UntrackedAppend | lambda_function.py:80-86 | one more pair adds itself to the filtered list unless its key is tracking |
| UrlNormalizer.FilterQuery | lambda_function.py:79-86 | the loop that builds `q` yields exactly the untracked pairs in order |
| UrlNormalizer.NormalizeParts | lambda_function.py:87-88 | scheme, netloc, path, params and fragment are unchanged; the new query holds exactly the untracked pairs, in their original order |
| UrlNormalizer.Normalized | lambda_function.py:69-90 | `_normalize_url` as a value: "" and unparsable URLs unchanged, otherwise the reassembled URL with the tracking keys dropped; NormalizeUrl computes it and NormalizeParts and NormalizedIdempotent describe it |
| UrlNormalizer.NormalizeUrl | lambda_function.py:69-90 | "" and unparsable URLs come back unchanged; otherwise the URL is reassembled with the filtered query |
| UrlNormalizer.NormalizedIdempotent | lambda_function.py:69-90 | normalising twice equals normalising once, for a codec that reads back what it writes |
| FetchFilter.NewlinesToSpaces | lambda_function.py:109 | `\n` and `\r` become spaces and nothing else changes |
| FetchFilter.Accept | lambda_function.py:107-124 | the accept/reject rule of `_fetch_url`; FetchFilter.Verdict states when it returns the body, HtmlContentTypeRefused, DoctypeRefused and UpperCaseDoctypeAccepted its edge cases |
| FetchFilter.Verdict | lambda_function.py:116-124 | the body is returned exactly when the response does not look like HTML, 200 <= status < 300 and the body is non-empty; anything that looks like HTML is refused whatever its status |
| FetchFilter.HtmlContentTypeRefused | lambda_function.py:107-118 | the declared type is lower-cased before the test, so a 200 response declared `Text/HTML` is refused even when its body is a feed |
| FetchFilter.DoctypeRefused | lambda_function.py:116-118 | a body starting with `<!doctype html`, after leading whitespace, is refused whatever the status and declared type |
| FetchFilter.UpperCaseDoctypeAccepted | lambda_function.py:116-121 | the body sniff is case-sensitive: `<!DOCTYPE HTML>` with a feed type and status 200 is accepted |
| Ranking.LexLeTotal | lambda_function.py:184 | any two `published` strings are comparable |
| Ranking.LexLeTransitive | lambda_function.py:184 | string comparison is transitive |
| Ranking.LexLeAntisymmetric | lambda_function.py:184 | strings that compare both ways are equal |
| Ranking.LexLeReflexive | lambda_function.py:184 | every string compares `<=` to itself |
| Ranking.KeyLeTotal | lambda_function.py:184 | the sort key order is total and reflexive, and keys that compare both ways are equal |
| Ranking.KeyLeTransitive | lambda_function.py:184 | the sort key order is transitive |
| Ranking.InsertShape | lambda_function.py:184 | one insertion step places the new item somewhere and moves nothing else |
| Ranking.InsertMultiset | lambda_function.py:184 | one insertion step adds exactly the new item |
| Ranking.InsertSorted | lambda_function.py:184 | inserting into a ranked list keeps it ranked |
| Ranking.InsertWithKey | lambda_function.py:184 | an inserted item stays ahead of the items that share its key |
| Ranking.RankSort | lambda_function.py:184 | the ranking sort, by insertion; Ranking.RankSortCorrect proves it a stable permutation into key order |
| Ranking.RankSortCorrect | lambda_function.py:184 | the sort is a permutation, its result is ranked, and it is stable: the items sharing a key keep their input order |
| Ranking.SortedMeaning | lambda_function.py:183-184 | in a ranked list every item with a summary precedes every item without one, and within each group `published` does not decrease |
| FeedItems.FetchUrl | lambda_function.py:93-128 | `_fetch_url`: no response (a raised request) gives nothing, otherwise the accept rule of FetchFilter.Verdict decides |
| FeedItems.ItemOf | lambda_function.py:152-170 | the item one entry defines, or none when its cleaned title or normalised link is empty; FeedItems.ItemsOfShape and EntryItem describe it |
| FeedItems.Collected | lambda_function.py:136-172 | the `items` list after the feed loop; FeedItems.CollectedBound and CollectedOrigin describe it |
| FeedItems.Built | lambda_function.py:151-170 | each entry yields its own optional item, in entry order |
| FeedItems.ItemsOfShape | lambda_function.py:151-170 | a feed yields at most one item per entry; each item has a non-empty title and link, names its feed and comes from one of the entries |
| FeedItems.FeedContributionShape | lambda_function.py:138-159 | a feed adds at most `max_items_per_feed` items, and only when its fetch gave data |
| FeedItems.CollectedBound | lambda_function.py:138-151 | the collected list holds at most `max_items_per_feed` items per feed |
| FeedItems.CollectedOrigin | lambda_function.py:138-170 | every collected item has a non-empty title and link and comes from one of the first `max_items_per_feed` entries of a listed feed whose fetch gave data |
| FeedItems.Dedup | lambda_function.py:175-181 | the deduplicated list; FeedItems.DedupCorrect, DedupSubset and DedupShorter describe it and DedupLoop computes it |
| FeedItems.FirstIndex | lambda_function.py:177-181 | the position of the first item with a given link |
| FeedItems.DedupCorrect | lambda_function.py:175-181 | dedup keeps every link, once: each kept item is the first item with its link, and kept items are in order of first appearance |
| FeedItems.DedupSubset | lambda_function.py:175-181 | dedup only drops items |
| FeedItems.DedupShorter | lambda_function.py:175-181 | dedup never lengthens the list |
| FeedItems.InsertDistinct | lambda_function.py:184 | inserting an item with a new link keeps links distinct and adds just that link |
| FeedItems.RankSortDistinct | lambda_function.py:184 | ranking keeps the set of links and keeps them distinct |
| FeedItems.RssItems | lambda_function.py:130-186 | `fetch_rss_items` as a value: collect, dedup, rank, cut to `max_items_total`; FeedItems.RssItemsSize, RssItemsDistinctRanked and RssItemsOrigin describe it |
| FeedItems.RssItemsSize | lambda_function.py:174-186 | at most `max_items_total` items are returned, no more than `max_items_per_feed` per feed, and the result is a prefix of the ranked deduplicated list |
| FeedItems.RssItemsDistinctRanked | lambda_function.py:174-186 | the returned items have pairwise distinct links and are ranked |
| FeedItems.RssItemsOrigin | lambda_function.py:138-186 | every returned item is the first collected item with its link and comes from a listed feed whose fetch gave data |
| FeedItems.EntryItem | lambda_function.py:152-170 | one turn of the entry loop gives the item its entry defines, or none |
| FeedItems.EntryLoop | lambda_function.py:151-170 | the entry loop appends the items of the capped entries, in order, to `items` |
| FeedItems.DedupLoop | lambda_function.py:175-181 | the `seen`/`dedup` loop computes the deduplicated list |
| FeedItems.FetchRssItems | lambda_function.py:130-186 | `fetch_rss_items` returns the value whose properties the lemmas above state |
| Summarizer.Get | lambda_function.py:251 | `dict.get` returns the stored value for a present key and the default otherwise |
| Summarizer.Iterated | lambda_function.py:264 | iterating a number, boolean or null raises; iterating anything else does not |
| Summarizer.ContentLoop | lambda_function.py:253-258 | the step-1 loop collects the texts of the text blocks |
| Summarizer.MessageLoop | lambda_function.py:263-266 | the step-2 loop collects the string texts of the message blocks |
| Summarizer.Extract | lambda_function.py:248-280 | the extraction chain: text, dump or a raised exception; the lemmas from ExtractNeverBlank to OutputTextUsed characterise each step |
| Summarizer.ExtractMarkdown | lambda_function.py:248-280 | the chain as written computes the extraction the lemmas below characterise |
| Summarizer.ExtractNeverBlank | lambda_function.py:248-280 | the extracted Markdown is never empty and has no whitespace at either end; a dump carries the payload unchanged |
| Summarizer.ContentPartsNonEmpty | lambda_function.py:253-258 | every step-1 part is non-empty, and some part exists exactly when some block is a text block with non-empty string text |
| Summarizer.ContentBlocksWin | lambda_function.py:250-262 | text blocks that are not all whitespace decide the result; no later field is consulted |
| Summarizer.RaisedMeaning | lambda_function.py:251-264 | the chain raises exactly when the payload is not a dictionary, or when step 1 gave nothing and `output`/`message`/`content` cannot be read |
| Summarizer.DumpMeaning | lambda_function.py:276-278 | the dump happens exactly when nothing raised and steps 1, 2 and 3 all gave only whitespace |
| Summarizer.MessageTextWins | lambda_function.py:261-267 | when step 1 gave nothing, text from `output.message.content` that is not all whitespace is the result, whatever `completion` and `output_text` hold |
| Summarizer.CompletionDecides | lambda_function.py:270-278 | when steps 1 and 2 gave only whitespace, a string `completion` decides: its stripped text, or the dump when that is empty, whatever `output_text` holds |
| Summarizer.BlankCompletionHidesOutputText | lambda_function.py:270-274 | a whitespace-only `completion` string hides a usable `output_text` |
| Summarizer.OutputTextUsed | lambda_function.py:270-274 | when steps 1 and 2 gave only whitespace and `completion` is not a string, an `output_text` string that is not all whitespace is returned stripped |
| Summarizer.Compact | lambda_function.py:196-204 | a compact entry carries the number, title, published text, link and feed, and the summary cut to its first 800 characters |
| Summarizer.CompactList | lambda_function.py:194-205 | one compact entry per item, in order, numbered from 1 |
| Summarizer.CompactProjection | lambda_function.py:194-205 | the `enumerate(items, start=1)` loop builds one entry per item, numbered from 1, with the item's link as `url` |
| DailyDigest.NonBlank | lambda_function.py:42 | the kept pieces are stripped and non-empty, and there are no more of them than pieces |
| DailyDigest.NonBlankKeeps | lambda_function.py:42 | pieces already stripped and non-empty all pass through unchanged |
| DailyDigest.NonBlankDropsBlank | lambda_function.py:42 | whitespace-only pieces are all dropped |
| DailyDigest.FeedList | lambda_function.py:42-44 | a feed list is the fallback, or a non-empty list of stripped non-empty URLs |
| DailyDigest.FeedListRoundTrip | lambda_function.py:42-44 | a variable holding comma-joined clean URLs reads back as exactly those URLs |
| DailyDigest.FeedListFallback | lambda_function.py:42-44 | an unset variable, or one of only commas and whitespace, selects the built-in list |
| DailyDigest.ConfigOf | lambda_function.py:22-44 | unset variables select the built-in feeds and the limits 20 and 30, and no category ever has an empty feed list |
| DailyDigest.TocLines | lambda_function.py:286 | one `- [title](#title)` line per section, in order |
| DailyDigest.TocRoundTrip | lambda_function.py:286 | when no title holds a line break, the contents block splits back into exactly one line per section |
| DailyDigest.DailyMarkdown | lambda_function.py:284-290 | `build_daily_markdown` as a value; DailyDigest.SectionPlacement, HeadingsPresent and TocRoundTrip describe it and BuildDailyMarkdown computes it |
| DailyDigest.BuildDailyMarkdown | lambda_function.py:284-290 | the loop that accumulates `body` builds the document header, contents, blocks |
| DailyDigest.BlocksSplit | lambda_function.py:287-289 | the body of a list of sections is the body of any prefix followed by the body of the rest |
| DailyDigest.BlocksAround | lambda_function.py:287-289 | section `i`'s block sits between the blocks of the sections before and after it |
| DailyDigest.SectionPlacement | lambda_function.py:284-290 | the document is the header `# Thailand Daily News (<date>)`, the contents, then one `## title … ---` block per section in input order |
| DailyDigest.HeadingsPresent | lambda_function.py:284-290 | every section's heading line occurs in the document, so each contents link has a target |
| DailyDigest.StorageKey | lambda_function.py:295 | the key is `Thailand/`, the date, then `.md` |
| DailyDigest.StorageKeyInjective | lambda_function.py:295 | distinct date strings are stored under distinct keys |
| DailyDigest.Summary | lambda_function.py:189-280 | `bedrock_summarize_and_translate`: the extracted text, the serialised reply for a dump, none when extraction raises; DailyDigest.SummaryMeaning describes it |
| DailyDigest.SummarizeAndTranslate | lambda_function.py:189-280 | the summariser projects the items, asks the model and extracts the reply; it gives no summary exactly when extraction raises |
| DailyDigest.SummaryMeaning | lambda_function.py:248-280 | a summary is non-empty stripped text or the serialised reply, and it is missing exactly when extraction raised |
| DailyDigest.SectionFor | lambda_function.py:324-337 | a category without items gets its placeholder; one with items gets a section exactly when its summary exists; the title is always the category's |
| DailyDigest.CategorySection | lambda_function.py:324-327 | one `if items: … else: …` step of the handler builds that category's section |
| DailyDigest.DailyRun | lambda_function.py:307-341 | the handler as a value; DailyDigest.StoredRunShape, CrashedIff and NothingFetchedNeedsNoModel describe it and LambdaHandler computes it |
| DailyDigest.LambdaHandler | lambda_function.py:307-341 | the handler reads the configuration, fetches the three categories, builds the sections in order and stores the document under the day's key |
| DailyDigest.StoredRunShape | lambda_function.py:316-341 | a stored run writes `Thailand/<date>.md` with exactly the sections 政治, 経済, テック in that order. Each section is its category's summary, or the fixed placeholder when it has no items. The counts are the item numbers, each within the per-category limit |
| DailyDigest.CrashedIff | lambda_function.py:322-341 | the run fails exactly when a category with items got a reply whose extraction raised |
| DailyDigest.NothingFetchedNeedsNoModel | lambda_function.py:324-337 | with no items anywhere, the model's reply does not matter: the three placeholders are stored with counts 0 |
| Calendar.DaysInMonth | app.py:98-100 | a month has 28 to 31 days |
| Calendar.MonthBoundary | app.py:98-100 | the 1st of a month follows the last day of the month before |
| Calendar.Weekday | app.py:99 | `weekday()` is 0 (Monday) to 6 (Sunday) |
| Calendar.FirstDayMonday | app.py:99 | 0001-01-01 is a Monday, as in the proleptic Gregorian calendar |
| Calendar.DateStamp | app.py:63 | `%Y_%m_%d` is ten characters with `_` at positions 4 and 7 |
| Calendar.DateStampInjective | app.py:63 | distinct days have distinct stamps |
| Calendar.Weeks | app.py:100 | a list is cut into consecutive runs of seven |
| Calendar.WeeksLength | app.py:98-100 | previous-month days, the month and next-month days make whole weeks |
| Calendar.MonthDatesOrdinals | app.py:98-100 | the grid dates are consecutive days starting `days_before` days before the 1st |
| Calendar.MonthDatesWeekdays | app.py:98-100 | the grid dates run Monday, Tuesday, … in turn |
| Calendar.MonthDatesInRange | app.py:98-100 | every date of a grid that can be built is a valid `date` |
| Calendar.MonthGrid | app.py:98-100 | `month_grid`, none where the library raises; Calendar.MonthGridShape, MonthGridCovers, MonthGridEnds, MonthGridDistinct and GridLimits describe it |
| Calendar.MonthGridShape | app.py:98-100 | `month_grid` gives at least four weeks of seven consecutive valid dates, each week Monday to Sunday |
| Calendar.MonthGridCovers | app.py:98-100 | every day of the month appears in the grid |
| Calendar.MonthGridEnds | app.py:98-100 | the first week holds the 1st and the last week the month's last day, so no week is spare |
| Calendar.MonthGridDistinct | app.py:98-100 | no date appears twice, so each day of the month appears exactly once |
| Calendar.GridLimits | app.py:98-100 | the library lays out 0001-01 and 9999-11 but raises for 9999-12, whose last week reaches 10000-01-01, and for month 13 or year 0 |
| Viewer.MdKeyFor | app.py:62-63 | the key is `Thailand/`, the day's `%Y_%m_%d` stamp, then `.md` |
| Viewer.MdKeyInjective | app.py:62-63 | distinct days have distinct keys |
| Viewer.ReadsWhereStored | app.py:62-63 | the viewer reads a day under the key the daily run stores it at |
| Viewer.PrevMonth | app.py:160-167 | the month before the viewed one; Viewer.NavigationCorrect describes it |
| Viewer.NextMonth | app.py:173-180 | the month after the viewed one; Viewer.NavigationCorrect describes it |
| Viewer.NavigationCorrect | app.py:160-179 | ◀ and ▶ keep the month in 1..12, move by exactly one month, wrap at January and December, and undo each other |
| Viewer.MonthIndexInjective | app.py:160-179 | two views are equal exactly when they have the same month index |
| Viewer.MonthPrefix | app.py:184 | the `Thailand/YYYY_MM_` prefix of the viewed month; Viewer.MonthPrefixMatches describes it |
| Viewer.ZeroPad2 | app.py:184 | `:02d` writes 0..99 as two digits |
| Viewer.MonthPrefixMatches | app.py:184 | for four-digit years a day's key starts with the month prefix exactly when the day is in the viewed month |
| Viewer.DayButtonFor | app.py:201-227 | the caption and enabled state of one day button; Viewer.DayButtonRule describes it |
| Viewer.DayButtonRule | app.py:201-226 | the caption is the day number, with ` •` exactly when the key was listed and the day is in the viewed month; other months' days are disabled, so a marked day can be clicked |
| Viewer.GridMonthTest | app.py:196-201 | inside the viewed month's grid, comparing month numbers alone identifies the month's own days |
| Viewer.PanelFor | app.py:241-251 | the panel a load outcome shows; Viewer.PanelClassification describes it |
| Viewer.PanelClassification | app.py:241-251 | a `ClientError` coded `NoSuchKey`, `404` or `NotFound` shows "not yet stored" for the key; any other `ClientError` is a storage error; any other exception is unexpected; a load shows the Markdown |
| Viewer.LastPage | app.py:85-88 | the loop stops at the first page that is not truncated |
| Viewer.KeysOfMeaning | app.py:83-84 | a key is gathered exactly when some received page lists it |
| Viewer.AddKeys | app.py:83-84 | the loop over a page's `Contents` adds exactly that page's keys to the gathered set |
| Viewer.ListMonthObjects | app.py:71-89 | pages are requested until one is not truncated. The first request has no token, and each later one carries the previous page's non-empty `NextContinuationToken`. The result is the union of the keys of all received pages |
| Viewer.Session.constructor | app.py:115-118 | the first visit shows today's month and today |
| Viewer.Session.PrevMonthClicked | app.py:160-167 | ◀ moves the view to the previous month and keeps the selected day |
| Viewer.Session.NextMonthClicked | app.py:173-180 | ▶ moves the view to the next month and keeps the selected day |
| Viewer.Session.DayClicked | app.py:223-232 | clicking an enabled day selects it and keeps the view; the selected day then has the viewed month's number |

## Left out

- HTTP fetching (`requests.get`, headers, timeouts, redirects, `FETCH_TIMEOUT_SEC`, `HTTP_USER_AGENT`): network I/O. A fetch is an input that answers with a response, or with nothing where the request raises.
- UTF-8 decoding of the sniffed head with replacement characters: library code, supplied as a function.
- `feedparser.parse`, its `bozo` flag and a parse that raises: a foreign library. Entries are supplied as records whose missing attributes read as "", and parsing is a total function.
- `html.unescape`, `urlparse`/`parse_qsl`/`urlencode`/`urlunparse` and `_hash`: library code, supplied as functions. The SHA-256 digest is not modelled.
- UrlNormalizer.NormalizedIdempotent: holds only for a codec that reads back what it writes and never writes "". urllib's own round trip is not modelled.
- Text.Lower: lower-cases ASCII letters only. Python's full Unicode case mapping is not modelled.
- The Bedrock request: the Japanese prompt, `json.dumps` of the compact list, `max_tokens`, `temperature`, the model id and region, and `invoke_model` failures. The model is a function from category and compact list to a decoded payload.
- JSON numbers with fractions, and `json.dumps` of the payload for the diagnostic dump: the dump is a function supplied with the model.
- Iterating a string or a dictionary in step 2 of the extraction chain: it yields strings, which no block test accepts, so both count as no blocks.
- S3 `put_object`, `get_object` and `list_objects_v2` calls, their failures and the client set-up: storage I/O. Only the keys and the pagination loop over supplied pages are modelled.
- Viewer.ListMonthObjects: requires that some page is not truncated; with no such page the code never stops.
- The exception guard around `list_month_objects` (app.py:185-188) that falls back to an empty set: an I/O failure, not modelled.
- `datetime.now` in the Asia/Bangkok zone: a clock read. The day is an input.
- Calendar.DateStamp: writes the year with four digits. For years below 1000 the platform's `strftime` may write fewer, so key agreement is stated for years 1000..9999 only (Viewer.MonthPrefixMatches, Text.FourDigitsUnpadded).
- Reading environment variables, `int()` parsing of the limits (a malformed value stops the module from loading), `S3_BUCKET` and `get_env` in the viewer: configuration I/O. Limits come in already parsed.
- The handler's JSON response body: bucket name, feed lists and serialisation. The outcome records only the key, the document and the three counts.
- Logging with `print`: no effect on results.
- Streamlit rendering, CSS, the today highlight, the weekday header and `st.rerun`: presentation only. The decision rules behind the buttons are modelled.
