# DuckDuckGo search client, page aggregation core

This project is a Dafny model of the sequential core of a Go client for DuckDuckGo's
search endpoints. It covers the following:

- The `Text` search dispatches to one of three backends: `api`, `html` or `lite`.
- The `Images`, `Videos` and `News` searches.
- The `Answers` call.
- The string utilities those searches use: `rangeFunc`, `extractVQD`, `textExtractJSON`,
  `normalize`, `normalizeURL` and `is500InURL`.

Every search works the same way:

1. It checks that keywords are present and fills in defaults.
2. It fetches a session token (`vqd`).
3. It builds a request payload.
4. It clamps `maxResults` and computes the offsets of the extra pages.
5. It starts one task per page.
6. Each task walks the rows of its page against a shared `cache` of seen keys. It writes
   the k-th accepted record of page p into slot `p*100 + k` of a pre-allocated `results`
   slice. That slice holds 1100 slots for text, 600 for images and 700 for videos and news.
7. Finally the non-nil slots are kept in order and cut with `lo.Slice`.

Files:

- `wrappers.dfy`: `Option`, `Result` and the call-level errors.
- `strings.dfy`: substring search, prefix test, ASCII lower-casing and decimal rendering.
- `utils.dfy`: the utilities of `utils.go`.
- `extractors.dfy`: the per-row logic of each page closure.
  - Which key a row is deduplicated on, and which rows are rejected.
  - Which record an accepted row becomes.
  - `Walk` is the walk of one page.
  - `LiteWalk` is the lite backend's three-row walk.
- `aggregation.dfy`: the shared state, as class `Aggregator`.
  - Fields: a `cache` set and a `slots` array.
  - `ProcessPage`, `ProcessLitePage`, `RunPages` and `Compact` are imperative methods,
    each proved against the functions `Walk`, `WriteBand`, `Run`, `Filter` and `LoSlice`.
  - The theorems about a whole run:
    - the layout of the slots;
    - page-order output whatever the completion order;
    - cross-page deduplication;
    - panics.
- `filters.dfy`: the `f` filter strings of images and videos, built by repeated appends,
  and their parsing back into entries.
- `search.dfy`: the entry points.
  - Defaults, token fetch, payloads and page offsets.
  - Each search as a function of its inputs, and as a method proved equal to it.
  - Per-search page-order theorems.
- `answers.dfy`: the `Answers` call. Its two responses are merged into one map, and its
  related topics are flattened.

How the untrusted parts are represented:

- The HTTP client and the foreign decoders are fields of `Search.Env`. These are
  `encoding/json`, the `htmlquery` XPath queries, `html.UnescapeString`, `%v`, and the
  RFC 3339 date rendering.
- A request is answered by a function of the request.
- Goroutines become an `order` sequence: each page index appears exactly once, and the
  page tasks run one after another in that order.
- A Go runtime panic inside a page task ends the process. It is modelled as the error
  `Panic`. The two panics modelled are a slot index past the end of `results`, and a slice
  start past the end of the body in `textExtractJSON`.

Where the code and its prose description disagree, the model follows the code:

- With `maxResults <= 0`, only page 0 is fetched, and `lo.Slice(…, 0, maxResults)` then
  returns an empty list. So such a search returns no records at all.
- `normalizeURL` turns spaces into `+` and then query-unescapes. A `+` that was already in
  the input therefore also becomes a space.
- `textHTML` and `textLite` end with `lo.Slice(…, maxResults, 0)` and always return an empty
  list. See the Findings section below.
- The lite backend deduplicates nothing. Only table rows 0 to 2 are ever looked at. A
  rejected or already-cached first-row href still yields a record at row 2, with an empty
  title. The three `next` calls in the rejection branch get a copy of the row slice, so
  they consume nothing.

## Model

| member | source | states |
|---|---|---|
| Utils.Range | utils.go:22-28 | rangeFunc's result is empty exactly when start >= end; it starts at start, and every element lies in [start, end) |
| Utils.RangeAt | utils.go:22-28 | element i of rangeFunc(start, end, step) is start + i*step |
| Utils.RangeCovers | utils.go:22-28 | the sequence stops only when the next step would reach end: last + step >= end |
| Utils.RangeFunc | utils.go:22-28 | the appending loop returns exactly the offsets Range specifies |
| Utils.TryDelimiter | utils.go:42-47 | one delimiter pair yields only a non-empty token |
| Utils.TryDelimiterFound | utils.go:42-46 | a token found by one pair sits between the first occurrence of the opener and the next closer, and never contains the closer |
| Utils.TryDelimiterEmpty | utils.go:42-45 | a missing opener, or a closer right after the opener, yields no token for that pair |
| Utils.TryDelimiterUpToCloser | utils.go:42-47 | with an opener present, `start` just past it and the first closer after `start` j > 0 bytes on, the pair yields exactly those j bytes |
| Utils.TryDelimiterNoCloser | utils.go:42-46 | with an opener present and no closer after it, the pair yields no token |
| Utils.ExtractVQD | utils.go:33-51 | returns the token of the first pair in priority order that yields one; otherwise it fails with the not-found error, and then no pair yields a token |
| Utils.TextExtractJSON | utils.go:56-62 | fails only by a slice panic or by the missing-suffix error |
| Utils.ExtractedLacksSuffix | utils.go:57-62 | the extracted text never contains the suffix marker |
| Utils.ExtractFailures | utils.go:57-61 | a missing prefix on a body shorter than 23 bytes panics; a present prefix with no suffix after it is an error |
| Utils.ExtractBetweenMarkers | utils.go:57-62 | with both markers present, the result is the text from right after the prefix (24 bytes from its start) up to the first suffix after that point |
| Utils.MissingPrefixNotDetected | utils.go:57-59 | without the prefix (`strings.Index` gives -1), the start is -1+24 = 23, the guard does not fire, and the text from byte 23 to the next suffix is returned |
| Utils.TagEnd | utils.go:17 | finds the first `>` with no newline before it, or reports that no tag can close |
| Utils.StripTags | utils.go:91 | stripping `<.*?>` never lengthens the text and leaves a text without `<` unchanged |
| Utils.StripTagsTagFree | utils.go:91 | no closable tag is left after stripping |
| Utils.StripTagsIdempotent | utils.go:91 | stripping twice is stripping once |
| Utils.Normalize | utils.go:87-92 | "" stays ""; otherwise the result is the unescaped form of a tag-free text no longer than the input |
| Utils.QueryUnescape | utils.go:101 | a successful decoding is never longer than its input |
| Utils.UnescapeFailsIffBadEscape | utils.go:101-104 | decoding fails exactly when some `%` is not followed by two hex digits |
| Utils.NormalizeURL | utils.go:97-106 | "" stays ""; a malformed escape returns the input unchanged; the result is never longer than the input |
| Utils.NormalizeURLWithoutEscapes | utils.go:101 | in a URL without `%`, spaces and `+` become spaces and every other byte is kept |
| Utils.UnescapeEscape | utils.go:101 | query-unescaping inverts query-escaping |
| Utils.NormalizeURLInvertsEscape | utils.go:97-106 | normalizeURL recovers any string from its query-escaped form |
| Utils.Is500InURL | utils.go:74-82 | true exactly when three digits, `-`, two digits and `.js` occur somewhere in the URL (the pattern on utils.go:16) |
| Extractors.Walk | async_ddgs.go:166-186 | a page emits no more records than it has rows, one key per record, and only adds to the cache |
| Extractors.WalkFresh | async_ddgs.go:171-172 | the keys a page emits are pairwise distinct, none was cached before, and all are cached after |
| Extractors.WalkCache | async_ddgs.go:171-172 | the cache after a page is the cache before plus exactly the keys of its acceptable rows |
| Extractors.WalkFromEmpty | async_ddgs.go:171-172 | a page walked after others caches what it would cache on its own plus what was cached, and accepts no more records than on its own |
| Extractors.WalkBuilt | async_ddgs.go:166-186 | every record is built from a row of the page under the key it was emitted with |
| Extractors.WalkPrefix | async_ddgs.go:166-186 | walking a prefix of the rows emits a prefix of the records |
| Extractors.ApiRecords | async_ddgs.go:167-175 | api records have a non-empty body and a key that is neither empty nor the Google search URL for the keywords |
| Extractors.WalkSilentKey | async_ddgs.go:171-175 | a row whose key is accepted but which builds no record caches the key, and the page then never emits a record under that key |
| Extractors.ApiMarksWithoutEmitting | async_ddgs.go:171-174 | on any api page, a row with an admissible `u` seen for the first time and an empty body caches `u`, and no record of the page is keyed on `u`, even if a later row with that `u` has a body |
| Extractors.HtmlRecords | async_ddgs.go:250-255 | no html key is empty, a Google search URL, or an ad redirect |
| Extractors.VideoRecords | async_ddgs.go:599-610 | every video record is its row, whose `content` is the non-empty key it was deduplicated on |
| Extractors.LiteWalk | async_ddgs.go:319-351 | a lite page emits one record when it has three rows and none otherwise, and caches at most one new href |
| Extractors.LiteEmitsCachedHref | async_ddgs.go:323-351 | on any page of three rows or more whose first href is rejected (empty, cached, Google or ad), the page still yields one record keyed by that href, with the normalised href, an empty title and row 1's snippets as body, and the cache is unchanged |
| Aggregation.WriteBandSnoc | async_ddgs.go:175-182 | the k-th record of page p is written to slot p*100 + k |
| Aggregation.Filter | async_ddgs.go:199-201 | filtering the nil slots never lengthens the slice |
| Aggregation.FilterAppend | async_ddgs.go:199-201 | filtering keeps slot order: filtering a concatenation concatenates the filtered parts |
| Aggregation.FilterMembers | async_ddgs.go:199-201 | a record survives filtering exactly when some slot holds it |
| Aggregation.LoSlice | async_ddgs.go:199-201 | lo.Slice: start >= end gives []; (0, m) gives the first min(m, len) records; the result never exceeds max(end, 0) |
| Aggregation.LayoutFilter | async_ddgs.go:199-201 | filtering a slot layout lists page 0's records, then page 1's, and so on |
| Aggregation.RunLayout | async_ddgs.go:148-196 | with every page under 100 records and no panic, the slots after any completion order are exactly the band layout of the pages that had rows |
| Aggregation.RunOrder | async_ddgs.go:188-201 | the filtered slots are the pages' records in page order, whatever the completion order |
| Aggregation.RunPanics | async_ddgs.go:161-164 | a task whose page input panics (the textExtractJSON slice panic) crashes the whole run, whatever runs after it |
| Aggregation.RunOverflows | async_ddgs.go:175-182 | a task whose page emits more records than its band has slots left writes past the end of `results` and crashes the whole run |
| Aggregation.RunDedup | async_ddgs.go:171-172 | across all pages of a run no key is written twice, and every key written is in the final cache |
| Aggregation.Next | async_ddgs.go:368-375 | next reports ok exactly when the slice is non-empty, and then yields its first element |
| Aggregation.Aggregator.constructor | async_ddgs.go:148-149 | the fresh state has capacity nil slots and an empty cache |
| Aggregation.Aggregator.ProcessPage | async_ddgs.go:153-187 | one page task crashes exactly when its band runs past the slice; otherwise it writes the page's walk into its band and leaves the walk's cache |
| Aggregation.Aggregator.RunPages | async_ddgs.go:188-197 | running the page tasks in the given order leaves the state the Run specification computes |
| Aggregation.Aggregator.Compact | async_ddgs.go:199-201 | the result is lo.Slice of the non-nil slots in slot order |
| Aggregation.LiteFirstRow | async_ddgs.go:323-336 | row 0 sets the href, sets the title only if the href is accepted, and caches only an accepted href |
| Aggregation.ProcessLitePage | async_ddgs.go:304-352 | one lite task writes the lite walk's record into its band, or crashes when the band is past the slice |
| Aggregation.RunLitePages | async_ddgs.go:353-362 | the lite tasks in the given order leave the state the Run specification computes |
| Filters.Piece | async_ddgs.go:423-425 | an argument contributes nothing exactly when it is empty |
| Filters.AppendPiece | async_ddgs.go:423-425 | one `f +=` step appends `name:value` (plus `,` where the source writes one) only for a non-empty value |
| Filters.ImagesFilter | async_ddgs.go:422-440 | the images filter is time, size, color, type, layout (each comma-terminated), then license without a comma, skipping empty arguments |
| Filters.VideosFilter | async_ddgs.go:553-566 | the videos filter is publishedAfter, videoDefinition, videoDuration and videoLicense, each comma-terminated, skipping empty arguments |
| Filters.FilterStringEmpty | async_ddgs.go:442-444 | the filter is empty, and `f` left out of the payload, exactly when every argument is empty |
| Filters.ImagesFilterFields | async_ddgs.go:422-440 | with comma-free arguments, splitting the images filter at commas gives back the entries of the non-empty arguments, in order |
| Filters.VideosFilterFields | async_ddgs.go:553-566 | the same round trip for the videos filter |
| Search.VqdOf | async_ddgs.go:67-73 | the token fetch fails only on transport error or when no token is found |
| Search.GetVqd | async_ddgs.go:67-73 | agetVqd posts the keywords and extracts the token from the response |
| Search.Clamped | async_ddgs.go:190-192 | a positive maxResults becomes the smaller of itself and the limit; a non-positive one is kept |
| Search.PageRequest | async_ddgs.go:156-157 | a page request keeps the verb and URL, sets `s` to the decimal offset, and keeps every other payload entry |
| Search.PageRequestsDiffer | async_ddgs.go:156 | pages fetched at different offsets send different requests |
| Search.TextPagesFit | async_ddgs.go:190-196 | text fetches page 0 only when maxResults <= 0, page i+1 at offset 23 + 50i, and at most 10 pages after page 0, so all bands fit in 1100 slots |
| Search.ImagesPagesFit | async_ddgs.go:502-508 | images fetch page i+1 at offset 100 + 100i and at most 4 pages after page 0, so at most 5 pages within 600 slots |
| Search.VideosPagesFit | async_ddgs.go:618-624 | videos and news fetch page i+1 at offset 59 + 59i and at most 6 pages after page 0, within 700 slots |
| Search.TextInputsAt | async_ddgs.go:188-196 | every text backend runs page 0 at offset 0 and page i+1 at offset 23 + 50i |
| Search.ImagesInputsAt | async_ddgs.go:500-508 | images run page 0 at offset 0 and page i+1 at offset 100 + 100i |
| Search.VideosInputsAt | async_ddgs.go:616-624 | videos and news run page 0 at offset 0 and page i+1 at offset 59 + 59i |
| Search.PageOffsets | async_ddgs.go:190-196 | the entry points' clamping and rangeFunc call compute the offsets above |
| Search.WithTimelimit | async_ddgs.go:144-146 | `df` is added exactly when a time limit is given, and nothing else changes |
| Search.SafeCodeIgnoresCase | async_ddgs.go:209-217 | the safesearch code is looked up on the lower-cased value |
| Search.ApiSafeSearch | async_ddgs.go:136-143 | api: moderate sends ex=-1, off sends ex=-2, on sends p=1, anything else sends neither |
| Search.ApiPayloadFields | async_ddgs.go:128-135 | api payload carries q, the token, region as kl, l and bing_market, and df exactly when a time limit is given |
| Search.HtmlPayload | async_ddgs.go:214-230 | html payload carries the token exactly when one was fetched, and p from on 1 / moderate -1 / off -2 |
| Search.LitePayload | async_ddgs.go:290-299 | lite payload has q, o, api, kl, and df only with a time limit |
| Search.ImagesPayload | async_ddgs.go:408-445 | images payload: p from on 1 / moderate 1 / off -1, f exactly when the filter is non-empty |
| Search.VideosPayload | async_ddgs.go:539-570 | videos payload: p from on 1 / moderate -1 / off -2, f exactly when the filter is non-empty |
| Search.NewsPayload | async_ddgs.go:655-672 | news payload: noamp=1, p as for videos, df only with a time limit |
| Search.ApiPage | async_ddgs.go:157-164 | an api page panics only when its body was fetched (a textExtractJSON slice panic) |
| Search.MarkedPage | async_ddgs.go:239-249 | reading an html or lite page (request, marker test, parse) never panics, and a body holding the no-results marker gives no rows |
| Search.JsonPage | async_ddgs.go:455-468 | a JSON page never panics; it has rows exactly when the body decodes to an object whose `results` is an array, and those rows are that array's items |
| Search.Collected | async_ddgs.go:197-201 | a finished search fails only by panic; it returns nothing when maxResults <= 0 and never more than maxResults |
| Search.Collect | async_ddgs.go:148-201 | allocating the slots, running the page tasks in order and compacting yields Collected |
| Search.CollectLite | async_ddgs.go:300-365 | the same for the lite tasks |
| Search.CollectedInPageOrder | async_ddgs.go:188-201 | when no task panics and every page on its own accepts fewer than 100 records, the search returns the first records of page 0, page 1, ... whatever the completion order |
| Search.LiteInPageOrder | async_ddgs.go:353-365 | a lite search without panics returns its records in page order |
| Search.TextApiSpec | async_ddgs.go:113-202 | empty keywords, and only they, give the mandatory-keywords error; other failures are transport, token or panic; at most min(maxResults, 500) records, none for maxResults <= 0 |
| Search.TextApi | async_ddgs.go:113-202 | textAPI computes TextApiSpec |
| Search.TextApiInPageOrder | async_ddgs.go:188-201 | a calm api search returns the first maxResults records in page order |
| Search.TextHtmlSliced | async_ddgs.go:204-284 | only empty keywords give the mandatory-keywords error; with maxResults <= 20 no token is fetched, so no transport or token error |
| Search.TextHtml | async_ddgs.go:204-284 | textHTML as written computes TextHtmlSpec |
| Search.TextHtmlAlwaysEmpty | async_ddgs.go:281-283 | as written, a successful html search returns no records |
| Search.SliceBoundsSwapped | async_ddgs.go:281-283 | lo.Slice(records, 1, 0) drops the record that lo.Slice(records, 0, 1) keeps |
| Search.TextHtmlIntended | async_ddgs.go:204-284 | the html search with the slice bounds in order computes TextHtmlIntendedSpec |
| Search.TextHtmlIntendedSpec | async_ddgs.go:204-284 | the corrected html search returns at most min(maxResults, 500) records, none for maxResults <= 0 |
| Search.TextHtmlIntendedInPageOrder | async_ddgs.go:222-283 | a calm corrected html search, with the token fetched and sent when maxResults > 20, returns the first maxResults records of all its pages in page order |
| Search.TextLiteSliced | async_ddgs.go:286-366 | only empty keywords give the mandatory-keywords error, and the only other failure is a panic |
| Search.TextLite | async_ddgs.go:286-366 | textLite as written computes TextLiteSpec |
| Search.TextLiteAlwaysEmpty | async_ddgs.go:363-365 | as written, a successful lite search returns no records |
| Search.TextLiteIntended | async_ddgs.go:286-366 | the lite search with the slice bounds in order computes TextLiteIntendedSpec |
| Search.TextLiteIntendedSpec | async_ddgs.go:286-366 | the corrected lite search returns at most min(maxResults, 500) records, none for maxResults <= 0 |
| Search.TextLiteIntendedInPageOrder | async_ddgs.go:304-365 | a corrected lite search without panics returns its records in page order |
| Search.LiteMarkedPageEmpty | async_ddgs.go:312-314 | a lite page holding "No more results." adds nothing |
| Search.TextSpec | async_ddgs.go:80-111 | an empty backend means api; any backend other than api, html and lite, and only such a backend, gives the invalid-backend error; at most min(maxResults, 500) records; as written, html and lite never return a record |
| Search.Text | async_ddgs.go:80-111 | Text computes TextSpec, dispatching to textAPI, textHTML and textLite as written |
| Search.TextIntendedSpec | async_ddgs.go:80-111 | the dispatch with the corrected html and lite searches: the same errors and bounds, and the same result as Text for the api backend |
| Search.TextIntended | async_ddgs.go:80-111 | the corrected dispatch computes TextIntendedSpec |
| Search.ImagesSpec | async_ddgs.go:391-514 | mandatory keywords; failures are transport, token or panic; at most min(maxResults, 500) images, none for maxResults <= 0 |
| Search.Images | async_ddgs.go:391-514 | Images computes ImagesSpec, building the filter by appends |
| Search.ImagesInPageOrder | async_ddgs.go:391-513 | an image search with keywords and a token, no panic and fewer than 100 accepted images per page, returns the first maxResults images in page order |
| Search.VideosSpec | async_ddgs.go:522-630 | mandatory keywords; failures are transport, token or panic; at most min(maxResults, 400) videos, none for maxResults <= 0 |
| Search.Videos | async_ddgs.go:522-630 | Videos computes VideosSpec |
| Search.VideosInPageOrder | async_ddgs.go:522-629 | a video search with keywords and a token, no panic and fewer than 100 accepted rows per page, returns the first maxResults rows in page order |
| Search.NewsSpec | async_ddgs.go:638-740 | mandatory keywords; failures are transport, token or panic; at most min(maxResults, 400) articles, none for maxResults <= 0 |
| Search.News | async_ddgs.go:638-740 | News computes NewsSpec |
| Search.NewsInPageOrder | async_ddgs.go:638-739 | a news search with keywords and a token, no panic and fewer than 100 accepted articles per page, returns the first maxResults articles in page order |
| Answers.Unmarshal | async_ddgs.go:782-785 | decoding into the existing map adds the new keys and keeps the old ones; null empties the map; other values are errors |
| Answers.AbstractEntries | async_ddgs.go:763-773 | the abstract gives one answer exactly when its text is non-empty, with empty icon and topic |
| Answers.EntryIcon | async_ddgs.go:794 | every topic entry's icon is under https://duckduckgo.com |
| Answers.AnswersSpec | async_ddgs.go:742-812 | only empty keywords give the mandatory-keywords error; other failures are transport or decoding errors |
| Answers.Answers | async_ddgs.go:742-812 | Answers computes AnswersSpec |
| Answers.AppendGroup | async_ddgs.go:800-810 | the sub-topic loop appends one entry per sub-topic under the group's name |
| Answers.AppendTopic | async_ddgs.go:789-811 | one topic appends its own entry when unnamed, its group's entries otherwise |
| Answers.AppendTopics | async_ddgs.go:787-812 | the RelatedTopics loop appends the flattened topics, in order |
| Answers.GroupEntries | async_ddgs.go:800-810 | a group gives exactly one entry per sub-topic |
| Answers.TopicEntriesAppend | async_ddgs.go:787-812 | flattening distributes over concatenation of topic lists |
| Answers.TopicEntriesShape | async_ddgs.go:787-812 | every flattened entry links its icon under the DuckDuckGo host and has no topic or the name of a group in the list |
| Answers.GroupEntriesShape | async_ddgs.go:800-810 | every entry of a group carries the group's name |
| Answers.AnswersLayout | async_ddgs.go:763-812 | when both responses decode, the call succeeds and lists the abstract answer first when there is one, then exactly the flattened related topics of the merged map, all host-linked |
| Answers.AnswersKeepsFirstTopics | async_ddgs.go:775-787 | when the second response has no RelatedTopics, those of the "what is" response are used |

## Left out

- HTTP I/O is not modelled. `agetURL` becomes `Env.fetch`, a function of the request, where
  None stands for any transport or read error. `NewAsyncDDGS`, `getExecutor` and the client
  timeouts are not part of this model.
- Concurrency is not modelled. The page tasks run one at a time in an arbitrary order chosen by
  the caller. The source reads and writes `cache` outside its mutex, and every task writes
  the shared `payload["s"]`. Both are data races the model cannot express. Each page request
  carries its own `s`.
- Foreign decoders and renderers are abstract parameters. These are `encoding/json` decoding,
  the `htmlquery` parsing and XPath queries, `html.UnescapeString`, `%v` rendering and the
  RFC 3339 date rendering of a float timestamp.
- Type-assertion panics are not modelled. A forced assertion on a missing or mistyped field
  reads as the empty string (`StringOr`). One example is `row["a"].(string)`. Another is
  `icon["URL"].(string)` on a topic without an icon.
- The LRU memo of `is500InURL` is not part of this model. Only the regular expression is.
- `calculateDistance` is floating-point trigonometry and is not part of this model.
- `Translate` exists to make concurrent appends in nondeterministic order, and is not part of
  this model.
- `Suggestions` is a JSON pass-through and is not part of this model.
- Nil-node panics in the html and lite closures are not modelled. `htmlquery.InnerText` on
  a `FindOne` result that found no text node (the title link of an html block, the first
  link of a lite row) dereferences nil and crashes the program. The model reads such a
  title as a plain string, so `MarkedPage` and the walks never produce that panic.
- Search.CollectedInPageOrder: page order is proved only when no task panics and every page,
  walked on its own, accepts fewer than 100 records; a page walked after others accepts no
  more (`WalkFromEmpty`). Breaking the second condition does not always panic. A page that
  accepts more than 100 records, but whose last slot is still inside the slice, writes into
  the next page's band, and the output then depends on the completion order; the model runs
  such a search (`Collected`) but promises no order for it. Only a band that runs past the
  end of the slice panics (`RunOverflows`).
- Strings are sequences of characters, one per byte of the Go string. No UTF-8 decoding is
  modelled.

## Findings

| source | as written | input that shows it | evidently intended | confidence | as-written member | corrected member |
|---|---|---|---|---|---|---|
| async_ddgs.go:281-283 | `lo.Slice(records, maxResults, 0)` has start >= end, so textHTML always returns an empty list | any html search with maxResults = 1 whose page yields one record | `lo.Slice(records, 0, maxResults)`, as the other searches do | not executed | Search.TextHtml (Search.TextHtmlAlwaysEmpty, Search.SliceBoundsSwapped) | Search.TextHtmlIntended (Search.TextHtmlIntendedInPageOrder, Search.TextIntended) |
| async_ddgs.go:363-365 | the same swapped bounds make textLite always return an empty list | any lite search with maxResults = 1 whose page has three rows | `lo.Slice(records, 0, maxResults)` | not executed | Search.TextLite (Search.TextLiteAlwaysEmpty) | Search.TextLiteIntended (Search.TextLiteIntendedInPageOrder, Search.TextIntended) |
