# Linked Events RSS feed, modelled in Dafny

The service turns the Linked Events API into an RSS 2.0 feed with xCal event
extensions, for a set of places and a preferred language. This project models
the core of `src/main.py` and of the `rss_feed` package:

- **The field resolver `get_preferred_or_first`.** It checks an existence path
  first. It then takes the stripped first match of a preferred path, falling
  back to a second path, and swallows every failure into `None`. It works over
  decoded JSON. Paths are parsed from their text, in the subset of jsonpath_ng's
  syntax the code writes (`$`, `.name`, `.*`, `[*]`), and matched by jsonpath_ng's
  rules (module `Json`).
- **The place loader `get_locations`.** It makes one lookup per
  comma-separated id and fails fast with a 404. The results go in a dict keyed
  by `@id`, where a later place wins and insertion order is kept (modules
  `Locations`, `OrderedDict`).
- **The event loop of `get_linked_events_for_location`.** It covers the keyword
  categories, the image and enclosure pair, the event link with its three-way
  precedence, the organizer fallback, the GUID, the cost as written and the
  dates. Each
  exception that aborts the whole call is modelled, in the order the source
  raises them (modules `EventFields`, `Traverse`, `Events`).
- **The channel.** Its title and description are the joined non-empty place
  names. The wrapper is the `RSSFeed` (modules `Models`, `Events`).
- **The memoising wrapper `timed_lru_cache`.** It is a class with a memo table
  and an expiration time. The clock is a parameter (module `TtlCache`).
- **The query patterns of `GET /events`, as written** (module `Validators`).
  The 422 lists every parameter that fails. The endpoint itself is
  `Events.GetEvents`.
- **The RFC 822 date serializer of `Item` and `Channel`** (module `Rfc822`).
  The weekday is computed from the proleptic Gregorian calendar. The format
  reads back to the same datetime, without microseconds.
- **`RSSResponse`** (module `RssResponse`). It covers the default-header merge
  of `init_headers`, where caller headers win, and `etag`, which exists only
  for a body of bytes. `render` as written hands its content on unchanged,
  so the feed object makes the constructor raise. The endpoint builds its
  response with the intended `render`, which serializes the feed. SHA-1 is a
  parameter.

The upstream services, the image decoder, the date parser and the clock are
inputs: a `World` value holds the fetch functions, `parseDate` and the clock
readings.

**Behaviour of the code worth noting:**

- A keyword without a name aborts the whole call; the keyword is not
  skipped.
- A date that does not parse, and an event whose place is not among the loaded
  ones, abort the whole call; they do not leave a field empty.
- A preferred value that strips to `""` is returned as `""`. Only a missing or
  non-string value falls back.
- The event listing is fetched once, with no pagination.
- The item cost ignores the preferred language, and the language pattern
  accepts more than the three codes (see Findings).
- Super events are not skipped.
- There is no background refresh; the feed is computed on request behind the
  timed cache.

## Model

| member | source | states |
|---|---|---|
| Text.Strip | src/main.py:47 | the result has no whitespace at either end and is the input with only whitespace removed from its two ends |
| Text.StripAllSpace | src/main.py:47 | a whitespace-only value strips to the empty string |
| Text.StripTrimmed | src/main.py:49 | a value with no surrounding whitespace is unchanged by stripping |
| Text.StripIdempotent | src/main.py:47 | stripping twice is stripping once |
| Text.LowerAll | src/main.py:145 | same length, each character lower-cased |
| Text.Capitalize | src/main.py:129 | same length, first character upper-cased, every later character lower-cased (ASCII and Latin-1 letters) |
| Text.CapitalizeIdempotent | src/main.py:129 | capitalizing a capitalized name changes nothing |
| Text.CapitalizeKeepsLetters | src/main.py:129 | capitalizing changes case only: each character is the input's, up to case |
| Text.Split | src/main.py:89 | `split(",")` gives at least one piece and no piece holds a comma |
| Text.JoinSplit | src/main.py:89 | joining the pieces with the separator gives the string back |
| Text.SplitJoin | src/main.py:89 | splitting joined comma-free pieces gives the pieces back |
| Text.SplitNoSep | src/main.py:89 | a location string without a comma is a single id |
| Text.PadDigits | src/rss_feed/models/item.py:23 | for a number that fits, `%d`-style padding gives exactly the requested number of decimal digits |
| Text.PadDigitsValue | src/rss_feed/models/item.py:23 | the zero-padded digits read back as the number |
| OrderedDict.Get | src/main.py:168 | `d.get(k)` is None exactly when the key is absent, and otherwise a value stored under it |
| OrderedDict.Put | src/main.py:100 | `d[k] = v` adds an entry exactly when the key is new |
| OrderedDict.PutGetSame | src/main.py:100 | after `d[k] = v`, `d[k]` is `v` |
| OrderedDict.PutGetOther | src/main.py:100 | after `d[k] = v`, every other key keeps its value |
| OrderedDict.PutKeys | src/main.py:100 | an existing key keeps its place; a new key is appended (insertion order) |
| OrderedDict.PutAbsent | src/main.py:100 | assigning to a new key appends its entry and leaves the others as they are |
| OrderedDict.PutDistinct | src/main.py:100 | assignment keeps the keys distinct |
| Json.StepMatches | src/main.py:45 | a member step finds at most one value, and a falsy non-object finds nothing |
| Json.FindOneStep | src/main.py:45 | a one-step path finds exactly that step's matches |
| Json.FindThroughSingle | src/main.py:45 | a step with a single match hands the rest of the path to that value |
| Json.FindConcat | src/main.py:45 | following `p.q` is following `p`, then `q` from each match, in order |
| Json.FindAllConcat | src/main.py:45 | the same for a list of starting values |
| Json.FindAllAppend | src/main.py:45 | the matches of a concatenated list are the concatenated matches |
| Json.ParsePathText | src/main.py:45 | writing a well-formed path out and parsing it gives the path back |
| Json.ParsePath | src/main.py:45 | a parse error is None; whatever parses is a well-formed path that prints back as the same text |
| Json.BraceDoesNotParse | src/main.py:203 | no text containing `{` parses as a path |
| Resolver.FirstMatch | src/main.py:45 | `find(root)[0]` exists exactly when the path parses and finds something |
| Resolver.AllMatches | src/main.py:123 | the list of matches; non-empty exactly when there is a first match, and it starts with it |
| Resolver.FirstMatchOfPath | src/main.py:45 | the first match of a path given by its text is the first match of the path |
| Resolver.MemberThenStep | src/main.py:45 | when a member matches one value, the first match of that member followed by one step is the step's first match on that value |
| Resolver.FirstStripped | src/main.py:47 | a value exactly when the first match is a string; it is the stripped string |
| Resolver.GetPreferredOrFirst | src/main.py:43-54 | None when the existence path has no match or a null first match; otherwise the stripped preferred string even when blank, else the stripped fallback, else None; never surrounded by whitespace |
| Resolver.SinglePath | src/main.py:160 | with one path in all three places, the stripped first match when it is a string, else None |
| Resolver.BlankPreferredIsKept | src/main.py:45-49 | a blank Finnish name gives `""` and does not fall back to the Swedish one |
| Locations.PlaceRecordFields | src/main.py:94-100 | the `@id` and the email resolved as they stand; the name, street address, locality and info URL in the preferred language, else the first |
| Locations.Lookup | src/main.py:90-93 | a record exactly for a 200 response with a JSON body, and then that body's record; anything else raises |
| Locations.LoadFrom | src/main.py:88-103 | an error names one of the ids; a result keeps the keys so far first, in order, and adds at most one key per id |
| Locations.Assign | src/main.py:100 | re-assigning a key keeps its place: the keys so far stay first, in order, and each record adds at most one key |
| Locations.GetLocations | src/main.py:87-103 | the loop over the split ids computes `LoadFrom`, the loader's definition |
| Locations.LoadFailsAtFirst | src/main.py:89-102 | the load fails exactly when some id's lookup fails, and the 404 names the first such id |
| Locations.LoadSucceeds | src/main.py:89-100 | when every lookup succeeds, the dict is the records assigned in split order |
| Locations.AssignSpec | src/main.py:100 | keyed by `@id`, the last record with a key wins, other keys keep their values, keys stay distinct |
| TtlCache.TimedCache.constructor | src/main.py:68-72 | an empty memo table that expires one lifetime after decoration |
| TtlCache.TimedCache.Call | src/main.py:74-80 | at or after expiration: table emptied, expiration moved to now plus lifetime, answer computed afresh; before it: memoised answer repeated, otherwise computed; only successful answers memoised; a stale answer is the function's answer in its own world |
| TtlCache.RepeatWithinLifetime | src/main.py:76-80 | within the lifetime a successful answer is served again even after the world changed; a failed one is recomputed |
| TtlCache.RepeatAfterExpiry | src/main.py:76-78 | after expiration the answer reflects the current world |
| Traverse.MapResultsOk | src/main.py:122-124 | when every conversion succeeds, the list holds one converted value per element, in order |
| Traverse.MapResultsErr | src/main.py:126-131 | when some conversion raises, the loop ends with the first raised error |
| Traverse.MapResultsOkIff | src/main.py:122-124 | the loop succeeds exactly when every conversion succeeds |
| Traverse.FirstFailure | src/main.py:122-124 | the first position whose conversion raises |
| Traverse.MapResultsPointwise | src/main.py:122-124 | when the loop succeeds, it holds one value per element, and each is the conversion of the element at the same position |
| Models.NewItem | src/rss_feed/models/item.py:26-132 | only the title is given; category defaults to an empty list, every other field to None |
| Models.DefaultChannel | src/rss_feed/models/feed.py:32-57 | title `""`, the generator and docs defaults, ttl 60, empty category and item lists, all else None |
| Models.NewFeed | src/rss_feed/models/feed.py:60-67 | version `2.0`, declaring exactly the `ev` and `xcal` namespaces |
| Models.DateText | src/rss_feed/models/item.py:19-23 | a present date is printed, and the text reads back as the date without microseconds |
| Models.ItemPubDate | src/rss_feed/models/item.py:19 | `pub_date` goes through the RFC 822 formatter |
| Models.ChannelDates | src/rss_feed/models/feed.py:23-29 | both channel dates go through the same formatter as the item's |
| Rfc822.WeekdayIndex | src/rss_feed/models/item.py:22 | the weekday is a number from 0 (Monday) to 6 |
| Rfc822.WeekdayAdvances | src/rss_feed/models/item.py:22 | 0001-01-01 is a Monday and each next calendar day is the next weekday |
| Rfc822.OrdinalNextDay | src/rss_feed/models/item.py:22 | consecutive calendar days have consecutive ordinals |
| Rfc822.DaysBeforeYearCounts | src/rss_feed/models/item.py:22 | the closed-form day count equals the days of the preceding years counted one by one |
| Rfc822.DecimalText | src/rss_feed/models/item.py:23 | `%Y` prints a non-empty string of digits |
| Rfc822.DecimalTextValue | src/rss_feed/models/item.py:23 | the printed year reads back as the year |
| Rfc822.DecimalTextFourDigits | src/rss_feed/models/item.py:23 | years 1000 to 9999 print as four digits |
| Rfc822.OffsetText | src/rss_feed/models/item.py:23 | `%z` is empty exactly for a naive datetime, else a sign followed by four or six digits |
| Rfc822.OffsetRoundTrip | src/rss_feed/models/item.py:23 | the printed offset reads back as the offset |
| Rfc822.MonthNameNumber | src/rss_feed/models/item.py:23 | each English month abbreviation names its month |
| Rfc822.FormatHead | src/rss_feed/models/item.py:22-23 | the date's English weekday, a comma, the two-digit day, the English month |
| Rfc822.FormatTail | src/rss_feed/models/item.py:23 | the year, `HH:MM:SS`, then the datetime's own offset; a naive datetime ends in a space |
| Rfc822.Format | src/rss_feed/models/item.py:21-23 | the formatted text reads back as the datetime without microseconds, its own offset included |
| Validators.LocationRunSpec | src/main.py:228 | each state of the location pattern accepts exactly the rest whose pieces fit that state |
| Validators.LocationPatternSpec | src/main.py:228 | the location pattern accepts exactly the strings whose comma pieces are all `letters:digits` ids |
| Validators.LocationExamples | src/main.py:228 | `ab:1,c:2` passes; a trailing comma, an upper-case letter and a missing number fail |
| Validators.LanguagePatternSpec | src/main.py:229 | the intended pattern accepts exactly `fi`, `sv` and `en`, all of which the written one also accepts |
| Validators.LanguagePatternTooWide | src/main.py:229 | the written pattern accepts `finnish`, `xsvx` and `broken`, which the intended one refuses |
| Validators.ValidateQuery | src/main.py:226-231 | no 422 exactly when the location ids are well formed and the language passes the pattern as written; otherwise each failing parameter is listed, the location first |
| Validators.WideLanguageAccepted | src/main.py:229 | with valid ids, `finnish` is let through although it is not a language code |
| RssResponse.Etag | src/rss_feed/rss_response.py:11-13 | the body's SHA-1 digest, which exists exactly when the body is bytes; anything else raises `TypeError` |
| RssResponse.MergeDefaults | src/rss_feed/rss_response.py:16-26 | the headers given stay first and unchanged, and at most one entry per default follows them |
| RssResponse.MergeAddsFromDefaults | src/rss_feed/rss_response.py:24-26 | every entry the merge adds after the headers given is one of the defaults |
| RssResponse.InitAsWritten | src/rss_feed/rss_response.py:11-30 | the constructor as written gives headers exactly when the content is bytes: the caller's merged with the defaults and the content's digest |
| RssResponse.FeedBodyRaises | src/rss_feed/rss_response.py:11-30 | a model object or a text string as content makes the constructor raise `TypeError` |
| RssResponse.Render | src/rss_feed/rss_response.py:29-30 | the intended render always gives bytes: bytes kept, text encoded, a model serialized |
| RssResponse.RenderedBodyHasEtag | src/rss_feed/rss_response.py:11-30 | once rendered, the constructor as written succeeds, with the digest of the rendered body; rendering twice is rendering once |
| RssResponse.InitHeaders | src/rss_feed/rss_response.py:15-27 | an empty or missing mapping is replaced by a new one, a non-empty one is updated in place; the result is the caller's headers merged with the four defaults |
| RssResponse.Response.constructor | src/rss_feed/rss_response.py:15-30 | with the intended render, the body is the content as bytes; the headers are the caller's merged with the defaults and the body's ETag |
| RssResponse.MergeKeepsPresent | src/rss_feed/rss_response.py:24-26 | a header already present keeps its value |
| RssResponse.MergeAddsOnlyDefaults | src/rss_feed/rss_response.py:23-27 | a key neither supplied nor among the defaults stays absent |
| RssResponse.MergeAddsDefault | src/rss_feed/rss_response.py:24-26 | a default whose key is missing is added with its value |
| RssResponse.MergeKeepsOrder | src/rss_feed/rss_response.py:24-26 | the supplied headers keep their order and come first |
| RssResponse.InitHeadersDefaults | src/rss_feed/rss_response.py:16-26 | each default key is present afterwards, with the default value when the caller lacked it |
| RssResponse.InitHeadersAllPresent | src/rss_feed/rss_response.py:16-26 | all four default headers are present, and a missing ETag is the SHA-1 of the body |
| RssResponse.InitHeadersKeepsCaller | src/rss_feed/rss_response.py:23-27 | a caller header is never overwritten, and headers outside the four defaults are exactly the caller's |
| EventFields.KeywordName | src/main.py:129 | the keyword's name in the preferred language, else its first; none without a `name` |
| EventFields.KeywordDomain | src/main.py:130 | no `@id` raises; a string or null `@id` is the domain as it stands; any other value fails validation |
| EventFields.KeywordCategory | src/main.py:128-130 | a keyword without a name raises first; otherwise the domain's error, or a category whose content is the name, letter for letter up to case, capitalized |
| EventFields.FetchedMeta | src/main.py:139-145 | metadata exactly for a 200 response PIL decodes with a format: downloaded length, size, and `image/` plus the lower-cased format |
| EventFields.ImagePair | src/main.py:133-158 | enclosure and image both or neither, carrying URL, name and alt text; without fetching, length 0, empty type, no size; with fetching, present exactly when the fetch succeeds, carrying its metadata |
| EventFields.EventUrl | src/main.py:163-168 | the template formatted with the id; else the localized `info_url`; if None or empty, the place's `info_url`, and an unknown place is the only error |
| EventFields.Organizer | src/main.py:172-174 | the provider, unless None or empty, then the place name of the event document; never surrounded by whitespace |
| EventFields.EventGuid | src/main.py:184 | the base URL, then `/event/`, then the id as printed; not a permalink |
| EventFields.CostPathDoesNotParse | src/main.py:203 | the preferred cost path as written is not a path |
| EventFields.CostAsWritten | src/main.py:203 | with an offer price present, the first price in any language, whatever the preferred language; none without one |
| EventFields.Cost | src/main.py:203 | with an offer price present, the price in the preferred language when there is one, else the first price; none without one |
| EventFields.FreeOfferMatches | src/main.py:203 | in a one-offer event, the price object, its first price and its English price |
| EventFields.CostCounterexample | src/main.py:203 | for English, the cost as written is the Finnish price and the corrected cost the English one |
| Events.EventTitle | src/main.py:170 | the event's name in the preferred language, else its first |
| Events.ShortDescription | src/main.py:180 | the short description in the preferred language, else the first; none without one |
| Events.OrganizerUrl | src/main.py:198 | the `info_url.name` entry in the preferred language, else the first |
| Events.EventDate | src/main.py:185-195 | a date exactly when the field resolves and parses, and that parse; otherwise the error names the field |
| Events.ItemFromEvent | src/main.py:160-206 | errors in source order (unknown place, then the three dates, then a missing title); success exactly when none occurs; the item mirrors its xCal fields and carries the resolved link, place fields, GUID, image pair, organizer, cost as written and dates |
| Events.TransformEvent | src/main.py:124-206 | a category error comes first; otherwise the item built with the categories, mirrored |
| Events.ItemCategories | src/main.py:125-131 | with categories asked for, one per keyword in order, each the keyword's category; without, none |
| Events.KeywordCategories | src/main.py:127-131 | when every keyword converts, there is one category per keyword, each that keyword's category |
| Events.KeywordErrorAborts | src/main.py:127-131 | the first keyword that raises ends the event with its error |
| Events.CollectCategories | src/main.py:125-131 | the keyword loop computes the categories or the first keyword's error |
| Events.BuildItem | src/main.py:124-206 | one pass of the event loop computes the event's conversion |
| Events.BuildItems | src/main.py:122-206 | the event loop computes the items or the first event's error |
| Events.LocationNames | src/main.py:209 | exactly the non-empty place names, none empty, no more names than places |
| Events.LocationNamesAppend | src/main.py:209 | names follow the dict order: a place added last adds its non-empty name last |
| Events.EventsUrl | src/main.py:115-120 | the events endpoint with the query string of `location`, `include=keywords` when categories are asked for, `days=31` and `sort=start_time` |
| Events.FeedLink | src/main.py:210-214 | the feed's address with the query string of `location`, `preferred_language` and each flag that is set |
| Events.FeedLinkParameters | src/main.py:210-214 | when the ids and the language hold no `&`, the link's query splits at `&` into exactly its parameters |
| Events.AssembleChannel | src/main.py:208-221 | title and description are the joined names, the self link, language `""`, the two clock readings, the ttl and the items; other fields default |
| Events.FeedOf | src/main.py:122-223 | a feed exactly when every event converts, with one item per event in order and the assembled channel |
| Events.EventItems | src/main.py:123-223 | the items are built exactly when every event converts, and then there is one item per event, each that event's conversion |
| Events.LinkedEvents | src/main.py:106-223 | a failing place gives its 404; a feed has version `2.0`, description equal to title, and only mirrored items |
| Events.PlaceFailureFirst | src/main.py:113 | the call fails with the 404 of the first place whose lookup fails |
| Events.BadEventAborts | src/main.py:122-206 | an event that cannot be converted ends the call with the first such event's error |
| Events.GetLinkedEventsForLocation | src/main.py:107-223 | the place loop, fetch and event loop compute `LinkedEvents` |
| Events.GetEvents | src/main.py:226-239 | a query failing either pattern as written gives a 422 and leaves the cache alone; after expiry or on a first call the response carries the fresh feed or its error; before expiry a memoised feed is served again; the response headers are the defaults for its body |

## Left out

- HTTP, the FastAPI app, the `/status` route and `server`: fetches are functions in `World` and answers are values; status codes are the error values.
- JSON decoding: a body that is not JSON is `None`. JSON numbers are integers only; floats are not modelled.
- PIL: the image's size and format are inputs of `ImageFetch`.
- dateutil: parsing is the partial function `World.parseDate`.
- XML rendering by pydantic_xml, including how `xcal_dtstart` and `xcal_dtend` are printed: the feed is a datatype and its XML text is the parameter `render` of `Events.GetEvents`.
- `hashlib.sha1` is the parameter `sha1hex`.
- The clock: the cache takes `now` in seconds, and the channel takes two clock readings from `World`. On an expired call `timed_lru_cache` reads the clock twice, once for the test and once for the new expiration (src/main.py:76 and :78); the model uses the one reading `now` for both.
- The environment and module start-up: `Config` holds the settings, with the TTL and the cache size as integers. As written, `os.getenv` hands `timed_lru_cache` strings or None (src/main.py:25-26, 106). `lru_cache(maxsize=<str>)` and `timedelta(seconds=<str or None>)` raise `TypeError` when the decorator is applied (src/main.py:70-71). So the module fails at import whatever the settings, and line 20 already calls `find_dotenv` as an attribute of the function `load_dotenv`. The model starts from settings that are already integers.
- TtlCache.TimedCache.Call: the memo table is unbounded; LRU eviction at `maxsize` entries is not modelled.
- Events.GetEvents: the response is built with the intended `render`, which serializes the feed to bytes. As written, `RSSResponse` is handed the feed object and `render` returns it unchanged, so computing the ETag raises `TypeError` and every feed request ends in a server error (`RssResponse.FeedBodyRaises`; see Findings).
- Validators.ValidateQuery: only the two patterned parameters are checked. FastAPI's parsing of `fetch_image_data` and `include_categories` as booleans is not modelled, because `Query` already holds booleans. The wording of the 422 body is not modelled either.
- Json.ParsePath: only `$`, `.name`, `.*` and `[*]` are parsed, and anything else is a parse error. jsonpath_ng's lexer also skips blanks and tabs. Its grammar also has `..`, `[n]`, field lists `a,b`, quoted names and further operators. The language pattern as written lets such text into the paths: ` en` (a leading blank) parses in jsonpath_ng as `.en`, but it is `None` here.
- The `content-length` and `content-type` headers that starlette's own `init_headers` adds after the four defaults (src/rss_feed/rss_response.py:27), and so the class attributes `media_type` and `charset` (src/rss_feed/rss_response.py:8-9): starlette is not part of this model.
- EventFields.FormatTemplate: an `EVENT_URL_TEMPLATE` is modelled as text cut at its `{id}` fields. Other format fields, and format errors, are not modelled.
- Text.Capitalize: case mapping covers ASCII and the Latin-1 letters U+00C0 to U+00FE. Python's other Unicode case mappings are not modelled. These include `ÿ` and `µ`, whose upper cases lie outside Latin-1, and `ß` and other characters whose title case has several letters.
- Header names are compared exactly; the case-insensitive header mapping of starlette is not modelled.
- The model files that only declare fields (category, cloud, enclosure, guid, image, source, textinput) are records in `Models`. Their serialisation aliases and XML tags are not modelled.

## Findings

| source | as written | input that shows it | evidently intended | confidence | as-written member | corrected member |
|---|---|---|---|---|---|---|
| src/main.py:203 | the preferred cost path lacks the `f` prefix, so it is the literal text `{preferred_language}`; it never parses, and the cost is always the first price in any language (the feed items keep this cost) | an event with one offer priced "Ilmainen" in Finnish and "Free" in English, preferred language `en`: the cost is "Ilmainen" | the price in the preferred language, `$.offers[*].price[*].<lang>` | not executed | EventFields.CostAsWritten, EventFields.CostCounterexample | EventFields.Cost |
| src/main.py:229 | alternation binds loosest, so the language pattern reads as `^fi` or `sv` or `en$` (the endpoint keeps this pattern) | `finnish`, `xsvx` and `broken` all pass | exactly one of `fi`, `sv`, `en` | not executed | Validators.LanguagePatternAsWritten, Validators.LanguagePatternTooWide | Validators.LanguagePattern, Validators.LanguagePatternSpec |
| src/rss_feed/rss_response.py:29-30 | `render` returns its content unchanged, so `etag` hashes the object handed in, and `hashlib.sha1` accepts only bytes | the `RSSFeed` object that `get_events` passes (src/main.py:233-239): the ETag raises `TypeError`, so every feed request fails with a server error | `render` serializes the content to bytes, its declared result type | not executed | RssResponse.InitAsWritten, RssResponse.FeedBodyRaises | RssResponse.Render, RssResponse.RenderedBodyHasEtag |
