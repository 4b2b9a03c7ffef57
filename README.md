# bg3mods-feed core, modelled in Dafny

bg3mods-feed is a small HTTP service. It pages through the mod.io-style
listing of Baldur's Gate 3 mods and republishes it as an RSS, Atom or JSON
feed. This project models the core of that service:

- `config.dfy` (module `Config`): the platform and feed-format
  enumerations and their validity checks, the built-in defaults, and the
  format check that ends `Load`.
- `mods.dfy` (module `Mods`): the `Mod` record and the derived values the
  feed uses: its display name, its creation and update times (a `uint64`
  epoch reinterpreted as `int64`), and whether it supports a platform.
- `fetch.dfy` (module `Fetch`): the paging options of one upstream
  request, the upstream itself as an abstract function, and the query
  parameters `optsToURL` writes into the request URL.
- `options.dfy` (module `Options`): the per-request option record. This
  covers parsing it from a query string, merging it into the defaults, and
  resolving sort aliases.
- `generator.dfy` (module `Feed`):
  - the cache key;
  - the paging loop `generate`, an imperative method with a nested
    per-record loop;
  - the `Generator` class, whose `GetFeed` method consults and replaces its
    `cachedData` map.
- `text.dfy` (module `Text`) and `wrappers.dfy` (module `Wrappers`): the
  parts of Go's `strings` and `strconv` the core relies on, and
  `Option`/`Result`.

The central definition is the ghost predicate `Feed.Generation`. It
describes a whole run of `generate` in terms of the requests sent and the
pages received:

- The k-th request asks for `PageSize(opts)` records at offset `k` times
  that size.
- Every page before the last was full.
- The item-limit check, which comes before each record, never fired on
  those earlier pages.
- An error ends the run with that error.
- Otherwise the feed holds the first `maxItems` projections of the records
  that pass the platform filter, in upstream order.

`Feed.Generate` is proved to satisfy it. Determinism of the description,
the bounds on the number of items, and the extra request the "check
before each record" order causes are all proved from it.

## Model

| member | source | states |
|---|---|---|
| Config.PlatformIsValid | internal/config/config.go:32-38 | `Platform.IsValid`: the platform is one of the four named constants |
| Config.FormatIsValid | internal/config/config.go:48-54 | `FeedFormat.IsValid`: the format is one of the three named constants |
| Config.PlatformValidity | internal/config/config.go:25-38 | a platform is valid exactly when it is one of `windows`, `mac`, `ps5`, `xboxseriesx`; the unset platform is not valid |
| Config.FormatValidity | internal/config/config.go:42-54 | a format is valid exactly when it is `rss`, `atom` or `json`; the empty format is not valid |
| Config.CheckFormat | internal/config/config.go:104-107 | the configuration is accepted unchanged if and only if its format is valid; otherwise the error names the offending format |
| Config.DefaultConfigurationAccepted | internal/config/config.go:14-21 | the built-in defaults (format `atom`, 100 items, sort `recent`, five minutes, `:8080`) pass the format check |
| Mods.ToInt64 | internal/mods/types.go:56-62 | the `int64(uint64)` conversion: the result lies in the int64 range, is congruent to the input modulo 2^64, and equals it below 2^63 |
| Mods.Mod.String | internal/mods/types.go:52-54 | definition: a mod displays as its name |
| Mods.Mod.DateAdded | internal/mods/types.go:56-58 | the creation time is the added epoch in seconds, reinterpreted as a signed 64-bit value: in the int64 range, congruent to the epoch modulo 2^64, and equal to it below 2^63 |
| Mods.Mod.DateUpdated | internal/mods/types.go:60-62 | the same for the update epoch |
| Mods.Mod.SupportsPlatform | internal/mods/types.go:68-75 | a mod supports a platform as decided by its modfile's platform list (see `Mods.FirstEntryDecides`) |
| Mods.PlatformSupported | internal/mods/types.go:68-75 | the scan of the modfile's platform entries answers true exactly when there is a first entry naming the platform and its status is 1 |
| Mods.FirstMatchUnique | internal/mods/types.go:69-73 | the scan stops at a unique entry: there is at most one first entry naming a platform |
| Mods.NoEntryUnsupported | internal/mods/types.go:74 | with no entry naming the platform, the mod does not support it |
| Mods.FirstEntryDecides | internal/mods/types.go:68-75 | `SupportsPlatform` holds if and only if the first entry naming the platform has status 1; any other status means unsupported, whatever later entries say |
| Mods.LaterEntriesIgnored | internal/mods/types.go:69-73 | entries after a matching entry do not change the answer |
| Mods.TopLevelPlatformsIgnored | internal/mods/types.go:68-69 | only the modfile's platform list is consulted, never the mod's own `platforms` list |
| Fetch.Get | internal/feed/options.go:31-47 | `Values.Get`: the first value of a present key, and "" for a missing key or an empty value list |
| Fetch.OptsToQuery | internal/mods/fetch.go:74-86 | `_limit`, `_offset`, `_sort` and `tags-in` are set to a single value (decimal limit, decimal offset, sort, comma-joined tags) exactly when the option is positive or non-empty; otherwise they stay as in the base URL; every other parameter is kept |
| Fetch.FirstPageQuery | internal/mods/fetch.go:75-80 | the first page of a run sends no `_offset` and a `_limit` whose digits denote the limit |
| Text.Join | internal/feed/generator.go:70 | `strings.Join(parts, ",")`: the parts with one comma between neighbours (partnered by `Text.JoinSplit` and `Text.SplitJoin`) |
| Text.Split | internal/feed/options.go:37-38 | `strings.Split(s, ",")` never returns an empty list, and its pieces contain no comma |
| Text.JoinSplit | internal/feed/options.go:37-38 | joining the split pieces with commas gives back the `tags` parameter |
| Text.SplitJoin | internal/feed/generator.go:70 | splitting a join of non-empty list of comma-free tags gives back the tags |
| Text.DecimalString | internal/mods/fetch.go:75-80 | the decimal rendering of a natural number is a non-empty digit string without leading zero |
| Text.DecimalStringValue | internal/mods/fetch.go:75-80 | the decimal rendering denotes the number it renders |
| Text.Itoa | internal/mods/fetch.go:75-80 | `strconv.Itoa`: a non-negative number renders as digits denoting it; the result starts with `-` exactly for a negative number |
| Options.GeneratorOptions.Merge | internal/feed/options.go:54-74 | each field of the result is the override's when the override passes its guard (positive count or interval, non-empty sort, platform or tags, valid format) and the base's otherwise |
| Options.GeneratorOptions.GetSort | internal/feed/options.go:76-94 | an unset sort resolves to `-date_live`; an alias resolves to its upstream field; anything else passes through unchanged; the result is never empty and never an alias |
| Options.OptionsFromQuery | internal/feed/options.go:29-50 | `max_items` and `fetch_interval` are taken when they parse, and 0 otherwise; the sort is the raw `sort` parameter; the tags are empty exactly when `tags` is empty, and are otherwise its comma split, which re-joins to it; platform and format are the parameter when it is valid and unset otherwise |
| Options.MergeUnsetIdentity | internal/feed/options.go:54-74 | merging an override with no field set returns the base unchanged |
| Options.MergeIdempotent | internal/feed/options.go:54-74 | merging the same override twice equals merging it once |
| Options.MergeAssociative | internal/feed/options.go:54-74 | merging two overrides in turn equals merging their merge |
| Options.MergeKeepsValidFormat | internal/feed/options.go:70-72 | a valid base format stays valid after any merge |
| Options.EmptySortIsRecent | internal/feed/options.go:77-79 | an unset sort resolves like the `recent` alias, to `-date_live` |
| Options.GetSortStable | internal/feed/options.go:76-94 | resolving an already resolved sort leaves it unchanged |
| Options.DefaultSortIsAlias | internal/config/config.go:17 | the default sort `recent` is one of the aliases |
| Options.InvalidQueryValuesKeepDefaults | internal/feed/options.go:40-48 | a platform or format parameter that is not valid is treated as absent: after the merge the configured default stays in force |
| Options.EmptyQueryIsUnset | internal/feed/options.go:29-50 | an empty query yields the override with every field unset, given parsers that reject "" |
| Feed.KeyOf | internal/feed/generator.go:67-72 | the cache key of merged options: item limit, resolved sort, comma-joined tags and platform |
| Feed.RequestFor | internal/feed/generator.go:122-127 | the k-th request of a run: page size between 1 and 100, offset k times the page size, and a resolved, non-empty sort |
| Feed.ItemOf | internal/feed/generator.go:138-146 | the feed item of a record: id, title, link, summary, creation and update times, and description |
| Feed.Keep | internal/feed/generator.go:135-137 | the platform filter only applies to a valid platform, and then keeps exactly the records that support it |
| Feed.Generation | internal/feed/generator.go:108-153 | the description of a whole run that `Feed.Generate` is proved to meet (see above) |
| Feed.LimitStops | internal/feed/generator.go:110-111 | a positive item limit with no valid platform filter, under which every full page adds as many items as records |
| Feed.UnfilteredGrows | internal/feed/generator.go:131-147 | without a platform filter a page adds exactly one item per record |
| Feed.PageSize | internal/feed/generator.go:109-112 | the page size is 100, or `maxItems` when that is positive and smaller; it is always between 1 and 100 |
| Feed.Selected | internal/feed/generator.go:135-146 | the items of the records passing the platform filter; never more items than records |
| Feed.Cap | internal/feed/generator.go:132-134 | the first `maxItems` items when `maxItems` is positive, and all of them otherwise |
| Feed.SelectedAppend | internal/feed/generator.go:131-147 | the selection of a concatenation is the concatenation of the selections |
| Feed.SelectedSnoc | internal/feed/generator.go:135-146 | one more record adds its item exactly when it passes the filter |
| Feed.SelectedSkips | internal/feed/generator.go:135-137 | a record the filter rejects adds no item and does not count toward the limit |
| Feed.SelectedUnfiltered | internal/feed/generator.go:135 | without a valid platform every record becomes an item, in order |
| Feed.NotCappedPrefix | internal/feed/generator.go:132-134 | if the limit check passed for every record of a sequence, it passed for every record of each prefix |
| Feed.CollectPage | internal/feed/generator.go:131-147 | the per-record loop: either the limit was reached before record `at` and the items are the selection of everything before it, or the whole page was selected and the limit check passed for every record; never more than `maxItems` items |
| Feed.FailedRun | internal/feed/generator.go:128-130 | a fetch error after full, uncapped pages is a run that returns that error |
| Feed.FinishedRun | internal/feed/generator.go:115-119 | a run that stops after its last page returns the fixed title and description and the capped selection of all records |
| Feed.NextPage | internal/feed/generator.go:148-151 | after a full page on which the limit was not reached, the loop continues with the next offset |
| Feed.LastPage | internal/feed/generator.go:131-151 | a short page, or reaching the limit before a record, ends the run with the capped selection |
| Feed.EarlyStop | internal/feed/generator.go:132-134 | stopping at record `i` with `maxItems` items gives exactly the capped selection of everything fetched |
| Feed.Generate | internal/feed/generator.go:108-153 | the paging loop: the requests are consecutive pages, an upstream error is returned as a fetch failure, and otherwise the feed holds the first `maxItems` selected records, collected until a short page or the limit; a returned feed never holds more than a positive `maxItems` items; it terminates on an upstream that runs out of records, and also on an endless one when the item limit alone stops it |
| Feed.EndsNoEarlier | internal/feed/generator.go:121-152 | no run on the same upstream and options sends more requests than another: the loop cannot stop earlier in one run than in another |
| Feed.SamePages | internal/feed/generator.go:121-127 | the same requests get the same pages from the same upstream |
| Feed.ContinuedPrefix | internal/feed/generator.go:148-151 | the loop went on past every page of a prefix of the pages it went on past |
| Feed.GenerationDeterministic | internal/feed/generator.go:108-153 | the requests, pages and result of a run are determined by the upstream and the options |
| Feed.GenerationBounded | internal/feed/generator.go:132-134 | a generated feed has at most `maxItems` items, exactly that many when enough records pass, and they are the selection's first items in order |
| Feed.FullFirstPageFetchesAnother | internal/feed/generator.go:131-151 | the limit is checked before a record, not after it, so a full first page that reaches the limit only at its last record still triggers a second request |
| Feed.CappedFirstPageFetchesOnce | internal/feed/generator.go:132-134 | when the limit is reached before the last record of the first page, exactly one request is sent and a feed is returned |
| Feed.Present | internal/feed/generator.go:88-105 | the response carries the entry's time and the requested format; a render failure for a valid format becomes an error; an unknown format gives empty content and no error |
| Feed.ListingFinite | internal/feed/generator.go:148-151 | a finite listing served page by page meets `UpstreamFinite` with its length as bound, so `Feed.Generate` and `GetFeed` accept it for any options, including a zero item limit |
| Feed.Generator.constructor | internal/feed/generator.go:54-60 | a new generator has the given defaults and an empty cache, so every cached feed trivially respects its key's item limit |
| Feed.Generator.GetFeed | internal/feed/generator.go:62-106 | given the upstream as it answers during the call, which is finite or whose merged options let the item limit stop paging: keeps every cached feed within its key's item limit; serves a fresh entry for the merged options' key without regenerating; otherwise generates; on error returns it and leaves the cache unchanged; on success replaces only that key's entry, stamped with the completion time, and renders it |
| Feed.KeyIgnoresIntervalAndFormat | internal/feed/generator.go:67-72 | options differing only in fetch interval and format share a cache key |
| Feed.KeyDeterminedBy | internal/feed/generator.go:41-46 | two keys are equal if and only if item limit, resolved sort, joined tags and platform are equal |
| Feed.OverridesShareEntry | internal/feed/generator.go:66-72 | requests whose overrides differ only in fetch interval and format hit the same cache entry |
| Feed.KeyTagsAreQueryTags | internal/feed/generator.go:70 | the tags part of a request's key is its raw `tags` query parameter when that is non-empty |
| Feed.Fresh | internal/feed/generator.go:73-74 | an entry is served from the cache when it exists and is no older than the fetch interval |
| Feed.FreshAfterStore | internal/feed/generator.go:73-83 | a just-stored entry is served from the cache exactly while no more than the interval has passed since it was stored |
| Feed.StaleStaysStale | internal/feed/generator.go:73-78 | a stale or missing entry stays stale later, so after a failed regeneration the next request regenerates again |

## Left out

- `Feed.Generate` requires `UpstreamFinite` (some offset beyond which every request for a positive number of records gets a short page or an error) or `LimitStops` (a positive item limit and no valid platform). The service needs neither. An upstream that always answers with full pages ends the loop only when the item limit is reached. With a zero limit, or with a platform filter that rejects record after record, the service fetches forever. The model proves termination, so it cannot describe such a run. It also leaves out the runs that a platform filter happens to end on an endless upstream.
- `Feed.Generator.GetFeed` carries the same termination requirement as `Feed.Generate`, for the upstream of that call and the merged options.
- `Feed.Generator.GetFeed` and `Feed.Generate` take the upstream as a parameter instead of reading the generator's `api` field. The upstream is given as its answers during that one call, because the real service's answers change between calls (new mods, transient HTTP errors, a cancelled request context). The model therefore does not say that two calls use the same fetcher object.
- `Feed.Generator.GetFeed`: the mutex around the method is not modelled. Concurrency is out of scope, and the method is modelled as one atomic step.
- `Feed.Generator.GetFeed`: the clock becomes two parameters. `now` stands for the reading behind `time.Since`, and `doneAt` for `time.Now()` after generation. The logging of a cache hit is not modelled.
- The `gorilla/feeds` serialisers (`ToRss`, `ToAtom`, `ToJSON`) are a function parameter that may fail. XML and JSON serialisation is not modelled, and the feed link is kept as a plain string.
- `Fetch.OptsToQuery`: the `url.Parse` failure of a malformed API URL is not modelled. Neither are the percent-encoding of `q.Encode()` and `u.String()`: the model yields the parameter map.
- The HTTP request of `Fetch`, its headers, the status-code check, JSON decoding and logging are not modelled. All of these failures are folded into the `Err` answers of the upstream passed to that call.
- `strconv.Atoi` and `time.ParseDuration` are parameters of `Options.OptionsFromQuery`. Their parsing rules belong to Go's standard library.
- `url.URL.Query()` is not modelled: the query is given already parsed into a parameter map.
- `Load`, `GetViper`, `BindPFlags` and `Configuration.Log` are not modelled. Reading files, environment variables and flags through viper/pflag is I/O. Only the final format check (`Config.CheckFormat`) and the registered defaults (`Config.DefaultConfiguration`) are modelled.
- `Mod.DateLive` is not modelled, because the core never uses it. Neither are the response paging fields and the unused `Mod` fields (statistics, media, users, the float price fields), because nothing in the core reads them.
- Go's 64-bit `int` is modelled as an unbounded integer for offsets, limits, item counts and durations. An offset near 2^63 is unreachable for any real upstream. Only the `uint64` to `int64` epoch conversion, whose wrap-around is observable, is modelled exactly (`Mods.ToInt64`).
- `internal/server/server.go` and `main.go` are not part of this model. They cover the HTTP handler that calls `OptionsFromQuery` and `GetFeed` and writes the response, and the process start-up.
