# Kam web UI: offline cache worker, command catalogue and locale choice

This project models three pieces of the Kam web UI and proves what each
promises.

- **The offline cache controller** (`public/sw.js`): the service worker's
  `install`, `activate`, `fetch` and `message` handlers. Each handler is one
  sequential step of a `Worker` class over an ordered list of named caches
  plus two host flags: whether `skipWaiting` was called and whether clients
  were claimed.
  - Install precaches the five entry URLs. It tries one bulk `addAll` first
    and falls back to adding the URLs one by one.
  - Activate deletes every cache that is not `kam-precache-<version>` or
    `kam-runtime-<version>`.
  - Fetch sorts each request into one of four classes and applies that
    class's strategy:
    - non-GET: not handled;
    - navigation: network first, with the cached index page or an offline
      page as fallback;
    - same-origin: cache first, with a bodyless 503 as fallback;
    - cross-origin: network first, with any cache or a bodyless 503 as
      fallback.
  - The host's Cache API (section 5.4 `Cache` and section 5.5 `CacheStorage`
    of the W3C Service Workers specification) is a set of specification
    functions in `CacheApi`: `open`, `put`, `delete`, `match`, `keys`, `add`
    and the all-or-nothing `addAll`.
  - The network, `caches.open` and the fire-and-forget `cache.put` are
    outcomes passed in as parameters.
- **The command catalogue** (`src/data/kam.ts`): the table of sixteen `kam`
  commands, with every field, and the helpers `getAllCommands`,
  `getCommandByName`, `searchCommands` and `getCommandNames`. These helpers
  are built from the JavaScript string operations `trim`, `toLowerCase` and
  `includes`, which are modelled in `Text`.
- **The initial locale** (`src/main.ts`): a stored "en" or "zh" wins.
  Otherwise the browser language decides. Any exception leaves "en".

Files:

- `wrappers.dfy`: `Option`.
- `text.dfy`: JavaScript white space, `trim`, ASCII `toLowerCase`, `includes`
  and `startsWith`.
- `kam.dfy`: the catalogue.
- `locale.dfy`: the locale choice.
- `cache_api.dfy`: the host cache storage.
- `service_worker.dfy`: the worker.

Points of the code's behaviour that the model keeps as written:

- **Activate and a rejected deletion.** The deletions run under
  `Promise.all` (`public/sw.js:76-85`), so a single rejected deletion makes
  the handler reject before `clients.claim()`. `Worker.Activate` claims
  clients only when no deletion of a stale cache was rejected. The other
  deletions still happen.
- **Precached URLs.** `PRECACHE_URLS` has five entries, `BASE` itself
  included (`public/sw.js:32-38`).
- **A navigation whose `caches.open` rejects after a successful fetch.** The
  rejection falls into the same `catch` as a network failure
  (`public/sw.js:110-121`), so the cached index page or the offline page is
  served instead of the live response.
- **A same-origin miss whose `caches.open` rejects after a successful fetch.**
  This case ends in the bodyless 503 (`public/sw.js:149-168`).

## Model

| member | source | states |
|---|---|---|
| Kam.TableNamesAgree | src/data/kam.ts:65-504 | the table has sixteen commands, in the order init, build, version, cache, tmpl, validate, completions, secret, sign, verify, check, export, toml, config, about, help |
| Kam.Commands | src/data/kam.ts:65-504 | `KAM_COMMANDS`, assembled from the columns below; its meaning is carried by `TableNamesAgree`, `TableEntriesComplete`, `CommandNamesAreKeys` and `MainCommandsPresent` |
| Kam.TableNames | src/data/kam.ts:65-504 | the name column; `TableNamesAreLowerWords`, `TableNamesDistinct` and `TableNamesAreKeys` state what the lookup relies on |
| Kam.Summary | src/data/kam.ts:65-504 | the summary column, text for text; `SummariesNonEmpty` states that no summary is empty |
| Kam.DetailsOf | src/data/kam.ts:65-504 | the description, usage, flags and examples of each command, text for text; the search over descriptions is stated by `SearchIsOrderedFilter` |
| Kam.TableEntriesComplete | src/data/kam.ts:65-504 | every command has a non-empty name and a non-empty summary |
| Kam.SummariesNonEmpty | src/data/kam.ts:65-504 | every summary is non-empty |
| Kam.TableNamesDistinct | src/data/kam.ts:65-504 | no two commands share a name |
| Kam.TableNamesAreLowerWords | src/data/kam.ts:65-504 | every name is a non-empty word of lower-case letters |
| Kam.TableNamesAreKeys | src/data/kam.ts:65-504 | every name is already trimmed and lower-case, so it is its own lookup key |
| Kam.LowerWordIsKey | src/data/kam.ts:517-518 | a non-empty word of lower-case letters is unchanged by `toLowerCase` and by `trim` |
| Kam.GetAllCommands | src/data/kam.ts:509-511 | the copy has the table's length and the table's entry at every index |
| Kam.FindByKey | src/data/kam.ts:518 | `find` gives nothing exactly when no lower-cased name equals the key, and otherwise the first command whose name does |
| Kam.NameKey | src/data/kam.ts:517 | the lookup key is the name trimmed, then lower-cased; `GetCommandByNameIgnoresCase`, `GetCommandByNameIgnoresPadding` and `TableNamesAreKeys` state what follows from that order |
| Kam.FindByKeyFindsFirst | src/data/kam.ts:518 | if command `i` is the first whose lower-cased name is the key, `find` returns command `i` |
| Kam.GetCommandByName | src/data/kam.ts:516-519 | nothing exactly when no command's lower-cased name equals the trimmed, lower-cased query; otherwise a table command whose lower-cased name does (the first one, by `FindByKey`) |
| Kam.DistinctKeysFound | src/data/kam.ts:518 | over distinct lower-case names, looking a command up by its own name returns that command |
| Kam.GetCommandByNameIgnoresCase | src/data/kam.ts:516-519 | `getCommandByName(name.toLowerCase())` equals `getCommandByName(name)` |
| Kam.GetCommandByNameIgnoresPadding | src/data/kam.ts:516-519 | white space around the name does not change the result |
| Kam.CommandNamesAreKeys | src/data/kam.ts:65-504 | the names of the table's commands are their own keys and are pairwise distinct |
| Kam.GetCommandByNameFindsEveryEntry | src/data/kam.ts:516-519 | looking up any table command by its own name returns that command |
| Kam.MainCommandsPresent | src/data/kam.ts:65-504 | looking up "init", "build", "version", "tmpl" or "export" finds a command |
| Kam.FilterMatching | src/data/kam.ts:527-533 | the result holds exactly the commands whose lower-cased name, summary or description (empty if absent) contains the query, and is no longer than the input; `FilterMatchingCounts` fixes how often each occurs |
| Kam.FilterMatchingCounts | src/data/kam.ts:527-533 | every matching command occurs in the result as often as in the input, every other command not at all |
| Kam.MatchesQuery | src/data/kam.ts:528-532 | the `filter` test: the lower-cased name, summary or description, an absent description read as "", contains the query; `FilterMatching`, `FilterMatchingCounts` and `SearchIsOrderedFilter` are stated over it |
| Kam.QueryKey | src/data/kam.ts:525 | the query key is the query trimmed, then lower-cased; `SearchBlankListsAll` and `SearchIgnoresCase` state what follows from it |
| Kam.SearchCommands | src/data/kam.ts:524-534 | `searchCommands`: the whole table for a blank query (`SearchBlankListsAll`), otherwise the matching commands in table order (`SearchIsOrderedFilter`, `FilterMatchingCounts`), whatever the case of the query (`SearchIgnoresCase`) |
| Kam.SearchBlankListsAll | src/data/kam.ts:525-526 | an empty or white-space-only query returns the whole table |
| Kam.FilterIsSubsequence | src/data/kam.ts:527-533 | the filtered list is an order-preserving subsequence of its input |
| Kam.SearchIsOrderedFilter | src/data/kam.ts:525-533 | for a non-blank query, the result is an order-preserving subsequence of the table and holds exactly the matching commands |
| Kam.SearchIgnoresCase | src/data/kam.ts:525 | searching for `query.toLowerCase()` gives the same result as searching for `query` |
| Kam.NamesOf | src/data/kam.ts:540 | `map(c => c.name)` has the input's length and the i-th name at index i |
| Kam.GetCommandNames | src/data/kam.ts:539-541 | `getCommandNames`; `GetCommandNamesIsTableNames` states it is the sixteen names in table order |
| Kam.GetCommandNamesIsTableNames | src/data/kam.ts:539-541 | `getCommandNames()` is the sixteen names in table order |
| Text.LowerChar | src/data/kam.ts:517 | lower-casing a character leaves no upper-case letter, keeps white space and changes only 'A'..'Z' |
| Text.IsSpace | src/data/kam.ts:517 | the characters `trim` removes: ECMAScript white space and line terminators; `TrimStart`, `TrimEnd`, `Trim` and `TrimPadded` are stated over it, and `LowerChar` keeps it |
| Text.ToLower | src/data/kam.ts:517 | lower-casing keeps the length and lower-cases every character |
| Text.ToLowerIdempotent | src/data/kam.ts:517 | lower-casing twice is lower-casing once |
| Text.ToLowerAppend | src/data/kam.ts:517 | lower-casing distributes over concatenation |
| Text.TrimStart | src/data/kam.ts:517 | the result is a suffix that does not begin with white space, and everything dropped is white space |
| Text.TrimEnd | src/data/kam.ts:517 | the result is a prefix that does not end with white space, and everything dropped is white space |
| Text.Trim | src/data/kam.ts:517 | the result occurs in the input with only white space before and after it, and neither begins nor ends with white space |
| Text.TrimPadded | src/data/kam.ts:517 | extra white space on either side does not change the trimmed string |
| Text.TrimIdempotent | src/data/kam.ts:517 | trimming twice is trimming once |
| Text.TrimToLower | src/data/kam.ts:517 | trimming and lower-casing commute |
| Text.StartsWith | src/main.ts:521 | `startsWith`: the prefix is the start of the string; `PrefixOccurs` ties it to an occurrence at position 0 |
| Text.Contains | src/data/kam.ts:529-531 | `includes`: the text occurs at some position; `PrefixOccurs` shows that a prefix and the empty text are contained |
| Text.PrefixOccurs | src/main.ts:521 | `startsWith` holds exactly when the text occurs at position 0, a prefix is also contained, and the empty text is both a prefix and contained |
| Locale.InitialLocale | src/main.ts:512-527 | the result is "en" or "zh"; a stored supported locale is the result; "zh" needs a stored "zh" or a readable browser language |
| Locale.IsChinese | src/main.ts:520-521 | the browser language, lower-cased, starts with "zh"; `IsChineseIgnoresCase` reduces it to its first two characters in either case, and `UnsupportedStoredFallsThrough` ties it to the result |
| Locale.StoredLocaleWins | src/main.ts:515-518 | a stored "en" or "zh" is the result, even when reading the browser language would throw |
| Locale.UnsupportedStoredFallsThrough | src/main.ts:516-523 | any other stored value, or none, gives what detection alone gives, and that is "zh" exactly when the browser language lower-cased starts with "zh" |
| Locale.FailureGivesEnglish | src/main.ts:513-527 | a throwing storage read, or a throwing or missing browser language without a stored locale, gives "en" |
| Locale.IsChineseIgnoresCase | src/main.ts:520-521 | detection does not depend on case: it looks for 'z' then 'h', in either case, at the start |
| Locale.DetectionIgnoresCase | src/main.ts:520-521 | a lower-cased browser language gives the same locale as the original |
| Locale.DetectionExamples | src/main.ts:520-523 | "zh-CN" and "ZH-tw" give "zh"; "en-US" with a stored "fr" gives "en"; "z" gives "en" |
| CacheApi.Names | public/sw.js:75 | `caches.keys()` lists the cache names in creation order |
| CacheApi.SameNamesDistinct | public/sw.js:75 | two storages with the same name list are both free of duplicate names, or neither is |
| CacheApi.EntriesOf | public/sw.js:50 | a name finds a cache exactly when it is among the names, and then finds the entries of a cache with that name |
| CacheApi.Open | public/sw.js:50 | `caches.open` reuses an existing cache, otherwise appends an empty one; the name is present afterwards |
| CacheApi.OpenKeepsDistinct | public/sw.js:50 | opening keeps the names distinct and adds the name at the end if it was new |
| CacheApi.Put | public/sw.js:116 | `cache.put` keeps every name and changes only the named cache, at the key |
| CacheApi.PutKeepsNames | public/sw.js:155 | a put keeps the list of names, and with it their distinctness |
| CacheApi.PutEntries | public/sw.js:155 | after a put the named cache maps the key to the response and every other cache is unchanged |
| CacheApi.Delete | public/sw.js:80 | `caches.delete` never lengthens the list |
| CacheApi.DeleteMembers | public/sw.js:80 | exactly the caches with that name are gone, and the name is gone |
| CacheApi.DeleteAbsent | public/sw.js:80 | deleting a missing name changes nothing |
| CacheApi.Match | public/sw.js:120 | `caches.match` finds nothing exactly when no cache has the key, else the response from the first cache in creation order that has it |
| CacheApi.MatchAfterPut | public/sw.js:153-155 | a key no cache held is found after a put into an existing cache, with the response put |
| CacheApi.MatchOtherKey | public/sw.js:155 | a put under one key does not change what another key finds |
| CacheApi.AddEach | public/sw.js:57-63 | adding URL by URL keeps the list of cache names |
| CacheApi.Addable | public/sw.js:59 | `cache.add` stores a response only when the fetch succeeded with an ok status other than 206; `AddEachEntries`, `AddAll` and `PartialContentRejected` state what is stored |
| CacheApi.AddEachEntries | public/sw.js:57-63 | afterwards the cache holds exactly the URLs whose own fetch succeeded with an ok status other than 206, each with its response; the others are as before |
| CacheApi.AddEachOthers | public/sw.js:57-63 | adding into one cache leaves every other cache unchanged |
| CacheApi.AddAll | public/sw.js:52 | `addAll` succeeds exactly when every fetch succeeded with an ok status other than 206, and then keeps the cache names; on failure nothing is stored |
| CacheApi.AddAllStoresEvery | public/sw.js:52 | a successful `addAll` stores every URL with its own response |
| CacheApi.PartialContentRejected | public/sw.js:52-63 | a 206 answer for any URL makes `addAll` reject, and the one-by-one add leaves that URL as it was |
| CacheApi.KeepNamed | public/sw.js:76-83 | keeping a subset of caches never lengthens the list |
| CacheApi.KeepNamedMembers | public/sw.js:76-83 | exactly the caches with a kept name survive |
| CacheApi.KeepNamedIdempotent | public/sw.js:76-83 | keeping twice is keeping once |
| CacheApi.KeepNamedEntries | public/sw.js:78 | a kept cache keeps all its entries; any other name finds nothing |
| ServiceWorker.PrecacheName | public/sw.js:15 | the precache is named "kam-precache-" followed by exactly the version |
| ServiceWorker.RuntimeName | public/sw.js:16 | the runtime cache is named "kam-runtime-" followed by exactly the version |
| ServiceWorker.CacheNamesDiffer | public/sw.js:14-16 | the precache and runtime names never coincide |
| ServiceWorker.VersionsGiveOtherNames | public/sw.js:14-16 | caches of another version have other precache and runtime names, so activate treats them as stale |
| ServiceWorker.ShippedNames | public/sw.js:14-16 | the shipped worker uses "kam-precache-v2" and "kam-runtime-v2" |
| ServiceWorker.PrecachePaths | public/sw.js:32-38 | five paths, the first the base itself, all under the base |
| ServiceWorker.IndexPath | public/sw.js:109 | the navigation fallback key is the second precached path, `BASE + "index.html"` |
| ServiceWorker.KeysOf | public/sw.js:32-38 | each path resolves to the worker's origin followed by the path |
| ServiceWorker.PrecacheKeysDistinct | public/sw.js:32-38 | the five precached URLs are pairwise different |
| ServiceWorker.Installed | public/sw.js:50-64 | install keeps the names after opening the precache |
| ServiceWorker.InstalledEntries | public/sw.js:50-64 | after a successful `addAll` every URL is precached with its response; otherwise a URL is precached exactly when its own `add` succeeded, one failure never keeping a later URL out; any other key of the precache is as before, and other caches are untouched |
| ServiceWorker.EntriesOfAppendOther | public/sw.js:50 | a newly opened cache does not change what another name finds |
| ServiceWorker.ActivatedNames | public/sw.js:75-83 | after activate only the current names and the names whose deletion was rejected remain; when no stale deletion was rejected, only the current names |
| ServiceWorker.NoRejectionKeepsCurrent | public/sw.js:76-82 | when no stale deletion is rejected, activate leaves exactly the current caches, whichever other deletions would have failed |
| ServiceWorker.ActivateTwice | public/sw.js:75-83 | a second activate after one without rejected deletions deletes nothing, whichever deletions would fail the second time |
| ServiceWorker.DeletionRejected | public/sw.js:76-85 | the condition under which `Promise.all` rejects: some cache in the snapshot is not current and its deletion fails; current caches are never deleted, so they never count; `Worker.Activate`, `ActivatedNames` and `NoRejectionKeepsCurrent` are stated over it |
| ServiceWorker.KeepNamedDistinct | public/sw.js:75-83 | the caches left by activate still have distinct names |
| ServiceWorker.ActivateStep | public/sw.js:77-82 | one step over the name snapshot keeps a current cache and deletes any other one |
| ServiceWorker.DeleteOne | public/sw.js:80 | deleting a stale cache's name removes that cache and nothing else |
| ServiceWorker.DeleteMiddle | public/sw.js:80 | deleting a name held by a single cache removes just that cache |
| ServiceWorker.Classify | public/sw.js:94-106 | non-GET first; then navigation when the mode is "navigate" or Accept contains "text/html"; then same-origin or cross-origin by the URL's origin |
| ServiceWorker.IsNavigation | public/sw.js:101-104 | the navigation test; `Classify` and `HtmlRequestIsNavigation` state where it sends a request |
| ServiceWorker.HtmlRequestIsNavigation | public/sw.js:101-106 | a GET whose Accept header starts with "text/html" takes the navigation path, whatever its origin |
| ServiceWorker.OfflinePage | public/sw.js:125-132 | the offline page has status 503, Content-Type text/html and a body |
| ServiceWorker.Unavailable | public/sw.js:165-168 | the fallback response has status 503, no body and no content type |
| ServiceWorker.CrossOriginResponse | public/sw.js:176-190 | a network response is returned as is; on failure, the first cached match, else the bodyless 503 |
| ServiceWorker.MatchAfterOpen | public/sw.js:153 | opening the runtime cache does not change what a key finds |
| ServiceWorker.MissThenHit | public/sw.js:144-158 | after a miss, a successful fetch and a put, the same URL is a cache hit with the fetched response |
| ServiceWorker.OnlineNavigationCachesIndex | public/sw.js:112-122 | after an online navigation whose put went through, the index page is cached, so going offline later does not give the offline page |
| ServiceWorker.Worker.constructor | public/sw.js:14-16 | a worker starts with the given caches and neither flag set |
| ServiceWorker.Worker.Install | public/sw.js:46-69 | if `caches.open` rejects, nothing changes; otherwise storage becomes `Installed(...)` and `skipWaiting` is called |
| ServiceWorker.Worker.AddOneByOne | public/sw.js:57-63 | the fallback loop leaves exactly `AddEach` of the URLs in list order |
| ServiceWorker.Worker.Activate | public/sw.js:71-88 | storage becomes the caches that are current or whose deletion was rejected, in order; clients are claimed exactly when no stale deletion was rejected |
| ServiceWorker.Worker.DeleteStale | public/sw.js:75-83 | deletes every cache whose name is neither current name, keeping the ones whose deletion was rejected, in order; reports whether any stale deletion was rejected |
| ServiceWorker.Worker.Fetch | public/sw.js:90-191 | per class: non-GET is not handled and changes nothing; navigation, same-origin and cross-origin each give the response and new storage of their strategy |
| ServiceWorker.Worker.HandleNavigation | public/sw.js:106-137 | online, the live response is returned and put under the index key, not the request URL; otherwise the cached index page, else the offline page, with storage unchanged |
| ServiceWorker.Worker.HandleSameOrigin | public/sw.js:140-173 | a hit is returned without a fetch; a miss is fetched and put under the request URL, and the response is the same whether the put succeeds or not; otherwise the bodyless 503 |
| ServiceWorker.Worker.Message | public/sw.js:197-202 | `skipWaiting` is called exactly when the data's type is "SKIP_WAITING" |

## Left out

- CacheApi.Addable: a response carrying `Vary: *`, which `add` and `addAll`
  also reject, is not excluded, because a modelled response has no headers
  besides its content type.
- Lower-casing covers ASCII only. JavaScript `toLowerCase` covers all of
  Unicode. Every table text lower-cases the same way under both, but a query
  or name with other upper-case letters is modelled unchanged.
- `(name || "")` and `(query || "")` guard against `null` and `undefined`
  arguments. The model takes a string. An empty string behaves the same way in
  both.
- Kam.SearchIsOrderedFilter: states the result as the matching commands of the
  table in order, but the model has no lemma that works out, for a given
  query, which of the literal names, summaries and descriptions match it.
- `KAM_GLOBAL_FLAGS` (`src/data/kam.ts:54-57`) is not used by the helpers.
- Only lines 512-527 of `src/main.ts` are modelled. The rest of the file is
  DOM, clipboard, translation tables, plugin loading and start-up code.
- Promise and event-loop interleaving, `event.waitUntil` and
  `event.respondWith` lifetimes, and concurrent handlers are not modelled.
  Each handler is one sequential step.
- The fire-and-forget `cache.put` either takes effect or not (`putOk`), and the
  returned response is the same either way.
- URL parsing is not modelled.
  - `BASE` is derived from the worker's location (`public/sw.js:22-28`); here
    it is a parameter.
  - A request carries its URL's origin as a given field.
  - A path resolves to origin plus path, with no normalisation.
- Cache matching options (`ignoreSearch`, `ignoreMethod`, `Vary`), response
  bodies and streams, `clone()`, opaque responses and the `put` rejection
  rules are not modelled. A response is its status, status text, content type
  and body.
- The worker's debug logging (`public/sw.js:40-44`) has no effect on state and
  is left out.
- A rejected `caches.delete` is taken to leave its cache in place.
- The host lifecycle is not modelled. Neither is the waiting period that
  `skipWaiting` ends. Both host calls are flags.
- The cross-origin fallback can only find an entry that something else stored.
  The model does not tie a request's URL to its origin, so it cannot show that
  such an entry is unreachable.
