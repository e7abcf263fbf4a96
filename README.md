# Fork divergence engine: a Dafny model

This project models the engine of the "active forks" page (`js/main.js`). Given
a repository, the page lists its forks. For each fork it shows how many commits
the fork lacks from the original, and how many it has that the original lacks.
Those two cells are *markers*: strings that start with a four-digit commit count
inside an HTML comment (`<!--0042-->`), so that a plain string sort of the column
sorts by count.

The model covers these parts of the engine:

- the repository-string normalisation and the query-parameter lookup of the page;
- the response limiters that project API answers onto the fields the engine keeps;
- the response cache `ApiCache`, an in-memory map over the session store;
- the API client `Api` with its rate snapshot;
- one comparison direction (`fetchMoreDir`) and both directions (`fetchMore`);
- the dedup table `SimilarChecker`;
- the dedup-or-fetch loop `updateData`;
- the pagination loop and the rest of `fetchAndShow`, up to the rows handed to the table;
- the marker formatter `printInfo`, and the two renderers that turn markers into sort values.

Modules, one per file:

| file | module | contents |
|---|---|---|
| `wrappers.dfy` | `Wrappers` | `Option`, `Result`, `Outcome` |
| `text.dfy` | `Text` | the JavaScript string operations the engine uses (`toString`, `padStart`, `toLowerCase`, `trim`, `split`, `join`, `substr`, `replace`, `includes`) and string order |
| `records.dfy` | `Records` | repository, fork, commit, response body and limited payload values, and the errors JavaScript throws |
| `marker.dfy` | `Marker` | `printInfo`, the HTML escape, the sort value `substr(4, 4)` and the two cell renderers |
| `forks.dfy` | `Forks` | the limiters, `isValidFork`, `createForkObject`, `processForkData` |
| `dedup.dfy` | `Dedup` | `getKey` and the class `SimilarChecker` |
| `client.dfy` | `Client` | the classes `ApiCache` and `Api`, proved against the state functions `Lookup`, `Store`, `GetStep`, `RefreshStep` |
| `engine.dfy` | `Engine` | normalisation, `getQueryVariableFromUrl`, `fetchMoreDir`, `fetchMore`, `updateData`, the pagination loop and `fetchAndShow` |

The parts that change state are imperative Dafny:

- `SimilarChecker` is a class whose methods update its `similarForks` map.
  `Apply` and `Cache` state their result and new table directly.
- `ApiCache` is a class holding the in-memory map and the session store.
- `Api` is a class holding the rate, its cache and a ghost log of the requests sent.
- `updateData` works on an `array<Fork>`.
- The pagination loop, the loop of `updateData` and the query lookup are `while` loops.

Most of these methods are tied to a function on plain values by their
`ensures`. The methods' results and new states then equal the function's:
`ApiCache.Get`/`Add` to `Lookup`/`Store`,
`Api.Get`/`RefreshLimits` to `GetStep`/`RefreshStep`, `FetchMore` to
`FetchMoreStep`, `Visit` to `VisitStep`, `VisitAll` to `Halt` and `RunTo`,
`UpdateData` to `UpdateStep`, `Paginate` to `Pages`, `CompareForks` to
`CompareStep` and `FetchAndShow` to `ShowStep`. The exceptions are the
constructors, `SimilarChecker.Apply`, `SimilarChecker.Cache` and
`Api.UpdateRate`, which state their effect directly. What the code promises
is proved as lemmas about those functions: `UpdateResult`, `UpdateCompares`,
`UpdateDedup`, `PagesWhole`, `PagesRequests`, `CompareShows`, `TabulateShows`
and `ShowFacts`.

The model has these inputs:

- The network is a function `Net` from URL to reply: a response (status, status
  text, parsed body, `etag`, rate-limit headers) or a rejection.
- Whether session storage reads and writes throw is a pair of flags on the cache.
- The `running` flag is `haltAt`: the loop position at which the loop first finds
  it false, if it ever does.
- The user's options are the value `Options(sameSize, samePushDate, maxRecords)`.

A JavaScript value that may be `undefined` or `null` is an `Option`. A template
literal prints an absent value as `undefined`, as in `Str`.

Some of what the code does is not what a reader of the page would expect. The
model follows the code:

- **Malformed stored cache entries.** A reader might expect a cache entry that
  does not parse to count as a miss. In the code, `JSON.parse` (js/main.js:628)
  is outside the `try`, so `get` throws. The text has already been promoted into
  the in-memory map (js/main.js:624), so the same URL fails again on every later
  request (`MalformedEntryIsNotSwallowed`).
- **Unreadable session storage.** A reader might expect a storage failure always
  to be swallowed. In the code, when storage cannot be read and the map has no
  entry, `cachedString` stays `undefined` and `JSON.parse(undefined)`
  (js/main.js:628) throws.
- **Revalidation.** The `if-none-match` header (js/main.js:630) suggests a
  conditional request. In the code, any cached entry is returned before a
  request is made (js/main.js:560), so `if-none-match` is never sent
  (`SentRequestsCarryConfigOnly`). A 304 response would read `.data` of `null`
  and throw.
- **A comparison that answers 404.** The `error.status === 404` test
  (js/main.js:449) suggests that a 404 gives "No common history". In the code,
  `get` returns `null` for a 404 (js/main.js:568), so the marker keeps the `''`
  that `updateData` wrote (`FetchDirOutcomes`). The test never holds, because no
  thrown error carries a status.
- **A fork without owner.** The `catch` in `fetchMoreDir` (js/main.js:447)
  suggests that one fork's comparison never aborts the loop. In the code,
  `fork.owner.login` (js/main.js:410) is read while building the endpoints,
  outside that `catch`, and throws before either comparison starts. That error
  leaves `updateData` after `refreshLimits` has run, and the whole run ends with
  an error message (`UpdateResult`, `CompareShows`).

## Model

| member | source | states |
|---|---|---|
| Text.Pad4Order | js/main.js:487 | the four-digit padded forms of two counts below 10000 compare as strings exactly as the counts compare as numbers |
| Text.LowerAgreesIffEqualIgnoringCase | js/main.js:616 | two URLs have the same lower-cased key exactly when they are equal up to the case of their letters |
| Text.JoinSplit | js/main.js:472 | splitting a text on a character and joining the parts with it gives the text back |
| Text.SplitJoin | js/main.js:475-476 | lines without a line break, joined with line breaks and split on them again, come back as the same lines |
| Marker.Escape | js/main.js:477-483 | after the escape map the text contains no `<`, `>`, `"` or `'` |
| Marker.UnescapeEscape | js/main.js:477-483 | decoding the five entities gives back the escaped text, so the escape loses nothing |
| Marker.Headline | js/main.js:472 | the message shown for a commit is the start of the trimmed first line of the message, all of it up to 100 characters and exactly 100 characters of a longer one, and contains no line break |
| Marker.PrintInfo | js/main.js:459-496 | the marker is `0` exactly for an empty comparison; otherwise it starts with `<!--` and the count padded to four digits and `-->`, and ends with the glyph, the count and `</a>` |
| Marker.DetailsEscaped | js/main.js:463-484 | the details are `<pre>`, an escaped body free of markup, and `</pre>`; the body decodes to the commit lines joined by line breaks |
| Marker.CommitLine | js/main.js:465-475 | a commit line is the sha linked to `owner/name/commit/sha`, a space, the date part of the commit date and a space, followed by the author login or `-`, ` - ` and the commit headline, and nothing else; it holds no line break when owner, name, sha, date and author hold none |
| Marker.DetailsLines | js/main.js:463-484 | the popover body, unescaped and split on line breaks, is exactly one line per commit, in the comparison's order, each that commit's line |
| Marker.SortKey | js/main.js:189 | `substr(4, 4)` has at most four characters: characters 4 to 7 of a text of at least eight, and nothing of a text of at most four such as the marker `0` |
| Marker.SortKeyOfMarker | js/main.js:486-487 | for 1 to 9999 commits, `substr(4, 4)` of the marker is the count padded to four digits |
| Marker.SortKeyOfEmpty | js/main.js:461 | the marker `0` of an empty comparison has the empty sort value |
| Marker.MarkerKey | js/main.js:459-487 | the sort value of a marker of up to 9999 commits is empty for the empty comparison and otherwise the four decimal digits of the count, most significant first |
| Marker.MarkerSortOrder | js/main.js:189 | for counts up to 9999, the sort values of two markers compare as strings exactly as the commit counts compare as numbers |
| Marker.RenderDiffCell | js/main.js:173-189 | a missing or empty cell renders as `''`; a marker's sort value is `substr(4, 4)` of it |
| Marker.RenderColumnDiff | js/main.js:226-241 | an empty cell sorts as `0000`; a marker's sort value is `substr(4, 4)` of it |
| Forks.SingleLimiter | js/main.js:271-286 | `null` stays `null`; a repository becomes its projection, which keeps the full name, name, default branch, the four counts, the push date and the owner's login, and carries no marker, status or message |
| Forks.MultiLimiter | js/main.js:288 | no item of the limited page is `null` |
| Forks.MultiLimiterProjectsPresent | js/main.js:288 | the limited page is the projection of the page's present items, in order |
| Forks.PresentWrap | js/main.js:288 | keeping the present items of wrapped values gives the values back, so a projected page loses no repository |
| Forks.RepoLimiter | js/main.js:271-286 | the limited value of a repository body is `singleLimiter` of it |
| Forks.PageLimiter | js/main.js:288 | limiting succeeds exactly for an array body and gives `multiLimiter` of it; any other body throws |
| Forks.CompareLimiter | js/main.js:422-435 | limiting succeeds exactly for a comparison and keeps its commits in order: each keeps its date, message and author login, and its sha is cut to its first 7 characters |
| Forks.ProjectedValidity | js/main.js:110-117 | a projected repository is valid exactly when it has an owner and a non-empty full name |
| Forks.CreateForkObject | js/main.js:119-133 | the link is `<a href="https://github.com/<full name>">Link</a>` for a non-empty full name and `''` otherwise; present counts are kept and missing ones become 0; name, default branch and owner login are kept or become `''`; a non-empty push date is kept and an empty one becomes `null`; missing or empty markers become `''` and present markers are kept |
| Forks.ReduceIsFilterMap | js/main.js:92-107 | the fold appends to its accumulator the rows of the valid records, in order |
| Forks.ProcessForkDataFilters | js/main.js:91-108 | `processForkData` gives the rows of exactly the valid records, in their order, and never more rows than records |
| Forks.InvalidForkIsDropped | js/main.js:91-117 | a record `isValidFork` rejects leaves no trace: the rows are those of the list without it |
| Forks.ValidForkIsShown | js/main.js:91-133 | a record `isValidFork` accepts has its `createForkObject` row among the rows |
| Forks.ValidityIgnoresMarkers | js/main.js:110-117 | writing the two comparison markers never makes a record valid or invalid |
| Dedup.GetKey | js/main.js:702-707 | the key is empty exactly when both dedup options are off |
| Dedup.SameKeyIffSameAttributes | js/main.js:702-707 | two forks get the same key exactly when they agree on the size (if `sameSize`) and the push date (if `samePushDate`) |
| Dedup.KeyIgnoresMarkers | js/main.js:702-707 | writing a fork's markers does not change its key |
| Dedup.SimilarChecker.constructor | js/main.js:699-700 | a new table is empty |
| Dedup.SimilarChecker.Apply | js/main.js:709-721 | the result is true exactly on a non-empty key that is in the table; then the stored markers are copied onto the fork; otherwise the fork is unchanged |
| Dedup.SimilarChecker.Cache | js/main.js:723-731 | a non-empty key is mapped to the fork's markers; an empty key leaves the table unchanged |
| Client.Config | js/main.js:528-545 | the request headers never include `if-none-match` |
| Client.Lookup | js/main.js:615-635 | a lookup never changes the store and only adds map entries; a miss returns the headers unchanged |
| Client.Parse | js/main.js:628-632 | parsing succeeds exactly for a valid stored entry; it returns that entry and the request headers followed by one `if-none-match` header carrying its `etag` |
| Client.Store | js/main.js:637-650 | the map gains the URL's lower-cased key with the entry and keeps every other key; the store gains it too when writable and is otherwise untouched |
| Client.GetStep | js/main.js:555-590 | a call sends at most one request, for its URL and with the plain headers; the rate changes only to the headers of a response that was sent for; an error with a status can only come from the limiter |
| Client.RefreshStep | js/main.js:594-599 | one rate-limit request is sent with the plain headers; the cache is untouched; it fails exactly when the request is rejected |
| Client.LookupIgnoresCase | js/main.js:616 | URLs equal up to case have the same lookup |
| Client.StoreHitPromoted | js/main.js:619-625 | a session-store hit is copied into the map and returned with its `etag` as `if-none-match` |
| Client.FailedStoreWriteKeepsMapEntry | js/main.js:645-649 | a session-store write that throws leaves the store as it was, and the map entry is still written |
| Client.AddThenGetHits | js/main.js:557-562 | after `add(url, d)`, a `get` of any URL equal to it up to case returns `d` and changes nothing: no request, no rate update |
| Client.RepeatedGetIsServedFromCache | js/main.js:555-590 | a `get` that returned data, asked again for the same URL, returns the same data and changes nothing |
| Client.MalformedEntryIsNotSwallowed | js/main.js:620-628 | a malformed stored entry makes `get` throw without a request, and every later `get` of that URL throws too |
| Client.FreshResponseHandling | js/main.js:564-579 | on a miss the request is sent. A 404 gives `null` and leaves rate and cache as they were. A 304 throws and leaves the cache as it was. Any other non-ok status throws its status text and leaves rate and cache as they were. An ok response sets the rate from its headers and, when limiting succeeds, returns the limited data and caches it under the URL; when limiting throws, the cache is left as it was |
| Client.SentRequestsCarryConfigOnly | js/main.js:557-564 | every request ever sent carries only the configured headers, so `if-none-match` never reaches the network |
| Client.ApiCache.constructor | js/main.js:610-613 | a new cache has an empty map over the given store |
| Client.ApiCache.Get | js/main.js:615-635 | result and new state are those of `Lookup` |
| Client.ApiCache.Add | js/main.js:637-650 | the new state is that of `Store`: the map always, the store unless its write throws |
| Client.Api.constructor | js/main.js:527-553 | a new client has an unknown rate, an empty map and no request sent |
| Client.Api.Get | js/main.js:555-590 | result and new state are those of `GetStep` |
| Client.Api.UpdateRate | js/main.js:601-605 | the rate becomes the rate-limit headers of the response |
| Client.Api.RefreshLimits | js/main.js:594-599 | result and new state are those of `RefreshStep` |
| Engine.NormaliseRepo | js/main.js:250-256 | the normalised repository string neither starts nor ends with a slash |
| Engine.NormaliseCleanRepo | js/main.js:250-256 | an `owner/name` with nothing to strip is kept as it is, and the same string after `https://github.com/` normalises to it |
| Engine.QueryLookup | js/main.js:362-371 | `null` exactly when no pair has the name; otherwise the value of the first pair with that name |
| Engine.GetQueryVariableFromUrl | js/main.js:362-371 | the loop returns what `QueryLookup` gives for the pairs of the query string |
| Engine.QueryFindsFirstPair | js/main.js:364-368 | a query whose first pair is `name=value` yields `value` for `name` |
| Engine.ErrorMarker | js/main.js:447-454 | an error marker always has the sort value `0000` |
| Engine.NewMarker | js/main.js:438-454 | `null` data leaves the marker as it was; an error gives the error marker; a comparison gives the `printInfo` marker (`0` when empty); a changed marker is `0` or starts with `<!--` |
| Engine.SetDirection | js/main.js:441-445 | only the marker of the given direction is written |
| Engine.FetchDirStep | js/main.js:415-457 | one direction changes nothing of the fork but its own marker |
| Engine.FetchDirOutcomes | js/main.js:437-454 | for a comparison request that reaches the network: a 404 leaves the marker as it was; any other failure writes a marker with sort value `0000`; a comparison of 1 to 9999 commits writes a marker whose sort value is the padded count |
| Engine.FetchMoreStep | js/main.js:407-413 | it throws, before any request, exactly for a fork without owner; otherwise only the two markers change |
| Engine.FetchMoreDir | js/main.js:415-457 | the fork and client state afterwards are those of `FetchDirStep` |
| Engine.FetchMore | js/main.js:407-413 | result and client state are those of `FetchMoreStep` |
| Engine.ResetMarkers | js/main.js:375 | every fork in the array becomes its reset value, both markers `''` and nothing else changed |
| Engine.ResetsKeepKeys | js/main.js:375 | resetting the markers changes no dedup key |
| Engine.VisitStep | js/main.js:389-396 | a pass changes only the fork's markers; it fails only with the missing-owner error on a fork without owner, and then leaves the table and the client state as they were |
| Engine.PassOfCopiesOrRecords | js/main.js:389-396 | in a pass, a fork whose non-empty key is in the table gets that key's markers with no request and no change to table or client; otherwise a successful pass records the fork's new markers under its non-empty key |
| Engine.Halt | js/main.js:386-398 | the passes completed before the end all succeed, and the pass after them, if before the end, fails |
| Engine.LoopEnd | js/main.js:388 | the loop ends at the list's end or earlier only at the position where `running` is found false |
| Engine.FailurePersists | js/main.js:386-398 | the first error ends the loop: every longer run ends with the same error |
| Engine.HaltIs | js/main.js:386-398 | the position whose prefix succeeds and whose next pass, before the end, fails is the stopping position |
| Engine.RunStable | js/main.js:386-398 | a fork's value is final once its own pass is done |
| Engine.RunForks | js/main.js:386-398 | after `n` passes the first `n` forks differ from the input only in their markers and the rest are untouched |
| Engine.RunTable | js/main.js:386-398 | after `n` passes the dedup table holds exactly the non-empty keys of the first `n` forks, each mapped to the markers those forks carry |
| Engine.PassAt | js/main.js:389-396 | pass `k` was given the fork as it came in and the table before it, which held the fork's key exactly when an earlier fork had it, and gave the fork's final value |
| Engine.ComparedForkIsFetched | js/main.js:391-394 | a fork whose key is empty or new ends as `fetchMore` leaves it from the client state before its pass, and the client state after it is `fetchMore`'s |
| Engine.CopiedForkIsNotFetched | js/main.js:390 | a fork whose non-empty key an earlier fork had sends no request and changes nothing in the client; it ends with the markers of every earlier fork with that key |
| Engine.SameKeySameMarkers | js/main.js:389-396 | forks with the same non-empty key end with the same markers |
| Engine.FailedPass | js/main.js:389-396 | a pass fails only on a fork without owner whose key is empty or new, with the missing-owner error; copying never fails |
| Engine.SeenMembers | js/main.js:390-395 | a key is in the set of keys seen after the first `i` forks exactly when it is non-empty and one of those forks has it |
| Engine.TableStep | js/main.js:390-395 | a pass that copies on a hit and records on a miss keeps the dedup table holding exactly the non-empty keys seen, each mapped to the markers its forks carry |
| Engine.DedupOffComparesEveryFork | js/main.js:389-396 | with both dedup options off, every fork of a completed pass was compared: its final value and the client state after it are what `fetchMore` gives from the client state before it |
| Engine.Visit | js/main.js:389-396 | result, dedup table and client state are those of `VisitStep` for the table and client state before the pass |
| Engine.VisitNext | js/main.js:387-398 | from the state after `i` passes, a successful pass leaves the array, table and client state after `i + 1` passes of `RunTo`; a failing pass returns the error of pass `i + 1` and changes nothing |
| Engine.VisitAll | js/main.js:386-398 | the loop completes exactly the `Halt` passes: it stops at the end of the list, at the halting position, or at the first failing pass, whose error it returns; array and client state are those after the completed passes |
| Engine.UpdateData | js/main.js:373-405 | outcome, forks and client state are those of `UpdateStep`: reset, the loop to `Halt`, then `refreshLimits` whether the loop finished, broke or threw |
| Engine.UpdateResult | js/main.js:373-405 | only markers change and forks from the stopping position on are merely reset; the loop stops early only at the halting position or on a fork without owner; the outcome fails exactly when the rate-limit request is rejected or the loop stopped on an error; the last request sent is the rate-limit request |
| Engine.UpdateCompares | js/main.js:386-398 | in `updateData`, a fork of a completed pass whose key is empty or new ends as `fetchMore` leaves its reset value; any other fork's pass leaves the client state unchanged |
| Engine.UpdateDedup | js/main.js:386-398 | after `updateData`, forks visited with the same non-empty key carry the same markers |
| Engine.PageItems | js/main.js:309-310 | only a non-empty array is appended |
| Engine.Pages | js/main.js:298 | the loop asks for no page once `maxRecords` forks are gathered, and the forks gathered so far are a prefix of the result; the whole loop is stated by `PagesWhole` |
| Engine.PageUrlInjective | js/main.js:300 | distinct page numbers give distinct URLs |
| Engine.PagesShape | js/main.js:298-311 | every run of the loop appends some `k` non-empty pages, asked for below the ceiling, and then stops at the ceiling or at page `page + k`, which does not append |
| Engine.PagesWhole | js/main.js:298-311 | pages `page` to `page + k - 1` each came back as a non-empty array asked for below the ceiling; a successful result is the forks gathered before followed by their items in page order; a result below the ceiling means page `page + k` came back empty or `null` |
| Engine.PagesRequests | js/main.js:298-303 | the requests the loop sends are one plain request per page asked for, for strictly increasing page numbers from the first page on |
| Engine.Paginate | js/main.js:298-311 | the loop from page 1 gives the result and client state of `Pages` |
| Engine.RemoveSpaces | js/main.js:258 | the token contains no space, and a field without spaces is kept as it is |
| Engine.RemoveSpacesKeepsOthers | js/main.js:258 | every character other than a space stays, as often as it occurred |
| Engine.RemoveSpacesAppend | js/main.js:258 | removing spaces works piece by piece, so the other characters keep their order |
| Engine.ErrorText | js/main.js:317 | the alert is `Error: ` followed by the error's message, or by the fallback text when the message is empty |
| Engine.OriginalOf | js/main.js:290-294 | the original is absent exactly for a `null` repository; any value that is not a repository is an object that `isValidFork` rejects |
| Engine.TabulateShows | js/main.js:322-327 | the records are the original then the forks; the table is shown exactly when some record is valid, with one row per valid record in order, the original's first when it is valid; otherwise the "No valid repository data found" alert |
| Engine.CompareShows | js/main.js:298-327 | a failing page or a failing `updateData` shows its error; otherwise the records are the original followed by one record per fork gathered, in page order, each differing from it only in markers, and the table is shown exactly when some record is valid |
| Engine.ShowFacts | js/main.js:248-327 | a failing first request shows its error and a `null` original the not-found error, with no records; a table comes only after the original was found, as the first record with both markers `0`, and its rows are those of the valid records and never empty |
| Engine.FetchAndShow | js/main.js:248-330 | what is shown and the records are those of `ShowStep` on the input, the token field and the session store |
| Engine.CompareForks | js/main.js:298-327 | what is shown, the records and the client state are those of `CompareStep` for the client state after the original was fetched |

## Left out

- The DOM, jQuery and DataTables code is not modelled: `initDT` setup, `showMsg`, `Progress`, `Quota`, the runner, the dark-mode widget, listeners, `history.pushState`. `FetchAndShow` returns the message or rows it would show. `get`'s `catch` (js/main.js:580-586) shows a message for every error before rethrowing it; a `Forbidden` error only changes its wording. When the error ends the run, `fetchAndShow`'s own `catch` replaces that message with its own. When the error is a failed comparison, which `fetchMoreDir` catches, `updateDT` removes it with `$('.alert').remove()` (js/main.js:74) once the table is drawn. These intermediate messages are not modelled.
- `Options` is not modelled: it reads form state and `localStorage`, and its values are an input here. The token is an input too, and storing it in `localStorage` is not modelled.
- `fetch`, `Promise.all` and async scheduling are not modelled. The two directions of `fetchMore` run one after the other. They write different markers and, because their URLs differ, different cache entries. The only difference is that the rate keeps the headers of the second response rather than of the one that arrived last.
- The network is a deterministic function of the URL within a run. Session storage either always works or always throws, for reads and for writes separately.
- Dates are not modelled. A commit date is its text before `T`, not `new Date(...).toISOString()`, and an unparsable date does not throw. The reset time is kept as header text. The cache entry's `date` field is not stored.
- JSON encoding is not modelled. Cache entries are stored as values, and a malformed text stands for any text `JSON.parse` rejects. A stored entry that parses to a falsy value is not represented.
- `toLowerCase` is modelled on ASCII letters only. Strings are sequences of Unicode scalar values, so `substring`/`substr` count those rather than UTF-16 units.
- The repository-format regex check before a run, `getRepoFromUrl` and `decodeURIComponent` are not modelled.
- `Api.getLimits` is not modelled. It only returns the rate, which is the `rate` field of `Api`.
- Client.Config: keeps only the headers of `config`. `method: 'GET'` and `mode: 'cors'` are not modelled, and the `JSON` copy of `config` is taken to be exact. The third argument of `fetch` is ignored, as in the code.
- `updateDT` is modelled only as far as deciding between the "No valid repository data found" message and the rows. The message check on `validData` in `fetchAndShow` cannot fire, because the original is always in `data`.
- Commit counts above 9999 are not covered. `padStart` does not truncate, so their sort value would be the first four digits. The claims about sort values are stated for 1 to 9999 commits.
- Engine.PagesRequests: states which page numbers were sent, in increasing order, not that they are consecutive. A page answered from the cache sends no request, so the numbers sent may skip a cached page.
- Marker.DetailsLines: stated only for an owner, name, sha, date and author without line breaks. A line break in one of them would split that commit's line in the popover.
- The second `catch` of `fetchAndShow` (js/main.js:328-335) is not modelled. The rows are made from records that are all present, and making them throws nothing in the model.
