# MAL-Seasonals: a Dafny model of the reconciliation engine

MAL-Seasonals shows the anime series a user is currently watching on
MyAnimeList as a desktop wallpaper. The series are grouped by broadcast
weekday, and each one is marked GREEN (caught up) or RED (behind). This project
models the decision logic behind that display and proves properties of it.

- `mal.py`:
  - picks the season from the month;
  - pages through the seasonal catalog, using an authenticated GET that
    refreshes the token and retries once after a 401;
  - joins the user's watch list with that catalog by series id;
  - asks AniList for each series' episode count and next airing;
  - reconciles the two episode numberings with an offset;
  - computes the countdown and the GREEN/RED status;
  - appends every record to one of seven weekday buckets.
- `wallpaper.py`:
  - each card keeps an episode counter that the "+" and "-" buttons move within
    bounds, and "=" submits it as "completed" or "watching";
  - the card also shows a days/hours countdown;
  - the Sunday column lays its cards out in a two-column grid.

Modules (one file each):

- `Wrappers` (wrappers.dfy): `Option` and `Result`.
- `Text` (text.dfy): ASCII lower-casing and decimal rendering.
- `Season` (season.dfy): `get_current_season`, with the month and year as
  parameters.
- `Weekday` (weekday.dfy): `get_weekday_index`.
- `AuthFetch` (auth_fetch.dfy): `safe_get`.
  - The network is a total function from a request (URL and headers) to a
    response (status code and decoded JSON body, or `None` when the body is
    not JSON).
  - The credential store is a function `renew(n)`: the outcome of the n-th
    refresh of the pass, i.e. no tokens, or the access token that is then
    read back.
  - `SafeGetSpec` is the two-request state machine. The `Session` class holds
    the mutable parts: the shared headers dictionary, the log of requests sent
    and the refresh count. Its `SafeGet` method is proved equal to
    `SafeGetSpec`.
- `Catalog` (catalog.dfy): the pagination loop of `get_seasonal_anime`, proved
  equal to the recursive walk `WalkPages`, and `get_watching_list`.
- `Reconcile` (reconcile.dfy): the reconciliation pass of `fetch_anime_data`.
  - The AniList query is the parameter `lookup(id)`, which is `None` when the
    query raises.
  - `ReconcileEntry` and `GroupByWeekday` are the imperative loop body and
    loop. They are proved equal to `EntryFor` and `Buckets(Emitted(...))`.
  - `FetchAnimeData` is the whole pass.
- `Wallpaper` (wallpaper.dfy): the `AnimeWidget` counter as a class, the
  countdown split and the Sunday grid placement.

## Model

| member | source | states |
|---|---|---|
| `Season.CurrentSeason` | mal.py:27-41 | the year is returned unchanged; the season is fall exactly when the month is outside 1..9 |
| `Season.SeasonIsQuarter` | mal.py:32-39 | for months 1..12 the season is the one of the month's quarter: 1-3 winter, 4-6 spring, 7-9 summer, 10-12 fall |
| `Season.SeasonDependsOnlyOnQuarter` | mal.py:27-41 | two months of the same quarter give the same season, whatever the years |
| `Text.Lower` | mal.py:75 | `str.lower` on ASCII: same length, each character lower-cased |
| `Weekday.IndexOf` | mal.py:75 | `list.index`: -1 exactly when absent, otherwise a position holding the name with no earlier occurrence |
| `Weekday.WeekdayIndex` | mal.py:73-75 | result in -1..6; a non-negative i means `Days[i]` equals the lower-cased name; -1 exactly when the name is missing or its lower-cased form is not a day |
| `Weekday.DayNamesRoundTrip` | mal.py:74-75 | each of the seven day names maps back to its own index |
| `Weekday.CapitalisedNames` | mal.py:75 | "Sunday" gives 0 and "SATURDAY" gives 6: case does not matter |
| `Weekday.UnknownNames` | mal.py:73-75 | an empty, unknown or missing name gives -1 |
| `AuthFetch.Decode` | mal.py:24-25 | a 4xx/5xx status raises an HTTP error; otherwise the decoded body is returned, and a body that is not JSON fails with `MalformedBody` |
| `AuthFetch.SafeGetSpec` | mal.py:12-25 | the first request uses the caller's headers; one or two requests; a refresh happens exactly when the first answer is 401; the second request is sent only after a refresh that produced a token, with the new bearer header; a refresh that produces nothing raises and leaves the headers alone; the retry's answer is final |
| `AuthFetch.SecondUnauthorizedIsFinal` | mal.py:15-24 | a 401 on the retry is not retried again and surfaces as an HTTP 401 error after exactly two requests |
| `AuthFetch.Session.constructor` | mal.py:45 | a fresh session's headers hold only the bearer token; nothing has been sent yet |
| `AuthFetch.Session.SafeGet` | mal.py:12-25 | result, new headers, appended requests and refresh count are those of `SafeGetSpec` under the current refresh outcome |
| `Catalog.WalkPages` | mal.py:52-58 | the recursive cursor walk: never more pages than the bound, cut only when a cursor remains, a request sent exactly when the start cursor is present, the refresh count never decreasing |
| `Catalog.WalkConcatenatesPages` | mal.py:52-58 | a completed pagination returns every page's `data` concatenated in page order; it stops at the first page without a `next` cursor, every earlier page has one, and it fetches no page only when the start cursor is empty |
| `Catalog.WalkRequestCount` | mal.py:52-58 | on success, the number of requests is at least the number of pages and at most twice that |
| `Catalog.FetchPage` | mal.py:54-56 | one pass of the loop body: a failed request ends the walk with its error and the current session state; a page moves its items, itself and its requests into the prefix, and the walk continues from its `next` cursor |
| `Catalog.GetSeasonalAnime` | mal.py:43-58 | result, headers, refresh count and request log equal the walk from the season's catalog URL; any failed page fails the whole retrieval |
| `Catalog.GetWatchingList` | mal.py:61-71 | one `safe_get`; on success, the first page's `data` is returned; the session state follows `SafeGetSpec` |
| `Reconcile.HoursUntil` | mal.py:147-148 | the countdown h satisfies 3600·h ≤ seconds < 3600·(h+1), i.e. floor division |
| `Reconcile.Shift` | mal.py:139-140 | the next episode's number moves by exactly the offset; its airing time and its time until airing are unchanged |
| `Reconcile.ResolveAiring` | mal.py:124-157 | the imperative `try`/`except` block, with its in-place `+= offset`, yields exactly the total, next airing and countdown of `ResolveEpisodes` |
| `Reconcile.ResolveEpisodes` | mal.py:123-157 | failed lookup: catalog count or "?", no next airing, no countdown; offset path (both counts positive): the total is the catalog count and the next episode is shifted by catalog minus airing; fallback: first truthy of airing count, catalog count, "?"; a total is never 0; a countdown exists exactly with a next airing and is its floor-hours |
| `Reconcile.CatalogIndex` | mal.py:106 | every key of the index maps to a catalog entry carrying that id, and every catalog id is a key |
| `Reconcile.IndexKeys` | mal.py:106 | the catalog index has a key for exactly the ids that occur in the catalog |
| `Reconcile.IndexHoldsLastOccurrence` | mal.py:106 | for a repeated id, the index holds the last catalog entry with that id |
| `Reconcile.EntryFor` | mal.py:111-179 | a record exists exactly when the id is in the catalog and the weekday resolves; it carries the entry's id, the watched count, the catalog title and that weekday, which is in 0..6 |
| `Reconcile.Buckets` | mal.py:109 | there are always exactly seven buckets |
| `Reconcile.OnDayMembership` | mal.py:181 | a record is in bucket d exactly when it was emitted with weekday d |
| `Reconcile.OnDayCounts` | mal.py:181 | a record occurs in the bucket of its weekday as often as among all the records, and in no other bucket |
| `Reconcile.BucketsPartition` | mal.py:109-181 | over the seven buckets, each record lands with its full multiplicity in the bucket of its weekday and nowhere else |
| `Reconcile.OnDayConcat` | mal.py:181 | splitting the records splits every bucket at the same place |
| `Reconcile.EmittedConcat` | mal.py:111-181 | reconciling two parts of the watch list emits the first part's records, then the second's |
| `Reconcile.BucketOrderFollowsWatchList` | mal.py:111-181 | within every bucket, the records of an earlier part of the watch list come before those of a later part |
| `Reconcile.EmittedOnlyFromJoin` | mal.py:111-121 | every record comes from a watch-list entry whose record exists, so its id is in the catalog and its weekday resolves |
| `Reconcile.JoinedEntryIsBucketed` | mal.py:111-181 | every watch-list entry whose id is in the catalog and whose weekday resolves has its record in its weekday's bucket |
| `Reconcile.LookupFailuresDropNothing` | mal.py:128-157 | the number, ids and weekdays of the records do not depend on the airing lookup, so a failing lookup never drops or moves a series |
| `Reconcile.StatusOf` | mal.py:159-163 | without a next airing, GREEN exactly when the total is a positive count at most the watched count; with one, GREEN exactly when the watched count reaches the aired count (next episode minus 1) |
| `Reconcile.CoverUrl` | mal.py:165-167 | no picture gives no URL; a non-empty medium URL is preferred; a missing or empty medium URL gives the large URL (or none if that is missing too) |
| `Reconcile.OffsetExample` | mal.py:133-163 | a catalog count of 24, an airing count of 12 and next episode 5 give total 24 and next episode 17; 90000 s gives a 25 h countdown; 16 watched is GREEN and 15 is RED |
| `Reconcile.OffsetKeepsRemainingEpisodes` | mal.py:133-140 | on the offset path, total minus the corrected next episode equals the airing count minus the uncorrected next episode |
| `Reconcile.StatusBoundary` | mal.py:159-163 | with a next airing, watched equal to the aired count (next episode minus 1) is GREEN, and one fewer is RED |
| `Reconcile.StatusMonotone` | mal.py:159-163 | watching more never turns GREEN into RED |
| `Reconcile.NoScheduleNeedsPositiveTotal` | mal.py:159-160 | without a next airing, GREEN implies a positive integer total that is at most the watched count |
| `Reconcile.ReconcileEntry` | mal.py:111-179 | the imperative loop body (`continue`s, `try`/`except`, the in-place `+= offset`) produces exactly `EntryFor` |
| `Reconcile.AppendStep` | mal.py:181 | one loop step appends the entry's record, if there is one, to its weekday's bucket and changes no other bucket |
| `Reconcile.GroupByWeekday` | mal.py:109-181 | the loop's seven buckets are `Buckets(Emitted(...))`, the records split by weekday in watch-list order |
| `Reconcile.FetchAnimeData` | mal.py:96-184 | a failed catalog or watch-list retrieval fails the pass with that error, with no partial buckets; otherwise the buckets are those of the retrieved catalog's index, the watch list and the lookup |
| `Wallpaper.ParseTotal` | wallpaper.py:21-24 | an integer total converts to itself; "?" gives `None` |
| `Wallpaper.Clicked` | wallpaper.py:121-130 | one click changes the counter by at most one and keeps it in range |
| `Wallpaper.AfterClicks` | wallpaper.py:121-130 | after n clicks the counter is within n of where it started |
| `Wallpaper.ClickMovesByOne` | wallpaper.py:121-130 | "+" adds 1 exactly when there is no total or the counter is below it; "-" subtracts 1 exactly when the counter is positive; otherwise nothing changes |
| `Wallpaper.ClicksKeepRange` | wallpaper.py:121-130 | from 0 ≤ current ≤ total (or current ≥ 0 with no total), any sequence of clicks keeps that range |
| `Wallpaper.ClicksNeverNegative` | wallpaper.py:127-130 | a non-negative counter stays non-negative under any clicks |
| `Wallpaper.IncreasesStopAtTotal` | wallpaper.py:121-124 | k presses of "+" from an in-range counter give min(current + k, total) |
| `Wallpaper.CountdownOf` | wallpaper.py:102 | no hours gives "Next: ?"; otherwise days d and hours r with 24·d + r = h and 0 ≤ r < 24 |
| `Wallpaper.CountdownText` | wallpaper.py:102 | "Next: ?" without a countdown; otherwise a text of the form "Next in …h" |
| `Wallpaper.CountdownExample` | wallpaper.py:102 | 25 hours is shown as 1 day 1 hour; no countdown is shown as "Next: ?" |
| `Wallpaper.GridCell` | wallpaper.py:224 | `divmod(idx, 2)`: the column is 0 or 1 and 2·row + column = idx |
| `Wallpaper.GridCellsDistinct` | wallpaper.py:224 | distinct indices get distinct cells |
| `Wallpaper.PlaceSundayCards` | wallpaper.py:217-225 | one cell per card, each in two columns with 2·row + column = its index, all distinct |
| `Wallpaper.AnimeWidget.constructor` | wallpaper.py:16-29 | the total is the parsed total; the original and current counters both start at the watched count; the id, score and the other fields are as given |
| `Wallpaper.AnimeWidget.IncreaseEpisode` | wallpaper.py:121-124 | the counter becomes its one-click "+" value; a counter already in range stays in range; the total, original count and score are constants and cannot change |
| `Wallpaper.AnimeWidget.DecreaseEpisode` | wallpaper.py:127-130 | the counter becomes its one-click "-" value; it never goes below 0 and a counter already in range stays in range |
| `Wallpaper.AnimeWidget.SubmitStatus` | wallpaper.py:145 | "completed" exactly when the counter equals a known total, otherwise "watching" |
| `Wallpaper.AnimeWidget.SubmitPayload` | wallpaper.py:137-150 | nothing is sent for a falsy (0) id; otherwise the payload carries the counter, the unchanged score, and "completed" exactly when the counter equals the total |

## Left out

- HTTP traffic is not modelled. Responses are inputs:
  - a total function from request to response for the MyAnimeList endpoints;
  - `lookup(id)` for the AniList query.
  - The query parameters (`limit`, `fields`, `nsfw`) are fixed per endpoint and
    are not part of the modelled request.
  - Transport exceptions raised by `requests` are not modelled: every request
    gets a response.
- The AniList GraphQL query text is not modelled; only its result shape is.
  - `lookup(id)` is a function of the id, so a series listed twice gets the
    same answer twice.
  - An unknown series (`Media` null) counts as a failed lookup, which is what
    the `except` branch does with the resulting AttributeError.
  - `nextAiringEpisode` is modelled with its three fields always present,
    because the schema declares them non-null. The KeyError paths for missing
    fields are therefore not modelled.
- The clock and time zones are not modelled. The month and year are
  parameters. The value of `airing_dt` is never used and is not modelled.
- `Reconcile.ResolveEpisodes` does not model the failure of the
  `datetime.fromtimestamp` conversion at mal.py:146. An `airingAt` outside
  the platform's convertible range (a negative timestamp on Windows, or one
  past the year 9999) raises there, inside the `try`. The source then takes
  the `except` path at mal.py:153-157: the catalog count or "?", no next
  episode and no countdown. The model treats every `airingAt` as
  convertible, because the convertible range depends on the platform.
- Token storage is not modelled: `load_tokens` in mal.py, all of
  auth/tokenrefresh.py and the token files.
  - A refresh is the outcome `renew(n)`: no tokens, or the access token that
    the retry then reads back.
  - The outcomes are indexed by the number of refreshes done so far in the
    pass; the watch-list session continues the catalog session's count.
  - mal.py re-reads `auth/tokens.json`, but the refresh writes `tokens.json`
    relative to the working directory. Whether the retry sees the new token
    therefore depends on where the program runs. The model takes the token
    read back as the refresh outcome.
- `Catalog.GetSeasonalAnime` requires that the `next` cursor chain ends within
  a ghost bound `fuel`. The source loops forever on a cyclic chain, and that
  behaviour is not modelled.
- Dynamic JSON types are not modelled. `num_episodes` and `episodes` are
  optional integers, so the `isinstance(..., int)` test is "present". A
  non-integer JSON value that the source would carry through as `total_eps`
  is not modelled.
- `Text.Lower` lower-cases ASCII letters only. Python's `str.lower` also
  folds non-ASCII letters, but the broadcast day names are ASCII.
- `Wallpaper.CountdownOf` computes days as `h / 24`. The source computes
  `math.floor(h/24)` in floating point, which agrees for all |h| < 2^53.
- `Wallpaper.ParseTotal` takes the reconciled total (a count or "?"), the
  only values the caller passes. Python's `int()` parsing of other strings is
  not modelled.
- The Qt and OS integration in wallpaper.py is not modelled:
  - labels and colours (`update_eps_label`, the title colour);
  - the pixmap download;
  - the PUT request of `submit_and_refresh` and the `parentWidget()` refresh
    chain;
  - the vertical layout of the other six columns;
  - `set_as_wallpaper`, `create_tray_icon` and `main`;
  - the `__main__` printing of mal.py.
- Concurrency is not modelled: the program is sequential.
- `get_watching_list` (mal.py:61-71) sends one request and returns only the
  first page's `data`, even when the answer carries a `next` cursor, so
  `Catalog.GetWatchingList` does the same. The source signals failures with
  plain exceptions; the model names them `RefreshFailed`, `HttpError(status)`
  and `MalformedBody`.
