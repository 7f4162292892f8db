/** The reconciliation pass of `fetch_anime_data`: the user's watch list is
    joined with the seasonal catalog by series id, each joined series is
    enriched from the airing lookup (episode-count offset, countdown, caught-up
    status) and appended to the bucket of its broadcast weekday. The airing
    lookup is a parameter: `lookup(id)` is `None` when the query raises. */
module Reconcile {
  import opened Wrappers
  import opened AuthFetch
  import opened Catalog
  import Season
  import Weekday

  datatype Picture = Picture(medium: Option<string>, large: Option<string>)

  /** A node of the seasonal catalog. */
  datatype CatalogEntry = CatalogEntry(
    id: int,
    title: string,
    broadcastDay: Option<string>,
    numEpisodes: Option<int>,
    mainPicture: Option<Picture>)

  /** An entry of the watch list with its `list_status`. */
  datatype WatchEntry = WatchEntry(id: int, watched: int, score: Option<int>)

  /** `nextAiringEpisode` of the airing lookup. */
  datatype NextAiring = NextAiring(episode: int, airingAt: int, timeUntilAiring: int)

  /** `Media` of the airing lookup: its episode count and next airing. */
  datatype AiringInfo = AiringInfo(episodes: Option<int>, nextAiring: Option<NextAiring>)

  /** `total_eps`: an episode count, or "?" when no source gives one. */
  datatype Total = Count(n: int) | Unknown

  datatype Status = Green | Red

  /** One `anime_info` record handed to the presentation layer. */
  datatype Reconciled = Reconciled(
    title: string,
    malId: int,
    watched: int,
    total: Total,
    nextInHours: Option<int>,
    status: Status,
    coverUrl: Option<string>,
    weekday: int,
    score: int)

  /** Python's `x or otherwise` for an optional count: `None` and 0 are falsy. */
  function Or(x: Option<int>, otherwise: Total): Total {
    if x.Some? && x.value != 0 then Count(x.value) else otherwise
  }

  /** The guard of the offset path: both counts are positive integers. */
  predicate BothPositive(catalogEps: Option<int>, airingEps: Option<int>) {
    catalogEps.Some? && catalogEps.value > 0 && airingEps.Some? && airingEps.value > 0
  }

  /** `time_until_sec // 3600`: whole hours, rounded down. */
  function HoursUntil(seconds: int): (h: int)
    ensures 3600 * h <= seconds < 3600 * (h + 1)
  {
    seconds / 3600
  }

  /** `next_ep["episode"] += offset`. */
  function Shift(next: Option<NextAiring>, offset: int): (r: Option<NextAiring>)
    ensures r.Some? <==> next.Some?
    ensures r.Some? ==>
      && r.value.episode - next.value.episode == offset
      && r.value.airingAt == next.value.airingAt
      && r.value.timeUntilAiring == next.value.timeUntilAiring
  {
    match next
    case None => None
    case Some(n) => Some(n.(episode := n.episode + offset))
  }

  /** The outcome of the `try`/`except` block: the total, the next airing in
      the catalog's numbering, and the countdown in hours. */
  datatype Resolution = Resolution(total: Total, next: Option<NextAiring>, hours: Option<int>)

  function ResolveEpisodes(catalogEps: Option<int>, info: Option<AiringInfo>): (r: Resolution)
    // the lookup raised: catalog count or "?", no next airing, no countdown
    ensures info.None? ==> r == Resolution(Or(catalogEps, Unknown), None, None)
    // offset path: the catalog's count wins, the next episode is renumbered by the difference
    ensures info.Some? && BothPositive(catalogEps, info.value.episodes) ==>
      && r.total == Count(catalogEps.value)
      && r.next == Shift(info.value.nextAiring, catalogEps.value - info.value.episodes.value)
    // fallback: first truthy of airing count, catalog count, "?"; next airing as given
    ensures info.Some? && !BothPositive(catalogEps, info.value.episodes) ==>
      && r.total == Or(info.value.episodes, Or(catalogEps, Unknown))
      && r.next == info.value.nextAiring
    // a total is never zero: 0 is falsy and never chosen
    ensures r.total.Count? ==> r.total.n != 0
    // the countdown exists exactly when a next airing does
    ensures r.hours.Some? <==> r.next.Some?
    ensures r.next.Some? ==> r.hours == Some(HoursUntil(r.next.value.timeUntilAiring))
  {
    match info
    case None => Resolution(Or(catalogEps, Unknown), None, None)
    case Some(a) =>
      var offset := if BothPositive(catalogEps, a.episodes) then catalogEps.value - a.episodes.value else 0;
      var total :=
        if BothPositive(catalogEps, a.episodes) then Count(a.episodes.value + offset)
        else Or(a.episodes, Or(catalogEps, Unknown));
      var next := if BothPositive(catalogEps, a.episodes) then Shift(a.nextAiring, offset) else a.nextAiring;
      var hours := if next.Some? then Some(HoursUntil(next.value.timeUntilAiring)) else None;
      Resolution(total, next, hours)
  }

  /** GREEN/RED: without a next airing, caught up means a positive integer
      total that the user has watched; with one, it means every episode that
      has aired so far (one less than the next episode's number). */
  function StatusOf(watched: int, total: Total, next: Option<NextAiring>): (s: Status)
    ensures next.None? ==> (s == Green <==> total.Count? && 0 < total.n <= watched)
    ensures next.Some? ==> (s == Green <==> watched >= next.value.episode - 1)
  {
    if next.None? then
      if total.Count? && watched >= total.n > 0 then Green else Red
    else if watched >= next.value.episode - 1 then Green else Red
  }

  /** `main_picture["medium"] or main_picture["large"]`, when there is a picture. */
  function CoverUrl(picture: Option<Picture>): (url: Option<string>)
    ensures picture.None? ==> url.None?
    ensures picture.Some? && picture.value.medium.Some? && picture.value.medium.value != "" ==>
      url == picture.value.medium
    ensures picture.Some? && !(picture.value.medium.Some? && picture.value.medium.value != "") ==>
      url == picture.value.large
    ensures url.Some? ==> picture.Some? && (url == picture.value.medium || url == picture.value.large)
  {
    match picture
    case None => None
    case Some(p) => if p.medium.Some? && p.medium.value != "" then p.medium else p.large
  }

  /** `{entry["node"]["id"]: entry["node"] for entry in seasonal_anime}`:
      a later entry with the same id replaces an earlier one. */
  function CatalogIndex(catalog: seq<CatalogEntry>): (index: map<int, CatalogEntry>)
    ensures forall id :: id in index ==> index[id].id == id && index[id] in catalog
    ensures forall k :: 0 <= k < |catalog| ==> catalog[k].id in index
    decreases |catalog|
  {
    if catalog == [] then map[]
    else
      var last := catalog[|catalog| - 1];
      CatalogIndex(catalog[..|catalog| - 1])[last.id := last]
  }

  /** The index has a key for exactly the ids of the catalog. */
  lemma {:induction false} IndexKeys(catalog: seq<CatalogEntry>, id: int)
    ensures id in CatalogIndex(catalog) <==> exists k :: 0 <= k < |catalog| && catalog[k].id == id
    decreases |catalog|
  {
    if catalog != [] {
      var init := catalog[..|catalog| - 1];
      IndexKeys(init, id);
      if exists k :: 0 <= k < |catalog| && catalog[k].id == id {
        var k :| 0 <= k < |catalog| && catalog[k].id == id;
        if k < |catalog| - 1 {
          assert init[k].id == id;
        }
      }
      if exists k :: 0 <= k < |init| && init[k].id == id {
        var k :| 0 <= k < |init| && init[k].id == id;
        assert catalog[k].id == id;
      }
    }
  }

  /** Under a repeated id, the index holds the last catalog entry with it. */
  lemma {:induction false} IndexHoldsLastOccurrence(catalog: seq<CatalogEntry>, j: int)
    requires 0 <= j < |catalog|
    requires forall k :: j < k < |catalog| ==> catalog[k].id != catalog[j].id
    ensures catalog[j].id in CatalogIndex(catalog)
    ensures CatalogIndex(catalog)[catalog[j].id] == catalog[j]
    decreases |catalog|
  {
    var init := catalog[..|catalog| - 1];
    if j < |catalog| - 1 {
      assert forall k :: j < k < |init| ==> init[k] == catalog[k];
      IndexHoldsLastOccurrence(init, j);
    }
  }

  /** The record for one watch-list entry, or `None` when the entry is
      skipped: its id is not in the catalog, or its broadcast weekday is
      missing or unrecognised. */
  function EntryFor(index: map<int, CatalogEntry>, lookup: int -> Option<AiringInfo>,
                    e: WatchEntry): (r: Option<Reconciled>)
    ensures r.Some? <==> e.id in index && Weekday.WeekdayIndex(index[e.id].broadcastDay) != -1
    ensures r.Some? ==>
      && r.value.malId == e.id
      && r.value.title == index[e.id].title
      && r.value.watched == e.watched
      && r.value.weekday == Weekday.WeekdayIndex(index[e.id].broadcastDay)
      && 0 <= r.value.weekday < 7
  {
    if e.id !in index then None
    else
      var anime := index[e.id];
      var weekday := Weekday.WeekdayIndex(anime.broadcastDay);
      if weekday == -1 then None
      else
        var res := ResolveEpisodes(anime.numEpisodes, lookup(e.id));
        Some(Reconciled(anime.title, e.id, e.watched, res.total, res.hours,
                        StatusOf(e.watched, res.total, res.next),
                        CoverUrl(anime.mainPicture), weekday, e.score.GetOr(0)))
  }

  function Emit(r: Option<Reconciled>): seq<Reconciled> {
    if r.Some? then [r.value] else []
  }

  /** Every record of the pass, in watch-list order. */
  function Emitted(index: map<int, CatalogEntry>, lookup: int -> Option<AiringInfo>,
                   watching: seq<WatchEntry>): seq<Reconciled>
    decreases |watching|
  {
    if watching == [] then []
    else
      Emitted(index, lookup, watching[..|watching| - 1])
        + Emit(EntryFor(index, lookup, watching[|watching| - 1]))
  }

  /** The records whose weekday is `d`, in their original order. */
  function OnDay(records: seq<Reconciled>, d: int): seq<Reconciled>
    decreases |records|
  {
    if records == [] then []
    else
      var last := records[|records| - 1];
      OnDay(records[..|records| - 1], d) + (if last.weekday == d then [last] else [])
  }

  /** The seven weekday buckets, Sunday first. */
  function Buckets(records: seq<Reconciled>): (b: seq<seq<Reconciled>>)
    ensures |b| == 7
  {
    seq(7, d requires 0 <= d < 7 => OnDay(records, d))
  }

  /** A record is in bucket `d` exactly when it was emitted with weekday `d`. */
  lemma {:induction false} OnDayMembership(records: seq<Reconciled>, d: int, r: Reconciled)
    ensures r in OnDay(records, d) <==> r in records && r.weekday == d
    decreases |records|
  {
    if records != [] {
      var init := records[..|records| - 1];
      OnDayMembership(init, d, r);
      assert records == init + [records[|records| - 1]];
    }
  }

  /** Splitting the records splits every bucket at the same place. */
  lemma {:induction false} OnDayConcat(a: seq<Reconciled>, b: seq<Reconciled>, d: int)
    ensures OnDay(a + b, d) == OnDay(a, d) + OnDay(b, d)
    decreases |b|
  {
    if b == [] {
      assert a + b == a;
    } else {
      var init := b[..|b| - 1];
      var last := b[|b| - 1];
      assert (a + b)[..|a + b| - 1] == a + init;
      assert (a + b)[|a + b| - 1] == last;
      OnDayConcat(a, init, d);
      var x := OnDay(a, d);
      var y := OnDay(init, d);
      var t := if last.weekday == d then [last] else [];
      assert (x + y) + t == x + (y + t);
    }
  }

  /** The buckets split the records exactly: a record appears in the bucket
      of its weekday as often as among all the records, and in no other
      bucket. */
  lemma {:induction false} OnDayCounts(records: seq<Reconciled>, d: int, r: Reconciled)
    ensures multiset(OnDay(records, d))[r] == if r.weekday == d then multiset(records)[r] else 0
    decreases |records|
  {
    if records != [] {
      var init := records[..|records| - 1];
      var last := records[|records| - 1];
      assert records == init + [last];
      OnDayCounts(init, d, r);
      var t := if last.weekday == d then [last] else [];
      assert multiset(OnDay(init, d) + t) == multiset(OnDay(init, d)) + multiset(t);
    }
  }

  /** Partition of the emitted records over the seven buckets: each record
      lands, with its multiplicity, in the one bucket of its weekday. */
  lemma BucketsPartition(records: seq<Reconciled>, r: Reconciled)
    ensures forall d :: 0 <= d < 7 ==>
      multiset(Buckets(records)[d])[r] == if r.weekday == d then multiset(records)[r] else 0
  {
    forall d | 0 <= d < 7
      ensures multiset(Buckets(records)[d])[r] == if r.weekday == d then multiset(records)[r] else 0
    {
      OnDayCounts(records, d, r);
    }
  }

  /** Reconciling two parts of the watch list emits the records of the first
      part, then those of the second. */
  lemma {:induction false} EmittedConcat(
    index: map<int, CatalogEntry>, lookup: int -> Option<AiringInfo>,
    first: seq<WatchEntry>, second: seq<WatchEntry>)
    ensures Emitted(index, lookup, first + second)
         == Emitted(index, lookup, first) + Emitted(index, lookup, second)
    decreases |second|
  {
    if second == [] {
      assert first + second == first;
    } else {
      var init := second[..|second| - 1];
      var last := second[|second| - 1];
      assert (first + second)[..|first + second| - 1] == first + init;
      assert (first + second)[|first + second| - 1] == last;
      EmittedConcat(index, lookup, first, init);
      var x := Emitted(index, lookup, first);
      var y := Emitted(index, lookup, init);
      var t := Emit(EntryFor(index, lookup, last));
      assert (x + y) + t == x + (y + t);
    }
  }

  /** Buckets keep watch-list order: the records of an earlier part of the
      watch list come before those of a later part in every bucket. */
  lemma BucketOrderFollowsWatchList(
    index: map<int, CatalogEntry>, lookup: int -> Option<AiringInfo>,
    first: seq<WatchEntry>, second: seq<WatchEntry>, d: int)
    ensures OnDay(Emitted(index, lookup, first + second), d)
         == OnDay(Emitted(index, lookup, first), d) + OnDay(Emitted(index, lookup, second), d)
  {
    EmittedConcat(index, lookup, first, second);
    OnDayConcat(Emitted(index, lookup, first), Emitted(index, lookup, second), d);
  }

  /** Intersection: every record comes from a watch-list entry whose id is in
      the catalog and whose weekday resolves. */
  lemma {:induction false} EmittedOnlyFromJoin(
    index: map<int, CatalogEntry>, lookup: int -> Option<AiringInfo>,
    watching: seq<WatchEntry>, r: Reconciled)
    requires r in Emitted(index, lookup, watching)
    ensures exists i :: 0 <= i < |watching| && EntryFor(index, lookup, watching[i]) == Some(r)
    decreases |watching|
  {
    var init := watching[..|watching| - 1];
    var last := watching[|watching| - 1];
    if r in Emitted(index, lookup, init) {
      EmittedOnlyFromJoin(index, lookup, init, r);
      var i :| 0 <= i < |init| && EntryFor(index, lookup, init[i]) == Some(r);
      assert watching[i] == init[i];
    } else {
      assert EntryFor(index, lookup, watching[|watching| - 1]) == Some(r);
    }
  }

  /** Completeness: a watch-list entry in the catalog with a resolvable
      weekday yields its record, and that record is in its weekday's bucket. */
  lemma {:induction false} JoinedEntryIsBucketed(
    index: map<int, CatalogEntry>, lookup: int -> Option<AiringInfo>,
    watching: seq<WatchEntry>, i: int)
    requires 0 <= i < |watching|
    requires watching[i].id in index
    requires Weekday.WeekdayIndex(index[watching[i].id].broadcastDay) != -1
    ensures var r := EntryFor(index, lookup, watching[i]).value;
      r in OnDay(Emitted(index, lookup, watching), r.weekday)
    decreases |watching|
  {
    var r := EntryFor(index, lookup, watching[i]).value;
    var init := watching[..|watching| - 1];
    if i < |watching| - 1 {
      assert init[i] == watching[i];
      JoinedEntryIsBucketed(index, lookup, init, i);
      OnDayMembership(Emitted(index, lookup, init), r.weekday, r);
    }
    OnDayMembership(Emitted(index, lookup, watching), r.weekday, r);
  }

  /** Isolation: which series are reported, and where, does not depend on the
      airing lookup, so a lookup that fails for some series never drops or
      moves any record. */
  lemma {:induction false} LookupFailuresDropNothing(
    index: map<int, CatalogEntry>, lookup: int -> Option<AiringInfo>,
    other: int -> Option<AiringInfo>, watching: seq<WatchEntry>)
    ensures |Emitted(index, lookup, watching)| == |Emitted(index, other, watching)|
    ensures forall k :: 0 <= k < |Emitted(index, lookup, watching)| ==>
      && Emitted(index, lookup, watching)[k].malId == Emitted(index, other, watching)[k].malId
      && Emitted(index, lookup, watching)[k].weekday == Emitted(index, other, watching)[k].weekday
    decreases |watching|
  {
    if watching != [] {
      LookupFailuresDropNothing(index, lookup, other, watching[..|watching| - 1]);
    }
  }

  /** The worked example of the offset path: the catalog counts 24 episodes
      across both parts, the airing source 12 for the current part, whose
      next episode is its 5th. The total is 24, the next episode is the
      17th, 16 have aired; 16 watched is caught up, 15 is behind. */
  lemma OffsetExample(airingAt: int)
    ensures var info := AiringInfo(Some(12), Some(NextAiring(5, airingAt, 90000)));
      var r := ResolveEpisodes(Some(24), Some(info));
      && r.total == Count(24)
      && r.next == Some(NextAiring(17, airingAt, 90000))
      && r.hours == Some(25)
      && StatusOf(16, r.total, r.next) == Green
      && StatusOf(15, r.total, r.next) == Red
  {
  }

  /** The offset keeps both numberings consistent: the episodes still to air
      (total minus the next episode's number) are the same in the catalog's
      cumulative numbering as in the airing source's own. */
  lemma OffsetKeepsRemainingEpisodes(catalogEps: int, airingEps: int, next: NextAiring)
    requires catalogEps > 0 && airingEps > 0
    ensures var r := ResolveEpisodes(Some(catalogEps), Some(AiringInfo(Some(airingEps), Some(next))));
      r.total.n - r.next.value.episode == airingEps - next.episode
  {
  }

  /** Status boundary: with a next airing, watching exactly the aired
      episodes is caught up, one fewer is behind. */
  lemma StatusBoundary(total: Total, next: NextAiring)
    ensures StatusOf(next.episode - 1, total, Some(next)) == Green
    ensures StatusOf(next.episode - 2, total, Some(next)) == Red
  {
  }

  /** Watching more never turns a caught-up series into a behind one. */
  lemma StatusMonotone(watched: int, more: int, total: Total, next: Option<NextAiring>)
    requires watched <= more
    requires StatusOf(watched, total, next) == Green
    ensures StatusOf(more, total, next) == Green
  {
  }

  /** Without a next airing, "?" and non-positive totals are always behind. */
  lemma NoScheduleNeedsPositiveTotal(watched: int, total: Total)
    requires StatusOf(watched, total, None) == Green
    ensures total.Count? && 0 < total.n <= watched
  {
  }

  /** The `try`/`except` block of the loop body, with `total_eps = "?"` and
      `next_ep = None` as the values it starts from. */
  method ResolveAiring(malEps: Option<int>, info: Option<AiringInfo>)
    returns (totalEps: Total, nextEp: Option<NextAiring>, nextInHours: Option<int>)
    ensures Resolution(totalEps, nextEp, nextInHours) == ResolveEpisodes(malEps, info)
  {
    totalEps := Unknown;
    nextEp := None;
    nextInHours := None;
    match info {
      case None =>
        totalEps := Or(malEps, Unknown);
      case Some(anilistInfo) =>
        nextEp := anilistInfo.nextAiring;
        if BothPositive(malEps, anilistInfo.episodes) {
          var offset := malEps.value - anilistInfo.episodes.value;
          totalEps := Count(anilistInfo.episodes.value + offset);
          if nextEp.Some? {
            nextEp := Some(nextEp.value.(episode := nextEp.value.episode + offset));
          }
        } else {
          totalEps := Or(anilistInfo.episodes, Or(malEps, Unknown));
        }
        if nextEp.Some? {
          nextInHours := Some(nextEp.value.timeUntilAiring / 3600);
        }
    }
  }

  /** The body of the `for entry in watching_list` loop for one entry: the
      record it appends, or `None` when it reaches a `continue`. */
  method ReconcileEntry(index: map<int, CatalogEntry>, lookup: int -> Option<AiringInfo>,
                        entry: WatchEntry)
    returns (record: Option<Reconciled>)
    ensures record == EntryFor(index, lookup, entry)
  {
    if entry.id !in index {
      return None;
    }
    var anime := index[entry.id];
    var weekdayIdx := Weekday.WeekdayIndex(anime.broadcastDay);
    if weekdayIdx == -1 {
      return None;
    }
    var watchedEps := entry.watched;
    var totalEps, nextEp, nextInHours := ResolveAiring(anime.numEpisodes, lookup(entry.id));
    var status;
    if nextEp.None? {
      status := if totalEps.Count? && watchedEps >= totalEps.n > 0 then Green else Red;
    } else {
      var airedEps := nextEp.value.episode - 1;
      status := if watchedEps >= airedEps then Green else Red;
    }
    assert status == StatusOf(watchedEps, totalEps, nextEp);
    record := Some(Reconciled(anime.title, entry.id, watchedEps, totalEps, nextInHours, status,
                              CoverUrl(anime.mainPicture), weekdayIdx, entry.score.GetOr(0)));
  }

  /** The `for entry in watching_list` loop of `fetch_anime_data`: seven
      empty buckets, then each joined entry appended to its weekday's. */
  method GroupByWeekday(index: map<int, CatalogEntry>, watching: seq<WatchEntry>,
                        lookup: int -> Option<AiringInfo>)
    returns (byDay: seq<seq<Reconciled>>)
    ensures byDay == Buckets(Emitted(index, lookup, watching))
  {
    byDay := [[], [], [], [], [], [], []];
    for i := 0 to |watching|
      invariant |byDay| == 7
      invariant forall d :: 0 <= d < 7 ==> byDay[d] == OnDay(Emitted(index, lookup, watching[..i]), d)
    {
      var record := ReconcileEntry(index, lookup, watching[i]);
      AppendStep(index, lookup, watching, i);
      if record.Some? {
        byDay := byDay[record.value.weekday := byDay[record.value.weekday] + [record.value]];
      }
    }
    assert watching[..|watching|] == watching;
  }

  /** One loop step: the buckets after entry `i` are those before it, with
      the entry's record (if any) appended to its weekday's bucket. */
  lemma AppendStep(index: map<int, CatalogEntry>, lookup: int -> Option<AiringInfo>,
                   watching: seq<WatchEntry>, i: int)
    requires 0 <= i < |watching|
    ensures var r := EntryFor(index, lookup, watching[i]);
      forall d :: 0 <= d < 7 ==>
        OnDay(Emitted(index, lookup, watching[..i + 1]), d)
          == OnDay(Emitted(index, lookup, watching[..i]), d)
             + (if r.Some? && r.value.weekday == d then [r.value] else [])
  {
    assert watching[..i + 1][..i] == watching[..i];
    var emitted := Emitted(index, lookup, watching[..i]);
    var tail := Emit(EntryFor(index, lookup, watching[i]));
    assert Emitted(index, lookup, watching[..i + 1]) == emitted + tail;
    forall d | 0 <= d < 7
      ensures OnDay(emitted + tail, d) == OnDay(emitted, d) + OnDay(tail, d)
    {
      OnDayConcat(emitted, tail, d);
    }
  }

  /** One whole pass: catalog (paginated), watch list, then the grouping
      loop. A failure of either retrieval fails the pass; no partial buckets
      are produced. The two retrievals use their own headers built from the
      same stored access token, as the source does. */
  method FetchAnimeData(
    catalogServer: Request -> Response<Page<CatalogEntry>>,
    watchServer: Request -> Response<Page<WatchEntry>>,
    renew: nat -> Option<string>,
    accessToken: string, username: string, month: int, year: int,
    lookup: int -> Option<AiringInfo>,
    ghost fuel: nat)
    returns (r: Result<seq<seq<Reconciled>>, FetchError>)
    requires WalkPages(catalogServer, renew, Some(CatalogUrl(Season.CurrentSeason(month, year).0, year)),
                       WithBearer(map[], accessToken), 0, fuel).Some?
    ensures var walk := WalkPages(catalogServer, renew,
                                  Some(CatalogUrl(Season.CurrentSeason(month, year).0, year)),
                                  WithBearer(map[], accessToken), 0, fuel).value;
      var watch := SafeGetSpec(watchServer, renew(walk.refreshes), WatchListUrl(username),
                               WithBearer(map[], accessToken));
      && (walk.result.Failure? ==> r == Failure(walk.result.error))
      && (walk.result.Success? && watch.result.Failure? ==> r == Failure(watch.result.error))
      && (walk.result.Success? && watch.result.Success? ==>
            r == Success(Buckets(Emitted(CatalogIndex(walk.result.value), lookup,
                                         watch.result.value.data))))
  {
    var season := Season.CurrentSeason(month, year);
    var catalogSession := new Session(catalogServer, renew, accessToken, 0);
    var seasonal := GetSeasonalAnime(catalogSession, season.0, season.1, fuel);
    if seasonal.Failure? {
      return Failure(seasonal.error);
    }
    var index := CatalogIndex(seasonal.value);
    var watchSession := new Session(watchServer, renew, accessToken, catalogSession.refreshes);
    var watching := GetWatchingList(watchSession, username);
    if watching.Failure? {
      return Failure(watching.error);
    }
    var byDay := GroupByWeekday(index, watching.value, lookup);
    r := Success(byDay);
  }
}
