/** The episode counter of one card of the wallpaper window (`AnimeWidget`)
    and the placement of cards in the Sunday column's two-column grid
    (`MainWindow.refresh_data`). Widgets, labels and buttons are not modelled:
    only the state they display and change. */
module Wallpaper {
  import opened Wrappers
  import Reconcile
  import Text

  /** `int(total_eps)` guarded by `except (TypeError, ValueError)`: a count
      converts, "?" does not and gives `None`. */
  function ParseTotal(total: Reconcile.Total): (r: Option<int>)
    ensures r.Some? <==> total.Count?
    ensures r.Some? ==> r.value == total.n
  {
    match total
    case Count(n) => Some(n)
    case Unknown => None
  }

  datatype Click = Increase | Decrease

  /** `current_eps` after one click on "+" or "-". */
  function Clicked(current: int, total: Option<int>, click: Click): (r: int)
    ensures r == current || r == current + 1 || r == current - 1
    ensures InRange(current, total) ==> InRange(r, total)
  {
    match click
    case Increase => if total.None? || current < total.value then current + 1 else current
    case Decrease => if current > 0 then current - 1 else current
  }

  /** `current_eps` after a series of clicks, first click first. */
  function AfterClicks(current: int, total: Option<int>, clicks: seq<Click>): (r: int)
    ensures current - |clicks| <= r <= current + |clicks|
    decreases |clicks|
  {
    if clicks == [] then current
    else AfterClicks(Clicked(current, total, clicks[0]), total, clicks[1..])
  }

  /** The counter's range: never negative, never above a known total. */
  predicate InRange(current: int, total: Option<int>) {
    0 <= current && (total.Some? ==> current <= total.value)
  }

  /** "+" moves by one exactly when there is room below the total (or no
      total); "-" moves by one exactly when the counter is positive. */
  lemma ClickMovesByOne(current: int, total: Option<int>)
    ensures Clicked(current, total, Increase) - current ==
      (if total.None? || current < total.value then 1 else 0)
    ensures current - Clicked(current, total, Decrease) == (if current > 0 then 1 else 0)
  {
  }

  /** Any series of clicks keeps the counter in range. */
  lemma {:induction false} ClicksKeepRange(current: int, total: Option<int>, clicks: seq<Click>)
    requires InRange(current, total)
    ensures InRange(AfterClicks(current, total, clicks), total)
    decreases |clicks|
  {
    if clicks != [] {
      ClicksKeepRange(Clicked(current, total, clicks[0]), total, clicks[1..]);
    }
  }

  /** Whatever the total, no series of clicks drives a non-negative counter
      below zero. */
  lemma {:induction false} ClicksNeverNegative(current: int, total: Option<int>, clicks: seq<Click>)
    requires 0 <= current
    ensures 0 <= AfterClicks(current, total, clicks)
    decreases |clicks|
  {
    if clicks != [] {
      ClicksNeverNegative(Clicked(current, total, clicks[0]), total, clicks[1..]);
    }
  }

  function Increases(k: nat): (clicks: seq<Click>)
    ensures |clicks| == k && forall i :: 0 <= i < k ==> clicks[i] == Increase
  {
    seq(k, _ => Increase)
  }

  /** k presses of "+" from an in-range counter stop at the total:
      the counter becomes min(current + k, total). */
  lemma {:induction false} IncreasesStopAtTotal(current: int, total: int, k: nat)
    requires 0 <= current <= total
    ensures AfterClicks(current, Some(total), Increases(k))
         == if current + k <= total then current + k else total
    decreases k
  {
    if k > 0 {
      assert Increases(k)[0] == Increase;
      assert Increases(k)[1..] == Increases(k - 1);
      IncreasesStopAtTotal(Clicked(current, Some(total), Increase), total, k - 1);
    }
  }

  /** The body sent by `submit_and_refresh`. */
  datatype Payload = Payload(status: string, score: int, numWatchedEpisodes: int)

  /** The countdown text's parts: whole days and remaining hours, or "?". */
  datatype Countdown = NextIn(days: int, hours: int) | NextUnknown

  /** `math.floor(next_in_hours/24)` days and `next_in_hours % 24` hours. */
  function CountdownOf(nextInHours: Option<int>): (c: Countdown)
    ensures c.NextUnknown? <==> nextInHours.None?
    ensures c.NextIn? ==> 24 * c.days + c.hours == nextInHours.value && 0 <= c.hours < 24
  {
    match nextInHours
    case None => NextUnknown
    case Some(h) => NextIn(h / 24, h % 24)
  }

  function CountdownText(nextInHours: Option<int>): (text: string)
    ensures nextInHours.None? ==> text == "Next: ?"
    ensures nextInHours.Some? ==> |text| > 8 && text[..8] == "Next in " && text[|text| - 1] == 'h'
  {
    match CountdownOf(nextInHours)
    case NextUnknown => "Next: ?"
    case NextIn(d, r) => "Next in " + Text.Decimal(d) + "d " + Text.Decimal(r) + "h"
  }

  /** 25 hours is shown as one day and one hour. */
  lemma CountdownExample()
    ensures CountdownOf(Some(25)) == NextIn(1, 1)
    ensures CountdownText(None) == "Next: ?"
  {
  }

  /** `row, col = divmod(idx, 2)`: the Sunday column fills a two-column grid
      row by row. */
  function GridCell(idx: nat): (cell: (nat, nat))
    ensures cell.1 < 2 && 2 * cell.0 + cell.1 == idx
  {
    (idx / 2, idx % 2)
  }

  /** Distinct cards get distinct cells. */
  lemma GridCellsDistinct(i: nat, j: nat)
    requires i != j
    ensures GridCell(i) != GridCell(j)
  {
  }

  /** The Sunday branch of `refresh_data`: the cell of each card, in order. */
  method PlaceSundayCards(count: nat) returns (cells: seq<(nat, nat)>)
    ensures |cells| == count
    ensures forall i :: 0 <= i < count ==> cells[i].1 < 2 && 2 * cells[i].0 + cells[i].1 == i
    ensures forall i, j :: 0 <= i < j < count ==> cells[i] != cells[j]
  {
    cells := [];
    for idx := 0 to count
      invariant |cells| == idx
      invariant forall i :: 0 <= i < idx ==> cells[i] == GridCell(i)
    {
      var row, col := idx / 2, idx % 2;
      cells := cells + [(row, col)];
    }
    forall i, j | 0 <= i < j < count
      ensures cells[i] != cells[j]
    {
      GridCellsDistinct(i, j);
    }
  }

  /** One card: the series it shows and the episode counter the user moves
      with "+" and "-" before submitting it with "=". Only `currentEps`
      changes after construction. */
  class AnimeWidget {
    const title: string
    const animeId: int
    const totalEps: Option<int>
    const originalEps: int
    const score: int
    const nextInHours: Option<int>
    const status: Reconcile.Status
    const coverUrl: Option<string>
    var currentEps: int

    /** The range that "+" and "-" keep the counter in once it is there. It
        is not a class invariant: the watched count handed over may exceed
        the total. */
    predicate CounterInRange()
      reads this
    {
      InRange(currentEps, totalEps)
    }

    constructor (title: string, malId: int, watchedEps: int, totalEps: Reconcile.Total,
                 nextInHours: Option<int>, status: Reconcile.Status,
                 coverUrl: Option<string>, score: int)
      ensures this.title == title && animeId == malId
      ensures this.totalEps == ParseTotal(totalEps)
      ensures originalEps == watchedEps && currentEps == watchedEps
      ensures this.score == score && this.nextInHours == nextInHours
      ensures this.status == status && this.coverUrl == coverUrl
    {
      this.title := title;
      animeId := malId;
      this.totalEps := ParseTotal(totalEps);
      originalEps := watchedEps;
      currentEps := watchedEps;
      this.coverUrl := coverUrl;
      this.score := score;
      this.nextInHours := nextInHours;
      this.status := status;
    }

    method IncreaseEpisode()
      modifies this
      ensures currentEps == Clicked(old(currentEps), totalEps, Increase)
      ensures old(CounterInRange()) ==> CounterInRange()
    {
      if totalEps.None? || currentEps < totalEps.value {
        currentEps := currentEps + 1;
      }
    }

    method DecreaseEpisode()
      modifies this
      ensures currentEps == Clicked(old(currentEps), totalEps, Decrease)
      ensures old(currentEps) >= 0 ==> currentEps >= 0
      ensures old(CounterInRange()) ==> CounterInRange()
    {
      if currentEps > 0 {
        currentEps := currentEps - 1;
      }
    }

    /** "completed" exactly when the counter equals a known total. */
    function SubmitStatus(): (s: string)
      reads this
      ensures s == "completed" || s == "watching"
      ensures s == "completed" <==> totalEps == Some(currentEps)
    {
      if totalEps.Some? && currentEps == totalEps.value then "completed" else "watching"
    }

    /** What "=" sends: nothing for a falsy id, otherwise the status, the
        unchanged score and the counter. */
    function SubmitPayload(): (p: Option<Payload>)
      reads this
      ensures p.None? <==> animeId == 0
      ensures p.Some? ==>
        && p.value.numWatchedEpisodes == currentEps
        && p.value.score == score
        && (p.value.status == "completed" <==> totalEps == Some(currentEps))
    {
      if animeId == 0 then None
      else Some(Payload(SubmitStatus(), score, currentEps))
    }
  }
}
