/** `get_weekday_index`: the position of a broadcast weekday name in the
    Sunday-first week, or -1 when there is no such weekday. */
module Weekday {
  import opened Wrappers
  import Text

  /** The week as the program orders it: index 0 is Sunday. */
  const Days: seq<string> :=
    ["sunday", "monday", "tuesday", "wednesday", "thursday", "friday", "saturday"]

  /** `list.index`: the first position of `x` in `xs`, or -1 when absent. */
  function IndexOf(xs: seq<string>, x: string): (i: int)
    ensures -1 <= i < |xs|
    ensures i == -1 <==> x !in xs
    ensures 0 <= i ==> xs[i] == x && forall k :: 0 <= k < i ==> xs[k] != x
  {
    if xs == [] then -1
    else if xs[0] == x then 0
    else
      var j := IndexOf(xs[1..], x);
      if j == -1 then -1 else j + 1
  }

  /** A missing or empty name is falsy and yields -1; otherwise the
      lower-cased name is looked up among the seven days. */
  function WeekdayIndex(day: Option<string>): (i: int)
    ensures -1 <= i < 7
    ensures 0 <= i ==> day.Some? && Days[i] == Text.Lower(day.value)
    ensures i == -1 <==> day.None? || Text.Lower(day.value) !in Days
  {
    if day.Some? && day.value != "" && Text.Lower(day.value) in Days
    then IndexOf(Days, Text.Lower(day.value))
    else -1
  }

  /** Each of the seven day names is found at its own position: the names
      are distinct, so the first match is the right one. */
  lemma DayNamesRoundTrip(i: int)
    requires 0 <= i < 7
    ensures WeekdayIndex(Some(Days[i])) == i
  {
    Text.LowerKeepsLowercase(Days[i]);
    forall j | 0 <= j < 7 && j != i
      ensures Days[j] != Days[i]
    {
      assert Days[j][1] != Days[i][1] || Days[j][0] != Days[i][0];
    }
  }

  /** Case does not matter. */
  lemma CapitalisedNames()
    ensures WeekdayIndex(Some("Sunday")) == 0
    ensures WeekdayIndex(Some("SATURDAY")) == 6
  {
    assert Text.Lower("Sunday") == Days[0];
    assert Text.Lower("SATURDAY") == Days[6];
  }

  /** Empty, unknown and missing names give -1. */
  lemma UnknownNames()
    ensures WeekdayIndex(Some("")) == -1
    ensures WeekdayIndex(Some("other")) == -1
    ensures WeekdayIndex(None) == -1
  {
    assert forall d :: d in Days ==> |d| >= 6;
  }
}
