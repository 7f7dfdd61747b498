/** Calendar dates as the writer sees them: the local (year, month, day) of a
    wall-clock reading, dateEqual, and the `2006-01-02` suffix layout. */
module Dates {
  import opened Decimal

  datatype Date = Date(year: nat, month: nat, day: nat)

  /** dateEqual: two readings fall on the same calendar date. */
  function DateEqual(first: Date, second: Date): (r: bool)
    ensures r <==> first == second
  {
    first.year == second.year && first.month == second.month && first.day == second.day
  }

  /** time.Time.Format(SuffixDateFormat), i.e. `YYYY-MM-DD`. */
  function FormatDate(d: Date): string
  {
    Pad(d.year, 4) + "-" + Pad(d.month, 2) + "-" + Pad(d.day, 2)
  }

  predicate InRange(d: Date)
  {
    d.year < 10000 && d.month < 100 && d.day < 100
  }

  /** Where the three fields sit in a `YYYY-MM-DD` string. */
  lemma Pieces(y: string, m: string, d: string)
    requires |y| == 4 && |m| == 2 && |d| == 2
    ensures var s := y + "-" + m + "-" + d; s[0..4] == y && s[5..7] == m && s[8..10] == d
  {
  }

  /** Different dates of years 0..9999 never share a suffix, so files rotated
      on different days never compete for the same date name. */
  lemma FormatDateInjective(d: Date, e: Date)
    requires InRange(d) && InRange(e)
    requires FormatDate(d) == FormatDate(e)
    ensures d == e
  {
    PadLength(d.year, 4);
    PadLength(e.year, 4);
    PadLength(d.month, 2);
    PadLength(e.month, 2);
    PadLength(d.day, 2);
    PadLength(e.day, 2);
    Pieces(Pad(d.year, 4), Pad(d.month, 2), Pad(d.day, 2));
    Pieces(Pad(e.year, 4), Pad(e.month, 2), Pad(e.day, 2));
    PadInjective(d.year, e.year, 4);
    PadInjective(d.month, e.month, 2);
    PadInjective(d.day, e.day, 2);
  }

  /** The `2006-01-02` layout: four-digit year, two-digit month and day. */
  lemma SuffixLayout()
    ensures FormatDate(Date(2024, 3, 7)) == "2024-03-07"
    ensures FormatDate(Date(987, 12, 31)) == "0987-12-31"
  {
  }
}
