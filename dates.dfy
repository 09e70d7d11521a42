/** Days, the calendar views the reconciler needs, and the normalisation of a
    compact "YYYYMMDD" date into the store's "YYYY-MM-DD" form. */
module Dates {
  import opened Chars
  import opened Wrappers

  /** A calendar day, as a count of days from a fixed epoch. */
  type Day = int

  /** The day of the year of some date. */
  type YearDay = d: int | 1 <= d <= 366 witness 1

  /** How a day is rendered and placed in its year. `compact` is the
      "YYYYMMdd" rendering the upstream takes, `iso` the "yyyy-MM-dd"
      rendering the store keys on, `dayOfYear` its position in its year. */
  datatype Calendar = Calendar(
    compact: Day -> string,
    iso: Day -> string,
    dayOfYear: Day -> YearDay)

  /** newDate: the day `i` days before `today`. */
  function NewDate(today: Day, i: int): (day: Day)
    ensures day < today <==> i > 0
  {
    today - i
  }

  predicate IsCompactDate(s: string) {
    |s| == 8 && forall i :: 0 <= i < 8 ==> IsDigit(s[i])
  }

  predicate IsIsoDate(s: string) {
    |s| == 10 && s[4] == '-' && s[7] == '-' &&
    forall i :: 0 <= i < 10 && i != 4 && i != 7 ==> IsDigit(s[i])
  }

  /** The compact rendering of an ISO date: its digits without the dashes. */
  function Compact(iso: string): (s: string)
    requires IsIsoDate(iso)
    ensures IsCompactDate(s)
  {
    iso[..4] + iso[5..7] + iso[8..]
  }

  /** dateFormat: "YYYYMMDD" becomes "YYYY-MM-DD"; anything else raises a
      ParseException. */
  function DateFormat(date: string): (r: Result<string>)
    ensures r.Ok? <==> IsCompactDate(date)
    ensures r.Err? ==> r.error == ParseException
    ensures r.Ok? ==> IsIsoDate(r.value) && Compact(r.value) == date
  {
    if IsCompactDate(date) then
      var iso := date[..4] + "-" + date[4..6] + "-" + date[6..];
      assert Compact(iso) == date by {
        assert iso[..4] == date[..4] && iso[5..7] == date[4..6] && iso[8..] == date[6..];
        assert date == date[..4] + date[4..6] + date[6..];
      }
      Ok(iso)
    else Err(ParseException)
  }

  /** Normalising the compact rendering of an ISO date gives that date back. */
  lemma DateFormatOfCompact(iso: string)
    requires IsIsoDate(iso)
    ensures DateFormat(Compact(iso)) == Ok(iso)
  {
    var c := Compact(iso);
    assert c[..4] == iso[..4] && c[4..6] == iso[5..7] && c[6..] == iso[8..];
    assert iso == iso[..4] + "-" + iso[5..7] + "-" + iso[8..];
  }
}
