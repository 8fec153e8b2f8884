/** Date helpers shared by the message screens and the list pages: reading a stored timestamp
    as UTC, the "time ago" buckets, and the day-group label. The clock, the time zone and the
    locale formatting are inputs. */
module DateUtils {
  import opened Strings

  /** The timestamp read as UTC: a `'Z'` is appended unless the text already has one anywhere. */
  function EnsureUtc(dateString: string): (utc: string)
    ensures 'Z' in utc
    ensures 'Z' in dateString ==> utc == dateString
    ensures 'Z' !in dateString ==> utc == dateString + "Z"
  {
    if 'Z' in dateString then dateString
    else
      assert (dateString + "Z")[|dateString|] == 'Z';
      dateString + "Z"
  }

  /** Reading a timestamp as UTC twice is reading it once. */
  lemma EnsureUtcIdempotent(dateString: string)
    ensures EnsureUtc(EnsureUtc(dateString)) == EnsureUtc(dateString)
  {
  }

  const MsPerMinute := 60000
  const MsPerHour := 60 * MsPerMinute
  const MsPerDay := 24 * MsPerHour

  /** The bucket of a relative time, with the whole number of units shown. */
  datatype TimeAgo = JustNow | MinutesAgo(minutes: nat) | HoursAgo(hours: nat) | DaysAgo(days: nat) | OnDate

  /** `formatTimeAgo` for `elapsedMs` = now minus the message time, in milliseconds; a future
      time counts as "just now". Minutes, hours and days are floored. */
  function TimeAgoOf(elapsedMs: int): (t: TimeAgo)
    ensures t.JustNow? <==> elapsedMs < MsPerMinute
    ensures t.MinutesAgo? <==> MsPerMinute <= elapsedMs < MsPerHour
    ensures t.HoursAgo? <==> MsPerHour <= elapsedMs < MsPerDay
    ensures t.DaysAgo? <==> MsPerDay <= elapsedMs < 7 * MsPerDay
    ensures t.OnDate? <==> 7 * MsPerDay <= elapsedMs
    ensures t.MinutesAgo? ==>
      1 <= t.minutes < 60 && t.minutes * MsPerMinute <= elapsedMs < (t.minutes + 1) * MsPerMinute
    ensures t.HoursAgo? ==>
      1 <= t.hours < 24 && t.hours * MsPerHour <= elapsedMs < (t.hours + 1) * MsPerHour
    ensures t.DaysAgo? ==>
      1 <= t.days < 7 && t.days * MsPerDay <= elapsedMs < (t.days + 1) * MsPerDay
  {
    var diffInMinutes := elapsedMs / MsPerMinute;
    if diffInMinutes < 1 then JustNow
    else if diffInMinutes < 60 then MinutesAgo(diffInMinutes)
    else
      var diffInHours := diffInMinutes / 60;
      if diffInHours < 24 then HoursAgo(diffInHours)
      else
        var diffInDays := diffInHours / 24;
        if diffInDays < 7 then DaysAgo(diffInDays) else OnDate
  }

  /** The text shown for a bucket; `localeDate` is the locale's date for older messages. */
  function TimeAgoText(t: TimeAgo, localeDate: string): (text: string)
    ensures t.JustNow? ==> text == "Just now"
    ensures t.MinutesAgo? ==> text == NatToString(t.minutes) + "m ago"
    ensures t.HoursAgo? ==> text == NatToString(t.hours) + "h ago"
    ensures t.DaysAgo? ==> text == NatToString(t.days) + "d ago"
    ensures t.OnDate? ==> text == localeDate
  {
    match t
    case JustNow => "Just now"
    case MinutesAgo(n) => NatToString(n) + "m ago"
    case HoursAgo(n) => NatToString(n) + "h ago"
    case DaysAgo(n) => NatToString(n) + "d ago"
    case OnDate => localeDate
  }

  /** `formatTimeAgo` end to end: the text names the whole number of minutes, hours or days
      elapsed, rounded down, within each bucket's range. */
  lemma FormatTimeAgo(elapsedMs: int, localeDate: string)
    ensures elapsedMs < MsPerMinute ==> TimeAgoText(TimeAgoOf(elapsedMs), localeDate) == "Just now"
    ensures MsPerMinute <= elapsedMs < MsPerHour ==>
      TimeAgoText(TimeAgoOf(elapsedMs), localeDate) == NatToString(elapsedMs / MsPerMinute) + "m ago"
    ensures MsPerHour <= elapsedMs < MsPerDay ==>
      TimeAgoText(TimeAgoOf(elapsedMs), localeDate) == NatToString(elapsedMs / MsPerHour) + "h ago"
    ensures MsPerDay <= elapsedMs < 7 * MsPerDay ==>
      TimeAgoText(TimeAgoOf(elapsedMs), localeDate) == NatToString(elapsedMs / MsPerDay) + "d ago"
    ensures 7 * MsPerDay <= elapsedMs ==> TimeAgoText(TimeAgoOf(elapsedMs), localeDate) == localeDate
  {
  }

  /** `formatDateGroup`: the day of the message compared with today's and yesterday's, today
      first; `longDate` is the locale's long date. */
  function DateGroupLabel(day: string, today: string, yesterday: string, longDate: string): (heading: string)
    ensures day == today ==> heading == "Today"
    ensures day != today && day == yesterday ==> heading == "Yesterday"
    ensures day != today && day != yesterday ==> heading == longDate
  {
    if day == today then "Today" else if day == yesterday then "Yesterday" else longDate
  }
}
