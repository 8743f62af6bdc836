/**
 * `NewsArticle.time_ago`: how long ago an article was published, as "{n}d ago",
 * "{n}h ago" or "{n}m ago". Datetimes are microsecond counts on the local wall
 * clock; the current time is a parameter.
 */
module News {
  import opened Options
  import Text

  const MicrosPerSecond: int := 1_000_000
  const SecondsPerDay: int := 86_400
  const MicrosPerDay: int := SecondsPerDay * MicrosPerSecond

  /**
   * A publication time: the wall-clock reading, and the UTC offset in microseconds
   * when the datetime is timezone-aware.
   */
  datatype PublishedAt = PublishedAt(wallMicros: int, utcOffset: Option<int>)

  /** A `timedelta` in its normal form: whole days (possibly negative), then 0..86399 seconds. */
  function DeltaDays(micros: int): int { micros / MicrosPerDay }

  function DeltaSeconds(micros: int): (s: int)
    ensures 0 <= s < SecondsPerDay
  {
    (micros % MicrosPerDay) / MicrosPerSecond
  }

  /** The three buckets of the result. */
  datatype Ago = DaysAgo(days: nat) | HoursAgo(hours: nat) | MinutesAgo(minutes: nat)

  /**
   * The bucket of `now - published`: the offset of an aware datetime is dropped,
   * not applied, so the wall-clock readings are subtracted as they are.
   */
  function Bucket(now: int, published: PublishedAt): (a: Ago)
    ensures a.DaysAgo? <==> now - published.wallMicros >= MicrosPerDay
    ensures a.DaysAgo? ==> a.days * MicrosPerDay <= now - published.wallMicros < (a.days + 1) * MicrosPerDay
    ensures a.HoursAgo? ==> 1 <= a.hours <= 23
    ensures a.MinutesAgo? ==> a.minutes <= 59
  {
    var delta := now - published.wallMicros;
    var days := DeltaDays(delta);
    if days > 0 then DaysAgo(days)
    else
      var hours := DeltaSeconds(delta) / 3600;
      if hours > 0 then HoursAgo(hours)
      else MinutesAgo(DeltaSeconds(delta) / 60)
  }

  function Render(a: Ago): string {
    match a
    case DaysAgo(n) => Text.Decimal(n) + "d ago"
    case HoursAgo(n) => Text.Decimal(n) + "h ago"
    case MinutesAgo(n) => Text.Decimal(n) + "m ago"
  }

  /**
   * `time_ago`: whole days once a day has passed; within the day, whole hours once
   * an hour has passed, whole minutes before that.
   */
  function TimeAgo(now: int, published: PublishedAt): (r: string)
    ensures var delta := now - published.wallMicros;
      && (delta >= MicrosPerDay ==> r == Text.Decimal(delta / MicrosPerDay) + "d ago")
      && (0 <= delta < MicrosPerDay && delta / MicrosPerSecond >= 3600 ==>
            r == Text.Decimal(delta / MicrosPerSecond / 3600) + "h ago")
      && (0 <= delta < MicrosPerDay && delta / MicrosPerSecond < 3600 ==>
            r == Text.Decimal(delta / MicrosPerSecond / 60) + "m ago")
  {
    var delta := now - published.wallMicros;
    if 0 <= delta < MicrosPerDay then SameDay(now, published); Render(Bucket(now, published))
    else Render(Bucket(now, published))
  }

  /**
   * Within the last day: whole hours of the elapsed seconds when at least one hour
   * has passed, whole minutes otherwise.
   */
  lemma {:induction false} SameDay(now: int, published: PublishedAt)
    requires 0 <= now - published.wallMicros < MicrosPerDay
    ensures var seconds := (now - published.wallMicros) / MicrosPerSecond;
      && (seconds >= 3600 ==> Bucket(now, published) == HoursAgo(seconds / 3600))
      && (seconds < 3600 ==> Bucket(now, published) == MinutesAgo(seconds / 60))
  {
    var d := now - published.wallMicros;
    assert DeltaDays(d) == 0;
    assert d % MicrosPerDay == d;
  }

  /** The UTC offset of an aware datetime makes no difference. */
  lemma {:induction false} OffsetIgnored(now: int, wall: int, offset: int)
    ensures TimeAgo(now, PublishedAt(wall, Some(offset))) == TimeAgo(now, PublishedAt(wall, None))
  {
  }

  /**
   * An article dated one hour in the future reads "23h ago": the negative delta
   * normalises to -1 day plus 23 hours, and only the days are checked for sign.
   */
  lemma {:induction false} FutureArticle(now: int)
    ensures Bucket(now, PublishedAt(now + 3600 * MicrosPerSecond, None)) == HoursAgo(23)
  {
    var d := -3600 * MicrosPerSecond;
    assert d / MicrosPerDay == -1;
    assert d % MicrosPerDay == 23 * 3600 * MicrosPerSecond;
  }

  /** Each bucket renders with its own unit, so different buckets never read alike. */
  lemma {:induction false} RenderUnits(a: Ago)
    ensures var r := Render(a);
      && |r| >= 6
      && r[|r| - 4..] == " ago"
      && r[|r| - 5] == (if a.DaysAgo? then 'd' else if a.HoursAgo? then 'h' else 'm')
  {
  }
}
