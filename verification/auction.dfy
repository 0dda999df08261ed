/** The auction window classifier (`_is_auction_time`): Moscow time is UTC+3, days are Monday = 0 .. Sunday = 6. */
module Auction {
  import opened Wrappers

  const SecondsPerDay: int := 86400
  const MoscowOffsetSeconds: int := 3 * 3600
  /** 1970-01-01, day 0 of Unix time, was a Thursday. */
  const EpochWeekday: int := 3

  datatype AuctionKind = Opening | Closing

  /** What the classifier reports, without the formatted clock text. */
  datatype AuctionState = AuctionState(isAuction: bool, auctionType: Option<AuctionKind>)

  /** A Moscow wall-clock reading reduced to what the classifier reads. */
  datatype LocalTime = LocalTime(weekday: int, minuteOfDay: int)

  /** `now_utc + timedelta(hours=3)`, then `weekday()` and `hour * 60 + minute`, for a Unix time in whole seconds. */
  function MoscowTime(utcSeconds: int): (t: LocalTime)
    ensures 0 <= t.weekday < 7 && 0 <= t.minuteOfDay < 24 * 60
  {
    var local := utcSeconds + MoscowOffsetSeconds;
    LocalTime((local / SecondsPerDay + EpochWeekday) % 7, (local % SecondsPerDay) / 60)
  }

  /** The opening window of a day as `[start, end)` minutes: 08:50-09:00 on weekdays, 09:50-10:00 at weekends. */
  function OpeningWindow(weekday: int): (int, int) {
    if weekday < 5 then (8 * 60 + 50, 9 * 60) else (9 * 60 + 50, 10 * 60)
  }

  /** The classification of one local time. */
  function Classify(weekday: int, minuteOfDay: int): AuctionState {
    var (openingStart, openingEnd) := OpeningWindow(weekday);
    var closingStart, closingEnd := 18 * 60 + 40, 18 * 60 + 50;
    var isOpening := openingStart <= minuteOfDay < openingEnd;
    var isClosing := closingStart <= minuteOfDay < closingEnd;
    AuctionState(
      isOpening || isClosing,
      if isOpening then Some(Opening) else if isClosing then Some(Closing) else None)
  }

  /** The classification at a Unix time. */
  function ClassifyAt(utcSeconds: int): AuctionState {
    var t := MoscowTime(utcSeconds);
    Classify(t.weekday, t.minuteOfDay)
  }

  /** The windows written out: Monday-Friday [530, 540), Saturday-Sunday [590, 600) open; every day [1120, 1130) closes.
      The two kinds never overlap, an auction always has a kind, and a day outside every window has none. */
  lemma AuctionWindows(weekday: int, minuteOfDay: int)
    requires 0 <= weekday < 7
    ensures var s := Classify(weekday, minuteOfDay);
      var opening := (weekday <= 4 && 530 <= minuteOfDay < 540) || (weekday >= 5 && 590 <= minuteOfDay < 600);
      var closing := 1120 <= minuteOfDay < 1130;
      && (s.isAuction <==> opening || closing)
      && (s.auctionType == Some(Opening) <==> opening)
      && (s.auctionType == Some(Closing) <==> closing)
      && (s.auctionType.Some? <==> s.isAuction)
      && !(opening && closing)
  {
  }

  /** The worked cases: Tuesday 08:55 opening, Tuesday 09:05 none, 18:45 closing on any day, Saturday 09:55 opening. */
  lemma AuctionExamples(weekday: int)
    requires 0 <= weekday < 7
    ensures Classify(1, 8 * 60 + 55) == AuctionState(true, Some(Opening))
    ensures Classify(1, 9 * 60 + 5) == AuctionState(false, None)
    ensures Classify(weekday, 18 * 60 + 45) == AuctionState(true, Some(Closing))
    ensures Classify(5, 9 * 60 + 55) == AuctionState(true, Some(Opening))
  {
  }

  /** The Moscow clock repeats every week, so the classification is weekly-periodic. */
  lemma WeeklyPeriod(utcSeconds: int)
    ensures MoscowTime(utcSeconds + 7 * SecondsPerDay) == MoscowTime(utcSeconds)
    ensures ClassifyAt(utcSeconds + 7 * SecondsPerDay) == ClassifyAt(utcSeconds)
  {
    var local := utcSeconds + MoscowOffsetSeconds;
    var day := local / SecondsPerDay;
    var rem := local % SecondsPerDay;
    assert local == day * SecondsPerDay + rem && 0 <= rem < SecondsPerDay;
    assert local + 7 * SecondsPerDay == (day + 7) * SecondsPerDay + rem;
    DaySplitUnique(local + 7 * SecondsPerDay, day + 7, rem);
    assert (day + 7 + EpochWeekday) % 7 == (day + EpochWeekday) % 7;
  }

  /** The next day at the same time of day: the weekday advances by one (Sunday wraps to Monday). */
  lemma NextDay(utcSeconds: int)
    ensures MoscowTime(utcSeconds + SecondsPerDay).minuteOfDay == MoscowTime(utcSeconds).minuteOfDay
    ensures MoscowTime(utcSeconds + SecondsPerDay).weekday == (MoscowTime(utcSeconds).weekday + 1) % 7
  {
    var local := utcSeconds + MoscowOffsetSeconds;
    var day := local / SecondsPerDay;
    var rem := local % SecondsPerDay;
    assert local + SecondsPerDay == (day + 1) * SecondsPerDay + rem;
    DaySplitUnique(local + SecondsPerDay, day + 1, rem);
  }

  /** Day `d`, minute `m`, second `s` of Moscow time (counted from the epoch's Moscow midnight) reads back as
      weekday `(d + 3) % 7` and minute of day `m`: the shift is exactly three hours. */
  lemma MoscowTimeOf(d: int, m: int, s: int)
    requires 0 <= m < 24 * 60 && 0 <= s < 60
    ensures MoscowTime(d * SecondsPerDay + m * 60 + s - MoscowOffsetSeconds) == LocalTime((d + EpochWeekday) % 7, m)
  {
    DaySplitUnique(d * SecondsPerDay + m * 60 + s, d, m * 60 + s);
    assert (m * 60 + s) / 60 == m;
  }

  /** Unix time 0 is Thursday 03:00 in Moscow. */
  lemma EpochIsThursday()
    ensures MoscowTime(0) == LocalTime(3, 180)
  {
  }

  /** Whole days and seconds into the day are determined uniquely. */
  lemma DaySplitUnique(a: int, q: int, r: int)
    requires a == q * SecondsPerDay + r && 0 <= r < SecondsPerDay
    ensures a / SecondsPerDay == q && a % SecondsPerDay == r
  {
  }
}
