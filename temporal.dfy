/**
 * Deriving the lookup key's day, week parity and slot from a point in time.
 *
 * The conversion of an instant to Kyiv civil time is a time-zone library call and is not
 * modelled: an `Instant` carries the civil views the library would compute.
 */
module Temporal {
  import opened Outcome
  import opened Domain

  /** The library's weekday, all seven of them. */
  datatype Weekday = Monday | Tuesday | Wednesday | Thursday | Friday | Saturday | Sunday

  /** A calendar date, reduced to what the resolver reads: day of month and weekday. */
  datatype CivilDate = CivilDate(dayOfMonth: nat, weekday: Weekday)

  /** A civil date and a time of day in whole seconds since midnight. */
  datatype LocalDateTime = LocalDateTime(date: CivilDate, secondOfDay: int)

  /**
   * An instant as the resolver sees it: its weekday in UTC (used only in an error
   * message) and its Kyiv civil date and time (used for every resolution).
   */
  datatype Instant = Instant(utcWeekday: Weekday, kyiv: LocalDateTime)

  /** How the library's `Display` prints a weekday. */
  function WeekdayName(w: Weekday): string {
    match w
    case Monday => "Mon"
    case Tuesday => "Tue"
    case Wednesday => "Wed"
    case Thursday => "Thu"
    case Friday => "Fri"
    case Saturday => "Sat"
    case Sunday => "Sun"
  }

  /** The library weekday a teaching day is. */
  function AsWeekday(d: Day): Weekday {
    match d
    case Mon => Monday
    case Tue => Tuesday
    case Wed => Wednesday
    case Thu => Thursday
    case Fri => Friday
  }

  // ---------------------------------------------------------------------------
  // Day::try_from(&DateTime)
  // ---------------------------------------------------------------------------

  /** The teaching day of a weekday; Saturday and Sunday are rejected with the weekday. */
  function DayOf(w: Weekday): (r: Result<Day, Weekday>)
    ensures r.Ok? ==> AsWeekday(r.value) == w
    ensures r.Err? <==> w == Saturday || w == Sunday
    ensures r.Err? ==> r.error == w
  {
    match w
    case Monday => Ok(Mon)
    case Tuesday => Ok(Tue)
    case Wednesday => Ok(Wed)
    case Thursday => Ok(Thu)
    case Friday => Ok(Fri)
    case _ => Err(w)
  }

  /** The teaching day of an instant, read in Kyiv civil time. */
  function DayAt(t: Instant): Result<Day, Weekday> {
    DayOf(t.kyiv.date.weekday)
  }

  /** Monday to Friday correspond one-to-one to the teaching days. */
  lemma DayOfIsBijectiveOnWeekdays(d: Day, w: Weekday)
    ensures DayOf(AsWeekday(d)) == Ok(d)
    ensures DayOf(w).Ok? ==> AsWeekday(DayOf(w).value) == w
  {
  }

  // ---------------------------------------------------------------------------
  // Repeat::from(&DateTime)
  // ---------------------------------------------------------------------------

  /**
   * The week parity of a day of the month: the week of the month is `(d + 6) / 7`
   * (weeks counted from 1), and an even week of the month is an `Odd` week.
   * Only `Odd` and `Even` are ever produced.
   */
  function ParityOf(dayOfMonth: nat): (r: Repeat)
    ensures r != Both
  {
    if (dayOfMonth + 6) / 7 % 2 == 0 then Odd else Even
  }

  /** The week parity of an instant, read in Kyiv civil time. */
  function ParityAt(t: Instant): (r: Repeat) {
    ParityOf(t.kyiv.date.dayOfMonth)
  }

  /** The parity of each day of a month, band by band. */
  lemma ParityBands(d: nat)
    requires 1 <= d <= 31
    ensures 1 <= d <= 7 ==> ParityOf(d) == Even
    ensures 8 <= d <= 14 ==> ParityOf(d) == Odd
    ensures 15 <= d <= 21 ==> ParityOf(d) == Even
    ensures 22 <= d <= 28 ==> ParityOf(d) == Odd
    ensures 29 <= d <= 31 ==> ParityOf(d) == Even
  {
  }

  /** A week later within the month, the parity flips. */
  lemma ParityAlternatesWeekly(d: nat)
    ensures ParityOf(d + 7) != ParityOf(d)
  {
    assert (d + 7 + 6) / 7 == (d + 6) / 7 + 1;
  }

  /** The parity is the same on every day of one seven-day band of the month. */
  lemma ParityConstantWithinBand(d: nat, e: nat)
    requires 1 <= d && 1 <= e
    requires (d - 1) / 7 == (e - 1) / 7
    ensures ParityOf(d) == ParityOf(e)
  {
    assert (d + 6) / 7 == (d - 1) / 7 + 1;
    assert (e + 6) / 7 == (e - 1) / 7 + 1;
  }

  // ---------------------------------------------------------------------------
  // Slot::from(&DateTime)
  // ---------------------------------------------------------------------------

  /** The ends of the four periods, in seconds since midnight. */
  const EndOfI: int := 10 * 3600 + 15 * 60
  const EndOfII: int := 12 * 3600 + 10 * 60
  const EndOfIII: int := 13 * 3600 + 55 * 60
  const EndOfIV: int := 15 * 3600 + 40 * 60

  /** The end of a class period and the slot that period is. */
  datatype Boundary = Boundary(endsAt: int, slot: Slot)

  /** The ordered table of period ends. */
  const Ends: seq<Boundary> := [
    Boundary(EndOfI, I),
    Boundary(EndOfII, II),
    Boundary(EndOfIII, III),
    Boundary(EndOfIV, IV)
  ]

  /**
   * The slot of a time of day, written as one decision per period: before 10:15 is I,
   * before 12:10 II, before 13:55 III, before 15:40 IV, and from 15:40 on it is I again.
   */
  function SlotOfTime(t: int): Slot {
    if t < EndOfI then I
    else if t < EndOfII then II
    else if t < EndOfIII then III
    else if t < EndOfIV then IV
    else I
  }

  /**
   * `Slot::from`: scans the table and returns the slot of the first period whose end is
   * strictly later than `t`; when no end is later, it falls back to slot I.
   */
  method SlotAt(t: int) returns (s: Slot)
    ensures (exists i :: 0 <= i < |Ends| && t < Ends[i].endsAt && s == Ends[i].slot &&
               forall j :: 0 <= j < i ==> Ends[j].endsAt <= t)
            || ((forall j :: 0 <= j < |Ends| ==> Ends[j].endsAt <= t) && s == I)
    ensures s == SlotOfTime(t)
  {
    for i := 0 to |Ends|
      invariant forall j :: 0 <= j < i ==> Ends[j].endsAt <= t
    {
      if t < Ends[i].endsAt {
        FirstLaterEndIsSlotOfTime(t, i);
        return Ends[i].slot;
      }
    }
    assert Ends[3].endsAt <= t;
    return I;
  }

  /**
   * The table and the decision chain agree: the slot of the first period ending after
   * `t` is `SlotOfTime(t)`.
   */
  lemma FirstLaterEndIsSlotOfTime(t: int, i: nat)
    requires i < |Ends| && t < Ends[i].endsAt
    requires forall j :: 0 <= j < i ==> Ends[j].endsAt <= t
    ensures SlotOfTime(t) == Ends[i].slot
  {
    if i == 0 {
    } else if i == 1 {
      assert Ends[0].endsAt <= t;
    } else if i == 2 {
      assert Ends[1].endsAt <= t;
    } else {
      assert Ends[2].endsAt <= t;
    }
  }

  /** The period ends are strictly increasing, so "first later end" is well ordered. */
  lemma EndsIncreasing(i: nat, j: nat)
    requires i < j < |Ends|
    ensures Ends[i].endsAt < Ends[j].endsAt
    ensures SlotCode(Ends[i].slot) < SlotCode(Ends[j].slot)
  {
  }

  /**
   * The boundaries are exclusive: a period's last second still belongs to it, and the
   * end instant itself belongs to the next period; 15:40 and later wrap to slot I.
   */
  lemma SlotBoundaries()
    ensures SlotOfTime(0) == I
    ensures SlotOfTime(10 * 3600 + 14 * 60 + 59) == I && SlotOfTime(10 * 3600 + 15 * 60) == II
    ensures SlotOfTime(12 * 3600 + 9 * 60 + 59) == II && SlotOfTime(12 * 3600 + 10 * 60) == III
    ensures SlotOfTime(13 * 3600 + 54 * 60 + 59) == III && SlotOfTime(13 * 3600 + 55 * 60) == IV
    ensures SlotOfTime(15 * 3600 + 39 * 60 + 59) == IV && SlotOfTime(15 * 3600 + 40 * 60) == I
    ensures SlotOfTime(23 * 3600 + 59 * 60 + 59) == I
  {
  }

  /** Before the last period ends, later times never give an earlier slot. */
  lemma SlotMonotoneUntilLastEnd(t1: int, t2: int)
    requires t1 <= t2 < EndOfIV
    ensures SlotCode(SlotOfTime(t1)) <= SlotCode(SlotOfTime(t2))
  {
  }

  /** At or after the last period's end every time resolves to slot I. */
  lemma SlotWrapsAfterLastEnd(t: int)
    requires t >= EndOfIV
    ensures SlotOfTime(t) == I
  {
  }

  /** The slot of an instant, read in Kyiv civil time. */
  method SlotOfInstant(t: Instant) returns (s: Slot)
    ensures s == SlotOfTime(t.kyiv.secondOfDay)
  {
    s := SlotAt(t.kyiv.secondOfDay);
  }

  /**
   * A date given without a time is taken at 12:00 UTC. Kyiv is two hours ahead of UTC in
   * winter and three in summer, so in Kyiv that instant is 14:00 or 15:00 of the same
   * date, and the weekday is the same in UTC and in Kyiv. Which offset applies on a date
   * is the time-zone library's answer and is passed in as `summer`.
   */
  function AtNoonUtc(d: CivilDate, summer: bool): (t: Instant)
    ensures t.kyiv.date == d && t.utcWeekday == d.weekday
    ensures t.kyiv.secondOfDay == (if summer then 15 * 3600 else 14 * 3600)
    ensures EndOfIII <= t.kyiv.secondOfDay < EndOfIV
  {
    var kyivOffsetHours := if summer then 3 else 2;
    Instant(d.weekday, LocalDateTime(d, (12 + kyivOffsetHours) * 3600))
  }
}
