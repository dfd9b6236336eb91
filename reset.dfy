// The scheduler of the reset job: `calcular_proxima_hora` picks the next
// of a list of wall-clock hours at which the signal files are removed.
// A `datetime` is a count of microseconds; the day it falls on is that
// count divided by the length of a day.

module Reset {
  import opened Common

  const HourUs: int := 3600 * 1000000
  const DayUs: int := 24 * HourUs

  /** The hours at which the signal is sent. */
  const ScheduledHours: seq<int> := [0, 3, 6, 9, 12, 15, 18, 21]

  function DayOf(t: int): int { t / DayUs }

  /** `t.replace(hour=h, minute=0, second=0, microsecond=0)` on day `day`. */
  function AtHour(day: int, h: int): int { day * DayUs + h * HourUs }

  predicate ValidHour(h: int) { 0 <= h < 24 }

  /**
   * The loop of `calcular_proxima_hora`: the first listed hour, in list
   * order, whose time today is later than `now`. `replace` raises
   * ValueError on an hour outside 0..23 when the loop reaches it.
   */
  function FirstLaterToday(hours: seq<int>, now: int): (r: Result<Option<int>>)
    ensures r.Ok? && r.value.Some? ==>
      exists k :: 0 <= k < |hours| && r.value.value == AtHour(DayOf(now), hours[k]) && now < r.value.value
        && ValidHour(hours[k]) && forall j :: 0 <= j < k ==> ValidHour(hours[j]) && AtHour(DayOf(now), hours[j]) <= now
    ensures r.Ok? && r.value.None? ==>
      forall j :: 0 <= j < |hours| ==> ValidHour(hours[j]) && AtHour(DayOf(now), hours[j]) <= now
    ensures (forall j :: 0 <= j < |hours| ==> ValidHour(hours[j])) ==> r.Ok?
  {
    if hours == [] then Ok(None)
    else if !ValidHour(hours[0]) then Err("ValueError: hour must be in 0..23")
    else if now < AtHour(DayOf(now), hours[0]) then Ok(Some(AtHour(DayOf(now), hours[0])))
    else
      var rest := FirstLaterToday(hours[1..], now);
      if rest.Ok? && rest.value.Some? then
        var k :| 0 <= k < |hours[1..]| && rest.value.value == AtHour(DayOf(now), hours[1..][k]) && now < rest.value.value
          && ValidHour(hours[1..][k]) && forall j :: 0 <= j < k ==> ValidHour(hours[1..][j]) && AtHour(DayOf(now), hours[1..][j]) <= now;
        ShiftedPrefix(hours, now, k);
        rest
      else
        rest
  }

  /** The facts about a prefix of `hours[1..]` carry over to `hours`. */
  lemma ShiftedPrefix(hours: seq<int>, now: int, k: int)
    requires hours != [] && 0 <= k < |hours| - 1
    requires ValidHour(hours[0]) && AtHour(DayOf(now), hours[0]) <= now
    requires forall j :: 0 <= j < k ==> ValidHour(hours[1..][j]) && AtHour(DayOf(now), hours[1..][j]) <= now
    ensures forall j :: 0 <= j < k + 1 ==> ValidHour(hours[j]) && AtHour(DayOf(now), hours[j]) <= now
    ensures hours[k + 1] == hours[1..][k]
  {
    forall j | 0 < j < k + 1 ensures ValidHour(hours[j]) && AtHour(DayOf(now), hours[j]) <= now {
      assert hours[j] == hours[1..][j - 1];
    }
  }

  /**
   * `calcular_proxima_hora(horas, now)`: today at the first later listed
   * hour, else tomorrow at the first listed hour; an empty list raises
   * IndexError.
   */
  function CalcularProximaHora(hours: seq<int>, now: int): (r: Result<int>)
    ensures r.Ok? ==> now < r.value && r.value % HourUs == 0
    ensures (hours != [] && forall j :: 0 <= j < |hours| ==> ValidHour(hours[j])) ==> r.Ok?
    ensures hours == [] ==> r.Err?
    ensures r.Ok? ==>
      || (exists k :: 0 <= k < |hours| && now < AtHour(DayOf(now), hours[k]) && r.value == AtHour(DayOf(now), hours[k])
                  && forall j :: 0 <= j < k ==> AtHour(DayOf(now), hours[j]) <= now)
      || ((forall j :: 0 <= j < |hours| ==> AtHour(DayOf(now), hours[j]) <= now) && r.value == AtHour(DayOf(now) + 1, hours[0]))
  {
    var today := FirstLaterToday(hours, now);
    if today.Err? then Err(today.error)
    else if today.value.Some? then
      var t := today.value.value;
      assert t % HourUs == 0 by {
        var k :| 0 <= k < |hours| && t == AtHour(DayOf(now), hours[k]);
        AtHourWhole(DayOf(now), hours[k]);
      }
      Ok(t)
    else if hours == [] then Err("IndexError: list index out of range")
    else
      AtHourWhole(DayOf(now) + 1, hours[0]);
      AfterToday(now, hours[0]);
      Ok(AtHour(DayOf(now) + 1, hours[0]))
  }

  /** An hour boundary has zero minutes, seconds and microseconds. */
  lemma AtHourWhole(day: int, h: int)
    ensures AtHour(day, h) % HourUs == 0
  {
    assert AtHour(day, h) == (day * 24 + h) * HourUs;
  }

  /** Any hour tomorrow is later than now. */
  lemma AfterToday(now: int, h: int)
    requires ValidHour(h)
    ensures now < AtHour(DayOf(now) + 1, h)
  {
  }

  /**
   * With hours sorted ascending, no gap between neighbours (nor across
   * midnight) larger than `g`, the next run is at most `g` hours away.
   */
  lemma NextRunWithinGap(hours: seq<int>, now: int, g: int)
    requires hours != [] && forall j :: 0 <= j < |hours| ==> ValidHour(hours[j])
    requires forall j :: 0 < j < |hours| ==> hours[j - 1] <= hours[j] <= hours[j - 1] + g
    requires 24 + hours[0] - hours[|hours| - 1] <= g
    ensures CalcularProximaHora(hours, now).Ok?
    ensures CalcularProximaHora(hours, now).value <= now + g * HourUs
  {
    var r := CalcularProximaHora(hours, now).value;
    var d := DayOf(now);
    DayBounds(now);
    if k :| 0 <= k < |hours| && now < AtHour(d, hours[k]) && r == AtHour(d, hours[k])
             && forall j :: 0 <= j < k ==> AtHour(d, hours[j]) <= now {
      if k == 0 {
        HoursApart(d, 0, d, hours[0], g);
      } else {
        assert AtHour(d, hours[k - 1]) <= now;
        HoursApart(d, hours[k - 1], d, hours[k], g);
      }
    } else {
      var last := |hours| - 1;
      assert AtHour(d, hours[last]) <= now;
      HoursApart(d, hours[last], d + 1, hours[0], g);
    }
  }

  /** `now` lies within its own day. */
  lemma DayBounds(now: int)
    ensures AtHour(DayOf(now), 0) <= now < AtHour(DayOf(now) + 1, 0)
  {
  }

  /** Two hour boundaries at most `g` hours apart. */
  lemma HoursApart(d1: int, h1: int, d2: int, h2: int, g: int)
    requires (d2 - d1) * 24 + h2 - h1 <= g
    ensures AtHour(d2, h2) <= AtHour(d1, h1) + g * HourUs
  {
    assert AtHour(d2, h2) - AtHour(d1, h1) == ((d2 - d1) * 24 + h2 - h1) * HourUs;
  }

  /** With the configured hours, the next run is within three hours. */
  lemma ScheduledWithinThreeHours(now: int)
    ensures CalcularProximaHora(ScheduledHours, now).Ok?
    ensures now < CalcularProximaHora(ScheduledHours, now).value <= now + 3 * HourUs
  {
    NextRunWithinGap(ScheduledHours, now, 3);
  }
}
