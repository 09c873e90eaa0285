/**
 * The sun/moon scenery shown once the experience starts: a day/night flag,
 * the horizontal position of the sun or moon (in percent of the viewport
 * width) and a greeting chosen from the local clock.
 */
module Scenery {

  /** The value of the body's `data-theme` attribute; unset until the first update. */
  datatype Theme = Unset | Day | Night

  /** The component's state together with the body theme it writes. */
  datatype View = View(isVisible: bool, greeting: string, isNight: bool, positionX: real, theme: Theme)

  /** Hidden, no greeting, day, sun parked at the right edge (`100vw`). */
  const Initial := View(false, "", false, 100.0, Unset)

  /** A reading of the local clock as `getHours` and `getMinutes` report it. */
  predicate ValidClock(hours: int, minutes: int) {
    0 <= hours < 24 && 0 <= minutes < 60
  }

  /** Fractional hour of the day. */
  function TotalHours(hours: int, minutes: int): (t: real)
    ensures ValidClock(hours, minutes) ==> hours as real <= t < (hours + 1) as real
  {
    hours as real + minutes as real / 60.0
  }

  predicate IsNight(total: real) {
    total < 6.0 || total >= 18.0
  }

  /** Hours since the moon rose at 18:00 (used only at night). */
  function AdjustedHours(total: real): (a: real)
    ensures 0.0 <= total < 24.0 && IsNight(total) ==> 0.0 <= a < 12.0
  {
    if total >= 18.0 then total - 18.0 else total + 6.0
  }

  /** Position before the final clamp: 100 at sunrise/moonrise, falling linearly over twelve hours. */
  function RawPercent(total: real): (p: real)
    ensures 0.0 <= total < 24.0 ==> 0.0 < p <= 100.0
  {
    if !IsNight(total) then 100.0 - ((total - 6.0) / 12.0) * 100.0
    else 100.0 - (AdjustedHours(total) / 12.0) * 100.0
  }

  /** `Math.max(lo, Math.min(hi, x))`. */
  function Clamp(lo: real, hi: real, x: real): (r: real)
    requires lo <= hi
    ensures lo <= r <= hi
    ensures lo <= x <= hi ==> r == x
    ensures x < lo ==> r == lo
    ensures x > hi ==> r == hi
  {
    if x > hi then hi else if x < lo then lo else x
  }

  function Percent(total: real): (p: real)
    ensures 0.0 <= p <= 100.0
  {
    Clamp(0.0, 100.0, RawPercent(total))
  }

  /** The greeting for an hour of the day. */
  function Greeting(hours: int): (g: string)
    ensures g == "Good Morning!" <==> 5 <= hours < 12
    ensures g == "Good Afternoon!" <==> 12 <= hours < 15
    ensures g == "Good Evening!" <==> hours < 5 || hours >= 15
  {
    var text := if 5 <= hours < 12 then "Good Morning"
                else if 12 <= hours < 15 then "Good Afternoon"
                else "Good Evening";
    // the three texts already differ at their sixth character
    assert "Good Morning!"[5] == 'M' && "Good Afternoon!"[5] == 'A' && "Good Evening!"[5] == 'E';
    text + "!"
  }

  /**
   * One run of `updateScenery`: always the night flag, the theme and the
   * position; the greeting and the visibility only when `showGreeting`.
   */
  function UpdateScenery(v: View, hours: int, minutes: int, showGreeting: bool): (r: View)
    ensures r.isNight <==> IsNight(TotalHours(hours, minutes))
    ensures r.theme == Night <==> r.isNight
    ensures r.theme == Day <==> !r.isNight
    ensures r.positionX == Percent(TotalHours(hours, minutes)) && 0.0 <= r.positionX <= 100.0
    ensures showGreeting ==> r.isVisible && r.greeting == Greeting(hours)
    ensures !showGreeting ==> r.isVisible == v.isVisible && r.greeting == v.greeting
  {
    var total := TotalHours(hours, minutes);
    var night := IsNight(total);
    var v1 := v.(isNight := night, theme := if night then Night else Day, positionX := Percent(total));
    if showGreeting then v1.(greeting := Greeting(hours), isVisible := true) else v1
  }

  /** The `experience:start` handler: an update that shows the greeting. */
  function Start(v: View, hours: int, minutes: int): (r: View)
    ensures r.isVisible && r.greeting == Greeting(hours)
  {
    UpdateScenery(v, hours, minutes, true)
  }

  /** The once-a-minute interval update: position and theme only. */
  function Tick(v: View, hours: int, minutes: int): (r: View)
    ensures r.greeting == v.greeting && r.isVisible == v.isVisible
  {
    UpdateScenery(v, hours, minutes, false)
  }

  /** For a real clock reading, night depends on the whole hour alone. */
  lemma NightByHour(hours: int, minutes: int)
    requires ValidClock(hours, minutes)
    ensures IsNight(TotalHours(hours, minutes)) <==> hours < 6 || hours >= 18
  {
    var frac := minutes as real / 60.0;
    assert 0.0 <= frac < 1.0;
  }

  /** By day the sun starts at the right edge at 06:00 and moves linearly to the left. */
  lemma DayPosition(hours: int, minutes: int)
    requires ValidClock(hours, minutes) && !IsNight(TotalHours(hours, minutes))
    ensures Percent(TotalHours(hours, minutes)) == 100.0 - ((TotalHours(hours, minutes) - 6.0) / 12.0) * 100.0
    ensures 0.0 < Percent(TotalHours(hours, minutes)) <= 100.0
  {
  }

  lemma SunriseAtRightEdge()
    ensures Percent(TotalHours(6, 0)) == 100.0
  {
  }

  /** By day the sun moves strictly leftwards as time advances. */
  lemma DayPositionDecreasing(t1: real, t2: real)
    requires 6.0 <= t1 < t2 < 18.0
    ensures Percent(t1) > Percent(t2)
  {
    assert RawPercent(t1) == 100.0 - (t1 - 6.0) * (100.0 / 12.0);
    assert RawPercent(t2) == 100.0 - (t2 - 6.0) * (100.0 / 12.0);
  }

  /** At night the moon's hours since 18:00 lie in [0, 12) and its position in (0, 100]. */
  lemma NightPosition(hours: int, minutes: int)
    requires ValidClock(hours, minutes) && IsNight(TotalHours(hours, minutes))
    ensures 0.0 <= AdjustedHours(TotalHours(hours, minutes)) < 12.0
    ensures 0.0 < Percent(TotalHours(hours, minutes)) <= 100.0
  {
    var frac := minutes as real / 60.0;
    assert 0.0 <= frac < 1.0;
  }

  /** For any real clock reading the final clamp changes nothing. */
  lemma ClampInactiveOnClock(hours: int, minutes: int)
    requires ValidClock(hours, minutes)
    ensures Percent(TotalHours(hours, minutes)) == RawPercent(TotalHours(hours, minutes))
  {
    var frac := minutes as real / 60.0;
    assert 0.0 <= frac < 1.0;
  }

  /** The three greetings cover every hour and no hour gets two. */
  lemma GreetingPartition(hours: int)
    ensures Greeting(hours) in {"Good Morning!", "Good Afternoon!", "Good Evening!"}
  {
  }

  /** After the start, minute updates keep the greeting that the start chose. */
  lemma TicksKeepGreeting(v: View, hours: int, minutes: int, later: seq<(int, int)>)
    ensures TicksFrom(Start(v, hours, minutes), later).greeting == Greeting(hours)
    ensures TicksFrom(Start(v, hours, minutes), later).isVisible
  {
    TicksPreserveGreeting(Start(v, hours, minutes), later);
  }

  /** The view after a series of interval updates. */
  function TicksFrom(v: View, clocks: seq<(int, int)>): View
    decreases |clocks|
  {
    if clocks == [] then v else TicksFrom(Tick(v, clocks[0].0, clocks[0].1), clocks[1..])
  }

  lemma {:induction false} TicksPreserveGreeting(v: View, clocks: seq<(int, int)>)
    ensures TicksFrom(v, clocks).greeting == v.greeting
    ensures TicksFrom(v, clocks).isVisible == v.isVisible
    decreases |clocks|
  {
    if clocks != [] {
      TicksPreserveGreeting(Tick(v, clocks[0].0, clocks[0].1), clocks[1..]);
    }
  }
}
