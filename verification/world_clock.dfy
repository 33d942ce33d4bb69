/** The anchored world clock (part of `world::Simulation`). Times are seconds, a day is
    86400 of them, and the shown time of day is a fraction of it. */
module WorldClock {

  datatype Clock = Clock(timeOfDay: real, anchorReal: real, anchorTime: real, speed: real)

  /** The part of a day that `seconds` at a speed make. */
  function Part(speed: real, seconds: real): real { seconds * speed / 86400.0 }

  function Wrapped(t: real): real { t - t.Floor as real }

  function Stepped(c: Clock, now: real): Clock {
    c.(timeOfDay := Wrapped(c.anchorTime + Part(c.speed, now - c.anchorReal)))
  }

  function Reanchored(c: Clock, now: real): Clock { c.(anchorReal := now, anchorTime := c.timeOfDay) }

  function Sped(c: Clock, now: real, speed: real): Clock { Reanchored(c, now).(speed := speed) }

  function Reset(secondsToday: nat, now: real): Clock {
    Clock(secondsToday as real / 86400.0, now, secondsToday as real / 86400.0, 1.0)
  }

  // ------------------------------------------------------------- always in a day

  /** Stepping and setting the time give a time within the day whatever came before; the
      wall clock does just when it is not in a leap second at midnight. */
  lemma TimeInDay(c: Clock, now: real, secondsToday: nat)
    ensures 0.0 <= Stepped(c, now).timeOfDay < 1.0
    ensures 0.0 <= Reset(secondsToday, now).timeOfDay < 1.0 <==> secondsToday < 86400
  {
  }

  // ------------------------------------------------------------- adding up modulo 1

  lemma SameFloor(t: real, k: int)
    ensures (t + k as real).Floor == t.Floor + k
  {
  }

  lemma WrappedSum(t: real, u: real)
    ensures Wrapped(Wrapped(t) + u) == Wrapped(t + u)
  {
    SameFloor(t + u, -t.Floor);
    assert Wrapped(t) + u == t + u + (-t.Floor) as real;
  }

  lemma PartsAddUp(speed: real, a: real, b: real)
    ensures Part(speed, a + b) == Part(speed, a) + Part(speed, b)
  {
  }

  // ---------------------------------------------------------------- steps

  function SteppedAt(c: Clock, times: seq<real>): Clock
    decreases |times|
  {
    if times == [] then c else SteppedAt(Stepped(c, times[0]), times[1..])
  }

  /** Between commands only the real time counts, not how many steps there were. */
  lemma {:induction false} StepsDoNotMatter(c: Clock, times: seq<real>, now: real)
    ensures Stepped(SteppedAt(c, times), now) == Stepped(c, now)
    decreases |times|
  {
    if times != [] { StepsDoNotMatter(Stepped(c, times[0]), times[1..], now); }
  }

  /** At real speed a day is 86400 seconds long, and the clock goes forward: any n quarters
      of one later it shows n quarters more. */
  lemma QuarterDays(c: Clock, shown: real, n: nat)
    requires Shows(c, shown) && c.speed == 1.0
    ensures Stepped(c, shown + n as real * 21600.0).timeOfDay == Wrapped(c.timeOfDay + n as real * 0.25)
    ensures Stepped(c, shown + 86400.0).timeOfDay == c.timeOfDay
    ensures c.timeOfDay < 0.75 ==> Stepped(c, shown + 21600.0).timeOfDay == c.timeOfDay + 0.25
  {
    StepAdvances(c, shown, shown + n as real * 21600.0);
    StepAdvances(c, shown, shown + 86400.0);
    StepAdvances(c, shown, shown + 21600.0);
    SameFloor(c.timeOfDay, 1);
  }

  /** The faster the clock, the shorter the day. */
  lemma FasterDays(c: Clock, shown: real, day: real)
    requires Shows(c, shown) && day * c.speed == 86400.0
    ensures Stepped(c, shown + day).timeOfDay == c.timeOfDay
  {
    StepAdvances(c, shown, shown + day);
    assert shown + day - shown == day && Part(c.speed, day) == 1.0;
    SameFloor(c.timeOfDay, 1);
  }

  /** A time that is set is shown and runs on from there, a reset shows the wall clock and
      runs with it, and a new speed changes nothing at the moment it is set. */
  lemma CommandsRunOn(c: Clock, t: real, seconds: nat, speed: real, now: real, dt: real)
    requires 0.0 <= t < 1.0 && 0.0 <= c.timeOfDay < 1.0
    ensures var d := Reanchored(c.(timeOfDay := Wrapped(t)), now);
            && d.timeOfDay == Stepped(d, now).timeOfDay == t
            && (c.speed == 1.0 ==> Stepped(d, now + dt).timeOfDay == Wrapped(t + dt / 86400.0))
    ensures Stepped(Reset(seconds, now), now + dt).timeOfDay == Wrapped((seconds as real + dt) / 86400.0)
    ensures Stepped(Sped(c, now, speed), now).timeOfDay == c.timeOfDay
  {
    assert now + dt - now == dt;
    assert Part(c.speed, now - now) == 0.0 && Part(speed, now - now) == 0.0;
  }

  // ------------------------------------------------------- runs of speed changes

  datatype Event = StepAt(now: real) | SpeedAt(now: real, speed: real)

  function Next(c: Clock, e: Event): Clock {
    if e.StepAt? then Stepped(c, e.now) else Sped(c, e.now, e.speed)
  }

  function After(c: Clock, events: seq<Event>): Clock
    decreases |events|
  {
    if events == [] then c else After(Next(c, events[0]), events[1..])
  }

  function SpeedAfter(speed: real, e: Event): real { if e.StepAt? then speed else e.speed }

  /** The integral of the speed from `shown` to the last event, in days. */
  ghost function Ideal(speed: real, shown: real, events: seq<Event>): real
    decreases |events|
  {
    if events == [] then 0.0
    else Part(speed, events[0].now - shown) + Ideal(SpeedAfter(speed, events[0]), events[0].now, events[1..])
  }

  /** What the speed changes cost: each the old speed, times how long ago the shown time
      was brought up to date. */
  ghost function Lag(speed: real, shown: real, events: seq<Event>): real
    decreases |events|
  {
    if events == [] then 0.0
    else
      var gap := if events[0].SpeedAt? then Part(speed, events[0].now - shown) else 0.0;
      gap + Lag(SpeedAfter(speed, events[0]), events[0].now, events[1..])
  }

  /** The shown time is the one of the instant `shown`, as it is after every step and
      every command. */
  ghost predicate Shows(c: Clock, shown: real) {
    0.0 <= c.timeOfDay < 1.0 && c.timeOfDay == Wrapped(c.anchorTime + Part(c.speed, shown - c.anchorReal))
  }

  lemma StepShows(c: Clock, now: real)
    ensures Shows(Stepped(c, now), now)
  {
  }

  lemma CommandShows(c: Clock, now: real, speed: real)
    requires 0.0 <= c.timeOfDay < 1.0
    ensures Shows(Sped(c, now, speed), now)
  {
  }

  /** A step, from the time shown before it. */
  lemma StepAdvances(c: Clock, shown: real, now: real)
    requires Shows(c, shown)
    ensures Stepped(c, now).timeOfDay == Wrapped(c.timeOfDay + Part(c.speed, now - shown))
  {
    var t := c.anchorTime + Part(c.speed, shown - c.anchorReal);
    WrappedSum(t, Part(c.speed, now - shown));
    assert shown - c.anchorReal + (now - shown) == now - c.anchorReal;
    PartsAddUp(c.speed, shown - c.anchorReal, now - shown);
  }

  /** Over any run the clock lags the integral of its speed by exactly Lag, modulo a day. */
  lemma {:induction false} ClockLags(c: Clock, shown: real, events: seq<Event>)
    requires Shows(c, shown)
    ensures After(c, events).timeOfDay
         == Wrapped(c.timeOfDay + Ideal(c.speed, shown, events) - Lag(c.speed, shown, events))
    decreases |events|
  {
    if events == [] {
      assert c.timeOfDay.Floor == 0;
    } else {
      var e := events[0];
      var c' := Next(c, e);
      if e.StepAt? {
        StepShows(c, e.now);
        StepAdvances(c, shown, e.now);
        WrappedSum(c.timeOfDay + Part(c.speed, e.now - shown),
                   Ideal(c'.speed, e.now, events[1..]) - Lag(c'.speed, e.now, events[1..]));
      } else {
        CommandShows(c, e.now, e.speed);
      }
      ClockLags(c', e.now, events[1..]);
    }
  }
}
