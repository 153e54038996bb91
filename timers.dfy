/**
 * The game engine's `Timer`, reduced to the accumulator behaviour the wave
 * scheduler relies on. The engine's own code is not part of this model; what
 * follows is an ASSUMPTION about that library:
 *   - a Once timer accumulates `elapsed := min(elapsed + delta, duration)` and
 *     is finished exactly when `elapsed >= duration`; once finished, a tick
 *     changes nothing and is not a "just finished" tick;
 *   - a Repeating timer is "just finished" on a tick exactly when
 *     `elapsed + delta >= duration`, after which `elapsed` wraps around to the
 *     remainder of the division by `duration`. For a zero duration the model
 *     sets `elapsed` to 0; this is a modelling choice, not the library's
 *     behaviour (which leaves `elapsed` growing). The wave system cannot tell
 *     the two apart, since such a timer is "just finished" on every tick
 *     either way.
 * Durations are seconds as `real`; a negative duration is refused, as the
 * engine's conversion from seconds panics on it.
 */
module Timers {

  datatype TimerMode = Once | Repeating

  datatype Timer = Timer(
    duration: real,
    mode: TimerMode,
    elapsed: real,
    finished: bool,
    justFinished: bool)

  /** The states a timer can be in between ticks. */
  predicate Valid(t: Timer) {
    && t.duration >= 0.0
    && 0.0 <= t.elapsed <= t.duration
    && (t.mode == Repeating && t.duration > 0.0 ==> t.elapsed < t.duration)
    && (t.mode == Once && t.finished ==> t.elapsed == t.duration)
  }

  function Min(a: real, b: real): (m: real)
    ensures m <= a && m <= b && (m == a || m == b)
  {
    if a <= b then a else b
  }

  /** `Timer::from_seconds(duration, mode)`: a fresh timer that has not run. */
  function FromSeconds(duration: real, mode: TimerMode): (t: Timer)
    requires duration >= 0.0
    ensures Valid(t)
    ensures t.duration == duration && t.mode == mode
    ensures t.elapsed == 0.0 && !t.finished && !t.justFinished
  {
    Timer(duration, mode, 0.0, false, false)
  }

  lemma MulMono(a: real, b: real, c: real)
    requires c > 0.0
    ensures a <= b ==> a * c <= b * c
    ensures a < b ==> a * c < b * c
  {}

  /** What is left of `e` seconds after removing every whole `d` seconds. */
  function Wrap(e: real, d: real): (r: real)
    requires e >= 0.0 && d >= 0.0
    ensures d == 0.0 ==> r == 0.0
    ensures d > 0.0 ==> 0.0 <= r < d && r <= e
    ensures d > 0.0 ==> (e - r) / d == ((e - r) / d).Floor as real
  {
    if d == 0.0 then 0.0
    else
      var q := e / d;
      var k := q.Floor as real;
      assert q * d == e;
      assert k <= q < k + 1.0;
      MulMono(k, q, d);
      MulMono(q, k + 1.0, d);
      assert (k + 1.0) * d == k * d + d;
      assert e < k * d + d;
      assert 0.0 <= k * d;
      assert (e - (e - k * d)) / d == k;
      e - k * d
  }

  /** Between one and two whole durations, exactly one duration is removed. */
  lemma WrapOnce(e: real, d: real)
    requires d > 0.0 && d <= e < d + d
    ensures Wrap(e, d) == e - d
  {
    var q := e / d;
    assert q * d == e;
    if q < 1.0 {
      MulMono(q, 1.0, d);
      assert false;
    }
    if q >= 2.0 {
      MulMono(2.0, q, d);
      calc {
        e;
        q * d;
      >=
        2.0 * d;
        d + d;
      }
      assert false;
    }
    assert q.Floor == 1;
  }

  /** `Timer::tick(delta)` for an unpaused timer. */
  function Tick(t: Timer, delta: real): (r: Timer)
    requires Valid(t) && delta >= 0.0
    ensures Valid(r)
    ensures r.duration == t.duration && r.mode == t.mode
    ensures t.mode == Once ==>
      && r.elapsed == Min(t.elapsed + delta, t.duration)
      && (r.finished <==> r.elapsed >= r.duration)
      && (r.justFinished <==> !t.finished && r.finished)
    ensures t.mode == Repeating ==>
      && (r.justFinished <==> t.elapsed + delta >= t.duration)
      && r.elapsed == (if r.justFinished then Wrap(t.elapsed + delta, t.duration)
                       else t.elapsed + delta)
  {
    if t.mode == Once && t.finished then
      t.(justFinished := false)
    else
      var e := t.elapsed + delta;
      if e >= t.duration then
        var wrapped := if t.mode == Repeating then Wrap(e, t.duration) else t.duration;
        t.(elapsed := wrapped, finished := true, justFinished := true)
      else
        t.(elapsed := e, finished := false, justFinished := false)
  }

  /** Ticking a finished Once timer changes nothing but the edge flag. */
  lemma OnceStaysFinished(t: Timer, delta: real)
    requires Valid(t) && delta >= 0.0 && t.mode == Once && t.finished
    ensures Tick(t, delta).finished && Tick(t, delta).elapsed == t.elapsed
    ensures Tick(Tick(t, delta), delta) == Tick(t, delta)
  {}

  /**
   * A repeating timer ticked by at most one duration does not drift: when it
   * finishes, the time it overshot its duration is carried into the next
   * period.
   */
  lemma RepeatingCarriesOvershoot(t: Timer, delta: real)
    requires Valid(t) && t.mode == Repeating && t.duration > 0.0
    requires 0.0 <= delta <= t.duration
    requires t.elapsed + delta >= t.duration
    ensures Tick(t, delta).justFinished
    ensures Tick(t, delta).elapsed == t.elapsed + delta - t.duration
  {
    WrapOnce(t.elapsed + delta, t.duration);
  }
}
