/**
 * The value part of a tracking session in contexts/SpeedContext.js and the
 * pure rules that update it: smoothing one estimate (`updateSpeed`),
 * handling one position fix, and clearing the last-fix cache.
 */
module Session {
  import opened Optional
  import opened Smoothing
  import opened Estimate

  /** A smoothed speed above this many metres per second raises the speed-break flag. */
  const SpeedBreakThreshold: real := 1.0

  /** The coordinates kept from the previous fix. */
  datatype Location = Location(latitude: real, longitude: real)

  /** The `coords` of a position: where the device is and, possibly, how fast it says it moves. */
  datatype Reading = Reading(latitude: real, longitude: real, speed: Option<real>)

  /** One position delivered by the location provider; either part may be missing. */
  datatype Position = Position(coords: Option<Reading>, timestamp: Option<int>)

  /** Great-circle distance in metres between (lat1, lon1) and (lat2, lon2). */
  type Haversine = (real, real, real, real) -> real

  /** The assumption that the distance function never returns a negative length. */
  ghost predicate NonNegativeHaversine(h: Haversine)
  {
    forall lat1, lon1, lat2, lon2 :: h(lat1, lon1, lat2, lon2) >= 0.0
  }

  /** What a session's fix handler reads and writes. */
  datatype State = State(
    speed: real,
    highestSpeed: real,
    distance: real,
    speedBreak: bool,
    queue: seq<real>,
    lastLocation: Option<Location>,
    lastTimestamp: Option<int>)

  /** A fresh session: all metrics zero, empty queue, no previous fix. */
  function Initial(): State
  {
    State(0.0, 0.0, 0.0, false, [], None, None)
  }

  function Max(a: real, b: real): real
  {
    if a >= b then a else b
  }

  /**
   * `updateSpeed(v)`: push `v` into the window, publish the window's mean as
   * the speed, raise the peak to it and set the flag when it exceeds the threshold.
   */
  function Smooth(m: State, v: real): State
  {
    var q := Window(m.queue, v);
    var smoothSpeed := Mean(q);
    m.(speed := smoothSpeed,
       highestSpeed := Max(m.highestSpeed, smoothSpeed),
       speedBreak := smoothSpeed > SpeedBreakThreshold,
       queue := q)
  }

  /**
   * One `updateSpeed(v)`: the speed is the mean of the pushed window; the
   * peak does not go down, is at least the new speed and is either the old
   * peak or the new speed; the flag is up exactly when the speed exceeds 1;
   * distance and the last-fix cache are untouched.
   */
  lemma SmoothFacts(m: State, v: real)
    ensures var r := Smooth(m, v);
            r.queue == Window(m.queue, v) && r.speed == Mean(Window(m.queue, v)) &&
            r.highestSpeed >= m.highestSpeed && r.highestSpeed >= r.speed &&
            (r.highestSpeed == m.highestSpeed || r.highestSpeed == r.speed) &&
            (r.speedBreak <==> r.speed > SpeedBreakThreshold) &&
            r.distance == m.distance &&
            r.lastLocation == m.lastLocation && r.lastTimestamp == m.lastTimestamp
  {
  }

  /**
   * The peak over published speeds as `Math.max(prev, s)` accumulates it
   * from the initial 0.
   */
  function Peak(speeds: seq<real>): real
  {
    if speeds == [] then 0.0 else Max(Peak(speeds[..|speeds| - 1]), speeds[|speeds| - 1])
  }

  /** The peak is non-negative, bounds every published speed, and is 0 or one of them. */
  lemma {:induction false} PeakBounds(speeds: seq<real>)
    ensures 0.0 <= Peak(speeds)
    ensures forall i :: 0 <= i < |speeds| ==> speeds[i] <= Peak(speeds)
    ensures Peak(speeds) == 0.0 || Peak(speeds) in speeds
  {
    if speeds != [] {
      var init := speeds[..|speeds| - 1];
      PeakBounds(init);
      assert forall i :: 0 <= i < |init| ==> speeds[i] == init[i];
    }
  }

  /** The state after smoothing each estimate of `vs` in turn. */
  function SmoothAll(m: State, vs: seq<real>): State
  {
    if vs == [] then m else Smooth(SmoothAll(m, vs[..|vs| - 1]), vs[|vs| - 1])
  }

  /** However many estimates have been pushed, the queue holds the last three of them. */
  lemma {:induction false} QueueHoldsLastThree(m: State, vs: seq<real>)
    requires |m.queue| <= WindowSize
    ensures SmoothAll(m, vs).queue == LastN(m.queue + vs, WindowSize)
  {
    if vs == [] {
      assert m.queue + vs == m.queue;
    } else {
      var init, v := vs[..|vs| - 1], vs[|vs| - 1];
      QueueHoldsLastThree(m, init);
      var q := LastN(m.queue + init, WindowSize);
      assert SmoothAll(m, vs).queue == Window(q, v);
      WindowOfLastN(m.queue + init, v);
      assert m.queue + init + [v] == m.queue + vs;
    }
  }

  /** Once an estimate has been pushed, the speed is the mean of the last three. */
  lemma SpeedIsMeanOfLastThree(m: State, vs: seq<real>)
    requires |m.queue| <= WindowSize
    requires vs != []
    ensures SmoothAll(m, vs).speed == Mean(LastN(m.queue + vs, WindowSize))
  {
    QueueHoldsLastThree(m, vs);
    var r := SmoothAll(m, vs);
    assert r == Smooth(SmoothAll(m, vs[..|vs| - 1]), vs[|vs| - 1]);
    assert r.speed == Mean(r.queue);
  }

  /**
   * The peak never goes down, and it is at least every speed published on
   * the way: after `k` of the estimates, the speed then is at most the final peak.
   */
  lemma {:induction false} PeakDominates(m: State, vs: seq<real>, k: nat)
    requires k <= |vs|
    ensures SmoothAll(m, vs[..k]).highestSpeed <= SmoothAll(m, vs).highestSpeed
    ensures 0 < k ==> SmoothAll(m, vs[..k]).speed <= SmoothAll(m, vs).highestSpeed
    ensures m.highestSpeed <= SmoothAll(m, vs).highestSpeed
  {
    if vs == [] {
      assert vs[..k] == vs;
    } else if k == |vs| {
      assert vs[..k] == vs;
      var init := vs[..|vs| - 1];
      PeakDominates(m, init, |init|);
    } else {
      var init := vs[..|vs| - 1];
      PeakDominates(m, init, k);
      assert init[..k] == vs[..k];
    }
  }

  /** The speeds published along `vs`: the speed after each prefix, in order. */
  function Published(m: State, vs: seq<real>): (r: seq<real>)
    ensures |r| == |vs|
  {
    if vs == [] then [] else Published(m, vs[..|vs| - 1]) + [SmoothAll(m, vs).speed]
  }

  /** From a fresh session, `highestSpeed` is the `Peak` of the speeds published so far. */
  lemma {:induction false} PeakIsPeak(vs: seq<real>)
    ensures SmoothAll(Initial(), vs).highestSpeed == Peak(Published(Initial(), vs))
  {
    if vs != [] {
      var init := vs[..|vs| - 1];
      PeakIsPeak(init);
      var p := Published(Initial(), vs);
      assert p[..|p| - 1] == Published(Initial(), init);
      assert SmoothAll(Initial(), vs) == Smooth(SmoothAll(Initial(), init), vs[|vs| - 1]);
    }
  }

  /**
   * From a fresh session, the peak is at least 0 and at least every speed
   * published so far, and it is 0 or one of them: the largest published speed.
   */
  lemma HighestIsLargestPublished(vs: seq<real>)
    ensures var top := SmoothAll(Initial(), vs).highestSpeed;
            0.0 <= top &&
            (forall i :: 0 <= i < |vs| ==> Published(Initial(), vs)[i] <= top) &&
            (top == 0.0 || top in Published(Initial(), vs))
  {
    PeakIsPeak(vs);
    PeakBounds(Published(Initial(), vs));
  }

  /** Pushing 1, 2, 3, 4 publishes 1, 1.5, 2, 3; the flag is down only for the first. */
  lemma SmoothingScenario()
    ensures SmoothAll(Initial(), [1.0]).speed == 1.0
    ensures SmoothAll(Initial(), [1.0, 2.0]).speed == 1.5
    ensures SmoothAll(Initial(), [1.0, 2.0, 3.0]).speed == 2.0
    ensures SmoothAll(Initial(), [1.0, 2.0, 3.0, 4.0]).speed == 3.0
    ensures !SmoothAll(Initial(), [1.0]).speedBreak
    ensures SmoothAll(Initial(), [1.0, 2.0]).speedBreak
  {
    MeanOfOne(1.0);
    PublishedSpeed([1.0], 1.0);
    MeanOfTwo(1.0, 2.0);
    PublishedSpeed([1.0, 2.0], 1.5);
    MeanOfThree(1.0, 2.0, 3.0);
    PublishedSpeed([1.0, 2.0, 3.0], 2.0);
    MeanOfThree(2.0, 3.0, 4.0);
    assert LastN([1.0, 2.0, 3.0, 4.0], WindowSize) == [2.0, 3.0, 4.0];
    PublishedSpeed([1.0, 2.0, 3.0, 4.0], 3.0);
  }

  /** Helper for the scenario: the speed after `vs` is `speed` given the mean of their last three is. */
  lemma PublishedSpeed(vs: seq<real>, speed: real)
    requires vs != []
    requires Mean(LastN(vs, WindowSize)) == speed
    ensures SmoothAll(Initial(), vs).speed == speed
    ensures SmoothAll(Initial(), vs).speedBreak <==> speed > SpeedBreakThreshold
  {
    SpeedIsMeanOfLastThree(Initial(), vs);
    assert Initial().queue + vs == vs;
    assert SmoothAll(Initial(), vs) == Smooth(SmoothAll(Initial(), vs[..|vs| - 1]), vs[|vs| - 1]);
  }

  /** `lastLocation.current && lastTimestamp.current`: a timestamp of 0 counts as none. */
  predicate HasPredecessor(m: State)
  {
    m.lastLocation.Some? && m.lastTimestamp.Some? && m.lastTimestamp.value != 0
  }

  /** Distance from the previous fix to the reading `c`. */
  function Hop(m: State, c: Reading, h: Haversine): real
    requires m.lastLocation.Some?
  {
    h(m.lastLocation.value.latitude, m.lastLocation.value.longitude, c.latitude, c.longitude)
  }

  /** `position.timestamp ?? Date.now()`, with the clock reading passed in as `now`. */
  function FixTime(p: Position, now: int): int
  {
    p.timestamp.GetOr(now)
  }

  /**
   * The speed estimate a reading stamped `ts` feeds to the smoother: a usable
   * raw speed wins; otherwise the hop over the floored delta when there is a
   * previous fix, and 0 on the first fix.
   */
  function FixEstimate(m: State, c: Reading, ts: int, h: Haversine): real
  {
    if HasPredecessor(m) then
      var dist := Hop(m, c, h);
      ChooseSpeed(c.speed, dist / SafeDelta(ts, m.lastTimestamp.value))
    else
      ChooseSpeed(c.speed, 0.0)
  }

  /**
   * Which estimate a fix produces: the raw speed when present and not
   * negative, else the calculated speed over a delta of at least one second
   * when a previous fix exists, else 0; never negative when distances are not.
   */
  lemma FixEstimateRule(m: State, c: Reading, ts: int, h: Haversine)
    ensures UsableRaw(c.speed) ==> FixEstimate(m, c, ts, h) == c.speed.value
    ensures !UsableRaw(c.speed) && HasPredecessor(m) ==>
              FixEstimate(m, c, ts, h) == Hop(m, c, h) / SafeDelta(ts, m.lastTimestamp.value) &&
              SafeDelta(ts, m.lastTimestamp.value) >= MinDeltaSeconds
    ensures !UsableRaw(c.speed) && !HasPredecessor(m) ==> FixEstimate(m, c, ts, h) == 0.0
    ensures NonNegativeHaversine(h) ==> FixEstimate(m, c, ts, h) >= 0.0
  {
  }

  /** `if (dist >= 2) setDistance(d => d + dist)`, taken only after a previous fix. */
  function Travel(m: State, c: Reading, h: Haversine): State
  {
    if HasPredecessor(m) && Hop(m, c, h) >= NoiseFloorMeters
    then m.(distance := m.distance + Hop(m, c, h))
    else m
  }

  /** The reading `c` stamped `ts` becomes the last fix. */
  function Remember(m: State, c: Reading, ts: int): State
  {
    m.(lastLocation := Some(Location(c.latitude, c.longitude)), lastTimestamp := Some(ts))
  }

  /**
   * The position callback: skip a position without coordinates; otherwise
   * add the hop to the distance when there is a previous fix and the hop
   * reaches the noise floor, smooth the estimate, and remember this fix.
   */
  function ApplyFix(m: State, p: Position, now: int, h: Haversine): State
  {
    match p.coords
    case None => m
    case Some(c) =>
      var ts := FixTime(p, now);
      Remember(Smooth(Travel(m, c, h), FixEstimate(m, c, ts, h)), c, ts)
  }

  /**
   * A position without coordinates changes nothing; any other leaves its
   * coordinates and timestamp as the last fix and pushes its estimate.
   */
  lemma ApplyFixRecordsFix(m: State, p: Position, now: int, h: Haversine)
    ensures p.coords.None? ==> ApplyFix(m, p, now, h) == m
    ensures p.coords.Some? ==>
              var r := ApplyFix(m, p, now, h);
              r.lastLocation == Some(Location(p.coords.value.latitude, p.coords.value.longitude)) &&
              r.lastTimestamp == Some(FixTime(p, now)) &&
              r.queue == Window(m.queue, FixEstimate(m, p.coords.value, FixTime(p, now), h)) &&
              r.speed == Mean(r.queue)
  {
  }

  /**
   * Distance grows exactly when a fix with coordinates follows a previous fix
   * and the hop between them reaches 2 m, and then by that hop; the peak
   * never goes down.
   */
  lemma ApplyFixDistance(m: State, p: Position, now: int, h: Haversine)
    ensures var r := ApplyFix(m, p, now, h);
            (r.distance != m.distance <==>
               p.coords.Some? && HasPredecessor(m) && Hop(m, p.coords.value, h) >= NoiseFloorMeters) &&
            (r.distance != m.distance ==> r.distance == m.distance + Hop(m, p.coords.value, h)) &&
            r.distance >= m.distance && r.highestSpeed >= m.highestSpeed
  {
  }

  /**
   * With a non-negative distance function, a session whose queue holds no
   * negative estimate keeps it so, and publishes a non-negative speed.
   */
  lemma {:induction false} FixKeepsSpeedsNonNegative(m: State, p: Position, now: int, h: Haversine)
    requires NonNegativeHaversine(h)
    requires forall i :: 0 <= i < |m.queue| ==> m.queue[i] >= 0.0
    requires m.speed >= 0.0
    ensures ApplyFix(m, p, now, h).speed >= 0.0
    ensures forall i :: 0 <= i < |ApplyFix(m, p, now, h).queue| ==> ApplyFix(m, p, now, h).queue[i] >= 0.0
  {
    if p.coords.Some? {
      var v := FixEstimate(m, p.coords.value, FixTime(p, now), h);
      assert v >= 0.0;
      var q := Window(m.queue, v);
      WindowAtLeast(m.queue, v, 0.0);
      MeanAtLeast(q, 0.0);
      assert ApplyFix(m, p, now, h).queue == q;
    }
  }

  /** A distance function that puts every two fixes 10 m apart. */
  function TenMeters(): (h: Haversine)
    ensures NonNegativeHaversine(h)
  {
    (lat1, lon1, lat2, lon2) => 10.0
  }

  /**
   * Helper for `FixScenario`: one fix with coordinates, given the estimate it
   * feeds, its effect on the distance and the window it leaves, as a literal
   * session.
   */
  lemma ApplyFixStep(m: State, p: Position, now: int, h: Haversine, v: real, travelled: real, q: seq<real>)
    requires p.coords.Some?
    requires FixEstimate(m, p.coords.value, FixTime(p, now), h) == v
    requires Travel(m, p.coords.value, h).distance == travelled
    requires Window(m.queue, v) == q && q != []
    ensures ApplyFix(m, p, now, h) ==
              State(Mean(q), Max(m.highestSpeed, Mean(q)), travelled, Mean(q) > SpeedBreakThreshold, q,
                    Some(Location(p.coords.value.latitude, p.coords.value.longitude)), Some(FixTime(p, now)))
  {
  }

  /**
   * Three fixes 10 m apart: the first, without a raw speed, feeds 0 and adds
   * no distance; the second, 5 s later, feeds 10 m / 5 s; the third, stamped
   * by the clock only 0.5 s later, adds another 10 m but feeds its raw 4 m/s.
   */
  lemma FixScenario()
    ensures ApplyFix(Initial(), Position(Some(Reading(0.0, 0.0, None)), Some(1000)), 0, TenMeters()) ==
              State(0.0, 0.0, 0.0, false, [0.0], Some(Location(0.0, 0.0)), Some(1000))
    ensures ApplyFix(State(0.0, 0.0, 0.0, false, [0.0], Some(Location(0.0, 0.0)), Some(1000)),
                     Position(Some(Reading(1.0, 1.0, None)), Some(6000)), 0, TenMeters()) ==
              State(1.0, 1.0, 10.0, false, [0.0, 2.0], Some(Location(1.0, 1.0)), Some(6000))
    ensures ApplyFix(State(1.0, 1.0, 10.0, false, [0.0, 2.0], Some(Location(1.0, 1.0)), Some(6000)),
                     Position(Some(Reading(2.0, 2.0, Some(4.0))), None), 6500, TenMeters()) ==
              State(2.0, 2.0, 20.0, true, [0.0, 2.0, 4.0], Some(Location(2.0, 2.0)), Some(6500))
  {
    var h := TenMeters();
    var m1 := State(0.0, 0.0, 0.0, false, [0.0], Some(Location(0.0, 0.0)), Some(1000));
    var m2 := State(1.0, 1.0, 10.0, false, [0.0, 2.0], Some(Location(1.0, 1.0)), Some(6000));

    var p1 := Position(Some(Reading(0.0, 0.0, None)), Some(1000));
    assert Window([], 0.0) == [0.0];
    assert Mean([0.0]) == 0.0;
    ApplyFixStep(Initial(), p1, 0, h, 0.0, 0.0, [0.0]);

    var p2 := Position(Some(Reading(1.0, 1.0, None)), Some(6000));
    assert SafeDelta(6000, 1000) == 5.0;
    assert Window([0.0], 2.0) == [0.0, 2.0];
    assert Mean([0.0, 2.0]) == 1.0 by { assert [0.0, 2.0][..1] == [0.0]; }
    ApplyFixStep(m1, p2, 0, h, 2.0, 10.0, [0.0, 2.0]);

    var p3 := Position(Some(Reading(2.0, 2.0, Some(4.0))), None);
    assert SafeDelta(6500, 6000) == 1.0;
    assert Window([0.0, 2.0], 4.0) == [0.0, 2.0, 4.0];
    assert Mean([0.0, 2.0, 4.0]) == 2.0 by { assert [0.0, 2.0, 4.0][..2] == [0.0, 2.0]; assert [0.0, 2.0][..1] == [0.0]; }
    ApplyFixStep(m2, p3, 6500, h, 4.0, 20.0, [0.0, 2.0, 4.0]);
  }

  /** `stopTracking`'s effect on the session: forget the last fix. */
  function ClearLastFix(m: State): State
  {
    m.(lastLocation := None, lastTimestamp := None)
  }

  /** Clearing forgets the previous fix and keeps every metric and the queue. */
  lemma ClearLastFixKeepsMetrics(m: State)
    ensures var r := ClearLastFix(m);
            r.lastLocation.None? && r.lastTimestamp.None? && !HasPredecessor(r) &&
            r.speed == m.speed && r.highestSpeed == m.highestSpeed && r.distance == m.distance &&
            r.speedBreak == m.speedBreak && r.queue == m.queue
  {
  }

  /** Clearing twice is clearing once. */
  lemma ClearLastFixIdempotent(m: State)
    ensures ClearLastFix(ClearLastFix(m)) == ClearLastFix(m)
  {
  }

  /**
   * The first fix after a stop adds no distance and feeds the raw speed if
   * usable and 0 otherwise: no delta is computed across the gap.
   */
  lemma FirstFixAfterStop(m: State, p: Position, now: int, h: Haversine)
    requires p.coords.Some?
    ensures var r := ApplyFix(ClearLastFix(m), p, now, h);
            r.distance == m.distance &&
            r.queue == Window(m.queue, ChooseSpeed(p.coords.value.speed, 0.0))
  {
  }

  /**
   * What holds of every session reachable from `Initial()` through
   * `Smooth`, `ApplyFix` and `ClearLastFix`: at most three queued
   * estimates whose mean is the speed (0 before any), a peak that is at
   * least 0 and at least the speed, the flag matching the threshold, a
   * distance that is not negative, and a last fix cached as a pair.
   */
  predicate Consistent(m: State)
  {
    WellFormed(m) &&
    (m.queue == [] ==> m.speed == 0.0) &&
    (m.queue != [] ==> m.speed == Mean(m.queue))
  }

  /** The part of `Consistent` that does not mention the mean. */
  predicate WellFormed(m: State)
  {
    |m.queue| <= WindowSize &&
    0.0 <= m.highestSpeed && m.speed <= m.highestSpeed &&
    m.speedBreak == (m.speed > SpeedBreakThreshold) &&
    0.0 <= m.distance &&
    m.lastLocation.Some? == m.lastTimestamp.Some?
  }

  /** A fresh session is consistent. */
  lemma InitialConsistent()
    ensures Consistent(Initial())
  {
  }

  /** `updateSpeed` leaves a consistent session, starting from any well-formed one. */
  lemma SmoothKeepsConsistent(m: State, v: real)
    requires WellFormed(m)
    ensures Consistent(Smooth(m, v))
  {
    WindowShape(m.queue, v);
  }

  /** The position callback keeps a session well-formed and consistent, whatever the distance function returns. */
  lemma ApplyFixKeepsConsistent(m: State, p: Position, now: int, h: Haversine)
    requires WellFormed(m)
    ensures WellFormed(ApplyFix(m, p, now, h))
    ensures Consistent(m) ==> Consistent(ApplyFix(m, p, now, h))
  {
    if p.coords.Some? {
      var c := p.coords.value;
      var moved := Travel(m, c, h);
      assert WellFormed(moved);
      SmoothKeepsConsistent(moved, FixEstimate(m, c, FixTime(p, now), h));
    }
  }

  /** `stopTracking` keeps a session well-formed and consistent. */
  lemma ClearLastFixKeepsConsistent(m: State)
    requires WellFormed(m)
    ensures WellFormed(ClearLastFix(m))
    ensures Consistent(m) ==> Consistent(ClearLastFix(m))
  {
  }
}
