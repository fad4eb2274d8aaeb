/**
 * The `SpeedProvider` of contexts/SpeedContext.js as an object: the
 * session's state variables and refs are fields, and the position callback,
 * `updateSpeed`, `startTracking`, `stopTracking`, `setStarted` and the
 * one-second tick are methods that update them in place.
 */
module Provider {
  import opened Optional
  import opened Smoothing
  import opened Estimate
  import opened Session

  class SpeedProvider {
    /** The distance function the position callback measures hops with. */
    const haversine: Haversine
    /** Whether an `onNewSpeed` callback was supplied. */
    const notifies: bool

    var speed: real
    var highestSpeed: real
    var distance: real
    var timePassed: nat
    var started: bool
    var speedBreak: bool
    var speedQueue: seq<real>
    var lastLocation: Option<Location>
    var lastTimestamp: Option<int>
    /** The handle of the position subscription currently held, if any. */
    var subscription: Option<nat>
    /** The handle the location provider gives to the next subscription. */
    var nextHandle: nat

    /** The values passed to `onNewSpeed`, oldest first. */
    ghost var emitted: seq<real>
    /** Handles of every subscription opened so far, and of those removed since. */
    ghost var created: set<nat>
    ghost var removed: set<nat>

    /** The fields the fix handler reads and writes, as a value. */
    ghost function Snapshot(): State
      reads this
    {
      State(speed, highestSpeed, distance, speedBreak, speedQueue, lastLocation, lastTimestamp)
    }

    /** The handle of the subscription held, as a set. */
    ghost function Held(): set<nat>
      reads this`subscription
    {
      if subscription.Some? then {subscription.value} else {}
    }

    /**
     * The subscription bookkeeping. The metrics need no invariant of their
     * own here: each method below is tied to a function on `Snapshot()`, and
     * what those functions preserve is proved about them.
     */
    ghost predicate Valid()
      reads this`subscription, this`nextHandle, this`created, this`removed
    {
      // the location provider has exactly the subscription held here open
      removed <= created &&
      created - removed == Held() &&
      (forall h :: h in created ==> h < nextHandle)
    }

    constructor (haversine: Haversine, notifies: bool)
      ensures Valid()
      ensures this.haversine == haversine && this.notifies == notifies
      ensures Snapshot() == Initial()
      ensures timePassed == 0 && !started && subscription.None?
      ensures emitted == [] && created == {}
    {
      this.haversine := haversine;
      this.notifies := notifies;
      speed, highestSpeed, distance, timePassed := 0.0, 0.0, 0.0, 0;
      started, speedBreak := false, false;
      speedQueue := [];
      lastLocation, lastTimestamp := None, None;
      subscription, nextHandle := None, 0;
      emitted := [];
      created, removed := {}, {};
    }

    /**
     * `updateSpeed(newSpeed)`: push, evict the oldest beyond three, publish
     * the mean, raise the peak, set the flag and notify the listener.
     */
    method UpdateSpeed(newSpeed: real)
      modifies this`speedQueue, this`speed, this`highestSpeed, this`speedBreak, this`emitted
      ensures Snapshot() == Smooth(old(Snapshot()), newSpeed)
      ensures emitted == if notifies then old(emitted) + [speed] else old(emitted)
    {
      ghost var before := Snapshot();
      speedQueue := speedQueue + [newSpeed];
      if |speedQueue| > WindowSize {
        speedQueue := speedQueue[1..];
      }
      var smoothSpeed := Mean(speedQueue);

      speed := smoothSpeed;
      highestSpeed := if highestSpeed >= smoothSpeed then highestSpeed else smoothSpeed;
      speedBreak := smoothSpeed > SpeedBreakThreshold;

      if notifies {
        emitted := emitted + [smoothSpeed];
      }
    }

    /**
     * The position callback, with `Date.now()` supplied as `now`: a position
     * without coordinates changes nothing; otherwise the estimate is smoothed,
     * the distance grows by a hop of at least 2 m from a previous fix, and the
     * fix becomes the last one.
     */
    method OnPosition(position: Position, now: int)
      modifies this`speedQueue, this`speed, this`highestSpeed, this`speedBreak, this`emitted
      modifies this`distance, this`lastLocation, this`lastTimestamp
      ensures Snapshot() == ApplyFix(old(Snapshot()), position, now, haversine)
      ensures emitted == if notifies && position.coords.Some? then old(emitted) + [speed] else old(emitted)
    {
      ghost var before := Snapshot();
      if position.coords.None? {
        return;
      }
      var coords := position.coords.value;
      var nowTs := position.timestamp.GetOr(now);
      ghost var estimate := FixEstimate(before, coords, nowTs, haversine);

      if lastLocation.Some? && lastTimestamp.Some? && lastTimestamp.value != 0 {
        var dist := haversine(lastLocation.value.latitude, lastLocation.value.longitude,
                              coords.latitude, coords.longitude);
        var deltaSec := (nowTs - lastTimestamp.value) as real / 1000.0;
        var safeDelta := if deltaSec > 1.0 then deltaSec else 1.0;
        if dist >= NoiseFloorMeters {
          distance := distance + dist;
        }
        assert Snapshot() == Travel(before, coords, haversine);
        var calcSpeed := dist / safeDelta;
        var usedSpeed := if coords.speed.Some? && coords.speed.value >= 0.0 then coords.speed.value else calcSpeed;
        assert usedSpeed == estimate;
        UpdateSpeed(usedSpeed);
      } else {
        var usedSpeed := if coords.speed.Some? && coords.speed.value >= 0.0 then coords.speed.value else 0.0;
        assert usedSpeed == estimate;
        UpdateSpeed(usedSpeed);
      }
      assert Snapshot() == Smooth(Travel(before, coords, haversine), estimate);

      lastLocation := Some(Location(coords.latitude, coords.longitude));
      lastTimestamp := Some(nowTs);
    }

    /**
     * `startTracking`: remove the subscription held, if any, then open a new
     * one with a handle never used before. The last-fix cache and every
     * metric are left as they are.
     */
    method StartTracking()
      requires Valid()
      modifies this`subscription, this`nextHandle, this`created, this`removed
      ensures Valid()
      ensures removed == old(removed) + old(Held())
      ensures subscription == Some(old(nextHandle)) && old(nextHandle) !in old(created)
      ensures nextHandle == old(nextHandle) + 1
      ensures created == old(created) + {old(nextHandle)} && created - removed == {old(nextHandle)}
    {
      if subscription.Some? {
        removed := removed + {subscription.value};
        subscription := None;
      }
      subscription := Some(nextHandle);
      created := created + {nextHandle};
      nextHandle := nextHandle + 1;
    }

    /**
     * `stopTracking`: remove the subscription held, if any, and clear the
     * last-fix cache; speed, distance, peak and elapsed time stay.
     */
    method StopTracking()
      requires Valid()
      modifies this`subscription, this`removed, this`lastLocation, this`lastTimestamp
      ensures Valid()
      ensures Snapshot() == ClearLastFix(old(Snapshot()))
      ensures subscription.None? && removed == old(removed) + old(Held()) && created - removed == {}
    {
      ghost var before := Snapshot();
      if subscription.Some? {
        removed := removed + {subscription.value};
        subscription := None;
      }
      lastLocation := None;
      lastTimestamp := None;
    }

    /** `setStarted(b)`: the flag the one-second timer runs under. */
    method SetStarted(b: bool)
      modifies this`started
      ensures started == b
    {
      started := b;
    }

    /** One tick of the one-second timer: elapsed time grows by one second only while started. */
    method Tick()
      modifies this`timePassed
      ensures timePassed == if started then old(timePassed) + 1 else old(timePassed)
    {
      if started {
        timePassed := timePassed + 1;
      }
    }
  }

  /**
   * A session driven through the operations the provider's context value
   * exposes: start tracking, take one fix, stop twice. The subscription bookkeeping survives the fix, and the second
   * stop changes nothing.
   */
  method TrackOneFix(p: SpeedProvider, fix: Position, now: int)
    requires p.Valid()
    modifies p
    ensures p.Valid() && p.subscription.None?
    ensures p.Snapshot() == ClearLastFix(ApplyFix(old(p.Snapshot()), fix, now, p.haversine))
  {
    p.StartTracking();
    p.OnPosition(fix, now);
    p.StopTracking();
    p.StopTracking();
    ClearLastFixIdempotent(ApplyFix(old(p.Snapshot()), fix, now, p.haversine));
  }
}
