# Speedometer motion-metrics engine in Dafny

This project models the motion-metrics engine of the speedometer app, the
`SpeedProvider` in `contexts/SpeedContext.js`. The engine receives location
fixes from the device and keeps one session's metrics: the smoothed speed,
the peak speed, the travelled distance, the elapsed seconds, and an
over-threshold flag.

The model is split into five modules:

- `Optional` (`optional.dfy`): the `Option` datatype, for the source's
  nullable values and for `??`.
- `Smoothing` (`smoothing.dfy`): the three-slot speed queue. It covers
  `push` followed by `shift` past three elements (`Window`), the
  `reduce`-based sum (`Sum`) and the mean (`Mean`).
- `Estimate` (`estimate.dfy`): the time delta floored at one second
  (`SafeDelta`), and the choice between the device-reported speed and a
  fallback (`ChooseSpeed`).
- `Session` (`session.dfy`): the fields the position callback reads and
  writes, as a value `State`. The operations on them are pure functions:
  - `Smooth` is `updateSpeed`;
  - `ApplyFix` is the position callback, built from `Travel`, `Smooth` and
    `Remember`;
  - `ClearLastFix` is the effect of `stopTracking` on the session.

  The properties of these functions are lemmas. `Consistent` is the
  session invariant, and it is proved to be preserved by every operation.
- `Provider` (`provider.dfy`): the class `SpeedProvider`. The source's
  `useState` values and `useRef`s are its fields, and the source's
  operations are its methods, which update those fields in place.
  - `UpdateSpeed` pushes and shifts the queue.
  - `OnPosition` is the position callback.
  - `StartTracking` and `StopTracking` manage the subscription.
  - `SetStarted` and `Tick` drive the one-second timer.

  Each method is proved to move `Snapshot()`, the fields seen as a `State`,
  exactly as the matching pure function does. Three ghost fields stand in
  for effects the class cannot observe:
  - `emitted` stands in for the `onNewSpeed` listener;
  - `created` and `removed` stand in for the location provider's
    subscriptions.

Some inputs are parameters of the model:
- The distance function `haversineMeters` is a constant of the object
  (`haversine`), supplied at construction.
- `Date.now()` is the `now` argument of `OnPosition`.
- Whether an `onNewSpeed` listener was passed is the constant `notifies`.

The model follows the code where the code differs from what a reader might
expect:
- Starting to track does not clear the last fix (lines 45-51); only
  stopping does (lines 88-89). A fix after a restart without a stop is
  therefore measured against the fix before the restart.
- A previous fix counts only when `lastLocation.current &&
  lastTimestamp.current` is truthy (line 58). A stored timestamp of 0 is
  falsy, so a fix stamped at time 0 is never treated as a predecessor
  (`HasPredecessor`).
- `position.timestamp ?? Date.now()` (line 56) falls back to the clock only
  when the timestamp is absent (`FixTime`).
- A raw speed is used only when it is present and not negative (line 70).
  The calculated fallback is not checked for sign.

## Model

| member | source | states |
|---|---|---|
| Smoothing.WindowShape | contexts/SpeedContext.js:31-32 | after a push the new value is last, the length grows by one up to three, at most the oldest element is dropped and the survivors keep their order |
| Smoothing.WindowOfLastN | contexts/SpeedContext.js:31-32 | pushing into the last three estimates gives the last three estimates including the new one |
| Smoothing.WindowAtLeast | contexts/SpeedContext.js:31-32 | a lower bound on the queue and on the new value is a lower bound on the pushed window |
| Smoothing.SumAtLeast | contexts/SpeedContext.js:33 | elements all at least `lo` make the reduce-sum at least `n * lo` |
| Smoothing.SumAtMost | contexts/SpeedContext.js:33 | elements all at most `hi` make the reduce-sum at most `n * hi` |
| Smoothing.MeanWithin | contexts/SpeedContext.js:33 | the smoothed speed lies between any lower and upper bound of the queued estimates |
| Smoothing.MeanAtLeast | contexts/SpeedContext.js:33 | a lower bound of every queued estimate bounds the smoothed speed |
| Smoothing.MeanOfOne | contexts/SpeedContext.js:33 | the mean of one estimate is that estimate |
| Smoothing.MeanOfTwo | contexts/SpeedContext.js:33 | the mean of two estimates is their sum over 2 |
| Smoothing.MeanOfThree | contexts/SpeedContext.js:33 | the mean of a full window is the sum of its three estimates over 3 |
| Estimate.SafeDelta | contexts/SpeedContext.js:65-66 | the delta divided by is at least one second and at least the real delta, and is one of the two |
| Estimate.ChooseSpeed | contexts/SpeedContext.js:70-73 | a present, non-negative raw speed is used, anything else gives the fallback; a non-negative fallback gives a non-negative estimate |
| Session.SmoothFacts | contexts/SpeedContext.js:30-37 | `updateSpeed` sets the queue to the pushed window and the speed to its mean; the peak does not go down, is at least the new speed and is the old peak or the new speed; the flag is up exactly when the speed exceeds 1; distance and last fix are untouched |
| Session.PeakBounds | contexts/SpeedContext.js:36 | the `Math.max` fold from 0 over a sequence of speeds is at least 0, at least each of them, and is 0 or one of them |
| Session.PeakIsPeak | contexts/SpeedContext.js:33-36 | from a fresh session, `highestSpeed` equals that fold over the speeds published so far |
| Session.HighestIsLargestPublished | contexts/SpeedContext.js:33-36 | from a fresh session, `highestSpeed` is at least 0 and at least every published speed, and is 0 or one of them |
| Session.QueueHoldsLastThree | contexts/SpeedContext.js:31-32 | after any sequence of estimates the queue is the last three of them |
| Session.SpeedIsMeanOfLastThree | contexts/SpeedContext.js:31-35 | after at least one estimate the published speed is the mean of the last three |
| Session.PeakDominates | contexts/SpeedContext.js:36 | the peak never decreases along a sequence of estimates and is at least every speed published on the way |
| Session.PublishedSpeed | contexts/SpeedContext.js:33-37 | from a fresh session, a sequence whose last three average to `x` publishes `x`, and the flag is up exactly when `x > 1` |
| Session.SmoothingScenario | contexts/SpeedContext.js:30-37 | pushing 1, 2, 3, 4 publishes 1, 1.5, 2, 3; the flag is down after the first and up after the second |
| Session.FixEstimateRule | contexts/SpeedContext.js:58-75 | the estimate is the raw speed when usable; otherwise hop over the floored delta after a previous fix, and 0 on a first fix; not negative when distances are not |
| Session.ApplyFixRecordsFix | contexts/SpeedContext.js:53-79 | a position without coordinates changes nothing; any other becomes the last fix with its timestamp or the clock's, and its estimate is pushed and averaged |
| Session.ApplyFixDistance | contexts/SpeedContext.js:58-67 | distance changes exactly when a fix follows a previous fix and the hop is at least 2 m, and then by exactly the hop; distance and peak never decrease |
| Session.FixKeepsSpeedsNonNegative | contexts/SpeedContext.js:58-75 | with a non-negative distance function, non-negative queued estimates and speed stay non-negative after a fix |
| Session.FixScenario | contexts/SpeedContext.js:53-79 | three fixes 10 m apart: the first feeds 0 and adds no distance; the second, 5 s later, feeds 2 m/s and adds 10 m; the third, stamped by the clock 0.5 s later with raw 4 m/s, adds 10 m, feeds 4 and publishes 2 with the flag up |
| Session.ClearLastFixKeepsMetrics | contexts/SpeedContext.js:83-90 | stopping forgets the last fix and keeps speed, peak, distance, flag and queue |
| Session.ClearLastFixIdempotent | contexts/SpeedContext.js:83-90 | stopping twice is the same as stopping once |
| Session.FirstFixAfterStop | contexts/SpeedContext.js:58-74 | the first fix after a stop adds no distance and feeds the raw speed if usable and 0 otherwise |
| Session.InitialConsistent | contexts/SpeedContext.js:7-16 | a fresh session satisfies the invariant |
| Session.SmoothKeepsConsistent | contexts/SpeedContext.js:30-37 | `updateSpeed` leaves at most three queued estimates whose mean is the speed, the peak at least the speed, and the flag matching the threshold |
| Session.ApplyFixKeepsConsistent | contexts/SpeedContext.js:53-79 | the position callback preserves the invariant, distance not negative and last fix cached as a pair included, whatever the distance function returns |
| Session.ClearLastFixKeepsConsistent | contexts/SpeedContext.js:83-90 | stopping preserves the invariant |
| Provider.SpeedProvider.constructor | contexts/SpeedContext.js:6-16 | a new provider has zero metrics, an empty queue, no last fix, no subscription and time 0, not started |
| Provider.SpeedProvider.UpdateSpeed | contexts/SpeedContext.js:30-43 | the in-place push/shift/mean/peak/flag update moves the fields as `Smooth` does, and appends exactly the new speed to the listener's log when a listener exists |
| Provider.SpeedProvider.OnPosition | contexts/SpeedContext.js:53-79 | the callback moves the fields as `ApplyFix` does, and notifies the listener once per fix with coordinates |
| Provider.SpeedProvider.StartTracking | contexts/SpeedContext.js:45-51 | the held subscription is removed before a new, never-used one is opened, so exactly one subscription stays open; the next handle advances by one; metrics and last fix are untouched |
| Provider.SpeedProvider.StopTracking | contexts/SpeedContext.js:83-90 | the held subscription, if any, is removed, none stays open, and the fields move as `ClearLastFix`; time and the started flag are untouched |
| Provider.SpeedProvider.SetStarted | contexts/SpeedContext.js:11 | the timer flag is set and nothing else changes |
| Provider.SpeedProvider.Tick | contexts/SpeedContext.js:92-97 | one timer tick adds exactly one second while started and nothing otherwise |
| Provider.TrackOneFix | contexts/SpeedContext.js:45-90 | start, one fix, and two stops leave no subscription and the session of one fix with its last fix cleared |

## Left out

- `haversineMeters` (lines 18-28) is floating-point trigonometry. It is abstracted as the function the provider is built with. Only `FixKeepsSpeedsNonNegative` and one conjunct of `FixEstimateRule` assume that it never returns a negative length, and they say so in their `requires` or premise.
- Session.FixKeepsSpeedsNonNegative: holds only under that non-negativity assumption, which the real formula satisfies but the model does not prove.
- Floating point: speeds, distances and coordinates are exact reals, and timestamps are integer milliseconds. Rounding, `NaN` and infinities (for instance a `NaN` raw speed, which fails `>= 0`) are not modelled.
- `Location.watchPositionAsync`, `remove()` and `await`: a subscription is a numeric handle, and removal happens at once. Fixes that arrive after a removal, and interleavings of two overlapping `startTracking` calls, are not modelled.
- React `useState`, `useRef` and `useEffect`, and `setInterval`/`clearInterval` (lines 92-97): state updates take effect at once, and the timer is a `Tick` method that the environment calls once per second.
- `Date.now()` (line 56) is supplied as the `now` argument.
- What an `onNewSpeed` listener does with a value is not modelled. Only the sequence of values passed to it is recorded.
- `contexts/SpeedContext.js` keeps no average speed and no persisted or time-filtered history, so neither is modelled.
- Provider.SpeedProvider.Valid covers only the subscription bookkeeping. The metric invariant `Session.Consistent` is proved about the pure functions the methods are tied to, not carried as a class invariant.
- No file shown uses `SpeedProvider`: `App.js` does not mount it, and `components/SpeedTracker.js` (lines 21-36) opens its own `watchPositionAsync` subscription. The provider's operations are modelled as its context value exposes them (lines 101-111). `App.js` and the screens under `components/` are not part of this model.
