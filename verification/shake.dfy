/** The shake detector: a debounced threshold filter on accelerometer
    samples that toggles the flashlight. The magnitude test itself is
    floating point and enters the model as the boolean `overThreshold`. */
module Shake {
  import opened Commands
  import opened Device
  import opened Flashlight

  /** Minimum gap, exclusive, between two accepted shakes. */
  const DebounceMs: int := 1000

  /** One accelerometer callback: whether the gravity-corrected magnitude
      exceeded the threshold, the wall-clock time read when it did, and
      which platform call of a resulting toggle throws, if any. */
  datatype Sample = Sample(overThreshold: bool, now: int, fault: Fault)

  /** A sample is accepted when it is over the threshold and strictly more
      than `DebounceMs` after the last accepted shake. */
  predicate Accepts(lastShakeTime: int, x: Sample)
  {
    x.overThreshold && x.now - lastShakeTime > DebounceMs
  }

  /** The sensor callback. An accepted sample records its time and then
      toggles the flashlight; any other sample changes nothing. */
  function OnSensorChanged(s: State, env: Env, x: Sample): (r: Step)
    ensures Accepts(s.lastShakeTime, x) ==>
              r.state.lastShakeTime == x.now &&
              r == ToggleFlash(s.(lastShakeTime := x.now), env, x.fault)
    ensures !Accepts(s.lastShakeTime, x) ==> r.state == s && r.trace == []
    ensures r.state.isSOSActive == s.isSOSActive
  {
    if x.overThreshold then
      if x.now - s.lastShakeTime > DebounceMs then
        ToggleFlash(s.(lastShakeTime := x.now), env, x.fault)
      else Step(s, [])
    else Step(s, [])
  }

  /** The callbacks delivered in order: the final state and every command
      issued, concatenated. */
  function Feed(s: State, env: Env, xs: seq<Sample>): (r: Step)
    // the SOS flag is never touched by the sensor path
    ensures r.state.isSOSActive == s.isSOSActive
    // samples that never cross the threshold change nothing and issue nothing
    ensures (forall i :: 0 <= i < |xs| ==> !xs[i].overThreshold) ==> r == Step(s, [])
    decreases |xs|
  {
    if xs == [] then Step(s, [])
    else
      var first := OnSensorChanged(s, env, xs[0]);
      var rest := Feed(first.state, env, xs[1..]);
      Step(rest.state, first.trace + rest.trace)
  }

  /** Reference definition: the times of the samples the detector accepts,
      starting from the stored timestamp `last`. */
  function AcceptedTimes(last: int, xs: seq<Sample>): seq<int>
    decreases |xs|
  {
    if xs == [] then []
    else if Accepts(last, xs[0]) then [xs[0].now] + AcceptedTimes(xs[0].now, xs[1..])
    else AcceptedTimes(last, xs[1..])
  }

  /** Debounce invariant: the first accepted shake is more than 1000 ms after
      the stored timestamp, and any two accepted shakes are more than 1000 ms
      apart, whatever order the clock readings come in. */
  lemma {:induction false} AcceptedSpaced(last: int, xs: seq<Sample>)
    ensures var acc := AcceptedTimes(last, xs);
            (|acc| > 0 ==> acc[0] - last > DebounceMs) &&
            forall i, j :: 0 <= i < j < |acc| ==> acc[j] - acc[i] > DebounceMs
    decreases |xs|
  {
    if xs != [] {
      AcceptedSpaced(if Accepts(last, xs[0]) then xs[0].now else last, xs[1..]);
      if !Accepts(last, xs[0]) {
        var tail := AcceptedTimes(last, xs[1..]);
        assert AcceptedTimes(last, xs) == tail;
      } else {
        var t := xs[0].now;
        var tail := AcceptedTimes(t, xs[1..]);
        var acc := AcceptedTimes(last, xs);
        assert acc == [t] + tail;
        forall i, j | 0 <= i < j < |acc|
          ensures acc[j] - acc[i] > DebounceMs
        {
          if i == 0 {
            assert acc[j] == tail[j - 1];
            // the tail is strictly increasing from its first element on
            assert tail[0] - t > DebounceMs;
            if j > 1 {
              assert tail[j - 1] - tail[0] > DebounceMs;
            }
          } else {
            assert acc[i] == tail[i - 1] && acc[j] == tail[j - 1];
          }
        }
      }
    }
  }

  /** From the initial state, every accepted shake happens later than 1000 ms
      after time zero, and accepted shakes are pairwise more than 1000 ms
      apart. */
  lemma InitialDebounce(xs: seq<Sample>)
    ensures var acc := AcceptedTimes(Initial.lastShakeTime, xs);
            (forall i :: 0 <= i < |acc| ==> acc[i] > DebounceMs) &&
            forall i, j :: 0 <= i < j < |acc| ==> acc[j] - acc[i] > DebounceMs
  {
    var acc := AcceptedTimes(Initial.lastShakeTime, xs);
    AcceptedSpaced(Initial.lastShakeTime, xs);
    forall i | 0 <= i < |acc|
      ensures acc[i] > DebounceMs
    {
      if i > 0 {
        assert acc[i] - acc[0] > DebounceMs;
      }
    }
  }

  /** Feeding callbacks stores exactly the last accepted time and never
      touches the SOS flag. */
  lemma {:induction false} FeedStoresLastAccepted(s: State, env: Env, xs: seq<Sample>)
    ensures var acc := AcceptedTimes(s.lastShakeTime, xs);
            Feed(s, env, xs).state.lastShakeTime ==
              (if acc == [] then s.lastShakeTime else acc[|acc| - 1]) &&
            Feed(s, env, xs).state.isSOSActive == s.isSOSActive
    decreases |xs|
  {
    if xs != [] {
      var first := OnSensorChanged(s, env, xs[0]);
      FeedStoresLastAccepted(first.state, env, xs[1..]);
      assert first.state.lastShakeTime ==
             if Accepts(s.lastShakeTime, xs[0]) then xs[0].now else s.lastShakeTime;
    }
  }

  /** On a drivable torch, feeding callbacks flips the torch flag once per
      accepted shake, even when a guarded call throws (the flag is flipped
      first). */
  lemma {:induction false} FeedTogglesPerShake(s: State, env: Env, xs: seq<Sample>)
    requires env.CanTorch()
    ensures Feed(s, env, xs).state.isFlashOn ==
            (s.isFlashOn != (|AcceptedTimes(s.lastShakeTime, xs)| % 2 == 1))
    decreases |xs|
  {
    if xs != [] {
      var first := OnSensorChanged(s, env, xs[0]);
      var accepted := Accepts(s.lastShakeTime, xs[0]);
      OneSampleToggles(s, env, xs[0]);
      FeedTogglesPerShake(first.state, env, xs[1..]);
      var later := AcceptedTimes(first.state.lastShakeTime, xs[1..]);
      assert |AcceptedTimes(s.lastShakeTime, xs)| == |later| + (if accepted then 1 else 0);
      assert Feed(s, env, xs).state == Feed(first.state, env, xs[1..]).state;
    }
  }

  /** On a drivable torch, feeding callbacks requests exactly one torch value
      per accepted shake. */
  lemma {:induction false} FeedTorchPerShake(s: State, env: Env, xs: seq<Sample>)
    requires env.CanTorch()
    ensures |Torches(Feed(s, env, xs).trace)| == |AcceptedTimes(s.lastShakeTime, xs)|
    decreases |xs|
  {
    if xs != [] {
      var first := OnSensorChanged(s, env, xs[0]);
      var rest := Feed(first.state, env, xs[1..]);
      var accepted := Accepts(s.lastShakeTime, xs[0]);
      OneSampleToggles(s, env, xs[0]);
      FeedTorchPerShake(first.state, env, xs[1..]);
      ProjectAppend(first.trace, rest.trace, TorchOf);
      var later := AcceptedTimes(first.state.lastShakeTime, xs[1..]);
      assert |AcceptedTimes(s.lastShakeTime, xs)| == |later| + (if accepted then 1 else 0);
      assert Feed(s, env, xs).trace == first.trace + rest.trace;
    }
  }

  /** On a drivable torch, the torch requests of a stream come out in
      callback order: they alternate, starting with the opposite of the
      stored flag. */
  lemma {:induction false} FeedTorchAlternates(s: State, env: Env, xs: seq<Sample>)
    requires env.CanTorch()
    ensures AlternatesFrom(Torches(Feed(s, env, xs).trace), !s.isFlashOn)
    decreases |xs|
  {
    if xs != [] {
      var first := OnSensorChanged(s, env, xs[0]);
      var rest := Feed(first.state, env, xs[1..]);
      var accepted := Accepts(s.lastShakeTime, xs[0]);
      OneSampleTorch(s, env, xs[0]);
      FeedTorchAlternates(first.state, env, xs[1..]);
      ProjectAppend(first.trace, rest.trace, TorchOf);
      AlternatesAfter(Torches(first.trace), Torches(rest.trace), !s.isFlashOn, accepted);
    }
  }

  /** On a drivable torch, an accepted callback requests the opposite of the
      stored flag and leaves the flag there; a rejected one requests nothing. */
  lemma OneSampleTorch(s: State, env: Env, x: Sample)
    requires env.CanTorch()
    ensures var r := OnSensorChanged(s, env, x);
            r.state.isFlashOn == (s.isFlashOn != Accepts(s.lastShakeTime, x)) &&
            Torches(r.trace) == (if Accepts(s.lastShakeTime, x) then [!s.isFlashOn] else [])
  {
  }

  /** On a drivable torch, one callback flips the torch flag and requests one
      torch value exactly when it is accepted. */
  lemma OneSampleToggles(s: State, env: Env, x: Sample)
    requires env.CanTorch()
    ensures var r := OnSensorChanged(s, env, x);
            r.state.lastShakeTime == (if Accepts(s.lastShakeTime, x) then x.now else s.lastShakeTime) &&
            r.state.isFlashOn == (s.isFlashOn != Accepts(s.lastShakeTime, x)) &&
            |Torches(r.trace)| == (if Accepts(s.lastShakeTime, x) then 1 else 0)
  {
  }

  /** Without a drivable torch, no stream of callbacks changes the torch flag
      or requests a torch value. */
  lemma {:induction false} FeedWithoutTorch(s: State, env: Env, xs: seq<Sample>)
    requires !env.CanTorch()
    ensures Feed(s, env, xs).state.isFlashOn == s.isFlashOn
    ensures Torches(Feed(s, env, xs).trace) == []
    decreases |xs|
  {
    if xs != [] {
      var first := OnSensorChanged(s, env, xs[0]);
      var rest := Feed(first.state, env, xs[1..]);
      FeedWithoutTorch(first.state, env, xs[1..]);
      ProjectAppend(first.trace, rest.trace, TorchOf);
    }
  }
}
