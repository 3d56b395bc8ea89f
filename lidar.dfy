/** The process-wide application state of lidar.py (class AppState): the
    accelerometer window with its rolling average, the auto-rotating camera
    yaw and the sensor tilt derived from the average. */
module Lidar {
  import opened Vectors

  /** The float value of Python's math.pi. */
  const Pi: real := 3.141592653589793

  /** The accelerometer reading the window starts from: gravity along -y. */
  const AtRest: Vec3 := Vec3(0.0, -9.8, 0.0)

  /** np.roll(s, 1, 0): every row moves one slot towards the end and the
      last row wraps around to slot 0. */
  function RollOne(s: seq<Vec3>): (r: seq<Vec3>)
    ensures |r| == |s|
    ensures |s| > 0 ==> r[0] == s[|s| - 1]
    ensures forall i :: 1 <= i < |s| ==> r[i] == s[i - 1]
  {
    if s == [] then [] else [s[|s| - 1]] + s[..|s| - 1]
  }

  lemma RollOneIsPermutation(s: seq<Vec3>)
    ensures multiset(RollOne(s)) == multiset(s)
  {
    if s != [] {
      assert s == s[..|s| - 1] + [s[|s| - 1]];
    }
  }

  /** The window after one update: roll, then overwrite slot 0. The newest
      sample is first, every older one moves back a slot and the oldest is
      discarded. */
  function Shifted(s: seq<Vec3>, v: Vec3): (r: seq<Vec3>)
    requires |s| > 0
    ensures |r| == |s|
    ensures r[0] == v
    ensures forall i :: 1 <= i < |s| ==> r[i] == s[i - 1]
  {
    RollOne(s)[0 := v]
  }

  /** Componentwise sum of a window. */
  function Sum(s: seq<Vec3>): Vec3
  {
    if s == [] then Origin else Add(s[0], Sum(s[1..]))
  }

  /** np.average(s, 0): the componentwise arithmetic mean of all rows. */
  function Mean(s: seq<Vec3>): (m: Vec3)
    requires |s| > 0
    ensures Scale(m, |s| as real) == Sum(s)
  {
    Scale(Sum(s), 1.0 / (|s| as real))
  }

  lemma {:induction false} SumOfRepeat(v: Vec3, n: nat)
    ensures Sum(seq(n, _ => v)) == Scale(v, n as real)
  {
    if n > 0 {
      var s := seq(n, _ => v);
      assert s[1..] == seq(n - 1, _ => v);
      SumOfRepeat(v, n - 1);
      AddScaled(v, (n - 1) as real);
    }
  }

  lemma AddScaled(v: Vec3, k: real)
    ensures Add(v, Scale(v, k)) == Scale(v, k + 1.0)
  {
    Distribute(v.x, k);
    Distribute(v.y, k);
    Distribute(v.z, k);
  }

  lemma Distribute(a: real, k: real)
    ensures a + a * k == a * (k + 1.0)
  {
  }

  /** A window of n identical samples averages to that sample. */
  lemma MeanOfRepeat(v: Vec3, n: nat)
    requires n > 0
    ensures Mean(seq(n, _ => v)) == v
  {
    SumOfRepeat(v, n);
  }

  /** The window after feeding the samples vs in order, oldest first. */
  function UpdatedWith(s: seq<Vec3>, vs: seq<Vec3>): (r: seq<Vec3>)
    requires |s| > 0
    ensures |r| == |s|
    decreases |vs|
  {
    if vs == [] then s else UpdatedWith(Shifted(s, vs[0]), vs[1..])
  }

  /** After any run of updates the window holds the latest samples newest
      first, followed by what is left of the old window; in particular after
      as many updates as the window is long no old sample remains. */
  lemma {:induction false} UpdatedWithHoldsNewestFirst(s: seq<Vec3>, vs: seq<Vec3>, i: nat)
    requires |s| > 0 && i < |s|
    ensures UpdatedWith(s, vs)[i] == if i < |vs| then vs[|vs| - 1 - i] else s[i - |vs|]
    decreases |vs|
  {
    if vs != [] {
      var s', vs' := Shifted(s, vs[0]), vs[1..];
      UpdatedWithHoldsNewestFirst(s', vs', i);
      assert UpdatedWith(s, vs) == UpdatedWith(s', vs');
      if i < |vs'| {
        assert vs'[|vs'| - 1 - i] == vs[|vs| - 1 - i];
      } else if i == |vs'| {
        assert s'[0] == vs[0];
      } else {
        assert s'[i - |vs'|] == s[i - |vs|];
      }
    }
  }

  /** Feeding one more sample after a run shifts it into the window the run
      left, so a loop calling UpdateImu per sample keeps to UpdatedWith. */
  lemma {:induction false} UpdatedWithThenOne(s: seq<Vec3>, vs: seq<Vec3>, v: Vec3)
    requires |s| > 0
    ensures UpdatedWith(s, vs + [v]) == Shifted(UpdatedWith(s, vs), v)
    decreases |vs|
  {
    if vs == [] {
      assert [] + [v] == [v];
      assert [v][1..] == [];
    } else {
      assert (vs + [v])[0] == vs[0];
      assert (vs + [v])[1..] == vs[1..] + [v];
      UpdatedWithThenOne(Shifted(s, vs[0]), vs[1..], v);
    }
  }

  /** Camera yaw after k draw ticks, each subtracting the spin speed. */
  function YawAfterTicks(yaw0: real, speed: real, k: nat): real
  {
    if k == 0 then yaw0 else YawAfterTicks(yaw0, speed, k - 1) - speed
  }

  lemma {:induction false} YawAfterTicksIsLinear(yaw0: real, speed: real, k: nat)
    ensures YawAfterTicks(yaw0, speed, k) == yaw0 - (k as real) * speed
  {
    if k > 0 {
      YawAfterTicksIsLinear(yaw0, speed, k - 1);
    }
  }

  /** At the default spin speed, 1440 ticks turn the camera by one full turn. */
  lemma DefaultSpinFullTurn(yaw0: real)
    ensures YawAfterTicks(yaw0, 0.25, 1440) == yaw0 - 360.0
  {
    YawAfterTicksIsLinear(yaw0, 0.25, 1440);
  }

  /** Sensor pitch in degrees from the mean gravity vector. */
  function PitchDegrees(atan2: (real, real) -> real, g: Vec3): real
  {
    atan2(g.y, g.z) * 180.0 / Pi + 90.0
  }

  /** Sensor roll in degrees from the mean gravity vector. */
  function RollDegrees(atan2: (real, real) -> real, sqrt: real -> real, g: Vec3): real
  {
    atan2(-g.x, sqrt(g.y * g.y + g.z * g.z)) * 180.0 / Pi
  }

  /** With atan2(-9.8, 0) at -90 degrees, the at-rest reading gives pitch 0
      (not 90) and roll 0. */
  lemma AtRestIsLevel(atan2: (real, real) -> real, sqrt: real -> real)
    requires atan2(-9.8, 0.0) == -Pi / 2.0
    requires sqrt(96.04) == 9.8 && atan2(0.0, 9.8) == 0.0
    ensures PitchDegrees(atan2, AtRest) == 0.0
    ensures RollDegrees(atan2, sqrt, AtRest) == 0.0
  {
  }

  class AppState {
    var spinSpeed: real
    var cameraPitch: real
    var cameraYaw: real
    var sensorPitch: real
    var sensorRoll: real
    var imuSampleWindow: nat
    var imuSamples: seq<Vec3>
    var imuAverage: Vec3

    /** The window always has its configured length and the average is that
        of the whole window. */
    ghost predicate Valid()
      reads this
    {
      imuSampleWindow > 0 && |imuSamples| == imuSampleWindow && imuAverage == Mean(imuSamples)
    }

    constructor ()
      ensures Valid()
      ensures spinSpeed == 0.25 && imuSampleWindow == 5
      ensures cameraPitch == 0.0 && cameraYaw == 0.0 && sensorPitch == 0.0 && sensorRoll == 0.0
      ensures imuSamples == seq(5, _ => AtRest) && imuAverage == AtRest
    {
      spinSpeed := 0.25;
      imuSampleWindow := 5;
      cameraPitch, cameraYaw := 0.0, 0.0;
      sensorPitch, sensorRoll := 0.0, 0.0;
      imuSamples := seq(5, _ => AtRest);
      imuAverage := AtRest;
      MeanOfRepeat(AtRest, 5);
    }

    /** Pushes one accelerometer sample into the window, newest first, and
        recomputes the window mean. */
    method UpdateImu(v: Vec3)
      requires Valid()
      modifies this
      ensures Valid()
      ensures imuSamples == Shifted(old(imuSamples), v)
      ensures imuAverage == Mean(imuSamples)
      ensures imuSampleWindow == old(imuSampleWindow) && spinSpeed == old(spinSpeed)
      ensures cameraPitch == old(cameraPitch) && cameraYaw == old(cameraYaw)
      ensures sensorPitch == old(sensorPitch) && sensorRoll == old(sensorRoll)
    {
      imuSamples := RollOne(imuSamples);
      imuSamples := imuSamples[0 := v];
      imuAverage := Mean(imuSamples);
    }

    /** Derives the sensor tilt from the average and advances the yaw. */
    method UpdateScene(atan2: (real, real) -> real, sqrt: real -> real)
      requires Valid()
      modifies this
      ensures Valid()
      ensures sensorPitch == PitchDegrees(atan2, imuAverage)
      ensures sensorRoll == RollDegrees(atan2, sqrt, imuAverage)
      ensures cameraYaw == old(cameraYaw) - spinSpeed
      ensures imuSamples == old(imuSamples) && imuAverage == old(imuAverage)
      ensures imuSampleWindow == old(imuSampleWindow) && spinSpeed == old(spinSpeed)
      ensures cameraPitch == old(cameraPitch)
    {
      sensorPitch := PitchDegrees(atan2, imuAverage);
      sensorRoll := RollDegrees(atan2, sqrt, imuAverage);
      cameraYaw := cameraYaw - spinSpeed;
    }
  }

  /** k draw ticks in a row: the yaw turns by spin_speed per tick, k times,
      and the tilt is that of the unchanged window's average. */
  method SpinTicks(state: AppState, k: nat, atan2: (real, real) -> real, sqrt: real -> real)
    requires state.Valid()
    modifies state
    ensures state.Valid()
    ensures state.cameraYaw == YawAfterTicks(old(state.cameraYaw), state.spinSpeed, k)
    ensures state.cameraYaw == old(state.cameraYaw) - (k as real) * state.spinSpeed
    ensures state.spinSpeed == old(state.spinSpeed) && state.cameraPitch == old(state.cameraPitch)
    ensures state.imuSamples == old(state.imuSamples) && state.imuAverage == old(state.imuAverage)
    ensures k > 0 ==> state.sensorPitch == PitchDegrees(atan2, state.imuAverage)
    ensures k > 0 ==> state.sensorRoll == RollDegrees(atan2, sqrt, state.imuAverage)
    ensures k == 0 ==> state.sensorPitch == old(state.sensorPitch) && state.sensorRoll == old(state.sensorRoll)
  {
    var i := 0;
    while i < k
      invariant 0 <= i <= k
      invariant state.Valid()
      invariant state.cameraYaw == YawAfterTicks(old(state.cameraYaw), state.spinSpeed, i)
      invariant state.spinSpeed == old(state.spinSpeed) && state.cameraPitch == old(state.cameraPitch)
      invariant state.imuSamples == old(state.imuSamples) && state.imuAverage == old(state.imuAverage)
      invariant i > 0 ==> state.sensorPitch == PitchDegrees(atan2, state.imuAverage)
      invariant i > 0 ==> state.sensorRoll == RollDegrees(atan2, sqrt, state.imuAverage)
      invariant i == 0 ==> state.sensorPitch == old(state.sensorPitch) && state.sensorRoll == old(state.sensorRoll)
    {
      state.UpdateScene(atan2, sqrt);
      i := i + 1;
    }
    YawAfterTicksIsLinear(old(state.cameraYaw), state.spinSpeed, k);
  }

  /** One accelerometer sample per tick, in order: the window ends as
      UpdatedWith says, newest first, and the average is over that window. */
  method FeedSamples(state: AppState, vs: seq<Vec3>)
    requires state.Valid()
    modifies state
    ensures state.Valid()
    ensures state.imuSamples == UpdatedWith(old(state.imuSamples), vs)
    ensures forall i :: 0 <= i < |vs| && i < state.imuSampleWindow ==> state.imuSamples[i] == vs[|vs| - 1 - i]
    ensures state.imuAverage == Mean(state.imuSamples)
    ensures state.imuSampleWindow == old(state.imuSampleWindow) && state.spinSpeed == old(state.spinSpeed)
    ensures state.cameraPitch == old(state.cameraPitch) && state.cameraYaw == old(state.cameraYaw)
    ensures state.sensorPitch == old(state.sensorPitch) && state.sensorRoll == old(state.sensorRoll)
  {
    var i := 0;
    while i < |vs|
      invariant 0 <= i <= |vs|
      invariant state.Valid()
      invariant state.imuSamples == UpdatedWith(old(state.imuSamples), vs[..i])
      invariant state.imuSampleWindow == old(state.imuSampleWindow) && state.spinSpeed == old(state.spinSpeed)
      invariant state.cameraPitch == old(state.cameraPitch) && state.cameraYaw == old(state.cameraYaw)
      invariant state.sensorPitch == old(state.sensorPitch) && state.sensorRoll == old(state.sensorRoll)
    {
      UpdatedWithThenOne(old(state.imuSamples), vs[..i], vs[i]);
      assert vs[..i + 1] == vs[..i] + [vs[i]];
      state.UpdateImu(vs[i]);
      i := i + 1;
    }
    assert vs[..i] == vs;
    forall j | 0 <= j < |vs| && j < state.imuSampleWindow
      ensures state.imuSamples[j] == vs[|vs| - 1 - j]
    {
      UpdatedWithHoldsNewestFirst(old(state.imuSamples), vs, j);
    }
  }
}
