/** The open-loop rear-contact burst generator (cpg_control/SineNetwork.py).
    A touchdown of the rear-right foot (contact flag 2) latches a start time;
    from then on each of the four joints plays one period of a sine burst,
    shifted so that it starts from zero, after a per-joint delay, and rests
    at its offset outside the burst. Floats are reals; `sin` is left
    uninterpreted and is a parameter of the network. */
module Sine {
  import opened Wrappers

  /** numpy's `pi` as a float literal. */
  const Pi: real := 3.141592653589793

  const DegToTrn: real := 1.0 / 360.0
  const Amplifier: real := 1.0

  const DefaultAmp: seq<real> := [Amplifier * 180.0 * DegToTrn, 0.0 * DegToTrn, Amplifier * 150.0 * DegToTrn, 0.0 * DegToTrn]
  const DefaultOmega: seq<real> := [2.0 * Pi / 1.2, 2.0 * Pi / 1.0, 2.0 * Pi / 0.8, 2.0 * Pi / 1.0]
  const DefaultTheta: seq<real> := [-Pi / 2.0, 0.0, 0.0, 0.0]
  const DefaultOffset: seq<real> := [0.01, 0.0, 0.01, 0.0]
  const DefaultTOff: seq<real> := [0.0, 0.0, 0.0, 0.0]

  /** The length of one burst: 2π/ω, or infinite (`None`) when ω is 0. */
  function Period(omega: real): (p: Option<real>)
    ensures p.None? <==> omega == 0.0
    ensures p.Some? ==> p.value * omega == 2.0 * Pi
  {
    if omega != 0.0 then Some((2.0 * Pi) / omega) else None
  }

  /** The start-time latch: a rising edge of the rear contact (in contact
      now, not at the previous call) restarts the burst at this timestamp;
      otherwise the start time is kept. */
  function Latch(tStart: Option<real>, previous: bool, contact: bool, timestamp: real): Option<real> {
    if contact && !previous then Some(timestamp) else tStart
  }

  /** The latch applied call after call, the contact flag of each call
      becoming the `previous` flag of the next. */
  function LatchAll(tStart: Option<real>, previous: bool, contacts: seq<bool>, times: seq<real>): Option<real>
    requires |contacts| == |times|
    decreases |contacts|
  {
    if contacts == [] then tStart
    else LatchAll(Latch(tStart, previous, contacts[0], times[0]), contacts[0], contacts[1..], times[1..])
  }

  /** The time of the last rising edge of the contact flags, searched from the
      most recent call back; `first` is the flag before the first call. */
  function LastRise(first: bool, contacts: seq<bool>, times: seq<real>): (r: Option<real>)
    requires |contacts| == |times|
    ensures r.Some? ==> exists k :: 0 <= k < |contacts| && contacts[k] && r.value == times[k]
    ensures r.None? ==> forall k :: 0 < k < |contacts| && contacts[k] ==> contacts[k - 1]
    ensures r.None? && |contacts| > 0 && contacts[0] ==> first
    decreases |contacts|
  {
    if contacts == [] then None
    else
      var n := |contacts| - 1;
      var before := if n == 0 then first else contacts[n - 1];
      if contacts[n] && !before then Some(times[n])
      else LastRise(first, contacts[..n], times[..n])
  }

  /** Whatever happened before, after a run of calls the start time is the
      timestamp of the last rising edge among them; with no rising edge it is
      what it was: holding the foot down never re-latches. */
  lemma {:induction false} LatchTracksLastRise(tStart: Option<real>, previous: bool, contacts: seq<bool>, times: seq<real>)
    requires |contacts| == |times|
    ensures LatchAll(tStart, previous, contacts, times) ==
            (match LastRise(previous, contacts, times) case Some(t) => Some(t) case None => tStart)
    decreases |contacts|
  {
    if contacts != [] {
      var n := |contacts| - 1;
      LatchAllSnoc(tStart, previous, contacts, times);
      LatchTracksLastRise(tStart, previous, contacts[..n], times[..n]);
    }
  }

  /** Unfolding the latch from the most recent call. */
  lemma {:induction false} LatchAllSnoc(tStart: Option<real>, previous: bool, contacts: seq<bool>, times: seq<real>)
    requires |contacts| == |times| && contacts != []
    ensures var n := |contacts| - 1;
      LatchAll(tStart, previous, contacts, times) ==
      Latch(LatchAll(tStart, previous, contacts[..n], times[..n]), if n == 0 then previous else contacts[n - 1],
            contacts[n], times[n])
    decreases |contacts|
  {
    var n := |contacts| - 1;
    if n > 0 {
      var t1 := Latch(tStart, previous, contacts[0], times[0]);
      LatchAllSnoc(t1, contacts[0], contacts[1..], times[1..]);
      assert contacts[1..][..n - 1] == contacts[..n][1..];
      assert times[1..][..n - 1] == times[..n][1..];
    }
  }

  /** The network (class SineNetwork): its parameters, the latched start
      time (`None` until the first touchdown) and the last rear contact flag. */
  class SineNetwork {
    const sin: real -> real
    const amp: seq<real>
    const omega: seq<real>
    const theta: seq<real>
    const offset: seq<real>
    const tOff: seq<real>
    var tStart: Option<real>
    var previousFootContact: bool

    predicate Valid() {
      |amp| >= 4 && |omega| >= 4 && |theta| >= 4 && |offset| >= 4 && |tOff| >= 4
    }

    /** `__init__`: every parameter left out takes its default; nothing is
        latched and the rear foot counts as not in contact. */
    constructor (sin: real -> real, amp: Option<seq<real>>, omega: Option<seq<real>>, theta: Option<seq<real>>,
                 offset: Option<seq<real>>, tOff: Option<seq<real>>)
      requires amp.Some? ==> |amp.value| >= 4
      requires omega.Some? ==> |omega.value| >= 4
      requires theta.Some? ==> |theta.value| >= 4
      requires offset.Some? ==> |offset.value| >= 4
      requires tOff.Some? ==> |tOff.value| >= 4
      ensures Valid()
      ensures this.sin == sin
      ensures this.amp == OrDefault(amp, DefaultAmp) && this.omega == OrDefault(omega, DefaultOmega)
      ensures this.theta == OrDefault(theta, DefaultTheta) && this.offset == OrDefault(offset, DefaultOffset)
      ensures this.tOff == OrDefault(tOff, DefaultTOff)
      ensures tStart == None && !previousFootContact
    {
      this.sin := sin;
      this.amp := OrDefault(amp, DefaultAmp);
      this.omega := OrDefault(omega, DefaultOmega);
      this.theta := OrDefault(theta, DefaultTheta);
      this.offset := OrDefault(offset, DefaultOffset);
      this.tOff := OrDefault(tOff, DefaultTOff);
      tStart := None;
      previousFootContact := false;
    }

    /** The shifted sine of joint i, `sinceDelay` seconds into its burst. */
    function Burst(i: nat, sinceDelay: real): real
      requires Valid() && i < 4
    {
      -amp[i] * sin(omega[i] * sinceDelay + theta[i]) + amp[i] * sin(theta[i])
    }

    /** The command of joint i, `elapsed` seconds after the latch: the offset
        before the delay, the shifted sine plus the offset up to one period
        after it, and the offset again afterwards. */
    function JointAngle(i: nat, elapsed: real): real
      requires Valid() && i < 4
    {
      var period := Period(omega[i]);
      if elapsed < tOff[i] then 0.0 + offset[i]
      else if period.None? || elapsed <= period.value + tOff[i] then
        Burst(i, elapsed - tOff[i]) + offset[i]
      else 0.0 + offset[i]
    }

    /** The commands at `timestamp` for a given start time: all zero (not the
        offsets) before any touchdown, the joint angles afterwards. */
    function Command(start: Option<real>, timestamp: real): (cmd: seq<real>)
      requires Valid()
      ensures |cmd| == 4
      ensures start.None? ==> cmd == [0.0, 0.0, 0.0, 0.0]
      ensures start.Some? ==> forall i :: 0 <= i < 4 ==> cmd[i] == JointAngle(i, timestamp - start.value)
    {
      match start
      case None => [0.0, 0.0, 0.0, 0.0]
      case Some(t0) => seq(4, i requires 0 <= i < 4 => JointAngle(i, timestamp - t0))
    }

    /** `update`: latch on a rising edge of the rear contact, remember the
        flag, then compute the four commands joint by joint. */
    method Update(footContact: seq<bool>, timestamp: real) returns (cmd: seq<real>)
      requires Valid() && |footContact| >= 3
      modifies this
      ensures Valid()
      ensures tStart == Latch(old(tStart), old(previousFootContact), footContact[2], timestamp)
      ensures previousFootContact == footContact[2]
      ensures cmd == Command(tStart, timestamp)
    {
      cmd := [0.0, 0.0, 0.0, 0.0];
      if footContact[2] && !previousFootContact {
        tStart := Some(timestamp);
      }
      previousFootContact := footContact[2];
      if tStart.Some? {
        var t, t0 := timestamp, tStart.value;
        for i := 0 to 4
          invariant |cmd| == 4
          invariant forall j :: 0 <= j < i ==> cmd[j] == JointAngle(j, t - t0)
        {
          var angle: real;
          var period := Period(omega[i]);
          if t - t0 < tOff[i] {
            angle := 0.0;
          } else if period.None? || t - t0 <= period.value + tOff[i] {
            angle := Burst(i, t - t0 - tOff[i]);
          } else {
            angle := 0.0;
          }
          cmd := cmd[i := angle + offset[i]];
        }
      }
    }

    // -------------------------------------------------------------------
    // The shape of a burst
    // -------------------------------------------------------------------

    /** Before its delay has passed a joint rests at its offset. */
    lemma RestsBeforeDelay(i: nat, elapsed: real)
      requires Valid() && i < 4 && elapsed < tOff[i]
      ensures JointAngle(i, elapsed) == offset[i]
    {
    }

    /** The burst starts from the offset: at the end of the delay the two
        sine terms cancel, so the command does not jump. */
    lemma BurstStartsAtOffset(i: nat)
      requires Valid() && i < 4
      ensures JointAngle(i, tOff[i]) == offset[i]
    {
      assert omega[i] * (tOff[i] - tOff[i]) + theta[i] == theta[i];
    }

    /** The burst also ends at the offset: one period after the delay the
        phase has turned by 2π, and a sine with period 2π is back where it
        started. */
    lemma BurstEndsAtOffset(i: nat)
      requires Valid() && i < 4 && omega[i] != 0.0
      requires sin(2.0 * Pi + theta[i]) == sin(theta[i])
      ensures JointAngle(i, Period(omega[i]).value + tOff[i]) == offset[i]
    {
      var p := Period(omega[i]).value;
      assert omega[i] * (p + tOff[i] - tOff[i]) + theta[i] == 2.0 * Pi + theta[i] by {
        assert p + tOff[i] - tOff[i] == p;
        assert omega[i] * p == p * omega[i];
      }
    }

    /** After one full period past the delay the joint rests at its offset
        again: one touchdown produces exactly one burst. */
    lemma RestsAfterBurst(i: nat, elapsed: real)
      requires Valid() && i < 4 && omega[i] != 0.0
      requires elapsed > Period(omega[i]).value + tOff[i]
      ensures JointAngle(i, elapsed) == offset[i]
    {
      var p := Period(omega[i]).value;
      if elapsed < tOff[i] {
      }
    }

    /** A joint with frequency 0 never moves: its period is infinite and the
        shifted sine is constant, so it holds its offset for ever. */
    lemma ZeroFrequencyHoldsOffset(i: nat, elapsed: real)
      requires Valid() && i < 4 && omega[i] == 0.0
      ensures JointAngle(i, elapsed) == offset[i]
    {
      assert omega[i] * (elapsed - tOff[i]) + theta[i] == theta[i];
    }

    /** A joint with amplitude 0 (FL and RL in the defaults) holds its offset
        whatever the time. */
    lemma ZeroAmplitudeHoldsOffset(i: nat, elapsed: real)
      requires Valid() && i < 4 && amp[i] == 0.0
      ensures JointAngle(i, elapsed) == offset[i]
    {
    }
  }

  /** The defaults: the front-left and rear-left joints do not move, and the
      two driven joints rest 0.01 turns off zero. */
  lemma DefaultsDriveFrOnlyAndRr()
    ensures |DefaultAmp| == 4 && DefaultAmp[1] == 0.0 && DefaultAmp[3] == 0.0
    ensures DefaultAmp[0] == 0.5 && DefaultAmp[2] == 150.0 / 360.0
    ensures DefaultOffset[0] == 0.01 && DefaultOffset[2] == 0.01
    ensures forall i :: 0 <= i < 4 ==> DefaultOmega[i] > 0.0 && Period(DefaultOmega[i]).Some?
  {
  }
}
