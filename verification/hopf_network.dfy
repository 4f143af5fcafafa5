/** The Hopf central pattern generator (cpg_control/HopfNetwork.py): four
    coupled oscillators in polar form, amplitude r and phase θ per leg,
    stepped by forward Euler. Only the structure is modelled: the phase
    offset matrices of the gaits, the stance/swing selection of rates and
    amplitudes, the shape of the Euler loop and the wrapping of the phases.
    `sin` is uninterpreted; the convergence of the oscillators is not
    modelled. */
module Hopf {
  import opened Wrappers

  /** numpy's `pi` as a float literal. */
  const Pi: real := 3.141592653589793

  const Zeros: seq<real> := [0.0, 0.0, 0.0, 0.0]

  /** The keyword defaults of `HopfNetwork.__init__`. */
  const DefaultMu: real := 1.0
  const DefaultOmegaSwing: real := 5.0 * 2.0 * Pi
  const DefaultOmegaStance: real := 2.0 * 2.0 * Pi
  const DefaultGait: string := "TROT"
  const DefaultAlpha: real := 50.0
  const DefaultCouplingStrength: real := 1.0
  const DefaultCouple: bool := true
  const DefaultDt: real := 0.001
  /** The default of both the swing and the stance amplitude. */
  const DefaultAmp: real := Pi / 4.0

  /** A 4x4 matrix of phase offsets, row i for the leg whose rate it drives. */
  type Matrix = seq<seq<real>>

  predicate IsMatrix(m: Matrix) {
    |m| == 4 && forall i :: 0 <= i < 4 ==> |m[i]| == 4
  }

  /** The footfall vectors, as fractions of a cycle. */
  const TrotFootfall: seq<real> := [0.5, 0.0, 0.5, 0.0]
  const PaceFootfall: seq<real> := [0.5, 0.0, 0.0, 0.5]
  const BoundFootfall: seq<real> := [0.5, 0.5, 0.0, 0.0]
  const WalkFootfall: seq<real> := [0.5, 0.0, 0.25, 0.75]

  const Gaits: seq<string> := ["TROT", "PACE", "BOUND", "WALK"]

  /** `calculate_PHI`: entry (i, j) is the footfall difference F[i] - F[j]
      turned into radians; entries beyond the footfall vector stay 0. */
  function CalculatePhi(f: seq<real>): (phi: Matrix)
    requires |f| <= 4
    ensures IsMatrix(phi)
    ensures forall i, j :: 0 <= i < |f| && 0 <= j < |f| ==> phi[i][j] == (f[i] - f[j]) * 2.0 * Pi
    ensures forall i, j :: 0 <= i < 4 && 0 <= j < 4 && (i >= |f| || j >= |f|) ==> phi[i][j] == 0.0
  {
    seq(4, i requires 0 <= i < 4 =>
      seq(4, j requires 0 <= j < 4 => if i < |f| && j < |f| then (f[i] - f[j]) * 2.0 * Pi else 0.0))
  }

  /** The offsets of a leg to itself are 0 and the offsets of two legs are
      opposite: PHI is antisymmetric. */
  lemma PhiAntisymmetric(f: seq<real>, i: nat, j: nat)
    requires |f| <= 4 && i < 4 && j < 4
    ensures CalculatePhi(f)[i][i] == 0.0
    ensures CalculatePhi(f)[i][j] == -CalculatePhi(f)[j][i]
  {
  }

  /** The dispatch of `set_gait`: the phase offsets of the four known gaits,
      nothing for any other name. */
  function GaitPhi(gait: string): (phi: Option<Matrix>)
    ensures phi.Some? <==> gait in Gaits
    ensures phi.Some? ==> IsMatrix(phi.value)
  {
    if gait == "TROT" then Some(CalculatePhi(TrotFootfall))
    else if gait == "PACE" then Some(CalculatePhi(PaceFootfall))
    else if gait == "BOUND" then Some(CalculatePhi(BoundFootfall))
    else if gait == "WALK" then Some(CalculatePhi(WalkFootfall))
    else None
  }

  /** The phase relations the gaits encode: in a trot legs 0 and 2 move
      together and half a cycle from legs 1 and 3; in a pace legs 0 and 3
      move together; in a bound legs 0 and 1; the walk spaces the legs a
      quarter cycle apart. */
  lemma GaitPhaseRelations()
    ensures var t := GaitPhi("TROT").value; t[0][2] == 0.0 && t[1][3] == 0.0 && t[0][1] == Pi
    ensures var p := GaitPhi("PACE").value; p[0][3] == 0.0 && p[1][2] == 0.0 && p[0][1] == Pi
    ensures var b := GaitPhi("BOUND").value; b[0][1] == 0.0 && b[2][3] == 0.0 && b[0][2] == Pi
    ensures var w := GaitPhi("WALK").value;
      w[0][2] == 0.5 * Pi && w[2][1] == 0.5 * Pi && w[3][0] == 0.5 * Pi && w[0][1] == Pi
  {
  }

  /** `np.mod(x, 2π)`: the representative of x in [0, 2π). */
  function WrapPhase(x: real): (w: real)
    ensures 0.0 <= w < 2.0 * Pi
  {
    var k := (x / (2.0 * Pi)).Floor;
    assert k as real <= x / (2.0 * Pi) < k as real + 1.0;
    x - 2.0 * Pi * k as real
  }

  /** Wrapping moves a phase by a whole number of turns: `turns` of them. */
  lemma WrapPhaseWholeTurns(x: real) returns (turns: int)
    ensures WrapPhase(x) == x + 2.0 * Pi * turns as real
  {
    turns := -(x / (2.0 * Pi)).Floor;
  }

  /** A phase already in [0, 2π) is left alone. */
  lemma WrapPhaseKeepsPrincipal(x: real)
    requires 0.0 <= x < 2.0 * Pi
    ensures WrapPhase(x) == x
  {
    assert (x / (2.0 * Pi)).Floor == 0;
  }

  /** One explicit Euler step of size h from v at rate d. */
  function Euler(v: real, d: real, h: real): real {
    v + h * d
  }

  /** `v + h * d` on 4-vectors. */
  function EulerStep(v: seq<real>, d: seq<real>, h: real): (w: seq<real>)
    requires |v| == 4 && |d| == 4
    ensures |w| == 4
  {
    seq(4, j requires 0 <= j < 4 => Euler(v[j], d[j], h))
  }

  /** k Euler steps of size h from v, all at the same rate d. */
  function Stepped(v: real, d: real, h: real, k: nat): real {
    if k == 0 then v else Euler(Stepped(v, d, h, k - 1), d, h)
  }

  /** k steps at a fixed rate advance by k times one step. */
  lemma {:induction false} SteppedClosedForm(v: real, d: real, h: real, k: nat)
    ensures Stepped(v, d, h, k) == v + k as real * (h * d)
  {
    if k > 0 {
      SteppedClosedForm(v, d, h, k - 1);
      assert Stepped(v, d, h, k) == v + (k - 1) as real * (h * d) + h * d;
    }
  }

  /** A phase k Euler steps (up to whole turns) from s, stepped once more at
      the same rate and wrapped, is k + 1 steps from s up to whole turns;
      at rate 0 it stays where it was, up to whole turns. */
  lemma WrappedStepTurns(x: real, s: real, rate: real, h: real, k: nat, t: int) returns (turns: int)
    requires x == Stepped(s, rate, h, k) + 2.0 * Pi * t as real
    ensures WrapPhase(Euler(x, rate, h)) == Stepped(s, rate, h, k + 1) + 2.0 * Pi * turns as real
    ensures rate == 0.0 && k == 0 ==> WrapPhase(Euler(x, rate, h)) == s + 2.0 * Pi * turns as real
  {
    var wrapped := WrapPhaseWholeTurns(Euler(x, rate, h));
    turns := t + wrapped;
  }

  /** `np.mod(v, 2π)` on a 4-vector: every entry lands in [0, 2π). */
  function WrapAll(v: seq<real>): (w: seq<real>)
    requires |v| == 4
    ensures |w| == 4
    ensures forall j :: 0 <= j < 4 ==> 0.0 <= w[j] < 2.0 * Pi
  {
    seq(4, j requires 0 <= j < 4 => WrapPhase(v[j]))
  }

  /** The state `integrate_hopf` steps: amplitudes and phases (the rows of
      X) and their rates (the rows of X_dot). */
  datatype Oscillators = Oscillators(r: seq<real>, theta: seq<real>, rDot: seq<real>, thetaDot: seq<real>)

  predicate WellShaped(x: Oscillators) {
    |x.r| == 4 && |x.theta| == 4 && |x.rDot| == 4 && |x.thetaDot| == 4
  }

  /** The network (class HopfNetwork). */
  class HopfNetwork {
    const sin: real -> real
    const mu: real
    const omegaSwing: real
    const omegaStance: real
    const alpha: real
    const couplingStrength: real
    const couple: bool
    const dt: real
    const gait: string
    const desSwing: real
    const desStance: real
    var phiTrot: Matrix
    var phiPace: Matrix
    var phiBound: Matrix
    var phiWalk: Matrix
    var phi: Matrix
    var r: seq<real>
    var theta: seq<real>
    var rDot: seq<real>
    var thetaDot: seq<real>

    ghost predicate Valid()
      reads this
    {
      IsMatrix(phi) && WellShaped(Oscillators(r, theta, rDot, thetaDot))
    }

    /** `__init__`: the parameters, the offsets of the gait, and all
        amplitudes, phases and rates at 0. An argument left out (None) takes
        its keyword default. */
    constructor (sin: real -> real, mu: Option<real>, omegaSwing: Option<real>, omegaStance: Option<real>,
                 gait: Option<string>, alpha: Option<real>, couplingStrength: Option<real>, couple: Option<bool>,
                 dt: Option<real>, ampSwing: Option<real>, ampStance: Option<real>)
      requires OrDefault(gait, DefaultGait) in Gaits
      ensures Valid()
      ensures this.sin == sin && this.mu == OrDefault(mu, DefaultMu)
      ensures this.omegaSwing == OrDefault(omegaSwing, DefaultOmegaSwing)
      ensures this.omegaStance == OrDefault(omegaStance, DefaultOmegaStance)
      ensures this.gait == OrDefault(gait, DefaultGait) && this.alpha == OrDefault(alpha, DefaultAlpha)
      ensures this.couplingStrength == OrDefault(couplingStrength, DefaultCouplingStrength)
      ensures this.couple == OrDefault(couple, DefaultCouple) && this.dt == OrDefault(dt, DefaultDt)
      ensures desSwing == OrDefault(ampSwing, DefaultAmp) && desStance == OrDefault(ampStance, DefaultAmp)
      ensures phi == GaitPhi(this.gait).value
      ensures r == Zeros && theta == Zeros && rDot == Zeros && thetaDot == Zeros
    {
      this.sin := sin;
      this.mu := OrDefault(mu, DefaultMu);
      this.omegaSwing := OrDefault(omegaSwing, DefaultOmegaSwing);
      this.omegaStance := OrDefault(omegaStance, DefaultOmegaStance);
      this.alpha := OrDefault(alpha, DefaultAlpha);
      this.couplingStrength := OrDefault(couplingStrength, DefaultCouplingStrength);
      this.couple := OrDefault(couple, DefaultCouple);
      this.dt := OrDefault(dt, DefaultDt);
      this.gait := OrDefault(gait, DefaultGait);
      desSwing := OrDefault(ampSwing, DefaultAmp);
      desStance := OrDefault(ampStance, DefaultAmp);
      var zero := CalculatePhi([]);
      phiTrot, phiPace, phiBound, phiWalk, phi := zero, zero, zero, zero, zero;
      r, theta, rDot, thetaDot := Zeros, Zeros, Zeros, Zeros;
      new;
      var outcome := SetGait(this.gait);
    }

    /** `set_gait`: the four offset matrices are always rebuilt; a known gait
        selects its matrix, any other name fails with ValueError and leaves
        the selected matrix as it was. */
    method SetGait(gait: string) returns (outcome: Outcome<string>)
      requires Valid()
      modifies this`phiTrot, this`phiPace, this`phiBound, this`phiWalk, this`phi
      ensures Valid()
      ensures phiTrot == CalculatePhi(TrotFootfall) && phiPace == CalculatePhi(PaceFootfall)
      ensures phiBound == CalculatePhi(BoundFootfall) && phiWalk == CalculatePhi(WalkFootfall)
      ensures outcome.Pass? <==> gait in Gaits
      ensures outcome.Pass? ==> phi == GaitPhi(gait).value
      ensures outcome.Fail? ==> phi == old(phi) && outcome.error == gait + " not implemented."
    {
      phiTrot := CalculatePhi(TrotFootfall);
      phiPace := CalculatePhi(PaceFootfall);
      phiBound := CalculatePhi(BoundFootfall);
      phiWalk := CalculatePhi(WalkFootfall);
      if gait == "TROT" {
        phi := phiTrot;
      } else if gait == "PACE" {
        phi := phiPace;
      } else if gait == "BOUND" {
        phi := phiBound;
      } else if gait == "WALK" {
        phi := phiWalk;
      } else {
        return Fail(gait + " not implemented.");
      }
      outcome := Pass;
    }

    /** The coupling sum of the first n legs on a leg of phase th:
        Σ r[j]·sin(θ[j] - th - row[j]). */
    function Coupling(r: seq<real>, theta: seq<real>, th: real, row: seq<real>, n: nat): real
      requires n <= |r| && n <= |theta| && n <= |row|
    {
      if n == 0 then 0.0
      else Coupling(r, theta, th, row, n - 1) + r[n - 1] * sin(theta[n - 1] - th - row[n - 1])
    }

    /** The coupling sum over all legs, as `np.sum` forms it on leg i's
        row of offsets. */
    function CouplingSum(r: seq<real>, theta: seq<real>, th: real, row: seq<real>): real
      requires |r| == |theta| == |row|
    {
      Coupling(r, theta, th, row, |r|)
    }

    /** The coupling added to leg i's phase rate: the coupling strength
        times the coupling sum. */
    function CouplingTerm(r: seq<real>, theta: seq<real>, i: nat, row: seq<real>): real
      requires |r| == |theta| == |row| && i < |theta|
    {
      couplingStrength * CouplingSum(r, theta, theta[i], row)
    }

    /** With every amplitude 0 there is nothing to couple to. */
    lemma {:induction false} CouplingVanishesAtRest(r: seq<real>, theta: seq<real>, th: real, row: seq<real>, n: nat)
      requires n <= |r| && n <= |theta| && n <= |row|
      requires forall j :: 0 <= j < n ==> r[j] == 0.0
      ensures Coupling(r, theta, th, row, n) == 0.0
    {
      if n > 0 {
        CouplingVanishesAtRest(r, theta, th, row, n - 1);
      }
    }

    /** The Hopf amplitude rate α(μ - r²)r. */
    function AmplitudeRate(x: real): real {
      alpha * (mu - x * x) * x
    }

    /** The base phase rate: the stance frequency in contact, the swing
        frequency otherwise. */
    function BaseRate(inContact: bool): real {
      if inContact then omegaStance else omegaSwing
    }

    /** The phase rate of leg i: the base rate, plus the coupling sum only
        when the network is coupled. */
    function PhaseRate(inContact: bool, x: Oscillators, row: seq<real>, i: nat): (rate: real)
      requires WellShaped(x) && |row| == 4 && i < 4
      ensures !couple ==> rate == BaseRate(inContact)
      ensures couple ==> rate == BaseRate(inContact) + CouplingTerm(x.r, x.theta, i, row)
    {
      var base := BaseRate(inContact);
      if couple then base + CouplingTerm(x.r, x.theta, i, row) else base
    }

    /** One pass of the leg loop of `integrate_hopf` for leg i: the rates of
        leg i go into X_dot, then the whole state takes an Euler step with
        the X_dot filled so far and every phase is wrapped into [0, 2π). */
    function LegPass(contact: seq<bool>, phi: Matrix, x: Oscillators, i: nat): (y: Oscillators)
      requires |contact| >= 4 && IsMatrix(phi) && WellShaped(x) && i < 4
      ensures WellShaped(y)
      ensures forall j :: 0 <= j < 4 ==> 0.0 <= y.theta[j] < 2.0 * Pi
    {
      var rDot := x.rDot[i := AmplitudeRate(x.r[i])];
      var thetaDot := x.thetaDot[i := PhaseRate(contact[i], x, phi[i], i)];
      Oscillators(EulerStep(x.r, rDot, dt), WrapAll(EulerStep(x.theta, thetaDot, dt)), rDot, thetaDot)
    }

    /** The first n passes of the leg loop. */
    function Passes(contact: seq<bool>, phi: Matrix, x: Oscillators, n: nat): (y: Oscillators)
      requires |contact| >= 4 && IsMatrix(phi) && WellShaped(x) && n <= 4
      ensures WellShaped(y)
      ensures n > 0 ==> forall j :: 0 <= j < 4 ==> 0.0 <= y.theta[j] < 2.0 * Pi
    {
      if n == 0 then x else LegPass(contact, phi, Passes(contact, phi, x, n - 1), n - 1)
    }

    /** `integrate_hopf` from amplitudes r and phases θ: X_dot starts from
        zeros and the loop runs over all four legs. */
    function Integrated(contact: seq<bool>, phi: Matrix, r: seq<real>, theta: seq<real>): (y: Oscillators)
      requires |contact| >= 4 && IsMatrix(phi) && |r| == 4 && |theta| == 4
      ensures WellShaped(y)
      ensures forall j :: 0 <= j < 4 ==> 0.0 <= y.theta[j] < 2.0 * Pi
    {
      Passes(contact, phi, Oscillators(r, theta, Zeros, Zeros), 4)
    }

    /** `integrate_hopf`, in place on the state of the network. */
    method IntegrateHopf(footContact: seq<bool>)
      requires Valid() && |footContact| >= 4
      modifies this`r, this`theta, this`rDot, this`thetaDot
      ensures Valid()
      ensures Oscillators(r, theta, rDot, thetaDot) == Integrated(footContact, phi, old(r), old(theta))
    {
      ghost var x0 := Oscillators(r, theta, Zeros, Zeros);
      var xDotR, xDotTheta := Zeros, Zeros;
      for i := 0 to 4
        invariant Valid() && |xDotR| == 4 && |xDotTheta| == 4
        invariant Oscillators(r, theta, xDotR, xDotTheta) == Passes(footContact, phi, x0, i)
        invariant i > 0 ==> rDot == xDotR && thetaDot == xDotTheta
      {
        ghost var before := Oscillators(r, theta, xDotR, xDotTheta);
        var ri := r[i];
        var rate := alpha * (mu - ri * ri) * ri;
        assert rate == AmplitudeRate(before.r[i]);
        var phaseRate: real;
        if footContact[i] {
          phaseRate := omegaStance;
        } else {
          phaseRate := omegaSwing;
        }
        if couple {
          phaseRate := phaseRate + CouplingTerm(r, theta, i, phi[i]);
        }
        assert phaseRate == PhaseRate(footContact[i], before, phi[i], i);
        xDotR, xDotTheta := xDotR[i := rate], xDotTheta[i := phaseRate];
        r, theta := EulerStep(r, xDotR, dt), EulerStep(theta, xDotTheta, dt);
        rDot, thetaDot := xDotR, xDotTheta;
        theta := WrapAll(theta);
        assert Passes(footContact, phi, x0, i + 1) == LegPass(footContact, phi, before, i);
      }
    }

    /** The command of one leg: its output amplitude times sin θ. */
    function LegDrive(amp: real, th: real): real {
      amp * sin(th)
    }

    /** The commands `update` returns: the stance amplitude for a leg in
        contact and the swing amplitude otherwise, times the sine of its
        phase; the oscillator amplitude r plays no part. */
    function Drive(contact: seq<bool>, theta: seq<real>): (cmd: seq<real>)
      requires |contact| >= 4 && |theta| == 4
      ensures |cmd| == 4
      ensures forall i :: 0 <= i < 4 && contact[i] ==> cmd[i] == desStance * sin(theta[i])
      ensures forall i :: 0 <= i < 4 && !contact[i] ==> cmd[i] == desSwing * sin(theta[i])
    {
      seq(4, i requires 0 <= i < 4 => LegDrive(if contact[i] then desStance else desSwing, theta[i]))
    }

    /** With equal swing and stance amplitudes (the defaults, π/4 each) the
        commands do not depend on contact at all. */
    lemma DriveIgnoresContactForEqualAmplitudes(c1: seq<bool>, c2: seq<bool>, theta: seq<real>)
      requires desSwing == desStance && |c1| >= 4 && |c2| >= 4 && |theta| == 4
      ensures Drive(c1, theta) == Drive(c2, theta)
    {
    }

    /** `update`: integrate, then command every leg. */
    method Update(footContact: seq<bool>) returns (cmd: seq<real>)
      requires Valid() && |footContact| >= 4
      modifies this`r, this`theta, this`rDot, this`thetaDot
      ensures Valid()
      ensures Oscillators(r, theta, rDot, thetaDot) == Integrated(footContact, phi, old(r), old(theta))
      ensures cmd == Drive(footContact, theta)
    {
      IntegrateHopf(footContact);
      cmd := Zeros;
      for i := 0 to 4
        invariant |cmd| == 4
        invariant forall j :: 0 <= j < i ==> cmd[j] == Drive(footContact, theta)[j]
      {
        if footContact[i] == true {
          cmd := cmd[i := LegDrive(desStance, theta[i])];
        } else {
          cmd := cmd[i := LegDrive(desSwing, theta[i])];
        }
      }
    }

    /** `get_r`: the amplitudes. */
    function GetR(): (v: seq<real>)
      reads this
      requires Valid()
      ensures |v| == 4 && v == r
    {
      r
    }

    /** `get_theta`: the phases. */
    function GetTheta(): (v: seq<real>)
      reads this
      requires Valid()
      ensures |v| == 4 && v == theta
    {
      theta
    }

    /** `get_r_dot`: the amplitude rates of the last integration. */
    function GetRDot(): (v: seq<real>)
      reads this
      requires Valid()
      ensures |v| == 4 && v == rDot
    {
      rDot
    }

    /** `get_theta_dot`: the phase rates of the last integration. */
    function GetThetaDot(): (v: seq<real>)
      reads this
      requires Valid()
      ensures |v| == 4 && v == thetaDot
    {
      thetaDot
    }

    // -------------------------------------------------------------------
    // What the Euler loop does
    // -------------------------------------------------------------------

    /** What one pass changes: the rates of leg i are set, the other rates
        are kept, and every amplitude takes one Euler step with the rates so
        far. */
    lemma LegPassSteps(contact: seq<bool>, phi: Matrix, x: Oscillators, i: nat)
      requires |contact| >= 4 && IsMatrix(phi) && WellShaped(x) && i < 4
      ensures var y := LegPass(contact, phi, x, i);
        && y.rDot == x.rDot[i := AmplitudeRate(x.r[i])]
        && y.thetaDot == x.thetaDot[i := PhaseRate(contact[i], x, phi[i], i)]
        && (forall j :: 0 <= j < 4 ==> y.r[j] == x.r[j] + dt * y.rDot[j])
        && (forall j :: 0 <= j < 4 ==> y.theta[j] == WrapPhase(x.theta[j] + dt * y.thetaDot[j]))
    {
    }

    /** What one pass does to leg j: its rate is set from its amplitude when
        j is the leg of the pass and kept otherwise, and its amplitude takes
        one Euler step with that rate. */
    lemma LegPassAmplitude(contact: seq<bool>, phi: Matrix, x: Oscillators, i: nat, j: nat)
      requires |contact| >= 4 && IsMatrix(phi) && WellShaped(x) && i < 4 && j < 4
      ensures LegPass(contact, phi, x, i).rDot[j] == if j == i then AmplitudeRate(x.r[i]) else x.rDot[j]
      ensures LegPass(contact, phi, x, i).r[j] == Euler(x.r[j], LegPass(contact, phi, x, i).rDot[j], dt)
    {
    }

    /** Leg j after n passes: once reached (j < n) its rate was set at pass j
        from its untouched amplitude and it has been stepped n - j times
        with it; before that it is untouched, with rate 0. */
    lemma {:induction false} PassesAmplitude(contact: seq<bool>, phi: Matrix, r0: seq<real>, theta0: seq<real>, n: nat, j: nat)
      requires |contact| >= 4 && IsMatrix(phi) && |r0| == 4 && |theta0| == 4 && n <= 4 && j < 4
      ensures j < n ==> Passes(contact, phi, Oscillators(r0, theta0, Zeros, Zeros), n).rDot[j] == AmplitudeRate(r0[j])
      ensures j < n ==>
        Passes(contact, phi, Oscillators(r0, theta0, Zeros, Zeros), n).r[j] == Stepped(r0[j], AmplitudeRate(r0[j]), dt, n - j)
      ensures n <= j ==> Passes(contact, phi, Oscillators(r0, theta0, Zeros, Zeros), n).rDot[j] == 0.0
      ensures n <= j ==> Passes(contact, phi, Oscillators(r0, theta0, Zeros, Zeros), n).r[j] == r0[j]
    {
      if n > 0 {
        PassesAmplitude(contact, phi, r0, theta0, n - 1, j);
        var x := Passes(contact, phi, Oscillators(r0, theta0, Zeros, Zeros), n - 1);
        LegPassAmplitude(contact, phi, x, n - 1, j);
        if j == n - 1 {
          assert Stepped(r0[j], AmplitudeRate(r0[j]), dt, n - j) == Euler(r0[j], AmplitudeRate(r0[j]), dt);
        }
      }
    }

    /** Because the Euler step sits inside the leg loop, one call to
        `integrate_hopf` steps the amplitude of leg j 4 - j times, always
        with the rate taken from its amplitude before the call. */
    lemma AmplitudeSteppedFourMinusJTimes(contact: seq<bool>, phi: Matrix, r0: seq<real>, theta0: seq<real>, j: nat)
      requires |contact| >= 4 && IsMatrix(phi) && |r0| == 4 && |theta0| == 4 && j < 4
      ensures Integrated(contact, phi, r0, theta0).r[j] == r0[j] + (4 - j) as real * (dt * AmplitudeRate(r0[j]))
      ensures Integrated(contact, phi, r0, theta0).rDot[j] == AmplitudeRate(r0[j])
    {
      var y := Integrated(contact, phi, r0, theta0);
      assert y == Passes(contact, phi, Oscillators(r0, theta0, Zeros, Zeros), 4);
      var rate := AmplitudeRate(r0[j]);
      assert y.rDot[j] == rate && y.r[j] == Stepped(r0[j], rate, dt, 4 - j) by {
        PassesAmplitude(contact, phi, r0, theta0, 4, j);
      }
      SteppedClosedForm(r0[j], rate, dt, 4 - j);
    }

    /** What one pass does to the phase rate of leg j: it is set from the
        state so far when j is the leg of the pass and kept otherwise. */
    lemma LegPassPhaseRate(contact: seq<bool>, phi: Matrix, x: Oscillators, i: nat, j: nat)
      requires |contact| >= 4 && IsMatrix(phi) && WellShaped(x) && i < 4 && j < 4
      ensures LegPass(contact, phi, x, i).thetaDot[j] == if j == i then PhaseRate(contact[i], x, phi[i], i) else x.thetaDot[j]
    {
    }

    /** What one pass does to the phase of leg j: one Euler step with the
        rate the pass leaves for it, then wrapping. */
    lemma LegPassPhase(contact: seq<bool>, phi: Matrix, x: Oscillators, i: nat, j: nat)
      requires |contact| >= 4 && IsMatrix(phi) && WellShaped(x) && i < 4 && j < 4
      ensures LegPass(contact, phi, x, i).theta[j] == WrapPhase(Euler(x.theta[j], LegPass(contact, phi, x, i).thetaDot[j], dt))
    {
    }

    /** Phase j after n passes: once reached (j < n) its rate was set at
        pass j from the state the first j passes left, and the phase is
        `turns` whole turns away from n - j Euler steps at that rate; before
        that its rate is 0 and it is `turns` whole turns from where it
        started. */
    lemma {:induction false} PassesPhase(contact: seq<bool>, phi: Matrix, r0: seq<real>, theta0: seq<real>, n: nat, j: nat)
      returns (turns: int)
      requires |contact| >= 4 && IsMatrix(phi) && |r0| == 4 && |theta0| == 4 && n <= 4 && j < 4
      ensures var x0 := Oscillators(r0, theta0, Zeros, Zeros);
        j < n ==> Passes(contact, phi, x0, n).thetaDot[j] == PhaseRate(contact[j], Passes(contact, phi, x0, j), phi[j], j)
      ensures var x0 := Oscillators(r0, theta0, Zeros, Zeros);
        j < n ==> Passes(contact, phi, x0, n).theta[j]
                  == Stepped(theta0[j], Passes(contact, phi, x0, n).thetaDot[j], dt, n - j) + 2.0 * Pi * turns as real
      ensures var x0 := Oscillators(r0, theta0, Zeros, Zeros);
        n <= j ==> Passes(contact, phi, x0, n).thetaDot[j] == 0.0
      ensures var x0 := Oscillators(r0, theta0, Zeros, Zeros);
        n <= j ==> Passes(contact, phi, x0, n).theta[j] == theta0[j] + 2.0 * Pi * turns as real
    {
      var x0 := Oscillators(r0, theta0, Zeros, Zeros);
      if n == 0 {
        turns := 0;
      } else {
        var before := PassesPhase(contact, phi, r0, theta0, n - 1, j);
        var x := Passes(contact, phi, x0, n - 1);
        var y := Passes(contact, phi, x0, n);
        assert y == LegPass(contact, phi, x, n - 1);
        LegPassPhaseRate(contact, phi, x, n - 1, j);
        LegPassPhase(contact, phi, x, n - 1, j);
        var rate := y.thetaDot[j];
        if j < n {
          var k := if j < n - 1 then n - 1 - j else 0;
          assert x.theta[j] == Stepped(theta0[j], rate, dt, k) + 2.0 * Pi * before as real;
          turns := WrappedStepTurns(x.theta[j], theta0[j], rate, dt, k, before);
          assert k + 1 == n - j;
        } else {
          assert rate == 0.0;
          turns := WrappedStepTurns(x.theta[j], theta0[j], rate, dt, 0, before);
        }
      }
    }

    /** Because the Euler step sits inside the leg loop, one call to
        `integrate_hopf` takes 4 - j Euler steps of the phase of leg j at the
        rate it recorded for that leg (by SteppedClosedForm an advance of
        (4 - j)·dt·rate), up to `turns` whole turns. */
    lemma PhaseSteppedFourMinusJTimes(contact: seq<bool>, phi: Matrix, r0: seq<real>, theta0: seq<real>, j: nat)
      returns (turns: int)
      requires |contact| >= 4 && IsMatrix(phi) && |r0| == 4 && |theta0| == 4 && j < 4
      ensures var y := Integrated(contact, phi, r0, theta0);
        y.theta[j] == Stepped(theta0[j], y.thetaDot[j], dt, 4 - j) + 2.0 * Pi * turns as real
    {
      assert Integrated(contact, phi, r0, theta0) == Passes(contact, phi, Oscillators(r0, theta0, Zeros, Zeros), 4);
      turns := PassesPhase(contact, phi, r0, theta0, 4, j);
    }

    /** Without coupling the phase of leg j takes, per call and up to
        `turns` whole turns, 4 - j Euler steps at its bare stance or swing
        frequency. */
    lemma UncoupledPhaseAdvance(contact: seq<bool>, phi: Matrix, r0: seq<real>, theta0: seq<real>, j: nat)
      returns (turns: int)
      requires !couple && |contact| >= 4 && IsMatrix(phi) && |r0| == 4 && |theta0| == 4 && j < 4
      ensures Integrated(contact, phi, r0, theta0).theta[j]
              == Stepped(theta0[j], BaseRate(contact[j]), dt, 4 - j) + 2.0 * Pi * turns as real
    {
      turns := PhaseSteppedFourMinusJTimes(contact, phi, r0, theta0, j);
      UncoupledPhaseRates(contact, phi, r0, theta0);
    }

    /** r = 0 is a fixed point of the amplitude dynamics: from all
        amplitudes 0 (the state `__init__` leaves) they stay 0, the coupling
        sum is 0, and every phase rate is the bare stance or swing
        frequency, coupled or not. */
    lemma RestIsFixedPoint(contact: seq<bool>, phi: Matrix, theta0: seq<real>)
      requires |contact| >= 4 && IsMatrix(phi) && |theta0| == 4
      ensures var y := Integrated(contact, phi, Zeros, theta0);
        && y.r == Zeros && y.rDot == Zeros
        && forall j :: 0 <= j < 4 ==> y.thetaDot[j] == BaseRate(contact[j])
    {
      PassesAtRest(contact, phi, theta0, 4);
    }

    /** The induction behind RestIsFixedPoint: after n passes from rest the
        amplitudes and their rates are 0 and legs already passed run at their
        base rate. */
    lemma {:induction false} PassesAtRest(contact: seq<bool>, phi: Matrix, theta0: seq<real>, n: nat)
      requires |contact| >= 4 && IsMatrix(phi) && |theta0| == 4 && n <= 4
      ensures var y := Passes(contact, phi, Oscillators(Zeros, theta0, Zeros, Zeros), n);
        && y.r == Zeros && y.rDot == Zeros
        && forall j :: 0 <= j < 4 ==> y.thetaDot[j] == if j < n then BaseRate(contact[j]) else 0.0
    {
      if n > 0 {
        PassesAtRest(contact, phi, theta0, n - 1);
        var x := Passes(contact, phi, Oscillators(Zeros, theta0, Zeros, Zeros), n - 1);
        CouplingVanishesAtRest(x.r, x.theta, x.theta[n - 1], phi[n - 1], |x.r|);
        var y := LegPass(contact, phi, x, n - 1);
        assert y == Passes(contact, phi, Oscillators(Zeros, theta0, Zeros, Zeros), n);
        assert AmplitudeRate(0.0) == 0.0;
        forall j | 0 <= j < 4
          ensures y.rDot[j] == 0.0 && y.r[j] == 0.0
          ensures y.thetaDot[j] == if j < n then BaseRate(contact[j]) else 0.0
        {
          assert y.rDot[j] == 0.0 && y.r[j] == 0.0 by {
            LegPassAmplitude(contact, phi, x, n - 1, j);
          }
          assert y.thetaDot[j] == if j < n then BaseRate(contact[j]) else 0.0 by {
            LegPassPhaseRate(contact, phi, x, n - 1, j);
          }
        }
        assert y.rDot == Zeros;
        assert y.r == Zeros;
      }
    }

    /** Without coupling every phase rate of a call is the bare stance or
        swing frequency of its leg. */
    lemma UncoupledPhaseRates(contact: seq<bool>, phi: Matrix, r0: seq<real>, theta0: seq<real>)
      requires !couple && |contact| >= 4 && IsMatrix(phi) && |r0| == 4 && |theta0| == 4
      ensures forall j :: 0 <= j < 4 ==> Integrated(contact, phi, r0, theta0).thetaDot[j] == BaseRate(contact[j])
    {
      UncoupledPasses(contact, phi, r0, theta0, 4);
    }

    lemma {:induction false} UncoupledPasses(contact: seq<bool>, phi: Matrix, r0: seq<real>, theta0: seq<real>, n: nat)
      requires !couple && |contact| >= 4 && IsMatrix(phi) && |r0| == 4 && |theta0| == 4 && n <= 4
      ensures forall j :: 0 <= j < 4 ==>
        Passes(contact, phi, Oscillators(r0, theta0, Zeros, Zeros), n).thetaDot[j] == if j < n then BaseRate(contact[j]) else 0.0
    {
      if n > 0 {
        UncoupledPasses(contact, phi, r0, theta0, n - 1);
      }
    }
  }

  /** The defaults of `__init__` make a valid network: the default gait,
      TROT, is a known gait. */
  lemma DefaultGaitKnown()
    ensures DefaultGait in Gaits && GaitPhi(DefaultGait).Some?
  {
  }
}
