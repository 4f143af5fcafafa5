/** The per-tick reflex controller of the PAWS leg pair (cpg_control/PAWS.py).
    Four actuators, indexed 0..3 in the order FR, FL, RR, RL and addressed on
    the bus by controller ids 1..4. Each tick the controller turns the analog
    foot readings of the previous tick into contact flags, looks the contact
    pattern up in a synergy table, applies the zero-position sentinel and the
    recovery override, commands every listed actuator and stores the
    telemetry it returns. Positions, torques and readings are reals. */
module Reflex {
  import opened Wrappers

  const NumControllers: nat := 4

  /** Per-leg analog thresholds (FR, FL, RR, RL): a foot is in contact when
      its reading is strictly above its threshold. */
  const FootContactThr: seq<real> := [104.0, 104.0, 102.2, 104.0]

  /** The modes that select a synergy table. "PASSIVE" is not one of them. */
  const LutModes: seq<string> := ["AMPLIFY", "AMPLIFY_FROM_DATA", "AMPLIFY_SPEED", "AMPLIFY_CUSTOM", "JUMP", "CUSTOM"]

  /** A row of commanded positions (FR, FL, RR, RL). */
  type Row = seq<real>

  /** A synergy table: one row per 4-bit contact pattern. */
  type Table = seq<Row>

  predicate IsTable(t: Table) {
    |t| == 16 && forall k :: 0 <= k < 16 ==> |t[k]| == 4
  }

  /** Only the entries a reflex table is allowed to drive: rows 2 (RR alone),
      8 (FR alone) and 10 (FR and RR), columns FR and RR. */
  predicate OnlyReflexEntries(t: Table)
    requires IsTable(t)
  {
    forall k, j :: 0 <= k < 16 && 0 <= j < 4 && t[k][j] != 0.0 ==> (k == 2 || k == 8 || k == 10) && (j == 0 || j == 2)
  }

  const ZeroRow: Row := [0.0, 0.0, 0.0, 0.0]

  /** The all-zero table that `__init__` installs before `set_LUT`. */
  function ZeroTable(): (t: Table)
    ensures IsTable(t) && OnlyReflexEntries(t)
    ensures forall k :: 0 <= k < 16 ==> t[k] == ZeroRow
  {
    seq(16, _ => ZeroRow)
  }

  // ---------------------------------------------------------------------
  // The six literal synergy tables. Rows are contact patterns FR FL RR RL
  // read as a binary number; columns are commanded positions FR FL RR RL.
  // ---------------------------------------------------------------------

  function AmplifyTable(): Table {
    [ [ 0.0, 0.0,  0.0, 0.0],   // 0 0 0 0
      [ 0.0, 0.0,  0.0, 0.0],   // 0 0 0 1
      [-1.0, 0.0, -1.0, 0.0],   // 0 0 1 0
      [ 0.0, 0.0,  0.0, 0.0],   // 0 0 1 1
      [ 0.0, 0.0,  0.0, 0.0],   // 0 1 0 0
      [ 0.0, 0.0,  0.0, 0.0],   // 0 1 0 1
      [ 0.0, 0.0,  0.0, 0.0],   // 0 1 1 0
      [ 0.0, 0.0,  0.0, 0.0],   // 0 1 1 1
      [ 1.0, 0.0,  1.0, 0.0],   // 1 0 0 0
      [ 0.0, 0.0,  0.0, 0.0],   // 1 0 0 1
      [ 0.0, 0.0,  1.0, 0.0],   // 1 0 1 0
      [ 0.0, 0.0,  0.0, 0.0],   // 1 0 1 1
      [ 0.0, 0.0,  0.0, 0.0],   // 1 1 0 0
      [ 0.0, 0.0,  0.0, 0.0],   // 1 1 0 1
      [ 0.0, 0.0,  0.0, 0.0],   // 1 1 1 0
      [ 0.0, 0.0,  0.0, 0.0] ]  // 1 1 1 1
  }

  function AmplifyFromDataTable(): Table {
    [ [ 0.0, 0.0,  0.0, 0.0],   // 0 0 0 0
      [ 0.0, 0.0,  0.0, 0.0],   // 0 0 0 1
      [ 0.0, 0.0, -1.0, 0.0],   // 0 0 1 0
      [ 0.0, 0.0,  0.0, 0.0],   // 0 0 1 1
      [ 0.0, 0.0,  0.0, 0.0],   // 0 1 0 0
      [ 0.0, 0.0,  0.0, 0.0],   // 0 1 0 1
      [ 0.0, 0.0,  0.0, 0.0],   // 0 1 1 0
      [ 0.0, 0.0,  0.0, 0.0],   // 0 1 1 1
      [ 1.0, 0.0,  1.0, 0.0],   // 1 0 0 0
      [ 0.0, 0.0,  0.0, 0.0],   // 1 0 0 1
      [ 1.0, 0.0,  0.0, 0.0],   // 1 0 1 0
      [ 0.0, 0.0,  0.0, 0.0],   // 1 0 1 1
      [ 0.0, 0.0,  0.0, 0.0],   // 1 1 0 0
      [ 0.0, 0.0,  0.0, 0.0],   // 1 1 0 1
      [ 0.0, 0.0,  0.0, 0.0],   // 1 1 1 0
      [ 0.0, 0.0,  0.0, 0.0] ]  // 1 1 1 1
  }

  /** The calibrated fractions 0.5 and 0.9 set how stiff the rear foot is
      while the front foot is loaded. */
  function AmplifySpeedTable(): Table {
    [ [ 0.0, 0.0,  0.0, 0.0],   // 0 0 0 0
      [ 0.0, 0.0,  0.0, 0.0],   // 0 0 0 1
      [ 0.0, 0.0, -1.0, 0.0],   // 0 0 1 0
      [ 0.0, 0.0,  0.0, 0.0],   // 0 0 1 1
      [ 0.0, 0.0,  0.0, 0.0],   // 0 1 0 0
      [ 0.0, 0.0,  0.0, 0.0],   // 0 1 0 1
      [ 0.0, 0.0,  0.0, 0.0],   // 0 1 1 0
      [ 0.0, 0.0,  0.0, 0.0],   // 0 1 1 1
      [ 1.0, 0.0,  0.5, 0.0],   // 1 0 0 0
      [ 0.0, 0.0,  0.0, 0.0],   // 1 0 0 1
      [ 1.0, 0.0,  0.9, 0.0],   // 1 0 1 0
      [ 0.0, 0.0,  0.0, 0.0],   // 1 0 1 1
      [ 0.0, 0.0,  0.0, 0.0],   // 1 1 0 0
      [ 0.0, 0.0,  0.0, 0.0],   // 1 1 0 1
      [ 0.0, 0.0,  0.0, 0.0],   // 1 1 1 0
      [ 0.0, 0.0,  0.0, 0.0] ]  // 1 1 1 1
  }

  function AmplifyCustomTable(): Table {
    [ [ 0.0, 0.0,  0.0, 0.0],   // 0 0 0 0
      [ 0.0, 0.0,  0.0, 0.0],   // 0 0 0 1
      [ 1.0, 0.0, -1.0, 0.0],   // 0 0 1 0
      [ 0.0, 0.0,  0.0, 0.0],   // 0 0 1 1
      [ 0.0, 0.0,  0.0, 0.0],   // 0 1 0 0
      [ 0.0, 0.0,  0.0, 0.0],   // 0 1 0 1
      [ 0.0, 0.0,  0.0, 0.0],   // 0 1 1 0
      [ 0.0, 0.0,  0.0, 0.0],   // 0 1 1 1
      [-1.0, 0.0,  0.0, 0.0],   // 1 0 0 0
      [ 0.0, 0.0,  0.0, 0.0],   // 1 0 0 1
      [ 1.0, 0.0, -1.0, 0.0],   // 1 0 1 0
      [ 0.0, 0.0,  0.0, 0.0],   // 1 0 1 1
      [ 0.0, 0.0,  0.0, 0.0],   // 1 1 0 0
      [ 0.0, 0.0,  0.0, 0.0],   // 1 1 0 1
      [ 0.0, 0.0,  0.0, 0.0],   // 1 1 1 0
      [ 0.0, 0.0,  0.0, 0.0] ]  // 1 1 1 1
  }

  function JumpTable(): Table {
    [ [ 0.0, 0.0,  0.0, 0.0],   // 0 0 0 0
      [ 0.0, 0.0,  0.0, 0.0],   // 0 0 0 1
      [-1.0, 0.0, -1.0, 0.0],   // 0 0 1 0
      [ 0.0, 0.0,  0.0, 0.0],   // 0 0 1 1
      [ 0.0, 0.0,  0.0, 0.0],   // 0 1 0 0
      [ 0.0, 0.0,  0.0, 0.0],   // 0 1 0 1
      [ 0.0, 0.0,  0.0, 0.0],   // 0 1 1 0
      [ 0.0, 0.0,  0.0, 0.0],   // 0 1 1 1
      [ 1.0, 0.0,  0.0, 0.0],   // 1 0 0 0
      [ 0.0, 0.0,  0.0, 0.0],   // 1 0 0 1
      [ 0.0, 0.0, -1.0, 0.0],   // 1 0 1 0
      [ 0.0, 0.0,  0.0, 0.0],   // 1 0 1 1
      [ 0.0, 0.0,  0.0, 0.0],   // 1 1 0 0
      [ 0.0, 0.0,  0.0, 0.0],   // 1 1 0 1
      [ 0.0, 0.0,  0.0, 0.0],   // 1 1 1 0
      [ 0.0, 0.0,  0.0, 0.0] ]  // 1 1 1 1
  }

  function CustomTable(): Table {
    [ [ 0.0, 0.0,  0.0, 0.0],   // 0 0 0 0
      [ 0.0, 0.0,  0.0, 0.0],   // 0 0 0 1
      [-1.0, 0.0, -1.0, 0.0],   // 0 0 1 0
      [ 0.0, 0.0,  0.0, 0.0],   // 0 0 1 1
      [ 0.0, 0.0,  0.0, 0.0],   // 0 1 0 0
      [ 0.0, 0.0,  0.0, 0.0],   // 0 1 0 1
      [ 0.0, 0.0,  0.0, 0.0],   // 0 1 1 0
      [ 0.0, 0.0,  0.0, 0.0],   // 0 1 1 1
      [-1.0, 0.0, -1.0, 0.0],   // 1 0 0 0
      [ 0.0, 0.0,  0.0, 0.0],   // 1 0 0 1
      [ 0.0, 0.0, -1.0, 0.0],   // 1 0 1 0
      [ 0.0, 0.0,  0.0, 0.0],   // 1 0 1 1
      [ 0.0, 0.0,  0.0, 0.0],   // 1 1 0 0
      [ 0.0, 0.0,  0.0, 0.0],   // 1 1 0 1
      [ 0.0, 0.0,  0.0, 0.0],   // 1 1 1 0
      [ 0.0, 0.0,  0.0, 0.0] ]  // 1 1 1 1
  }

  /** Row k of a reflex table: in rows 2, 8 and 10 only the FR and RR
      entries may be nonzero; every other row is all zeros. */
  predicate ReflexRow(k: int, row: Row) {
    |row| == 4 && if k == 2 || k == 8 || k == 10 then row[1] == 0.0 && row[3] == 0.0 else row == ZeroRow
  }

  /** A table of 16 reflex rows drives only the reflex entries. */
  lemma ReflexRowsSuffice(t: Table)
    requires |t| == 16 && forall k :: 0 <= k < 16 ==> ReflexRow(k, t[k])
    ensures IsTable(t) && OnlyReflexEntries(t)
  {
    forall k, j | 0 <= k < 16 && 0 <= j < 4 && t[k][j] != 0.0
      ensures (k == 2 || k == 8 || k == 10) && (j == 0 || j == 2)
    {
      assert ReflexRow(k, t[k]);
    }
  }

  /** Row by row, a literal table is made of reflex rows. */
  lemma LiteralReflexRows(t: Table)
    requires |t| == 16
    requires ReflexRow(0, t[0]) && ReflexRow(1, t[1]) && ReflexRow(2, t[2]) && ReflexRow(3, t[3])
    requires ReflexRow(4, t[4]) && ReflexRow(5, t[5]) && ReflexRow(6, t[6]) && ReflexRow(7, t[7])
    requires ReflexRow(8, t[8]) && ReflexRow(9, t[9]) && ReflexRow(10, t[10]) && ReflexRow(11, t[11])
    requires ReflexRow(12, t[12]) && ReflexRow(13, t[13]) && ReflexRow(14, t[14]) && ReflexRow(15, t[15])
    ensures IsTable(t) && OnlyReflexEntries(t)
  {
    forall k | 0 <= k < 16 ensures ReflexRow(k, t[k]) {
      if k < 8 {
        if k < 4 { assert k == 0 || k == 1 || k == 2 || k == 3; }
        else { assert k == 4 || k == 5 || k == 6 || k == 7; }
      } else {
        if k < 12 { assert k == 8 || k == 9 || k == 10 || k == 11; }
        else { assert k == 12 || k == 13 || k == 14 || k == 15; }
      }
    }
    ReflexRowsSuffice(t);
  }

  /** The dispatch of `set_LUT`: every mode of LUT_MODES selects a 16x4
      table that drives only the FR and RR columns of rows 2, 8 and 10; any
      other name selects nothing. */
  function SynergyTable(mode: string): (t: Option<Table>)
    ensures t.Some? <==> mode in LutModes
    ensures t.Some? ==> IsTable(t.value) && OnlyReflexEntries(t.value)
  {
    if mode == "AMPLIFY" then LiteralReflexRows(AmplifyTable()); Some(AmplifyTable())
    else if mode == "AMPLIFY_FROM_DATA" then LiteralReflexRows(AmplifyFromDataTable()); Some(AmplifyFromDataTable())
    else if mode == "AMPLIFY_SPEED" then LiteralReflexRows(AmplifySpeedTable()); Some(AmplifySpeedTable())
    else if mode == "AMPLIFY_CUSTOM" then LiteralReflexRows(AmplifyCustomTable()); Some(AmplifyCustomTable())
    else if mode == "JUMP" then LiteralReflexRows(JumpTable()); Some(JumpTable())
    else if mode == "CUSTOM" then LiteralReflexRows(CustomTable()); Some(CustomTable())
    else None
  }

  // ---------------------------------------------------------------------
  // Contact estimation and the contact pattern
  // ---------------------------------------------------------------------

  function Bit(b: bool): nat {
    if b then 1 else 0
  }

  function Pow2(n: nat): (r: nat)
    ensures r >= 1
  {
    if n == 0 then 1 else 2 * Pow2(n - 1)
  }

  /** The first n terms of the pattern sum: leg i weighs 2^(|c| - 1 - i). */
  function PatternPrefix(c: seq<bool>, n: nat): nat
    requires n <= |c|
  {
    if n == 0 then 0 else PatternPrefix(c, n - 1) + Bit(c[n - 1]) * Pow2(|c| - n)
  }

  /** The 4-bit contact pattern: FR is the most significant bit, RL the
      least, and the result indexes a 16-row table. */
  function ContactPattern(c: seq<bool>): (idx: nat)
    requires |c| == NumControllers
    ensures idx < 16
    ensures idx == 8 * Bit(c[0]) + 4 * Bit(c[1]) + 2 * Bit(c[2]) + Bit(c[3])
  {
    assert Pow2(1) == 2 && Pow2(2) == 4 && Pow2(3) == 8;
    assert PatternPrefix(c, 1) == 8 * Bit(c[0]);
    assert PatternPrefix(c, 2) == 8 * Bit(c[0]) + 4 * Bit(c[1]);
    assert PatternPrefix(c, 3) == 8 * Bit(c[0]) + 4 * Bit(c[1]) + 2 * Bit(c[2]);
    PatternPrefix(c, NumControllers)
  }

  /** The contact flags a pattern stands for, FR first. */
  function ContactOf(idx: nat): (c: seq<bool>)
    requires idx < 16
    ensures |c| == NumControllers
  {
    [(idx / 8) % 2 == 1, (idx / 4) % 2 == 1, (idx / 2) % 2 == 1, idx % 2 == 1]
  }

  /** Encoding and decoding the contact pattern are inverse to each other:
      the 16 patterns and the 16 contact states correspond one to one. */
  lemma ContactPatternBijective(c: seq<bool>, idx: nat)
    requires |c| == NumControllers && idx < 16
    ensures ContactOf(ContactPattern(c)) == c
    ensures ContactPattern(ContactOf(idx)) == idx
  {
  }

  /** The contact flags `update_foot_contact` leaves: for every listed
      controller id, the strict threshold test on that leg's reading; other
      legs keep their flag. */
  function ContactFlags(pressure: seq<real>, contact: seq<bool>, ids: seq<int>): (r: seq<bool>)
    requires |pressure| == NumControllers && |contact| == NumControllers
    ensures |r| == NumControllers
    ensures forall j :: 0 <= j < NumControllers && j + 1 in ids ==> (r[j] <==> pressure[j] > FootContactThr[j])
    ensures forall j :: 0 <= j < NumControllers && j + 1 !in ids ==> r[j] == contact[j]
  {
    seq(NumControllers, j requires 0 <= j < NumControllers =>
          if j + 1 in ids then pressure[j] > FootContactThr[j] else contact[j])
  }

  /** A reading exactly at the threshold is not contact: the test is strict. */
  lemma ContactThresholdStrict(pressure: seq<real>, contact: seq<bool>, ids: seq<int>, j: nat)
    requires |pressure| == NumControllers && |contact| == NumControllers
    requires j < NumControllers && j + 1 in ids && pressure[j] == FootContactThr[j]
    ensures !ContactFlags(pressure, contact, ids)[j]
  {
  }

  // ---------------------------------------------------------------------
  // Command selection
  // ---------------------------------------------------------------------

  /** `get_commands`: the table row of the current contact pattern with the
      configured torque ceiling in a LUT mode; zeros with no torque in
      PASSIVE and in any unsupported mode. */
  function GetCommands(mode: string, lut: Table, contact: seq<bool>, maxTorque: real): (r: (Row, real))
    requires IsTable(lut) && |contact| == NumControllers
    ensures |r.0| == NumControllers
    ensures mode in LutModes ==> r.0 == lut[ContactPattern(contact)] && r.1 == maxTorque
    ensures mode !in LutModes ==> r.0 == ZeroRow && r.1 == 0.0
  {
    if mode == "PASSIVE" then (ZeroRow, 0.0)
    else if mode in LutModes then (lut[ContactPattern(contact)], maxTorque)
    else (ZeroRow, 0.0)
  }

  /** The AMPLIFY table: RR alone folds both driven legs back, FR alone
      extends both, FR and RR together extend RR only, and every other
      contact pattern commands nothing. */
  lemma AmplifyCommands(c: seq<bool>, maxTorque: real)
    requires |c| == NumControllers
    ensures var r := GetCommands("AMPLIFY", AmplifyTable(), c, maxTorque);
      && r.1 == maxTorque
      && (c == [false, false, true, false] ==> r.0 == [-1.0, 0.0, -1.0, 0.0])
      && (c == [true, false, false, false] ==> r.0 == [1.0, 0.0, 1.0, 0.0])
      && (c == [true, false, true, false] ==> r.0 == [0.0, 0.0, 1.0, 0.0])
      && (ContactPattern(c) !in {2, 8, 10} ==> r.0 == ZeroRow)
  {
    var idx := ContactPattern(c);
    assert "AMPLIFY" in LutModes;
    assert IsTable(AmplifyTable()) && OnlyReflexEntries(AmplifyTable());
    if idx !in {2, 8, 10} {
      var row := AmplifyTable()[idx];
      forall j | 0 <= j < 4 ensures row[j] == 0.0 {
        assert AmplifyTable()[idx][j] == 0.0;
      }
    }
  }

  // ---------------------------------------------------------------------
  // The bus
  // ---------------------------------------------------------------------

  /** The telemetry a `set_position` query returns: position, velocity and
      the MOTOR_TEMPERATURE register, to which the analog pressure sensor is
      wired. */
  datatype Telemetry = Telemetry(position: real, velocity: real, temperature: real)

  /** The arguments of `set_position` (the query flag is always set). */
  datatype PositionCommand = PositionCommand(position: real, velocity: real, velocityLimit: real,
                                             accelLimit: real, maximumTorque: real)

  /** One round trip on the bus. */
  datatype BusCall = Recapture(id: int) | Position(id: int, cmd: PositionCommand)

  /** The moteus controllers as the reflex controller sees them: the calls
      issued, in order. What the hardware answers is outside the model:
      `reply` stands for it, given how many calls came before, the controller
      id and the command. */
  class Bus {
    var calls: seq<BusCall>
    const reply: (nat, int, PositionCommand) -> Telemetry

    constructor (reply: (nat, int, PositionCommand) -> Telemetry)
      ensures calls == [] && this.reply == reply
    {
      calls := [];
      this.reply := reply;
    }

    /** `set_recapture_position_velocity` on controller `id`. */
    method SetRecapturePositionVelocity(id: int)
      modifies this
      ensures calls == old(calls) + [Recapture(id)]
    {
      calls := calls + [Recapture(id)];
    }

    /** `set_position(..., query=True)` on controller `id`. */
    method SetPosition(id: int, cmd: PositionCommand) returns (t: Telemetry)
      modifies this
      ensures calls == old(calls) + [Position(id, cmd)]
      ensures t == reply(|old(calls)|, id, cmd)
    {
      t := reply(|calls|, id, cmd);
      calls := calls + [Position(id, cmd)];
    }
  }

  /** Every position-0 command carries zero torque, and every move to a
      nonzero position comes right after a recapture of the same controller. */
  predicate SentinelRespected(calls: seq<BusCall>) {
    forall n {:trigger calls[n]} :: 0 <= n < |calls| && calls[n].Position? ==>
      if calls[n].cmd.position == 0.0 then calls[n].cmd.maximumTorque == 0.0
      else n > 0 && calls[n - 1] == Recapture(calls[n].id)
  }

  /** The controller ids of the position commands, in order. */
  function PositionIds(calls: seq<BusCall>): seq<int> {
    if calls == [] then []
    else PositionIds(calls[..|calls| - 1]) + (if calls[|calls| - 1].Position? then [calls[|calls| - 1].id] else [])
  }

  lemma {:induction false} PositionIdsAppend(a: seq<BusCall>, b: seq<BusCall>)
    ensures PositionIds(a + b) == PositionIds(a) + PositionIds(b)
    decreases |b|
  {
    if b != [] {
      var b' := b[..|b| - 1];
      assert (a + b)[..|a + b| - 1] == a + b';
      PositionIdsAppend(a, b');
    } else {
      assert a + b == a;
    }
  }

  function Abs(x: real): real {
    if x < 0.0 then -x else x
  }

  /** The stall test of the recovery override, on the last telemetry of
      leg 3 (RR): nearly still, folded below -0.2, RR in contact and FR not.
      Before the first query of RR there is no telemetry; reading it raises
      inside the `try` and is swallowed, so the test fails. */
  predicate Stalled(rr: Option<Telemetry>, contact: seq<bool>)
    requires |contact| == NumControllers
  {
    rr.Some? && Abs(rr.value.velocity) < 0.1 && rr.value.position < -0.2 && contact[2] && !contact[0]
  }

  /** What one tick may change: the table (through the recovery write), the
      stored telemetry, the stored readings and the bus trace. */
  datatype Snapshot = Snapshot(lut: Table, states: seq<Option<Telemetry>>, pressure: seq<real>, calls: seq<BusCall>)

  predicate WellShaped(s: Snapshot) {
    IsTable(s.lut) && |s.states| == NumControllers && |s.pressure| == NumControllers
  }

  /** The keyword defaults of `PAWS.__init__`. */
  const DefaultMode: string := "AMPLIFY"
  const DefaultRecovery: bool := false
  const DefaultAccelLimit: real := 30.0
  const DefaultVelocityLimit: real := 20.0
  const DefaultMaxTorque: real := 3.0
  const DefaultControllerIds: seq<int> := [1, 2, 3, 4]

  predicate ValidIds(ids: seq<int>) {
    forall k :: 0 <= k < |ids| ==> 1 <= ids[k] <= NumControllers
  }

  /** The reflex controller (class PAWS). */
  class Paws {
    const mode: string
    const recovery: bool
    const accelLimit: real
    const velocityLimit: real
    const maxTorque: real
    const controllerIds: seq<int>
    const bus: Bus

    var footContact: seq<bool>
    var pressure: seq<real>
    var lut: Table
    var states: seq<Option<Telemetry>>

    ghost predicate Valid()
      reads this
    {
      |footContact| == NumControllers && WellShaped(Snapshot(lut, states, pressure, [])) && ValidIds(controllerIds)
    }

    /** The state one tick works on. */
    ghost function Snap(): Snapshot
      reads this, bus
    {
      Snapshot(lut, states, pressure, bus.calls)
    }

    /** `__init__`: no contact, zero readings, no telemetry, and the table of
      the mode (the all-zero table for PASSIVE and for unsupported modes). An
      argument left out (None) takes its keyword default: AMPLIFY, recovery
      off, acceleration limit 30, velocity limit 20, torque ceiling 3 and
      controllers 1 to 4. */
    constructor (mode: Option<string>, recovery: Option<bool>, accelLimit: Option<real>, velocityLimit: Option<real>,
                 maxTorque: Option<real>, controllerIds: Option<seq<int>>, bus: Bus)
      requires controllerIds.Some? ==> ValidIds(controllerIds.value)
      ensures Valid()
      ensures this.mode == OrDefault(mode, DefaultMode) && this.recovery == OrDefault(recovery, DefaultRecovery)
      ensures this.accelLimit == OrDefault(accelLimit, DefaultAccelLimit)
      ensures this.velocityLimit == OrDefault(velocityLimit, DefaultVelocityLimit)
      ensures this.maxTorque == OrDefault(maxTorque, DefaultMaxTorque)
      ensures this.controllerIds == OrDefault(controllerIds, DefaultControllerIds) && this.bus == bus
      ensures footContact == [false, false, false, false] && pressure == [0.0, 0.0, 0.0, 0.0]
      ensures states == [None, None, None, None]
      ensures lut == if this.mode != "PASSIVE" && this.mode in LutModes then SynergyTable(this.mode).value else ZeroTable()
    {
      this.mode := OrDefault(mode, DefaultMode);
      this.recovery := OrDefault(recovery, DefaultRecovery);
      this.accelLimit := OrDefault(accelLimit, DefaultAccelLimit);
      this.velocityLimit := OrDefault(velocityLimit, DefaultVelocityLimit);
      this.maxTorque := OrDefault(maxTorque, DefaultMaxTorque);
      this.controllerIds := OrDefault(controllerIds, DefaultControllerIds);
      this.bus := bus;
      footContact := [false, false, false, false];
      pressure := [0.0, 0.0, 0.0, 0.0];
      lut := ZeroTable();
      states := [None, None, None, None];
      new;
      if this.mode != "PASSIVE" {
        SetLut();
      }
    }

    /** `set_LUT`: install the table of the mode; an unsupported mode leaves
        the table as it was. */
    method SetLut()
      requires Valid()
      modifies this`lut
      ensures Valid()
      ensures lut == if mode in LutModes then SynergyTable(mode).value else old(lut)
    {
      match SynergyTable(mode) {
        case Some(t) => lut := t;
        case None =>
      }
    }

    /** `get_LUT_index`: the contact pattern, accumulated leg by leg. */
    method GetLutIndex() returns (idx: nat)
      requires Valid()
      ensures idx == ContactPattern(footContact)
    {
      idx := 0;
      for i := 0 to NumControllers
        invariant idx == PatternPrefix(footContact, i)
      {
        idx := idx + Bit(footContact[i]) * Pow2(NumControllers - i - 1);
      }
    }

    /** `update_foot_contact`: the strict threshold test for each listed
        controller, written into the contact flags in place. */
    method UpdateFootContact()
      requires Valid()
      modifies this`footContact
      ensures Valid()
      ensures footContact == ContactFlags(pressure, old(footContact), controllerIds)
    {
      for k := 0 to |controllerIds|
        invariant Valid()
        invariant footContact == ContactFlags(pressure, old(footContact), controllerIds[..k])
      {
        var i := controllerIds[k];
        assert controllerIds[..k + 1] == controllerIds[..k] + [i];
        if pressure[i - 1] > FootContactThr[i - 1] {
          footContact := footContact[i - 1 := true];
        } else {
          footContact := footContact[i - 1 := false];
        }
      }
    }

    /** `get_state`: the stored telemetry and the contact flags. */
    function GetState(): (r: (seq<Option<Telemetry>>, seq<bool>))
      reads this
      requires Valid()
      ensures |r.0| == NumControllers && |r.1| == NumControllers
      ensures r.0 == states && r.1 == footContact
    {
      (states, footContact)
    }

    /** Whether the recovery override fires for a leg, given the state so
        far in the tick: it is enabled, the torque selected is nonzero or the
        mode is PASSIVE, and RR is stalled. */
    predicate RecoveryFires(contact: seq<bool>, s: Snapshot)
      requires |contact| == NumControllers && WellShaped(s)
    {
      recovery && (GetCommands(mode, s.lut, contact, maxTorque).1 != 0.0 || mode == "PASSIVE")
      && Stalled(s.states[2], contact)
    }

    /** One pass of `update`'s loop, for controller id i. In a LUT mode
        the row `get_commands` returns is a view into the table, so the
        recovery write of position 3 for FR lands in the table itself. */
    function LegStep(contact: seq<bool>, s: Snapshot, i: int): (r: Snapshot)
      requires |contact| == NumControllers && WellShaped(s) && 1 <= i <= NumControllers
      ensures WellShaped(r)
    {
      var selected := GetCommands(mode, s.lut, contact, maxTorque);
      var fires := RecoveryFires(contact, s);
      var row := if fires && i == 1 then selected.0[0 := 3.0] else selected.0;
      var lut' := if fires && i == 1 && mode in LutModes then s.lut[ContactPattern(contact) := row] else s.lut;
      var torque := if fires then 4.0 else selected.1;
      var position := row[i - 1];
      var cmd := PositionCommand(position, 0.0, velocityLimit, accelLimit, if position == 0.0 then 0.0 else torque);
      var before := if position == 0.0 then [] else [Recapture(i)];
      var t := bus.reply(|s.calls| + |before|, i, cmd);
      Snapshot(lut', s.states[i - 1 := Some(t)], s.pressure[i - 1 := t.temperature], s.calls + before + [Position(i, cmd)])
    }

    /** `update`'s loop over the listed controller ids, in order. */
    function RunLegs(contact: seq<bool>, s: Snapshot, ids: seq<int>): (r: Snapshot)
      requires |contact| == NumControllers && WellShaped(s) && ValidIds(ids)
      ensures WellShaped(r)
      decreases |ids|
    {
      if ids == [] then s
      else LegStep(contact, RunLegs(contact, s, ids[..|ids| - 1]), ids[|ids| - 1])
    }

    /** The body of `update`'s loop for controller id i: the selected
        command, the recovery override, the zero-position sentinel, the bus
        round trip, and the returned reading stored for the next tick. */
    method CommandLeg(i: int)
      requires Valid() && 1 <= i <= NumControllers
      modifies this`lut, this`states, this`pressure, bus
      ensures Valid()
      ensures Snap() == LegStep(footContact, old(Snap()), i)
    {
      ghost var s0 := Snap();
      ghost var fires := RecoveryFires(footContact, s0);
      var selected := GetCommands(mode, lut, footContact, maxTorque);
      var position, torque := selected.0, selected.1;
      if recovery && (torque != 0.0 || mode == "PASSIVE") {
        if states[2].Some? && Abs(states[2].value.velocity) < 0.1 && states[2].value.position < -0.2
           && footContact[2] && !footContact[0] {
          if i == 1 {
            position := position[0 := 3.0];
            if mode in LutModes {
              lut := lut[ContactPattern(footContact) := position];
            }
          }
          torque := 4.0;
        }
      }
      if position[i - 1] == 0.0 {
        torque := 0.0;
      } else {
        bus.SetRecapturePositionVelocity(i);
      }
      assert position == if fires && i == 1 then selected.0[0 := 3.0] else selected.0;
      assert lut == if fires && i == 1 && mode in LutModes then s0.lut[ContactPattern(footContact) := position] else s0.lut;
      var t := bus.SetPosition(i, PositionCommand(position[i - 1], 0.0, velocityLimit, accelLimit, torque));
      states := states[i - 1 := Some(t)];
      pressure := pressure[i - 1 := t.temperature];
    }

    /** `update`: contact from the readings of the previous tick first, then
        one round trip per listed controller, in order. */
    method Update()
      requires Valid()
      modifies this, bus
      ensures Valid()
      ensures footContact == ContactFlags(old(pressure), old(footContact), controllerIds)
      ensures Snap() == RunLegs(footContact, old(Snap()), controllerIds)
    {
      UpdateFootContact();
      ghost var s0 := Snap();
      var k := 0;
      while k < |controllerIds|
        invariant 0 <= k <= |controllerIds|
        invariant Valid()
        invariant footContact == ContactFlags(old(pressure), old(footContact), controllerIds)
        invariant Snap() == RunLegs(footContact, s0, controllerIds[..k])
      {
        assert controllerIds[..k + 1][..k] == controllerIds[..k];
        CommandLeg(controllerIds[k]);
        k := k + 1;
      }
      assert controllerIds[..k] == controllerIds;
    }

    // -------------------------------------------------------------------
    // What a tick guarantees
    // -------------------------------------------------------------------

    /** One leg adds one `set_position` for its own id to the trace, preceded
        by a recapture exactly when the position is nonzero; a zero position
        goes out with zero torque. */
    lemma LegStepCalls(contact: seq<bool>, s: Snapshot, i: int)
      requires |contact| == NumControllers && WellShaped(s) && 1 <= i <= NumControllers
      ensures var r := LegStep(contact, s, i);
        && |r.calls| > |s.calls|
        && var last := r.calls[|r.calls| - 1];
        && last.Position? && last.id == i
        && (last.cmd.position == 0.0 ==> last.cmd.maximumTorque == 0.0 && r.calls == s.calls + [last])
        && (last.cmd.position != 0.0 ==> r.calls == s.calls + [Recapture(i), last])
    {
    }

    /** One leg keeps the bus trace well formed. */
    lemma LegStepRespectsSentinel(contact: seq<bool>, s: Snapshot, i: int)
      requires |contact| == NumControllers && WellShaped(s) && 1 <= i <= NumControllers
      requires SentinelRespected(s.calls)
      ensures SentinelRespected(LegStep(contact, s, i).calls)
    {
      var calls := LegStep(contact, s, i).calls;
      LegStepCalls(contact, s, i);
      var m := |calls| - 1;
      forall n | 0 <= n < |calls| && calls[n].Position?
        ensures if calls[n].cmd.position == 0.0 then calls[n].cmd.maximumTorque == 0.0
                else n > 0 && calls[n - 1] == Recapture(calls[n].id)
      {
        if n < |s.calls| {
          assert calls[n] == s.calls[n];
          if n > 0 {
            assert calls[n - 1] == s.calls[n - 1];
          }
        } else if n == m && calls[m].cmd.position != 0.0 {
          assert calls[m - 1] == Recapture(i);
        }
      }
    }

    /** One leg adds exactly its own id to the ids commanded. */
    lemma LegStepPositionIds(contact: seq<bool>, s: Snapshot, i: int)
      requires |contact| == NumControllers && WellShaped(s) && 1 <= i <= NumControllers
      ensures PositionIds(LegStep(contact, s, i).calls) == PositionIds(s.calls) + [i]
    {
      var calls := LegStep(contact, s, i).calls;
      LegStepCalls(contact, s, i);
      var last := calls[|calls| - 1];
      if last.cmd.position == 0.0 {
        PositionIdsAppend(s.calls, [last]);
        assert PositionIds([last]) == [i] by {
          assert [last][..0] == [];
        }
      } else {
        PositionIdsAppend(s.calls, [Recapture(i), last]);
        assert PositionIds([Recapture(i), last]) == [i] by {
          assert [Recapture(i), last][..1] == [Recapture(i)];
          assert [Recapture(i)][..0] == [];
        }
      }
    }

    /** A tick keeps the bus trace well formed: a zero position is always
        sent with zero torque (also after a recovery override), and a move to
        a nonzero position is always preceded by a recapture. */
    lemma {:induction false} TickRespectsSentinel(contact: seq<bool>, s: Snapshot, ids: seq<int>)
      requires |contact| == NumControllers && WellShaped(s) && ValidIds(ids)
      requires SentinelRespected(s.calls)
      ensures SentinelRespected(RunLegs(contact, s, ids).calls)
      decreases |ids|
    {
      if ids != [] {
        TickRespectsSentinel(contact, s, ids[..|ids| - 1]);
        LegStepRespectsSentinel(contact, RunLegs(contact, s, ids[..|ids| - 1]), ids[|ids| - 1]);
      }
    }

    /** `set_position` is issued exactly once for every listed id, in the
        order of the list, whatever the positions are. */
    lemma {:induction false} TickCommandsEveryId(contact: seq<bool>, s: Snapshot, ids: seq<int>)
      requires |contact| == NumControllers && WellShaped(s) && ValidIds(ids)
      ensures PositionIds(RunLegs(contact, s, ids).calls) == PositionIds(s.calls) + ids
      decreases |ids|
    {
      if ids != [] {
        var init, i := ids[..|ids| - 1], ids[|ids| - 1];
        var prev := RunLegs(contact, s, init);
        assert PositionIds(prev.calls) == PositionIds(s.calls) + init by {
          TickCommandsEveryId(contact, s, init);
        }
        assert PositionIds(RunLegs(contact, s, ids).calls) == PositionIds(prev.calls) + [i] by {
          assert RunLegs(contact, s, ids) == LegStep(contact, prev, i);
          LegStepPositionIds(contact, prev, i);
        }
        assert ids == init + [i];
      }
    }

    /** The telemetry the bus returned to the last `set_position` sent to
        controller `id` in a trace; None when it was never commanded. */
    function LastReply(calls: seq<BusCall>, id: int): Option<Telemetry>
    {
      if calls == [] then None
      else
        var n := |calls| - 1;
        if calls[n].Position? && calls[n].id == id then Some(bus.reply(n, id, calls[n].cmd))
        else LastReply(calls[..n], id)
    }

    /** LastReply finds the last `set_position` to `id` in a trace: it is
        None exactly when there is none, and otherwise the bus's reply to a
        Position call for `id` that no later call for `id` follows. */
    lemma {:induction false} LastReplyIsLast(calls: seq<BusCall>, id: int)
      ensures LastReply(calls, id).None? <==>
                forall n :: 0 <= n < |calls| ==> !(calls[n].Position? && calls[n].id == id)
      ensures LastReply(calls, id).Some? ==>
                exists n :: && 0 <= n < |calls| && calls[n].Position? && calls[n].id == id
                            && LastReply(calls, id).value == bus.reply(n, id, calls[n].cmd)
                            && forall m :: n < m < |calls| ==> !(calls[m].Position? && calls[m].id == id)
      decreases |calls|
    {
      if calls != [] {
        var n := |calls| - 1;
        if !(calls[n].Position? && calls[n].id == id) {
          var earlier := calls[..n];
          LastReplyIsLast(earlier, id);
          assert forall k :: 0 <= k < n ==> earlier[k] == calls[k];
        }
      }
    }

    /** After a tick, every listed leg holds the telemetry the bus returned
        to its last `set_position` and the reading taken from it; unlisted
        legs keep both. */
    lemma {:induction false} TickStoresReadings(contact: seq<bool>, s: Snapshot, ids: seq<int>)
      requires |contact| == NumControllers && WellShaped(s) && ValidIds(ids)
      ensures var r := RunLegs(contact, s, ids);
        forall j :: 0 <= j < NumControllers ==>
          if j + 1 in ids then
            r.states[j].Some? && r.states[j] == LastReply(r.calls, j + 1) && r.pressure[j] == r.states[j].value.temperature
          else r.states[j] == s.states[j] && r.pressure[j] == s.pressure[j]
      decreases |ids|
    {
      if ids != [] {
        var init, i := ids[..|ids| - 1], ids[|ids| - 1];
        var prev := RunLegs(contact, s, init);
        var r := RunLegs(contact, s, ids);
        TickStoresReadings(contact, s, init);
        assert r == LegStep(contact, prev, i);
        LegStepReadings(contact, prev, i);
        assert r.states[i - 1].Some? && r.states[i - 1] == LastReply(r.calls, i)
          && r.pressure[i - 1] == r.states[i - 1].value.temperature;
        assert forall j :: 0 <= j < NumControllers && j != i - 1 ==>
          r.states[j] == prev.states[j] && r.pressure[j] == prev.pressure[j]
          && LastReply(r.calls, j + 1) == LastReply(prev.calls, j + 1);
        assert ids == init + [i];
        forall j | 0 <= j < NumControllers
          ensures if j + 1 in ids then
                    r.states[j].Some? && r.states[j] == LastReply(r.calls, j + 1) && r.pressure[j] == r.states[j].value.temperature
                  else r.states[j] == s.states[j] && r.pressure[j] == s.pressure[j]
        {
          if j + 1 == i {
            assert j + 1 in ids;
          } else if j + 1 in init {
            assert prev.states[j].Some? && prev.states[j] == LastReply(prev.calls, j + 1)
              && prev.pressure[j] == prev.states[j].value.temperature;
            assert j + 1 in ids;
          } else {
            assert prev.states[j] == s.states[j] && prev.pressure[j] == s.pressure[j];
            assert j + 1 !in ids;
          }
        }
      }
    }

    /** One leg stores the telemetry the bus returned to its own
        `set_position`, the last call it made, and the reading taken from it;
        the other legs' telemetry, readings and last replies are untouched. */
    lemma LegStepReadings(contact: seq<bool>, s: Snapshot, i: int)
      requires |contact| == NumControllers && WellShaped(s) && 1 <= i <= NumControllers
      ensures var r := LegStep(contact, s, i);
        && var n := |r.calls| - 1;
        && n >= 0 && r.calls[n].Position? && r.calls[n].id == i
        && r.states[i - 1] == Some(bus.reply(n, i, r.calls[n].cmd))
        && r.states[i - 1] == LastReply(r.calls, i)
        && r.pressure[i - 1] == r.states[i - 1].value.temperature
        && forall j :: 0 <= j < NumControllers && j != i - 1 ==>
             r.states[j] == s.states[j] && r.pressure[j] == s.pressure[j]
             && LastReply(r.calls, j + 1) == LastReply(s.calls, j + 1)
    {
      var r := LegStep(contact, s, i);
      var n := |r.calls| - 1;
      forall id | 1 <= id <= NumControllers && id != i
        ensures LastReply(r.calls, id) == LastReply(s.calls, id)
      {
        assert r.calls[..n] == s.calls || r.calls[..n] == s.calls + [Recapture(i)];
        if r.calls[..n] != s.calls {
          assert r.calls[..n][..|r.calls[..n]| - 1] == s.calls;
        }
      }
    }

    /** Without the recovery override (disabled, no torque outside PASSIVE,
        or RR not stalled) a leg is commanded the selected row entry with the
        selected torque ceiling, or zero torque at position 0, and the table
        does not change. */
    lemma PlainStepWithoutRecovery(contact: seq<bool>, s: Snapshot, i: int)
      requires |contact| == NumControllers && WellShaped(s) && 1 <= i <= NumControllers
      requires !recovery || (GetCommands(mode, s.lut, contact, maxTorque).1 == 0.0 && mode != "PASSIVE")
               || !Stalled(s.states[2], contact)
      ensures var r := LegStep(contact, s, i);
        var selected := GetCommands(mode, s.lut, contact, maxTorque);
        && r.lut == s.lut
        && r.calls[|r.calls| - 1] == Position(i, PositionCommand(selected.0[i - 1], 0.0, velocityLimit, accelLimit,
                                                                  if selected.0[i - 1] == 0.0 then 0.0 else selected.1))
    {
    }

    /** When the override fires on controller 1 in a LUT mode, FR is sent to
        position 3 with torque ceiling 4, and the 3 is written into the table
        row of the current contact pattern, where it stays for later ticks;
        the rest of the table is untouched. */
    lemma RecoveryWritePersists(contact: seq<bool>, s: Snapshot)
      requires |contact| == NumControllers && WellShaped(s)
      requires mode in LutModes && RecoveryFires(contact, s)
      ensures var r := LegStep(contact, s, 1);
        && r.calls[|r.calls| - 1] == Position(1, PositionCommand(3.0, 0.0, velocityLimit, accelLimit, 4.0))
        && r.lut[ContactPattern(contact)][0] == 3.0
        && (forall k, j :: 0 <= k < 16 && 0 <= j < NumControllers && (k, j) != (ContactPattern(contact), 0) ==>
              r.lut[k][j] == s.lut[k][j])
        && GetCommands(mode, r.lut, contact, maxTorque).0[0] == 3.0
    {
    }

    /** While the override fires, every leg commanded goes out with torque
        ceiling 4 instead of the selected one (0 at position 0); FR goes to
        position 3, the other legs to their selected entry. Only FR in a LUT
        mode touches the table. */
    lemma RecoveryCommand(contact: seq<bool>, s: Snapshot, i: int)
      requires |contact| == NumControllers && WellShaped(s) && 1 <= i <= NumControllers
      requires RecoveryFires(contact, s)
      ensures var r := LegStep(contact, s, i);
        var p := if i == 1 then 3.0 else GetCommands(mode, s.lut, contact, maxTorque).0[i - 1];
        && r.calls[|r.calls| - 1] == Position(i, PositionCommand(p, 0.0, velocityLimit, accelLimit, if p == 0.0 then 0.0 else 4.0))
        && (i != 1 || mode !in LutModes ==> r.lut == s.lut)
    {
    }

    /** In PASSIVE the override fires too when recovery is on and RR is
        stalled: FR is sent to 3 with ceiling 4 while the other legs get
        position 0 with ceiling 0, and the table is not written, because the
        row is a fresh array of zeros. */
    lemma RecoveryInPassive(contact: seq<bool>, s: Snapshot, i: int)
      requires |contact| == NumControllers && WellShaped(s) && 1 <= i <= NumControllers
      requires mode == "PASSIVE" && recovery && Stalled(s.states[2], contact)
      ensures RecoveryFires(contact, s)
      ensures var r := LegStep(contact, s, i);
        && r.lut == s.lut
        && r.calls[|r.calls| - 1] == Position(i, PositionCommand(if i == 1 then 3.0 else 0.0, 0.0, velocityLimit, accelLimit,
                                                                  if i == 1 then 4.0 else 0.0))
    {
      assert "PASSIVE" !in LutModes;
    }

    /** Where the persisting write bites: with AMPLIFY and RR stalled in
        contact pattern 0011 (RR and RL down), one tick leaves a 3 in row 3,
        so the table no longer drives only rows 2, 8 and 10. */
    lemma RecoveryCorruptsAmplifyTable(s: Snapshot, rr: Telemetry)
      requires mode == "AMPLIFY" && recovery && maxTorque != 0.0
      requires WellShaped(s) && s.lut == AmplifyTable()
      requires s.states[2] == Some(rr) && Abs(rr.velocity) < 0.1 && rr.position < -0.2
      ensures var r := LegStep([false, false, true, true], s, 1);
        IsTable(r.lut) && !OnlyReflexEntries(r.lut)
    {
      var c := [false, false, true, true];
      assert ContactPattern(c) == 3;
      assert "AMPLIFY" in LutModes;
      var r := LegStep(c, s, 1);
      assert r.lut[3][0] == 3.0;
    }
  }
}
