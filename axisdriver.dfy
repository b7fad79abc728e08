// The per-axis driver logic of class TMC, stated on values. An axis is either a
// real TMC5240 chip, seen through the fields the firmware writes (`chip`) and the
// registers the hardware reports on each call (`Readings`), or a simulated axis
// with integer kinematics (`Sim`). The Motors flags of the axis travel with it,
// because TMC writes them directly.
module AxisDriver {
  import opened Common
  import opened Text
  import opened ParameterStore

  /** The driver fields and registers the firmware writes. */
  datatype Field =
    | GlobalScaler | CurrentRange | IRun | IHold | MRes | Shaft | TOff | SgStop | Sgt | TCoolThrs
    | AMax | DMax | EncSelDecimal | EncConst | EncDeviation
    | StopLEnable | StopREnable | PolStopL | PolStopR | SwapLR
    | VirtualStopEnc | EnVirtualStopL | EnVirtualStopR | VirtualStopL | VirtualStopR
    | OvertempPrewarnVth | XActual | XTarget | XEnc | VMax | RampMode | EnSoftStop
    | LatchLActive | LatchRActive | LatchXAct | IgnoreAB | ClrCont | PosNegEdge
    | Register(address: int)

  // RAMPMODE values
  const ModePosition := 0
  const ModeVelPos := 1
  const ModeVelNeg := 2

  /** ADC value of the over-temperature pre-warning (about 120 degrees C). */
  const OvertempPrewarn := 0xB92

  /** Size of TMC's local message buffers (snprintf keeps 49 characters). */
  const TmcMsgSize := 50

  // Indices of motStatIDList
  const XACT := 0
  const XTAR := 1
  const XENC := 2
  const VELO := 3
  const ACCE := 4
  const SENAB := 5
  const TEMP := 6
  const PULL := 7
  const StatusIds: seq<string> := ["XACT", "XTAR", "XENC", "VELO", "ACCE", "ENAB", "TEMP", "PULL"]

  /** A field the firmware never wrote reads as 0. */
  function Get(chip: map<Field, int>, f: Field): int
  {
    if f in chip then chip[f] else 0
  }

  /** The characters strncmp(a, b, 4) compares of a string without NUL bytes. */
  function Id4(s: string): (r: string)
    ensures |r| <= 4 && r <= s
  {
    if |s| <= 4 then s else s[..4]
  }

  predicate SameId(a: string, b: string) { Id4(a) == Id4(b) }

  /** The first parameter from k on whose ID matches `name`. */
  function ParamIndexFrom(name: string, k: nat): (r: Option<nat>)
    requires k <= MotorsNumParams
    ensures r.Some? ==>
      k <= r.value < MotorsNumParams && SameId(MotorParamIds[r.value], name) &&
      forall j :: k <= j < r.value ==> !SameId(MotorParamIds[j], name)
    ensures r.None? <==> forall j :: k <= j < MotorsNumParams ==> !SameId(MotorParamIds[j], name)
    decreases MotorsNumParams - k
  {
    if k == MotorsNumParams then None
    else if SameId(MotorParamIds[k], name) then Some(k)
    else ParamIndexFrom(name, k + 1)
  }

  /** The index FindParamIndexVal finds for `name`, if any. */
  function ParamIndex(name: string): Option<nat>
  {
    ParamIndexFrom(name, 0)
  }

  /** TMCSimStatus */
  datatype Sim = Sim(xact: int, xtar: int, xenc: int, xmin: int, xmax: int, vel: int, lastVelCalcTime: int)

  // Register contents the hardware reports; one snapshot per call.
  datatype GStat = GStat(reset: bool, drvErr: bool, uvCp: bool, registerReset: bool, vmUvlo: bool)
  datatype DrvStatus = DrvStatus(s2vsa: bool, s2vsb: bool, s2ga: bool, s2gb: bool, ola: bool, olb: bool,
                                 stallGuard: bool, ot: bool, otpw: bool)
  datatype RampStat = RampStat(eventPosReached: bool, positionReached: bool, eventStopSg: bool,
                               statusLatchL: bool, statusLatchR: bool, eventStopL: bool, eventStopR: bool,
                               statusStopL: bool, statusStopR: bool,
                               statusVirtualStopL: bool, statusVirtualStopR: bool,
                               vzero: bool, statusSg: bool)
  /**
   * xactual/xenc/xlatch are XACTUAL, XENC and XLATCH; devWarn is the following
   * error flag of ENC_STATUS; standstill is STST once the motor has been waited
   * for after a homing latch; tempC is the converted ADC temperature; regValue is
   * what a raw register read returns.
   */
  datatype Readings = Readings(gstat: GStat, drv: DrvStatus, ramp: RampStat, devWarn: bool,
                               xactual: int, xenc: int, xlatch: int, standstill: bool,
                               tempC: int, regValue: int)

  /** What an axis is: its board number, device type and parameter row. */
  datatype Ctx = Ctx(board: int, kind: int, prm: seq<int>)

  predicate WellFormed(c: Ctx) { ValidBoard(c.board) && |c.prm| == MotorsNumParams }

  /**
   * Per-axis state: the TMC object's fields (sim, chip, the closed-loop copies)
   * and the Motors arrays at this board (flags, closed-loop counters, error slot).
   */
  datatype Axis = Axis(sim: Sim, chip: map<Field, int>,
                       encConst: int, maxIterations: int, tolerance: int, resetX: int,
                       enabled: bool, remote: bool, moving: bool, homing: bool, searching: bool,
                       target: int, setPos: int, itersLeft: int, latch: Latch)

  datatype Step = Step(err: int, ax: Axis)
  datatype Query = Query(err: int, value: int, ax: Axis)

  /**
   * The fields no driver operation other than Config writes: Motors' remote,
   * motion and closed-loop bookkeeping and the closed-loop parameter copies.
   */
  predicate Bookkeeping(a: Axis, b: Axis)
  {
    Kept(a) == Kept(b)
  }

  /** The fields of an axis its driver never writes. */
  datatype Ledger = Ledger(remote: bool, moving: bool, searching: bool, target: int, setPos: int, itersLeft: int,
                           encConst: int, maxIterations: int, tolerance: int, resetX: int)

  function Kept(a: Axis): Ledger
  {
    Ledger(a.remote, a.moving, a.searching, a.target, a.setPos, a.itersLeft,
           a.encConst, a.maxIterations, a.tolerance, a.resetX)
  }

  /** The text Motors::SetErrorMsg stores for a board-specific error. */
  function BoardMessage(source: string, board: int, msg: string): string
  {
    source + " error in board " + IntToDec(board) + ": " + msg
  }

  /** The text Motors::SetErrorMsg stores for a general (board -1) error. */
  function GeneralMessage(source: string, msg: string): string
  {
    source + " error: " + msg
  }

  function RaiseBoard(ax: Axis, source: string, board: int, msg: string): (r: Axis)
    ensures r.latch.flag && r == ax.(latch := r.latch)
    ensures Bookkeeping(ax, r)
  {
    ax.(latch := Raise(ax.latch, BoardMessage(source, board, msg)))
  }

  /** TMC::SetErrorMsg forwards to the board slot with source "TMC". */
  function TmcError(c: Ctx, ax: Axis, msg: string): (s: Step)
    ensures s.err == ErrTmc && s.ax.latch.flag && s.ax == ax.(latch := s.ax.latch)
    ensures Bookkeeping(ax, s.ax)
  {
    Step(ErrTmc, RaiseBoard(ax, "TMC", c.board, msg))
  }

  const NoneMessage := "Motor is defined as MOTOR_NONE"

  function ParamRangeMessage(idx: nat, v: int): string
    requires idx < MotorsNumParams
  {
    Truncate("Parameter " + MotorParamIds[idx] + " out of range (" + IntToDec(v) + ")", TmcMsgSize)
  }

  function ValueRangeMessage(name: string, v: int): string
  {
    Truncate("Value " + name + " out of range (" + IntToDec(v) + ")", TmcMsgSize)
  }

  // ---------------------------------------------------------------------------
  // Enable, homing cancel, error check
  // ---------------------------------------------------------------------------

  /** TMC::CancelHoming: restores the virtual-limit enables and clears homing. */
  function CancelHoming(c: Ctx, ax: Axis): (r: Step)
    requires WellFormed(c)
    ensures r.err == ErrNone && !r.ax.homing
    ensures !ax.homing ==> r.ax == ax
    ensures ax.homing ==> Get(r.ax.chip, EnVirtualStopL) == c.prm[LLEN] && Get(r.ax.chip, EnVirtualStopR) == c.prm[LREN]
    ensures r.ax.latch == ax.latch && r.ax.enabled == ax.enabled && r.ax.sim == ax.sim
    ensures Bookkeeping(ax, r.ax)
  {
    if !ax.homing then Step(ErrNone, ax)
    else
      var chip := ax.chip[EnVirtualStopL := c.prm[LLEN]][EnVirtualStopR := c.prm[LREN]]
                         [LatchLActive := 0][LatchRActive := 0][LatchXAct := 0];
      Step(ErrNone, ax.(chip := chip, homing := false))
  }

  /**
   * TMC::SetEnable. Disabling a real axis stops the ramp (VMAX 0), turns the
   * driver off (TOFF 0) and cancels a homing search; enabling applies MTOF.
   */
  function SetEnable(c: Ctx, ax: Axis, mode: int): (r: Step)
    requires WellFormed(c)
    ensures c.kind != MotorTmc && c.kind != MotorSim ==> r == TmcError(c, ax, NoneMessage)
    ensures c.kind == MotorTmc || c.kind == MotorSim ==>
      r.err == ErrNone && r.ax.enabled == (mode != 0) && r.ax.latch == ax.latch
    ensures c.kind == MotorTmc && mode == 0 ==>
      Get(r.ax.chip, VMax) == 0 && Get(r.ax.chip, TOff) == 0 && !r.ax.homing
    ensures c.kind == MotorTmc && mode == 0 && !ax.homing ==>
      r.ax == ax.(chip := ax.chip[RampMode := ModeVelPos][VMax := 0][TOff := 0], enabled := false)
    ensures c.kind == MotorTmc && mode != 0 ==> r.ax == ax.(chip := ax.chip[TOff := c.prm[MTOF]], enabled := true)
    ensures c.kind == MotorSim ==> r.ax.sim.vel == (if mode == 0 then 0 else ax.sim.vel)
    ensures c.kind == MotorSim ==> r.ax == ax.(sim := r.ax.sim, enabled := mode != 0)
    ensures Bookkeeping(ax, r.ax)
  {
    if c.kind == MotorTmc then
      if mode != 0 then
        Step(ErrNone, ax.(chip := ax.chip[TOff := c.prm[MTOF]], enabled := true))
      else
        var off := ax.(chip := ax.chip[RampMode := ModeVelPos][VMax := 0][TOff := 0], enabled := false);
        if off.homing then CancelHoming(c, off) else Step(ErrNone, off)
    else if c.kind == MotorSim then
      Step(ErrNone, ax.(enabled := mode != 0, sim := if mode == 0 then ax.sim.(vel := 0) else ax.sim))
    else TmcError(c, ax, NoneMessage)
  }

  predicate AnyGStat(g: GStat) { g.reset || g.drvErr || g.uvCp || g.registerReset || g.vmUvlo }

  /**
   * The message CheckError records: the first GSTAT cause in the order the
   * firmware tests them, refined by DRVSTATUS for a driver error. A driver error
   * with none of the DRVSTATUS error bits leaves the C buffer unwritten; the
   * model records an empty message then.
   */
  function CheckErrorMessage(g: GStat, d: DrvStatus): string
  {
    if g.reset then "GSTAT: reset error bit set"
    else if g.uvCp then "GSTAT: undervoltage warning bit set"
    else if g.registerReset then "GSTAT: register reset error bit set"
    else if g.vmUvlo then "GSTAT: undervoltage since last reset bit set"
    else if !g.drvErr then ""
    else if d.s2vsa then "DRVSTATUS: short to supply indicator phase A error bit set"
    else if d.s2vsb then "DRVSTATUS: short to supply indicator phase B error bit set"
    else if d.s2ga then "DRVSTATUS: short to ground indicator phase A error bit set"
    else if d.s2gb then "DRVSTATUS: short to ground indicator phase B error bit set"
    else if d.ola then "DRVSTATUS: open load indicator phase A error bit set"
    else if d.olb then "DRVSTATUS: open load indicator phase B error bit set"
    else if d.stallGuard then "DRVSTATUS: StallGuard error bit set"
    else if d.ot then "DRVSTATUS: overtemperature flag set"
    else if d.otpw then "DRVSTATUS: overtemperature pre-warning flag set"
    else ""
  }

  /**
   * TMC::CheckError: on a real axis any GSTAT error bit disables the driver and
   * records a message; a simulated or undefined axis never reports an error.
   */
  function CheckError(c: Ctx, ax: Axis, r: Readings): (s: Step)
    requires WellFormed(c)
    ensures s.err == ErrNone <==> !(c.kind == MotorTmc && AnyGStat(r.gstat))
    ensures s.err == ErrNone ==> s.ax == ax
    ensures s.err != ErrNone ==> s.err == ErrTmc && !s.ax.enabled && !s.ax.homing && Get(s.ax.chip, VMax) == 0
    ensures Bookkeeping(ax, s.ax)
  {
    if c.kind == MotorTmc && AnyGStat(r.gstat) then
      var off := SetEnable(c, ax, 0);
      TmcError(c, off.ax, CheckErrorMessage(r.gstat, r.drv))
    else Step(ErrNone, ax)
  }

  /**
   * What CheckError records on a driver error: the ramp is stopped in velocity
   * mode with the driver switched off, and the first message is the one for
   * the highest-priority GSTAT or DRVSTATUS bit.
   */
  lemma CheckErrorRecords(c: Ctx, ax: Axis, r: Readings)
    requires WellFormed(c)
    ensures var s := CheckError(c, ax, r);
      (s.err != ErrNone && !ax.homing ==>
        s.ax == RaiseBoard(ax, "TMC", c.board, CheckErrorMessage(r.gstat, r.drv)).(
          chip := ax.chip[RampMode := ModeVelPos][VMax := 0][TOff := 0], enabled := false)) &&
      (s.err != ErrNone && !ax.latch.flag ==>
        s.ax.latch.msg == Truncate(BoardMessage("TMC", c.board, CheckErrorMessage(r.gstat, r.drv)), MaxErrorStringSize))
  {
  }

  // ---------------------------------------------------------------------------
  // Configuration
  // ---------------------------------------------------------------------------

  /** The range Config enforces for parameter idx, if it checks one. */
  function ConfigRange(prm: seq<int>, idx: nat): Option<(int, int)>
    requires |prm| == MotorsNumParams
  {
    if idx == CSCA then Some((32, 255))
    else if idx == CRAN then Some((0, 3))
    else if idx == CRUN || idx == CHOL then Some((0, 31))
    else if idx == MMIC then Some((0, 8))
    else if idx == MINV || idx == MSGE then Some((0, 1))
    else if idx == MTOF then Some((0, 10))
    else if idx == MSGT then Some((-64, 63))
    else if idx == RSEA then Some((0, prm[RMXA]))
    else if idx == EDEV then Some((0, 1000000000))
    else if SLEN <= idx <= LREN then Some((0, 1))
    else None
  }

  predicate InConfigRange(prm: seq<int>, idx: nat)
    requires |prm| == MotorsNumParams
  {
    match ConfigRange(prm, idx)
    case None => true
    case Some(b) => b.0 <= prm[idx] <= b.1
  }

  /**
   * The fields Config writes for parameter idx. MTOF is checked but TOFF is
   * written as 0 so that the motor stays off until enabled; the entry the
   * firmware compares against "MCTC" never matches "MTCT", so TCOOLTHRS is
   * neither checked nor written.
   */
  function ConfigWrites(prm: seq<int>, idx: nat): map<Field, int>
    requires |prm| == MotorsNumParams && idx < MotorsNumParams
  {
    var v := prm[idx];
    if idx == CSCA then map[GlobalScaler := v]
    else if idx == CRAN then map[CurrentRange := v]
    else if idx == CRUN then map[IRun := v]
    else if idx == CHOL then map[IHold := v]
    else if idx == MMIC then map[MRes := v]
    else if idx == MINV then map[Shaft := v]
    else if idx == MTOF then map[TOff := 0]
    else if idx == MSGE then map[SgStop := v]
    else if idx == MSGT then map[Sgt := v]
    else if idx == RSEA then map[AMax := v, DMax := v]
    else if idx == ECON then map[EncSelDecimal := 1, EncConst := v]
    else if idx == EDEV then map[EncDeviation := v]
    else if idx == SLEN then map[StopLEnable := v]
    else if idx == SREN then map[StopREnable := v]
    else if idx == SLPO then map[PolStopL := v]
    else if idx == SRPO then map[PolStopR := v]
    else if idx == SSWP then map[SwapLR := v]
    else if idx == LENC then map[VirtualStopEnc := v]
    else if idx == LLEN then map[EnVirtualStopL := v]
    else if idx == LREN then map[EnVirtualStopR := v]
    else if idx == LLPS then map[VirtualStopL := v]
    else if idx == LRPS then map[VirtualStopR := v]
    else map[]
  }

  /** One pass of the Config loop: check the entry, then write it. */
  function ConfigEntry(c: Ctx, ax: Axis, idx: nat): (s: Step)
    requires WellFormed(c) && idx < MotorsNumParams
    ensures s.err == ErrNone <==> InConfigRange(c.prm, idx)
    ensures s.err != ErrNone ==> s == TmcError(c, ax, ParamRangeMessage(idx, c.prm[idx]))
    ensures s.err == ErrNone ==> s.ax.latch == ax.latch && s.ax.chip == ax.chip + ConfigWrites(c.prm, idx)
    ensures Untouched(ax, s.ax)
  {
    if !InConfigRange(c.prm, idx) then TmcError(c, ax, ParamRangeMessage(idx, c.prm[idx]))
    else
      var v := c.prm[idx];
      Step(ErrNone, ax.(chip := ax.chip + ConfigWrites(c.prm, idx),
                        encConst := if idx == ECON then v else ax.encConst,
                        maxIterations := if idx == EMAX then v else ax.maxIterations,
                        tolerance := if idx == ETOL then v else ax.tolerance,
                        resetX := if idx == ERST then v else ax.resetX))
  }

  /** The Config loop from entry idx on, stopping at the first refused entry. */
  function ConfigFrom(c: Ctx, ax: Axis, idx: nat): (s: Step)
    requires WellFormed(c) && idx <= MotorsNumParams
    ensures Untouched(ax, s.ax)
    decreases MotorsNumParams - idx
  {
    if idx == MotorsNumParams then Step(ErrNone, ax)
    else
      var s := ConfigEntry(c, ax, idx);
      if s.err != ErrNone then s else ConfigFrom(c, s.ax, idx + 1)
  }

  /** The first entry from idx on that Config refuses. */
  predicate FirstRefused(prm: seq<int>, from: nat, k: nat)
    requires |prm| == MotorsNumParams
  {
    from <= k < MotorsNumParams && !InConfigRange(prm, k)
    && forall j :: from <= j < k ==> InConfigRange(prm, j)
  }

  /** The Config loop succeeds exactly when every checked entry is in range; a failure is ERR_TMC. */
  lemma ConfigFromOutcome(c: Ctx, ax: Axis, idx: nat)
    requires WellFormed(c) && idx <= MotorsNumParams
    ensures ConfigFrom(c, ax, idx).err == ErrNone <==> forall k :: idx <= k < MotorsNumParams ==> InConfigRange(c.prm, k)
    ensures ConfigFrom(c, ax, idx).err != ErrNone ==> ConfigFrom(c, ax, idx).err == ErrTmc
  {
    ConfigFromAccepts(c, ax, idx);
    ConfigFromTmcError(c, ax, idx);
  }

  /** The success half of ConfigFromOutcome. */
  lemma {:induction false} ConfigFromAccepts(c: Ctx, ax: Axis, idx: nat)
    requires WellFormed(c) && idx <= MotorsNumParams
    ensures ConfigFrom(c, ax, idx).err == ErrNone <==> forall k :: idx <= k < MotorsNumParams ==> InConfigRange(c.prm, k)
    decreases MotorsNumParams - idx
  {
    if idx < MotorsNumParams {
      var s := ConfigEntry(c, ax, idx);
      if s.err == ErrNone {
        ConfigFromAccepts(c, s.ax, idx + 1);
      }
    }
  }

  /** The failure half of ConfigFromOutcome. */
  lemma {:induction false} ConfigFromTmcError(c: Ctx, ax: Axis, idx: nat)
    requires WellFormed(c) && idx <= MotorsNumParams
    ensures ConfigFrom(c, ax, idx).err != ErrNone ==> ConfigFrom(c, ax, idx).err == ErrTmc
    decreases MotorsNumParams - idx
  {
    if idx < MotorsNumParams {
      var s := ConfigEntry(c, ax, idx);
      if s.err == ErrNone {
        ConfigFromTmcError(c, s.ax, idx + 1);
      }
    }
  }

  /** A refused entry k, with every earlier entry from idx on accepted, sets the message of entry k. */
  lemma {:induction false} ConfigFromFirstRefused(c: Ctx, ax: Axis, idx: nat, k: nat)
    requires WellFormed(c) && idx <= MotorsNumParams && FirstRefused(c.prm, idx, k)
    ensures ConfigFrom(c, ax, idx).ax.latch == Raise(ax.latch, BoardMessage("TMC", c.board, ParamRangeMessage(k, c.prm[k])))
    decreases MotorsNumParams - idx
  {
    var s := ConfigEntry(c, ax, idx);
    if k != idx {
      assert FirstRefused(c.prm, idx + 1, k);
      ConfigFromFirstRefused(c, s.ax, idx + 1, k);
    }
  }

  /** What Config leaves alone: the remote flag and the closed-loop state of Motors. */
  predicate Untouched(a: Axis, b: Axis)
  {
    a.remote == b.remote && a.searching == b.searching && a.target == b.target &&
    a.setPos == b.setPos && a.itersLeft == b.itersLeft
  }

  function ClearMotion(ax: Axis): Axis
  {
    ax.(enabled := false, moving := false, homing := false)
  }

  /**
   * TMC::Config. A real axis is checked for driver errors, then every parameter
   * is range-checked and written in ID-list order, and the ramp is parked at the
   * current position (the encoder position when an encoder is configured). A
   * simulated axis takes its travel limits from the virtual-limit parameters and
   * starts at rest at 0. Success clears enabled, moving and homing.
   */
  function Config(c: Ctx, ax: Axis, r: Readings): (s: Step)
    requires WellFormed(c)
  {
    if c.kind == MotorTmc then ConfigTmc(c, ax, r)
    else if c.kind == MotorSim then Step(ErrNone, ConfigSim(c, ax))
    else TmcError(c, ax, NoneMessage)
  }

  /** Config on a real axis. */
  function ConfigTmc(c: Ctx, ax: Axis, r: Readings): (s: Step)
    requires WellFormed(c)
  {
    var e := CheckError(c, ax, r);
    if e.err != ErrNone then e
    else
      var l := ConfigFrom(c, e.ax, 0);
      if l.err != ErrNone then l
      else Step(ErrNone, ClearMotion(ParkRamp(c, l.ax, r)))
  }

  /** Config on a simulated axis. */
  function ConfigSim(c: Ctx, ax: Axis): (a: Axis)
    requires WellFormed(c)
  {
    var xmin := if c.prm[LLEN] != 0 then c.prm[LLPS] else Int32Min;
    var xmax := if c.prm[LREN] != 0 then c.prm[LRPS] else Int32Max;
    ClearMotion(ax.(encConst := 0, maxIterations := 1,
                    sim := ax.sim.(xmin := xmin, xmax := xmax, xact := 0, xenc := 0, vel := 0)))
  }
  /**
   * Config's outcomes: no driver is an error; success leaves the axis
   * disabled, idle and not homing, with the closed-loop copies of a real
   * axis taken from the table and its ramp parked in position mode at the
   * current position, and a simulated axis at rest at 0 with the travel
   * limits of the virtual-limit parameters; Motors' closed-loop state is
   * never touched.
   */
  lemma ConfigOutcome(c: Ctx, ax: Axis, r: Readings)
    requires WellFormed(c)
    ensures var s := Config(c, ax, r);
      (c.kind != MotorTmc && c.kind != MotorSim ==> s == TmcError(c, ax, NoneMessage)) &&
      (s.err == ErrNone ==> !s.ax.enabled && !s.ax.moving && !s.ax.homing) &&
      Untouched(ax, s.ax) &&
      (c.kind == MotorSim ==>
        s.err == ErrNone && s.ax.encConst == 0 && s.ax.maxIterations == 1 &&
        s.ax.sim == ax.sim.(xact := 0, xenc := 0, vel := 0,
                            xmin := if c.prm[LLEN] != 0 then c.prm[LLPS] else Int32Min,
                            xmax := if c.prm[LREN] != 0 then c.prm[LRPS] else Int32Max)) &&
      (c.kind == MotorTmc && s.err == ErrNone ==>
        s.ax.encConst == c.prm[ECON] && s.ax.maxIterations == c.prm[EMAX] &&
        s.ax.tolerance == c.prm[ETOL] && s.ax.resetX == c.prm[ERST] &&
        Get(s.ax.chip, RampMode) == ModePosition &&
        Get(s.ax.chip, XTarget) == (if c.prm[ECON] != 0 then r.xenc else r.xactual))
  {
    if c.kind == MotorTmc {
      var e := CheckError(c, ax, r);
      if e.err == ErrNone && ConfigFrom(c, e.ax, 0).err == ErrNone {
        ConfigCopies(c, e.ax, 0);
      }
    }
  }


  /**
   * The end of a real-axis Config: the over-temperature threshold is set and the
   * ramp is parked in position mode at the current position, taken from the
   * encoder (and copied into XACTUAL) when one is configured.
   */
  function ParkRamp(c: Ctx, a: Axis, r: Readings): (p: Axis)
    requires WellFormed(c)
    ensures Get(p.chip, RampMode) == ModePosition
    ensures Get(p.chip, XTarget) == (if c.prm[ECON] != 0 then r.xenc else r.xactual)
    ensures p == a.(chip := p.chip)
  {
    var pos := if c.prm[ECON] != 0 then r.xenc else r.xactual;
    var chip := a.chip[OvertempPrewarnVth := OvertempPrewarn];
    var chip := if c.prm[ECON] != 0 then chip[XActual := pos] else chip;
    a.(chip := chip[XTarget := pos][RampMode := ModePosition])
  }

  /** A completed Config loop has copied the closed-loop parameters it passed. */
  lemma {:induction false} ConfigCopies(c: Ctx, ax: Axis, idx: nat)
    requires WellFormed(c) && idx <= MotorsNumParams && ConfigFrom(c, ax, idx).err == ErrNone
    ensures var a := ConfigFrom(c, ax, idx).ax;
      a.encConst == (if idx <= ECON then c.prm[ECON] else ax.encConst) &&
      a.maxIterations == (if idx <= EMAX then c.prm[EMAX] else ax.maxIterations) &&
      a.tolerance == (if idx <= ETOL then c.prm[ETOL] else ax.tolerance) &&
      a.resetX == (if idx <= ERST then c.prm[ERST] else ax.resetX)
    decreases MotorsNumParams - idx
  {
    if idx < MotorsNumParams {
      var s := ConfigEntry(c, ax, idx);
      ConfigCopies(c, s.ax, idx + 1);
    }
  }

  // ---------------------------------------------------------------------------
  // Motion commands
  // ---------------------------------------------------------------------------

  /** The SIM target clamp: first raised to xmin, then lowered to xmax. */
  function Clamp(pos: int, lo: int, hi: int): (p: int)
    ensures lo <= hi ==> lo <= p <= hi
    ensures lo <= pos <= hi ==> p == pos
    ensures pos > hi ==> p == hi
  {
    var p := if pos < lo then lo else pos;
    if p > hi then hi else p
  }

  /**
   * TMC::MoveAtVel. The velocity limit |v| <= RMXV is checked before anything
   * changes; a real axis switches to the velocity ramp of v's sign.
   */
  function MoveAtVel(c: Ctx, ax: Axis, v: int, r: Readings, now: int): (s: Step)
    requires WellFormed(c)
    ensures !(-c.prm[RMXV] <= v <= c.prm[RMXV]) ==> s == TmcError(c, ax, ValueRangeMessage("VEL", v))
    ensures -c.prm[RMXV] <= v <= c.prm[RMXV] && c.kind == MotorSim ==>
      s == Step(ErrNone, ax.(sim := ax.sim.(vel := v, lastVelCalcTime := now)))
    ensures -c.prm[RMXV] <= v <= c.prm[RMXV] && c.kind == MotorTmc && s.err == ErrNone ==>
      Get(s.ax.chip, VMax) == Abs(v) && Get(s.ax.chip, RampMode) == (if v > 0 then ModeVelPos else ModeVelNeg)
    ensures Bookkeeping(ax, s.ax)
  {
    if !(-c.prm[RMXV] <= v <= c.prm[RMXV]) then TmcError(c, ax, ValueRangeMessage("VEL", v))
    else if c.kind == MotorTmc then
      var chip := ax.chip[RampMode := if v > 0 then ModeVelPos else ModeVelNeg][VMax := Abs(v)];
      CheckError(c, ax.(chip := chip), r)
    else if c.kind == MotorSim then
      Step(ErrNone, ax.(sim := ax.sim.(vel := v, lastVelCalcTime := now)))
    else TmcError(c, ax, NoneMessage)
  }

  /**
   * TMC::MoveToPos. A real axis gets a position ramp to pos (at RSEV when setVel);
   * a simulated axis lands at once on pos clamped into its travel limits.
   */
  function MoveToPos(c: Ctx, ax: Axis, pos: int, setVel: bool, r: Readings): (s: Step)
    requires WellFormed(c)
    ensures c.kind == MotorSim ==>
      var p := Clamp(pos, ax.sim.xmin, ax.sim.xmax);
      s == Step(ErrNone, ax.(sim := ax.sim.(vel := 0, xact := p, xenc := p)))
    ensures c.kind == MotorTmc && s.err == ErrNone ==>
      Get(s.ax.chip, XTarget) == pos && Get(s.ax.chip, RampMode) == ModePosition &&
      Get(s.ax.chip, VMax) == (if setVel then c.prm[RSEV] else Get(ax.chip, VMax))
    ensures c.kind == MotorTmc && !ax.homing ==>
      Get(s.ax.chip, XTarget) == pos && !s.ax.homing
    ensures c.kind != MotorTmc && c.kind != MotorSim ==> s == TmcError(c, ax, NoneMessage)
    ensures Bookkeeping(ax, s.ax)
  {
    if c.kind == MotorTmc then
      var chip := ax.chip[RampMode := ModePosition];
      var chip := if setVel then chip[VMax := c.prm[RSEV]] else chip;
      CheckError(c, ax.(chip := chip[XTarget := pos]), r)
    else if c.kind == MotorSim then
      var p := Clamp(pos, ax.sim.xmin, ax.sim.xmax);
      Step(ErrNone, ax.(sim := ax.sim.(vel := 0, xact := p, xenc := p)))
    else TmcError(c, ax, NoneMessage)
  }

  /** TMC::SetXPos: redefines the current position as pos without moving. */
  function SetXPos(c: Ctx, ax: Axis, pos: int): (s: Step)
    requires WellFormed(c)
    ensures s.err == ErrNone && s.ax.latch == ax.latch
    ensures c.kind == MotorTmc ==>
      s.ax == ax.(chip := ax.chip[XTarget := pos][XActual := pos][VMax := Get(ax.chip, VMax)])
    ensures c.kind == MotorSim ==> s.ax == ax.(sim := ax.sim.(vel := 0, xact := pos, xtar := pos))
    ensures c.kind != MotorTmc && c.kind != MotorSim ==> s.ax == ax
    ensures Bookkeeping(ax, s.ax)
  {
    if c.kind == MotorTmc then
      var vel := Get(ax.chip, VMax);
      Step(ErrNone, ax.(chip := ax.chip[VMax := 0][XTarget := pos][XActual := pos][VMax := vel]))
    else if c.kind == MotorSim then
      Step(ErrNone, ax.(sim := ax.sim.(vel := 0, xact := pos, xtar := pos)))
    else Step(ErrNone, ax)
  }

  /** TMC::GetPos: XACTUAL, or the simulated position. */
  function GetPos(c: Ctx, ax: Axis, r: Readings): (q: Query)
    requires WellFormed(c)
    ensures q.err == ErrNone <==> c.kind == MotorTmc || c.kind == MotorSim
    ensures q.err == ErrNone ==> q.ax == ax && q.value == (if c.kind == MotorTmc then r.xactual else ax.sim.xact)
    ensures Bookkeeping(ax, q.ax)
  {
    if c.kind == MotorTmc then Query(ErrNone, r.xactual, ax)
    else if c.kind == MotorSim then Query(ErrNone, ax.sim.xact, ax)
    else var e := TmcError(c, ax, NoneMessage); Query(e.err, 0, e.ax)
  }

  /** TMC::GetEnc: XENC; a simulated axis reports its position xact. */
  function GetEnc(c: Ctx, ax: Axis, r: Readings): (q: Query)
    requires WellFormed(c)
    ensures q.err == ErrNone <==> c.kind == MotorTmc || c.kind == MotorSim
    ensures q.err == ErrNone ==> q.ax == ax && q.value == (if c.kind == MotorTmc then r.xenc else ax.sim.xact)
    ensures Bookkeeping(ax, q.ax)
  {
    if c.kind == MotorTmc then Query(ErrNone, r.xenc, ax)
    else if c.kind == MotorSim then Query(ErrNone, ax.sim.xact, ax)
    else var e := TmcError(c, ax, NoneMessage); Query(e.err, 0, e.ax)
  }

  // ---------------------------------------------------------------------------
  // Homing
  // ---------------------------------------------------------------------------

  /**
   * The reason a real-axis homing start is refused before homing is set, in
   * the order the firmware checks, or None when homing may start.
   */
  function HomingRefusal(prm: seq<int>): Option<string>
    requires |prm| == MotorsNumParams
  {
    if RangeRefusal(prm).Some? then RangeRefusal(prm) else ModeRefusal(prm)
  }

  /** The HSST and HMOD range checks of StartHoming. */
  function RangeRefusal(prm: seq<int>): Option<string>
    requires |prm| == MotorsNumParams
  {
    if !(0 <= prm[HSST] <= 1) then Some(ParamRangeMessage(HSST, prm[HSST]))
    else if !(0 <= prm[HMOD] <= 2) then Some(ParamRangeMessage(HMOD, prm[HMOD]))
    else None
  }

  /** The search-mode, direction, switch and index checks of StartHoming. */
  function ModeRefusal(prm: seq<int>): Option<string>
    requires |prm| == MotorsNumParams
  {
    if prm[HMOD] == 0 then Some("Homing disabled by config setting")
    else if Abs(prm[HDIR]) != 1 then Some("Homing direction undefined (needs -1 or 1)")
    else if prm[HMOD] == 1 && prm[if prm[HDIR] == 1 then SREN else SLEN] != 1 then
      Some("Homing only allowed if switch is enabled")
    else if prm[HMOD] == 2 && !(0 <= prm[HNEV] <= 3) then Some("Invalid index homeing mode (needs 0..3)")
    else None
  }

  /**
   * TMC::StartHoming. A real axis arms the latch for the search mode (limit
   * switch or index) on the homing side, lifts that side's virtual limit and
   * starts a velocity ramp at HVEL. The HVEL limit is checked only after homing
   * is set. A simulated axis is homed at once.
   */
  function StartHoming(c: Ctx, ax: Axis, r: Readings): (s: Step)
    requires WellFormed(c)
    ensures c.kind == MotorTmc && HomingRefusal(c.prm).Some? ==> s == TmcError(c, ax, HomingRefusal(c.prm).value)
    ensures c.kind == MotorTmc && HomingRefusal(c.prm).None? && !(0 <= c.prm[HVEL] <= c.prm[RMXV]) ==>
      s.err == ErrTmc && s.ax.homing
    ensures c.kind == MotorTmc && s.err == ErrNone ==>
      s.ax.homing && Get(s.ax.chip, VMax) == c.prm[HVEL] &&
      Get(s.ax.chip, RampMode) == (if c.prm[HDIR] == 1 then ModeVelPos else ModeVelNeg) &&
      Get(s.ax.chip, if c.prm[HDIR] == 1 then EnVirtualStopR else EnVirtualStopL) == 0
    ensures c.kind == MotorSim ==>
      s == Step(ErrNone, ax.(sim := ax.sim.(xact := 0, xenc := 0, vel := 0), homing := false))
    ensures c.kind != MotorTmc && c.kind != MotorSim ==> s == TmcError(c, ax, NoneMessage)
    ensures Bookkeeping(ax, s.ax)
  {
    if c.kind == MotorTmc then
      match HomingRefusal(c.prm)
      case Some(msg) => TmcError(c, ax, msg)
      case None => ArmHoming(c, ax, r)
    else if c.kind == MotorSim then
      Step(ErrNone, ax.(sim := ax.sim.(xact := 0, xenc := 0, vel := 0), homing := false))
    else TmcError(c, ax, NoneMessage)
  }

  /**
   * The arming half of a real-axis StartHoming, once every check has passed:
   * homing is set, the latch for the search mode is armed on the homing side,
   * that side's virtual limit lifted and the velocity ramp started at HVEL
   * (which is range-checked only now).
   */
  function ArmHoming(c: Ctx, ax: Axis, r: Readings): (s: Step)
    requires WellFormed(c) && HomingRefusal(c.prm).None?
    ensures !(0 <= c.prm[HVEL] <= c.prm[RMXV]) ==> s.err == ErrTmc && s.ax.homing
    ensures c.kind == MotorTmc && s.err == ErrNone ==>
      s.ax.homing && Get(s.ax.chip, VMax) == c.prm[HVEL] &&
      Get(s.ax.chip, RampMode) == (if c.prm[HDIR] == 1 then ModeVelPos else ModeVelNeg) &&
      Get(s.ax.chip, if c.prm[HDIR] == 1 then EnVirtualStopR else EnVirtualStopL) == 0
    ensures Bookkeeping(ax, s.ax)
  {
    var armed := ArmLatch(c, ax);
    if !(0 <= c.prm[HVEL] <= c.prm[RMXV]) then TmcError(c, armed, ValueRangeMessage("HVEL", c.prm[HVEL]))
    else CheckError(c, armed.(chip := armed.chip[VMax := c.prm[HVEL]]), r)
  }

  /** The latch and direction writes of a real-axis homing start; homing is set. */
  function ArmLatch(c: Ctx, ax: Axis): (a: Axis)
    requires WellFormed(c) && HomingRefusal(c.prm).None?
    ensures a == ax.(chip := a.chip, homing := true)
  {
    var mode := c.prm[HMOD];
    var dir := c.prm[HDIR];
    var chip := if mode == 2 then ax.chip[IgnoreAB := 1][ClrCont := 1][PosNegEdge := c.prm[HNEV]] else ax.chip;
    var chip := chip[EnSoftStop := c.prm[HSST]];
    var latchField := if mode == 1 then (if dir == -1 then LatchLActive else LatchRActive) else LatchXAct;
    var chip := if dir == -1 then chip[EnVirtualStopL := 0][latchField := 1][RampMode := ModeVelNeg]
                else chip[EnVirtualStopR := 0][latchField := 1][RampMode := ModeVelPos];
    ax.(chip := chip, homing := true)
  }

  /**
   * TMC::EndHoming, with the stand-still waits collapsed to the final STST
   * reading: once stopped, the latched position becomes the new zero (XACTUAL
   * and, with an encoder, XENC are shifted by XLATCH), the virtual limits and
   * latches are restored and the axis is sent to 0 at the set velocity. The
   * outcome of that last move is not looked at.
   */
  function EndHoming(c: Ctx, ax: Axis, r: Readings): (s: Step)
    requires WellFormed(c) && c.kind == MotorTmc
    ensures !s.ax.homing && Bookkeeping(ax, s.ax)
  {
    if !r.standstill then Step(ErrTmc, AbortHoming(c, ax)) else ReturnToZero(c, ax.(homing := false), LatchZero(r), r)
  }

  /** Homing on an axis that has not stopped ends with the driver switched off and VMAX 0. */
  lemma EndHomingAborts(c: Ctx, ax: Axis, r: Readings)
    requires WellFormed(c) && c.kind == MotorTmc && !r.standstill
    ensures var s := EndHoming(c, ax, r);
      s.err == ErrTmc && !s.ax.homing && !s.ax.enabled && Get(s.ax.chip, VMax) == 0 && s.ax.latch.flag
  {
  }

  /**
   * Homing on a stopped axis makes the latched position the new zero, restores
   * the virtual limits and sends the axis to 0.
   */
  lemma EndHomingRezeroes(c: Ctx, ax: Axis, r: Readings)
    requires WellFormed(c) && c.kind == MotorTmc && r.standstill
    ensures var s := EndHoming(c, ax, r);
      s.err == ErrNone && !s.ax.homing && Get(s.ax.chip, XTarget) == 0 &&
      Get(s.ax.chip, XActual) == LatchZero(r) &&
      Get(s.ax.chip, EnVirtualStopL) == c.prm[LLEN] && Get(s.ax.chip, EnVirtualStopR) == c.prm[LREN]
  {
    var a := Rezero(c, ax.(homing := false), LatchZero(r));
    MoveToPosKeeps(c, a, 0, true, r, XActual);
    MoveToPosKeeps(c, a, 0, true, r, EnVirtualStopL);
    MoveToPosKeeps(c, a, 0, true, r, EnVirtualStopR);
  }

  /** A real-axis MoveToPos outside homing writes only the ramp registers, and TOFF when CheckError stops the driver. */
  lemma MoveToPosKeeps(c: Ctx, ax: Axis, pos: int, setVel: bool, r: Readings, f: Field)
    requires WellFormed(c) && c.kind == MotorTmc && !ax.homing && f !in {RampMode, VMax, XTarget, TOff}
    ensures Get(MoveToPos(c, ax, pos, setVel, r).ax.chip, f) == Get(ax.chip, f)
  {
    var ramp := ax.chip[RampMode := ModePosition];
    var vel := if setVel then ramp[VMax := c.prm[RSEV]] else ramp;
    CheckErrorKeeps(c, ax.(chip := vel[XTarget := pos]), r, f);
  }

  /** CheckError outside homing writes only RAMPMODE, VMAX and TOFF. */
  lemma CheckErrorKeeps(c: Ctx, ax: Axis, r: Readings, f: Field)
    requires WellFormed(c) && c.kind == MotorTmc && !ax.homing && f !in {RampMode, VMax, TOff}
    ensures Get(CheckError(c, ax, r).ax.chip, f) == Get(ax.chip, f)
  {
    CheckErrorRecords(c, ax, r);
  }

  /** EndHoming on an axis still moving: the board error, then the driver is switched off. */
  function AbortHoming(c: Ctx, ax: Axis): (a: Axis)
    requires WellFormed(c) && c.kind == MotorTmc
    ensures !a.homing && !a.enabled && Get(a.chip, VMax) == 0 && a.latch.flag
    ensures Bookkeeping(ax, a)
  {
    SetEnable(c, TmcError(c, ax.(homing := false), "Motor hasn't stopped after homing position reached").ax, 0).ax
  }

  /**
   * EndHoming on a stopped axis: the latched position becomes the new zero, the
   * virtual limits are restored and the axis is sent to 0.
   */
  function ReturnToZero(c: Ctx, ax: Axis, zero: int, r: Readings): Step
    requires WellFormed(c) && c.kind == MotorTmc && !ax.homing
  {
    ClearEncoder(MoveToPos(c, Rezero(c, ax, zero), 0, true, r).ax)
  }

  /** The XACTUAL value that makes the latched position 0: XACTUAL - XLATCH in int32 arithmetic. */
  function LatchZero(r: Readings): int
  {
    WrapInt32(r.xactual - r.xlatch)
  }

  /** The final XENC reset of EndHoming, done only when an encoder is configured. */
  function ClearEncoder(ax: Axis): (s: Step)
    ensures s.err == ErrNone && s.ax.homing == ax.homing
    ensures Get(ax.chip, EncConst) != 0 ==> Get(s.ax.chip, XEnc) == 0
    ensures Bookkeeping(ax, s.ax)
  {
    Step(ErrNone, ax.(chip := if Get(ax.chip, EncConst) != 0 then ax.chip[XEnc := 0] else ax.chip))
  }

  /**
   * The register rewrite of EndHoming: with the driver off, XACTUAL (and XENC
   * when an encoder is configured) becomes `zero`; the driver is switched back
   * on, the virtual-limit enables are restored and the latches disarmed.
   */
  function Rezero(c: Ctx, ax: Axis, zero: int): (a: Axis)
    requires WellFormed(c) && c.kind == MotorTmc && !ax.homing
    ensures !a.homing && a.enabled && a.latch == ax.latch
    ensures Get(a.chip, XActual) == zero
    ensures Get(a.chip, EnVirtualStopL) == c.prm[LLEN] && Get(a.chip, EnVirtualStopR) == c.prm[LREN]
    ensures Bookkeeping(ax, a)
  {
    var off := SetEnable(c, ax, 0).ax;
    var on := SetEnable(c, off.(chip := off.chip[XActual := zero]), 1).ax;
    var chip := if Get(on.chip, EncConst) != 0 then on.chip[XEnc := zero] else on.chip;
    on.(chip := chip[EnVirtualStopL := c.prm[LLEN]][EnVirtualStopR := c.prm[LREN]]
                    [LatchLActive := 0][LatchRActive := 0][LatchXAct := 0])
  }

  // ---------------------------------------------------------------------------
  // Status
  // ---------------------------------------------------------------------------

  /**
   * TMC::SetStatusValue. ENAB is always accepted (and its outcome ignored);
   * every other entry is refused while the axis is under remote control.
   * VELO is limited to |v| <= RMXV and ACCE to 0..RMXA on a real axis. On a
   * simulated axis XTAR writes the position itself.
   */
  function SetStatusValue(c: Ctx, ax: Axis, idx: nat, v: int): (s: Step)
    requires WellFormed(c) && idx < MotorsNumStatus
    ensures Bookkeeping(ax, s.ax)
  {
    if c.kind != MotorTmc && c.kind != MotorSim then TmcError(c, ax, NoneMessage)
    else if idx == SENAB then SetEnable(c, ax, v).(err := ErrNone)
    else if ax.remote then Step(ErrMotor, RaiseBoard(ax, "TMC", c.board, "Motor is under remote control"))
    else if c.kind == MotorTmc then WriteTmcValue(c, ax, idx, v)
    else Step(ErrNone, WriteSimValue(ax, idx, v))
  }

  /** The register writes of SetStatusValue on a real driver; VELO and ACCE are range checked. */
  function WriteTmcValue(c: Ctx, ax: Axis, idx: nat, v: int): (s: Step)
    requires WellFormed(c)
    ensures Bookkeeping(ax, s.ax)
  {
    if idx == XACT then Step(ErrNone, ax.(chip := ax.chip[XActual := v]))
    else if idx == XTAR then Step(ErrNone, ax.(chip := ax.chip[XTarget := v]))
    else if idx == XENC then Step(ErrNone, ax.(chip := ax.chip[XEnc := v]))
    else if idx == VELO then
      if !(-c.prm[RMXV] <= v <= c.prm[RMXV]) then TmcError(c, ax, ValueRangeMessage("VELO", v))
      else Step(ErrNone, ax.(chip := ax.chip[VMax := v]))
    else if idx == ACCE then
      if !(0 <= v <= c.prm[RMXA]) then TmcError(c, ax, ValueRangeMessage("ACCE", v))
      else Step(ErrNone, ax.(chip := ax.chip[AMax := v][DMax := v]))
    else Step(ErrNone, ax)
  }

  /** The simulated counterpart: XACT and XTAR both set the simulated position. */
  function WriteSimValue(ax: Axis, idx: nat, v: int): (a: Axis)
    ensures Bookkeeping(ax, a)
  {
    if idx == XACT || idx == XTAR then ax.(sim := ax.sim.(xact := v))
    else if idx == XENC then ax.(sim := ax.sim.(xenc := v))
    else if idx == VELO then ax.(sim := ax.sim.(vel := v))
    else ax
  }

  /**
   * SetStatusValue's outcomes: ENAB always succeeds with SetEnable; other
   * values are refused under remote control; VELO and ACCE are range checked
   * on a real driver; a simulated driver takes every value; a board with no
   * driver reports the missing device.
   */
  lemma SetStatusValueOutcome(c: Ctx, ax: Axis, idx: nat, v: int)
    requires WellFormed(c) && idx < MotorsNumStatus
    ensures var s := SetStatusValue(c, ax, idx, v);
      ((c.kind == MotorTmc || c.kind == MotorSim) && idx == SENAB ==> s == SetEnable(c, ax, v).(err := ErrNone)) &&
      ((c.kind == MotorTmc || c.kind == MotorSim) && idx != SENAB && ax.remote ==>
        s == Step(ErrMotor, RaiseBoard(ax, "TMC", c.board, "Motor is under remote control"))) &&
      (c.kind == MotorTmc && idx == VELO && !ax.remote ==> (s.err == ErrNone <==> -c.prm[RMXV] <= v <= c.prm[RMXV])) &&
      (c.kind == MotorTmc && idx == ACCE && !ax.remote ==> (s.err == ErrNone <==> 0 <= v <= c.prm[RMXA])) &&
      (c.kind == MotorSim && idx != SENAB && !ax.remote ==> s.err == ErrNone) &&
      (c.kind != MotorTmc && c.kind != MotorSim ==> s == TmcError(c, ax, NoneMessage))
  {
  }

  /**
   * TMC::GetStatusValue. Values not bound to a register (PULL, which Motors
   * answers itself) read as 0.
   */
  function GetStatusValue(c: Ctx, ax: Axis, idx: nat, r: Readings): (q: Query)
    requires WellFormed(c) && idx < MotorsNumStatus
    ensures q.err == ErrNone <==> c.kind == MotorTmc || c.kind == MotorSim
    ensures q.err == ErrNone ==> q.ax == ax
    ensures q.err == ErrNone && idx == SENAB ==> q.value == (if ax.enabled then 1 else 0)
    ensures c.kind == MotorSim && (idx == XACT || idx == XTAR) ==> q.value == ax.sim.xact
    ensures Bookkeeping(ax, q.ax)
  {
    if c.kind == MotorTmc then
      var v := if idx == XACT then r.xactual
               else if idx == XTAR then Get(ax.chip, XTarget)
               else if idx == XENC then r.xenc
               else if idx == VELO then Get(ax.chip, VMax)
               else if idx == ACCE then Get(ax.chip, AMax)
               else if idx == SENAB then (if ax.enabled then 1 else 0)
               else if idx == TEMP then r.tempC
               else 0;
      Query(ErrNone, v, ax)
    else if c.kind == MotorSim then
      var v := if idx == XACT || idx == XTAR then ax.sim.xact
               else if idx == XENC then ax.sim.xenc
               else if idx == VELO then ax.sim.vel
               else if idx == SENAB then (if ax.enabled then 1 else 0)
               else 0;
      Query(ErrNone, v, ax)
    else var e := TmcError(c, ax, NoneMessage); Query(e.err, 0, e.ax)
  }

  datatype Status = Status(err: int, done: bool, ax: Axis)

  /**
   * The distance a simulated axis travels at vel in the time since the last
   * update: the uint32 elapsed time cast to int32, multiplied in 32 bits and
   * divided by 1000 with C truncation.
   */
  function SimTravel(now: int, last: int, vel: int): int
  {
    TruncDiv(WrapInt32(WrapInt32(Elapsed(now, last)) * vel), 1000)
  }

  /** The stop that ended a real-axis CheckStatus, and whether it disables. */
  function StopOutcome(c: Ctx, ax: Axis, statusStop: bool, statusVirtual: bool, side: string): (s: Step)
    requires WellFormed(c) && c.kind == MotorTmc
    ensures s.err == ErrTmc && s.ax.latch.flag && s.ax.homing == (ax.homing && statusVirtual && !statusStop)
    ensures s.ax.enabled == (ax.enabled && statusVirtual && !statusStop)
    ensures Bookkeeping(ax, s.ax)
  {
    if statusStop then
      var e := TmcError(c, ax, side + " limit switch reached");
      SetEnable(c, e.ax, 0).(err := ErrTmc)
    else if statusVirtual then TmcError(c, ax, side + " virtual limit switch reached")
    else
      var e := TmcError(c, ax, "Unknown " + ToLower(side) + " stop condition");
      SetEnable(c, e.ax, 0).(err := ErrTmc)
  }

  function ToLower(side: string): string
  {
    if side == "Left" then "left" else "right"
  }

  /**
   * TMC::CheckStatus. A real axis reports done when the position was reached;
   * a following error, a stall, a hard limit switch or an unknown stop disables
   * it and fails; a virtual-limit stop fails but leaves it enabled; a latch
   * while homing completes the homing. A simulated axis is done exactly when it
   * is at rest; otherwise it advances by its velocity and is stopped at its
   * travel limits. (`done` is false where the firmware leaves it unset.)
   */
  function CheckStatus(c: Ctx, ax: Axis, r: Readings, now: int): (s: Status)
    requires WellFormed(c)
    ensures c.kind == MotorSim ==> s.err == ErrNone && s.done == (ax.sim.vel == 0)
    ensures c.kind == MotorSim ==> s.ax.sim.xenc == s.ax.sim.xact && s.ax.sim.lastVelCalcTime == now
    ensures c.kind == MotorSim && ax.sim.xmin <= ax.sim.xmax ==> ax.sim.xmin <= s.ax.sim.xact <= ax.sim.xmax
    ensures c.kind == MotorTmc && (r.devWarn || r.ramp.eventStopSg) ==> s.err == ErrTmc && !s.ax.enabled
    ensures c.kind == MotorTmc && !r.devWarn && !r.ramp.eventStopSg && !(ax.homing && (r.ramp.statusLatchL || r.ramp.statusLatchR)) ==>
      (s.err == ErrNone <==> !r.ramp.eventStopL && !r.ramp.eventStopR)
    ensures c.kind == MotorTmc && !r.devWarn ==> s.done == (r.ramp.eventPosReached || r.ramp.positionReached)
    ensures c.kind != MotorTmc && c.kind != MotorSim ==> s.err == ErrTmc
    ensures Bookkeeping(ax, s.ax)
  {
    if c.kind == MotorTmc then RampStatus(c, ax, r)
    else if c.kind == MotorSim then SimStatus(ax, now)
    else
      var e := TmcError(c, ax, NoneMessage);
      Status(e.err, false, e.ax)
  }

  /** The real-axis half of CheckStatus: ENC_STATUS, then the RAMPSTAT events in order. */
  function RampStatus(c: Ctx, ax: Axis, r: Readings): (s: Status)
    requires WellFormed(c) && c.kind == MotorTmc
  {
    if r.devWarn then
      var off := SetEnable(c, ax, 0);
      var e := TmcError(c, off.ax, "Following error");
      Status(ErrTmc, false, e.ax)
    else RampEvents(c, ax, r, r.ramp.eventPosReached || r.ramp.positionReached)
  }

  /** The RAMPSTAT part of CheckStatus: a stall, a homing latch, then the stop events. */
  function RampEvents(c: Ctx, ax: Axis, r: Readings, done: bool): (s: Status)
    requires WellFormed(c) && c.kind == MotorTmc
  {
    if r.ramp.eventStopSg then
      var e := TmcError(c, ax, "Stall guard2 tripped");
      Status(ErrTmc, done, SetEnable(c, e.ax, 0).ax)
    else if ax.homing && (r.ramp.statusLatchL || r.ramp.statusLatchR) then
      var h := EndHoming(c, ax, r);
      Status(h.err, done, h.ax)
    else StopEvents(c, ax, r, done)
  }

  /** The stop events of CheckStatus, left before right. */
  function StopEvents(c: Ctx, ax: Axis, r: Readings, done: bool): (s: Status)
    requires WellFormed(c) && c.kind == MotorTmc
  {
    if r.ramp.eventStopL then
      var e := StopOutcome(c, ax, r.ramp.statusStopL, r.ramp.statusVirtualStopL, "Left");
      Status(ErrTmc, done, e.ax)
    else if r.ramp.eventStopR then
      var e := StopOutcome(c, ax, r.ramp.statusStopR, r.ramp.statusVirtualStopR, "Right");
      Status(ErrTmc, done, e.ax)
    else Status(ErrNone, done, ax)
  }

  /** The simulated half of CheckStatus: integrate the velocity, stop at the travel limits. */
  function SimStatus(ax: Axis, now: int): (s: Status)
  {
    var sim := ax.sim;
    var done := sim.vel == 0;
    var x := if done then sim.xact else WrapInt32(sim.xact + SimTravel(now, sim.lastVelCalcTime, sim.vel));
    var lowHit := x < sim.xmin;
    var x1 := if lowHit then sim.xmin else x;
    var highHit := x1 > sim.xmax;
    var p := if highHit then sim.xmax else x1;
    var vel := if lowHit || highHit then 0 else sim.vel;
    Status(ErrNone, done, ax.(sim := sim.(xact := p, xenc := p, vel := vel, lastVelCalcTime := now)))
  }

  /** Bit k of a status word, as `(1 << k)`. */
  function Bit(k: nat, on: bool): int
  {
    if on then Pow2(k) else 0
  }

  /**
   * TMC::GetStatusFlags: bit 11 enabled, 10 position reached, 9 moving,
   * 8/7 right/left latch, 6 following error, 5 stall event, 4 stall status,
   * 3/2 right/left virtual stop, 1/0 right/left stop switch. A simulated axis
   * reports enabled, moving and its travel limits only.
   */
  function StatusFlags(c: Ctx, ax: Axis, r: Readings): (q: Query)
    requires WellFormed(c)
    ensures q.err == ErrNone <==> c.kind == MotorTmc || c.kind == MotorSim
    ensures q.err == ErrNone ==> q.ax == ax
    ensures c.kind == MotorSim ==> q.value == SimFlags(ax)
  {
    if c.kind == MotorTmc then Query(ErrNone, TmcFlags(ax.enabled, r), ax)
    else if c.kind == MotorSim then Query(ErrNone, SimFlags(ax), ax)
    else var e := TmcError(c, ax, NoneMessage); Query(e.err, 0, e.ax)
  }

  /** The status word of a real axis: its enable flag and the chip's ramp and driver flags. */
  function TmcFlags(enabled: bool, r: Readings): int
  {
    Bit(11, enabled) + Bit(10, r.ramp.positionReached) + Bit(9, !r.ramp.vzero)
    + Bit(8, r.ramp.statusLatchR) + Bit(7, r.ramp.statusLatchL) + Bit(6, r.devWarn)
    + Bit(5, r.ramp.eventStopSg) + Bit(4, r.ramp.statusSg)
    + Bit(3, r.ramp.statusVirtualStopR) + Bit(2, r.ramp.statusVirtualStopL)
    + Bit(1, r.ramp.statusStopR) + Bit(0, r.ramp.statusStopL)
  }

  /** A status word fits in its 12 bits. */
  lemma StatusFlagsWord(c: Ctx, ax: Axis, r: Readings)
    requires WellFormed(c)
    ensures var q := StatusFlags(c, ax, r); q.err == ErrNone ==> 0 <= q.value < Pow2(12)
  {
    PowersBelow12();
  }

  function SimFlags(ax: Axis): int
  {
    Bit(11, ax.enabled) + Bit(9, ax.sim.vel != 0)
    + Bit(3, ax.sim.xact >= ax.sim.xmax) + Bit(2, ax.sim.xact <= ax.sim.xmin)
  }

  lemma PowersBelow12()
    ensures Pow2(0) == 1 && Pow2(1) == 2 && Pow2(2) == 4 && Pow2(3) == 8 && Pow2(4) == 16 && Pow2(5) == 32
    ensures Pow2(6) == 64 && Pow2(7) == 128 && Pow2(8) == 256 && Pow2(9) == 512 && Pow2(10) == 1024
    ensures Pow2(11) == 2048 && Pow2(12) == 4096
  {
  }

  predicate BitSet(x: int, k: nat)
  {
    (x / Pow2(k)) % 2 == 1
  }

  /**
   * The simulated status word has bit 11 set iff the axis is enabled, bit 9 iff
   * it moves, bit 3 iff it is at or past xmax, bit 2 iff at or below xmin, and
   * no other bit.
   */
  lemma {:induction false} SimFlagsBits(ax: Axis)
    ensures BitSet(SimFlags(ax), 11) == ax.enabled
    ensures BitSet(SimFlags(ax), 9) == (ax.sim.vel != 0)
    ensures BitSet(SimFlags(ax), 3) == (ax.sim.xact >= ax.sim.xmax)
    ensures BitSet(SimFlags(ax), 2) == (ax.sim.xact <= ax.sim.xmin)
    ensures forall k :: 0 <= k < 12 && k != 11 && k != 9 && k != 3 && k != 2 ==> !BitSet(SimFlags(ax), k)
  {
    PowersBelow12();
    var e := if ax.enabled then 1 else 0;
    var m := if ax.sim.vel != 0 then 1 else 0;
    var h := if ax.sim.xact >= ax.sim.xmax then 1 else 0;
    var l := if ax.sim.xact <= ax.sim.xmin then 1 else 0;
    assert SimFlags(ax) == 2048 * e + 512 * m + 8 * h + 4 * l;
    WordBitsLow(e, m, h, l);
    WordBitsHigh(e, m, h, l);
  }

  /** Bits 0 to 5 of the four-flag word 2048e + 512m + 8h + 4l. */
  lemma WordBitsLow(e: int, m: int, h: int, l: int)
    requires 0 <= e <= 1 && 0 <= m <= 1 && 0 <= h <= 1 && 0 <= l <= 1
    ensures var x := 2048 * e + 512 * m + 8 * h + 4 * l;
      forall k :: 0 <= k < 6 ==> BitSet(x, k) == ((k == 3 && h == 1) || (k == 2 && l == 1))
  {
    var x := 2048 * e + 512 * m + 8 * h + 4 * l;
    PowersBelow12();
    forall k | 0 <= k < 6 ensures BitSet(x, k) == ((k == 3 && h == 1) || (k == 2 && l == 1)) {
      if k == 0 { assert x / 1 == x; assert x % 2 == 0; }
      else if k == 1 { assert x / 2 == 1024 * e + 256 * m + 4 * h + 2 * l; }
      else if k == 2 { assert x / 4 == 512 * e + 128 * m + 2 * h + l; }
      else if k == 3 { assert x / 8 == 256 * e + 64 * m + h; }
      else if k == 4 { assert x / 16 == 128 * e + 32 * m; }
      else { assert x / 32 == 64 * e + 16 * m; }
    }
  }

  /** Bits 6 to 11 of the four-flag word 2048e + 512m + 8h + 4l. */
  lemma WordBitsHigh(e: int, m: int, h: int, l: int)
    requires 0 <= e <= 1 && 0 <= m <= 1 && 0 <= h <= 1 && 0 <= l <= 1
    ensures var x := 2048 * e + 512 * m + 8 * h + 4 * l;
      forall k :: 6 <= k < 12 ==> BitSet(x, k) == ((k == 11 && e == 1) || (k == 9 && m == 1))
  {
    var x := 2048 * e + 512 * m + 8 * h + 4 * l;
    PowersBelow12();
    forall k | 6 <= k < 12 ensures BitSet(x, k) == ((k == 11 && e == 1) || (k == 9 && m == 1)) {
      if k == 6 { assert x / 64 == 32 * e + 8 * m; }
      else if k == 7 { assert x / 128 == 16 * e + 4 * m; }
      else if k == 8 { assert x / 256 == 8 * e + 2 * m; }
      else if k == 9 { assert x / 512 == 4 * e + m; }
      else if k == 10 { assert x / 1024 == 2 * e; }
      else { assert x / 2048 == e; }
    }
  }

  /** TMC::SetRegisterValue: a raw register write on a real axis only. */
  function SetRegisterValue(c: Ctx, ax: Axis, address: int, v: int): (s: Step)
    ensures s.err == ErrNone
    ensures s.ax == if c.kind == MotorTmc then ax.(chip := ax.chip[Register(address) := v]) else ax
    ensures Bookkeeping(ax, s.ax)
  {
    if c.kind == MotorTmc then Step(ErrNone, ax.(chip := ax.chip[Register(address) := v])) else Step(ErrNone, ax)
  }

  /** TMC::GetRegisterValue: a raw register read; 0 on a simulated axis. */
  function GetRegisterValue(c: Ctx, r: Readings): (v: int)
    ensures c.kind != MotorTmc ==> v == 0
    ensures c.kind == MotorTmc ==> v == r.regValue
  {
    if c.kind == MotorTmc then r.regValue else 0
  }

  // ---------------------------------------------------------------------------
  // Properties relating several operations
  // ---------------------------------------------------------------------------

  /** Disabling a real axis twice is the same as disabling it once. */
  lemma DisableIdempotent(c: Ctx, ax: Axis)
    requires WellFormed(c) && c.kind == MotorTmc
    ensures SetEnable(c, SetEnable(c, ax, 0).ax, 0) == SetEnable(c, ax, 0)
  {
    var a := SetEnable(c, ax, 0).ax;
    assert a.chip[RampMode := ModeVelPos][VMax := 0][TOff := 0] == a.chip;
  }

  /** Cancelling a homing search twice is the same as cancelling it once. */
  lemma CancelHomingIdempotent(c: Ctx, ax: Axis)
    requires WellFormed(c)
    ensures CancelHoming(c, CancelHoming(c, ax).ax) == CancelHoming(c, ax)
  {
  }

  /** After SetXPos a simulated axis reports the new position for XACT and XTAR. */
  lemma SimSetXPosThenGet(c: Ctx, ax: Axis, pos: int, r: Readings)
    requires WellFormed(c) && c.kind == MotorSim
    ensures GetStatusValue(c, SetXPos(c, ax, pos).ax, XACT, r).value == pos
    ensures GetStatusValue(c, SetXPos(c, ax, pos).ax, XTAR, r).value == pos
    ensures GetPos(c, SetXPos(c, ax, pos).ax, r).value == pos
  {
  }

  /**
   * A simulated axis sent to a position inside its limits reports arrival on the
   * next status check, without moving further.
   */
  lemma {:induction false} SimMoveThenDone(c: Ctx, ax: Axis, pos: int, r: Readings, now: int)
    requires WellFormed(c) && c.kind == MotorSim && ax.sim.xmin <= pos <= ax.sim.xmax
    ensures var s := CheckStatus(c, MoveToPos(c, ax, pos, true, r).ax, r, now);
      s.err == ErrNone && s.done && s.ax.sim.xact == pos && s.ax.sim.xenc == pos
  {
    var a := MoveToPos(c, ax, pos, true, r).ax;
    assert a.sim.vel == 0 && a.sim.xact == pos;
    assert Clamp(pos, a.sim.xmin, a.sim.xmax) == pos;
  }
}
