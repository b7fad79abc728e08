// Classes TMC and Motors. Each TMC object is the driver of one board; the
// Motors object owns the four drivers and the per-board flag arrays, which the
// drivers update through their pointer to it. Every method is proved against
// the per-axis functions of AxisDriver and Orchestrator: the record AxisOf(b)
// assembles board b's state from both objects.
module Motion {
  import opened Common
  import opened Text
  import opened ParameterStore
  import opened AxisDriver
  import Orchestrator

  class TMC {
    /** The board number this driver serves. */
    const board: int
    /** simValues */
    var sim: Sim
    /** The driver fields and registers the firmware has written. */
    var chip: map<Field, int>
    // The closed-loop parameter copies.
    var encConst: int
    var maxIterations: int
    var tolerance: int
    var resetX: int

    /** TMC::Init: the fields the C++ constructor leaves unset start at 0. */
    constructor (b: int)
      ensures board == b && sim == Sim(0, 0, 0, 0, 0, 0, 0) && chip == map[]
      ensures encConst == 0 && maxIterations == 0 && tolerance == 0 && resetX == 0
    {
      board := b;
      sim := Sim(0, 0, 0, 0, 0, 0, 0);
      chip := map[];
      encConst, maxIterations, tolerance, resetX := 0, 0, 0, 0;
    }

    /** Board b's state: this driver's fields with the Motors entries `s`. */
    ghost function With(s: Slot): Axis
      reads this
    {
      Axis(sim, chip, encConst, maxIterations, tolerance, resetX,
           s.enabled, s.remote, s.moving, s.homing, s.searching, s.target, s.setPos, s.itersLeft, s.latch)
    }

    /** TMC::SetErrorMsg: Motors::SetErrorMsg for this board with source "TMC". */
    method SetErrorMsg(s: Slot, msg: string) returns (s': Slot)
      requires ValidBoard(board)
      ensures With(s') == RaiseBoard(With(s), "TMC", board, msg)
    {
      s' := s.(latch := Raise(s.latch, BoardMessage("TMC", board, msg)));
    }

    /** TMC::FindParamIndexVal: the first parameter whose ID matches `name` in its first four characters. */
    method FindParamIndexVal(c: Ctx, s: Slot, name: string) returns (err: int, index: int, value: int, s': Slot)
      requires WellFormed(c) && c.board == board
      ensures err == ErrNone <==> ParamIndex(name).Some?
      ensures err == ErrNone ==> index == ParamIndex(name).value && value == c.prm[index] && s' == s
      ensures err != ErrNone ==>
        err == ErrTmc && With(s') == RaiseBoard(With(s), "TMC", board, Truncate("Parameter " + name + " not found", TmcMsgSize))
    {
      var idx := 0;
      while idx < MotorsNumParams
        invariant 0 <= idx <= MotorsNumParams
        invariant ParamIndexFrom(name, idx) == ParamIndex(name)
      {
        if SameId(MotorParamIds[idx], name) {
          return ErrNone, idx, c.prm[idx], s;
        }
        idx := idx + 1;
      }
      s' := SetErrorMsg(s, Truncate("Parameter " + name + " not found", TmcMsgSize));
      return ErrTmc, 0, 0, s';
    }

    /** TMC::IsParamInRange: parameter idx lies in [lo, hi]; otherwise the board error names it. */
    method IsParamInRange(c: Ctx, s: Slot, idx: nat, lo: int, hi: int) returns (ok: bool, s': Slot)
      requires WellFormed(c) && c.board == board && idx < MotorsNumParams
      ensures ok == (lo <= c.prm[idx] <= hi)
      ensures With(s') == if ok then With(s) else RaiseBoard(With(s), "TMC", board, ParamRangeMessage(idx, c.prm[idx]))
    {
      var v := c.prm[idx];
      if lo <= v <= hi {
        return true, s;
      }
      s' := SetErrorMsg(s, ParamRangeMessage(idx, v));
      ok := false;
    }

    /** TMC::IsValueInRange: a commanded value lies in [lo, hi]; otherwise the board error names it. */
    method IsValueInRange(s: Slot, v: int, name: string, lo: int, hi: int) returns (ok: bool, s': Slot)
      requires ValidBoard(board)
      ensures ok == (lo <= v <= hi)
      ensures With(s') == if ok then With(s) else RaiseBoard(With(s), "TMC", board, ValueRangeMessage(name, v))
    {
      if lo <= v <= hi {
        return true, s;
      }
      s' := SetErrorMsg(s, ValueRangeMessage(name, v));
      ok := false;
    }

    /**
     * TMC::SetEnable. On a real axis, enabling applies MTOF to TOFF; disabling
     * parks the ramp (velocity mode, VMAX 0), switches the driver off and cancels
     * a homing search.
     */
    method SetEnable(c: Ctx, s: Slot, mode: int) returns (err: int, s': Slot)
      requires WellFormed(c) && c.board == board
      modifies this`chip, this`sim
      ensures Step(err, With(s')) == AxisDriver.SetEnable(c, old(With(s)), mode)
    {
      s' := s;
      if c.kind == MotorTmc {
        if mode != 0 {
          chip := chip[TOff := c.prm[MTOF]];
          s' := s'.(enabled := true);
        } else {
          chip := chip[RampMode := ModeVelPos];
          chip := chip[VMax := 0];
          chip := chip[TOff := 0];
          s' := s'.(enabled := false);
          if s'.homing {
            err, s' := CancelHoming(c, s');
            return;
          }
        }
      } else if c.kind == MotorSim {
        s' := s'.(enabled := mode != 0);
        if mode == 0 {
          sim := sim.(vel := 0);
        }
      } else {
        s' := SetErrorMsg(s', NoneMessage);
        return ErrTmc, s';
      }
      err := ErrNone;
    }

    /** TMC::CancelHoming: restores the virtual-limit enables, disarms the latches. */
    method CancelHoming(c: Ctx, s: Slot) returns (err: int, s': Slot)
      requires WellFormed(c) && c.board == board
      modifies this`chip
      ensures Step(err, With(s')) == AxisDriver.CancelHoming(c, old(With(s)))
    {
      s' := s;
      if !s.homing {
        return ErrNone, s';
      }
      chip := chip[EnVirtualStopL := c.prm[LLEN]];
      chip := chip[EnVirtualStopR := c.prm[LREN]];
      chip := chip[LatchLActive := 0][LatchRActive := 0][LatchXAct := 0];
      s' := s'.(homing := false);
      err := ErrNone;
    }

    /** TMC::CheckError: any GSTAT error bit on a real axis disables it and records the cause. */
    method CheckError(c: Ctx, s: Slot, r: Readings) returns (err: int, s': Slot)
      requires WellFormed(c) && c.board == board
      modifies this`chip, this`sim
      ensures Step(err, With(s')) == AxisDriver.CheckError(c, old(With(s)), r)
    {
      s' := s;
      if c.kind == MotorTmc {
        if AnyGStat(r.gstat) {
          var e;
          e, s' := SetEnable(c, s', 0);
          s' := SetErrorMsg(s', CheckErrorMessage(r.gstat, r.drv));
          return ErrTmc, s';
        }
      }
      err := ErrNone;
    }

    /**
     * TMC::Config. The parameter loop checks and writes entry by entry, in ID-list
     * order, and stops at the first entry out of range.
     */
    method Config(c: Ctx, s: Slot, r: Readings) returns (err: int, s': Slot)
      requires WellFormed(c) && c.board == board
      modifies this
      ensures Step(err, With(s')) == AxisDriver.Config(c, old(With(s)), r)
    {
      if c.kind == MotorTmc {
        err, s' := ConfigTmc(c, s, r);
      } else if c.kind == MotorSim {
        s' := ConfigSim(c, s);
        err := ErrNone;
      } else {
        s' := SetErrorMsg(s, NoneMessage);
        err := ErrTmc;
      }
    }

    /** TMC::Config on a real axis. */
    method ConfigTmc(c: Ctx, s: Slot, r: Readings) returns (err: int, s': Slot)
      requires WellFormed(c) && c.board == board
      modifies this
      ensures Step(err, With(s')) == AxisDriver.ConfigTmc(c, old(With(s)), r)
    {
      err, s' := CheckError(c, s, r);
      if err != ErrNone {
        return;
      }
      err, s' := ConfigParams(c, s');
      if err != ErrNone {
        return;
      }
      ParkRamp(c, s', r);
      s' := s'.(enabled := false, moving := false, homing := false);
    }

    /** TMC::Config on a simulated axis. */
    method ConfigSim(c: Ctx, s: Slot) returns (s': Slot)
      requires WellFormed(c) && c.board == board
      modifies this`encConst, this`maxIterations, this`sim
      ensures With(s') == AxisDriver.ConfigSim(c, old(With(s)))
    {
      encConst := 0;
      maxIterations := 1;
      var xmin := if c.prm[LLEN] != 0 then c.prm[LLPS] else Int32Min;
      var xmax := if c.prm[LREN] != 0 then c.prm[LRPS] else Int32Max;
      sim := sim.(xmin := xmin, xmax := xmax);
      sim := sim.(xact := 0, xenc := 0);
      sim := sim.(vel := 0);
      s' := s.(enabled := false, moving := false, homing := false);
    }

    /** The parameter loop of TMC::Config: check and write entry by entry, stop at the first refused one. */
    method ConfigParams(c: Ctx, s: Slot) returns (err: int, s': Slot)
      requires WellFormed(c) && c.board == board
      modifies this`chip, this`encConst, this`maxIterations, this`tolerance, this`resetX
      ensures Step(err, With(s')) == ConfigFrom(c, old(With(s)), 0)
    {
      s' := s;
      var idx := 0;
      while idx < MotorsNumParams
        invariant 0 <= idx <= MotorsNumParams && s' == s
        invariant sim == old(sim)
        invariant ConfigFrom(c, With(s'), idx) == ConfigFrom(c, old(With(s)), 0)
      {
        var e;
        e, s' := ConfigEntry(c, s', idx);
        if e != ErrNone {
          return e, s';
        }
        idx := idx + 1;
      }
      err := ErrNone;
    }

    /** One pass of the Config loop: the range check, then the register write and the closed-loop copy. */
    method ConfigEntry(c: Ctx, s: Slot, idx: nat) returns (err: int, s': Slot)
      requires WellFormed(c) && c.board == board && idx < MotorsNumParams
      modifies this`chip, this`encConst, this`maxIterations, this`tolerance, this`resetX
      ensures Step(err, With(s')) == AxisDriver.ConfigEntry(c, old(With(s)), idx)
      ensures err == ErrNone ==> s' == s
      ensures sim == old(sim)
    {
      if !InConfigRange(c.prm, idx) {
        s' := SetErrorMsg(s, ParamRangeMessage(idx, c.prm[idx]));
        return ErrTmc, s';
      }
      chip := chip + ConfigWrites(c.prm, idx);
      if idx == ECON {
        encConst := c.prm[idx];
      } else if idx == EMAX {
        maxIterations := c.prm[idx];
      } else if idx == ETOL {
        tolerance := c.prm[idx];
      } else if idx == ERST {
        resetX := c.prm[idx];
      }
      return ErrNone, s;
    }

    /** The end of TMC::Config on a real axis: threshold, position mode, target at the current position. */
    method ParkRamp(c: Ctx, s: Slot, r: Readings)
      requires WellFormed(c) && c.board == board
      modifies this`chip
      ensures With(s) == AxisDriver.ParkRamp(c, old(With(s)), r)
    {
      chip := chip[OvertempPrewarnVth := OvertempPrewarn];
      var value;
      if c.prm[ECON] != 0 {
        value := r.xenc;
        chip := chip[XActual := value];
      } else {
        value := r.xactual;
      }
      chip := chip[XTarget := value];
      chip := chip[RampMode := ModePosition];
    }

    /** TMC::ClearStatusRegs: writes the clear-on-write status registers; no modelled state changes. */
    method ClearStatusRegs() returns (err: int)
      ensures err == ErrNone
    {
      err := ErrNone;
    }

    /** TMC::MoveAtVel: |v| <= RMXV, then a velocity ramp (real axis) or a simulated velocity. */
    method MoveAtVel(c: Ctx, s: Slot, v: int, r: Readings, now: int) returns (err: int, s': Slot)
      requires WellFormed(c) && c.board == board
      modifies this`chip, this`sim
      ensures Step(err, With(s')) == AxisDriver.MoveAtVel(c, old(With(s)), v, r, now)
    {
      var ok;
      ok, s' := IsValueInRange(s, v, "VEL", -c.prm[RMXV], c.prm[RMXV]);
      if !ok {
        return ErrTmc, s';
      }
      if c.kind == MotorTmc {
        chip := chip[RampMode := if v > 0 then ModeVelPos else ModeVelNeg];
        chip := chip[VMax := Abs(v)];
        err, s' := CheckError(c, s', r);
        return;
      } else if c.kind == MotorSim {
        sim := sim.(vel := v);
        sim := sim.(lastVelCalcTime := now);
      } else {
        s' := SetErrorMsg(s', NoneMessage);
        return ErrTmc, s';
      }
      err := ErrNone;
    }

    /** TMC::MoveToPos: a position ramp to pos, or a simulated jump clamped into the travel limits. */
    method MoveToPos(c: Ctx, s: Slot, pos: int, setVel: bool, r: Readings) returns (err: int, s': Slot)
      requires WellFormed(c) && c.board == board
      modifies this`chip, this`sim
      ensures Step(err, With(s')) == AxisDriver.MoveToPos(c, old(With(s)), pos, setVel, r)
    {
      s' := s;
      if c.kind == MotorTmc {
        chip := chip[RampMode := ModePosition];
        if setVel {
          chip := chip[VMax := c.prm[RSEV]];
        }
        chip := chip[XTarget := pos];
        err, s' := CheckError(c, s', r);
        return;
      } else if c.kind == MotorSim {
        sim := sim.(vel := 0);
        var p := pos;
        if p < sim.xmin {
          p := sim.xmin;
        }
        if p > sim.xmax {
          p := sim.xmax;
        }
        sim := sim.(xact := p, xenc := p);
      } else {
        s' := SetErrorMsg(s', NoneMessage);
        return ErrTmc, s';
      }
      err := ErrNone;
    }

    /** TMC::SetXPos: the ramp is paused while XTARGET and XACTUAL are redefined as pos. */
    method SetXPos(c: Ctx, s: Slot, pos: int) returns (err: int, s': Slot)
      requires WellFormed(c) && c.board == board
      modifies this`chip, this`sim
      ensures Step(err, With(s')) == AxisDriver.SetXPos(c, old(With(s)), pos)
    {
      s' := s;
      if c.kind == MotorTmc {
        var vel := Get(chip, VMax);
        chip := chip[VMax := 0];
        chip := chip[XTarget := pos];
        chip := chip[XActual := pos];
        chip := chip[VMax := vel];
      } else if c.kind == MotorSim {
        sim := sim.(vel := 0);
        sim := sim.(xact := pos, xtar := pos);
      }
      err := ErrNone;
    }

    /** TMC::GetPos */
    method GetPos(c: Ctx, s: Slot, r: Readings) returns (err: int, pos: int, s': Slot)
      requires WellFormed(c) && c.board == board
      ensures Query(err, pos, With(s')) == AxisDriver.GetPos(c, With(s), r)
    {
      s' := s;
      if c.kind == MotorTmc {
        pos := r.xactual;
      } else if c.kind == MotorSim {
        pos := sim.xact;
      } else {
        s' := SetErrorMsg(s', NoneMessage);
        return ErrTmc, 0, s';
      }
      err := ErrNone;
    }

    /** TMC::GetEnc */
    method GetEnc(c: Ctx, s: Slot, r: Readings) returns (err: int, pos: int, s': Slot)
      requires WellFormed(c) && c.board == board
      ensures Query(err, pos, With(s')) == AxisDriver.GetEnc(c, With(s), r)
    {
      s' := s;
      if c.kind == MotorTmc {
        pos := r.xenc;
      } else if c.kind == MotorSim {
        pos := sim.xact;
      } else {
        s' := SetErrorMsg(s', NoneMessage);
        return ErrTmc, 0, s';
      }
      err := ErrNone;
    }

    /**
     * The checks TMC::StartHoming makes before it writes anything, in the
     * firmware's order; the first refusal is recorded.
     */
    method CheckHomingParams(c: Ctx, s: Slot) returns (ok: bool, s': Slot)
      requires WellFormed(c) && c.board == board
      ensures ok == HomingRefusal(c.prm).None?
      ensures With(s') == if ok then With(s) else RaiseBoard(With(s), "TMC", board, HomingRefusal(c.prm).value)
    {
      ok, s' := CheckHomingRanges(c, s);
      if ok {
        ok, s' := CheckHomingModes(c, s);
      }
    }

    /** The range checks that open TMC::StartHoming. */
    method CheckHomingRanges(c: Ctx, s: Slot) returns (ok: bool, s': Slot)
      requires WellFormed(c) && c.board == board
      ensures ok == RangeRefusal(c.prm).None?
      ensures With(s') == if ok then With(s) else RaiseBoard(With(s), "TMC", board, RangeRefusal(c.prm).value)
    {
      ok, s' := IsParamInRange(c, s, HSST, 0, 1);
      if ok {
        ok, s' := IsParamInRange(c, s', HMOD, 0, 2);
      }
    }

    /** The mode checks of TMC::StartHoming, once HSST and HMOD are in range. */
    method CheckHomingModes(c: Ctx, s: Slot) returns (ok: bool, s': Slot)
      requires WellFormed(c) && c.board == board && RangeRefusal(c.prm).None?
      ensures ok == ModeRefusal(c.prm).None?
      ensures With(s') == if ok then With(s) else RaiseBoard(With(s), "TMC", board, ModeRefusal(c.prm).value)
    {
      ok, s' := true, s;
      var searchMode := c.prm[HMOD];
      if searchMode == 0 {
        s' := SetErrorMsg(s', "Homing disabled by config setting");
        return false, s';
      }
      var dir := c.prm[HDIR];
      if Abs(dir) != 1 {
        s' := SetErrorMsg(s', "Homing direction undefined (needs -1 or 1)");
        return false, s';
      }
      if searchMode == 1 {
        if c.prm[if dir == 1 then SREN else SLEN] != 1 {
          s' := SetErrorMsg(s', "Homing only allowed if switch is enabled");
          return false, s';
        }
      } else {
        // searchMode is 2: 0..2 was checked and 0 refused
        var indexMode := c.prm[HNEV];
        if indexMode < 0 || indexMode > 3 {
          s' := SetErrorMsg(s', "Invalid index homeing mode (needs 0..3)");
          return false, s';
        }
      }
    }

    /** TMC::StartHoming's latch and direction writes for the configured search mode and side. */
    method ArmLatch(c: Ctx, s: Slot) returns (s': Slot)
      requires WellFormed(c) && c.board == board && HomingRefusal(c.prm).None?
      modifies this`chip
      ensures With(s') == AxisDriver.ArmLatch(c, old(With(s)))
    {
      var searchMode := c.prm[HMOD];
      var dir := c.prm[HDIR];
      if searchMode == 2 {
        chip := chip[IgnoreAB := 1][ClrCont := 1][PosNegEdge := c.prm[HNEV]];
      }
      s' := s.(homing := true);
      chip := chip[EnSoftStop := c.prm[HSST]];
      var latchField := if searchMode == 1 then (if dir == -1 then LatchLActive else LatchRActive) else LatchXAct;
      if dir == -1 {
        chip := chip[EnVirtualStopL := 0][latchField := 1][RampMode := ModeVelNeg];
      } else {
        chip := chip[EnVirtualStopR := 0][latchField := 1][RampMode := ModeVelPos];
      }
    }

    /** The writes of TMC::StartHoming once its checks have passed. */
    method ArmHoming(c: Ctx, s: Slot, r: Readings) returns (err: int, s': Slot)
      requires WellFormed(c) && c.board == board && HomingRefusal(c.prm).None?
      modifies this`chip, this`sim
      ensures Step(err, With(s')) == AxisDriver.ArmHoming(c, old(With(s)), r)
    {
      s' := ArmLatch(c, s);
      var ok;
      ok, s' := IsValueInRange(s', c.prm[HVEL], "HVEL", 0, c.prm[RMXV]);
      if !ok {
        return ErrTmc, s';
      }
      chip := chip[VMax := c.prm[HVEL]];
      err, s' := CheckError(c, s', r);
    }

    /**
     * TMC::StartHoming. The checks run in the firmware's order; homing is set
     * before the latch is armed, so a refused HVEL leaves the axis marked homing.
     */
    method StartHoming(c: Ctx, s: Slot, r: Readings) returns (err: int, s': Slot)
      requires WellFormed(c) && c.board == board
      modifies this`chip, this`sim
      ensures Step(err, With(s')) == AxisDriver.StartHoming(c, old(With(s)), r)
    {
      s' := s;
      if c.kind == MotorTmc {
        var ok;
        ok, s' := CheckHomingParams(c, s');
        if !ok {
          return ErrTmc, s';
        }
        err, s' := ArmHoming(c, s', r);
        return;
      } else if c.kind == MotorSim {
        sim := sim.(xact := 0, xenc := 0);
        sim := sim.(vel := 0);
        s' := s'.(homing := false);
      } else {
        s' := SetErrorMsg(s', NoneMessage);
        return ErrTmc, s';
      }
      err := ErrNone;
    }

    /**
     * TMC::EndHoming, with the stand-still waits collapsed to the final STST
     * reading. The latched position becomes the new zero of XACTUAL (and of XENC
     * with an encoder); then the axis is sent to 0 and the encoder cleared.
     */
    method EndHoming(c: Ctx, s: Slot, r: Readings) returns (err: int, s': Slot)
      requires WellFormed(c) && c.board == board && c.kind == MotorTmc
      modifies this`chip, this`sim
      ensures Step(err, With(s')) == AxisDriver.EndHoming(c, old(With(s)), r)
    {
      if !r.standstill {
        s' := AbortHoming(c, s);
        err := ErrTmc;
      } else {
        err, s' := ReturnToZero(c, s.(homing := false), LatchZero(r), r);
      }
    }

    /** The not-stopped case of TMC::EndHoming: the board error is recorded and the driver switched off. */
    method AbortHoming(c: Ctx, s: Slot) returns (s': Slot)
      requires WellFormed(c) && c.board == board && c.kind == MotorTmc
      modifies this`chip, this`sim
      ensures With(s') == AxisDriver.AbortHoming(c, old(With(s)))
    {
      s' := SetErrorMsg(s.(homing := false), "Motor hasn't stopped after homing position reached");
      var e;
      e, s' := SetEnable(c, s', 0);
    }

    /** The stopped case of TMC::EndHoming: rezero at the latch, move to 0, clear the encoder. */
    method ReturnToZero(c: Ctx, s: Slot, zero: int, r: Readings) returns (err: int, s': Slot)
      requires WellFormed(c) && c.board == board && c.kind == MotorTmc && !s.homing
      modifies this`chip, this`sim
      ensures Step(err, With(s')) == AxisDriver.ReturnToZero(c, old(With(s)), zero, r)
    {
      s' := Rezero(c, s, zero);
      var e;
      e, s' := MoveToPos(c, s', 0, true, r);
      err := ClearEncoder(s');
    }

    /** The final XENC reset of TMC::EndHoming, when an encoder is configured. */
    method ClearEncoder(s: Slot) returns (err: int)
      modifies this`chip
      ensures Step(err, With(s)) == AxisDriver.ClearEncoder(old(With(s)))
    {
      if Get(chip, EncConst) != 0 {
        chip := chip[XEnc := 0];
      }
      err := ErrNone;
    }

    /** The register rewrite of TMC::EndHoming: with the driver off, the latched position becomes 0. */
    method Rezero(c: Ctx, s: Slot, zero: int) returns (s': Slot)
      requires WellFormed(c) && c.board == board && c.kind == MotorTmc && !s.homing
      modifies this`chip, this`sim
      ensures With(s') == AxisDriver.Rezero(c, old(With(s)), zero)
    {
      var e;
      e, s' := SetEnable(c, s, 0);
      chip := chip[XActual := zero];
      e, s' := SetEnable(c, s', 1);
      if Get(chip, EncConst) != 0 {
        chip := chip[XEnc := zero];
      }
      chip := chip[EnVirtualStopL := c.prm[LLEN]];
      chip := chip[EnVirtualStopR := c.prm[LREN]];
      chip := chip[LatchLActive := 0][LatchRActive := 0][LatchXAct := 0];
    }

    /**
     * TMC::SetStatusValue. ENAB always goes through (its outcome ignored); the
     * other entries are refused under remote control and range-checked.
     */
    method SetStatusValue(c: Ctx, s: Slot, idx: nat, v: int) returns (err: int, s': Slot)
      requires WellFormed(c) && c.board == board && idx < MotorsNumStatus
      modifies this`chip, this`sim
      ensures Step(err, With(s')) == AxisDriver.SetStatusValue(c, old(With(s)), idx, v)
    {
      s' := s;
      if c.kind != MotorTmc && c.kind != MotorSim {
        s' := SetErrorMsg(s', NoneMessage);
        return ErrTmc, s';
      }
      if idx == SENAB {
        var e;
        e, s' := SetEnable(c, s', v);
        return ErrNone, s';
      }
      if s'.remote {
        s' := SetErrorMsg(s', "Motor is under remote control");
        return ErrMotor, s';
      }
      if c.kind == MotorTmc {
        err, s' := WriteTmcValue(c, s', idx, v);
      } else {
        WriteSimValue(idx, v);
        err := ErrNone;
      }
    }

    /** The register writes of SetStatusValue on a real driver. */
    method WriteTmcValue(c: Ctx, s: Slot, idx: nat, v: int) returns (err: int, s': Slot)
      requires WellFormed(c) && c.board == board
      modifies this`chip
      ensures Step(err, With(s')) == AxisDriver.WriteTmcValue(c, old(With(s)), idx, v)
    {
      s' := s;
      err := ErrNone;
      if idx == XACT {
        chip := chip[XActual := v];
      } else if idx == XTAR {
        chip := chip[XTarget := v];
      } else if idx == XENC {
        chip := chip[XEnc := v];
      } else if idx == VELO {
        var ok;
        ok, s' := IsValueInRange(s', v, StatusIds[idx], -c.prm[RMXV], c.prm[RMXV]);
        if !ok {
          return ErrTmc, s';
        }
        chip := chip[VMax := v];
      } else if idx == ACCE {
        var ok;
        ok, s' := IsValueInRange(s', v, StatusIds[idx], 0, c.prm[RMXA]);
        if !ok {
          return ErrTmc, s';
        }
        chip := chip[AMax := v];
        chip := chip[DMax := v];
      }
    }

    /** The simulated counterpart of WriteTmcValue. */
    method WriteSimValue(idx: nat, v: int)
      modifies this`sim
      ensures forall s :: With(s) == AxisDriver.WriteSimValue(old(With(s)), idx, v)
    {
      if idx == XACT || idx == XTAR {
        sim := sim.(xact := v);
      } else if idx == XENC {
        sim := sim.(xenc := v);
      } else if idx == VELO {
        sim := sim.(vel := v);
      }
    }

    /** TMC::GetStatusValue: entries not bound to a register (PULL) read as 0. */
    method GetStatusValue(c: Ctx, s: Slot, idx: nat, r: Readings) returns (err: int, value: int, s': Slot)
      requires WellFormed(c) && c.board == board && idx < MotorsNumStatus
      ensures Query(err, value, With(s')) == AxisDriver.GetStatusValue(c, With(s), idx, r)
    {
      s' := s;
      value := 0;
      if c.kind == MotorTmc {
        if idx == XACT {
          value := r.xactual;
        } else if idx == XTAR {
          value := Get(chip, XTarget);
        } else if idx == XENC {
          value := r.xenc;
        } else if idx == VELO {
          value := Get(chip, VMax);
        } else if idx == ACCE {
          value := Get(chip, AMax);
        } else if idx == SENAB {
          value := if s.enabled then 1 else 0;
        } else if idx == TEMP {
          value := r.tempC;
        }
      } else if c.kind == MotorSim {
        if idx == XACT || idx == XTAR {
          value := sim.xact;
        } else if idx == XENC {
          value := sim.xenc;
        } else if idx == VELO {
          value := sim.vel;
        } else if idx == SENAB {
          value := if s.enabled then 1 else 0;
        }
      } else {
        s' := SetErrorMsg(s', NoneMessage);
        return ErrTmc, 0, s';
      }
      err := ErrNone;
    }

    /** The stop-event branch of TMC::CheckStatus for one side. */
    method ReportStop(c: Ctx, s: Slot, statusStop: bool, statusVirtual: bool, side: string) returns (s': Slot)
      requires WellFormed(c) && c.board == board && c.kind == MotorTmc
      modifies this`chip, this`sim
      ensures Step(ErrTmc, With(s')) == StopOutcome(c, old(With(s)), statusStop, statusVirtual, side)
    {
      var e;
      if statusStop {
        s' := SetErrorMsg(s, side + " limit switch reached");
        e, s' := SetEnable(c, s', 0);
      } else if statusVirtual {
        // a virtual stop leaves the motor enabled
        s' := SetErrorMsg(s, side + " virtual limit switch reached");
      } else {
        s' := SetErrorMsg(s, "Unknown " + ToLower(side) + " stop condition");
        e, s' := SetEnable(c, s', 0);
      }
    }

    /**
     * TMC::CheckStatus: the real axis is judged from ENC_STATUS and RAMPSTAT;
     * the simulated axis advances by its velocity since the last update and is
     * stopped at its travel limits. `now` is millis().
     */
    method CheckStatus(c: Ctx, s: Slot, r: Readings, now: int) returns (err: int, done: bool, s': Slot)
      requires WellFormed(c) && c.board == board
      modifies this`chip, this`sim
      ensures Status(err, done, With(s')) == AxisDriver.CheckStatus(c, old(With(s)), r, now)
    {
      s' := s;
      if c.kind == MotorTmc {
        err, done, s' := CheckRamp(c, s', r);
      } else if c.kind == MotorSim {
        done := AdvanceSim(now);
        err := ErrNone;
      } else {
        s' := SetErrorMsg(s', NoneMessage);
        return ErrTmc, false, s';
      }
    }

    /** The real-axis half of TMC::CheckStatus. */
    method CheckRamp(c: Ctx, s: Slot, r: Readings) returns (err: int, done: bool, s': Slot)
      requires WellFormed(c) && c.board == board && c.kind == MotorTmc
      modifies this`chip, this`sim
      ensures Status(err, done, With(s')) == RampStatus(c, old(With(s)), r)
    {
      s' := s;
      var e;
      if r.devWarn {
        e, s' := SetEnable(c, s', 0);
        s' := SetErrorMsg(s', "Following error");
        return ErrTmc, false, s';
      }
      done := r.ramp.eventPosReached || r.ramp.positionReached;
      err, s' := CheckEvents(c, s', r, done);
    }

    /** The RAMPSTAT events of TMC::CheckStatus: a stall, a homing latch, the stops. */
    method CheckEvents(c: Ctx, s: Slot, r: Readings, done: bool) returns (err: int, s': Slot)
      requires WellFormed(c) && c.board == board && c.kind == MotorTmc
      modifies this`chip, this`sim
      ensures Status(err, done, With(s')) == RampEvents(c, old(With(s)), r, done)
    {
      if r.ramp.eventStopSg {
        s' := SetErrorMsg(s, "Stall guard2 tripped");
        var e;
        e, s' := SetEnable(c, s', 0);
        return ErrTmc, s';
      }
      if s.homing && (r.ramp.statusLatchL || r.ramp.statusLatchR) {
        err, s' := EndHoming(c, s, r);
        return;
      }
      err, s' := CheckStops(c, s, r, done);
    }

    /** The stop events of TMC::CheckStatus, left before right. */
    method CheckStops(c: Ctx, s: Slot, r: Readings, done: bool) returns (err: int, s': Slot)
      requires WellFormed(c) && c.board == board && c.kind == MotorTmc
      modifies this`chip, this`sim
      ensures Status(err, done, With(s')) == StopEvents(c, old(With(s)), r, done)
    {
      s' := s;
      err := ErrNone;
      if r.ramp.eventStopL {
        s' := ReportStop(c, s, r.ramp.statusStopL, r.ramp.statusVirtualStopL, "Left");
        err := ErrTmc;
      } else if r.ramp.eventStopR {
        s' := ReportStop(c, s, r.ramp.statusStopR, r.ramp.statusVirtualStopR, "Right");
        err := ErrTmc;
      }
    }

    /** The simulated half of TMC::CheckStatus; the motion is done when the axis was at rest. */
    method AdvanceSim(now: int) returns (done: bool)
      modifies this`sim
      ensures forall s :: Status(ErrNone, done, With(s)) == SimStatus(old(With(s)), now)
    {
      if sim.vel == 0 {
        done := true;
      } else {
        done := false;
        sim := sim.(xact := WrapInt32(sim.xact + SimTravel(now, sim.lastVelCalcTime, sim.vel)));
      }
      sim := sim.(lastVelCalcTime := now);
      if sim.xact < sim.xmin {
        sim := sim.(xact := sim.xmin, vel := 0);
      }
      if sim.xact > sim.xmax {
        sim := sim.(xact := sim.xmax, vel := 0);
      }
      sim := sim.(xenc := sim.xact);
    }

    /** TMC::GetStatusFlags: the 12-bit status word, bit by bit. */
    method GetStatusFlags(c: Ctx, s: Slot, r: Readings) returns (err: int, status: int, s': Slot)
      requires WellFormed(c) && c.board == board
      ensures Query(err, status, With(s')) == StatusFlags(c, With(s), r)
    {
      s' := s;
      var flags := 0;
      if c.kind == MotorTmc {
        flags := flags + Bit(11, s.enabled);
        flags := flags + Bit(10, r.ramp.positionReached);
        flags := flags + Bit(9, !r.ramp.vzero);
        flags := flags + Bit(8, r.ramp.statusLatchR);
        flags := flags + Bit(7, r.ramp.statusLatchL);
        flags := flags + Bit(5, r.ramp.eventStopSg);
        flags := flags + Bit(4, r.ramp.statusSg);
        flags := flags + Bit(3, r.ramp.statusVirtualStopR);
        flags := flags + Bit(2, r.ramp.statusVirtualStopL);
        flags := flags + Bit(1, r.ramp.statusStopR);
        flags := flags + Bit(0, r.ramp.statusStopL);
        flags := flags + Bit(6, r.devWarn);
      } else if c.kind == MotorSim {
        flags := flags + Bit(11, s.enabled);
        flags := flags + Bit(9, sim.vel != 0);
        flags := flags + Bit(3, sim.xact >= sim.xmax);
        flags := flags + Bit(2, sim.xact <= sim.xmin);
      } else {
        s' := SetErrorMsg(s', NoneMessage);
        return ErrTmc, 0, s';
      }
      status := flags;
      err := ErrNone;
    }

    /** TMC::SetRegisterValue: a raw register write, on a real axis only. */
    method SetRegisterValue(c: Ctx, s: Slot, address: int, v: int) returns (err: int)
      requires WellFormed(c) && c.board == board
      modifies this`chip
      ensures Step(err, With(s)) == AxisDriver.SetRegisterValue(c, old(With(s)), address, v)
    {
      if c.kind == MotorTmc {
        chip := chip[Register(address) := v];
      }
      err := ErrNone;
    }

    /** TMC::GetRegisterValue: a raw register read; 0 on a simulated axis. */
    method GetRegisterValue(c: Ctx, r: Readings) returns (err: int, value: int)
      requires WellFormed(c) && c.board == board
      ensures err == ErrNone && value == AxisDriver.GetRegisterValue(c, r)
    {
      if c.kind == MotorTmc {
        value := r.regValue;
      } else {
        value := 0;
      }
      err := ErrNone;
    }
  }

  /** The entries of the Motors arrays at one board, as its driver reads and writes them. */
  datatype Slot = Slot(enabled: bool, remote: bool, moving: bool, homing: bool, searching: bool,
                       target: int, setPos: int, itersLeft: int, latch: Latch)

  class Motors {
    const params: Parameters
    /** The four drivers; driver b serves board b. */
    const tmcArr: seq<TMC>
    /**
     * The per-board arrays of Motors.h (isMotorEnabled, isRemoteControlled,
     * isMotorMoving, isMotorHoming, isMotorSearching, targetPosition,
     * setPosition, iterationsLeft, errorFlagBoard/errorMsgBoard), entry b of
     * each gathered in slots[b].
     */
    var slots: seq<Slot>
    /** errorFlagGeneral and errorMsgGeneral */
    var general: Latch
    var errorFlag: bool
    // The interval timers of ProcessUpdateChanges (function statics in the source).
    var lastErrorCheckTime: int
    var lastStatusCheckTime: int

    /**
     * Motors::Init: the four drivers are created for boards 0 to 3, every flag
     * and counter starts at 0 and no error is pending.
     */
    constructor (p: Parameters)
      requires p.Valid()
      ensures Valid() && params == p && fresh(tmcArr[0]) && fresh(tmcArr[1]) && fresh(tmcArr[2]) && fresh(tmcArr[3])
      ensures forall b :: 0 <= b < MaxNumMotors ==>
        Axes()[b] == Axis(Sim(0, 0, 0, 0, 0, 0, 0), map[], 0, 0, 0, 0,
                          false, false, false, false, false, 0, 0, 0, ClearLatch)
      ensures general == ClearLatch && !errorFlag && lastErrorCheckTime == 0 && lastStatusCheckTime == 0
    {
      params := p;
      var t0 := new TMC(0);
      var t1 := new TMC(1);
      var t2 := new TMC(2);
      var t3 := new TMC(3);
      tmcArr := [t0, t1, t2, t3];
      slots := seq(MaxNumMotors, _ => Slot(false, false, false, false, false, 0, 0, 0, ClearLatch));
      general := ClearLatch;
      errorFlag := false;
      lastErrorCheckTime, lastStatusCheckTime := 0, 0;
    }

    /** The shape of the object graph and of the per-board arrays. */
    ghost predicate Shaped()
      reads this`slots
    {
      |tmcArr| == MaxNumMotors && (forall b :: 0 <= b < MaxNumMotors ==> tmcArr[b].board == b)
      && |slots| == MaxNumMotors
    }

    /** Some error slot is raised. */
    ghost predicate AnyFlag()
      requires |slots| == MaxNumMotors
      reads this`general, this`slots
    {
      general.flag || slots[0].latch.flag || slots[1].latch.flag || slots[2].latch.flag || slots[3].latch.flag
    }

    /** Shaped, the parameter store is valid, and a raised slot has raised the summary flag. */
    ghost predicate Valid()
      reads this, params
    {
      Shaped() && params.Valid() && (AnyFlag() ==> errorFlag)
    }

    /** The state of board b, gathered from its driver and from the Motors arrays. */
    ghost function AxisOf(b: int): Axis
      requires Shaped() && ValidBoard(b)
      reads this`slots, tmcArr[b]
    {
      tmcArr[b].With(slots[b])
    }

    /** The state of boards 0 to 3. */
    ghost function Axes(): (axes: seq<Axis>)
      requires Shaped()
      reads this`slots, tmcArr
      ensures |axes| == MaxNumMotors && forall b :: 0 <= b < MaxNumMotors ==> axes[b] == AxisOf(b)
    {
      [AxisOf(0), AxisOf(1), AxisOf(2), AxisOf(3)]
    }

    /** AxesFrom(0) and Axes() are the same sequence. */
    lemma AxesFromAll()
      requires Shaped()
      ensures AxesFrom(0) == Axes()
    {
      assert AxesFrom(0)[0] == AxisOf(0) && AxesFrom(0)[1] == AxisOf(1);
      assert AxesFrom(0)[2] == AxisOf(2) && AxesFrom(0)[3] == AxisOf(3);
    }

    /** The state of boards b to 3, built one board at a time. */
    ghost function AxesFrom(b: nat): (axes: seq<Axis>)
      requires Shaped() && b <= MaxNumMotors
      reads this`slots, tmcArr
      ensures |axes| == MaxNumMotors - b && forall k :: 0 <= k < |axes| ==> axes[k] == AxisOf(b + k)
      decreases MaxNumMotors - b
    {
      if b == MaxNumMotors then [] else [AxisOf(b)] + AxesFrom(b + 1)
    }

    /** What board b is: its device type and parameter row. */
    function CtxOf(b: int): (c: Ctx)
      requires WellFormedHw(params.hw) && IsTable(params.motorParamArr, MotorsNumParams) && ValidBoard(b)
      reads params`hw, params`motorParamArr
      ensures WellFormed(c) && c.board == b && c.kind == params.hw.motorType[b]
    {
      Ctx(b, params.hw.motorType[b], params.motorParamArr[b])
    }

    ghost function Ctxs(): (cs: seq<Ctx>)
      requires WellFormedHw(params.hw) && IsTable(params.motorParamArr, MotorsNumParams)
      reads params`hw, params`motorParamArr
      ensures Orchestrator.Boards(cs) && forall b :: 0 <= b < MaxNumMotors ==> cs[b] == CtxOf(b)
    {
      [CtxOf(0), CtxOf(1), CtxOf(2), CtxOf(3)]
    }

    /** Writes a driver's updated entries back into the arrays at board b. */
    method Store(b: int, s: Slot)
      requires Shaped() && ValidBoard(b)
      modifies this`slots, this`errorFlag
      ensures Shaped() && slots == old(slots)[b := s]
      ensures errorFlag == (old(errorFlag) || s.latch.flag)
      ensures old(AnyFlag() ==> errorFlag) ==> (AnyFlag() ==> errorFlag)
    {
      slots := slots[b := s];
      errorFlag := errorFlag || s.latch.flag;
    }

    /** Motors::SetErrorMsg(source, b, msg) on board b's slot. */
    static function SlotError(s: Slot, source: string, b: int, msg: string): Slot
    {
      s.(latch := Raise(s.latch, BoardMessage(source, b, msg)))
    }

    /**
     * Motors::SetErrorMsg. Board -1 is the general slot; a valid board its own
     * slot; anything else is reported by the parameter store as an invalid
     * board. A raised slot keeps its message until PrintErrorMsg.
     */
    method SetErrorMsg(source: string, num: int, msg: string)
      requires Valid()
      modifies this`general, this`slots, this`errorFlag, params`latch
      ensures Valid() && errorFlag
      ensures num == -1 ==>
        general == Raise(old(general), GeneralMessage(source, msg)) && slots == old(slots)
        && params.latch == old(params.latch)
      ensures ValidBoard(num) ==>
        slots == old(slots)[num := SlotError(old(slots[num]), source, num, msg)]
        && general == old(general) && params.latch == old(params.latch)
      ensures num != -1 && !ValidBoard(num) ==>
        general == old(general) && slots == old(slots)
        && params.latch == Raise(old(params.latch), "Invalid board number")
    {
      if num == -1 {
        if general.flag {
          return;
        }
        general := Raise(general, GeneralMessage(source, msg));
      } else {
        var ok := params.IsValidMotor(num);
        if ok {
          if slots[num].latch.flag {
            return;
          }
          slots := slots[num := SlotError(slots[num], source, num, msg)];
        }
      }
      errorFlag := true;
    }

    // -------------------------------------------------------------------------
    // Outcomes
    // -------------------------------------------------------------------------

    /**
     * A command on board b had the outcome `s`: board b's state is s.ax, the
     * other boards' entries are unchanged (their drivers are outside the
     * command's modifies clause), and the summary flag reflects board b's slot.
     */
    twostate predicate Applied(b: int, err: int, s: Step)
      requires old(Shaped()) && Shaped() && ValidBoard(b)
      reads this`slots, this`errorFlag, this`general, tmcArr, params`latch
    {
      err == s.err && AxisOf(b) == s.ax && slots == old(slots)[b := slots[b]]
      && errorFlag == (old(errorFlag) || s.ax.latch.flag) && general == old(general) && params.latch == old(params.latch)
    }

    /** Changing only board z's slot and driver changes only entry z of Axes(). */
    twostate lemma AxesFrame(z: int)
      requires old(Shaped()) && Shaped() && ValidBoard(z)
      requires slots == old(slots)[z := slots[z]]
      requires (z != 0 ==> unchanged(tmcArr[0])) && (z != 1 ==> unchanged(tmcArr[1]))
      requires (z != 2 ==> unchanged(tmcArr[2])) && (z != 3 ==> unchanged(tmcArr[3]))
      ensures Axes() == old(Axes())[z := AxisOf(z)]
    {
    }

    /** AxesFrame for the board-by-board form AxesFrom(0). */
    twostate lemma AxesFromFrame(z: int)
      requires old(Shaped()) && Shaped() && ValidBoard(z)
      requires slots == old(slots)[z := slots[z]]
      requires unchanged(set t | t in tmcArr && t.board != z)
      ensures AxesFrom(0) == old(AxesFrom(0))[z := AxisOf(z)]
    {
      assert tmcArr[0] == tmcArr[0] && tmcArr[1] == tmcArr[1] && tmcArr[2] == tmcArr[2] && tmcArr[3] == tmcArr[3];
      AxesFrame(z);
      AxesFromAll();
      assert old(AxesFrom(0)) == old(Axes());
    }

    /** The driver of board b, when b is a board. */
    function Driver(b: int): set<TMC>
      requires |tmcArr| == MaxNumMotors
    {
      if ValidBoard(b) then {tmcArr[b]} else {}
    }

    /** IsActiveMotor(board, 1) refused the board: only the parameter store's error is raised. */
    twostate predicate Refused()
      requires old(Shaped()) && Shaped()
      reads this`slots, this`errorFlag, this`general, params`latch
    {
      slots == old(slots) && errorFlag == old(errorFlag) && general == old(general)
      && params.latch == Raise(old(params.latch), "Inactive board number")
    }

    // -------------------------------------------------------------------------
    // Motion commands
    // -------------------------------------------------------------------------

    /** Motors::MoveToPos: IsActiveMotor(board, 1), then Orchestrator.MoveTo on that board. */
    method MoveToPos(board: int, pos: int, setVel: bool, r: Readings) returns (err: int)
      requires Valid()
      modifies this`slots, this`errorFlag, Driver(board), params`latch
      ensures Valid()
      ensures !IsActive(params.hw, board) ==> err == ErrMotor && Refused()
      ensures IsActive(params.hw, board) ==>
        Applied(board, err, Orchestrator.MoveTo(CtxOf(board), old(AxisOf(board)), pos, setVel, r))
    {
      var ok := params.IsActiveMotor(board, true);
      if !ok {
        return ErrMotor;
      }
      var s;
      err, s := MoveBoard(CtxOf(board), tmcArr[board], slots[board], pos, setVel, r);
      Store(board, s);
    }

    /** The body of MoveToPos past the active-board check, on board c.board's driver and slot. */
    static method MoveBoard(c: Ctx, t: TMC, s: Slot, pos: int, setVel: bool, r: Readings) returns (err: int, s': Slot)
      requires WellFormed(c) && c.board == t.board
      modifies t`chip, t`sim
      ensures Step(err, t.With(s')) == Orchestrator.MoveTo(c, old(t.With(s)), pos, setVel, r)
    {
      if !s.enabled {
        return ErrMotor, SlotError(s, "Board", c.board, "Driver is not enabled");
      }
      if s.homing {
        return ErrMotor, SlotError(s, "Board", c.board, "Motor is homing");
      }
      if (t.maxIterations == 0 || t.maxIterations > 1) && t.encConst != 0 {
        s' := s.(target := pos, itersLeft := t.maxIterations - 1, moving := true, searching := true, setPos := pos);
      } else {
        s' := s.(itersLeft := 0, moving := true, searching := false);
      }
      assert t.With(s') == Orchestrator.Arm(t.With(s), pos);
      err, s' := Dispatch(c, t, s', pos, setVel, r);
    }

    /** The driver's MoveToPos on an armed slot; a rejection clears moving and records a board message. */
    static method Dispatch(c: Ctx, t: TMC, s: Slot, pos: int, setVel: bool, r: Readings) returns (err: int, s': Slot)
      requires WellFormed(c) && c.board == t.board
      modifies t`chip, t`sim
      ensures Step(err, t.With(s')) == Orchestrator.Dispatch(c, old(t.With(s)), pos, setVel, r)
    {
      err, s' := t.MoveToPos(c, s, pos, setVel, r);
      if err != ErrNone {
        s' := SlotError(s'.(moving := false), "Board", c.board, "Error setting position target");
        err := ErrMotor;
      }
    }

    /** Motors::MoveAtVel: IsActiveMotor(board, 1), then Orchestrator.MoveVel on that board. */
    method MoveAtVel(board: int, v: int, r: Readings, now: int) returns (err: int)
      requires Valid()
      modifies this`slots, this`errorFlag, Driver(board), params`latch
      ensures Valid()
      ensures !IsActive(params.hw, board) ==> err == ErrMotor && Refused()
      ensures IsActive(params.hw, board) ==>
        Applied(board, err, Orchestrator.MoveVel(CtxOf(board), old(AxisOf(board)), v, r, now))
    {
      var ok := params.IsActiveMotor(board, true);
      if !ok {
        return ErrMotor;
      }
      var s;
      err, s := VelBoard(CtxOf(board), tmcArr[board], slots[board], v, r, now);
      Store(board, s);
    }

    /** The body of MoveAtVel past the active-board check, on board c.board's driver and slot. */
    static method VelBoard(c: Ctx, t: TMC, s: Slot, v: int, r: Readings, now: int) returns (err: int, s': Slot)
      requires WellFormed(c) && c.board == t.board
      modifies t`chip, t`sim
      ensures Step(err, t.With(s')) == Orchestrator.MoveVel(c, old(t.With(s)), v, r, now)
    {
      if !s.enabled {
        return ErrMotor, SlotError(s, "Board", c.board, "Driver is not enabled");
      }
      if s.homing {
        return ErrMotor, SlotError(s, "Board", c.board, "Motor is homing");
      }
      err, s' := t.MoveAtVel(c, s, v, r, now);
      if err != ErrNone {
        s' := SlotError(s'.(moving := false), "Board", c.board, "Error setting velocity mode");
        err := ErrMotor;
      } else {
        s' := s'.(moving := v != 0);
      }
    }

    /** Motors::StartHoming: IsActiveMotor(board, 1), then Orchestrator.Home on that board. */
    method StartHoming(board: int, r: Readings) returns (err: int)
      requires Valid()
      modifies this`slots, this`errorFlag, Driver(board), params`latch
      ensures Valid()
      ensures !IsActive(params.hw, board) ==> err == ErrMotor && Refused()
      ensures IsActive(params.hw, board) ==>
        Applied(board, err, Orchestrator.Home(CtxOf(board), old(AxisOf(board)), r))
    {
      var ok := params.IsActiveMotor(board, true);
      if !ok {
        return ErrMotor;
      }
      var s := slots[board];
      if !s.enabled {
        Store(board, SlotError(s, "Board", board, "Driver is not enabled"));
        return ErrMotor;
      }
      err, s := tmcArr[board].StartHoming(CtxOf(board), s, r);
      Store(board, s);
    }

    /** Motors::GetPos: IsActiveMotor(board, 1), then the driver's GetPos. */
    method GetPos(board: int, r: Readings) returns (err: int, pos: int)
      requires Valid()
      modifies this`slots, this`errorFlag, params`latch
      ensures Valid()
      ensures !IsActive(params.hw, board) ==> err == ErrMotor && Refused()
      ensures IsActive(params.hw, board) ==>
        var q := AxisDriver.GetPos(CtxOf(board), old(AxisOf(board)), r);
        pos == q.value && Applied(board, err, Step(q.err, q.ax))
    {
      var ok := params.IsActiveMotor(board, true);
      if !ok {
        return ErrMotor, 0;
      }
      var s;
      err, pos, s := tmcArr[board].GetPos(CtxOf(board), slots[board], r);
      Store(board, s);
    }

    /**
     * Motors::SetRemoteEnabled: board -1 hands every active board to the
     * remote unit (state != 0) or back to serial control; a single board is
     * changed only when active, silently otherwise. Always ERR_None.
     */
    method SetRemoteEnabled(board: int, state: int) returns (err: int)
      requires Valid()
      modifies this`slots
      ensures Valid() && err == ErrNone && |slots| == MaxNumMotors
      ensures forall b :: 0 <= b < MaxNumMotors ==>
        slots[b] == if (board == -1 || board == b) && IsActive(params.hw, b)
                    then old(slots)[b].(remote := state != 0) else old(slots)[b]
    {
      if board == -1 {
        var z := 0;
        while z < MaxNumMotors
          invariant 0 <= z <= MaxNumMotors && Valid()
          invariant forall b :: 0 <= b < MaxNumMotors ==>
            slots[b] == if b < z && IsActive(params.hw, b) then old(slots)[b].(remote := state != 0) else old(slots)[b]
        {
          if IsActive(params.hw, z) {
            slots := slots[z := slots[z].(remote := state != 0)];
          }
          z := z + 1;
        }
      } else if IsActive(params.hw, board) {
        slots := slots[board := slots[board].(remote := state != 0)];
      }
      err := ErrNone;
    }

    /**
     * Motors::ClearStatusRegs: board -1 clears every active driver; a single
     * board must be active.
     */
    method ClearStatusRegs(board: int) returns (err: int)
      requires Valid()
      modifies params`latch
      ensures Valid()
      ensures err == (if board == -1 || IsActive(params.hw, board) then ErrNone else ErrMotor)
      ensures params.latch == if err == ErrNone then old(params.latch) else Raise(old(params.latch), "Inactive board number")
    {
      if board == -1 {
        var z := 0;
        while z < MaxNumMotors
          invariant 0 <= z <= MaxNumMotors && params.latch == old(params.latch)
        {
          if IsActive(params.hw, z) {
            var e := tmcArr[z].ClearStatusRegs();
          }
          z := z + 1;
        }
        return ErrNone;
      }
      var ok := params.IsActiveMotor(board, true);
      if !ok {
        return ErrMotor;
      }
      err := tmcArr[board].ClearStatusRegs();
    }

    // -------------------------------------------------------------------------
    // Status values and registers
    // -------------------------------------------------------------------------

    /**
     * Motors::SetStatusValue: ENAB on board -1 enables or disables every
     * active board (Orchestrator.EnableFrom); anything else goes to the
     * driver of one active board.
     */
    method SetStatusValue(board: int, index: nat, v: int) returns (err: int)
      requires Valid() && index < MotorsNumStatus
      modifies this`slots, this`errorFlag, Drivers(board), params`latch
      ensures Valid()
      ensures index == SENAB && board == -1 ==>
        Orchestrator.Fleet(err, Axes()) == Orchestrator.EnableFrom(Ctxs(), old(Axes()), v, 0)
        && general == old(general) && params.latch == old(params.latch) && (old(errorFlag) ==> errorFlag)
      ensures !(index == SENAB && board == -1) && !IsActive(params.hw, board) ==> err == ErrMotor && Refused()
      ensures !(index == SENAB && board == -1) && IsActive(params.hw, board) ==>
        Applied(board, err, AxisDriver.SetStatusValue(CtxOf(board), old(AxisOf(board)), index, v))
    {
      if index == SENAB && board == -1 {
        err := EnableAll(v);
        return;
      }
      var ok := params.IsActiveMotor(board, true);
      if !ok {
        return ErrMotor;
      }
      var s;
      err, s := tmcArr[board].SetStatusValue(CtxOf(board), slots[board], index, v);
      Store(board, s);
    }

    /** The ENAB loop of SetStatusValue on board -1. */
    method EnableAll(v: int) returns (err: int)
      requires Valid()
      modifies this`slots, this`errorFlag, tmcArr
      ensures Valid()
      ensures Orchestrator.Fleet(err, Axes()) == Orchestrator.EnableFrom(Ctxs(), old(Axes()), v, 0)
      ensures general == old(general) && (old(errorFlag) ==> errorFlag)
    {
      ghost var cs := Ctxs();
      var z := 0;
      while z < MaxNumMotors
        invariant 0 <= z <= MaxNumMotors && Valid() && general == old(general) && (old(errorFlag) ==> errorFlag)
        invariant Orchestrator.EnableFrom(cs, Axes(), v, z) == Orchestrator.EnableFrom(cs, old(Axes()), v, 0)
      {
        err := EnableStep(cs, z, v);
        if err != ErrNone {
          return;
        }
        z := z + 1;
      }
      err := ErrNone;
    }

    /** One board of the ENAB loop (inactive boards are skipped), stated as one step of the sweep. */
    method EnableStep(ghost cs: seq<Ctx>, z: int, v: int) returns (err: int)
      requires Valid() && ValidBoard(z) && cs == Ctxs()
      modifies this`slots, this`errorFlag, Driver(z)
      ensures Valid() && general == old(general) && (old(errorFlag) ==> errorFlag)
      ensures err == ErrNone ==>
        Orchestrator.EnableFrom(cs, Axes(), v, z + 1) == Orchestrator.EnableFrom(cs, old(Axes()), v, z)
      ensures err != ErrNone ==>
        Orchestrator.Fleet(err, Axes()) == Orchestrator.EnableFrom(cs, old(Axes()), v, z)
    {
      if IsActive(params.hw, z) {
        err := EnableBoard(z, v);
        AxesFrame(z);
      } else {
        err := ErrNone;
      }
    }

    /** One board of the ENAB loop. */
    method EnableBoard(z: int, v: int) returns (err: int)
      requires Valid() && ValidBoard(z)
      modifies this`slots, this`errorFlag, Driver(z)
      ensures Valid() && Applied(z, err, Orchestrator.Enable(CtxOf(z), old(AxisOf(z)), v))
    {
      var s;
      err, s := tmcArr[z].SetStatusValue(CtxOf(z), slots[z], SENAB, v);
      if err != ErrNone {
        s := SlotError(s, "Board", z, "Error enabling/disabling the motor");
      }
      Store(z, s);
    }

    /**
     * Motors::GetStatusValue: PULL is answered here as EMAX minus the tries
     * left; every other value comes from the driver of an active board.
     */
    method GetStatusValue(board: int, index: nat, r: Readings) returns (err: int, value: int)
      requires Valid() && index < MotorsNumStatus
      modifies this`slots, this`errorFlag, params`latch
      ensures Valid()
      ensures !IsActive(params.hw, board) ==> err == ErrMotor && Refused()
      ensures IsActive(params.hw, board) && index == PULL ==>
        err == ErrNone && value == Orchestrator.PullCount(CtxOf(board), old(AxisOf(board)))
        && Applied(board, err, Step(ErrNone, old(AxisOf(board))))
      ensures IsActive(params.hw, board) && index != PULL ==>
        var q := AxisDriver.GetStatusValue(CtxOf(board), old(AxisOf(board)), index, r);
        value == q.value && Applied(board, err, Step(q.err, q.ax))
    {
      var ok := params.IsActiveMotor(board, true);
      if !ok {
        return ErrMotor, 0;
      }
      var c := CtxOf(board);
      if index == PULL {
        return ErrNone, c.prm[EMAX] - slots[board].itersLeft;
      }
      var s;
      err, value, s := tmcArr[board].GetStatusValue(c, slots[board], index, r);
      Store(board, s);
    }

    /** Motors::SetRegisterValue: an active board's driver writes the register. */
    method SetRegisterValue(board: int, address: int, v: int) returns (err: int)
      requires Valid()
      modifies Driver(board), params`latch
      ensures Valid()
      ensures !IsActive(params.hw, board) ==> err == ErrMotor && Refused()
      ensures IsActive(params.hw, board) ==>
        Applied(board, err, AxisDriver.SetRegisterValue(CtxOf(board), old(AxisOf(board)), address, v))
    {
      var ok := params.IsActiveMotor(board, true);
      if !ok {
        return ErrMotor;
      }
      err := tmcArr[board].SetRegisterValue(CtxOf(board), slots[board], address, v);
    }

    /** Motors::GetRegisterValue: an active board's driver reads the register. */
    method GetRegisterValue(board: int, r: Readings) returns (err: int, value: int)
      requires Valid()
      modifies params`latch
      ensures Valid()
      ensures !IsActive(params.hw, board) ==> err == ErrMotor && params.latch == Raise(old(params.latch), "Inactive board number")
      ensures IsActive(params.hw, board) ==>
        err == ErrNone && value == AxisDriver.GetRegisterValue(CtxOf(board), r) && params.latch == old(params.latch)
    {
      var ok := params.IsActiveMotor(board, true);
      if !ok {
        return ErrMotor, 0;
      }
      err, value := tmcArr[board].GetRegisterValue(CtxOf(board), r);
    }

    /** Motors::GetStatusFlags: an active board's driver assembles the flag word. */
    method GetStatusFlags(board: int, r: Readings) returns (err: int, status: int)
      requires Valid()
      modifies this`slots, this`errorFlag, params`latch
      ensures Valid()
      ensures !IsActive(params.hw, board) ==> err == ErrMotor && Refused()
      ensures IsActive(params.hw, board) ==>
        var q := StatusFlags(CtxOf(board), old(AxisOf(board)), r);
        status == q.value && Applied(board, err, Step(q.err, q.ax))
    {
      var ok := params.IsActiveMotor(board, true);
      if !ok {
        return ErrMotor, 0;
      }
      var s;
      err, status, s := tmcArr[board].GetStatusFlags(CtxOf(board), slots[board], r);
      Store(board, s);
    }

    /**
     * Motors::IsMotionDone: board -1 reports done when no active board is
     * moving or searching; a single active board reports its own state. An
     * inactive board is refused and `done` keeps its initial 1.
     */
    method IsMotionDone(board: int) returns (err: int, done: bool)
      requires Valid()
      modifies params`latch
      ensures Valid()
      ensures board == -1 ==>
        err == ErrNone && done == Orchestrator.AllDone(old(Ctxs()), old(Axes())) && params.latch == old(params.latch)
      ensures board != -1 && !IsActive(params.hw, board) ==>
        err == ErrMotor && done && params.latch == Raise(old(params.latch), "Inactive board number")
      ensures board != -1 && IsActive(params.hw, board) ==>
        err == ErrNone && done == Orchestrator.MotionDone(old(AxisOf(board))) && params.latch == old(params.latch)
    {
      done := true;
      if board == -1 {
        ghost var cs := Ctxs();
        var z := 0;
        while z < MaxNumMotors
          invariant 0 <= z <= MaxNumMotors
          invariant forall b :: 0 <= b < z && Orchestrator.Active(cs[b]) ==> Orchestrator.MotionDone(Axes()[b])
        {
          if IsActive(params.hw, z) && (slots[z].moving || slots[z].searching) {
            assert Orchestrator.Active(cs[z]) && !Orchestrator.MotionDone(Axes()[z]);
            return ErrNone, false;
          }
          z := z + 1;
        }
        return ErrNone, true;
      }
      var ok := params.IsActiveMotor(board, true);
      if !ok {
        return ErrMotor, true;
      }
      err, done := ErrNone, !(slots[board].moving || slots[board].searching);
    }

    // -------------------------------------------------------------------------
    // Configuration
    // -------------------------------------------------------------------------

    /** The drivers a call on `board` may change: all four for -1, else that board's. */
    function Drivers(board: int): set<TMC>
      requires |tmcArr| == MaxNumMotors
    {
      if board == -1 then set t | t in tmcArr else Driver(board)
    }

    /**
     * Motors::ConfigBoard: board -1 configures every active board in order and
     * stops at the first failure (Orchestrator.ConfigureFrom); a single active
     * board is configured on its own; any other board is refused with a
     * general "Invalid motor number" message. `rs` holds each board's readings.
     */
    method ConfigBoard(board: int, rs: seq<Readings>) returns (err: int)
      requires Valid() && |rs| == MaxNumMotors
      modifies this`slots, this`errorFlag, Drivers(board), this`general, params`latch
      ensures Valid()
      ensures board == -1 ==>
        Orchestrator.Fleet(err, Axes()) == Orchestrator.ConfigureFrom(Ctxs(), old(Axes()), rs, 0)
        && general == old(general) && params.latch == old(params.latch) && (old(errorFlag) ==> errorFlag)
      ensures board != -1 && IsActive(params.hw, board) ==>
        Applied(board, err, Orchestrator.Configure(CtxOf(board), old(AxisOf(board)), rs[board]))
      ensures board != -1 && !IsActive(params.hw, board) ==>
        err == ErrMotor && slots == old(slots) && errorFlag && unchanged(Drivers(board))
        && general == Raise(old(general), GeneralMessage("Board", "Invalid motor number"))
        && params.latch == Raise(old(params.latch), "Inactive board number")
    {
      if board == -1 {
        err := ConfigAll(rs);
        return;
      }
      var ok := params.IsActiveMotor(board, true);
      if !ok {
        SetErrorMsg("Board", -1, "Invalid motor number");
        return ErrMotor;
      }
      err := ConfigureBoard(board, rs[board]);
    }

    /** The loop of ConfigBoard(-1). */
    method ConfigAll(rs: seq<Readings>) returns (err: int)
      requires Valid() && |rs| == MaxNumMotors
      modifies this`slots, this`errorFlag, tmcArr
      ensures Valid()
      ensures Orchestrator.Fleet(err, Axes()) == Orchestrator.ConfigureFrom(Ctxs(), old(Axes()), rs, 0)
      ensures general == old(general) && (old(errorFlag) ==> errorFlag)
    {
      ghost var cs := Ctxs();
      var z := 0;
      while z < MaxNumMotors
        invariant 0 <= z <= MaxNumMotors && Valid() && general == old(general) && (old(errorFlag) ==> errorFlag)
        invariant Orchestrator.ConfigureFrom(cs, Axes(), rs, z) == Orchestrator.ConfigureFrom(cs, old(Axes()), rs, 0)
      {
        err := ConfigStep(cs, z, rs);
        if err != ErrNone {
          return;
        }
        z := z + 1;
      }
      err := ErrNone;
    }

    /** One board of ConfigBoard(-1) (inactive boards are skipped), stated as one step of the sweep. */
    method ConfigStep(ghost cs: seq<Ctx>, z: int, rs: seq<Readings>) returns (err: int)
      requires Valid() && ValidBoard(z) && cs == Ctxs() && |rs| == MaxNumMotors
      modifies this`slots, this`errorFlag, Driver(z)
      ensures Valid() && general == old(general) && (old(errorFlag) ==> errorFlag)
      ensures err == ErrNone ==>
        Orchestrator.ConfigureFrom(cs, Axes(), rs, z + 1) == Orchestrator.ConfigureFrom(cs, old(Axes()), rs, z)
      ensures err != ErrNone ==>
        Orchestrator.Fleet(err, Axes()) == Orchestrator.ConfigureFrom(cs, old(Axes()), rs, z)
    {
      if IsActive(params.hw, z) {
        err := ConfigActive(cs, z, rs);
      } else {
        err := ErrNone;
      }
    }

    /** ConfigStep on an active board. */
    method ConfigActive(ghost cs: seq<Ctx>, z: int, rs: seq<Readings>) returns (err: int)
      requires Valid() && ValidBoard(z) && cs == Ctxs() && |rs| == MaxNumMotors && IsActive(params.hw, z)
      modifies this`slots, this`errorFlag, Driver(z)
      ensures Valid() && general == old(general) && (old(errorFlag) ==> errorFlag)
      ensures err == ErrNone ==>
        Orchestrator.ConfigureFrom(cs, Axes(), rs, z + 1) == Orchestrator.ConfigureFrom(cs, old(Axes()), rs, z)
      ensures err != ErrNone ==>
        Orchestrator.Fleet(err, Axes()) == Orchestrator.ConfigureFrom(cs, old(Axes()), rs, z)
    {
      err := ConfigureBoard(z, rs[z]);
      AxesFrame(z);
    }

    /** One board of ConfigBoard: the driver's Config; a failure is ERR_Motor with a board message. */
    method ConfigureBoard(z: int, r: Readings) returns (err: int)
      requires Valid() && ValidBoard(z)
      modifies this`slots, this`errorFlag, Driver(z)
      ensures Valid() && Applied(z, err, Orchestrator.Configure(CtxOf(z), old(AxisOf(z)), r))
    {
      var s;
      err, s := tmcArr[z].Config(CtxOf(z), slots[z], r);
      if err != ErrNone {
        s := SlotError(s, "Board", z, "Could not configure board");
        err := ErrMotor;
      }
      Store(z, s);
    }

    // -------------------------------------------------------------------------
    // The periodic update
    // -------------------------------------------------------------------------

    /**
     * Motors::ProcessUpdateChanges: more than 50 ms after the last error pass,
     * CheckError runs on every active board; more than 10 ms after the last
     * status pass, every enabled active board that is homing, searching or
     * moving is polled (Orchestrator.UpdateAll). Each pass that runs restarts
     * its timer at `now`, the millis() reading of this call.
     */
    method ProcessUpdateChanges(rs: seq<Readings>, now: int)
      requires Valid() && |rs| == MaxNumMotors
      modifies this`slots, this`errorFlag, tmcArr, this`lastErrorCheckTime, this`lastStatusCheckTime
      ensures Valid() && general == old(general)
      ensures var ce := Elapsed(now, old(lastErrorCheckTime)) > MotorsCheckErrorIntervalMs;
        var cst := Elapsed(now, old(lastStatusCheckTime)) > MotorsCheckStatusIntervalMs;
        Axes() == Orchestrator.UpdateAll(Ctxs(), old(Axes()), rs, now, ce, cst)
        && lastErrorCheckTime == (if ce then now else old(lastErrorCheckTime))
        && lastStatusCheckTime == (if cst then now else old(lastStatusCheckTime))
    {
      ghost var cs := Ctxs();
      var ce := Elapsed(now, lastErrorCheckTime) > MotorsCheckErrorIntervalMs;
      var cst := Elapsed(now, lastStatusCheckTime) > MotorsCheckStatusIntervalMs;
      ErrorPhase(cs, rs, now, ce);
      StatusPhase(cs, rs, now, cst);
    }

    /** The error half of ProcessUpdateChanges: when `due`, the error pass runs and its timer restarts. */
    method ErrorPhase(ghost cs: seq<Ctx>, rs: seq<Readings>, now: int, due: bool)
      requires Valid() && cs == Ctxs() && |rs| == MaxNumMotors
      modifies this`slots, this`errorFlag, tmcArr, this`lastErrorCheckTime
      ensures Valid() && general == old(general)
      ensures Axes() == if due then Orchestrator.ErrorSweep(cs, old(Axes()), rs, 0) else old(Axes())
      ensures lastErrorCheckTime == if due then now else old(lastErrorCheckTime)
    {
      if due {
        ErrorAll(cs, rs);
        lastErrorCheckTime := now;
      }
    }

    /** The status half of ProcessUpdateChanges: when `due`, the status pass runs and its timer restarts. */
    method StatusPhase(ghost cs: seq<Ctx>, rs: seq<Readings>, now: int, due: bool)
      requires Valid() && cs == Ctxs() && |rs| == MaxNumMotors
      modifies this`slots, this`errorFlag, tmcArr, this`lastStatusCheckTime
      ensures Valid() && general == old(general)
      ensures Axes() == if due then Orchestrator.StatusSweep(cs, old(Axes()), rs, now, 0) else old(Axes())
      ensures lastStatusCheckTime == if due then now else old(lastStatusCheckTime)
    {
      if due {
        StatusAll(cs, rs, now);
        lastStatusCheckTime := now;
      }
    }

    /** The error pass of ProcessUpdateChanges. */
    method ErrorAll(ghost cs: seq<Ctx>, rs: seq<Readings>)
      requires Valid() && cs == Ctxs() && |rs| == MaxNumMotors
      modifies this`slots, this`errorFlag, tmcArr
      ensures Valid() && general == old(general)
      ensures Axes() == Orchestrator.ErrorSweep(cs, old(Axes()), rs, 0)
    {
      var z := 0;
      while z < MaxNumMotors
        invariant 0 <= z <= MaxNumMotors && Valid() && general == old(general)
        invariant Orchestrator.ErrorSweep(cs, Axes(), rs, z) == Orchestrator.ErrorSweep(cs, old(Axes()), rs, 0)
      {
        ErrorStep(cs, z, rs);
        z := z + 1;
      }
    }

    /** One board of the error pass, stated as one step of the sweep. */
    method ErrorStep(ghost cs: seq<Ctx>, z: int, rs: seq<Readings>)
      requires Valid() && ValidBoard(z) && cs == Ctxs() && |rs| == MaxNumMotors
      modifies this`slots, this`errorFlag, Driver(z)
      ensures Valid() && general == old(general)
      ensures Orchestrator.ErrorSweep(cs, Axes(), rs, z + 1) == Orchestrator.ErrorSweep(cs, old(Axes()), rs, z)
    {
      ErrorBoard(z, rs[z]);
      AxesFrame(z);
    }

    /** One board of the error pass: CheckError when the board is active. */
    method ErrorBoard(z: int, r: Readings)
      requires Valid() && ValidBoard(z)
      modifies this`slots, this`errorFlag, Driver(z)
      ensures Valid() && general == old(general) && slots == old(slots)[z := slots[z]]
      ensures AxisOf(z) == Orchestrator.ErrorPass(CtxOf(z), old(AxisOf(z)), r)
    {
      if IsActive(params.hw, z) {
        var err, s := tmcArr[z].CheckError(CtxOf(z), slots[z], r);
        Store(z, s);
      }
    }

    /** The status pass of ProcessUpdateChanges. */
    method StatusAll(ghost cs: seq<Ctx>, rs: seq<Readings>, now: int)
      requires Valid() && cs == Ctxs() && |rs| == MaxNumMotors
      modifies this`slots, this`errorFlag, tmcArr
      ensures Valid() && general == old(general)
      ensures Axes() == Orchestrator.StatusSweep(cs, old(Axes()), rs, now, 0)
    {
      var z := 0;
      while z < MaxNumMotors
        invariant 0 <= z <= MaxNumMotors && Valid() && general == old(general)
        invariant Orchestrator.StatusSweep(cs, Axes(), rs, now, z) == Orchestrator.StatusSweep(cs, old(Axes()), rs, now, 0)
      {
        StatusStep(cs, z, rs, now);
        z := z + 1;
      }
    }

    /** One board of the status pass, stated as one step of the sweep. */
    method StatusStep(ghost cs: seq<Ctx>, z: int, rs: seq<Readings>, now: int)
      requires Valid() && ValidBoard(z) && cs == Ctxs() && |rs| == MaxNumMotors
      modifies this`slots, this`errorFlag, Driver(z)
      ensures Valid() && general == old(general)
      ensures Orchestrator.StatusSweep(cs, Axes(), rs, now, z + 1) == Orchestrator.StatusSweep(cs, old(Axes()), rs, now, z)
    {
      StatusBoard(z, rs[z], now);
      AxesFrame(z);
    }

    /** One board of the status pass: only an enabled active board that is homing, searching or moving is polled. */
    method StatusBoard(z: int, r: Readings, now: int)
      requires Valid() && ValidBoard(z)
      modifies this`slots, this`errorFlag, Driver(z)
      ensures Valid() && general == old(general) && slots == old(slots)[z := slots[z]]
      ensures AxisOf(z) == Orchestrator.StatusPass(CtxOf(z), old(AxisOf(z)), r, now).ax
    {
      if IsActive(params.hw, z) && slots[z].enabled {
        var s := PollBoard(CtxOf(z), tmcArr[z], slots[z], r, now);
        Store(z, s);
      }
    }

    /** The status pass on an enabled active board: homing first, then a search, then open-loop motion. */
    static method PollBoard(c: Ctx, t: TMC, s: Slot, r: Readings, now: int) returns (s': Slot)
      requires WellFormed(c) && c.board == t.board && Orchestrator.Active(c) && s.enabled
      modifies t`chip, t`sim
      ensures t.With(s') == Orchestrator.StatusPass(c, old(t.With(s)), r, now).ax
    {
      if s.homing {
        s' := WatchBoard(c, t, s, r, now);
      } else if s.searching {
        s' := SearchBoard(c, t, s, r, now);
      } else if s.moving {
        s' := WatchBoard(c, t, s, r, now);
      } else {
        s' := s;
      }
    }

    /** The homing and open-loop branches: CheckStatus, and moving is cleared on done or error. */
    static method WatchBoard(c: Ctx, t: TMC, s: Slot, r: Readings, now: int) returns (s': Slot)
      requires WellFormed(c) && c.board == t.board
      modifies t`chip, t`sim
      ensures t.With(s') == Orchestrator.Watch(c, old(t.With(s)), r, now)
    {
      var err, done;
      err, done, s' := t.CheckStatus(c, s, r, now);
      if done || err != ErrNone {
        s' := s'.(moving := false);
      }
    }

    /** The closed-loop branch: CheckStatus, then on completion the measurement of SettleBoard. */
    static method SearchBoard(c: Ctx, t: TMC, s: Slot, r: Readings, now: int) returns (s': Slot)
      requires WellFormed(c) && c.board == t.board
      modifies t`chip, t`sim
      ensures t.With(s') == Orchestrator.Search(c, old(t.With(s)), r, now).ax
    {
      var err, done;
      err, done, s' := t.CheckStatus(c, s, r, now);
      if err != ErrNone {
        s' := SlotError(s'.(moving := false, searching := false), "Board", c.board, "Error during closed loop mode");
      } else if done {
        s' := SettleBoard(c, t, s'.(moving := false), r);
      }
    }

    /**
     * A completed search move: the encoder deviation from the target decides
     * between a corrected re-issue, a failed search and the end of the search.
     */
    static method SettleBoard(c: Ctx, t: TMC, s: Slot, r: Readings) returns (s': Slot)
      requires WellFormed(c) && c.board == t.board
      modifies t`chip, t`sim
      ensures t.With(s') == Orchestrator.Settle(c, old(t.With(s)), r).ax
    {
      var err, pos, e := t.GetEnc(c, s, r);
      var dev := WrapInt32(pos - e.target);
      if Orchestrator.CAbs(dev) > t.tolerance {
        s' := CorrectBoard(c, t, e, dev, r);
      } else {
        s' := ArriveBoard(c, t, e, pos);
      }
    }

    /** Orchestrator.Correct on board c.board's driver and slot. */
    static method CorrectBoard(c: Ctx, t: TMC, e: Slot, dev: int, r: Readings) returns (s': Slot)
      requires WellFormed(c) && c.board == t.board
      modifies t`chip, t`sim
      ensures t.With(s') == Orchestrator.Correct(c, old(t.With(e)), dev, r).ax
    {
      if e.itersLeft == -1 || e.itersLeft > 0 {
        var b := e.(itersLeft := if t.maxIterations > 1 then e.itersLeft - 1 else e.itersLeft,
                    moving := true, setPos := WrapInt32(e.setPos - dev));
        var err;
        err, s' := t.MoveToPos(c, b, b.setPos, false, r);
      } else {
        s' := SlotError(e.(searching := false), "Board", c.board, "Closed loop motion did not converge");
      }
    }

    /** Orchestrator.Arrive on board c.board's driver and slot. */
    static method ArriveBoard(c: Ctx, t: TMC, e: Slot, enc: int) returns (s': Slot)
      requires WellFormed(c) && c.board == t.board
      modifies t`chip, t`sim
      ensures t.With(s') == Orchestrator.Arrive(c, old(t.With(e)), enc)
    {
      var b := if e.itersLeft != -1 then e.(searching := false) else e;
      if t.resetX != 0 {
        var err;
        err, s' := t.SetXPos(c, b, enc);
      } else {
        s' := b;
      }
    }

    // -------------------------------------------------------------------------
    // The error report
    // -------------------------------------------------------------------------

    /** The four board error slots. */
    ghost function Latches(): (ls: seq<Latch>)
      requires |slots| == MaxNumMotors
      reads this`slots
      ensures |ls| == MaxNumMotors && forall b :: 0 <= b < MaxNumMotors ==> ls[b] == slots[b].latch
    {
      [slots[0].latch, slots[1].latch, slots[2].latch, slots[3].latch]
    }

    /** A slot after PrintErrorMsg: its error flag is cleared, its message kept. */
    static function Printed(s: Slot): Slot
    {
      s.(latch := s.latch.(flag := false))
    }

    /**
     * Motors::PrintErrorMsg: when the summary flag is raised, the text is
     * Orchestrator.Report of the general and board slots, every flag is
     * cleared and the result says an error was printed; otherwise nothing is
     * printed and nothing changes.
     */
    method PrintErrorMsg() returns (had: bool, text: string)
      requires Valid()
      modifies this`general, this`slots, this`errorFlag
      ensures Valid() && had == old(errorFlag) && !errorFlag
      ensures had ==>
        text == Orchestrator.Report(old(general), old(Latches()))
        && general == old(general).(flag := false) && |slots| == MaxNumMotors
        && forall b :: 0 <= b < MaxNumMotors ==> slots[b] == Printed(old(slots)[b])
      ensures !had ==> text == "" && general == old(general) && slots == old(slots)
    {
      if !errorFlag {
        return false, "";
      }
      ghost var g := general;
      ghost var ls := Latches();
      var first := true;
      text := "";
      if general.flag {
        text := general.msg;
        general := general.(flag := false);
        first := false;
      }
      var z := 0;
      while z < MaxNumMotors
        invariant 0 <= z <= MaxNumMotors && Shaped() && general == g.(flag := false)
        invariant text + Orchestrator.BoardReport(ls, z, first) == Orchestrator.Report(g, ls)
        invariant forall b :: 0 <= b < MaxNumMotors ==>
          slots[b] == if b < z then Printed(old(slots)[b]) else old(slots)[b]
      {
        if slots[z].latch.flag {
          var piece := (if first then "" else "; ") + slots[z].latch.msg;
          assert Orchestrator.BoardReport(ls, z, first) == piece + Orchestrator.BoardReport(ls, z + 1, false);
          text := text + piece;
          first := false;
        }
        slots := slots[z := Printed(slots[z])];
        z := z + 1;
      }
      errorFlag := false;
      had := true;
    }
  }
}
