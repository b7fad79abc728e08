// The controller's USB serial command interpreter (class SerialComm of
// SerialComm.cpp): at most one line per check interval, decoded by
// SerialDispatch, carried out on the parameter store, the motors or the remote
// link, and answered with one printed line. The printed lines are the `out`
// field, oldest first.

module HostLink {
  import opened Common
  import opened Text
  import opened ParameterStore
  import opened SerialDispatch
  import AxisDriver
  import Orchestrator
  import Motion
  import RemoteRelay

  /** What a board command asks of that board's driver. */
  datatype BoardAct = GoTo(pos: int) | Drive(vel: int) | Seek | Put(idx: nat, v: int) | Poke(addr: int, v: int)

  /** The step a single-board Motors command takes on an active board. */
  function Outcome(a: BoardAct, c: AxisDriver.Ctx, ax: AxisDriver.Axis, r: AxisDriver.Readings, now: int): AxisDriver.Step
    requires AxisDriver.WellFormed(c) && (a.Put? ==> a.idx < MotorsNumStatus)
  {
    match a
    case GoTo(pos) => Orchestrator.MoveTo(c, ax, pos, true, r)
    case Drive(vel) => Orchestrator.MoveVel(c, ax, vel, r, now)
    case Seek => Orchestrator.Home(c, ax, r)
    case Put(idx, v) => AxisDriver.SetStatusValue(c, ax, idx, v)
    case Poke(addr, v) => AxisDriver.SetRegisterValue(c, ax, addr, v)
  }

  /** A done flag as the int32 the reply prints. */
  function Bit(done: bool): int { if done then 1 else 0 }

  /** SetRemoteParams seen in the relay state: the stored cell (or ENAB column) and the parameter latch. */
  function Stored(st: RemoteRelay.Relay, b: int, i: nat, v: int): (s: RemoteRelay.Sent)
    requires RemoteRelay.Fits(st) && i < RemoteNumParams
    ensures RemoteRelay.Fits(s.st)
  {
    if i == ENAB && b == -1 then RemoteRelay.Sent(ErrNone, st.(rprm := SetColumn(st.rprm, ENAB, v)))
    else if ValidBoard(b) then RemoteRelay.Sent(ErrNone, st.(rprm := SetCell(st.rprm, b, i, v)))
    else RemoteRelay.Sent(ErrParameter, st.(plat := Raise(st.plat, "Invalid board number")))
  }

  /** SRP_: RemoteComm::SendRemoteCommand, and SetRemoteParams only when the remote accepted it. */
  function RemoteSet(cs: seq<AxisDriver.Ctx>, st: RemoteRelay.Relay, i: nat, b: int, v: int): (s: RemoteRelay.Sent)
    requires Orchestrator.Boards(cs) && RemoteRelay.Fits(st) && i < RemoteNumParams
  {
    var s := RemoteRelay.Send(cs, st, RemoteParamIds[i], b, v);
    if s.err != ErrNone then s else Stored(s.st, b, i, v)
  }

  /**
   * Motors::ConfigBoard seen in the relay state: board -1 sweeps the active
   * boards, an active board is configured alone, anything else is refused.
   * `flag` is Motors' summary flag after a sweep, which the sweep only ever raises.
   */
  function MotorsConfig(cs: seq<AxisDriver.Ctx>, st: RemoteRelay.Relay, b: int, rs: seq<AxisDriver.Readings>, flag: bool)
    : (s: RemoteRelay.Sent)
    requires Orchestrator.Boards(cs) && RemoteRelay.Fits(st) && |rs| == MaxNumMotors
    ensures RemoteRelay.Fits(s.st)
  {
    if b == -1 then
      var f := Orchestrator.ConfigureFrom(cs, st.axes, rs, 0);
      RemoteRelay.Sent(f.err, st.(axes := f.axes, flag := flag))
    else if RemoteRelay.Live(cs, b) then
      var s := Orchestrator.Configure(cs[b], st.axes[b], rs[b]);
      RemoteRelay.Sent(s.err, RemoteRelay.Polled(st, b, s.ax))
    else
      RemoteRelay.Sent(ErrMotor, st.(flag := true, plat := Raise(st.plat, "Inactive board number")))
  }

  /** SMC_CONF: Motors::ConfigBoard, and RemoteComm::Config only when that succeeded. */
  function ConfigResult(cs: seq<AxisDriver.Ctx>, st: RemoteRelay.Relay, b: int, rs: seq<AxisDriver.Readings>, flag: bool)
    : (s: RemoteRelay.Sent)
    requires Orchestrator.Boards(cs) && RemoteRelay.Fits(st) && |rs| == MaxNumMotors
  {
    var m := MotorsConfig(cs, st, b, rs, flag);
    if m.err != ErrNone then m else RemoteRelay.ConfigTables(cs, m.st, b)
  }

  /** ConfigResult from its two steps. */
  lemma ConfigSteps(cs: seq<AxisDriver.Ctx>, st: RemoteRelay.Relay, b: int, rs: seq<AxisDriver.Readings>, flag: bool,
                    m: RemoteRelay.Sent, t: RemoteRelay.Sent)
    requires Orchestrator.Boards(cs) && RemoteRelay.Fits(st) && |rs| == MaxNumMotors
    requires MotorsConfig(cs, st, b, rs, flag) == m
    requires m.err != ErrNone ==> t == m
    requires m.err == ErrNone ==> RemoteRelay.ConfigTables(cs, m.st, b) == t
    ensures ConfigResult(cs, st, b, rs, flag) == t
  {
  }

  class SerialComm {
    const params: Parameters
    const motors: Motion.Motors
    const remote: RemoteRelay.RemoteComm
    /** errorFlag and errorMsg */
    var latch: Latch
    /** The lines printed on the USB serial port, oldest first. */
    var out: seq<string>
    /** The static lastCheckTime of CheckSerialCommand. */
    var lastCheckTime: int

    ghost predicate Valid()
      reads this`latch, remote, motors, params
    {
      remote.motors == motors && remote.params == params && remote.Valid() && |latch.msg| < MaxErrorStringSize
    }

    /** SerialComm() and Init(params, motors, remote, timeout): the interpreter starts clear. */
    constructor (rc: RemoteRelay.RemoteComm)
      requires rc.Valid()
      ensures Valid() && remote == rc && motors == rc.motors && params == rc.params
      ensures latch == ClearLatch && out == [] && lastCheckTime == 0
    {
      remote := rc;
      motors := rc.motors;
      params := rc.params;
      latch := ClearLatch;
      out := [];
      lastCheckTime := 0;
    }

    // -------------------------------------------------------------------------
    // Error state and replies
    // -------------------------------------------------------------------------

    /** First-wins: a pending message is kept until PrintErrorMsg. */
    method SetErrorMsg(msg: string)
      requires Valid()
      modifies this`latch
      ensures Valid() && latch == Raise(old(latch), msg)
    {
      if latch.flag {
        return;
      }
      latch := Raise(latch, msg);
    }

    /** Prints and clears a pending error; the text printed is returned. */
    method PrintErrorMsg() returns (had: bool, text: string)
      requires Valid()
      modifies this`latch
      ensures Valid()
      ensures had == old(latch.flag) && text == (if had then old(latch.msg) else "")
      ensures latch == old(latch).(flag := false)
    {
      had := latch.flag;
      text := if had then latch.msg else "";
      latch := latch.(flag := false);
    }

    method ReportErrorCode(err: int)
      requires Valid()
      modifies this`out
      ensures Valid() && out == old(out) + [Code(err)]
    {
      out := out + [Code(err)];
    }

    /** isRemoteControlled[board], read for a board number only. */
    predicate Locked(b: int)
      requires |motors.slots| == MaxNumMotors
      reads motors`slots
    {
      ValidBoard(b) && motors.slots[b].remote
    }

    /** A board the remote controls refuses host motion commands. */
    method CheckRemoteControl(b: int) returns (err: int)
      requires Valid()
      modifies this`latch
      ensures Valid() && err == (if Locked(b) then ErrSerial else ErrNone)
      ensures latch == if Locked(b) then Raise(old(latch), LockedMessage) else old(latch)
    {
      if ValidBoard(b) && motors.slots[b].remote {
        SetErrorMsg(LockedMessage);
        return ErrSerial;
      }
      return ErrNone;
    }

    // -------------------------------------------------------------------------
    // What each request does
    // -------------------------------------------------------------------------

    /** The parameter tables and the flash image are as they were. */
    twostate predicate TablesKept()
      reads params
    {
      params.hw == old(params.hw) && params.motorParamArr == old(params.motorParamArr)
      && params.remoteParamArr == old(params.remoteParamArr) && params.eeprom == old(params.eeprom)
    }

    /** Nothing but the interpreter's own fields changed. */
    twostate predicate Quiet()
      reads params, motors, motors.tmcArr, remote
    {
      TablesKept() && params.latch == old(params.latch) && unchanged(motors) && unchanged(motors.tmcArr)
      && unchanged(remote)
    }

    /** What Motors' board commands leave alone. */
    twostate predicate BoardFrame()
      reads params, motors, remote
    {
      TablesKept() && unchanged(remote)
      && motors.lastErrorCheckTime == old(motors.lastErrorCheckTime)
      && motors.lastStatusCheckTime == old(motors.lastStatusCheckTime)
    }

    /** A refused line: its message latched and ERROR=-1 printed. */
    twostate predicate Rejected(msg: string)
      requires old(Valid()) && Valid()
      reads this`latch, this`out, params, motors, motors.tmcArr, remote
    {
      latch == Raise(old(latch), msg) && out == old(out) + [Code(ErrSerial)] && Quiet()
    }

    /** One fixed line printed, nothing else changed. */
    twostate predicate Answered(line: string)
      requires old(Valid()) && Valid()
      reads this`latch, this`out, params, motors, motors.tmcArr, remote
    {
      latch == old(latch) && out == old(out) + [line] && Quiet()
    }

    /** The outcome of a single-board Motors command (an inactive board is refused). */
    twostate predicate BoardRan(b: int, a: BoardAct, r: AxisDriver.Readings, now: int, err: int)
      requires old(Valid()) && Valid() && (a.Put? ==> a.idx < MotorsNumStatus)
      reads this`latch, this`out, params, motors, motors.tmcArr, remote
    {
      BoardFrame()
      && (!IsActive(params.hw, b) ==> err == ErrMotor && motors.Refused())
      && (IsActive(params.hw, b) ==> motors.Applied(b, err, Outcome(a, motors.CtxOf(b), old(motors.AxisOf(b)), r, now)))
    }

    /** The code a single-board Motors command returns. */
    twostate function BoardCode(b: int, a: BoardAct, r: AxisDriver.Readings, now: int): int
      requires old(Valid()) && Valid() && (a.Put? ==> a.idx < MotorsNumStatus)
      reads this`latch, this`out, params, motors, motors.tmcArr, remote
    {
      if IsActive(params.hw, b) then Outcome(a, motors.CtxOf(b), old(motors.AxisOf(b)), r, now).err else ErrMotor
    }

    /**
     * SMC_MPOS, SMC_MVEL, SMC_HOME (guarded) and SMC_DREG, SMS_ (not guarded):
     * a guarded command on a board under remote control is refused, otherwise
     * Motors carries it out; the code is printed.
     */
    twostate predicate Commanded(b: int, a: BoardAct, r: AxisDriver.Readings, now: int, guarded: bool)
      requires old(Valid()) && Valid() && (a.Put? ==> a.idx < MotorsNumStatus)
      reads this`latch, this`out, params, motors, motors.tmcArr, remote
    {
      if guarded && old(Locked(b)) then Rejected(LockedMessage)
      else
        latch == old(latch) && BoardRan(b, a, r, now, BoardCode(b, a, r, now))
        && out == old(out) + [Code(BoardCode(b, a, r, now))]
    }

    /** SMS_ENAB with board -1: every active board is enabled or disabled in turn; the code is printed. */
    twostate predicate AllEnabled(v: int)
      requires old(Valid()) && Valid()
      reads this`latch, this`out, params, motors, motors.tmcArr, remote
    {
      var f := Orchestrator.EnableFrom(motors.Ctxs(), old(motors.Axes()), v, 0);
      motors.Axes() == f.axes && out == old(out) + [Code(f.err)] && latch == old(latch)
      && motors.general == old(motors.general) && params.latch == old(params.latch)
      && (old(motors.errorFlag) ==> motors.errorFlag) && BoardFrame()
    }

    /** GMC_STAT: the status word of an active board, or the refusal. */
    twostate predicate FlagsRead(b: int, r: AxisDriver.Readings)
      requires old(Valid()) && Valid()
      reads this`latch, this`out, params, motors, motors.tmcArr, remote
    {
      latch == old(latch) && BoardFrame()
      && (!IsActive(params.hw, b) ==> motors.Refused() && out == old(out) + [Code(ErrMotor)])
      && (IsActive(params.hw, b) ==>
            var q := AxisDriver.StatusFlags(motors.CtxOf(b), old(motors.AxisOf(b)), r);
            motors.Applied(b, q.err, AxisDriver.Step(q.err, q.ax)) && out == old(out) + [Answer("MC_STAT", b, q.err, q.value)])
    }

    /** GMC_POSR: whether the board (or, for -1, every active board) has stopped. */
    twostate predicate ReachedRead(b: int)
      requires old(Valid()) && Valid()
      reads this`latch, this`out, params, motors, motors.tmcArr, remote
    {
      latch == old(latch) && TablesKept() && unchanged(motors) && unchanged(motors.tmcArr) && unchanged(remote)
      && if b == -1 then AllReached() else OneReached(b)
    }

    /** GMC_POSR-1: done when no active board is moving or searching. */
    twostate predicate AllReached()
      requires old(Valid()) && Valid()
      reads this`latch, this`out, params, motors, motors.tmcArr, remote
    {
      params.latch == old(params.latch)
      && out == old(out) + [Answer("MC_POSR", -1, ErrNone, Bit(Orchestrator.AllDone(old(motors.Ctxs()), old(motors.Axes()))))]
    }

    /** GMC_POSR<b>: an inactive board is refused, an active one reports its own state. */
    twostate predicate OneReached(b: int)
      requires old(Valid()) && Valid() && b != -1
      reads this`latch, this`out, params, motors, motors.tmcArr, remote
    {
      if !IsActive(params.hw, b) then
        params.latch == Raise(old(params.latch), "Inactive board number") && out == old(out) + [Code(ErrMotor)]
      else
        params.latch == old(params.latch)
        && out == old(out) + [Answer("MC_POSR", b, ErrNone, Bit(Orchestrator.MotionDone(old(motors.AxisOf(b)))))]
    }

    /** GMS_<ID>: one status value of an active board. */
    twostate predicate StatusRead(i: nat, b: int, r: AxisDriver.Readings)
      requires old(Valid()) && Valid() && i < MotorsNumStatus
      reads this`latch, this`out, params, motors, motors.tmcArr, remote
    {
      var name := "MS_" + AxisDriver.StatusIds[i];
      latch == old(latch) && BoardFrame()
      && (!IsActive(params.hw, b) ==> motors.Refused() && out == old(out) + [Code(ErrMotor)])
      && (IsActive(params.hw, b) && i == AxisDriver.PULL ==>
            motors.Applied(b, ErrNone, AxisDriver.Step(ErrNone, old(motors.AxisOf(b))))
            && out == old(out) + [Answer(name, b, ErrNone, Orchestrator.PullCount(motors.CtxOf(b), old(motors.AxisOf(b))))])
      && (IsActive(params.hw, b) && i != AxisDriver.PULL ==>
            var q := AxisDriver.GetStatusValue(motors.CtxOf(b), old(motors.AxisOf(b)), i, r);
            motors.Applied(b, q.err, AxisDriver.Step(q.err, q.ax)) && out == old(out) + [Answer(name, b, q.err, q.value)])
    }

    /** GMC_DREG: a raw register read of an active board. */
    twostate predicate RegisterRead(b: int, r: AxisDriver.Readings)
      requires old(Valid()) && Valid()
      reads this`latch, this`out, params, motors, motors.tmcArr, remote
    {
      latch == old(latch) && TablesKept() && unchanged(motors) && unchanged(motors.tmcArr) && unchanged(remote)
      && if IsActive(params.hw, b) then
           params.latch == old(params.latch)
           && out == old(out) + [Answer("MC_DREG", b, ErrNone, AxisDriver.GetRegisterValue(motors.CtxOf(b), r))]
         else
           params.latch == Raise(old(params.latch), "Inactive board number") && out == old(out) + [Code(ErrMotor)]
    }

    /** GMP_TDEV, GMP_TAXI, GMP_<ID>, GRP_<ID>: a table entry of a board number, `value` when b is one. */
    twostate predicate TableRead(name: string, b: int, value: int)
      requires old(Valid()) && Valid()
      reads this`latch, this`out, params, motors, motors.tmcArr, remote
    {
      latch == old(latch) && TablesKept() && unchanged(motors) && unchanged(motors.tmcArr) && unchanged(remote)
      && out == old(out) + [Answer(name, b, if ValidBoard(b) then ErrNone else ErrParameter, value)]
      && params.latch == if ValidBoard(b) then old(params.latch) else Raise(old(params.latch), "Invalid board number")
    }

    /** What the parameter setters leave alone. */
    twostate predicate StoreFrame()
      requires old(Valid()) && Valid()
      reads this`latch, this`out, params, motors, motors.tmcArr, remote
    {
      latch == old(latch) && unchanged(motors) && unchanged(motors.tmcArr) && unchanged(remote)
    }

    /** SMP_TDEV: a device type 0..2 of a board number is stored. */
    twostate predicate DeviceSet(b: int, v: int)
      requires old(Valid()) && Valid()
      reads this`latch, this`out, params, motors, motors.tmcArr, remote
    {
      var ok := ValidBoard(b) && MotorNone <= v <= MotorTmc;
      StoreFrame() && out == old(out) + [Code(if ok then ErrNone else ErrParameter)]
      && params.hw == (if ok then old(params.hw).(motorType := old(params.hw).motorType[b := v]) else old(params.hw))
      && params.latch == (if !ValidBoard(b) then Raise(old(params.latch), "Invalid board number")
                          else if !ok then Raise(old(params.latch), "Invalid device type (0..2)")
                          else old(params.latch))
      && params.motorParamArr == old(params.motorParamArr) && params.remoteParamArr == old(params.remoteParamArr)
      && params.eeprom == old(params.eeprom)
    }

    /** SMP_TAXI: an axis type 0..4 of a board number is stored. */
    twostate predicate AxisSet(b: int, v: int)
      requires old(Valid()) && Valid()
      reads this`latch, this`out, params, motors, motors.tmcArr, remote
    {
      var ok := ValidBoard(b) && AxisUndef <= v <= AxisAux;
      StoreFrame() && out == old(out) + [Code(if ok then ErrNone else ErrParameter)]
      && params.hw == (if ok then old(params.hw).(axisType := old(params.hw).axisType[b := v]) else old(params.hw))
      && params.latch == (if !ValidBoard(b) then Raise(old(params.latch), "Invalid board number")
                          else if !ok then Raise(old(params.latch), "Invalid axis type (0..4)")
                          else old(params.latch))
      && params.motorParamArr == old(params.motorParamArr) && params.remoteParamArr == old(params.remoteParamArr)
      && params.eeprom == old(params.eeprom)
    }

    /** SMP_<ID>: any value of a board number is stored in the motor table. */
    twostate predicate MotorParamSet(i: nat, b: int, v: int)
      requires old(Valid()) && Valid() && i < MotorsNumParams
      reads this`latch, this`out, params, motors, motors.tmcArr, remote
    {
      StoreFrame() && out == old(out) + [Code(if ValidBoard(b) then ErrNone else ErrParameter)]
      && params.motorParamArr == (if ValidBoard(b) then SetCell(old(params.motorParamArr), b, i, v) else old(params.motorParamArr))
      && params.latch == (if ValidBoard(b) then old(params.latch) else Raise(old(params.latch), "Invalid board number"))
      && params.hw == old(params.hw) && params.remoteParamArr == old(params.remoteParamArr)
      && params.eeprom == old(params.eeprom)
    }

    /** SPC_SAFL: the tables are written to the flash image; the commit may fail. */
    twostate predicate FlashSaved(commitOk: bool)
      requires old(Valid()) && Valid()
      reads this`latch, this`out, params, motors, motors.tmcArr, remote
    {
      StoreFrame() && out == old(out) + [Code(if commitOk then ErrNone else ErrParameter)]
      && params.eeprom == Image(params.hw, params.motorParamArr, params.remoteParamArr)
      && params.latch == (if commitOk then old(params.latch) else Raise(old(params.latch), "Could not save config to flash"))
      && params.hw == old(params.hw) && params.motorParamArr == old(params.motorParamArr)
      && params.remoteParamArr == old(params.remoteParamArr)
    }

    /** SMC_SCLR: board -1 or an active board is accepted; nothing else changes. */
    twostate predicate RegsCleared(b: int)
      requires old(Valid()) && Valid()
      reads this`latch, this`out, params, motors, motors.tmcArr, remote
    {
      var ok := b == -1 || IsActive(params.hw, b);
      StoreFrame() && TablesKept() && out == old(out) + [Code(if ok then ErrNone else ErrMotor)]
      && params.latch == if ok then old(params.latch) else Raise(old(params.latch), "Inactive board number")
    }

    /** SRP_<ID>: the command goes to the remote first; only when it was accepted is the value stored. */
    twostate predicate RemoteParamSet(i: nat, b: int, v: int)
      requires old(Valid()) && Valid() && i < RemoteNumParams
      reads this`latch, this`out, params, motors, motors.tmcArr, remote
    {
      var t := RemoteSet(remote.Ctxs(), old(remote.State()), i, b, v);
      remote.State() == t.st && out == old(out) + [Code(t.err)] && latch == old(latch)
      && params.hw == old(params.hw) && params.motorParamArr == old(params.motorParamArr)
      && params.eeprom == old(params.eeprom) && motors.general == old(motors.general)
      && remote.lastSendTime == old(remote.lastSendTime) && remote.lastReceiveTime == old(remote.lastReceiveTime)
    }

    /** SMC_CONF: Motors::ConfigBoard, then RemoteComm::Config when that succeeded; one code printed. */
    twostate predicate BoardConfigured(b: int, rs: seq<AxisDriver.Readings>)
      requires old(Valid()) && Valid() && |rs| == MaxNumMotors
      reads this`latch, this`out, params, motors, motors.tmcArr, remote
    {
      var t := ConfigResult(remote.Ctxs(), old(remote.State()), b, rs, motors.errorFlag);
      remote.State() == t.st && out == old(out) + [Code(t.err)] && (old(motors.errorFlag) ==> motors.errorFlag)
      && motors.general == (if b != -1 && !IsActive(params.hw, b)
                            then Raise(old(motors.general), AxisDriver.GeneralMessage("Board", "Invalid motor number"))
                            else old(motors.general))
      && ConfigFrame()
    }

    /** What SMC_CONF leaves alone. */
    twostate predicate ConfigFrame()
      requires old(Valid()) && Valid()
      reads this`latch, params, motors, motors.tmcArr, remote
    {
      latch == old(latch) && TablesKept()
      && remote.lastSendTime == old(remote.lastSendTime) && remote.lastReceiveTime == old(remote.lastReceiveTime)
    }

    /** The sections GPC_EMSG reports, from the state before it. */
    twostate function Pending(): seq<Section>
      requires old(Valid())
      reads this`latch, params, motors, remote
    {
      var mot := if old(motors.errorFlag) then Some(Orchestrator.Report(old(motors.general), old(motors.Latches()))) else None;
      Sections(old(latch), old(params.latch), mot, old(remote.latch))
    }

    /** Each component's error flag cleared, its message kept; nothing else changed. */
    twostate predicate ErrorsCleared()
      requires old(Valid()) && Valid()
      reads this`latch, this`out, params, motors, motors.tmcArr, remote
    {
      LatchesCleared() && ReportFrame()
    }

    /** Each component's error flag cleared, its message kept. */
    twostate predicate LatchesCleared()
      requires old(Valid()) && Valid()
      reads this`latch, params, motors, remote
    {
      latch == old(latch).(flag := false) && params.latch == old(params.latch).(flag := false)
      && remote.latch == old(remote.latch).(flag := false) && !motors.errorFlag
      && (old(motors.errorFlag) ==>
            motors.general == old(motors.general).(flag := false)
            && forall b :: 0 <= b < MaxNumMotors ==> motors.slots[b] == Motion.Motors.Printed(old(motors.slots[b])))
      && (!old(motors.errorFlag) ==> motors.general == old(motors.general) && motors.slots == old(motors.slots))
    }

    /** What printing the error report leaves alone. */
    twostate predicate ReportFrame()
      requires old(Valid()) && Valid()
      reads this`latch, params, motors, motors.tmcArr, remote
    {
      TablesKept() && unchanged(motors.tmcArr)
      && motors.lastErrorCheckTime == old(motors.lastErrorCheckTime)
      && motors.lastStatusCheckTime == old(motors.lastStatusCheckTime)
      && remote.repeatPosSet == old(remote.repeatPosSet) && remote.tx == old(remote.tx)
      && remote.lastSendTime == old(remote.lastSendTime) && remote.lastReceiveTime == old(remote.lastReceiveTime)
    }

    /** GPC_EMSG: every pending message in one line, each component's flag cleared. */
    twostate predicate ErrorsReported()
      requires old(Valid()) && Valid()
      reads this`latch, this`out, params, motors, motors.tmcArr, remote
    {
      out == old(out) + [ErrorLine(Pending())] && ErrorsCleared()
    }

    /** GMP_TDEV */
    twostate predicate DeviceRead(b: int)
      requires old(Valid()) && Valid()
      reads this`latch, this`out, params, motors, motors.tmcArr, remote
    {
      TableRead("MP_TDEV", b, if ValidBoard(b) then old(params.hw.motorType[b]) else 0)
    }

    /** GMP_TAXI */
    twostate predicate AxisRead(b: int)
      requires old(Valid()) && Valid()
      reads this`latch, this`out, params, motors, motors.tmcArr, remote
    {
      TableRead("MP_TAXI", b, if ValidBoard(b) then old(params.hw.axisType[b]) else 0)
    }

    /** GMP_<ID> */
    twostate predicate MotorParamRead(i: nat, b: int)
      requires old(Valid()) && Valid() && i < MotorsNumParams
      reads this`latch, this`out, params, motors, motors.tmcArr, remote
    {
      TableRead("MP_" + MotorParamIds[i], b, if ValidBoard(b) then old(params.motorParamArr[b][i]) else 0)
    }

    /** GRP_<ID> */
    twostate predicate RemoteParamRead(i: nat, b: int)
      requires old(Valid()) && Valid() && i < RemoteNumParams
      reads this`latch, this`out, params, motors, motors.tmcArr, remote
    {
      TableRead("RP_" + RemoteParamIds[i], b, if ValidBoard(b) then old(params.remoteParamArr[b][i]) else 0)
    }

    /** SMS_<ID>: board -1 with ENAB enables every active board; otherwise one board's status value. */
    twostate predicate StatusSet(i: nat, b: int, v: int, r: AxisDriver.Readings, now: int)
      requires old(Valid()) && Valid() && i < MotorsNumStatus
      reads this`latch, this`out, params, motors, motors.tmcArr, remote
    {
      if i == AxisDriver.SENAB && b == -1 then AllEnabled(v) else Commanded(b, Put(i, v), r, now, false)
    }

    /** The commands Motors carries out. */
    static predicate MotorKind(q: Request)
    {
      q.MovePos? || q.MoveVel? || q.GetFlags? || q.GetReached? || q.SetStatus? || q.GetStatus?
      || q.ConfigBoard? || q.ClearRegs? || q.Home? || q.SetReg? || q.GetReg?
    }

    /** The commands on the parameter tables. */
    static predicate TableKind(q: Request)
    {
      q.SetDevice? || q.GetDevice? || q.SetAxis? || q.GetAxis?
      || q.SetMotorParam? || q.GetMotorParam? || q.SetRemoteParam? || q.GetRemoteParam?
    }

    /** What a Motors command does. */
    twostate predicate MotorsDid(q: Request, r: AxisDriver.Readings, rs: seq<AxisDriver.Readings>, now: int)
      requires old(Valid()) && Valid() && Bounded(q) && |rs| == MaxNumMotors && MotorKind(q)
      reads this`latch, this`out, params, motors, motors.tmcArr, remote
    {
      match q
      case MovePos(b, v) => Commanded(b, GoTo(v), r, now, true)
      case MoveVel(b, v) => Commanded(b, Drive(v), r, now, true)
      case GetFlags(b) => FlagsRead(b, r)
      case GetReached(b) => ReachedRead(b)
      case SetStatus(i, b, v) => StatusSet(i, b, v, r, now)
      case GetStatus(i, b) => StatusRead(i, b, r)
      case ConfigBoard(b) => BoardConfigured(b, rs)
      case ClearRegs(b) => RegsCleared(b)
      case Home(b) => Commanded(b, Seek, r, now, true)
      case SetReg(b, a, v) => Commanded(b, Poke(a, v), r, now, false)
      case GetReg(b, _) => RegisterRead(b, r)
      case _ => false
    }

    /** What a parameter-table command does. */
    twostate predicate TablesDid(q: Request)
      requires old(Valid()) && Valid() && Bounded(q) && TableKind(q)
      reads this`latch, this`out, params, motors, motors.tmcArr, remote
    {
      match q
      case SetDevice(b, v) => DeviceSet(b, v)
      case GetDevice(b) => DeviceRead(b)
      case SetAxis(b, v) => AxisSet(b, v)
      case GetAxis(b) => AxisRead(b)
      case SetMotorParam(i, b, v) => MotorParamSet(i, b, v)
      case GetMotorParam(i, b) => MotorParamRead(i, b)
      case SetRemoteParam(i, b, v) => RemoteParamSet(i, b, v)
      case GetRemoteParam(i, b) => RemoteParamRead(i, b)
      case _ => false
    }

    /** What the controller's own commands and a refused line do. */
    twostate predicate HostDid(q: Request, commitOk: bool)
      requires old(Valid()) && Valid()
      reads this`latch, this`out, params, motors, motors.tmcArr, remote
    {
      match q
      case Refuse(msg) => Rejected(msg)
      case Identify => Answered(IdString)
      case NumDevices => Answered(DevicesReply())
      case GetVersion => Answered(VersionReply())
      case ErrorQuery => ErrorsReported()
      case SaveFlash => FlashSaved(commitOk)
      case _ => Rejected("Unrecognized command")
    }

    /** What carrying out a decoded request does. */
    twostate predicate Did(q: Request, r: AxisDriver.Readings, rs: seq<AxisDriver.Readings>, commitOk: bool, now: int)
      requires old(Valid()) && Valid() && Bounded(q) && |rs| == MaxNumMotors
      reads this`latch, this`out, params, motors, motors.tmcArr, remote
    {
      if MotorKind(q) then MotorsDid(q, r, rs, now) else if TableKind(q) then TablesDid(q) else HostDid(q, commitOk)
    }

    // -------------------------------------------------------------------------
    // Carrying requests out
    // -------------------------------------------------------------------------

    /**
     * CheckSerialCommand: when more than SERIAL_CHECK_INTERVAL_MS have passed,
     * the line read (None when nothing is available) is decoded and carried
     * out. The timer is reset only when nothing was available or the command
     * was unrecognized: every handled command returns before the reset.
     * `r` and `rs` are the drivers' register readings, `commitOk` whether the
     * flash commit succeeds, `now` the millis() reading.
     */
    method CheckSerialCommand(rx: Option<string>, r: AxisDriver.Readings, rs: seq<AxisDriver.Readings>,
                              commitOk: bool, now: int)
      requires Valid() && |rs| == MaxNumMotors
      modifies this, params, motors, motors.Drivers(-1), remote
      ensures Valid()
      ensures Elapsed(now, old(lastCheckTime)) <= SerialCheckIntervalMs ==>
        latch == old(latch) && out == old(out) && lastCheckTime == old(lastCheckTime) && Quiet()
      ensures Elapsed(now, old(lastCheckTime)) > SerialCheckIntervalMs && rx.None? ==>
        latch == old(latch) && out == old(out) && lastCheckTime == now && Quiet()
      ensures Elapsed(now, old(lastCheckTime)) > SerialCheckIntervalMs && rx.Some? ==>
        Did(Decode(rx.value), r, rs, commitOk, now)
        && lastCheckTime == if Decode(rx.value).Unrecognized? then now else old(lastCheckTime)
    {
      if Elapsed(now, lastCheckTime) <= SerialCheckIntervalMs {
        return;
      }
      if rx.None? {
        lastCheckTime := now;
        return;
      }
      Execute(Decode(rx.value), r, rs, commitOk, now);
    }

    /**
     * The branch of CheckSerialCommand a decoded request takes; only an
     * unrecognized command falls through to the timer reset.
     */
    method Execute(q: Request, r: AxisDriver.Readings, rs: seq<AxisDriver.Readings>, commitOk: bool, now: int)
      requires Valid() && Bounded(q) && |rs| == MaxNumMotors
      modifies this`latch, this`out, this`lastCheckTime, params, motors, motors.Drivers(-1), remote
      ensures Valid() && Did(q, r, rs, commitOk, now)
      ensures lastCheckTime == if q.Unrecognized? then now else old(lastCheckTime)
    {
      if MotorKind(q) {
        ExecMotors(q, r, rs, now);
      } else if TableKind(q) {
        ExecTables(q);
      } else {
        ExecHost(q, commitOk, now);
      }
    }

    method ExecMotors(q: Request, r: AxisDriver.Readings, rs: seq<AxisDriver.Readings>, now: int)
      requires Valid() && Bounded(q) && |rs| == MaxNumMotors && MotorKind(q)
      modifies this`latch, this`out, params`latch, motors`slots, motors`errorFlag, motors`general, motors.Drivers(-1)
      modifies remote`latch, remote`tx
      ensures Valid() && MotorsDid(q, r, rs, now)
    {
      match q
      case MovePos(b, v) => ExecBoard(b, GoTo(v), r, now, true);
      case MoveVel(b, v) => ExecBoard(b, Drive(v), r, now, true);
      case GetFlags(b) => ExecGetFlags(b, r);
      case GetReached(b) => ExecGetReached(b);
      case SetStatus(i, b, v) => ExecSetStatus(i, b, v, r, now);
      case GetStatus(i, b) => ExecGetStatus(i, b, r);
      case ConfigBoard(b) => ExecConfigBoard(b, rs);
      case ClearRegs(b) => ExecClearRegs(b);
      case Home(b) => ExecBoard(b, Seek, r, now, true);
      case SetReg(b, a, v) => ExecBoard(b, Poke(a, v), r, now, false);
      case GetReg(b, _) => ExecGetReg(b, r);
    }

    method ExecTables(q: Request)
      requires Valid() && Bounded(q) && TableKind(q)
      modifies this`out, params`hw, params`motorParamArr, params`remoteParamArr, params`latch
      modifies remote`latch, remote`tx, motors`slots
      ensures Valid() && TablesDid(q)
    {
      match q
      case SetDevice(b, v) => ExecSetDevice(b, v);
      case GetDevice(b) => ExecGetDevice(b);
      case SetAxis(b, v) => ExecSetAxis(b, v);
      case GetAxis(b) => ExecGetAxis(b);
      case SetMotorParam(i, b, v) => ExecSetMotorParam(i, b, v);
      case GetMotorParam(i, b) => ExecGetMotorParam(i, b);
      case SetRemoteParam(i, b, v) => ExecSetRemoteParam(i, b, v);
      case GetRemoteParam(i, b) => ExecGetRemoteParam(i, b);
    }

    method ExecHost(q: Request, commitOk: bool, now: int)
      requires Valid() && !MotorKind(q) && !TableKind(q)
      modifies this`latch, this`out, this`lastCheckTime, params`eeprom, params`latch, motors`general, motors`slots, motors`errorFlag
      modifies remote`latch
      ensures Valid() && HostDid(q, commitOk)
      ensures lastCheckTime == if q.Unrecognized? then now else old(lastCheckTime)
    {
      match q
      case Refuse(msg) => Reject(msg);
      case Identify => Say(IdString);
      case NumDevices => Say(DevicesReply());
      case GetVersion => Say(VersionReply());
      case ErrorQuery => ReportErrorMsg();
      case SaveFlash => ExecSaveFlash(commitOk);
      case Unrecognized => Unknown(now);
    }

    /** SMS_<ID><b>,<v> */
    method ExecSetStatus(i: nat, b: int, v: int, r: AxisDriver.Readings, now: int)
      requires Valid() && i < MotorsNumStatus
      modifies this`latch, this`out, motors`slots, motors`errorFlag, motors.Drivers(-1), params`latch
      ensures Valid() && StatusSet(i, b, v, r, now)
    {
      if i == AxisDriver.SENAB && b == -1 {
        ExecEnableAll(v);
      } else {
        ExecBoard(b, Put(i, v), r, now, false);
      }
    }

    /** SetErrorMsg(msg); ReportErrorCode(ERR_Serial) */
    method Reject(msg: string)
      requires Valid()
      modifies this`latch, this`out
      ensures Valid() && Rejected(msg)
    {
      SetErrorMsg(msg);
      ReportErrorCode(ErrSerial);
    }

    /** An unrecognized command: refused, and the check timer reset. */
    method Unknown(now: int)
      requires Valid()
      modifies this`latch, this`out, this`lastCheckTime
      ensures Valid() && Rejected("Unrecognized command") && lastCheckTime == now
    {
      latch := Raise(latch, "Unrecognized command");
      out := out + [Code(ErrSerial)];
      lastCheckTime := now;
    }

    /** Serial.println of a fixed reply. */
    method Say(line: string)
      requires Valid()
      modifies this`out
      ensures Valid() && Answered(line)
    {
      out := out + [line];
    }

    /** A single-board Motors command, guarded by CheckRemoteControl where the source checks it. */
    method ExecBoard(b: int, a: BoardAct, r: AxisDriver.Readings, now: int, guarded: bool)
      requires Valid() && (a.Put? ==> a.idx < MotorsNumStatus && !(a.idx == AxisDriver.SENAB && b == -1))
      modifies this`latch, this`out, motors`slots, motors`errorFlag, motors.Drivers(b), params`latch
      ensures Valid() && Commanded(b, a, r, now, guarded)
    {
      if guarded && Locked(b) {
        var e := CheckRemoteControl(b);
        ReportErrorCode(e);
      } else {
        var err := RunBoard(b, a, r, now);
        ReportErrorCode(err);
      }
    }

    /** The Motors call a board command makes. */
    method RunBoard(b: int, a: BoardAct, r: AxisDriver.Readings, now: int) returns (err: int)
      requires Valid() && (a.Put? ==> a.idx < MotorsNumStatus && !(a.idx == AxisDriver.SENAB && b == -1))
      modifies motors`slots, motors`errorFlag, motors.Drivers(b), params`latch
      ensures Valid() && BoardRan(b, a, r, now, err) && err == BoardCode(b, a, r, now)
    {
      match a
      case GoTo(pos) => err := RunGoTo(b, pos, r, now);
      case Drive(vel) => err := RunDrive(b, vel, r, now);
      case Seek => err := RunSeek(b, r, now);
      case Put(idx, v) => err := RunPut(b, idx, v, r, now);
      case Poke(addr, v) => err := RunPoke(b, addr, v, r, now);
    }

    /** Motors::MoveToPos with the velocity set from RSEV. */
    method RunGoTo(b: int, pos: int, r: AxisDriver.Readings, now: int) returns (err: int)
      requires Valid()
      modifies motors`slots, motors`errorFlag, motors.Drivers(b), params`latch
      ensures Valid() && BoardRan(b, GoTo(pos), r, now, err) && err == BoardCode(b, GoTo(pos), r, now)
    {
      err := motors.MoveToPos(b, pos, true, r);
    }

    /** Motors::MoveAtVel. */
    method RunDrive(b: int, vel: int, r: AxisDriver.Readings, now: int) returns (err: int)
      requires Valid()
      modifies motors`slots, motors`errorFlag, motors.Drivers(b), params`latch
      ensures Valid() && BoardRan(b, Drive(vel), r, now, err) && err == BoardCode(b, Drive(vel), r, now)
    {
      err := motors.MoveAtVel(b, vel, r, now);
    }

    /** Motors::StartHoming. */
    method RunSeek(b: int, r: AxisDriver.Readings, now: int) returns (err: int)
      requires Valid()
      modifies motors`slots, motors`errorFlag, motors.Drivers(b), params`latch
      ensures Valid() && BoardRan(b, Seek, r, now, err) && err == BoardCode(b, Seek, r, now)
    {
      err := motors.StartHoming(b, r);
    }

    /** Motors::SetStatusValue of one board. */
    method RunPut(b: int, idx: nat, v: int, r: AxisDriver.Readings, now: int) returns (err: int)
      requires Valid() && idx < MotorsNumStatus && !(idx == AxisDriver.SENAB && b == -1)
      modifies motors`slots, motors`errorFlag, motors.Drivers(b), params`latch
      ensures Valid() && BoardRan(b, Put(idx, v), r, now, err) && err == BoardCode(b, Put(idx, v), r, now)
    {
      err := motors.SetStatusValue(b, idx, v);
    }

    /** Motors::SetRegisterValue. */
    method RunPoke(b: int, addr: int, v: int, r: AxisDriver.Readings, now: int) returns (err: int)
      requires Valid()
      modifies motors`slots, motors`errorFlag, motors.Drivers(b), params`latch
      ensures Valid() && BoardRan(b, Poke(addr, v), r, now, err) && err == BoardCode(b, Poke(addr, v), r, now)
    {
      err := motors.SetRegisterValue(b, addr, v);
    }

    /** SMS_ENAB-1,<v>: Motors::SetStatusValue enables or disables every active board. */
    method ExecEnableAll(v: int)
      requires Valid()
      modifies this`out, motors`slots, motors`errorFlag, motors.Drivers(-1), params`latch
      ensures Valid() && AllEnabled(v)
    {
      var err := motors.SetStatusValue(-1, AxisDriver.SENAB, v);
      ReportErrorCode(err);
    }

    method ExecGetFlags(b: int, r: AxisDriver.Readings)
      requires Valid()
      modifies this`out, motors`slots, motors`errorFlag, params`latch
      ensures Valid() && FlagsRead(b, r)
    {
      var err, status := motors.GetStatusFlags(b, r);
      out := out + [Answer("MC_STAT", b, err, status)];
    }

    method ExecGetReached(b: int)
      requires Valid()
      modifies this`out, params`latch
      ensures Valid() && ReachedRead(b)
    {
      if b == -1 {
        ReachedAll();
      } else {
        ReachedOne(b);
      }
    }

    method ReachedAll()
      requires Valid()
      modifies this`out, params`latch
      ensures Valid() && latch == old(latch) && TablesKept() && AllReached()
    {
      var err, done := motors.IsMotionDone(-1);
      out := out + [Answer("MC_POSR", -1, err, Bit(done))];
    }

    method ReachedOne(b: int)
      requires Valid() && b != -1
      modifies this`out, params`latch
      ensures Valid() && latch == old(latch) && TablesKept() && OneReached(b)
    {
      var err, done := motors.IsMotionDone(b);
      out := out + [Answer("MC_POSR", b, err, Bit(done))];
    }

    method ExecGetStatus(i: nat, b: int, r: AxisDriver.Readings)
      requires Valid() && i < MotorsNumStatus
      modifies this`out, motors`slots, motors`errorFlag, params`latch
      ensures Valid() && StatusRead(i, b, r)
    {
      var err, value := motors.GetStatusValue(b, i, r);
      if err != ErrNone {
        ReportErrorCode(err);
        return;
      }
      out := out + [RemoteRelay.CommandText("MS_" + AxisDriver.StatusIds[i], b, value)];
    }

    method ExecGetReg(b: int, r: AxisDriver.Readings)
      requires Valid()
      modifies this`out, params`latch
      ensures Valid() && RegisterRead(b, r)
    {
      var err, value := motors.GetRegisterValue(b, r);
      if err != ErrNone {
        ReportErrorCode(err);
        return;
      }
      out := out + [RemoteRelay.CommandText("MC_DREG", b, value)];
    }

    /** The reply of a table read: the entry, or the code when the board number is refused. */
    method Reply(name: string, b: int, err: int, value: int)
      requires Valid()
      modifies this`out
      ensures Valid() && out == old(out) + [Answer(name, b, err, value)]
    {
      if err != ErrNone {
        ReportErrorCode(err);
        return;
      }
      out := out + [RemoteRelay.CommandText(name, b, value)];
    }

    method ExecGetDevice(b: int)
      requires Valid()
      modifies this`out, params`latch
      ensures Valid() && DeviceRead(b)
    {
      var err, value := params.GetDeviceType(b);
      Reply("MP_TDEV", b, err, value);
    }

    method ExecGetAxis(b: int)
      requires Valid()
      modifies this`out, params`latch
      ensures Valid() && AxisRead(b)
    {
      var err, value := params.GetAxisType(b);
      Reply("MP_TAXI", b, err, value);
    }

    method ExecGetMotorParam(i: nat, b: int)
      requires Valid() && i < MotorsNumParams
      modifies this`out, params`latch
      ensures Valid() && MotorParamRead(i, b)
    {
      var err, value := params.GetMotorParams(b, i);
      Reply("MP_" + MotorParamIds[i], b, err, value);
    }

    method ExecGetRemoteParam(i: nat, b: int)
      requires Valid() && i < RemoteNumParams
      modifies this`out, params`latch
      ensures Valid() && RemoteParamRead(i, b)
    {
      var err, value := params.GetRemoteParams(b, i);
      Reply("RP_" + RemoteParamIds[i], b, err, value);
    }

    method ExecSetDevice(b: int, v: int)
      requires Valid()
      modifies this`out, params`hw, params`latch
      ensures Valid() && DeviceSet(b, v)
    {
      var err := params.SetDeviceType(b, v);
      ReportErrorCode(err);
    }

    method ExecSetAxis(b: int, v: int)
      requires Valid()
      modifies this`out, params`hw, params`latch
      ensures Valid() && AxisSet(b, v)
    {
      var err := params.SetAxisType(b, v);
      ReportErrorCode(err);
    }

    method ExecSetMotorParam(i: nat, b: int, v: int)
      requires Valid() && i < MotorsNumParams
      modifies this`out, params`motorParamArr, params`latch
      ensures Valid() && MotorParamSet(i, b, v)
    {
      var err := params.SetMotorParams(b, i, v);
      ReportErrorCode(err);
    }

    method ExecSaveFlash(commitOk: bool)
      requires Valid()
      modifies this`out, params`eeprom, params`latch
      ensures Valid() && FlashSaved(commitOk)
    {
      var err := params.SaveConfigToFlash(commitOk);
      ReportErrorCode(err);
    }

    method ExecClearRegs(b: int)
      requires Valid()
      modifies this`out, params`latch
      ensures Valid() && RegsCleared(b)
    {
      var err := motors.ClearStatusRegs(b);
      ReportErrorCode(err);
    }

    /** SRP_<ID><b>,<v>: SendRemoteCommand, then SetRemoteParams when the remote accepted. */
    method ExecSetRemoteParam(i: nat, b: int, v: int)
      requires Valid() && i < RemoteNumParams
      modifies this`out, remote`latch, remote`tx, motors`slots, params`latch, params`remoteParamArr
      ensures Valid() && RemoteParamSet(i, b, v)
    {
      ghost var cs, st := remote.Ctxs(), remote.State();
      var err := SendAndStore(i, b, v, cs, st);
      ghost var t := RemoteSet(cs, st, i, b, v);
      assert RemoteRelay.Sent(err, remote.State()) == t;
      out := out + [Code(err)];
      assert remote.State() == t.st && err == t.err;
    }

    /** The remote first, then the table: the relay state after both steps. */
    method SendAndStore(i: nat, b: int, v: int, ghost cs: seq<AxisDriver.Ctx>, ghost st: RemoteRelay.Relay) returns (err: int)
      requires Valid() && i < RemoteNumParams && remote.Shaped() && cs == remote.Ctxs() && st == remote.State()
      modifies remote`latch, remote`tx, motors`slots, params`latch, params`remoteParamArr
      ensures Valid() && RemoteRelay.Sent(err, remote.State()) == RemoteSet(cs, st, i, b, v)
    {
      RemoteIdPlain(i);
      err := remote.SendRemoteCommand(RemoteParamIds[i], b, v);
      if err != ErrNone {
        return;
      }
      err := StoreRemote(i, b, v);
    }

    /** SetRemoteParams after an accepted SRP_, seen in the relay state. */
    method StoreRemote(i: nat, b: int, v: int) returns (err: int)
      requires Valid() && i < RemoteNumParams
      modifies params`remoteParamArr, params`latch
      ensures Valid() && RemoteRelay.Sent(err, remote.State()) == Stored(old(remote.State()), b, i, v)
    {
      err := params.SetRemoteParams(b, i, v);
    }

    /** SMC_CONF<b>: Motors::ConfigBoard, then RemoteComm::Config when that succeeded. */
    method ExecConfigBoard(b: int, rs: seq<AxisDriver.Readings>)
      requires Valid() && |rs| == MaxNumMotors
      modifies this`out, motors`slots, motors`errorFlag, motors`general, motors.Drivers(b), params`latch
      modifies remote`latch, remote`tx
      ensures Valid() && BoardConfigured(b, rs)
    {
      var e := ConfigMotors(b, rs);
      ConfigFinish(b, rs, e, remote.Ctxs(), old(remote.State()));
    }

    /** After Motors::ConfigBoard: the code printed, or RemoteComm::Config and its code. */
    method ConfigFinish(b: int, rs: seq<AxisDriver.Readings>, e: int, ghost cs: seq<AxisDriver.Ctx>, ghost st: RemoteRelay.Relay)
      requires Valid() && |rs| == MaxNumMotors && Orchestrator.Boards(cs) && RemoteRelay.Fits(st) && cs == remote.Ctxs()
      requires RemoteRelay.Sent(e, remote.State()) == MotorsConfig(cs, st, b, rs, motors.errorFlag)
      modifies this`out, remote`latch, remote`tx, motors`slots, params`latch
      ensures Valid() && cs == remote.Ctxs() && motors.errorFlag == old(motors.errorFlag) && ConfigFrame()
      ensures var t := ConfigResult(cs, st, b, rs, motors.errorFlag);
        remote.State() == t.st && out == old(out) + [Code(t.err)]
    {
      ghost var m := RemoteRelay.Sent(e, remote.State());
      if e != ErrNone {
        ReportErrorCode(e);
        ConfigSteps(cs, st, b, rs, motors.errorFlag, m, m);
        return;
      }
      var err := ConfigRemote(b);
      ConfigSteps(cs, st, b, rs, motors.errorFlag, m, RemoteRelay.Sent(err, remote.State()));
    }

    /** RemoteComm::Config after a successful Motors::ConfigBoard, and its code printed. */
    method ConfigRemote(b: int) returns (err: int)
      requires Valid()
      modifies this`out, remote`latch, remote`tx, motors`slots, params`latch
      ensures Valid() && out == old(out) + [Code(err)] && remote.Ctxs() == old(remote.Ctxs())
      ensures RemoteRelay.ConfigTables(old(remote.Ctxs()), old(remote.State()), b) == RemoteRelay.Sent(err, remote.State())
    {
      err := remote.Config(b);
      ReportErrorCode(err);
    }

    /** Motors::ConfigBoard, seen in the relay state. */
    method ConfigMotors(b: int, rs: seq<AxisDriver.Readings>) returns (err: int)
      requires Valid() && |rs| == MaxNumMotors
      modifies motors`slots, motors`errorFlag, motors`general, motors.Drivers(b), params`latch
      ensures Valid() && (old(motors.errorFlag) ==> motors.errorFlag) && ConfigFrame()
      ensures RemoteRelay.Sent(err, remote.State()) == MotorsConfig(remote.Ctxs(), old(remote.State()), b, rs, motors.errorFlag)
      ensures motors.general == (if b != -1 && !IsActive(params.hw, b)
                                 then Raise(old(motors.general), AxisDriver.GeneralMessage("Board", "Invalid motor number"))
                                 else old(motors.general))
    {
      if b == -1 {
        err := ConfigFleet(rs);
      } else if IsActive(params.hw, b) {
        err := ConfigOne(b, rs);
      } else {
        err := ConfigInactive(b, rs);
      }
    }

    /** Motors::ConfigBoard of a board that is not active: refused. */
    method ConfigInactive(b: int, rs: seq<AxisDriver.Readings>) returns (err: int)
      requires Valid() && |rs| == MaxNumMotors && b != -1 && !IsActive(params.hw, b)
      modifies motors`slots, motors`errorFlag, motors`general, motors.Drivers(b), params`latch
      ensures Valid() && motors.errorFlag && ConfigFrame()
      ensures RemoteRelay.Sent(err, remote.State()) == MotorsConfig(remote.Ctxs(), old(remote.State()), b, rs, motors.errorFlag)
      ensures motors.general == Raise(old(motors.general), AxisDriver.GeneralMessage("Board", "Invalid motor number"))
    {
      err := motors.ConfigBoard(b, rs);
    }

    /** Motors::ConfigBoard(-1): every active board in turn. */
    method ConfigFleet(rs: seq<AxisDriver.Readings>) returns (err: int)
      requires Valid() && |rs| == MaxNumMotors
      modifies motors`slots, motors`errorFlag, motors`general, motors.Drivers(-1), params`latch
      ensures Valid() && (old(motors.errorFlag) ==> motors.errorFlag) && ConfigFrame()
      ensures RemoteRelay.Sent(err, remote.State()) == MotorsConfig(remote.Ctxs(), old(remote.State()), -1, rs, motors.errorFlag)
      ensures motors.general == old(motors.general)
    {
      motors.AxesFromAll();
      err := motors.ConfigBoard(-1, rs);
      motors.AxesFromAll();
    }

    /** Motors::ConfigBoard of one active board. */
    method ConfigOne(b: int, rs: seq<AxisDriver.Readings>) returns (err: int)
      requires Valid() && |rs| == MaxNumMotors && IsActive(params.hw, b)
      modifies motors`slots, motors`errorFlag, motors`general, motors.Drivers(b), params`latch
      ensures Valid() && (old(motors.errorFlag) ==> motors.errorFlag) && ConfigFrame()
      ensures RemoteRelay.Sent(err, remote.State()) == MotorsConfig(remote.Ctxs(), old(remote.State()), b, rs, motors.errorFlag)
      ensures motors.general == old(motors.general)
    {
      err := motors.ConfigBoard(b, rs);
      motors.AxesFromFrame(b);
    }

    // -------------------------------------------------------------------------
    // The error report
    // -------------------------------------------------------------------------

    /**
     * ReportErrorMsg: "PC_EMSG=", then each pending message with its
     * component's tag, "; " between two, or "No error" when none is pending.
     */
    method ReportErrorMsg()
      requires Valid()
      modifies this`latch, this`out, params`latch, motors`general, motors`slots, motors`errorFlag, remote`latch
      ensures Valid() && ErrorsReported()
    {
      var line := "PC_EMSG=";
      if latch.flag || params.latch.flag || motors.errorFlag || remote.latch.flag {
        var body := Gather();
        line := line + body;
      } else {
        line := line + "No error";
      }
      out := out + [line];
    }

    /** The four parts of the report, one after the other. */
    method Gather() returns (body: string)
      requires Valid()
      modifies this`latch, params`latch, motors`general, motors`slots, motors`errorFlag, remote`latch
      ensures Valid() && ErrorsCleared() && out == old(out) && body == Joined(Pending())
    {
      var first;
      ghost var ss;
      body, first, ss := HostParts();
      body, first, ss := DeviceParts(body, first, ss);
      assert ss == Pending();
    }

    /** The interpreter's and the parameter store's parts. */
    method HostParts() returns (body: string, first: bool, ghost ss: seq<Section>)
      requires Valid()
      modifies this`latch, params`latch
      ensures Valid() && body == Joined(ss) && first == (ss == [])
      ensures ss == Part(old(latch.flag), "Serial: ", old(latch.msg)) + Part(old(params.latch.flag), "Params: ", old(params.latch.msg))
      ensures latch == old(latch).(flag := false) && params.latch == old(params.latch).(flag := false)
      ensures ReportFrame()
    {
      body, first, ss := SerialPart("", true, []);
      body, first, ss := ParamsPart(body, first, ss);
    }

    /** The motors' and the remote link's parts, after the first `ss`. */
    method DeviceParts(body: string, first: bool, ghost ss: seq<Section>)
      returns (body': string, first': bool, ghost ss': seq<Section>)
      requires Valid() && body == Joined(ss) && first == (ss == [])
      modifies motors`general, motors`slots, motors`errorFlag, remote`latch
      ensures Valid() && body' == Joined(ss') && first' == (ss' == []) && !motors.errorFlag
      ensures ss' == ss + Part(old(motors.errorFlag), "Motors: ", Orchestrator.Report(old(motors.general), old(motors.Latches())))
                 + Part(old(remote.latch.flag), "Remote: ", old(remote.latch.msg))
      ensures old(motors.errorFlag) ==>
        motors.general == old(motors.general).(flag := false)
        && forall b :: 0 <= b < MaxNumMotors ==> motors.slots[b] == Motion.Motors.Printed(old(motors.slots[b]))
      ensures !old(motors.errorFlag) ==> motors.general == old(motors.general) && motors.slots == old(motors.slots)
      ensures remote.latch == old(remote.latch).(flag := false)
      ensures ReportFrame()
    {
      body', first', ss' := MotorsPart(body, first, ss);
      body', first', ss' := RemotePart(body', first', ss');
    }

    /** The part of the report for one flagged component. */
    static function Part(flag: bool, tag: string, text: string): seq<Section>
    {
      if flag then [Section(tag, text)] else []
    }

    /** "Serial: " and this interpreter's own message, when one is pending. */
    method SerialPart(body: string, first: bool, ghost ss: seq<Section>)
      returns (body': string, first': bool, ghost ss': seq<Section>)
      requires Valid() && body == Joined(ss) && first == (ss == [])
      modifies this`latch
      ensures Valid() && body' == Joined(ss') && first' == (ss' == []) && ss' == ss + Part(old(latch.flag), "Serial: ", old(latch.msg))
      ensures latch == old(latch).(flag := false)
    {
      body', first', ss' := body, first, ss;
      if latch.flag {
        var had, text := PrintErrorMsg();
        JoinedAppend(ss, Section("Serial: ", text));
        body' := body + (if first then "" else "; ") + "Serial: " + text;
        first', ss' := false, ss + [Section("Serial: ", text)];
      }
    }

    /** "Params: " and the parameter store's message, when one is pending. */
    method ParamsPart(body: string, first: bool, ghost ss: seq<Section>)
      returns (body': string, first': bool, ghost ss': seq<Section>)
      requires Valid() && body == Joined(ss) && first == (ss == [])
      modifies params`latch
      ensures Valid() && body' == Joined(ss') && first' == (ss' == []) && ss' == ss + Part(old(params.latch.flag), "Params: ", old(params.latch.msg))
      ensures params.latch == old(params.latch).(flag := false)
    {
      body', first', ss' := body, first, ss;
      if params.latch.flag {
        var had, text := params.PrintErrorMsg();
        JoinedAppend(ss, Section("Params: ", text));
        body' := body + (if first then "" else "; ") + "Params: " + text;
        first', ss' := false, ss + [Section("Params: ", text)];
      }
    }

    /** "Motors: " and the motors' report, when an error is pending. */
    method MotorsPart(body: string, first: bool, ghost ss: seq<Section>)
      returns (body': string, first': bool, ghost ss': seq<Section>)
      requires Valid() && body == Joined(ss) && first == (ss == [])
      modifies motors`general, motors`slots, motors`errorFlag
      ensures Valid() && body' == Joined(ss') && first' == (ss' == []) && !motors.errorFlag
      ensures ss' == ss + Part(old(motors.errorFlag), "Motors: ", Orchestrator.Report(old(motors.general), old(motors.Latches())))
      ensures old(motors.errorFlag) ==>
        motors.general == old(motors.general).(flag := false)
        && forall b :: 0 <= b < MaxNumMotors ==> motors.slots[b] == Motion.Motors.Printed(old(motors.slots[b]))
      ensures !old(motors.errorFlag) ==> motors.general == old(motors.general) && motors.slots == old(motors.slots)
    {
      body', first', ss' := body, first, ss;
      if motors.errorFlag {
        var had, text := motors.PrintErrorMsg();
        JoinedAppend(ss, Section("Motors: ", text));
        body' := body + (if first then "" else "; ") + "Motors: " + text;
        first', ss' := false, ss + [Section("Motors: ", text)];
      }
    }

    /** "Remote: " and the remote link's message, when one is pending. */
    method RemotePart(body: string, first: bool, ghost ss: seq<Section>)
      returns (body': string, first': bool, ghost ss': seq<Section>)
      requires Valid() && body == Joined(ss) && first == (ss == [])
      modifies remote`latch
      ensures Valid() && body' == Joined(ss') && first' == (ss' == []) && ss' == ss + Part(old(remote.latch.flag), "Remote: ", old(remote.latch.msg))
      ensures remote.latch == old(remote.latch).(flag := false)
    {
      body', first', ss' := body, first, ss;
      if remote.latch.flag {
        var had, text := remote.PrintErrorMsg();
        JoinedAppend(ss, Section("Remote: ", text));
        body' := body + (if first then "" else "; ") + "Remote: " + text;
        first', ss' := false, ss + [Section("Remote: ", text)];
      }
    }
  }
}
