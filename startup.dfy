// Parameters::Config, the controller's start-up configuration: the parameter
// tables are loaded (from the flash image or the built-in defaults), then every
// active board is configured and its remote-parameter row sent to the remote.
// Config sits on a Parameters object but calls into Motors and RemoteComm, so
// it is modelled here, above all three, on the objects a RemoteComm holds.

module Startup {
  import opened Common
  import opened ParameterStore
  import AxisDriver
  import Orchestrator
  import RemoteRelay
  import HostLink

  /** The tables Config goes on with: the flash image, the defaults in every board, or the tables as they are. */
  function AfterLoad(confType: int, hw: HwParams, mp: seq<seq<int>>, rp: seq<seq<int>>, eeprom: seq<int>): (l: Loaded)
    requires |eeprom| == FlashWords
  {
    if confType == ConfigLoadFromFlash then ReadImage(eeprom)
    else if confType == ConfigDefault then
      Loaded(hw, seq(MaxNumMotors, _ => DefaultSafeMotorParams), seq(MaxNumMotors, _ => DefaultRemoteParams))
    else Loaded(hw, mp, rp)
  }

  /**
   * Config after the tables are loaded, seen in the relay state:
   * Motors::ConfigBoard(-1), and RemoteComm::Config(-1) only when that
   * succeeded; a failure of either is ERR_Parameter with its own message in
   * the parameter store's latch. `flag` is Motors' summary flag afterwards.
   */
  function BootConfig(cs: seq<AxisDriver.Ctx>, st: RemoteRelay.Relay, rs: seq<AxisDriver.Readings>, flag: bool)
    : (s: RemoteRelay.Sent)
    requires Orchestrator.Boards(cs) && RemoteRelay.Fits(st) && |rs| == MaxNumMotors
  {
    var m := BootMotors(cs, st, rs, flag);
    if m.err != ErrNone then m else BootRemote(cs, m.st)
  }

  /** Motors::ConfigBoard(-1), with its failure reported as ERR_Parameter. */
  function BootMotors(cs: seq<AxisDriver.Ctx>, st: RemoteRelay.Relay, rs: seq<AxisDriver.Readings>, flag: bool)
    : (s: RemoteRelay.Sent)
    requires Orchestrator.Boards(cs) && RemoteRelay.Fits(st) && |rs| == MaxNumMotors
  {
    var m := HostLink.MotorsConfig(cs, st, -1, rs, flag);
    if m.err != ErrNone then RemoteRelay.Sent(ErrParameter, m.st.(plat := Raise(m.st.plat, "Could not configure motors")))
    else m
  }

  /** RemoteComm::Config(-1), with its failure reported as ERR_Parameter. */
  function BootRemote(cs: seq<AxisDriver.Ctx>, st: RemoteRelay.Relay): (s: RemoteRelay.Sent)
    requires Orchestrator.Boards(cs) && RemoteRelay.Fits(st)
  {
    var t := RemoteRelay.ConfigTables(cs, st, -1);
    if t.err != ErrNone then RemoteRelay.Sent(ErrParameter, t.st.(plat := Raise(t.st.plat, "Could not configure remote")))
    else t
  }

  /**
   * Start-up configuration does what SMC_CONF-1 does, except that any failure
   * is reported as ERR_Parameter and also latched in the parameter store.
   */
  lemma BootIsConfigAll(cs: seq<AxisDriver.Ctx>, st: RemoteRelay.Relay, rs: seq<AxisDriver.Readings>, flag: bool)
    requires Orchestrator.Boards(cs) && RemoteRelay.Fits(st) && |rs| == MaxNumMotors
    ensures var s, c := BootConfig(cs, st, rs, flag), HostLink.ConfigResult(cs, st, -1, rs, flag);
      var failed := HostLink.MotorsConfig(cs, st, -1, rs, flag).err != ErrNone;
      (s.err == ErrNone <==> c.err == ErrNone) && (s.err == ErrNone || s.err == ErrParameter)
      && (c.err == ErrNone ==> s == c)
      && (c.err != ErrNone ==>
            s.st == c.st.(plat := Raise(c.st.plat, if failed then "Could not configure motors" else "Could not configure remote")))
  {
  }

  /**
   * Config succeeds exactly when every active board configures and every
   * active board's remote row is acceptable to the remote's checks.
   */
  lemma BootSucceeds(cs: seq<AxisDriver.Ctx>, st: RemoteRelay.Relay, rs: seq<AxisDriver.Readings>, flag: bool)
    requires Orchestrator.Boards(cs) && RemoteRelay.Fits(st) && |rs| == MaxNumMotors
    ensures BootConfig(cs, st, rs, flag).err == ErrNone <==>
      Orchestrator.ConfigureFrom(cs, st.axes, rs, 0).err == ErrNone
      && forall b :: 0 <= b < MaxNumMotors && Orchestrator.Active(cs[b]) ==> RemoteRelay.RowAcceptable(cs, st.rprm, b, 0)
  {
    var m := HostLink.MotorsConfig(cs, st, -1, rs, flag);
    assert m.st.rprm == st.rprm;
    RemoteRelay.ConfigTablesOutcome(cs, m.st, -1);
  }

  /**
   * With the built-in defaults, board 0 a simulated axis and the safe motor
   * parameters (RMXV 0), the default remote row's JMAX of 1000 is out of range,
   * so Config(CONFIG_DEFAULT) always ends in ERR_Parameter.
   */
  lemma DefaultBootRefused(cs: seq<AxisDriver.Ctx>, st: RemoteRelay.Relay, rs: seq<AxisDriver.Readings>, flag: bool)
    requires Orchestrator.Boards(cs) && RemoteRelay.Fits(st) && |rs| == MaxNumMotors
    requires cs[0].kind == MotorSim && cs[0].prm == DefaultSafeMotorParams && st.rprm[0] == DefaultRemoteParams
    ensures BootConfig(cs, st, rs, flag).err == ErrParameter
  {
    assert cs[0].prm[RMXV] == 0 && st.rprm[0][JMAX] == 1000;
    assert !RemoteRelay.Acceptable(cs, RemoteParamIds[JMAX], 0, st.rprm[0][JMAX]);
    assert Orchestrator.Active(cs[0]) && !RemoteRelay.RowAcceptable(cs, st.rprm, 0, 0);
    BootSucceeds(cs, st, rs, flag);
  }

  /**
   * Parameters::Config(confType) on the Parameters, Motors and RemoteComm
   * objects `remote` holds. A flash image whose version does not match marks
   * every board MOTOR_NONE and stops; otherwise the loaded tables are
   * configured as BootConfig says.
   */
  method Config(remote: RemoteRelay.RemoteComm, confType: int, rs: seq<AxisDriver.Readings>) returns (err: int)
    requires remote.Valid() && |rs| == MaxNumMotors
    modifies remote.params`hw, remote.params`motorParamArr, remote.params`remoteParamArr, remote.params`latch
    modifies remote.motors`slots, remote.motors`errorFlag, remote.motors`general, remote.motors.Drivers(-1)
    modifies remote`latch, remote`tx
    ensures remote.Valid()
    ensures confType == ConfigLoadFromFlash && old(remote.params.eeprom[0]) != Version ==>
      err == ErrParameter && remote.params.hw == old(remote.params.hw).(motorType := seq(MaxNumMotors, _ => MotorNone))
      && remote.params.motorParamArr == old(remote.params.motorParamArr)
      && remote.params.remoteParamArr == old(remote.params.remoteParamArr)
      && remote.params.latch == Raise(old(remote.params.latch), "Version mismatch in flash")
      && unchanged(remote.motors) && unchanged(remote)
    ensures !(confType == ConfigLoadFromFlash && old(remote.params.eeprom[0]) != Version) ==>
      Loaded(remote.params.hw, remote.params.motorParamArr, remote.params.remoteParamArr)
        == AfterLoad(confType, old(remote.params.hw), old(remote.params.motorParamArr),
                     old(remote.params.remoteParamArr), old(remote.params.eeprom))
      && RemoteRelay.Sent(err, remote.State())
        == BootConfig(remote.Ctxs(), old(remote.State()).(rprm := remote.params.remoteParamArr), rs, remote.motors.errorFlag)
  {
    err := Load(remote, confType);
    if err != ErrNone {
      return;
    }
    err := ConfigureAll(remote, rs, remote.Ctxs(), remote.State());
  }

  /** Parameters::Config's table load, seen from the objects `remote` holds. */
  method Load(remote: RemoteRelay.RemoteComm, confType: int) returns (err: int)
    requires remote.Valid()
    modifies remote.params`hw, remote.params`motorParamArr, remote.params`remoteParamArr, remote.params`latch
    ensures remote.Valid()
    ensures err == ErrNone <==> !(confType == ConfigLoadFromFlash && old(remote.params.eeprom[0]) != Version)
    ensures err != ErrNone ==>
      err == ErrParameter && remote.params.hw == old(remote.params.hw).(motorType := seq(MaxNumMotors, _ => MotorNone))
      && remote.params.motorParamArr == old(remote.params.motorParamArr)
      && remote.params.remoteParamArr == old(remote.params.remoteParamArr)
      && remote.params.latch == Raise(old(remote.params.latch), "Version mismatch in flash")
    ensures err == ErrNone ==>
      Loaded(remote.params.hw, remote.params.motorParamArr, remote.params.remoteParamArr)
        == AfterLoad(confType, old(remote.params.hw), old(remote.params.motorParamArr),
                     old(remote.params.remoteParamArr), old(remote.params.eeprom))
      && remote.State() == old(remote.State()).(rprm := remote.params.remoteParamArr)
  {
    err := remote.params.LoadTables(confType);
  }

  /** Config past the table load: the boards, then the remote rows. */
  method ConfigureAll(remote: RemoteRelay.RemoteComm, rs: seq<AxisDriver.Readings>,
                      ghost cs: seq<AxisDriver.Ctx>, ghost st: RemoteRelay.Relay) returns (err: int)
    requires remote.Valid() && |rs| == MaxNumMotors && cs == remote.Ctxs() && st == remote.State()
    modifies remote.params`latch, remote.motors`slots, remote.motors`errorFlag, remote.motors`general
    modifies remote.motors.Drivers(-1), remote`latch, remote`tx
    ensures remote.Valid() && cs == remote.Ctxs()
    ensures RemoteRelay.Sent(err, remote.State()) == BootConfig(cs, st, rs, remote.motors.errorFlag)
  {
    err := ConfigureBoards(remote, rs, cs, st);
    if err != ErrNone {
      return;
    }
    ghost var flag := remote.motors.errorFlag;
    err := ConfigureRemote(remote, cs, remote.State());
    assert remote.motors.errorFlag == flag;
  }

  /** Motors::ConfigBoard(-1) and its message, seen in the relay state. */
  method ConfigureBoards(remote: RemoteRelay.RemoteComm, rs: seq<AxisDriver.Readings>,
                         ghost cs: seq<AxisDriver.Ctx>, ghost st: RemoteRelay.Relay) returns (err: int)
    requires remote.Valid() && |rs| == MaxNumMotors && cs == remote.Ctxs() && st == remote.State()
    modifies remote.params`latch, remote.motors`slots, remote.motors`errorFlag, remote.motors`general
    modifies remote.motors.Drivers(-1)
    ensures remote.Valid() && cs == remote.Ctxs()
    ensures RemoteRelay.Sent(err, remote.State()) == BootMotors(cs, st, rs, remote.motors.errorFlag)
  {
    err := RunBoards(remote, rs, cs, st);
    if err != ErrNone {
      remote.params.SetErrorMsg("Could not configure motors");
      err := ErrParameter;
    }
  }

  /** Motors::ConfigBoard(-1), seen in the relay state. */
  method RunBoards(remote: RemoteRelay.RemoteComm, rs: seq<AxisDriver.Readings>,
                   ghost cs: seq<AxisDriver.Ctx>, ghost st: RemoteRelay.Relay) returns (err: int)
    requires remote.Valid() && |rs| == MaxNumMotors && cs == remote.Ctxs() && st == remote.State()
    modifies remote.params`latch, remote.motors`slots, remote.motors`errorFlag, remote.motors`general
    modifies remote.motors.Drivers(-1)
    ensures remote.Valid() && cs == remote.Ctxs()
    ensures RemoteRelay.Sent(err, remote.State()) == HostLink.MotorsConfig(cs, st, -1, rs, remote.motors.errorFlag)
  {
    remote.motors.AxesFromAll();
    err := remote.motors.ConfigBoard(-1, rs);
    remote.motors.AxesFromAll();
  }

  /** RemoteComm::Config(-1) and its message, seen in the relay state. */
  method ConfigureRemote(remote: RemoteRelay.RemoteComm, ghost cs: seq<AxisDriver.Ctx>, ghost st: RemoteRelay.Relay)
    returns (err: int)
    requires remote.Valid() && cs == remote.Ctxs() && st == remote.State()
    modifies remote`latch, remote`tx, remote.motors`slots, remote.params`latch
    ensures remote.Valid() && cs == remote.Ctxs()
    ensures RemoteRelay.Sent(err, remote.State()) == BootRemote(cs, st)
  {
    err := remote.Config(-1);
    if err != ErrNone {
      remote.params.SetErrorMsg("Could not configure remote");
      err := ErrParameter;
    }
  }
}
