// The controller's parameter store (class Parameters): the hardware-role table,
// the 4x34 motor-parameter table, the 4x5 remote-parameter table, their flash
// image, and the first-wins error latch. Values are stored without range checks;
// the checks happen when a driver is configured.
module ParameterStore {
  import opened Common

  /** Identifiers of the motor parameters, in table order (motParamsIDList). */
  const MotorParamIds: seq<string> := [
    "CSCA", "CRAN", "CRUN", "CHOL",
    "MMIC", "MINV", "MTOF", "MSGE", "MSGT", "MTCT",
    "HMOD", "HDIR", "HVEL", "HSST", "HNEV",
    "RSEV", "RMXV", "RSEA", "RMXA",
    "ECON", "EDEV", "ETOL", "EMAX", "ERST",
    "SLEN", "SREN", "SLPO", "SRPO", "SSWP",
    "LENC", "LLEN", "LREN", "LLPS", "LRPS"]

  // Positions in MotorParamIds
  const CSCA := 0
  const CRAN := 1
  const CRUN := 2
  const CHOL := 3
  const MMIC := 4
  const MINV := 5
  const MTOF := 6
  const MSGE := 7
  const MSGT := 8
  const MTCT := 9
  const HMOD := 10
  const HDIR := 11
  const HVEL := 12
  const HSST := 13
  const HNEV := 14
  const RSEV := 15
  const RMXV := 16
  const RSEA := 17
  const RMXA := 18
  const ECON := 19
  const EDEV := 20
  const ETOL := 21
  const EMAX := 22
  const ERST := 23
  const SLEN := 24
  const SREN := 25
  const SLPO := 26
  const SRPO := 27
  const SSWP := 28
  const LENC := 29
  const LLEN := 30
  const LREN := 31
  const LLPS := 32
  const LRPS := 33

  /** Identifiers of the remote parameters, in table order (remoteIDList). */
  const RemoteParamIds: seq<string> := ["ENAB", "JDIR", "JMAX", "EDIR", "ESTP"]

  const ENAB := 0
  const JDIR := 1
  const JMAX := 2
  const EDIR := 3
  const ESTP := 4

  /** defaultSafeMotorParams: currents off, no motion, virtual limits at +-1000. */
  const DefaultSafeMotorParams: seq<int> := [
    128, 0, 0, 0,
    3, 0, 0, 0, 0, 0,
    0, 1, 0, 0, 1,
    0, 0, 0, 0,
    0, 0, 1, 1, 0,
    0, 0, 1, 1, 0,
    0, 1, 1, -1000, 1000]

  const DefaultRemoteParams: seq<int> := [0, 1, 1000, 1, 10]

  const DefaultMotorTypes: seq<int> := [MotorSim, MotorSim, MotorNone, MotorNone]
  const DefaultDriverCs: seq<int> := [22, 21, 20, 17]
  const DefaultAxisTypes: seq<int> := [AxisX, AxisY, AxisZ, AxisAux]

  /** HWParamStruct: per board the device type, driver chip-select pin and axis role. */
  datatype HwParams = HwParams(motorType: seq<int>, driverCs: seq<int>, axisType: seq<int>)

  predicate WellFormedHw(hw: HwParams)
  {
    |hw.motorType| == MaxNumMotors && |hw.driverCs| == MaxNumMotors && |hw.axisType| == MaxNumMotors
  }

  /** A per-board table with `width` entries per board. */
  predicate IsTable(t: seq<seq<int>>, width: nat)
  {
    |t| == MaxNumMotors && forall b :: 0 <= b < |t| ==> |t[b]| == width
  }

  function SetCell(t: seq<seq<int>>, row: nat, col: nat, v: int): (r: seq<seq<int>>)
    requires row < |t| && col < |t[row]|
    ensures |r| == |t| && |r[row]| == |t[row]| && r[row][col] == v
    ensures forall b :: 0 <= b < |t| && b != row ==> r[b] == t[b]
    ensures forall k :: 0 <= k < |t[row]| && k != col ==> r[row][k] == t[row][k]
  {
    t[row := t[row][col := v]]
  }

  /** Writes v into column `col` of every row (the ENAB broadcast). */
  function SetColumn(t: seq<seq<int>>, col: nat, v: int): (r: seq<seq<int>>)
    requires forall b :: 0 <= b < |t| ==> col < |t[b]|
    ensures |r| == |t|
    ensures forall b :: 0 <= b < |t| ==> |r[b]| == |t[b]| && r[b][col] == v
    ensures forall b, k :: 0 <= b < |t| && 0 <= k < |t[b]| && k != col ==> r[b][k] == t[b][k]
    decreases |t|
  {
    if t == [] then [] else [t[0][col := v]] + SetColumn(t[1..], col, v)
  }

  // ---------------------------------------------------------------------------
  // The flash image: version, hwParameters, motorParamArr, remoteParamArr at
  // consecutive offsets. The model counts in word cells, one per C object.
  // ---------------------------------------------------------------------------

  const HwWords := 3 * MaxNumMotors
  const MotorTableWords := MaxNumMotors * MotorsNumParams
  const RemoteTableWords := MaxNumMotors * RemoteNumParams
  const FlashWords := 1 + HwWords + MotorTableWords + RemoteTableWords

  function Flatten(t: seq<seq<int>>): seq<int>
    decreases |t|
  {
    if t == [] then [] else t[0] + Flatten(t[1..])
  }

  function Unflatten(s: seq<int>, rows: nat, width: nat): (t: seq<seq<int>>)
    requires |s| == rows * width
    ensures |t| == rows && forall b :: 0 <= b < rows ==> |t[b]| == width
    decreases rows
  {
    if rows == 0 then [] else [s[..width]] + Unflatten(s[width..], rows - 1, width)
  }

  lemma {:induction false} FlattenLength(t: seq<seq<int>>, width: nat)
    requires forall b :: 0 <= b < |t| ==> |t[b]| == width
    ensures |Flatten(t)| == |t| * width
    decreases |t|
  {
    if t != [] {
      FlattenLength(t[1..], width);
    }
  }

  lemma {:induction false} UnflattenFlatten(t: seq<seq<int>>, width: nat)
    requires forall b :: 0 <= b < |t| ==> |t[b]| == width
    ensures |Flatten(t)| == |t| * width && Unflatten(Flatten(t), |t|, width) == t
    decreases |t|
  {
    FlattenLength(t, width);
    if t != [] {
      var s := Flatten(t);
      assert s == t[0] + Flatten(t[1..]);
      assert s[..width] == t[0];
      assert s[width..] == Flatten(t[1..]);
      UnflattenFlatten(t[1..], width);
    }
  }

  /** EEPROM.put of version, hwParameters, motorParamArr and remoteParamArr. */
  function Image(hw: HwParams, motorParams: seq<seq<int>>, remoteParams: seq<seq<int>>): (img: seq<int>)
    requires WellFormedHw(hw) && IsTable(motorParams, MotorsNumParams) && IsTable(remoteParams, RemoteNumParams)
    ensures |img| == FlashWords && img[0] == Version
  {
    FlattenLength(motorParams, MotorsNumParams);
    FlattenLength(remoteParams, RemoteNumParams);
    [Version] + hw.motorType + hw.driverCs + hw.axisType + Flatten(motorParams) + Flatten(remoteParams)
  }

  datatype Loaded = Loaded(hw: HwParams, motorParams: seq<seq<int>>, remoteParams: seq<seq<int>>)

  /** EEPROM.get of the three objects that follow the version word. */
  function ReadImage(img: seq<int>): (r: Loaded)
    requires |img| == FlashWords
    ensures WellFormedHw(r.hw) && IsTable(r.motorParams, MotorsNumParams) && IsTable(r.remoteParams, RemoteNumParams)
  {
    var m := 1 + HwWords;
    var q := m + MotorTableWords;
    Loaded(HwParams(img[1..5], img[5..9], img[9..13]),
           Unflatten(img[m..q], MaxNumMotors, MotorsNumParams),
           Unflatten(img[q..], MaxNumMotors, RemoteNumParams))
  }

  /** Loading a saved image gives back exactly the tables that were saved. */
  lemma {:induction false} ImageRoundTrip(hw: HwParams, motorParams: seq<seq<int>>, remoteParams: seq<seq<int>>)
    requires WellFormedHw(hw) && IsTable(motorParams, MotorsNumParams) && IsTable(remoteParams, RemoteNumParams)
    ensures ReadImage(Image(hw, motorParams, remoteParams)) == Loaded(hw, motorParams, remoteParams)
  {
    var img := Image(hw, motorParams, remoteParams);
    UnflattenFlatten(motorParams, MotorsNumParams);
    UnflattenFlatten(remoteParams, RemoteNumParams);
    var fm := Flatten(motorParams);
    var fr := Flatten(remoteParams);
    assert img == [Version] + hw.motorType + hw.driverCs + hw.axisType + fm + fr;
    assert img[1..5] == hw.motorType;
    assert img[5..9] == hw.driverCs;
    assert img[9..13] == hw.axisType;
    assert img[13..13 + MotorTableWords] == fm;
    assert img[13 + MotorTableWords..] == fr;
  }

  /** IsActiveMotor without its error side effect. */
  predicate IsActive(hw: HwParams, board: int)
    requires WellFormedHw(hw)
  {
    ValidBoard(board) && hw.motorType[board] != MotorNone
  }

  class Parameters {
    var hw: HwParams
    var motorParamArr: seq<seq<int>>
    var remoteParamArr: seq<seq<int>>
    /** errorFlag and errorMsg */
    var latch: Latch
    /** The emulated EEPROM buffer that EEPROM.put writes and EEPROM.get reads. */
    var eeprom: seq<int>

    ghost predicate Valid()
      reads this
    {
      WellFormedHw(hw) && IsTable(motorParamArr, MotorsNumParams) && IsTable(remoteParamArr, RemoteNumParams)
      && |eeprom| == FlashWords && |latch.msg| < MaxErrorStringSize
    }

    /**
     * The global Parameters object: the hardware table takes its in-class
     * defaults, the parameter tables and error state start zeroed, and the
     * EEPROM buffer holds whatever `flash` contains.
     */
    constructor (flash: seq<int>)
      requires |flash| == FlashWords
      ensures Valid()
      ensures hw == HwParams(DefaultMotorTypes, DefaultDriverCs, DefaultAxisTypes)
      ensures motorParamArr == seq(MaxNumMotors, _ => seq(MotorsNumParams, _ => 0))
      ensures remoteParamArr == seq(MaxNumMotors, _ => seq(RemoteNumParams, _ => 0))
      ensures latch == ClearLatch && eeprom == flash
    {
      hw := HwParams(DefaultMotorTypes, DefaultDriverCs, DefaultAxisTypes);
      motorParamArr := seq(MaxNumMotors, _ => seq(MotorsNumParams, _ => 0));
      remoteParamArr := seq(MaxNumMotors, _ => seq(RemoteNumParams, _ => 0));
      latch := ClearLatch;
      eeprom := flash;
    }

    /** Keeps only the first message until PrintErrorMsg clears the flag. */
    method SetErrorMsg(msg: string)
      requires Valid()
      modifies this`latch
      ensures Valid() && latch == Raise(old(latch), msg)
    {
      latch := Raise(latch, msg);
    }

    /** Returns whether an error was pending and the text printed for it. */
    method PrintErrorMsg() returns (had: bool, text: string)
      requires Valid()
      modifies this`latch
      ensures Valid()
      ensures had == old(latch.flag) && text == (if had then old(latch.msg) else "")
      ensures latch == old(latch).(flag := false)
    {
      had := latch.flag;
      text := if had then latch.msg else "";
      latch := latch.(flag := false);
    }

    method IsValidMotor(board: int) returns (ok: bool)
      requires Valid()
      modifies this`latch
      ensures Valid() && ok == ValidBoard(board)
      ensures latch == if ok then old(latch) else Raise(old(latch), "Invalid board number")
    {
      ok := ValidBoard(board);
      if !ok {
        SetErrorMsg("Invalid board number");
      }
    }

    method IsActiveMotor(board: int, raiseError: bool) returns (ok: bool)
      requires Valid()
      modifies this`latch
      ensures Valid() && ok == IsActive(hw, board)
      ensures latch == if !ok && raiseError then Raise(old(latch), "Inactive board number") else old(latch)
    {
      ok := IsActive(hw, board);
      if !ok && raiseError {
        SetErrorMsg("Inactive board number");
      }
    }

    /** Accepts exactly the three device types; anything else leaves the entry. */
    method SetDeviceType(board: int, value: int) returns (err: int)
      requires Valid()
      modifies this`hw, this`latch
      ensures Valid()
      ensures err == (if ValidBoard(board) && MotorNone <= value <= MotorTmc then ErrNone else ErrParameter)
      ensures hw == if err == ErrNone then old(hw).(motorType := old(hw).motorType[board := value]) else old(hw)
      ensures latch == if !ValidBoard(board) then Raise(old(latch), "Invalid board number")
                       else if err != ErrNone then Raise(old(latch), "Invalid device type (0..2)")
                       else old(latch)
    {
      var ok := IsValidMotor(board);
      if !ok {
        return ErrParameter;
      }
      if MotorNone <= value <= MotorTmc {
        hw := hw.(motorType := hw.motorType[board := value]);
        err := ErrNone;
      } else {
        SetErrorMsg("Invalid device type (0..2)");
        err := ErrParameter;
      }
    }

    /** The value is meaningful only when err is ErrNone (it is 0 otherwise). */
    method GetDeviceType(board: int) returns (err: int, value: int)
      requires Valid()
      modifies this`latch
      ensures Valid()
      ensures err == (if ValidBoard(board) then ErrNone else ErrParameter)
      ensures value == if ValidBoard(board) then hw.motorType[board] else 0
      ensures latch == if ValidBoard(board) then old(latch) else Raise(old(latch), "Invalid board number")
    {
      var ok := IsValidMotor(board);
      if !ok {
        return ErrParameter, 0;
      }
      return ErrNone, hw.motorType[board];
    }

    /** Accepts exactly the five axis roles; anything else leaves the entry. */
    method SetAxisType(board: int, value: int) returns (err: int)
      requires Valid()
      modifies this`hw, this`latch
      ensures Valid()
      ensures err == (if ValidBoard(board) && AxisUndef <= value <= AxisAux then ErrNone else ErrParameter)
      ensures hw == if err == ErrNone then old(hw).(axisType := old(hw).axisType[board := value]) else old(hw)
      ensures latch == if !ValidBoard(board) then Raise(old(latch), "Invalid board number")
                       else if err != ErrNone then Raise(old(latch), "Invalid axis type (0..4)")
                       else old(latch)
    {
      var ok := IsValidMotor(board);
      if !ok {
        return ErrParameter;
      }
      if AxisUndef <= value <= AxisAux {
        hw := hw.(axisType := hw.axisType[board := value]);
        err := ErrNone;
      } else {
        SetErrorMsg("Invalid axis type (0..4)");
        err := ErrParameter;
      }
    }

    method GetAxisType(board: int) returns (err: int, value: int)
      requires Valid()
      modifies this`latch
      ensures Valid()
      ensures err == (if ValidBoard(board) then ErrNone else ErrParameter)
      ensures value == if ValidBoard(board) then hw.axisType[board] else 0
      ensures latch == if ValidBoard(board) then old(latch) else Raise(old(latch), "Invalid board number")
    {
      var ok := IsValidMotor(board);
      if !ok {
        return ErrParameter, 0;
      }
      return ErrNone, hw.axisType[board];
    }

    /** Stores the value with no range check. */
    method SetMotorParams(board: int, index: nat, value: int) returns (err: int)
      requires Valid() && index < MotorsNumParams
      modifies this`motorParamArr, this`latch
      ensures Valid()
      ensures err == (if ValidBoard(board) then ErrNone else ErrParameter)
      ensures motorParamArr == if ValidBoard(board) then SetCell(old(motorParamArr), board, index, value)
                               else old(motorParamArr)
      ensures latch == if ValidBoard(board) then old(latch) else Raise(old(latch), "Invalid board number")
    {
      var ok := IsValidMotor(board);
      if !ok {
        return ErrParameter;
      }
      motorParamArr := SetCell(motorParamArr, board, index, value);
      err := ErrNone;
    }

    method GetMotorParams(board: int, index: nat) returns (err: int, value: int)
      requires Valid() && index < MotorsNumParams
      modifies this`latch
      ensures Valid()
      ensures err == (if ValidBoard(board) then ErrNone else ErrParameter)
      ensures value == if ValidBoard(board) then motorParamArr[board][index] else 0
      ensures latch == if ValidBoard(board) then old(latch) else Raise(old(latch), "Invalid board number")
    {
      var ok := IsValidMotor(board);
      if !ok {
        return ErrParameter, 0;
      }
      return ErrNone, motorParamArr[board][index];
    }

    /**
     * Stores the value with no range check. Board -1 is accepted for the ENAB
     * entry only and writes it on every board.
     */
    method SetRemoteParams(board: int, index: nat, value: int) returns (err: int)
      requires Valid() && index < RemoteNumParams
      modifies this`remoteParamArr, this`latch
      ensures Valid()
      ensures index == ENAB && board == -1 ==>
        err == ErrNone && remoteParamArr == SetColumn(old(remoteParamArr), ENAB, value) && latch == old(latch)
      ensures !(index == ENAB && board == -1) ==>
        err == (if ValidBoard(board) then ErrNone else ErrParameter) &&
        remoteParamArr == (if ValidBoard(board) then SetCell(old(remoteParamArr), board, index, value)
                           else old(remoteParamArr)) &&
        latch == (if ValidBoard(board) then old(latch) else Raise(old(latch), "Invalid board number"))
    {
      if RemoteParamIds[index] == "ENAB" && board == -1 {
        remoteParamArr := SetColumn(remoteParamArr, index, value);
        return ErrNone;
      }
      var ok := IsValidMotor(board);
      if !ok {
        return ErrParameter;
      }
      remoteParamArr := SetCell(remoteParamArr, board, index, value);
      err := ErrNone;
    }

    method GetRemoteParams(board: int, index: nat) returns (err: int, value: int)
      requires Valid() && index < RemoteNumParams
      modifies this`latch
      ensures Valid()
      ensures err == (if ValidBoard(board) then ErrNone else ErrParameter)
      ensures value == if ValidBoard(board) then remoteParamArr[board][index] else 0
      ensures latch == if ValidBoard(board) then old(latch) else Raise(old(latch), "Invalid board number")
    {
      var ok := IsValidMotor(board);
      if !ok {
        return ErrParameter, 0;
      }
      return ErrNone, remoteParamArr[board][index];
    }

    /**
     * Writes the image into the EEPROM buffer and commits it; `commitOk` is the
     * outcome of the flash commit. The buffer holds the image either way.
     */
    method SaveConfigToFlash(commitOk: bool) returns (err: int)
      requires Valid()
      modifies this`eeprom, this`latch
      ensures Valid()
      ensures eeprom == Image(hw, motorParamArr, remoteParamArr)
      ensures err == (if commitOk then ErrNone else ErrParameter)
      ensures latch == if commitOk then old(latch) else Raise(old(latch), "Could not save config to flash")
    {
      eeprom := Image(hw, motorParamArr, remoteParamArr);
      if !commitOk {
        SetErrorMsg("Could not save config to flash");
        return ErrParameter;
      }
      err := ErrNone;
    }

    /**
     * The table-loading half of Config (the board and remote configuration that
     * follows is Startup.Config). Returns ErrNone when configuration should go
     * on: after loading a flash image whose version matches, after copying the
     * defaults into every board, or for a plain reconfiguration.
     */
    method LoadTables(confType: int) returns (err: int)
      requires Valid()
      modifies this`hw, this`motorParamArr, this`remoteParamArr, this`latch
      ensures Valid()
      ensures confType == ConfigLoadFromFlash && eeprom[0] == Version ==>
        err == ErrNone && Loaded(hw, motorParamArr, remoteParamArr) == ReadImage(eeprom) && latch == old(latch)
      ensures confType == ConfigLoadFromFlash && eeprom[0] != Version ==>
        err == ErrParameter && hw == old(hw).(motorType := seq(MaxNumMotors, _ => MotorNone))
        && motorParamArr == old(motorParamArr) && remoteParamArr == old(remoteParamArr)
        && latch == Raise(old(latch), "Version mismatch in flash")
      ensures confType == ConfigDefault ==>
        err == ErrNone && hw == old(hw) && latch == old(latch)
        && motorParamArr == seq(MaxNumMotors, _ => DefaultSafeMotorParams)
        && remoteParamArr == seq(MaxNumMotors, _ => DefaultRemoteParams)
      ensures confType != ConfigLoadFromFlash && confType != ConfigDefault ==>
        err == ErrNone && hw == old(hw) && latch == old(latch)
        && motorParamArr == old(motorParamArr) && remoteParamArr == old(remoteParamArr)
    {
      err := ErrNone;
      if confType == ConfigLoadFromFlash {
        if eeprom[0] == Version {
          var l := ReadImage(eeprom);
          hw, motorParamArr, remoteParamArr := l.hw, l.motorParams, l.remoteParams;
        } else {
          hw := hw.(motorType := seq(MaxNumMotors, _ => MotorNone));
          SetErrorMsg("Version mismatch in flash");
          err := ErrParameter;
        }
      } else if confType == ConfigDefault {
        var mot := 0;
        while mot < MaxNumMotors
          invariant 0 <= mot <= MaxNumMotors && IsTable(motorParamArr, MotorsNumParams)
          invariant IsTable(remoteParamArr, RemoteNumParams)
          invariant forall b :: 0 <= b < mot ==> motorParamArr[b] == DefaultSafeMotorParams
          invariant forall b :: 0 <= b < mot ==> remoteParamArr[b] == DefaultRemoteParams
          invariant hw == old(hw) && latch == old(latch)
        {
          motorParamArr := motorParamArr[mot := DefaultSafeMotorParams];
          remoteParamArr := remoteParamArr[mot := DefaultRemoteParams];
          mot := mot + 1;
        }
        assert motorParamArr == seq(MaxNumMotors, _ => DefaultSafeMotorParams);
        assert remoteParamArr == seq(MaxNumMotors, _ => DefaultRemoteParams);
      }
    }
  }
}
