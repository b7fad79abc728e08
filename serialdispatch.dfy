// The USB serial command interpreter of the controller (SerialComm.cpp): one
// line per check interval, decoded by a chain of prefix tests, carried out on
// the parameter store, the motors or the remote link, and answered with one
// line.

module SerialDispatch {
  import opened Common
  import opened Text
  import opened ParameterStore
  import AxisDriver
  import Orchestrator
  import Motion
  import RemoteRelay

  /** MSG_MAXLENGTH of SerialComm.cpp: the line buffer and the scratch message buffer. */
  const SerialMsgMaxLength := 100
  /** SERIAL_ID_STRING */
  const IdString := "Stage Driver Pico"
  const LockedMessage := "Motor is under remote control"

  // ---------------------------------------------------------------------------
  // Requests
  // ---------------------------------------------------------------------------

  /** What a line asks for, with the values sscanf stored for it. */
  datatype Request =
    | Refuse(msg: string)                         // ERROR=-1 after latching msg
    | Unrecognized                                // no prefix matched
    | MovePos(b: int, v: int)                     // SMC_MPOS<b>,<pos>
    | MoveVel(b: int, v: int)                     // SMC_MVEL<b>,<vel>
    | GetFlags(b: int)                            // GMC_STAT<b>
    | GetReached(b: int)                          // GMC_POSR<b>
    | SetStatus(idx: nat, b: int, v: int)         // SMS_<ID><b>,<v>
    | GetStatus(idx: nat, b: int)                 // GMS_<ID><b>
    | SetDevice(b: int, v: int)                   // SMP_TDEV<b>,<v>
    | GetDevice(b: int)                           // GMP_TDEV<b>
    | SetAxis(b: int, v: int)                     // SMP_TAXI<b>,<v>
    | GetAxis(b: int)                             // GMP_TAXI<b>
    | SetMotorParam(idx: nat, b: int, v: int)     // SMP_<ID><b>,<v>
    | GetMotorParam(idx: nat, b: int)             // GMP_<ID><b>
    | SetRemoteParam(idx: nat, b: int, v: int)    // SRP_<ID><b>,<v>
    | GetRemoteParam(idx: nat, b: int)            // GRP_<ID><b>
    | ConfigBoard(b: int)                         // SMC_CONF<b>
    | ClearRegs(b: int)                           // SMC_SCLR<b>
    | Home(b: int)                                // SMC_HOME<b>
    | SetReg(b: int, addr: int, v: int)           // SMC_DREG<b>,<addr>,<v>
    | GetReg(b: int, addr: int)                   // GMC_DREG<b>,<addr>
    | Identify                                    // *IDN?
    | NumDevices                                  // GPC_NDEV
    | GetVersion                                  // GPC_VERS
    | ErrorQuery                                  // GPC_EMSG
    | SaveFlash                                   // SPC_SAFL

  /** The ID indices a request carries are within their lists. */
  predicate Bounded(q: Request)
  {
    match q
    case SetStatus(i, _, _) => i < MotorsNumStatus
    case GetStatus(i, _) => i < MotorsNumStatus
    case SetMotorParam(i, _, _) => i < MotorsNumParams
    case GetMotorParam(i, _) => i < MotorsNumParams
    case SetRemoteParam(i, _, _) => i < RemoteNumParams
    case GetRemoteParam(i, _) => i < RemoteNumParams
    case _ => true
  }

  // ---------------------------------------------------------------------------
  // Formats and messages
  // ---------------------------------------------------------------------------

  /** "KEY%hhi" */
  function OneArg(key: string): seq<Piece> { [Lit(key), Num(Int8Conv)] }

  /** "KEY%hhi,%d" and, with Uint8Conv, "KEY%hhi,%hhu" */
  function TwoArgs(key: string, c: Conv): seq<Piece> { [Lit(key), Num(Int8Conv), Lit(","), Num(c)] }

  /** "SMC_DREG%hhi,%hhu,%i" */
  const DregFormat: seq<Piece> := [Lit("SMC_DREG"), Num(Int8Conv), Lit(","), Num(Uint8Conv), Lit(","), Num(Int32Conv)]

  /** The message of a fixed-format command whose arguments do not scan. */
  function Invalid(key: string): string { "Invalid " + key + " command format" }

  /** snprintf(tmpStr, MSG_MAXLENGTH, "Invalid command format: %s", line) */
  function FormatError(s: string): string { Truncate("Invalid command format: " + s, SerialMsgMaxLength) }

  /** sprintf(tmpStr, "Unrecognized parameter  %s", line) */
  function UnknownParameter(s: string): string { "Unrecognized parameter  " + s }

  // ---------------------------------------------------------------------------
  // ID lookup
  // ---------------------------------------------------------------------------

  /** The first entry of `ids` from k on that strncmp(key, id, 4) matches. */
  function IdFrom(ids: seq<string>, key: string, k: nat): (r: Option<nat>)
    requires k <= |ids|
    ensures r.Some? ==>
      k <= r.value < |ids| && AxisDriver.SameId(ids[r.value], key) &&
      forall j :: k <= j < r.value ==> !AxisDriver.SameId(ids[j], key)
    ensures r.None? <==> forall j :: k <= j < |ids| ==> !AxisDriver.SameId(ids[j], key)
    decreases |ids| - k
  {
    if k == |ids| then None
    else if AxisDriver.SameId(ids[k], key) then Some(k)
    else IdFrom(ids, key, k + 1)
  }

  /** The ID named right after the four-character prefix of the line. */
  function IdOf(ids: seq<string>, s: string): Option<nat>
  {
    if |s| < 4 then None else IdFrom(ids, s[4..], 0)
  }

  // ---------------------------------------------------------------------------
  // Decoding a line
  // ---------------------------------------------------------------------------

  /**
   * CheckSerialCommand's handling of the bytes readBytesUntil returned: fewer
   * than five bytes are refused, otherwise the C string the buffer holds goes
   * through the prefix tests.
   */
  function Decode(line: string): (q: Request)
    ensures Bounded(q)
    ensures |line| < 5 ==> q.Refuse?
  {
    if |line| < 5 then Refuse("Command <5 chars. Recvd: " + CStr(line)) else Dispatch(CStr(line))
  }

  /** The prefix tests, in the order the source makes them. */
  function Dispatch(s: string): (q: Request)
    ensures Bounded(q)
  {
    if "SMC_MPOS" <= s then
      var v := Scan(s, TwoArgs("SMC_MPOS", Int32Conv)); if |v| != 2 then Refuse(Invalid("SMC_MPOS")) else MovePos(v[0], v[1])
    else if "SMC_MVEL" <= s then
      var v := Scan(s, TwoArgs("SMC_MVEL", Int32Conv)); if |v| != 2 then Refuse(Invalid("SMC_MVEL")) else MoveVel(v[0], v[1])
    else if "GMC_STAT" <= s then
      var v := Scan(s, OneArg("GMC_STAT")); if |v| != 1 then Refuse(Invalid("GMC_STAT")) else GetFlags(v[0])
    else if "GMC_POSR" <= s then
      var v := Scan(s, OneArg("GMC_POSR")); if |v| != 1 then Refuse(Invalid("GMC_POSR")) else GetReached(v[0])
    else if "SMS_" <= s then
      match IdOf(AxisDriver.StatusIds, s)
      case None => Refuse("Unrecognized SMS_ parameter")
      case Some(i) =>
        var v := Scan(s, TwoArgs("SMS_" + AxisDriver.StatusIds[i], Int32Conv));
        if |v| != 2 then Refuse(FormatError(s)) else SetStatus(i, v[0], v[1])
    else if "GMS_" <= s then
      match IdOf(AxisDriver.StatusIds, s)
      case None => Refuse("Unrecognized GMS_ parameter")
      case Some(i) =>
        var v := Scan(s, OneArg("GMS_" + AxisDriver.StatusIds[i]));
        if |v| != 1 then Refuse(FormatError(s)) else GetStatus(i, v[0])
    else DispatchTables(s)
  }

  /** The device, axis and parameter-table commands. */
  function DispatchTables(s: string): (q: Request)
    ensures Bounded(q)
  {
    if "SMP_TDEV" <= s then
      var v := Scan(s, TwoArgs("SMP_TDEV", Int32Conv)); if |v| != 2 then Refuse(Invalid("SMP_TDEV")) else SetDevice(v[0], v[1])
    else if "GMP_TDEV" <= s then
      var v := Scan(s, OneArg("GMP_TDEV")); if |v| != 1 then Refuse(Invalid("GMP_TDEV")) else GetDevice(v[0])
    else if "SMP_TAXI" <= s then
      var v := Scan(s, TwoArgs("SMP_TAXI", Int32Conv)); if |v| != 2 then Refuse(Invalid("SMP_TAXI")) else SetAxis(v[0], v[1])
    else if "GMP_TAXI" <= s then
      var v := Scan(s, OneArg("GMP_TAXI")); if |v| != 1 then Refuse(Invalid("GMP_TAXI")) else GetAxis(v[0])
    else if "SMP_" <= s then
      match IdOf(MotorParamIds, s)
      case None => Refuse(UnknownParameter(s))
      case Some(i) =>
        var v := Scan(s, TwoArgs("SMP_" + MotorParamIds[i], Int32Conv));
        if |v| != 2 then Refuse(FormatError(s)) else SetMotorParam(i, v[0], v[1])
    else if "GMP_" <= s then
      match IdOf(MotorParamIds, s)
      case None => Refuse(UnknownParameter(s))
      case Some(i) =>
        var v := Scan(s, OneArg("GMP_" + MotorParamIds[i]));
        if |v| != 1 then Refuse(FormatError(s)) else GetMotorParam(i, v[0])
    else if "SRP_" <= s then
      match IdOf(RemoteParamIds, s)
      case None => Refuse(UnknownParameter(s))
      case Some(i) =>
        var v := Scan(s, TwoArgs("SRP_" + RemoteParamIds[i], Int32Conv));
        if |v| != 2 then Refuse(FormatError(s)) else SetRemoteParam(i, v[0], v[1])
    else if "GRP_" <= s then
      match IdOf(RemoteParamIds, s)
      case None => Refuse(UnknownParameter(s))
      case Some(i) =>
        var v := Scan(s, OneArg("GRP_" + RemoteParamIds[i]));
        if |v| != 1 then Refuse(FormatError(s)) else GetRemoteParam(i, v[0])
    else DispatchBoard(s)
  }

  /** The board commands and the queries without arguments. */
  function DispatchBoard(s: string): (q: Request)
    ensures Bounded(q)
  {
    if "SMC_CONF" <= s then
      var v := Scan(s, OneArg("SMC_CONF")); if |v| != 1 then Refuse(Invalid("SMC_CONF")) else ConfigBoard(v[0])
    else if "SMC_SCLR" <= s then
      var v := Scan(s, OneArg("SMC_SCLR")); if |v| != 1 then Refuse(Invalid("SMC_SCLR")) else ClearRegs(v[0])
    else if "SMC_HOME" <= s then
      var v := Scan(s, OneArg("SMC_HOME")); if |v| != 1 then Refuse(Invalid("SMC_HOME")) else Home(v[0])
    else if "SMC_DREG" <= s then
      var v := Scan(s, DregFormat); if |v| != 3 then Refuse(Invalid("SMC_DREG")) else SetReg(v[0], v[1], v[2])
    else if "GMC_DREG" <= s then
      var v := Scan(s, TwoArgs("GMC_DREG", Uint8Conv)); if |v| != 2 then Refuse(Invalid("GMC_DREG")) else GetReg(v[0], v[1])
    else if "*IDN?" <= s then Identify
    else if "GPC_NDEV" <= s then NumDevices
    else if "GPC_VERS" <= s then GetVersion
    else if "GPC_EMSG" <= s then ErrorQuery
    else if "SPC_SAFL" <= s then SaveFlash
    else Unrecognized
  }

  // ---------------------------------------------------------------------------
  // The prefix chain as the source runs it
  // ---------------------------------------------------------------------------

  /** The ID-lookup loop: the first entry of `ids` that the characters after the prefix name. */
  method FindId(ids: seq<string>, s: string) returns (found: bool, idx: nat)
    ensures found == IdOf(ids, s).Some? && (found ==> idx == IdOf(ids, s).value)
  {
    if |s| < 4 {
      return false, 0;
    }
    idx := 0;
    while idx < |ids|
      invariant idx <= |ids| && IdFrom(ids, s[4..], idx) == IdFrom(ids, s[4..], 0)
      decreases |ids| - idx
    {
      if AxisDriver.SameId(ids[idx], s[4..]) {
        return true, idx;
      }
      idx := idx + 1;
    }
    return false, 0;
  }

  /** The request CheckSerialCommand acts on for the bytes read. */
  method ParseLine(line: string) returns (q: Request)
    ensures q == Decode(line)
  {
    if |line| < 5 {
      return Refuse("Command <5 chars. Recvd: " + CStr(line));
    }
    q := ParseMotion(CStr(line));
  }

  method ParseMotion(s: string) returns (q: Request)
    ensures q == Dispatch(s)
  {
    var v: seq<int>;
    if "SMC_MPOS" <= s {
      v := Scan(s, TwoArgs("SMC_MPOS", Int32Conv));
      return if |v| != 2 then Refuse(Invalid("SMC_MPOS")) else MovePos(v[0], v[1]);
    }
    if "SMC_MVEL" <= s {
      v := Scan(s, TwoArgs("SMC_MVEL", Int32Conv));
      return if |v| != 2 then Refuse(Invalid("SMC_MVEL")) else MoveVel(v[0], v[1]);
    }
    if "GMC_STAT" <= s {
      v := Scan(s, OneArg("GMC_STAT"));
      return if |v| != 1 then Refuse(Invalid("GMC_STAT")) else GetFlags(v[0]);
    }
    if "GMC_POSR" <= s {
      v := Scan(s, OneArg("GMC_POSR"));
      return if |v| != 1 then Refuse(Invalid("GMC_POSR")) else GetReached(v[0]);
    }
    var found, i;
    if "SMS_" <= s {
      found, i := FindId(AxisDriver.StatusIds, s);
      if !found {
        return Refuse("Unrecognized SMS_ parameter");
      }
      v := Scan(s, TwoArgs("SMS_" + AxisDriver.StatusIds[i], Int32Conv));
      return if |v| != 2 then Refuse(FormatError(s)) else SetStatus(i, v[0], v[1]);
    }
    if "GMS_" <= s {
      found, i := FindId(AxisDriver.StatusIds, s);
      if !found {
        return Refuse("Unrecognized GMS_ parameter");
      }
      v := Scan(s, OneArg("GMS_" + AxisDriver.StatusIds[i]));
      return if |v| != 1 then Refuse(FormatError(s)) else GetStatus(i, v[0]);
    }
    q := ParseTables(s);
  }

  method ParseTables(s: string) returns (q: Request)
    ensures q == DispatchTables(s)
  {
    var v: seq<int>;
    if "SMP_TDEV" <= s {
      v := Scan(s, TwoArgs("SMP_TDEV", Int32Conv));
      return if |v| != 2 then Refuse(Invalid("SMP_TDEV")) else SetDevice(v[0], v[1]);
    }
    if "GMP_TDEV" <= s {
      v := Scan(s, OneArg("GMP_TDEV"));
      return if |v| != 1 then Refuse(Invalid("GMP_TDEV")) else GetDevice(v[0]);
    }
    if "SMP_TAXI" <= s {
      v := Scan(s, TwoArgs("SMP_TAXI", Int32Conv));
      return if |v| != 2 then Refuse(Invalid("SMP_TAXI")) else SetAxis(v[0], v[1]);
    }
    if "GMP_TAXI" <= s {
      v := Scan(s, OneArg("GMP_TAXI"));
      return if |v| != 1 then Refuse(Invalid("GMP_TAXI")) else GetAxis(v[0]);
    }
    var found, i;
    if "SMP_" <= s {
      found, i := FindId(MotorParamIds, s);
      if !found {
        return Refuse(UnknownParameter(s));
      }
      v := Scan(s, TwoArgs("SMP_" + MotorParamIds[i], Int32Conv));
      return if |v| != 2 then Refuse(FormatError(s)) else SetMotorParam(i, v[0], v[1]);
    }
    if "GMP_" <= s {
      found, i := FindId(MotorParamIds, s);
      if !found {
        return Refuse(UnknownParameter(s));
      }
      v := Scan(s, OneArg("GMP_" + MotorParamIds[i]));
      return if |v| != 1 then Refuse(FormatError(s)) else GetMotorParam(i, v[0]);
    }
    if "SRP_" <= s {
      found, i := FindId(RemoteParamIds, s);
      if !found {
        return Refuse(UnknownParameter(s));
      }
      v := Scan(s, TwoArgs("SRP_" + RemoteParamIds[i], Int32Conv));
      return if |v| != 2 then Refuse(FormatError(s)) else SetRemoteParam(i, v[0], v[1]);
    }
    if "GRP_" <= s {
      found, i := FindId(RemoteParamIds, s);
      if !found {
        return Refuse(UnknownParameter(s));
      }
      v := Scan(s, OneArg("GRP_" + RemoteParamIds[i]));
      return if |v| != 1 then Refuse(FormatError(s)) else GetRemoteParam(i, v[0]);
    }
    q := ParseBoard(s);
  }

  method ParseBoard(s: string) returns (q: Request)
    ensures q == DispatchBoard(s)
  {
    var v: seq<int>;
    if "SMC_CONF" <= s {
      v := Scan(s, OneArg("SMC_CONF"));
      return if |v| != 1 then Refuse(Invalid("SMC_CONF")) else ConfigBoard(v[0]);
    }
    if "SMC_SCLR" <= s {
      v := Scan(s, OneArg("SMC_SCLR"));
      return if |v| != 1 then Refuse(Invalid("SMC_SCLR")) else ClearRegs(v[0]);
    }
    if "SMC_HOME" <= s {
      v := Scan(s, OneArg("SMC_HOME"));
      return if |v| != 1 then Refuse(Invalid("SMC_HOME")) else Home(v[0]);
    }
    if "SMC_DREG" <= s {
      v := Scan(s, DregFormat);
      return if |v| != 3 then Refuse(Invalid("SMC_DREG")) else SetReg(v[0], v[1], v[2]);
    }
    if "GMC_DREG" <= s {
      v := Scan(s, TwoArgs("GMC_DREG", Uint8Conv));
      return if |v| != 2 then Refuse(Invalid("GMC_DREG")) else GetReg(v[0], v[1]);
    }
    q := if "*IDN?" <= s then Identify
         else if "GPC_NDEV" <= s then NumDevices
         else if "GPC_VERS" <= s then GetVersion
         else if "GPC_EMSG" <= s then ErrorQuery
         else if "SPC_SAFL" <= s then SaveFlash
         else Unrecognized;
  }

  // ---------------------------------------------------------------------------
  // Command lines as the host writes them
  // ---------------------------------------------------------------------------

  /** KEY<b> */
  function Line1(key: string, b: int): string { key + IntToDec(b) }

  /** KEY<b>,<v> */
  function Line2(key: string, b: int, v: int): string { key + IntToDec(b) + "," + IntToDec(v) }

  /** KEY<b>,<a>,<v> */
  function Line3(key: string, b: int, a: int, v: int): string
  {
    key + IntToDec(b) + "," + IntToDec(a) + "," + IntToDec(v)
  }

  /** sscanf with "KEY%hhi" reads the board back. */
  lemma Line1Scans(key: string, b: int)
    requires -128 <= b < 128
    ensures Scan(Line1(key, b), OneArg(key)) == [b]
  {
    var fmt := OneArg(key);
    assert Representable(fmt, [b]) by {
      assert Convert(Int8Conv, b) == b;
      assert Representable(fmt[2..], []);
    }
    assert fmt[1..][1..] == [];
    assert Render(fmt[1..], [b]) == IntToDec(b) + Render(fmt[2..], []);
    assert Render(fmt, [b]) + "" == Line1(key, b);
    ScanRender(fmt, [b], "");
  }

  /** sscanf with "KEY%hhi,%d" (or ",%hhu") reads the board and the value back. */
  lemma Line2Scans(key: string, c: Conv, b: int, v: int)
    requires -128 <= b < 128 && Convert(c, v) == v
    ensures Scan(Line2(key, b, v), TwoArgs(key, c)) == [b, v]
  {
    var fmt := TwoArgs(key, c);
    assert WellSeparated(fmt);
    assert Representable(fmt, [b, v]) by {
      assert Convert(Int8Conv, b) == b;
      assert Representable(fmt[3..], [v]) by { assert Representable(fmt[4..], []); }
    }
    assert fmt[1..][1..][1..][1..] == [];
    assert Render(fmt[3..], [v]) == IntToDec(v) + Render(fmt[4..], []);
    assert Render(fmt[2..], [v]) == "," + Render(fmt[3..], [v]);
    assert Render(fmt[1..], [b, v]) == IntToDec(b) + Render(fmt[2..], [v]);
    assert Render(fmt, [b, v]) + "" == Line2(key, b, v);
    ScanRender(fmt, [b, v], "");
  }

  /** sscanf with "SMC_DREG%hhi,%hhu,%i" reads the board, the address and the value back. */
  lemma Line3Scans(b: int, a: int, v: int)
    requires -128 <= b < 128 && 0 <= a < 256 && IsInt32(v)
    ensures Scan(Line3("SMC_DREG", b, a, v), DregFormat) == [b, a, v]
  {
    var fmt := DregFormat;
    assert WellSeparated(fmt);
    assert Representable(fmt, [b, a, v]) by {
      assert Convert(Int8Conv, b) == b && Convert(Uint8Conv, a) == a && Convert(Int32Conv, v) == v;
      assert Representable(fmt[5..], [v]) by { assert Representable(fmt[6..], []); }
      assert Representable(fmt[3..], [a, v]) by { assert [a, v][1..] == [v]; }
    }
    assert fmt[1..][1..][1..][1..][1..][1..] == [];
    assert Render(fmt[5..], [v]) == IntToDec(v) + Render(fmt[6..], []);
    assert Render(fmt[3..], [a, v]) == IntToDec(a) + Render(fmt[4..], [v]);
    assert Render(fmt[1..], [b, a, v]) == IntToDec(b) + Render(fmt[2..], [a, v]);
    assert Render(fmt, [b, a, v]) + "" == Line3("SMC_DREG", b, a, v);
    ScanRender(fmt, [b, a, v], "");
  }

  /** A key that is a C string stays one once decimal arguments follow it. */
  lemma Line2CStr(key: string, b: int, v: int)
    requires '\0' !in key
    ensures CStr(Line2(key, b, v)) == Line2(key, b, v)
  {
    RemoteRelay.DecimalIsPlain(b);
    RemoteRelay.DecimalIsPlain(v);
    var t := Line2(key, b, v);
    var x, y := IntToDec(b), IntToDec(v);
    assert t == key + x + "," + y;
    forall i | 0 <= i < |t| ensures t[i] != '\0' {
      if i < |key| { assert t[i] == key[i]; }
      else if i < |key| + |x| { assert t[i] == x[i - |key|]; }
      else if i > |key| + |x| { assert t[i] == y[i - |key| - |x| - 1]; }
    }
  }

  lemma Line1CStr(key: string, b: int)
    requires '\0' !in key
    ensures CStr(Line1(key, b)) == Line1(key, b)
  {
    RemoteRelay.DecimalIsPlain(b);
    var t := Line1(key, b);
    forall i | 0 <= i < |t| ensures t[i] != '\0' {
      if i < |key| { assert t[i] == key[i]; } else { assert t[i] == IntToDec(b)[i - |key|]; }
    }
  }

  /** A line does not start with `p` when they differ at position i. */
  lemma NotLed(p: string, s: string, i: nat)
    requires i < |p| && i < |s| && p[i] != s[i]
    ensures !(p <= s)
  {
  }

  /** A line starts with the key it was written for. */
  lemma Leads(key: string, rest: string)
    ensures key <= key + rest && (key + rest)[..|key|] == key
  {
    assert (key + rest)[..|key|] == key;
  }

  // ---------------------------------------------------------------------------
  // Decoding the host's commands
  // ---------------------------------------------------------------------------

  /** The motion and status prefixes do not lead the line: the later groups decide. */
  predicate PastMotion(s: string)
  {
    !("SMC_MPOS" <= s) && !("SMC_MVEL" <= s) && !("GMC_STAT" <= s) && !("GMC_POSR" <= s)
    && !("SMS_" <= s) && !("GMS_" <= s)
  }

  /** The table prefixes do not lead the line either: the board group decides. */
  predicate PastTables(s: string)
  {
    !("SMP_TDEV" <= s) && !("GMP_TDEV" <= s) && !("SMP_TAXI" <= s) && !("GMP_TAXI" <= s)
    && !("SMP_" <= s) && !("GMP_" <= s) && !("SRP_" <= s) && !("GRP_" <= s)
  }

  lemma SkipMotion(s: string)
    requires PastMotion(s)
    ensures Dispatch(s) == DispatchTables(s)
  {
  }

  lemma SkipTables(s: string)
    requires PastTables(s)
    ensures DispatchTables(s) == DispatchBoard(s)
  {
  }

  /** A line of at least five characters that is its own C string goes through the prefix tests whole. */
  lemma Dispatched(line: string)
    requires |line| >= 5 && CStr(line) == line
    ensures Decode(line) == Dispatch(line)
  {
  }

  /** A line of a key without NUL and its arguments is dispatched whole, and starts with the key. */
  lemma Wire1(key: string, b: int)
    requires '\0' !in key && |key| >= 4 && -128 <= b < 128
    ensures var s := Line1(key, b); Decode(s) == Dispatch(s) && key <= s && Scan(s, OneArg(key)) == [b]
  {
    Line1CStr(key, b);
    Leads(key, IntToDec(b));
    Line1Scans(key, b);
  }

  lemma Wire2(key: string, c: Conv, b: int, v: int)
    requires '\0' !in key && |key| >= 4 && -128 <= b < 128 && Convert(c, v) == v
    ensures var s := Line2(key, b, v); Decode(s) == Dispatch(s) && key <= s && Scan(s, TwoArgs(key, c)) == [b, v]
  {
    Line2CStr(key, b, v);
    Leads(key, IntToDec(b) + "," + IntToDec(v));
    Line2Scans(key, c, b, v);
  }

  lemma Wire3(b: int, a: int, v: int)
    requires -128 <= b < 128 && 0 <= a < 256 && IsInt32(v)
    ensures var s := Line3("SMC_DREG", b, a, v); Decode(s) == Dispatch(s) && "SMC_DREG" <= s && Scan(s, DregFormat) == [b, a, v]
  {
    var s := Line3("SMC_DREG", b, a, v);
    CStrOfLine3(b, a, v);
    Dispatched(s);
    Line3Leads(b, a, v);
    Line3Scans(b, a, v);
  }

  lemma Line3Leads(b: int, a: int, v: int)
    ensures "SMC_DREG" <= Line3("SMC_DREG", b, a, v)
  {
    var k := "SMC_DREG";
    Leads(k, IntToDec(b));
    PrefixGrows(k, k + IntToDec(b), ",");
    PrefixGrows(k, k + IntToDec(b) + ",", IntToDec(a));
    PrefixGrows(k, k + IntToDec(b) + "," + IntToDec(a), ",");
    PrefixGrows(k, k + IntToDec(b) + "," + IntToDec(a) + ",", IntToDec(v));
  }

  /** A prefix of a string is a prefix of anything that extends it. */
  lemma PrefixGrows(p: string, a: string, t: string)
    requires p <= a
    ensures p <= a + t
  {
    assert (a + t)[..|p|] == a[..|p|];
  }

  lemma CStrOfLine3(b: int, a: int, v: int)
    ensures CStr(Line3("SMC_DREG", b, a, v)) == Line3("SMC_DREG", b, a, v)
  {
    var t := Line3("SMC_DREG", b, a, v);
    var x, y, z := IntToDec(b), IntToDec(a), IntToDec(v);
    var u := Line2("SMC_DREG", b, a);
    Line2CStr("SMC_DREG", b, a);
    RemoteRelay.DecimalIsPlain(v);
    assert t == u + "," + z;
    forall i | 0 <= i < |t| ensures t[i] != '\0' {
      if i < |u| { assert t[i] == u[i]; } else if i > |u| { assert t[i] == z[i - |u| - 1]; }
    }
  }

  /** A line led by a four-character prefix and an ID names that ID after the prefix. */
  lemma IdLeads(pre: string, id: string, s: string)
    requires |pre| == 4 && |id| == 4 && pre + id <= s
    ensures pre <= s && |s| >= 4 && AxisDriver.Id4(s[4..]) == id
  {
    assert s[..4] == (pre + id)[..4] == pre;
    assert s[4..][..4] == (pre + id)[4..] == id;
  }

  lemma DispatchMovePos(s: string, b: int, v: int)
    requires "SMC_MPOS" <= s && Scan(s, TwoArgs("SMC_MPOS", Int32Conv)) == [b, v]
    ensures Dispatch(s) == MovePos(b, v)
  {
  }

  lemma DispatchMoveVel(s: string, b: int, v: int)
    requires "SMC_MVEL" <= s && Scan(s, TwoArgs("SMC_MVEL", Int32Conv)) == [b, v]
    ensures Dispatch(s) == MoveVel(b, v)
  {
    LedMoveVel(s);
  }

  /** The prefix tests before SMC_MVEL all fail on a line it leads. */
  lemma LedMoveVel(s: string)
    requires "SMC_MVEL" <= s
    ensures !("SMC_MPOS" <= s)
  {
    NotLed("SMC_MPOS", s, 5);
  }

  lemma DispatchGetFlags(s: string, b: int)
    requires "GMC_STAT" <= s && Scan(s, OneArg("GMC_STAT")) == [b]
    ensures Dispatch(s) == GetFlags(b)
  {
    LedGetFlags(s);
  }

  /** The prefix tests before GMC_STAT all fail on a line it leads. */
  lemma LedGetFlags(s: string)
    requires "GMC_STAT" <= s
    ensures !("SMC_MPOS" <= s) && !("SMC_MVEL" <= s)
  {
    NotLed("SMC_MPOS", s, 0); NotLed("SMC_MVEL", s, 0);
  }

  lemma DispatchGetReached(s: string, b: int)
    requires "GMC_POSR" <= s && Scan(s, OneArg("GMC_POSR")) == [b]
    ensures Dispatch(s) == GetReached(b)
  {
    LedGetReached(s);
  }

  /** The prefix tests before GMC_POSR all fail on a line it leads. */
  lemma LedGetReached(s: string)
    requires "GMC_POSR" <= s
    ensures !("SMC_MPOS" <= s) && !("SMC_MVEL" <= s) && !("GMC_STAT" <= s)
  {
    NotLed("SMC_MPOS", s, 0); NotLed("SMC_MVEL", s, 0); NotLed("GMC_STAT", s, 4);
  }

  lemma DispatchSetStatus(s: string, i: nat, b: int, v: int)
    requires "SMS_" <= s && IdOf(AxisDriver.StatusIds, s) == Some(i) && Scan(s, TwoArgs("SMS_" + AxisDriver.StatusIds[i], Int32Conv)) == [b, v]
    ensures Dispatch(s) == SetStatus(i, b, v)
  {
    LedSetStatus(s);
  }

  /** The prefix tests before SMS_ all fail on a line it leads. */
  lemma LedSetStatus(s: string)
    requires "SMS_" <= s
    ensures !("SMC_MPOS" <= s) && !("SMC_MVEL" <= s) && !("GMC_STAT" <= s) && !("GMC_POSR" <= s)
  {
    NotLed("SMC_MPOS", s, 2); NotLed("SMC_MVEL", s, 2); NotLed("GMC_STAT", s, 0); NotLed("GMC_POSR", s, 0);
  }

  lemma DispatchGetStatus(s: string, i: nat, b: int)
    requires "GMS_" <= s && IdOf(AxisDriver.StatusIds, s) == Some(i) && Scan(s, OneArg("GMS_" + AxisDriver.StatusIds[i])) == [b]
    ensures Dispatch(s) == GetStatus(i, b)
  {
    LedGetStatus(s);
  }

  /** The prefix tests before GMS_ all fail on a line it leads. */
  lemma LedGetStatus(s: string)
    requires "GMS_" <= s
    ensures !("SMC_MPOS" <= s) && !("SMC_MVEL" <= s) && !("GMC_STAT" <= s) && !("GMC_POSR" <= s) &&
      !("SMS_" <= s)
  {
    NotLed("SMC_MPOS", s, 0); NotLed("SMC_MVEL", s, 0); NotLed("GMC_STAT", s, 2); NotLed("GMC_POSR", s, 2);
    NotLed("SMS_", s, 0);
  }

  lemma DispatchSetDevice(s: string, b: int, v: int)
    requires "SMP_TDEV" <= s && Scan(s, TwoArgs("SMP_TDEV", Int32Conv)) == [b, v]
    ensures Dispatch(s) == SetDevice(b, v)
  {
    LedSetDevice(s);
    SkipMotion(s);
  }

  /** The prefix tests before SMP_TDEV all fail on a line it leads. */
  lemma LedSetDevice(s: string)
    requires "SMP_TDEV" <= s
    ensures PastMotion(s)
  {
    NotLed("SMC_MPOS", s, 2); NotLed("SMC_MVEL", s, 2); NotLed("GMC_STAT", s, 0); NotLed("GMC_POSR", s, 0);
    NotLed("SMS_", s, 2); NotLed("GMS_", s, 0);
  }

  lemma DispatchGetDevice(s: string, b: int)
    requires "GMP_TDEV" <= s && Scan(s, OneArg("GMP_TDEV")) == [b]
    ensures Dispatch(s) == GetDevice(b)
  {
    LedGetDevice(s);
    SkipMotion(s);
  }

  /** The prefix tests before GMP_TDEV all fail on a line it leads. */
  lemma LedGetDevice(s: string)
    requires "GMP_TDEV" <= s
    ensures PastMotion(s) && !("SMP_TDEV" <= s)
  {
    NotLed("SMC_MPOS", s, 0); NotLed("SMC_MVEL", s, 0); NotLed("GMC_STAT", s, 2); NotLed("GMC_POSR", s, 2);
    NotLed("SMS_", s, 0); NotLed("GMS_", s, 2); NotLed("SMP_TDEV", s, 0);
  }

  lemma DispatchSetAxis(s: string, b: int, v: int)
    requires "SMP_TAXI" <= s && Scan(s, TwoArgs("SMP_TAXI", Int32Conv)) == [b, v]
    ensures Dispatch(s) == SetAxis(b, v)
  {
    LedSetAxis(s);
    SkipMotion(s);
  }

  /** The prefix tests before SMP_TAXI all fail on a line it leads. */
  lemma LedSetAxis(s: string)
    requires "SMP_TAXI" <= s
    ensures PastMotion(s) && !("SMP_TDEV" <= s) && !("GMP_TDEV" <= s)
  {
    NotLed("SMC_MPOS", s, 2); NotLed("SMC_MVEL", s, 2); NotLed("GMC_STAT", s, 0); NotLed("GMC_POSR", s, 0);
    NotLed("SMS_", s, 2); NotLed("GMS_", s, 0); NotLed("SMP_TDEV", s, 5); NotLed("GMP_TDEV", s, 0);
  }

  lemma DispatchGetAxis(s: string, b: int)
    requires "GMP_TAXI" <= s && Scan(s, OneArg("GMP_TAXI")) == [b]
    ensures Dispatch(s) == GetAxis(b)
  {
    LedGetAxis(s);
    SkipMotion(s);
  }

  /** The prefix tests before GMP_TAXI all fail on a line it leads. */
  lemma LedGetAxis(s: string)
    requires "GMP_TAXI" <= s
    ensures PastMotion(s) && !("SMP_TDEV" <= s) && !("GMP_TDEV" <= s) && !("SMP_TAXI" <= s)
  {
    NotLed("SMC_MPOS", s, 0); NotLed("SMC_MVEL", s, 0); NotLed("GMC_STAT", s, 2); NotLed("GMC_POSR", s, 2);
    NotLed("SMS_", s, 0); NotLed("GMS_", s, 2); NotLed("SMP_TDEV", s, 0); NotLed("GMP_TDEV", s, 5);
    NotLed("SMP_TAXI", s, 0);
  }

  lemma DispatchSetMotorParam(s: string, i: nat, b: int, v: int)
    requires "SMP_" <= s && IdOf(MotorParamIds, s) == Some(i) && Scan(s, TwoArgs("SMP_" + MotorParamIds[i], Int32Conv)) == [b, v]
    ensures Dispatch(s) == SetMotorParam(i, b, v)
  {
    MotorIdLead(s, i);
    LedSetMotorParam(s);
    SkipMotion(s);
  }

  /** The prefix tests before SMP_ all fail on a line it leads. */
  lemma LedSetMotorParam(s: string)
    requires "SMP_" <= s && |s| > 4 && s[4] != 'T'
    ensures PastMotion(s) && !("SMP_TDEV" <= s) && !("GMP_TDEV" <= s) && !("SMP_TAXI" <= s) &&
      !("GMP_TAXI" <= s)
  {
    NotLed("SMC_MPOS", s, 2); NotLed("SMC_MVEL", s, 2); NotLed("GMC_STAT", s, 0); NotLed("GMC_POSR", s, 0);
    NotLed("SMS_", s, 2); NotLed("GMS_", s, 0); NotLed("SMP_TDEV", s, 4); NotLed("GMP_TDEV", s, 0);
    NotLed("SMP_TAXI", s, 4); NotLed("GMP_TAXI", s, 0);
  }

  lemma DispatchGetMotorParam(s: string, i: nat, b: int)
    requires "GMP_" <= s && IdOf(MotorParamIds, s) == Some(i) && Scan(s, OneArg("GMP_" + MotorParamIds[i])) == [b]
    ensures Dispatch(s) == GetMotorParam(i, b)
  {
    MotorIdLead(s, i);
    LedGetMotorParam(s);
    SkipMotion(s);
  }

  /** The prefix tests before GMP_ all fail on a line it leads. */
  lemma LedGetMotorParam(s: string)
    requires "GMP_" <= s && |s| > 4 && s[4] != 'T'
    ensures PastMotion(s) && !("SMP_TDEV" <= s) && !("GMP_TDEV" <= s) && !("SMP_TAXI" <= s) &&
      !("GMP_TAXI" <= s) && !("SMP_" <= s)
  {
    NotLed("SMC_MPOS", s, 0); NotLed("SMC_MVEL", s, 0); NotLed("GMC_STAT", s, 2); NotLed("GMC_POSR", s, 2);
    NotLed("SMS_", s, 0); NotLed("GMS_", s, 2); NotLed("SMP_TDEV", s, 0); NotLed("GMP_TDEV", s, 4);
    NotLed("SMP_TAXI", s, 0); NotLed("GMP_TAXI", s, 4); NotLed("SMP_", s, 0);
  }

  lemma DispatchSetRemoteParam(s: string, i: nat, b: int, v: int)
    requires "SRP_" <= s && IdOf(RemoteParamIds, s) == Some(i) && Scan(s, TwoArgs("SRP_" + RemoteParamIds[i], Int32Conv)) == [b, v]
    ensures Dispatch(s) == SetRemoteParam(i, b, v)
  {
    LedSetRemoteParam(s);
    SkipMotion(s);
  }

  /** The prefix tests before SRP_ all fail on a line it leads. */
  lemma LedSetRemoteParam(s: string)
    requires "SRP_" <= s
    ensures PastMotion(s) && !("SMP_TDEV" <= s) && !("GMP_TDEV" <= s) && !("SMP_TAXI" <= s) &&
      !("GMP_TAXI" <= s) && !("SMP_" <= s) && !("GMP_" <= s)
  {
    NotLed("SMC_MPOS", s, 1); NotLed("SMC_MVEL", s, 1); NotLed("GMC_STAT", s, 0); NotLed("GMC_POSR", s, 0);
    NotLed("SMS_", s, 1); NotLed("GMS_", s, 0); NotLed("SMP_TDEV", s, 1); NotLed("GMP_TDEV", s, 0);
    NotLed("SMP_TAXI", s, 1); NotLed("GMP_TAXI", s, 0); NotLed("SMP_", s, 1); NotLed("GMP_", s, 0);
  }

  lemma DispatchGetRemoteParam(s: string, i: nat, b: int)
    requires "GRP_" <= s && IdOf(RemoteParamIds, s) == Some(i) && Scan(s, OneArg("GRP_" + RemoteParamIds[i])) == [b]
    ensures Dispatch(s) == GetRemoteParam(i, b)
  {
    LedGetRemoteParam(s);
    SkipMotion(s);
  }

  /** The prefix tests before GRP_ all fail on a line it leads. */
  lemma LedGetRemoteParam(s: string)
    requires "GRP_" <= s
    ensures PastMotion(s) && !("SMP_TDEV" <= s) && !("GMP_TDEV" <= s) && !("SMP_TAXI" <= s) &&
      !("GMP_TAXI" <= s) && !("SMP_" <= s) && !("GMP_" <= s) && !("SRP_" <= s)
  {
    NotLed("SMC_MPOS", s, 0); NotLed("SMC_MVEL", s, 0); NotLed("GMC_STAT", s, 1); NotLed("GMC_POSR", s, 1);
    NotLed("SMS_", s, 0); NotLed("GMS_", s, 1); NotLed("SMP_TDEV", s, 0); NotLed("GMP_TDEV", s, 1);
    NotLed("SMP_TAXI", s, 0); NotLed("GMP_TAXI", s, 1); NotLed("SMP_", s, 0); NotLed("GMP_", s, 1);
    NotLed("SRP_", s, 0);
  }

  lemma DispatchConfigBoard(s: string, b: int)
    requires "SMC_CONF" <= s && Scan(s, OneArg("SMC_CONF")) == [b]
    ensures Dispatch(s) == ConfigBoard(b)
  {
    LedConfigBoard(s);
    SkipMotion(s);
    SkipTables(s);
  }

  /** The prefix tests before SMC_CONF all fail on a line it leads. */
  lemma LedConfigBoard(s: string)
    requires "SMC_CONF" <= s
    ensures PastMotion(s) && PastTables(s)
  {
    NotLed("SMC_MPOS", s, 4); NotLed("SMC_MVEL", s, 4); NotLed("GMC_STAT", s, 0); NotLed("GMC_POSR", s, 0);
    NotLed("SMS_", s, 2); NotLed("GMS_", s, 0); NotLed("SMP_TDEV", s, 2); NotLed("GMP_TDEV", s, 0);
    NotLed("SMP_TAXI", s, 2); NotLed("GMP_TAXI", s, 0); NotLed("SMP_", s, 2); NotLed("GMP_", s, 0);
    NotLed("SRP_", s, 1); NotLed("GRP_", s, 0);
  }

  lemma DispatchClearRegs(s: string, b: int)
    requires "SMC_SCLR" <= s && Scan(s, OneArg("SMC_SCLR")) == [b]
    ensures Dispatch(s) == ClearRegs(b)
  {
    LedClearRegs(s);
    SkipMotion(s);
    SkipTables(s);
  }

  /** The prefix tests before SMC_SCLR all fail on a line it leads. */
  lemma LedClearRegs(s: string)
    requires "SMC_SCLR" <= s
    ensures PastMotion(s) && PastTables(s) && !("SMC_CONF" <= s)
  {
    NotLed("SMC_MPOS", s, 4); NotLed("SMC_MVEL", s, 4); NotLed("GMC_STAT", s, 0); NotLed("GMC_POSR", s, 0);
    NotLed("SMS_", s, 2); NotLed("GMS_", s, 0); NotLed("SMP_TDEV", s, 2); NotLed("GMP_TDEV", s, 0);
    NotLed("SMP_TAXI", s, 2); NotLed("GMP_TAXI", s, 0); NotLed("SMP_", s, 2); NotLed("GMP_", s, 0);
    NotLed("SRP_", s, 1); NotLed("GRP_", s, 0); NotLed("SMC_CONF", s, 4);
  }

  lemma DispatchHome(s: string, b: int)
    requires "SMC_HOME" <= s && Scan(s, OneArg("SMC_HOME")) == [b]
    ensures Dispatch(s) == Home(b)
  {
    LedHome(s);
    SkipMotion(s);
    SkipTables(s);
  }

  /** The prefix tests before SMC_HOME all fail on a line it leads. */
  lemma LedHome(s: string)
    requires "SMC_HOME" <= s
    ensures PastMotion(s) && PastTables(s) && !("SMC_CONF" <= s) && !("SMC_SCLR" <= s)
  {
    NotLed("SMC_MPOS", s, 4); NotLed("SMC_MVEL", s, 4); NotLed("GMC_STAT", s, 0); NotLed("GMC_POSR", s, 0);
    NotLed("SMS_", s, 2); NotLed("GMS_", s, 0); NotLed("SMP_TDEV", s, 2); NotLed("GMP_TDEV", s, 0);
    NotLed("SMP_TAXI", s, 2); NotLed("GMP_TAXI", s, 0); NotLed("SMP_", s, 2); NotLed("GMP_", s, 0);
    NotLed("SRP_", s, 1); NotLed("GRP_", s, 0); NotLed("SMC_CONF", s, 4); NotLed("SMC_SCLR", s, 4);
  }

  lemma DispatchSetReg(s: string, b: int, a: int, v: int)
    requires "SMC_DREG" <= s && Scan(s, DregFormat) == [b, a, v]
    ensures Dispatch(s) == SetReg(b, a, v)
  {
    LedSetReg(s);
    SkipMotion(s);
    SkipTables(s);
  }

  /** The prefix tests before SMC_DREG all fail on a line it leads. */
  lemma LedSetReg(s: string)
    requires "SMC_DREG" <= s
    ensures PastMotion(s) && PastTables(s) && !("SMC_CONF" <= s) && !("SMC_SCLR" <= s) && !("SMC_HOME" <= s)
  {
    NotLed("SMC_MPOS", s, 4); NotLed("SMC_MVEL", s, 4); NotLed("GMC_STAT", s, 0); NotLed("GMC_POSR", s, 0);
    NotLed("SMS_", s, 2); NotLed("GMS_", s, 0); NotLed("SMP_TDEV", s, 2); NotLed("GMP_TDEV", s, 0);
    NotLed("SMP_TAXI", s, 2); NotLed("GMP_TAXI", s, 0); NotLed("SMP_", s, 2); NotLed("GMP_", s, 0);
    NotLed("SRP_", s, 1); NotLed("GRP_", s, 0); NotLed("SMC_CONF", s, 4); NotLed("SMC_SCLR", s, 4);
    NotLed("SMC_HOME", s, 4);
  }

  lemma DispatchGetReg(s: string, b: int, a: int)
    requires "GMC_DREG" <= s && Scan(s, TwoArgs("GMC_DREG", Uint8Conv)) == [b, a]
    ensures Dispatch(s) == GetReg(b, a)
  {
    LedGetReg(s);
    SkipMotion(s);
    SkipTables(s);
  }

  /** The prefix tests before GMC_DREG all fail on a line it leads. */
  lemma LedGetReg(s: string)
    requires "GMC_DREG" <= s
    ensures PastMotion(s) && PastTables(s) && !("SMC_CONF" <= s) && !("SMC_SCLR" <= s) &&
      !("SMC_HOME" <= s) && !("SMC_DREG" <= s)
  {
    NotLed("SMC_MPOS", s, 0); NotLed("SMC_MVEL", s, 0); NotLed("GMC_STAT", s, 4); NotLed("GMC_POSR", s, 4);
    NotLed("SMS_", s, 0); NotLed("GMS_", s, 2); NotLed("SMP_TDEV", s, 0); NotLed("GMP_TDEV", s, 2);
    NotLed("SMP_TAXI", s, 0); NotLed("GMP_TAXI", s, 2); NotLed("SMP_", s, 0); NotLed("GMP_", s, 2);
    NotLed("SRP_", s, 0); NotLed("GRP_", s, 1); NotLed("SMC_CONF", s, 0); NotLed("SMC_SCLR", s, 0);
    NotLed("SMC_HOME", s, 0); NotLed("SMC_DREG", s, 0);
  }

  lemma DispatchIdentify(s: string)
    requires "*IDN?" <= s
    ensures Dispatch(s) == Identify
  {
    LedIdentify(s);
    SkipMotion(s);
    SkipTables(s);
  }

  /** The prefix tests before *IDN? all fail on a line it leads. */
  lemma LedIdentify(s: string)
    requires "*IDN?" <= s
    ensures PastMotion(s) && PastTables(s) && !("SMC_CONF" <= s) && !("SMC_SCLR" <= s) &&
      !("SMC_HOME" <= s) && !("SMC_DREG" <= s) && !("GMC_DREG" <= s)
  {
    NotLed("SMC_MPOS", s, 0); NotLed("SMC_MVEL", s, 0); NotLed("GMC_STAT", s, 0); NotLed("GMC_POSR", s, 0);
    NotLed("SMS_", s, 0); NotLed("GMS_", s, 0); NotLed("SMP_TDEV", s, 0); NotLed("GMP_TDEV", s, 0);
    NotLed("SMP_TAXI", s, 0); NotLed("GMP_TAXI", s, 0); NotLed("SMP_", s, 0); NotLed("GMP_", s, 0);
    NotLed("SRP_", s, 0); NotLed("GRP_", s, 0); NotLed("SMC_CONF", s, 0); NotLed("SMC_SCLR", s, 0);
    NotLed("SMC_HOME", s, 0); NotLed("SMC_DREG", s, 0); NotLed("GMC_DREG", s, 0);
  }

  lemma DispatchNumDevices(s: string)
    requires "GPC_NDEV" <= s
    ensures Dispatch(s) == NumDevices
  {
    LedNumDevices(s);
    SkipMotion(s);
    SkipTables(s);
  }

  /** The prefix tests before GPC_NDEV all fail on a line it leads. */
  lemma LedNumDevices(s: string)
    requires "GPC_NDEV" <= s
    ensures PastMotion(s) && PastTables(s) && !("SMC_CONF" <= s) && !("SMC_SCLR" <= s) &&
      !("SMC_HOME" <= s) && !("SMC_DREG" <= s) && !("GMC_DREG" <= s) && !("*IDN?" <= s)
  {
    NotLed("SMC_MPOS", s, 0); NotLed("SMC_MVEL", s, 0); NotLed("GMC_STAT", s, 1); NotLed("GMC_POSR", s, 1);
    NotLed("SMS_", s, 0); NotLed("GMS_", s, 1); NotLed("SMP_TDEV", s, 0); NotLed("GMP_TDEV", s, 1);
    NotLed("SMP_TAXI", s, 0); NotLed("GMP_TAXI", s, 1); NotLed("SMP_", s, 0); NotLed("GMP_", s, 1);
    NotLed("SRP_", s, 0); NotLed("GRP_", s, 1); NotLed("SMC_CONF", s, 0); NotLed("SMC_SCLR", s, 0);
    NotLed("SMC_HOME", s, 0); NotLed("SMC_DREG", s, 0); NotLed("GMC_DREG", s, 1); NotLed("*IDN?", s, 0);
  }

  lemma DispatchGetVersion(s: string)
    requires "GPC_VERS" <= s
    ensures Dispatch(s) == GetVersion
  {
    LedGetVersion(s);
    SkipMotion(s);
    SkipTables(s);
  }

  /** The prefix tests before GPC_VERS all fail on a line it leads. */
  lemma LedGetVersion(s: string)
    requires "GPC_VERS" <= s
    ensures PastMotion(s) && PastTables(s) && !("SMC_CONF" <= s) && !("SMC_SCLR" <= s) &&
      !("SMC_HOME" <= s) && !("SMC_DREG" <= s) && !("GMC_DREG" <= s) && !("*IDN?" <= s) && !("GPC_NDEV" <= s)
  {
    NotLed("SMC_MPOS", s, 0); NotLed("SMC_MVEL", s, 0); NotLed("GMC_STAT", s, 1); NotLed("GMC_POSR", s, 1);
    NotLed("SMS_", s, 0); NotLed("GMS_", s, 1); NotLed("SMP_TDEV", s, 0); NotLed("GMP_TDEV", s, 1);
    NotLed("SMP_TAXI", s, 0); NotLed("GMP_TAXI", s, 1); NotLed("SMP_", s, 0); NotLed("GMP_", s, 1);
    NotLed("SRP_", s, 0); NotLed("GRP_", s, 1); NotLed("SMC_CONF", s, 0); NotLed("SMC_SCLR", s, 0);
    NotLed("SMC_HOME", s, 0); NotLed("SMC_DREG", s, 0); NotLed("GMC_DREG", s, 1); NotLed("*IDN?", s, 0);
    NotLed("GPC_NDEV", s, 4);
  }

  lemma DispatchErrorQuery(s: string)
    requires "GPC_EMSG" <= s
    ensures Dispatch(s) == ErrorQuery
  {
    LedErrorQuery(s);
    SkipMotion(s);
    SkipTables(s);
  }

  /** The prefix tests before GPC_EMSG all fail on a line it leads. */
  lemma LedErrorQuery(s: string)
    requires "GPC_EMSG" <= s
    ensures PastMotion(s) && PastTables(s) && !("SMC_CONF" <= s) && !("SMC_SCLR" <= s) &&
      !("SMC_HOME" <= s) && !("SMC_DREG" <= s) && !("GMC_DREG" <= s) && !("*IDN?" <= s) &&
      !("GPC_NDEV" <= s) && !("GPC_VERS" <= s)
  {
    NotLed("SMC_MPOS", s, 0); NotLed("SMC_MVEL", s, 0); NotLed("GMC_STAT", s, 1); NotLed("GMC_POSR", s, 1);
    NotLed("SMS_", s, 0); NotLed("GMS_", s, 1); NotLed("SMP_TDEV", s, 0); NotLed("GMP_TDEV", s, 1);
    NotLed("SMP_TAXI", s, 0); NotLed("GMP_TAXI", s, 1); NotLed("SMP_", s, 0); NotLed("GMP_", s, 1);
    NotLed("SRP_", s, 0); NotLed("GRP_", s, 1); NotLed("SMC_CONF", s, 0); NotLed("SMC_SCLR", s, 0);
    NotLed("SMC_HOME", s, 0); NotLed("SMC_DREG", s, 0); NotLed("GMC_DREG", s, 1); NotLed("*IDN?", s, 0);
    NotLed("GPC_NDEV", s, 4); NotLed("GPC_VERS", s, 4);
  }

  lemma DispatchSaveFlash(s: string)
    requires "SPC_SAFL" <= s
    ensures Dispatch(s) == SaveFlash
  {
    LedSaveFlash(s);
    SkipMotion(s);
    SkipTables(s);
  }

  /** The prefix tests before SPC_SAFL all fail on a line it leads. */
  lemma LedSaveFlash(s: string)
    requires "SPC_SAFL" <= s
    ensures PastMotion(s) && PastTables(s) && !("SMC_CONF" <= s) && !("SMC_SCLR" <= s) &&
      !("SMC_HOME" <= s) && !("SMC_DREG" <= s) && !("GMC_DREG" <= s) && !("*IDN?" <= s) &&
      !("GPC_NDEV" <= s) && !("GPC_VERS" <= s) && !("GPC_EMSG" <= s)
  {
    NotLed("SMC_MPOS", s, 1); NotLed("SMC_MVEL", s, 1); NotLed("GMC_STAT", s, 0); NotLed("GMC_POSR", s, 0);
    NotLed("SMS_", s, 1); NotLed("GMS_", s, 0); NotLed("SMP_TDEV", s, 1); NotLed("GMP_TDEV", s, 0);
    NotLed("SMP_TAXI", s, 1); NotLed("GMP_TAXI", s, 0); NotLed("SMP_", s, 1); NotLed("GMP_", s, 0);
    NotLed("SRP_", s, 1); NotLed("GRP_", s, 0); NotLed("SMC_CONF", s, 1); NotLed("SMC_SCLR", s, 1);
    NotLed("SMC_HOME", s, 1); NotLed("SMC_DREG", s, 1); NotLed("GMC_DREG", s, 0); NotLed("*IDN?", s, 0);
    NotLed("GPC_NDEV", s, 0); NotLed("GPC_VERS", s, 0); NotLed("GPC_EMSG", s, 0);
  }

  lemma DecodeMovePos(b: int, v: int)
    requires -128 <= b < 128 && IsInt32(v)
    ensures Decode(Line2("SMC_MPOS", b, v)) == MovePos(b, v)
  {
    var s := Line2("SMC_MPOS", b, v);
    Wire2("SMC_MPOS", Int32Conv, b, v);
    DispatchMovePos(s, b, v);
  }

  lemma DecodeMoveVel(b: int, v: int)
    requires -128 <= b < 128 && IsInt32(v)
    ensures Decode(Line2("SMC_MVEL", b, v)) == MoveVel(b, v)
  {
    var s := Line2("SMC_MVEL", b, v);
    Wire2("SMC_MVEL", Int32Conv, b, v);
    DispatchMoveVel(s, b, v);
  }

  lemma DecodeGetFlags(b: int)
    requires -128 <= b < 128
    ensures Decode(Line1("GMC_STAT", b)) == GetFlags(b)
  {
    var s := Line1("GMC_STAT", b);
    Wire1("GMC_STAT", b);
    DispatchGetFlags(s, b);
  }

  lemma DecodeGetReached(b: int)
    requires -128 <= b < 128
    ensures Decode(Line1("GMC_POSR", b)) == GetReached(b)
  {
    var s := Line1("GMC_POSR", b);
    Wire1("GMC_POSR", b);
    DispatchGetReached(s, b);
  }

  lemma DecodeSetStatus(i: nat, b: int, v: int)
    requires i < MotorsNumStatus && -128 <= b < 128 && IsInt32(v)
    ensures Decode(Line2("SMS_" + AxisDriver.StatusIds[i], b, v)) == SetStatus(i, b, v)
  {
    var key := "SMS_" + AxisDriver.StatusIds[i];
    var s := Line2(key, b, v);
    StatusIdPlain(i);
    Wire2(key, Int32Conv, b, v);
    IdLeads("SMS_", AxisDriver.StatusIds[i], s);
    StatusIdFound(i, s[4..]);
    DispatchSetStatus(s, i, b, v);
  }

  lemma DecodeGetStatus(i: nat, b: int)
    requires i < MotorsNumStatus && -128 <= b < 128
    ensures Decode(Line1("GMS_" + AxisDriver.StatusIds[i], b)) == GetStatus(i, b)
  {
    var key := "GMS_" + AxisDriver.StatusIds[i];
    var s := Line1(key, b);
    StatusIdPlain(i);
    Wire1(key, b);
    IdLeads("GMS_", AxisDriver.StatusIds[i], s);
    StatusIdFound(i, s[4..]);
    DispatchGetStatus(s, i, b);
  }

  lemma DecodeSetDevice(b: int, v: int)
    requires -128 <= b < 128 && IsInt32(v)
    ensures Decode(Line2("SMP_TDEV", b, v)) == SetDevice(b, v)
  {
    var s := Line2("SMP_TDEV", b, v);
    Wire2("SMP_TDEV", Int32Conv, b, v);
    DispatchSetDevice(s, b, v);
  }

  lemma DecodeGetDevice(b: int)
    requires -128 <= b < 128
    ensures Decode(Line1("GMP_TDEV", b)) == GetDevice(b)
  {
    var s := Line1("GMP_TDEV", b);
    Wire1("GMP_TDEV", b);
    DispatchGetDevice(s, b);
  }

  lemma DecodeSetAxis(b: int, v: int)
    requires -128 <= b < 128 && IsInt32(v)
    ensures Decode(Line2("SMP_TAXI", b, v)) == SetAxis(b, v)
  {
    var s := Line2("SMP_TAXI", b, v);
    Wire2("SMP_TAXI", Int32Conv, b, v);
    DispatchSetAxis(s, b, v);
  }

  lemma DecodeGetAxis(b: int)
    requires -128 <= b < 128
    ensures Decode(Line1("GMP_TAXI", b)) == GetAxis(b)
  {
    var s := Line1("GMP_TAXI", b);
    Wire1("GMP_TAXI", b);
    DispatchGetAxis(s, b);
  }

  lemma DecodeSetMotorParam(i: nat, b: int, v: int)
    requires i < MotorsNumParams && -128 <= b < 128 && IsInt32(v)
    ensures Decode(Line2("SMP_" + MotorParamIds[i], b, v)) == SetMotorParam(i, b, v)
  {
    var key := "SMP_" + MotorParamIds[i];
    var s := Line2(key, b, v);
    MotorIdPlain(i);
    Wire2(key, Int32Conv, b, v);
    IdLeads("SMP_", MotorParamIds[i], s);
    MotorIdFound(i, s[4..]);
    DispatchSetMotorParam(s, i, b, v);
  }

  lemma DecodeGetMotorParam(i: nat, b: int)
    requires i < MotorsNumParams && -128 <= b < 128
    ensures Decode(Line1("GMP_" + MotorParamIds[i], b)) == GetMotorParam(i, b)
  {
    var key := "GMP_" + MotorParamIds[i];
    var s := Line1(key, b);
    MotorIdPlain(i);
    Wire1(key, b);
    IdLeads("GMP_", MotorParamIds[i], s);
    MotorIdFound(i, s[4..]);
    DispatchGetMotorParam(s, i, b);
  }

  lemma DecodeSetRemoteParam(i: nat, b: int, v: int)
    requires i < RemoteNumParams && -128 <= b < 128 && IsInt32(v)
    ensures Decode(Line2("SRP_" + RemoteParamIds[i], b, v)) == SetRemoteParam(i, b, v)
  {
    var key := "SRP_" + RemoteParamIds[i];
    var s := Line2(key, b, v);
    RemoteIdPlain(i);
    Wire2(key, Int32Conv, b, v);
    IdLeads("SRP_", RemoteParamIds[i], s);
    RemoteIdFound(i, s[4..]);
    DispatchSetRemoteParam(s, i, b, v);
  }

  lemma DecodeGetRemoteParam(i: nat, b: int)
    requires i < RemoteNumParams && -128 <= b < 128
    ensures Decode(Line1("GRP_" + RemoteParamIds[i], b)) == GetRemoteParam(i, b)
  {
    var key := "GRP_" + RemoteParamIds[i];
    var s := Line1(key, b);
    RemoteIdPlain(i);
    Wire1(key, b);
    IdLeads("GRP_", RemoteParamIds[i], s);
    RemoteIdFound(i, s[4..]);
    DispatchGetRemoteParam(s, i, b);
  }

  lemma DecodeConfigBoard(b: int)
    requires -128 <= b < 128
    ensures Decode(Line1("SMC_CONF", b)) == ConfigBoard(b)
  {
    var s := Line1("SMC_CONF", b);
    Wire1("SMC_CONF", b);
    DispatchConfigBoard(s, b);
  }

  lemma DecodeClearRegs(b: int)
    requires -128 <= b < 128
    ensures Decode(Line1("SMC_SCLR", b)) == ClearRegs(b)
  {
    var s := Line1("SMC_SCLR", b);
    Wire1("SMC_SCLR", b);
    DispatchClearRegs(s, b);
  }

  lemma DecodeHome(b: int)
    requires -128 <= b < 128
    ensures Decode(Line1("SMC_HOME", b)) == Home(b)
  {
    var s := Line1("SMC_HOME", b);
    Wire1("SMC_HOME", b);
    DispatchHome(s, b);
  }

  lemma DecodeSetReg(b: int, a: int, v: int)
    requires -128 <= b < 128 && 0 <= a < 256 && IsInt32(v)
    ensures Decode(Line3("SMC_DREG", b, a, v)) == SetReg(b, a, v)
  {
    var s := Line3("SMC_DREG", b, a, v);
    Wire3(b, a, v);
    DispatchSetReg(s, b, a, v);
  }

  lemma DecodeGetReg(b: int, a: int)
    requires -128 <= b < 128 && 0 <= a < 256
    ensures Decode(Line2("GMC_DREG", b, a)) == GetReg(b, a)
  {
    var s := Line2("GMC_DREG", b, a);
    Wire2("GMC_DREG", Uint8Conv, b, a);
    DispatchGetReg(s, b, a);
  }

  lemma DecodeIdentify()
    ensures Decode("*IDN?") == Identify
  {
    Dispatched("*IDN?");
    DispatchIdentify("*IDN?");
  }

  lemma DecodeNumDevices()
    ensures Decode("GPC_NDEV") == NumDevices
  {
    Dispatched("GPC_NDEV");
    DispatchNumDevices("GPC_NDEV");
  }

  lemma DecodeGetVersion()
    ensures Decode("GPC_VERS") == GetVersion
  {
    Dispatched("GPC_VERS");
    DispatchGetVersion("GPC_VERS");
  }

  lemma DecodeErrorQuery()
    ensures Decode("GPC_EMSG") == ErrorQuery
  {
    Dispatched("GPC_EMSG");
    DispatchErrorQuery("GPC_EMSG");
  }

  lemma DecodeSaveFlash()
    ensures Decode("SPC_SAFL") == SaveFlash
  {
    Dispatched("SPC_SAFL");
    DispatchSaveFlash("SPC_SAFL");
  }

  /** A request the host can write: a decoded command with arguments its conversions store unchanged. */
  predicate Writable(q: Request)
  {
    match q
    case Refuse(_) => false
    case Unrecognized => false
    case MovePos(b, v) => IsInt8(b) && IsInt32(v)
    case MoveVel(b, v) => IsInt8(b) && IsInt32(v)
    case GetFlags(b) => IsInt8(b)
    case GetReached(b) => IsInt8(b)
    case SetStatus(i, b, v) => i < MotorsNumStatus && IsInt8(b) && IsInt32(v)
    case GetStatus(i, b) => i < MotorsNumStatus && IsInt8(b)
    case SetDevice(b, v) => IsInt8(b) && IsInt32(v)
    case GetDevice(b) => IsInt8(b)
    case SetAxis(b, v) => IsInt8(b) && IsInt32(v)
    case GetAxis(b) => IsInt8(b)
    case SetMotorParam(i, b, v) => i < MotorsNumParams && IsInt8(b) && IsInt32(v)
    case GetMotorParam(i, b) => i < MotorsNumParams && IsInt8(b)
    case SetRemoteParam(i, b, v) => i < RemoteNumParams && IsInt8(b) && IsInt32(v)
    case GetRemoteParam(i, b) => i < RemoteNumParams && IsInt8(b)
    case ConfigBoard(b) => IsInt8(b)
    case ClearRegs(b) => IsInt8(b)
    case Home(b) => IsInt8(b)
    case SetReg(b, a, v) => IsInt8(b) && 0 <= a < 256 && IsInt32(v)
    case GetReg(b, a) => IsInt8(b) && 0 <= a < 256
    case _ => true
  }

  predicate IsInt8(b: int) { -128 <= b < 128 }

  /** The line a host writes for a request (without the terminating LF). */
  function Encode(q: Request): string
    requires Writable(q)
  {
    match q
    case MovePos(b, v) => Line2("SMC_MPOS", b, v)
    case MoveVel(b, v) => Line2("SMC_MVEL", b, v)
    case GetFlags(b) => Line1("GMC_STAT", b)
    case GetReached(b) => Line1("GMC_POSR", b)
    case SetStatus(i, b, v) => Line2("SMS_" + AxisDriver.StatusIds[i], b, v)
    case GetStatus(i, b) => Line1("GMS_" + AxisDriver.StatusIds[i], b)
    case SetDevice(b, v) => Line2("SMP_TDEV", b, v)
    case GetDevice(b) => Line1("GMP_TDEV", b)
    case SetAxis(b, v) => Line2("SMP_TAXI", b, v)
    case GetAxis(b) => Line1("GMP_TAXI", b)
    case SetMotorParam(i, b, v) => Line2("SMP_" + MotorParamIds[i], b, v)
    case GetMotorParam(i, b) => Line1("GMP_" + MotorParamIds[i], b)
    case SetRemoteParam(i, b, v) => Line2("SRP_" + RemoteParamIds[i], b, v)
    case GetRemoteParam(i, b) => Line1("GRP_" + RemoteParamIds[i], b)
    case ConfigBoard(b) => Line1("SMC_CONF", b)
    case ClearRegs(b) => Line1("SMC_SCLR", b)
    case Home(b) => Line1("SMC_HOME", b)
    case SetReg(b, a, v) => Line3("SMC_DREG", b, a, v)
    case GetReg(b, a) => Line2("GMC_DREG", b, a)
    case Identify => "*IDN?"
    case NumDevices => "GPC_NDEV"
    case GetVersion => "GPC_VERS"
    case ErrorQuery => "GPC_EMSG"
    case SaveFlash => "SPC_SAFL"
  }

  /** Every command the host can write decodes to itself: the prefix chain and the formats agree. */
  lemma DecodeEncode(q: Request)
    requires Writable(q)
    ensures Decode(Encode(q)) == q
  {
    match q
    case MovePos(b, v) => DecodeMovePos(b, v);
    case MoveVel(b, v) => DecodeMoveVel(b, v);
    case GetFlags(b) => DecodeGetFlags(b);
    case GetReached(b) => DecodeGetReached(b);
    case SetStatus(i, b, v) => DecodeSetStatus(i, b, v);
    case GetStatus(i, b) => DecodeGetStatus(i, b);
    case SetDevice(b, v) => DecodeSetDevice(b, v);
    case GetDevice(b) => DecodeGetDevice(b);
    case SetAxis(b, v) => DecodeSetAxis(b, v);
    case GetAxis(b) => DecodeGetAxis(b);
    case SetMotorParam(i, b, v) => DecodeSetMotorParam(i, b, v);
    case GetMotorParam(i, b) => DecodeGetMotorParam(i, b);
    case SetRemoteParam(i, b, v) => DecodeSetRemoteParam(i, b, v);
    case GetRemoteParam(i, b) => DecodeGetRemoteParam(i, b);
    case ConfigBoard(b) => DecodeConfigBoard(b);
    case ClearRegs(b) => DecodeClearRegs(b);
    case Home(b) => DecodeHome(b);
    case SetReg(b, a, v) => DecodeSetReg(b, a, v);
    case GetReg(b, a) => DecodeGetReg(b, a);
    case Identify => DecodeIdentify();
    case NumDevices => DecodeNumDevices();
    case GetVersion => DecodeGetVersion();
    case ErrorQuery => DecodeErrorQuery();
    case SaveFlash => DecodeSaveFlash();
  }

  /** Distinct requests are written as distinct lines. */
  lemma EncodeInjective(q: Request, p: Request)
    requires Writable(q) && Writable(p) && Encode(q) == Encode(p)
    ensures q == p
  {
    DecodeEncode(q);
    DecodeEncode(p);
  }

  // ---------------------------------------------------------------------------
  // Lines the interpreter refuses
  // ---------------------------------------------------------------------------

  /** Only the bytes before the first NUL are a command: whatever follows it is ignored. */
  lemma StopsAtNul(s: string, t: string)
    requires |s| >= 5 && '\0' !in s
    ensures Decode(s + "\0" + t) == Dispatch(s)
  {
    var x := s + "\0" + t;
    var r := CStr(x);
    assert x[|s|] == '\0';
    assert r == x[..|s|] == s;
  }

  /** A line no prefix leads is an unrecognized command. */
  lemma UnknownCommand(s: string)
    requires |s| >= 5 && '\0' !in s && s[0] != 'S' && s[0] != 'G' && s[0] != '*'
    ensures Decode(s) == Unrecognized
  {
    assert CStr(s) == s;
    NotLed("SMC_MPOS", s, 0); NotLed("SMC_MVEL", s, 0); NotLed("GMC_STAT", s, 0); NotLed("GMC_POSR", s, 0);
    NotLed("SMS_", s, 0); NotLed("GMS_", s, 0);
    SkipMotion(s);
    NotLed("SMP_TDEV", s, 0); NotLed("GMP_TDEV", s, 0); NotLed("SMP_TAXI", s, 0); NotLed("GMP_TAXI", s, 0);
    NotLed("SMP_", s, 0); NotLed("GMP_", s, 0); NotLed("SRP_", s, 0); NotLed("GRP_", s, 0);
    SkipTables(s);
    NotLed("SMC_CONF", s, 0); NotLed("SMC_SCLR", s, 0); NotLed("SMC_HOME", s, 0); NotLed("SMC_DREG", s, 0);
    NotLed("GMC_DREG", s, 0); NotLed("*IDN?", s, 0); NotLed("GPC_NDEV", s, 0); NotLed("GPC_VERS", s, 0);
    NotLed("GPC_EMSG", s, 0); NotLed("SPC_SAFL", s, 0);
  }

  /** A fixed-format command whose arguments do not scan is refused with that command's message. */
  lemma BadHomeFormat(s: string)
    requires "SMC_HOME" <= s && |Scan(s, OneArg("SMC_HOME"))| != 1
    ensures Dispatch(s) == Refuse(Invalid("SMC_HOME"))
  {
    LedHome(s);
    SkipMotion(s);
    SkipTables(s);
  }

  /** A key alone, without its board number, never scans. */
  lemma KeyAloneFails(key: string, c: Conv)
    ensures Scan(key, OneArg(key)) == [] && Scan(key, TwoArgs(key, c)) == []
  {
    assert key[|key|..] == [];
  }

  /** SMP_ with an ID outside the motor parameter list is refused with the whole line in the message. */
  lemma UnknownMotorParam(s: string)
    requires "SMP_" <= s && |s| > 4 && s[4] != 'T' && IdOf(MotorParamIds, s).None?
    ensures Dispatch(s) == Refuse(UnknownParameter(s))
  {
    LedSetMotorParam(s);
    SkipMotion(s);
  }

  lemma UnknownRemoteParam(s: string)
    requires "SRP_" <= s && IdOf(RemoteParamIds, s).None?
    ensures Dispatch(s) == Refuse(UnknownParameter(s))
  {
    LedSetRemoteParam(s);
    SkipMotion(s);
  }

  /** SMS_ with an ID outside the status list is refused with its own fixed message. */
  lemma UnknownStatus(s: string)
    requires "SMS_" <= s && IdOf(AxisDriver.StatusIds, s).None?
    ensures Dispatch(s) == Refuse("Unrecognized SMS_ parameter")
  {
    LedSetStatus(s);
  }

  // ---------------------------------------------------------------------------
  // Replies
  // ---------------------------------------------------------------------------

  /** ReportErrorCode: ERROR=<code>. */
  function Code(err: int): string { "ERROR=" + IntToDec(err) }

  /** The format a host reads an error-code reply with. */
  const CodeFormat: seq<Piece> := [Lit("ERROR="), Num(Int32Conv)]

  /** A query's reply: <name><board>=<value> when the component answered, else its error code. */
  function Answer(name: string, b: int, err: int, v: int): string
  {
    if err != ErrNone then Code(err) else RemoteRelay.CommandText(name, b, v)
  }

  /** The reply to GPC_NDEV. */
  function DevicesReply(): string { "PC_NDEV=" + IntToDec(MaxNumMotors) }

  /** The reply to GPC_VERS. */
  function VersionReply(): string { "PC_VERS=" + IntToDec(Version) }

  /** A host reads the code of an error-code reply back. */
  lemma CodeScans(err: int)
    requires IsInt32(err)
    ensures Scan(Code(err), CodeFormat) == [err]
  {
    var fmt := CodeFormat;
    assert Representable(fmt, [err]) by {
      assert Convert(Int32Conv, err) == err;
      assert Representable(fmt[2..], []);
    }
    assert fmt[1..][1..] == [];
    assert Render(fmt[1..], [err]) == IntToDec(err) + Render(fmt[2..], []);
    assert Render(fmt, [err]) + "" == Code(err);
    ScanRender(fmt, [err], "");
  }

  /** A host reads the board and the value of an accepted query's reply back. */
  lemma AnswerScans(name: string, b: int, v: int)
    requires IsInt8(b) && IsInt32(v)
    ensures Scan(Answer(name, b, ErrNone, v), RemoteRelay.KeyFormat(name)) == [b, v]
  {
    RemoteRelay.CommandTextScans(name, b, v);
  }

  /**
   * A reply is an error code exactly when the component refused: no query's
   * reply name starts with E.
   */
  lemma AnswerIsCode(name: string, b: int, err: int, v: int)
    requires name != [] && name[0] != 'E'
    ensures "ERROR=" <= Answer(name, b, err, v) <==> err != ErrNone
  {
    if err != ErrNone {
      Leads("ERROR=", IntToDec(err));
    } else {
      var t := Answer(name, b, err, v);
      assert t[0] == name[0];
      NotLed("ERROR=", t, 0);
    }
  }

  // ---------------------------------------------------------------------------
  // The error report
  // ---------------------------------------------------------------------------

  /** One component's part of the PC_EMSG reply: its tag and the message it printed. */
  datatype Section = Section(tag: string, text: string)

  /**
   * The parts ReportErrorMsg prints, in its order: serial, parameters, motors,
   * remote, one for each component whose error flag is up. `mot` is the text
   * Motors::PrintErrorMsg prints when its flag is up.
   */
  function Sections(serial: Latch, prm: Latch, mot: Option<string>, rem: Latch): (ss: seq<Section>)
    ensures ss == [] <==> !serial.flag && !prm.flag && mot.None? && !rem.flag
    ensures serial.flag ==> ss[0] == Section("Serial: ", serial.msg)
  {
    (if serial.flag then [Section("Serial: ", serial.msg)] else [])
    + (if prm.flag then [Section("Params: ", prm.msg)] else [])
    + (if mot.Some? then [Section("Motors: ", mot.value)] else [])
    + (if rem.flag then [Section("Remote: ", rem.msg)] else [])
  }

  /** The parts one after the other, "; " between two. */
  function Joined(ss: seq<Section>): string
    decreases |ss|
  {
    if ss == [] then ""
    else Joined(ss[..|ss| - 1]) + (if |ss| == 1 then "" else "; ") + ss[|ss| - 1].tag + ss[|ss| - 1].text
  }

  /** The PC_EMSG line. */
  function ErrorLine(ss: seq<Section>): string
  {
    "PC_EMSG=" + (if ss == [] then "No error" else Joined(ss))
  }

  /** Joined output opens with the first part. */
  lemma {:induction false} JoinedOpens(ss: seq<Section>)
    requires ss != []
    ensures ss[0].tag + ss[0].text <= Joined(ss)
    decreases |ss|
  {
    var init := ss[..|ss| - 1];
    if |ss| > 1 {
      JoinedOpens(init);
      assert init[0] == ss[0];
      var last := ss[|ss| - 1];
      PrefixGrows(ss[0].tag + ss[0].text, Joined(init), "; " + last.tag + last.text);
      assert Joined(ss) == Joined(init) + ("; " + last.tag + last.text);
    } else {
      assert Joined(ss) == Joined([]) + "" + ss[0].tag + ss[0].text;
    }
  }

  /** "No error" is printed exactly when no component's flag is up. */
  lemma ErrorLineClear(serial: Latch, prm: Latch, mot: Option<string>, rem: Latch)
    ensures ErrorLine(Sections(serial, prm, mot, rem)) == "PC_EMSG=No error"
      <==> !serial.flag && !prm.flag && mot.None? && !rem.flag
  {
    var ss := Sections(serial, prm, mot, rem);
    if ss != [] {
      FirstTag(serial, prm, mot, rem);
      ErrorLineOpens(ss);
    }
  }

  /** The first part's tag is one of the four component names, never "No error"'s 'N'. */
  lemma FirstTag(serial: Latch, prm: Latch, mot: Option<string>, rem: Latch)
    requires Sections(serial, prm, mot, rem) != []
    ensures var t := Sections(serial, prm, mot, rem)[0].tag; |t| > 0 && t[0] != 'N'
  {
    var ss := Sections(serial, prm, mot, rem);
    if serial.flag {
    } else if prm.flag {
      assert ss[0] == Section("Params: ", prm.msg);
    } else if mot.Some? {
      assert ss[0] == Section("Motors: ", mot.value);
    } else {
      assert ss[0] == Section("Remote: ", rem.msg);
    }
  }

  /** A line with parts starts its text with the first part's tag. */
  lemma ErrorLineOpens(ss: seq<Section>)
    requires ss != [] && |ss[0].tag| > 0 && ss[0].tag[0] != 'N'
    ensures ErrorLine(ss) != "PC_EMSG=No error"
  {
    JoinedOpens(ss);
    var j := Joined(ss);
    assert j[0] == ss[0].tag[0];
    assert ErrorLine(ss)[8] == j[0];
  }

  /** A pending serial error is reported first, right after the tag. */
  lemma ErrorLineSerialFirst(serial: Latch, prm: Latch, mot: Option<string>, rem: Latch)
    requires serial.flag
    ensures "PC_EMSG=Serial: " + serial.msg <= ErrorLine(Sections(serial, prm, mot, rem))
  {
    var ss := Sections(serial, prm, mot, rem);
    JoinedOpens(ss);
    var p := "Serial: " + serial.msg;
    var j := Joined(ss);
    assert ErrorLine(ss) == "PC_EMSG=" + j;
    assert ("PC_EMSG=" + j)[..8 + |p|] == "PC_EMSG=" + j[..|p|];
    assert "PC_EMSG=Serial: " + serial.msg == "PC_EMSG=" + p;
  }

  /** Appending a part extends the line the way ReportErrorMsg prints it. */
  lemma JoinedAppend(ss: seq<Section>, x: Section)
    ensures Joined(ss + [x]) == Joined(ss) + (if ss == [] then "" else "; ") + x.tag + x.text
  {
    assert (ss + [x])[..|ss|] == ss;
  }

  /** IdFrom finds entry i when it matches and nothing between k and i does. */
  lemma {:induction false} IdFromFinds(ids: seq<string>, key: string, k: nat, i: nat)
    requires k <= i < |ids| && AxisDriver.SameId(ids[i], key)
    requires forall j :: k <= j < i ==> !AxisDriver.SameId(ids[j], key)
    ensures IdFrom(ids, key, k) == Some(i)
    decreases i - k
  {
    if k < i {
      IdFromFinds(ids, key, k + 1, i);
    }
  }

  /** Entry i of a table of four-character IDs that differ from every earlier one is found by its own ID. */
  lemma IdFound(ids: seq<string>, i: nat, key: string)
    requires i < |ids| && |ids[i]| == 4 && AxisDriver.Id4(key) == ids[i]
    requires forall j :: 0 <= j < i ==> |ids[j]| == 4 && ids[j] != ids[i]
    ensures IdFrom(ids, key, 0) == Some(i)
  {
    IdFromFinds(ids, key, 0, i);
  }

  /** Two status IDs differ in one of their first two characters. */
  lemma StatusIdsDiffer(j: nat, i: nat)
    requires j < i < MotorsNumStatus
    ensures AxisDriver.StatusIds[j][0] != AxisDriver.StatusIds[i][0] || AxisDriver.StatusIds[j][1] != AxisDriver.StatusIds[i][1]
  {
  }

  /** Two remote IDs differ in one of their first two characters. */
  lemma RemoteIdsDiffer(j: nat, i: nat)
    requires j < i < RemoteNumParams
    ensures RemoteParamIds[j][0] != RemoteParamIds[i][0] || RemoteParamIds[j][1] != RemoteParamIds[i][1]
  {
  }

  /** The status IDs differ: each finds its own entry. */
  lemma StatusIdFound(i: nat, key: string)
    requires i < MotorsNumStatus && AxisDriver.Id4(key) == AxisDriver.StatusIds[i]
    ensures IdFrom(AxisDriver.StatusIds, key, 0) == Some(i)
  {
    var ids := AxisDriver.StatusIds;
    forall j | 0 <= j < i ensures |ids[j]| == 4 && ids[j] != ids[i] {
      StatusIdsDiffer(j, i);
    }
    IdFound(ids, i, key);
  }

  /** The remote IDs differ: each finds its own entry. */
  lemma RemoteIdFound(i: nat, key: string)
    requires i < RemoteNumParams && AxisDriver.Id4(key) == RemoteParamIds[i]
    ensures IdFrom(RemoteParamIds, key, 0) == Some(i)
  {
    forall j | 0 <= j < i ensures |RemoteParamIds[j]| == 4 && RemoteParamIds[j] != RemoteParamIds[i] {
      RemoteIdsDiffer(j, i);
    }
    IdFound(RemoteParamIds, i, key);
  }

  /** The ID tables hold four-character C strings. */
  lemma StatusIdPlain(i: nat)
    requires i < MotorsNumStatus
    ensures |AxisDriver.StatusIds[i]| == 4 && '\0' !in "GMS_" + AxisDriver.StatusIds[i] && '\0' !in "SMS_" + AxisDriver.StatusIds[i]
  {
  }

  lemma RemoteIdPlain(i: nat)
    requires i < RemoteNumParams
    ensures |RemoteParamIds[i]| == 4 && '\0' !in "GRP_" + RemoteParamIds[i] && '\0' !in "SRP_" + RemoteParamIds[i]
  {
  }

  /** No motor parameter ID starts with T, so none is taken for TDEV or TAXI. */
  lemma MotorIdShape(i: nat)
    requires i < MotorsNumParams
    ensures |MotorParamIds[i]| == 4 && '\0' !in MotorParamIds[i] && MotorParamIds[i][0] != 'T'
  {
  }

  lemma MotorIdPlain(i: nat)
    requires i < MotorsNumParams
    ensures |MotorParamIds[i]| == 4 && '\0' !in "GMP_" + MotorParamIds[i] && '\0' !in "SMP_" + MotorParamIds[i]
  {
    MotorIdShape(i);
  }

  /** A motor ID after SMP_ or GMP_ leaves the fifth character different from TDEV's and TAXI's. */
  lemma MotorIdLead(s: string, i: nat)
    requires i < MotorsNumParams && |s| >= 4 && AxisDriver.SameId(MotorParamIds[i], s[4..])
    ensures |s| > 4 && s[4] != 'T'
  {
    MotorIdShape(i);
    assert s[4..][..4] == MotorParamIds[i];
    assert s[4] == s[4..][..4][0];
  }

  /** The first characters two motor parameter IDs differ in. */
  predicate Distinct4(a: string, b: string)
    requires |a| == 4 && |b| == 4
  {
    a[0] != b[0] || a[1] != b[1] || a[2] != b[2] || a[3] != b[3]
  }

  lemma MotorIdsDifferLow(j: nat, i: nat)
    requires j < i < 17
    ensures Distinct4(MotorParamIds[j], MotorParamIds[i])
  {
  }

  lemma MotorIdsDifferAcross(j: nat, i: nat)
    requires j < 17 <= i < MotorsNumParams
    ensures Distinct4(MotorParamIds[j], MotorParamIds[i])
  {
  }

  lemma MotorIdsDifferHigh(j: nat, i: nat)
    requires 17 <= j < i < MotorsNumParams
    ensures Distinct4(MotorParamIds[j], MotorParamIds[i])
  {
  }

  /** The 34 motor parameter IDs differ: each finds its own entry. */
  lemma MotorIdFound(i: nat, key: string)
    requires i < MotorsNumParams && AxisDriver.Id4(key) == MotorParamIds[i]
    ensures IdFrom(MotorParamIds, key, 0) == Some(i)
  {
    MotorIdShape(i);
    forall j | 0 <= j < i ensures |MotorParamIds[j]| == 4 && MotorParamIds[j] != MotorParamIds[i] {
      MotorIdShape(j);
      if i < 17 {
        MotorIdsDifferLow(j, i);
      } else if j < 17 {
        MotorIdsDifferAcross(j, i);
      } else {
        MotorIdsDifferHigh(j, i);
      }
    }
    IdFound(MotorParamIds, i, key);
  }
}
