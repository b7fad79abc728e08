// The controller's end of the UART link to the remote unit (RemoteComm): the
// checks on outgoing commands, the frames written to Serial1, the periodic
// position report, and the POS, VEL and ACCREQ commands the remote sends back.
module RemoteRelay {
  import opened Common
  import opened Text
  import Frame
  import opened ParameterStore
  import opened AxisDriver
  import opened Orchestrator
  import opened Motion

  // ---------------------------------------------------------------------------
  // The state the relay reads and writes
  // ---------------------------------------------------------------------------

  /**
   * Everything the relay's operations touch, gathered in one record: the
   * relay's error latch, repeatPosSet, the frames written to Serial1 so far,
   * the state of boards 0 to 3, the Motors summary flag, the parameter
   * store's error latch and its remote-parameter table.
   */
  datatype Relay = Relay(latch: Latch, repeat: seq<bool>, tx: seq<string>, axes: seq<Axis>,
                         flag: bool, plat: Latch, rprm: seq<seq<int>>)

  predicate Fits(st: Relay)
  {
    |st.repeat| == MaxNumMotors && |st.axes| == MaxNumMotors && IsTable(st.rprm, RemoteNumParams)
  }

  /** A command's status and the state after it. */
  datatype Sent = Sent(err: int, st: Relay)

  /** IsActiveMotor, read from the board contexts. */
  predicate Live(cs: seq<Ctx>, b: int)
    requires Boards(cs)
  {
    ValidBoard(b) && Active(cs[b])
  }

  // ---------------------------------------------------------------------------
  // Outgoing commands
  // ---------------------------------------------------------------------------

  /** strncmp(cmd, "ENAB", 4) == 0 */
  predicate Enab(cmd: string) { "ENAB" <= cmd }

  /** The payload "%s%hhi=%i" of a command for one channel. */
  function CommandText(key: string, ch: int, v: int): string
  {
    key + IntToDec(ch) + "=" + IntToDec(v)
  }

  /** The sscanf format the receiving side reads a CommandText with. */
  function KeyFormat(key: string): seq<Piece>
  {
    [Lit(key), Num(Int8Conv), Lit("="), Num(Int32Conv)]
  }

  /** IsValueInRange's message. */
  function RangeMessage(name: string, v: int): string
  {
    "Value " + name + " out of range (" + IntToDec(v) + ")"
  }

  /**
   * The checks of SendRemoteCommand, in their order: the channel range (ENAB
   * admits -1 up to MAXNUMMOTORS, the others 0..3), then ENAB 0..1, JDIR of
   * absolute value 1, JMAX 0..RMXV of that board, EDIR of absolute value 1. The first failing
   * check gives the message recorded; ESTP and unknown keys pass unchecked.
   */
  function CheckCommand(cs: seq<Ctx>, cmd: string, ch: int, v: int): Option<string>
    requires Boards(cs)
  {
    var c := CheckChannel(cmd, ch);
    if c.Some? then c else CheckValue(cs, cmd, ch, v)
  }

  /** The channel check: ENAB admits -1 up to MAXNUMMOTORS, the other keys a board. */
  function CheckChannel(cmd: string, ch: int): Option<string>
  {
    if Enab(cmd) then
      if !(-1 <= ch <= MaxNumMotors) then Some(RangeMessage("channel", ch)) else None
    else if !(0 <= ch <= MaxNumMotors - 1) then Some(RangeMessage("channel", ch))
    else None
  }

  /** The value check of a command whose channel passed. */
  function CheckValue(cs: seq<Ctx>, cmd: string, ch: int, v: int): Option<string>
    requires Boards(cs) && CheckChannel(cmd, ch).None?
  {
    if Enab(cmd) then
      if !(0 <= v <= 1) then Some(RangeMessage(cmd, v)) else None
    else if "JDIR" <= cmd then
      if CAbs(v) != 1 then Some(RangeMessage(cmd, CAbs(v))) else None
    else if "JMAX" <= cmd then
      if !(0 <= v <= cs[ch].prm[RMXV]) then Some(RangeMessage(cmd, v)) else None
    else if "EDIR" <= cmd then
      if CAbs(v) != 1 then Some(RangeMessage(cmd, CAbs(v))) else None
    else None
  }

  /** The commands the remote accepts, stated without the order of the checks. */
  predicate Acceptable(cs: seq<Ctx>, cmd: string, ch: int, v: int)
    requires Boards(cs)
  {
    (Enab(cmd) ==> -1 <= ch <= MaxNumMotors && (v == 0 || v == 1))
    && (!Enab(cmd) ==> ValidBoard(ch))
    && ("JDIR" <= cmd || "EDIR" <= cmd ==> v == 1 || v == -1)
    && ("JMAX" <= cmd && ValidBoard(ch) ==> 0 <= v <= cs[ch].prm[RMXV])
  }

  lemma CheckCommandAccepts(cs: seq<Ctx>, cmd: string, ch: int, v: int)
    requires Boards(cs)
    ensures CheckCommand(cs, cmd, ch, v).None? <==> Acceptable(cs, cmd, ch, v)
  {
    if "JMAX" <= cmd {
      assert cmd[0] == 'J';
      assert !Enab(cmd) && !("JDIR" <= cmd) && !("EDIR" <= cmd) by {
        assert "JMAX"[1] != "JDIR"[1] && "JMAX"[0] != "EDIR"[0] && "JMAX"[0] != "ENAB"[0];
      }
    }
    if "JDIR" <= cmd || "EDIR" <= cmd {
      assert !Enab(cmd) by {
        if "JDIR" <= cmd { assert cmd[0] == "JDIR"[0] != "ENAB"[0]; } else { assert cmd[1] == "EDIR"[1] != "ENAB"[1]; }
      }
    }
  }

  /** The active boards from z on, in ascending order. */
  function ActiveFrom(cs: seq<Ctx>, z: nat): (bs: seq<int>)
    requires Boards(cs) && z <= MaxNumMotors
    ensures forall i :: 0 <= i < |bs| ==> z <= bs[i] < MaxNumMotors
    decreases MaxNumMotors - z
  {
    if z == MaxNumMotors then [] else (if Active(cs[z]) then [z] else []) + ActiveFrom(cs, z + 1)
  }

  /** The active boards from z on are exactly the members of ActiveFrom(cs, z). */
  lemma {:induction false} ActiveFromMembers(cs: seq<Ctx>, z: nat)
    requires Boards(cs) && z <= MaxNumMotors
    ensures forall b :: b in ActiveFrom(cs, z) <==> z <= b < MaxNumMotors && Active(cs[b])
    decreases MaxNumMotors - z
  {
    if z < MaxNumMotors {
      ActiveFromMembers(cs, z + 1);
      var rest := ActiveFrom(cs, z + 1);
      var head := if Active(cs[z]) then [z] else [];
      assert ActiveFrom(cs, z) == head + rest;
      forall b
        ensures b in ActiveFrom(cs, z) <==> z <= b < MaxNumMotors && Active(cs[b])
      {
        assert b in head + rest <==> b in head || b in rest;
      }
    } else {
      assert ActiveFrom(cs, z) == [];
    }
  }

  /** The active boards are listed in ascending order. */
  /** Each board number is below the next one. */
  predicate Ascending(bs: seq<int>)
    decreases |bs|
  {
    |bs| <= 1 || (bs[0] < bs[1] && Ascending(bs[1..]))
  }

  /** The active boards are listed in ascending order, each one once. */
  lemma {:induction false} ActiveFromAscending(cs: seq<Ctx>, z: nat)
    requires Boards(cs) && z <= MaxNumMotors
    ensures Ascending(ActiveFrom(cs, z))
    decreases MaxNumMotors - z
  {
    if z < MaxNumMotors {
      ActiveFromAscending(cs, z + 1);
      var rest := ActiveFrom(cs, z + 1);
      if Active(cs[z]) {
        var bs := ActiveFrom(cs, z);
        assert bs == [z] + rest;
        assert bs[1..] == rest;
        if |rest| > 0 {
          assert bs[1] == rest[0];
        }
      } else {
        assert ActiveFrom(cs, z) == rest;
      }
    }
  }

  lemma ConcatAssoc<T>(a: seq<T>, b: seq<T>, c: seq<T>)
    ensures (a + b) + c == a + (b + c)
  {
  }

  /** One step of the broadcast: board z contributes a frame exactly when it is active. */
  lemma FramesStep(cs: seq<Ctx>, cmd: string, v: int, z: nat)
    requires Boards(cs) && z < MaxNumMotors
    ensures FramesFor(cmd, v, ActiveFrom(cs, z)) ==
      (if Active(cs[z]) then [Frame.Encode(CommandText(cmd, z, v))] else []) + FramesFor(cmd, v, ActiveFrom(cs, z + 1))
  {
    var rest := ActiveFrom(cs, z + 1);
    if Active(cs[z]) {
      assert ActiveFrom(cs, z) == [z] + rest;
      assert ([z] + rest)[1..] == rest;
    } else {
      assert ActiveFrom(cs, z) == rest;
    }
  }

  /** One frame of the command per board of `bs`, in that order. */
  function FramesFor(cmd: string, v: int, bs: seq<int>): (fs: seq<string>)
    ensures |fs| == |bs| && forall i :: 0 <= i < |bs| ==> fs[i] == Frame.Encode(CommandText(cmd, bs[i], v))
    decreases |bs|
  {
    if bs == [] then [] else [Frame.Encode(CommandText(cmd, bs[0], v))] + FramesFor(cmd, v, bs[1..])
  }

  /**
   * The frames an accepted command writes to Serial1: for channel -1 of ENAB
   * one per active board, otherwise one for the channel.
   */
  function Transmission(cs: seq<Ctx>, cmd: string, ch: int, v: int): seq<string>
    requires Boards(cs)
  {
    if Enab(cmd) && ch == -1 then FramesFor(cmd, v, ActiveFrom(cs, 0)) else [Frame.Encode(CommandText(cmd, ch, v))]
  }

  /**
   * SendRemoteCommand: a refused command records its message and sends
   * nothing; an accepted ENAB first hands the addressed boards to the remote
   * (value 1) or back (value 0), then the frames are written.
   */
  function Send(cs: seq<Ctx>, st: Relay, cmd: string, ch: int, v: int): (s: Sent)
    requires Boards(cs) && Fits(st)
    ensures Fits(s.st)
  {
    match CheckCommand(cs, cmd, ch, v)
    case Some(msg) => Sent(ErrRemote, st.(latch := Raise(st.latch, msg)))
    case None => Sent(ErrNone, Deliver(cs, st, cmd, ch, v))
  }

  /** An accepted command: ENAB hands the addressed boards over, and the frames are written. */
  function Deliver(cs: seq<Ctx>, st: Relay, cmd: string, ch: int, v: int): (t: Relay)
    requires Boards(cs) && Fits(st)
    ensures Fits(t)
  {
    st.(axes := if Enab(cmd) then Handover(cs, st.axes, ch, v != 0) else st.axes,
        tx := st.tx + Transmission(cs, cmd, ch, v))
  }

  /** A command goes through exactly when it is acceptable; the remote-parameter table is never touched. */
  lemma SendOutcome(cs: seq<Ctx>, st: Relay, cmd: string, ch: int, v: int)
    requires Boards(cs) && Fits(st)
    ensures var s := Send(cs, st, cmd, ch, v);
      (s.err == ErrNone <==> Acceptable(cs, cmd, ch, v)) && (s.err == ErrNone || s.err == ErrRemote) && s.st.rprm == st.rprm
  {
    CheckCommandAccepts(cs, cmd, ch, v);
  }

  /** A refused command changes nothing but the relay's latch. */
  lemma SendRefused(cs: seq<Ctx>, st: Relay, cmd: string, ch: int, v: int)
    requires Boards(cs) && Fits(st) && !Acceptable(cs, cmd, ch, v)
    ensures var s := Send(cs, st, cmd, ch, v);
      s.err == ErrRemote && s.st == st.(latch := s.st.latch) && s.st.latch.flag
  {
    CheckCommandAccepts(cs, cmd, ch, v);
  }

  /** An accepted command keeps the latch and sends its frames, exactly one for a single channel. */
  lemma SendAccepted(cs: seq<Ctx>, st: Relay, cmd: string, ch: int, v: int)
    requires Boards(cs) && Fits(st) && Acceptable(cs, cmd, ch, v) && !(Enab(cmd) && ch == -1)
    ensures var s := Send(cs, st, cmd, ch, v);
      s.err == ErrNone && s.st.latch == st.latch && s.st.tx == st.tx + [Frame.Encode(CommandText(cmd, ch, v))]
  {
    CheckCommandAccepts(cs, cmd, ch, v);
  }

  /** IntToDec writes digits and a minus sign only. */
  lemma DecimalIsPlain(x: int)
    ensures forall i :: 0 <= i < |IntToDec(x)| ==> IsDigit(IntToDec(x)[i]) || IntToDec(x)[i] == '-'
  {
    if x < 0 {
      var d := NatToDec(-x);
      assert IntToDec(x) == "-" + d;
      assert forall i :: 1 <= i < |IntToDec(x)| ==> IntToDec(x)[i] == d[i - 1];
    }
  }

  /** The remote parameter IDs are C strings. */
  lemma RemoteIdsPlain(idx: nat)
    requires idx < RemoteNumParams
    ensures '\0' !in RemoteParamIds[idx]
  {
  }

  /** A command for a key without NUL is its own C string. */
  lemma CommandTextCStr(key: string, ch: int, v: int)
    requires '\0' !in key
    ensures CStr(CommandText(key, ch, v)) == CommandText(key, ch, v)
  {
    DecimalIsPlain(ch);
    DecimalIsPlain(v);
    var t := CommandText(key, ch, v);
    var a, b := IntToDec(ch), IntToDec(v);
    assert t == key + a + "=" + b;
    forall i | 0 <= i < |t| ensures t[i] != '\0' {
      if i < |key| { assert t[i] == key[i]; }
      else if i < |key| + |a| { assert t[i] == a[i - |key|]; }
      else if i > |key| + |a| { assert t[i] == b[i - |key| - |a| - 1]; }
    }
  }

  /** A command for a key free of separators holds no '|', '>', ';' or NUL. */
  lemma CommandTextPlain(key: string, ch: int, v: int)
    requires '|' !in key && '>' !in key && ';' !in key && '\0' !in key
    ensures var t := CommandText(key, ch, v); '|' !in t && '>' !in t && ';' !in t && '\0' !in t
  {
    DecimalIsPlain(ch);
    DecimalIsPlain(v);
    var t := CommandText(key, ch, v);
    var c, x := IntToDec(ch), IntToDec(v);
    assert t == key + c + "=" + x;
    forall i | 0 <= i < |t| ensures t[i] != '|' && t[i] != '>' && t[i] != ';' && t[i] != '\0' {
      if i < |key| { assert t[i] == key[i]; }
      else if i < |key| + |c| { assert t[i] == c[i - |key|]; }
      else if i == |key| + |c| { assert t[i] == '='; }
      else { assert t[i] == x[i - |key| - |c| - 1]; }
    }
  }

  /** A transmitted command passes the receiver's checksum test with its payload intact. */
  lemma CommandFrameDelivered(key: string, ch: int, v: int)
    requires '|' !in key && '>' !in key && ';' !in key && '\0' !in key
    ensures Frame.ValidateChecksum(Frame.Received(CommandText(key, ch, v))) == Some(CommandText(key, ch, v))
  {
    CommandTextPlain(key, ch, v);
    Frame.FrameRoundTrip(CommandText(key, ch, v));
  }

  /** sscanf with "KEY%hhi=%i" reads back the channel and the value. */
  lemma CommandTextScans(key: string, ch: int, v: int)
    requires -128 <= ch < 128 && IsInt32(v)
    ensures Scan(CommandText(key, ch, v), KeyFormat(key)) == [ch, v]
  {
    var fmt := KeyFormat(key);
    assert WellSeparated(fmt);
    assert Representable(fmt, [ch, v]) by {
      assert Convert(Int8Conv, ch) == ch;
      assert Convert(Int32Conv, v) == v;
      assert Representable(fmt[3..], [v]) by { assert Representable(fmt[4..], []); }
    }
    assert fmt[1..][1..][1..][1..] == [];
    assert Render(fmt[3..], [v]) == IntToDec(v) + Render(fmt[4..], []);
    assert Render(fmt[2..], [v]) == "=" + Render(fmt[3..], [v]);
    assert Render(fmt[1..], [ch, v]) == IntToDec(ch) + Render(fmt[2..], [v]);
    assert Render(fmt, [ch, v]) + "" == CommandText(key, ch, v);
    ScanRender(fmt, [ch, v], "");
  }

  // ---------------------------------------------------------------------------
  // Config: the remote-parameter table sent to the remote
  // ---------------------------------------------------------------------------

  /**
   * Config for board z from parameter idx on: each entry of the board's row is
   * sent under its ID; the first refusal records "Unable to set remote
   * parameter" (dropped when the refusal's own message is pending) and ends
   * the row with ERR_Remote.
   */
  function SendRow(cs: seq<Ctx>, st: Relay, z: int, idx: nat): (s: Sent)
    requires Boards(cs) && Fits(st) && ValidBoard(z) && idx <= RemoteNumParams
    ensures Fits(s.st)
    decreases RemoteNumParams - idx
  {
    if idx == RemoteNumParams then Sent(ErrNone, st)
    else
      var s := SendEntry(cs, st, z, idx);
      if s.err != ErrNone then s else SendRow(cs, s.st, z, idx + 1)
  }

  /** One entry of the row: GetRemoteParams, SendRemoteCommand, and the message when it fails. */
  function SendEntry(cs: seq<Ctx>, st: Relay, z: int, idx: nat): (s: Sent)
    requires Boards(cs) && Fits(st) && ValidBoard(z) && idx < RemoteNumParams
    ensures Fits(s.st)
  {
    var s := Send(cs, st, RemoteParamIds[idx], z, st.rprm[z][idx]);
    if s.err != ErrNone then Sent(ErrRemote, s.st.(latch := Raise(s.st.latch, "Unable to set remote parameter"))) else s
  }

  /** One step of SendRow: the entry at idx, then the rest of the row when it was accepted. */
  lemma SendRowStep(cs: seq<Ctx>, st: Relay, z: int, idx: nat)
    requires Boards(cs) && Fits(st) && ValidBoard(z) && idx < RemoteNumParams
    ensures SendEntry(cs, st, z, idx).err == ErrNone ==>
      SendRow(cs, st, z, idx) == SendRow(cs, SendEntry(cs, st, z, idx).st, z, idx + 1)
    ensures SendEntry(cs, st, z, idx).err != ErrNone ==> SendRow(cs, st, z, idx) == SendEntry(cs, st, z, idx)
  {
  }

  /** Config(-1) from board z on: the rows of the active boards in order, up to the first failure. */
  function SendTables(cs: seq<Ctx>, st: Relay, z: nat): (s: Sent)
    requires Boards(cs) && Fits(st) && z <= MaxNumMotors
    ensures Fits(s.st)
    decreases MaxNumMotors - z
  {
    if z == MaxNumMotors then Sent(ErrNone, st)
    else if !Active(cs[z]) then SendTables(cs, st, z + 1)
    else
      var s := SendRow(cs, st, z, 0);
      if s.err != ErrNone then s else SendTables(cs, s.st, z + 1)
  }

  /** Every entry of board z's row from idx on is a command the remote accepts. */
  predicate RowAcceptable(cs: seq<Ctx>, rprm: seq<seq<int>>, z: int, idx: nat)
    requires Boards(cs) && IsTable(rprm, RemoteNumParams) && ValidBoard(z)
  {
    forall k :: idx <= k < RemoteNumParams ==> Acceptable(cs, RemoteParamIds[k], z, rprm[z][k])
  }

  /** A row goes through exactly when all its entries are acceptable; it fails with ERR_Remote otherwise. */
  lemma {:induction false} SendRowSucceeds(cs: seq<Ctx>, st: Relay, z: int, idx: nat)
    requires Boards(cs) && Fits(st) && ValidBoard(z) && idx <= RemoteNumParams
    ensures var s := SendRow(cs, st, z, idx);
      (s.err == ErrNone <==> RowAcceptable(cs, st.rprm, z, idx)) && (s.err == ErrNone || s.err == ErrRemote)
      && s.st.rprm == st.rprm
    decreases RemoteNumParams - idx
  {
    if idx < RemoteNumParams {
      var s := SendEntry(cs, st, z, idx);
      SendOutcome(cs, st, RemoteParamIds[idx], z, st.rprm[z][idx]);
      SendRowSucceeds(cs, s.st, z, idx + 1);
      assert RowAcceptable(cs, st.rprm, z, idx) <==>
        Acceptable(cs, RemoteParamIds[idx], z, st.rprm[z][idx]) && RowAcceptable(cs, st.rprm, z, idx + 1);
    }
  }

  /** Config(-1) succeeds exactly when the rows of all active boards from z on are acceptable. */
  lemma {:induction false} SendTablesSucceeds(cs: seq<Ctx>, st: Relay, z: nat)
    requires Boards(cs) && Fits(st) && z <= MaxNumMotors
    ensures var s := SendTables(cs, st, z);
      (s.err == ErrNone <==> forall b :: z <= b < MaxNumMotors && Active(cs[b]) ==> RowAcceptable(cs, st.rprm, b, 0))
      && (s.err == ErrNone || s.err == ErrRemote)
    decreases MaxNumMotors - z
  {
    if z < MaxNumMotors {
      if !Active(cs[z]) {
        SendTablesSucceeds(cs, st, z + 1);
      } else {
        SendRowSucceeds(cs, st, z, 0);
        var s := SendRow(cs, st, z, 0);
        SendTablesSucceeds(cs, s.st, z + 1);
      }
    }
  }

  /**
   * With the default tables (RMXV 0 and a remote JMAX of 1000) Config(-1)
   * fails with ERR_Remote as soon as one board is active.
   */
  lemma DefaultTablesRefused(cs: seq<Ctx>, st: Relay, b: int)
    requires Boards(cs) && Fits(st) && Live(cs, b)
    requires forall k :: 0 <= k < MaxNumMotors ==> cs[k].prm == DefaultSafeMotorParams
    requires st.rprm == seq(MaxNumMotors, _ => DefaultRemoteParams)
    ensures SendTables(cs, st, 0).err == ErrRemote
  {
    assert cs[b].prm[RMXV] < st.rprm[b][JMAX] by {
      assert cs[b].prm == DefaultSafeMotorParams && st.rprm[b] == DefaultRemoteParams;
    }
    JmaxRefused(cs, b, st.rprm[b][JMAX]);
    TablesRefused(cs, st, b);
  }

  /** One refused entry in the row of an active board makes Config(-1) fail. */
  lemma TablesRefused(cs: seq<Ctx>, st: Relay, b: int)
    requires Boards(cs) && Fits(st) && Live(cs, b) && !RowAcceptable(cs, st.rprm, b, 0)
    ensures SendTables(cs, st, 0).err == ErrRemote
  {
    SendTablesSucceeds(cs, st, 0);
  }

  /** A JMAX above the board's RMXV is refused. */
  lemma JmaxRefused(cs: seq<Ctx>, b: int, v: int)
    requires Boards(cs) && ValidBoard(b) && v > cs[b].prm[RMXV]
    ensures !Acceptable(cs, RemoteParamIds[JMAX], b, v)
  {
    assert RemoteParamIds[JMAX] == "JMAX";
  }

  // ---------------------------------------------------------------------------
  // Incoming commands
  // ---------------------------------------------------------------------------

  /** What processRemoteCommand makes of one received token. */
  datatype Incoming =
    | Goto(board: int, pos: int)        // POS<b>=<pos>
    | Drive(board: int, vel: int)       // VEL<b>=<vel>
    | Claim(board: int)                 // ACCREQ<b>
    | Garbled(msg: string)              // a known prefix whose arguments do not scan
    | Other                             // anything else, ignored

  const ClaimFormat: seq<Piece> := [Lit("ACCREQ"), Num(Int8Conv)]

  /** The prefix tests of processRemoteCommand and their sscanf calls. */
  function Decode(cmd: string): Incoming
  {
    if "POS" <= cmd then
      var vals := Scan(cmd, KeyFormat("POS"));
      if |vals| == 2 then Goto(vals[0], vals[1]) else Garbled("Invalid remote POS command format")
    else if "VEL" <= cmd then
      var vals := Scan(cmd, KeyFormat("VEL"));
      if |vals| == 2 then Drive(vals[0], vals[1]) else Garbled("Invalid remote VEL command format")
    else if "ACCREQ" <= cmd then
      var vals := Scan(cmd, ClaimFormat);
      if |vals| == 1 then Claim(vals[0]) else Garbled("Invalid remote ACCREQ command format")
    else Other
  }

  /** The token the remote sends for an access request: "ACCREQ%hhi". */
  function ClaimText(b: int): string { "ACCREQ" + IntToDec(b) }

  lemma PrefixOfConcat(a: string, b: string)
    ensures a <= a + b
  {
    assert (a + b)[..|a|] == a;
  }

  /** A key command starts with its key. */
  lemma KeyLeads(key: string, ch: int, v: int)
    ensures key <= CommandText(key, ch, v)
  {
    var rest := IntToDec(ch) + "=" + IntToDec(v);
    assert CommandText(key, ch, v) == key + rest;
    PrefixOfConcat(key, rest);
  }

  lemma DecodeGoto(b: int, v: int)
    requires -128 <= b < 128 && IsInt32(v)
    ensures Decode(CommandText("POS", b, v)) == Goto(b, v)
  {
    KeyLeads("POS", b, v);
    CommandTextScans("POS", b, v);
  }

  lemma DecodeDrive(b: int, v: int)
    requires -128 <= b < 128 && IsInt32(v)
    ensures Decode(CommandText("VEL", b, v)) == Drive(b, v)
  {
    var q := CommandText("VEL", b, v);
    KeyLeads("VEL", b, v);
    assert q[0] == 'V';
    assert !("POS" <= q) by { assert "POS"[0] == 'P'; }
    CommandTextScans("VEL", b, v);
  }

  lemma ClaimTextScans(b: int)
    requires -128 <= b < 128
    ensures Scan(ClaimText(b), ClaimFormat) == [b]
  {
    assert Representable(ClaimFormat, [b]) by {
      assert Convert(Int8Conv, b) == b;
      assert Representable(ClaimFormat[2..], []);
    }
    assert ClaimFormat[1..][1..] == [];
    assert Render(ClaimFormat[1..], [b]) == IntToDec(b) + Render(ClaimFormat[2..], []);
    assert Render(ClaimFormat, [b]) + "" == ClaimText(b);
    ScanRender(ClaimFormat, [b], "");
  }

  lemma DecodeClaim(b: int)
    requires -128 <= b < 128
    ensures Decode(ClaimText(b)) == Claim(b)
  {
    var a := ClaimText(b);
    assert a[..6] == "ACCREQ";
    assert !("POS" <= a) && !("VEL" <= a) by { assert a[0] == 'A'; assert "POS"[0] == 'P' && "VEL"[0] == 'V'; }
    ClaimTextScans(b);
  }

  /**
   * POS<b>=<pos>: an inactive board records "Inactive board number" in the
   * parameter store; a board not under remote control ignores it. Otherwise
   * the move is made, with the set velocity only when no POS came since the
   * last VEL or ACCREQ, and a failure records "Could not set motor pos with
   * remote".
   */
  function GotoBoard(cs: seq<Ctx>, st: Relay, b: int, pos: int, r: Readings): (t: Relay)
    requires Boards(cs) && Fits(st)
    ensures Fits(t)
  {
    if !Live(cs, b) then st.(plat := Raise(st.plat, "Inactive board number"))
    else if !st.axes[b].remote then st
    else
      Moved(st, b, MoveTo(cs[b], st.axes[b], pos, !st.repeat[b], r), true, "Could not set motor pos with remote")
  }

  /** VEL<b>=<vel>: the same gates; the velocity command clears repeatPosSet of the board. */
  function DriveBoard(cs: seq<Ctx>, st: Relay, b: int, vel: int, r: Readings, now: int): (t: Relay)
    requires Boards(cs) && Fits(st)
    ensures Fits(t)
  {
    if !Live(cs, b) then st.(plat := Raise(st.plat, "Inactive board number"))
    else if !st.axes[b].remote then st
    else
      Moved(st, b, MoveVel(cs[b], st.axes[b], vel, r, now), false, "Could not set motor vel with remote")
  }

  /**
   * A remote move of board b had the outcome s: the board's new state is
   * taken over, repeatPosSet of the board becomes rep, and a failure records msg.
   */
  function Moved(st: Relay, b: int, s: Step, rep: bool, msg: string): (t: Relay)
    requires Fits(st) && ValidBoard(b)
    ensures Fits(t)
  {
    var t := Polled(st, b, s.ax).(repeat := st.repeat[b := rep]);
    if s.err != ErrNone then t.(latch := Raise(t.latch, msg)) else t
  }

  /**
   * ACCREQ<b>: on an active board repeatPosSet is cleared, ENAB<b>=1 is sent
   * (handing the board to the remote) and the remote parameter ENAB of the
   * board is stored as 1.
   */
  function ClaimBoard(cs: seq<Ctx>, st: Relay, b: int): (t: Relay)
    requires Boards(cs) && Fits(st)
    ensures Fits(t)
  {
    if !Live(cs, b) then st.(plat := Raise(st.plat, "Inactive board number"))
    else
      var s := Send(cs, st.(repeat := st.repeat[b := false]), "ENAB", b, 1);
      s.st.(rprm := SetCell(s.st.rprm, b, ENAB, 1))
  }

  /** processRemoteCommand on one received token. */
  function Process(cs: seq<Ctx>, st: Relay, cmd: string, r: Readings, now: int): (t: Relay)
    requires Boards(cs) && Fits(st)
    ensures Fits(t)
  {
    Act(cs, st, Decode(cmd), r, now)
  }

  /** What processRemoteCommand does with a decoded command. */
  function Act(cs: seq<Ctx>, st: Relay, m: Incoming, r: Readings, now: int): (t: Relay)
    requires Boards(cs) && Fits(st)
    ensures Fits(t)
  {
    match m
    case Goto(b, pos) => GotoBoard(cs, st, b, pos, r)
    case Drive(b, vel) => DriveBoard(cs, st, b, vel, r, now)
    case Claim(b) => ClaimBoard(cs, st, b)
    case Garbled(msg) => st.(latch := Raise(st.latch, msg))
    case Other => st
  }

  /** The tokens of one frame, processed in order. */
  function ProcessAll(cs: seq<Ctx>, st: Relay, cmds: seq<string>, r: Readings, now: int): (t: Relay)
    requires Boards(cs) && Fits(st)
    ensures Fits(t)
    decreases |cmds|
  {
    if cmds == [] then st else ProcessAll(cs, Process(cs, st, cmds[0], r, now), cmds[1..], r, now)
  }

  /** POS and VEL for a board the serial side controls change nothing at all. */
  lemma LocalBoardIgnoresRemote(cs: seq<Ctx>, st: Relay, b: int, v: int, r: Readings, now: int)
    requires Boards(cs) && Fits(st) && Live(cs, b) && !st.axes[b].remote
    requires -128 <= b < 128 && IsInt32(v)
    ensures Process(cs, st, CommandText("POS", b, v), r, now) == st
    ensures Process(cs, st, CommandText("VEL", b, v), r, now) == st
  {
    DecodeGoto(b, v);
    DecodeDrive(b, v);
  }

  /**
   * The first POS for a remote board sets the velocity and marks the board, so
   * the POS after it does not; VEL clears the mark again.
   */
  lemma PosSetsVelocityOnce(cs: seq<Ctx>, st: Relay, b: int, p: int, q: int, r: Readings, now: int)
    requires Boards(cs) && Fits(st) && Live(cs, b) && st.axes[b].remote && !st.repeat[b]
    requires -128 <= b < 128 && IsInt32(p) && IsInt32(q)
    ensures var t := Process(cs, st, CommandText("POS", b, p), r, now);
      t.repeat[b] && t.axes[b] == MoveTo(cs[b], st.axes[b], p, true, r).ax &&
      (t.axes[b].remote ==>
        Process(cs, t, CommandText("POS", b, q), r, now).axes[b] == MoveTo(cs[b], t.axes[b], q, false, r).ax) &&
      (t.axes[b].remote ==> !Process(cs, t, CommandText("VEL", b, q), r, now).repeat[b])
  {
    DecodeGoto(b, p);
    DecodeGoto(b, q);
    DecodeDrive(b, q);
  }

  /**
   * ACCREQ on an active board hands it to the remote: its remote flag is set,
   * exactly the frame "ENAB<b>=1" is sent, the stored ENAB entry is 1, and the
   * other boards and the relay's latch are unchanged.
   */
  lemma ClaimHandsOver(cs: seq<Ctx>, st: Relay, b: int, r: Readings, now: int)
    requires Boards(cs) && Fits(st) && Live(cs, b)
    ensures var t := Process(cs, st, ClaimText(b), r, now);
      t.axes == st.axes[b := st.axes[b].(remote := true)] && t.repeat == st.repeat[b := false]
      && t.tx == st.tx + [Frame.Encode("ENAB" + IntToDec(b) + "=1")]
      && t.rprm == SetCell(st.rprm, b, ENAB, 1) && t.latch == st.latch && t.plat == st.plat && t.flag == st.flag
  {
    DecodeClaim(b);
    var h := Handover(cs, st.axes, b, true);
    assert h == st.axes[b := st.axes[b].(remote := true)] by {
      forall k | 0 <= k < MaxNumMotors ensures h[k] == st.axes[b := st.axes[b].(remote := true)][k] {}
    }
    assert CommandText("ENAB", b, 1) == "ENAB" + IntToDec(b) + "=1";
  }

  // ---------------------------------------------------------------------------
  // Receiving frames
  // ---------------------------------------------------------------------------

  /** What CheckRemoteCommands makes of the bytes readBytesUntil('>') returned, if any arrived. */
  datatype Inbound = Idle | Runt | Rejected | Batch(cmds: seq<string>)

  function Inbox(rx: Option<string>): Inbound
  {
    match rx
    case None => Idle
    case Some(data) =>
      if |data| < 3 then Runt
      else match Frame.ValidateChecksum(data)
        case None => Rejected
        case Some(p) => Batch(Split(p))
  }

  /** CheckRemoteCommands once its interval has elapsed. */
  function Receive(cs: seq<Ctx>, st: Relay, rx: Option<string>, r: Readings, now: int): (t: Relay)
    requires Boards(cs) && Fits(st)
    ensures Fits(t)
  {
    match Inbox(rx)
    case Idle => st
    case Runt => st.(latch := Raise(st.latch, "Invalid UART command string"))
    case Rejected => st
    case Batch(cmds) => ProcessAll(cs, st, cmds, r, now)
  }

  /** An accepted frame is split on ';' when it holds one. */
  lemma InboxAccepts(data: string, p: string)
    requires |data| >= 3 && Frame.ValidateChecksum(data) == Some(p)
    ensures Inbox(Some(data)) == Batch(Split(p))
  {
  }

  /** The payload of a received frame, split the way CheckRemoteCommands splits it. */
  function Split(p: string): seq<string>
  {
    if ';' !in p then [p] else Tokens(p, ';')
  }

  /** The frame of a payload free of '|', '>' and NUL is accepted whole. */
  lemma DeliveredBatch(p: string)
    requires '|' !in p && '>' !in p && '\0' !in p
    ensures Inbox(Some(Frame.Received(p))) == Batch(Split(p))
  {
    Frame.FrameRoundTrip(p);
    var d := Frame.Received(p);
    assert |d| >= 3 by { assert d == "<" + p + "|" + NatToDec(Frame.Checksum(p)); }
    InboxAccepts(d, p);
  }

  /** Splitting ';'-joined non-empty tokens free of ';' gives them back. */
  lemma SplitOfJoin(ts: seq<string>)
    requires ts != [] && Tokenizable(ts, ';')
    ensures Split(Join(ts, ';')) == ts
  {
    var p := Join(ts, ';');
    if |ts| == 1 {
      assert p == ts[0];
      assert ';' !in p;
    } else {
      assert p == ts[0] + [';'] + Join(ts[1..], ';');
      assert p[|ts[0]|] == ';';
      TokensOfJoin(ts, ';');
    }
  }

  /** A frame carrying ';'-joined tokens hands exactly those tokens to processRemoteCommand. */
  lemma BatchRoundTrip(ts: seq<string>)
    requires ts != [] && Tokenizable(ts, ';')
    requires forall i :: 0 <= i < |ts| ==> '|' !in ts[i] && '>' !in ts[i] && '\0' !in ts[i]
    ensures Inbox(Some(Frame.Received(Join(ts, ';')))) == Batch(ts)
  {
    JoinPlain(ts, ';');
    DeliveredBatch(Join(ts, ';'));
    SplitOfJoin(ts);
  }

  /** Joining tokens free of '|', '>' and NUL with ';' adds none of them. */
  lemma {:induction false} JoinPlain(ts: seq<string>, sep: char)
    requires sep != '|' && sep != '>' && sep != '\0'
    requires forall i :: 0 <= i < |ts| ==> '|' !in ts[i] && '>' !in ts[i] && '\0' !in ts[i]
    ensures var p := Join(ts, sep); '|' !in p && '>' !in p && '\0' !in p
    decreases |ts|
  {
    if |ts| > 1 {
      JoinPlain(ts[1..], sep);
      var p, q := Join(ts, sep), Join(ts[1..], sep);
      assert p == ts[0] + [sep] + q;
      forall i | 0 <= i < |p| ensures p[i] != '|' && p[i] != '>' && p[i] != '\0' {
        if i < |ts[0]| { assert p[i] == ts[0][i]; }
        else if i > |ts[0]| { assert p[i] == q[i - |ts[0]| - 1]; }
      }
    }
  }

  /** A frame whose payload had one byte changed in transit is dropped: nothing changes. */
  lemma CorruptFrameDropped(cs: seq<Ctx>, st: Relay, payload: string, i: nat, c: char, r: Readings, now: int)
    requires Boards(cs) && Fits(st)
    requires '|' !in payload && '>' !in payload && '\0' !in payload
    requires i < |payload| && c != '|' && c != '\0' && c != '>'
    requires (c as int - payload[i] as int) % 256 != 0
    ensures Receive(cs, st, Some("<" + payload[i := c] + "|" + NatToDec(Frame.Checksum(payload))), r, now) == st
  {
    Frame.SingleByteCorruptionDetected(payload, i, c);
  }

  // ---------------------------------------------------------------------------
  // Position reports
  // ---------------------------------------------------------------------------

  /** The tokens of a position report and the state after reading the positions. */
  datatype Sweep = Sweep(tokens: seq<string>, st: Relay)

  /**
   * SendPositionUpdates from board z on: every active board's position is read
   * with Motors::GetPos and reported as POS<b>=<pos>.
   */
  function Positions(cs: seq<Ctx>, st: Relay, rs: seq<Readings>, z: nat): (p: Sweep)
    requires Boards(cs) && Fits(st) && |rs| == MaxNumMotors && z <= MaxNumMotors
    ensures Fits(p.st)
    decreases MaxNumMotors - z
  {
    if z == MaxNumMotors then Sweep([], st)
    else if !Active(cs[z]) then Positions(cs, st, rs, z + 1)
    else
      var q := AxisDriver.GetPos(cs[z], st.axes[z], rs[z]);
      Prepend([CommandText("POS", z, q.value)], Positions(cs, Polled(st, z, q.ax), rs, z + 1))
  }

  /** Motors::GetPos on board z left the axis ax; the summary flag follows its slot. */
  function Polled(st: Relay, z: int, ax: Axis): (t: Relay)
    requires Fits(st) && ValidBoard(z)
    ensures Fits(t)
  {
    st.(axes := st.axes[z := ax], flag := st.flag || ax.latch.flag)
  }

  /** The tokens ts come before those of p. */
  function Prepend(ts: seq<string>, p: Sweep): Sweep
  {
    Sweep(ts + p.tokens, p.st)
  }

  /** "t1;t2;...;tn;": each token followed by ';', as the report buffer is filled. */
  function Terminated(ts: seq<string>): string
    decreases |ts|
  {
    if ts == [] then "" else ts[0] + ";" + Terminated(ts[1..])
  }

  /** Filling the buffer with a, then with b, is filling it with a + b. */
  lemma {:induction false} TerminatedConcat(a: seq<string>, b: seq<string>)
    ensures Terminated(a + b) == Terminated(a) + Terminated(b)
    decreases |a|
  {
    if a == [] {
      assert [] + b == b;
    } else {
      assert (a + b)[1..] == a[1..] + b;
      TerminatedConcat(a[1..], b);
    }
  }

  /** Overwriting the last ';' of the filled buffer leaves the ';'-joined tokens. */
  lemma {:induction false} TerminatedJoin(ts: seq<string>)
    requires ts != []
    ensures Terminated(ts) == Join(ts, ';') + ";"
    decreases |ts|
  {
    if |ts| == 1 {
      assert Terminated(ts[1..]) == "";
    } else {
      TerminatedJoin(ts[1..]);
    }
  }

  /**
   * SendPositionUpdates once its interval has elapsed: with at least one token
   * the ';'-joined report is framed and written, otherwise nothing is sent.
   */
  function SendPositions(cs: seq<Ctx>, st: Relay, rs: seq<Readings>): (t: Relay)
    requires Boards(cs) && Fits(st) && |rs| == MaxNumMotors
    ensures Fits(t)
  {
    var p := Positions(cs, st, rs, 0);
    if p.tokens == [] then p.st else p.st.(tx := p.st.tx + [Frame.Encode(CStr(Join(p.tokens, ';')))])
  }

  /** The POS tokens for the boards of bs, in that order, with the positions GetPos reports. */
  function Reports(cs: seq<Ctx>, axes: seq<Axis>, rs: seq<Readings>, bs: seq<int>): (ts: seq<string>)
    requires Boards(cs) && |axes| == MaxNumMotors && |rs| == MaxNumMotors
    requires forall i :: 0 <= i < |bs| ==> 0 <= bs[i] < MaxNumMotors
    ensures |ts| == |bs|
    decreases |bs|
  {
    if bs == [] then []
    else
      var b := bs[0];

      [CommandText("POS", b, AxisDriver.GetPos(cs[b], axes[b], rs[b]).value)] + Reports(cs, axes, rs, bs[1..])
  }

  /** The report for bs reads only the axes of bs. */
  lemma {:induction false} ReportsFrame(cs: seq<Ctx>, axes: seq<Axis>, axes': seq<Axis>, rs: seq<Readings>, bs: seq<int>)
    requires Boards(cs) && |axes| == MaxNumMotors && |axes'| == MaxNumMotors && |rs| == MaxNumMotors
    requires forall i :: 0 <= i < |bs| ==> 0 <= bs[i] < MaxNumMotors && axes[bs[i]] == axes'[bs[i]]
    ensures Reports(cs, axes, rs, bs) == Reports(cs, axes', rs, bs)
    decreases |bs|
  {
    if bs != [] {
      ReportsFrame(cs, axes, axes', rs, bs[1..]);
    }
  }

  /** A position report holds one token per active board, in ascending order, with its GetPos value. */
  lemma {:induction false} PositionTokens(cs: seq<Ctx>, st: Relay, rs: seq<Readings>, z: nat)
    requires Boards(cs) && Fits(st) && |rs| == MaxNumMotors && z <= MaxNumMotors
    ensures Positions(cs, st, rs, z).tokens == Reports(cs, st.axes, rs, ActiveFrom(cs, z))
    decreases MaxNumMotors - z
  {
    if z < MaxNumMotors {
      var bs := ActiveFrom(cs, z + 1);
      if !Active(cs[z]) {
        PositionTokens(cs, st, rs, z + 1);
        assert Positions(cs, st, rs, z) == Positions(cs, st, rs, z + 1);
        assert ActiveFrom(cs, z) == bs;
      } else {
        var q := AxisDriver.GetPos(cs[z], st.axes[z], rs[z]);
        PositionTokens(cs, Polled(st, z, q.ax), rs, z + 1);
        ActiveTokens(cs, st, rs, z);
      }
    } else {
      assert ActiveFrom(cs, z) == [];
    }
  }

  /** PositionTokens for an active board z, given the report of the boards after it. */
  lemma ActiveTokens(cs: seq<Ctx>, st: Relay, rs: seq<Readings>, z: nat)
    requires Boards(cs) && Fits(st) && |rs| == MaxNumMotors && z < MaxNumMotors && Active(cs[z])
    requires var st1 := Polled(st, z, AxisDriver.GetPos(cs[z], st.axes[z], rs[z]).ax);
      Positions(cs, st1, rs, z + 1).tokens == Reports(cs, st1.axes, rs, ActiveFrom(cs, z + 1))
    ensures Positions(cs, st, rs, z).tokens == Reports(cs, st.axes, rs, ActiveFrom(cs, z))
  {
    var q := AxisDriver.GetPos(cs[z], st.axes[z], rs[z]);
    ReportsFrame(cs, Polled(st, z, q.ax).axes, st.axes, rs, ActiveFrom(cs, z + 1));
    ReportsCons(cs, st.axes, rs, z);
  }

  /** The report from an active board z is its token, then the report of the boards after it. */
  lemma ReportsCons(cs: seq<Ctx>, axes: seq<Axis>, rs: seq<Readings>, z: nat)
    requires Boards(cs) && |axes| == MaxNumMotors && |rs| == MaxNumMotors && z < MaxNumMotors && Active(cs[z])
    ensures Reports(cs, axes, rs, ActiveFrom(cs, z))
      == [CommandText("POS", z, AxisDriver.GetPos(cs[z], axes[z], rs[z]).value)] + Reports(cs, axes, rs, ActiveFrom(cs, z + 1))
  {
    var bs := ActiveFrom(cs, z + 1);
    var all := [z] + bs;
    assert ActiveFrom(cs, z) == all;
    assert all[0] == z && all[1..] == bs;
  }

  /** POS tokens are non-empty and hold none of ';', '|', '>' and NUL. */
  lemma {:induction false} ReportsPlain(cs: seq<Ctx>, axes: seq<Axis>, rs: seq<Readings>, bs: seq<int>)
    requires Boards(cs) && |axes| == MaxNumMotors && |rs| == MaxNumMotors
    requires forall i :: 0 <= i < |bs| ==> 0 <= bs[i] < MaxNumMotors
    ensures var ts := Reports(cs, axes, rs, bs);
      Tokenizable(ts, ';') && forall i :: 0 <= i < |ts| ==> '|' !in ts[i] && '>' !in ts[i] && '\0' !in ts[i]
    decreases |bs|
  {
    if bs != [] {
      ReportsPlain(cs, axes, rs, bs[1..]);
      var b := bs[0];

      CommandTextPlain("POS", b, AxisDriver.GetPos(cs[b], axes[b], rs[b]).value);
    }
  }

  /**
   * A non-empty position report reaches the remote intact: its frame passes
   * the checksum test and splitting it on ';' gives back the tokens.
   */
  lemma PositionReportDelivered(cs: seq<Ctx>, st: Relay, rs: seq<Readings>)
    requires Boards(cs) && Fits(st) && |rs| == MaxNumMotors
    requires Positions(cs, st, rs, 0).tokens != []
    ensures var ts := Positions(cs, st, rs, 0).tokens; var p := Join(ts, ';');
      CStr(p) == p && Inbox(Some(Frame.Received(p))) == Batch(ts)
  {
    var ts := Positions(cs, st, rs, 0).tokens;
    PositionTokens(cs, st, rs, 0);
    ReportsPlain(cs, st.axes, rs, ActiveFrom(cs, 0));
    JoinPlain(ts, ';');
    BatchRoundTrip(ts);
  }

  // ---------------------------------------------------------------------------
  // Remote parameter lookup
  // ---------------------------------------------------------------------------

  /** The first remote parameter from k on whose ID matches `name` in its first four characters. */
  function RemoteParamIndexFrom(name: string, k: nat): (r: Option<nat>)
    requires k <= RemoteNumParams
    ensures r.Some? ==>
      k <= r.value < RemoteNumParams && SameId(RemoteParamIds[r.value], name) &&
      forall j :: k <= j < r.value ==> !SameId(RemoteParamIds[j], name)
    ensures r.None? <==> forall j :: k <= j < RemoteNumParams ==> !SameId(RemoteParamIds[j], name)
    decreases RemoteNumParams - k
  {
    if k == RemoteNumParams then None
    else if SameId(RemoteParamIds[k], name) then Some(k)
    else RemoteParamIndexFrom(name, k + 1)
  }

  /** The index FindRemoteParamIndex finds for `name`, if any. */
  function RemoteParamIndex(name: string): Option<nat>
  {
    RemoteParamIndexFrom(name, 0)
  }

  /** The remote IDs differ in their first four characters, so each one finds its own index. */
  lemma RemoteParamIdsFound(idx: nat)
    requires idx < RemoteNumParams
    ensures RemoteParamIndex(RemoteParamIds[idx]) == Some(idx)
  {
  }

  // ---------------------------------------------------------------------------
  // Config as a whole
  // ---------------------------------------------------------------------------

  /**
   * RemoteComm::Config(mot): -1 sends the tables of all active boards, an
   * active board its own row; any other number fails with ERR_Motor after
   * IsActiveMotor(mot, 1) and the relay have both recorded an error.
   */
  function ConfigTables(cs: seq<Ctx>, st: Relay, mot: int): (s: Sent)
    requires Boards(cs) && Fits(st)
    ensures Fits(s.st)
  {
    if mot == -1 then SendTables(cs, st, 0)
    else if Live(cs, mot) then SendRow(cs, st, mot, 0)
    else Sent(ErrMotor, st.(latch := Raise(st.latch, "Invalid motor number"), plat := Raise(st.plat, "Inactive board number")))
  }

  /** Config succeeds exactly when every row it sends is acceptable, and otherwise reports why. */
  lemma ConfigTablesOutcome(cs: seq<Ctx>, st: Relay, mot: int)
    requires Boards(cs) && Fits(st)
    ensures var s := ConfigTables(cs, st, mot);
      (s.err == ErrNone <==>
        (mot == -1 && forall b :: 0 <= b < MaxNumMotors && Active(cs[b]) ==> RowAcceptable(cs, st.rprm, b, 0))
        || (Live(cs, mot) && RowAcceptable(cs, st.rprm, mot, 0)))
      && (s.err == ErrMotor <==> mot != -1 && !Live(cs, mot))
      && s.err in {ErrNone, ErrRemote, ErrMotor}
  {
    if mot == -1 {
      SendTablesSucceeds(cs, st, 0);
    } else if Live(cs, mot) {
      SendRowSucceeds(cs, st, mot, 0);
    }
  }

  // ---------------------------------------------------------------------------
  // The RemoteComm object
  // ---------------------------------------------------------------------------

  /**
   * RemoteComm: the link to the remote unit over Serial1. Its own state is the
   * error latch, repeatPosSet of processRemoteCommand, the two interval timers
   * (function statics in the source) and the frames written to Serial1; it
   * drives the motors and the parameter store it was initialised with.
   */
  class RemoteComm {
    const params: Parameters
    const motors: Motors
    /** errorFlag and errorMsg */
    var latch: Latch
    /** repeatPosSet: a POS has been applied since the last VEL or ACCREQ of the board. */
    var repeatPosSet: seq<bool>
    /** The frames written to Serial1, oldest first. */
    var tx: seq<string>
    var lastSendTime: int
    var lastReceiveTime: int

    /** RemoteComm() and Init(params, motors) with REMOTE_ENABLED: the link starts clear. */
    constructor (m: Motors)
      requires m.Valid()
      ensures Valid() && motors == m && params == m.params
      ensures latch == ClearLatch && repeatPosSet == [false, false, false, false] && tx == []
      ensures lastSendTime == 0 && lastReceiveTime == 0
    {
      motors := m;
      params := m.params;
      latch := ClearLatch;
      repeatPosSet := [false, false, false, false];
      tx := [];
      lastSendTime, lastReceiveTime := 0, 0;
    }

    ghost predicate Valid()
      reads this, motors, params
    {
      motors.params == params && motors.Valid() && |repeatPosSet| == MaxNumMotors && |latch.msg| < MaxErrorStringSize
    }

    /** The shape State() needs. */
    ghost predicate Shaped()
      reads this`repeatPosSet, motors`slots, params`remoteParamArr
    {
      motors.Shaped() && |repeatPosSet| == MaxNumMotors && IsTable(params.remoteParamArr, RemoteNumParams)
    }

    /** The part of the system the relay specification speaks about. */
    ghost function State(): (st: Relay)
      requires Shaped()
      reads this`latch, this`repeatPosSet, this`tx, motors`slots, motors`errorFlag, motors.tmcArr
      reads params`latch, params`remoteParamArr
      ensures Fits(st)
    {
      Relay(latch, repeatPosSet, tx, motors.AxesFrom(0), motors.errorFlag, params.latch, params.remoteParamArr)
    }

    /** The boards: their device types and parameter rows. */
    ghost function Ctxs(): (cs: seq<Ctx>)
      requires motors.params == params && WellFormedHw(params.hw) && IsTable(params.motorParamArr, MotorsNumParams)
      reads params`hw, params`motorParamArr
      ensures Boards(cs)
    {
      motors.Ctxs()
    }

    /** First-wins: a pending message is kept until PrintErrorMsg. */
    method SetErrorMsg(msg: string)
      requires Valid()
      modifies this`latch
      ensures Valid() && latch == Raise(old(latch), msg)
    {
      if latch.flag {
        return;
      }
      latch := Raise(latch, msg);
    }

    /** Reports and clears a pending error; the text printed is returned. */
    method PrintErrorMsg() returns (had: bool, text: string)
      requires Valid()
      modifies this`latch
      ensures Valid()
      ensures had == old(latch.flag) && text == (if had then old(latch.msg) else "")
      ensures latch == old(latch).(flag := false)
    {
      had := latch.flag;
      text := if had then latch.msg else "";
      latch := latch.(flag := false);
    }

    /** The argument checks of SendRemoteCommand, in their order. */
    method CheckArguments(cmd: string, channel: int, value: int) returns (ok: bool)
      requires Valid()
      modifies this`latch
      ensures Valid()
      ensures var c := CheckCommand(Ctxs(), cmd, channel, value);
        ok == c.None? && latch == if ok then old(latch) else Raise(old(latch), c.value)
    {
      ok := CheckChannelRange(cmd, channel);
      if !ok {
        return;
      }
      ok := CheckValueRange(cmd, channel, value);
    }

    /** The channel range of SendRemoteCommand. */
    method CheckChannelRange(cmd: string, channel: int) returns (ok: bool)
      requires Valid()
      modifies this`latch
      ensures Valid()
      ensures var c := CheckChannel(cmd, channel);
        ok == c.None? && latch == if ok then old(latch) else Raise(old(latch), c.value)
    {
      if Enab(cmd) {
        ok := IsValueInRange(channel, "channel", -1, MaxNumMotors);
      } else {
        ok := IsValueInRange(channel, "channel", 0, MaxNumMotors - 1);
      }
    }

    /** The value range of SendRemoteCommand, once the channel passed. */
    method CheckValueRange(cmd: string, channel: int, value: int) returns (ok: bool)
      requires Valid() && CheckChannel(cmd, channel).None?
      modifies this`latch
      ensures Valid()
      ensures var c := CheckValue(Ctxs(), cmd, channel, value);
        ok == c.None? && latch == if ok then old(latch) else Raise(old(latch), c.value)
    {
      ok := true;
      if Enab(cmd) {
        ok := IsValueInRange(value, cmd, 0, 1);
      } else if "JDIR" <= cmd {
        ok := IsValueInRange(CAbs(value), cmd, 1, 1);
      } else if "JMAX" <= cmd {
        // FindParamVal(channel, "RMXV", intValue)
        var rmxv := params.motorParamArr[channel][RMXV];
        ok := IsValueInRange(value, cmd, 0, rmxv);
      } else if "EDIR" <= cmd {
        ok := IsValueInRange(CAbs(value), cmd, 1, 1);
      }
    }

    /** transmitRemoteCommand: the C string cmd, framed with its checksum, is written to Serial1. */
    method TransmitRemoteCommand(cmd: string) returns (err: int)
      requires Valid()
      modifies this`tx
      ensures Valid() && err == ErrNone && tx == old(tx) + [Frame.Encode(CStr(cmd))]
    {
      var sum := Frame.CalculateChecksum(cmd);
      tx := tx + ["<" + CStr(cmd) + "|" + NatToDec(sum) + ">"];
      err := ErrNone;
    }

    /** The ENAB frames of a channel -1 command: one per active board, in board order. */
    method Broadcast(ghost cs: seq<Ctx>, cmd: string, value: int)
      requires Valid() && cs == Ctxs() && '\0' !in cmd
      modifies this`tx, params`latch
      ensures Valid() && params.latch == old(params.latch)
      ensures tx == old(tx) + FramesFor(cmd, value, ActiveFrom(cs, 0))
    {
      ghost var goal := tx + FramesFor(cmd, value, ActiveFrom(cs, 0));
      ghost var latch := params.latch;
      var z := 0;
      while z < MaxNumMotors
        invariant 0 <= z <= MaxNumMotors && Valid() && cs == Ctxs() && params.latch == latch
        invariant tx + FramesFor(cmd, value, ActiveFrom(cs, z)) == goal
      {
        BroadcastNext(cs, cmd, value, z, goal);
        z := z + 1;
      }
      assert ActiveFrom(cs, MaxNumMotors) == [];
    }

    /** One turn of the Broadcast loop: the frames still to send shrink by board z's. */
    method BroadcastNext(ghost cs: seq<Ctx>, cmd: string, value: int, z: int, ghost goal: seq<string>)
      requires Valid() && cs == Ctxs() && '\0' !in cmd && ValidBoard(z)
      requires tx + FramesFor(cmd, value, ActiveFrom(cs, z)) == goal
      modifies this`tx, params`latch
      ensures Valid() && params.latch == old(params.latch)
      ensures tx + FramesFor(cmd, value, ActiveFrom(cs, z + 1)) == goal
    {
      ghost var before := tx;
      FramesStep(cs, cmd, value, z);
      BroadcastStep(cs, cmd, value, z);
      ghost var piece := if Active(cs[z]) then [Frame.Encode(CommandText(cmd, z, value))] else [];
      ConcatAssoc(before, piece, FramesFor(cmd, value, ActiveFrom(cs, z + 1)));
    }

    /** Board z's part of the broadcast: IsActiveMotor(z, 0), then its frame. */
    method BroadcastStep(ghost cs: seq<Ctx>, cmd: string, value: int, z: int)
      requires Valid() && cs == Ctxs() && '\0' !in cmd && ValidBoard(z)
      modifies this`tx, params`latch
      ensures Valid() && params.latch == old(params.latch)
      ensures tx == old(tx) + if Active(cs[z]) then [Frame.Encode(CommandText(cmd, z, value))] else []
    {
      var ok := params.IsActiveMotor(z, false);
      if ok {
        CommandTextCStr(cmd, z, value);
        var _ := TransmitRemoteCommand(CommandText(cmd, z, value));
      }
    }

    /** Motors::SetRemoteEnabled for the channel of an ENAB command (its result is always ERR_None). */
    method HandOver(ghost cs: seq<Ctx>, channel: int, value: int)
      requires Valid() && cs == Ctxs()
      modifies motors`slots
      ensures Valid() && State() == old(State()).(axes := Handover(cs, old(State()).axes, channel, value != 0))
    {
      motors.AxesFromAll();
      HandOverAxes(cs, channel, value);
      motors.AxesFromAll();
    }

    /** HandOver at the level of the motor section. */
    method HandOverAxes(ghost cs: seq<Ctx>, channel: int, value: int)
      requires Valid() && cs == Ctxs()
      modifies motors`slots
      ensures Valid() && motors.Axes() == Handover(cs, old(motors.Axes()), channel, value != 0)
    {
      var _ := motors.SetRemoteEnabled(channel, value);
      ghost var h := Handover(cs, old(motors.Axes()), channel, value != 0);
      assert motors.AxisOf(0) == h[0] && motors.AxisOf(1) == h[1] && motors.AxisOf(2) == h[2] && motors.AxisOf(3) == h[3];
    }

    /**
     * SendRemoteCommand(cmd, channel, value): the checks, then for ENAB the
     * hand-over in the motor section, then the frames.
     */
    method SendRemoteCommand(cmd: string, channel: int, value: int) returns (err: int)
      requires Valid() && '\0' !in cmd
      modifies this`latch, this`tx, motors`slots, params`latch
      ensures Valid()
      ensures Sent(err, State()) == Send(Ctxs(), old(State()), cmd, channel, value)
    {
      ghost var cs := Ctxs();
      var ok := CheckArguments(cmd, channel, value);
      if !ok {
        return ErrRemote;
      }
      DeliverCommand(cs, cmd, channel, value);
      err := ErrNone;
    }

    /** SendRemoteCommand past its checks. */
    method DeliverCommand(ghost cs: seq<Ctx>, cmd: string, channel: int, value: int)
      requires Valid() && cs == Ctxs() && '\0' !in cmd
      modifies this`tx, motors`slots, params`latch
      ensures Valid() && State() == Deliver(cs, old(State()), cmd, channel, value)
    {
      if !Enab(cmd) {
        DeliverPlain(cs, cmd, channel, value);
      } else if channel == -1 {
        DeliverBroadcast(cs, cmd, value);
      } else {
        DeliverEnable(cs, cmd, channel, value);
      }
    }

    /** Any command but ENAB: one frame. */
    method DeliverPlain(ghost cs: seq<Ctx>, cmd: string, channel: int, value: int)
      requires Valid() && cs == Ctxs() && '\0' !in cmd && !Enab(cmd)
      modifies this`tx
      ensures Valid() && State() == Deliver(cs, old(State()), cmd, channel, value)
    {
      CommandTextCStr(cmd, channel, value);
      var _ := TransmitRemoteCommand(CommandText(cmd, channel, value));
    }

    /** ENAB for one channel: the hand-over, then one frame. */
    method DeliverEnable(ghost cs: seq<Ctx>, cmd: string, channel: int, value: int)
      requires Valid() && cs == Ctxs() && '\0' !in cmd && Enab(cmd) && channel != -1
      modifies this`tx, motors`slots
      ensures Valid() && State() == Deliver(cs, old(State()), cmd, channel, value)
    {
      HandOver(cs, channel, value);
      CommandTextCStr(cmd, channel, value);
      var _ := TransmitRemoteCommand(CommandText(cmd, channel, value));
    }

    /** ENAB for channel -1: the hand-over of every active board, then one frame per active board. */
    method DeliverBroadcast(ghost cs: seq<Ctx>, cmd: string, value: int)
      requires Valid() && cs == Ctxs() && '\0' !in cmd && Enab(cmd)
      modifies this`tx, motors`slots, params`latch
      ensures Valid() && State() == Deliver(cs, old(State()), cmd, -1, value)
    {
      HandOver(cs, -1, value);
      Broadcast(cs, cmd, value);
    }

    /** Config(mot): the remote parameters of one board or of all active boards are sent to the remote. */
    method Config(mot: int) returns (err: int)
      requires Valid()
      modifies this`latch, this`tx, motors`slots, params`latch
      ensures Valid() && Sent(err, State()) == ConfigTables(Ctxs(), old(State()), mot)
    {
      ghost var cs := Ctxs();
      if mot == -1 {
        err := SendAllParameters(cs);
        return;
      }
      var ok := params.IsActiveMotor(mot, true);
      if ok {
        err := SendParameters(cs, mot);
        return;
      }
      SetErrorMsg("Invalid motor number");
      err := ErrMotor;
    }

    /** The loop of Config(-1) over the boards; inactive boards are skipped silently. */
    method SendAllParameters(ghost cs: seq<Ctx>) returns (err: int)
      requires Valid() && cs == Ctxs()
      modifies this`latch, this`tx, motors`slots, params`latch
      ensures Valid() && Sent(err, State()) == SendTables(cs, old(State()), 0)
    {
      var z := 0;
      while z < MaxNumMotors
        invariant 0 <= z <= MaxNumMotors && Valid() && cs == Ctxs()
        invariant SendTables(cs, State(), z) == SendTables(cs, old(State()), 0)
      {
        var ok := params.IsActiveMotor(z, false);
        if ok {
          err := SendParameters(cs, z);
          if err != ErrNone {
            return;
          }
        }
        z := z + 1;
      }
      err := ErrNone;
    }

    /** The loop over the remote parameters of an active board z. */
    method SendParameters(ghost cs: seq<Ctx>, z: int) returns (err: int)
      requires Valid() && cs == Ctxs() && ValidBoard(z)
      modifies this`latch, this`tx, motors`slots, params`latch
      ensures Valid() && Sent(err, State()) == SendRow(cs, old(State()), z, 0)
    {
      var idx := 0;
      while idx < RemoteNumParams
        invariant 0 <= idx <= RemoteNumParams && Valid() && cs == Ctxs()
        invariant SendRow(cs, State(), z, idx) == SendRow(cs, old(State()), z, 0)
      {
        SendRowStep(cs, State(), z, idx);
        err := SendParameter(cs, z, idx);
        if err != ErrNone {
          return;
        }
        idx := idx + 1;
      }
      err := ErrNone;
    }

    /** One remote parameter of board z. */
    method SendParameter(ghost cs: seq<Ctx>, z: int, idx: nat) returns (err: int)
      requires Valid() && cs == Ctxs() && ValidBoard(z) && idx < RemoteNumParams
      modifies this`latch, this`tx, motors`slots, params`latch
      ensures Valid() && Sent(err, State()) == SendEntry(cs, old(State()), z, idx)
    {
      var _, value := params.GetRemoteParams(z, idx);
      RemoteIdsPlain(idx);
      err := SendRemoteCommand(RemoteParamIds[idx], z, value);
      if err != ErrNone {
        SetErrorMsg("Unable to set remote parameter");
        err := ErrRemote;
      }
    }

    /** min <= value <= max, recording "Value <name> out of range (<value>)" otherwise. */
    method IsValueInRange(value: int, name: string, min: int, max: int) returns (ok: bool)
      requires Valid()
      modifies this`latch
      ensures Valid() && ok == (min <= value <= max)
      ensures latch == if ok then old(latch) else Raise(old(latch), RangeMessage(name, value))
    {
      ok := min <= value <= max;
      if !ok {
        SetErrorMsg(RangeMessage(name, value));
      }
    }

    /**
     * FindRemoteParamIndex: the first remote parameter whose ID matches `name`
     * in four characters; otherwise "Remote parameter <name> not found", cut to
     * the message buffer, and ERR_TMC.
     */
    method FindRemoteParamIndex(name: string) returns (err: int, index: nat)
      requires Valid()
      modifies this`latch
      ensures Valid()
      ensures err == ErrNone <==> RemoteParamIndex(name).Some?
      ensures err == ErrNone ==> index == RemoteParamIndex(name).value && latch == old(latch)
      ensures err != ErrNone ==>
        err == ErrTmc && latch == Raise(old(latch), Truncate("Remote parameter " + name + " not found", MsgMaxLength))
    {
      var idx := 0;
      while idx < RemoteNumParams
        invariant 0 <= idx <= RemoteNumParams
        invariant RemoteParamIndexFrom(name, idx) == RemoteParamIndex(name)
      {
        if SameId(RemoteParamIds[idx], name) {
          return ErrNone, idx;
        }
        idx := idx + 1;
      }
      SetErrorMsg(Truncate("Remote parameter " + name + " not found", MsgMaxLength));
      return ErrTmc, 0;
    }

    /**
     * SendPositionUpdates(rs, now): once the send interval has elapsed, the
     * position of every active board is read and the report is framed and
     * written; an empty report sends nothing and leaves the timer alone.
     */
    method SendPositionUpdates(rs: seq<Readings>, now: int)
      requires Valid() && |rs| == MaxNumMotors
      modifies this`tx, this`lastSendTime, motors`slots, motors`errorFlag, params`latch
      ensures Valid()
      ensures var due := Elapsed(now, old(lastSendTime)) > RemoteSendIntervalMs;
        State() == (if due then SendPositions(Ctxs(), old(State()), rs) else old(State()))
        && lastSendTime == if due && Positions(Ctxs(), old(State()), rs, 0).tokens != [] then now else old(lastSendTime)
    {
      ghost var cs := Ctxs();
      if Elapsed(now, lastSendTime) <= RemoteSendIntervalMs {
        return;
      }
      var buf;
      ghost var ts;
      buf, ts := ReportAll(cs, rs);
      if |buf| == 0 {
        return;
      }
      TerminatedJoin(ts);
      var _ := TransmitRemoteCommand(buf[..|buf| - 1]);
      lastSendTime := now;
    }

    /** The loop of SendPositionUpdates: the buffer holds "POS<b>=<pos>;" for every active board. */
    method ReportAll(ghost cs: seq<Ctx>, rs: seq<Readings>) returns (buf: string, ghost ts: seq<string>)
      requires Valid() && cs == Ctxs() && |rs| == MaxNumMotors
      modifies motors`slots, motors`errorFlag, params`latch
      ensures Valid() && buf == Terminated(ts) && Positions(cs, old(State()), rs, 0) == Sweep(ts, State())
    {
      ghost var p0 := Positions(cs, State(), rs, 0);
      buf := "";
      ts := [];
      assert p0 == Prepend(ts, p0);
      var z := 0;
      while z < MaxNumMotors
        invariant 0 <= z <= MaxNumMotors && Valid() && cs == Ctxs()
        invariant buf == Terminated(ts)
        invariant p0 == Prepend(ts, Positions(cs, State(), rs, z))
      {
        buf, ts := ReportNext(cs, rs, z, buf, ts, p0);
        z := z + 1;
      }
    }

    /** One turn of the ReportAll loop: board z's piece is appended to the buffer. */
    method ReportNext(ghost cs: seq<Ctx>, rs: seq<Readings>, z: int, buf: string, ghost ts: seq<string>, ghost p0: Sweep)
      returns (buf': string, ghost ts': seq<string>)
      requires Valid() && cs == Ctxs() && |rs| == MaxNumMotors && ValidBoard(z)
      requires buf == Terminated(ts) && p0 == Prepend(ts, Positions(cs, State(), rs, z))
      modifies motors`slots, motors`errorFlag, params`latch
      ensures Valid() && buf' == Terminated(ts') && p0 == Prepend(ts', Positions(cs, State(), rs, z + 1))
    {
      var piece, t := ReportBoard(cs, rs, z);
      TerminatedConcat(ts, t);
      ConcatAssoc(ts, t, Positions(cs, State(), rs, z + 1).tokens);
      buf' := buf + piece;
      ts' := ts + t;
    }

    /** Board z's part of the report: IsActiveMotor(z, 0), then GetPos and its "POS<z>=<pos>;" piece. */
    method ReportBoard(ghost cs: seq<Ctx>, rs: seq<Readings>, z: int) returns (piece: string, ghost t: seq<string>)
      requires Valid() && cs == Ctxs() && |rs| == MaxNumMotors && ValidBoard(z)
      modifies motors`slots, motors`errorFlag, params`latch
      ensures Valid() && piece == Terminated(t)
      ensures Positions(cs, old(State()), rs, z) == Prepend(t, Positions(cs, State(), rs, z + 1))
    {
      var ok := params.IsActiveMotor(z, false);
      if !ok {
        return "", [];
      }
      ghost var st := State();
      ghost var q := AxisDriver.GetPos(cs[z], st.axes[z], rs[z]);
      var pos := PosPolled(cs, z, rs[z]);
      assert Positions(cs, st, rs, z) == Prepend([CommandText("POS", z, pos)], Positions(cs, State(), rs, z + 1));
      t := [CommandText("POS", z, pos)];
      piece := CommandText("POS", z, pos) + ";";
      assert Terminated(t) == piece + Terminated([]);
    }

    /** Motors::GetPos on an active board: the position read and the board's new state. */
    method PosPolled(ghost cs: seq<Ctx>, z: int, r: Readings) returns (pos: int)
      requires Valid() && cs == Ctxs() && Live(cs, z)
      modifies motors`slots, motors`errorFlag, params`latch
      ensures Valid()
      ensures var q := AxisDriver.GetPos(motors.CtxOf(z), old(motors.AxisOf(z)), r);
        pos == q.value && State() == Polled(old(State()), z, q.ax)
    {
      var _, p := motors.GetPos(z, r);
      pos := p;
      motors.AxesFromFrame(z);
    }

    /**
     * CheckRemoteCommands(rx, r, now): once the receive interval has elapsed,
     * the bytes read up to '>' (none when nothing is available) are checked
     * (Inbox) and each command in them is processed. A runt or a frame failing
     * its checksum returns before the timer is updated.
     */
    method CheckRemoteCommands(rx: Option<string>, r: Readings, now: int)
      requires Valid()
      modifies this`latch, this`tx, this`repeatPosSet, this`lastReceiveTime, motors`slots, motors`errorFlag
      modifies motors.Drivers(-1), params`latch, params`remoteParamArr
      ensures Valid()
      ensures var due := Elapsed(now, old(lastReceiveTime)) > RemoteReceiveIntervalMs;
        State() == (if due then Receive(Ctxs(), old(State()), rx, r, now) else old(State()))
        && lastReceiveTime == if due && !Inbox(rx).Runt? && !Inbox(rx).Rejected? then now else old(lastReceiveTime)
    {
      ghost var cs := Ctxs();
      if Elapsed(now, lastReceiveTime) <= RemoteReceiveIntervalMs {
        return;
      }
      match Inbox(rx) {
        case Idle =>
        case Runt =>
          SetErrorMsg("Invalid UART command string");
          return;
        case Rejected =>
          return;
        case Batch(cmds) =>
          ProcessCommands(cs, cmds, r, now);
      }
      lastReceiveTime := now;
    }

    /** The commands of one frame in order: the whole payload, or its strtok tokens. */
    method ProcessCommands(ghost cs: seq<Ctx>, cmds: seq<string>, r: Readings, now: int)
      requires Valid() && cs == Ctxs()
      modifies this`latch, this`tx, this`repeatPosSet, motors`slots, motors`errorFlag
      modifies motors.Drivers(-1), params`latch, params`remoteParamArr
      ensures Valid() && State() == ProcessAll(cs, old(State()), cmds, r, now)
    {
      var i := 0;
      while i < |cmds|
        invariant 0 <= i <= |cmds| && Valid() && cs == Ctxs()
        invariant ProcessAll(cs, State(), cmds[i..], r, now) == ProcessAll(cs, old(State()), cmds, r, now)
      {
        assert cmds[i..][0] == cmds[i] && cmds[i..][1..] == cmds[i + 1..];
        ProcessRemoteCommand(cs, cmds[i], r, now);
        i := i + 1;
      }
    }

    /** processRemoteCommand(cmd): the prefix tests and their sscanf calls, then the command. */
    method ProcessRemoteCommand(ghost cs: seq<Ctx>, cmd: string, r: Readings, now: int)
      requires Valid() && cs == Ctxs()
      modifies this`latch, this`tx, this`repeatPosSet, motors`slots, motors`errorFlag
      modifies motors.Drivers(-1), params`latch, params`remoteParamArr
      ensures Valid() && State() == Process(cs, old(State()), cmd, r, now)
    {
      var m := Decode(cmd);
      Perform(cs, m, r, now);
    }

    /** A decoded command: a malformed one records its format error, an unknown one is ignored. */
    method Perform(ghost cs: seq<Ctx>, m: Incoming, r: Readings, now: int)
      requires Valid() && cs == Ctxs()
      modifies this`latch, this`tx, this`repeatPosSet, motors`slots, motors`errorFlag
      modifies motors.Drivers(-1), params`latch, params`remoteParamArr
      ensures Valid() && State() == Act(cs, old(State()), m, r, now)
    {
      match m
      case Goto(b, pos) => ProcessPos(cs, b, pos, r);
      case Drive(b, vel) => ProcessVel(cs, b, vel, r, now);
      case Claim(b) => ProcessClaim(cs, b);
      case Garbled(msg) => SetErrorMsg(msg);
      case Other =>
    }

    /** POS<b>=<pos> from the remote. */
    method ProcessPos(ghost cs: seq<Ctx>, b: int, pos: int, r: Readings)
      requires Valid() && cs == Ctxs()
      modifies this`latch, this`repeatPosSet, motors`slots, motors`errorFlag, motors.Driver(b), params`latch
      ensures Valid() && State() == GotoBoard(cs, old(State()), b, pos, r)
    {
      var ok := params.IsActiveMotor(b, true);
      if !ok || !motors.slots[b].remote {
        return;
      }
      ghost var st := State();
      ghost var s := MoveTo(cs[b], st.axes[b], pos, !st.repeat[b], r);
      var status := MovePolled(cs, b, pos, !repeatPosSet[b], r);
      Settle(st, b, s, true, status, "Could not set motor pos with remote");
    }

    /** VEL<b>=<vel> from the remote. */
    method ProcessVel(ghost cs: seq<Ctx>, b: int, vel: int, r: Readings, now: int)
      requires Valid() && cs == Ctxs()
      modifies this`latch, this`repeatPosSet, motors`slots, motors`errorFlag, motors.Driver(b), params`latch
      ensures Valid() && State() == DriveBoard(cs, old(State()), b, vel, r, now)
    {
      var ok := params.IsActiveMotor(b, true);
      if !ok || !motors.slots[b].remote {
        return;
      }
      ghost var st := State();
      ghost var s := MoveVel(cs[b], st.axes[b], vel, r, now);
      var status := VelPolled(cs, b, vel, r, now);
      Settle(st, b, s, false, status, "Could not set motor vel with remote");
    }

    /** After a remote move with status `status`: repeatPosSet of the board, then the error message on failure. */
    method Settle(ghost st: Relay, b: int, ghost s: Step, rep: bool, status: int, msg: string)
      requires Valid() && Fits(st) && ValidBoard(b) && status == s.err && State() == Polled(st, b, s.ax)
      modifies this`latch, this`repeatPosSet
      ensures Valid() && State() == Moved(st, b, s, rep, msg)
    {
      repeatPosSet := repeatPosSet[b := rep];
      if status != ErrNone {
        SetErrorMsg(msg);
      }
    }

    /** Motors::MoveToPos on an active board: its outcome is the board's new state. */
    method MovePolled(ghost cs: seq<Ctx>, b: int, pos: int, setVel: bool, r: Readings) returns (err: int)
      requires Valid() && cs == Ctxs() && Live(cs, b)
      modifies motors`slots, motors`errorFlag, motors.Driver(b), params`latch
      ensures Valid()
      ensures var s := MoveTo(motors.CtxOf(b), old(motors.AxisOf(b)), pos, setVel, r);
        err == s.err && State() == Polled(old(State()), b, s.ax)
    {
      err := motors.MoveToPos(b, pos, setVel, r);
      motors.AxesFromFrame(b);
    }

    /** Motors::MoveAtVel on an active board: its outcome is the board's new state. */
    method VelPolled(ghost cs: seq<Ctx>, b: int, vel: int, r: Readings, now: int) returns (err: int)
      requires Valid() && cs == Ctxs() && Live(cs, b)
      modifies motors`slots, motors`errorFlag, motors.Driver(b), params`latch
      ensures Valid()
      ensures var s := MoveVel(motors.CtxOf(b), old(motors.AxisOf(b)), vel, r, now);
        err == s.err && State() == Polled(old(State()), b, s.ax)
    {
      err := motors.MoveAtVel(b, vel, r, now);
      motors.AxesFromFrame(b);
    }

    /** ACCREQ<b> from the remote: the board is handed over and its ENAB entry stored. */
    method ProcessClaim(ghost cs: seq<Ctx>, b: int)
      requires Valid() && cs == Ctxs()
      modifies this`latch, this`tx, this`repeatPosSet, motors`slots, params`latch, params`remoteParamArr
      ensures Valid() && State() == ClaimBoard(cs, old(State()), b)
    {
      var ok := params.IsActiveMotor(b, true);
      if !ok {
        return;
      }
      repeatPosSet := repeatPosSet[b := false];
      ghost var claimed := State();
      var _ := SendRemoteCommand("ENAB", b, 1);
      ghost var s := Send(cs, claimed, "ENAB", b, 1);
      assert State() == s.st;
      StoreClaim(b);
      assert claimed == old(State()).(repeat := old(State()).repeat[b := false]);
    }

    /** The end of ACCREQ: FindRemoteParamIndex(board, "ENAB"), then SetRemoteParams(board, index, 1). */
    method StoreClaim(b: int)
      requires Valid() && ValidBoard(b)
      modifies this`latch, params`remoteParamArr, params`latch
      ensures Valid() && State() == old(State()).(rprm := SetCell(old(State()).rprm, b, ENAB, 1))
    {
      RemoteParamIdsFound(ENAB);
      var _, idx := FindRemoteParamIndex("ENAB");
      var _ := params.SetRemoteParams(b, idx, 1);
    }
  }
}
