// ControllerComm on the remote unit: the UART link to the controller. Frames
// from the controller carry settings (displayed positions, remote enable,
// joystick and encoder settings); the remote sends back joystick velocities and
// encoder positions of the channels it controls, and an access request when a
// button is pressed on a channel it does not control. The buttons also switch
// a channel between joystick and encoder input.
module ControllerLink {
  import opened Common
  import opened Text
  import Frame
  import RemoteRelay
  import S = SensAdjustInput
  import J = JoystickInput
  import E = EncoderInput
  import D = PositionDisplay

  const UartSendIntervalMs := 20
  const UartReceiveIntervalMs := 10
  const InputModeCheckIntervalMs := 10
  const InputModeDebounceTimeoutMs := 300

  // ---------------------------------------------------------------------------
  // Commands from the controller
  // ---------------------------------------------------------------------------

  datatype Key = Pos | Enab | JoyMax | JoyDir | EncStep | EncDir

  /** The key of each sscanf format of processCommand. */
  function KeyText(k: Key): (t: string)
    ensures |t| >= 3 && '|' !in t && '>' !in t && ';' !in t && '\0' !in t
  {
    match k
    case Pos => "POS"
    case Enab => "ENAB"
    case JoyMax => "JMAX"
    case JoyDir => "JDIR"
    case EncStep => "ESTP"
    case EncDir => "EDIR"
  }

  /** The strncmp(cmd, key, 3) tests of processCommand, in their order. */
  function Leading(cmd: string): Option<Key>
  {
    if "POS" <= cmd then Some(Pos)
    else if "ENA" <= cmd then Some(Enab)
    else if "JMA" <= cmd then Some(JoyMax)
    else if "JDI" <= cmd then Some(JoyDir)
    else if "EST" <= cmd then Some(EncStep)
    else if "EDI" <= cmd then Some(EncDir)
    else None
  }

  /** What processCommand makes of a command: an action, a failed scan (-1), or nothing (0). */
  datatype Command = Cmd(key: Key, ch: int, v: int) | Malformed | Ignored

  /** The channel is an int8_t read with %hhi, the value an int32_t read with %i. */
  predicate WellFormed(c: Command)
  {
    c.Cmd? ==> -128 <= c.ch < 128 && IsInt32(c.v)
  }

  /**
   * The first three characters pick the key; the full "KEY%hhi=%i" must then
   * scan both numbers.
   */
  function Decode(cmd: string): (c: Command)
    ensures WellFormed(c)
    ensures c.Cmd? ==> Leading(cmd) == Some(c.key) && KeyText(c.key) <= cmd
    ensures c.Ignored? <==> Leading(cmd).None?
  {
    match Leading(cmd)
    case None => Ignored
    case Some(k) =>
      var vals := Scan(cmd, RemoteRelay.KeyFormat(KeyText(k)));
      ScanKey(cmd, KeyText(k));
      if |vals| == 2 then Cmd(k, vals[0], vals[1]) else Malformed
  }

  /** processCommand's return value. */
  function Code(c: Command): int
  {
    if c.Malformed? then -1 else 0
  }

  /** Two values scanned with "KEY%hhi=%i" are an int8 and an int32, and the text starts with the key. */
  lemma ScanKey(cmd: string, key: string)
    ensures var vals := Scan(cmd, RemoteRelay.KeyFormat(key));
      |vals| == 2 ==> key <= cmd && -128 <= vals[0] < 128 && IsInt32(vals[1])
  {
    var fmt := RemoteRelay.KeyFormat(key);
    if key <= cmd {
      var s1 := cmd[|key|..];
      assert Scan(cmd, fmt) == Scan(s1, fmt[1..]);
      match ParseInteger(s1)
      case None =>
      case Some(p) =>
        assert Scan(s1, fmt[1..]) == [Convert(Int8Conv, p.value)] + Scan(p.rest, fmt[2..]);
        var s2 := p.rest;
        if "=" <= s2 {
          assert Scan(s2, fmt[2..]) == Scan(s2[1..], fmt[3..]);
          match ParseInteger(s2[1..])
          case None =>
          case Some(q) =>
            assert Scan(s2[1..], fmt[3..]) == [Convert(Int32Conv, q.value)] + Scan(q.rest, fmt[4..]);
        }
    }
  }

  /** A text that starts with a full key is taken for that key. */
  lemma LeadingOfKey(k: Key, t: string)
    requires KeyText(k) <= t
    ensures Leading(t) == Some(k)
  {
    var key := KeyText(k);
    assert t[0] == key[0] && t[1] == key[1] && t[2] == key[2];
    assert t[..3] == key[..3];
  }

  /** A command the controller sends ("KEY<ch>=<v>") is decoded as that command. */
  lemma DecodeSent(k: Key, ch: int, v: int)
    requires -128 <= ch < 128 && IsInt32(v)
    ensures Decode(RemoteRelay.CommandText(KeyText(k), ch, v)) == Cmd(k, ch, v)
  {
    var t := RemoteRelay.CommandText(KeyText(k), ch, v);
    RemoteRelay.KeyLeads(KeyText(k), ch, v);
    LeadingOfKey(k, t);
    RemoteRelay.CommandTextScans(KeyText(k), ch, v);
  }

  /** Only three characters are compared: "ENAX..." is taken for ENAB and fails its scan. */
  lemma LeadOnlyMalformed()
    ensures Decode("ENAX1=1") == Malformed && Code(Decode("ENAX1=1")) == -1
  {
    var t := "ENAX1=1";
    assert t[..3] == "ENA" && t[0] != "POS"[0];
    assert !("ENAB" <= t) by { assert t[3] != "ENAB"[3]; }
  }

  // ---------------------------------------------------------------------------
  // The remote unit's state and its inputs
  // ---------------------------------------------------------------------------

  /**
   * What the link reads and changes: its own flags, timers and sent frames,
   * the two joystick axes and the joystick button flags, the encoder channels
   * and button flags, the sensitivity unit's last average and the displayed
   * positions.
   */
  datatype Unit = Unit(
    rc: seq<bool>, jc: seq<bool>,
    sticks: seq<J.Stick>, jbtn: seq<bool>,
    chans: seq<E.Channel>, ebtn: seq<bool>,
    sensLast: int, shown: seq<int>, tx: seq<string>,
    rxTime: int, txTime: int, modeTime: int, pressTimes: seq<int>)

  predicate Fits(u: Unit)
  {
    |u.rc| == MaxNumMotors && |u.jc| == MaxNumMotors && |u.sticks| == 2 && |u.jbtn| == MaxNumMotors
    && |u.chans| == MaxNumMotors && E.AllFit(u.chans) && |u.ebtn| == MaxNumMotors
    && |u.shown| == MaxNumMotors && (forall i :: 0 <= i < MaxNumMotors ==> IsInt32(u.shown[i]))
    && |u.pressTimes| == MaxNumMotors
  }

  /**
   * What the link reads but does not change: the averaged joystick and
   * sensitivity ADC inputs, the sensitivity unit's pin and direction, which
   * encoder channels have pins and buttons, and the encoder counts the PIO
   * reports.
   */
  datatype Env = Env(joyAvg: seq<int>, sensPin: bool, sensDir: int, sensAvg: int,
                     encPin: seq<bool>, encButton: seq<bool>, counts: seq<int>)

  predicate Counts(counts: seq<int>)
  {
    |counts| == MaxNumMotors && forall i :: 0 <= i < MaxNumMotors ==> IsInt32(counts[i])
  }

  predicate EnvFits(e: Env)
  {
    |e.joyAvg| == 2 && |e.encPin| == MaxNumMotors && |e.encButton| == MaxNumMotors && Counts(e.counts)
  }

  /** The factor every read of the sensitivity unit returns. */
  function Sensitivity(e: Env): int
  {
    S.Factor(e.sensPin, e.sensDir, e.sensAvg)
  }

  /** The sensitivity unit's lastADCValue after one more read. */
  function SensNext(e: Env, last: int): int
  {
    S.Updated(e.sensPin, e.sensDir, e.sensAvg, last).last
  }

  function Shown(u: Unit, ch: int): int
    requires Fits(u)
  {
    if ValidBoard(ch) then u.shown[ch] else 0
  }

  function Count(e: Env, ch: int): int
    requires EnvFits(e)
  {
    if ValidBoard(ch) then e.counts[ch] else 0
  }

  /** Encoders::resetEncoderReference(ch): the channel is re-based on the displayed position. */
  function Rebase(u: Unit, e: Env, ch: int): (t: Unit)
    requires Fits(u) && EnvFits(e)
    ensures Fits(t)
  {
    E.BankFits(e.encPin, u.chans, ch, Count(e, ch), Sensitivity(e), Shown(u, ch), 0);
    u.(chans := E.Rebased(e.encPin, u.chans, ch, Count(e, ch), Sensitivity(e), Shown(u, ch)),
       sensLast := if E.Senses(e.encPin, ch) then SensNext(e, u.sensLast) else u.sensLast)
  }

  /** Two sticks, one replaced. */
  lemma TunedSticks(u: Unit, e: Env, ch: int, s: J.Stick)
    requires Fits(u) && EnvFits(e)
    ensures J.AxisPresent(ch) ==> Tuned(u, e, ch, s).sticks == [if ch == 0 then s.(centerADCValue := e.joyAvg[0]) else u.sticks[0], if ch == 1 then s.(centerADCValue := e.joyAvg[1]) else u.sticks[1]]
  {
  }

  /** A joystick setting followed by updateCalibration: the current average becomes the centre. */
  function Tuned(u: Unit, e: Env, ch: int, s: J.Stick): Unit
    requires Fits(u) && EnvFits(e) && J.AxisPresent(ch)
  {
    u.(sticks := u.sticks[ch := s.(centerADCValue := e.joyAvg[ch])])
  }

  /**
   * processCommand once decoded. POS sets a displayed position; ENAB sets the
   * remote-control flag and, when enabling, re-bases the encoder; JMAX and
   * JDIR change the joystick and recalibrate its centre; ESTP and EDIR change
   * the encoder and re-base it. Unsupported channels are ignored by every
   * callee; a malformed or unknown command changes nothing.
   */
  function Apply(u: Unit, e: Env, c: Command): (t: Unit)
    requires Fits(u) && EnvFits(e) && WellFormed(c)
    ensures Fits(t)
  {
    match c
    case Cmd(Pos, ch, v) => if ValidBoard(ch) then u.(shown := u.shown[ch := v]) else u
    case Cmd(Enab, ch, v) =>
      var t := if ValidBoard(ch) then u.(rc := u.rc[ch := v != 0]) else u;
      if v != 0 then Rebase(t, e, ch) else t
    case Cmd(JoyMax, ch, v) => if J.AxisPresent(ch) then Tuned(u, e, ch, u.sticks[ch].(maxValue := v)) else u
    case Cmd(JoyDir, ch, v) => if J.AxisPresent(ch) then Tuned(u, e, ch, J.Directed(u.sticks[ch], v)) else u
    case Cmd(EncStep, ch, v) =>
      E.BankFits(e.encPin, u.chans, ch, Count(e, ch), Sensitivity(e), Shown(u, ch), v);
      Rebase(u.(chans := E.Stepped(u.chans, ch, v)), e, ch)
    case Cmd(EncDir, ch, v) =>
      E.BankFits(e.encPin, u.chans, ch, Count(e, ch), Sensitivity(e), Shown(u, ch), v);
      Rebase(u.(chans := E.Directed(u.chans, ch, v)), e, ch)
    case _ => u
  }

  /** The tokens of a multi-command frame, processed in order. */
  function ApplyAll(u: Unit, e: Env, ts: seq<string>): (t: Unit)
    requires Fits(u) && EnvFits(e)
    ensures Fits(t)
    decreases |ts|
  {
    if ts == [] then u else ApplyAll(Apply(u, e, Decode(ts[0])), e, ts[1..])
  }

  /**
   * receiveUpdatesFromController: once the interval has elapsed, no data only
   * restarts the interval; a refused frame changes nothing; a payload without
   * ';' is one command and does not restart the interval; otherwise each
   * strtok token is processed and the interval restarts.
   */
  function Receive(u: Unit, e: Env, now: int, rx: Option<string>): (t: Unit)
    requires Fits(u) && EnvFits(e)
    ensures Fits(t)
  {
    if Elapsed(now, u.rxTime) <= UartReceiveIntervalMs then u
    else match rx
      case None => u.(rxTime := now)
      case Some(data) =>
        match Frame.ValidateChecksum(data)
        case None => u
        case Some(p) =>
          if ';' !in p then Apply(u, e, Decode(p))
          else ApplyAll(u, e, Tokens(p, ';')).(rxTime := now)
  }

  // ---------------------------------------------------------------------------
  // Updates to the controller
  // ---------------------------------------------------------------------------

  /** The tokens of an update and the state after the reads that made them. */
  datatype Swept = Swept(tokens: seq<string>, u: Unit)

  /**
   * One channel of sendUpdatesToController: nothing unless remote-controlled;
   * a joystick-controlled channel with an axis reports a changed velocity, any
   * other channel with an encoder pin a changed position. Each read also reads
   * the sensitivity unit.
   */
  function ReportChannel(u: Unit, e: Env, idx: int): (s: Swept)
    requires Fits(u) && EnvFits(e) && ValidBoard(idx)
    ensures Fits(s.u) && s.u.rc == u.rc && s.u.jc == u.jc && s.u.tx == u.tx
  {
    if !u.rc[idx] then Swept([], u)
    else if u.jc[idx] && J.AxisPresent(idx) then
      var r := J.Polled(u.sticks[idx], e.joyAvg[idx], Sensitivity(e));
      Swept(if r.changed then [RemoteRelay.CommandText("VEL", idx, r.value)] else [],
            u.(sticks := u.sticks[idx := r.stick], sensLast := SensNext(e, u.sensLast)))
    else if e.encPin[idx] then
      var p := E.ChangedPosition(e.encPin, u.chans, idx, e.counts[idx], Sensitivity(e));
      E.BankFits(e.encPin, u.chans, idx, e.counts[idx], Sensitivity(e), 0, 0);
      Swept(if p.changed then [RemoteRelay.CommandText("POS", idx, p.pos)] else [],
            u.(chans := p.channels, sensLast := SensNext(e, u.sensLast)))
    else Swept([], u)
  }

  /** The first n channels, in order. */
  function Reports(u: Unit, e: Env, n: nat): (s: Swept)
    requires Fits(u) && EnvFits(e) && n <= MaxNumMotors
    ensures Fits(s.u) && s.u.rc == u.rc && s.u.jc == u.jc && s.u.tx == u.tx
  {
    if n == 0 then Swept([], u)
    else
      var a := Reports(u, e, n - 1);
      var b := ReportChannel(a.u, e, n - 1);
      Swept(a.tokens + b.tokens, b.u)
  }

  /**
   * sendUpdatesToController: once the interval has elapsed the channels are
   * read; with at least one token the ';'-joined tokens are framed and sent and
   * the interval restarts, otherwise nothing is sent and the interval goes on.
   */
  function SendUpdates(u: Unit, e: Env, now: int): (t: Unit)
    requires Fits(u) && EnvFits(e)
    ensures Fits(t)
  {
    if Elapsed(now, u.txTime) <= UartSendIntervalMs then u else Transmitted(Reports(u, e, MaxNumMotors), now)
  }

  /** The frame of the ';'-joined tokens, when there are any; the send interval restarts with it. */
  function Transmitted(s: Swept, now: int): (t: Unit)
    requires Fits(s.u)
    ensures Fits(t)
  {
    if s.tokens == [] then s.u
    else s.u.(tx := s.u.tx + [Frame.Encode(Join(s.tokens, ';'))], txTime := now)
  }

  // ---------------------------------------------------------------------------
  // Input mode
  // ---------------------------------------------------------------------------

  predicate EncPressed(u: Unit, e: Env, idx: int)
    requires Fits(u) && EnvFits(e) && ValidBoard(idx)
  {
    e.encButton[idx] && u.ebtn[idx]
  }

  predicate JoyPressed(u: Unit, idx: int)
    requires Fits(u) && ValidBoard(idx)
  {
    J.ButtonPresent(idx) && u.jbtn[idx]
  }

  /**
   * One channel of inputModeCheck: with a button pressed and the debounce time
   * over, a channel not under remote control requests access; a
   * joystick-controlled channel switches to the encoder (re-basing it) when
   * the encoder button is pressed, an encoder-controlled one to the joystick
   * when the joystick button is pressed; then both buttons are cleared and the
   * time of the action is kept.
   */
  function ModeChannel(u: Unit, e: Env, now: int, idx: int): (t: Unit)
    requires Fits(u) && EnvFits(e) && ValidBoard(idx)
    ensures Fits(t) && t.rc == u.rc
    ensures forall j :: 0 <= j < MaxNumMotors && j != idx ==>
      t.jc[j] == u.jc[j] && t.jbtn[j] == u.jbtn[j] && t.ebtn[j] == u.ebtn[j] && t.pressTimes[j] == u.pressTimes[j]
  {
    if !EncPressed(u, e, idx) && !JoyPressed(u, idx) then u
    else if Elapsed(now, u.pressTimes[idx]) <= InputModeDebounceTimeoutMs then u
    else Cleared(Switched(Requested(u, idx), e, idx), e, now, idx)
  }

  /** The access request of a channel not under remote control. */
  function Requested(u: Unit, idx: int): (t: Unit)
    requires Fits(u) && ValidBoard(idx)
  {
    if !u.rc[idx] then u.(tx := u.tx + [Frame.Encode(RemoteRelay.ClaimText(idx))]) else u
  }

  /** The switch of input mode the pressed button asks for. */
  function Switched(u: Unit, e: Env, idx: int): (t: Unit)
    requires Fits(u) && EnvFits(e) && ValidBoard(idx)
    ensures Fits(t) && t.rc == u.rc && t.jbtn == u.jbtn && t.ebtn == u.ebtn && t.pressTimes == u.pressTimes
    ensures forall j :: 0 <= j < MaxNumMotors && j != idx ==> t.jc[j] == u.jc[j]
  {
    if u.jc[idx] then
      if EncPressed(u, e, idx) then Rebase(u.(jc := u.jc[idx := false]), e, idx) else u
    else if JoyPressed(u, idx) then u.(jc := u.jc[idx := true])
    else u
  }

  /** Both buttons are cleared and the time of the action is kept. */
  function Cleared(u: Unit, e: Env, now: int, idx: int): (t: Unit)
    requires Fits(u) && EnvFits(e) && ValidBoard(idx)
  {
    u.(ebtn := if e.encButton[idx] then u.ebtn[idx := false] else u.ebtn,
       jbtn := if J.ButtonPresent(idx) then u.jbtn[idx := false] else u.jbtn,
       pressTimes := u.pressTimes[idx := now])
  }

  /** The first n channels, in order. */
  function ModeUpTo(u: Unit, e: Env, now: int, n: nat): (t: Unit)
    requires Fits(u) && EnvFits(e) && n <= MaxNumMotors
    ensures Fits(t)
  {
    if n == 0 then u else ModeChannel(ModeUpTo(u, e, now, n - 1), e, now, n - 1)
  }

  /** inputModeCheck: every channel once the check interval has elapsed. */
  function ModeCheck(u: Unit, e: Env, now: int): (t: Unit)
    requires Fits(u) && EnvFits(e)
    ensures Fits(t)
  {
    if Elapsed(now, u.modeTime) <= InputModeCheckIntervalMs then u
    else ModeUpTo(u, e, now, MaxNumMotors).(modeTime := now)
  }

  // ---------------------------------------------------------------------------
  // Properties
  // ---------------------------------------------------------------------------

  /** ENAB 0 clears the channel's remote-control flag and changes nothing else. */
  lemma DisableOnly(u: Unit, e: Env, ch: int)
    requires Fits(u) && EnvFits(e) && -128 <= ch < 128
    ensures Apply(u, e, Cmd(Enab, ch, 0)) == if ValidBoard(ch) then u.(rc := u.rc[ch := false]) else u
  {
  }

  /**
   * The hand-over: ENAB with a non-zero value puts the channel under remote
   * control and re-bases its encoder on the displayed position, so that the
   * next read with the same count reports exactly that position and no change,
   * and an encoder-controlled channel sends nothing back.
   */
  lemma EnableHandsOver(u: Unit, e: Env, ch: int, v: int)
    requires Fits(u) && EnvFits(e) && ValidBoard(ch) && IsInt32(v) && v != 0 && e.encPin[ch]
    ensures var t := Apply(u, e, Cmd(Enab, ch, v));
      t.rc[ch] && t.jc == u.jc && t.sticks == u.sticks && t.shown == u.shown
      && E.ChangedPosition(e.encPin, t.chans, ch, e.counts[ch], Sensitivity(e)) == E.Polled(false, u.shown[ch], t.chans)
      && (!t.jc[ch] ==> ReportChannel(t, e, ch).tokens == [])
  {
    E.ReadAfterRebase(u.chans[ch], e.counts[ch], Sensitivity(e), u.shown[ch]);
  }

  /** A token free of the frame's and the batch's separators. */
  predicate Plain(t: string)
  {
    t != [] && '|' !in t && '>' !in t && ';' !in t && '\0' !in t
  }

  /**
   * What the controller may receive from a remote update: a velocity for a
   * remote- and joystick-controlled channel with an axis, or a position for a
   * remote-controlled channel with an encoder that is not read as joystick.
   */
  predicate Granted(rc: seq<bool>, jc: seq<bool>, e: Env, m: RemoteRelay.Incoming)
    requires |rc| == |jc| == MaxNumMotors && EnvFits(e)
  {
    (m.Drive? && ValidBoard(m.board) && rc[m.board] && jc[m.board] && J.AxisPresent(m.board))
    || (m.Goto? && ValidBoard(m.board) && rc[m.board] && !(jc[m.board] && J.AxisPresent(m.board)) && e.encPin[m.board])
  }

  /** Every token is plain and granted. */
  predicate AllGranted(rc: seq<bool>, jc: seq<bool>, e: Env, ts: seq<string>)
    requires |rc| == |jc| == MaxNumMotors && EnvFits(e)
  {
    forall i :: 0 <= i < |ts| ==> Plain(ts[i]) && Granted(rc, jc, e, RemoteRelay.Decode(ts[i]))
  }

  lemma GrantedConcat(rc: seq<bool>, jc: seq<bool>, e: Env, a: seq<string>, b: seq<string>)
    requires |rc| == |jc| == MaxNumMotors && EnvFits(e)
    requires AllGranted(rc, jc, e, a) && AllGranted(rc, jc, e, b)
    ensures AllGranted(rc, jc, e, a + b)
  {
    forall i | 0 <= i < |a + b| ensures Plain((a + b)[i]) && Granted(rc, jc, e, RemoteRelay.Decode((a + b)[i])) {
      if i >= |a| {
        assert (a + b)[i] == b[i - |a|];
      }
    }
  }

  lemma ReportChannelGranted(u: Unit, e: Env, idx: int)
    requires Fits(u) && EnvFits(e) && ValidBoard(idx)
    ensures AllGranted(u.rc, u.jc, e, ReportChannel(u, e, idx).tokens)
  {
    if u.rc[idx] {
      if u.jc[idx] && J.AxisPresent(idx) {
        var r := J.Polled(u.sticks[idx], e.joyAvg[idx], Sensitivity(e));
        J.OutputFits(u.sticks[idx], e.joyAvg[idx], Sensitivity(e));
        TokenGranted(u.rc, u.jc, e, "VEL", idx, r.value);
      } else if e.encPin[idx] {
        var p := E.ChangedPosition(e.encPin, u.chans, idx, e.counts[idx], Sensitivity(e));
        TokenGranted(u.rc, u.jc, e, "POS", idx, p.pos);
      }
    }
  }

  /** One velocity or position token of a channel the report may speak for. */
  lemma TokenGranted(rc: seq<bool>, jc: seq<bool>, e: Env, key: string, idx: int, v: int)
    requires |rc| == |jc| == MaxNumMotors && EnvFits(e) && ValidBoard(idx) && IsInt32(v) && rc[idx]
    requires key == "VEL" ==> jc[idx] && J.AxisPresent(idx)
    requires key == "POS" ==> !(jc[idx] && J.AxisPresent(idx)) && e.encPin[idx]
    requires key == "VEL" || key == "POS"
    ensures AllGranted(rc, jc, e, [RemoteRelay.CommandText(key, idx, v)])
  {
    if key == "VEL" {
      RemoteRelay.DecodeDrive(idx, v);
    } else {
      RemoteRelay.DecodeGoto(idx, v);
    }
    RemoteRelay.CommandTextPlain(key, idx, v);
  }

  lemma {:induction false} ReportsGranted(u: Unit, e: Env, n: nat)
    requires Fits(u) && EnvFits(e) && n <= MaxNumMotors
    ensures AllGranted(u.rc, u.jc, e, Reports(u, e, n).tokens)
  {
    if n > 0 {
      var a := Reports(u, e, n - 1);
      ReportsGranted(u, e, n - 1);
      ReportChannelGranted(a.u, e, n - 1);
      GrantedConcat(u.rc, u.jc, e, a.tokens, ReportChannel(a.u, e, n - 1).tokens);
    }
  }

  /**
   * An update that sends anything sends one frame, which the controller's
   * receiver accepts and splits into exactly the tokens; each token is a
   * velocity or a position of a channel the controller handed over.
   */
  lemma UpdateDelivered(u: Unit, e: Env, now: int)
    requires Fits(u) && EnvFits(e)
    requires Elapsed(now, u.txTime) > UartSendIntervalMs && Reports(u, e, MaxNumMotors).tokens != []
    ensures var ts := Reports(u, e, MaxNumMotors).tokens;
      SendUpdates(u, e, now).tx == u.tx + [Frame.Encode(Join(ts, ';'))]
      && RemoteRelay.Inbox(Some(Frame.Received(Join(ts, ';')))) == RemoteRelay.Batch(ts)
      && AllGranted(u.rc, u.jc, e, ts)
  {
    var ts := Reports(u, e, MaxNumMotors).tokens;
    ReportsGranted(u, e, MaxNumMotors);
    assert Tokenizable(ts, ';');
    RemoteRelay.BatchRoundTrip(ts);
  }

  /** The filled buffer with its last ';' overwritten is the C string of the ';'-joined tokens. */
  lemma SentText(ts: seq<string>)
    requires ts != [] && forall i :: 0 <= i < |ts| ==> Plain(ts[i])
    ensures var b := RemoteRelay.Terminated(ts); |b| > 0 && CStr(b[..|b| - 1]) == Join(ts, ';')
  {
    var b := RemoteRelay.Terminated(ts);
    RemoteRelay.TerminatedJoin(ts);
    RemoteRelay.JoinPlain(ts, ';');
    assert b[..|b| - 1] == Join(ts, ';');
  }

  /**
   * The send step in terms of the report: nothing is sent without tokens,
   * otherwise the frame holds the buffer without its last ';'.
   */
  lemma SendOf(ts: seq<string>, t: Unit, now: int)
    requires Fits(t) && forall i :: 0 <= i < |ts| ==> Plain(ts[i])
    ensures ts == [] ==> Transmitted(Swept(ts, t), now) == t
    ensures ts != [] ==> var b := RemoteRelay.Terminated(ts);
      |b| > 0 && Transmitted(Swept(ts, t), now) == t.(tx := t.tx + [Frame.Encode(CStr(b[..|b| - 1]))], txTime := now)
  {
    if ts != [] {
      SentText(ts);
    }
  }

  /** "ACCREQ<b>" holds no separator. */
  lemma ClaimPlain(b: int)
    requires ValidBoard(b)
    ensures Plain(RemoteRelay.ClaimText(b))
  {
    var t := RemoteRelay.ClaimText(b);
    assert t == "ACCREQ" + [DigitChar(b)] by {
      assert IntToDec(b) == NatToDec(b) == [DigitChar(b)];
    }
  }

  /** The access request is accepted by the controller as a claim on that channel. */
  lemma ClaimDelivered(b: int)
    requires ValidBoard(b)
    ensures RemoteRelay.Inbox(Some(Frame.Received(RemoteRelay.ClaimText(b)))) == RemoteRelay.Batch([RemoteRelay.ClaimText(b)])
    ensures RemoteRelay.Decode(RemoteRelay.ClaimText(b)) == RemoteRelay.Claim(b)
  {
    var t := RemoteRelay.ClaimText(b);
    ClaimPlain(b);
    RemoteRelay.DeliveredBatch(t);
    RemoteRelay.DecodeClaim(b);
  }

  /** A single command from the controller is applied, and the receive interval does not restart. */
  lemma ReceiveSingle(u: Unit, e: Env, now: int, k: Key, ch: int, v: int)
    requires Fits(u) && EnvFits(e) && Elapsed(now, u.rxTime) > UartReceiveIntervalMs
    requires -128 <= ch < 128 && IsInt32(v)
    ensures var t := RemoteRelay.CommandText(KeyText(k), ch, v);
      Receive(u, e, now, Some(Frame.Received(t))) == Apply(u, e, Cmd(k, ch, v))
  {
    var t := RemoteRelay.CommandText(KeyText(k), ch, v);
    RemoteRelay.CommandTextPlain(KeyText(k), ch, v);
    Frame.FrameRoundTrip(t);
    DecodeSent(k, ch, v);
  }

  /** A frame of several ';'-joined commands applies each in order and restarts the interval. */
  lemma ReceiveBatch(u: Unit, e: Env, now: int, ts: seq<string>)
    requires Fits(u) && EnvFits(e) && Elapsed(now, u.rxTime) > UartReceiveIntervalMs
    requires |ts| >= 2 && forall i :: 0 <= i < |ts| ==> Plain(ts[i])
    ensures Receive(u, e, now, Some(Frame.Received(Join(ts, ';')))) == ApplyAll(u, e, ts).(rxTime := now)
  {
    var p := Join(ts, ';');
    assert Tokenizable(ts, ';');
    RemoteRelay.JoinPlain(ts, ';');
    Frame.FrameRoundTrip(p);
    assert p == ts[0] + [';'] + Join(ts[1..], ';');
    assert p[|ts[0]|] == ';';
    TokensOfJoin(ts, ';');
  }

  /** A frame whose payload had one byte changed in transit is dropped: nothing changes. */
  lemma CorruptFrameIgnored(u: Unit, e: Env, now: int, payload: string, i: nat, c: char)
    requires Fits(u) && EnvFits(e)
    requires '|' !in payload && '>' !in payload && '\0' !in payload
    requires i < |payload| && c != '|' && c != '\0' && c != '>'
    requires (c as int - payload[i] as int) % 256 != 0
    ensures Receive(u, e, now, Some("<" + payload[i := c] + "|" + NatToDec(Frame.Checksum(payload)))) == u
  {
    Frame.SingleByteCorruptionDetected(payload, i, c);
  }

  /**
   * A press of the joystick button on an encoder-controlled channel switches
   * it to joystick input once the debounce time is over, and clears both
   * buttons; the encoder is left as it was.
   */
  lemma JoystickTakesOver(u: Unit, e: Env, now: int, idx: int)
    requires Fits(u) && EnvFits(e) && ValidBoard(idx)
    requires JoyPressed(u, idx) && !u.jc[idx] && Elapsed(now, u.pressTimes[idx]) > InputModeDebounceTimeoutMs
    ensures var t := ModeChannel(u, e, now, idx);
      t.jc[idx] && !JoyPressed(t, idx) && !EncPressed(t, e, idx) && t.pressTimes[idx] == now
      && t.chans == u.chans && t.rc == u.rc
  {
  }

  /**
   * A press of the encoder button on a joystick-controlled channel switches it
   * to encoder input and re-bases the encoder, so that the next read with the
   * same count shows the displayed position and no change.
   */
  lemma EncoderTakesOver(u: Unit, e: Env, now: int, idx: int)
    requires Fits(u) && EnvFits(e) && ValidBoard(idx) && e.encPin[idx]
    requires EncPressed(u, e, idx) && u.jc[idx] && Elapsed(now, u.pressTimes[idx]) > InputModeDebounceTimeoutMs
    ensures var t := ModeChannel(u, e, now, idx);
      !t.jc[idx] && !JoyPressed(t, idx) && !EncPressed(t, e, idx) && t.pressTimes[idx] == now
      && E.ChangedPosition(e.encPin, t.chans, idx, e.counts[idx], Sensitivity(e)) == E.Polled(false, u.shown[idx], t.chans)
  {
    E.ReadAfterRebase(u.chans[idx], e.counts[idx], Sensitivity(e), u.shown[idx]);
  }

  /** A press on a channel not under remote control sends one access request and leaves the flag to the controller. */
  lemma ClaimRequested(u: Unit, e: Env, now: int, idx: int)
    requires Fits(u) && EnvFits(e) && ValidBoard(idx)
    requires (EncPressed(u, e, idx) || JoyPressed(u, idx)) && !u.rc[idx]
    requires Elapsed(now, u.pressTimes[idx]) > InputModeDebounceTimeoutMs
    ensures var t := ModeChannel(u, e, now, idx);
      t.tx == u.tx + [Frame.Encode(RemoteRelay.ClaimText(idx))] && !t.rc[idx]
  {
  }

  /** Within the debounce time of an action, new presses are kept pending and change nothing. */
  lemma DebounceHolds(u: Unit, e: Env, now: int, later: int, idx: int, ebtn: seq<bool>, jbtn: seq<bool>)
    requires Fits(u) && EnvFits(e) && ValidBoard(idx) && |ebtn| == MaxNumMotors && |jbtn| == MaxNumMotors
    requires (EncPressed(u, e, idx) || JoyPressed(u, idx)) && Elapsed(now, u.pressTimes[idx]) > InputModeDebounceTimeoutMs
    requires Elapsed(later, now) <= InputModeDebounceTimeoutMs
    ensures var t := ModeChannel(u, e, now, idx).(ebtn := ebtn, jbtn := jbtn);
      ModeChannel(t, e, later, idx) == t
  {
  }

  /**
   * The joystick button is shared by channels 0 and 1 and its interrupt flags
   * both: one press switches both encoder-controlled channels to joystick input.
   */
  lemma SharedButtonSwitchesBoth(u: Unit, e: Env, now: int)
    requires Fits(u) && EnvFits(e) && u.jbtn[0] && u.jbtn[1] && !u.jc[0] && !u.jc[1]
    requires Elapsed(now, u.pressTimes[0]) > InputModeDebounceTimeoutMs && Elapsed(now, u.pressTimes[1]) > InputModeDebounceTimeoutMs
    ensures var t := ModeUpTo(u, e, now, MaxNumMotors); t.jc[0] && t.jc[1]
  {
    var t0 := ModeChannel(u, e, now, 0);
    var t1 := ModeChannel(t0, e, now, 1);
    var t2 := ModeChannel(t1, e, now, 2);
    var t3 := ModeChannel(t2, e, now, 3);
    assert ModeUpTo(u, e, now, 1) == t0;
    assert ModeUpTo(u, e, now, 2) == t1;
    assert ModeUpTo(u, e, now, 3) == t2;
  }

  // ---------------------------------------------------------------------------
  // The ControllerComm singleton
  // ---------------------------------------------------------------------------

  /**
   * The link with the flags of its header, the function statics of its loops
   * (the three timers and the per-channel button action times), the frames
   * written to Serial1, and the singletons it drives.
   */
  class ControllerComm {
    const joystick: J.Joystick
    const encoders: E.Encoders
    const display: D.Display
    const sens: S.SensAdjust
    var isRemoteControlled: seq<bool>
    var isJoystickControlled: seq<bool>
    /** The frames written to Serial1, oldest first. */
    var tx: seq<string>
    var lastUARTReceiveTime: int
    var lastUARTSendTime: int
    var lastModeUpdateTime: int
    var lastButtonActionTime: seq<int>

    ghost predicate Valid()
      reads this`isRemoteControlled, this`isJoystickControlled, this`lastButtonActionTime
      reads joystick, joystick.axis0, joystick.axis1, joystick.axis0.adcAverage, joystick.axis0.adcAverage.queue
      reads joystick.axis1.adcAverage, joystick.axis1.adcAverage.queue, encoders, display, sens.adcAverage, sens.adcAverage.queue
    {
      joystick.Valid() && encoders.Valid() && display.Valid() && sens.Valid() && Shaped()
    }

    /** The shape State() needs. */
    ghost predicate Shaped()
      reads this`isRemoteControlled, this`isJoystickControlled, this`lastButtonActionTime, joystick`buttonPressed, encoders, display
    {
      |isRemoteControlled| == MaxNumMotors && |isJoystickControlled| == MaxNumMotors
      && |lastButtonActionTime| == MaxNumMotors && |joystick.buttonPressed| == MaxNumMotors
      && encoders.Valid() && display.Valid()
    }

    /** The filters State() does not cover. */
    ghost predicate Inputs()
      reads joystick.axis0.adcAverage, joystick.axis0.adcAverage.queue, joystick.axis1.adcAverage
      reads joystick.axis1.adcAverage.queue, sens.adcAverage, sens.adcAverage.queue
    {
      joystick.axis0.adcAverage.Valid() && joystick.axis1.adcAverage.Valid() && sens.adcAverage.Valid()
      && |encoders.hasPin| == MaxNumMotors && |encoders.hasButton| == MaxNumMotors
    }

    ghost function State(): (u: Unit)
      requires Shaped()
      reads this, joystick, joystick.axis0, joystick.axis1, encoders, display, sens
      ensures Fits(u)
    {
      Unit(isRemoteControlled, isJoystickControlled, [joystick.axis0.State(), joystick.axis1.State()], joystick.buttonPressed,
           encoders.channels, encoders.buttonPressed, sens.lastADCValue, display.lastPosition, tx,
           lastUARTReceiveTime, lastUARTSendTime, lastModeUpdateTime, lastButtonActionTime)
    }

    /** The inputs of this loop iteration, with the encoder counts the PIO reports. */
    ghost function Environment(counts: seq<int>): (e: Env)
      requires Inputs() && Counts(counts)
      reads joystick.axis0.adcAverage, joystick.axis0.adcAverage.queue, joystick.axis1.adcAverage
      reads joystick.axis1.adcAverage.queue, sens.adcAverage, sens.adcAverage.queue
      ensures EnvFits(e) && e.counts == counts
    {
      Env([joystick.axis0.adcAverage.CurrentValue(), joystick.axis1.adcAverage.CurrentValue()],
          sens.hasPin, sens.direction, sens.adcAverage.CurrentValue(), encoders.hasPin, encoders.hasButton, counts)
    }

    /** The header's initial values: no channel is remote- or joystick-controlled. */
    constructor(joystick: J.Joystick, encoders: E.Encoders, display: D.Display, sens: S.SensAdjust)
      requires joystick.Valid() && encoders.Valid() && display.Valid() && sens.Valid()
      ensures Valid() && this.joystick == joystick && this.encoders == encoders && this.display == display && this.sens == sens
      ensures isRemoteControlled == [false, false, false, false] && isJoystickControlled == [false, false, false, false]
      ensures tx == [] && lastUARTReceiveTime == 0 && lastUARTSendTime == 0 && lastModeUpdateTime == 0
      ensures lastButtonActionTime == [0, 0, 0, 0]
    {
      this.joystick := joystick;
      this.encoders := encoders;
      this.display := display;
      this.sens := sens;
      isRemoteControlled := [false, false, false, false];
      isJoystickControlled := [false, false, false, false];
      tx := [];
      lastUARTReceiveTime, lastUARTSendTime, lastModeUpdateTime := 0, 0, 0;
      lastButtonActionTime := [0, 0, 0, 0];
    }

    /** sendCommand: the C string cmd, framed with its checksum, is written to Serial1. */
    method SendCommand(cmd: string)
      modifies this`tx
      ensures tx == old(tx) + [Frame.Encode(CStr(cmd))]
    {
      var sum := Frame.CalculateChecksum(cmd);
      tx := tx + ["<" + CStr(cmd) + "|" + NatToDec(sum) + ">"];
    }

    /** Encoders::resetEncoderReference with the channel's current count. */
    method ResetEncoderReference(ch: int, counts: seq<int>)
      requires Valid() && Counts(counts)
      modifies encoders`channels, sens`lastADCValue
      ensures Valid() && State() == Rebase(old(State()), Environment(counts), ch)
    {
      var count := if ValidBoard(ch) then counts[ch] else 0;
      encoders.ResetEncoderReference(ch, count, sens, display);
    }

    /**
     * processCommand: the first three characters pick the command (strncmp
     * with length 3), the full "KEY%hhi=%i" must scan, and the callees apply it.
     */
    method ProcessCommand(cmd: string, counts: seq<int>) returns (r: int)
      requires Valid() && Counts(counts)
      modifies this`isRemoteControlled, joystick.axis0, joystick.axis1, encoders`channels, sens`lastADCValue, display`lastPosition
      ensures Valid() && r == Code(Decode(cmd))
      ensures State() == Apply(old(State()), Environment(counts), Decode(cmd))
    {
      var key;
      if "POS" <= cmd {
        key := Pos;
      } else if "ENA" <= cmd {
        key := Enab;
      } else if "JMA" <= cmd {
        key := JoyMax;
      } else if "JDI" <= cmd {
        key := JoyDir;
      } else if "EST" <= cmd {
        key := EncStep;
      } else if "EDI" <= cmd {
        key := EncDir;
      } else {
        return 0;
      }
      var vals := Scan(cmd, RemoteRelay.KeyFormat(KeyText(key)));
      if |vals| != 2 {
        return -1;
      }
      ScanKey(cmd, KeyText(key));
      Perform(key, vals[0], vals[1], counts);
      r := 0;
    }

    /** The action of a command that scanned. */
    method Perform(key: Key, ch: int, v: int, counts: seq<int>)
      requires Valid() && Counts(counts) && -128 <= ch < 128 && IsInt32(v)
      modifies this`isRemoteControlled, joystick.axis0, joystick.axis1, encoders`channels, sens`lastADCValue, display`lastPosition
      ensures Valid() && State() == Apply(old(State()), Environment(counts), Cmd(key, ch, v))
    {
      match key
      case Pos => display.SetPosition(ch, v);
      case Enab => SetRemoteControlled(ch, v, counts);
      case JoyMax => SetJoystickMax(ch, v, counts);
      case JoyDir => SetJoystickDirection(ch, v, counts);
      case EncStep => SetEncoderStep(ch, v, counts);
      case EncDir => SetEncoderDirection(ch, v, counts);
    }

    /** JMAX: the axis maximum, then the centre recalibrated. */
    method SetJoystickMax(ch: int, v: int, ghost counts: seq<int>)
      requires Valid() && Counts(counts) && -128 <= ch < 128 && IsInt32(v)
      modifies joystick.axis0, joystick.axis1
      ensures Valid() && State() == Apply(old(State()), Environment(counts), Cmd(JoyMax, ch, v))
    {
      joystick.SetMaxValue(ch, v);
      joystick.UpdateCalibration(ch);
      TunedSticks(old(State()), Environment(counts), ch, old(State()).sticks[if J.AxisPresent(ch) then ch else 0].(maxValue := v));
    }

    /** JDIR: the axis direction, then the centre recalibrated. */
    method SetJoystickDirection(ch: int, v: int, ghost counts: seq<int>)
      requires Valid() && Counts(counts) && -128 <= ch < 128 && IsInt32(v)
      modifies joystick.axis0, joystick.axis1
      ensures Valid() && State() == Apply(old(State()), Environment(counts), Cmd(JoyDir, ch, v))
    {
      joystick.SetDirection(ch, v);
      joystick.UpdateCalibration(ch);
      TunedSticks(old(State()), Environment(counts), ch, J.Directed(old(State()).sticks[if J.AxisPresent(ch) then ch else 0], v));
    }

    /** ESTP: the encoder step size, then the channel re-based. */
    method SetEncoderStep(ch: int, v: int, counts: seq<int>)
      requires Valid() && Counts(counts) && -128 <= ch < 128 && IsInt32(v)
      modifies encoders`channels, sens`lastADCValue
      ensures Valid() && State() == Apply(old(State()), Environment(counts), Cmd(EncStep, ch, v))
    {
      encoders.SetStepSize(ch, v);
      ResetEncoderReference(ch, counts);
    }

    /** EDIR: the encoder direction, then the channel re-based. */
    method SetEncoderDirection(ch: int, v: int, counts: seq<int>)
      requires Valid() && Counts(counts) && -128 <= ch < 128 && IsInt32(v)
      modifies encoders`channels, sens`lastADCValue
      ensures Valid() && State() == Apply(old(State()), Environment(counts), Cmd(EncDir, ch, v))
    {
      encoders.SetDirection(ch, v);
      ResetEncoderReference(ch, counts);
    }

    /** ENAB: the flag, and re-basing when enabling. */
    method SetRemoteControlled(ch: int, v: int, counts: seq<int>)
      requires Valid() && Counts(counts) && -128 <= ch < 128 && IsInt32(v)
      modifies this`isRemoteControlled, encoders`channels, sens`lastADCValue
      ensures Valid() && State() == Apply(old(State()), Environment(counts), Cmd(Enab, ch, v))
    {
      if ValidBoard(ch) {
        MarkRemote(ch, v != 0);
      }
      if v != 0 {
        ResetEncoderReference(ch, counts);
      }
    }
  
    /**
     * receiveUpdatesFromController: rx is what readBytesUntil('>') returned
     * (None when Serial1 had nothing available).
     */
    method ReceiveUpdatesFromController(now: int, rx: Option<string>, counts: seq<int>)
      requires Valid() && Counts(counts)
      modifies this`isRemoteControlled, this`lastUARTReceiveTime, joystick.axis0, joystick.axis1
      modifies encoders`channels, sens`lastADCValue, display`lastPosition
      ensures Valid() && State() == Receive(old(State()), Environment(counts), now, rx)
    {
      if Elapsed(now, lastUARTReceiveTime) <= UartReceiveIntervalMs {
        return;
      }
      if rx.Some? {
        var payload := Frame.ValidateChecksum(rx.value);
        if payload.None? {
          return;
        }
        ReceivePayload(payload.value, now, counts);
        return;
      }
      StampReceive(now);
    }

    /** A frame that passed its checksum: one command, or the tokens and a restarted interval. */
    method ReceivePayload(p: string, now: int, counts: seq<int>)
      requires Valid() && Counts(counts)
      modifies this`isRemoteControlled, this`lastUARTReceiveTime, joystick.axis0, joystick.axis1
      modifies encoders`channels, sens`lastADCValue, display`lastPosition
      ensures Valid()
      ensures State() == if ';' !in p then Apply(old(State()), Environment(counts), Decode(p))
        else ApplyAll(old(State()), Environment(counts), Tokens(p, ';')).(rxTime := now)
    {
      if ';' !in p {
        var _ := ProcessCommand(p, counts);
        return;
      }
      ProcessTokens(Tokens(p, ';'), counts);
      StampReceive(now);
    }

    /** The strtok loop: each token is processed in order. */
    method ProcessTokens(tokens: seq<string>, counts: seq<int>)
      requires Valid() && Counts(counts)
      modifies this`isRemoteControlled, joystick.axis0, joystick.axis1, encoders`channels, sens`lastADCValue, display`lastPosition
      ensures Valid() && State() == ApplyAll(old(State()), Environment(counts), tokens)
    {
      var i := 0;
      while i < |tokens|
        invariant 0 <= i <= |tokens| && Valid()
        invariant ApplyAll(old(State()), Environment(counts), tokens) == ApplyAll(State(), Environment(counts), tokens[i..])
      {
        var _ := ProcessCommand(tokens[i], counts);
        assert tokens[i..][1..] == tokens[i + 1..];
        i := i + 1;
      }
    }

    /**
     * sendUpdatesToController: the pieces of the channels are collected; with
     * none nothing is sent, otherwise the last ';' is dropped and the rest sent.
     */
    method SendUpdatesToController(now: int, counts: seq<int>)
      requires Valid() && Counts(counts)
      modifies this`tx, this`lastUARTSendTime, joystick.axis0, joystick.axis1, encoders`channels, sens`lastADCValue
      ensures Valid() && State() == SendUpdates(old(State()), Environment(counts), now)
    {
      if Elapsed(now, lastUARTSendTime) <= UartSendIntervalMs {
        return;
      }
      SendReports(now, counts);
    }

    /** The channels are read and what they report is sent. */
    method SendReports(now: int, counts: seq<int>)
      requires Valid() && Counts(counts)
      modifies this`tx, this`lastUARTSendTime, joystick.axis0, joystick.axis1, encoders`channels, sens`lastADCValue
      ensures Valid() && State() == Transmitted(Reports(old(State()), Environment(counts), MaxNumMotors), now)
    {
      var buf, ts := ReportAll(counts);
      Flush(buf, ts, now);
    }

    /** The filled buffer: nothing when it is empty, else the frame without its last ';'. */
    method Flush(buf: string, ghost ts: seq<string>, now: int)
      requires Valid() && buf == RemoteRelay.Terminated(ts) && forall i :: 0 <= i < |ts| ==> Plain(ts[i])
      modifies this`tx, this`lastUARTSendTime
      ensures Valid() && State() == Transmitted(Swept(ts, old(State())), now)
    {
      SendOf(ts, State(), now);
      if |buf| == 0 {
        assert ts == [];
        return;
      }
      SendAt(buf[..|buf| - 1], now);
    }

    /** sendCommand(cmd), and the send interval restarts. */
    method SendAt(cmd: string, now: int)
      requires Valid()
      modifies this`tx, this`lastUARTSendTime
      ensures Valid() && State() == old(State()).(tx := old(tx) + [Frame.Encode(CStr(cmd))], txTime := now)
    {
      SendCommand(cmd);
      lastUARTSendTime := now;
    }

    /** All channels in order: the buffer holds each token followed by ';'. */
    method ReportAll(counts: seq<int>) returns (buf: string, ghost ts: seq<string>)
      requires Valid() && Counts(counts)
      modifies joystick.axis0, joystick.axis1, encoders`channels, sens`lastADCValue
      ensures Valid() && buf == RemoteRelay.Terminated(ts) && forall i :: 0 <= i < |ts| ==> Plain(ts[i])
      ensures Reports(old(State()), Environment(counts), MaxNumMotors) == Swept(ts, State())
    {
      buf := "";
      ts := [];
      ghost var u0, e := State(), Environment(counts);
      var idx := 0;
      while idx < MaxNumMotors
        invariant 0 <= idx <= MaxNumMotors && Valid() && buf == RemoteRelay.Terminated(ts)
        invariant Environment(counts) == e && Reports(u0, e, idx) == Swept(ts, State())
      {
        var piece, t := ReportChannelUpdate(idx, counts);
        RemoteRelay.TerminatedConcat(ts, t);
        buf := buf + piece;
        ts := ts + t;
        idx := idx + 1;
      }
      ReportsGranted(u0, e, MaxNumMotors);
    }

    /** One channel of sendUpdatesToController and its "VEL<idx>=<v>;" or "POS<idx>=<pos>;" piece. */
    method ReportChannelUpdate(idx: int, counts: seq<int>) returns (piece: string, ghost t: seq<string>)
      requires Valid() && Counts(counts) && ValidBoard(idx)
      modifies joystick.axis0, joystick.axis1, encoders`channels, sens`lastADCValue
      ensures Valid() && piece == RemoteRelay.Terminated(t)
      ensures ReportChannel(old(State()), Environment(counts), idx) == Swept(t, State())
    {
      piece, t := "", [];
      if !isRemoteControlled[idx] {
        return;
      }
      if isJoystickControlled[idx] && joystick.IsChannelPresent(idx) {
        piece, t := ReportVelocity(idx, counts);
      } else if encoders.IsChannelPresent(idx) {
        piece, t := ReportPosition(idx, counts);
      }
    }

    /** A joystick-controlled channel: the velocity, when it changed. */
    method ReportVelocity(idx: int, ghost counts: seq<int>) returns (piece: string, ghost t: seq<string>)
      requires Valid() && Counts(counts) && J.AxisPresent(idx)
      modifies joystick.axis0, joystick.axis1, sens`lastADCValue
      ensures Valid() && piece == RemoteRelay.Terminated(t)
      ensures var u, e := old(State()), Environment(counts);
        var r := J.Polled(u.sticks[idx], e.joyAvg[idx], Sensitivity(e));
        t == (if r.changed then [RemoteRelay.CommandText("VEL", idx, r.value)] else [])
        && State() == u.(sticks := u.sticks[idx := r.stick], sensLast := SensNext(e, u.sensLast))
    {
      var changed, v := PollStick(idx, counts);
      piece, t := "", [];
      if changed {
        piece := RemoteRelay.CommandText("VEL", idx, v) + ";";
        t := [RemoteRelay.CommandText("VEL", idx, v)];
        assert RemoteRelay.Terminated(t) == piece + RemoteRelay.Terminated([]);
      }
    }

    /** Joystick::getUpdatedValue on a channel with an axis. */
    method PollStick(idx: int, ghost counts: seq<int>) returns (changed: bool, v: int)
      requires Valid() && Counts(counts) && J.AxisPresent(idx)
      modifies joystick.axis0, joystick.axis1, sens`lastADCValue
      ensures Valid()
      ensures var u, e := old(State()), Environment(counts);
        var r := J.Polled(u.sticks[idx], e.joyAvg[idx], Sensitivity(e));
        changed == r.changed && v == r.value
        && State() == u.(sticks := u.sticks[idx := r.stick], sensLast := SensNext(e, u.sensLast))
    {
      ghost var u, e := State(), Environment(counts);
      ghost var r := J.Polled(u.sticks[idx], e.joyAvg[idx], Sensitivity(e));
      changed, v := joystick.GetUpdatedValue(idx, sens);
      assert joystick.Axis(idx).State() == r.stick && joystick.Axis(1 - idx).State() == u.sticks[1 - idx];
      assert [joystick.axis0.State(), joystick.axis1.State()] == u.sticks[idx := r.stick];
    }

    /** Any other channel with an encoder: the position, when it changed. */
    method ReportPosition(idx: int, counts: seq<int>) returns (piece: string, ghost t: seq<string>)
      requires Valid() && Counts(counts) && ValidBoard(idx) && encoders.hasPin[idx]
      modifies encoders`channels, sens`lastADCValue
      ensures Valid() && piece == RemoteRelay.Terminated(t)
      ensures var u, e := old(State()), Environment(counts);
        var p := E.ChangedPosition(e.encPin, u.chans, idx, e.counts[idx], Sensitivity(e));
        t == (if p.changed then [RemoteRelay.CommandText("POS", idx, p.pos)] else [])
        && State() == u.(chans := p.channels, sensLast := SensNext(e, u.sensLast))
    {
      var changed, pos := encoders.GetChangedPosition(idx, counts[idx], sens);
      piece, t := "", [];
      if changed {
        piece := RemoteRelay.CommandText("POS", idx, pos) + ";";
        t := [RemoteRelay.CommandText("POS", idx, pos)];
        assert RemoteRelay.Terminated(t) == piece + RemoteRelay.Terminated([]);
      }
    }

    /** inputModeCheck: every channel once the check interval has elapsed. */
    method InputModeCheck(now: int, counts: seq<int>)
      requires Valid() && Counts(counts)
      modifies this`tx, this`isJoystickControlled, this`lastModeUpdateTime, this`lastButtonActionTime
      modifies joystick`buttonPressed, encoders`channels, encoders`buttonPressed, sens`lastADCValue
      ensures Valid() && State() == ModeCheck(old(State()), Environment(counts), now)
    {
      if Elapsed(now, lastModeUpdateTime) <= InputModeCheckIntervalMs {
        return;
      }
      ModeAll(now, counts);
      StampMode(now);
    }

    /** The channel loop of inputModeCheck. */
    method ModeAll(now: int, counts: seq<int>)
      requires Valid() && Counts(counts)
      modifies this`tx, this`isJoystickControlled, this`lastButtonActionTime
      modifies joystick`buttonPressed, encoders`channels, encoders`buttonPressed, sens`lastADCValue
      ensures Valid() && State() == ModeUpTo(old(State()), Environment(counts), now, MaxNumMotors)
    {
      ghost var u0, e := State(), Environment(counts);
      var idx := 0;
      while idx < MaxNumMotors
        invariant 0 <= idx <= MaxNumMotors && Valid()
        invariant Environment(counts) == e && State() == ModeUpTo(u0, e, now, idx)
      {
        ModeChannelCheck(idx, now, counts);
        idx := idx + 1;
      }
    }

    /** One channel of inputModeCheck. */
    method ModeChannelCheck(idx: int, now: int, counts: seq<int>)
      requires Valid() && Counts(counts) && ValidBoard(idx)
      modifies this`tx, this`isJoystickControlled, this`lastButtonActionTime
      modifies joystick`buttonPressed, encoders`channels, encoders`buttonPressed, sens`lastADCValue
      ensures Valid() && State() == ModeChannel(old(State()), Environment(counts), now, idx)
    {
      ghost var u0, e := State(), Environment(counts);
      var encoderPressed := encoders.GetButtonPressed(idx);
      var joystickPressed := joystick.GetButtonPressed(idx);
      assert encoderPressed == EncPressed(u0, e, idx) && joystickPressed == JoyPressed(u0, idx);
      if !encoderPressed && !joystickPressed {
        return;
      }
      if Elapsed(now, lastButtonActionTime[idx]) <= InputModeDebounceTimeoutMs {
        return;
      }
      ModeAction(idx, now, counts);
    }

    /** A press past the debounce time: access request, switch, buttons cleared. */
    method ModeAction(idx: int, now: int, counts: seq<int>)
      requires Valid() && Counts(counts) && ValidBoard(idx)
      modifies this`tx, this`isJoystickControlled, this`lastButtonActionTime
      modifies joystick`buttonPressed, encoders`channels, encoders`buttonPressed, sens`lastADCValue
      ensures Valid()
      ensures State() == Cleared(Switched(Requested(old(State()), idx), Environment(counts), idx), Environment(counts), now, idx)
    {
      RequestAccess(idx);
      SwitchInputMode(idx, counts);
      ClearButtons(idx, now, counts);
    }

    /** A channel not under remote control sends "ACCREQ<idx>". */
    method RequestAccess(idx: int)
      requires Valid() && ValidBoard(idx)
      modifies this`tx
      ensures Valid() && State() == Requested(old(State()), idx)
    {
      if !isRemoteControlled[idx] {
        ClaimPlain(idx);
        SendCommand(RemoteRelay.ClaimText(idx));
      }
    }

    /** Both buttons are reset and the time of the action kept. */
    method ClearButtons(idx: int, now: int, ghost counts: seq<int>)
      requires Valid() && Counts(counts) && ValidBoard(idx)
      modifies this`lastButtonActionTime, joystick`buttonPressed, encoders`buttonPressed
      ensures Valid() && State() == Cleared(old(State()), Environment(counts), now, idx)
    {
      encoders.ResetButtonPressed(idx);
      joystick.ResetButtonPressed(idx);
      lastButtonActionTime := lastButtonActionTime[idx := now];
    }

    /** The switch a pressed button asks for. */
    method SwitchInputMode(idx: int, counts: seq<int>)
      requires Valid() && Counts(counts) && ValidBoard(idx)
      modifies this`isJoystickControlled, encoders`channels, sens`lastADCValue
      ensures Valid() && State() == Switched(old(State()), Environment(counts), idx)
    {
      if isJoystickControlled[idx] {
        if encoders.GetButtonPressed(idx) {
          MarkJoystick(idx, false);
          ResetEncoderReference(idx, counts);
        }
      } else if joystick.GetButtonPressed(idx) {
        MarkJoystick(idx, true);
      }
    }
  
    // The flag and timer updates, one field each.

    method MarkRemote(ch: int, b: bool)
      requires Valid() && ValidBoard(ch)
      modifies this`isRemoteControlled
      ensures Valid() && State() == old(State()).(rc := old(isRemoteControlled)[ch := b])
    {
      isRemoteControlled := isRemoteControlled[ch := b];
    }

    method MarkJoystick(ch: int, b: bool)
      requires Valid() && ValidBoard(ch)
      modifies this`isJoystickControlled
      ensures Valid() && State() == old(State()).(jc := old(isJoystickControlled)[ch := b])
    {
      isJoystickControlled := isJoystickControlled[ch := b];
    }

    method StampReceive(now: int)
      requires Valid()
      modifies this`lastUARTReceiveTime
      ensures Valid() && State() == old(State()).(rxTime := now)
    {
      lastUARTReceiveTime := now;
    }

    method StampMode(now: int)
      requires Valid()
      modifies this`lastModeUpdateTime
      ensures Valid() && State() == old(State()).(modeTime := now)
    {
      lastModeUpdateTime := now;
    }
  }
}
