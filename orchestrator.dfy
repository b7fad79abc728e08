// The per-board logic of class Motors, stated on the Axis record of one board:
// the gates in front of every motion command, the open- versus closed-loop
// decision, and the periodic tick with its encoder pull-in search. Boards never
// influence each other in Motors, so the class executes these board by board.
module Orchestrator {
  import opened Common
  import opened ParameterStore
  import opened AxisDriver

  /** IsActiveMotor for the board a context describes. */
  predicate Active(c: Ctx) { c.kind != MotorNone }

  /** A board error recorded by Motors itself (source "Board"). */
  function BoardError(c: Ctx, ax: Axis, msg: string): Axis
  {
    RaiseBoard(ax, "Board", c.board, msg)
  }

  /** A position move runs closed loop iff an encoder is configured and the budget is not 1. */
  predicate ClosedLoop(ax: Axis)
  {
    (ax.maxIterations == 0 || ax.maxIterations > 1) && ax.encConst != 0
  }

  /** IsMotionDone for one board: neither a motion nor a closed-loop search is pending. */
  predicate MotionDone(ax: Axis) { !ax.moving && !ax.searching }

  /** abs() on an int32: the one value without a positive counterpart stays negative. */
  function CAbs(x: int): (r: int)
    ensures x != Int32Min ==> r == Abs(x)
  {
    if x == Int32Min then x else Abs(x)
  }

  /**
   * Motors::MoveToPos past the active-board check. A disabled or homing axis is
   * refused with only a board message recorded. Otherwise the move is armed
   * and handed to the driver; a driver rejection clears moving but leaves
   * searching as armed.
   */
  function MoveTo(c: Ctx, ax: Axis, pos: int, setVel: bool, r: Readings): (s: Step)
    requires WellFormed(c)
  {
    if !ax.enabled then Step(ErrMotor, BoardError(c, ax, "Driver is not enabled"))
    else if ax.homing then Step(ErrMotor, BoardError(c, ax, "Motor is homing"))
    else Dispatch(c, Arm(ax, pos), pos, setVel, r)
  }

  /**
   * Arming a move: closed loop sets target and set position to pos,
   * iterationsLeft to maxIterations-1 and starts the search; open loop has no
   * tries and no search. Both mark the axis moving.
   */
  function Arm(ax: Axis, pos: int): Axis
  {
    if ClosedLoop(ax) then
      ax.(target := pos, itersLeft := ax.maxIterations - 1, moving := true, searching := true, setPos := pos)
    else ax.(itersLeft := 0, moving := true, searching := false)
  }

  /** The driver's MoveToPos on an armed axis; a rejection becomes ERR_Motor with moving cleared. */
  function Dispatch(c: Ctx, a: Axis, pos: int, setVel: bool, r: Readings): Step
    requires WellFormed(c)
  {
    var d := AxisDriver.MoveToPos(c, a, pos, setVel, r);
    if d.err != ErrNone then Step(ErrMotor, BoardError(c, d.ax.(moving := false), "Error setting position target"))
    else d
  }

  /** MoveTo refuses a disabled or homing axis with a board message and changes nothing else. */
  lemma MoveToRefusals(c: Ctx, ax: Axis, pos: int, setVel: bool, r: Readings)
    requires WellFormed(c)
    ensures !ax.enabled ==> MoveTo(c, ax, pos, setVel, r) == Step(ErrMotor, BoardError(c, ax, "Driver is not enabled"))
    ensures ax.enabled && ax.homing ==> MoveTo(c, ax, pos, setVel, r) == Step(ErrMotor, BoardError(c, ax, "Motor is homing"))
    ensures MoveTo(c, ax, pos, setVel, r).err in {ErrNone, ErrMotor}
  {
  }

  /**
   * An accepted MoveTo searches exactly when the axis runs closed loop, with
   * maxIterations-1 tries and target and set position at pos; it is left
   * moving exactly when the driver accepted the move.
   */
  lemma MoveToArms(c: Ctx, ax: Axis, pos: int, setVel: bool, r: Readings)
    requires WellFormed(c) && ax.enabled && !ax.homing
    ensures var s := MoveTo(c, ax, pos, setVel, r);
      s.ax.searching == ClosedLoop(ax) &&
      s.ax.itersLeft == (if ClosedLoop(ax) then ax.maxIterations - 1 else 0) &&
      (ClosedLoop(ax) ==> s.ax.target == pos && s.ax.setPos == pos) &&
      (s.err == ErrNone <==> s.ax.moving) && s.ax.maxIterations == ax.maxIterations
  {
  }

  /**
   * Motors::MoveAtVel past the active-board check: the same gates as MoveTo,
   * then moving iff v != 0, cleared again when the driver rejects v.
   */
  function MoveVel(c: Ctx, ax: Axis, v: int, r: Readings, now: int): (s: Step)
    requires WellFormed(c)
  {
    if !ax.enabled then Step(ErrMotor, BoardError(c, ax, "Driver is not enabled"))
    else if ax.homing then Step(ErrMotor, BoardError(c, ax, "Motor is homing"))
    else
      var d := AxisDriver.MoveAtVel(c, ax, v, r, now);
      if d.err != ErrNone then Step(ErrMotor, BoardError(c, d.ax.(moving := false), "Error setting velocity mode"))
      else Step(ErrNone, d.ax.(moving := v != 0))
  }

  /**
   * MoveVel has MoveTo's gates; past them the axis moves exactly when the
   * driver accepted a non-zero velocity, and a velocity beyond RMXV is refused.
   */
  lemma MoveVelOutcome(c: Ctx, ax: Axis, v: int, r: Readings, now: int)
    requires WellFormed(c)
    ensures var s := MoveVel(c, ax, v, r, now);
      (!ax.enabled ==> s == Step(ErrMotor, BoardError(c, ax, "Driver is not enabled"))) &&
      (ax.enabled && ax.homing ==> s == Step(ErrMotor, BoardError(c, ax, "Motor is homing"))) &&
      s.err in {ErrNone, ErrMotor} &&
      (ax.enabled && !ax.homing ==> s.ax.moving == (s.err == ErrNone && v != 0)) &&
      (ax.enabled && !ax.homing && !(-c.prm[RMXV] <= v <= c.prm[RMXV]) ==> s.err == ErrMotor)
  {
  }

  /** Motors::StartHoming past the active-board check: only an enabled axis is homed. */
  function Home(c: Ctx, ax: Axis, r: Readings): (s: Step)
    requires WellFormed(c)
  {
    if !ax.enabled then Step(ErrMotor, BoardError(c, ax, "Driver is not enabled"))
    else AxisDriver.StartHoming(c, ax, r)
  }

  /** ConfigBoard for one active board: a driver failure is reported as ERR_Motor. */
  function Configure(c: Ctx, ax: Axis, r: Readings): (s: Step)
    requires WellFormed(c)
  {
    var d := AxisDriver.Config(c, ax, r);
    if d.err != ErrNone then Step(ErrMotor, BoardError(c, d.ax, "Could not configure board")) else d
  }

  /**
   * Configure succeeds exactly when the driver's Config does, and then leaves
   * the axis disabled, idle and not homing; a failure is ERR_Motor with the
   * board message recorded on top of the driver's.
   */
  lemma ConfigureOutcome(c: Ctx, ax: Axis, r: Readings)
    requires WellFormed(c)
    ensures var s := Configure(c, ax, r); var d := AxisDriver.Config(c, ax, r);
      (s.err == ErrNone <==> d.err == ErrNone) &&
      (s.err != ErrNone ==> s.err == ErrMotor && s.ax == BoardError(c, d.ax, "Could not configure board")) &&
      (s.err == ErrNone ==> s == d && !s.ax.enabled && !s.ax.moving && !s.ax.homing && s.ax.searching == ax.searching)
  {
    AxisDriver.ConfigOutcome(c, ax, r);
  }

  /** GetStatusValue PULL: the pull-in tries used, EMAX - iterationsLeft. */
  function PullCount(c: Ctx, ax: Axis): (n: int)
    requires WellFormed(c)
    ensures ax.itersLeft >= 0 && c.prm[EMAX] == ax.maxIterations ==> n + ax.itersLeft == ax.maxIterations
  {
    c.prm[EMAX] - ax.itersLeft
  }

  // ---------------------------------------------------------------------------
  // The periodic tick
  // ---------------------------------------------------------------------------

  /** One board's outcome of a status pass; `pulled` marks a re-issued correction. */
  datatype Tick = Tick(ax: Axis, pulled: bool)

  /**
   * The closed-loop branch of ProcessUpdateChanges. When the driver reports the
   * position reached, the encoder deviation from the target is measured; beyond
   * the tolerance, and with tries left (or unlimited, -1), the set position is
   * corrected by the deviation and re-issued, spending one try only when the
   * budget is larger than 1; with no tries left the search fails. Within the
   * tolerance the search ends, except in unlimited mode, where the axis keeps
   * holding; with resetXafterCL the step position is set to the encoder value.
   */
  function Search(c: Ctx, ax: Axis, r: Readings, now: int): (t: Tick)
    requires WellFormed(c)
    ensures t.pulled ==> t.ax.moving && t.ax.searching == ax.searching
    ensures t.ax.maxIterations == ax.maxIterations
  {
    var s := CheckStatus(c, ax, r, now);
    if s.err != ErrNone then
      Tick(BoardError(c, s.ax.(moving := false, searching := false), "Error during closed loop mode"), false)
    else if !s.done then Tick(s.ax, false)
    else Settle(c, s.ax.(moving := false), r)
  }

  /** A search step whose move has completed: measure, then correct, fail or stop. */
  function Settle(c: Ctx, a: Axis, r: Readings): (t: Tick)
    requires WellFormed(c)
    ensures t.pulled ==> t.ax.moving && t.ax.searching == a.searching
    ensures t.ax.maxIterations == a.maxIterations
  {
    var q := GetEnc(c, a, r);
    var dev := WrapInt32(q.value - q.ax.target);
    if CAbs(dev) > q.ax.tolerance then Correct(c, q.ax, dev, r) else Tick(Arrive(c, q.ax, q.value), false)
  }

  /**
   * Off target by `dev`: with tries left (or unlimited) the set position is
   * shifted by the deviation and re-issued; otherwise the search fails.
   */
  function Correct(c: Ctx, e: Axis, dev: int, r: Readings): (t: Tick)
    requires WellFormed(c)
    ensures t.pulled ==> t.ax.moving && t.ax.searching == e.searching
    ensures t.ax.maxIterations == e.maxIterations
  {
    if e.itersLeft == -1 || e.itersLeft > 0 then
      var b := e.(itersLeft := if e.maxIterations > 1 then e.itersLeft - 1 else e.itersLeft,
                  moving := true, setPos := WrapInt32(e.setPos - dev));
      Tick(Reissue(c, b, r), true)
    else Tick(BoardError(c, e.(searching := false), "Closed loop motion did not converge"), false)
  }

  /** Within the tolerance at encoder position `enc`: the search ends (unless unlimited). */
  function Arrive(c: Ctx, e: Axis, enc: int): (a: Axis)
    requires WellFormed(c)
    ensures a.maxIterations == e.maxIterations
  {
    var b := if e.itersLeft != -1 then e.(searching := false) else e;
    if e.resetX != 0 then SetXPos(c, b, enc).ax else b
  }

  /** The correction move of a search: MoveToPos(setPosition, 0), its outcome ignored. */
  function Reissue(c: Ctx, b: Axis, r: Readings): (a: Axis)
    requires WellFormed(c)
    ensures !b.homing && b.moving && b.searching ==> a.moving && a.searching && !a.homing
    ensures a.itersLeft == b.itersLeft && a.maxIterations == b.maxIterations
    ensures a.moving == b.moving && a.searching == b.searching && a.setPos == b.setPos && a.target == b.target
  {
    AxisDriver.MoveToPos(c, b, b.setPos, false, r).ax
  }

  /** The homing and open-loop branches: moving is cleared on done or error. */
  function Watch(c: Ctx, ax: Axis, r: Readings, now: int): (a: Axis)
    requires WellFormed(c)
    ensures a.itersLeft == ax.itersLeft && a.maxIterations == ax.maxIterations && a.searching == ax.searching
  {
    var s := CheckStatus(c, ax, r, now);
    if s.done || s.err != ErrNone then s.ax.(moving := false) else s.ax
  }

  /** The status pass of ProcessUpdateChanges for one board. */
  function StatusPass(c: Ctx, ax: Axis, r: Readings, now: int): (t: Tick)
    requires WellFormed(c)
    ensures !Active(c) || !ax.enabled ==> t == Tick(ax, false)
    ensures t.pulled ==> ax.searching && !ax.homing
    ensures t.ax.maxIterations == ax.maxIterations
    ensures !ax.searching ==> t.ax.itersLeft == ax.itersLeft && !t.ax.searching
  {
    if !Active(c) || !ax.enabled then Tick(ax, false)
    else if ax.homing then Tick(Watch(c, ax, r, now), false)
    else if ax.searching then Search(c, ax, r, now)
    else if ax.moving then Tick(Watch(c, ax, r, now), false)
    else Tick(ax, false)
  }

  /** The error pass of ProcessUpdateChanges for one board: CheckError on every active board. */
  function ErrorPass(c: Ctx, ax: Axis, r: Readings): (a: Axis)
    requires WellFormed(c)
    ensures a.itersLeft == ax.itersLeft && a.maxIterations == ax.maxIterations && a.searching == ax.searching
    ensures !Active(c) ==> a == ax
  {
    if Active(c) then CheckError(c, ax, r).ax else ax
  }

  /** One call of ProcessUpdateChanges as seen by one board. */
  datatype Poll = Poll(r: Readings, now: int, checkErrors: bool, checkStatus: bool)

  function Update(c: Ctx, ax: Axis, p: Poll): (t: Tick)
    requires WellFormed(c)
    ensures t.ax.maxIterations == ax.maxIterations
  {
    var a := if p.checkErrors then ErrorPass(c, ax, p.r) else ax;
    if p.checkStatus then StatusPass(c, a, p.r, p.now) else Tick(a, false)
  }

  /** A sequence of ticks: the final axis and the number of corrections issued. */
  function Run(c: Ctx, ax: Axis, ps: seq<Poll>): (res: (Axis, nat))
    requires WellFormed(c)
    decreases |ps|
  {
    if ps == [] then (ax, 0)
    else
      var t := Update(c, ax, ps[0]);
      var rest := Run(c, t.ax, ps[1..]);
      (rest.0, rest.1 + if t.pulled then 1 else 0)
  }

  // ---------------------------------------------------------------------------
  // Closed-loop properties
  // ---------------------------------------------------------------------------

  /** A tick spent exactly one try per correction and left the counter non-negative. */
  predicate SpentOne(ax: Axis, t: Tick)
  {
    t.ax.itersLeft >= 0 && t.ax.itersLeft + (if t.pulled then 1 else 0) == ax.itersLeft
  }

  /**
   * With a budget larger than 1, every correction spends one try, and the
   * counter never goes below 0.
   */
  lemma UpdateSpendsOne(c: Ctx, ax: Axis, p: Poll)
    requires WellFormed(c) && ax.maxIterations > 1 && ax.itersLeft >= 0
    ensures SpentOne(ax, Update(c, ax, p))
  {
    var a := if p.checkErrors then ErrorPass(c, ax, p.r) else ax;
    if p.checkStatus {
      StatusSpendsOne(c, a, p.r, p.now);
    }
  }

  /** UpdateSpendsOne for the status pass. */
  lemma StatusSpendsOne(c: Ctx, ax: Axis, r: Readings, now: int)
    requires WellFormed(c) && ax.maxIterations > 1 && ax.itersLeft >= 0
    ensures SpentOne(ax, StatusPass(c, ax, r, now))
  {
    if Active(c) && ax.enabled && !ax.homing && ax.searching {
      var s := CheckStatus(c, ax, r, now);
      if s.err == ErrNone && s.done {
        SettleSpendsOne(c, s.ax.(moving := false), r);
      }
    }
  }

  /** UpdateSpendsOne for a completed search step. */
  lemma SettleSpendsOne(c: Ctx, a: Axis, r: Readings)
    requires WellFormed(c) && a.maxIterations > 1 && a.itersLeft >= 0
    ensures SpentOne(a, Settle(c, a, r))
  {
    var q := GetEnc(c, a, r);
    var dev := WrapInt32(q.value - q.ax.target);
    if CAbs(dev) > q.ax.tolerance {
      CorrectionSpendsOne(c, a, r);
    } else {
      StopSpendsNone(c, a, r);
    }
  }

  /** A deviation beyond the tolerance: one try spent on a correction, or none left. */
  lemma CorrectionSpendsOne(c: Ctx, a: Axis, r: Readings)
    requires WellFormed(c) && a.maxIterations > 1 && a.itersLeft >= 0
    requires var q := GetEnc(c, a, r); CAbs(WrapInt32(q.value - q.ax.target)) > q.ax.tolerance
    ensures SpentOne(a, Settle(c, a, r))
  {
    assert Kept(GetEnc(c, a, r).ax) == Kept(a);
    if a.itersLeft > 0 {
      RetrySpendsOne(c, a, r);
    } else {
      var e := GetEnc(c, a, r).ax;
      var f := BoardError(c, e.(searching := false), "Closed loop motion did not converge");
      assert Kept(f) == Kept(e.(searching := false));
      assert Settle(c, a, r) == Tick(f, false);
    }
  }

  /** A correction with tries left spends exactly one. */
  lemma RetrySpendsOne(c: Ctx, a: Axis, r: Readings)
    requires WellFormed(c) && a.maxIterations > 1 && a.itersLeft > 0
    requires var q := GetEnc(c, a, r); CAbs(WrapInt32(q.value - q.ax.target)) > q.ax.tolerance
    ensures SpentOne(a, Settle(c, a, r))
  {
    var q := GetEnc(c, a, r);
    var e := q.ax;
    assert Kept(e) == Kept(a);
    var b := e.(itersLeft := e.itersLeft - 1, moving := true, setPos := WrapInt32(e.setPos - WrapInt32(q.value - e.target)));
    assert Settle(c, a, r) == Tick(Reissue(c, b, r), true);
  }

  /** A deviation within the tolerance: no try is spent. */
  lemma StopSpendsNone(c: Ctx, a: Axis, r: Readings)
    requires WellFormed(c) && a.itersLeft >= 0
    requires var q := GetEnc(c, a, r); CAbs(WrapInt32(q.value - q.ax.target)) <= q.ax.tolerance
    ensures SpentOne(a, Settle(c, a, r))
  {
    var q := GetEnc(c, a, r);
    var e := q.ax;
    assert Kept(e) == Kept(a);
    var b := if e.itersLeft != -1 then e.(searching := false) else e;
    var u := if e.resetX != 0 then SetXPos(c, b, q.value).ax else b;
    assert Kept(u) == Kept(b);
    assert Settle(c, a, r) == Tick(u, false);
  }

  /** Over any run, corrections issued plus tries left equal the tries at the start. */
  lemma {:induction false} RunSpendsBudget(c: Ctx, ax: Axis, ps: seq<Poll>)
    requires WellFormed(c) && ax.maxIterations > 1 && ax.itersLeft >= 0
    ensures Run(c, ax, ps).0.itersLeft >= 0
    ensures Run(c, ax, ps).1 + Run(c, ax, ps).0.itersLeft == ax.itersLeft
    decreases |ps|
  {
    if ps != [] {
      var t := Update(c, ax, ps[0]);
      UpdateSpendsOne(c, ax, ps[0]);
      RunSpendsBudget(c, t.ax, ps[1..]);
    }
  }

  /**
   * A closed-loop move with budget k >= 2 issues at most k-1 corrections,
   * however many ticks follow it.
   */
  lemma PullInBudget(c: Ctx, ax: Axis, pos: int, setVel: bool, r: Readings, ps: seq<Poll>)
    requires WellFormed(c) && ax.maxIterations > 1 && ax.enabled && !ax.homing
    ensures Run(c, MoveTo(c, ax, pos, setVel, r).ax, ps).1 <= ax.maxIterations - 1
  {
    var a := MoveTo(c, ax, pos, setVel, r).ax;
    MoveToArms(c, ax, pos, setVel, r);
    RunSpendsBudget(c, a, ps);
  }

  /** No driver error during the tick: no GSTAT bit, following error, stall or stop event. */
  predicate Quiet(r: Readings)
  {
    !AnyGStat(r.gstat) && !r.devWarn && !r.ramp.eventStopSg && !r.ramp.eventStopL && !r.ramp.eventStopR
  }

  /**
   * Unlimited mode (iterationsLeft -1) never ends the search while the driver
   * stays quiet: the board keeps holding position and is never reported done.
   */
  lemma {:induction false} UnlimitedNeverSettles(c: Ctx, ax: Axis, ps: seq<Poll>)
    requires WellFormed(c) && c.kind == MotorTmc
    requires ax.searching && ax.itersLeft == -1 && ax.maxIterations <= 1 && ax.enabled && !ax.homing
    requires forall i :: 0 <= i < |ps| ==> Quiet(ps[i].r)
    ensures var a := Run(c, ax, ps).0;
      a.searching && a.itersLeft == -1 && a.maxIterations == ax.maxIterations && a.enabled && !a.homing &&
      !MotionDone(a)
    decreases |ps|
  {
    if ps != [] {
      var t := Update(c, ax, ps[0]);
      UnlimitedStep(c, ax, ps[0]);
      UnlimitedNeverSettles(c, t.ax, ps[1..]);
    }
  }

  lemma UnlimitedStep(c: Ctx, ax: Axis, p: Poll)
    requires WellFormed(c) && c.kind == MotorTmc
    requires ax.searching && ax.itersLeft == -1 && ax.maxIterations <= 1 && ax.enabled && !ax.homing && Quiet(p.r)
    ensures var a := Update(c, ax, p).ax;
      a.searching && a.itersLeft == -1 && a.maxIterations == ax.maxIterations && a.enabled && !a.homing
  {
  }

  /** A search that has converged within tolerance with a finite budget ends the motion. */
  lemma ConvergedSearchIsDone(c: Ctx, ax: Axis, r: Readings, now: int)
    requires WellFormed(c) && Active(c) && ax.enabled && !ax.homing && ax.searching && ax.itersLeft != -1
    requires var s := CheckStatus(c, ax, r, now);
      s.err == ErrNone && s.done && CAbs(WrapInt32(GetEnc(c, s.ax, r).value - ax.target)) <= ax.tolerance
    ensures MotionDone(StatusPass(c, ax, r, now).ax)
    ensures !StatusPass(c, ax, r, now).pulled
  {
    var s := CheckStatus(c, ax, r, now);
    var a := s.ax.(moving := false);
    assert GetEnc(c, a, r).value == GetEnc(c, s.ax, r).value;
    assert StatusPass(c, ax, r, now) == Settle(c, a, r);
  }

  /**
   * A search with no tries left that is still off target fails: a board error
   * is recorded and the board no longer moves or searches.
   */
  lemma ExhaustedSearchFails(c: Ctx, ax: Axis, r: Readings, now: int)
    requires WellFormed(c) && Active(c) && ax.enabled && !ax.homing && ax.searching && ax.itersLeft == 0
    requires var s := CheckStatus(c, ax, r, now);
      s.err == ErrNone && s.done && CAbs(WrapInt32(GetEnc(c, s.ax, r).value - ax.target)) > ax.tolerance
    ensures var a := StatusPass(c, ax, r, now).ax;
      MotionDone(a) && a.latch.flag &&
      (!ax.latch.flag && !CheckStatus(c, ax, r, now).ax.latch.flag ==>
        a.latch.msg == Truncate(BoardMessage("Board", c.board, "Closed loop motion did not converge"), MaxErrorStringSize))
  {
    var s := CheckStatus(c, ax, r, now);
    var a := s.ax.(moving := false);
    assert GetEnc(c, a, r).value == GetEnc(c, s.ax, r).value;
    assert StatusPass(c, ax, r, now) == Settle(c, a, r);
  }

  /** A driver error during a search ends it with a board error. */
  lemma FailedSearchStops(c: Ctx, ax: Axis, r: Readings, now: int)
    requires WellFormed(c) && Active(c) && ax.enabled && !ax.homing && ax.searching
    requires CheckStatus(c, ax, r, now).err != ErrNone
    ensures var a := StatusPass(c, ax, r, now).ax; MotionDone(a) && a.latch.flag
  {
  }

  /**
   * A correction is issued exactly when the search step completed off target
   * with tries left, and it moves the set position by the deviation.
   */
  lemma CorrectionShiftsSetPosition(c: Ctx, ax: Axis, r: Readings, now: int)
    requires WellFormed(c) && Active(c) && ax.enabled && !ax.homing && ax.searching
    requires (ax.itersLeft == -1 || ax.itersLeft > 0)
    requires var s := CheckStatus(c, ax, r, now);
      s.err == ErrNone && s.done && CAbs(WrapInt32(GetEnc(c, s.ax, r).value - ax.target)) > ax.tolerance
    ensures var t := StatusPass(c, ax, r, now);
      var dev := WrapInt32(GetEnc(c, CheckStatus(c, ax, r, now).ax, r).value - ax.target);
      t.pulled && t.ax.setPos == WrapInt32(ax.setPos - dev) &&
      t.ax.itersLeft == (if ax.maxIterations > 1 then ax.itersLeft - 1 else ax.itersLeft)
  {
    var s := CheckStatus(c, ax, r, now);
    var a := s.ax.(moving := false);
    var enc := GetEnc(c, a, r).value;
    assert enc == GetEnc(c, s.ax, r).value;
    var dev := WrapInt32(enc - a.target);
    assert Settle(c, a, r) == Correct(c, a, dev, r);
    CorrectShifts(c, a, dev, r);
    assert StatusPass(c, ax, r, now) == Settle(c, a, r);
  }

  /** A correction with tries left shifts the set position by the deviation and spends a try. */
  lemma CorrectShifts(c: Ctx, e: Axis, dev: int, r: Readings)
    requires WellFormed(c) && (e.itersLeft == -1 || e.itersLeft > 0)
    ensures var t := Correct(c, e, dev, r);
      t.pulled && t.ax.setPos == WrapInt32(e.setPos - dev)
      && t.ax.itersLeft == (if e.maxIterations > 1 then e.itersLeft - 1 else e.itersLeft)
  {
    var b := e.(itersLeft := if e.maxIterations > 1 then e.itersLeft - 1 else e.itersLeft,
                moving := true, setPos := WrapInt32(e.setPos - dev));
    assert Correct(c, e, dev, r) == Tick(Reissue(c, b, r), true);
  }

  // ---------------------------------------------------------------------------
  // All four boards
  // ---------------------------------------------------------------------------

  /** The contexts of boards 0 to 3, in board order. */
  predicate Boards(cs: seq<Ctx>)
  {
    |cs| == MaxNumMotors && forall b :: 0 <= b < MaxNumMotors ==> WellFormed(cs[b]) && cs[b].board == b
  }

  /** The outcome of a Motors call on the whole board set. */
  datatype Fleet = Fleet(err: int, axes: seq<Axis>)

  /** A single-board call's outcome, placed at its board. */
  function OnBoard(axes: seq<Axis>, b: int, s: Step): (f: Fleet)
    requires 0 <= b < |axes|
    ensures f.err == s.err && |f.axes| == |axes| && f.axes[b] == s.ax
    ensures forall k :: 0 <= k < |axes| && k != b ==> f.axes[k] == axes[k]
  {
    Fleet(s.err, axes[b := s.ax])
  }

  /**
   * ConfigBoard(-1) from board z on: every active board is configured in
   * order; the first failure stops the sweep with ERR_Motor.
   */
  function ConfigureFrom(cs: seq<Ctx>, axes: seq<Axis>, rs: seq<Readings>, z: nat): (f: Fleet)
    requires Boards(cs) && |axes| == MaxNumMotors && |rs| == MaxNumMotors && z <= MaxNumMotors
    ensures |f.axes| == |axes|
    decreases MaxNumMotors - z
  {
    if z == MaxNumMotors then Fleet(ErrNone, axes)
    else if !Active(cs[z]) then ConfigureFrom(cs, axes, rs, z + 1)
    else
      var s := Configure(cs[z], axes[z], rs[z]);
      if s.err != ErrNone then Fleet(s.err, axes[z := s.ax]) else ConfigureFrom(cs, axes[z := s.ax], rs, z + 1)
  }

  /** Every active board from z on configures without error. */
  predicate AllConfigure(cs: seq<Ctx>, axes: seq<Axis>, rs: seq<Readings>, z: nat)
    requires Boards(cs) && |axes| == MaxNumMotors && |rs| == MaxNumMotors
  {
    forall b :: z <= b < MaxNumMotors && Active(cs[b]) ==> Configure(cs[b], axes[b], rs[b]).err == ErrNone
  }

  /**
   * The sweep succeeds exactly when every active board configures without
   * error; a failure is always ERR_Motor.
   */
  lemma {:induction false} ConfigureFromSucceeds(cs: seq<Ctx>, axes: seq<Axis>, rs: seq<Readings>, z: nat)
    requires Boards(cs) && |axes| == MaxNumMotors && |rs| == MaxNumMotors && z <= MaxNumMotors
    ensures var f := ConfigureFrom(cs, axes, rs, z);
      (f.err == ErrNone <==> AllConfigure(cs, axes, rs, z)) && (f.err == ErrNone || f.err == ErrMotor)
    decreases MaxNumMotors - z
  {
    if z < MaxNumMotors {
      var d := Configure(cs[z], axes[z], rs[z]);
      if !Active(cs[z]) || d.err == ErrNone {
        var a := if Active(cs[z]) then axes[z := d.ax] else axes;
        assert ConfigureFrom(cs, axes, rs, z) == ConfigureFrom(cs, a, rs, z + 1);
        ConfigureFromSucceeds(cs, a, rs, z + 1);
        assert AllConfigure(cs, a, rs, z + 1) <==> AllConfigure(cs, axes, rs, z + 1) by {
          assert forall b :: z < b < MaxNumMotors ==> a[b] == axes[b];
        }
      }
    }
  }

  /**
   * A successful sweep leaves each active board from z on configured by the
   * driver and every other board as it was.
   */
  lemma {:induction false} ConfigureFromBoards(cs: seq<Ctx>, axes: seq<Axis>, rs: seq<Readings>, z: nat)
    requires Boards(cs) && |axes| == MaxNumMotors && |rs| == MaxNumMotors && z <= MaxNumMotors
    requires ConfigureFrom(cs, axes, rs, z).err == ErrNone
    ensures var f := ConfigureFrom(cs, axes, rs, z);
      |f.axes| == MaxNumMotors &&
      forall b :: 0 <= b < MaxNumMotors ==>
        f.axes[b] == if z <= b && Active(cs[b]) then Configure(cs[b], axes[b], rs[b]).ax else axes[b]
  {
    ConfigureFromBoard(cs, axes, rs, z, 0);
    forall b | 0 <= b < MaxNumMotors
      ensures ConfigureFrom(cs, axes, rs, z).axes[b] ==
              if z <= b && Active(cs[b]) then Configure(cs[b], axes[b], rs[b]).ax else axes[b]
    {
      ConfigureFromBoard(cs, axes, rs, z, b);
    }
  }

  /** ConfigureFromBoards for one board b. */
  lemma {:induction false} ConfigureFromBoard(cs: seq<Ctx>, axes: seq<Axis>, rs: seq<Readings>, z: nat, b: nat)
    requires Boards(cs) && |axes| == MaxNumMotors && |rs| == MaxNumMotors && z <= MaxNumMotors && b < MaxNumMotors
    requires ConfigureFrom(cs, axes, rs, z).err == ErrNone
    ensures |ConfigureFrom(cs, axes, rs, z).axes| == MaxNumMotors
    ensures ConfigureFrom(cs, axes, rs, z).axes[b] ==
            if z <= b && Active(cs[b]) then Configure(cs[b], axes[b], rs[b]).ax else axes[b]
    decreases MaxNumMotors - z
  {
    if z < MaxNumMotors {
      if !Active(cs[z]) {
        ConfigureFromBoard(cs, axes, rs, z + 1, b);
      } else {
        var a := axes[z := Configure(cs[z], axes[z], rs[z]).ax];
        ConfigureFromBoard(cs, a, rs, z + 1, b);
        assert b != z ==> a[b] == axes[b];
      }
    }
  }

  /** The error pass over boards z to 3. */
  function ErrorSweep(cs: seq<Ctx>, axes: seq<Axis>, rs: seq<Readings>, z: nat): (a: seq<Axis>)
    requires Boards(cs) && |axes| == MaxNumMotors && |rs| == MaxNumMotors && z <= MaxNumMotors
    decreases MaxNumMotors - z
  {
    if z == MaxNumMotors then axes
    else ErrorSweep(cs, axes[z := ErrorPass(cs[z], axes[z], rs[z])], rs, z + 1)
  }

  /** The status pass over boards z to 3. */
  function StatusSweep(cs: seq<Ctx>, axes: seq<Axis>, rs: seq<Readings>, now: int, z: nat): (a: seq<Axis>)
    requires Boards(cs) && |axes| == MaxNumMotors && |rs| == MaxNumMotors && z <= MaxNumMotors
    decreases MaxNumMotors - z
  {
    if z == MaxNumMotors then axes
    else StatusSweep(cs, axes[z := StatusPass(cs[z], axes[z], rs[z], now).ax], rs, now, z + 1)
  }

  /** ProcessUpdateChanges on all boards: the error pass, then the status pass, each when due. */
  function UpdateAll(cs: seq<Ctx>, axes: seq<Axis>, rs: seq<Readings>, now: int, checkErrors: bool, checkStatus: bool)
    : (a: seq<Axis>)
    requires Boards(cs) && |axes| == MaxNumMotors && |rs| == MaxNumMotors
  {
    var e := if checkErrors then ErrorSweep(cs, axes, rs, 0) else axes;
    if checkStatus then StatusSweep(cs, e, rs, now, 0) else e
  }

  lemma {:induction false} ErrorSweepPerBoard(cs: seq<Ctx>, axes: seq<Axis>, rs: seq<Readings>, z: nat)
    requires Boards(cs) && |axes| == MaxNumMotors && |rs| == MaxNumMotors && z <= MaxNumMotors
    ensures var a := ErrorSweep(cs, axes, rs, z);
      |a| == MaxNumMotors &&
      forall b :: 0 <= b < MaxNumMotors ==> a[b] == if b < z then axes[b] else ErrorPass(cs[b], axes[b], rs[b])
    decreases MaxNumMotors - z
  {
    if z < MaxNumMotors {
      ErrorSweepPerBoard(cs, axes[z := ErrorPass(cs[z], axes[z], rs[z])], rs, z + 1);
    }
  }

  lemma {:induction false} StatusSweepPerBoard(cs: seq<Ctx>, axes: seq<Axis>, rs: seq<Readings>, now: int, z: nat)
    requires Boards(cs) && |axes| == MaxNumMotors && |rs| == MaxNumMotors && z <= MaxNumMotors
    ensures var a := StatusSweep(cs, axes, rs, now, z);
      |a| == MaxNumMotors &&
      forall b :: 0 <= b < MaxNumMotors ==> a[b] == if b < z then axes[b] else StatusPass(cs[b], axes[b], rs[b], now).ax
    decreases MaxNumMotors - z
  {
    if z < MaxNumMotors {
      var next := axes[z := StatusPass(cs[z], axes[z], rs[z], now).ax];
      StatusSweepPerBoard(cs, next, rs, now, z + 1);
      var a := StatusSweep(cs, next, rs, now, z + 1);
      assert StatusSweep(cs, axes, rs, now, z) == a;
      forall b | 0 <= b < MaxNumMotors
        ensures a[b] == if b < z then axes[b] else StatusPass(cs[b], axes[b], rs[b], now).ax
      {
        if b != z {
          assert next[b] == axes[b];
        }
      }
    }
  }

  /**
   * Boards do not influence each other in ProcessUpdateChanges: each ends as
   * the single-board Update predicts, so the budget lemmas above apply to every
   * board of a run of calls.
   */
  lemma UpdateAllPerBoard(cs: seq<Ctx>, axes: seq<Axis>, rs: seq<Readings>, now: int, ce: bool, cst: bool)
    requires Boards(cs) && |axes| == MaxNumMotors && |rs| == MaxNumMotors
    ensures var a := UpdateAll(cs, axes, rs, now, ce, cst);
      |a| == MaxNumMotors &&
      forall b :: 0 <= b < MaxNumMotors ==> a[b] == Update(cs[b], axes[b], Poll(rs[b], now, ce, cst)).ax
  {
    var e := if ce then ErrorSweep(cs, axes, rs, 0) else axes;
    ErrorSweepPerBoard(cs, axes, rs, 0);
    StatusSweepPerBoard(cs, e, rs, now, 0);
  }

  /**
   * SetStatusValue for ENAB on board -1 from board z on: every active board is
   * enabled or disabled in order; a driver failure stops the sweep with the
   * driver's status and a board message.
   */
  function EnableFrom(cs: seq<Ctx>, axes: seq<Axis>, v: int, z: nat): (f: Fleet)
    requires Boards(cs) && |axes| == MaxNumMotors && z <= MaxNumMotors
    decreases MaxNumMotors - z
  {
    if z == MaxNumMotors then Fleet(ErrNone, axes)
    else if !Active(cs[z]) then EnableFrom(cs, axes, v, z + 1)
    else
      var s := Enable(cs[z], axes[z], v);
      if s.err != ErrNone then Fleet(s.err, axes[z := s.ax]) else EnableFrom(cs, axes[z := s.ax], v, z + 1)
  }

  /** One board of the ENAB sweep: a driver failure adds a board message. */
  function Enable(c: Ctx, ax: Axis, v: int): Step
    requires WellFormed(c)
  {
    var s := AxisDriver.SetStatusValue(c, ax, SENAB, v);
    if s.err != ErrNone then Step(s.err, BoardError(c, s.ax, "Error enabling/disabling the motor")) else s
  }

  /**
   * On real and simulated boards the ENAB sweep cannot fail: it applies
   * SetEnable to every active board and leaves the others unchanged.
   */
  lemma {:induction false} EnableFromAll(cs: seq<Ctx>, axes: seq<Axis>, v: int, z: nat)
    requires Boards(cs) && |axes| == MaxNumMotors && z <= MaxNumMotors
    requires forall b :: 0 <= b < MaxNumMotors ==> cs[b].kind in {MotorNone, MotorSim, MotorTmc}
    ensures var f := EnableFrom(cs, axes, v, z);
      f.err == ErrNone && |f.axes| == MaxNumMotors &&
      forall b :: 0 <= b < MaxNumMotors ==>
        f.axes[b] == if z <= b && Active(cs[b]) then SetEnable(cs[b], axes[b], v).ax else axes[b]
    decreases MaxNumMotors - z
  {
    if z < MaxNumMotors {
      if !Active(cs[z]) {
        EnableFromAll(cs, axes, v, z + 1);
      } else {
        AxisDriver.SetStatusValueOutcome(cs[z], axes[z], SENAB, v);
        EnableFromAll(cs, axes[z := Enable(cs[z], axes[z], v).ax], v, z + 1);
      }
    }
  }

  /**
   * SetRemoteEnabled on the board set: board -1 addresses every board, a
   * board number only that board; the addressed boards that are active take
   * remote control `on`, and every other board is left as it was.
   */
  function Handover(cs: seq<Ctx>, axes: seq<Axis>, board: int, on: bool): (a: seq<Axis>)
    requires Boards(cs) && |axes| == MaxNumMotors
    ensures |a| == MaxNumMotors
  {
    seq(MaxNumMotors, b requires 0 <= b < MaxNumMotors =>
      if (board == -1 || board == b) && Active(cs[b]) then axes[b].(remote := on) else axes[b])
  }

  /** IsMotionDone(-1): no active board is moving or searching. */
  predicate AllDone(cs: seq<Ctx>, axes: seq<Axis>)
    requires Boards(cs) && |axes| == MaxNumMotors
  {
    forall b :: 0 <= b < MaxNumMotors && Active(cs[b]) ==> MotionDone(axes[b])
  }

  // ---------------------------------------------------------------------------
  // The error report
  // ---------------------------------------------------------------------------

  /** PrintErrorMsg's text for board slots z to 3; `first` tells whether nothing was printed yet. */
  function BoardReport(ls: seq<Latch>, z: nat, first: bool): (t: string)
    requires |ls| == MaxNumMotors && z <= MaxNumMotors
    decreases MaxNumMotors - z
  {
    if z == MaxNumMotors then ""
    else if ls[z].flag then (if first then "" else "; ") + ls[z].msg + BoardReport(ls, z + 1, false)
    else BoardReport(ls, z + 1, first)
  }

  /** PrintErrorMsg's text: the general message, then each raised board message, separated by "; ". */
  function Report(g: Latch, ls: seq<Latch>): (t: string)
    requires |ls| == MaxNumMotors
  {
    (if g.flag then g.msg else "") + BoardReport(ls, 0, !g.flag)
  }

  /** No board slot in [z, b) is raised. */
  predicate NoneRaised(ls: seq<Latch>, z: nat, b: nat)
    requires z <= b <= |ls|
  {
    forall k :: z <= k < b ==> !ls[k].flag
  }

  /** With non-empty messages, the report is empty exactly when no slot is raised. */
  lemma {:induction false} ReportEmptyIff(g: Latch, ls: seq<Latch>)
    requires |ls| == MaxNumMotors
    requires g.flag ==> g.msg != []
    requires forall b :: 0 <= b < MaxNumMotors && ls[b].flag ==> ls[b].msg != []
    ensures Report(g, ls) == [] <==> !g.flag && NoneRaised(ls, 0, MaxNumMotors)
  {
    BoardReportEmptyIff(ls, 0, !g.flag);
  }

  lemma {:induction false} BoardReportEmptyIff(ls: seq<Latch>, z: nat, first: bool)
    requires |ls| == MaxNumMotors && z <= MaxNumMotors
    requires forall b :: 0 <= b < MaxNumMotors && ls[b].flag ==> ls[b].msg != []
    ensures BoardReport(ls, z, first) == [] <==> NoneRaised(ls, z, MaxNumMotors)
    decreases MaxNumMotors - z
  {
    if z < MaxNumMotors {
      BoardReportEmptyIff(ls, z + 1, ls[z].flag || first);
      if !ls[z].flag {
        BoardReportEmptyIff(ls, z + 1, first);
      }
    }
  }
}
