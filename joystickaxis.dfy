// JoystickAxis on the remote unit: one analog stick axis turned into a
// velocity. The averaged reading's distance from the calibrated centre (zero
// inside the dead band) is scaled by the maximum value, the direction and the
// sensitivity factor in 32-bit C arithmetic; a call reports whether the
// velocity changed. The Joystick wrapper forwards per channel.
module JoystickInput {
  import opened Common
  import opened MovingAverageFilter
  import opened SensAdjustInput

  /** The distance of the average from the centre, or 0 inside the dead band. */
  function Offset(margin: int, center: int, avg: int): int
  {
    var r := avg - center;
    if Abs(r) < margin then 0 else r
  }

  /**
   * 2*direction*maxValue*r/1024*sensVal/1024, evaluated left to right on
   * int32_t: each product wraps to 32 bits and each division truncates toward
   * zero (a quotient by 1024 of an int32 is an int32).
   */
  function Velocity(direction: int, maxValue: int, r: int, sens: int): int
  {
    Scaled(Product(direction, maxValue, r), sens)
  }

  /** 2*direction*maxValue*r with every product wrapped to 32 bits. */
  function Product(direction: int, maxValue: int, r: int): int
  {
    WrapInt32(WrapInt32(WrapInt32(2 * direction) * maxValue) * r)
  }

  /** p/1024*sensVal/1024 on int32_t. */
  function Scaled(p: int, sens: int): int
  {
    TruncDiv(WrapInt32(TruncDiv(p, AdcFullScale) * sens), AdcFullScale)
  }

  /** The axis settings getUpdatedValue reads, and the last velocity it reported. */
  datatype Stick = Stick(maxValue: int, direction: int, centerMargin: int, centerADCValue: int, lastVelValue: int)

  /** The header's initial values. */
  const StickInit := Stick(0, 1, 0, 0, 0)

  /** The velocity for the current average and sensitivity factor. */
  function Output(s: Stick, avg: int, sens: int): int
  {
    Velocity(s.direction, s.maxValue, Offset(s.centerMargin, s.centerADCValue, avg), sens)
  }

  /** A velocity report and the settings after it: lastVelValue takes a changed value. */
  datatype Report = Report(changed: bool, value: int, stick: Stick)

  function Polled(s: Stick, avg: int, sens: int): Report
  {
    var v := Output(s, avg, sens);
    if v == s.lastVelValue then Report(false, v, s) else Report(true, v, s.(lastVelValue := v))
  }

  /** setDirection: only 1 and -1 are taken. */
  function Directed(s: Stick, dir: int): Stick
  {
    if dir != 1 && dir != -1 then s else s.(direction := dir)
  }

  // ---------------------------------------------------------------------------
  // Properties of the velocity

  /** Inside the dead band the velocity is 0, whatever the other settings. */
  lemma DeadBand(s: Stick, avg: int, sens: int)
    requires Abs(avg - s.centerADCValue) < s.centerMargin
    ensures Output(s, avg, sens) == 0
  {
    assert Offset(s.centerMargin, s.centerADCValue, avg) == 0;
    VelocityAtCentre(s.direction, s.maxValue, sens);
  }

  /** Right after updateCalibration, with the average unchanged, the velocity is 0. */
  lemma CalibratedCentre(s: Stick, avg: int, sens: int)
    ensures Output(s.(centerADCValue := avg), avg, sens) == 0
  {
    assert Offset(s.centerMargin, avg, avg) == 0;
    VelocityAtCentre(s.direction, s.maxValue, sens);
  }

  lemma VelocityAtCentre(direction: int, maxValue: int, sens: int)
    ensures Velocity(direction, maxValue, 0, sens) == 0
  {
    var m := WrapInt32(WrapInt32(2 * direction) * maxValue);
    assert m * 0 == 0;
    assert TruncDiv(0, AdcFullScale) == 0;
    assert 0 * sens == 0;
  }

  /** A non-negative dividend scaled by a factor of at most 1024 stays within 0..p. */
  lemma ScaleWithinUp(p: int, sens: int)
    requires 0 <= p && 0 <= sens <= AdcFullScale
    ensures 0 <= TruncDiv(p, AdcFullScale) * sens <= p
  {
    var q := p / AdcFullScale;
    assert TruncDiv(p, AdcFullScale) == q;
    DivFloor(p, AdcFullScale);
    MulNonneg(q, AdcFullScale - sens);
    MulNonneg(q, sens);
  }

  /** A negative dividend scaled by a factor of at most 1024 stays within p..0. */
  lemma ScaleWithinDown(p: int, sens: int)
    requires p < 0 && 0 <= sens <= AdcFullScale
    ensures p <= TruncDiv(p, AdcFullScale) * sens <= 0
  {
    var a := (-p) / AdcFullScale;
    assert TruncDiv(p, AdcFullScale) == -a;
    ScaleWithinUp(-p, sens);
    assert TruncDiv(-p, AdcFullScale) == a;
    assert (-a) * sens == -(a * sens);
  }

  /**
   * A truncated quotient by 1024 scaled by a factor of at most 1024 stays
   * between 0 and the dividend: it is an int32 of the dividend's sign.
   */
  lemma ScaleWithin(p: int, sens: int)
    requires IsInt32(p) && 0 <= sens <= AdcFullScale
    ensures var x := TruncDiv(p, AdcFullScale) * sens;
      (p >= 0 ==> 0 <= x <= p) && (p <= 0 ==> p <= x <= 0)
  {
    if p >= 0 { ScaleWithinUp(p, sens); } else { ScaleWithinDown(p, sens); }
  }

  /** Without overflow the wrapped product is the exact one. */
  lemma ProductExact(direction: int, maxValue: int, r: int)
    requires IsInt32(2 * direction) && IsInt32(2 * direction * maxValue) && IsInt32(2 * direction * maxValue * r)
    ensures Product(direction, maxValue, r) == 2 * direction * maxValue * r
  {
  }

  /**
   * With direction 1, a non-negative maximum, a factor within 0..1024 and a
   * product 2*maxValue*r that fits in 32 bits, the velocity never has the
   * opposite sign of the offset r.
   */
  lemma SignFollowsOffset(maxValue: int, r: int, sens: int)
    requires maxValue >= 0 && 0 <= sens <= AdcFullScale
    requires IsInt32(2 * maxValue) && IsInt32(2 * maxValue * r)
    ensures var v := Velocity(1, maxValue, r, sens);
      (r >= 0 ==> v >= 0) && (r <= 0 ==> v <= 0)
  {
    var p := 2 * maxValue * r;
    ProductExact(1, maxValue, r);
    if r >= 0 { MulNonneg(2 * maxValue, r); } else { MulNonneg(2 * maxValue, -r); }
    ScaleWithin(p, sens);
  }

  /** Without overflow the inner product of the scaling is exact. */
  lemma ScaledExact(p: int, sens: int)
    requires IsInt32(p) && 0 <= sens <= AdcFullScale
    ensures Scaled(p, sens) == TruncDiv(TruncDiv(p, AdcFullScale) * sens, AdcFullScale)
  {
    ScaleWithin(p, sens);
  }

  /** Scaling is odd in the dividend when both signs fit in 32 bits. */
  lemma ScaledOdd(p: int, sens: int)
    requires IsInt32(p) && IsInt32(-p) && 0 <= sens <= AdcFullScale
    ensures Scaled(-p, sens) == -Scaled(p, sens)
  {
    ScaledExact(p, sens);
    ScaledExact(-p, sens);
    var q := TruncDiv(p, AdcFullScale);
    TruncDivOdd(p, AdcFullScale);
    NegMul(q, sens);
    TruncDivOdd(q * sens, AdcFullScale);
  }

  lemma NegMul(a: int, b: int)
    ensures (-a) * b == -(a * b)
  {
  }

  /** Without overflow, direction -1 gives exactly the negated velocity of direction 1. */
  lemma DirectionNegates(maxValue: int, r: int, sens: int)
    requires 0 <= sens <= AdcFullScale
    requires IsInt32(2 * maxValue) && IsInt32(-2 * maxValue)
    requires IsInt32(2 * maxValue * r) && IsInt32(-2 * maxValue * r)
    ensures Velocity(-1, maxValue, r, sens) == -Velocity(1, maxValue, r, sens)
  {
    ProductExact(1, maxValue, r);
    ProductExact(-1, maxValue, r);
    assert Product(-1, maxValue, r) == -Product(1, maxValue, r);
    ScaledOdd(Product(1, maxValue, r), sens);
  }

  /** Every velocity is an int32_t: the last operation divides a wrapped product by 1024. */
  lemma OutputFits(s: Stick, avg: int, sens: int)
    ensures IsInt32(Output(s, avg, sens))
  {
    var x := WrapInt32(TruncDiv(Product(s.direction, s.maxValue, Offset(s.centerMargin, s.centerADCValue, avg)), AdcFullScale) * sens);
    assert Abs(x) / AdcFullScale <= Abs(x);
  }

  /** C division is odd in its dividend. */
  lemma TruncDivOdd(a: int, b: int)
    requires b > 0
    ensures TruncDiv(-a, b) == -TruncDiv(a, b)
  {
  }

  /** A product past 2^31 wraps: maximum 2^30 and offset 1 give a negative velocity. */
  lemma OverflowFlipsSign()
    ensures Velocity(1, 0x4000_0000, 1, AdcFullScale) < 0
  {
    assert WrapInt32(2 * 0x4000_0000) == Int32Min;
    assert TruncDiv(Int32Min, AdcFullScale) == -0x20_0000;
  }

  /** A second poll with nothing changed in between reports no change. */
  lemma PolledSettles(s: Stick, avg: int, sens: int)
    ensures var p := Polled(s, avg, sens);
      var q := Polled(p.stick, avg, sens);
      p.stick.lastVelValue == p.value && !q.changed && q.value == p.value && q.stick == p.stick
  {
  }

  // ---------------------------------------------------------------------------
  // The axis

  class JoystickAxis {
    const adcAverage: MovingAverage
    var maxValue: int
    var direction: int
    var centerMargin: int
    var centerADCValue: int
    var lastVelValue: int

    function State(): Stick
      reads this
    {
      Stick(maxValue, direction, centerMargin, centerADCValue, lastVelValue)
    }

    /** The filter is the 2^6 ADC average, and the direction is 1 or -1. */
    ghost predicate Valid()
      reads this, adcAverage, adcAverage.queue
    {
      adcAverage.Valid() && adcAverage.sizeBase == AdcAveragingBase && (direction == 1 || direction == -1)
    }

    /** The firmware's uint8_t pin is not used by any computation here. */
    constructor()
      ensures Valid() && fresh(adcAverage) && fresh(adcAverage.queue)
      ensures State() == StickInit && adcAverage.Snapshot() == Init(AdcAveragingBase)
    {
      adcAverage := new MovingAverage(AdcAveragingBase);
      maxValue := 0;
      direction := 1;
      centerMargin := 0;
      centerADCValue := 0;
      lastVelValue := 0;
    }

    method SetMaxValue(value: int)
      requires IsInt32(value)
      modifies this`maxValue
      ensures State() == old(State()).(maxValue := value)
    {
      maxValue := value;
    }

    method SetCenterMargin(value: int)
      requires -0x8000 <= value < 0x8000
      modifies this`centerMargin
      ensures State() == old(State()).(centerMargin := value)
    {
      centerMargin := value;
    }

    /** setDirection keeps the direction 1 or -1: any other value is ignored. */
    method SetDirection(dir: int)
      requires Valid()
      modifies this`direction
      ensures Valid() && State() == Directed(old(State()), dir)
    {
      if dir != 1 && dir != -1 {
        return;
      }
      direction := dir;
    }

    /** updateCalibration: the current average becomes the centre. */
    method UpdateCalibration()
      requires Valid()
      modifies this`centerADCValue
      ensures Valid() && State() == old(State()).(centerADCValue := adcAverage.CurrentValue())
    {
      centerADCValue := adcAverage.CurrentValue();
    }

    /**
     * update(): one ADC sample enters the filter. The firmware's `ADCPin < 0`
     * guard is never true for its uint8_t pin, so every sample is added.
     */
    method Update(sample: int)
      requires Valid() && IsUint16(sample)
      modifies adcAverage`head, adcAverage`windowSum, adcAverage.queue
      ensures Valid() && adcAverage.Snapshot() == Add(old(adcAverage.Snapshot()), sample)
    {
      adcAverage.AddNewValue(sample);
    }

    /**
     * getUpdatedValue: reads the sensitivity unit (which records its own change),
     * computes the velocity and reports whether it differs from the last one.
     */
    method GetUpdatedValue(sens: SensAdjust) returns (changed: bool, newValue: int)
      requires Valid() && sens.Valid()
      modifies this`lastVelValue, sens`lastADCValue
      ensures Valid() && sens.Valid()
      ensures Report(changed, newValue, State()) == Polled(old(State()), adcAverage.CurrentValue(), sens.Sensitivity())
      ensures sens.lastADCValue == Updated(sens.hasPin, sens.direction, sens.adcAverage.CurrentValue(), old(sens.lastADCValue)).last
    {
      var currentADCValue := adcAverage.CurrentValue();
      var r := currentADCValue - centerADCValue;
      if Abs(r) < centerMargin {
        r := 0;
      }
      var _, sensVal := sens.GetUpdatedValue();
      var p := WrapInt32(WrapInt32(WrapInt32(2 * direction) * maxValue) * r);
      newValue := TruncDiv(WrapInt32(TruncDiv(p, AdcFullScale) * sensVal), AdcFullScale);
      if newValue == lastVelValue {
        changed := false;
      } else {
        lastVelValue := newValue;
        changed := true;
      }
    }
  }

  // ---------------------------------------------------------------------------
  // The per-channel wrapper

  /** JOYSTICK_CHx_PIN_ADC: channels 0 and 1 have an axis, 2 and 3 none. */
  predicate AxisPresent(ch: int) { ch == 0 || ch == 1 }

  /** JOYSTICK_CHx_PIN_BUTTON: channels 0 and 1 share one button, 2 and 3 have none. */
  predicate ButtonPresent(ch: int) { ch == 0 || ch == 1 }

  /**
   * The Joystick singleton: the two configured axes and the per-channel
   * button flags its interrupt sets.
   */
  class Joystick {
    const axis0: JoystickAxis
    const axis1: JoystickAxis
    var buttonPressed: seq<bool>

    ghost predicate Valid()
      reads this, axis0, axis1, axis0.adcAverage, axis0.adcAverage.queue, axis1.adcAverage, axis1.adcAverage.queue
    {
      |buttonPressed| == MaxNumMotors && axis0 != axis1 && axis0.adcAverage != axis1.adcAverage
      && axis0.adcAverage.queue != axis1.adcAverage.queue && axis0.Valid() && axis1.Valid()
    }

    /** The axis of a present channel. */
    function Axis(ch: int): JoystickAxis
      requires AxisPresent(ch)
    {
      if ch == 0 then axis0 else axis1
    }

    constructor()
      ensures Valid() && fresh(axis0) && fresh(axis1)
      ensures fresh(axis0.adcAverage) && fresh(axis0.adcAverage.queue)
      ensures fresh(axis1.adcAverage) && fresh(axis1.adcAverage.queue)
      ensures buttonPressed == [false, false, false, false]
      ensures axis0.State() == StickInit && axis1.State() == StickInit
    {
      axis0 := new JoystickAxis();
      axis1 := new JoystickAxis();
      buttonPressed := [false, false, false, false];
    }

    /** isChannelPresent: whether the channel has an axis. */
    function IsChannelPresent(ch: int): (present: bool)
      ensures present <==> AxisPresent(ch)
    {
      ch == 0 || ch == 1
    }

    /** buttonISR: a press of the shared button flags both channels of the pair. */
    method ButtonIsr()
      requires Valid()
      modifies this`buttonPressed
      ensures Valid() && buttonPressed == old(buttonPressed)[0 := true][1 := true]
    {
      buttonPressed := buttonPressed[0 := true][1 := true];
    }

    /** getButtonPressed: 0 for an unsupported channel or one without a button. */
    function GetButtonPressed(ch: int): (pressed: bool)
      requires Valid()
      reads this, axis0, axis1, axis0.adcAverage, axis0.adcAverage.queue, axis1.adcAverage, axis1.adcAverage.queue
      ensures pressed <==> 0 <= ch < MaxNumMotors && ButtonPresent(ch) && buttonPressed[ch]
    {
      if !(0 <= ch < MaxNumMotors) then false
      else if !ButtonPresent(ch) then false
      else buttonPressed[ch]
    }

    /** resetButtonPressed: clears the flag of a channel that has a button. */
    method ResetButtonPressed(ch: int)
      requires Valid()
      modifies this`buttonPressed
      ensures Valid()
      ensures buttonPressed == if 0 <= ch < MaxNumMotors && ButtonPresent(ch) then old(buttonPressed)[ch := false] else old(buttonPressed)
    {
      if !(0 <= ch < MaxNumMotors) {
        return;
      }
      if !ButtonPresent(ch) {
        return;
      }
      buttonPressed := buttonPressed[ch := false];
    }

    method SetMaxValue(ch: int, value: int)
      requires Valid() && IsInt32(value)
      modifies axis0`maxValue, axis1`maxValue
      ensures Valid()
      ensures AxisPresent(ch) ==> Axis(ch).State() == old(Axis(ch).State()).(maxValue := value)
      ensures AxisPresent(ch) ==> Axis(1 - ch).State() == old(Axis(1 - ch).State())
      ensures !AxisPresent(ch) ==> axis0.State() == old(axis0.State()) && axis1.State() == old(axis1.State())
    {
      if !(0 <= ch < MaxNumMotors) {
        return;
      }
      if AxisPresent(ch) {
        Axis(ch).SetMaxValue(value);
      }
    }

    method SetDirection(ch: int, dir: int)
      requires Valid()
      modifies axis0`direction, axis1`direction
      ensures Valid()
      ensures AxisPresent(ch) ==> Axis(ch).State() == Directed(old(Axis(ch).State()), dir)
      ensures AxisPresent(ch) ==> Axis(1 - ch).State() == old(Axis(1 - ch).State())
      ensures !AxisPresent(ch) ==> axis0.State() == old(axis0.State()) && axis1.State() == old(axis1.State())
    {
      if !(0 <= ch < MaxNumMotors) {
        return;
      }
      if AxisPresent(ch) {
        Axis(ch).SetDirection(dir);
      }
    }

    method SetCenterMargin(ch: int, value: int)
      requires Valid() && -0x8000 <= value < 0x8000
      modifies axis0`centerMargin, axis1`centerMargin
      ensures Valid()
      ensures AxisPresent(ch) ==> Axis(ch).State() == old(Axis(ch).State()).(centerMargin := value)
      ensures AxisPresent(ch) ==> Axis(1 - ch).State() == old(Axis(1 - ch).State())
      ensures !AxisPresent(ch) ==> axis0.State() == old(axis0.State()) && axis1.State() == old(axis1.State())
    {
      if !(0 <= ch < MaxNumMotors) {
        return;
      }
      if AxisPresent(ch) {
        Axis(ch).SetCenterMargin(value);
      }
    }

    /** update(): the timer adds one ADC sample to the filter of each present axis, channel 0 first. */
    method Update(sample0: int, sample1: int)
      requires Valid() && IsUint16(sample0) && IsUint16(sample1)
      modifies axis0.adcAverage`head, axis0.adcAverage`windowSum, axis0.adcAverage.queue
      modifies axis1.adcAverage`head, axis1.adcAverage`windowSum, axis1.adcAverage.queue
      ensures Valid() && axis0.State() == old(axis0.State()) && axis1.State() == old(axis1.State())
      ensures axis0.adcAverage.Snapshot() == Add(old(axis0.adcAverage.Snapshot()), sample0)
      ensures axis1.adcAverage.Snapshot() == Add(old(axis1.adcAverage.Snapshot()), sample1)
    {
      axis0.Update(sample0);
      axis1.Update(sample1);
    }

    method UpdateCalibration(ch: int)
      requires Valid()
      modifies axis0`centerADCValue, axis1`centerADCValue
      ensures Valid()
      ensures AxisPresent(ch) ==> Axis(ch).State() == old(Axis(ch).State()).(centerADCValue := Axis(ch).adcAverage.CurrentValue())
      ensures AxisPresent(ch) ==> Axis(1 - ch).State() == old(Axis(1 - ch).State())
      ensures !AxisPresent(ch) ==> axis0.State() == old(axis0.State()) && axis1.State() == old(axis1.State())
    {
      if !(0 <= ch < MaxNumMotors) {
        return;
      }
      if AxisPresent(ch) {
        Axis(ch).UpdateCalibration();
      }
    }

    /** getUpdatedValue: 0 (no change) for a channel without an axis. */
    method GetUpdatedValue(ch: int, sens: SensAdjust) returns (changed: bool, newValue: int)
      requires Valid() && sens.Valid()
      modifies axis0`lastVelValue, axis1`lastVelValue, sens`lastADCValue
      ensures Valid() && sens.Valid()
      ensures AxisPresent(ch) ==> (
        Report(changed, newValue, Axis(ch).State()) == Polled(old(Axis(ch).State()), Axis(ch).adcAverage.CurrentValue(), sens.Sensitivity())
        && Axis(1 - ch).State() == old(Axis(1 - ch).State())
        && sens.lastADCValue == Updated(sens.hasPin, sens.direction, sens.adcAverage.CurrentValue(), old(sens.lastADCValue)).last)
      ensures !AxisPresent(ch) ==> (!changed && axis0.State() == old(axis0.State()) && axis1.State() == old(axis1.State())
        && sens.lastADCValue == old(sens.lastADCValue))
    {
      changed, newValue := false, 0;
      if !(0 <= ch < MaxNumMotors) {
        return;
      }
      if AxisPresent(ch) {
        changed, newValue := Axis(ch).GetUpdatedValue(sens);
      }
    }
  }
}
