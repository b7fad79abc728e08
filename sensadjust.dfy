// SensAdjust on the remote unit: the sensitivity knob. Its averaged ADC
// reading is handed out as a scale factor out of 1024 (inverted when the
// direction is negative), together with a flag telling whether the raw average
// moved since the previous call.
module SensAdjustInput {
  import opened Common
  import opened MovingAverageFilter

  /** 1 << COMMON_ADC_RESOLUTION: full scale of the 10-bit ADC. */
  const AdcFullScale := 1024

  /** ADC_AVERAGING_BASE: every ADC input averages 2^6 samples. */
  const AdcAveragingBase := 6

  /** A cast to int16_t, as the uint16 average is stored into lastADCValue. */
  function WrapInt16(x: int): (r: int)
    ensures -0x8000 <= r < 0x8000
    ensures -0x8000 <= x < 0x8000 ==> r == x
  {
    var m := x % 0x1_0000; if m >= 0x8000 then m - 0x1_0000 else m
  }

  /** What one getUpdatedValue call reports, and the lastADCValue it leaves behind. */
  datatype Poll = Poll(changed: bool, value: int, last: int)

  /** The reported scale factor for an average: the average itself, or 1024 minus it. */
  function Scale(direction: int, avg: int): int
  {
    if direction < 0 then AdcFullScale - avg else avg
  }

  /** The factor getUpdatedValue hands out: full scale without a pin, else the scaled average. */
  function Factor(hasPin: bool, direction: int, avg: int): int
  {
    if !hasPin then AdcFullScale else Scale(direction, avg)
  }

  /**
   * getUpdatedValue: without a pin the factor is full scale and nothing changes;
   * otherwise the average is compared with the stored one (the uint16 average
   * against the int16 field, both promoted to int) and stored when it differs.
   */
  function Updated(hasPin: bool, direction: int, avg: int, last: int): Poll
  {
    var f := Factor(hasPin, direction, avg);
    if !hasPin || avg == last then Poll(false, f, last) else Poll(true, f, WrapInt16(avg))
  }

  /** Without an ADC pin the factor is 1024, nothing is reported and nothing is stored. */
  lemma NoPinFullScale(direction: int, avg: int, last: int)
    ensures Updated(false, direction, avg, last) == Poll(false, AdcFullScale, last)
  {
  }

  /**
   * With a pin and an average within the ADC range, the factor is within
   * 0..1024: the average for a non-negative direction, its complement to 1024
   * for a negative one. The two directions' factors add up to full scale.
   */
  lemma FactorRange(direction: int, avg: int, last: int)
    requires 0 <= avg <= AdcFullScale
    ensures var p := Updated(true, direction, avg, last);
      0 <= p.value <= AdcFullScale
      && (direction >= 0 ==> p.value == avg)
      && (direction < 0 ==> p.value == AdcFullScale - avg)
      && Updated(true, 1, avg, last).value + Updated(true, -1, avg, last).value == AdcFullScale
  {
  }

  /**
   * With a pin the call reports a change exactly when the average differs from
   * the stored one, and then stores the raw (uninverted) average; a filter
   * average always fits the int16 field.
   */
  lemma ChangeDetected(w: Window, direction: int, last: int)
    requires Inv(w)
    ensures var p := Updated(true, direction, Average(w), last);
      (p.changed <==> Average(w) != last)
      && (p.changed ==> p.last == Average(w))
      && (!p.changed ==> p.last == last)
  {
    AverageFitsInt16(w);
  }

  /** Two calls with no sample in between: the second reports no change and the same factor. */
  lemma SecondReadUnchanged(w: Window, hasPin: bool, direction: int, last: int)
    requires Inv(w)
    ensures var p := Updated(hasPin, direction, Average(w), last);
      var q := Updated(hasPin, direction, Average(w), p.last);
      !q.changed && q.value == p.value && q.last == p.last
  {
    AverageFitsInt16(w);
  }

  /** The mean of a valid window is at most 2^15 - 1, since the window has at least two slots. */
  lemma AverageFitsInt16(w: Window)
    requires Inv(w)
    ensures 0 <= Average(w) < 0x8000
  {
    AverageBound(w);
    var a, n := Average(w), |w.slots|;
    assert n >= 2 by { assert Pow2(w.base) == 2 * Pow2(w.base - 1); }
    MulNonneg(a, n - 2);
    assert 2 * a <= a * n;
  }

  /** The sensitivity unit: its pin, its direction, its filter and the last average it reported. */
  class SensAdjust {
    const hasPin: bool
    const direction: int
    const adcAverage: MovingAverage
    var lastADCValue: int

    ghost predicate Valid()
      reads adcAverage, adcAverage.queue
    {
      adcAverage.Valid() && adcAverage.sizeBase == AdcAveragingBase
    }

    /**
     * The firmware's unit has pin A2 and direction 1; both are parameters here
     * so that the pinless and inverted branches are reachable.
     */
    constructor(hasPin: bool, direction: int)
      ensures Valid() && fresh(adcAverage) && fresh(adcAverage.queue)
      ensures this.hasPin == hasPin && this.direction == direction && lastADCValue == 0
      ensures adcAverage.Snapshot() == Init(AdcAveragingBase)
    {
      this.hasPin := hasPin;
      this.direction := direction;
      adcAverage := new MovingAverage(AdcAveragingBase);
      lastADCValue := 0;
    }

    /** update(): the timer adds one ADC sample to the filter. */
    method Update(sample: int)
      requires Valid() && IsUint16(sample)
      modifies adcAverage`head, adcAverage`windowSum, adcAverage.queue
      ensures Valid() && adcAverage.Snapshot() == Add(old(adcAverage.Snapshot()), sample)
    {
      adcAverage.AddNewValue(sample);
    }

    /** The factor getUpdatedValue reports now; it does not depend on lastADCValue. */
    function Sensitivity(): int
      requires Valid()
      reads adcAverage, adcAverage.queue
    {
      Factor(hasPin, direction, adcAverage.CurrentValue())
    }

    /** getUpdatedValue: the change flag and the factor; a change stores the new average. */
    method GetUpdatedValue() returns (changed: bool, newValue: int)
      requires Valid()
      modifies this`lastADCValue
      ensures Valid() && newValue == Sensitivity()
      ensures Poll(changed, newValue, lastADCValue)
        == Updated(hasPin, direction, adcAverage.CurrentValue(), old(lastADCValue))
    {
      if !hasPin {
        newValue := AdcFullScale;
        changed := false;
      } else {
        var currentADCValue := adcAverage.CurrentValue();
        newValue := currentADCValue;
        if direction < 0 {
          newValue := AdcFullScale - newValue;
        }
        if currentADCValue == lastADCValue {
          changed := false;
        } else {
          lastADCValue := WrapInt16(currentADCValue);
          changed := true;
        }
      }
    }
  }
}
