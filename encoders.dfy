// Encoders on the remote unit: four quadrature encoders turned into absolute
// positions. Each read scales the count change since the last accepted read by
// direction, step size and the sensitivity factor; only a non-zero scaled change
// is accepted, so smaller changes accumulate. A reference offset ties the
// encoder's position to the one shown on the display.
module EncoderInput {
  import opened Common
  import opened SensAdjustInput
  import opened PositionDisplay

  /** The per-channel arrays of the firmware, one record per channel. */
  datatype Channel = Channel(direction: int, stepSize: int, refPosition: int, lastEncPos: int, lastPos: int)

  /** The header's initial values (and the zeroed statics of getChangedPosition). */
  const ChannelInit := Channel(1, 1, 0, 0, 0)

  /** Every field is an int32_t. */
  predicate Fits(c: Channel)
  {
    IsInt32(c.direction) && IsInt32(c.stepSize) && IsInt32(c.refPosition) && IsInt32(c.lastEncPos) && IsInt32(c.lastPos)
  }

  /** A position read: whether it changed, the position, and the channel after it. */
  datatype Reading = Reading(changed: bool, pos: int, ch: Channel)

  /** The scaled change direction*stepSize*encChange*sensVal/1024 on int32_t. */
  function Change(direction: int, stepSize: int, encChange: int, sens: int): int
  {
    TruncDiv(WrapInt32(WrapInt32(WrapInt32(direction * stepSize) * encChange) * sens), AdcFullScale)
  }

  /**
   * getChangedPosition on a present channel: the position is the accepted one
   * plus the new scaled change plus the reference; a non-zero change is
   * accepted into lastEncPos and lastPos.
   */
  function Read(c: Channel, count: int, sens: int): Reading
  {
    var encChange := WrapInt32(count - c.lastEncPos);
    var posChange := Change(c.direction, c.stepSize, encChange, sens);
    var pos := WrapInt32(WrapInt32(c.lastPos + posChange) + c.refPosition);
    if posChange != 0 then
      Reading(true, pos, c.(lastEncPos := WrapInt32(c.lastEncPos + encChange), lastPos := WrapInt32(c.lastPos + posChange)))
    else Reading(false, pos, c)
  }

  /**
   * resetEncoderReference on a present channel: the reference is cleared, a
   * read is made, and the reference becomes the displayed position minus the
   * position that read returned.
   */
  function Rebase(c: Channel, count: int, sens: int, shown: int): Channel
  {
    var r := Read(c.(refPosition := 0), count, sens);
    r.ch.(refPosition := WrapInt32(shown - r.pos))
  }

  // ---------------------------------------------------------------------------
  // 32-bit wrap-around

  lemma WrapShift(x: int, k: int)
    ensures WrapInt32(x + k * 0x1_0000_0000) == WrapInt32(x)
  {
    var q := x / 0x1_0000_0000;
    assert x == 0x1_0000_0000 * q + x % 0x1_0000_0000;
    assert x + k * 0x1_0000_0000 == 0x1_0000_0000 * (q + k) + x % 0x1_0000_0000;
  }

  /** Adding back a wrapped difference lands on the int32 target. */
  lemma WrapBack(a: int, b: int)
    requires IsInt32(b)
    ensures WrapInt32(a + WrapInt32(b - a)) == b
  {
    var x := b - a;
    var q := x / 0x1_0000_0000;
    assert x == 0x1_0000_0000 * q + x % 0x1_0000_0000;
    var k := if x % 0x1_0000_0000 > Int32Max then q + 1 else q;
    assert WrapInt32(x) == x - k * 0x1_0000_0000;
    assert a + WrapInt32(x) == b + (-k) * 0x1_0000_0000;
    WrapShift(b, -k);
  }

  // ---------------------------------------------------------------------------
  // Properties of a read

  /**
   * An accepted read catches lastEncPos up with the count, and the position it
   * reports is the new accumulated position plus the reference. A rejected read
   * changes nothing and reports the old accumulated position plus the reference,
   * so the counts it saw stay pending for the next read.
   */
  lemma ReadAccounting(c: Channel, count: int, sens: int)
    requires Fits(c) && IsInt32(count)
    ensures var r := Read(c, count, sens);
      Fits(r.ch) && r.ch.refPosition == c.refPosition
      && (r.changed ==> r.ch.lastEncPos == count && r.pos == WrapInt32(r.ch.lastPos + c.refPosition))
      && (!r.changed ==> r.ch == c && r.pos == WrapInt32(c.lastPos + c.refPosition))
  {
    WrapBack(c.lastEncPos, count);
    assert WrapInt32(c.lastPos + 0) == c.lastPos;
  }

  /** A read with no new counts reports no change. */
  lemma NoCountsNoChange(c: Channel, sens: int)
    requires Fits(c)
    ensures !Read(c, c.lastEncPos, sens).changed
  {
    NoCountChange(c.direction, c.stepSize, sens);
  }

  lemma NoCountChange(direction: int, stepSize: int, sens: int)
    ensures Change(direction, stepSize, 0, sens) == 0
  {
    var m := WrapInt32(direction * stepSize);
    assert m * 0 == 0;
    assert 0 * sens == 0;
  }

  /** A read whose scaled change is zero reports the accumulated position plus the reference. */
  lemma ReadSettled(d: Channel, count: int, sens: int)
    requires Fits(d) && Change(d.direction, d.stepSize, WrapInt32(count - d.lastEncPos), sens) == 0
    ensures Read(d, count, sens) == Reading(false, WrapInt32(d.lastPos + d.refPosition), d)
  {
    assert WrapInt32(d.lastPos + 0) == d.lastPos;
  }

  /**
   * After resetEncoderReference, a read with no new counts and the same factor
   * reports exactly the displayed position, and no change.
   */
  lemma ReadAfterRebase(c: Channel, count: int, sens: int, shown: int)
    requires Fits(c) && IsInt32(count) && IsInt32(shown)
    ensures var d := Rebase(c, count, sens, shown);
      Fits(d) && Read(d, count, sens) == Reading(false, shown, d)
  {
    var z := c.(refPosition := 0);
    var r := Read(z, count, sens);
    ReadAccounting(z, count, sens);
    var d := r.ch.(refPosition := WrapInt32(shown - r.pos));
    assert r.pos == r.ch.lastPos by {
      assert WrapInt32(r.ch.lastPos + 0) == r.ch.lastPos;
    }
    if r.changed {
      NoCountChange(d.direction, d.stepSize, sens);
      assert WrapInt32(count - d.lastEncPos) == 0;
    }
    ReadSettled(d, count, sens);
    WrapBack(d.lastPos, shown);
  }

  /** Rebase is the read with a cleared reference followed by the new reference. */
  lemma RebaseOf(c: Channel, count: int, sens: int, shown: int, e: Channel, pos: int)
    requires e == Read(c.(refPosition := 0), count, sens).ch && pos == Read(c.(refPosition := 0), count, sens).pos
    ensures Rebase(c, count, sens, shown) == e.(refPosition := WrapInt32(shown - pos))
  {
  }

  // ---------------------------------------------------------------------------
  // The bank of channels

  /** setDirection: an unsupported channel or a direction other than 1 and -1 is ignored. */
  function Directed(cs: seq<Channel>, ch: int, dir: int): seq<Channel>
    requires |cs| == MaxNumMotors
  {
    if !ValidBoard(ch) || (dir != 1 && dir != -1) then cs else cs[ch := cs[ch].(direction := dir)]
  }

  /** setStepSize: only an unsupported channel is ignored. */
  function Stepped(cs: seq<Channel>, ch: int, size: int): seq<Channel>
    requires |cs| == MaxNumMotors
  {
    if !ValidBoard(ch) then cs else cs[ch := cs[ch].(stepSize := size)]
  }

  /** What getChangedPosition returns and leaves, for the whole bank. */
  datatype Polled = Polled(changed: bool, pos: int, channels: seq<Channel>)

  /** getChangedPosition: an unsupported or pinless channel reports nothing and changes nothing. */
  function ChangedPosition(hasPin: seq<bool>, cs: seq<Channel>, ch: int, count: int, sens: int): Polled
    requires |hasPin| == |cs| == MaxNumMotors
  {
    if !ValidBoard(ch) || !hasPin[ch] then Polled(false, 0, cs)
    else var r := Read(cs[ch], count, sens); Polled(r.changed, r.pos, cs[ch := r.ch])
  }

  /**
   * resetEncoderReference: an unsupported channel is ignored. A pinless
   * channel's read returns before setting the position; the model takes it as 0.
   */
  function Rebased(hasPin: seq<bool>, cs: seq<Channel>, ch: int, count: int, sens: int, shown: int): seq<Channel>
    requires |hasPin| == |cs| == MaxNumMotors
  {
    if !ValidBoard(ch) then cs
    else if !hasPin[ch] then cs[ch := cs[ch].(refPosition := WrapInt32(shown))]
    else cs[ch := Rebase(cs[ch], count, sens, shown)]
  }

  /** Whether the operation on a channel reads the sensitivity unit (a present channel). */
  predicate Senses(hasPin: seq<bool>, ch: int)
    requires |hasPin| == MaxNumMotors
  {
    ValidBoard(ch) && hasPin[ch]
  }

  /** Every channel's fields are int32_t. */
  predicate AllFit(cs: seq<Channel>)
  {
    forall i :: 0 <= i < |cs| ==> Fits(cs[i])
  }

  lemma FitUpdate(cs: seq<Channel>, i: nat, c: Channel)
    requires AllFit(cs) && i < |cs| && Fits(c)
    ensures AllFit(cs[i := c])
  {
  }

  /** The bank operations keep every field an int32. */
  lemma BankFits(hasPin: seq<bool>, cs: seq<Channel>, ch: int, count: int, sens: int, shown: int, v: int)
    requires |hasPin| == |cs| == MaxNumMotors && AllFit(cs) && IsInt32(count) && IsInt32(shown) && IsInt32(v)
    ensures AllFit(Directed(cs, ch, v)) && AllFit(Stepped(cs, ch, v))
    ensures AllFit(ChangedPosition(hasPin, cs, ch, count, sens).channels)
    ensures AllFit(Rebased(hasPin, cs, ch, count, sens, shown))
  {
    if ValidBoard(ch) && hasPin[ch] {
      ReadAccounting(cs[ch], count, sens);
      ReadAfterRebase(cs[ch], count, sens, shown);
    }
  }

  /** The Encoders singleton: which channels have pins and buttons, the channel records and the button flags. */
  class Encoders {
    const hasPin: seq<bool>
    const hasButton: seq<bool>
    var channels: seq<Channel>
    var buttonPressed: seq<bool>

    ghost predicate Valid()
      reads this
    {
      |hasPin| == MaxNumMotors && |hasButton| == MaxNumMotors
      && |channels| == MaxNumMotors && |buttonPressed| == MaxNumMotors && AllFit(channels)
    }

    /** ENCODER_CHx_PIN_ENCA and ENCODER_CHx_PIN_BUTTON: every channel has both. */
    constructor()
      ensures Valid() && hasPin == [true, true, true, true] && hasButton == [true, true, true, true]
      ensures channels == [ChannelInit, ChannelInit, ChannelInit, ChannelInit]
      ensures buttonPressed == [false, false, false, false]
    {
      hasPin := [true, true, true, true];
      hasButton := [true, true, true, true];
      channels := [ChannelInit, ChannelInit, ChannelInit, ChannelInit];
      buttonPressed := [false, false, false, false];
    }

    /** isChannelPresent (the firmware does not check the channel; the model answers false). */
    function IsChannelPresent(ch: int): (present: bool)
      requires Valid()
      reads this
      ensures present <==> ValidBoard(ch) && hasPin[ch]
    {
      ValidBoard(ch) && hasPin[ch]
    }

    method SetDirection(ch: int, dir: int)
      requires Valid()
      modifies this`channels
      ensures Valid() && channels == Directed(old(channels), ch, dir)
    {
      if !ValidBoard(ch) {
        return;
      }
      if dir != 1 && dir != -1 {
        return;
      }
      channels := channels[ch := channels[ch].(direction := dir)];
    }

    method SetStepSize(ch: int, size: int)
      requires Valid() && IsInt32(size)
      modifies this`channels
      ensures Valid() && channels == Stepped(old(channels), ch, size)
    {
      if !ValidBoard(ch) {
        return;
      }
      channels := channels[ch := channels[ch].(stepSize := size)];
    }

    /**
     * getChangedPosition with the encoder count the PIO reports (an input);
     * a present channel reads the sensitivity unit, which records its own change.
     */
    method GetChangedPosition(ch: int, count: int, sens: SensAdjust) returns (changed: bool, pos: int)
      requires Valid() && sens.Valid() && IsInt32(count)
      modifies this`channels, sens`lastADCValue
      ensures Valid() && sens.Valid()
      ensures Polled(changed, pos, channels) == ChangedPosition(hasPin, old(channels), ch, count, sens.Sensitivity())
      ensures sens.lastADCValue == if Senses(hasPin, ch) then Updated(sens.hasPin, sens.direction, sens.adcAverage.CurrentValue(), old(sens.lastADCValue)).last else old(sens.lastADCValue)
    {
      changed, pos := false, 0;
      if !ValidBoard(ch) {
        return;
      }
      if !hasPin[ch] {
        return;
      }
      var _, sensVal := sens.GetUpdatedValue();
      changed, pos := ReadPresent(ch, count, sensVal);
    }

    /** The part of getChangedPosition after the checks, with the factor already read. */
    method ReadPresent(ch: int, count: int, sensVal: int) returns (changed: bool, pos: int)
      requires Valid() && ValidBoard(ch) && IsInt32(count)
      modifies this`channels
      ensures Valid()
      ensures var r := Read(old(channels)[ch], count, sensVal);
        changed == r.changed && pos == r.pos && channels == old(channels)[ch := r.ch]
    {
      var c := channels[ch];
      var r := Read(c, count, sensVal);
      ReadAccounting(c, count, sensVal);
      FitUpdate(channels, ch, r.ch);
      changed, pos := r.changed, r.pos;
      if changed {
        channels := channels[ch := r.ch];
      }
    }

    /** resetEncoderReference: re-bases the channel on the displayed position. */
    method ResetEncoderReference(ch: int, count: int, sens: SensAdjust, display: Display)
      requires Valid() && sens.Valid() && display.Valid() && IsInt32(count)
      modifies this`channels, sens`lastADCValue
      ensures Valid() && sens.Valid()
      ensures channels == Rebased(hasPin, old(channels), ch, count, sens.Sensitivity(), display.GetPosition(ch))
      ensures sens.lastADCValue == if Senses(hasPin, ch) then Updated(sens.hasPin, sens.direction, sens.adcAverage.CurrentValue(), old(sens.lastADCValue)).last else old(sens.lastADCValue)
    {
      if !ValidBoard(ch) {
        return;
      }
      var z := channels[ch].(refPosition := 0);
      FitUpdate(channels, ch, z);
      channels := channels[ch := z];
      var _, encPos := GetChangedPosition(ch, count, sens);
      ghost var mid := channels;
      var displayedPos := display.GetPosition(ch);
      var rebased := channels[ch].(refPosition := WrapInt32(displayedPos - encPos));
      FitUpdate(channels, ch, rebased);
      channels := channels[ch := rebased];
      ghost var f := sens.Sensitivity();
      if hasPin[ch] {
        RebaseOf(old(channels)[ch], count, f, displayedPos, mid[ch], encPos);
      }
    }

    /** getButtonPressed: 0 for an unsupported channel or one without a button. */
    function GetButtonPressed(ch: int): (pressed: bool)
      requires Valid()
      reads this
      ensures pressed <==> ValidBoard(ch) && hasButton[ch] && buttonPressed[ch]
    {
      if !ValidBoard(ch) then false else if !hasButton[ch] then false else buttonPressed[ch]
    }

    /** resetButtonPressed: clears the flag of a channel that has a button. */
    method ResetButtonPressed(ch: int)
      requires Valid()
      modifies this`buttonPressed
      ensures Valid()
      ensures buttonPressed == if ValidBoard(ch) && hasButton[ch] then old(buttonPressed)[ch := false] else old(buttonPressed)
    {
      if !ValidBoard(ch) {
        return;
      }
      if !hasButton[ch] {
        return;
      }
      buttonPressed := buttonPressed[ch := false];
    }

    /** buttonISRx: a press flags its own channel. */
    method ButtonIsr(ch: int)
      requires Valid() && ValidBoard(ch)
      modifies this`buttonPressed
      ensures Valid() && buttonPressed == old(buttonPressed)[ch := true]
    {
      buttonPressed := buttonPressed[ch := true];
    }
  }
}
