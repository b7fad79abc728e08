// The position store of the remote unit's display: the last position the
// controller reported for each channel. Drawing it on the screen is not part
// of this model.
module PositionDisplay {
  import opened Common

  class Display {
    var lastPosition: seq<int>

    /** Four int32_t positions. */
    ghost predicate Valid()
      reads this
    {
      |lastPosition| == MaxNumMotors && forall i :: 0 <= i < MaxNumMotors ==> IsInt32(lastPosition[i])
    }

    constructor()
      ensures Valid() && lastPosition == [0, 0, 0, 0]
    {
      lastPosition := [0, 0, 0, 0];
    }

    /** setPosition: an unsupported channel is ignored. */
    method SetPosition(ch: int, position: int)
      requires Valid() && IsInt32(position)
      modifies this`lastPosition
      ensures Valid()
      ensures lastPosition == if ValidBoard(ch) then old(lastPosition)[ch := position] else old(lastPosition)
    {
      if !ValidBoard(ch) {
        return;
      }
      lastPosition := lastPosition[ch := position];
    }

    /** getPosition: 0 for an unsupported channel. */
    function GetPosition(ch: int): (position: int)
      requires Valid()
      reads this
      ensures ValidBoard(ch) ==> position == lastPosition[ch]
      ensures !ValidBoard(ch) ==> position == 0
    {
      if !ValidBoard(ch) then 0 else lastPosition[ch]
    }
  }
}
