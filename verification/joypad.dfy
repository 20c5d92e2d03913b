/**
 * The standard controller of joypad/joypad.go. While the strobe bit is set
 * every read answers 1; when a write clears it, the current button state is
 * latched, and the next eight reads report the latched buttons one at a
 * time, after which reads answer 1 again.
 */
module Joypad {
  /** Go's `Button uint8`; the constants give the order in which reads report the buttons. */
  type Button = bv8

  const ButtonA: Button := 0
  const ButtonB: Button := 1
  const ButtonSelect: Button := 2
  const ButtonStart: Button := 3
  const ButtonUp: Button := 4
  const ButtonDown: Button := 5
  const ButtonLeft: Button := 6
  const ButtonRight: Button := 7

  /** A button read as the bit the data line carries. */
  function Bit(pressed: bool): (r: bv8)
    ensures r == 1 <==> pressed
    ensures r <= 1
  {
    if pressed then 1 else 0
  }

  /** `Joypad`, without its mutex. */
  class Joypad {
    var state: seq<bool>
    var savedState: seq<bool>
    var strobe: bool
    var readsCount: bv8

    /** Both button slices hold eight buttons, and at most eight buttons have been read since the last write. */
    ghost predicate Valid()
      reads this
    {
      |state| == 8 && |savedState| == 8 && readsCount <= 8
    }

    /** `New`: nothing pressed, nothing latched, strobe clear. */
    constructor()
      ensures Valid()
      ensures state == savedState == [false, false, false, false, false, false, false, false]
      ensures !strobe && readsCount == 0
    {
      state := [false, false, false, false, false, false, false, false];
      savedState := [false, false, false, false, false, false, false, false];
      strobe := false;
      readsCount := 0;
    }

    /**
     * `Write`: the strobe takes bit 0 of the value; only a change of the
     * strobe from 1 to 0 latches the current buttons; the read count
     * restarts.
     */
    method Write(value: bv8)
      requires Valid()
      modifies this
      ensures Valid()
      ensures strobe <==> value & 0x01 == 1
      ensures savedState == if old(strobe) && !strobe then old(state) else old(savedState)
      ensures readsCount == 0 && state == old(state)
    {
      var newStrobeValue := (value & 0x01) == 1;
      if strobe && !newStrobeValue {
        savedState := state;
      }
      strobe := newStrobeValue;
      readsCount := 0;
    }

    /**
     * `Read`: 1 without advancing while the strobe is set or once eight
     * buttons have been read; otherwise the next latched button, in the order
     * of the `Button` constants.
     */
    method Read() returns (r: bv8)
      requires Valid()
      modifies this
      ensures Valid()
      ensures old(readsCount) > 7 || old(strobe) ==> r == 1 && readsCount == old(readsCount)
      ensures old(readsCount) <= 7 && !old(strobe) ==>
        r == Bit(savedState[old(readsCount)]) && readsCount == old(readsCount) + 1
      ensures state == old(state) && savedState == old(savedState) && strobe == old(strobe)
    {
      if readsCount > 7 || strobe {
        return 1;
      }
      var buttonPressed := savedState[readsCount];
      readsCount := readsCount + 1;
      if buttonPressed {
        return 1;
      }
      return 0;
    }

    /** `SetControl`: one button of the current state; the latched buttons do not change. */
    method SetControl(button: Button, value: bool)
      requires Valid() && button < 8
      modifies this
      ensures Valid()
      ensures state == old(state)[button := value]
      ensures savedState == old(savedState) && strobe == old(strobe) && readsCount == old(readsCount)
    {
      state := state[button := value];
    }
  }

  /**
   * The polling sequence of a game: strobe on, strobe off, then reads. The
   * reads report the buttons pressed at the time of the second write, in
   * the order A, B, Select, Start, Up, Down, Left, Right, and every read
   * after the eighth answers 1.
   */
  method PollButtons(j: Joypad) returns (bits: seq<bv8>, ninth: bv8)
    requires j.Valid()
    modifies j
    ensures |bits| == 8
    ensures forall i :: 0 <= i < 8 ==> bits[i] == Bit(old(j.state)[i])
    ensures ninth == 1
  {
    j.Write(1);
    j.Write(0);
    bits := [];
    for i := 0 to 8
      invariant j.Valid() && !j.strobe && j.savedState == old(j.state)
      invariant j.readsCount as int == i && |bits| == i
      invariant forall k :: 0 <= k < i ==> bits[k] == Bit(old(j.state)[k])
    {
      var b := j.Read();
      bits := bits + [b];
    }
    ninth := j.Read();
  }
}
