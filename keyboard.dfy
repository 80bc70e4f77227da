/** The keyboard stand-in for the hardware inputs (keyboardinput.py): the
    selector position is a stored integer that the keyboard handler sets. */
module Keyboard {
  import opened Wrappers
  import opened KcTypes

  class KeyboardInput {
    /** The stored selector value `_pos`, read by the `pos` getter. */
    var pos: int
    var encoderSteps: int

    /** `__init__`: position 1, no encoder steps; the callbacks it may attach
        are the no-op setters below. */
    constructor (encoderFn: Option<Direction -> ()> := None, captureFn: Option<() -> ()> := None)
      ensures pos == 1 && encoderSteps == 0
      ensures ActivePos() == Some(One)
    {
      pos := 1;
      encoderSteps := 0;
      new;
      if encoderFn.Some? {
        SetupEncoderCallback(encoderFn.value);
      }
      if captureFn.Some? {
        SetupCaptureCallback(captureFn.value);
      }
    }

    /** `setup_encoder_callback`: does nothing. */
    method SetupEncoderCallback(fn: Direction -> ())
      ensures unchanged(this)
    {
    }

    /** `setup_capture_callback`: does nothing. */
    method SetupCaptureCallback(fn: () -> ())
      ensures unchanged(this)
    {
    }

    /** `active_pos`: the selector position whose value is the stored one,
        or None when no position has that value. */
    function ActivePos(): (r: Option<SelectorPosition>)
      reads this
      ensures r.Some? ==> r.value.Value() == pos
      ensures r.None? <==> !(1 <= pos <= 4)
    {
      if pos == 1 then Some(One)
      else if pos == 2 then Some(Two)
      else if pos == 3 then Some(Three)
      else if pos == 4 then Some(Four)
      else None
    }

    /** The `pos` setter: stores any integer, unchecked, and nothing else. */
    method SetPos(value: int)
      modifies this
      ensures pos == value && encoderSteps == old(encoderSteps)
    {
      pos := value;
    }
  }

  /** Storing a position's value selects that position. */
  lemma ActivePosOfValue(k: KeyboardInput, p: SelectorPosition)
    requires k.pos == p.Value()
    ensures k.ActivePos() == Some(p)
  {
    SelectorValueInjective(k.ActivePos().value, p);
  }
}
