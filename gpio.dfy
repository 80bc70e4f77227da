/** Reading the four-position mode selector from its GPIO buttons
    (gpioinput.py). The switch closes one contact per position; when more
    than one reads as pressed, the lowest position wins. */
module Gpio {
  import opened Wrappers
  import opened KcTypes

  /** What the selector's buttons A, B, C and D read as at one instant. */
  datatype Selectors = Selectors(a: bool, b: bool, c: bool, d: bool)

  /** The button that closes for position `p`. */
  function Pressed(s: Selectors, p: SelectorPosition): (pressed: bool) {
    match p
    case One => s.a
    case Two => s.b
    case Three => s.c
    case Four => s.d
  }

  /** `active_pos(override=None)`: an override wins; otherwise the first
      pressed button in the order A, B, C, D; with none pressed the
      function falls through and gives None. */
  function ActivePos(s: Selectors, override: Option<SelectorPosition> := None): (r: Option<SelectorPosition>)
    ensures override.Some? ==> r == override
    ensures override.None? && s.a ==> r == Some(One)
    ensures override.None? ==> (r == Some(Two) <==> !s.a && s.b)
    ensures override.None? ==> (r == Some(Three) <==> !s.a && !s.b && s.c)
    ensures override.None? ==> (r == Some(Four) <==> !s.a && !s.b && !s.c && s.d)
    ensures override.None? ==> (r == None <==> !s.a && !s.b && !s.c && !s.d)
  {
    if override.Some? then override
    else if s.a then Some(One)
    else if s.b then Some(Two)
    else if s.c then Some(Three)
    else if s.d then Some(Four)
    else None
  }

  /** Without an override the result is the pressed position of lowest value. */
  lemma ActivePosIsLowestPressed(s: Selectors, p: SelectorPosition)
    ensures ActivePos(s) == Some(p) <==>
      Pressed(s, p) && forall q: SelectorPosition :: q.Value() < p.Value() ==> !Pressed(s, q)
  {
    if ActivePos(s) == Some(p) {
      forall q: SelectorPosition | q.Value() < p.Value() ensures !Pressed(s, q) {
      }
    } else if Pressed(s, p) {
      var q := ActivePos(s).value;
      assert Pressed(s, q) && q.Value() < p.Value();
    }
  }

  /** Without an override the result is None exactly when no button is pressed. */
  lemma ActivePosNoneIffIdle(s: Selectors)
    ensures ActivePos(s) == None <==> forall q :: !Pressed(s, q)
  {
    if ActivePos(s) != None {
      assert Pressed(s, ActivePos(s).value);
    }
  }
}
