/** The enumerations shared by the camera's components (kctypes.py). Each
    constructor keeps the integer value the Python enum gives it. */
module KcTypes {

  datatype Camera = Selfie | Forward {
    function Value(): int {
      match this
      case Selfie => 1
      case Forward => 2
    }
  }

  datatype CaptureMode = Picture | Video {
    function Value(): int {
      match this
      case Picture => 1
      case Video => 2
    }
  }

  datatype DisplayMode = Gallery | Capture {
    function Value(): int {
      match this
      case Gallery => 1
      case Capture => 2
    }
  }

  /** The four positions of the mode selector switch. */
  datatype SelectorPosition = One | Two | Three | Four {
    function Value(): (v: int)
      ensures 1 <= v <= 4
    {
      match this
      case One => 1
      case Two => 2
      case Three => 3
      case Four => 4
    }
  }

  /** Direction of an encoder step. */
  datatype Direction = Fwd | Rev {
    function Value(): int {
      match this
      case Fwd => 1
      case Rev => 2
    }
  }

  /** Distinct positions have distinct values, so a value names at most one position. */
  lemma SelectorValueInjective(p: SelectorPosition, q: SelectorPosition)
    ensures p.Value() == q.Value() <==> p == q
  {
  }
}
