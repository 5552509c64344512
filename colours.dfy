/** The fixed colour palette shared by the canvas and the swatch UI. */
module Palette {
  import opened Wrappers

  /** A colour as OpenCV takes it: blue, green, red. */
  datatype Bgr = Bgr(b: int, g: int, r: int)

  /** The palette enum, constructors in declaration order. */
  datatype Colours = RED | BLUE | GREEN | YELLOW | WHITE

  /** The canvas background, which is also the colour the eraser paints. */
  const Black := Bgr(0, 0, 0)

  /** Iteration order of the enum: declaration order. */
  const Members: seq<Colours> := [RED, BLUE, GREEN, YELLOW, WHITE]

  /** The BGR triple each member stands for. Every channel fits a byte and
      no member is the background colour. */
  function Value(c: Colours): (v: Bgr)
    ensures 0 <= v.b <= 255 && 0 <= v.g <= 255 && 0 <= v.r <= 255
    ensures v != Black
  {
    match c
    case RED => Bgr(0, 0, 255)
    case BLUE => Bgr(230, 180, 40)
    case GREEN => Bgr(20, 180, 50)
    case YELLOW => Bgr(0, 255, 255)
    case WHITE => Bgr(255, 255, 255)
  }

  /** The member's `.name`. */
  function Name(c: Colours): string
  {
    match c
    case RED => "RED"
    case BLUE => "BLUE"
    case GREEN => "GREEN"
    case YELLOW => "YELLOW"
    case WHITE => "WHITE"
  }

  /** `Colours[name]`; `None` stands for the KeyError an unknown name raises. */
  function Lookup(name: string): (r: Option<Colours>)
    ensures r.Some? ==> Name(r.value) == name
    ensures r.None? ==> forall c :: Name(c) != name
  {
    if name == "RED" then Some(RED)
    else if name == "BLUE" then Some(BLUE)
    else if name == "GREEN" then Some(GREEN)
    else if name == "YELLOW" then Some(YELLOW)
    else if name == "WHITE" then Some(WHITE)
    else None
  }

  predicate IsName(name: string)
  {
    Lookup(name).Some?
  }

  /** Iterating the enum visits exactly five members, each once, in declaration order. */
  lemma MembersEnumerateAll()
    ensures |Members| == 5
    ensures forall c :: c in Members
    ensures forall i, j :: 0 <= i < j < |Members| ==> Members[i] != Members[j]
  {
    forall c ensures c in Members {
      match c
      case RED => assert Members[0] == c;
      case BLUE => assert Members[1] == c;
      case GREEN => assert Members[2] == c;
      case YELLOW => assert Members[3] == c;
      case WHITE => assert Members[4] == c;
    }
  }

  /** No two members share a value, so the enum has no aliases. */
  lemma ValuesDistinct(c: Colours, d: Colours)
    requires c != d
    ensures Value(c) != Value(d)
  {
  }

  /** Looking up a member's name gives the member back. */
  lemma LookupName(c: Colours)
    ensures Lookup(Name(c)) == Some(c)
  {
  }
}
