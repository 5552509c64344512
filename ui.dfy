/** The colour-swatch column and its hit testing. */
module Ui {
  import opened Wrappers
  import opened Landmarks
  import opened Palette

  /** A screen rectangle: left, top, width, height. */
  datatype Rect = Rect(x: int, y: int, w: int, h: int)

  /** One entry of the swatch registry: a colour name and its rectangle. */
  datatype Swatch = Swatch(name: string, box: Rect)

  const BoxSize := 120
  const Margin := 20

  /** Inclusive containment, on all four edges. */
  predicate Inside(r: Rect, p: Point)
  {
    r.x <= p.0 <= r.x + r.w && r.y <= p.1 <= r.y + r.h
  }

  /** The rectangle of the i-th palette colour: a column along the right edge,
      a margin in from it, one box plus one margin further down per colour. */
  function SwatchBox(width: int, i: nat): (r: Rect)
  {
    Rect(width - BoxSize - Margin, Margin + i * (BoxSize + Margin), BoxSize, BoxSize)
  }

  /** The registry the constructor builds, in palette order. */
  function Layout(width: int): (swatches: seq<Swatch>)
    ensures |swatches| == |Members|
    ensures forall i :: 0 <= i < |Members| ==> swatches[i] == Swatch(Name(Members[i]), SwatchBox(width, i))
  {
    seq(|Members|, i requires 0 <= i < |Members| => Swatch(Name(Members[i]), SwatchBox(width, i)))
  }

  /** Every registry name is a palette name. */
  lemma LayoutNamesArePaletteNames(width: int, i: nat)
    requires i < |Layout(width)|
    ensures Lookup(Layout(width)[i].name) == Some(Members[i])
  {
    LookupName(Members[i]);
  }

  /** The 20-pixel gap keeps any two swatches apart, edges included. */
  lemma SwatchesDisjoint(width: int, i: nat, j: nat, p: Point)
    requires i != j
    ensures !(Inside(SwatchBox(width, i), p) && Inside(SwatchBox(width, j), p))
  {
    if i < j {
      assert Margin + j * (BoxSize + Margin) >= Margin + (i + 1) * (BoxSize + Margin);
    } else {
      assert Margin + i * (BoxSize + Margin) >= Margin + (j + 1) * (BoxSize + Margin);
    }
  }

  /** The position of the first swatch, in registry order, that contains `p`. */
  function FirstHit(swatches: seq<Swatch>, p: Point): (r: Option<nat>)
    decreases |swatches|
    ensures r.Some? ==> r.value < |swatches| && Inside(swatches[r.value].box, p)
    ensures r.Some? ==> forall j :: 0 <= j < r.value ==> !Inside(swatches[j].box, p)
    ensures r.None? ==> forall j :: 0 <= j < |swatches| ==> !Inside(swatches[j].box, p)
  {
    if swatches == [] then None
    else if Inside(swatches[0].box, p) then Some(0)
    else match FirstHit(swatches[1..], p)
      case None => None
      case Some(k) => Some(k + 1)
  }

  /** Any point of a colour's swatch, its centre included, selects that colour. */
  lemma {:induction false} HitSelectsOwnSwatch(width: int, i: nat, p: Point)
    requires i < |Members| && Inside(SwatchBox(width, i), p)
    ensures FirstHit(Layout(width), p) == Some(i)
  {
    var swatches := Layout(width);
    assert Inside(swatches[i].box, p);
    forall j | 0 <= j < |swatches| && j != i ensures !Inside(swatches[j].box, p) {
      SwatchesDisjoint(width, i, j, p);
    }
  }

  class UIManager {
    const width: int
    const height: int
    const boxSize: int
    const margin: int
    var selectedColour: string
    /** The registry, in palette order; never changed after construction. */
    var colourBoxes: seq<Swatch>

    ghost predicate Valid()
      reads this
    {
      boxSize == BoxSize && margin == Margin && colourBoxes == Layout(width)
    }

    /** Builds the swatch column one palette colour at a time; red is selected. */
    constructor (width: int, height: int)
      ensures Valid() && this.width == width && this.height == height
      ensures selectedColour == Name(RED)
    {
      this.width := width;
      this.height := height;
      boxSize := BoxSize;
      margin := Margin;
      selectedColour := Name(RED);
      var boxes: seq<Swatch> := [];
      var yPos := Margin;
      var xPos := width - BoxSize - Margin;
      for i := 0 to |Members|
        invariant |boxes| == i
        invariant forall k :: 0 <= k < i ==> boxes[k] == Swatch(Name(Members[k]), SwatchBox(width, k))
        invariant yPos == Margin + i * (BoxSize + Margin)
      {
        boxes := boxes + [Swatch(Name(Members[i]), Rect(xPos, yPos, BoxSize, BoxSize))];
        yPos := yPos + BoxSize + Margin;
      }
      colourBoxes := boxes;
    }

    /** The first swatch containing `point` becomes the selection and is
        reported; on a miss nothing changes. */
    method HandleSelection(point: Point) returns (hit: bool, colourName: Option<string>)
      modifies this`selectedColour
      ensures match FirstHit(colourBoxes, point)
        case Some(i) => hit && colourName == Some(colourBoxes[i].name) && selectedColour == colourBoxes[i].name
        case None => !hit && colourName == None && selectedColour == old(selectedColour)
    {
      for i := 0 to |colourBoxes|
        invariant forall j :: 0 <= j < i ==> !Inside(colourBoxes[j].box, point)
        invariant selectedColour == old(selectedColour)
      {
        var Swatch(name, Rect(x, y, w, h)) := colourBoxes[i];
        if x <= point.0 <= x + w && y <= point.1 <= y + h {
          selectedColour := name;
          return true, Some(name);
        }
      }
      return false, None;
    }

    /** Programmatic selection; any name is taken as given. */
    method SetColour(colourName: string)
      modifies this`selectedColour
      ensures selectedColour == colourName
    {
      selectedColour := colourName;
    }
  }
}
