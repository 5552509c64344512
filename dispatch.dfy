/** The per-frame dispatcher of the main loop: the gesture symbol and the index
    fingertip drive the canvas and the swatch UI, then the voice-command slot
    is inspected and cleared. */
module Dispatch {
  import opened Wrappers
  import opened Landmarks
  import opened Palette
  import opened Gesture
  import opened Drawing
  import opened Ui
  import opened HandTracking

  /** Landmark id of the index fingertip, the point that draws and selects. */
  const IndexTip := 8

  /** Python's `word in text` on strings: `word` occurs in `text` as a substring. */
  predicate Occurs(word: string, text: string)
    decreases |text|
  {
    (|word| <= |text| && text[..|word|] == word) || (|text| > 0 && Occurs(word, text[1..]))
  }

  /** `word` sits in `text` starting at offset `i`. */
  predicate OccursAt(word: string, text: string, i: int)
  {
    0 <= i && i + |word| <= |text| && text[i..i + |word|] == word
  }

  /** `Occurs` is substring containment at some offset. */
  lemma {:induction false} OccursAtOffset(word: string, text: string)
    decreases |text|
    ensures Occurs(word, text) <==> exists i :: OccursAt(word, text, i)
  {
    if |word| <= |text| && text[..|word|] == word {
      assert OccursAt(word, text, 0);
    }
    if |text| > 0 {
      OccursAtOffset(word, text[1..]);
      if exists i :: OccursAt(word, text[1..], i) {
        var i :| OccursAt(word, text[1..], i);
        assert text[i + 1..i + 1 + |word|] == text[1..][i..i + |word|];
        assert OccursAt(word, text, i + 1);
      }
      if exists i :: OccursAt(word, text, i) {
        var i :| OccursAt(word, text, i);
        if i > 0 {
          assert text[1..][i - 1..i - 1 + |word|] == text[i..i + |word|];
          assert OccursAt(word, text[1..], i - 1);
        }
      }
    } else {
      if exists i :: OccursAt(word, text, i) {
        var i :| OccursAt(word, text, i);
        assert |word| == 0 && text[..|word|] == word;
      }
    }
  }

  /** The spoken word for each colour. */
  function Word(c: Colours): string
  {
    match c
    case RED => "red"
    case BLUE => "blue"
    case GREEN => "green"
    case YELLOW => "yellow"
    case WHITE => "white"
  }

  /** The order in which colour words are tried: blue before red. */
  const ColourWordOrder: seq<Colours> := [BLUE, RED, GREEN, YELLOW, WHITE]

  datatype VoiceAction = ClearCanvas | Exit | SelectColour(colour: Colours) | NoAction

  /** The first vocabulary word occurring in the transcript, in the priority
      clear, exit, blue, red, green, yellow, white. */
  function VoiceCommand(text: string): (a: VoiceAction)
    ensures a == ClearCanvas <==> Occurs("clear", text)
    ensures a == Exit <==> !Occurs("clear", text) && Occurs("exit", text)
    ensures a.SelectColour? ==> !Occurs("clear", text) && !Occurs("exit", text) && Occurs(Word(a.colour), text)
    ensures a == NoAction <==>
              !Occurs("clear", text) && !Occurs("exit", text) && forall c :: !Occurs(Word(c), text)
  {
    if Occurs("clear", text) then ClearCanvas
    else if Occurs("exit", text) then Exit
    else if Occurs("blue", text) then SelectColour(BLUE)
    else if Occurs("red", text) then SelectColour(RED)
    else if Occurs("green", text) then SelectColour(GREEN)
    else if Occurs("yellow", text) then SelectColour(YELLOW)
    else if Occurs("white", text) then SelectColour(WHITE)
    else NoAction
  }

  /** A colour word wins exactly when neither "clear" nor "exit" occurs, its
      word occurs, and no colour word tried before it does. */
  lemma ColourWordPriority(text: string, k: nat)
    requires k < |ColourWordOrder|
    ensures VoiceCommand(text) == SelectColour(ColourWordOrder[k]) <==>
              && !Occurs("clear", text) && !Occurs("exit", text)
              && Occurs(Word(ColourWordOrder[k]), text)
              && forall j :: 0 <= j < k ==> !Occurs(Word(ColourWordOrder[j]), text)
  {
    if k == 0 {
    } else if k == 1 {
      assert ColourWordOrder[0] == BLUE;
    } else if k == 2 {
      assert ColourWordOrder[0] == BLUE && ColourWordOrder[1] == RED;
    } else if k == 3 {
      assert ColourWordOrder[0] == BLUE && ColourWordOrder[1] == RED && ColourWordOrder[2] == GREEN;
    } else {
      assert ColourWordOrder[0] == BLUE && ColourWordOrder[1] == RED && ColourWordOrder[2] == GREEN;
      assert ColourWordOrder[3] == YELLOW;
    }
  }

  /** What the dispatcher changes: the canvas and the UI's selected name. */
  datatype View = View(canvas: CanvasState, selected: string)

  /** Every name the registry can report is a palette name. */
  predicate PaletteNamed(swatches: seq<Swatch>)
  {
    forall i :: 0 <= i < |swatches| ==> IsName(swatches[i].name)
  }

  /** Start a stroke when idle, extend it when one is in progress. */
  function StartOrExtend(s: CanvasState, p: Point): CanvasState
  {
    if !s.drawing then Started(s, p) else Drawn(s, p)
  }

  /** The gesture half of a frame. */
  function AfterGesture(v: View, swatches: seq<Swatch>, gesture: GestureType, finger: Option<Point>): View
    requires PaletteNamed(swatches)
  {
    match finger
    case None => View(Stopped(v.canvas), v.selected)
    case Some(p) =>
      match gesture
      case SELECT =>
        var pen := WithTool(v.canvas, PEN);
        (match FirstHit(swatches, p)
         case Some(i) => View(Stopped(WithColour(pen, Lookup(swatches[i].name).value)), swatches[i].name)
         case None => View(Stopped(pen), v.selected))
      case DRAW => View(StartOrExtend(WithTool(v.canvas, PEN), p), v.selected)
      case ERASE => View(StartOrExtend(WithTool(v.canvas, ERASER), p), v.selected)
      case _ => View(Stopped(v.canvas), v.selected)
  }

  /** The voice half of a frame: the new view, the last executed command, the
      slot left behind, and whether the session ends. */
  datatype VoiceOutcome = VoiceOutcome(view: View, lastAudioCommand: Option<string>, slot: Option<string>, exit: bool)

  /** An absent or empty transcript is ignored and left in the slot. Otherwise
      at most one action runs; exit leaves everything as it is, and any other
      transcript is consumed. */
  function AfterVoice(v: View, lastAudioCommand: Option<string>, slot: Option<string>): VoiceOutcome
  {
    if slot.None? || slot.value == "" then VoiceOutcome(v, lastAudioCommand, slot, false)
    else
      match VoiceCommand(slot.value)
      case ClearCanvas => VoiceOutcome(View(Cleared(v.canvas), v.selected), slot, None, false)
      case Exit => VoiceOutcome(v, lastAudioCommand, slot, true)
      case SelectColour(c) => VoiceOutcome(View(WithColour(v.canvas, c), Name(c)), slot, None, false)
      case NoAction => VoiceOutcome(v, lastAudioCommand, None, false)
  }

  /** One frame: the gesture half, then the voice half. */
  function Frame(v: View, swatches: seq<Swatch>, gesture: GestureType, finger: Option<Point>,
                 lastAudioCommand: Option<string>, slot: Option<string>): VoiceOutcome
    requires PaletteNamed(swatches)
  {
    AfterVoice(AfterGesture(v, swatches, gesture, finger), lastAudioCommand, slot)
  }

  /** The registry the UI builds names only palette colours. */
  lemma LayoutPaletteNamed(width: int)
    ensures PaletteNamed(Layout(width))
  {
    forall i | 0 <= i < |Layout(width)| ensures IsName(Layout(width)[i].name) {
      LayoutNamesArePaletteNames(width, i);
    }
  }

  // Properties of the gesture half.

  /** With no fingertip the stroke stops; tool, colour, buffer and selection stay. */
  lemma NoFingertipStops(v: View, swatches: seq<Swatch>, gesture: GestureType)
    requires PaletteNamed(swatches)
    ensures var r := AfterGesture(v, swatches, gesture, None);
      && !r.canvas.drawing && r.canvas.anchor.None?
      && r.canvas.tool == v.canvas.tool && r.canvas.colour == v.canvas.colour
      && r.canvas.painted == v.canvas.painted && r.selected == v.selected
  {
  }

  /** Selecting never draws: the pen is chosen, the stroke stops and the
      buffer is untouched. A hit selects that swatch's colour on both the
      canvas and the UI; a miss changes neither. */
  lemma SelectNeverDraws(v: View, swatches: seq<Swatch>, p: Point)
    requires PaletteNamed(swatches)
    ensures var r := AfterGesture(v, swatches, SELECT, Some(p));
      && r.canvas.tool == PEN && !r.canvas.drawing && r.canvas.anchor.None?
      && r.canvas.painted == v.canvas.painted
      && (match FirstHit(swatches, p)
          case Some(i) => r.selected == swatches[i].name && Name(r.canvas.colour) == swatches[i].name
          case None => r.selected == v.selected && r.canvas.colour == v.canvas.colour)
  {
    match FirstHit(swatches, p)
    case Some(i) =>
    case None =>
  }

  /** DRAW and ERASE pick their tool, then start a stroke at the fingertip when
      idle (nothing painted) or paint one segment from the anchor to the
      fingertip when drawing; either way the fingertip becomes the anchor. */
  lemma DrawOrEraseStrokes(v: View, swatches: seq<Swatch>, gesture: GestureType, p: Point)
    requires PaletteNamed(swatches) && StrokeConsistent(v.canvas)
    requires gesture == DRAW || gesture == ERASE
    ensures var tool := if gesture == DRAW then PEN else ERASER;
      var r := AfterGesture(v, swatches, gesture, Some(p));
      && r.canvas.tool == tool && r.canvas.colour == v.canvas.colour && r.selected == v.selected
      && r.canvas.drawing && r.canvas.anchor == Some(p)
      && r.canvas.painted == (if v.canvas.drawing
                              then v.canvas.painted + [Stroke(tool, v.canvas.colour, v.canvas.anchor.value, p)]
                              else v.canvas.painted)
  {
  }

  /** Any other gesture with a fingertip stops the stroke and changes nothing else. */
  lemma OtherGestureStops(v: View, swatches: seq<Swatch>, gesture: GestureType, p: Point)
    requires PaletteNamed(swatches)
    requires gesture == NONE || gesture == CLEAR
    ensures AfterGesture(v, swatches, gesture, Some(p)) == View(Stopped(v.canvas), v.selected)
  {
  }

  // Properties of the voice half.

  /** Nothing happens, and the slot is kept, without a non-empty transcript. */
  lemma SilenceChangesNothing(v: View, lastAudioCommand: Option<string>, slot: Option<string>)
    requires slot.None? || slot.value == ""
    ensures AfterVoice(v, lastAudioCommand, slot) == VoiceOutcome(v, lastAudioCommand, slot, false)
  {
  }

  /** "clear" empties the buffer even mid-stroke and leaves the stroke, tool,
      colour and selection as they were. */
  lemma ClearWordKeepsStroke(v: View, lastAudioCommand: Option<string>, text: string)
    requires Occurs("clear", text)
    ensures var r := AfterVoice(v, lastAudioCommand, Some(text));
      && r.view.canvas.painted == []
      && r.view.canvas.drawing == v.canvas.drawing && r.view.canvas.anchor == v.canvas.anchor
      && r.view.canvas.tool == v.canvas.tool && r.view.canvas.colour == v.canvas.colour
      && r.view.selected == v.selected
      && r.lastAudioCommand == Some(text) && r.slot.None? && !r.exit
  {
  }

  /** Exit ends the session and leaves the view, the last command and the slot alone. */
  lemma ExitWordEnds(v: View, lastAudioCommand: Option<string>, text: string)
    requires !Occurs("clear", text) && Occurs("exit", text)
    ensures AfterVoice(v, lastAudioCommand, Some(text)) == VoiceOutcome(v, lastAudioCommand, Some(text), true)
  {
  }

  /** A colour word sets the canvas and the UI to the same colour, records the
      transcript as the last command and empties the slot; the buffer and the
      stroke are untouched. */
  lemma ColourWordAgrees(v: View, lastAudioCommand: Option<string>, text: string, c: Colours)
    requires text != "" && VoiceCommand(text) == SelectColour(c)
    ensures var r := AfterVoice(v, lastAudioCommand, Some(text));
      && r.view.canvas.colour == c && Lookup(r.view.selected) == Some(c)
      && r.view.canvas.painted == v.canvas.painted && r.view.canvas.drawing == v.canvas.drawing
      && r.view.canvas.anchor == v.canvas.anchor && r.view.canvas.tool == v.canvas.tool
      && r.lastAudioCommand == Some(text) && r.slot.None? && !r.exit
  {
    LookupName(c);
  }

  /** A transcript with no vocabulary word is consumed and changes nothing else. */
  lemma UnmatchedTextConsumed(v: View, lastAudioCommand: Option<string>, text: string)
    requires text != ""
    requires !Occurs("clear", text) && !Occurs("exit", text) && forall c :: !Occurs(Word(c), text)
    ensures AfterVoice(v, lastAudioCommand, Some(text)) == VoiceOutcome(v, lastAudioCommand, None, false)
  {
  }

  /** A frame keeps "drawing exactly when anchored", and keeps the selection a
      palette name. */
  lemma FrameKeepsInvariants(v: View, swatches: seq<Swatch>, gesture: GestureType, finger: Option<Point>,
                             lastAudioCommand: Option<string>, slot: Option<string>)
    requires PaletteNamed(swatches) && StrokeConsistent(v.canvas) && IsName(v.selected)
    ensures StrokeConsistent(Frame(v, swatches, gesture, finger, lastAudioCommand, slot).view.canvas)
    ensures IsName(Frame(v, swatches, gesture, finger, lastAudioCommand, slot).view.selected)
  {
    var g := AfterGesture(v, swatches, gesture, finger);
    if finger.Some? && gesture == SELECT {
      match FirstHit(swatches, finger.value)
      case Some(i) => assert IsName(swatches[i].name);
      case None =>
    }
    assert StrokeConsistent(g.canvas) && IsName(g.selected);
    if slot.Some? && slot.value != "" && VoiceCommand(slot.value).SelectColour? {
      LookupName(VoiceCommand(slot.value).colour);
    }
  }

  /** The gesture half of a frame on the live canvas and UI (main.py lines 107-151). */
  method ApplyGesture(canvas: DrawingCanvas, ui: UIManager, gesture: GestureType, indexFinger: Option<Point>)
    requires canvas.Valid() && ui.Valid() && PaletteNamed(ui.colourBoxes)
    modifies canvas, ui`selectedColour
    ensures canvas.Valid() && ui.Valid()
    ensures View(canvas.State(), ui.selectedColour)
         == AfterGesture(View(old(canvas.State()), old(ui.selectedColour)), ui.colourBoxes, gesture, indexFinger)
  {
    if indexFinger.Some? {
      var p := indexFinger.value;
      if gesture == SELECT {
        canvas.SetTool(PEN);
        var colourSelected, colourName := ui.HandleSelection(p);
        if colourSelected {
          canvas.SetColour(colourName.value);
        }
        canvas.StopDrawing();
      } else if gesture == DRAW {
        canvas.SetTool(PEN);
        if !canvas.drawing {
          canvas.StartDrawing(p);
        } else {
          canvas.Draw(p);
        }
      } else if gesture == ERASE {
        canvas.SetTool(ERASER);
        if !canvas.drawing {
          canvas.StartDrawing(p);
        } else {
          canvas.Draw(p);
        }
      } else {
        canvas.StopDrawing();
      }
    } else {
      canvas.StopDrawing();
    }
  }

  /** The voice half of a frame on the live canvas and UI (main.py lines 153-180). */
  method ApplyVoice(canvas: DrawingCanvas, ui: UIManager, slot: Option<string>, lastAudioCommand: Option<string>)
    returns (slotAfter: Option<string>, lastAudioCommandAfter: Option<string>, exit: bool)
    requires canvas.Valid()
    modifies canvas, ui`selectedColour
    ensures canvas.Valid()
    ensures var r := AfterVoice(View(old(canvas.State()), old(ui.selectedColour)), lastAudioCommand, slot);
      && View(canvas.State(), ui.selectedColour) == r.view
      && slotAfter == r.slot && lastAudioCommandAfter == r.lastAudioCommand && exit == r.exit
  {
    slotAfter, lastAudioCommandAfter, exit := slot, lastAudioCommand, false;
    if slot.Some? && slot.value != "" {
      var text := slot.value;
      match VoiceCommand(text) {
        case ClearCanvas =>
          canvas.Clear();
          lastAudioCommandAfter := slot;
        case Exit =>
          return slot, lastAudioCommand, true;
        case SelectColour(c) =>
          LookupName(c);
          canvas.SetColour(Name(c));
          ui.SetColour(Name(c));
          lastAudioCommandAfter := slot;
        case NoAction =>
      }
      slotAfter := None;
    }
  }

  /** Runs one frame on the live canvas and UI. Returns the slot as it is left,
      the last executed voice command, and whether the session ends. */
  method Step(canvas: DrawingCanvas, ui: UIManager, gesture: GestureType, indexFinger: Option<Point>,
              slot: Option<string>, lastAudioCommand: Option<string>)
    returns (slotAfter: Option<string>, lastAudioCommandAfter: Option<string>, exit: bool)
    requires canvas.Valid() && ui.Valid()
    modifies canvas, ui`selectedColour
    ensures canvas.Valid() && ui.Valid()
    ensures var r := Frame(View(old(canvas.State()), old(ui.selectedColour)), ui.colourBoxes,
                           gesture, indexFinger, lastAudioCommand, slot);
      && View(canvas.State(), ui.selectedColour) == r.view
      && slotAfter == r.slot && lastAudioCommandAfter == r.lastAudioCommand && exit == r.exit
  {
    LayoutPaletteNamed(ui.width);
    ApplyGesture(canvas, ui, gesture, indexFinger);
    slotAfter, lastAudioCommandAfter, exit := ApplyVoice(canvas, ui, slot, lastAudioCommand);
  }

  /** One frame from the landmark list on: classify it, look up the smoothed
      index fingertip when a hand is present, then dispatch. */
  method ProcessFrame(recogniser: GestureRecogniser, tracker: HandTracker, canvas: DrawingCanvas, ui: UIManager,
                      landmarkList: seq<Landmark>, slot: Option<string>, lastAudioCommand: Option<string>)
    returns (gesture: GestureType, slotAfter: Option<string>, lastAudioCommandAfter: Option<string>, exit: bool)
    requires landmarkList != [] ==> Readable(LandmarkMap(landmarkList))
    requires canvas.Valid() && ui.Valid()
    modifies recogniser, tracker, canvas, ui`selectedColour
    ensures canvas.Valid() && ui.Valid()
    ensures gesture == if landmarkList == [] then NONE else Classify(LandmarkMap(landmarkList))
    ensures var finger := if landmarkList == [] then None
                          else SmoothedPosition(landmarkList, IndexTip, old(tracker.prevPositions));
      var r := Frame(View(old(canvas.State()), old(ui.selectedColour)), ui.colourBoxes,
                     gesture, finger, lastAudioCommand, slot);
      && View(canvas.State(), ui.selectedColour) == r.view
      && slotAfter == r.slot && lastAudioCommandAfter == r.lastAudioCommand && exit == r.exit
      && tracker.prevPositions == (if finger.None? then old(tracker.prevPositions)
                                   else old(tracker.prevPositions)[IndexTip := finger.value])
    ensures landmarkList == [] ==>
              && !recogniser.isClearGesture && recogniser.clearGestureStart == 0
              && recogniser.currentGesture == old(recogniser.currentGesture)
    ensures landmarkList != [] ==> unchanged(recogniser)
  {
    gesture := recogniser.RecogniseGesture(landmarkList);
    var indexFinger: Option<Point> := None;
    if landmarkList != [] {
      indexFinger := tracker.GetFingerPosition(landmarkList, IndexTip);
    }
    slotAfter, lastAudioCommandAfter, exit := Step(canvas, ui, gesture, indexFinger, slot, lastAudioCommand);
  }

  /** Session start-up: a canvas and a UI of the camera's size, and the canvas
      set to the colour the UI starts with. */
  method NewSession(width: nat, height: nat) returns (canvas: DrawingCanvas, ui: UIManager)
    ensures fresh(canvas) && fresh(ui) && canvas.Valid() && ui.Valid()
    ensures canvas.State() == Initial && ui.selectedColour == Name(RED) && ui.width == width
    ensures canvas.width == width && canvas.height == height
  {
    canvas := new DrawingCanvas(width, height);
    ui := new UIManager(width, height);
    canvas.SetColour(ui.selectedColour);
  }

  /** Pointing at the centre of the blue swatch selects blue on the canvas and
      the UI, picks the pen and leaves the canvas idle; pinching at (100, 100)
      and then (120, 100) paints one blue pen segment between them and leaves
      the stroke anchored at (120, 100). */
  method SelectBlueThenDraw(width: nat, height: nat)
    returns (idleAfterSelect: bool, selected: string, colourName: string, tool: Tools,
             painted: seq<Segment>, drawing: bool, anchor: Option<Point>)
    ensures idleAfterSelect
    ensures selected == "BLUE" && colourName == "BLUE" && tool == PEN
    ensures painted == [Segment((100, 100), (120, 100), Bgr(230, 180, 40), 15)]
    ensures drawing && anchor == Some((120, 100))
  {
    var canvas, ui := NewSession(width, height);
    var blueCentre := (width - BoxSize - Margin + BoxSize / 2, Margin + (BoxSize + Margin) + BoxSize / 2);
    HitSelectsOwnSwatch(width, 1, blueCentre);
    var slot, lastAudioCommand, exit := Step(canvas, ui, SELECT, Some(blueCentre), None, None);
    idleAfterSelect := !canvas.drawing && canvas.startPoint.None?;
    slot, lastAudioCommand, exit := Step(canvas, ui, DRAW, Some((100, 100)), slot, lastAudioCommand);
    slot, lastAudioCommand, exit := Step(canvas, ui, DRAW, Some((120, 100)), slot, lastAudioCommand);
    selected := ui.selectedColour;
    colourName := canvas.currentColourName;
    tool := canvas.currentTool;
    painted := canvas.GetDisplay();
    drawing := canvas.drawing;
    anchor := canvas.startPoint;
  }
}
