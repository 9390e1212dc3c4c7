/**
 * The page's interaction state and its event handlers: the variables the
 * script keeps at module level (`isDragging`, `previousMousePosition`,
 * `rotation`, `shape`, `zoom`, `color`, `showAxis`) with the checkbox's
 * `checked` flag beside them, updated in place by the handlers, and `draw`,
 * which clears the canvas and redraws the axes and the current shape.
 */
module View {
  import opened Geometry
  import opened Scene
  import opened Axes
  import Colour

  datatype Option<T> = None | Some(value: T)

  /** The accumulated drag rotation in radians: `x` from horizontal drags, `y` from vertical ones. */
  datatype Rotation = Rotation(x: real, y: real)

  /** Radians of rotation per pixel of drag. */
  const DragSensitivity: real := 0.01

  /** What one call of `draw` leaves on the cleared canvas: the axis overlay if shown, then the faces. */
  datatype Frame = Frame(axes: Option<Overlay>, faces: seq<PaintedFace>)

  class ViewState {
    var isDragging: bool
    var previousMouse: Point2
    var rotation: Rotation
    var shape: Option<Shape>
    var zoom: real
    var colour: string
    var showAxis: bool
    /** `showAxisCheckbox.checked`. */
    var axisChecked: bool

    /**
     * The colour comes from a colour input, so it is always `#rrggbb`; the
     * axes are shown only while the checkbox is checked.
     */
    ghost predicate Valid()
      reads this
    {
      Colour.IsColour(colour) && (showAxis ==> axisChecked)
    }

    /** The state at page load; `checked` is the checkbox's initial state. */
    constructor (pickerColour: string, checked: bool)
      requires Colour.IsColour(pickerColour)
      ensures Valid()
      ensures !isDragging && previousMouse == Point2(0.0, 0.0) && rotation == Rotation(0.0, 0.0)
      ensures shape == None && zoom == 1.0 && colour == pickerColour
      ensures !showAxis && axisChecked == checked
    {
      isDragging := false;
      previousMouse := Point2(0.0, 0.0);
      rotation := Rotation(0.0, 0.0);
      shape := None;
      zoom := 1.0;
      colour := pickerColour;
      showAxis := false;
      axisChecked := checked;
    }

    /**
     * The cube button. `answer` is `None` when the prompt was cancelled or
     * left empty, otherwise `parseFloat` of the answer. A new shape replaces
     * the old one and is drawn; no answer changes nothing.
     */
    method ChooseCube(answer: Option<real>) returns (redraw: bool)
      requires Valid()
      modifies this`shape
      ensures Valid()
      ensures redraw == answer.Some?
      ensures shape == if answer.Some? then Some(Cube(answer.value)) else old(shape)
    {
      redraw := false;
      if answer.Some? {
        shape := Some(Cube(answer.value));
        redraw := true;
      }
    }

    /** The cone button: both prompts must be answered. */
    method ChooseCone(height: Option<real>, radius: Option<real>) returns (redraw: bool)
      requires Valid()
      modifies this`shape
      ensures Valid()
      ensures redraw == (height.Some? && radius.Some?)
      ensures shape == if redraw then Some(Cone(height.value, radius.value)) else old(shape)
    {
      redraw := false;
      if height.Some? && radius.Some? {
        shape := Some(Cone(height.value, radius.value));
        redraw := true;
      }
    }

    /** The sphere button. */
    method ChooseSphere(answer: Option<real>) returns (redraw: bool)
      requires Valid()
      modifies this`shape
      ensures Valid()
      ensures redraw == answer.Some?
      ensures shape == if answer.Some? then Some(Sphere(answer.value)) else old(shape)
    {
      redraw := false;
      if answer.Some? {
        shape := Some(Sphere(answer.value));
        redraw := true;
      }
    }

    /** The size slider: `zoom = parseInt(sizeSlider.value) / 5`, then a redraw. */
    method MoveSlider(value: int)
      requires Valid()
      modifies this`zoom
      ensures Valid()
      ensures zoom == value as real / 5.0
    {
      zoom := value as real / 5.0;
    }

    /** The colour picker: the new colour is kept and drawn with. */
    method PickColour(c: string)
      requires Valid() && Colour.IsColour(c)
      modifies this`colour
      ensures Valid()
      ensures colour == c
    {
      colour := c;
    }

    /**
     * The clear button: the shape is dropped and, if the checkbox is checked,
     * it is unchecked and the axes are hidden. The canvas is cleared, not
     * redrawn. Rotation, zoom and colour stay as they are.
     */
    method Clear()
      requires Valid()
      modifies this`shape, this`showAxis, this`axisChecked
      ensures Valid()
      ensures shape == None && !showAxis && !axisChecked
      ensures rotation == old(rotation) && zoom == old(zoom) && colour == old(colour)
    {
      shape := None;
      if axisChecked {
        axisChecked := false;
        showAxis := false;
      }
    }

    /** The checkbox's change event: `showAxis` follows `checked`, then a redraw. */
    method ToggleAxis(checked: bool)
      requires Valid()
      modifies this`showAxis, this`axisChecked
      ensures Valid()
      ensures showAxis == checked && axisChecked == checked
    {
      axisChecked := checked;
      showAxis := checked;
    }

    method MouseDown(x: real, y: real)
      requires Valid()
      modifies this`isDragging, this`previousMouse
      ensures Valid()
      ensures isDragging && previousMouse == Point2(x, y)
    {
      isDragging := true;
      previousMouse := Point2(x, y);
    }

    method MouseUp()
      requires Valid()
      modifies this`isDragging
      ensures Valid()
      ensures !isDragging
    {
      isDragging := false;
    }

    /**
     * A mouse move: while dragging, the pixel deltas since the last position,
     * times 0.01, are added to the rotation and the view is redrawn.
     */
    method MouseMove(x: real, y: real) returns (redraw: bool)
      requires Valid()
      modifies this`rotation, this`previousMouse
      ensures Valid()
      ensures redraw == isDragging
      ensures rotation == if isDragging
        then Rotation(old(rotation).x + (x - old(previousMouse).x) * DragSensitivity,
                      old(rotation).y + (y - old(previousMouse).y) * DragSensitivity)
        else old(rotation)
      ensures previousMouse == if isDragging then Point2(x, y) else old(previousMouse)
    {
      redraw := isDragging;
      if isDragging {
        var deltaX := x - previousMouse.x;
        var deltaY := y - previousMouse.y;
        rotation := Rotation(rotation.x + deltaX * DragSensitivity, rotation.y + deltaY * DragSensitivity);
        previousMouse := Point2(x, y);
      }
    }

    /**
     * `draw`: the axes when they are shown, then the current shape, chosen by
     * its kind, both at the stored rotation. `cos` and `sin` stand for
     * `Math.cos` and `Math.sin`; `t` holds the generators' tables.
     */
    method Draw(c: Canvas, cos: real -> real, sin: real -> real, t: Tables) returns (frame: Frame)
      requires Valid() && TablesFit(t)
      ensures var v := Viewing(rotation, cos, sin);
        && frame.axes == (if showAxis then Some(OverlaySpec(c, v, zoom)) else None)
        && frame.faces == match shape
             case None => []
             case Some(s) => SceneSpec(s, v, zoom, t, Center(c), colour)
      ensures shape.Some? ==> forall pf :: pf in frame.faces ==> PaintedWellFormed(pf, shape.value)
    {
      var v := Viewing(rotation, cos, sin);
      var axes: Option<Overlay> := None;
      if showAxis {
        var overlay := DrawAxis(c, v, zoom);
        axes := Some(overlay);
      }
      var faces: seq<PaintedFace> := [];
      match shape {
        case None =>
        case Some(s) =>
          faces := RenderShape(s, v, zoom, t, Center(c), colour);
          PaintedFacesWellFormed(s, v, zoom, t, Center(c), colour);
      }
      frame := Frame(axes, faces);
    }
  }

  /** The cosines and sines of the rotation's two angles, as `rotatePoint` uses them. */
  function Viewing(r: Rotation, cos: real -> real, sin: real -> real): ViewTrig {
    ViewTrig(Trig(cos(r.x), sin(r.x)), Trig(cos(r.y), sin(r.y)))
  }

  /** Successive drags add up: two moves in one drag turn the view by the whole distance. */
  method DragAccumulates(view: ViewState, x0: real, y0: real, x1: real, y1: real, x2: real, y2: real)
    requires view.Valid()
    modifies view
    ensures view.Valid()
    ensures view.rotation == Rotation(old(view.rotation).x + (x2 - x0) * DragSensitivity,
                                      old(view.rotation).y + (y2 - y0) * DragSensitivity)
  {
    view.MouseDown(x0, y0);
    var _ := view.MouseMove(x1, y1);
    var _ := view.MouseMove(x2, y2);
    view.MouseUp();
  }

  /** A drag followed by a redraw renders the shape at the rotation the drag accumulated. */
  method DragThenDraw(view: ViewState, x0: real, y0: real, x1: real, y1: real,
                      c: Canvas, cos: real -> real, sin: real -> real, t: Tables) returns (frame: Frame)
    requires view.Valid() && TablesFit(t) && view.shape.Some?
    modifies view
    ensures var r := Rotation(old(view.rotation).x + (x1 - x0) * DragSensitivity,
                              old(view.rotation).y + (y1 - y0) * DragSensitivity);
      frame.faces == SceneSpec(old(view.shape).value, Viewing(r, cos, sin), old(view.zoom), t, Center(c), old(view.colour))
  {
    ghost var shape, zoom, colour := view.shape, view.zoom, view.colour;
    ghost var r := Rotation(view.rotation.x + (x1 - x0) * DragSensitivity,
                            view.rotation.y + (y1 - y0) * DragSensitivity);
    view.MouseDown(x0, y0);
    var _ := view.MouseMove(x1, y1);
    view.MouseUp();
    assert view.rotation == r && view.shape == shape && view.zoom == zoom && view.colour == colour;
    frame := view.Draw(c, cos, sin, t);
  }

  /** Clearing always hides the axes, whatever the checkbox showed before. */
  method ClearHidesAxes(view: ViewState, c: Canvas, cos: real -> real, sin: real -> real, t: Tables) returns (frame: Frame)
    requires view.Valid() && TablesFit(t)
    modifies view
    ensures frame == Frame(None, [])
  {
    view.Clear();
    frame := view.Draw(c, cos, sin, t);
  }
}
