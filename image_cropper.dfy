/** The crop selector and the batch cropper. The selector shows the first
    screenshot scaled to fit the screen, lets the user drag out a rectangle,
    maps it back to image pixels and ends when a selection is confirmed; every
    screenshot is then cropped to that rectangle. Widgets, drawing on the
    canvas and the image library are not modelled: the user's actions are a
    sequence of events, and cropping and saving a file are recorded as an
    outcome per file. */
module ImageCropper {
  import opened Wrappers
  import opened PngListing

  /** Python's `int()` of a float: truncation toward zero. */
  function Trunc(r: real): (n: int)
    ensures 0.0 <= r ==> n as real <= r < n as real + 1.0
    ensures r < 0.0 ==> n as real - 1.0 < r <= n as real
  {
    if r >= 0.0 then r.Floor else -((-r).Floor)
  }

  lemma TruncMonotone(a: real, b: real)
    requires a <= b
    ensures Trunc(a) <= Trunc(b)
  {
  }

  function RealMin(a: real, b: real): real { if a <= b then a else b }

  /** `min(width_ratio, height_ratio, 1.0)`: the largest factor, at most 1,
      that fits the image on the screen. */
  function ScaleFor(widthRatio: real, heightRatio: real): (s: real)
    ensures s <= 1.0 && s <= widthRatio && s <= heightRatio
    ensures s == 1.0 || s == widthRatio || s == heightRatio
  {
    RealMin(RealMin(widthRatio, heightRatio), 1.0)
  }

  /** The image shown on the canvas: resized when the scale is below 1, an
      identical copy otherwise. */
  datatype DisplayImage = Resized(width: int, height: int) | Copy(width: int, height: int)

  function DisplayImageFor(width: nat, height: nat, scale: real): (d: DisplayImage)
    requires 0.0 < scale <= 1.0
    ensures d.Resized? <==> scale < 1.0
    ensures d.Copy? ==> d.width == width && d.height == height
    ensures d.Resized? ==> d.width == ScaledSize(width, scale) && d.height == ScaledSize(height, scale)
  {
    if scale < 1.0 then Resized(ScaledSize(width, scale), ScaledSize(height, scale))
    else Copy(width, height)
  }

  /** `int(n * scale)`: a side of the resized image, never longer than the
      original one. */
  function ScaledSize(n: nat, scale: real): (m: int)
    requires 0.0 < scale <= 1.0
    ensures 0 <= m <= n
    ensures m as real <= n as real * scale < m as real + 1.0
  {
    var r := n as real * scale;
    ScaledBelow(n, scale);
    TruncWithin(r, n);
    Trunc(r)
  }

  lemma TruncWithin(r: real, n: nat)
    requires 0.0 <= r <= n as real
    ensures 0 <= Trunc(r) <= n
  {
  }

  lemma ScaledBelow(n: nat, scale: real)
    requires 0.0 < scale <= 1.0
    ensures 0.0 <= n as real * scale <= n as real
  {
    assert n as real * (1.0 - scale) >= 0.0;
  }

  /** A display coordinate mapped back into image pixels, `int(v / scale)`. */
  function ToImage(v: int, scale: real): (n: int)
    requires 0.0 < scale
    ensures 0 <= v ==> 0 <= n && n as real <= v as real / scale < n as real + 1.0
    ensures v < 0 ==> n <= 0 && n as real - 1.0 < v as real / scale <= n as real
  {
    assert 0 <= v ==> v as real / scale >= 0.0;
    assert v < 0 ==> v as real / scale < 0.0;
    Trunc(v as real / scale)
  }

  lemma ToImageMonotone(v: int, w: int, scale: real)
    requires 0.0 < scale && v <= w
    ensures ToImage(v, scale) <= ToImage(w, scale)
  {
    assert w as real / scale - v as real / scale == (w - v) as real / scale;
    TruncMonotone(v as real / scale, w as real / scale);
  }

  /** A crop rectangle in image pixels, `(left, top, right, bottom)`. */
  datatype Box = Box(left: int, top: int, right: int, bottom: int)

  predicate IsNormalised(b: Box) {
    b.left <= b.right && b.top <= b.bottom
  }

  /** The rectangle `update_coord_label` records for a drag from
      `(startX, startY)` to `(x, y)` on the canvas: its corners are the two
      points mapped back to image pixels and sorted, whichever way the drag
      went. */
  function SelectionBox(startX: int, startY: int, x: int, y: int, scale: real): (b: Box)
    requires 0.0 < scale
    ensures IsNormalised(b)
    ensures b.left == Min(ToImage(startX, scale), ToImage(x, scale))
    ensures b.right == Max(ToImage(startX, scale), ToImage(x, scale))
    ensures b.top == Min(ToImage(startY, scale), ToImage(y, scale))
    ensures b.bottom == Max(ToImage(startY, scale), ToImage(y, scale))
  {
    ToImageMonotone(Min(startX, x), Max(startX, x), scale);
    ToImageMonotone(Min(startY, y), Max(startY, y), scale);
    Box(
      ToImage(Min(startX, x), scale), ToImage(Min(startY, y), scale),
      ToImage(Max(startX, x), scale), ToImage(Max(startY, y), scale))
  }

  /** The four drag directions between two corners give the same rectangle. */
  lemma SelectionBoxDirectionFree(x0: int, y0: int, x1: int, y1: int, scale: real)
    requires 0.0 < scale
    ensures SelectionBox(x0, y0, x1, y1, scale) == SelectionBox(x1, y1, x0, y0, scale)
    ensures SelectionBox(x0, y0, x1, y1, scale) == SelectionBox(x0, y1, x1, y0, scale)
    ensures SelectionBox(x0, y0, x1, y1, scale) == SelectionBox(x1, y0, x0, y1, scale)
  {
  }

  /** At scale 1 the rectangle is the dragged one, in canvas pixels. */
  lemma SelectionBoxUnscaled(x0: int, y0: int, x1: int, y1: int)
    ensures SelectionBox(x0, y0, x1, y1, 1.0) == Box(Min(x0, x1), Min(y0, y1), Max(x0, x1), Max(y0, y1))
  {
    assert forall v: int :: ToImage(v, 1.0) == v;
  }

  /** The outline drawn on the canvas, from the press point to the pointer. */
  datatype Outline = Outline(x0: int, y0: int, x1: int, y1: int)

  /** The selector's fields other than its widgets: `start_x`, `start_y`,
      `rect` (the outline last drawn), `crop_coords`, and whether
      `root.quit()` has been called. */
  datatype Selection = Selection(
    startX: Option<int>, startY: Option<int>,
    rect: Option<Outline>, cropCoords: Option<Box>, quitting: bool)

  /** A fresh selector: no start point, no outline, no selection. */
  const Initial: Selection := Selection(None, None, None, None, false)

  /** `on_press`: records the start point and nothing else. */
  function Pressed(s: Selection, x: int, y: int): (t: Selection)
    ensures t.startX == Some(x) && t.startY == Some(y)
    ensures t.rect == s.rect && t.cropCoords == s.cropCoords && t.quitting == s.quitting
  {
    s.(startX := Some(x), startY := Some(y))
  }

  /** `update_coord_label`: records the normalised rectangle. Without a start
      point, `min(None, x)` raises inside the Tk callback and nothing changes. */
  function Updated(s: Selection, x: int, y: int, scale: real): (t: Selection)
    requires 0.0 < scale
    ensures s.startX.Some? && s.startY.Some? ==>
      t.cropCoords == Some(SelectionBox(s.startX.value, s.startY.value, x, y, scale))
    ensures s.startX.None? || s.startY.None? ==> t == s
    ensures t.startX == s.startX && t.startY == s.startY && t.rect == s.rect && t.quitting == s.quitting
  {
    if s.startX.Some? && s.startY.Some? then
      s.(cropCoords := Some(SelectionBox(s.startX.value, s.startY.value, x, y, scale)))
    else s
  }

  /** `on_drag`: draws the outline from the start point and updates the
      rectangle. Without a start point drawing the outline fails and nothing
      changes. */
  function Dragged(s: Selection, x: int, y: int, scale: real): (t: Selection)
    requires 0.0 < scale
    ensures s.startX.Some? && s.startY.Some? ==>
      && t.rect == Some(Outline(s.startX.value, s.startY.value, x, y))
      && t.cropCoords == Some(SelectionBox(s.startX.value, s.startY.value, x, y, scale))
    ensures s.startX.None? || s.startY.None? ==> t == s
    ensures t.startX == s.startX && t.startY == s.startY && t.quitting == s.quitting
  {
    if s.startX.Some? && s.startY.Some? then
      Updated(s.(rect := Some(Outline(s.startX.value, s.startY.value, x, y))), x, y, scale)
    else s
  }

  /** `reset_selection`: forgets the rectangle. The outline's canvas item is
      deleted but the `rect` field keeps it. */
  function Cleared(s: Selection): (t: Selection)
    ensures t.cropCoords.None?
    ensures t.startX == s.startX && t.startY == s.startY && t.rect == s.rect && t.quitting == s.quitting
  {
    s.(cropCoords := None)
  }

  /** `confirm_selection`: ends the event loop exactly when a rectangle exists. */
  function Confirmed(s: Selection): (t: Selection)
    ensures t.quitting <==> s.quitting || s.cropCoords.Some?
    ensures t.startX == s.startX && t.startY == s.startY && t.rect == s.rect && t.cropCoords == s.cropCoords
  {
    if s.cropCoords.Some? then s.(quitting := true) else s
  }

  /** What the user does: button 1 pressed, moved and released on the canvas,
      the reset button or the `r` key, the confirm button or `Return`. */
  datatype Event = Press(x: int, y: int) | Drag(x: int, y: int) | Release(x: int, y: int) | Reset | Confirm

  function Handle(s: Selection, e: Event, scale: real): (t: Selection)
    requires 0.0 < scale
    ensures t.quitting <==> s.quitting || (e.Confirm? && s.cropCoords.Some?)
    ensures e.Reset? ==> t.cropCoords.None?
    ensures e.Press? || e.Confirm? ==> t.cropCoords == s.cropCoords
  {
    match e
    case Press(x, y) => Pressed(s, x, y)
    case Drag(x, y) => Dragged(s, x, y, scale)
    case Release(x, y) => Updated(s, x, y, scale)
    case Reset => Cleared(s)
    case Confirm => Confirmed(s)
  }

  /** `root.mainloop()`: events are handled in order until one of them calls
      `quit`. Events running out without one stands for the user closing the
      window, which also ends the loop. */
  function RunLoop(s: Selection, events: seq<Event>, scale: real): (t: Selection)
    requires 0.0 < scale
    ensures s.quitting ==> t == s
    ensures t.quitting && !s.quitting ==> Confirm in events
    decreases |events|
  {
    if events == [] || s.quitting then s
    else RunLoop(Handle(s, events[0], scale), events[1..], scale)
  }

  /** What every reachable selector state satisfies: a recorded rectangle is
      normalised, and the loop is only told to stop once a rectangle exists. */
  predicate Consistent(s: Selection) {
    (s.cropCoords.Some? ==> IsNormalised(s.cropCoords.value))
    && (s.quitting ==> s.cropCoords.Some?)
  }

  lemma HandleKeepsConsistent(s: Selection, e: Event, scale: real)
    requires 0.0 < scale && Consistent(s) && !s.quitting
    ensures Consistent(Handle(s, e, scale))
  {
  }

  /** Whatever the user does, the loop ends in a consistent state. */
  lemma {:induction false} RunLoopKeepsConsistent(s: Selection, events: seq<Event>, scale: real)
    requires 0.0 < scale && Consistent(s)
    ensures Consistent(RunLoop(s, events, scale))
    decreases |events|
  {
    if events != [] && !s.quitting {
      HandleKeepsConsistent(s, events[0], scale);
      RunLoopKeepsConsistent(Handle(s, events[0], scale), events[1..], scale);
    }
  }

  /** A loop that ends by `quit` always has a rectangle, so the "no selection"
      branch of `crop_images` cannot be taken. */
  lemma SelectorQuitsWithRectangle(events: seq<Event>, scale: real)
    requires 0.0 < scale
    ensures RunLoop(Initial, events, scale).quitting ==> RunLoop(Initial, events, scale).cropCoords.Some?
  {
    RunLoopKeepsConsistent(Initial, events, scale);
  }

  /** Dragging out a rectangle and closing the window without confirming it
      does not end the loop by `quit`, so nothing is cropped with it. */
  lemma UnconfirmedRectangleIsNotUsed()
    ensures RunLoop(Initial, [Press(0, 0), Drag(10, 10)], 1.0).cropCoords == Some(Box(0, 0, 10, 10))
    ensures !RunLoop(Initial, [Press(0, 0), Drag(10, 10)], 1.0).quitting
  {
    SelectionBoxUnscaled(0, 0, 10, 10);
  }

  /** A loop that stops has been confirmed with a rectangle, and the remaining
      events are not handled. */
  lemma {:induction false} RunLoopStopsAtConfirm(s: Selection, before: seq<Event>, after: seq<Event>, scale: real)
    requires 0.0 < scale
    requires RunLoop(s, before, scale).cropCoords.Some?
    ensures RunLoop(s, before + [Confirm] + after, scale) == Confirmed(RunLoop(s, before, scale))
    ensures RunLoop(s, before + [Confirm] + after, scale).quitting
    decreases |before|
  {
    var all := before + [Confirm] + after;
    if s.quitting {
    } else if before == [] {
      assert all[0] == Confirm && all[1..] == after;
      assert RunLoop(s, all, scale) == RunLoop(Confirmed(s), after, scale);
    } else {
      assert all[0] == before[0] && all[1..] == before[1..] + [Confirm] + after;
      RunLoopStopsAtConfirm(Handle(s, before[0], scale), before[1..], after, scale);
    }
  }

  /** `root.destroy()` after the window was closed: Tk reports that the
      application has already been destroyed. */
  datatype SelectorError = WindowClosed

  /** `CropSelector`: the selection state updated by the Tk callbacks. */
  class CropSelector {
    const scale: real
    const display: DisplayImage
    var startX: Option<int>
    var startY: Option<int>
    var rect: Option<Outline>
    var cropCoords: Option<Box>
    var quitting: bool

    function State(): Selection
      reads this
    {
      Selection(startX, startY, rect, cropCoords, quitting)
    }

    /** `__init__` for an image of `imageWidth` x `imageHeight`, where the
        screen-fit ratios are `widthRatio` and `heightRatio`. */
    constructor (imageWidth: nat, imageHeight: nat, widthRatio: real, heightRatio: real)
      requires 0.0 < widthRatio && 0.0 < heightRatio
      ensures scale == ScaleFor(widthRatio, heightRatio) && 0.0 < scale <= 1.0
      ensures display == DisplayImageFor(imageWidth, imageHeight, scale)
      ensures State() == Initial
    {
      var s := ScaleFor(widthRatio, heightRatio);
      scale := s;
      display := DisplayImageFor(imageWidth, imageHeight, s);
      startX, startY := None, None;
      rect := None;
      cropCoords := None;
      quitting := false;
    }

    method OnPress(x: int, y: int)
      modifies this
      ensures State() == Pressed(old(State()), x, y)
    {
      startX := Some(x);
      startY := Some(y);
    }

    method OnDrag(x: int, y: int)
      requires 0.0 < scale
      modifies this
      ensures State() == Dragged(old(State()), x, y, scale)
    {
      if startX.Some? && startY.Some? {
        rect := Some(Outline(startX.value, startY.value, x, y));
        UpdateCoordLabel(x, y);
      }
    }

    method OnRelease(x: int, y: int)
      requires 0.0 < scale
      modifies this
      ensures State() == Updated(old(State()), x, y, scale)
    {
      UpdateCoordLabel(x, y);
    }

    method UpdateCoordLabel(x: int, y: int)
      requires 0.0 < scale
      modifies this
      ensures State() == Updated(old(State()), x, y, scale)
    {
      if startX.Some? && startY.Some? {
        var x1 := ToImage(Min(startX.value, x), scale);
        var y1 := ToImage(Min(startY.value, y), scale);
        var x2 := ToImage(Max(startX.value, x), scale);
        var y2 := ToImage(Max(startY.value, y), scale);
        cropCoords := Some(Box(x1, y1, x2, y2));
      }
    }

    method ResetSelection()
      modifies this
      ensures State() == Cleared(old(State()))
    {
      cropCoords := None;
    }

    method ConfirmSelection()
      modifies this
      ensures State() == Confirmed(old(State()))
    {
      if cropCoords.Some? {
        quitting := true;
      }
    }

    /** Dispatches one event to the callback bound to it. */
    method Dispatch(e: Event)
      requires 0.0 < scale
      modifies this
      ensures State() == Handle(old(State()), e, scale)
    {
      match e
      case Press(x, y) => OnPress(x, y);
      case Drag(x, y) => OnDrag(x, y);
      case Release(x, y) => OnRelease(x, y);
      case Reset => ResetSelection();
      case Confirm => ConfirmSelection();
    }

    /** `get_coordinates`: runs the event loop, then destroys the window and
        returns `crop_coords`. When the loop ended because the window was
        closed, `root.destroy()` raises instead. */
    method GetCoordinates(events: seq<Event>) returns (coords: Result<Option<Box>, SelectorError>)
      requires 0.0 < scale
      modifies this
      ensures State() == RunLoop(old(State()), events, scale)
      ensures quitting ==> coords == Success(cropCoords)
      ensures !quitting ==> coords == Failure(WindowClosed)
    {
      var i := 0;
      while i < |events| && !quitting
        invariant 0 <= i <= |events|
        invariant RunLoop(State(), events[i..], scale) == RunLoop(old(State()), events, scale)
      {
        assert events[i..][0] == events[i] && events[i..][1..] == events[i + 1..];
        Dispatch(events[i]);
        i := i + 1;
      }
      if !quitting {
        return Failure(WindowClosed);
      }
      coords := Success(cropCoords);
    }
  }

  /** What happened to one file: cropped and saved under its own name in the
      output folder, or an exception reported for it. */
  datatype CropResult = Saved(name: string, bounds: Box) | Failed(name: string)

  datatype CropOutcome =
    | NoPngFiles                      // returned before the selector opens
    | SelectorClosed                  // the window was closed: `get_coordinates` raised
    | NoSelection                     // the selector ended without a rectangle
    | Processed(results: seq<CropResult>)

  /** The results of cropping every file with the same bounds, where
      `canCrop(name)` says whether opening, cropping and saving it succeed. */
  function CropAll(names: seq<string>, bounds: Box, canCrop: string -> bool): (r: seq<CropResult>)
    ensures |r| == |names|
    ensures forall i :: 0 <= i < |r| ==> r[i].name == names[i]
    ensures forall i :: 0 <= i < |r| ==> (r[i].Saved? <==> canCrop(names[i]))
    ensures forall i :: 0 <= i < |r| && r[i].Saved? ==> r[i].bounds == bounds
  {
    seq(|names|, i requires 0 <= i < |names| => if canCrop(names[i]) then Saved(names[i], bounds) else Failed(names[i]))
  }

  /** The loop over the files with one `try` per file; `CropAll` is its
      specification. */
  method CropEach(pngFiles: seq<string>, bounds: Box, canCrop: string -> bool) returns (results: seq<CropResult>)
    ensures results == CropAll(pngFiles, bounds, canCrop)
  {
    results := [];
    for i := 0 to |pngFiles|
      invariant |results| == i
      invariant forall k :: 0 <= k < i ==> results[k] == CropAll(pngFiles, bounds, canCrop)[k]
    {
      if canCrop(pngFiles[i]) {
        results := results + [Saved(pngFiles[i], bounds)];
      } else {
        results := results + [Failed(pngFiles[i])];
      }
    }
  }

  /** `crop_images` on an input folder whose entries are `listing`. The
      selector is opened on the first file, whose size `imageSize` gives;
      `events` is what the user does in it. */
  method CropImages(
    listing: seq<string>, imageSize: string -> (nat, nat), widthRatio: real, heightRatio: real,
    events: seq<Event>, canCrop: string -> bool)
    returns (outcome: CropOutcome)
    requires 0.0 < widthRatio && 0.0 < heightRatio
    ensures PngFiles(listing) == [] ==> outcome == NoPngFiles
    ensures PngFiles(listing) != [] ==>
      var selection := RunLoop(Initial, events, ScaleFor(widthRatio, heightRatio));
      outcome == if !selection.quitting then SelectorClosed
                 else if selection.cropCoords.None? then NoSelection
                 else Processed(CropAll(PngFiles(listing), selection.cropCoords.value, canCrop))
  {
    var pngFiles := PngFiles(listing);
    if |pngFiles| == 0 {
      return NoPngFiles;
    }
    var size := imageSize(pngFiles[0]);
    var selector := new CropSelector(size.0, size.1, widthRatio, heightRatio);
    var coordinates := selector.GetCoordinates(events);
    if coordinates.Failure? {
      return SelectorClosed;
    }
    var cropBounds := coordinates.value;
    if cropBounds.None? {
      return NoSelection;
    }
    var results := CropEach(pngFiles, cropBounds.value, canCrop);
    return Processed(results);
  }
}
