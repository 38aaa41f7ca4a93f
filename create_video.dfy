/** `create_video_from_images`: one video frame per PNG file of a folder, in
    sorted order, each labelled in its bottom-right corner with the date that
    its file name carries. Reading images, measuring and drawing text and
    encoding video are foreign calls: an image is a value the `load` function
    gives for a file name, the text extent is what `measure` gives for a
    label, and the video writer is an append-only sequence of frames. */
module CreateVideo {
  import opened Wrappers
  import opened Calendar
  import opened DateFormat
  import opened PngListing
  import StravaScreenshot

  /** Eight digits in a row start at position `i`: a match of `\d{8}`. */
  predicate DigitRunAt(s: string, i: int) {
    0 <= i && i + 8 <= |s| && AllDigits(s[i..i + 8])
  }

  /** `re.search(r'(\d{8})', s)` from position `from` on: the leftmost start of
      eight consecutive digits. */
  function FindDigitRun(s: string, from: nat): (r: Option<nat>)
    ensures r.Some? ==> from <= r.value && DigitRunAt(s, r.value)
    ensures forall j :: from <= j && (r.None? || j < r.value) ==> !DigitRunAt(s, j)
    decreases |s| - from
  {
    if from + 8 > |s| then None
    else if DigitRunAt(s, from) then Some(from)
    else FindDigitRun(s, from + 1)
  }

  /** The date token of a file stem: the leftmost run of eight digits, if any. */
  function DateToken(stem: string): (r: Option<string>)
    ensures r.None? <==> forall i :: !DigitRunAt(stem, i)
    ensures r.Some? ==> |r.value| == 8 && AllDigits(r.value)
    ensures r.Some? ==> exists i :: DigitRunAt(stem, i) && stem[i..i + 8] == r.value
                                    && forall j :: 0 <= j < i ==> !DigitRunAt(stem, j)
  {
    match FindDigitRun(stem, 0)
    case None => None
    case Some(i) => Some(stem[i..i + 8])
  }

  /** What a file stem says about the frame's date. */
  datatype StemDate =
    | NoToken                // no eight-digit run: the frame stays unlabelled
    | Dated(date: Date)      // the token read as `%Y%m%d`
    | BadToken(token: string) // `strptime` raises `ValueError`, and nothing handles it

  function DateOfStem(stem: string): (r: StemDate)
    ensures r.NoToken? <==> DateToken(stem).None?
    ensures r.Dated? ==> IsValid(r.date) && DateToken(stem) == Some(BasicForm(r.date))
    ensures r.BadToken? ==> DateToken(stem) == Some(r.token) && ParseBasic(r.token).None?
  {
    match DateToken(stem)
    case None => NoToken
    case Some(token) =>
      match ParseBasic(token)
      case None => BadToken(token)
      case Some(d) =>
        BasicFormOfParse(token);
        Dated(d)
  }

  /** The stroke thickness of the label, `max(1, int(height / 500))`. */
  function Thickness(height: nat): (t: int)
    ensures t >= 1
    ensures height < 1000 ==> t == 1
    ensures height >= 500 ==> t * 500 <= height < (t + 1) * 500
  {
    if height / 500 >= 1 then height / 500 else 1
  }

  datatype Point = Point(x: int, y: int)

  /** Where the label goes: the text origin (bottom-left of the text) and the
      two corners of the dark backdrop, as handed to `cv2.rectangle`. */
  datatype LabelLayout = LabelLayout(text: Point, rectStart: Point, rectEnd: Point)

  /** Distance of the text from the right and bottom edges of the image. */
  const Padding: int := 20
  /** Margin of the backdrop around the text. */
  const RectPad: int := 5

  /** The label's place for an image of `width` x `height` and a text extent of
      `textWidth` x `textHeight`: the backdrop is the text box grown by the
      margin on every side, and the backdrop ends 15 pixels from the right and
      bottom edges. */
  function PlaceLabel(width: int, height: int, textWidth: int, textHeight: int): (l: LabelLayout)
    ensures l.rectEnd.x - l.rectStart.x == textWidth + 2 * RectPad
    ensures l.rectStart.y - l.rectEnd.y == textHeight + 2 * RectPad
    ensures l.rectEnd.x == width - (Padding - RectPad) && l.rectStart.y == height - (Padding - RectPad)
    ensures l.rectStart.x == l.text.x - RectPad && l.rectStart.y == l.text.y + RectPad
    ensures l.rectEnd.x == l.text.x + textWidth + RectPad && l.rectEnd.y == l.text.y - textHeight - RectPad
  {
    var textX := width - textWidth - Padding;
    var textY := height - Padding;
    LabelLayout(
      Point(textX, textY),
      Point(textX - RectPad, textY + RectPad),
      Point(textX + textWidth + RectPad, textY - textHeight - RectPad))
  }

  /** An image as the video writer receives it; its pixels are not interpreted. */
  datatype Image = Image(width: nat, height: nat, pixels: seq<int>)

  /** The date label drawn over a frame: its text, place and stroke thickness.
      The 60% dark backdrop blend and the glyphs themselves are not modelled. */
  datatype Overlay = Overlay(caption: string, layout: LabelLayout, thickness: int)

  /** A frame: the image read from a file, with the label drawn over it or not. */
  datatype Frame = Frame(source: Image, overlay: Option<Overlay>)

  /** The foreign calls the function makes: `cv2.imread` of a file, the extent
      `cv2.getTextSize` gives for a label at the run's font scale and
      thickness, and `strftime(date_format)` of a date. */
  datatype Toolkit = Toolkit(load: string -> Image, measure: string -> (int, int), render: Date -> string)

  /** What is fixed from the first image for the whole run: its width and
      height and the stroke thickness derived from it. */
  datatype Settings = Settings(width: int, height: int, thickness: int)

  function SettingsFor(first: Image): (s: Settings)
    ensures s.width == first.width && s.height == first.height
    ensures s.thickness == Thickness(first.height) && s.thickness >= 1
  {
    Settings(first.width, first.height, Thickness(first.height))
  }

  /** The frame the loop writes for one file, or the token whose `strptime`
      raises. */
  function FrameFor(name: string, tk: Toolkit, settings: Settings): (r: Result<Frame, string>)
    ensures r.Failure? <==> DateOfStem(Stem(name)).BadToken?
    ensures r.Success? ==> r.value.source == tk.load(name)
    ensures r.Success? ==> (r.value.overlay.None? <==> DateToken(Stem(name)).None?)
    ensures r.Success? && r.value.overlay.Some? ==>
      && r.value.overlay.value.caption == tk.render(DateOfStem(Stem(name)).date)
      && r.value.overlay.value.thickness == settings.thickness
      && var extent := tk.measure(r.value.overlay.value.caption);
         r.value.overlay.value.layout == PlaceLabel(settings.width, settings.height, extent.0, extent.1)
  {
    var image := tk.load(name);
    match DateOfStem(Stem(name))
    case NoToken => Success(Frame(image, None))
    case BadToken(token) => Failure(token)
    case Dated(d) =>
      var caption := tk.render(d);
      var extent := tk.measure(caption);
      Success(Frame(image, Some(Overlay(caption, PlaceLabel(settings.width, settings.height, extent.0, extent.1), settings.thickness))))
  }

  /** The frames written for a sequence of files before the loop stops, and
      the token that stopped it, if one did. */
  datatype Composition = Composition(frames: seq<Frame>, failure: Option<string>)

  /** The frames written for `names` in order: one per file while no token
      fails, and none after the first that fails. */
  function Compose(names: seq<string>, tk: Toolkit, settings: Settings): (c: Composition)
    ensures |c.frames| <= |names|
    ensures forall i :: 0 <= i < |c.frames| ==> FrameFor(names[i], tk, settings) == Success(c.frames[i])
    ensures c.failure.None? <==> |c.frames| == |names|
    ensures c.failure.Some? ==> FrameFor(names[|c.frames|], tk, settings) == Failure(c.failure.value)
    decreases |names|
  {
    if names == [] then Composition([], None)
    else
      var init := names[..|names| - 1];
      var before := Compose(init, tk, settings);
      assert forall i :: 0 <= i < |init| ==> init[i] == names[i];
      if before.failure.Some? then before
      else
        var last := FrameFor(names[|names| - 1], tk, settings);
        if last.Success? then Composition(before.frames + [last.value], None)
        else Composition(before.frames, Some(last.error))
  }

  /** One more file whose frame can be made extends the frames by that frame. */
  lemma ComposeStep(names: seq<string>, i: int, tk: Toolkit, settings: Settings)
    requires 0 <= i < |names|
    requires Compose(names[..i], tk, settings).failure.None?
    requires FrameFor(names[i], tk, settings).Success?
    ensures Compose(names[..i + 1], tk, settings)
            == Composition(Compose(names[..i], tk, settings).frames + [FrameFor(names[i], tk, settings).value], None)
  {
    assert names[..i + 1][..i] == names[..i];
  }

  /** The first file whose token fails ends the frames: later files add none. */
  lemma {:induction false} ComposeStopsAt(names: seq<string>, i: int, tk: Toolkit, settings: Settings)
    requires 0 <= i < |names|
    requires Compose(names[..i], tk, settings).failure.None?
    requires FrameFor(names[i], tk, settings).Failure?
    ensures Compose(names, tk, settings)
            == Composition(Compose(names[..i], tk, settings).frames, Some(FrameFor(names[i], tk, settings).error))
    decreases |names|
  {
    if i == |names| - 1 {
      assert names[..|names| - 1] == names[..i];
    } else {
      var shorter := names[..|names| - 1];
      assert shorter[..i] == names[..i] && shorter[i] == names[i];
      ComposeStopsAt(shorter, i, tk, settings);
    }
  }

  /** The body of the loop for one file: read the image and, when its stem
      carries a date token, parse it (the error case) and draw the label.
      `FrameFor` is its specification. */
  method MakeFrame(name: string, tk: Toolkit, width: int, height: int, thickness: int)
    returns (r: Result<Frame, string>)
    ensures r == FrameFor(name, tk, Settings(width, height, thickness))
  {
    var image := tk.load(name);
    var frame := Frame(image, None);
    var token := DateToken(Stem(name));
    if token.Some? {
      var date := ParseBasic(token.value);
      if date.None? {
        return Failure(token.value);
      }
      var display := tk.render(date.value);
      var textSize := tk.measure(display);
      var layout := PlaceLabel(width, height, textSize.0, textSize.1);
      frame := Frame(image, Some(Overlay(display, layout, thickness)));
    }
    return Success(frame);
  }

  /** `cv2.VideoWriter`: frames are appended in order until it is released;
      writing to a released writer does nothing. */
  class VideoWriter {
    const width: int
    const height: int
    const fps: int
    var frames: seq<Frame>
    var released: bool

    constructor (width: int, height: int, fps: int)
      ensures this.width == width && this.height == height && this.fps == fps
      ensures frames == [] && !released
    {
      this.width, this.height, this.fps := width, height, fps;
      frames, released := [], false;
    }

    method Write(frame: Frame)
      modifies this
      ensures released == old(released)
      ensures frames == if old(released) then old(frames) else old(frames) + [frame]
    {
      if !released {
        frames := frames + [frame];
      }
    }

    method Release()
      modifies this
      ensures released && frames == old(frames)
    {
      released := true;
    }
  }

  datatype VideoOutcome =
    | NoImages         // no PNG file: returns before a writer is opened
    | Completed        // every file written and the writer released
    | Aborted(token: string) // a date token that is not a date raised; the writer is left open

  /** `create_video_from_images` on a folder whose entries are `listing`. */
  method CreateVideoFromImages(listing: seq<string>, tk: Toolkit, fps: int)
    returns (writer: VideoWriter?, outcome: VideoOutcome)
    ensures outcome == NoImages <==> PngFiles(listing) == []
    ensures writer == null <==> outcome == NoImages
    ensures writer != null ==>
      var files := PngFiles(listing);
      var first := tk.load(files[0]);
      var c := Compose(files, tk, SettingsFor(first));
      && fresh(writer)
      && writer.width == first.width && writer.height == first.height && writer.fps == fps
      && writer.frames == c.frames
      && (c.failure.None? ==> outcome == Completed && writer.released)
      && (c.failure.Some? ==> outcome == Aborted(c.failure.value) && !writer.released)
  {
    var files := PngFiles(listing);
    if |files| == 0 {
      return null, NoImages;
    }
    var firstImage := tk.load(files[0]);
    var height, width := firstImage.height, firstImage.width;
    writer := new VideoWriter(width, height, fps);
    var thickness := Thickness(height);
    ghost var settings := Settings(width, height, thickness);

    var i := 0;
    while i < |files|
      invariant 0 <= i <= |files|
      invariant !writer.released
      invariant Compose(files[..i], tk, settings).failure.None?
      invariant writer.frames == Compose(files[..i], tk, settings).frames
    {
      var made := MakeFrame(files[i], tk, width, height, thickness);
      if made.Failure? {
        ComposeStopsAt(files, i, tk, settings);
        return writer, Aborted(made.error);
      }
      ComposeStep(files, i, tk, settings);
      writer.Write(made.value);
      i := i + 1;
    }
    assert files[..i] == files;
    writer.Release();
    outcome := Completed;
  }

  /** A file whose stem has no eight-digit run becomes its own image, unlabelled. */
  lemma UnlabelledWithoutToken(name: string, tk: Toolkit, settings: Settings)
    requires forall i :: !DigitRunAt(Stem(name), i)
    ensures FrameFor(name, tk, settings) == Success(Frame(tk.load(name), None))
  {
  }

  /** A screenshot saved for a day of the date range is read back as that
      same day and labelled with it. */
  lemma ScreenshotRoundTrip(d: Date, tk: Toolkit, settings: Settings)
    requires IsValid(d)
    ensures StravaScreenshot.ScreenshotFileName(ExtendedForm(d)).Some?
    ensures var name := StravaScreenshot.ScreenshotFileName(ExtendedForm(d)).value;
      && IsPngName(name)
      && Stem(name) == BasicForm(d)
      && DateOfStem(Stem(name)) == Dated(d)
      && FrameFor(name, tk, settings).Success?
      && FrameFor(name, tk, settings).value.overlay.Some?
      && FrameFor(name, tk, settings).value.overlay.value.caption == tk.render(d)
  {
    ParseExtendedRoundTrip(d);
    var name := BasicForm(d) + ".png";
    assert name[|name| - 4..] == ".png";
    StemOfPngName(name);
    assert name[..|name| - 4] == BasicForm(d);
    var stem := BasicForm(d);
    assert DigitRunAt(stem, 0) by { assert stem[0..8] == stem; }
    assert FindDigitRun(stem, 0) == Some(0);
    assert stem[0..8] == stem;
    ParseBasicRoundTrip(d);
  }
}
