# Strava heatmap timelapse: a Dafny model of its sequential core

The model covers three of the repository's scripts:

- `strava-screenshot.py` screenshots a personal Strava heatmap once per day of a date range.
- `image-cropper.py` lets the user select a rectangle on the first screenshot and crops every screenshot to it.
- `create_video.py` turns the cropped screenshots into a video, with a date label on each frame.

This project models the logic between the foreign calls:

- the Gregorian calendar as Python's `datetime` implements it;
- the `YYYY-MM-DD` and `YYYYMMDD` renderings and how `strptime` reads them back;
- the day-by-day date range;
- the monitor choice;
- the name a screenshot is saved under;
- the listing of a folder's PNG files, and how a file name is read back as a date;
- where the label and its backdrop go, and the stroke thickness;
- the sequence of frames written to the video;
- the crop selector's state as its Tk callbacks change it;
- the batch crop.

The model has these modules:

- `Calendar`: dates, validity, the successor of a day, order and the day ordinal.
- `DateFormat`: `strftime` and `strptime` for `%Y-%m-%d` and `%Y%m%d`.
- `PngListing`: `sorted(Path(folder).glob("*.png"))` and `Path.stem`.
- `StravaScreenshot`: monitor bounds, the file name, and `generate_date_range` as a loop proved against `Days`.
- `CreateVideo`:
  - the date token;
  - the layout;
  - `FrameFor` and `Compose`, the specification of the frames;
  - a `VideoWriter` class that only appends;
  - `create_video_from_images` as a loop proved against `Compose`.
- `ImageCropper`:
  - truncation, the scale and the selection rectangle;
  - the selector state and its transition functions;
  - a `CropSelector` class whose methods are proved against those functions;
  - the event loop;
  - `crop_images`.

Foreign calls become inputs:

- the monitor list;
- the folder listing;
- image loading, text measurement and date rendering, gathered in the `Toolkit` record;
- the first image's size;
- the screen-fit ratios;
- the user's events;
- whether cropping a file succeeds.

## Model

| member | source | states |
|---|---|---|
| Calendar.LeapYearRule | strava-screenshot.py:90-91 | `IsLeapYear` is the Gregorian rule: every fourth year, except centuries not divisible by 400 (2024 and 2000 are leap years, 2023 and 1900 are not) |
| Calendar.DaysInMonth | strava-screenshot.py:90-91 | every month has 28 to 31 days; February has 29 exactly in a leap year, and the other months have at least 30 |
| Calendar.ValidDays | strava-screenshot.py:90-91 | `IsValid` (what `datetime` accepts without `ValueError`): years 1 to 9999, months 1 to 12, days never past the 31st, every day up to the 28th, and 29 February exactly in leap years |
| Calendar.BeforeStrictTotal | strava-screenshot.py:96 | `Before`, the comparison of dates, is irreflexive, asymmetric, transitive and total |
| Calendar.Next | strava-screenshot.py:98 | the day after a valid date is valid and later; there is none exactly after 9999-12-31, where adding a day overflows |
| Calendar.DaysBeforeYear | strava-screenshot.py:98 | each year before `y` contributes at least 365 days |
| Calendar.Ordinal | strava-screenshot.py:96-98 | `toordinal()`: at least 1 for any day of a month, and exactly 1 for 0001-01-01 |
| Calendar.OrdinalRange | strava-screenshot.py:96-98 | the valid dates have the ordinals 1 to 3652059, the ordinal of 9999-12-31 |
| Calendar.MonthTableConsistent | strava-screenshot.py:98 | the cumulative month table agrees with the month lengths and the year length |
| Calendar.DaysBeforeYearClosedForm | strava-screenshot.py:98 | counting the years one by one gives the closed form 365(y-1) + (y-1)/4 - (y-1)/100 + (y-1)/400 |
| Calendar.LeapDays | strava-screenshot.py:98 | a year's length is 365 plus the leap day that the closed form's three quotients count for it |
| Calendar.QuotientSteps | strava-screenshot.py:98 | the quotients by 4, 100 and 400 go up by one exactly at multiples |
| Calendar.NextOrdinal | strava-screenshot.py:98 | the successor's ordinal is one more than the day's |
| Calendar.DaysBeforeYearIncreasing | strava-screenshot.py:96 | a later year starts after the earlier year ends |
| Calendar.DaysBeforeMonthIncreasing | strava-screenshot.py:96 | a later month starts after the earlier month ends |
| Calendar.WithinYear | strava-screenshot.py:96 | a valid day lies within its year |
| Calendar.OrdinalOrder | strava-screenshot.py:96 | date comparison agrees with ordinal comparison, in both directions, and equal ordinals mean equal dates |
| Calendar.BeforeOrdinal | strava-screenshot.py:96 | an earlier date has a smaller ordinal |
| Calendar.AtMostLastDate | strava-screenshot.py:98 | no valid date comes after 9999-12-31 |
| Calendar.NextIsImmediate | strava-screenshot.py:98 | no valid date lies strictly between a day and its successor |
| DateFormat.Digit | strava-screenshot.py:97 | a digit character with the given value |
| DateFormat.Pad2 | strava-screenshot.py:97 | two digits whose value is the number (zero padding) |
| DateFormat.Pad4 | strava-screenshot.py:97 | four digits whose value is the number |
| DateFormat.NumberOfFour | strava-screenshot.py:97 | a four-digit value splits into its two halves |
| DateFormat.NumberOfTwo | strava-screenshot.py:90 | a two-digit value is ten times the first digit plus the second |
| DateFormat.ExtendedForm | strava-screenshot.py:97 | ten characters with hyphens at positions 4 and 7 |
| DateFormat.BasicForm | strava-screenshot.py:67 | eight ASCII digits |
| DateFormat.WithoutHyphens | strava-screenshot.py:67 | no hyphen is left, and every other character occurs exactly as often as in the input |
| DateFormat.WithoutHyphensAppend | strava-screenshot.py:67 | removing hyphens distributes over concatenation |
| DateFormat.WithoutHyphensDigits | strava-screenshot.py:67 | a digit string has no hyphen to remove |
| DateFormat.BasicIsExtendedWithoutHyphens | strava-screenshot.py:67 | `%Y%m%d` is `%Y-%m-%d` with its hyphens removed |
| DateFormat.MatchMonth | strava-screenshot.py:90 | a month read is between 1 and 12 and consumes input |
| DateFormat.MatchDay | strava-screenshot.py:90 | a day read is between 1 and 31 and consumes input |
| DateFormat.ParseExtended | strava-screenshot.py:90-91 | what `strptime('%Y-%m-%d')` accepts is a valid date |
| DateFormat.ParseExtendedOfShape | strava-screenshot.py:90-91 | a `DDDD-DD-DD` string parses exactly when the date its digits spell exists, and then to that date |
| DateFormat.ParseExtendedRoundTrip | strava-screenshot.py:90-97 | parsing the `%Y-%m-%d` rendering of a date gives the date back |
| DateFormat.ParseBasic | create_video.py:57 | what `strptime('%Y%m%d')` accepts from eight digits is a valid date; otherwise it raises |
| DateFormat.ParseBasicRoundTrip | create_video.py:57 | parsing the `%Y%m%d` rendering of a date gives the date back |
| DateFormat.PadTwoOfNumber | create_video.py:57 | two digits read and rendered again are the same two digits |
| DateFormat.PadFourOfNumber | create_video.py:57 | four digits read and rendered again are the same four digits |
| DateFormat.BasicFormOfParse | create_video.py:57 | whatever `strptime('%Y%m%d')` accepts is the `%Y%m%d` rendering of the date it gives, so the two are inverse |
| PngListing.NameLePrefix | create_video.py:23 | `NameLe` (Python's `<=` on `str`): a prefix comes first, and otherwise the first characters are in order |
| PngListing.NameLeTotal | create_video.py:23 | any two names are ordered one way or the other |
| PngListing.NameLeAntisymmetric | create_video.py:23 | two names each at most the other are equal |
| PngListing.NameLeTransitive | create_video.py:23 | the name order is transitive |
| PngListing.ConsSorted | create_video.py:23 | a name not above any name of a sorted sequence can go in front |
| PngListing.Insert | create_video.py:23 | insertion keeps the sequence sorted and adds exactly the one name |
| PngListing.Sort | create_video.py:23 | `sorted` gives an ordered permutation of the names |
| PngListing.IsPngName | create_video.py:23 | the pattern `*.png` matches exactly the names that are some stem followed by `.png` |
| PngListing.PngNames | create_video.py:23 | exactly the entries that match `*.png`, each as often as it is listed |
| PngListing.PngFiles | create_video.py:23 | the PNG entries, sorted; each PNG name occurs as often as it is listed and no other name occurs |
| PngListing.LastIndexOf | create_video.py:55 | the last position of the character, or -1 when there is none |
| PngListing.Stem | create_video.py:55 | `Path.stem` is a prefix of the name; when it is shorter it stops at the last dot, which is neither the first nor the last character |
| PngListing.StemOfPngName | create_video.py:55 | the stem of a PNG name is the name without `.png`, and `.png` alone is its own stem |
| StravaScreenshot.SecondMonitorBounds | strava-screenshot.py:11-38 | the second monitor when there are two or more, else the first; `None` when the list is empty or the enumeration fails; fields copied from `y`, `x`, `width` and `height` |
| StravaScreenshot.ScreenshotFileName | strava-screenshot.py:67 | a name exists exactly when the date text parses, and it is the date's `YYYYMMDD` followed by `.png` |
| StravaScreenshot.ScreenshotFileNameDropsHyphens | strava-screenshot.py:67 | for a rendered date, the name is the text with its hyphens removed plus `.png` |
| StravaScreenshot.Days | strava-screenshot.py:94-98 | there are (end - start + 1) days, or none when the start is later, and every one is valid |
| StravaScreenshot.DaysAt | strava-screenshot.py:96-98 | the k-th day is k days after the start |
| StravaScreenshot.DaysAtOrdinal | strava-screenshot.py:96-98 | the day n days after the start, while not past the end, is the n-th of the range |
| StravaScreenshot.DaysPastEnd | strava-screenshot.py:96 | reaching a day past the end leaves exactly the range's length behind |
| StravaScreenshot.DaysEmpty | strava-screenshot.py:94-96 | the range is empty exactly when the start is later than the end |
| StravaScreenshot.DaysEndpoints | strava-screenshot.py:94-98 | otherwise the range starts at the start and ends at the end |
| StravaScreenshot.DaysConsecutive | strava-screenshot.py:98 | each day is the calendar successor of the one before it |
| StravaScreenshot.DaysIncreasing | strava-screenshot.py:98 | the days are strictly increasing, so there are no duplicates |
| StravaScreenshot.DaysCover | strava-screenshot.py:96-98 | a valid date is in the range exactly when it lies between the start and the end |
| StravaScreenshot.LeapDayParsing | strava-screenshot.py:90-91 | 2024-02-29 parses and 2023-02-29 raises |
| StravaScreenshot.LeapDayInRange | strava-screenshot.py:98 | the range from 2024-02-28 to 2024-03-01 passes through 29 February |
| StravaScreenshot.Rendered | strava-screenshot.py:97 | each element is the `YYYY-MM-DD` rendering of the corresponding day |
| StravaScreenshot.GenerateDateRange | strava-screenshot.py:86-100 | an invalid start raises, else an invalid end raises; otherwise the result is the rendering of every day of the range, except that a range ending on 9999-12-31 overflows |
| CreateVideo.FindDigitRun | create_video.py:55 | the leftmost start, from a position on, of eight consecutive digits |
| CreateVideo.DateToken | create_video.py:55-56 | no token exactly when the stem has no eight-digit run; otherwise the leftmost run |
| CreateVideo.DateOfStem | create_video.py:55-57 | no token exactly when there is no eight-digit run; a date whose `%Y%m%d` rendering is the token; or the token when `strptime` rejects it |
| CreateVideo.Thickness | create_video.py:46 | at least 1; 1 below height 1000; otherwise the height divided by 500, rounded down |
| CreateVideo.PlaceLabel | create_video.py:67-81 | the backdrop is the text box grown by 5 on every side, so it is 10 wider and 10 taller than the text; it ends 15 pixels from the right and bottom edges, and the text starts 20 pixels from them |
| CreateVideo.SettingsFor | create_video.py:32-46 | width and height from the first image, and the thickness `Thickness` gives for its height |
| CreateVideo.FrameFor | create_video.py:52-109 | fails exactly on a token that is not a date; otherwise the frame is the file's image, labelled exactly when a token exists, with the rendered date, the run's thickness, and the layout `PlaceLabel` gives for the first image's size and the measured text |
| CreateVideo.Compose | create_video.py:49-109 | frame i comes from file i; all files give frames unless a token fails, and then the frames stop at that file |
| CreateVideo.ComposeStep | create_video.py:49-109 | one more file with a frame appends that frame |
| CreateVideo.ComposeStopsAt | create_video.py:57 | the first failing token ends the frames for the whole listing |
| CreateVideo.MakeFrame | create_video.py:52-106 | the loop body for one file computes what `FrameFor` specifies |
| CreateVideo.VideoWriter.constructor | create_video.py:36-41 | a writer with the given size and rate, no frames, open |
| CreateVideo.VideoWriter.Write | create_video.py:109 | appends the frame while open; nothing else changes |
| CreateVideo.VideoWriter.Release | create_video.py:112 | closes the writer and keeps its frames |
| CreateVideo.CreateVideoFromImages | create_video.py:7-112 | no PNG file means no writer; otherwise the writer has the first image's size and the frames `Compose` gives, and is released exactly when no token failed |
| CreateVideo.UnlabelledWithoutToken | create_video.py:55-56 | a file with no eight-digit run in its stem becomes its own image, unlabelled |
| CreateVideo.ScreenshotRoundTrip | create_video.py:55-58 | a screenshot named for a day is a PNG whose stem is read back as that day, and its frame is labelled with that day's rendering |
| ImageCropper.Trunc | image-cropper.py:117 | `int()` rounds toward zero, for negative values too |
| ImageCropper.TruncMonotone | image-cropper.py:107-117 | truncation preserves order |
| ImageCropper.ScaleFor | image-cropper.py:21 | the scale is at most 1 and at most each ratio, and is one of them |
| ImageCropper.DisplayImageFor | image-cropper.py:23-28 | resized exactly when the scale is below 1; otherwise an identical copy |
| ImageCropper.ScaledSize | image-cropper.py:24-25 | the resized side is the scaled side truncated, and never longer than the original |
| ImageCropper.TruncWithin | image-cropper.py:24-25 | a value between 0 and n truncates to a number between 0 and n |
| ImageCropper.ScaledBelow | image-cropper.py:24-25 | scaling by at most 1 does not lengthen |
| ImageCropper.ToImage | image-cropper.py:107-110 | a canvas coordinate divided by the scale and truncated toward zero: the floor for coordinates on the canvas, the ceiling for negative ones, so never positive |
| ImageCropper.ToImageMonotone | image-cropper.py:107-110 | mapping canvas coordinates back to image pixels preserves order |
| ImageCropper.SelectionBox | image-cropper.py:105-117 | left <= right and top <= bottom; each corner is the min or max of the two points mapped back and truncated |
| ImageCropper.SelectionBoxDirectionFree | image-cropper.py:107-110 | dragging in any of the four directions gives the same rectangle |
| ImageCropper.SelectionBoxUnscaled | image-cropper.py:107-117 | at scale 1 the rectangle is the dragged one |
| ImageCropper.Pressed | image-cropper.py:87-91 | only the start point changes |
| ImageCropper.Updated | image-cropper.py:105-117 | records the rectangle from the start point; without a start point nothing changes |
| ImageCropper.Dragged | image-cropper.py:93-100 | draws the outline from the start point to the pointer and records the rectangle; without a start point nothing changes |
| ImageCropper.Cleared | image-cropper.py:119-123 | the rectangle is forgotten and nothing else changes |
| ImageCropper.Confirmed | image-cropper.py:125-127 | the loop is told to stop exactly when a rectangle exists; nothing else changes |
| ImageCropper.Handle | image-cropper.py:81-85 | the callback bound to each event: only a confirm with a rectangle makes the loop quit, a reset forgets the rectangle, and a press or confirm keeps it |
| ImageCropper.RunLoop | image-cropper.py:130 | `mainloop` handles nothing once told to quit, and it only ends by quitting if a confirm was among the events |
| ImageCropper.HandleKeepsConsistent | image-cropper.py:87-127 | every callback keeps a recorded rectangle normalised and stops only with a rectangle |
| ImageCropper.RunLoopKeepsConsistent | image-cropper.py:129-132 | so does any sequence of events until the loop ends |
| ImageCropper.SelectorQuitsWithRectangle | image-cropper.py:125-157 | a loop that ends by `quit` has a rectangle, so the "no selection" return of `crop_images` is never taken |
| ImageCropper.UnconfirmedRectangleIsNotUsed | image-cropper.py:125-132 | dragging out a rectangle and closing the window does not end the loop by `quit` |
| ImageCropper.RunLoopStopsAtConfirm | image-cropper.py:125-132 | a confirm while a rectangle exists ends the loop, and later events are not handled |
| ImageCropper.CropSelector.constructor | image-cropper.py:8-47 | the scale rule, the displayed image, and no start point, outline or rectangle |
| ImageCropper.CropSelector.OnPress | image-cropper.py:87-91 | the new state is `Pressed` of the old |
| ImageCropper.CropSelector.OnDrag | image-cropper.py:93-100 | the new state is `Dragged` of the old |
| ImageCropper.CropSelector.OnRelease | image-cropper.py:102-103 | the new state is `Updated` of the old |
| ImageCropper.CropSelector.UpdateCoordLabel | image-cropper.py:105-117 | the new state is `Updated` of the old |
| ImageCropper.CropSelector.ResetSelection | image-cropper.py:119-123 | the new state is `Cleared` of the old |
| ImageCropper.CropSelector.ConfirmSelection | image-cropper.py:125-127 | the new state is `Confirmed` of the old |
| ImageCropper.CropSelector.Dispatch | image-cropper.py:81-85 | each event runs the callback bound to it |
| ImageCropper.CropSelector.GetCoordinates | image-cropper.py:129-132 | the state is the one the event loop reaches; after a `quit` the rectangle recorded then is returned, and when the window was closed `root.destroy()` fails |
| ImageCropper.CropAll | image-cropper.py:162-170 | one result per file, in order and under its own name; each saved file uses the same bounds; a failure does not stop the rest |
| ImageCropper.CropEach | image-cropper.py:162-170 | the loop over the files computes what `CropAll` specifies |
| ImageCropper.CropImages | image-cropper.py:134-170 | no PNG file returns before the selector opens; a closed window raises and crops nothing; no rectangle returns without cropping; only after a confirmed `quit` is every file cropped with the rectangle it confirmed |

## Left out

- Keyboard and browser automation, screen capture, waits and directory creation are I/O (`take_strava_screenshot` apart from line 67, and the `main` functions). The monitor list is an input.
- Tk widgets, canvas drawing and labels are not modelled, nor is Tk's binding mechanism. The callbacks bound at `image-cropper.py:81-85` are `Handle` and `CropSelector.Dispatch`, and the selector is its state plus a sequence of events.
- PIL's `open`, `resize`, `crop` and `save` are foreign calls. Each file's crop is a recorded result, and `canCrop` says whether it succeeds.
- OpenCV's `imread`, `getTextSize`, `putText`, `rectangle` and `VideoWriter` encoding are foreign calls. The `Toolkit` functions stand in for them, and the writer only appends.
- The 60% backdrop blend and `font_scale` are floating-point pixel arithmetic.
- The screen-fit ratios (`image-cropper.py:15-20`) are floating-point. They are inputs and must be positive; a screen 100 pixels or less would make them zero or negative, and that is not modelled.
- ImageCropper.ToImage: the real division stands in for Python's float division, so rounding at exact pixel boundaries is not modelled.
- The locale month names of `%B %d, %Y` depend on the locale. The display string is `Toolkit.render`, a function of the date.
- DateFormat.Pad4: years below 1000 are zero-padded to four digits. Some C libraries render them with fewer digits under `%Y`.
- Paths are POSIX paths: `*.png` is matched case-sensitively and names are ordered by code point. On Windows, `glob` also yields `.PNG` names and paths compare case-insensitively.
- Only ASCII digits are digits. Python's `\d` and `strptime` also accept other Unicode decimal digits.
- `cv2.imread` returning `None` for an unreadable file is not modelled. A later image whose size differs from the first is not modelled either.
- A Tk callback that raises because there is no start point leaves the state unchanged. This applies to a motion or release event without a press.
- The user's events are a finite sequence. Its end without a confirm stands for the window being closed, after which `root.destroy()` raises. Other ways Tk could stop the loop are not modelled.
- Printing and progress messages are not modelled.
