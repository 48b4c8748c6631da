/**
 * The image viewer window's state machine: the file list it builds at
 * start-up, the selected index, the at-most-one resident bitmap, the zoom
 * factor and step, the image box's location and size, the drag-to-pan
 * gesture, and the key bindings. The cursor position and the window state
 * arrive as parameters of the events that read them. The client area's size
 * is the field `client`: the resize events and the fullscreen switch store
 * their new size there, and the other events read the stored value.
 */
module ViewerForm {
  import opened Wrappers
  import opened Text
  import opened Settings
  import opened Viewport
  import opened Catalog

  /** The environment the viewer calls into, as total functions. */
  datatype Platform = Platform(
    listFiles: string -> Option<seq<string>>,  // top-level files of a directory; None when enumeration throws
    fileName: string -> string,                // file name part of a path
    upper: char -> char,                       // per-character upper-casing of ordinal case-insensitive comparison
    nameLeq: (string, string) -> bool,         // default string comparer: "sorts no later than"
    decode: string -> Decoded)                 // bitmap decoder: size, or the exception's message

  /** The message boxes the viewer shows. */
  datatype Notice = ScanFailed(path: Option<string>) | FileNotFound(file: string)

  datatype WindowState = Normal | Minimized | Maximized

  datatype Key = Escape | Down | Right | Up | Left | Subtract | Add | Home | End | F11 | F5 | OtherKey

  /** What a key press does. */
  datatype Command =
    | GoNext | GoPrevious | GoFirst | GoLast
    | ZoomInBy(max: bool) | ZoomOutBy(fitToScreen: bool)
    | SwitchFullscreen | SwitchSlideshow | CloseWindow | Ignore

  /**
   * The key binding. Escape stops a running slideshow first, else leaves
   * fullscreen, else closes the window; Control turns `-` into fit-to-window
   * and `+` into full resolution.
   */
  function Dispatch(key: Key, control: bool, slideshowRunning: bool, borderless: bool): (c: Command)
    ensures key == Escape ==> (c == SwitchSlideshow <==> slideshowRunning)
    ensures key == Escape ==> (c == SwitchFullscreen <==> !slideshowRunning && borderless)
    ensures key == Escape ==> (c == CloseWindow <==> !slideshowRunning && !borderless)
    ensures key == F5 ==> c == SwitchSlideshow
    ensures key == F11 ==> c == SwitchFullscreen
    ensures c == CloseWindow ==> key == Escape
    ensures (key == Down || key == Right) <==> c == GoNext
    ensures (key == Up || key == Left) <==> c == GoPrevious
    ensures key == Home <==> c == GoFirst
    ensures key == End <==> c == GoLast
    ensures key == Subtract <==> c == ZoomOutBy(control)
    ensures key == Add <==> c == ZoomInBy(control)
    ensures key == OtherKey <==> c == Ignore
  {
    match key
    case Escape =>
      if slideshowRunning then SwitchSlideshow
      else if borderless then SwitchFullscreen
      else CloseWindow
    case Down => GoNext
    case Right => GoNext
    case Up => GoPrevious
    case Left => GoPrevious
    case Subtract => ZoomOutBy(control)
    case Add => ZoomInBy(control)
    case Home => GoFirst
    case End => GoLast
    case F11 => SwitchFullscreen
    case F5 => SwitchSlideshow
    case OtherKey => Ignore
  }

  /** The directory listing GetFiles works from; a missing path makes the enumeration throw. */
  function Listing(path: Option<string>, platform: Platform): Option<seq<string>> {
    if path.Some? then platform.listFiles(path.value) else None
  }

  /** One entry per listed path, in listing order; none when the listing failed. */
  function Scan(listing: Option<seq<string>>, fileName: string -> string): seq<Entry> {
    if listing.None? then []
    else seq(|listing.value|, i requires 0 <= i < |listing.value| => NewEntry(listing.value[i], fileName))
  }

  /** Freshly scanned entries hold no bitmap. */
  lemma ScanHoldsNothing(listing: Option<seq<string>>, fileName: string -> string)
    ensures Holders(Scan(listing, fileName)) == {}
  {
    var s := Scan(listing, fileName);
    forall j | 0 <= j < |s| ensures j !in Holders(s) {
      assert s[j] == NewEntry(listing.value[j], fileName);
    }
  }

  /** The message boxes GetFiles shows: a failed enumeration, then an explicit file not found. */
  function GetFilesNotices(path: Option<string>, listingFailed: bool, file: Option<string>, kept: Option<string>): seq<Notice> {
    (if listingFailed then [ScanFailed(path)] else [])
    + (if file.Some? && kept.None? then [FileNotFound(file.value)] else [])
  }

  /** The entries for a listing, one appended per path in listing order. */
  method ScanPaths(paths: seq<string>, fileName: string -> string) returns (scanned: seq<Entry>)
    ensures scanned == Scan(Some(paths), fileName)
  {
    scanned := [];
    for i := 0 to |paths|
      invariant |scanned| == i
      invariant forall j :: 0 <= j < i ==> scanned[j] == NewEntry(paths[j], fileName)
    {
      scanned := scanned + [NewEntry(paths[i], fileName)];
    }
  }

  /** The search loop: the index of the first entry whose full path equals `file` ignoring case. */
  method FindFile(files: seq<Entry>, file: string, upper: char -> char) returns (found: Option<nat>)
    ensures found.Some? ==> found.value < |files| && Matches(files[found.value], file, upper)
    ensures found.Some? ==> forall j :: 0 <= j < found.value ==> !Matches(files[j], file, upper)
    ensures found.None? ==> forall j :: 0 <= j < |files| ==> !Matches(files[j], file, upper)
  {
    found := None;
    var i := 0;
    while i < |files|
      invariant 0 <= i <= |files|
      invariant forall j :: 0 <= j < i ==> !Matches(files[j], file, upper)
    {
      if !EqualsIgnoreCase(files[i].fullPath, file, upper) {
        i := i + 1;
        continue;
      }
      found := Some(i);
      break;
    }
  }

  /**
   * The factor `+` leaves: exactly 1 with `max`; else, when a factor and a
   * step are recorded, one step less but never below 1; else unchanged.
   */
  function ZoomInFactor(zoom: Option<real>, step: Option<real>, max: bool): (r: Option<real>)
    ensures max ==> r == Some(1.0)
    ensures !max && zoom.Some? && step.Some? ==>
              r.Some? && r.value >= 1.0 && (r.value == zoom.value - step.value || r.value == 1.0)
    ensures !max && (zoom.None? || step.None?) ==> r == zoom
  {
    if max then Some(1.0)
    else if zoom.Some? && step.Some? then Some(StepIn(zoom.value, step.value))
    else zoom
  }

  /**
   * The factor `-` leaves: the fit ratio `fit` with `fitToScreen`; else, when
   * a factor and a step are recorded, one step more but never above `fit`;
   * else unchanged.
   */
  function ZoomOutFactor(zoom: Option<real>, step: Option<real>, fit: real, fitToScreen: bool): (r: Option<real>)
    ensures fitToScreen ==> r == Some(fit)
    ensures !fitToScreen && zoom.Some? && step.Some? ==>
              r.Some? && r.value <= fit && (r.value == zoom.value + step.value || r.value == fit)
    ensures !fitToScreen && (zoom.None? || step.None?) ==> r == zoom
  {
    if fitToScreen then Some(fit)
    else if zoom.Some? && step.Some? then Some(StepOut(zoom.value, step.value, fit))
    else zoom
  }

  predicate InRange(index: Option<nat>, count: nat) {
    index.Some? ==> index.value < count
  }

  predicate Positive(r: Option<real>) {
    r.Some? ==> r.value > 0.0
  }

  class Viewer {
    const platform: Platform
    var options: Options
    var messages: seq<Notice>                // message boxes shown so far
    var files: seq<Entry>
    var fileIndex: Option<nat>               // selected entry
    var fileIndexToClear: Option<nat>        // entry whose bitmap to release once the next one is shown
    var zoomFactor: Option<real>
    var zoomFactorStep: Option<real>
    var client: Dims                         // client area of the box that centres the image
    var boxLocation: Point                   // image box location
    var boxSize: Size                        // image box size
    var imageIsMoving: bool                  // a pan gesture is active
    var imageCursorPosition: Option<Point>   // cursor position where the gesture began
    var imageOriginalPosition: Option<Point> // image box location where the gesture began
    var slideshowRunning: bool               // the slideshow timer is enabled
    var borderless: bool                     // the window is fullscreen (no border)
    var lastWindowState: WindowState
    var closed: bool

    /** Everything but where bitmaps are resident. */
    ghost predicate Consistent()
      reads this
    {
      && InRange(fileIndex, |files|)
      && InRange(fileIndexToClear, |files|)
      && Positive(zoomFactor)
      && Positive(zoomFactorStep)
      && (imageIsMoving <==> imageCursorPosition.Some?)
      && (imageIsMoving <==> imageOriginalPosition.Some?)
    }

    /** The object invariant: consistent, and a bitmap is held by the selected entry only. */
    ghost predicate Valid()
      reads this
    {
      Consistent() && Holders(files) <= Elements(fileIndex)
    }

    /** The selected entry's bitmap, if it has one. */
    function CurrentBitmap(): Option<Dims>
      reads this
    {
      if fileIndex.Some? && fileIndex.value < |files| then files[fileIndex.value].bitmap else None
    }

    /** The image box shows `bmp` at `zoom`, centred. */
    ghost predicate LaidOut(bmp: Dims, zoom: real)
      requires zoom > 0.0
      reads this
    {
      boxSize == DisplaySize(bmp, zoom) && boxLocation == Centre(client, boxSize)
    }

    /**
     * The image box shows `bmp` fitted to the client area `c`: the fit's
     * factor, size and centred location; the step is the fit's when the
     * image overflows, else it stays `step0`.
     */
    ghost predicate FittedTo(bmp: Dims, c: Dims, step0: Option<real>)
      reads this
    {
      var f := Fit(bmp, c);
      && zoomFactor == Some(f.zoom)
      && zoomFactorStep == (if f.step.Some? then f.step else step0)
      && boxSize == f.size && boxLocation == Centre(c, f.size)
    }

    /**
     * The state after ShowFile selected `current` in a list that was `files0`
     * with `pending0` waiting to be released and the box at `location0`/`size0`:
     * the entry is loaded and the pending one released; on success the image
     * is fitted to the client area and centred, on failure zoom and step are
     * cleared and the box stays where it was.
     */
    ghost predicate AfterShowing(files0: seq<Entry>, current: nat, pending0: Option<nat>, location0: Point, size0: Size)
      reads this
    {
      && current < |files0| && InRange(pending0, |files0|)
      && (files, fileIndexToClear) == Shown(files0, current, pending0, platform.decode)
      && var e := Load(files0[current], platform.decode);
         if e.bitmap.Some? then
           var f := Fit(e.bitmap.value, client);
           && zoomFactor == Some(f.zoom) && zoomFactorStep == f.step
           && boxSize == f.size && boxLocation == Centre(client, f.size)
         else
           zoomFactor.None? && zoomFactorStep.None? && boxLocation == location0 && boxSize == size0
    }

    /** Nothing the display depends on changed: list, selection, zoom, client area and image box. */
    twostate predicate SameDisplay()
      reads this
    {
      && files == old(files) && fileIndex == old(fileIndex) && fileIndexToClear == old(fileIndexToClear)
      && zoomFactor == old(zoomFactor) && zoomFactorStep == old(zoomFactorStep)
      && client == old(client) && boxLocation == old(boxLocation) && boxSize == old(boxSize)
    }

    /** Entry `target` is selected and shown in the same client area, with the previous selection pending release. */
    twostate predicate NavigatedTo(target: nat)
      reads this
    {
      fileIndex == Some(target) && client == old(client) && AfterShowing(old(files), target, old(fileIndex), old(boxLocation), old(boxSize))
    }

    /**
     * The factor of the resident bitmap `bmp` became `zoom`, and the box is
     * laid out for it (left where it was without a factor); the list, the
     * selection, the step and the client area are as they were.
     */
    twostate predicate Rezoomed(bmp: Dims, zoom: Option<real>)
      reads this
    {
      && files == old(files) && fileIndex == old(fileIndex) && fileIndexToClear == old(fileIndexToClear)
      && zoomFactorStep == old(zoomFactorStep) && client == old(client)
      && zoomFactor == zoom
      && (zoom.Some? ==> zoom.value > 0.0 && LaidOut(bmp, zoom.value))
      && (zoom.None? ==> boxLocation == old(boxLocation) && boxSize == old(boxSize))
    }

    /**
     * What a command of the key binding does: navigation selects and shows
     * its target (nothing on an empty list); `+` and `-` set the factor as
     * ZoomInFactor and ZoomOutFactor say (nothing without a resident bitmap);
     * the fullscreen switch fits the image to the new client area; the
     * slideshow switch, closing and an ignored key leave the display alone.
     * The pan gesture, the options, the messages and the window state never
     * change.
     */
    twostate predicate Performed(command: Command, newClient: Dims)
      requires old(Valid())
      reads this
    {
      && imageIsMoving == old(imageIsMoving) && imageCursorPosition == old(imageCursorPosition)
      && imageOriginalPosition == old(imageOriginalPosition)
      && options == old(options) && messages == old(messages) && lastWindowState == old(lastWindowState)
      && match command
         case GoNext =>
           if old(files) == [] then SameDisplay() else NavigatedTo(NextIndex(old(fileIndex), |old(files)|))
         case GoPrevious =>
           if old(files) == [] then SameDisplay() else NavigatedTo(PreviousIndex(old(fileIndex), |old(files)|))
         case GoFirst =>
           if old(files) == [] then SameDisplay() else NavigatedTo(0)
         case GoLast =>
           if old(files) == [] then SameDisplay() else NavigatedTo(|old(files)| - 1)
         case ZoomInBy(max) =>
           if old(CurrentBitmap()).None? then SameDisplay()
           else Rezoomed(old(CurrentBitmap()).value, ZoomInFactor(old(zoomFactor), old(zoomFactorStep), max))
         case ZoomOutBy(fitToScreen) =>
           if old(CurrentBitmap()).None? then SameDisplay()
           else
             var fit := FitRatio(old(CurrentBitmap()).value, old(client));
             Rezoomed(old(CurrentBitmap()).value, ZoomOutFactor(old(zoomFactor), old(zoomFactorStep), fit, fitToScreen))
         case SwitchFullscreen =>
           && client == newClient
           && files == old(files) && fileIndex == old(fileIndex) && fileIndexToClear == old(fileIndexToClear)
           && if old(CurrentBitmap()).None? then
                && zoomFactor == old(zoomFactor) && zoomFactorStep == old(zoomFactorStep)
                && boxLocation == old(boxLocation) && boxSize == old(boxSize)
              else FittedTo(old(CurrentBitmap()).value, newClient, old(zoomFactorStep))
         case _ => SameDisplay()
    }

    /**
     * Opening the viewer: the field initialisers, the file list, and the
     * start-up fullscreen and slideshow switches the options ask for.
     */
    constructor(options: Options, platform: Platform, client: Dims, draw: nat -> int)
      ensures Valid()
      ensures this.platform == platform && this.client == client
      ensures files == Arrange(Scan(Listing(options.path, platform), platform.fileName), options.sortOrder, platform.nameLeq, draw)
      ensures fileIndex == StartIndex(files, options.file, platform.upper)
      ensures this.options == options.(file := KeptFile(files, options.file, platform.upper))
      ensures messages == GetFilesNotices(options.path, Listing(options.path, platform).None?, options.file, this.options.file)
      ensures Holders(files) == {} && fileIndexToClear.None?
      ensures zoomFactor.None? && zoomFactorStep.None? && !imageIsMoving && !closed
      ensures borderless == options.setFullscreen && slideshowRunning == options.startSlideshow
    {
      this.platform := platform;
      this.options := options;
      this.client := client;
      messages := [];
      files := [];
      fileIndex := None;
      fileIndexToClear := None;
      zoomFactor := None;
      zoomFactorStep := None;
      boxLocation := Point(0, 0);
      boxSize := Size(0, 0);
      imageIsMoving := false;
      imageCursorPosition := None;
      imageOriginalPosition := None;
      slideshowRunning := false;
      borderless := false;
      lastWindowState := Maximized;
      closed := false;
      new;
      GetFiles(draw);
      assert CurrentBitmap().None? by {
        if fileIndex.Some? {
          assert fileIndex.value !in Holders(files);
        }
      }
      if options.setFullscreen {
        ToggleFullscreen(client);
      }
      if options.startSlideshow {
        ToggleSlideshow();
      }
    }

    /**
     * Builds the file list: scan, sort, then select the explicit file's first
     * case-insensitive match, falling back to the first entry (and forgetting
     * the explicit file) when there is none.
     */
    method GetFiles(draw: nat -> int)
      requires Valid() && files == [] && fileIndex.None?
      modifies this`files, this`fileIndex, this`options, this`messages
      ensures Valid()
      ensures files == Arrange(Scan(Listing(old(options).path, platform), platform.fileName), old(options).sortOrder, platform.nameLeq, draw)
      ensures fileIndex == StartIndex(files, old(options).file, platform.upper)
      ensures options == old(options).(file := KeptFile(files, old(options).file, platform.upper))
      ensures messages == old(messages) + GetFilesNotices(old(options).path, Listing(old(options).path, platform).None?, old(options).file, options.file)
      ensures Holders(files) == {}
    {
      var listing := Listing(options.path, platform);
      var scanned: seq<Entry> := [];
      if listing.Some? {
        scanned := ScanPaths(listing.value, platform.fileName);
      } else {
        messages := messages + [ScanFailed(options.path)];
      }
      assert scanned == Scan(listing, platform.fileName);
      ScanHoldsNothing(listing, platform.fileName);
      ArrangeKeepsNoBitmaps(scanned, options.sortOrder, platform.nameLeq, draw);
      files := Arrange(scanned, options.sortOrder, platform.nameLeq, draw);

      SelectStart();
    }

    /**
     * The selection step of building the file list: the explicit file's first
     * case-insensitive match, else the first entry; an explicit file without
     * a match is reported and forgotten.
     */
    method SelectStart()
      requires fileIndex.None?
      modifies this`fileIndex, this`options, this`messages
      ensures fileIndex == StartIndex(files, old(options).file, platform.upper)
      ensures options == old(options).(file := KeptFile(files, old(options).file, platform.upper))
      ensures messages == old(messages) + (if old(options).file.Some? && options.file.None? then [FileNotFound(old(options).file.value)] else [])
    {
      if options.file.None? {
        if |files| > 0 {
          fileIndex := Some(0);
        }
        return;
      }

      var file := options.file.value;
      fileIndex := FindFile(files, file, platform.upper);

      if fileIndex.None? {
        messages := messages + [FileNotFound(file)];
        options := options.(file := None);
      }

      if fileIndex.None? && |files| > 0 {
        fileIndex := Some(0);
      }
    }

    /**
     * Shows the selected entry: loads its bitmap if it has none, fits it to
     * the client area, then releases the pending entry's bitmap.
     */
    method ShowFile()
      requires Consistent()
      requires Holders(files) <= Elements(fileIndex) + Elements(fileIndexToClear)
      requires fileIndex.None? ==> Valid()
      modifies this`files, this`fileIndexToClear, this`zoomFactor, this`zoomFactorStep, this`boxLocation, this`boxSize
      ensures Valid()
      ensures SameFiles(old(files), files)
      ensures fileIndex.None? ==> unchanged(this)
      ensures fileIndex.Some? ==> AfterShowing(old(files), fileIndex.value, old(fileIndexToClear), old(boxLocation), old(boxSize))
    {
      if fileIndex.None? {
        return;
      }
      var current := fileIndex.value;
      ghost var files0, pending0 := files, fileIndexToClear;
      ShownResidency(files, current, fileIndexToClear, platform.decode);

      zoomFactor := None;
      zoomFactorStep := None;

      files := files[current := Load(files[current], platform.decode)];
      var entry := files[current];

      if entry.bitmap.Some? {
        FitToClient(entry.bitmap.value);
      }

      ClearPrevious();
      assert (files, fileIndexToClear) == Shown(files0, current, pending0, platform.decode);
    }

    /**
     * Fits `bmp` to the client area and centres it: factor 1 when it fits,
     * else the fit ratio with a tenth of it as the new step.
     */
    method FitToClient(bmp: Dims)
      requires Positive(zoomFactorStep)
      modifies this`zoomFactor, this`zoomFactorStep, this`boxLocation, this`boxSize
      ensures FittedTo(bmp, client, old(zoomFactorStep))
      ensures Positive(zoomFactor) && Positive(zoomFactorStep)
    {
      var f := Fit(bmp, client);
      zoomFactor := Some(f.zoom);
      if f.step.Some? {
        zoomFactorStep := f.step;
      }
      boxLocation := Centre(client, f.size);
      boxSize := f.size;
    }

    /** Dispose of the pending entry's bitmap, if it holds one, and forget the pending index. */
    method ClearPrevious()
      requires InRange(fileIndexToClear, |files|)
      modifies this`files, this`fileIndexToClear
      ensures (files, fileIndexToClear) == Release(old(files), old(fileIndexToClear))
    {
      if fileIndexToClear.None? || files[fileIndexToClear.value].bitmap.None? {
        return;
      }
      var k := fileIndexToClear.value;
      files := files[k := files[k].(bitmap := None)];
      fileIndexToClear := None;
    }

    /** Home: select the first entry. A no-op on an empty list. */
    method GoToFirstImage()
      requires Valid()
      modifies this`files, this`fileIndex, this`fileIndexToClear, this`zoomFactor, this`zoomFactorStep, this`boxLocation, this`boxSize
      ensures Valid()
      ensures SameFiles(old(files), files)
      ensures old(files) == [] ==> unchanged(this)
      ensures old(files) != [] ==>
                fileIndex == Some(0)
                && AfterShowing(old(files), 0, old(fileIndex), old(boxLocation), old(boxSize))
    {
      if |files| == 0 {
        return;
      }
      fileIndexToClear := fileIndex;
      fileIndex := Some(0);
      ShowFile();
    }

    /** End: select the last entry. A no-op on an empty list. */
    method GoToLastImage()
      requires Valid()
      modifies this`files, this`fileIndex, this`fileIndexToClear, this`zoomFactor, this`zoomFactorStep, this`boxLocation, this`boxSize
      ensures Valid()
      ensures SameFiles(old(files), files)
      ensures old(files) == [] ==> unchanged(this)
      ensures old(files) != [] ==>
                fileIndex == Some(|files| - 1)
                && AfterShowing(old(files), |files| - 1, old(fileIndex), old(boxLocation), old(boxSize))
    {
      if |files| == 0 {
        return;
      }
      fileIndexToClear := fileIndex;
      fileIndex := Some(|files| - 1);
      ShowFile();
    }

    /** Down, Right and each slideshow tick: select the next entry, wrapping to the first. */
    method GoToNextImage()
      requires Valid()
      modifies this`files, this`fileIndex, this`fileIndexToClear, this`zoomFactor, this`zoomFactorStep, this`boxLocation, this`boxSize
      ensures Valid()
      ensures SameFiles(old(files), files)
      ensures old(files) == [] ==> unchanged(this)
      ensures old(files) != [] ==>
                fileIndex == Some(NextIndex(old(fileIndex), |files|))
                && AfterShowing(old(files), fileIndex.value, old(fileIndex), old(boxLocation), old(boxSize))
    {
      if |files| == 0 {
        return;
      }
      fileIndexToClear := fileIndex;
      var i := fileIndex.GetOr(0);
      i := i + 1;
      if i == |files| {
        i := 0;
      }
      fileIndex := Some(i);
      ShowFile();
    }

    /** Up, Left: select the previous entry, wrapping to the last. */
    method GoToPreviousImage()
      requires Valid()
      modifies this`files, this`fileIndex, this`fileIndexToClear, this`zoomFactor, this`zoomFactorStep, this`boxLocation, this`boxSize
      ensures Valid()
      ensures SameFiles(old(files), files)
      ensures old(files) == [] ==> unchanged(this)
      ensures old(files) != [] ==>
                fileIndex == Some(PreviousIndex(old(fileIndex), |files|))
                && AfterShowing(old(files), fileIndex.value, old(fileIndex), old(boxLocation), old(boxSize))
    {
      if |files| == 0 {
        return;
      }
      fileIndexToClear := fileIndex;
      var i: int := fileIndex.GetOr(0);
      i := i - 1;
      if i == -1 {
        i := |files| - 1;
      }
      fileIndex := Some(i);
      ShowFile();
    }

    /**
     * `+`: full resolution with `max`, else one step in (not below 1) when a
     * step is recorded; then the box is resized (snapping back to full size
     * when a side falls out of range) and centred. Nothing happens without a
     * resident bitmap.
     */
    method ZoomIn(max: bool)
      requires Valid()
      modifies this`zoomFactor, this`boxLocation, this`boxSize
      ensures Valid()
      ensures CurrentBitmap().None? ==> unchanged(this)
      ensures CurrentBitmap().Some? ==>
                zoomFactor == ZoomInFactor(old(zoomFactor), zoomFactorStep, max)
      ensures CurrentBitmap().Some? && zoomFactor.Some? ==> LaidOut(CurrentBitmap().value, zoomFactor.value)
      ensures zoomFactor.None? ==> boxLocation == old(boxLocation) && boxSize == old(boxSize)
    {
      if fileIndex.None? || files[fileIndex.value].bitmap.None? {
        return;
      }
      var bmp := files[fileIndex.value].bitmap.value;

      if max {
        zoomFactor := Some(1.0);
      } else if zoomFactor.Some? && zoomFactorStep.Some? {
        zoomFactor := Some(StepIn(zoomFactor.value, zoomFactorStep.value));
      }

      if zoomFactor.None? {
        return;
      }
      var size := DisplaySize(bmp, zoomFactor.value);
      boxLocation := Centre(client, size);
      boxSize := size;
    }

    /**
     * `-`: the fit ratio for the current client area with `fitToScreen`, else
     * one step out (not beyond that fit ratio) when a step is recorded; then
     * the box is resized and centred as for ZoomIn.
     */
    method ZoomOut(fitToScreen: bool)
      requires Valid()
      modifies this`zoomFactor, this`boxLocation, this`boxSize
      ensures Valid()
      ensures CurrentBitmap().None? ==> unchanged(this)
      ensures CurrentBitmap().Some? ==>
                zoomFactor == ZoomOutFactor(old(zoomFactor), zoomFactorStep, FitRatio(CurrentBitmap().value, client), fitToScreen)
      ensures CurrentBitmap().Some? && zoomFactor.Some? ==> LaidOut(CurrentBitmap().value, zoomFactor.value)
      ensures zoomFactor.None? ==> boxLocation == old(boxLocation) && boxSize == old(boxSize)
    {
      if fileIndex.None? || files[fileIndex.value].bitmap.None? {
        return;
      }
      var bmp := files[fileIndex.value].bitmap.value;
      var defaultZoomFactor := FitRatio(bmp, client);

      if fitToScreen {
        zoomFactor := Some(defaultZoomFactor);
      } else if zoomFactor.Some? && zoomFactorStep.Some? {
        zoomFactor := Some(StepOut(zoomFactor.value, zoomFactorStep.value, defaultZoomFactor));
      }

      if zoomFactor.None? {
        return;
      }
      var size := DisplaySize(bmp, zoomFactor.value);
      boxLocation := Centre(client, size);
      boxSize := size;
    }

    /** Double click on the image: fit to the window when at full resolution, else full resolution. */
    method ImageBoxMouseDoubleClick()
      requires Valid()
      modifies this`zoomFactor, this`boxLocation, this`boxSize
      ensures Valid()
      ensures CurrentBitmap().None? ==> unchanged(this)
      ensures CurrentBitmap().Some? ==>
                zoomFactor == if old(zoomFactor) == Some(1.0) then Some(FitRatio(CurrentBitmap().value, client)) else Some(1.0)
      ensures CurrentBitmap().Some? ==> LaidOut(CurrentBitmap().value, zoomFactor.value)
    {
      if zoomFactor == Some(1.0) {
        ZoomOut(true);
      } else {
        ZoomIn(true);
      }
    }

    /**
     * End of a resize, with the client area now `newClient`: the box is
     * resized for the current zoom factor and centred again.
     */
    method FormResizeEnd(newClient: Dims)
      requires Valid()
      modifies this`client, this`boxLocation, this`boxSize
      ensures Valid()
      ensures client == newClient
      ensures CurrentBitmap().Some? && zoomFactor.Some? ==> LaidOut(CurrentBitmap().value, zoomFactor.value)
      ensures CurrentBitmap().None? || zoomFactor.None? ==> boxLocation == old(boxLocation) && boxSize == old(boxSize)
    {
      client := newClient;
      if fileIndex.None? || zoomFactor.None? || files[fileIndex.value].bitmap.None? {
        return;
      }
      var bmp := files[fileIndex.value].bitmap.value;
      var size := DisplaySize(bmp, zoomFactor.value);
      boxLocation := Centre(client, size);
      boxSize := size;
    }

    /**
     * A resize event with the window now in `state`: only a change of window
     * state other than minimising re-lays the image out, as at the end of a
     * resize.
     */
    method FormResize(state: WindowState, newClient: Dims)
      requires Valid()
      modifies this`lastWindowState, this`client, this`boxLocation, this`boxSize
      ensures Valid()
      ensures lastWindowState == state
      ensures state == old(lastWindowState) || state == Minimized ==>
                client == old(client) && boxLocation == old(boxLocation) && boxSize == old(boxSize)
      ensures state != old(lastWindowState) && state != Minimized ==>
                client == newClient
                && (CurrentBitmap().Some? && zoomFactor.Some? ==> LaidOut(CurrentBitmap().value, zoomFactor.value))
                && (CurrentBitmap().None? || zoomFactor.None? ==> boxLocation == old(boxLocation) && boxSize == old(boxSize))
    {
      if state == lastWindowState {
        return;
      }
      lastWindowState := state;
      if state == Minimized {
        return;
      }
      FormResizeEnd(newClient);
    }

    /**
     * F11: switch between bordered and fullscreen; the client area becomes
     * `newClient` and a resident image is fitted to it again. When it fits,
     * the factor is 1 and the previous step is kept.
     */
    method ToggleFullscreen(newClient: Dims)
      requires Valid()
      modifies this`borderless, this`client, this`zoomFactor, this`zoomFactorStep, this`boxLocation, this`boxSize
      ensures Valid()
      ensures borderless == !old(borderless) && client == newClient
      ensures CurrentBitmap().None? ==>
                zoomFactor == old(zoomFactor) && zoomFactorStep == old(zoomFactorStep)
                && boxLocation == old(boxLocation) && boxSize == old(boxSize)
      ensures CurrentBitmap().Some? ==>
                FittedTo(CurrentBitmap().value, newClient, old(zoomFactorStep))
      ensures Performed(SwitchFullscreen, newClient)
    {
      borderless := !borderless;
      client := newClient;
      if fileIndex.None? || files[fileIndex.value].bitmap.None? {
        return;
      }
      FitToClient(files[fileIndex.value].bitmap.value);
    }

    /** F5: start or stop the slideshow timer. */
    method ToggleSlideshow()
      requires Valid()
      modifies this`slideshowRunning
      ensures Valid()
      ensures slideshowRunning == !old(slideshowRunning)
      ensures Performed(SwitchSlideshow, client)
    {
      slideshowRunning := !slideshowRunning;
    }

    /** Mouse down on the image: remember where the cursor and the box are, and start the gesture. */
    method ImageBoxMouseDown(cursor: Point)
      requires Valid()
      modifies this`imageCursorPosition, this`imageOriginalPosition, this`imageIsMoving
      ensures Valid()
      ensures imageIsMoving && imageCursorPosition == Some(cursor) && imageOriginalPosition == Some(boxLocation)
    {
      imageCursorPosition := Some(cursor);
      imageOriginalPosition := Some(boxLocation);
      imageIsMoving := true;
    }

    /** Mouse move: during a gesture the box follows the cursor one to one, unclamped. */
    method ImageBoxMouseMove(cursor: Point)
      requires Valid()
      modifies this`boxLocation
      ensures Valid()
      ensures !imageIsMoving ==> boxLocation == old(boxLocation)
      ensures imageIsMoving ==>
                var start, origin := imageCursorPosition.value, imageOriginalPosition.value;
                boxLocation == Point(origin.x + (cursor.x - start.x), origin.y + (cursor.y - start.y))
    {
      if !imageIsMoving || imageCursorPosition.None? || imageOriginalPosition.None? {
        return;
      }
      var diffX := cursor.x - imageCursorPosition.value.x;
      var diffY := cursor.y - imageCursorPosition.value.y;
      boxLocation := Point(imageOriginalPosition.value.x + diffX, imageOriginalPosition.value.y + diffY);
    }

    /** Mouse up: the gesture ends and its start state is forgotten. */
    method ImageBoxMouseUp()
      requires Valid()
      modifies this`imageCursorPosition, this`imageOriginalPosition, this`imageIsMoving
      ensures Valid()
      ensures !imageIsMoving && imageCursorPosition.None? && imageOriginalPosition.None?
    {
      imageCursorPosition := None;
      imageOriginalPosition := None;
      imageIsMoving := false;
    }

    /** A key press, run through the key binding; `newClient` is the client area should fullscreen switch. */
    method FormKeyDown(key: Key, control: bool, newClient: Dims)
      requires Valid()
      modifies this
      ensures Valid()
      ensures SameFiles(old(files), files)
      ensures closed == (old(closed) || Dispatch(key, control, old(slideshowRunning), old(borderless)) == CloseWindow)
      ensures slideshowRunning == (old(slideshowRunning) != (Dispatch(key, control, old(slideshowRunning), old(borderless)) == SwitchSlideshow))
      ensures borderless == (old(borderless) != (Dispatch(key, control, old(slideshowRunning), old(borderless)) == SwitchFullscreen))
      ensures key == Escape ==> !slideshowRunning
      ensures Performed(Dispatch(key, control, old(slideshowRunning), old(borderless)), newClient)
    {
      var command := Dispatch(key, control, slideshowRunning, borderless);
      Execute(command, newClient);
    }

    /** Carries out one command of the key binding. */
    method Execute(command: Command, newClient: Dims)
      requires Valid()
      modifies this
      ensures Valid()
      ensures SameFiles(old(files), files)
      ensures closed == (old(closed) || command == CloseWindow)
      ensures slideshowRunning == (old(slideshowRunning) != (command == SwitchSlideshow))
      ensures borderless == (old(borderless) != (command == SwitchFullscreen))
      ensures Performed(command, newClient)
    {
      if command.GoNext? || command.GoPrevious? || command.GoFirst? || command.GoLast? {
        Navigate(command, newClient);
      } else if command.ZoomInBy? || command.ZoomOutBy? {
        Zoom(command, newClient);
      } else {
        Switch(command, newClient);
      }
    }

    /** The fullscreen and slideshow switches, closing, and an ignored key. */
    method Switch(command: Command, newClient: Dims)
      requires Valid()
      requires command.SwitchFullscreen? || command.SwitchSlideshow? || command.CloseWindow? || command.Ignore?
      modifies this`borderless, this`client, this`zoomFactor, this`zoomFactorStep, this`boxLocation, this`boxSize
      modifies this`slideshowRunning, this`closed
      ensures Valid()
      ensures SameFiles(old(files), files)
      ensures closed == (old(closed) || command == CloseWindow)
      ensures slideshowRunning == (old(slideshowRunning) != (command == SwitchSlideshow))
      ensures borderless == (old(borderless) != (command == SwitchFullscreen))
      ensures Performed(command, newClient)
    {
      match command
      case SwitchFullscreen => ToggleFullscreen(newClient);
      case SwitchSlideshow => ToggleSlideshow();
      case CloseWindow => closed := true;
      case Ignore =>
    }

    /** The navigation commands of the key binding. */
    method Navigate(command: Command, newClient: Dims)
      requires Valid()
      requires command.GoNext? || command.GoPrevious? || command.GoFirst? || command.GoLast?
      modifies this`files, this`fileIndex, this`fileIndexToClear, this`zoomFactor, this`zoomFactorStep, this`boxLocation, this`boxSize
      ensures Valid()
      ensures SameFiles(old(files), files)
      ensures Performed(command, newClient)
    {
      match command
      case GoNext => GoToNextImage();
      case GoPrevious => GoToPreviousImage();
      case GoFirst => GoToFirstImage();
      case GoLast => GoToLastImage();
    }

    /** The zoom commands of the key binding. */
    method Zoom(command: Command, newClient: Dims)
      requires Valid()
      requires command.ZoomInBy? || command.ZoomOutBy?
      modifies this`zoomFactor, this`boxLocation, this`boxSize
      ensures Valid()
      ensures Performed(command, newClient)
    {
      match command
      case ZoomInBy(max) => ZoomIn(max);
      case ZoomOutBy(fit) => ZoomOut(fit);
    }
  }
}
