# PixelPeek core, modelled in Dafny

PixelPeek is a small Windows image viewer. This project models three pieces of its logic:

- **The viewer window's state machine** (`PixelPeek/Forms/ViewerForm.cs`). It covers:
  - building the file list: scan the directory, sort it alphabetically or in random order, and pick the starting entry, matching an explicit file while ignoring case;
  - navigation to the first, last, next or previous entry, with wrap-around;
  - the rule that at most one decoded bitmap stays in memory: the previous entry's bitmap is released after the new one is shown;
  - zoom in and zoom out with their clamps, and the double-click toggle between them;
  - resizing and centring the image box when the window is resized;
  - the drag-to-pan gesture;
  - the key bindings, including Escape's priority: stop the slideshow, else leave fullscreen, else close.
- **The command-line parser** (`TryParseCmdArgs` in `PixelPeek/Program.cs`).
- **The start-up dialog's run command** (`PixelPeek/Forms/StartupForm.cs`). It covers:
  - how the argument list is assembled;
  - how the Copy and Run buttons join it;
  - the rule that enables the Run button.

Layout:

- `wrappers.dfy`: `Option` stands in for the source's nullable fields.
- `text.dfy`: the .NET string operations the core relies on:
  - `char.IsWhiteSpace` and `Trim`;
  - ordinal case-insensitive equality;
  - `string.Join`;
  - decimal rendering of an `int`.
- `ordering.dfy`: LINQ `OrderBy`, written as a stable insertion sort over a given comparison.
- `settings.dfy`: the `Options` record and its defaults.
- `viewport.dfy`: image geometry:
  - the fit-to-window zoom factor;
  - the displayed size for a zoom factor, including the snap back to full size;
  - centring with C#'s truncating division;
  - the zoom-step clamps.
- `catalog.dfy`: the file list as values:
  - entries, sorting and the starting index;
  - index arithmetic for navigation;
  - the load-then-release step of showing an entry.
- `viewer.dfy`: the class `Viewer`, whose fields are the form's fields. Each event handler is a method that updates them.
- `commandline.dfy`: the parser loop, and what the resulting options are for any argument list.
- `startup.dfy`: the run-command builder, the joins, and the class `Dialog` for the dialog's state.

Inputs from the environment are parameters:

- Directory listing, file-name extraction, character upper-casing, the default string comparer and bitmap decoding are the fields of `ViewerForm.Platform`.
- Directory and file existence, and the directory part of a path, are the fields of `CommandLine.FileSystem`.
- The random sort keys are the parameter `draw`.
- The cursor position and the window state are parameters of the events that read them.
- The client area is the field `Viewer.client`. FormResize (for a real change of window state), FormResizeEnd and ToggleFullscreen set it from their parameter. ShowFile, ZoomIn, ZoomOut and the double click read the stored field.
- Whether the process start fails is a parameter of `RunCurrentSetup`.

Message boxes are recorded as a sequence of notices.

The code and the design documentation disagree in places. The model follows the code:

- The parser recognises only `-r`/`--random`. Every other argument is treated as a path.
- The parser returns `true` in every case, even when no path was given.
- Alphabetical order uses the default string comparer, not an ordinal one.
- The design says the zoom factor never drops below 1. In the code it can: ZoomOut to fit sets the fit ratio, and a stepped ZoomOut is clamped to the fit ratio. Both can be below 1. `ZoomOutFactor` states the bounds the code gives.

## Model

| member | source | states |
|---|---|---|
| Text.Trim | PixelPeek/Forms/StartupForm.cs:385-387 | the trimmed text is a slice of the text with only white space cut off on either side. It is empty exactly when the text is blank, and otherwise neither starts nor ends with white space |
| Text.TrimIdempotent | PixelPeek/Forms/StartupForm.cs:385-387 | trimming a trimmed string changes nothing |
| Text.TrimBlank | PixelPeek/Forms/StartupForm.cs:98 | a text is blank exactly when its trimmed form is blank |
| Text.JoinCons | PixelPeek/Forms/StartupForm.cs:292 | joining a head with a non-empty tail puts exactly one separator between the head and the join of the tail |
| Text.JoinLength | PixelPeek/Forms/StartupForm.cs:292 | a join is as long as all its parts plus one separator between each pair of neighbours |
| Text.DecimalString | PixelPeek/Forms/StartupForm.cs:403 | the rendering of an interval is a non-empty string of digits without a leading zero |
| Text.DecimalRoundTrip | PixelPeek/Forms/StartupForm.cs:403 | reading the rendered digits back gives the number |
| Text.DecimalInjective | PixelPeek/Forms/StartupForm.cs:403 | different intervals render differently |
| Ordering.InsertionPoint | PixelPeek/Forms/ViewerForm.cs:146 | an element goes in front of the first element it does not exceed, and after every element before it |
| Ordering.InsertAdds | PixelPeek/Forms/ViewerForm.cs:144-149 | inserting adds exactly that element, also when seen through a projection |
| Ordering.SortByPermutes | PixelPeek/Forms/ViewerForm.cs:144-149 | sorting keeps the same multiset of elements, also when seen through a projection |
| Ordering.SortByIsPermutation | PixelPeek/Forms/ViewerForm.cs:146 | the sorted list is a permutation of the input |
| Ordering.InsertSorted | PixelPeek/Forms/ViewerForm.cs:146 | under a total preorder, inserting into a sorted list keeps it sorted |
| Ordering.SortBySorted | PixelPeek/Forms/ViewerForm.cs:146 | under a total preorder, the result is sorted |
| Catalog.ArrangePermutes | PixelPeek/Forms/ViewerForm.cs:144-149 | both sort orders yield a permutation of the scanned entries |
| Catalog.ArrangeAlphabetical | PixelPeek/Forms/ViewerForm.cs:146 | in alphabetical mode every earlier entry's file name sorts no later than every later one's, under the comparer given as a parameter |
| Catalog.ArrangeKeepsNoBitmaps | PixelPeek/Forms/ViewerForm.cs:130-149 | sorting freshly scanned entries leaves no entry holding a bitmap |
| Catalog.FirstMatch | PixelPeek/Forms/ViewerForm.cs:161-170 | the result is the first index whose full path equals the file while ignoring case; None only when no entry matches |
| Catalog.StartIndex | PixelPeek/Forms/ViewerForm.cs:151-187 | the start index is absent exactly when the list is empty, and otherwise lies below the count. It is the first match of an explicit file when one exists, else 0 |
| Catalog.KeptFile | PixelPeek/Forms/ViewerForm.cs:172-181 | the explicit file is kept exactly when some entry matches it, and is cleared otherwise |
| Catalog.NextIndex | PixelPeek/Forms/ViewerForm.cs:494-502 | next is (index or 0) + 1 modulo the count, so the last index wraps to 0 |
| Catalog.PreviousIndex | PixelPeek/Forms/ViewerForm.cs:517-525 | previous is (index or 0) - 1 modulo the count, so 0 wraps to count - 1 |
| Catalog.NextPreviousInverse | PixelPeek/Forms/ViewerForm.cs:487-528 | previous undoes next, and next undoes previous |
| Catalog.NextTimes | PixelPeek/Forms/ViewerForm.cs:487-505 | any number of next steps stays in range |
| Catalog.NextTimesMoves | PixelPeek/Forms/ViewerForm.cs:487-505 | up to one full round, k next steps move k places and wrap past the end once |
| Catalog.NextFullCycle | PixelPeek/Forms/ViewerForm.cs:487-505 | count next steps return to the starting entry |
| Catalog.Load | PixelPeek/Forms/ViewerForm.cs:795-809 | an entry keeps its path and file name. A bitmap it already holds is kept. Otherwise it gets exactly the decoded bitmap when decoding succeeds, and records the decoder's message when it fails |
| Catalog.ShownResidency | PixelPeek/Forms/ViewerForm.cs:785-909 | if only the current and the pending entries held bitmaps, afterwards only the current one can. It does exactly when its load succeeded and it was not itself pending, so returning to the shown index releases it. The pending index survives only when there was nothing to release |
| Viewport.Ratio | PixelPeek/Forms/ViewerForm.cs:713-714 | an axis ratio is positive |
| Viewport.FitRatio | PixelPeek/Forms/ViewerForm.cs:713-718 | the fit ratio is the larger of the height and width ratios |
| Viewport.RatioAboveOne | PixelPeek/Forms/ViewerForm.cs:846-850 | a ratio exceeds 1 exactly when the bitmap side exceeds the client side |
| Viewport.OverflowsIffFitAboveOne | PixelPeek/Forms/ViewerForm.cs:846-854 | the bitmap overflows the client area exactly when the fit ratio exceeds 1 |
| Viewport.Scaled | PixelPeek/Forms/ViewerForm.cs:364-365 | the truncating cast of side / zoom is a non-negative floor |
| Viewport.ScaledAtMost | PixelPeek/Forms/ViewerForm.cs:661-662 | at a zoom of 1 or more, a scaled side does not exceed the bitmap side |
| Viewport.ScaledAtOne | PixelPeek/Forms/ViewerForm.cs:661-662 | at zoom 1 a side is displayed at full size |
| Viewport.DisplaySize | PixelPeek/Forms/ViewerForm.cs:364-372 | the displayed size is always within [0, bitmap size] on both axes |
| Viewport.DisplaySizeScales | PixelPeek/Forms/ViewerForm.cs:661-671 | at a zoom of 1 or more nothing snaps, and each side is the truncated quotient |
| Viewport.DisplaySizeCases | PixelPeek/Forms/ViewerForm.cs:740-750 | the size is either the truncated quotients or, when a quotient exceeds its side, the full bitmap size |
| Viewport.HalfTowardZero | PixelPeek/Forms/ViewerForm.cs:375 | C# integer halving rounds toward zero, for either sign |
| Viewport.Centre | PixelPeek/Forms/ViewerForm.cs:375 | on each axis the box is centred: the margins before and after differ by at most one pixel, for spare room of either sign |
| Viewport.Fit | PixelPeek/Forms/ViewerForm.cs:843-864 | a bitmap that fits is shown at factor 1 with no new step and at full size. An overflowing one gets the fit ratio, with a step of a tenth of it |
| Viewport.QuotientAtMost | PixelPeek/Forms/ViewerForm.cs:858-859 | at a zoom at least a side's ratio, the scaled side fits within the client side |
| Viewport.FitWithinClient | PixelPeek/Forms/ViewerForm.cs:843-874 | a fitted image lies within the client area, and its size is the display size for its zoom |
| Viewport.StepIn | PixelPeek/Forms/ViewerForm.cs:645-654 | a stepped zoom in is one step less, but never below 1 |
| Viewport.StepOut | PixelPeek/Forms/ViewerForm.cs:724-733 | a stepped zoom out is one step more, but never above the fit ratio |
| Viewport.StepOutUndoesStepIn | PixelPeek/Forms/ViewerForm.cs:645-654 | away from the clamps, a step out undoes a step in |
| ViewerForm.Dispatch | PixelPeek/Forms/ViewerForm.cs:267-328 | Escape stops a running slideshow, else leaves fullscreen, else closes; only Escape closes. F5 toggles the slideshow and F11 fullscreen. Each arrow, Home, End, `-` and `+` binding holds in both directions, and Control selects fit or max |
| ViewerForm.ScanHoldsNothing | PixelPeek/Forms/ViewerForm.cs:130-133 | freshly created entries hold no bitmap |
| ViewerForm.ScanPaths | PixelPeek/Forms/ViewerForm.cs:130-133 | the append loop gives one new entry per listed path, in listing order |
| ViewerForm.FindFile | PixelPeek/Forms/ViewerForm.cs:161-170 | the search loop finds the first case-insensitive match, or reports that no entry matches |
| ViewerForm.Viewer.constructor | PixelPeek/Forms/ViewerForm.cs:99-116 | the window opens with the scanned and sorted list, the start index and no resident bitmap. Fullscreen and the slideshow are on as the options ask |
| ViewerForm.Viewer.GetFiles | PixelPeek/Forms/ViewerForm.cs:121-188 | the list is the arranged scan, or empty when enumeration fails, with the failure reported. The index is the start index, an unmatched explicit file is cleared and reported, and the invariant holds |
| ViewerForm.Viewer.SelectStart | PixelPeek/Forms/ViewerForm.cs:151-187 | the index is the first match or the fallback 0. The option is cleared and a message shown exactly when an explicit file was not found |
| ViewerForm.Viewer.ShowFile | PixelPeek/Forms/ViewerForm.cs:785-909 | the current entry is loaded and the pending entry's bitmap released, so only the current entry can hold a bitmap. On success the image is fitted and centred; on failure zoom and step are cleared and the box stays put. Paths are never changed |
| ViewerForm.Viewer.FitToClient | PixelPeek/Forms/ViewerForm.cs:842-876 | fits a bitmap: the zoom is set and the step replaced only when the image overflows. The box gets the fitted size, centred |
| ViewerForm.Viewer.ClearPrevious | PixelPeek/Forms/ViewerForm.cs:900-908 | the pending entry's bitmap is dropped and the pending index forgotten, unless there was nothing to release |
| ViewerForm.Viewer.GoToFirstImage | PixelPeek/Forms/ViewerForm.cs:455-466 | on a non-empty list the index becomes 0 and the old index becomes pending for ShowFile. On an empty list nothing changes |
| ViewerForm.Viewer.GoToLastImage | PixelPeek/Forms/ViewerForm.cs:471-482 | on a non-empty list the index becomes count - 1 and is then shown. On an empty list nothing changes |
| ViewerForm.Viewer.GoToNextImage | PixelPeek/Forms/ViewerForm.cs:487-505 | the index becomes NextIndex of the old one and is then shown, releasing the old one. On an empty list nothing changes |
| ViewerForm.Viewer.GoToPreviousImage | PixelPeek/Forms/ViewerForm.cs:510-528 | the index becomes PreviousIndex of the old one and is then shown, releasing the old one. On an empty list nothing changes |
| ViewerForm.ZoomInFactor | PixelPeek/Forms/ViewerForm.cs:641-654 | max gives exactly 1. With a factor and a step the new factor is at least 1, and it is either one step less or clamped to 1. Otherwise the factor is unchanged |
| ViewerForm.ZoomOutFactor | PixelPeek/Forms/ViewerForm.cs:713-733 | fit gives exactly the fit ratio. With a factor and a step the new factor is at most the fit ratio, and it is either one step more or clamped to it. Otherwise the factor is unchanged |
| ViewerForm.Viewer.ZoomIn | PixelPeek/Forms/ViewerForm.cs:631-676 | max sets the factor to exactly 1. A stepped zoom applies StepIn; without a factor or a step the factor is unchanged. The box is then laid out at the display size and centred. Without a resident bitmap nothing changes |
| ViewerForm.Viewer.ZoomOut | PixelPeek/Forms/ViewerForm.cs:703-755 | fit sets the freshly computed fit ratio. A stepped zoom applies StepOut against that ratio; without a factor or a step the factor is unchanged. The box is then laid out and centred. Without a resident bitmap nothing changes |
| ViewerForm.Viewer.ImageBoxMouseDoubleClick | PixelPeek/Forms/ViewerForm.cs:395-405 | at factor 1 the image is fitted to the window, otherwise shown at factor 1, and laid out accordingly |
| ViewerForm.Viewer.FormResizeEnd | PixelPeek/Forms/ViewerForm.cs:353-378 | with a resident bitmap and a factor, the box gets the display size for the factor, centred in the new client area. Otherwise the box stays put |
| ViewerForm.Viewer.FormResize | PixelPeek/Forms/ViewerForm.cs:333-348 | the last state is recorded. An unchanged or minimised state leaves the layout alone. Any other change takes the new client area and lays a resident, zoomed image out again, and otherwise the box stays put |
| ViewerForm.Viewer.ToggleFullscreen | PixelPeek/Forms/ViewerForm.cs:533-586 | the border style flips, and a resident image is fitted to the new client area; the step is kept when the image fits |
| ViewerForm.Viewer.ToggleSlideshow | PixelPeek/Forms/ViewerForm.cs:613-625 | the slideshow timer's enabled state flips, and the list, index, zoom and layout stay as they were |
| ViewerForm.Viewer.ImageBoxMouseDown | PixelPeek/Forms/ViewerForm.cs:410-415 | a gesture starts, remembering the cursor and the box location |
| ViewerForm.Viewer.ImageBoxMouseMove | PixelPeek/Forms/ViewerForm.cs:420-436 | during a gesture the box is at its start location plus the cursor's displacement, one to one and unclamped. Otherwise nothing moves |
| ViewerForm.Viewer.ImageBoxMouseUp | PixelPeek/Forms/ViewerForm.cs:441-446 | all gesture state is cleared |
| ViewerForm.Viewer.FormKeyDown | PixelPeek/Forms/ViewerForm.cs:267-328 | the window closes, the slideshow flips and fullscreen flips exactly as the key binding says; after Escape no slideshow runs. The list, index, zoom and layout change exactly as the bound command does (see Execute), decided by the key and the state before it |
| ViewerForm.Viewer.Execute | PixelPeek/Forms/ViewerForm.cs:269-326 | each command touches closed, slideshow and fullscreen only as named, and keeps the object invariant and the file paths. A navigation shows the entry at NextIndex, PreviousIndex, 0 or count - 1, in the same client area. A zoom sets ZoomInFactor or ZoomOutFactor and lays the image out. Fullscreen fits the image to the new client area. The slideshow switch, closing and an ignored key leave the list, index, zoom and layout alone. An empty list or a missing bitmap changes nothing |
| ViewerForm.Viewer.Navigate | PixelPeek/Forms/ViewerForm.cs:288-316 | the four navigation keys show the entry at the new index exactly as Execute states, keeping the invariant and the paths |
| ViewerForm.Viewer.Zoom | PixelPeek/Forms/ViewerForm.cs:298-306 | the two zoom keys set the new factor and layout exactly as Execute states, leaving the list and index alone |
| ViewerForm.Viewer.Switch | PixelPeek/Forms/ViewerForm.cs:271-326 | Escape's close, F5 and F11 flip only their own flag and act as Execute states; an unbound key changes nothing |
| CommandLine.TryParseCmdArgs | PixelPeek/Program.cs:55-103 | the result is always true. The options are the arguments applied in order to the defaults, and a message is shown per invalid argument, plus one when no path was set |
| CommandLine.RandomIffFlag | PixelPeek/Program.cs:63-66 | the order is random exactly when some argument is `-r` or `--random` |
| CommandLine.OtherFieldsKept | PixelPeek/Program.cs:59-89 | recursion, fullscreen, the interval and the slideshow are never written |
| CommandLine.ParsedDefaults | PixelPeek/Models/Options.cs:18-33 | so after parsing they hold their defaults: false, false, 5000, false |
| CommandLine.PathFromLast | PixelPeek/Program.cs:69-77 | the path comes from the last argument naming an existing directory or file: the directory itself, or the file's directory |
| CommandLine.FileFromLast | PixelPeek/Program.cs:73-77 | the file is the last argument naming an existing file that is not a directory; a later directory argument leaves it alone |
| CommandLine.RejectedArgumentIgnored | PixelPeek/Program.cs:78-85 | an argument that is neither the flag nor an existing path can be dropped from anywhere in the list without changing the options |
| StartupForm.Quote | PixelPeek/Forms/StartupForm.cs:387 | quoting adds one double quote at each end, and the text between them is exactly the quoted text |
| StartupForm.ArgumentsFailOnlyOnOverflow | PixelPeek/Forms/StartupForm.cs:400-404 | assembly fails exactly when the slideshow is on and the interval exceeds the 32-bit range |
| StartupForm.ArgumentsPresence | PixelPeek/Forms/StartupForm.cs:377-404 | the executable is first. The quoted trimmed path is present exactly when the text is not blank, and `-f`, `-r`, `-s` and `-i <n>` exactly when their boxes are checked. With the slideshow, `-s` and `-i <n>` are the last two. The length is one plus one per present element |
| StartupForm.TailPresence | PixelPeek/Forms/StartupForm.cs:385-404 | the same presence and length rules for the elements after the executable |
| StartupForm.FlagPresence | PixelPeek/Forms/StartupForm.cs:390-404 | after any path part, each flag and the slideshow pair are present exactly when checked, and the length grows by one per flag and two for the slideshow |
| StartupForm.SlideshowIn | PixelPeek/Forms/StartupForm.cs:400-404 | `-s` and the interval element are present exactly when the slideshow is on |
| StartupForm.SlideshowLast | PixelPeek/Forms/StartupForm.cs:400-404 | with the slideshow, `-s` and the interval element close the list, adding two elements |
| StartupForm.ArgumentsOrder | PixelPeek/Forms/StartupForm.cs:377-406 | after the executable the elements come in the fixed order path, `-f`, `-r`, `-s`, `-i`, so there are at most 6 |
| StartupForm.TailOrder | PixelPeek/Forms/StartupForm.cs:385-404 | the elements after the executable ascend in that order, at most five |
| StartupForm.CopyMatchesRun | PixelPeek/Forms/StartupForm.cs:288-292 | the copied command is the quoted executable, then a space and the run action's argument string when there is one |
| StartupForm.AssembleArguments | PixelPeek/Forms/StartupForm.cs:375-407 | successive conditional appends build exactly the specified argument list, or fail on an interval overflow |
| StartupForm.RunEnabledIffPathElement | PixelPeek/Forms/StartupForm.cs:98 | Run is enabled after a text change exactly when the run command would carry a path element, and that element is the quoted trimmed text |
| StartupForm.Dialog.constructor | PixelPeek/Forms/StartupForm.cs:137-196 | the dialog opens with an empty path, nothing checked, an interval of 5000, and Copy and Run disabled |
| StartupForm.Dialog.GetExecutingArguments | PixelPeek/Forms/StartupForm.cs:375-407 | the dialog's current setup yields the specified argument list, which starts with the executable |
| StartupForm.Dialog.PathTextChanged | PixelPeek/Forms/StartupForm.cs:98 | Run is enabled exactly when the new text is not blank |
| StartupForm.Dialog.PathBrowsed | PixelPeek/Forms/StartupForm.cs:248-278 | a cancelled browse changes nothing. A selection becomes the path text and enables both buttons |
| StartupForm.Dialog.CopyRunCommand | PixelPeek/Forms/StartupForm.cs:284-310 | the clipboard gets the copied command and a confirmation is shown, or, when assembly fails, an error is shown and the clipboard is untouched |
| StartupForm.Dialog.RunCurrentSetup | PixelPeek/Forms/StartupForm.cs:344-365 | element 0 is started as the program with the rest, space-joined, as its arguments. An error is shown instead when assembly or the start fails |

## Left out

- Window layout and presentation are not modelled:
  - control creation and layout (`SetupControls`, `SetupForm`), and `Visible` toggling;
  - the error label;
  - the window title with its percentage text (the integer form in ZoomIn and ShowFile, two decimals in ZoomOut);
  - the background colour taken from a one-pixel thumbnail.
- Decoding is not modelled: bitmap and WebP decoding are an oracle, `Platform.decode`, that yields a size or an error message. A bitmap is represented by its size.
- Zoom factors are `real`s where the source uses `double`. Rounding of the quotients is not modelled, only the truncating casts to `int`.
- Overflow of the pan arithmetic (`int` additions in ImageBoxMouseMove) is not modelled: coordinates are unbounded integers.
- Bitmaps and client areas are at least one pixel on each side. A zero-sized client area, which makes the `double` ratio infinite, is not modelled.
- The random order draws its keys from the parameter `draw`. That it is a uniformly random permutation is not modelled; only that it is a permutation is proved.
- Catalog.ArrangeAlphabetical: stability of the sort, meaning that equal names keep their scan order, is not proved. Only sortedness and permutation are.
- The sort's `_ => throw` arm is unreachable here, because `SortOrder` has exactly the two declared members.
- The slideshow timer is not modelled, only its enabled flag. A tick does what GoToNextImage does.
- ViewerForm.Viewer.ToggleFullscreen: the window-state changes it makes are not modelled, so neither is the resize event they raise in turn. The new client area is a parameter.
- ViewerForm.Viewer.client: the source reads the wrapper box's client size live, while the model keeps the size of the last FormResize, FormResizeEnd or ToggleFullscreen. A client-area change not followed by one of those events is not seen, for example a minimised window during a slideshow tick.
- ViewerForm.Viewer.ShowFile: the decode error text is recorded in the entry, but the error label showing it is not modelled.
- The form-shown event is not a separate member: it only calls ShowFile.
- `Main` and the about dialog are not modelled, nor `Config.cs`/`IConfig.cs`. The JSON configuration store is not used by the modelled code.
- Options are modelled as a value that the parser and the viewer reassign. In the source, one mutable object is shared between them.
- StartupForm.Dialog.CopyRunCommand: a clipboard failure, which the source reports like an assembly failure, is not modelled.
- The documentation link handler and the browse dialogs' initial directory or file are not modelled.
- How the executable path is derived from the assembly location is not modelled; the path is a constant of the dialog.
