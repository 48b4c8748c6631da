/** The program options record and the defaults a fresh one starts from. */
module Settings {
  import opened Wrappers

  /** The two declared members of `FilesSortOrder`. */
  datatype SortOrder = Alphabetical | Random

  datatype Options = Options(
    file: Option<string>,       // file to view
    path: Option<string>,       // directory path
    recursive: bool,            // get files recursively
    setFullscreen: bool,        // go fullscreen when the viewer starts
    slideshowInterval: int,     // milliseconds between slideshow images
    startSlideshow: bool,       // start the slideshow when the viewer starts
    sortOrder: SortOrder)

  /** The property initialisers of `Options`. */
  const Defaults: Options := Options(None, None, false, false, 5000, false, Alphabetical)
}
