/**
 * The command-line parser: each argument is either the random-order flag or
 * a path, and the options record starts from its defaults and is overwritten
 * argument by argument.
 */
module CommandLine {
  import opened Wrappers
  import opened Settings

  /** Filesystem queries the parser makes, as given functions. */
  datatype FileSystem = FileSystem(
    isDir: string -> bool,                // the directory exists
    isFile: string -> bool,               // the file exists
    dirName: string -> Option<string>)    // directory part of a path; None for a root

  /** The message boxes the parser shows. */
  datatype Notice = InvalidPath(arg: string) | MissingPath

  predicate IsRandomFlag(arg: string) {
    arg == "-r" || arg == "--random"
  }

  /** An argument that names an existing directory or file. */
  predicate PathLike(arg: string, fs: FileSystem) {
    !IsRandomFlag(arg) && (fs.isDir(arg) || fs.isFile(arg))
  }

  /** An argument that names an existing file and no directory. */
  predicate FileArg(arg: string, fs: FileSystem) {
    !IsRandomFlag(arg) && !fs.isDir(arg) && fs.isFile(arg)
  }

  /** One argument's effect on the options. */
  function Apply(o: Options, arg: string, fs: FileSystem): Options {
    if IsRandomFlag(arg) then o.(sortOrder := Random)
    else if fs.isDir(arg) then o.(path := Some(arg))
    else if fs.isFile(arg) then o.(file := Some(arg), path := fs.dirName(arg))
    else o
  }

  /** The arguments applied in order, the last one last. */
  function ApplyAll(o: Options, args: seq<string>, fs: FileSystem): Options {
    if args == [] then o else Apply(ApplyAll(o, args[..|args| - 1], fs), args[|args| - 1], fs)
  }

  /** One message per argument that is neither the flag nor an existing path, in order. */
  function Rejected(args: seq<string>, fs: FileSystem): seq<Notice> {
    if args == [] then []
    else
      var arg := args[|args| - 1];
      Rejected(args[..|args| - 1], fs)
      + (if IsRandomFlag(arg) || fs.isDir(arg) || fs.isFile(arg) then [] else [InvalidPath(arg)])
  }

  /**
   * Parses `args` into options. The result is `true` in every case: a run
   * without any path shows a message and still succeeds.
   */
  method TryParseCmdArgs(args: seq<string>, fs: FileSystem) returns (ok: bool, options: Options, notices: seq<Notice>)
    ensures ok
    ensures options == ApplyAll(Defaults, args, fs)
    ensures notices == Rejected(args, fs) + (if options.path.None? then [MissingPath] else [])
  {
    options := Defaults;
    notices := [];
    for i := 0 to |args|
      invariant options == ApplyAll(Defaults, args[..i], fs)
      invariant notices == Rejected(args[..i], fs)
    {
      assert args[..i + 1][..i] == args[..i];
      var argv := args[i];
      if argv == "-r" || argv == "--random" {
        options := options.(sortOrder := Random);
      } else if fs.isDir(argv) {
        options := options.(path := Some(argv));
      } else if fs.isFile(argv) {
        options := options.(file := Some(argv), path := fs.dirName(argv));
      } else {
        notices := notices + [InvalidPath(argv)];
      }
    }
    assert args[..|args|] == args;

    if options.path.Some? {
      return true, options, notices;
    }
    notices := notices + [MissingPath];
    return true, options, notices;
  }

  /** The order is random exactly when some argument is the flag. */
  lemma {:induction false} RandomIffFlag(o: Options, args: seq<string>, fs: FileSystem)
    requires o.sortOrder == Alphabetical
    ensures ApplyAll(o, args, fs).sortOrder == Random <==> exists i :: 0 <= i < |args| && IsRandomFlag(args[i])
  {
    if args != [] {
      var init := args[..|args| - 1];
      RandomIffFlag(o, init, fs);
      assert forall i :: 0 <= i < |init| ==> init[i] == args[i];
    }
  }

  /** Only the file, the path and the order are ever written; the other fields keep their values. */
  lemma {:induction false} OtherFieldsKept(o: Options, args: seq<string>, fs: FileSystem)
    ensures var r := ApplyAll(o, args, fs);
            && r.recursive == o.recursive && r.setFullscreen == o.setFullscreen
            && r.slideshowInterval == o.slideshowInterval && r.startSlideshow == o.startSlideshow
  {
    if args != [] {
      OtherFieldsKept(o, args[..|args| - 1], fs);
    }
  }

  /** Hence every parse leaves recursion, fullscreen, the interval and the slideshow at their defaults. */
  lemma ParsedDefaults(args: seq<string>, fs: FileSystem)
    ensures var r := ApplyAll(Defaults, args, fs);
            && !r.recursive && !r.setFullscreen && r.slideshowInterval == 5000 && !r.startSlideshow
  {
    OtherFieldsKept(Defaults, args, fs);
  }

  /** The index of the last argument satisfying `p`, if any. */
  function LastWhere(args: seq<string>, p: string -> bool): (r: Option<nat>)
    ensures r.Some? ==> r.value < |args| && p(args[r.value])
    ensures r.Some? ==> forall j :: r.value < j < |args| ==> !p(args[j])
    ensures r.None? ==> forall j :: 0 <= j < |args| ==> !p(args[j])
  {
    if args == [] then None
    else if p(args[|args| - 1]) then Some(|args| - 1)
    else LastWhere(args[..|args| - 1], p)
  }

  /**
   * The path comes from the last argument naming an existing directory or
   * file: the directory itself, or the file's directory. Without one the
   * path keeps its value.
   */
  lemma {:induction false} PathFromLast(o: Options, args: seq<string>, fs: FileSystem)
    ensures ApplyAll(o, args, fs).path ==
              match LastWhere(args, a => PathLike(a, fs))
              case None => o.path
              case Some(k) => if fs.isDir(args[k]) then Some(args[k]) else fs.dirName(args[k])
  {
    if args != [] {
      var n := |args| - 1;
      PathFromLast(o, args[..n], fs);
      var k := LastWhere(args[..n], a => PathLike(a, fs));
      assert k.Some? ==> args[..n][k.value] == args[k.value];
    }
  }

  /**
   * The file comes from the last argument naming an existing file that is
   * not a directory; a later directory argument does not clear it. Without
   * one the file keeps its value.
   */
  lemma {:induction false} FileFromLast(o: Options, args: seq<string>, fs: FileSystem)
    ensures ApplyAll(o, args, fs).file ==
              match LastWhere(args, a => FileArg(a, fs))
              case None => o.file
              case Some(k) => Some(args[k])
  {
    if args != [] {
      var n := |args| - 1;
      FileFromLast(o, args[..n], fs);
      var k := LastWhere(args[..n], a => FileArg(a, fs));
      assert k.Some? ==> args[..n][k.value] == args[k.value];
    }
  }

  /**
   * An argument that is neither the flag nor an existing path changes
   * nothing: wherever it stands, dropping it gives the same options.
   */
  lemma {:induction false} RejectedArgumentIgnored(o: Options, before: seq<string>, arg: string, after: seq<string>, fs: FileSystem)
    requires !IsRandomFlag(arg) && !fs.isDir(arg) && !fs.isFile(arg)
    ensures ApplyAll(o, before + [arg] + after, fs) == ApplyAll(o, before + after, fs)
  {
    if after == [] {
      assert (before + [arg])[..|before|] == before;
      assert before + [arg] + after == before + [arg];
      assert before + after == before;
    } else {
      var n := |after| - 1;
      RejectedArgumentIgnored(o, before, arg, after[..n], fs);
      assert (before + [arg] + after)[..|before| + 1 + n] == before + [arg] + after[..n];
      assert (before + after)[..|before| + n] == before + after[..n];
    }
  }
}
