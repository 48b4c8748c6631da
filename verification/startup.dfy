/**
 * The start-up dialog: a path text box, three check boxes, a slideshow
 * interval, and the buttons that copy or run the equivalent command line.
 */
module StartupForm {
  import opened Wrappers
  import opened Text

  /** Largest value of a 32-bit signed integer; a larger interval makes the `(int)` cast throw. */
  const Int32Max := 2147483647

  function Quote(s: string): (r: string)
    ensures |r| == |s| + 2 && r[0] == '"' && r[|r| - 1] == '"'
    ensures r[1..|r| - 1] == s
  {
    "\"" + s + "\""
  }

  /** The path element: the trimmed text, quoted, unless it is blank. */
  function PathPart(text: string): seq<string> {
    if IsBlank(Trim(text)) then [] else [Quote(Trim(text))]
  }

  function Flag(on: bool, flag: string): seq<string> {
    if on then [flag] else []
  }

  /** The interval element, `-i` and the decimal digits of `n` in one element. */
  function IntervalElement(n: nat): string {
    "-i " + DecimalString(n)
  }

  /** `-s`, then the interval element, when the slideshow box is checked. */
  function SlideshowPart(on: bool, n: nat): seq<string> {
    Flag(on, "-s") + Flag(on, IntervalElement(n))
  }

  /** The elements after the executable. */
  function Tail(text: string, fullscreen: bool, random: bool, slideshow: bool, n: nat): seq<string> {
    PathPart(text) + Flag(fullscreen, "-f") + Flag(random, "-r") + SlideshowPart(slideshow, n)
  }

  /**
   * The argument list of the run command: executable, path, `-f`, `-r`,
   * `-s` and `-i <n>`, each present as the form asks, with `n` the interval
   * truncated to an integer. None when that truncation overflows.
   */
  function RunArguments(exe: string, text: string, fullscreen: bool, random: bool, slideshow: bool, interval: real): Option<seq<string>>
    requires interval >= 1.0
  {
    if slideshow && interval.Floor > Int32Max then None
    else Some([exe] + Tail(text, fullscreen, random, slideshow, interval.Floor))
  }

  /** The position class of an element after the executable, in the order the list is built. */
  function Rank(arg: string): nat {
    if |arg| > 0 && arg[0] == '"' then 1
    else if arg == "-f" then 2
    else if arg == "-r" then 3
    else if arg == "-s" then 4
    else 5
  }

  predicate Ascending(s: seq<string>) {
    forall i, j :: 0 <= i < j < |s| ==> Rank(s[i]) < Rank(s[j])
  }

  predicate RanksWithin(s: seq<string>, lo: nat, hi: nat) {
    forall i :: 0 <= i < |s| ==> lo <= Rank(s[i]) <= hi
  }

  lemma AscendingAppend(s: seq<string>, t: seq<string>, lo: nat, mid: nat, hi: nat)
    requires Ascending(s) && Ascending(t)
    requires RanksWithin(s, lo, mid) && RanksWithin(t, mid + 1, hi) && lo <= mid < hi
    ensures Ascending(s + t) && RanksWithin(s + t, lo, hi)
  {
    var u := s + t;
    forall i, j | 0 <= i < j < |u| ensures Rank(u[i]) < Rank(u[j]) {
      if j < |s| {
        assert u[i] == s[i] && u[j] == s[j];
      } else if i >= |s| {
        assert u[i] == t[i - |s|] && u[j] == t[j - |s|];
      } else {
        assert u[i] == s[i] && u[j] == t[j - |s|];
      }
    }
    forall i | 0 <= i < |u| ensures lo <= Rank(u[i]) <= hi {
      if i < |s| {
        assert u[i] == s[i];
      } else {
        assert u[i] == t[i - |s|];
      }
    }
  }

  /** The interval element sorts last. */
  lemma IntervalRank(n: nat)
    ensures Rank(IntervalElement(n)) == 5
  {
    var e := IntervalElement(n);
    assert e[0] == '-' && e[1] == 'i' && |e| > 2;
  }

  /** Each part of the list after the executable holds ranks of its own class. */
  lemma PathPartRanks(text: string)
    ensures Ascending(PathPart(text)) && RanksWithin(PathPart(text), 1, 1)
  {
    if !IsBlank(Trim(text)) {
      var q := Quote(Trim(text));
      assert Rank(q) == 1;
      assert PathPart(text) == [q];
    }
  }

  lemma FlagRanks(on: bool, flag: string, k: nat)
    requires Rank(flag) == k
    ensures Ascending(Flag(on, flag)) && RanksWithin(Flag(on, flag), k, k)
  {
  }

  lemma SlideshowPartRanks(on: bool, n: nat)
    ensures Ascending(SlideshowPart(on, n)) && RanksWithin(SlideshowPart(on, n), 4, 5)
  {
    IntervalRank(n);
  }

  lemma PartRanks(text: string, fullscreen: bool, random: bool, slideshow: bool, n: nat)
    ensures Ascending(PathPart(text)) && RanksWithin(PathPart(text), 1, 1)
    ensures Ascending(Flag(fullscreen, "-f")) && RanksWithin(Flag(fullscreen, "-f"), 2, 2)
    ensures Ascending(Flag(random, "-r")) && RanksWithin(Flag(random, "-r"), 3, 3)
    ensures Ascending(SlideshowPart(slideshow, n)) && RanksWithin(SlideshowPart(slideshow, n), 4, 5)
  {
    PathPartRanks(text);
    FlagRanks(fullscreen, "-f", 2);
    FlagRanks(random, "-r", 3);
    SlideshowPartRanks(slideshow, n);
  }

  /** An element of a list lies in the list's rank range. */
  lemma InRanks(x: string, s: seq<string>, lo: nat, hi: nat)
    requires RanksWithin(s, lo, hi) && x in s
    ensures lo <= Rank(x) <= hi
  {
    var i :| 0 <= i < |s| && s[i] == x;
  }

  /** Only a slideshow interval beyond the 32-bit range fails to assemble. */
  lemma ArgumentsFailOnlyOnOverflow(exe: string, text: string, fullscreen: bool, random: bool, slideshow: bool, interval: real)
    requires interval >= 1.0
    ensures RunArguments(exe, text, fullscreen, random, slideshow, interval).None? <==> slideshow && interval.Floor > Int32Max
  {
  }

  /**
   * The executable comes first; the quoted trimmed path is present exactly
   * when the text is not blank; each flag is present exactly when its box
   * is checked; `-s` and `-i <n>` are both present exactly when the
   * slideshow box is checked, and then they are the last two; and there is
   * no other element.
   */
  lemma ArgumentsPresence(exe: string, text: string, fullscreen: bool, random: bool, slideshow: bool, interval: real)
    requires interval >= 1.0
    requires RunArguments(exe, text, fullscreen, random, slideshow, interval).Some?
    ensures var args := RunArguments(exe, text, fullscreen, random, slideshow, interval).value;
            && |args| >= 1 && args[0] == exe
            && (Quote(Trim(text)) in args[1..] <==> !IsBlank(text))
            && ("-f" in args[1..] <==> fullscreen)
            && ("-r" in args[1..] <==> random)
            && ("-s" in args[1..] <==> slideshow)
            && (IntervalElement(interval.Floor) in args[1..] <==> slideshow)
            && (slideshow ==> |args| >= 3 && args[|args| - 2] == "-s" && args[|args| - 1] == IntervalElement(interval.Floor))
            && |args| == 1 + Count(!IsBlank(text)) + Count(fullscreen) + Count(random) + 2 * Count(slideshow)
  {
    var n: nat := interval.Floor;
    var args := RunArguments(exe, text, fullscreen, random, slideshow, interval).value;
    assert args == [exe] + Tail(text, fullscreen, random, slideshow, n);
    assert args[1..] == Tail(text, fullscreen, random, slideshow, n);
    TailPresence(text, fullscreen, random, slideshow, n);
  }

  /** 1 for a checked box or a present element, else 0. */
  function Count(on: bool): nat {
    if on then 1 else 0
  }

  lemma TailPresence(text: string, fullscreen: bool, random: bool, slideshow: bool, n: nat)
    ensures var t := Tail(text, fullscreen, random, slideshow, n);
            && (Quote(Trim(text)) in t <==> !IsBlank(text))
            && ("-f" in t <==> fullscreen)
            && ("-r" in t <==> random)
            && ("-s" in t <==> slideshow)
            && (IntervalElement(n) in t <==> slideshow)
            && (slideshow ==> |t| >= 2 && t[|t| - 2] == "-s" && t[|t| - 1] == IntervalElement(n))
            && |t| == Count(!IsBlank(text)) + Count(fullscreen) + Count(random) + 2 * Count(slideshow)
  {
    PartRanks(text, fullscreen, random, slideshow, n);
    PathPresence(text, Flag(fullscreen, "-f"), Flag(random, "-r"), SlideshowPart(slideshow, n));
    FlagPresence(PathPart(text), fullscreen, random, slideshow, n);
    PathPartLength(text);
  }

  lemma PathPartLength(text: string)
    ensures |PathPart(text)| == Count(!IsBlank(text))
  {
    TrimBlank(text);
  }

  lemma PathPresence(text: string, f: seq<string>, r: seq<string>, sl: seq<string>)
    requires RanksWithin(f, 2, 2) && RanksWithin(r, 3, 3) && RanksWithin(sl, 4, 5)
    ensures Quote(Trim(text)) in PathPart(text) + f + r + sl <==> !IsBlank(text)
  {
    var q := Quote(Trim(text));
    TrimBlank(text);
    assert Rank(q) == 1;
    assert q in PathPart(text) <==> !IsBlank(text);
    OnlyInHome(q, PathPart(text), f, r, sl, 1, 1, 2, 2, 3, 3, 4, 5);
  }

  /** The flag and slideshow elements after a path part `p`, whatever that part is. */
  lemma FlagPresence(p: seq<string>, fullscreen: bool, random: bool, slideshow: bool, n: nat)
    requires RanksWithin(p, 1, 1)
    ensures var t := p + Flag(fullscreen, "-f") + Flag(random, "-r") + SlideshowPart(slideshow, n);
            && ("-f" in t <==> fullscreen)
            && ("-r" in t <==> random)
            && ("-s" in t <==> slideshow)
            && (IntervalElement(n) in t <==> slideshow)
            && (slideshow ==> |t| >= 2 && t[|t| - 2] == "-s" && t[|t| - 1] == IntervalElement(n))
            && |t| == |p| + Count(fullscreen) + Count(random) + 2 * Count(slideshow)
  {
    var f, r, sl := Flag(fullscreen, "-f"), Flag(random, "-r"), SlideshowPart(slideshow, n);
    FlagRanks(fullscreen, "-f", 2);
    FlagRanks(random, "-r", 3);
    SlideshowPartRanks(slideshow, n);
    FlagIn("-f", fullscreen, f, p, r, sl, 2, 1, 1, 3, 3, 4, 5);
    FlagIn("-r", random, r, f, p, sl, 3, 2, 2, 1, 1, 4, 5);
    SlideshowIn(p, f, r, slideshow, n);
    SlideshowLast(p + f + r, slideshow, n);
  }

  /** `-s` and the interval element are present exactly with the slideshow. */
  lemma SlideshowIn(p: seq<string>, f: seq<string>, r: seq<string>, slideshow: bool, n: nat)
    requires RanksWithin(p, 1, 1) && RanksWithin(f, 2, 2) && RanksWithin(r, 3, 3)
    ensures "-s" in p + f + r + SlideshowPart(slideshow, n) <==> slideshow
    ensures IntervalElement(n) in p + f + r + SlideshowPart(slideshow, n) <==> slideshow
  {
    var sl := SlideshowPart(slideshow, n);
    assert "-s" in sl <==> slideshow;
    OnlyInHome("-s", sl, p, f, r, 4, 5, 1, 1, 2, 2, 3, 3);
    IntervalRank(n);
    assert IntervalElement(n) in sl <==> slideshow;
    OnlyInHome(IntervalElement(n), sl, p, f, r, 4, 5, 1, 1, 2, 2, 3, 3);
  }

  /** With the slideshow the list ends in `-s` and the interval element, which add two elements. */
  lemma SlideshowLast(front: seq<string>, slideshow: bool, n: nat)
    ensures var t := front + SlideshowPart(slideshow, n);
            && (slideshow ==> |t| >= 2 && t[|t| - 2] == "-s" && t[|t| - 1] == IntervalElement(n))
            && |t| == |front| + 2 * Count(slideshow)
  {
  }

  /** A flag of rank `k` is in the list exactly when its box is checked. */
  lemma FlagIn(flag: string, on: bool, home: seq<string>, a: seq<string>, b: seq<string>, c: seq<string>,
               k: nat, aLo: nat, aHi: nat, bLo: nat, bHi: nat, cLo: nat, cHi: nat)
    requires Rank(flag) == k && home == Flag(on, flag)
    requires RanksWithin(a, aLo, aHi) && (aHi < k || k < aLo)
    requires RanksWithin(b, bLo, bHi) && (bHi < k || k < bLo)
    requires RanksWithin(c, cLo, cHi) && (cHi < k || k < cLo)
    ensures flag in b + a + home + c <==> on
    ensures flag in b + home + a + c <==> on
  {
    OutsideRanks(flag, a, aLo, aHi);
    OutsideRanks(flag, b, bLo, bHi);
    OutsideRanks(flag, c, cLo, cHi);
  }

  /**
   * An element whose rank falls in its home part's range and outside the
   * other three parts' ranges is in their concatenation, in any order,
   * exactly when it is in its home part.
   */
  lemma OnlyInHome(x: string, home: seq<string>, a: seq<string>, b: seq<string>, c: seq<string>,
                   lo: nat, hi: nat, aLo: nat, aHi: nat, bLo: nat, bHi: nat, cLo: nat, cHi: nat)
    requires lo <= Rank(x) <= hi
    requires RanksWithin(a, aLo, aHi) && (aHi < lo || hi < aLo)
    requires RanksWithin(b, bLo, bHi) && (bHi < lo || hi < bLo)
    requires RanksWithin(c, cLo, cHi) && (cHi < lo || hi < cLo)
    ensures x in home + a + b + c <==> x in home
    ensures x in a + home + b + c <==> x in home
    ensures x in a + b + home + c <==> x in home
    ensures x in a + b + c + home <==> x in home
  {
    OutsideRanks(x, a, aLo, aHi);
    OutsideRanks(x, b, bLo, bHi);
    OutsideRanks(x, c, cLo, cHi);
  }

  /** An element whose rank lies outside a list's rank range is not in it. */
  lemma OutsideRanks(x: string, s: seq<string>, lo: nat, hi: nat)
    requires RanksWithin(s, lo, hi) && !(lo <= Rank(x) <= hi)
    ensures x !in s
  {
    if x in s {
      InRanks(x, s, lo, hi);
    }
  }

  /** After the executable the elements come in strictly increasing rank, so there are at most six. */
  lemma ArgumentsOrder(exe: string, text: string, fullscreen: bool, random: bool, slideshow: bool, interval: real)
    requires interval >= 1.0
    requires RunArguments(exe, text, fullscreen, random, slideshow, interval).Some?
    ensures var args := RunArguments(exe, text, fullscreen, random, slideshow, interval).value;
            && (forall i, j :: 1 <= i < j < |args| ==> Rank(args[i]) < Rank(args[j]))
            && |args| <= 6
  {
    var n: nat := interval.Floor;
    TailOrder(text, fullscreen, random, slideshow, n);
    PrefixedOrder(exe, Tail(text, fullscreen, random, slideshow, n));
  }

  /** Putting the executable in front keeps the rest ascending, one place further on. */
  lemma PrefixedOrder(exe: string, tail: seq<string>)
    requires Ascending(tail) && |tail| <= 5
    ensures forall i, j :: 1 <= i < j < |[exe] + tail| ==> Rank(([exe] + tail)[i]) < Rank(([exe] + tail)[j])
    ensures |[exe] + tail| <= 6
  {
    var args := [exe] + tail;
    forall i, j | 1 <= i < j < |args| ensures Rank(args[i]) < Rank(args[j]) {
      assert args[i] == tail[i - 1] && args[j] == tail[j - 1];
    }
  }

  /** The elements after the executable ascend in rank, so there are at most five of them. */
  lemma TailOrder(text: string, fullscreen: bool, random: bool, slideshow: bool, n: nat)
    ensures Ascending(Tail(text, fullscreen, random, slideshow, n))
    ensures |Tail(text, fullscreen, random, slideshow, n)| <= 5
  {
    var p, f, r, sl := PathPart(text), Flag(fullscreen, "-f"), Flag(random, "-r"), SlideshowPart(slideshow, n);
    PartRanks(text, fullscreen, random, slideshow, n);
    AscendingAppend(p, f, 1, 1, 2);
    AscendingAppend(p + f, r, 1, 2, 3);
    AscendingAppend(p + f + r, sl, 1, 3, 5);
    RanksBound(p + f + r + sl, 1);
  }

  /** A list of strictly increasing ranks, all between `lo` and 5, has at most 6 - lo elements. */
  lemma {:induction false} RanksBound(tail: seq<string>, lo: nat)
    requires lo <= 6
    requires Ascending(tail) && RanksWithin(tail, lo, 5)
    ensures |tail| + lo <= 6
  {
    if tail != [] {
      var rest := tail[1..];
      forall i | 0 <= i < |rest| ensures Rank(tail[0]) + 1 <= Rank(rest[i]) <= 5 {
        assert rest[i] == tail[i + 1];
      }
      assert Ascending(rest) by {
        forall i, j | 0 <= i < j < |rest| ensures Rank(rest[i]) < Rank(rest[j]) {
          assert rest[i] == tail[i + 1] && rest[j] == tail[j + 1];
        }
      }
      RanksBound(rest, Rank(tail[0]) + 1);
    }
  }

  /** The copied command: the executable quoted, then the other elements, space-separated. */
  function CopiedCommand(args: seq<string>): string
    requires |args| >= 1
  {
    Join(" ", args[0 := Quote(args[0])])
  }

  /**
   * The copied command is the program the run action starts, quoted,
   * followed by a space and the run action's argument string when there is
   * one; it is never empty.
   */
  lemma CopyMatchesRun(args: seq<string>)
    requires |args| >= 1
    ensures CopiedCommand(args) == Quote(args[0]) + (if |args| == 1 then "" else " " + Join(" ", args[1..]))
    ensures |CopiedCommand(args)| >= 2
  {
    var quoted := args[0 := Quote(args[0])];
    assert quoted == [Quote(args[0])] + args[1..];
    JoinCons(" ", Quote(args[0]), args[1..]);
  }

  /** Appending an element when `on` appends its flag part. */
  lemma AppendFlag(before: seq<string>, on: bool, x: string)
    ensures before + Flag(on, x) == if on then before + [x] else before
  {
  }

  lemma Regroup(exe: string, p: seq<string>, f: seq<string>, r: seq<string>, s: seq<string>, i: seq<string>)
    ensures [exe] + p + f + r + s + i == [exe] + (p + f + r + (s + i))
  {
  }

  /**
   * Builds the argument list by successive appends; None when the `(int)`
   * cast of the interval overflows.
   */
  method AssembleArguments(exe: string, text: string, fullscreen: bool, random: bool, slideshow: bool, interval: real)
    returns (args: Option<seq<string>>)
    requires interval >= 1.0
    ensures args == RunArguments(exe, text, fullscreen, random, slideshow, interval)
  {
    var list := [exe];
    var trimmed := Trim(text);
    if !IsBlank(trimmed) {
      list := list + [Quote(trimmed)];
    }
    assert list == [exe] + PathPart(text);
    ghost var before := list;
    if fullscreen {
      list := list + ["-f"];
    }
    AppendFlag(before, fullscreen, "-f");
    before := list;
    if random {
      list := list + ["-r"];
    }
    AppendFlag(before, random, "-r");
    before := list;
    var whole := interval.Floor;
    if slideshow {
      list := list + ["-s"];
      if whole > Int32Max {
        return None;
      }
      list := list + [IntervalElement(whole)];
    }
    AppendFlag(before, slideshow, "-s");
    AppendFlag(before + Flag(slideshow, "-s"), slideshow, IntervalElement(whole));
    Regroup(exe, PathPart(text), Flag(fullscreen, "-f"), Flag(random, "-r"), Flag(slideshow, "-s"), Flag(slideshow, IntervalElement(whole)));
    return Some(list);
  }

  /** The message boxes the dialog shows. */
  datatype Notice = Copied | AssembleFailed | RunFailed

  /** A process start request: program and argument string. */
  datatype Launch = Launch(program: string, arguments: string)

  class Dialog {
    const exe: string                 // the running executable's path, with an `.exe` extension
    var pathText: string
    var fullscreenChecked: bool
    var randomOrderChecked: bool
    var startSlideshowChecked: bool
    var interval: real                // the numeric box's value, in milliseconds
    var runEnabled: bool
    var copyEnabled: bool
    var clipboard: Option<string>
    var launched: seq<Launch>         // process starts requested
    var messages: seq<Notice>

    /** The numeric box's minimum is 1. */
    ghost predicate Valid()
      reads this
    {
      interval >= 1.0
    }

    /** The dialog as it opens: empty path, nothing checked, 5000 ms, both buttons disabled. */
    constructor(exe: string)
      ensures Valid()
      ensures this.exe == exe && pathText == ""
      ensures !fullscreenChecked && !randomOrderChecked && !startSlideshowChecked
      ensures interval == 5000.0 && !runEnabled && !copyEnabled
      ensures clipboard.None? && launched == [] && messages == []
    {
      this.exe := exe;
      pathText := "";
      fullscreenChecked := false;
      randomOrderChecked := false;
      startSlideshowChecked := false;
      interval := 5000.0;
      runEnabled := false;
      copyEnabled := false;
      clipboard := None;
      launched := [];
      messages := [];
    }

    /** The argument list for the current setup. */
    method GetExecutingArguments() returns (args: Option<seq<string>>)
      requires Valid()
      ensures args == RunArguments(exe, pathText, fullscreenChecked, randomOrderChecked, startSlideshowChecked, interval)
      ensures args.Some? ==> |args.value| >= 1 && args.value[0] == exe
    {
      args := AssembleArguments(exe, pathText, fullscreenChecked, randomOrderChecked, startSlideshowChecked, interval);
    }

    /** The path text changed: Run is enabled exactly when the text is not blank. */
    method PathTextChanged(text: string)
      modifies this`pathText, this`runEnabled
      ensures pathText == text && runEnabled == !IsBlank(text)
    {
      pathText := text;
      runEnabled := !IsBlank(pathText);
    }

    /**
     * A browse dialog closed with `selected` (None when cancelled): the path
     * text takes the selection, and both buttons are enabled.
     */
    method PathBrowsed(selected: Option<string>)
      modifies this`pathText, this`runEnabled, this`copyEnabled
      ensures selected.None? ==> pathText == old(pathText) && runEnabled == old(runEnabled) && copyEnabled == old(copyEnabled)
      ensures selected.Some? ==> pathText == selected.value && runEnabled && copyEnabled
    {
      if selected.None? {
        return;
      }
      PathTextChanged(selected.value);
      copyEnabled := true;
      runEnabled := true;
    }

    /** Copy: the command for the current setup goes to the clipboard, or an error is shown. */
    method CopyRunCommand()
      requires Valid()
      modifies this`clipboard, this`messages
      ensures var args := RunArguments(exe, pathText, fullscreenChecked, randomOrderChecked, startSlideshowChecked, interval);
              && (args.None? ==> clipboard == old(clipboard) && messages == old(messages) + [AssembleFailed])
              && (args.Some? ==> clipboard == Some(CopiedCommand(args.value)) && messages == old(messages) + [Copied])
    {
      var args := GetExecutingArguments();
      if args.None? {
        messages := messages + [AssembleFailed];
        return;
      }
      var list := args.value;
      list := list[0 := Quote(list[0])];
      var command := Join(" ", list);
      clipboard := Some(command);
      messages := messages + [Copied];
    }

    /**
     * Run: start element 0 as the program with the other elements,
     * space-separated, as its argument string; `startFails` says whether the
     * process start throws.
     */
    method RunCurrentSetup(startFails: bool)
      requires Valid()
      modifies this`launched, this`messages
      ensures var args := RunArguments(exe, pathText, fullscreenChecked, randomOrderChecked, startSlideshowChecked, interval);
              && (args.None? ==> launched == old(launched) && messages == old(messages) + [RunFailed])
              && (args.Some? && startFails ==> launched == old(launched) && messages == old(messages) + [RunFailed])
              && (args.Some? && !startFails ==>
                    launched == old(launched) + [Launch(args.value[0], Join(" ", args.value[1..]))] && messages == old(messages))
    {
      var args := GetExecutingArguments();
      if args.None? {
        messages := messages + [RunFailed];
        return;
      }
      var info := Launch(args.value[0], Join(" ", args.value[1..]));
      if startFails {
        messages := messages + [RunFailed];
        return;
      }
      launched := launched + [info];
    }
  }

  /** After a text change, Run is enabled exactly when the run command would carry a path element. */
  lemma RunEnabledIffPathElement(text: string)
    ensures !IsBlank(text) <==> PathPart(text) != []
    ensures PathPart(text) != [] ==> PathPart(text) == [Quote(Trim(text))]
  {
    TrimBlank(text);
  }
}
