/**
 * The viewer's file list as values: entries, their ordering, the choice of
 * the starting entry, the index arithmetic of navigation, and the step that
 * loads the current entry's bitmap and releases the previous one.
 */
module Catalog {
  import opened Wrappers
  import opened Text
  import opened Ordering
  import opened Settings
  import opened Viewport

  /** What the bitmap decoder makes of a file: its size, or the exception's message. */
  datatype Decoded = Loaded(dims: Dims) | Failed(message: string)

  /**
   * A file entry. `fullPath` and `filename` are fixed at creation; `error`
   * and `bitmap` (the resident decoded bitmap, by its size) are set later.
   */
  datatype Entry = Entry(fullPath: string, filename: string, error: Option<string>, bitmap: Option<Dims>)

  /** `new FileEntry(path)`: the file name is derived from the path. */
  function NewEntry(path: string, fileName: string -> string): Entry {
    Entry(path, fileName(path), None, None)
  }

  /** Two lists hold the same files, in the same order, whatever their bitmaps and errors. */
  predicate SameFiles(a: seq<Entry>, b: seq<Entry>) {
    |a| == |b| && forall i :: 0 <= i < |a| ==> a[i].fullPath == b[i].fullPath && a[i].filename == b[i].filename
  }

  // ----- Ordering -----

  /** Order entries by file name under the name comparer `nameLeq`. */
  function ByName(nameLeq: (string, string) -> bool): (Entry, Entry) -> bool {
    (a: Entry, b: Entry) => nameLeq(a.filename, b.filename)
  }

  /** Each entry paired with the random key drawn for it (the i-th draw for the i-th entry). */
  function Keyed(entries: seq<Entry>, draw: nat -> int): seq<(int, Entry)> {
    seq(|entries|, i requires 0 <= i < |entries| => (draw(i), entries[i]))
  }

  function KeyLe(p: (int, Entry), q: (int, Entry)): bool {
    p.0 <= q.0
  }

  function Second(p: (int, Entry)): Entry {
    p.1
  }

  /**
   * The sort step of GetFiles: by file name, or by a random key per entry
   * (`OrderBy(_ => Random.Shared.Next())`, the keys being `draw(0)`, `draw(1)`, ...).
   */
  function Arrange(entries: seq<Entry>, order: SortOrder, nameLeq: (string, string) -> bool, draw: nat -> int): seq<Entry> {
    match order
    case Alphabetical => SortBy(entries, ByName(nameLeq))
    case Random => Project(SortBy(Keyed(entries, draw), KeyLe), Second)
  }

  /** Either order keeps exactly the scanned entries. */
  lemma ArrangePermutes(entries: seq<Entry>, order: SortOrder, nameLeq: (string, string) -> bool, draw: nat -> int)
    ensures multiset(Arrange(entries, order, nameLeq, draw)) == multiset(entries)
  {
    match order
    case Alphabetical =>
      SortByIsPermutation(entries, ByName(nameLeq));
    case Random =>
      SortByPermutes(Keyed(entries, draw), KeyLe, Second);
      var keyed := Keyed(entries, draw);
      forall i | 0 <= i < |entries| ensures Project(keyed, Second)[i] == entries[i] {
        ProjectAt(keyed, Second, i);
      }
      assert Project(keyed, Second) == entries;
  }

  /** With a name comparer that is a total preorder, the alphabetical order is sorted by file name. */
  lemma ArrangeAlphabetical(entries: seq<Entry>, nameLeq: (string, string) -> bool, draw: nat -> int)
    requires TotalPreorder(nameLeq)
    ensures var r := Arrange(entries, Alphabetical, nameLeq, draw);
            forall i, j :: 0 <= i < j < |r| ==> nameLeq(r[i].filename, r[j].filename)
  {
    var le := ByName(nameLeq);
    assert TotalPreorder(le) by {
      forall a: Entry, b: Entry ensures le(a, b) || le(b, a) {
        assert nameLeq(a.filename, b.filename) || nameLeq(b.filename, a.filename);
      }
      forall a: Entry, b: Entry, c: Entry | le(a, b) && le(b, c) ensures le(a, c) {
        assert nameLeq(a.filename, b.filename) && nameLeq(b.filename, c.filename);
      }
    }
    SortBySorted(entries, le);
  }

  // ----- Starting entry -----

  predicate Matches(e: Entry, file: string, upper: char -> char) {
    EqualsIgnoreCase(e.fullPath, file, upper)
  }

  /** The first entry whose full path equals `file` ignoring case, if any. */
  function FirstMatch(files: seq<Entry>, file: string, upper: char -> char): (r: Option<nat>)
    ensures r.Some? ==> r.value < |files| && Matches(files[r.value], file, upper)
    ensures r.Some? ==> forall j :: 0 <= j < r.value ==> !Matches(files[j], file, upper)
    ensures r.None? ==> forall j :: 0 <= j < |files| ==> !Matches(files[j], file, upper)
  {
    if files == [] then None
    else if Matches(files[0], file, upper) then Some(0)
    else match FirstMatch(files[1..], file, upper)
      case None => None
      case Some(k) => Some(k + 1)
  }

  /** The selected index after GetFiles: the explicit file's first match, else 0 if there are any entries. */
  function StartIndex(files: seq<Entry>, file: Option<string>, upper: char -> char): (r: Option<nat>)
    ensures r.None? <==> files == []
    ensures r.Some? ==> r.value < |files|
    ensures file.Some? && (exists j :: 0 <= j < |files| && Matches(files[j], file.value, upper)) ==>
              r.Some? && Matches(files[r.value], file.value, upper) &&
              forall j :: 0 <= j < r.value ==> !Matches(files[j], file.value, upper)
    ensures files != [] && (file.None? || forall j :: 0 <= j < |files| ==> !Matches(files[j], file.value, upper)) ==>
              r == Some(0)
  {
    var found := if file.Some? then FirstMatch(files, file.value, upper) else None;
    if found.Some? then found else if files != [] then Some(0) else None
  }

  /** The explicit file is kept only when some entry matches it. */
  function KeptFile(files: seq<Entry>, file: Option<string>, upper: char -> char): (r: Option<string>)
    ensures r.Some? ==> r == file && exists j :: 0 <= j < |files| && Matches(files[j], file.value, upper)
    ensures file.Some? && (exists j :: 0 <= j < |files| && Matches(files[j], file.value, upper)) ==> r == file
  {
    if file.Some? && FirstMatch(files, file.value, upper).Some? then file else None
  }

  // ----- Navigation -----

  /** `_fileIndex ??= 0; _fileIndex++`, wrapping at the count. */
  function NextIndex(current: Option<nat>, count: nat): (r: nat)
    requires count > 0 && (current.Some? ==> current.value < count)
    ensures r == (current.GetOr(0) + 1) % count
  {
    var i := current.GetOr(0) + 1;
    if i == count then 0 else i
  }

  /** `_fileIndex ??= 0; _fileIndex--`, wrapping at -1. */
  function PreviousIndex(current: Option<nat>, count: nat): (r: nat)
    requires count > 0 && (current.Some? ==> current.value < count)
    ensures r == (current.GetOr(0) - 1) % count
  {
    var i := current.GetOr(0) - 1;
    if i == -1 then count - 1 else i
  }

  /** Previous undoes Next, and Next undoes Previous. */
  lemma NextPreviousInverse(i: nat, count: nat)
    requires i < count
    ensures PreviousIndex(Some(NextIndex(Some(i), count)), count) == i
    ensures NextIndex(Some(PreviousIndex(Some(i), count)), count) == i
  {
  }

  /** The index after `k` Next steps from `i`. */
  function NextTimes(i: nat, count: nat, k: nat): (r: nat)
    requires i < count
    ensures r < count
  {
    if k == 0 then i else NextIndex(Some(NextTimes(i, count, k - 1)), count)
  }

  /** Up to one full round, `k` Next steps move `k` places, wrapping once past the end. */
  lemma {:induction false} NextTimesMoves(i: nat, count: nat, k: nat)
    requires i < count && k <= count
    ensures NextTimes(i, count, k) == if i + k < count then i + k else i + k - count
  {
    if k > 0 {
      NextTimesMoves(i, count, k - 1);
    }
  }

  /** `count` Next steps come back to the starting entry. */
  lemma NextFullCycle(i: nat, count: nat)
    requires i < count
    ensures NextTimes(i, count, count) == i
  {
    NextTimesMoves(i, count, count);
  }

  // ----- Bitmap residency -----

  /** Indices of the entries that hold a bitmap. */
  function Holders(files: seq<Entry>): set<nat> {
    set j | 0 <= j < |files| && files[j].bitmap.Some?
  }

  /** Reordering a list in which no entry holds a bitmap leaves none holding one. */
  lemma ArrangeKeepsNoBitmaps(entries: seq<Entry>, order: SortOrder, nameLeq: (string, string) -> bool, draw: nat -> int)
    requires Holders(entries) == {}
    ensures Holders(Arrange(entries, order, nameLeq, draw)) == {}
  {
    var r := Arrange(entries, order, nameLeq, draw);
    ArrangePermutes(entries, order, nameLeq, draw);
    forall j | 0 <= j < |r| ensures r[j].bitmap.None? {
      assert r[j] in multiset(entries);
      var k :| 0 <= k < |entries| && entries[k] == r[j];
      assert k !in Holders(entries);
    }
  }

  /** Decode the entry's bitmap unless it has one; a failure records the message instead. */
  function Load(e: Entry, decode: string -> Decoded): (r: Entry)
    ensures r.fullPath == e.fullPath && r.filename == e.filename
    ensures e.bitmap.Some? ==> r == e
    ensures e.bitmap.None? ==> (r.bitmap.Some? <==> decode(e.fullPath).Loaded?)
    ensures e.bitmap.None? && decode(e.fullPath).Loaded? ==> r == e.(bitmap := Some(decode(e.fullPath).dims))
    ensures e.bitmap.None? && decode(e.fullPath).Failed? ==> r == e.(error := Some(decode(e.fullPath).message))
  {
    if e.bitmap.Some? then e
    else match decode(e.fullPath)
      case Loaded(d) => e.(bitmap := Some(d))
      case Failed(m) => e.(error := Some(m))
  }

  /** Release the pending entry's bitmap, if it holds one, and forget the pending index. */
  function Release(files: seq<Entry>, pending: Option<nat>): (seq<Entry>, Option<nat>)
    requires pending.Some? ==> pending.value < |files|
  {
    if pending.None? || files[pending.value].bitmap.None? then (files, pending)
    else
      var k := pending.value;
      (files[k := files[k].(bitmap := None)], None)
  }

  /** The list and pending index after showing entry `current`: load it, then release the pending one. */
  function Shown(files: seq<Entry>, current: nat, pending: Option<nat>, decode: string -> Decoded): (seq<Entry>, Option<nat>)
    requires current < |files| && (pending.Some? ==> pending.value < |files|)
  {
    Release(files[current := Load(files[current], decode)], pending)
  }

  /**
   * If bitmaps were held only by the current and the pending entry, afterwards
   * only the current one holds one, and it does exactly when it loaded and is
   * not itself the pending entry. The pending index is kept only when there was
   * nothing to release. The files are unchanged.
   */
  lemma ShownResidency(files: seq<Entry>, current: nat, pending: Option<nat>, decode: string -> Decoded)
    requires current < |files| && (pending.Some? ==> pending.value < |files|)
    requires Holders(files) <= {current} + Elements(pending)
    ensures var (after, pending') := Shown(files, current, pending, decode);
            && SameFiles(files, after)
            && Holders(after) <= {current}
            && (after[current].bitmap.Some? <==> Load(files[current], decode).bitmap.Some? && pending != Some(current))
            && (pending'.Some? ==> pending' == pending && after[pending'.value].bitmap.None?)
  {
    var loaded := files[current := Load(files[current], decode)];
    var (after, pending') := Shown(files, current, pending, decode);
    forall j | 0 <= j < |after| && j != current
      ensures after[j].bitmap.None?
    {
      assert loaded[j] == files[j];
      assert j in Holders(files) ==> j in Elements(pending);
    }
  }
}
