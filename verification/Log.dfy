/**
 The log appender: one current file and numbered older generations, rotated by
 size. A directory is a sequence of contents by generation, 0 the file being written,
 with nothing beyond its end. `Logger` is the appender as it runs; the lemmas after it
 are about every sequence of appends, each with its own limits, and restarts.
 */
module Log {
  import opened Names

  const HEADER := "\"Severity\",\"ThreadID\",\"Date\",\"Time\",\"Context\",\"Application\",\"Message\"\n"

  type Files = seq<Option<string>>

  /** The lines of each file that exists. */
  type History = seq<Option<seq<string>>>

  function Joined(lines: seq<string>): string {
    if lines == [] then "" else Joined(lines[..|lines| - 1]) + lines[|lines| - 1]
  }

  /** The contents of a file: the header, then whole lines. */
  function Contents(lines: seq<string>): string { HEADER + Joined(lines) }

  function FileOf(lines: Option<seq<string>>): Option<string> {
    match lines case Some(ls) => Some(Contents(ls)) case None => None
  }

  ghost predicate Directory(files: Files, h: History) {
    |files| == |h| >= 1 && forall k :: 0 <= k < |h| ==> files[k] == FileOf(h[k])
  }

  /** At least `n` names, the missing ones without a file. */
  function Padded<T>(s: seq<Option<T>>, n: nat): (r: seq<Option<T>>)
    ensures |r| == if |s| >= n then |s| else n
    ensures forall k :: 0 <= k < |r| ==> r[k] == if k < |s| then s[k] else None
  {
    s + seq(if |s| >= n then 0 else n - |s|, i => None)
  }

  /** Generations below `maxFiles` move up by one name over the last; those above it stay. */
  function Rotated<T>(s: seq<Option<T>>, maxFiles: nat): (r: seq<Option<T>>)
    requires s != []
    ensures |r| == (if |s| > maxFiles then |s| else maxFiles + 1) && r[0] == None
    ensures forall k :: 1 <= k <= maxFiles ==> r[k] == if k - 1 < |s| then s[k - 1] else None
    ensures forall k :: maxFiles < k < |r| ==> r[k] == s[k]
  {
    var p := Padded(s, maxFiles + 1);
    [None] + p[..maxFiles] + p[maxFiles + 1..]
  }

  // ---- What the operations mean ----

  function Opened(h: History): (r: History)
    requires h != []
    ensures r != [] && r[0].Some?
  {
    if h[0].Some? then h else h[0 := Some([])]
  }

  predicate Overflows(h: History, line: string, maxSize: nat)
    requires h != [] && h[0].Some?
  {
    maxSize > 0 && |Contents(h[0].value)| + |line| > maxSize
  }

  function Room(h: History, line: string, maxSize: nat, maxFiles: nat): (r: History)
    requires h != []
    ensures r != [] && r[0].Some?
  {
    var o := Opened(h);
    if Overflows(o, line, maxSize) then Opened(Rotated(o, maxFiles)) else o
  }

  function Logged(h: History, line: string, maxSize: nat, maxFiles: nat): (r: History)
    requires h != []
    ensures r != []
  {
    var r := Room(h, line, maxSize, maxFiles);
    r[0 := Some(r[0].value + [line])]
  }

  // ---- Files on disk ----

  /**
   What one append does to the files. While the line fits, it is added to the current file, begun
   with the header when there is none, and nothing else changes. Otherwise the current file becomes
   generation 1, the generations below the limit move up one name, and a new current file holds the
   header and the line.
   */
  predicate AppendedTo(was: Files, now: Files, line: string, maxSize: nat, maxFiles: nat) {
    && was != [] && now != []
    && var current := if was[0].Some? then was[0].value else HEADER;
       if maxSize == 0 || |current| + |line| <= maxSize then now == was[0 := Some(current + line)]
       else
         && |now| == (if |was| > maxFiles then |was| else maxFiles + 1)
         && now[0] == Some(HEADER + line)
         && (maxFiles > 0 ==> now[1] == Some(current))
         && (forall k :: 2 <= k <= maxFiles ==> now[k] == if k - 1 < |was| then was[k - 1] else None)
         && (forall k :: maxFiles < k < |now| && k > 0 ==> now[k] == was[k])
  }

  lemma {:induction false} RotatedDirectory(files: Files, h: History, maxFiles: nat)
    requires Directory(files, h)
    ensures Directory(Rotated(files, maxFiles), Rotated(h, maxFiles))
  {
    hide Contents;
    var p, q := Padded(files, maxFiles + 1), Padded(h, maxFiles + 1);
    assert forall k :: 0 <= k < |p| ==> p[k] == FileOf(q[k]);
  }

  lemma {:induction false} Shifted(now: Files, was: Files, n: nat)
    requires |now| == |was| > n && now[0] == None
    requires forall k :: 1 <= k <= n ==> now[k] == was[k - 1]
    requires forall k :: n < k < |was| ==> now[k] == was[k]
    ensures now == [None] + was[..n] + was[n + 1..]
  {
  }

  class Logger {
    var files: Files
    var isOpen: bool
    var size: nat
    ghost var history: History

    ghost predicate Valid()
      reads this
    {
      && Directory(files, history)
      && (isOpen ==> files[0].Some? && size == |files[0].value|)
    }

    constructor ()
      ensures Valid() && history == [None]
    {
      files, isOpen, size, history := [None], false, 0, [None];
    }

    /** Open the current file, writing the header when it is new. */
    method Open()
      requires Valid()
      modifies this
      ensures Valid() && isOpen && history == Opened(old(history))
      ensures files == if old(files)[0].Some? then old(files) else old(files)[0 := Some(HEADER)]
    {
      var existing := if files[0].Some? then |files[0].value| else 0;
      size := existing;
      if existing == 0 {
        files := files[0 := Some(HEADER)];
        size := size + |HEADER|;
      }
      isOpen := true;
      assert FileOf(history[0]) == old(files)[0];
      assert Contents([]) == HEADER;
      history := Opened(history);
    }

    /** `rotate`: remove the last generation, shift the others from the oldest down, then the current file. */
    method Rotate(maxFiles: nat)
      requires Valid() && isOpen
      modifies this
      ensures Valid() && !isOpen && history == Rotated(old(history), maxFiles)
      ensures files == Rotated(old(files), maxFiles)
    {
      hide Contents, Directory, Rotated;
      DirectorySize(files, history);
      RotatedDirectory(files, history, maxFiles);
      isOpen := false;
      history := Rotated(history, maxFiles);
      RemoveAndShift(maxFiles);
    }

    method RemoveAndShift(maxFiles: nat)
      requires files != []
      modifies `files
      ensures files == Rotated(old(files), maxFiles)
    {
      ghost var was := Padded(files, maxFiles + 1);
      files := Padded(files, maxFiles + 1);
      if maxFiles == 0 {
        files := files[0 := None];
        assert files == [None] + was[..0] + was[1..];
        return;
      }
      files := files[maxFiles := None];
      var n := maxFiles - 1;
      while n >= 1
        invariant 0 <= n < maxFiles && |files| == |was|
        invariant forall k :: 0 <= k <= n ==> files[k] == was[k]
        invariant files[n + 1] == None
        invariant forall k :: n + 2 <= k <= maxFiles ==> files[k] == was[k - 1]
        invariant forall k :: maxFiles < k < |was| ==> files[k] == was[k]
      {
        if files[n].Some? {
          files := files[n + 1 := files[n]][n := None];
        }
        n := n - 1;
      }
      files := files[1 := files[0]][0 := None];
      Shifted(files, was, maxFiles);
    }

    method Append(line: string, maxSize: nat, maxFiles: nat)
      requires Valid()
      modifies this
      ensures Valid() && isOpen && history == Logged(old(history), line, maxSize, maxFiles)
      ensures AppendedTo(old(files), files, line, maxSize, maxFiles)
    {
      hide Contents, Directory, Joined, Rotated;
      DirectorySize(files, history);
      if !isOpen {
        Open();
      }
      AlreadyOpen(files, history);
      var needsRotate := maxSize > 0 && size + |line| > maxSize && size > 0;
      if needsRotate {
        Rotate(maxFiles);
        DirectorySize(files, history);
        Open();
      }
      AlreadyOpen(files, history);
      LineAdded(files, history, line);
      files := files[0 := Some(files[0].value + line)];
      size := size + |line|;
      history := history[0 := Some(history[0].value + [line])];
    }

    /** Flush and drop the appender; the files stay. */
    method Close()
      requires Valid()
      modifies this
      ensures Valid() && !isOpen && history == old(history) && files == old(files)
    {
      isOpen := false;
    }
  }

  lemma {:induction false} DirectorySize(files: Files, h: History)
    requires Directory(files, h)
    ensures |files| == |h| >= 1 && (files[0].Some? <==> h[0].Some?)
  {
    assert files[0] == FileOf(h[0]);
  }

  lemma {:induction false} AlreadyOpen(files: Files, h: History)
    requires Directory(files, h)
    ensures |files| == |h| >= 1 && (files[0].Some? <==> h[0].Some?)
    ensures files[0].Some? ==> h == Opened(h) && files[0].value == Contents(h[0].value) && files[0].value != ""
  {
    assert files[0] == FileOf(h[0]);
    assert h[0].Some? ==> |Contents(h[0].value)| >= |HEADER|;
  }

  lemma {:induction false} LineAdded(files: Files, h: History, line: string)
    requires Directory(files, h) && h[0].Some?
    ensures files != [] && files[0].Some?
    ensures Directory(files[0 := Some(files[0].value + line)], h[0 := Some(h[0].value + [line])])
  {
    var lines := h[0].value;
    assert files[0] == FileOf(h[0]);
    assert (lines + [line])[..|lines|] == lines;
    assert Contents(lines) + line == Contents(lines + [line]);
  }

  // ---- Every run ----

  datatype Act = Write(line: string, maxSize: nat, maxFiles: nat) | Restart

  function After(h: History, a: Act): (r: History)
    requires h != []
    ensures r != []
  {
    match a case Write(line, maxSize, maxFiles) => Logged(h, line, maxSize, maxFiles) case Restart => h
  }

  function RunLog(acts: seq<Act>): (r: History)
    ensures r != []
  {
    if acts == [] then [None] else After(RunLog(acts[..|acts| - 1]), acts[|acts| - 1])
  }

  function Lines(acts: seq<Act>): seq<string> {
    if acts == [] then []
    else Lines(acts[..|acts| - 1]) + match acts[|acts| - 1] case Write(line, _, _) => [line] case Restart => []
  }

  function LinesOf(lines: Option<seq<string>>): seq<string> {
    match lines case Some(ls) => ls case None => []
  }

  /** The lines of all files, oldest first. */
  function Retained(h: History): seq<string> {
    if h == [] then [] else Retained(h[1..]) + LinesOf(h[0])
  }

  predicate IsSuffix(a: seq<string>, b: seq<string>) {
    |a| <= |b| && a == b[|b| - |a|..]
  }

  lemma {:induction false} RetainedAppend(a: History, b: History)
    ensures Retained(a + b) == Retained(b) + Retained(a)
    decreases |a|
  {
    if a == [] {
      assert a + b == b && Retained(b) + [] == Retained(b);
    } else {
      assert (a + b)[1..] == a[1..] + b;
      RetainedAppend(a[1..], b);
      assert Retained(b) + Retained(a[1..]) + LinesOf(a[0]) == Retained(b) + (Retained(a[1..]) + LinesOf(a[0]));
    }
  }

  lemma {:induction false} NothingRetained(h: History)
    requires forall k :: 0 <= k < |h| ==> h[k] == None
    ensures Retained(h) == []
    decreases |h|
  {
    if h != [] {
      NothingRetained(h[1..]);
    }
  }

  lemma {:induction false} PaddedRetains(h: History, n: nat)
    ensures Retained(Padded(h, n)) == Retained(h)
  {
    hide Retained;
    var pad: History := seq(if |h| >= n then 0 else n - |h|, i => None);
    RetainedAppend(h, pad);
    NothingRetained(pad);
    assert Padded(h, n) == h + pad;
    assert [] + Retained(h) == Retained(h);
  }

  /** Lines of the generations above a rotation's limit, in the one it drops, and in those it keeps. */
  function Stale(h: History, maxFiles: nat): seq<string> { Retained(Padded(h, maxFiles + 1)[maxFiles + 1..]) }

  function Dropped(h: History, maxFiles: nat): seq<string> { LinesOf(Padded(h, maxFiles + 1)[maxFiles]) }

  function Kept(h: History, maxFiles: nat): seq<string> { Retained(Padded(h, maxFiles + 1)[..maxFiles]) }

  lemma {:induction false} RotationSplits(h: History, maxFiles: nat)
    requires h != []
    ensures Retained(h) == Stale(h, maxFiles) + Dropped(h, maxFiles) + Kept(h, maxFiles)
    ensures Retained(Rotated(h, maxFiles)) == Stale(h, maxFiles) + Kept(h, maxFiles)
  {
    var p := Padded(h, maxFiles + 1);
    PaddedRetains(h, maxFiles + 1);
    var low, high := p[..maxFiles], p[maxFiles + 1..];
    assert p == low + ([p[maxFiles]] + high);
    RetainedAppend(low, [p[maxFiles]] + high);
    assert ([p[maxFiles]] + high)[1..] == high;
    var none: History := [None];
    assert Rotated(h, maxFiles) == (none + low) + high;
    RetainedAppend(none + low, high);
    assert (none + low)[1..] == low;
    assert Retained(low) + [] == Retained(low);
  }

  predicate AllDifferent(s: seq<string>) {
    forall i, j :: 0 <= i < j < |s| ==> s[i] != s[j]
  }

  /**
   What a rotation leaves is still the last lines logged, none lost in between, exactly when
   it drops nothing or no generation lies above its limit.
   */
  lemma {:induction false} RotationExact(h: History, maxFiles: nat, all: seq<string>)
    requires h != [] && IsSuffix(Retained(h), all) && AllDifferent(all)
    ensures IsSuffix(Retained(Rotated(h, maxFiles)), all) <==> Dropped(h, maxFiles) == [] || Stale(h, maxFiles) == []
  {
    hide Retained, Stale, Dropped, Kept, Rotated;
    RotationSplits(h, maxFiles);
    var s, d, k := Stale(h, maxFiles), Dropped(h, maxFiles), Kept(h, maxFiles);
    SuffixParts(s, d, k, all);
  }

  lemma {:induction false} SuffixParts(s: seq<string>, d: seq<string>, k: seq<string>, all: seq<string>)
    requires IsSuffix(s + d + k, all)
    ensures d == [] || s == [] ==> IsSuffix(s + k, all)
    ensures AllDifferent(all) && d != [] && s != [] ==> !IsSuffix(s + k, all)
  {
    var n := |all| - |s + d + k|;
    if d == [] {
      assert s + d + k == s + k;
    } else if s == [] {
      assert (s + d + k)[|d|..] == k && s + k == k;
    } else if AllDifferent(all) {
      var m := |all| - |s + k|;
      assert all[n] == (s + d + k)[0] == s[0];
      assert all[m] != all[n];
      assert all[m..][0] == all[m] && (s + k)[0] == s[0];
    }
  }

  predicate AboveEmpty(h: History, maxFiles: nat) {
    forall k :: maxFiles < k < |h| ==> h[k] == None
  }

  /** The limits never go down. */
  predicate Growing(acts: seq<Act>) {
    forall i, j :: 0 <= i < j < |acts| && acts[i].Write? && acts[j].Write? ==> acts[i].maxFiles <= acts[j].maxFiles
  }

  predicate Reaches(acts: seq<Act>, m: nat) {
    forall i :: 0 <= i < |acts| && acts[i].Write? ==> acts[i].maxFiles <= m
  }

  lemma {:induction false} LoggedAbove(h: History, line: string, maxSize: nat, maxFiles: nat, m: nat)
    requires h != [] && AboveEmpty(h, m) && maxFiles <= m
    ensures AboveEmpty(Logged(h, line, maxSize, maxFiles), m)
  {
    hide Contents;
  }

  lemma {:induction false} NothingAbove(acts: seq<Act>, m: nat)
    requires Reaches(acts, m)
    ensures AboveEmpty(RunLog(acts), m)
    decreases |acts|
  {
    hide Logged;
    if acts != [] {
      var front, a := acts[..|acts| - 1], acts[|acts| - 1];
      NothingAbove(front, m);
      if a.Write? {
        LoggedAbove(RunLog(front), a.line, a.maxSize, a.maxFiles, m);
      }
    }
  }

  lemma {:induction false} OpenedRetains(h: History)
    requires h != []
    ensures Retained(Opened(h)) == Retained(h)
  {
    if h[0].None? {
      assert Opened(h)[1..] == h[1..];
    }
  }

  lemma {:induction false} LoggedRetains(h: History, line: string, maxSize: nat, maxFiles: nat, all: seq<string>)
    requires h != [] && IsSuffix(Retained(h), all) && AboveEmpty(h, maxFiles)
    ensures IsSuffix(Retained(Logged(h, line, maxSize, maxFiles)), all + [line])
  {
    hide Retained, Contents, Rotated, Stale, Dropped, Kept, Joined;
    var o := Opened(h);
    OpenedRetains(h);
    var r := Room(h, line, maxSize, maxFiles);
    if Overflows(o, line, maxSize) {
      OpenedRetains(Rotated(o, maxFiles));
      RotationSplits(o, maxFiles);
      NothingStale(o, maxFiles);
      SuffixParts(Stale(o, maxFiles), Dropped(o, maxFiles), Kept(o, maxFiles), all);
    }
    assert IsSuffix(Retained(r), all);
    LineRetained(r, line);
  }

  lemma {:induction false} NothingStale(h: History, maxFiles: nat)
    requires AboveEmpty(h, maxFiles)
    ensures Stale(h, maxFiles) == []
  {
    hide Retained;
    NothingRetained(Padded(h, maxFiles + 1)[maxFiles + 1..]);
  }

  lemma {:induction false} LineRetained(h: History, line: string)
    requires h != [] && h[0].Some?
    ensures Retained(h[0 := Some(h[0].value + [line])]) == Retained(h) + [line]
  {
    assert h[0 := Some(h[0].value + [line])][1..] == h[1..];
  }

  /** With headers removed, the files that remain hold, oldest first, the last lines logged: none lost in between. */
  lemma {:induction false} RunRetainsSuffix(acts: seq<Act>)
    requires Growing(acts)
    ensures IsSuffix(Retained(RunLog(acts)), Lines(acts))
    decreases |acts|
  {
    hide Retained, Logged, IsSuffix;
    if acts == [] {
      NothingYet();
    } else {
      var front, a := acts[..|acts| - 1], acts[|acts| - 1];
      RunRetainsSuffix(front);
      if a.Write? {
        assert Reaches(front, a.maxFiles);
        NothingAbove(front, a.maxFiles);
        LoggedRetains(RunLog(front), a.line, a.maxSize, a.maxFiles, Lines(front));
      } else {
        assert Lines(front) + [] == Lines(front);
      }
    }
  }

  lemma {:induction false} NothingYet()
    ensures IsSuffix(Retained([None]), [])
  {
    assert Retained([]) == [];
  }

  /** An input: after the limit goes from three generations to one, the second line is gone and the first is not. */
  lemma {:induction false} LoweringLoses()
    ensures var acts := [Write("a", 1, 3), Write("b", 1, 3), Write("c", 1, 3), Write("d", 1, 1)];
            Retained(RunLog(acts)) == ["a", "c", "d"] && Lines(acts) == ["a", "b", "c", "d"]
  {
    hide RunLog, Logged, Rotated, Retained, Lines;
    var a, b, c, d := Write("a", 1, 3), Write("b", 1, 3), Write("c", 1, 3), Write("d", 1, 1);
    var empty: Option<seq<string>> := Some([]);
    RunSnoc([], a);
    RunSnoc([a], b);
    RunSnoc([a, b], c);
    RunSnoc([a, b, c], d);
    assert [] + [a] == [a] && [a] + [b] == [a, b] && [a, b] + [c] == [a, b, c] && [a, b, c] + [d] == [a, b, c, d];
    AlwaysFull([None], "a", 3);
    assert Opened([None]) == [empty];
    FirstRotation(empty);
    assert RunLog([a]) == [Some(["a"]), empty, None, None];
    AlwaysFull(RunLog([a]), "b", 3);
    RotateFour(Some(["a"]), empty, None, None);
    assert RunLog([a, b]) == [Some(["b"]), Some(["a"]), empty, None];
    AlwaysFull(RunLog([a, b]), "c", 3);
    RotateFour(Some(["b"]), Some(["a"]), empty, None);
    assert RunLog([a, b, c]) == [Some(["c"]), Some(["b"]), Some(["a"]), empty];
    AlwaysFull(RunLog([a, b, c]), "d", 1);
    RotateFour(Some(["c"]), Some(["b"]), Some(["a"]), empty);
    assert RunLog([a, b, c, d]) == [Some(["d"]), Some(["c"]), Some(["a"]), empty];
    FourFiles(["d"], ["c"], ["a"], []);
  }

  lemma {:induction false} RunSnoc(acts: seq<Act>, a: Act)
    requires a.Write?
    ensures RunLog(acts + [a]) == After(RunLog(acts), a) && Lines(acts + [a]) == Lines(acts) + [a.line]
    ensures RunLog([]) == [None] && Lines([]) == []
  {
    assert (acts + [a])[..|acts|] == acts;
  }

  lemma {:induction false} FirstRotation(p: Option<seq<string>>)
    ensures Rotated([p], 3) == [None, p, None, None]
  {
  }

  lemma {:induction false} RotateFour(p: Option<seq<string>>, q: Option<seq<string>>, r: Option<seq<string>>, s: Option<seq<string>>)
    ensures Rotated([p, q, r, s], 3) == [None, p, q, r] && Rotated([p, q, r, s], 1) == [None, p, r, s]
  {
  }

  lemma {:induction false} FourFiles(p: seq<string>, q: seq<string>, r: seq<string>, s: seq<string>)
    ensures Retained([Some(p), Some(q), Some(r), Some(s)]) == s + r + q + p
  {
    var h: History := [Some(p), Some(q), Some(r), Some(s)];
    assert h[1..] == [Some(q), Some(r), Some(s)] && h[1..][1..] == [Some(r), Some(s)] && h[1..][1..][1..] == [Some(s)];
    assert h[1..][1..][1..][1..] == [];
    assert Retained(h[1..][1..][1..]) == s;
    assert Retained(h[1..][1..]) == s + r;
    assert Retained(h[1..]) == s + r + q;
  }

  /** With a limit of one byte every append rotates. */
  lemma {:induction false} AlwaysFull(h: History, line: string, maxFiles: nat)
    requires h != []
    ensures Logged(h, line, 1, maxFiles) == Rotated(Opened(h), maxFiles)[0 := Some([line])]
  {
    hide Joined;
    assert [] + [line] == [line];
  }

  /** A file is within the limit, or holds a single line at most. */
  predicate FileSmall(lines: Option<seq<string>>, maxSize: nat) {
    lines.Some? ==> |Contents(lines.value)| <= maxSize || |lines.value| <= 1
  }

  predicate AllSmall(h: History, maxSize: nat) {
    forall k :: 0 <= k < |h| ==> FileSmall(h[k], maxSize)
  }

  /** Every append had a size limit, none above `maxSize`. */
  predicate Limited(acts: seq<Act>, maxSize: nat) {
    forall i :: 0 <= i < |acts| && acts[i].Write? ==> 0 < acts[i].maxSize <= maxSize
  }

  lemma {:induction false} RunStaysSmall(acts: seq<Act>, maxSize: nat)
    requires Limited(acts, maxSize)
    ensures AllSmall(RunLog(acts), maxSize)
    decreases |acts|
  {
    hide Contents, Logged;
    if acts != [] {
      var front, a := acts[..|acts| - 1], acts[|acts| - 1];
      RunStaysSmall(front, maxSize);
      if a.Write? {
        LoggedSmall(RunLog(front), a.line, a.maxSize, a.maxFiles, maxSize);
      }
    }
  }

  lemma {:induction false} LoggedSmall(h: History, line: string, maxSize: nat, maxFiles: nat, most: nat)
    requires h != [] && 0 < maxSize <= most && AllSmall(h, most)
    ensures AllSmall(Logged(h, line, maxSize, maxFiles), most)
  {
    hide Joined;
    var o := Opened(h);
    var r := Room(h, line, maxSize, maxFiles);
    JoinedSnoc(r[0].value, line);
    assert AllSmall(o, most);
    assert AllSmall(Rotated(o, maxFiles), most);
  }

  lemma {:induction false} JoinedSnoc(lines: seq<string>, line: string)
    ensures |Contents(lines + [line])| == |Contents(lines)| + |line|
  {
    assert (lines + [line])[..|lines|] == lines;
  }

  /** Every line of every file was logged. */
  lemma {:induction false} OnlyLogged(acts: seq<Act>, k: nat, line: string)
    requires var h := RunLog(acts); k < |h| && h[k].Some? && line in h[k].value
    ensures line in Lines(acts)
    decreases |acts|
  {
    hide Contents;
    if acts != [] {
      var front, a := acts[..|acts| - 1], acts[|acts| - 1];
      if a.Restart? {
        OnlyLogged(front, k, line);
      } else if line != a.line {
        var j := CameFrom(RunLog(front), a, k, line);
        OnlyLogged(front, j, line);
      }
    }
  }

  lemma {:induction false} CameFrom(h: History, a: Act, k: nat, line: string) returns (j: nat)
    requires h != [] && a.Write? && line != a.line
    requires var r := After(h, a); k < |r| && r[k].Some? && line in r[k].value
    ensures j < |h| && h[j].Some? && line in h[j].value
  {
    hide Contents;
    var o := Opened(h);
    if Overflows(o, a.line, a.maxSize) {
      j := if k <= a.maxFiles then k - 1 else k;
    } else {
      j := k;
    }
  }

  /** No file is longer than the larger of the limits and the header with one of the lines logged. */
  lemma {:induction false} NoFileTooLong(acts: seq<Act>, maxSize: nat, files: Files, k: nat)
    requires Limited(acts, maxSize) && Directory(files, RunLog(acts)) && k < |files| && files[k].Some?
    ensures HEADER <= files[k].value
    ensures |files[k].value| <= maxSize || files[k].value == HEADER
            || exists line :: line in Lines(acts) && files[k].value == HEADER + line
  {
    hide RunLog, Retained;
    RunStaysSmall(acts, maxSize);
    var h := RunLog(acts);
    assert files[k] == FileOf(h[k]);
    var lines := h[k].value;
    assert FileSmall(h[k], maxSize);
    assert files[k].value == Contents(lines) && HEADER == Contents(lines)[..|HEADER|];
    if |lines| == 1 {
      assert lines[..0] == [] && Joined(lines) == "" + lines[0];
      assert Contents(lines) == HEADER + lines[0];
      OnlyLogged(acts, k, lines[0]);
    }
  }
}
