/** Reading a rotating log from a durable cursor. */
module Tailer {
  import opened Basics

  type Bytes = seq<int>

  const NEWLINE := 10
  const MAX_READ_BYTES := 4 * 1024 * 1024

  datatype File = File(inode: int, bytes: Bytes)

  /** What the directory shows: the live file, if it is there, and the rotated ones. */
  datatype Dir = Dir(live: Option<File>, rotated: seq<File>)

  datatype Cursor = Cursor(inode: int, offset: nat)

  /** `Missing` is the error raised when a first read finds no live file. */
  datatype Chunk = Missing | Chunk(lines: seq<Bytes>, cursor: Cursor)

  // ---- one read --------------------------------------------------------------------------

  function FirstNewline(b: Bytes): (i: nat)
    ensures i <= |b| && NEWLINE !in b[..i] && (i < |b| ==> b[i] == NEWLINE)
  {
    if b == [] || b[0] == NEWLINE then 0
    else
      var i := 1 + FirstNewline(b[1..]);
      assert b[..i] == [b[0]] + b[1..][..i - 1];
      i
  }

  /** Split at newlines; the last piece is what follows the last newline. */
  function Split(b: Bytes): (r: seq<Bytes>)
    ensures r != []
    decreases |b|
  {
    var i := FirstNewline(b);
    if i == |b| then [b] else [b[..i]] + Split(b[i + 1..])
  }

  function Consumed(lines: seq<Bytes>): nat {
    if lines == [] then 0 else |lines[0]| + 1 + Consumed(lines[1..])
  }

  /** The bytes seen from `offset` on, at most `max` of them; nothing past the end. */
  function Window(f: File, offset: nat, max: nat): Bytes {
    if offset >= |f.bytes| then [] else f.bytes[offset..MinI(offset + max, |f.bytes|)]
  }

  function ReadWindow(f: File, offset: nat, max: nat): (seq<Bytes>, nat) {
    var pieces := Split(Window(f, offset, max));
    var complete := pieces[..|pieces| - 1];
    (complete, offset + Consumed(complete))
  }

  function FindByInode(files: seq<File>, inode: int): Option<File> {
    if files == [] then None
    else if files[0].inode == inode then Some(files[0])
    else FindByInode(files[1..], inode)
  }

  function FromStart(f: File, max: nat): Chunk {
    var (lines, end) := ReadWindow(f, 0, max);
    Chunk(lines, Cursor(f.inode, end))
  }

  function ReadChunk(dir: Dir, cursor: Option<Cursor>, max: nat): Chunk {
    if cursor.None? then
      if dir.live.None? then Missing else FromStart(dir.live.value, max)
    else
      var c := cursor.value;
      if dir.live.Some? && dir.live.value.inode == c.inode then
        var f := dir.live.value;
        if |f.bytes| < c.offset then FromStart(f, max)
        else
          var (lines, end) := ReadWindow(f, c.offset, max);
          Chunk(lines, Cursor(f.inode, end))
      else
        match FindByInode(dir.rotated, c.inode)
        case Some(prev) =>
          var offset := if |prev.bytes| >= c.offset then c.offset else 0;
          var (lines, end) := ReadWindow(prev, offset, max);
          Chunk(lines, if end >= |prev.bytes| && dir.live.Some? then Cursor(dir.live.value.inode, 0)
                else Cursor(prev.inode, end))
        case None =>
          if dir.live.None? then Chunk([], c) else FromStart(dir.live.value, max)
  }

  // ---- what a window yields ---------------------------------------------------------------

  /** Lines joined back, each with its newline. */
  function Unlines(lines: seq<Bytes>): Bytes {
    if lines == [] then [] else lines[0] + [NEWLINE] + Unlines(lines[1..])
  }

  ghost predicate NewlineFree(lines: seq<Bytes>) {
    forall l :: l in lines ==> NEWLINE !in l
  }

  lemma {:induction false} UnlinesLength(lines: seq<Bytes>)
    ensures |Unlines(lines)| == Consumed(lines)
  {
    if lines != [] { UnlinesLength(lines[1..]); }
  }

  lemma {:induction false} UnlinesConcat(a: seq<Bytes>, b: seq<Bytes>)
    ensures Unlines(a + b) == Unlines(a) + Unlines(b)
  {
    if a == [] {
      assert a + b == b;
    } else {
      UnlinesConcat(a[1..], b);
      assert (a + b)[1..] == a[1..] + b;
    }
  }

  /** Pieces put back with a newline between them. */
  function Rejoined(pieces: seq<Bytes>): Bytes
    requires pieces != []
  {
    if |pieces| == 1 then pieces[0] else pieces[0] + [NEWLINE] + Rejoined(pieces[1..])
  }

  lemma {:induction false} RejoinedIsUnlines(r: seq<Bytes>)
    requires r != []
    ensures Rejoined(r) == Unlines(r[..|r| - 1]) + r[|r| - 1]
  {
    var n := |r| - 1;
    if n == 0 {
      assert r[..0] == [];
    } else {
      RejoinedIsUnlines(r[1..]);
      assert r[..n][1..] == r[1..][..n - 1];
      assert Unlines(r[..n]) == r[0] + [NEWLINE] + Unlines(r[1..][..n - 1]);
    }
  }

  lemma RejoinsOne(b: Bytes, i: nat, rest: seq<Bytes>)
    requires i < |b| && b[i] == NEWLINE && rest != [] && Rejoined(rest) == b[i + 1..]
    ensures Rejoined([b[..i]] + rest) == b
  {
    assert ([b[..i]] + rest)[1..] == rest;
    assert b == b[..i] + [NEWLINE] + b[i + 1..];
  }

  lemma {:induction false} SplitRejoins(b: Bytes)
    ensures Rejoined(Split(b)) == b
    decreases |b|
  {
    var i := FirstNewline(b);
    if i < |b| {
      SplitRejoins(b[i + 1..]);
      RejoinsOne(b, i, Split(b[i + 1..]));
    }
  }

  /** The pieces rebuild the bytes. */
  lemma SplitJoins(b: Bytes)
    ensures var r := Split(b); Unlines(r[..|r| - 1]) + r[|r| - 1] == b
  {
    SplitRejoins(b);
    RejoinedIsUnlines(Split(b));
  }

  /** No piece holds a newline. */
  lemma {:induction false} SplitIsNewlineFree(b: Bytes)
    ensures NewlineFree(Split(b))
    decreases |b|
  {
    var i := FirstNewline(b);
    if i < |b| { SplitIsNewlineFree(b[i + 1..]); } else { assert b[..i] == b; }
  }

  lemma {:induction false} SplitNeedsNewline(b: Bytes)
    ensures |Split(b)| > 1 <==> NEWLINE in b
  {
    var i := FirstNewline(b);
    if i == |b| { assert b[..i] == b; }
  }

  /** A window yields newline-free lines that are exactly the bytes passed over, and it passes over
      something exactly when it holds a newline. */
  lemma WindowYields(f: File, offset: nat, max: nat)
    requires offset <= |f.bytes|
    ensures var (lines, end) := ReadWindow(f, offset, max);
            && offset <= end <= |f.bytes|
            && Unlines(lines) == f.bytes[offset..end]
            && NewlineFree(lines)
            && (end > offset <==> NEWLINE in Window(f, offset, max))
  {
    var w := Window(f, offset, max);
    var pieces := Split(w);
    var complete := pieces[..|pieces| - 1];
    SplitJoins(w);
    SplitIsNewlineFree(w);
    SplitNeedsNewline(w);
    UnlinesLength(complete);
    var n := |Unlines(complete)|;
    assert w[..n] == Unlines(complete);
    WindowSlice(f, offset, max, n);
    if |complete| > 0 { assert Consumed(complete) > 0; }
  }

  lemma WindowSlice(f: File, offset: nat, max: nat, n: nat)
    requires offset <= |f.bytes| && n <= |Window(f, offset, max)|
    ensures offset + n <= |f.bytes| && Window(f, offset, max)[..n] == f.bytes[offset..offset + n]
  {
  }

  // ---- the log as one stream --------------------------------------------------------------

  /** All files the log ever had, oldest first; the last one is live. */
  type Log = seq<File>

  ghost predicate GoodLog(log: Log) {
    log != [] && forall i, j :: 0 <= i < j < |log| ==> log[i].inode != log[j].inode
  }

  /** Bytes in the files before file `i`. */
  function Start(log: Log, i: nat): nat
    requires i <= |log|
  {
    if i == 0 then 0 else Start(log, i - 1) + |log[i - 1].bytes|
  }

  function Stream(log: Log): Bytes {
    if log == [] then [] else Stream(log[..|log| - 1]) + log[|log| - 1].bytes
  }

  /** The cursor is in file `i` and not past its end. */
  predicate In(log: Log, c: Cursor, i: int) {
    0 <= i < |log| && log[i].inode == c.inode && c.offset <= |log[i].bytes|
  }

  /** At most one rotation is outstanding: the cursor is in the live file or the one before it. */
  predicate Recent(log: Log, c: Cursor) {
    In(log, c, |log| - 1) || In(log, c, |log| - 2)
  }

  /** Position of a cursor in the stream. */
  function Pos(log: Log, c: Cursor): nat
    requires Recent(log, c)
  {
    Start(log, if In(log, c, |log| - 1) then |log| - 1 else |log| - 2) + c.offset
  }

  /** The directory shows the live file and, unless it is the live one, the cursor's file. Older files
      may have been deleted. */
  ghost predicate Shows(log: Log, dir: Dir, cursor: Option<Cursor>) {
    && log != [] && dir.live == Some(log[|log| - 1])
    && (forall f :: f in dir.rotated ==> f in log[..|log| - 1])
    && (cursor.Some? && In(log, cursor.value, |log| - 2) ==> log[|log| - 2] in dir.rotated)
  }

  lemma {:induction false} StreamSlice(log: Log, i: nat, a: nat, b: nat)
    requires i < |log| && a <= b <= |log[i].bytes|
    ensures Start(log, i) + b <= Start(log, |log|) == |Stream(log)|
    ensures Stream(log)[Start(log, i) + a..Start(log, i) + b] == log[i].bytes[a..b]
    decreases |log|
  {
    var n := |log| - 1;
    StartOfPrefix(log, n, n);
    StartOfPrefix(log, n, i);
    if i < n {
      StreamSlice(log[..n], i, a, b);
      SliceOfFirst(Stream(log[..n]), log[n].bytes, Start(log, i) + a, Start(log, i) + b);
    } else {
      StreamLength(log[..n]);
      SliceOfSecond(Stream(log[..n]), log[n].bytes, a, b);
    }
  }

  lemma SliceOfFirst(x: Bytes, y: Bytes, a: nat, b: nat)
    requires a <= b <= |x|
    ensures (x + y)[a..b] == x[a..b]
  {
  }

  lemma SliceOfSecond(x: Bytes, y: Bytes, a: nat, b: nat)
    requires a <= b <= |y|
    ensures (x + y)[|x| + a..|x| + b] == y[a..b]
  {
  }

  lemma {:induction false} StreamLength(log: Log)
    ensures |Stream(log)| == Start(log, |log|)
  {
    if log != [] {
      StreamLength(log[..|log| - 1]);
      StartOfPrefix(log, |log| - 1, |log| - 1);
    }
  }

  lemma {:induction false} StartOfPrefix(log: Log, n: nat, i: nat)
    requires i <= n <= |log|
    ensures Start(log[..n], i) == Start(log, i)
    decreases i
  {
    if i > 0 { StartOfPrefix(log, n, i - 1); }
  }

  lemma {:induction false} FindFinds(files: seq<File>, f: File)
    requires f in files && forall g :: g in files && g.inode == f.inode ==> g == f
    ensures FindByInode(files, f.inode) == Some(f)
  {
    if files[0] != f { FindFinds(files[1..], f); }
  }

  lemma OldFileFound(log: Log, dir: Dir, c: Cursor)
    requires GoodLog(log) && Shows(log, dir, Some(c)) && In(log, c, |log| - 2)
    ensures FindByInode(dir.rotated, c.inode) == Some(log[|log| - 2])
    ensures dir.live.value.inode != c.inode
  {
    var f := log[|log| - 2];
    forall g | g in dir.rotated && g.inode == f.inode ensures g == f {
      assert g in log[..|log| - 1];
      var k :| 0 <= k < |log| - 1 && log[k] == g;
    }
    FindFinds(dir.rotated, f);
  }

  /** What one read does to a cursor that is at most one rotation behind. */
  ghost predicate Advances(log: Log, c: Cursor, lines: seq<Bytes>, c': Cursor) {
    && Recent(log, c) && Recent(log, c')
    && Pos(log, c) <= Pos(log, c') <= |Stream(log)|
    && Unlines(lines) == Stream(log)[Pos(log, c)..Pos(log, c')]
    && NewlineFree(lines)
  }

  lemma PosLive(log: Log, c: Cursor)
    requires In(log, c, |log| - 1)
    ensures Recent(log, c) && Pos(log, c) == Start(log, |log| - 1) + c.offset
  {
  }

  lemma PosPrevious(log: Log, c: Cursor)
    requires GoodLog(log) && In(log, c, |log| - 2)
    ensures Recent(log, c) && Pos(log, c) == Start(log, |log| - 2) + c.offset
  {
  }

  lemma LiveWindowAdvances(log: Log, c: Cursor, max: nat)
    requires GoodLog(log) && In(log, c, |log| - 1)
    ensures var (lines, end) := ReadWindow(log[|log| - 1], c.offset, max);
            Advances(log, c, lines, Cursor(c.inode, end))
  {
    var n := |log| - 1;
    var (lines, end) := ReadWindow(log[n], c.offset, max);
    WindowYields(log[n], c.offset, max);
    StreamSlice(log, n, c.offset, end);
    PosLive(log, c);
    PosLive(log, Cursor(c.inode, end));
  }

  lemma LiveReadAdvances(log: Log, dir: Dir, c: Cursor, max: nat)
    requires GoodLog(log) && Shows(log, dir, Some(c)) && In(log, c, |log| - 1)
    ensures var r := ReadChunk(dir, Some(c), max);
            r.Chunk? && Advances(log, c, r.lines, r.cursor)
  {
    LiveWindowAdvances(log, c, max);
  }

  /** Where the reader of a rotated file goes: on in that file, or to the start of the live one. */
  function AfterOld(log: Log, end: nat): Cursor
    requires |log| >= 2
  {
    var n := |log| - 1;
    if end >= |log[n - 1].bytes| then Cursor(log[n].inode, 0) else Cursor(log[n - 1].inode, end)
  }

  lemma OldWindowAdvances(log: Log, c: Cursor, max: nat)
    requires GoodLog(log) && In(log, c, |log| - 2)
    ensures var (lines, end) := ReadWindow(log[|log| - 2], c.offset, max);
            Advances(log, c, lines, AfterOld(log, end))
  {
    var n := |log| - 1;
    var (lines, end) := ReadWindow(log[n - 1], c.offset, max);
    WindowYields(log[n - 1], c.offset, max);
    StreamSlice(log, n - 1, c.offset, end);
    PosPrevious(log, c);
    PosAfterOld(log, end);
  }

  lemma PosAfterOld(log: Log, end: nat)
    requires GoodLog(log) && |log| >= 2 && end <= |log[|log| - 2].bytes|
    ensures Recent(log, AfterOld(log, end)) && Pos(log, AfterOld(log, end)) == Start(log, |log| - 2) + end
  {
    var n := |log| - 1;
    if end == |log[n - 1].bytes| {
      PosLive(log, AfterOld(log, end));
      assert Start(log, n) == Start(log, n - 1) + |log[n - 1].bytes|;
    } else {
      PosPrevious(log, AfterOld(log, end));
    }
  }

  lemma OldReadAdvances(log: Log, dir: Dir, c: Cursor, max: nat)
    requires GoodLog(log) && Shows(log, dir, Some(c)) && In(log, c, |log| - 2)
    ensures var r := ReadChunk(dir, Some(c), max);
            r.Chunk? && Advances(log, c, r.lines, r.cursor)
  {
    OldFileFound(log, dir, c);
    OldWindowAdvances(log, c, max);
  }

  /** The lines of a read are exactly the stream between the two cursors. */
  lemma ReadAdvances(log: Log, dir: Dir, c: Cursor, max: nat)
    requires GoodLog(log) && Shows(log, dir, Some(c)) && Recent(log, c)
    ensures var r := ReadChunk(dir, Some(c), max);
            r.Chunk? && Advances(log, c, r.lines, r.cursor)
  {
    if In(log, c, |log| - 1) { LiveReadAdvances(log, dir, c, max); } else { OldReadAdvances(log, dir, c, max); }
  }

  /** A first read starts at the beginning of the live file. */
  lemma FirstReadAdvances(log: Log, dir: Dir, max: nat)
    requires GoodLog(log) && Shows(log, dir, None)
    ensures var r := ReadChunk(dir, None, max);
            r.Chunk? && Advances(log, Cursor(log[|log| - 1].inode, 0), r.lines, r.cursor)
  {
    var c := Cursor(log[|log| - 1].inode, 0);
    assert ReadChunk(dir, None, max) == ReadChunk(dir, Some(c), max);
    LiveReadAdvances(log, dir, c, max);
  }

  /** A read leaves the cursor where it was exactly when no complete line fits the window and the
      file is not a rotated one read to its end. A rotated file without a final newline is therefore
      never left. */
  lemma StaysIffNoLine(log: Log, dir: Dir, c: Cursor, max: nat)
    requires GoodLog(log) && Shows(log, dir, Some(c)) && Recent(log, c)
    ensures var i := if In(log, c, |log| - 1) then |log| - 1 else |log| - 2;
            ReadChunk(dir, Some(c), max).Chunk? && ReadChunk(dir, Some(c), max).cursor == c
            <==> NEWLINE !in Window(log[i], c.offset, max) && (i == |log| - 1 || c.offset < |log[i].bytes|)
  {
    var n := |log| - 1;
    var i := if In(log, c, n) then n else n - 1;
    WindowYields(log[i], c.offset, max);
    if i < n { OldFileFound(log, dir, c); }
  }

  // ---- runs ------------------------------------------------------------------------------

  datatype Step = Append(bytes: Bytes) | Rotate(inode: int) | Read(dir: Dir)

  /** The log, the cursor, where reading began, and the lines delivered so far. */
  datatype Reader = Reader(log: Log, cursor: Option<Cursor>, origin: nat, delivered: seq<Bytes>)

  function Appended(log: Log, bytes: Bytes): Log
    requires log != []
  {
    var n := |log| - 1;
    log[..n] + [File(log[n].inode, log[n].bytes + bytes)]
  }

  /** What may happen next: the log rotates only when the reader has reached the live file, and the
      directory keeps the file the reader is in. */
  ghost predicate Enabled(r: Reader, step: Step) {
    match step
    case Append(_) => true
    case Rotate(inode) =>
      && (forall f :: f in r.log ==> f.inode != inode)
      && (r.cursor.Some? ==> r.log != [] && In(r.log, r.cursor.value, |r.log| - 1))
    case Read(dir) => Shows(r.log, dir, r.cursor)
  }

  function Next(r: Reader, step: Step, max: nat): Reader
    requires r.log != []
  {
    match step
    case Append(bytes) => r.(log := Appended(r.log, bytes))
    case Rotate(inode) => r.(log := r.log + [File(inode, [])])
    case Read(dir) =>
      match ReadChunk(dir, r.cursor, max)
      case Missing => r
      case Chunk(lines, cursor) =>
        r.(cursor := Some(cursor), delivered := r.delivered + lines,
           origin := if r.cursor.None? then Start(r.log, |r.log| - 1) else r.origin)
  }

  /** What has been delivered is exactly the stream from the origin to the cursor. */
  ghost predicate Faithful(r: Reader) {
    && GoodLog(r.log)
    && NewlineFree(r.delivered)
    && (r.cursor.None? ==> r.delivered == [])
    && (r.cursor.Some? ==>
          && Recent(r.log, r.cursor.value)
          && r.origin <= Pos(r.log, r.cursor.value) <= |Stream(r.log)|
          && Unlines(r.delivered) == Stream(r.log)[r.origin..Pos(r.log, r.cursor.value)])
  }

  function Run(r: Reader, steps: seq<Step>, max: nat): Reader
    requires r.log != []
  {
    if steps == [] then r
    else
      var before := Run(r, steps[..|steps| - 1], max);
      if before.log == [] then before else Next(before, steps[|steps| - 1], max)
  }

  ghost predicate AllEnabled(r: Reader, steps: seq<Step>, max: nat)
    requires r.log != []
  {
    forall n :: 0 <= n < |steps| ==> Enabled(Run(r, steps[..n], max), steps[n])
  }

  lemma AppendKeeps(log: Log, bytes: Bytes)
    requires GoodLog(log)
    ensures GoodLog(Appended(log, bytes))
    ensures Stream(Appended(log, bytes)) == Stream(log) + bytes
  {
    var n := |log| - 1;
    assert Appended(log, bytes)[..n] == log[..n];
    assert (Stream(log[..n]) + log[n].bytes) + bytes == Stream(log[..n]) + (log[n].bytes + bytes);
  }

  lemma AppendKeepsPos(log: Log, bytes: Bytes, c: Cursor)
    requires GoodLog(log) && Recent(log, c)
    ensures Recent(Appended(log, bytes), c) && Pos(Appended(log, bytes), c) == Pos(log, c)
  {
    var n := |log| - 1;
    var log' := Appended(log, bytes);
    assert log'[..n] == log[..n];
    StartOfPrefix(log, n, n);
    StartOfPrefix(log', n, n);
    if n > 0 {
      StartOfPrefix(log, n, n - 1);
      StartOfPrefix(log', n, n - 1);
    }
  }

  lemma RotateKeeps(log: Log, inode: int)
    requires GoodLog(log) && forall f :: f in log ==> f.inode != inode
    ensures GoodLog(log + [File(inode, [])]) && Stream(log + [File(inode, [])]) == Stream(log)
  {
    assert (log + [File(inode, [])])[..|log|] == log;
  }

  lemma RotateKeepsPos(log: Log, inode: int, c: Cursor)
    requires GoodLog(log) && In(log, c, |log| - 1) && forall f :: f in log ==> f.inode != inode
    ensures var log' := log + [File(inode, [])]; Recent(log', c) && Pos(log', c) == Pos(log, c)
  {
    var log' := log + [File(inode, [])];
    RotateKeeps(log, inode);
    assert log'[..|log|] == log;
    StartOfPrefix(log', |log|, |log| - 1);
    PosLive(log, c);
    PosPrevious(log', c);
  }

  lemma ReadKeepsFaithful(r: Reader, dir: Dir, max: nat)
    requires Faithful(r) && Enabled(r, Read(dir))
    ensures Faithful(Next(r, Read(dir), max))
  {
    var chunk := ReadChunk(dir, r.cursor, max);
    if r.cursor.None? {
      FirstReadAdvances(r.log, dir, max);
      assert r.delivered + chunk.lines == chunk.lines;
    } else {
      ReadAdvances(r.log, dir, r.cursor.value, max);
      UnlinesConcat(r.delivered, chunk.lines);
      JoinSlices(Stream(r.log), r.origin, Pos(r.log, r.cursor.value), Pos(r.log, chunk.cursor));
    }
  }

  lemma JoinSlices(s: Bytes, a: nat, b: nat, c: nat)
    requires a <= b <= c <= |s|
    ensures s[a..b] + s[b..c] == s[a..c]
  {
  }

  lemma NextKeepsFaithful(r: Reader, step: Step, max: nat)
    requires Faithful(r) && Enabled(r, step)
    ensures Faithful(Next(r, step, max))
  {
    match step
    case Append(bytes) =>
      AppendKeeps(r.log, bytes);
      if r.cursor.Some? { AppendKeepsPos(r.log, bytes, r.cursor.value); }
    case Rotate(inode) =>
      RotateKeeps(r.log, inode);
      if r.cursor.Some? { RotateKeepsPos(r.log, inode, r.cursor.value); }
    case Read(dir) => ReadKeepsFaithful(r, dir, max);
  }

  /** Over any interleaving of appends, rotations and reads, the lines delivered are exactly the
      complete lines of the stream from where reading began: none lost, none repeated. */
  lemma {:induction false} DeliveryIsExact(r: Reader, steps: seq<Step>, max: nat)
    requires Faithful(r) && AllEnabled(r, steps, max)
    ensures Faithful(Run(r, steps, max))
  {
    if steps != [] {
      var n := |steps| - 1;
      forall m | 0 <= m < n ensures steps[..n][..m] == steps[..m] {
      }
      assert AllEnabled(r, steps[..n], max);
      DeliveryIsExact(r, steps[..n], max);
      NextKeepsFaithful(Run(r, steps[..n], max), steps[n], max);
    }
  }
}
