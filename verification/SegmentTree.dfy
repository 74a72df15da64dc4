/** The log directory: segments of 512 records, named by their first index and read back in that order. */
module SegmentTree {
  import opened Wrappers
  import opened CompactLog
  import opened SegmentCodec
  import opened Segments

  /** A segment file: the start index its name carries, and its bytes. */
  type File = (nat, string)

  type Dir = map<nat, string>

  // ---------------------------------------------------------------- listing a directory

  predicate Ascending(files: seq<File>) {
    forall i, j :: 0 <= i < j < |files| ==> files[i].0 < files[j].0
  }

  /** `files` is the directory in ascending order of start index, as the loader sorts it. */
  ghost predicate Listing(files: seq<File>, dir: Dir) {
    && Ascending(files)
    && (forall i :: 0 <= i < |files| ==> files[i].0 in dir && dir[files[i].0] == files[i].1)
    && (forall k :: k in dir ==> (k, dir[k]) in files)
  }

  function DirOf(files: seq<File>): Dir {
    if files == [] then map[] else DirOf(files[..|files| - 1])[files[|files| - 1].0 := files[|files| - 1].1]
  }

  lemma {:induction false} DirOfListing(files: seq<File>)
    requires Ascending(files)
    ensures Listing(files, DirOf(files))
    decreases |files|
  {
    if files != [] {
      var front, f := files[..|files| - 1], files[|files| - 1];
      DirOfListing(front);
      forall i | 0 <= i < |files| ensures files[i].0 in DirOf(files) && DirOf(files)[files[i].0] == files[i].1 {
        if i < |front| {
          assert front[i] == files[i];
        }
      }
      forall k | k in DirOf(files) ensures (k, DirOf(files)[k]) in files {
        if k == f.0 {
          assert files[|files| - 1] == (k, DirOf(files)[k]);
        } else {
          assert (k, DirOf(front)[k]) in front;
        }
      }
    }
  }

  lemma LastFile(a: seq<File>, b: seq<File>, dir: Dir)
    requires Listing(a, dir) && Listing(b, dir) && a != []
    ensures b != [] && a[|a| - 1] == b[|b| - 1]
  {
    var p := a[|a| - 1];
    assert p.0 in dir && p in b;
    var q := b[|b| - 1];
    assert q.0 in dir && q in a;
  }

  lemma DropFile(a: seq<File>, dir: Dir)
    requires Listing(a, dir) && a != []
    ensures Listing(a[..|a| - 1], dir - {a[|a| - 1].0})
  {
    var last, front := a[|a| - 1], a[..|a| - 1];
    forall k | k in dir - {last.0} ensures (k, dir[k]) in front {
      var i :| 0 <= i < |a| && a[i] == (k, dir[k]);
      assert i < |a| - 1;
      assert front[i] == a[i];
    }
  }

  lemma SameFront(a: seq<File>, b: seq<File>)
    requires a != [] && b != [] && a[|a| - 1] == b[|b| - 1] && a[..|a| - 1] == b[..|b| - 1]
    ensures a == b
  {
    assert a == a[..|a| - 1] + [a[|a| - 1]] && b == b[..|b| - 1] + [b[|b| - 1]];
  }

  /** A directory has one listing, so the order in which the file system yields the names does not matter. */
  lemma {:induction false} ListingUnique(a: seq<File>, b: seq<File>, dir: Dir)
    requires Listing(a, dir) && Listing(b, dir)
    ensures a == b
    decreases |a|
  {
    if a != [] {
      LastFile(a, b, dir);
      DropFile(a, dir);
      DropFile(b, dir);
      ListingUnique(a[..|a| - 1], b[..|b| - 1], dir - {a[|a| - 1].0});
      SameFront(a, b);
    }
  }

  // ---------------------------------------------------------------- writing

  function Chunks(enc: Encoder, log: seq<Record>): (files: seq<File>)
    ensures log != [] ==> files != [] && files[0].0 == log[0].index
    decreases |log|
  {
    if log == [] then []
    else if |log| <= PER_SEGMENT then [(log[0].index, EncodeAll(enc, log))]
    else [(log[0].index, EncodeAll(enc, log[..PER_SEGMENT]))] + Chunks(enc, log[PER_SEGMENT..])
  }

  /** Where the last segment starts. */
  function LastStart(log: seq<Record>): (k: nat)
    ensures k <= |log| && (log != [] ==> k < |log| <= k + PER_SEGMENT)
    decreases |log|
  {
    if |log| <= PER_SEGMENT then 0 else PER_SEGMENT + LastStart(log[PER_SEGMENT..])
  }

  lemma {:induction false} ChunkStarts(enc: Encoder, log: seq<Record>, i: nat)
    requires Contiguous(log) && i < |Chunks(enc, log)|
    ensures log[0].index + i * PER_SEGMENT == Chunks(enc, log)[i].0
    decreases |log|
  {
    if |log| > PER_SEGMENT && i > 0 {
      var rest := log[PER_SEGMENT..];
      assert rest[0].index == log[0].index + PER_SEGMENT;
      assert Contiguous(rest);
      ChunkStarts(enc, rest, i - 1);
    }
  }

  // Where the i-th file of a log of n records ends.
  function ChunkEnd(n: nat, i: nat): nat {
    if 512 * (i + 1) <= n then 512 * (i + 1) else n
  }

  lemma SliceBehind<T>(s: seq<T>, k: nat, a: nat, b: nat)
    requires a <= b && k + b <= |s|
    ensures s[k..][a..b] == s[k + a..k + b]
  {
  }

  lemma {:induction false} ChunkCount(enc: Encoder, log: seq<Record>)
    ensures |Chunks(enc, log)| == (|log| + 511) / 512
    decreases |log|
  {
    if |log| > PER_SEGMENT { ChunkCount(enc, log[PER_SEGMENT..]); }
  }

  /** Segment i holds the records from 512 * i on, 512 of them unless it is the last, and is named by the first one's index. */
  lemma {:induction false} ChunkIs(enc: Encoder, log: seq<Record>, i: nat)
    requires i < |Chunks(enc, log)|
    ensures 512 * i < |log|
    ensures Chunks(enc, log)[i] ==
            (log[512 * i].index, EncodeAll(enc, log[512 * i..ChunkEnd(|log|, i)]))
    decreases |log|
  {
    if |log| > PER_SEGMENT {
      var rest := log[PER_SEGMENT..];
      assert Chunks(enc, log) == [(log[0].index, EncodeAll(enc, log[..512]))] + Chunks(enc, rest);
      if i > 0 {
        ChunkIs(enc, rest, i - 1);
        assert ChunkEnd(|log|, i) == 512 + ChunkEnd(|rest|, i - 1);
        SliceBehind(log, 512, 512 * (i - 1), ChunkEnd(|rest|, i - 1));
      } else {
        assert log[0..512] == log[..512];
      }
    } else {
      assert log[0..|log|] == log;
    }
  }

  lemma ChunksAscending(enc: Encoder, log: seq<Record>)
    requires Contiguous(log)
    ensures Ascending(Chunks(enc, log))
  {
    var files := Chunks(enc, log);
    forall i, j | 0 <= i < j < |files| ensures files[i].0 < files[j].0 {
      ChunkStarts(enc, log, i);
      ChunkStarts(enc, log, j);
    }
  }

  lemma {:induction false} EncodeLast(enc: Encoder, log: seq<Record>, r: Record)
    ensures EncodeAll(enc, log + [r]) == EncodeAll(enc, log) + enc(r)
    decreases |log|
  {
    if log == [] {
      assert log + [r] == [r] && [r][1..] == [];
    } else {
      assert (log + [r])[1..] == log[1..] + [r];
      EncodeLast(enc, log[1..], r);
    }
  }

  // ---------------------------------------------------------------- reading

  /** torn: the last file read ended in damage. removed: a later file was deleted. left: the files as the reader leaves them. */
  datatype Progress = Progress(records: seq<Record>, torn: bool, removed: bool, stuck: bool, left: seq<File>)

  function Next(read: Reader, p: Progress, f: File, first: nat, last: nat): Progress {
    if p.stuck then p
    else if p.torn then p.(removed := true)
    else
      var seg := ReadSegment(read, f.1);
      Progress(p.records + InRange(seg.records, first, last), seg.ending == Torn, false, seg.ending == Stuck,
               p.left + [(f.0, f.1[..seg.kept])])
  }

  function ReadFiles(read: Reader, p: Progress, files: seq<File>, first: nat, last: nat): Progress
    decreases |files|
  {
    if files == [] then p else ReadFiles(read, Next(read, p, files[0], first, last), files[1..], first, last)
  }

  /** The checks after the files were read. */
  predicate Acceptable(p: Progress, first: nat, last: nat, count: nat) {
    && !p.stuck
    && (|p.records| == count
        || (p.torn && !p.removed && (if p.records == [] then first == 0 else p.records[0].index == first)))
    && (p.records != [] ==>
          p.records[0].index == first && (p.torn || p.records[|p.records| - 1].index == last) && Contiguous(p.records))
  }

  const START: Progress := Progress([], false, false, false, [])

  /** LoadSegments; `files` is None when there is no log directory. */
  function LoadFiles(read: Reader, files: Option<seq<File>>, first: nat, last: nat, count: nat): Option<seq<Record>> {
    if count == 0 then Some([])
    else if files.None? then None
    else
      var p := ReadFiles(read, START, files.value, first, last);
      if Acceptable(p, first, last, count) then Some(p.records) else None
  }

  /** Replaces the bytes of the last file. */
  function WithLast(files: seq<File>, bytes: string): seq<File>
    requires files != []
  {
    files[..|files| - 1] + [(files[|files| - 1].0, bytes)]
  }

  predicate Fresh(p: Progress) { !p.torn && !p.stuck && !p.removed }

  lemma NextWhole(read: Reader, enc: Encoder, p: Progress, start: nat, part: seq<Record>, first: nat, last: nat)
    requires Fresh(p) && Faithful(read, enc, part) && read("") == End
    ensures var f := (start, EncodeAll(enc, part));
            Next(read, p, f, first, last) == p.(records := p.records + InRange(part, first, last), left := p.left + [f])
  {
    WholeSegment(read, enc, part);
    assert EncodeAll(enc, part)[..|EncodeAll(enc, part)|] == EncodeAll(enc, part);
  }

  lemma {:induction false} ReadFilesJoin(read: Reader, p: Progress, a: seq<File>, b: seq<File>, first: nat, last: nat)
    ensures ReadFiles(read, p, a + b, first, last) == ReadFiles(read, ReadFiles(read, p, a, first, last), b, first, last)
    decreases |a|
  {
    if a == [] {
      assert a + b == b;
    } else {
      assert (a + b)[1..] == a[1..] + b;
      ReadFilesJoin(read, Next(read, p, a[0], first, last), a[1..], b, first, last);
    }
  }

  lemma ReadOne(read: Reader, p: Progress, f: File, first: nat, last: nat)
    ensures ReadFiles(read, p, [f], first, last) == Next(read, p, f, first, last)
  {
    var one := [f];
    assert one[1..] == [];
  }

  /** The progress after whole records of `log` in the files `files`. */
  function Grown(p: Progress, log: seq<Record>, files: seq<File>, first: nat, last: nat): Progress {
    p.(records := p.records + InRange(log, first, last), left := p.left + files)
  }

  lemma GrownTwice(p: Progress, a: seq<Record>, f: seq<File>, b: seq<Record>, g: seq<File>, first: nat, last: nat)
    ensures Grown(Grown(p, a, f, first, last), b, g, first, last) == Grown(p, a + b, f + g, first, last)
  {
    InRangeJoin(a, b, first, last);
    assert (p.records + InRange(a, first, last)) + InRange(b, first, last) ==
           p.records + (InRange(a, first, last) + InRange(b, first, last));
    assert (p.left + f) + g == p.left + (f + g);
  }

  /** Undamaged segments are read back whole. */
  lemma {:induction false} ReadWhole(read: Reader, enc: Encoder, p: Progress, log: seq<Record>, first: nat, last: nat)
    requires Fresh(p) && Faithful(read, enc, log) && read("") == End
    ensures ReadFiles(read, p, Chunks(enc, log), first, last) == Grown(p, log, Chunks(enc, log), first, last)
    decreases |log|
  {
    if log == [] {
      assert p.records + [] == p.records && p.left + [] == p.left;
    } else if |log| <= PER_SEGMENT {
      ReadOne(read, p, (log[0].index, EncodeAll(enc, log)), first, last);
      NextWhole(read, enc, p, log[0].index, log, first, last);
    } else {
      var part, rest := log[..PER_SEGMENT], log[PER_SEGMENT..];
      var f: File := (log[0].index, EncodeAll(enc, part));
      FaithfulTail(read, enc, log, part);
      FaithfulTail(read, enc, log, rest);
      ReadFilesJoin(read, p, [f], Chunks(enc, rest), first, last);
      ReadOne(read, p, f, first, last);
      NextWhole(read, enc, p, log[0].index, part, first, last);
      ReadWhole(read, enc, Grown(p, part, [f], first, last), rest, first, last);
      GrownTwice(p, part, [f], rest, Chunks(enc, rest), first, last);
      assert part + rest == log;
    }
  }

  lemma ConcatAssoc(a: seq<File>, b: seq<File>, c: seq<File>)
    ensures a + (b + c) == (a + b) + c
  {
  }

  /** The last segment holds the records from LastStart on; the earlier files are those of the records before. */
  lemma {:induction false} ChunksSplit(enc: Encoder, log: seq<Record>)
    requires log != []
    ensures var k := LastStart(log);
            Chunks(enc, log) == Chunks(enc, log[..k]) + [(log[k].index, EncodeAll(enc, log[k..]))]
    decreases |log|
  {
    if |log| <= PER_SEGMENT {
      assert log[..0] == [] && log[0..] == log;
    } else {
      var rest := log[PER_SEGMENT..];
      var k := LastStart(rest);
      ChunksSplit(enc, rest);
      ChunksFront(enc, log, k);
      assert log[PER_SEGMENT + k..] == rest[k..];
      ConcatAssoc([(log[0].index, EncodeAll(enc, log[..PER_SEGMENT]))], Chunks(enc, rest[..k]),
                  [(rest[k].index, EncodeAll(enc, rest[k..]))]);
    }
  }

  lemma ChunksFront(enc: Encoder, log: seq<Record>, k: nat)
    requires PER_SEGMENT + k <= |log|
    ensures Chunks(enc, log[..PER_SEGMENT + k]) ==
            [(log[0].index, EncodeAll(enc, log[..PER_SEGMENT]))] + Chunks(enc, log[PER_SEGMENT..][..k])
  {
    var front := log[..PER_SEGMENT + k];
    assert front[..PER_SEGMENT] == log[..PER_SEGMENT];
    assert front[PER_SEGMENT..] == log[PER_SEGMENT..][..k];
    if k == 0 {
      assert front == log[..PER_SEGMENT];
    }
  }

  /** All segments but the last are read back whole; what the last one gives depends on its bytes, whatever they are. */
  lemma ReadChunks(read: Reader, enc: Encoder, log: seq<Record>, bytes: string, first: nat, last: nat)
    requires log != [] && Faithful(read, enc, log) && read("") == End
    ensures var front, seg := log[..LastStart(log)], ReadSegment(read, bytes);
            ReadFiles(read, START, WithLast(Chunks(enc, log), bytes), first, last) ==
            Progress(InRange(front, first, last) + InRange(seg.records, first, last),
                     seg.ending == Torn, false, seg.ending == Stuck, WithLast(Chunks(enc, log), bytes[..seg.kept]))
  {
    var k := LastStart(log);
    var front, seg := log[..k], ReadSegment(read, bytes);
    var files: seq<File>, f: File := Chunks(enc, front), (log[k].index, bytes);
    ChunksSplit(enc, log);
    assert WithLast(Chunks(enc, log), bytes) == files + [f];
    assert WithLast(Chunks(enc, log), bytes[..seg.kept]) == files + [(f.0, bytes[..seg.kept])];
    FaithfulTail(read, enc, log, front);
    ReadFilesJoin(read, START, files, [f], first, last);
    ReadWhole(read, enc, START, front, first, last);
    var p := Grown(START, front, files, first, last);
    ReadOne(read, p, f, first, last);
    assert START.records + InRange(front, first, last) == InRange(front, first, last) && START.left + files == files;
  }

  // ---------------------------------------------------------------- the writer loop

  lemma {:induction false} LastStartNext(log: seq<Record>, r: Record)
    requires log != []
    ensures LastStart(log + [r]) == if |log| - LastStart(log) < PER_SEGMENT then LastStart(log) else |log|
    decreases |log|
  {
    if |log| > PER_SEGMENT {
      assert (log + [r])[PER_SEGMENT..] == log[PER_SEGMENT..] + [r];
      LastStartNext(log[PER_SEGMENT..], r);
    } else if |log| == PER_SEGMENT {
      assert (log + [r])[PER_SEGMENT..] == [r];
    }
  }

  /** Appending to the open segment. */
  lemma ChunksGrow(enc: Encoder, log: seq<Record>, r: Record)
    requires log != [] && |log| - LastStart(log) < PER_SEGMENT
    ensures var files := Chunks(enc, log);
            Chunks(enc, log + [r]) == WithLast(files, files[|files| - 1].1 + enc(r))
  {
    var k := LastStart(log);
    LastStartNext(log, r);
    ChunksSplit(enc, log);
    ChunksSplit(enc, log + [r]);
    assert (log + [r])[..k] == log[..k] && (log + [r])[k..] == log[k..] + [r];
    EncodeLast(enc, log[k..], r);
  }

  /** Opening the next segment. */
  lemma ChunksOpen(enc: Encoder, log: seq<Record>, r: Record)
    requires log == [] || |log| - LastStart(log) >= PER_SEGMENT
    ensures Chunks(enc, log + [r]) == Chunks(enc, log) + [(r.index, enc(r))]
  {
    var one := [r];
    assert one[1..] == [] && EncodeAll(enc, one) == enc(r) + "" == enc(r);
    if log == [] {
      assert log + [r] == one;
    } else {
      LastStartNext(log, r);
      ChunksSplit(enc, log + [r]);
      assert (log + [r])[..|log|] == log && (log + [r])[|log|..] == one;
    }
  }

  /** WriteSegments: a new file after every 512 records. */
  method WriteSegments(enc: Encoder, log: seq<Record>) returns (files: seq<File>)
    ensures files == Chunks(enc, log)
  {
    files := [];
    var count, i := 0, 0;
    while i < |log|
      invariant 0 <= i <= |log|
      invariant files == Chunks(enc, log[..i]) && count == i - LastStart(log[..i])
    {
      var r := log[i];
      assert log[..i + 1] == log[..i] + [r];
      if i > 0 {
        LastStartNext(log[..i], r);
      }
      if i == 0 || count >= PER_SEGMENT {
        ChunksOpen(enc, log[..i], r);
        files, count := files + [(r.index, enc(r))], 1;
      } else {
        ChunksGrow(enc, log[..i], r);
        files, count := WithLast(files, files[|files| - 1].1 + enc(r)), count + 1;
      }
      i := i + 1;
    }
    assert log[..|log|] == log;
  }

  // ---------------------------------------------------------------- loading another range

  function Clip(x: int, n: nat): nat { if x < 0 then 0 else if x > n then n else x }

  /** The records of a contiguous log with indexes in [first, last]. */
  function Window(log: seq<Record>, first: nat, last: nat): seq<Record> {
    if log == [] || last < first then []
    else
      var f := log[0].index;
      log[Clip(first - f, |log|)..Clip(last + 1 - f, |log|)]
  }

  lemma {:induction false} InRangeWindow(log: seq<Record>, first: nat, last: nat)
    requires Contiguous(log)
    ensures InRange(log, first, last) == Window(log, first, last)
    decreases |log|
  {
    if log != [] {
      var front, r := log[..|log| - 1], log[|log| - 1];
      InRangeWindow(front, first, last);
      assert r.index == log[0].index + |front|;
      if last >= first {
        WindowLast(log, first, last);
      }
    }
  }

  lemma WindowLast(log: seq<Record>, first: nat, last: nat)
    requires Contiguous(log) && log != [] && first <= last
    ensures var front, r := log[..|log| - 1], log[|log| - 1];
            Window(log, first, last) == Window(front, first, last) + (if first <= r.index <= last then [r] else [])
  {
    var front, r := log[..|log| - 1], log[|log| - 1];
    var f, n := log[0].index, |log| - 1;
    assert r.index == f + n;
    if n == 0 {
      assert log == [r];
    } else {
      assert front[0] == log[0];
      ClipLast(first - f, last + 1 - f, n);
      SliceLast(log, Clip(first - f, n), Clip(last + 1 - f, n));
    }
  }

  /** How the ends of a window move when the log grows from n records to n + 1. */
  lemma ClipLast(lo: int, hi: int, n: nat)
    requires lo < hi
    ensures Clip(lo, n) <= Clip(hi, n) && Clip(lo, n + 1) <= Clip(hi, n + 1)
    ensures if lo <= n < hi then Clip(lo, n + 1) == Clip(lo, n) && Clip(hi, n) == n && Clip(hi, n + 1) == n + 1
            else (Clip(lo, n + 1) == Clip(lo, n) && Clip(hi, n + 1) == Clip(hi, n)) || (Clip(lo, n) == Clip(hi, n) && Clip(lo, n + 1) == Clip(hi, n + 1))
  {
  }

  lemma SliceLast(log: seq<Record>, lo: nat, hi: nat)
    requires lo <= hi < |log|
    ensures log[..|log| - 1][lo..hi] == log[lo..hi]
    ensures log[lo..|log|] == log[lo..|log| - 1] + [log[|log| - 1]]
  {
  }

  lemma ReadSaved(read: Reader, enc: Encoder, log: seq<Record>, first: nat, last: nat)
    requires Contiguous(log) && Faithful(read, enc, log) && read("") == End
    ensures ReadFiles(read, START, Chunks(enc, log), first, last) ==
            START.(records := Window(log, first, last), left := Chunks(enc, log))
  {
    ReadWhole(read, enc, START, log, first, last);
    InRangeWindow(log, first, last);
    assert [] + Window(log, first, last) == Window(log, first, last);
    assert START.left + Chunks(enc, log) == Chunks(enc, log);
  }

  /** The log holds every index from first to last. */
  predicate CoversRange(log: seq<Record>, first: nat, last: nat) {
    log != [] && log[0].index <= first && last <= log[|log| - 1].index
  }

  lemma WindowSize(log: seq<Record>, first: nat, last: nat)
    requires Contiguous(log) && first <= last
    ensures |Window(log, first, last)| == last - first + 1 <==> CoversRange(log, first, last)
    ensures CoversRange(log, first, last) ==>
              var w := Window(log, first, last); Contiguous(w) && w[0].index == first && w[|w| - 1].index == last
  {
    if CoversRange(log, first, last) {
      var f := log[0].index;
      var w := Window(log, first, last);
      assert w == log[first - f..last + 1 - f];
      assert w[0] == log[first - f] && w[|w| - 1] == log[last - f];
    }
  }

  /** An undamaged tree read under some meta gives exactly the announced range, or is refused when it does not cover it. */
  lemma LoadRange(read: Reader, enc: Encoder, log: seq<Record>, first: nat, last: nat)
    requires Contiguous(log) && Faithful(read, enc, log) && read("") == End && first <= last
    ensures LoadFiles(read, Some(Chunks(enc, log)), first, last, last - first + 1) ==
            if CoversRange(log, first, last) then Some(Window(log, first, last)) else None
  {
    ReadSaved(read, enc, log, first, last);
    WindowSize(log, first, last);
  }

  lemma WholeWindow(log: seq<Record>)
    requires Contiguous(log) && log != []
    ensures Window(log, log[0].index, log[|log| - 1].index) == log
  {
    assert log[0..|log|] == log;
  }

  // ---------------------------------------------------------------- a cut in the last segment

  /** How many records lie wholly inside the first `cut` bytes. */
  function WholeBefore(enc: Encoder, log: seq<Record>, cut: nat): (k: nat)
    ensures k <= |log|
    decreases |log|
  {
    if log == [] || cut < |enc(log[0])| then 0 else 1 + WholeBefore(enc, log[1..], cut - |enc(log[0])|)
  }

  /** Every cut of a segment is some whole records and a strict prefix of the next one. */
  lemma {:induction false} CutShape(enc: Encoder, log: seq<Record>, cut: nat)
    requires cut <= |EncodeAll(enc, log)|
    ensures var k := WholeBefore(enc, log, cut);
            var c := cut - |EncodeAll(enc, log[..k])|;
            && 0 <= c && (k < |log| ==> c < |enc(log[k])|) && (k == |log| ==> c == 0)
            && EncodeAll(enc, log)[..cut] == EncodeAll(enc, log[..k]) + (if k < |log| then enc(log[k])[..c] else "")
    decreases |log|
  {
    if log == [] {
      assert log[..0] == [];
    } else if cut < |enc(log[0])| {
      assert log[..0] == [];
      assert EncodeAll(enc, log)[..cut] == enc(log[0])[..cut];
    } else {
      var head, rest := enc(log[0]), EncodeAll(enc, log[1..]);
      CutShape(enc, log[1..], cut - |head|);
      var k := WholeBefore(enc, log[1..], cut - |head|);
      assert log[..k + 1][1..] == log[1..][..k];
      SplitPrefix(head, rest, cut);
      var c := cut - |head| - |EncodeAll(enc, log[1..][..k])|;
      Assoc(head, EncodeAll(enc, log[1..][..k]), if k < |log[1..]| then enc(log[k + 1])[..c] else "");
    }
  }

  lemma SplitPrefix(a: string, b: string, cut: nat)
    requires |a| <= cut <= |a + b|
    ensures (a + b)[..cut] == a + b[..cut - |a|]
  {
  }

  lemma Assoc(a: string, b: string, c: string)
    ensures a + (b + c) == (a + b) + c
  {
  }

  /** The reader recognises any partial record of this log as damage. */
  ghost predicate Detects(read: Reader, enc: Encoder, log: seq<Record>) {
    forall r, c {:trigger Notices(read, enc, r, c)} :: r in log && 0 < c < |enc(r)| ==> Notices(read, enc, r, c)
  }

  predicate Notices(read: Reader, enc: Encoder, r: Record, c: nat)
    requires c <= |enc(r)|
  {
    read(enc(r)[..c]) == Bad
  }

  /** What the reader makes of a segment cut after `cut` bytes. */
  lemma CutSegment(read: Reader, enc: Encoder, log: seq<Record>, cut: nat)
    requires cut <= |EncodeAll(enc, log)| && Faithful(read, enc, log) && Detects(read, enc, log) && read("") == End
    ensures var k := WholeBefore(enc, log, cut);
            var whole := |EncodeAll(enc, log[..k])|;
            whole <= cut && ReadSegment(read, EncodeAll(enc, log)[..cut]) == Segment(log[..k], if cut == whole then Clean else Torn, whole)
  {
    var k := WholeBefore(enc, log, cut);
    CutShape(enc, log, cut);
    var part := log[..k];
    var c := cut - |EncodeAll(enc, part)|;
    FaithfulTail(read, enc, log, part);
    if c == 0 {
      WholeSegment(read, enc, part);
      assert EncodeAll(enc, log)[..cut] == EncodeAll(enc, part);
    } else {
      assert log[k] in log && Notices(read, enc, log[k], c);
      DamagedSegment(read, enc, part, enc(log[k])[..c]);
    }
  }

  /** Records 0..n of the log are all that is left, and the reader knows whether something was cut off. */
  lemma CutProgress(read: Reader, enc: Encoder, log: seq<Record>, cut: nat)
    requires log != [] && Contiguous(log) && Faithful(read, enc, log) && Detects(read, enc, log) && read("") == End
    requires cut <= |EncodeAll(enc, log[LastStart(log)..])|
    ensures var part := log[LastStart(log)..];
            var k := WholeBefore(enc, part, cut);
            var whole := |EncodeAll(enc, part[..k])|;
            whole <= cut &&
            ReadFiles(read, START, WithLast(Chunks(enc, log), EncodeAll(enc, part)[..cut]), log[0].index, log[|log| - 1].index) ==
            Progress(log[..LastStart(log) + k], cut != whole, false, false, WithLast(Chunks(enc, log), EncodeAll(enc, part)[..whole]))
  {
    var base := LastStart(log);
    var part := log[base..];
    var k := WholeBefore(enc, part, cut);
    FaithfulTail(read, enc, log, part);
    assert Detects(read, enc, part);
    CutSegment(read, enc, part, cut);
    var whole := |EncodeAll(enc, part[..k])|;
    PrefixTwice(EncodeAll(enc, part), cut, whole);
    CutRecords(log, base, k);
    ReadChunks(read, enc, log, EncodeAll(enc, part)[..cut], log[0].index, log[|log| - 1].index);
  }

  lemma PrefixTwice(s: string, cut: nat, whole: nat)
    requires whole <= cut <= |s|
    ensures s[..cut][..whole] == s[..whole]
  {
  }

  lemma CutRecords(log: seq<Record>, base: nat, k: nat)
    requires Contiguous(log) && log != [] && base + k <= |log|
    ensures var first, last := log[0].index, log[|log| - 1].index;
            InRange(log[..base], first, last) + InRange(log[base..][..k], first, last) == log[..base + k]
  {
    assert log[..base + k] == log[..base] + log[base..][..k];
    InRangeJoin(log[..base], log[base..][..k], log[0].index, log[|log| - 1].index);
    AllInRange(log, base + k);
  }

  lemma AllInRange(log: seq<Record>, n: nat)
    requires Contiguous(log) && log != [] && n <= |log|
    ensures InRange(log[..n], log[0].index, log[|log| - 1].index) == log[..n]
  {
    var front := log[..n];
    assert Contiguous(front);
    InRangeWindow(front, log[0].index, log[|log| - 1].index);
    assert front[0..n] == front;
  }

  /** The records of the last segment. */
  function LastPart(log: seq<Record>): seq<Record> { log[LastStart(log)..] }

  /** How many records of the log lie wholly before a cut in its last segment. */
  function Survivors(enc: Encoder, log: seq<Record>, cut: nat): nat { LastStart(log) + WholeBefore(enc, LastPart(log), cut) }

  /** The cut falls strictly inside a record. */
  predicate CutInside(enc: Encoder, log: seq<Record>, cut: nat) {
    cut != |EncodeAll(enc, LastPart(log)[..WholeBefore(enc, LastPart(log), cut)])|
  }

  function CutFiles(enc: Encoder, log: seq<Record>, cut: nat): seq<File>
    requires log != [] && cut <= |EncodeAll(enc, LastPart(log))|
  {
    WithLast(Chunks(enc, log), EncodeAll(enc, LastPart(log))[..cut])
  }

  /** How the checks judge the first n records of a log. */
  lemma Judge(log: seq<Record>, n: nat, torn: bool, left: seq<File>)
    requires log != [] && Contiguous(log) && n <= |log|
    ensures Acceptable(Progress(log[..n], torn, false, false, left), log[0].index, log[|log| - 1].index, |log|)
            <==> n == |log| || (torn && (n > 0 || log[0].index == 0))
  {
  }

  /**
    A cut in the last segment. Inside a record, exactly the whole records before it are recovered, except that nothing is
    recovered when even the first record of a log that starts above 0 is cut. On a record boundary the load is refused.
   */
  lemma CutLoads(read: Reader, enc: Encoder, log: seq<Record>, cut: nat)
    requires log != [] && Contiguous(log) && Faithful(read, enc, log) && Detects(read, enc, log) && read("") == End
    requires cut <= |EncodeAll(enc, LastPart(log))|
    ensures var n := Survivors(enc, log, cut);
            && n <= |log|
            && LoadFiles(read, Some(CutFiles(enc, log, cut)), log[0].index, log[|log| - 1].index, |log|) ==
               if n == |log| || (CutInside(enc, log, cut) && (n > 0 || log[0].index == 0)) then Some(log[..n]) else None
  {
    var n, inside := Survivors(enc, log, cut), CutInside(enc, log, cut);
    CutProgress(read, enc, log, cut);
    var p := ReadFiles(read, START, CutFiles(enc, log, cut), log[0].index, log[|log| - 1].index);
    assert p == Progress(log[..n], inside, false, false, p.left);
    Judge(log, n, inside, p.left);
  }

  // ---------------------------------------------------------------- damage anywhere

  /** The segments of the log, with the bytes from record x to the end of its segment replaced by `tail`. */
  function Damaged(enc: Encoder, log: seq<Record>, x: nat, tail: string): (files: seq<File>)
    requires x < |log|
    decreases |log|
  {
    if |log| <= PER_SEGMENT then [(log[0].index, EncodeAll(enc, log[..x]) + tail)]
    else if x < PER_SEGMENT then [(log[0].index, EncodeAll(enc, log[..x]) + tail)] + Chunks(enc, log[PER_SEGMENT..])
    else [(log[0].index, EncodeAll(enc, log[..PER_SEGMENT]))] + Damaged(enc, log[PER_SEGMENT..], x - PER_SEGMENT, tail)
  }

  /** After damage, later files are removed unread. */
  lemma {:induction false} RestRemoved(read: Reader, p: Progress, files: seq<File>, first: nat, last: nat)
    requires p.torn && !p.stuck
    ensures ReadFiles(read, p, files, first, last) == p.(removed := p.removed || files != [])
    decreases |files|
  {
    if files != [] {
      RestRemoved(read, p.(removed := true), files[1..], first, last);
    }
  }

  lemma NextDamaged(read: Reader, enc: Encoder, p: Progress, start: nat, part: seq<Record>, tail: string, first: nat, last: nat)
    requires Fresh(p) && Faithful(read, enc, part) && read(tail) == Bad
    ensures var q := Next(read, p, (start, EncodeAll(enc, part) + tail), first, last);
            q.records == p.records + InRange(part, first, last) && q.torn && !q.removed && !q.stuck
  {
    DamagedSegment(read, enc, part, tail);
  }

  /** What the reader has after a damaged tree: the records before the damage, and whether a later segment was removed. */
  lemma {:induction false} DamagedProgress(read: Reader, enc: Encoder, p: Progress, log: seq<Record>, x: nat, tail: string, first: nat, last: nat)
    requires Fresh(p) && x < |log| && Faithful(read, enc, log) && read("") == End && read(tail) == Bad
    ensures var q := ReadFiles(read, p, Damaged(enc, log, x, tail), first, last);
            q.records == p.records + InRange(log[..x], first, last) && q.torn && !q.stuck && q.removed == (x < LastStart(log))
    decreases |log|
  {
    if |log| <= PER_SEGMENT || x < PER_SEGMENT {
      var f: File := (log[0].index, EncodeAll(enc, log[..x]) + tail);
      var rest := if |log| <= PER_SEGMENT then [] else Chunks(enc, log[PER_SEGMENT..]);
      FaithfulTail(read, enc, log, log[..x]);
      NextDamaged(read, enc, p, f.0, log[..x], tail, first, last);
      assert Damaged(enc, log, x, tail) == [f] + rest && ([f] + rest)[1..] == rest;
      RestRemoved(read, Next(read, p, f, first, last), rest, first, last);
    } else {
      var part, rest := log[..PER_SEGMENT], log[PER_SEGMENT..];
      var f: File := (log[0].index, EncodeAll(enc, part));
      FaithfulTail(read, enc, log, part);
      FaithfulTail(read, enc, log, rest);
      NextWhole(read, enc, p, f.0, part, first, last);
      var more := Damaged(enc, rest, x - PER_SEGMENT, tail);
      assert Damaged(enc, log, x, tail) == [f] + more && ([f] + more)[1..] == more;
      var q := Next(read, p, f, first, last);
      DamagedProgress(read, enc, q, rest, x - PER_SEGMENT, tail, first, last);
      BeforeDamage(p.records, log, x, first, last);
    }
  }

  lemma BeforeDamage(records: seq<Record>, log: seq<Record>, x: nat, first: nat, last: nat)
    requires PER_SEGMENT <= x < |log|
    ensures (records + InRange(log[..PER_SEGMENT], first, last)) + InRange(log[PER_SEGMENT..][..x - PER_SEGMENT], first, last)
            == records + InRange(log[..x], first, last)
  {
    assert log[..x] == log[..PER_SEGMENT] + log[PER_SEGMENT..][..x - PER_SEGMENT];
    InRangeJoin(log[..PER_SEGMENT], log[PER_SEGMENT..][..x - PER_SEGMENT], first, last);
  }

  /** Damage from record x on: the records before it if nothing after its segment was lost with it, otherwise nothing. */
  lemma DamageLoads(read: Reader, enc: Encoder, log: seq<Record>, x: nat, tail: string)
    requires x < |log| && Contiguous(log) && Faithful(read, enc, log) && read("") == End && read(tail) == Bad
    ensures LoadFiles(read, Some(Damaged(enc, log, x, tail)), log[0].index, log[|log| - 1].index, |log|) ==
            if x >= LastStart(log) && (x > 0 || log[0].index == 0) then Some(log[..x]) else None
  {
    var first, last := log[0].index, log[|log| - 1].index;
    var q := ReadFiles(read, START, Damaged(enc, log, x, tail), first, last);
    DamagedProgress(read, enc, START, log, x, tail, first, last);
    AllInRange(log, x);
    assert START.records + log[..x] == log[..x];
    assert q == Progress(log[..x], true, x < LastStart(log), false, q.left);
    if x >= LastStart(log) {
      Judge(log, x, true, q.left);
    }
  }

  // ---------------------------------------------------------------- arbitrary bytes

  ghost predicate FromFiles(read: Reader, files: seq<File>, r: Record) {
    exists i :: 0 <= i < |files| && Present(read, files[i].1, r)
  }

  lemma {:induction false} InRangeMember(log: seq<Record>, first: nat, last: nat, r: Record)
    requires r in InRange(log, first, last)
    ensures r in log && first <= r.index <= last
    decreases |log|
  {
    if r in InRange(log[..|log| - 1], first, last) {
      InRangeMember(log[..|log| - 1], first, last, r);
    }
  }

  lemma {:induction false} RecordsFromFiles(read: Reader, p: Progress, files: seq<File>, first: nat, last: nat, r: Record)
    requires Consumes(read) && r in ReadFiles(read, p, files, first, last).records
    ensures r in p.records || (first <= r.index <= last && FromFiles(read, files, r))
    decreases |files|
  {
    if files != [] {
      var q := Next(read, p, files[0], first, last);
      RecordsFromFiles(read, q, files[1..], first, last, r);
      if r in q.records && r !in p.records {
        var seg := ReadSegment(read, files[0].1);
        assert r in InRange(seg.records, first, last);
        InRangeMember(seg.records, first, last, r);
        AllPresent(read, files[0].1, r);
      } else if r !in p.records {
        var i :| 0 <= i < |files[1..]| && Present(read, files[1..][i].1, r);
        assert files[i + 1] == files[1..][i];
      }
    }
  }

  /** Whatever the files hold, an accepted log is contiguous, in meta's range, and made of records the reader verified. */
  lemma AcceptedLog(read: Reader, files: seq<File>, first: nat, last: nat, count: nat, log: seq<Record>)
    requires Consumes(read) && LoadFiles(read, Some(files), first, last, count) == Some(log) && log != []
    ensures Contiguous(log) && log[0].index == first && log[|log| - 1].index <= last
    ensures forall r :: r in log ==> FromFiles(read, files, r)
  {
    forall r | r in log ensures first <= r.index <= last && FromFiles(read, files, r) {
      RecordsFromFiles(read, START, files, first, last, r);
    }
    assert log[|log| - 1] in log;
  }
}
