/** The storage of a node's hard state and log: meta.bin beside the log directory, their replacement on every save, and crashes in between. */
module RaftStorage {
  import opened Wrappers
  import opened Bytes
  import opened CompactLog
  import opened SegmentCodec
  import opened Segments
  import opened SegmentTree

  const META_MAGIC: nat := 0x524D5441
  const META_VERSION: nat := 1
  const META_SIZE: nat := 64
  const INT_LIMIT: int := 0x8000_0000

  // ---------------------------------------------------------------- meta.bin

  datatype Meta = Meta(term: nat, vote: int, commit: nat, applied: nat, first: nat, last: nat, count: nat)

  function FirstOf(log: seq<Record>): nat { if log == [] then 0 else log[0].index }

  function LastOf(log: seq<Record>): nat { if log == [] then 0 else log[|log| - 1].index }

  function MetaOf(st: Stored): Meta {
    Meta(st.term, st.vote, st.commit, st.applied, FirstOf(st.log), LastOf(st.log), |st.log|)
  }

  /** A signed 64-bit field. */
  function Signed(v: int): nat
    requires -INT_LIMIT <= v < INT_LIMIT
  {
    if v < 0 then v + WORD64 else v
  }

  /** Its value narrowed to a 32-bit int. */
  function Narrow(n: nat): int {
    var m := n % WORD32;
    if m >= INT_LIMIT then m - WORD32 else m
  }

  function MetaHead(m: Meta): string
    requires -INT_LIMIT <= m.vote < INT_LIMIT
  {
    Le(META_MAGIC, 4) + Le(META_VERSION, 4) + Le(m.term, 8) + Le(Signed(m.vote), 8)
  }

  function MetaTail(m: Meta): string {
    Le(m.commit, 8) + Le(m.applied, 8) + Le(m.first, 8) + Le(m.last, 8) + Le(m.count, 8)
  }

  function MetaBytes(m: Meta): string
    requires -INT_LIMIT <= m.vote < INT_LIMIT
  {
    MetaHead(m) + MetaTail(m)
  }

  predicate RangeOk(m: Meta) {
    if m.count == 0 then m.first == 0 && m.last == 0 else m.first <= m.last && m.last - m.first + 1 == m.count
  }

  function ReadMeta(s: string): Option<Meta> {
    if |s| < META_SIZE then None
    else
      var m := Meta(UnLe(s[8..16]), Narrow(UnLe(s[16..24])), UnLe(s[24..32]), UnLe(s[32..40]),
                    UnLe(s[40..48]), UnLe(s[48..56]), UnLe(s[56..64]));
      if UnLe(s[0..4]) != META_MAGIC || UnLe(s[4..8]) != META_VERSION || !RangeOk(m) then None else Some(m)
  }

  /** What the field widths can hold. */
  predicate MetaFits(m: Meta) {
    && m.term < WORD64 && -INT_LIMIT <= m.vote < INT_LIMIT && m.commit < WORD64 && m.applied < WORD64
    && m.first < WORD64 && m.last < WORD64 && m.count < WORD64
  }

  lemma NarrowSigned(v: int)
    requires -INT_LIMIT <= v < INT_LIMIT
    ensures Signed(v) < WORD64 && Narrow(Signed(v)) == v
  {
  }

  lemma HeadRead(m: Meta, rest: string)
    requires MetaFits(m)
    ensures var s := MetaHead(m) + rest;
            |MetaHead(m)| == 24 && UnLe(s[0..4]) == META_MAGIC && UnLe(s[4..8]) == META_VERSION
            && UnLe(s[8..16]) == m.term && Narrow(UnLe(s[16..24])) == m.vote
  {
    var s := MetaHead(m) + rest;
    Widths();
    UnLeLe(META_MAGIC, 4);
    UnLeLe(META_VERSION, 4);
    UnLeLe(m.term, 8);
    NarrowSigned(m.vote);
    UnLeLe(Signed(m.vote), 8);
    FourPieces(Le(META_MAGIC, 4), Le(META_VERSION, 4), Le(m.term, 8), Le(Signed(m.vote), 8), rest);
  }

  lemma TailRead(m: Meta)
    requires MetaFits(m)
    ensures var s := MetaTail(m);
            |s| == 40 && UnLe(s[0..8]) == m.commit && UnLe(s[8..16]) == m.applied
            && UnLe(s[16..24]) == m.first && UnLe(s[24..32]) == m.last && UnLe(s[32..40]) == m.count
  {
    var s := MetaTail(m);
    Widths();
    UnLeLe(m.commit, 8);
    UnLeLe(m.applied, 8);
    UnLeLe(m.first, 8);
    UnLeLe(m.last, 8);
    UnLeLe(m.count, 8);
    FourPieces(Le(m.commit, 8), Le(m.applied, 8), Le(m.first, 8), Le(m.last, 8), Le(m.count, 8));
    assert s[32..40] == s[32..];
  }

  lemma MetaRoundTrip(m: Meta)
    requires MetaFits(m) && RangeOk(m)
    ensures ReadMeta(MetaBytes(m)) == Some(m)
  {
    var s, t := MetaBytes(m), MetaTail(m);
    HeadRead(m, t);
    TailRead(m);
    assert s[24..32] == t[0..8] && s[32..40] == t[8..16] && s[40..48] == t[16..24];
    assert s[48..56] == t[24..32] && s[56..64] == t[32..40];
  }

  // ---------------------------------------------------------------- loading

  datatype LoadResult = Refused | NoState | Loaded(state: Stored)

  function Min(a: nat, b: nat): nat { if a <= b then a else b }

  /** ClampRecoveredHardState. */
  function Clamp(st: Stored): (r: Stored)
    ensures r.applied <= r.commit <= LastOf(r.log) && r.log == st.log && r.term == st.term && r.vote == st.vote
    ensures r.commit == if st.commit <= LastOf(st.log) then st.commit else LastOf(st.log)
    ensures r.applied == if st.applied <= r.commit then st.applied else r.commit
  {
    var last := LastOf(st.log);
    var commit := Min(st.commit, last);
    st.(commit := commit, applied := Min(Min(st.applied, last), commit))
  }

  /** The clamp lowers both indexes as little as it can: no admissible value is above the one it keeps. */
  lemma ClampGreatest(st: Stored, k: nat)
    ensures Clamp(st).commit <= st.commit && Clamp(st).applied <= st.applied
    ensures k <= st.commit && k <= LastOf(st.log) ==> k <= Clamp(st).commit
    ensures k <= st.applied && k <= Clamp(st).commit ==> k <= Clamp(st).applied
  {
  }

  /** The indexes are in order: last_applied <= commit <= last index. */
  predicate InOrder(st: Stored) { st.applied <= st.commit <= LastOf(st.log) }

  /** A state whose indexes are in order is not touched. */
  lemma ClampKeeps(st: Stored)
    ensures Clamp(st) == st <==> InOrder(st)
  {
  }

  function Load(read: Reader, meta: Option<string>, files: Option<seq<File>>): LoadResult {
    if meta.None? then NoState
    else match ReadMeta(meta.value)
      case None => Refused
      case Some(m) =>
        match LoadFiles(read, files, m.first, m.last, m.count)
        case None => Refused
        case Some(log) => Loaded(Clamp(Stored(m.term, m.vote, log, m.commit, m.applied)))
  }

  /** What meta.bin must hold to be read: 64 bytes, magic number, version, and a range of as many indexes as it announces records. */
  lemma ReadMetaIff(s: string)
    ensures ReadMeta(s).Some? <==>
              && |s| >= 64 && UnLe(s[0..4]) == 0x524D5441 && UnLe(s[4..8]) == 1
              && var first, last, count := UnLe(s[40..48]), UnLe(s[48..56]), UnLe(s[56..64]);
                 if count == 0 then first == 0 == last else first <= last && count == last - first + 1
    ensures ReadMeta(s).Some? ==>
              ReadMeta(s).value == Meta(UnLe(s[8..16]), Narrow(UnLe(s[16..24])), UnLe(s[24..32]), UnLe(s[32..40]),
                                        UnLe(s[40..48]), UnLe(s[48..56]), UnLe(s[56..64]))
  {
  }

  /**
    The three verdicts. Only a missing meta.bin is "no state"; an unreadable one, or a log that is not accepted, is refused; otherwise the hard
    state is meta's, over the accepted log, with the indexes lowered to it.
   */
  lemma LoadVerdict(read: Reader, meta: Option<string>, files: Option<seq<File>>)
    ensures Load(read, meta, files) == NoState <==> meta == None
    ensures meta.Some? ==>
              (Load(read, meta, files) == Refused <==>
                 ReadMeta(meta.value).None?
                 || var m := ReadMeta(meta.value).value; LoadFiles(read, files, m.first, m.last, m.count).None?)
    ensures Load(read, meta, files).Loaded? ==>
              && meta.Some? && ReadMeta(meta.value).Some?
              && var m, r := ReadMeta(meta.value).value, Load(read, meta, files).state;
              && r.term == m.term && r.vote == m.vote && LoadFiles(read, files, m.first, m.last, m.count) == Some(r.log)
              && r.commit == (if m.commit <= LastOf(r.log) then m.commit else LastOf(r.log))
              && r.applied == (if m.applied <= r.commit then m.applied else r.commit)
  {
  }

  /** A state the node can hold: every number in its field, the log without gaps. */
  predicate WellFormed(st: Stored) {
    MetaFits(MetaOf(st)) && Contiguous(st.log) && AllWritable(st.log)
  }

  /** Under the meta of a state, only the log depends on the files. */
  lemma LoadUnder(read: Reader, st: Stored, files: Option<seq<File>>)
    requires WellFormed(st)
    ensures Load(read, Some(MetaBytes(MetaOf(st))), files) ==
            match LoadFiles(read, files, FirstOf(st.log), LastOf(st.log), |st.log|)
            case None => Refused
            case Some(log) => Loaded(Clamp(st.(log := log)))
  {
    MetaRoundTrip(MetaOf(st));
  }

  /** The format of the source reads back its own records and recognises partial ones. */
  lemma FormatFits(sum: Record -> nat, log: seq<Record>)
    requires AllWritable(log)
    ensures var read, enc := RecordReader(sum), RecordWriter(sum);
            && read("") == End && Consumes(read) && Detects(read, enc, log) && (AllSmall(log) ==> Faithful(read, enc, log))
  {
    var read, enc := RecordReader(sum), RecordWriter(sum);
    forall r, c | r in log && 0 < c < |enc(r)| ensures Notices(read, enc, r, c) {
      ReadPartial(sum, r, c);
    }
    if AllSmall(log) {
      forall r, rest | r in log ensures ReadsBack(read, enc, r, rest) {
        ReadBack(sum, r, rest);
        HeadFields(sum, r, "");
      }
    }
  }

  function SavedFiles(sum: Record -> nat, log: seq<Record>): seq<File> { Chunks(RecordWriter(sum), log) }

  lemma SavedLoads(sum: Record -> nat, st: Stored)
    requires WellFormed(st) && AllSmall(st.log)
    ensures Load(RecordReader(sum), Some(MetaBytes(MetaOf(st))), Some(SavedFiles(sum, st.log))) == Loaded(Clamp(st))
  {
    LoadUnder(RecordReader(sum), st, Some(SavedFiles(sum, st.log)));
    if st.log != [] {
      SavedRange(sum, st.log, FirstOf(st.log), LastOf(st.log));
      WholeWindow(st.log);
    }
  }

  /** A loaded record is never above the reader's limit. */
  lemma LoadedIsSmall(sum: Record -> nat, files: seq<File>, first: nat, last: nat, count: nat, log: seq<Record>)
    requires LoadFiles(RecordReader(sum), Some(files), first, last, count) == Some(log)
    ensures AllSmall(log)
  {
    if log != [] {
      FormatFits(sum, []);
      AcceptedLog(RecordReader(sum), files, first, last, count, log);
      forall k | 0 <= k < |log| ensures Small(log[k]) {
        assert FromFiles(RecordReader(sum), files, log[k]);
        var i :| 0 <= i < |files| && Present(RecordReader(sum), files[i].1, log[k]);
        var at: nat :| at <= |files[i].1| && ReadsAt(RecordReader(sum), files[i].1, at, log[k]);
        AcceptedIsVerified(sum, files[i].1[at..]);
      }
    }
  }

  /**
    Save and load: a state comes back, up to the clamp of its commit and applied indexes, exactly when no command is larger
    than the reader's limit of 64 MiB. The writer accepts up to 4 GiB.
   */
  lemma SaveLoadRoundTrip(sum: Record -> nat, st: Stored)
    requires WellFormed(st)
    ensures Load(RecordReader(sum), Some(MetaBytes(MetaOf(st))), Some(SavedFiles(sum, st.log))) == Loaded(Clamp(st))
            <==> AllSmall(st.log)
  {
    if AllSmall(st.log) {
      SavedLoads(sum, st);
    } else {
      LoadUnder(RecordReader(sum), st, Some(SavedFiles(sum, st.log)));
      var m := MetaOf(st);
      var loaded := LoadFiles(RecordReader(sum), Some(SavedFiles(sum, st.log)), m.first, m.last, m.count);
      if loaded.Some? {
        LoadedIsSmall(sum, SavedFiles(sum, st.log), m.first, m.last, m.count, loaded.value);
      }
    }
  }

  /** A state whose indexes are in order comes back exactly, if and only if no command is too large. */
  lemma SaveLoadExact(sum: Record -> nat, st: Stored)
    requires WellFormed(st) && InOrder(st)
    ensures Load(RecordReader(sum), Some(MetaBytes(MetaOf(st))), Some(SavedFiles(sum, st.log))) == Loaded(st) <==> AllSmall(st.log)
  {
    SaveLoadRoundTrip(sum, st);
    ClampKeeps(st);
  }

  /** The hard state of st over the first n records, with commit and last_applied lowered to what is left. */
  function CutTo(st: Stored, n: nat): Stored
    requires n <= |st.log|
  {
    var last := if n == 0 then 0 else st.log[n - 1].index;
    var commit := if st.commit <= last then st.commit else last;
    Stored(st.term, st.vote, st.log[..n], commit, if st.applied <= commit then st.applied else commit)
  }

  lemma CutToIs(st: Stored, n: nat)
    requires n <= |st.log|
    ensures Clamp(st.(log := st.log[..n])) == CutTo(st, n)
  {
  }

  function LastBytes(sum: Record -> nat, st: Stored): string { EncodeAll(RecordWriter(sum), LastPart(st.log)) }

  lemma CutFilesLoad(sum: Record -> nat, log: seq<Record>, cut: nat)
    requires log != [] && Contiguous(log) && AllWritable(log) && AllSmall(log)
    requires cut <= |EncodeAll(RecordWriter(sum), LastPart(log))|
    ensures var enc := RecordWriter(sum);
            var n := Survivors(enc, log, cut);
            && n <= |log|
            && LoadFiles(RecordReader(sum), Some(CutFiles(enc, log, cut)), FirstOf(log), LastOf(log), |log|) ==
               if n == |log| || (CutInside(enc, log, cut) && (n > 0 || log[0].index == 0)) then Some(log[..n]) else None
  {
    var read, enc := RecordReader(sum), RecordWriter(sum);
    assert Faithful(read, enc, log) && Detects(read, enc, log) && read("") == End by {
      FormatFits(sum, log);
    }
    CutLoads(read, enc, log, cut);
  }

  /**
    Torn tail: after a cut strictly inside a record of the last segment, the load gives exactly the records wholly before the cut,
    with commit and last_applied clamped to them; the exception is a cut inside the first record of a log that
    starts above index 0. A cut on a record boundary that loses records is refused.
   */
  lemma TornTail(sum: Record -> nat, st: Stored, cut: nat)
    requires WellFormed(st) && AllSmall(st.log) && st.log != [] && cut <= |LastBytes(sum, st)|
    ensures var enc := RecordWriter(sum);
            var n := Survivors(enc, st.log, cut);
            && n <= |st.log|
            && Load(RecordReader(sum), Some(MetaBytes(MetaOf(st))), Some(CutFiles(enc, st.log, cut))) ==
               if n == |st.log| || (CutInside(enc, st.log, cut) && (n > 0 || st.log[0].index == 0))
               then Loaded(CutTo(st, n)) else Refused
  {
    var read, enc := RecordReader(sum), RecordWriter(sum);
    LoadUnder(read, st, Some(CutFiles(enc, st.log, cut)));
    CutFilesLoad(sum, st.log, cut);
    CutToIs(st, Survivors(enc, st.log, cut));
  }

  /**
    Damage anywhere: if from record x on the bytes of its segment are replaced by anything the reader takes for damage, the load gives exactly the
    records before x when that is the last segment, and is refused when a later segment had to be dropped with it.
   */
  lemma DamageAnywhere(sum: Record -> nat, st: Stored, x: nat, tail: string)
    requires WellFormed(st) && AllSmall(st.log) && x < |st.log| && ReadRecord(sum, tail) == Bad
    ensures Load(RecordReader(sum), Some(MetaBytes(MetaOf(st))), Some(Damaged(RecordWriter(sum), st.log, x, tail))) ==
            if x >= LastStart(st.log) && (x > 0 || st.log[0].index == 0) then Loaded(CutTo(st, x)) else Refused
  {
    LoadUnder(RecordReader(sum), st, Some(Damaged(RecordWriter(sum), st.log, x, tail)));
    DamagedFiles(sum, st.log, x, tail);
    CutToIs(st, x);
  }

  lemma DamagedFiles(sum: Record -> nat, log: seq<Record>, x: nat, tail: string)
    requires x < |log| && Contiguous(log) && AllWritable(log) && AllSmall(log) && ReadRecord(sum, tail) == Bad
    ensures LoadFiles(RecordReader(sum), Some(Damaged(RecordWriter(sum), log, x, tail)), FirstOf(log), LastOf(log), |log|) ==
            if x >= LastStart(log) && (x > 0 || log[0].index == 0) then Some(log[..x]) else None
  {
    var read, enc := RecordReader(sum), RecordWriter(sum);
    assert Faithful(read, enc, log) && read("") == End by {
      FormatFits(sum, log);
    }
    DamageLoads(read, enc, log, x, tail);
  }

  lemma {:induction false} BoundaryIsWhole(enc: Encoder, log: seq<Record>, k: nat)
    requires k <= |log| && forall r :: r in log ==> enc(r) != ""
    ensures WholeBefore(enc, log, |EncodeAll(enc, log[..k])|) == k
    decreases |log|
  {
    if k == 0 {
      assert log[..0] == [];
      assert log != [] ==> log[0] in log;
    } else {
      assert log[..k][1..] == log[1..][..k - 1];
      BoundaryIsWhole(enc, log[1..], k - 1);
    }
  }

  lemma NeverEmpty(sum: Record -> nat, log: seq<Record>)
    ensures forall r :: r in log ==> RecordWriter(sum)(r) != ""
  {
  }

  /** The truncated files a torn-tail load leaves behind. */
  function LeftFiles(sum: Record -> nat, st: Stored, cut: nat): seq<File>
    requires st.log != [] && cut <= |LastBytes(sum, st)|
  {
    ReadFiles(RecordReader(sum), START, CutFiles(RecordWriter(sum), st.log, cut), FirstOf(st.log), LastOf(st.log)).left
  }

  /** The truncation ends the file on a record boundary. */
  lemma LeftIsBoundary(sum: Record -> nat, st: Stored, cut: nat) returns (whole: nat)
    requires WellFormed(st) && AllSmall(st.log) && st.log != [] && cut <= |LastBytes(sum, st)|
    ensures var enc := RecordWriter(sum);
            && whole <= cut && LeftFiles(sum, st, cut) == CutFiles(enc, st.log, whole)
            && Survivors(enc, st.log, whole) == Survivors(enc, st.log, cut) && !CutInside(enc, st.log, whole)
  {
    var read, enc, part := RecordReader(sum), RecordWriter(sum), LastPart(st.log);
    var k := WholeBefore(enc, part, cut);
    whole := |EncodeAll(enc, part[..k])|;
    assert Faithful(read, enc, st.log) && Detects(read, enc, st.log) && read("") == End by {
      FormatFits(sum, st.log);
    }
    CutProgress(read, enc, st.log, cut);
    NeverEmpty(sum, part);
    BoundaryIsWhole(enc, part, k);
  }

  /** The truncation removes the evidence: loading once more, with the same meta, is refused. */
  lemma SecondLoadRefused(sum: Record -> nat, st: Stored, cut: nat)
    requires WellFormed(st) && AllSmall(st.log) && st.log != [] && cut <= |LastBytes(sum, st)|
    requires Survivors(RecordWriter(sum), st.log, cut) < |st.log|
    ensures Load(RecordReader(sum), Some(MetaBytes(MetaOf(st))), Some(LeftFiles(sum, st, cut))) == Refused
  {
    var whole := LeftIsBoundary(sum, st, cut);
    TornTail(sum, st, whole);
  }

  /** Any bytes: what an accepted load returns is gap-free, in meta's range, clamped, and checksum-verified record by record. */
  lemma AnyBytes(sum: Record -> nat, meta: string, files: seq<File>)
    ensures var r := Load(RecordReader(sum), Some(meta), Some(files));
            r.Loaded? ==>
              var m, log := ReadMeta(meta), r.state.log;
              && m.Some? && r.state.term == m.value.term && r.state.vote == m.value.vote
              && r.state.applied <= r.state.commit <= LastOf(log)
              && (log != [] ==> Contiguous(log) && log[0].index == m.value.first && LastOf(log) <= m.value.last)
              && (forall x :: x in log ==> FromFiles(RecordReader(sum), files, x))
  {
    var r := Load(RecordReader(sum), Some(meta), Some(files));
    if r.Loaded? && r.state.log != [] {
      var m := ReadMeta(meta).value;
      FormatFits(sum, []);
      AcceptedLog(RecordReader(sum), files, m.first, m.last, m.count, r.state.log);
    }
  }

  // ---------------------------------------------------------------- the data directory

  /** The files and directories a save touches. */
  datatype Fs = Fs(log: Option<Dir>, logTmp: Option<Dir>, logBackup: Option<Dir>, meta: Option<string>, metaTmp: Option<string>)

  lemma {:induction false} GreatestKey(dir: Dir) returns (k: nat)
    requires dir != map[]
    ensures k in dir && forall j :: j in dir ==> j <= k
    decreases |dir|
  {
    var x :| x in dir;
    var rest := dir - {x};
    assert forall j :: j in dir ==> j == x || j in rest;
    if rest == map[] {
      k := x;
    } else {
      k := GreatestKey(rest);
      if k < x {
        k := x;
      }
    }
  }

  lemma ListingGrows(files: seq<File>, dir: Dir, k: nat)
    requires k in dir && (forall j :: j in dir ==> j <= k) && Listing(files, dir - {k})
    ensures Listing(files + [(k, dir[k])], dir)
  {
    var more: seq<File> := files + [(k, dir[k])];
    forall i | 0 <= i < |more| ensures more[i].0 in dir && dir[more[i].0] == more[i].1 && (i < |files| ==> more[i].0 < k) {
      if i < |files| {
        assert more[i] == files[i] && files[i].0 in dir - {k};
      }
    }
    forall j | j in dir ensures (j, dir[j]) in more {
      if j != k {
        assert j in dir - {k};
      } else {
        assert more[|files|] == (j, dir[j]);
      }
    }
  }

  /** The directory in ascending order. */
  ghost function ListingOf(dir: Dir): (files: seq<File>)
    ensures Listing(files, dir)
    decreases |dir|
  {
    if dir == map[] then []
    else
      assert exists k :: k in dir && forall j :: j in dir ==> j <= k by { var k := GreatestKey(dir); }
      var k :| k in dir && forall j :: j in dir ==> j <= k;
      ListingGrows(ListingOf(dir - {k}), dir, k);
      ListingOf(dir - {k}) + [(k, dir[k])]
  }

  /** What a restart reads from the directory. */
  ghost function LoadFrom(read: Reader, fs: Fs): LoadResult {
    Load(read, fs.meta, if fs.log.None? then None else Some(ListingOf(fs.log.value)))
  }

  function SavedDir(sum: Record -> nat, log: seq<Record>): Dir { DirOf(SavedFiles(sum, log)) }

  lemma SavedListing(sum: Record -> nat, log: seq<Record>)
    requires Contiguous(log)
    ensures ListingOf(SavedDir(sum, log)) == SavedFiles(sum, log)
  {
    ChunksAscending(RecordWriter(sum), log);
    DirOfListing(SavedFiles(sum, log));
    ListingUnique(ListingOf(SavedDir(sum, log)), SavedFiles(sum, log), SavedDir(sum, log));
  }

  /** The directory after each operation that publishes the temporary log and meta. */
  function Publishing(fs: Fs): (r: seq<Fs>)
    ensures |r| == 6
  {
    var s5 := fs.(logBackup := None);
    var s6 := s5.(log := None, logBackup := s5.log);
    var s7 := s6.(log := s6.logTmp, logTmp := None);
    var s8 := s7.(logBackup := None);
    var s9 := s8.(meta := None);
    [s5, s6, s7, s8, s9, s9.(meta := s9.metaTmp, metaTmp := None)]
  }

  /** The directory after each operation that stages the new log and meta. */
  function Staging(sum: Record -> nat, fs: Fs, st: Stored): (r: seq<Fs>)
    requires MetaFits(MetaOf(st))
    ensures |r| == 5
  {
    var s1 := fs.(logTmp := None);
    var s2 := s1.(logTmp := Some(map[]));
    var s3 := s2.(logTmp := Some(SavedDir(sum, st.log)));
    [fs, s1, s2, s3, s3.(metaTmp := Some(MetaBytes(MetaOf(st))))]
  }

  lemma StagingIs(sum: Record -> nat, fs: Fs, st: Stored)
    requires MetaFits(MetaOf(st))
    ensures var s1 := fs.(logTmp := None);
            var s2 := s1.(logTmp := Some(map[]));
            var s3 := s2.(logTmp := Some(SavedDir(sum, st.log)));
            var s4 := s3.(metaTmp := Some(MetaBytes(MetaOf(st))));
            Staging(sum, fs, st) == [fs] + [s1] + [s2] + [s3] + [s4] && Staging(sum, fs, st)[4] == s4
  {
  }

  /** The directory after each completed operation of a save, in order. */
  function SaveSteps(sum: Record -> nat, fs: Fs, st: Stored): (r: seq<Fs>)
    requires MetaFits(MetaOf(st))
    ensures |r| == 11
  {
    Staging(sum, fs, st) + Publishing(Staging(sum, fs, st)[4])
  }

  /** The new log tree under the old meta. */
  function Hybrid(before: Stored, after: Stored): LoadResult {
    if before.log == [] then Loaded(Clamp(before))
    else if CoversRange(after.log, FirstOf(before.log), LastOf(before.log))
    then Loaded(Clamp(before.(log := Window(after.log, FirstOf(before.log), LastOf(before.log)))))
    else Refused
  }

  predicate Published(sum: Record -> nat, fs: Fs, st: Stored)
    requires MetaFits(MetaOf(st))
  {
    fs.meta == Some(MetaBytes(MetaOf(st))) && fs.log == Some(SavedDir(sum, st.log))
  }

  lemma PublishedLoads(sum: Record -> nat, fs: Fs, st: Stored)
    requires WellFormed(st) && AllSmall(st.log) && Published(sum, fs, st)
    ensures LoadFrom(RecordReader(sum), fs) == Loaded(Clamp(st))
  {
    SavedListing(sum, st.log);
    SavedLoads(sum, st);
  }

  lemma SavedRange(sum: Record -> nat, log: seq<Record>, first: nat, last: nat)
    requires Contiguous(log) && AllWritable(log) && AllSmall(log) && first <= last
    ensures LoadFiles(RecordReader(sum), Some(SavedFiles(sum, log)), first, last, last - first + 1) ==
            if CoversRange(log, first, last) then Some(Window(log, first, last)) else None
  {
    var read, enc := RecordReader(sum), RecordWriter(sum);
    assert Faithful(read, enc, log) && read("") == End by {
      FormatFits(sum, log);
    }
    LoadRange(read, enc, log, first, last);
  }

  lemma HybridLoads(sum: Record -> nat, fs: Fs, before: Stored, after: Stored)
    requires WellFormed(before) && WellFormed(after) && AllSmall(after.log)
    requires fs.meta == Some(MetaBytes(MetaOf(before))) && fs.log == Some(SavedDir(sum, after.log))
    ensures LoadFrom(RecordReader(sum), fs) == Hybrid(before, after)
  {
    SavedListing(sum, after.log);
    HybridFiles(sum, before, after);
  }

  lemma HybridFiles(sum: Record -> nat, before: Stored, after: Stored)
    requires WellFormed(before) && WellFormed(after) && AllSmall(after.log)
    ensures Load(RecordReader(sum), Some(MetaBytes(MetaOf(before))), Some(SavedFiles(sum, after.log))) == Hybrid(before, after)
  {
    LoadUnder(RecordReader(sum), before, Some(SavedFiles(sum, after.log)));
    if before.log != [] {
      RangeOf(before);
      SavedRange(sum, after.log, FirstOf(before.log), LastOf(before.log));
    }
  }

  lemma RangeOf(st: Stored)
    requires Contiguous(st.log) && st.log != []
    ensures FirstOf(st.log) <= LastOf(st.log) && LastOf(st.log) - FirstOf(st.log) + 1 == |st.log|
  {
  }

  lemma MissingLog(read: Reader, fs: Fs, before: Stored)
    requires WellFormed(before) && fs.meta == Some(MetaBytes(MetaOf(before))) && fs.log == None
    ensures LoadFrom(read, fs) == if before.log == [] then Loaded(Clamp(before)) else Refused
  {
    LoadUnder(read, before, None);
  }

  /** What a restart finds after operation i of a save: always one whole meta, with the log range it names from one tree, or a refusal. */
  function AfterCrash(i: nat, before: Stored, after: Stored): LoadResult {
    if i <= 5 then Loaded(Clamp(before))
    else if i == 6 then (if before.log == [] then Loaded(Clamp(before)) else Refused)
    else if i <= 8 then Hybrid(before, after)
    else if i == 9 then NoState
    else Loaded(Clamp(after))
  }

  /** What the loader sees of the directory after operation i. */
  lemma VisibleAfter(sum: Record -> nat, fs: Fs, st: Stored, i: nat)
    requires MetaFits(MetaOf(st)) && i <= 10
    ensures var x := SaveSteps(sum, fs, st)[i];
            && x.log == (if i <= 5 then fs.log else if i == 6 then None else Some(SavedDir(sum, st.log)))
            && x.meta == (if i <= 8 then fs.meta else if i == 9 then None else Some(MetaBytes(MetaOf(st))))
  {
  }

  /** Crash points of a save, exactly. Operation 9, the removal of the old meta.bin, is the one that forgets the state. */
  lemma CrashPoints(sum: Record -> nat, fs: Fs, before: Stored, after: Stored, i: nat)
    requires WellFormed(before) && WellFormed(after) && AllSmall(before.log) && AllSmall(after.log)
    requires Published(sum, fs, before) && i < |SaveSteps(sum, fs, after)|
    ensures LoadFrom(RecordReader(sum), SaveSteps(sum, fs, after)[i]) == AfterCrash(i, before, after)
  {
    var x := SaveSteps(sum, fs, after)[i];
    VisibleAfter(sum, fs, after, i);
    if i <= 5 {
      PublishedLoads(sum, x, before);
    } else if i == 6 {
      MissingLog(RecordReader(sum), x, before);
    } else if i <= 8 {
      HybridLoads(sum, x, before, after);
    } else if i == 10 {
      PublishedLoads(sum, x, after);
    }
  }

  /** A save that only appends leaves, at every point but the two, exactly the old or the new state. */
  lemma AppendCrash(i: nat, before: Stored, after: Stored)
    requires Contiguous(after.log) && before.log <= after.log && i <= 10 && i != 9 && (i == 6 ==> before.log == [])
    ensures AfterCrash(i, before, after) == Loaded(Clamp(if i <= 8 then before else after))
  {
    if before.log != [] {
      assert after.log[|before.log| - 1] == before.log[|before.log| - 1];
      assert after.log[0..|before.log|] == before.log;
    }
  }

  /** A save that compacts beyond the old first index cannot be loaded between its two publications. */
  lemma CompactionCrash(before: Stored, after: Stored)
    requires before.log != [] && after.log != [] && FirstOf(after.log) > FirstOf(before.log)
    ensures AfterCrash(7, before, after) == AfterCrash(8, before, after) == Refused
  {
  }

  // ---------------------------------------------------------------- any sequence of saves

  /** A save of `st` that ends after operation `cut`; operation 10 is the last. */
  datatype Attempt = Attempt(st: Stored, cut: nat)

  predicate Saves(attempts: seq<Attempt>) {
    forall k {:trigger attempts[k]} :: 0 <= k < |attempts| ==>
      WellFormed(attempts[k].st) && AllSmall(attempts[k].st.log) && attempts[k].cut <= 10
  }

  /** The directory after the attempts, starting from an empty one. */
  function DirAfter(sum: Record -> nat, attempts: seq<Attempt>): Fs
    requires Saves(attempts)
  {
    if attempts == [] then Fs(None, None, None, None, None)
    else
      var x := attempts[|attempts| - 1];
      SaveSteps(sum, DirAfter(sum, attempts[..|attempts| - 1]), x.st)[x.cut]
  }

  /** The last attempt that completed operation `op`. */
  function LastAt(attempts: seq<Attempt>, op: nat): (r: Option<nat>)
    ensures r.None? ==> forall k :: 0 <= k < |attempts| ==> attempts[k].cut < op
    ensures r.Some? ==> r.value < |attempts| && attempts[r.value].cut >= op && forall k :: r.value < k < |attempts| ==> attempts[k].cut < op
  {
    if attempts == [] then None
    else if attempts[|attempts| - 1].cut >= op then Some(|attempts| - 1)
    else LastAt(attempts[..|attempts| - 1], op)
  }

  /** The log tree of the last attempt that moved the old one away, and the meta of the last that removed the old one. */
  ghost predicate Shows(sum: Record -> nat, attempts: seq<Attempt>, fs: Fs)
    requires Saves(attempts)
  {
    var a, b := LastAt(attempts, 6), LastAt(attempts, 9);
    && (a.None? || attempts[a.value].cut == 6 ==> fs.log == None)
    && (a.Some? && attempts[a.value].cut > 6 ==> fs.log == Some(SavedDir(sum, attempts[a.value].st.log)))
    && (b.None? || attempts[b.value].cut == 9 ==> fs.meta == None)
    && (b.Some? && attempts[b.value].cut > 9 ==> fs.meta == Some(MetaBytes(MetaOf(attempts[b.value].st))))
  }

  lemma {:induction false} DirShows(sum: Record -> nat, attempts: seq<Attempt>)
    requires Saves(attempts)
    ensures Shows(sum, attempts, DirAfter(sum, attempts))
  {
    if attempts != [] {
      var front, x := attempts[..|attempts| - 1], attempts[|attempts| - 1];
      DirShows(sum, front);
      VisibleAfter(sum, DirAfter(sum, front), x.st, x.cut);
    }
  }

  /** A restart after the attempts. */
  function AfterAttempts(attempts: seq<Attempt>): LoadResult {
    var a, b := LastAt(attempts, 6), LastAt(attempts, 9);
    if a.None? || b.None? || attempts[b.value].cut == 9 then NoState
    else
      var before, after := attempts[b.value].st, attempts[a.value].st;
      if attempts[a.value].cut == 6 then (if before.log == [] then Loaded(Clamp(before)) else Refused) else Hybrid(before, after)
  }

  /**
    However many saves were cut short, and wherever: a restart finds no state if and only if no save was ever completed since a meta.bin was
    last removed; otherwise it finds the meta of the last completed save, over the log tree of that save or of one later attempt.
   */
  lemma {:induction false} AnySaves(sum: Record -> nat, attempts: seq<Attempt>)
    requires Saves(attempts)
    ensures LoadFrom(RecordReader(sum), DirAfter(sum, attempts)) == AfterAttempts(attempts)
  {
    var fs := DirAfter(sum, attempts);
    DirShows(sum, attempts);
    var a, b := LastAt(attempts, 6), LastAt(attempts, 9);
    if b.Some? && attempts[b.value].cut > 9 {
      LastInOrder(attempts, b.value);
      if attempts[a.value].cut == 6 {
        MissingLog(RecordReader(sum), fs, attempts[b.value].st);
      } else {
        HybridLoads(sum, fs, attempts[b.value].st, attempts[a.value].st);
      }
    }
  }

  lemma {:induction false} LastInOrder(attempts: seq<Attempt>, k: nat)
    requires k < |attempts| && attempts[k].cut >= 6
    ensures LastAt(attempts, 6).Some? && LastAt(attempts, 6).value >= k
  {
  }

  lemma HybridSame(st: Stored)
    requires Contiguous(st.log)
    ensures Hybrid(st, st) == Loaded(Clamp(st))
  {
    if st.log != [] {
      WholeWindow(st.log);
    }
  }

  lemma {:induction false} LastCompleted(attempts: seq<Attempt>, b: nat)
    requires b < |attempts| && attempts[b].cut == 10 && forall k :: b < k < |attempts| ==> attempts[k].cut < 10
    ensures var r := AfterAttempts(attempts);
            && (r.NoState? <==> exists k :: b < k < |attempts| && attempts[k].cut == 9)
            && (r.Loaded? ==> r.state.term == attempts[b].st.term && r.state.vote == attempts[b].st.vote)
  {
    var last := LastAt(attempts, 9);
    assert last.Some? && last.value >= b;
    LastInOrder(attempts, last.value);
    if last.value > b {
      assert attempts[last.value].cut == 9;
    }
  }

  /** What is loaded has the term and vote of the last completed save, attempt b, unless a later attempt removed its meta.bin. */
  lemma {:induction false} LoadsLastCompleted(sum: Record -> nat, attempts: seq<Attempt>, b: nat)
    requires Saves(attempts) && b < |attempts| && attempts[b].cut == 10 && forall k :: b < k < |attempts| ==> attempts[k].cut < 10
    ensures var r := LoadFrom(RecordReader(sum), DirAfter(sum, attempts));
            && (r.NoState? <==> exists k :: b < k < |attempts| && attempts[k].cut == 9)
            && (r.Loaded? ==> r.state.term == attempts[b].st.term && r.state.vote == attempts[b].st.vote)
  {
    AnySaves(sum, attempts);
    LastCompleted(attempts, b);
  }

  lemma {:induction false} OnlyAppends(attempts: seq<Attempt>, b: nat)
    requires b < |attempts| && attempts[b].cut == 10 && Contiguous(attempts[b].st.log)
    requires forall k {:trigger attempts[k]} :: b < k < |attempts| ==>
               attempts[k].cut <= 8 && attempts[k].cut != 6 && attempts[b].st.log <= attempts[k].st.log && Contiguous(attempts[k].st.log)
    ensures AfterAttempts(attempts) == Loaded(Clamp(attempts[b].st))
  {
    assert LastAt(attempts, 9) == Some(b);
    LastInOrder(attempts, b);
    var a := LastAt(attempts, 6).value;
    if a == b {
      HybridSame(attempts[b].st);
    } else {
      AppendCrash(7, attempts[b].st, attempts[a].st);
    }
  }

  /** If every later attempt only appends, and none stops right after moving the log or removing meta.bin, the last completed save comes back whole. */
  lemma {:induction false} AppendsLoseNothing(sum: Record -> nat, attempts: seq<Attempt>, b: nat)
    requires Saves(attempts) && b < |attempts| && attempts[b].cut == 10
    requires forall k :: b < k < |attempts| ==> attempts[k].cut <= 8 && attempts[k].cut != 6 && attempts[b].st.log <= attempts[k].st.log
    ensures LoadFrom(RecordReader(sum), DirAfter(sum, attempts)) == Loaded(CutTo(attempts[b].st, |attempts[b].st.log|))
    ensures InOrder(attempts[b].st) ==> LoadFrom(RecordReader(sum), DirAfter(sum, attempts)) == Loaded(attempts[b].st)
  {
    var st := attempts[b].st;
    AnySaves(sum, attempts);
    OnlyAppends(attempts, b);
    assert st.log[..|st.log|] == st.log;
    CutToIs(st, |st.log|);
    ClampKeeps(st);
  }

  // ---------------------------------------------------------------- loads between the saves

  /** The directory a load leaves: segment files may be truncated or deleted. */
  ghost function AfterLoad(read: Reader, fs: Fs): Fs {
    if fs.meta.None? || fs.log.None? then fs
    else match ReadMeta(fs.meta.value)
      case None => fs
      case Some(m) =>
        if m.count == 0 then fs
        else fs.(log := Some(DirOf(ReadFiles(read, START, ListingOf(fs.log.value), m.first, m.last).left)))
  }

  /** Under any meta, a load of a complete tree changes nothing. */
  lemma LoadLeavesSaved(sum: Record -> nat, fs: Fs, log: seq<Record>)
    requires Contiguous(log) && AllWritable(log) && AllSmall(log) && fs.log == Some(SavedDir(sum, log))
    ensures AfterLoad(RecordReader(sum), fs) == fs
  {
    var read, enc := RecordReader(sum), RecordWriter(sum);
    SavedListing(sum, log);
    assert Faithful(read, enc, log) && read("") == End by {
      FormatFits(sum, log);
    }
    if fs.meta.Some? && ReadMeta(fs.meta.value).Some? {
      var m := ReadMeta(fs.meta.value).value;
      ReadSaved(read, enc, log, m.first, m.last);
    }
  }

  /** What happens to the directory: a save that may be cut short, or a load by a restart. */
  datatype DirEvent = Save(attempt: Attempt) | Reload

  function SavesOf(events: seq<DirEvent>): seq<Attempt> {
    if events == [] then []
    else
      var x := events[|events| - 1];
      SavesOf(events[..|events| - 1]) + if x.Save? then [x.attempt] else []
  }

  ghost predicate SaveEvents(events: seq<DirEvent>) { Saves(SavesOf(events)) }

  lemma {:induction false} EventsPrefix(events: seq<DirEvent>)
    requires events != [] && SaveEvents(events)
    ensures SaveEvents(events[..|events| - 1])
    ensures events[|events| - 1].Save? ==> MetaFits(MetaOf(events[|events| - 1].attempt.st)) && events[|events| - 1].attempt.cut <= 10
  {
    var front, x := SavesOf(events[..|events| - 1]), events[|events| - 1];
    assert forall k :: 0 <= k < |front| ==> front[k] == SavesOf(events)[k];
    assert x.Save? ==> SavesOf(events)[|front|] == x.attempt;
  }

  ghost function DirAfterAll(sum: Record -> nat, events: seq<DirEvent>): Fs
    requires SaveEvents(events)
  {
    if events == [] then Fs(None, None, None, None, None)
    else
      EventsPrefix(events);
      var fs := DirAfterAll(sum, events[..|events| - 1]);
      match events[|events| - 1]
      case Save(x) => SaveSteps(sum, fs, x.st)[x.cut]
      case Reload => AfterLoad(RecordReader(sum), fs)
  }

  /** The loads between the saves make no difference. */
  lemma {:induction false} LoadsChangeNothing(sum: Record -> nat, events: seq<DirEvent>)
    requires SaveEvents(events)
    ensures DirAfterAll(sum, events) == DirAfter(sum, SavesOf(events))
  {
    if events != [] {
      var front, x := events[..|events| - 1], events[|events| - 1];
      EventsPrefix(events);
      LoadsChangeNothing(sum, front);
      if x.Save? {
        assert SavesOf(events)[..|SavesOf(events)| - 1] == SavesOf(front);
      } else {
        assert SavesOf(events) == SavesOf(front);
        LoadLeavesShown(sum, SavesOf(front));
      }
    }
  }

  lemma {:induction false} LoadLeavesShown(sum: Record -> nat, attempts: seq<Attempt>)
    requires Saves(attempts)
    ensures AfterLoad(RecordReader(sum), DirAfter(sum, attempts)) == DirAfter(sum, attempts)
  {
    DirShows(sum, attempts);
    var a := LastAt(attempts, 6);
    if a.Some? && attempts[a.value].cut > 6 {
      LoadLeavesSaved(sum, DirAfter(sum, attempts), attempts[a.value].st.log);
    }
  }

  /** AnySaves, with any number of loads in between. */
  lemma {:induction false} AnySavesAndLoads(sum: Record -> nat, events: seq<DirEvent>)
    requires SaveEvents(events)
    ensures LoadFrom(RecordReader(sum), DirAfterAll(sum, events)) == AfterAttempts(SavesOf(events))
  {
    LoadsChangeNothing(sum, events);
    AnySaves(sum, SavesOf(events));
  }

  // ---------------------------------------------------------------- the storage object

  method InsertFile(files: seq<File>, f: File) returns (r: seq<File>)
    requires Ascending(files) && forall i :: 0 <= i < |files| ==> files[i].0 != f.0
    ensures Ascending(r) && (forall x :: x in r <==> x in files || x == f)
  {
    var i := |files|;
    while i > 0 && f.0 < files[i - 1].0
      invariant 0 <= i <= |files|
      invariant forall j :: i <= j < |files| ==> f.0 < files[j].0
    {
      i := i - 1;
    }
    r := files[..i] + [f] + files[i..];
    FileInserted(files, f, i);
  }

  lemma FileInserted(files: seq<File>, f: File, i: nat)
    requires Ascending(files) && i <= |files|
    requires forall j :: 0 <= j < i ==> files[j].0 < f.0
    requires forall j :: i <= j < |files| ==> f.0 < files[j].0
    ensures Ascending(files[..i] + [f] + files[i..])
    ensures forall x :: x in files[..i] + [f] + files[i..] <==> x in files || x == f
  {
    assert files == files[..i] + files[i..];
  }

  lemma ListingInserted(before: seq<File>, after: seq<File>, dir: Dir, left: set<nat>, k: nat)
    requires left <= dir.Keys && k in left && Listing(before, dir - left)
    requires Ascending(after) && forall x :: x in after <==> x in before || x == (k, dir[k])
    ensures Listing(after, dir - (left - {k}))
  {
    forall i | 0 <= i < |after| ensures after[i].0 in dir - (left - {k}) && dir[after[i].0] == after[i].1 {
      assert after[i] in after;
    }
    forall j | j in dir - (left - {k}) ensures (j, dir[j]) in after {
      assert j == k || j in dir - left;
    }
  }

  /** The directory iterator yields the files in any order; they are sorted by start index. */
  method ListFiles(dir: Dir) returns (files: seq<File>)
    ensures files == ListingOf(dir)
  {
    files := [];
    var left := dir.Keys;
    while left != {}
      invariant left <= dir.Keys && Listing(files, dir - left)
      decreases |left|
    {
      var k :| k in left;
      assert forall i :: 0 <= i < |files| ==> files[i].0 in dir - left;
      var more := InsertFile(files, (k, dir[k]));
      ListingInserted(files, more, dir, left, k);
      files, left := more, left - {k};
    }
    assert dir - {} == dir;
    ListingUnique(files, ListingOf(dir), dir);
  }

  /** The loop over the segment files. */
  method ReadAllFiles(read: Reader, files: seq<File>, first: nat, last: nat) returns (p: Progress)
    ensures p == ReadFiles(read, START, files, first, last)
  {
    p := START;
    var i := 0;
    while i < |files|
      invariant 0 <= i <= |files|
      invariant ReadFiles(read, p, files[i..], first, last) == ReadFiles(read, START, files, first, last)
    {
      var f := files[i];
      assert files[i..][1..] == files[i + 1..];
      if p.torn {
        p := if p.stuck then p else p.(removed := true);
      } else if !p.stuck {
        var records, ending, rest := ReadSegmentFile(read, f.1, first, last, p.records);
        p := Progress(records, ending == Torn, false, ending == Stuck, p.left + [(f.0, rest)]);
      }
      i := i + 1;
    }
  }

  /** No command is too large for the size field of its header. */
  predicate FitsHeaders(log: seq<Record>) { forall k :: 0 <= k < |log| ==> |log[k].command| < WORD32 }

  class FileRaftStorage {
    var fs: Fs
    ghost var trace: seq<Fs>

    constructor ()
      ensures fs == Fs(None, None, None, None, None)
    {
      fs := Fs(None, None, None, None, None);
      trace := [];
    }

    /** `trace` records the directory after every operation. A command too large for its size field stops the save before anything is published. */
    method Save(sum: Record -> nat, st: Stored) returns (ok: bool)
      requires MetaFits(MetaOf(st))
      modifies this
      ensures ok == FitsHeaders(st.log)
      ensures ok ==> trace == SaveSteps(sum, old(fs), st) && fs == trace[10]
      ensures !ok ==> fs.log == old(fs.log) && fs.meta == old(fs.meta)
    {
      ok := Stage(sum, st);
      if ok {
        Publish();
      }
    }

    /** Writing the temporary log directory and the temporary meta. */
    method Stage(sum: Record -> nat, st: Stored) returns (ok: bool)
      requires MetaFits(MetaOf(st))
      modifies this
      ensures ok == FitsHeaders(st.log)
      ensures ok ==> trace == Staging(sum, old(fs), st) && fs == trace[4]
      ensures !ok ==> fs.log == old(fs.log) && fs.meta == old(fs.meta)
    {
      StageEmpty();
      ok := FitsHeaders(st.log);
      if ok {
        var files := WriteSegments(RecordWriter(sum), st.log);
        StageFiles(DirOf(files), MetaBytes(MetaOf(st)));
        StagingIs(sum, old(fs), st);
      }
    }

    method StageEmpty()
      modifies this
      ensures var a := old(fs).(logTmp := None);
              fs == a.(logTmp := Some(map[])) && trace == [old(fs)] + [a] + [fs]
    {
      trace := [fs];
      Step(fs.(logTmp := None));
      Step(fs.(logTmp := Some(map[])));
    }

    method StageFiles(dir: Dir, meta: string)
      modifies this
      ensures var x := old(fs).(logTmp := Some(dir));
              fs == x.(metaTmp := Some(meta)) && trace == old(trace) + [x] + [fs]
    {
      Step(fs.(logTmp := Some(dir)));
      Step(fs.(metaTmp := Some(meta)));
    }

    method Step(x: Fs)
      modifies this
      ensures fs == x && trace == old(trace) + [x]
    {
      fs, trace := x, trace + [x];
    }

    /** ReplaceDirectory for the log, then ReplaceFile for the meta. */
    method Publish()
      modifies this
      ensures |trace| == |old(trace)| + 6
      ensures trace == old(trace) + Publishing(old(fs)) && fs == trace[|trace| - 1]
    {
      Step(fs.(logBackup := None));
      Step(fs.(log := None, logBackup := fs.log));
      Step(fs.(log := fs.logTmp, logTmp := None));
      Step(fs.(logBackup := None));
      Step(fs.(meta := None));
      Step(fs.(meta := fs.metaTmp, metaTmp := None));
    }

    /** Reading may truncate the last trusted segment and delete later ones; nothing else changes. */
    method Load(sum: Record -> nat) returns (r: LoadResult)
      modifies this
      ensures r == LoadFrom(RecordReader(sum), old(fs)) && fs == AfterLoad(RecordReader(sum), old(fs))
    {
      if fs.meta.None? {
        return NoState;
      }
      match ReadMeta(fs.meta.value)
      case None => r := Refused;
      case Some(m) =>
        var log := LoadLog(sum, m);
        r := if log.None? then Refused else Loaded(Clamp(Stored(m.term, m.vote, log.value, m.commit, m.applied)));
    }

    method LoadLog(sum: Record -> nat, m: Meta) returns (r: Option<seq<Record>>)
      modifies this
      ensures r == LoadFiles(RecordReader(sum), if old(fs).log.None? then None else Some(ListingOf(old(fs).log.value)), m.first, m.last, m.count)
      ensures fs == if m.count == 0 || old(fs).log.None? then old(fs)
                    else old(fs).(log := Some(DirOf(ReadFiles(RecordReader(sum), START, ListingOf(old(fs).log.value), m.first, m.last).left)))
    {
      if m.count == 0 {
        return Some([]);
      }
      if fs.log.None? {
        return None;
      }
      var files := ListFiles(fs.log.value);
      var p := ReadAllFiles(RecordReader(sum), files, m.first, m.last);
      fs := fs.(log := Some(DirOf(p.left)));
      r := if Acceptable(p, m.first, m.last, m.count) then Some(p.records) else None;
    }
  }

  /** A completed save is published, so the crash points of the next save start from it. */
  lemma SavedIsPublished(sum: Record -> nat, fs: Fs, st: Stored)
    requires WellFormed(st) && AllSmall(st.log)
    ensures var done := SaveSteps(sum, fs, st)[10];
            Published(sum, done, st) && LoadFrom(RecordReader(sum), done) == Loaded(Clamp(st))
  {
    PublishedLoads(sum, SaveSteps(sum, fs, st)[10], st);
  }
}
