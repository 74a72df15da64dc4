/**
  Segment files and the directory of them. A record format is a pair of functions: `enc` writes one record and `read`
  takes one off the front of a file; SegmentCodec supplies the format of the source.
 */
module Segments {
  import opened Wrappers
  import opened CompactLog
  import opened SegmentCodec

  type Encoder = Record -> string
  type Reader = string -> Read

  // ---------------------------------------------------------------- one segment

  function EncodeAll(enc: Encoder, log: seq<Record>): string {
    if log == [] then "" else enc(log[0]) + EncodeAll(enc, log[1..])
  }

  /** Stuck: a read that did not advance, which makes the whole load fail. */
  datatype Ending = Clean | Torn | Stuck

  /** kept: where the reader cuts a torn file. */
  datatype Segment = Segment(records: seq<Record>, ending: Ending, kept: nat)

  function ReadSegment(read: Reader, s: string): (r: Segment)
    ensures r.kept <= |s|
    decreases |s|
  {
    match read(s)
    case End => Segment([], Clean, 0)
    case Bad => Segment([], Torn, 0)
    case Good(record, rest) =>
      if |rest| >= |s| then Segment([], Stuck, 0)
      else
        var t := ReadSegment(read, rest);
        Segment([record] + t.records, t.ending, |s| - |rest| + t.kept)
  }

  /** Records inside the range meta announces. */
  function InRange(log: seq<Record>, first: nat, last: nat): seq<Record> {
    if log == [] then []
    else
      var r := log[|log| - 1];
      InRange(log[..|log| - 1], first, last) + (if first <= r.index <= last then [r] else [])
  }

  lemma InRangeLast(log: seq<Record>, r: Record, first: nat, last: nat)
    ensures InRange(log + [r], first, last) == InRange(log, first, last) + (if first <= r.index <= last then [r] else [])
  {
    assert (log + [r])[..|log|] == log;
  }

  lemma {:induction false} InRangeJoin(a: seq<Record>, b: seq<Record>, first: nat, last: nat)
    ensures InRange(a + b, first, last) == InRange(a, first, last) + InRange(b, first, last)
    decreases |b|
  {
    if b == [] {
      assert a + b == a;
    } else {
      var front, r := b[..|b| - 1], b[|b| - 1];
      assert a + b == (a + front) + [r] && b == front + [r];
      InRangeLast(a + front, r, first, last);
      InRangeJoin(a, front, first, last);
    }
  }

  /** A segment of which the first `good` bytes gave `seen` and the rest reads as t. */
  function Resume(seen: seq<Record>, good: nat, t: Segment): Segment {
    Segment(seen + t.records, t.ending, good + t.kept)
  }

  lemma ResumeNext(read: Reader, seen: seq<Record>, good: nat, rest: string)
    requires read(rest).Good? && |read(rest).rest| < |rest|
    ensures var Good(r, more) := read(rest);
            Resume(seen, good, ReadSegment(read, rest)) ==
            Resume(seen + [r], good + (|rest| - |more|), ReadSegment(read, more))
  {
    var Good(r, more) := read(rest);
    assert seen + ([r] + ReadSegment(read, more).records) == (seen + [r]) + ReadSegment(read, more).records;
  }

  /** The first `good` bytes of the file gave `seen`; `rest` is still to be read. */
  predicate ReadTo(read: Reader, file: string, seen: seq<Record>, good: nat, rest: string) {
    good + |rest| == |file| && ReadSegment(read, file) == Resume(seen, good, ReadSegment(read, rest))
  }

  lemma ReadToNext(read: Reader, file: string, seen: seq<Record>, good: nat, rest: string)
    requires ReadTo(read, file, seen, good, rest) && read(rest).Good? && |read(rest).rest| < |rest|
    ensures var Good(r, more) := read(rest); ReadTo(read, file, seen + [r], good + (|rest| - |more|), more)
  {
    ResumeNext(read, seen, good, rest);
  }

  function EndingOf(r: Read): Ending { match r case End => Clean case Bad => Torn case Good(_, _) => Stuck }

  lemma ReadToEnd(read: Reader, file: string, seen: seq<Record>, good: nat, rest: string)
    requires ReadTo(read, file, seen, good, rest) && !(read(rest).Good? && |read(rest).rest| < |rest|)
    ensures ReadSegment(read, file) == Segment(seen, EndingOf(read(rest)), good)
  {
    assert seen + [] == seen;
  }

  lemma Collect(records: seq<Record>, seen: seq<Record>, r: Record, first: nat, last: nat)
    ensures records + InRange(seen + [r], first, last) ==
            if first <= r.index <= last then (records + InRange(seen, first, last)) + [r] else records + InRange(seen, first, last)
  {
    InRangeLast(seen, r, first, last);
    Shift(records, InRange(seen, first, last), r);
  }

  lemma Shift(a: seq<Record>, b: seq<Record>, r: Record)
    ensures a + (b + [r]) == (a + b) + [r] && a + (b + []) == a + b
  {
  }

  /** The reader loop of one file: what it appends to `records`, how the file ended, and what is left of the file. */
  method ReadSegmentFile(read: Reader, file: string, first: nat, last: nat, records: seq<Record>)
    returns (all: seq<Record>, ending: Ending, left: string)
    ensures var seg := ReadSegment(read, file);
            all == records + InRange(seg.records, first, last) && ending == seg.ending && left == file[..seg.kept]
  {
    all := records;
    var rest, good: nat := file, 0;
    ghost var seen: seq<Record> := [];
    while read(rest).Good? && |read(rest).rest| < |rest|
      invariant ReadTo(read, file, seen, good, rest) && all == records + InRange(seen, first, last)
      decreases |rest|
    {
      var Good(record, more) := read(rest);
      ReadToNext(read, file, seen, good, rest);
      Collect(records, seen, record, first, last);
      if first <= record.index <= last {
        all := all + [record];
      }
      seen, good, rest := seen + [record], good + (|rest| - |more|), more;
    }
    ReadToEnd(read, file, seen, good, rest);
    ending := EndingOf(read(rest));
    left := file[..good];
  }

  /** The format reads back the records of this log, whatever follows them. */
  ghost predicate Faithful(read: Reader, enc: Encoder, log: seq<Record>) {
    forall r, rest {:trigger ReadsBack(read, enc, r, rest)} :: r in log ==> ReadsBack(read, enc, r, rest)
  }

  predicate ReadsBack(read: Reader, enc: Encoder, r: Record, rest: string) {
    enc(r) != "" && read(enc(r) + rest) == Good(r, rest)
  }

  lemma FaithfulTail(read: Reader, enc: Encoder, log: seq<Record>, part: seq<Record>)
    requires Faithful(read, enc, log) && forall r :: r in part ==> r in log
    ensures Faithful(read, enc, part)
  {
  }

  lemma EncodeFront(enc: Encoder, log: seq<Record>, tail: string)
    requires log != []
    ensures EncodeAll(enc, log) + tail == enc(log[0]) + (EncodeAll(enc, log[1..]) + tail)
  {
  }

  lemma Front(log: seq<Record>, more: seq<Record>)
    requires log != []
    ensures [log[0]] + (log[1..] + more) == log + more
  {
  }

  /** Whole records in front are read back; the reader then sees the rest. */
  lemma {:induction false} ReadFront(read: Reader, enc: Encoder, log: seq<Record>, tail: string)
    requires Faithful(read, enc, log)
    ensures ReadSegment(read, EncodeAll(enc, log) + tail) == Resume(log, |EncodeAll(enc, log)|, ReadSegment(read, tail))
    decreases |log|
  {
    var t := ReadSegment(read, tail);
    if log == [] {
      assert EncodeAll(enc, log) + tail == tail && log + t.records == t.records;
    } else {
      EncodeFront(enc, log, tail);
      assert ReadsBack(read, enc, log[0], EncodeAll(enc, log[1..]) + tail);
      FaithfulTail(read, enc, log, log[1..]);
      ReadFront(read, enc, log[1..], tail);
      Front(log, t.records);
    }
  }

  lemma WholeSegment(read: Reader, enc: Encoder, log: seq<Record>)
    requires Faithful(read, enc, log) && read("") == End
    ensures ReadSegment(read, EncodeAll(enc, log)) == Segment(log, Clean, |EncodeAll(enc, log)|)
  {
    ReadFront(read, enc, log, "");
    assert EncodeAll(enc, log) + "" == EncodeAll(enc, log);
    assert log + [] == log;
  }

  /** A damaged record ends the segment: exactly the whole records before it are kept. */
  lemma DamagedSegment(read: Reader, enc: Encoder, log: seq<Record>, tail: string)
    requires Faithful(read, enc, log) && read(tail) == Bad
    ensures ReadSegment(read, EncodeAll(enc, log) + tail) == Segment(log, Torn, |EncodeAll(enc, log)|)
  {
    ReadFront(read, enc, log, tail);
    assert log + [] == log;
  }

  /** The reader returns r at some offset of the file. */
  ghost predicate Present(read: Reader, file: string, r: Record) {
    exists k: nat :: k <= |file| && ReadsAt(read, file, k, r)
  }

  predicate ReadsAt(read: Reader, file: string, k: nat, r: Record)
    requires k <= |file|
  {
    read(file[k..]).Good? && read(file[k..]).record == r
  }

  /** What a read leaves over is the end of what it was given. */
  ghost predicate Consumes(read: Reader) {
    forall s :: read(s).Good? ==> |read(s).rest| <= |s| && read(s).rest == s[|s| - |read(s).rest|..]
  }

  lemma {:induction false} AllPresent(read: Reader, file: string, r: Record)
    requires Consumes(read) && r in ReadSegment(read, file).records
    ensures Present(read, file, r)
    decreases |file|
  {
    var Good(first, rest) := read(file);
    if r == first {
      assert file[0..] == file;
      assert ReadsAt(read, file, 0, r);
    } else {
      AllPresent(read, rest, r);
      var k: nat :| k <= |rest| && ReadsAt(read, rest, k, r);
      var skip := |file| - |rest|;
      assert file[skip + k..] == file[skip..][k..] == rest[k..];
      assert ReadsAt(read, file, skip + k, r);
    }
  }
}
