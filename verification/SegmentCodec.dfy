/** Log records as bytes, and the segment files they are kept in. `sum` is the record checksum, an arbitrary function. */
module SegmentCodec {
  import opened Wrappers
  import opened Bytes
  import opened CompactLog

  const SEGMENT_MAGIC: nat := 0x524C4F47
  const SEGMENT_VERSION: nat := 1
  const NORMAL_ENTRY: nat := 1
  const MAX_COMMAND: nat := 64 * 1024 * 1024
  const PER_SEGMENT: nat := 512
  const HEADER_SIZE: nat := 40

  // ---------------------------------------------------------------- one record

  /** What the writer can describe in a header. */
  predicate Writable(r: Record) { r.index < WORD64 && r.term < WORD64 && |r.command| < WORD32 }

  predicate Small(r: Record) { |r.command| <= MAX_COMMAND }

  function Stamp(sum: Record -> nat, r: Record): nat { sum(r) % WORD32 }

  /** The header struct: seven fields and four bytes of padding. */
  function Head(sum: Record -> nat, r: Record): string { HeadFront(r) + HeadBack(sum, r) }

  function HeadFront(r: Record): string { Le(SEGMENT_MAGIC, 4) + Le(SEGMENT_VERSION, 4) + Le(r.index, 8) + Le(r.term, 8) }

  function HeadBack(sum: Record -> nat, r: Record): string {
    Le(NORMAL_ENTRY, 4) + Le(|r.command|, 4) + Le(Stamp(sum, r), 4) + Le(0, 4)
  }

  function EncodeRecord(sum: Record -> nat, r: Record): string { Head(sum, r) + r.command }

  datatype Fields = Fields(magic: nat, version: nat, index: nat, term: nat, kind: nat, size: nat, stamp: nat)

  function ReadFields(s: string): Fields
    requires |s| >= HEADER_SIZE
  {
    Fields(UnLe(s[0..4]), UnLe(s[4..8]), UnLe(s[8..16]), UnLe(s[16..24]), UnLe(s[24..28]), UnLe(s[28..32]), UnLe(s[32..36]))
  }

  datatype Read = End | Bad | Good(record: Record, rest: string)

  /** One turn of the reader. Bad stands for a partial or implausible header, a partial command or a checksum mismatch. */
  function ReadRecord(sum: Record -> nat, s: string): (r: Read)
    ensures r.Good? ==> |r.rest| + HEADER_SIZE <= |s| && r.rest == s[|s| - |r.rest|..]
  {
    if s == "" then End
    else if |s| < HEADER_SIZE then Bad
    else
      var f := ReadFields(s);
      if f.magic != SEGMENT_MAGIC || f.version != SEGMENT_VERSION || f.kind != NORMAL_ENTRY || f.size > MAX_COMMAND then Bad
      else if |s| < HEADER_SIZE + f.size then Bad
      else
        var record := Record(f.index, f.term, s[HEADER_SIZE..HEADER_SIZE + f.size]);
        if Stamp(sum, record) != f.stamp then Bad else Good(record, s[HEADER_SIZE + f.size..])
  }

  lemma FrontFields(r: Record, rest: string)
    requires r.index < WORD64 && r.term < WORD64
    ensures var s := HeadFront(r) + rest;
            |HeadFront(r)| == 24 && UnLe(s[0..4]) == SEGMENT_MAGIC && UnLe(s[4..8]) == SEGMENT_VERSION
            && UnLe(s[8..16]) == r.index && UnLe(s[16..24]) == r.term
  {
    var s := HeadFront(r) + rest;
    Widths();
    UnLeLe(SEGMENT_MAGIC, 4);
    UnLeLe(SEGMENT_VERSION, 4);
    UnLeLe(r.index, 8);
    UnLeLe(r.term, 8);
    FourPieces(Le(SEGMENT_MAGIC, 4), Le(SEGMENT_VERSION, 4), Le(r.index, 8), Le(r.term, 8), rest);
  }

  lemma BackFields(sum: Record -> nat, r: Record, rest: string)
    requires |r.command| < WORD32
    ensures var s := HeadBack(sum, r) + rest;
            |HeadBack(sum, r)| == 16 && UnLe(s[0..4]) == NORMAL_ENTRY && UnLe(s[4..8]) == |r.command|
            && UnLe(s[8..12]) == Stamp(sum, r)
  {
    var s := HeadBack(sum, r) + rest;
    Widths();
    UnLeLe(NORMAL_ENTRY, 4);
    UnLeLe(|r.command|, 4);
    UnLeLe(Stamp(sum, r), 4);
    FourPieces(Le(NORMAL_ENTRY, 4), Le(|r.command|, 4), Le(Stamp(sum, r), 4), Le(0, 4), rest);
  }

  lemma HeadFields(sum: Record -> nat, r: Record, rest: string)
    requires Writable(r)
    ensures |Head(sum, r)| == HEADER_SIZE
    ensures ReadFields(Head(sum, r) + rest) ==
            Fields(SEGMENT_MAGIC, SEGMENT_VERSION, r.index, r.term, NORMAL_ENTRY, |r.command|, Stamp(sum, r))
  {
    var front, back := HeadFront(r), HeadBack(sum, r);
    var s := Head(sum, r) + rest;
    assert s == front + (back + rest);
    FrontFields(r, back + rest);
    BackFields(sum, r, rest);
    assert s[24..28] == (back + rest)[0..4];
    assert s[28..32] == (back + rest)[4..8];
    assert s[32..36] == (back + rest)[8..12];
  }

  lemma Pieces(a: string, b: string, c: string)
    ensures (a + b) + c == a + (b + c)
    ensures ((a + b) + c)[|a|..|a| + |b|] == b && ((a + b) + c)[|a| + |b|..] == c
  {
  }

  /** A record is read back, whatever follows it. */
  lemma ReadBack(sum: Record -> nat, r: Record, rest: string)
    requires Writable(r) && Small(r)
    ensures ReadRecord(sum, EncodeRecord(sum, r) + rest) == Good(r, rest)
  {
    HeadFields(sum, r, r.command + rest);
    Pieces(Head(sum, r), r.command, rest);
  }

  /** The writer accepts a command the reader treats as damage. */
  lemma ReadOversize(sum: Record -> nat, r: Record, rest: string)
    requires Writable(r) && !Small(r)
    ensures ReadRecord(sum, EncodeRecord(sum, r) + rest) == Bad
  {
    HeadFields(sum, r, r.command + rest);
    Pieces(Head(sum, r), r.command, rest);
  }

  /** A record cut anywhere inside is recognised as damage. */
  lemma ReadPartial(sum: Record -> nat, r: Record, cut: nat)
    requires Writable(r) && 0 < cut < |EncodeRecord(sum, r)|
    ensures ReadRecord(sum, EncodeRecord(sum, r)[..cut]) == Bad
  {
    var s := EncodeRecord(sum, r)[..cut];
    HeadFields(sum, r, "");
    if cut >= HEADER_SIZE {
      assert s == Head(sum, r) + r.command[..cut - HEADER_SIZE];
      HeadFields(sum, r, r.command[..cut - HEADER_SIZE]);
    }
  }

  /** A record whose command changed under its checksum is damage, whatever follows. */
  lemma RottenCommand(sum: Record -> nat, r: Record, command: string, rest: string)
    requires Writable(r) && |command| == |r.command|
    requires sum(Record(r.index, r.term, command)) % 0x1_0000_0000 != sum(r) % 0x1_0000_0000
    ensures ReadRecord(sum, Head(sum, r) + command + rest) == Bad
  {
    HeadFields(sum, r, command + rest);
    Pieces(Head(sum, r), command, rest);
  }

  /** A record is accepted if and only if it is all there, behind a header with the right magic number, version, type, size and checksum. */
  lemma AcceptedIff(sum: Record -> nat, s: string)
    ensures ReadRecord(sum, s).Good? <==>
              && |s| >= 40 && UnLe(s[0..4]) == 0x524C4F47 && UnLe(s[4..8]) == 1 && UnLe(s[24..28]) == 1
              && UnLe(s[28..32]) <= 64 * 1024 * 1024 && |s| >= 40 + UnLe(s[28..32])
              && sum(Record(UnLe(s[8..16]), UnLe(s[16..24]), s[40..40 + UnLe(s[28..32])])) % 0x1_0000_0000 == UnLe(s[32..36])
    ensures ReadRecord(sum, s) == End <==> s == ""
  {
  }

  /** A record the reader accepts sits behind a plausible header whose checksum is that of the record. */
  lemma AcceptedIsVerified(sum: Record -> nat, s: string)
    requires ReadRecord(sum, s).Good?
    ensures var Good(r, rest) := ReadRecord(sum, s);
            && |s| >= HEADER_SIZE && Small(r)
            && ReadFields(s) == Fields(SEGMENT_MAGIC, SEGMENT_VERSION, r.index, r.term, NORMAL_ENTRY, |r.command|, Stamp(sum, r))
            && s == s[..HEADER_SIZE] + r.command + rest
  {
  }

  function RecordReader(sum: Record -> nat): string -> Read { s => ReadRecord(sum, s) }

  function RecordWriter(sum: Record -> nat): Record -> string { r => EncodeRecord(sum, r) }

  predicate AllWritable(log: seq<Record>) { forall k :: 0 <= k < |log| ==> Writable(log[k]) }

  predicate AllSmall(log: seq<Record>) { forall k :: 0 <= k < |log| ==> Small(log[k]) }
}
