/**
  The log as a node keeps it: a first record that is the bootstrap record or a snapshot marker, then the records after
  it. Compacts ties it to the uncompacted log of RaftLog.
 */
module CompactLog {
  import opened Wrappers
  import opened RaftLog
  import opened Command

  datatype Record = Record(index: nat, term: nat, command: string)

  /** What PersistStateLocked hands to the storage. */
  datatype Stored = Stored(term: nat, vote: int, log: seq<Record>, commit: nat, applied: nat)

  /** `log` is `full` with everything before index b dropped and index b turned into a marker. */
  ghost predicate Compacts(log: seq<Record>, full: Log, b: nat) {
    && b < |full| && |log| == |full| - b
    && log[0] == Record(b, full[b].term, if b == 0 then full[0].command else SNAPSHOT_MARKER)
    && (forall k {:trigger log[k]} :: 0 < k < |log| ==> log[k] == Record(b + k, full[b + k].term, full[b + k].command))
  }

  predicate Contiguous(log: seq<Record>) {
    forall k {:trigger log[k]} :: 0 <= k < |log| ==> log[k].index == log[0].index + k
  }

  // ---------------------------------------------------------------- accessors

  function FirstLogIndex(log: seq<Record>, snapIndex: nat): nat {
    if log == [] then snapIndex else log[0].index
  }

  function LastLogIndex(log: seq<Record>, snapIndex: nat): nat {
    if log == [] then snapIndex else log[|log| - 1].index
  }

  function LastLogTerm(log: seq<Record>, snapTerm: nat): nat {
    if log == [] then snapTerm else log[|log| - 1].term
  }

  predicate HasLogAt(log: seq<Record>, i: nat) {
    log != [] && log[0].index <= i <= log[|log| - 1].index
  }

  function LogAt(log: seq<Record>, i: nat): Option<Record>
    requires Contiguous(log)
  {
    if !HasLogAt(log, i) then None else Some(log[i - log[0].index])
  }

  function TermAt(log: seq<Record>, snapIndex: nat, snapTerm: nat, i: nat): nat
    requires Contiguous(log)
  {
    if i == snapIndex then snapTerm
    else match LogAt(log, i)
      case None => 0
      case Some(r) => r.term
  }

  predicate CandidateUpToDate(log: seq<Record>, snapIndex: nat, snapTerm: nat, lastIndex: nat, lastTerm: nat) {
    var mine := LastLogTerm(log, snapTerm);
    if lastTerm != mine then lastTerm > mine else lastIndex >= LastLogIndex(log, snapIndex)
  }

  lemma CompactsContiguous(log: seq<Record>, full: Log, b: nat)
    requires Compacts(log, full, b)
    ensures Contiguous(log) && FirstLogIndex(log, b) == b && LastLogIndex(log, b) == LastIndex(full)
    ensures LastLogTerm(log, full[b].term) == LastTerm(full)
  {
  }

  /** On the retained part, the compacted log answers exactly what the full log would. */
  lemma CompactReads(log: seq<Record>, full: Log, b: nat, i: nat)
    requires Compacts(log, full, b)
    ensures Contiguous(log)
    ensures HasLogAt(log, i) <==> b <= i < |full|
    ensures TermAt(log, b, full[b].term, i) == if b <= i < |full| then full[i].term else 0
    ensures b < i < |full| ==> LogAt(log, i) == Some(Record(i, full[i].term, full[i].command))
  {
    CompactsContiguous(log, full, b);
  }

  /** The vote check does not depend on how much was compacted. */
  lemma VoteCheckUnchanged(log: seq<Record>, full: Log, b: nat, lastIndex: nat, lastTerm: nat)
    requires Compacts(log, full, b)
    ensures CandidateUpToDate(log, b, full[b].term, lastIndex, lastTerm) == UpToDate(full, lastIndex, lastTerm)
  {
    CompactsContiguous(log, full, b);
  }

  lemma CompactPush(log: seq<Record>, full: Log, b: nat, e: Entry)
    requires Compacts(log, full, b)
    ensures Compacts(log + [Record(|full|, e.term, e.command)], full + [e], b)
  {
  }

  lemma CompactCut(log: seq<Record>, full: Log, b: nat, i: nat)
    requires Compacts(log, full, b) && b < i <= |full|
    ensures Compacts(log[..i - b], full[..i], b)
  {
  }

  lemma CompactReplace(log: seq<Record>, full: Log, b: nat, e: Record)
    requires Compacts(log, full, b) && b < e.index <= |full|
    ensures Compacts(log[..e.index - b] + [e], full[..e.index] + [Entry(e.term, e.command)], b)
  {
    CompactCut(log, full, b, e.index);
    CompactPush(log[..e.index - b], full[..e.index], b, Entry(e.term, e.command));
  }

  // ---------------------------------------------------------------- scans over the retained records

  method ScanFirstOfTerm(log: seq<Record>, ghost full: Log, ghost b: nat, t: nat) returns (r: nat)
    requires Compacts(log, full, b)
    ensures r == FirstIndexOfTerm(full, b, t)
  {
    var k := 0;
    while k < |log|
      invariant 0 <= k <= |log|
      invariant FirstIndexOfTerm(full, b + k, t) == FirstIndexOfTerm(full, b, t)
    {
      if log[k].term == t {
        return log[k].index;
      }
      k := k + 1;
    }
    r := 0;
  }

  /** One past the last retained record of term t, scanning from the end. */
  method ScanAfterLastOfTerm(log: seq<Record>, ghost full: Log, ghost b: nat, t: nat) returns (r: nat)
    requires Compacts(log, full, b)
    ensures r == AfterLastOfTerm(full, b, |full|, t)
  {
    var k := |log|;
    while k > 0
      invariant 0 <= k <= |log|
      invariant AfterLastOfTerm(full, b, b + k, t) == AfterLastOfTerm(full, b, |full|, t)
    {
      if log[k - 1].term == t {
        return log[k - 1].index + 1;
      }
      k := k - 1;
    }
    r := 0;
  }

  /** The batching loop of a replication request: where the batch that starts at `next` ends. */
  method BatchEnd(log: seq<Record>, ghost full: Log, b: nat, next: nat) returns (end: nat)
    requires Compacts(log, full, b) && b < next <= |full|
    ensures end == next + BatchCount(full, next, 0, 0)
  {
    CompactsContiguous(log, full, b);
    var bytes: nat := 0;
    end := next;
    while end <= LastLogIndex(log, b) && end - next < MAX_ENTRIES_PER_RPC
      invariant next <= end <= |full|
      invariant end + BatchCount(full, end, end - next, bytes) == next + BatchCount(full, next, 0, 0)
      decreases |full| - end
    {
      CompactReads(log, full, b, end);
      var total := bytes + |LogAt(log, end).value.command|;
      if end > next && total > MAX_BYTES_PER_RPC {
        break;
      }
      bytes := total;
      end := end + 1;
    }
  }

  method CollectBatch(log: seq<Record>, ghost full: Log, b: nat, next: nat) returns (entries: seq<Entry>)
    requires Compacts(log, full, b) && b < next <= |full|
    ensures entries == full[next..next + BatchCount(full, next, 0, 0)]
  {
    var end := BatchEnd(log, full, b, next);
    entries := [];
    var i := next;
    while i < end
      invariant next <= i <= end
      invariant entries == full[next..i]
    {
      CompactReads(log, full, b, i);
      var record := LogAt(log, i).value;
      entries := entries + [Entry(record.term, record.command)];
      i := i + 1;
    }
  }

  /** The suffix kept by a compaction at index `at`. */
  method KeepAfter(log: seq<Record>, ghost full: Log, ghost b: nat, at: nat) returns (r: seq<Record>)
    requires Compacts(log, full, b) && b < at < |full|
    ensures r == log[at + 1 - b..]
  {
    r := [];
    var k := 0;
    while k < |log|
      invariant 0 <= k <= |log|
      invariant r == if k <= at + 1 - b then [] else log[at + 1 - b..k]
    {
      if log[k].index > at {
        r := r + [log[k]];
      }
      k := k + 1;
    }
  }

  // ---------------------------------------------------------------- the entry loop of an append

  /** The records carry the indexes at, at + 1, ... */
  predicate NumberedFrom(at: nat, records: seq<Record>) {
    forall k {:trigger records[k]} :: 0 <= k < |records| ==> records[k].index == at + k
  }

  function Plain(records: seq<Record>): seq<Entry> {
    seq(|records|, k requires 0 <= k < |records| => Entry(records[k].term, records[k].command))
  }

  /** `gap` is the index of an entry that does not connect to the log, where the loop gives up. */
  datatype Walked = Walked(full: Log, matched: nat, changed: bool, gap: Option<nat>)

  /** The entry loop over any entries, whatever indexes they claim. */
  function Walk(w: Walked, b: nat, entries: seq<Record>): Walked
    decreases |entries|
  {
    if entries == [] || w.gap.Some? then w
    else
      var e := entries[0];
      if e.index <= b then Walk(w.(matched := if w.matched >= e.index then w.matched else e.index), b, entries[1..])
      else if e.index > |w.full| then w.(gap := Some(e.index))
      else if e.index < |w.full| && w.full[e.index].term == e.term then Walk(w.(matched := e.index), b, entries[1..])
      else Walk(Walked(w.full[..e.index] + [Entry(e.term, e.command)], e.index, true, None), b, entries[1..])
  }

  /** On entries numbered from prev + 1, the loop is the merge of the uncompacted log, and never gives up. */
  lemma {:induction false} WalkIsMerge(w: Walked, b: nat, at: nat, entries: seq<Record>)
    requires w.gap.None? && b < at <= |w.full| && w.matched == at - 1 && NumberedFrom(at, entries)
    ensures var r := Walk(w, b, entries);
            && r.full == Merge(w.full, at, Plain(entries)) && r.matched == at + |entries| - 1 && r.gap.None?
            && (r.changed <==> w.changed || r.full != w.full)
    decreases |entries|
  {
    var es := Plain(entries);
    if entries != [] {
      assert es[1..] == Plain(entries[1..]);
      if at < |w.full| && w.full[at].term == entries[0].term {
        WalkIsMerge(w.(matched := at), b, at + 1, entries[1..]);
      } else {
        var cut := w.full[..at] + [es[0]];
        WalkIsMerge(Walked(cut, at, true, None), b, at + 1, entries[1..]);
        MergeKeepsFront(cut, at + 1, es[1..]);
        assert Merge(cut, at + 1, es[1..])[..at + 1][at] == cut[..at + 1][at] == es[0];
      }
    }
  }

  lemma {:induction false} MergeKeepsFront(log: Log, at: nat, entries: seq<Entry>)
    requires at <= |log|
    ensures Merge(log, at, entries)[..at] == log[..at]
    decreases |entries|
  {
    if entries != [] {
      if at < |log| && log[at].term == entries[0].term {
        MergeKeepsFront(log, at + 1, entries[1..]);
        assert Merge(log, at, entries)[..at] == Merge(log, at, entries)[..at + 1][..at];
        assert log[..at] == log[..at + 1][..at];
      } else {
        var cut := log[..at] + [entries[0]];
        MergeKeepsFront(cut, at + 1, entries[1..]);
        assert Merge(log, at, entries)[..at] == Merge(log, at, entries)[..at + 1][..at];
        assert cut[..at + 1][..at] == log[..at];
      }
    }
  }

  /** One turn of the loop on the compacted log. */
  method MergeOne(log: seq<Record>, ghost w: Walked, b: nat, matched: nat, changed: bool, e: Record)
    returns (r: seq<Record>, ghost w': Walked, matched': nat, changed': bool)
    requires Compacts(log, w.full, b) && w.gap.None? && w.matched == matched && w.changed == changed && e.index <= |w.full|
    ensures Compacts(r, w'.full, b) && w'.gap.None? && w'.matched == matched' && w'.changed == changed'
    ensures forall rest :: Walk(w, b, [e] + rest) == Walk(w', b, rest)
    ensures changed' == (changed || r != log) && (!changed' ==> w'.full == w.full)
  {
    CompactsContiguous(log, w.full, b);
    r, w', matched', changed' := log, w, matched, changed;
    if e.index <= b {
      matched' := if matched >= e.index then matched else e.index;
      w' := w.(matched := matched');
    } else {
      CompactReads(log, w.full, b, e.index);
      matched' := e.index;
      if HasLogAt(log, e.index) && log[e.index - log[0].index].term == e.term {
        w' := w.(matched := matched');
      } else {
        CompactReplace(log, w.full, b, e);
        r, changed' := log[..e.index - b] + [e], true;
        w' := Walked(w.full[..e.index] + [Entry(e.term, e.command)], e.index, true, None);
      }
    }
    forall rest: seq<Record> ensures Walk(w, b, [e] + rest) == Walk(w', b, rest) {
      assert ([e] + rest)[1..] == rest;
    }
  }

  lemma WalkGap(w: Walked, b: nat, entries: seq<Record>)
    requires entries != [] && w.gap.None? && b < |w.full| < entries[0].index
    ensures Walk(w, b, entries) == w.(gap := Some(entries[0].index))
  {
  }

  /** The loop on the compacted log. */
  method MergeEntries(log: seq<Record>, ghost full: Log, b: nat, prev: nat, entries: seq<Record>)
    returns (r: seq<Record>, matched: nat, changed: bool, gap: Option<nat>, ghost full': Log)
    requires Compacts(log, full, b)
    ensures Walked(full', matched, changed, gap) == Walk(Walked(full, prev, false, None), b, entries)
    ensures Compacts(r, full', b) && (!changed ==> r == log && full' == full)
  {
    ghost var w := Walked(full, prev, false, None);
    r, matched, changed, gap := log, prev, false, None;
    var k := 0;
    while k < |entries|
      invariant 0 <= k <= |entries| && w.gap.None? && w.matched == matched && w.changed == changed
      invariant Compacts(r, w.full, b) && (!changed ==> r == log && w.full == full)
      invariant Walk(w, b, entries[k..]) == Walk(Walked(full, prev, false, None), b, entries)
    {
      CompactsContiguous(r, w.full, b);
      if entries[k].index > LastLogIndex(r, b) + 1 {
        WalkGap(w, b, entries[k..]);
        gap, full' := Some(entries[k].index), w.full;
        return;
      }
      assert entries[k..] == [entries[k]] + entries[k + 1..];
      r, w, matched, changed := MergeOne(r, w, b, matched, changed, entries[k]);
      k := k + 1;
    }
    full' := w.full;
  }
}
