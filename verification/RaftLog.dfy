/**
  The replicated log seen as one uncompacted sequence: position i holds the record with
  index i, and position 0 holds the bootstrap record. Compaction is treated in CompactLog.
 */
module RaftLog {

  datatype Entry = Entry(term: nat, command: string)

  type Log = seq<Entry>

  const BOOTSTRAP := Entry(0, "bootstrap")

  const MAX_ENTRIES_PER_RPC: nat := 256
  const MAX_BYTES_PER_RPC: nat := 512 * 1024

  function LastIndex(log: Log): nat {
    if |log| == 0 then 0 else |log| - 1
  }

  function LastTerm(log: Log): nat {
    if |log| == 0 then 0 else log[|log| - 1].term
  }

  /** The vote rule: is a log ending in (lastIndex, lastTerm) at least as recent as `mine`? */
  predicate UpToDate(mine: Log, lastIndex: nat, lastTerm: nat) {
    if lastTerm != LastTerm(mine) then lastTerm > LastTerm(mine) else lastIndex >= LastIndex(mine)
  }

  /** The first k records of both logs exist and are equal. */
  predicate AgreeTo(a: Log, b: Log, k: nat) {
    k <= |a| && k <= |b| && a[..k] == b[..k]
  }

  /**
    The entry loop of an append: walk the request's entries from index `at`; keep a record whose
    term matches, otherwise cut the log there and push the leader's entry.
   */
  function Merge(log: Log, at: nat, entries: seq<Entry>): (r: Log)
    requires at <= |log|
    ensures at + |entries| <= |r|
    decreases |entries|
  {
    if entries == [] then log
    else if at < |log| && log[at].term == entries[0].term then Merge(log, at + 1, entries[1..])
    else Merge(log[..at] + [entries[0]], at + 1, entries[1..])
  }

  /** How many records a request starting at `from` carries: 256 at most, 512 KiB unless it is just one. */
  function BatchCount(log: Log, from: nat, count: nat, bytes: nat): (r: nat)
    requires from <= |log|
    ensures from + r <= |log|
    ensures from < |log| && count == 0 ==> r >= 1
    decreases |log| - from
  {
    if from >= |log| || count >= MAX_ENTRIES_PER_RPC then 0
    else
      var total := bytes + |log[from].command|;
      if count > 0 && total > MAX_BYTES_PER_RPC then 0
      else 1 + BatchCount(log, from + 1, count + 1, total)
  }

  /** The bytes of the n records from index `from` on. */
  function SizeOf(log: Log, from: nat, n: nat): nat
    requires from + n <= |log|
    decreases n
  {
    if n == 0 then 0 else |log[from].command| + SizeOf(log, from + 1, n - 1)
  }

  /** A batch keeps both limits, except that its first record is always sent, and stops only where the next record would break one. */
  lemma {:induction false} BatchIsLargest(log: Log, from: nat, count: nat, bytes: nat)
    requires from <= |log| && count <= MAX_ENTRIES_PER_RPC
    ensures var r := BatchCount(log, from, count, bytes);
            && count + r <= 256
            && (r == 0 || count + r == 1 || bytes + SizeOf(log, from, r) <= 524288)
            && (from + r == |log| || count + r == 256
                || (count + r > 0 && bytes + SizeOf(log, from, r) + |log[from + r].command| > 524288))
    decreases |log| - from
  {
    if from < |log| && count < MAX_ENTRIES_PER_RPC {
      BatchIsLargest(log, from + 1, count + 1, bytes + |log[from].command|);
    }
  }

  /** Smallest index >= from whose record has term t; 0 when there is none. */
  function FirstIndexOfTerm(log: Log, from: nat, t: nat): (r: nat)
    ensures r != 0 ==> from <= r < |log| && log[r].term == t
    decreases |log| - from
  {
    if from >= |log| then 0
    else if log[from].term == t then from
    else FirstIndexOfTerm(log, from + 1, t)
  }

  /** One past the largest index in [from, upto) whose record has term t; 0 when there is none. */
  function AfterLastOfTerm(log: Log, from: nat, upto: nat, t: nat): (r: nat)
    requires upto <= |log|
    ensures r != 0 ==> from < r <= upto && log[r - 1].term == t
    ensures forall j :: from <= j < upto && log[j].term == t ==> j < r
    decreases upto
  {
    if upto <= from then 0
    else if log[upto - 1].term == t then upto
    else AfterLastOfTerm(log, from, upto - 1, t)
  }

  /**
    What a log becomes when a snapshot standing for the records `snap` is installed: a matching
    boundary record keeps the suffix, anything else drops the whole log.
   */
  function Restore(log: Log, snap: Log): Log {
    if 0 < |snap| <= |log| && log[|snap| - 1].term == snap[|snap| - 1].term
    then snap + log[|snap|..]
    else snap
  }

  /** Logs that agree up to k and not up to j: j lies further on. */
  lemma AgreeToEnds(a: Log, b: Log, k: nat, j: nat)
    requires AgreeTo(a, b, k) && !AgreeTo(a, b, j)
    ensures k < j
  {
    if j <= k {
      AgreeToLess(a, b, k, j);
    }
  }

  lemma AgreeToLess(a: Log, b: Log, k: nat, j: nat)
    requires AgreeTo(a, b, k) && j <= k
    ensures AgreeTo(a, b, j)
  {
    assert a[..j] == a[..k][..j];
    assert b[..j] == b[..k][..j];
  }

  lemma PrefixesComparable(a: Log, b: Log, c: Log)
    requires a <= c && b <= c && |a| <= |b|
    ensures a <= b
  {
  }

  /** Under log matching against the leader's log, a merge either changes nothing or copies the leader. */
  lemma {:induction false} MergeOutcome(log: Log, leader: Log, at: nat, k: nat)
    requires AgreeTo(log, leader, at) && at + k <= |leader|
    requires forall j :: 0 <= j < |log| && j < |leader| && log[j].term == leader[j].term ==> AgreeTo(log, leader, j + 1)
    ensures Merge(log, at, leader[at..at + k]) == if AgreeTo(log, leader, at + k) then log else leader[..at + k]
    decreases k
  {
    var es := leader[at..at + k];
    if k > 0 {
      assert es[0] == leader[at] && es[1..] == leader[at + 1..at + 1 + (k - 1)];
      if at < |log| && log[at].term == leader[at].term {
        MergeOutcome(log, leader, at + 1, k - 1);
      } else {
        assert !AgreeTo(log, leader, at + k);
        var cut := log[..at] + [leader[at]];
        assert cut == leader[..at + 1];
        MergeOutcome(cut, leader, at + 1, k - 1);
        if AgreeTo(cut, leader, at + k) {
          assert k == 1;
        }
      }
    }
  }
}
