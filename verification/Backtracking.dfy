/** How a leader finds the point where a follower's log leaves its own. */
module Backtracking {
  import opened RaftLog
  import opened Protocol
  import opened Cluster
  import I = Invariant
  import opened AllRuns

  /** Number of leading records two logs share. */
  function CommonLen(a: Log, b: Log): (k: nat)
    ensures AgreeTo(a, b, k)
    ensures !AgreeTo(a, b, k + 1)
  {
    CommonFrom(a, b, 0)
  }

  function CommonFrom(a: Log, b: Log, k: nat): (r: nat)
    requires AgreeTo(a, b, k)
    ensures AgreeTo(a, b, r) && !AgreeTo(a, b, r + 1)
    decreases |a| - k
  {
    if k < |a| && k < |b| && a[k] == b[k] then
      assert a[..k + 1] == b[..k + 1];
      CommonFrom(a, b, k + 1)
    else
      assert AgreeTo(a, b, k + 1) ==> a[..k + 1][k] == b[..k + 1][k];
      k
  }

  /** What any two logs of a reachable state satisfy (ReachableLogsMatched). */
  ghost predicate Matched(leader: Log, follower: Log) {
    && |leader| > 0 && |follower| > 0 && leader[0] == follower[0] == BOOTSTRAP
    && (forall k :: 0 <= k < |leader| && k < |follower| && leader[k].term == follower[k].term ==>
          AgreeTo(leader, follower, k + 1))
    && (forall j, k :: 0 <= j <= k < |leader| ==> leader[j].term <= leader[k].term)
    && (forall j, k :: 0 <= j <= k < |follower| ==> follower[j].term <= follower[k].term)
    && (forall k :: 0 < k < |follower| ==> follower[k].term > 0)
    // a log with a record of some term has that term's earlier records
    && (forall j, k :: 0 <= k <= j < |leader| && k < |follower| && leader[j].term == follower[k].term ==>
          leader[k].term == follower[k].term)
    && (forall j, k :: 0 <= k <= j < |follower| && k < |leader| && follower[j].term == leader[k].term ==>
          leader[k].term == follower[k].term)
  }

  /** The request a leader sends from `next`, as far as the follower's check of the previous record goes. */
  function ProbeAt(leader: Log, next: nat, term: nat): Message
    requires 0 < next <= |leader|
  {
    AppendReq(0, 1, term, next - 1, leader[next - 1].term, [], 0)
  }

  /** One rejected probe: the new next index is smaller and still at or past the divergence. */
  lemma RejectedProbe(n: Node, f: Node, next: nat)
    requires n.snap == 0 == f.snap && Matched(n.log, f.log)
    requires CommonLen(n.log, f.log) <= next <= |n.log| && next > 0
    requires !PrevMatches(f, ProbeAt(n.log, next, n.term))
    ensures CommonLen(n.log, f.log) <= HintedNext(n, Reject(f, ProbeAt(n.log, next, n.term))) < next
  {
    var p := next - 1;
    if p < |f.log| {
      HintedBack(n.log, f.log, p);
    }
  }

  /** The different terms of the records from index `from` on, below `upto`. */
  function TermsIn(log: Log, from: nat, upto: nat): set<nat> {
    set j | from <= j < upto && j < |log| :: log[j].term
  }

  lemma FewerTerms(a: set<nat>, b: set<nat>, t: nat)
    requires a <= b && t in b && t !in a
    ensures |a| < |b|
  {
    I.SubsetSize(a, b - {t});
  }

  lemma TermsBelow(log: Log, from: nat, a: nat, b: nat)
    requires a <= b
    ensures TermsIn(log, from, a) <= TermsIn(log, from, b)
    ensures |TermsIn(log, from, a)| <= |TermsIn(log, from, b)|
  {
    I.SubsetSize(TermsIn(log, from, a), TermsIn(log, from, b));
  }

  /** A probe behind the follower's end is answered with that end; any other rejection rules out a whole term of the follower's log. */
  lemma RejectionRulesOut(n: Node, f: Node, next: nat)
    requires n.snap == 0 == f.snap && Matched(n.log, f.log)
    requires CommonLen(n.log, f.log) <= next <= |n.log| && next > 0
    requires !PrevMatches(f, ProbeAt(n.log, next, n.term))
    ensures var back, common := HintedNext(n, Reject(f, ProbeAt(n.log, next, n.term))), CommonLen(n.log, f.log);
            if next > |f.log| then back == |f.log|
            else |TermsIn(f.log, common, back)| < |TermsIn(f.log, common, next)|
  {
    var p, common := next - 1, CommonLen(n.log, f.log);
    if p < |f.log| {
      RejectedProbe(n, f, next);
      var t, back := f.log[p].term, HintedNext(n, Reject(f, ProbeAt(n.log, next, n.term)));
      TermGone(n, f, p);
      TermsBelow(f.log, common, back, next);
      assert p >= common;
      assert t in TermsIn(f.log, common, next);
      FewerTerms(TermsIn(f.log, common, back), TermsIn(f.log, common, next), t);
    }
  }

  /** The follower's first record of the conflicting term and the leader's last one bracket the divergence. */
  lemma HintedBack(leader: Log, log: Log, p: nat)
    requires Matched(leader, log) && p < |log| && p < |leader| && CommonLen(leader, log) <= p + 1
    requires log[p].term != leader[p].term
    ensures var t := log[p].term;
            var first, after := FirstIndexOfTerm(log, 0, t), AfterLastOfTerm(leader, 0, |leader|, t);
            t != 0 && (if after == 0 then CommonLen(leader, log) <= first <= p else CommonLen(leader, log) <= after <= p)
  {
    var t, common := log[p].term, CommonLen(leader, log);
    assert common <= p;
    FirstIndexIsFirst(log, 0, p, t);
    var first, after := FirstIndexOfTerm(log, 0, t), AfterLastOfTerm(leader, 0, |leader|, t);
    assert first < common ==> leader[..common][first] == log[..common][first];
    assert 0 < common ==> leader[..common][common - 1] == log[..common][common - 1];
    assert after != 0 ==> after - 1 < p;
  }

  /** The conflicting term does not come up again. */
  lemma TermGone(n: Node, f: Node, p: nat)
    requires n.snap == 0 == f.snap && Matched(n.log, f.log) && p < |n.log| && p < |f.log|
    requires CommonLen(n.log, f.log) <= p + 1 && f.log[p].term != n.log[p].term
    ensures f.log[p].term !in TermsIn(f.log, CommonLen(n.log, f.log), HintedNext(n, Reject(f, ProbeAt(n.log, p + 1, n.term))))
  {
    var t, common := f.log[p].term, CommonLen(n.log, f.log);
    HintedBack(n.log, f.log, p);
    var after := AfterLastOfTerm(n.log, 0, |n.log|, t);
    if after == 0 {
      FirstIndexIsLeast(f.log, 0, t);
    } else {
      PartsAfter(n.log, f.log, p, after);
    }
  }

  /** After the leader's last record of the follower's conflicting term the logs part. */
  lemma PartsAfter(leader: Log, log: Log, p: nat, after: nat)
    requires Matched(leader, log) && 0 < after <= p < |log| && after <= |leader| && leader[after - 1].term == log[p].term
    requires CommonLen(leader, log) <= after
    ensures CommonLen(leader, log) == after
  {
    var k := after - 1;
    assert log[p].term == leader[k].term;
    assert leader[k].term == log[k].term;
    assert AgreeTo(leader, log, after);
    if CommonLen(leader, log) < after {
      AgreeToLess(leader, log, after, CommonLen(leader, log) + 1);
    }
  }

  lemma FirstIndexIsLeast(log: Log, from: nat, t: nat)
    ensures forall j :: from <= j < FirstIndexOfTerm(log, from, t) && j < |log| ==> log[j].term != t
    decreases |log| - from
  {
    if from < |log| && log[from].term != t {
      FirstIndexIsLeast(log, from + 1, t);
    }
  }

  lemma FirstIndexIsFirst(log: Log, from: nat, k: nat, t: nat)
    requires from <= k < |log| && log[k].term == t && t != log[0].term
    ensures var r := FirstIndexOfTerm(log, from, t); 0 < r && from <= r <= k && log[r].term == t
    decreases k - from
  {
    if log[from].term != t {
      FirstIndexIsFirst(log, from + 1, k, t);
    }
  }

  /**
    Repeating the probe with the hinted index ends exactly where the two logs part, after at most one rejection for each different
    term in the follower's log past that point, one more when the first probe lies behind the follower's end, and one for
    each index passed over.
   */
  method FindDivergence(n: Node, f: Node, start: nat) returns (next: nat, rejections: nat)
    requires n.snap == 0 == f.snap && Matched(n.log, f.log)
    requires CommonLen(n.log, f.log) <= start <= |n.log| && start > 0
    ensures next == CommonLen(n.log, f.log)
    ensures PrevMatches(f, ProbeAt(n.log, next, n.term))
    ensures rejections <= start - next
    ensures rejections <= |TermsIn(f.log, next, |f.log|)| + if start > |f.log| then 1 else 0
  {
    next, rejections := start, 0;
    ghost var common := CommonLen(n.log, f.log);
    TermsBelow(f.log, common, if start > |f.log| then |f.log| else start, |f.log|);
    assert start > |f.log| ==> TermsIn(f.log, common, start) == TermsIn(f.log, common, |f.log|);
    assert AgreeTo(n.log, f.log, 1);
    while !PrevMatches(f, ProbeAt(n.log, next, n.term))
      invariant CommonLen(n.log, f.log) <= next <= start && next > 0
      invariant rejections <= start - next && (next > |f.log| ==> rejections == 0 && next == start)
      invariant rejections + |TermsIn(f.log, common, next)| <= |TermsIn(f.log, common, |f.log|)| + if start > |f.log| then 1 else 0
      decreases next
    {
      RejectedProbe(n, f, next);
      RejectionRulesOut(n, f, next);
      assert CommonLen(n.log, f.log) > 0;
      next := HintedNext(n, Reject(f, ProbeAt(n.log, next, n.term)));
      rejections := rejections + 1;
    }
    assert AgreeTo(n.log, f.log, next);
    if CommonLen(n.log, f.log) < next {
      AgreeToLess(n.log, f.log, next, CommonLen(n.log, f.log) + 1);
    }
  }

  /** In every reachable state a leader's and a follower's log satisfy what FindDivergence needs. */
  lemma ReachableLogsMatched(size: nat, steps: seq<Step>, i: nat, p: nat)
    requires i < |Exec(size, steps).nodes| && p < |Exec(size, steps).nodes|
    ensures Matched(Exec(size, steps).nodes[i].log, Exec(size, steps).nodes[p].log)
  {
    var L := AnyRun(size, steps);
    NodesMatched(Exec(size, steps), L, i, p);
  }

  lemma NodesMatched(c: State, L: Logs, i: nat, p: nat)
    requires W(c, L) && i < |c.nodes| && p < |c.nodes|
    ensures Matched(c.nodes[i].log, c.nodes[p].log)
  {
    assert NodeW(c.hist, L, |c.nodes|, i, c.nodes[i]) && NodeW(c.hist, L, |c.nodes|, p, c.nodes[p]);
    SoundLogsMatched(c.hist, L, |c.nodes|, c.nodes[i].log, c.nodes[p].log);
  }

  lemma SoundLogsMatched(h: History, L: Logs, size: nat, a: Log, b: Log)
    requires HistOk(h, L, size) && Sound(L, a) && Sound(L, b)
    ensures Matched(a, b)
  {
    forall k | 0 <= k < |a| && k < |b| && a[k].term == b[k].term ensures AgreeTo(a, b, k + 1) {
      SoundMatch(L, a, b, k);
    }
    forall j, k | 0 <= j <= k < |a| ensures a[j].term <= a[k].term {
      SoundOrdered(h, L, size, a, j, k);
    }
    forall j, k | 0 <= j <= k < |b| ensures b[j].term <= b[k].term {
      SoundOrdered(h, L, size, b, j, k);
    }
    forall k | 0 < k < |b| ensures b[k].term > 0 {
      assert SoundAt(L, b, k);
    }
    forall j, k | 0 <= k <= j < |a| && k < |b| && a[j].term == b[k].term ensures a[k].term == b[k].term {
      SoundEarlier(L, a, b, j, k);
    }
    forall j, k | 0 <= k <= j < |b| && k < |a| && b[j].term == a[k].term ensures a[k].term == b[k].term {
      SoundEarlier(L, b, a, j, k);
    }
  }

  lemma SoundEarlier(L: Logs, a: Log, b: Log, j: nat, k: nat)
    requires Sound(L, a) && Sound(L, b) && k <= j < |a| && k < |b| && a[j].term == b[k].term
    requires a[0] == b[0]
    ensures a[k].term == b[k].term
  {
    if 0 < k {
      assert SoundAt(L, b, k) && SoundAt(L, a, j);
      var leader := L[b[k].term];
      assert leader[k] == b[..k + 1][k] && leader[k] == a[..j + 1][k];
    }
  }
}
