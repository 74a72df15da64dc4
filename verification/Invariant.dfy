/** What every reachable state of the cluster satisfies, as long as a raised term always reaches the disk. */
module Invariant {
  import opened RaftLog
  import opened Protocol
  import opened Cluster

  function LeaderLog(h: History, t: nat): Log
    requires t in h.elections
  {
    h.elections[t].log
  }

  function InitLen(h: History, t: nat): nat
    requires t in h.elections
  {
    h.elections[t].initLen
  }

  // ---------------------------------------------------------------- logs

  /** Record k of the log was created by the leader of its term, on top of the same earlier records. */
  predicate GoodAt(h: History, log: Log, bound: nat, k: nat)
    requires 0 < k < |log|
  {
    1 <= log[k].term <= bound && log[k].term in h.elections && log[..k + 1] <= LeaderLog(h, log[k].term)
  }

  ghost predicate GoodLog(h: History, log: Log, bound: nat) {
    |log| > 0 && log[0] == BOOTSTRAP && forall k {:trigger GoodAt(h, log, bound, k)} :: 0 < k < |log| ==> GoodAt(h, log, bound, k)
  }

  /** (t, i) is a position the leader of term t filled itself. */
  predicate OwnIndex(h: History, t: nat, i: nat) {
    t in h.elections && InitLen(h, t) <= i < |LeaderLog(h, t)|
  }

  /** The log of term s starts with the log of term t up to and including index i. */
  predicate Contains(h: History, s: nat, t: nat, i: nat)
    requires s in h.elections && t in h.elections && i < |LeaderLog(h, t)|
  {
    LeaderLog(h, t)[..i + 1] <= LeaderLog(h, s)
  }

  /** Some leader of a term in (t, bound] does not have the log of term t up to i. */
  ghost predicate Superseded(h: History, bound: nat, t: nat, i: nat)
    requires OwnIndex(h, t, i)
  {
    exists s :: t < s <= bound && s in h.elections && !Contains(h, s, t, i)
  }

  ghost predicate Kept(h: History, log: Log, bound: nat, t: nat, i: nat)
    requires OwnIndex(h, t, i)
  {
    LeaderLog(h, t)[..i + 1] <= log || Superseded(h, bound, t, i)
  }

  // ---------------------------------------------------------------- acknowledgements and commitment

  /** Node v told the leader of term t that it holds index i, or is that leader. */
  predicate Acked(h: History, v: nat, t: nat, i: nat)
    requires t in h.elections
  {
    v == h.elections[t].leader || ((v, t) in h.acked && i <= h.acked[(v, t)])
  }

  function Ackers(c: State, t: nat, i: nat): set<nat>
    requires t in c.hist.elections
  {
    set v | v in Ids(|c.nodes|) && Acked(c.hist, v, t, i)
  }

  /** Index i of term t's own records is held by a majority. */
  predicate Chosen(c: State, t: nat, i: nat) {
    OwnIndex(c.hist, t, i) && |Ackers(c, t, i)| >= Quorum(|c.nodes|)
  }

  predicate CommittedBy(c: State, p: Log, t: nat, i: nat) {
    Chosen(c, t, i) && |p| <= i + 1 && p <= LeaderLog(c.hist, t)
  }

  /** The records p were committed by a leader of a term up to `bound`. */
  ghost predicate Committed(c: State, p: Log, bound: nat) {
    p == [BOOTSTRAP] || exists t: nat, i: nat :: t <= bound && CommittedBy(c, p, t, i)
  }

  ghost predicate KeepsAcks(c: State, v: nat, log: Log, bound: nat) {
    forall t: nat, i: nat {:trigger Kept(c.hist, log, bound, t, i)} ::
      OwnIndex(c.hist, t, i) && Acked(c.hist, v, t, i) ==> Kept(c.hist, log, bound, t, i)
  }

  // ---------------------------------------------------------------- elections and votes

  ghost predicate ElectionOk(c: State, t: nat)
    requires t in c.hist.elections
  {
    var e := c.hist.elections[t];
    && t >= 1 && e.leader < |c.nodes| && c.nodes[e.leader].term >= t
    && e.voters <= Ids(|c.nodes|) && |e.voters| >= Quorum(|c.nodes|)
    && (forall v :: v in e.voters ==> (v, t, e.leader) in c.hist.granted)
    && 1 <= e.initLen <= |e.log|
    && (t, e.leader) in c.hist.candidacies && c.hist.candidacies[(t, e.leader)] == e.log[..e.initLen]
    && GoodLog(c.hist, e.log, t)
    && (forall k :: e.initLen <= k < |e.log| ==> e.log[k].term == t)
    && (forall k :: 0 <= k < e.initLen ==> e.log[k].term < t)
  }

  /** A log that may be voted for by someone holding (t, i). */
  predicate Recent(log: Log, t: nat, i: nat) {
    LastTerm(log) > t || (LastTerm(log) == t && LastIndex(log) >= i)
  }

  ghost predicate VotedAfter(h: History, v: nat, s: nat, cand: nat, t: nat, i: nat)
    requires OwnIndex(h, t, i) && (s, cand) in h.candidacies && s >= 1
  {
    || (s in h.elections && v !in h.elections[s].voters)
    || Recent(h.candidacies[(s, cand)], t, i)
    || Superseded(h, s - 1, t, i)
  }

  ghost predicate VoteOk(c: State, v: nat, s: nat, cand: nat) {
    && v < |c.nodes| && cand < |c.nodes| && s >= 1 && (s, cand) in c.hist.candidacies
    && (c.nodes[v].term > s || (c.nodes[v].term == s && c.nodes[v].vote == cand))
    && (c.nodes[v].disk.term > s || (c.nodes[v].disk.term == s && c.nodes[v].disk.vote == cand))
    && (forall t: nat, i: nat {:trigger VotedAfter(c.hist, v, s, cand, t, i)} ::
          OwnIndex(c.hist, t, i) && t < s && Acked(c.hist, v, t, i) ==> VotedAfter(c.hist, v, s, cand, t, i))
  }

  // ---------------------------------------------------------------- progress

  /** The follower's log is part of the leader's, or leaves it before record q. */
  predicate DivergesBy(log: Log, leader: Log, q: nat) {
    log <= leader || !AgreeTo(log, leader, q + 1)
  }

  /** A probe of term t that sends record q first cannot skip over a divergence of node p. */
  predicate Probe(c: State, p: nat, t: nat, q: nat)
    requires p < |c.nodes| && t in c.hist.elections
  {
    && (c.nodes[p].term < t ==> q >= InitLen(c.hist, t))
    && (c.nodes[p].term == t ==> DivergesBy(c.nodes[p].log, LeaderLog(c.hist, t), q))
  }

  ghost predicate HintFrom(log: Log, leader: Log, m: Message)
    requires m.AppendResp?
  {
    if m.conflictTerm != 0 then
      exists k :: 0 < m.conflictIndex <= k < |log| && log[m.conflictIndex].term == log[k].term == m.conflictTerm
                  && !AgreeTo(log, leader, k + 1)
    else if m.conflictIndex != 0 then m.conflictIndex >= |log|
    else m.lastIndex + 1 >= |log|
  }

  // ---------------------------------------------------------------- messages

  predicate VoteReqOk(c: State, m: Message)
    requires m.VoteReq?
  {
    && (m.term, m.src) in c.hist.candidacies
    && m.lastIndex == LastIndex(c.hist.candidacies[(m.term, m.src)])
    && m.lastTerm == LastTerm(c.hist.candidacies[(m.term, m.src)])
  }

  ghost predicate AppendReqOk(c: State, m: Message)
    requires m.AppendReq? && m.dst < |c.nodes|
  {
    && m.term in c.hist.elections && m.src == c.hist.elections[m.term].leader && m.src != m.dst
    && m.prevIndex + |m.entries| < |LeaderLog(c.hist, m.term)|
    && m.prevTerm == LeaderLog(c.hist, m.term)[m.prevIndex].term
    && m.entries == LeaderLog(c.hist, m.term)[m.prevIndex + 1..m.prevIndex + 1 + |m.entries|]
    && m.leaderCommit < |LeaderLog(c.hist, m.term)|
    && Committed(c, LeaderLog(c.hist, m.term)[..m.leaderCommit + 1], m.term)
    && (m.entries == [] ==> m.leaderCommit <= m.prevIndex)
    && Probe(c, m.dst, m.term, m.prevIndex + 1)
  }

  ghost predicate AppendRespOk(c: State, m: Message)
    requires m.AppendResp? && m.src < |c.nodes|
  {
    && m.reqTerm in c.hist.elections && m.dst == c.hist.elections[m.reqTerm].leader && m.src != m.dst
    && c.nodes[m.src].term >= m.reqTerm
    && (m.success ==> (m.src, m.reqTerm) in c.hist.acked && m.matchIndex <= c.hist.acked[(m.src, m.reqTerm)])
    && (!m.success && c.nodes[m.src].term == m.reqTerm ==>
          || c.nodes[m.src].log <= LeaderLog(c.hist, m.reqTerm)
          || HintFrom(c.nodes[m.src].log, LeaderLog(c.hist, m.reqTerm), m))
  }

  ghost predicate SnapReqOk(c: State, m: Message)
    requires m.SnapReq?
  {
    && m.term in c.hist.elections && m.src == c.hist.elections[m.term].leader && m.src != m.dst
    && |m.snapshot| > 0 && m.snapshot <= LeaderLog(c.hist, m.term) && Committed(c, m.snapshot, m.term)
  }

  predicate SnapRespOk(c: State, m: Message)
    requires m.SnapResp? && m.src < |c.nodes|
  {
    && m.reqTerm in c.hist.elections && m.dst == c.hist.elections[m.reqTerm].leader && m.src != m.dst
    && c.nodes[m.src].term >= m.reqTerm
    && (m.success ==> (m.src, m.reqTerm) in c.hist.acked && m.includedIndex <= c.hist.acked[(m.src, m.reqTerm)])
    && (!m.success ==> Probe(c, m.src, m.reqTerm, m.lastIndex + 1))
  }

  ghost predicate MsgOk(c: State, m: Message) {
    && m.src < |c.nodes| && m.dst < |c.nodes|
    && match m
       case VoteReq(_, _, _, _, _) => VoteReqOk(c, m)
       case VoteResp(_, _, _, _, _) => m.granted ==> (m.src, m.reqTerm, m.dst) in c.hist.granted
       case AppendReq(_, _, _, _, _, _, _) => AppendReqOk(c, m)
       case AppendResp(_, _, _, _, _, _, _, _, _) => AppendRespOk(c, m)
       case SnapReq(_, _, _, _) => SnapReqOk(c, m)
       case SnapResp(_, _, _, _, _, _, _) => SnapRespOk(c, m)
  }

  // ---------------------------------------------------------------- nodes

  /** The leader's disk holds one record more than its memory: the leftover of a reported failure. */
  predicate Leftover(n: Node) {
    n.role == Leader && |n.disk.log| == |n.log| + 1 && n.disk.log[..|n.log|] == n.log
    && n.disk.log[|n.log|].term == n.term
  }

  ghost predicate LogsOk(c: State, n: Node) {
    && n.disk.term >= n.term
    && GoodLog(c.hist, n.log, n.term) && GoodLog(c.hist, n.saved, n.term)
    && (Leftover(n) || GoodLog(c.hist, n.disk.log, n.term))
    && n.snap <= n.commit < |n.log| && n.disk.commit < |n.disk.log|
    && Committed(c, n.log[..n.commit + 1], n.term)
    && Committed(c, n.disk.log[..n.disk.commit + 1], n.disk.term)
    && Committed(c, n.saved, n.term)
  }

  /** The disk differs from memory only by what an append of the current leader would have added. */
  ghost predicate DiskFollows(h: History, n: Node) {
    || Leftover(n)
    || DurableLog(n) == Restore(n.log, n.saved)
    || (n.role != Leader && n.term in h.elections && n.disk.term == n.term && DurableLog(n) <= LeaderLog(h, n.term)
        && forall k: nat :: AgreeTo(n.log, LeaderLog(h, n.term), k) ==> k <= |DurableLog(n)|)
  }

  ghost predicate RoleOk(c: State, i: nat, n: Node) {
    && (n.role == Candidate ==>
          && n.term >= 1 && n.vote == i && (n.term, i) in c.hist.candidacies && c.hist.candidacies[(n.term, i)] == n.log
          && n.votes <= Ids(|c.nodes|) && (forall v :: v in n.votes ==> (v, n.term, i) in c.hist.granted)
          && (n.term in c.hist.elections ==> c.hist.elections[n.term].leader != i))
    && (n.role == Leader ==>
          n.term in c.hist.elections && c.hist.elections[n.term].leader == i && LeaderLog(c.hist, n.term) == n.log)
  }

  ghost predicate PeerOk(c: State, n: Node, p: nat)
    requires p < |c.nodes| && n.term in c.hist.elections
  {
    && Get(n.next, p) >= 1
    && Probe(c, p, n.term, Max(Get(n.next, p), n.snap))
    && (Get(n.matched, p) > 0 ==> (p, n.term) in c.hist.acked && Get(n.matched, p) <= c.hist.acked[(p, n.term)])
  }

  /** Node state n would be in order as node i of the cluster. */
  ghost predicate NodeFits(c: State, i: nat, n: Node) {
    && LogsOk(c, n) && DiskFollows(c.hist, n) && RoleOk(c, i, n)
    && KeepsAcks(c, i, n.log, n.term) && KeepsAcks(c, i, DurableLog(n), n.disk.term)
    && (n.role == Leader ==>
          forall p {:trigger PeerOk(c, n, p)} :: 0 <= p < |c.nodes| && p != i ==> PeerOk(c, n, p))
  }

  ghost predicate NodeOk(c: State, i: nat)
    requires i < |c.nodes|
  {
    NodeFits(c, i, c.nodes[i])
  }

  ghost predicate AckOk(c: State, v: nat, t: nat)
    requires (v, t) in c.hist.acked
  {
    v < |c.nodes| && t in c.hist.elections && c.hist.acked[(v, t)] < |LeaderLog(c.hist, t)| && c.nodes[v].term >= t
    && v != c.hist.elections[t].leader
  }

  ghost predicate CandidacyOk(c: State, t: nat, i: nat) {
    t >= 1 && i < |c.nodes| && c.nodes[i].term >= t
  }

  ghost predicate ElectionsOk(c: State) {
    forall t {:trigger ElectionOk(c, t)} :: t in c.hist.elections ==> ElectionOk(c, t)
  }

  /** A voter grants one vote per term. */
  ghost predicate OneVote(h: History) {
    forall v, s, w, x {:trigger (v, s, w) in h.granted, (v, s, x) in h.granted} ::
      (v, s, w) in h.granted && (v, s, x) in h.granted ==> w == x
  }

  ghost predicate VotesOk(c: State) {
    && OneVote(c.hist)
    && (forall v, s, w {:trigger VoteOk(c, v, s, w)} :: (v, s, w) in c.hist.granted ==> VoteOk(c, v, s, w))
    && (forall t, i {:trigger CandidacyOk(c, t, i)} :: (t, i) in c.hist.candidacies ==> CandidacyOk(c, t, i))
  }

  ghost predicate AcksOk(c: State) {
    forall v, t {:trigger AckOk(c, v, t)} :: (v, t) in c.hist.acked ==> AckOk(c, v, t)
  }

  ghost predicate NodesOk(c: State) {
    forall i {:trigger NodeOk(c, i)} :: 0 <= i < |c.nodes| ==> NodeOk(c, i)
  }

  ghost predicate NetOk(c: State) {
    forall m {:trigger MsgOk(c, m)} :: m in c.net ==> MsgOk(c, m)
  }

  ghost predicate Inv(c: State) {
    ElectionsOk(c) && VotesOk(c) && AcksOk(c) && NodesOk(c) && NetOk(c)
  }

  // ---------------------------------------------------------------- consequences inside one state

  lemma QuorumsMeet(size: nat, a: set<nat>, b: set<nat>) returns (v: nat)
    requires a <= Ids(size) && b <= Ids(size) && |a| >= Quorum(size) && |b| >= Quorum(size)
    ensures v in a && v in b
  {
    SubsetSize(a + b, Ids(size));
    assert |a + b| == |a| + |b| - |a * b|;
    v :| v in a * b;
  }

  lemma {:induction false} SubsetSize(a: set<nat>, b: set<nat>)
    requires a <= b
    ensures |a| <= |b|
    decreases |a|
  {
    if a != {} {
      var x :| x in a;
      SubsetSize(a - {x}, b - {x});
    }
  }

  /** Two good logs with the same term at an index agree up to it. */
  lemma GoodLogsMatch(h: History, a: Log, x: nat, b: Log, y: nat, k: nat)
    requires GoodLog(h, a, x) && GoodLog(h, b, y) && k < |a| && k < |b| && a[k].term == b[k].term
    ensures AgreeTo(a, b, k + 1)
  {
    if k > 0 {
      assert GoodAt(h, a, x, k) && GoodAt(h, b, y, k);
      assert a[..k + 1] == b[..k + 1];
    }
  }

  /** Terms never decrease along a good log. */
  lemma GoodLogOrdered(c: State, log: Log, bound: nat, j: nat, k: nat)
    requires ElectionsOk(c) && GoodLog(c.hist, log, bound) && j <= k < |log|
    ensures log[j].term <= log[k].term
  {
    if 0 < j < k {
      assert GoodAt(c.hist, log, bound, k);
      var t := log[k].term;
      assert ElectionOk(c, t);
      assert log[j] == log[..k + 1][j] == LeaderLog(c.hist, t)[j];
      assert GoodAt(c.hist, LeaderLog(c.hist, t), t, j);
    }
  }

  /** A record of term t can only sit where the leader of t put it. */
  lemma GoodLogHasTerm(h: History, log: Log, bound: nat, k: nat, t: nat)
    requires GoodLog(h, log, bound) && k < |log| && log[k].term == t && t in h.elections && t >= 1
    ensures AgreeTo(log, LeaderLog(h, t), k + 1)
  {
    assert k > 0;
    assert GoodAt(h, log, bound, k);
  }

  /** Every election of a later term had a voter who held what was chosen in term t. */
  lemma ChosenMeetsVoters(c: State, t: nat, i: nat, s: nat)
    requires ElectionsOk(c) && VotesOk(c) && Chosen(c, t, i) && s in c.hist.elections && t < s
    requires ElectionOk(c, s)
    ensures Recent(LeaderLog(c.hist, s)[..InitLen(c.hist, s)], t, i) || Superseded(c.hist, s - 1, t, i)
  {
    var e := c.hist.elections[s];
    var v := QuorumsMeet(|c.nodes|, e.voters, Ackers(c, t, i));
    assert (v, s, e.leader) in c.hist.granted;
    assert VoteOk(c, v, s, e.leader);
    assert VotedAfter(c.hist, v, s, e.leader, t, i);
  }

  /** A leader elected with a recent log inherits from the term of its last record. */
  lemma RecentInherits(c: State, t: nat, i: nat, s: nat)
    requires ElectionsOk(c) && OwnIndex(c.hist, t, i) && s in c.hist.elections && t < s
    requires ElectionOk(c, s)
    requires Recent(LeaderLog(c.hist, s)[..InitLen(c.hist, s)], t, i)
    requires forall r :: t < r < s && r in c.hist.elections ==> Contains(c.hist, r, t, i)
    ensures Contains(c.hist, s, t, i)
  {
    assert ElectionOk(c, s) && ElectionOk(c, t);
    var log := LeaderLog(c.hist, s);
    var li := InitLen(c.hist, s) - 1;
    var lt := log[li].term;
    assert log[..li + 1][li] == log[li];
    assert GoodAt(c.hist, log, s, li);
    if lt > t {
      assert ElectionOk(c, lt) && Contains(c.hist, lt, t, i);
      assert LeaderLog(c.hist, lt)[li] == log[..li + 1][li];
      assert LeaderLog(c.hist, lt)[i] == LeaderLog(c.hist, t)[..i + 1][i];
    }
    assert i <= li;
    assert log[..i + 1] == log[..li + 1][..i + 1] == LeaderLog(c.hist, lt)[..i + 1];
  }

  /** Leader completeness: what a majority holds of term t is in the log of every later leader. */
  lemma {:induction false} LeaderHasChosen(c: State, t: nat, i: nat, s: nat)
    requires ElectionsOk(c) && VotesOk(c) && Chosen(c, t, i) && s in c.hist.elections && t <= s
    ensures Contains(c.hist, s, t, i)
    decreases s
  {
    if t < s {
      forall r | t < r < s && r in c.hist.elections ensures Contains(c.hist, r, t, i) {
        LeaderHasChosen(c, t, i, r);
      }
      assert ElectionOk(c, s);
      ChosenMeetsVoters(c, t, i, s);
      RecentInherits(c, t, i, s);
    }
  }

  /** Committed records are in the log of every leader from the committing term on. */
  lemma CommittedInLeader(c: State, p: Log, bound: nat, s: nat)
    requires ElectionsOk(c) && VotesOk(c) && Committed(c, p, bound) && s in c.hist.elections && bound <= s
    ensures p <= LeaderLog(c.hist, s)
  {
    assert ElectionOk(c, s);
    if p != [BOOTSTRAP] {
      var t: nat, i: nat :| t <= bound && CommittedBy(c, p, t, i);
      LeaderHasChosen(c, t, i, s);
      PrefixesComparable(p, LeaderLog(c.hist, t)[..i + 1], LeaderLog(c.hist, t));
    }
  }

  /** Any two committed sequences of records are prefixes of one another. */
  lemma CommittedComparable(c: State, p: Log, x: nat, q: Log, y: nat)
    requires ElectionsOk(c) && VotesOk(c) && Committed(c, p, x) && Committed(c, q, y) && |p| <= |q|
    ensures p <= q
  {
    if p == [BOOTSTRAP] {
      if q != [BOOTSTRAP] {
        var t: nat, i: nat :| t <= y && CommittedBy(c, q, t, i);
        assert ElectionOk(c, t);
      }
    } else if q == [BOOTSTRAP] {
      var t: nat, i: nat :| t <= x && CommittedBy(c, p, t, i);
      assert ElectionOk(c, t);
    } else {
      var t: nat, i: nat :| t <= x && CommittedBy(c, p, t, i);
      var s: nat, j: nat :| s <= y && CommittedBy(c, q, s, j);
      if t <= s {
        LeaderHasChosen(c, t, i, s);
        PrefixesComparable(p, LeaderLog(c.hist, t)[..i + 1], LeaderLog(c.hist, t));
        PrefixesComparable(p, q, LeaderLog(c.hist, s));
      } else {
        LeaderHasChosen(c, s, j, t);
        PrefixesComparable(q, LeaderLog(c.hist, s)[..j + 1], LeaderLog(c.hist, s));
        PrefixesComparable(p, q, LeaderLog(c.hist, t));
      }
    }
  }
}
