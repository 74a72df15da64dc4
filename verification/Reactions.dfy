/**
  What a node does with a message, by the terms alone, and what a failed persist leaves behind: stated on the steps of the cluster,
  for every message, every state and every outcome.
 */
module Reactions {
  import opened RaftLog
  import opened Protocol
  import opened Cluster
  import I = Invariant

  /** A message is handed to a node under its lock. */
  predicate Delivers(s: Step) {
    s.RecvVoteReq? || s.RecvVoteResp? || s.RecvAppendReq? || s.RecvAppendResp? || s.SnapBegin? || s.RecvSnapResp?
  }

  /** The sender claims to lead its term. */
  predicate FromLeader(s: Step) { s.RecvAppendReq? || s.SnapBegin? }

  // ---------------------------------------------------------------- terms

  /**
    A message of a newer term makes any node, a leader too, a follower of that term that knows no leader but the sender; its vote is
    free, unless this message asked for it and got it. This holds whatever the persists do; the disk has the new term unless it was lost.
   */
  lemma NewerTermObeyed(c: State, s: Step)
    requires Enabled(c, s) && Delivers(s) && s.m.term > c.nodes[s.m.dst].term
    ensures var n, d := c.nodes[s.m.dst], Do(c, s);
            && s.m.dst < |d.nodes|
            && var n' := d.nodes[s.m.dst];
            && n'.term == s.m.term && n'.role == Follower
            && n'.leaderId == (if FromLeader(s) then s.m.src else -1)
            && (n'.vote == -1 || (s.RecvVoteReq? && n'.vote == s.m.src && (s.m.dst, s.m.term, s.m.src) in d.hist.granted))
            && (s.raise == Lost ==> n'.disk == n.disk) && (s.raise != Lost ==> n'.disk.term == s.m.term)
  {
    if s.RecvAppendReq? {
      NewerAppend(c.nodes[s.m.dst], s.m, s.raise, s.save, s.commitSave);
    }
  }

  lemma NewerAppend(n: Node, m: Message, raise: Outcome, save: Outcome, commitSave: Outcome)
    requires m.AppendReq? && m.term > n.term
    ensures var n' := OnAppendEntries(n, m, raise, save, commitSave).0;
            && n'.term == m.term && n'.role == Follower && n'.leaderId == m.src && n'.vote == -1
            && (raise == Lost ==> n'.disk == n.disk) && (raise != Lost ==> n'.disk.term == m.term)
  {
  }

  /** Nothing but a message of a newer term changes a receiver's term, and nobody else's node is touched. */
  lemma TermIsTheNewest(c: State, s: Step)
    requires Enabled(c, s) && Delivers(s)
    ensures var d := Do(c, s);
            && |d.nodes| == |c.nodes| && d.nodes[s.m.dst].term == Max(c.nodes[s.m.dst].term, s.m.term)
            && forall j :: 0 <= j < |c.nodes| && j != s.m.dst ==> d.nodes[j] == c.nodes[j]
  {
    if s.RecvAppendReq? {
      AppendTermIs(c.nodes[s.m.dst], s.m, s.raise, s.save, s.commitSave);
    }
  }

  lemma AppendTermIs(n: Node, m: Message, raise: Outcome, save: Outcome, commitSave: Outcome)
    requires m.AppendReq?
    ensures OnAppendEntries(n, m, raise, save, commitSave).0.term == Max(n.term, m.term)
  {
  }

  /** A request of an old term changes nothing and is refused with the receiver's term. */
  lemma OldRequestRefused(c: State, s: Step)
    requires Enabled(c, s) && (s.RecvVoteReq? || FromLeader(s)) && s.m.term < c.nodes[s.m.dst].term
    ensures var d := Do(c, s);
            && d.nodes == c.nodes && d.hist == c.hist
            && exists r :: d.net == c.net + {r} && r.src == s.m.dst && r.dst == s.m.src && Refuses(r, s, c.nodes[s.m.dst].term)
  {
    var n := c.nodes[s.m.dst];
    assert c.nodes[s.m.dst := n] == c.nodes;
    var r := if s.RecvVoteReq? then VoteResp(s.m.dst, s.m.src, s.m.term, n.term, false)
             else if s.RecvAppendReq? then AppendResp(s.m.dst, s.m.src, s.m.term, n.term, false, n.snap, LastIndex(n.log), 0, 0)
             else SnapResp(s.m.dst, s.m.src, s.m.term, n.term, false, LastIndex(n.log), LastIndex(s.m.snapshot));
    assert Do(c, s).net == c.net + {r};
  }

  predicate Refuses(r: Message, s: Step, term: nat) {
    && (s.RecvVoteReq? ==> r.VoteResp? && !r.granted && r.term == term)
    && (s.RecvAppendReq? ==> r.AppendResp? && !r.success && r.term == term)
    && (s.SnapBegin? ==> r.SnapResp? && !r.success && r.term == term)
  }

  /** A request of a leader of the node's own term is followed. */
  lemma LeaderFollowed(c: State, s: Step)
    requires Enabled(c, s) && FromLeader(s) && s.m.term == c.nodes[s.m.dst].term
    ensures var n' := Do(c, s).nodes[s.m.dst];
            n'.role == Follower && n'.leaderId == s.m.src && n'.vote == c.nodes[s.m.dst].vote
  {
  }

  /** A reply of no newer term never costs a node its role, its vote or a record. */
  lemma OldReplyHarmless(c: State, s: Step)
    requires Enabled(c, s) && (s.RecvVoteResp? || s.RecvAppendResp? || s.RecvSnapResp?) && s.m.term <= c.nodes[s.m.dst].term
    ensures var n, n' := c.nodes[s.m.dst], Do(c, s).nodes[s.m.dst];
            && n'.role == n.role && n'.vote == n.vote && n'.leaderId == n.leaderId && n'.log == n.log && n'.snap == n.snap
            && n'.commit >= n.commit && n.votes <= n'.votes
            && (n.term != s.m.reqTerm ==> n' == n)
  {
  }

  // ---------------------------------------------------------------- appends

  /** The previous record is there, and its term is the one the request names. */
  predicate Joins(n: Node, m: Message)
    requires m.AppendReq?
  {
    n.snap <= m.prevIndex < |n.log| && n.log[m.prevIndex].term == m.prevTerm
  }

  /**
    An append, a heartbeat too, is confirmed if and only if its term is not old, its previous record matches, and every persist this takes
    succeeds. The follower then has the entries, and its commit index is the greatest it may have: the leader's, as far as
    its own log reaches, and never less than before.
   */
  lemma AppendAnswer(n: Node, m: Message, raise: Outcome, save: Outcome, commitSave: Outcome)
    requires m.AppendReq?
    ensures var (n', reply) := OnAppendEntries(n, m, raise, save, commitSave);
            && reply.AppendResp? && reply.src == m.dst && reply.dst == m.src && reply.reqTerm == m.term && reply.term == Max(n.term, m.term)
            && (reply.success <==>
                  && m.term >= n.term && (m.term > n.term ==> raise == Ok) && Joins(n, m)
                  && (save == Ok || Merge(n.log, m.prevIndex + 1, m.entries) == n.log)
                  && (commitSave == Ok || Min(m.leaderCommit, LastIndex(Merge(n.log, m.prevIndex + 1, m.entries))) <= n.commit))
            && (reply.success ==>
                  && Joins(n, m) && n'.log == Merge(n.log, m.prevIndex + 1, m.entries) && reply.matchIndex == m.prevIndex + |m.entries|
                  && n'.commit == Max(n.commit, Min(m.leaderCommit, LastIndex(n'.log))))
            && (!reply.success ==> n'.commit == n.commit)
  {
    var n1 := BecomeFollower(n, m.term, m.src, raise);
    if m.term >= n.term && !RaiseFailed(n, m.term, raise) && PrevMatches(n1, m) {
      AcceptAnswer(n1, m, save, commitSave);
    }
  }

  lemma AcceptAnswer(n: Node, m: Message, save: Outcome, commitSave: Outcome)
    requires m.AppendReq? && PrevMatches(n, m)
    ensures var (n', reply) := AcceptAppend(n, m, save, commitSave);
            var log := Merge(n.log, m.prevIndex + 1, m.entries);
            && reply.AppendResp? && reply.src == m.dst && reply.dst == m.src && reply.reqTerm == m.term && reply.term == n.term
            && (reply.success <==> (save == Ok || log == n.log) && (commitSave == Ok || Min(m.leaderCommit, LastIndex(log)) <= n.commit))
            && (reply.success ==>
                  && n'.log == log && reply.matchIndex == m.prevIndex + |m.entries|
                  && n'.commit == Max(n.commit, Min(m.leaderCommit, LastIndex(n'.log))))
            && (!reply.success ==> n'.commit == n.commit)
  {
  }

  // ---------------------------------------------------------------- failed persists

  /** The node without its disk. */
  predicate SameMemory(n: Node, n': Node) { n'.(disk := n.disk) == n }

  /** An election, a vote, a record, a commit index: when the persist fails in any way, memory is as before and nothing is promised. */
  lemma FailedElectionUndone(c: State, i: nat, save: Outcome)
    requires Enabled(c, Timeout(i, save)) && save != Ok
    ensures SameMemory(c.nodes[i], Do(c, Timeout(i, save)).nodes[i])
    ensures Do(c, Timeout(i, save)).net == c.net && Do(c, Timeout(i, save)).hist == c.hist
  {
  }

  lemma FailedVoteUndone(c: State, m: Message, raise: Outcome, save: Outcome)
    requires Enabled(c, RecvVoteReq(m, raise, save)) && save != Ok
    ensures var n, d := c.nodes[m.dst], Do(c, RecvVoteReq(m, raise, save));
            && d.hist.granted == c.hist.granted && (m.term <= n.term ==> SameMemory(n, d.nodes[m.dst]))
            && (m.term > n.term ==> d.nodes[m.dst].vote == -1)
  {
  }

  lemma FailedProposalUndone(c: State, i: nat, command: string, save: Outcome)
    requires Enabled(c, Propose(i, command, save)) && |c.nodes[i].log| > 0
    ensures var n, n' := c.nodes[i], Do(c, Propose(i, command, save)).nodes[i];
            && n'.log == (if save == Ok then n.log + [Entry(n.term, command)] else n.log) && n'.commit == n.commit
            && Get(n'.matched, i) == LastIndex(n'.log) && Get(n'.next, i) == LastIndex(n'.log) + 1
            && (save == Ok ==> n'.disk == Disk(n.term, n.vote, n'.log, n.commit))
  {
  }

  lemma FailedAppendUndone(c: State, m: Message, raise: Outcome, save: Outcome, commitSave: Outcome)
    requires Enabled(c, RecvAppendReq(m, raise, save, commitSave))
    ensures var n, n' := c.nodes[m.dst], Do(c, RecvAppendReq(m, raise, save, commitSave)).nodes[m.dst];
            (save != Ok ==> n'.log == n.log) && (commitSave != Ok ==> n'.commit == n.commit)
  {
    AppendUndone(c.nodes[m.dst], m, raise, save, commitSave);
  }

  lemma AppendUndone(n: Node, m: Message, raise: Outcome, save: Outcome, commitSave: Outcome)
    requires m.AppendReq?
    ensures var n' := OnAppendEntries(n, m, raise, save, commitSave).0;
            (save != Ok ==> n'.log == n.log) && (commitSave != Ok ==> n'.commit == n.commit)
  {
    var n1 := BecomeFollower(n, m.term, m.src, raise);
    if PrevMatches(n1, m) {
      AcceptUndone(n1, m, save, commitSave);
    }
  }

  lemma AcceptUndone(n: Node, m: Message, save: Outcome, commitSave: Outcome)
    requires m.AppendReq? && PrevMatches(n, m)
    ensures var n' := AcceptAppend(n, m, save, commitSave).0;
            (save != Ok ==> n'.log == n.log) && (commitSave != Ok ==> n'.commit == n.commit)
  {
  }

  // ---------------------------------------------------------------- what is kept although the persist fails

  /** A commit index the leader found, an installed snapshot and a compaction stay in memory whatever the persist does. */
  lemma KeptAnyway(c: State, s: Step, save: Outcome)
    requires Enabled(c, s)
    ensures s.Advance? ==> SameMemory(Do(c, Advance(s.i, Ok)).nodes[s.i], Do(c, Advance(s.i, save)).nodes[s.i])
    ensures s.SnapInstall? ==> SameMemory(Do(c, SnapInstall(s.m, Ok)).nodes[s.m.dst], Do(c, SnapInstall(s.m, save)).nodes[s.m.dst])
    ensures s.LocalCompact? ==> SameMemory(Do(c, LocalCompact(s.i, s.k, Ok)).nodes[s.i], Do(c, LocalCompact(s.i, s.k, save)).nodes[s.i])
    ensures s.RecvAppendResp? ==>
              SameMemory(Do(c, RecvAppendResp(s.m, s.raise, Ok)).nodes[s.m.dst], Do(c, RecvAppendResp(s.m, s.raise, save)).nodes[s.m.dst])
  {
  }

  /** A flush brings the disk up to date and changes nothing else. */
  lemma FlushSaves(c: State, i: nat)
    requires Enabled(c, Flush(i))
    ensures var n, d := c.nodes[i], Do(c, Flush(i));
            d.nodes == c.nodes[i := n.(disk := Disk(n.term, n.vote, n.log, n.commit))] && d.net == c.net && d.hist == c.hist
  {
  }

  // ---------------------------------------------------------------- which steps change what

  /** Where the marker of node i is after a step. */
  function MarkerAfter(n: Node, s: Step, i: nat): nat {
    if s.LocalCompact? && s.i == i then Max(n.snap, s.k)
    else if s.SnapInstall? && s.m.SnapReq? && s.m.dst == i then Max(n.snap, LastIndex(s.m.snapshot))
    else n.snap
  }

  /** The newest snapshot of node i after a step. */
  function NewestAfter(n: Node, s: Step, i: nat): Log {
    if s.SnapSave? && s.m.SnapReq? && s.m.dst == i && |s.m.snapshot| > |n.saved| then s.m.snapshot
    else if s.LocalSnapshot? && s.i == i && n.saved != [] && |n.saved| <= s.k < |n.log| then n.log[..s.k + 1]
    else n.saved
  }

  /** The marker and the newest snapshot move only when they are told to, and never back. */
  lemma SnapshotsMove(c: State, s: Step, i: nat)
    requires i < |c.nodes| && Enabled(c, s) && !s.Crash? && c.nodes[i].saved != []
    ensures var n, d := c.nodes[i], Do(c, s);
            i < |d.nodes| && d.nodes[i].snap == MarkerAfter(n, s, i) && d.nodes[i].saved == NewestAfter(n, s, i)
  {
    if Delivers(s) {
      TermIsTheNewest(c, s);
      ReceiverKeepsSnapshots(c, s);
    } else {
      OtherSnapshotsMove(c, s, i);
    }
  }

  lemma OtherSnapshotsMove(c: State, s: Step, i: nat)
    requires i < |c.nodes| && Enabled(c, s) && !s.Crash? && c.nodes[i].saved != [] && !Delivers(s)
    ensures var n, d := c.nodes[i], Do(c, s);
            i < |d.nodes| && d.nodes[i].snap == MarkerAfter(n, s, i) && d.nodes[i].saved == NewestAfter(n, s, i)
  {
  }

  lemma ReceiverKeepsSnapshots(c: State, s: Step)
    requires Enabled(c, s) && Delivers(s)
    ensures var n, d := c.nodes[s.m.dst], Do(c, s);
            s.m.dst < |d.nodes| && d.nodes[s.m.dst].snap == n.snap && d.nodes[s.m.dst].saved == n.saved
  {
    if s.RecvAppendReq? {
      AppendKeepsSnapshots(c.nodes[s.m.dst], s.m, s.raise, s.save, s.commitSave);
    }
  }

  lemma AppendKeepsSnapshots(n: Node, m: Message, raise: Outcome, save: Outcome, commitSave: Outcome)
    requires m.AppendReq?
    ensures var n' := OnAppendEntries(n, m, raise, save, commitSave).0; n'.snap == n.snap && n'.saved == n.saved
  {
    var n1 := BecomeFollower(n, m.term, m.src, raise);
    if PrevMatches(n1, m) {
      AcceptKeepsSnapshots(n1, m, save, commitSave);
    }
  }

  lemma AcceptKeepsSnapshots(n: Node, m: Message, save: Outcome, commitSave: Outcome)
    requires m.AppendReq? && PrevMatches(n, m)
    ensures var n' := AcceptAppend(n, m, save, commitSave).0; n'.snap == n.snap && n'.saved == n.saved
  {
  }

  /** The step writes node i's log. */
  predicate WritesLog(s: Step, i: nat) {
    (s.Propose? && s.i == i) || ((s.RecvAppendReq? || s.SnapInstall?) && s.m.dst == i)
  }

  /** The step may raise node i's commit index. */
  predicate MayCommit(s: Step, i: nat) {
    (s.Advance? && s.i == i) || ((s.RecvAppendReq? || s.RecvAppendResp? || s.SnapInstall?) && s.m.dst == i)
  }

  /** Nothing else writes a log or raises a commit index, and only a restart can lower one. */
  ghost predicate LogMoves(n: Node, n': Node, s: Step, i: nat) {
    && (n'.log != n.log ==> WritesLog(s, i)) && n'.commit >= n.commit && (n'.commit > n.commit ==> MayCommit(s, i))
    && (s.SnapInstall? && s.m.SnapReq? && s.m.dst == i ==> n'.commit == Max(n.commit, LastIndex(s.m.snapshot)))
  }

  lemma LogsMove(c: State, s: Step, i: nat)
    requires i < |c.nodes| && Enabled(c, s) && !s.Crash?
    ensures i < |Do(c, s).nodes| && LogMoves(c.nodes[i], Do(c, s).nodes[i], s, i)
  {
    if Delivers(s) {
      TermIsTheNewest(c, s);
      ReceiverLogMoves(c, s);
    } else {
      OtherLogsMove(c, s, i);
    }
  }

  lemma OtherLogsMove(c: State, s: Step, i: nat)
    requires i < |c.nodes| && Enabled(c, s) && !s.Crash? && !Delivers(s)
    ensures i < |Do(c, s).nodes| && LogMoves(c.nodes[i], Do(c, s).nodes[i], s, i)
  {
  }

  lemma ReceiverLogMoves(c: State, s: Step)
    requires Enabled(c, s) && Delivers(s)
    ensures s.m.dst < |Do(c, s).nodes| && LogMoves(c.nodes[s.m.dst], Do(c, s).nodes[s.m.dst], s, s.m.dst)
  {
    if s.RecvAppendReq? {
      AppendAnswer(c.nodes[s.m.dst], s.m, s.raise, s.save, s.commitSave);
    }
  }

  // ---------------------------------------------------------------- the leader's commit index

  /** A majority holds index k as far as the leader knows; it counts itself. */
  ghost predicate MajorityHolds(n: Node, me: nat, size: nat, k: nat) {
    exists q: set<nat> :: Holders(n, me, size, k, q)
  }

  /** q is a majority of the cluster that holds index k. */
  predicate Holders(n: Node, me: nat, size: nat, k: nat, q: set<nat>) {
    q <= Ids(size) && |q| >= Quorum(size) && forall p :: p in q ==> p == me || Get(n.matched, p) >= k
  }

  /** A quorum is a smallest majority. */
  lemma QuorumIsMajority(size: nat)
    ensures 2 * Quorum(size) > size && 2 * (Quorum(size) - 1) <= size
  {
  }

  lemma CountedIff(n: Node, me: nat, size: nat, k: nat)
    requires me < size
    ensures 1 + |Replicated(n, me, size, k)| >= Quorum(size) <==> MajorityHolds(n, me, size, k)
  {
    var r := Replicated(n, me, size, k);
    if 1 + |r| >= Quorum(size) {
      var q := r + {me};
      assert |q| == 1 + |r| && Holders(n, me, size, k, q);
    }
    if MajorityHolds(n, me, size, k) {
      var q: set<nat> :| Holders(n, me, size, k, q);
      assert q <= r + {me};
      I.SubsetSize(q, r + {me});
      assert |r + {me}| == 1 + |r|;
    }
  }

  /** Index k may be committed by the leader now. */
  ghost predicate Committable(n: Node, me: nat, size: nat, k: nat) {
    n.commit < k && n.snap <= k < |n.log| && n.log[k].term == n.term && MajorityHolds(n, me, size, k)
  }

  lemma ScanIsGreatest(n: Node, me: nat, size: nat, k: nat)
    requires me < size
    ensures var c := CommitScan(n, me, size, LastIndex(n.log));
            (c == n.commit || Committable(n, me, size, c)) && (Committable(n, me, size, k) ==> k <= c)
  {
    var c := CommitScan(n, me, size, LastIndex(n.log));
    CountedIff(n, me, size, c);
    CountedIff(n, me, size, k);
    if Committable(n, me, size, k) {
      CommitScanHighest(n, me, size, LastIndex(n.log), k);
    }
  }

  /**
    A confirmation in the leader's own term raises that peer's match index, and the commit index becomes the greatest one of the leader's
    own term that a majority holds, if there is one above it, whatever the persist does.
   */
  lemma LeaderCommits(c: State, m: Message, raise: Outcome, save: Outcome, k: nat)
    requires Enabled(c, RecvAppendResp(m, raise, save)) && c.nodes[m.dst].role == Leader && c.nodes[m.dst].term == m.reqTerm
    requires m.success && m.term <= m.reqTerm
    ensures var n, n' := c.nodes[m.dst], Do(c, RecvAppendResp(m, raise, save)).nodes[m.dst];
            var n1 := n'.(commit := n.commit);
            && Get(n'.matched, m.src) == Max(Get(n.matched, m.src), m.matchIndex)
            && (forall p :: p != m.src ==> Get(n'.matched, p) == Get(n.matched, p))
            && (n'.commit == n.commit || Committable(n1, m.dst, |c.nodes|, n'.commit))
            && (Committable(n1, m.dst, |c.nodes|, k) ==> k <= n'.commit)
  {
    var n := c.nodes[m.dst];
    var n2 := n.(matched := n.matched[m.src := Max(Get(n.matched, m.src), m.matchIndex)],
                 next := n.next[m.src := Max(Get(n.next, m.src), m.matchIndex + 1)]);
    var n1 := Do(c, RecvAppendResp(m, raise, save)).nodes[m.dst].(commit := n.commit);
    var found := CommitScan(n2, m.dst, |c.nodes|, LastIndex(n2.log));
    ScanIsGreatest(n2, m.dst, |c.nodes|, k);
    SameCommittable(n2, n1, m.dst, |c.nodes|, k);
    SameCommittable(n2, n1, m.dst, |c.nodes|, found);
  }

  lemma SameCommittable(a: Node, b: Node, me: nat, size: nat, k: nat)
    requires a.matched == b.matched && a.commit == b.commit && a.snap == b.snap && a.log == b.log && a.term == b.term
    ensures Committable(a, me, size, k) <==> Committable(b, me, size, k)
  {
    assert forall q :: Holders(a, me, size, k, q) <==> Holders(b, me, size, k, q);
  }
}
