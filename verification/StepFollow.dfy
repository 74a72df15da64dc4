/** Accepting or rejecting an append keeps the invariant; the follower's commit index stays inside the agreed part. */
module StepFollow {
  import opened RaftLog
  import opened Protocol
  import opened Cluster
  import opened Invariant
  import opened Frame
  import opened StepBase
  import opened StepElect
  import opened StepLeader

  /** A follower in the term of the request. */
  ghost predicate Following(c: State, m: Message) {
    && m.AppendReq? && m.src < |c.nodes| && m.dst < |c.nodes| && AppendReqOk(c, m)
    && c.nodes[m.dst].term == m.term && c.nodes[m.dst].role == Follower
  }

  /** The committed part of the log is the leader's. */
  lemma CommittedAgrees(c: State, i: nat)
    requires Inv(c) && i < |c.nodes| && c.nodes[i].term in c.hist.elections
    ensures AgreeTo(c.nodes[i].log, LeaderLog(c.hist, c.nodes[i].term), c.nodes[i].commit + 1)
  {
    assert NodeOk(c, i);
    CommittedInLeader(c, c.nodes[i].log[..c.nodes[i].commit + 1], c.nodes[i].term, c.nodes[i].term);
  }

  // ---------------------------------------------------------------- rejections

  lemma FirstIndexFound(log: Log, from: nat, k: nat, t: nat)
    requires from <= k < |log| && log[k].term == t
    ensures var r := FirstIndexOfTerm(log, from, t); from <= r <= k && log[r].term == t
    decreases k - from
  {
    if log[from].term != t {
      FirstIndexFound(log, from + 1, k, t);
    }
  }

  lemma RejectOk(c: State, m: Message)
    requires Inv(c) && Following(c, m) && !PrevMatches(c.nodes[m.dst], m)
    ensures MsgOk(c, Reject(c.nodes[m.dst], m))
  {
    var i, p := m.dst, m.prevIndex;
    var n := c.nodes[i];
    var leader := LeaderLog(c.hist, m.term);
    assert NodeOk(c, i) && ElectionOk(c, m.term);
    if p < n.snap {
      CommittedAgrees(c, i);
      AgreeToLess(n.log, leader, n.commit + 1, p + 2);
    } else if p < |n.log| {
      assert n.log[p].term != leader[p].term;
      assert !AgreeTo(n.log, leader, p + 1);
      assert p > 0;
      assert GoodAt(c.hist, n.log, n.term, p);
      FirstIndexFound(n.log, n.snap, p, n.log[p].term);
    }
  }

  // ---------------------------------------------------------------- acceptance

  /** Under log matching with the leader's log, a merge of the leader's records. */
  lemma MergeGoodLogs(h: History, log: Log, x: nat, leader: Log, y: nat, prev: nat, count: nat)
    requires GoodLog(h, log, x) && GoodLog(h, leader, y) && prev < |log| && prev + count < |leader|
    requires log[prev].term == leader[prev].term
    ensures AgreeTo(log, leader, prev + 1)
    ensures Merge(log, prev + 1, leader[prev + 1..prev + 1 + count]) ==
            if AgreeTo(log, leader, prev + 1 + count) then log else leader[..prev + 1 + count]
  {
    GoodLogsMatch(h, log, x, leader, y, prev);
    GoodLogsMatched(h, log, x, leader, y);
    MergeOutcome(log, leader, prev + 1, count);
  }

  lemma GoodLogsMatched(h: History, a: Log, x: nat, b: Log, y: nat)
    requires GoodLog(h, a, x) && GoodLog(h, b, y)
    ensures forall j :: 0 <= j < |a| && j < |b| && a[j].term == b[j].term ==> AgreeTo(a, b, j + 1)
  {
    forall j | 0 <= j < |a| && j < |b| && a[j].term == b[j].term ensures AgreeTo(a, b, j + 1) {
      GoodLogsMatch(h, a, x, b, y, j);
    }
  }

  lemma GoodNodeLog(c: State, i: nat)
    requires NodesOk(c) && i < |c.nodes|
    ensures GoodLog(c.hist, c.nodes[i].log, c.nodes[i].term) && c.nodes[i].commit < |c.nodes[i].log|
  {
    assert NodeOk(c, i);
  }

  lemma GoodLeaderLog(c: State, t: nat)
    requires ElectionsOk(c) && t in c.hist.elections
    ensures GoodLog(c.hist, LeaderLog(c.hist, t), t)
  {
    assert ElectionOk(c, t);
  }

  lemma MergedLog(c: State, m: Message)
    requires Inv(c) && Following(c, m) && PrevMatches(c.nodes[m.dst], m)
    ensures var n, leader, end := c.nodes[m.dst], LeaderLog(c.hist, m.term), m.prevIndex + 1 + |m.entries|;
            && AgreeTo(n.log, leader, m.prevIndex + 1)
            && Merge(n.log, m.prevIndex + 1, m.entries) == if AgreeTo(n.log, leader, end) then n.log else leader[..end]
  {
    var n, leader := c.nodes[m.dst], LeaderLog(c.hist, m.term);
    GoodNodeLog(c, m.dst);
    GoodLeaderLog(c, m.term);
    MergeGoodLogs(c.hist, n.log, n.term, leader, m.term, m.prevIndex, |m.entries|);
  }

  /** Replacing a diverging tail by the leader's records loses nothing that was confirmed. */
  lemma TakeoverKeeps(c: State, i: nat, end: nat)
    requires Inv(c) && i < |c.nodes| && c.nodes[i].term in c.hist.elections
    requires end <= |LeaderLog(c.hist, c.nodes[i].term)|
    requires !AgreeTo(c.nodes[i].log, LeaderLog(c.hist, c.nodes[i].term), end)
    ensures KeepsAcks(c, i, LeaderLog(c.hist, c.nodes[i].term)[..end], c.nodes[i].term)
  {
    var n := c.nodes[i];
    var leader := LeaderLog(c.hist, n.term);
    assert NodeOk(c, i);
    forall t: nat, k: nat | OwnIndex(c.hist, t, k) && Acked(c.hist, i, t, k)
      ensures Kept(c.hist, leader[..end], n.term, t, k)
    {
      assert Kept(c.hist, n.log, n.term, t, k);
      assert ElectionOk(c, t);
      assert (i, t) in c.hist.acked ==> AckOk(c, i, t);
      assert t <= n.term;
      if LeaderLog(c.hist, t)[..k + 1] <= n.log && LeaderLog(c.hist, t)[..k + 1] <= leader {
        AgreeToEnds(n.log, leader, k + 1, end);
      } else if LeaderLog(c.hist, t)[..k + 1] <= n.log {
        assert t < n.term ==> !Contains(c.hist, n.term, t, k);
      }
    }
  }

  /** The log a follower takes over from its leader. */
  lemma TakeoverMemory(c: State, i: nat, end: nat)
    requires Inv(c) && i < |c.nodes| && c.nodes[i].term in c.hist.elections && c.nodes[i].role == Follower
    requires end <= |LeaderLog(c.hist, c.nodes[i].term)|
    requires !AgreeTo(c.nodes[i].log, LeaderLog(c.hist, c.nodes[i].term), end)
    ensures MemoryFits(c, i, c.nodes[i].(log := LeaderLog(c.hist, c.nodes[i].term)[..end]))
    ensures c.nodes[i].commit < end
  {
    var n := c.nodes[i];
    var leader := LeaderLog(c.hist, n.term);
    assert NodeOk(c, i) && ElectionOk(c, n.term);
    CommittedAgrees(c, i);
    AgreeToEnds(n.log, leader, n.commit + 1, end);
    GoodPrefix(c.hist, leader, n.term, leader[..end], n.term);
    TakeoverKeeps(c, i, end);
    assert leader[..end][..n.commit + 1] == n.log[..n.commit + 1];
  }

  lemma TakeoverSaved(c: State, i: nat, end: nat)
    requires Inv(c) && i < |c.nodes| && c.nodes[i].term in c.hist.elections && c.nodes[i].role == Follower
    requires end <= |LeaderLog(c.hist, c.nodes[i].term)|
    requires !AgreeTo(c.nodes[i].log, LeaderLog(c.hist, c.nodes[i].term), end)
    ensures var n := c.nodes[i].(log := LeaderLog(c.hist, c.nodes[i].term)[..end]);
            Inv(Update(c, i, n.(disk := DiskOf(n)), {}))
  {
    var n := c.nodes[i].(log := LeaderLog(c.hist, c.nodes[i].term)[..end]);
    VotesKept(c, i);
    TakeoverMemory(c, i, end);
    SelfSaved(c, i, n);
    SameHistory(c, i, n.(disk := DiskOf(n)), {});
  }

  /** The takeover reached the disk although its persist reported failure. */
  lemma TakeoverPublished(c: State, i: nat, end: nat)
    requires Inv(c) && i < |c.nodes| && c.nodes[i].term in c.hist.elections && c.nodes[i].role == Follower
    requires end <= |LeaderLog(c.hist, c.nodes[i].term)|
    requires !AgreeTo(c.nodes[i].log, LeaderLog(c.hist, c.nodes[i].term), end)
    ensures var n := c.nodes[i];
            Inv(Update(c, i, n.(disk := DiskOf(n.(log := LeaderLog(c.hist, n.term)[..end]))), {}))
  {
    var n := c.nodes[i];
    var leader := LeaderLog(c.hist, n.term);
    var taken := n.(log := leader[..end]);
    var n' := n.(disk := DiskOf(taken));
    VotesKept(c, i);
    assert NodeOk(c, i);
    TakeoverMemory(c, i, end);
    SelfSaved(c, i, taken);
    SavedInLeader(c, n);
    RestoreIs(c.hist, leader[..end], n.term, n.saved, n.term);
    assert DurableLog(n') == DurableLog(taken.(disk := DiskOf(taken)));
    assert DurableLog(n') <= leader && end <= |DurableLog(n')|;
    forall k: nat | AgreeTo(n.log, leader, k) ensures k <= |DurableLog(n')| {
      AgreeToEnds(n.log, leader, k, end);
    }
    assert NodeFits(c, i, n');
    SameHistory(c, i, n', {});
  }

  /** Every index a follower commits lies in the part of its log that is the leader's. */
  lemma FollowerCommitSound(c: State, m: Message, n: Node)
    requires Inv(c) && Following(c, m) && PrevMatches(c.nodes[m.dst], m)
    requires n.log == Merge(c.nodes[m.dst].log, m.prevIndex + 1, m.entries)
    ensures AgreeTo(n.log, LeaderLog(c.hist, m.term), Min(m.leaderCommit, LastIndex(n.log)) + 1)
  {
    var was, leader := c.nodes[m.dst].log, LeaderLog(c.hist, m.term);
    MergedLog(c, m);
    var k := Min(m.leaderCommit, LastIndex(n.log));
    if n.log == was && !(was <= leader) {
      assert !AgreeTo(was, leader, m.prevIndex + 2);
      assert m.entries == [];
      AgreeToLess(was, leader, m.prevIndex + 1, k + 1);
    }
  }

  /** First half of an accepted append: the log. */
  lemma AcceptLog(c: State, m: Message, save: Outcome)
    requires Inv(c) && Following(c, m) && PrevMatches(c.nodes[m.dst], m)
    ensures var n := c.nodes[m.dst];
            var merged := n.(log := Merge(n.log, m.prevIndex + 1, m.entries));
            var n1 := if merged == n then n
                      else if save == Ok then merged.(disk := DiskOf(merged))
                      else n.(disk := Persist(merged, save));
            Inv(Update(c, m.dst, n1, {}))
  {
    var i, n := m.dst, c.nodes[m.dst];
    MergedLog(c, m);
    var merged := n.(log := Merge(n.log, m.prevIndex + 1, m.entries));
    var end := m.prevIndex + 1 + |m.entries|;
    if merged == n || save == Lost {
      assert c.nodes[i := n] == c.nodes;
      assert c.net + {} == c.net;
    } else if save == Ok {
      TakeoverSaved(c, i, end);
    } else {
      TakeoverPublished(c, i, end);
    }
  }

  /** Second half of an accepted append, on the state that already has the merged log: the commit index. */
  lemma AcceptCommit(c: State, m: Message, commitSave: Outcome)
    requires Inv(c) && Following(c, m)
    requires AgreeTo(c.nodes[m.dst].log, LeaderLog(c.hist, m.term), Min(m.leaderCommit, LastIndex(c.nodes[m.dst].log)) + 1)
    ensures var n := c.nodes[m.dst];
            var k := Min(m.leaderCommit, LastIndex(n.log));
            var n1 := if k <= n.commit then n
                      else if commitSave == Ok then n.(commit := k, disk := DiskOf(n.(commit := k)))
                      else n.(disk := Persist(n.(commit := k), commitSave));
            Inv(Update(c, m.dst, n1, {}))
  {
    var i, n := m.dst, c.nodes[m.dst];
    var k := Min(m.leaderCommit, LastIndex(n.log));
    assert NodeOk(c, i);
    if k <= n.commit || commitSave == Lost {
      assert c.nodes[i := n] == c.nodes;
      assert c.net + {} == c.net;
    } else {
      var leader := LeaderLog(c.hist, m.term);
      assert n.log[..k + 1] <= leader[..m.leaderCommit + 1];
      CommittedPrefix(c, leader[..m.leaderCommit + 1], m.term, n.log[..k + 1], n.term);
      if commitSave == Ok {
        CommitStep(c, i, k, Ok);
      } else {
        VotesKept(c, i);
        DiskSaved(c, i, n, DiskOf(n.(commit := k)));
        SameHistory(c, i, n.(disk := DiskOf(n.(commit := k))), {});
      }
    }
  }

  /** The request stays in order while the follower works on it. */
  lemma StillFollowing(c: State, d: State, m: Message)
    requires Inv(c) && Inv(d) && Following(c, m) && StepOf(c, d, m.dst)
    requires d.nodes[m.dst].term == m.term && d.nodes[m.dst].role == Follower
    ensures Following(d, m)
  {
    assert NodeOk(c, m.dst);
    AppendReqFrame(c, d, m.dst, m);
  }

  lemma ReplyStep(c: State, m: Message, reply: Message)
    requires Inv(c) && Following(c, m) && reply.AppendResp?
    requires reply.src == m.dst && reply.dst == m.src && reply.reqTerm == m.term
    requires reply.success ==> AgreeTo(c.nodes[m.dst].log, LeaderLog(c.hist, m.term), reply.matchIndex + 1)
    requires !reply.success ==> reply.conflictTerm == 0 == reply.conflictIndex && reply.lastIndex == LastIndex(c.nodes[m.dst].log)
    ensures Inv(Replied(c, m, c.nodes[m.dst], reply))
  {
    var i, n := m.dst, c.nodes[m.dst];
    assert c.nodes[i := n] == c.nodes;
    if reply.success {
      Confirm(c, i, m.term, reply.matchIndex);
      var c1 := c.(hist := Ack(c.hist, i, m.term, reply.matchIndex));
      AddMessage(c1, reply);
    } else {
      AddMessage(c, reply);
    }
  }

  lemma CommitAppendStep(c: State, m: Message, commitSave: Outcome)
    requires Inv(c) && Following(c, m)
    requires AgreeTo(c.nodes[m.dst].log, LeaderLog(c.hist, m.term), Min(m.leaderCommit, LastIndex(c.nodes[m.dst].log)) + 1)
    requires AgreeTo(c.nodes[m.dst].log, LeaderLog(c.hist, m.term), m.prevIndex + |m.entries| + 1)
    ensures var (n, reply) := CommitAppend(c.nodes[m.dst], m, commitSave); Inv(Replied(c, m, n, reply))
  {
    var (n, reply) := CommitAppend(c.nodes[m.dst], m, commitSave);
    AcceptCommit(c, m, commitSave);
    var c1 := Update(c, m.dst, n, {});
    AcceptShape(c, m, n);
    ReplyStep(c1, m, reply);
    assert Replied(c, m, n, reply) == Replied(c1, m, n, reply);
  }

  lemma MergedShape(c: State, m: Message)
    requires Inv(c) && Following(c, m) && PrevMatches(c.nodes[m.dst], m)
    ensures var log, leader := Merge(c.nodes[m.dst].log, m.prevIndex + 1, m.entries), LeaderLog(c.hist, m.term);
            && (log == c.nodes[m.dst].log || log <= leader)
            && AgreeTo(log, leader, m.prevIndex + |m.entries| + 1)
  {
    MergedLog(c, m);
  }

  lemma AcceptStep(c: State, m: Message, save: Outcome, commitSave: Outcome)
    requires Inv(c) && Following(c, m) && PrevMatches(c.nodes[m.dst], m)
    ensures var (n, reply) := AcceptAppend(c.nodes[m.dst], m, save, commitSave); Inv(Replied(c, m, n, reply))
  {
    var n := c.nodes[m.dst];
    var merged := n.(log := Merge(n.log, m.prevIndex + 1, m.entries));
    AcceptLog(c, m, save);
    if merged == n {
      AcceptSaved(c, m, n, commitSave);
    } else if save == Ok {
      AcceptSaved(c, m, merged.(disk := DiskOf(merged)), commitSave);
    } else {
      AcceptFailed(c, m, save);
    }
  }

  lemma AcceptSaved(c: State, m: Message, n: Node, commitSave: Outcome)
    requires Inv(c) && Following(c, m) && PrevMatches(c.nodes[m.dst], m)
    requires n.log == Merge(c.nodes[m.dst].log, m.prevIndex + 1, m.entries)
    requires n.term == m.term && n.role == Follower && Inv(Update(c, m.dst, n, {}))
    ensures var (n', reply) := CommitAppend(n, m, commitSave); Inv(Replied(c, m, n', reply))
  {
    var (n', reply) := CommitAppend(n, m, commitSave);
    var c1 := Update(c, m.dst, n, {});
    MergedShape(c, m);
    AcceptShape(c, m, n);
    FollowerCommitSound(c, m, n);
    CommitAppendStep(c1, m, commitSave);
    assert Replied(c, m, n', reply) == Replied(c1, m, n', reply);
  }

  lemma AcceptFailed(c: State, m: Message, save: Outcome)
    requires Inv(c) && Following(c, m) && PrevMatches(c.nodes[m.dst], m) && save != Ok
    requires var n := c.nodes[m.dst];
             var merged := n.(log := Merge(n.log, m.prevIndex + 1, m.entries));
             merged != n && Inv(Update(c, m.dst, n.(disk := Persist(merged, save)), {}))
    ensures var (n, reply) := AcceptAppend(c.nodes[m.dst], m, save, Ok); Inv(Replied(c, m, n, reply))
  {
    var (n, reply) := AcceptAppend(c.nodes[m.dst], m, save, Ok);
    var c1 := Update(c, m.dst, n, {});
    AcceptShape(c, m, n);
    ReplyStep(c1, m, reply);
    assert Replied(c, m, n, reply) == Replied(c1, m, n, reply);
  }

  /** The intermediate states of an append are steps of the follower alone. */
  lemma AcceptShape(c: State, m: Message, n: Node)
    requires Inv(c) && Following(c, m) && Inv(Update(c, m.dst, n, {}))
    requires n.term == m.term && n.role == Follower
    requires n.log == c.nodes[m.dst].log || n.log <= LeaderLog(c.hist, m.term)
    ensures Following(Update(c, m.dst, n, {}), m)
  {
    var d := Update(c, m.dst, n, {});
    assert StepOf(c, d, m.dst);
    StillFollowing(c, d, m);
  }

  lemma RejectStep(c: State, m: Message)
    requires Inv(c) && Following(c, m) && !PrevMatches(c.nodes[m.dst], m)
    ensures Inv(Replied(c, m, c.nodes[m.dst], Reject(c.nodes[m.dst], m)))
  {
    assert c.nodes[m.dst := c.nodes[m.dst]] == c.nodes;
    RejectOk(c, m);
    AddMessage(c, Reject(c.nodes[m.dst], m));
  }

  lemma StaleRequest(c: State, m: Message, reply: Message)
    requires Inv(c) && m.AppendReq? && MsgOk(c, m) && m.term < c.nodes[m.dst].term
    requires reply.AppendResp? && !reply.success
    requires reply.src == m.dst && reply.dst == m.src && reply.reqTerm == m.term
    ensures Inv(Replied(c, m, c.nodes[m.dst], reply))
  {
    assert c.nodes[m.dst := c.nodes[m.dst]] == c.nodes;
    AddMessage(c, reply);
  }

  /** The leader of a term is not addressed by itself. */
  lemma NotToLeader(c: State, i: nat, src: nat, t: nat)
    requires NodesOk(c) && i < |c.nodes| && t in c.hist.elections && src == c.hist.elections[t].leader && src != i
    ensures c.nodes[i].term == t ==> c.nodes[i].role != Leader
  {
    assert NodeOk(c, i);
  }

  lemma AppendReqStep(c: State, m: Message, save: Outcome, commitSave: Outcome)
    requires Inv(c) && Enabled(c, RecvAppendReq(m, Ok, save, commitSave))
    ensures Inv(DoAppendReq(c, m, Ok, save, commitSave))
  {
    var n := c.nodes[m.dst];
    assert MsgOk(c, m);
    NotToLeader(c, m.dst, m.src, m.term);
    if m.term < n.term {
      StaleRequest(c, m, OnAppendEntries(n, m, Ok, save, commitSave).1);
    } else {
      FollowStep(c, m.dst, m.term, m.src);
      FollowedAppend(c, Update(c, m.dst, BecomeFollower(n, m.term, m.src, Ok), {}), m, save, commitSave);
    }
  }

  /** The rest of the handler, once the sender is followed. */
  lemma FollowedAppend(c: State, c1: State, m: Message, save: Outcome, commitSave: Outcome)
    requires Delivered(c, m) && m.AppendReq? && c.nodes[m.dst].term <= m.term && Inv(c1)
    requires c1 == Update(c, m.dst, BecomeFollower(c.nodes[m.dst], m.term, m.src, Ok), {})
    ensures Inv(DoAppendReq(c, m, Ok, save, commitSave))
  {
    assert MsgOk(c1, m);
    FollowedReply(c, c1, m, save, commitSave);
    if PrevMatches(c1.nodes[m.dst], m) {
      AcceptStep(c1, m, save, commitSave);
    } else {
      RejectStep(c1, m);
    }
  }

  /** Following the sender first and handling the rest then is the whole handler. */
  lemma FollowedReply(c: State, c1: State, m: Message, save: Outcome, commitSave: Outcome)
    requires Delivered(c, m) && m.AppendReq? && c.nodes[m.dst].term <= m.term
    requires c1 == Update(c, m.dst, BecomeFollower(c.nodes[m.dst], m.term, m.src, Ok), {})
    ensures var n := c1.nodes[m.dst];
            DoAppendReq(c, m, Ok, save, commitSave) ==
            if PrevMatches(n, m) then Replied(c1, m, AcceptAppend(n, m, save, commitSave).0, AcceptAppend(n, m, save, commitSave).1)
            else Replied(c1, m, n, Reject(n, m))
  {
    var (n', reply) := OnAppendEntries(c.nodes[m.dst], m, Ok, save, commitSave);
    assert Replied(c, m, n', reply) == Replied(c1, m, n', reply);
  }

  lemma AppendRespStep(c: State, m: Message, save: Outcome)
    requires Inv(c) && Enabled(c, RecvAppendResp(m, Ok, save))
    ensures Inv(Update(c, m.dst, OnAppendResponse(c.nodes[m.dst], m.dst, |c.nodes|, m, Ok, save), {}))
  {
    var i := m.dst;
    var n := c.nodes[i];
    assert MsgOk(c, m) && NodeOk(c, i);
    if m.term > n.term {
      FollowStep(c, i, m.term, -1);
    } else if n.role != Leader || n.term != m.reqTerm {
      assert c.nodes[i := n] == c.nodes;
      assert c.net + {} == c.net;
    } else if m.success {
      ConfirmedStep(c, i, m.src, m.matchIndex);
      ThenAdvance(c, i, n.(matched := n.matched[m.src := Max(Get(n.matched, m.src), m.matchIndex)],
                           next := n.next[m.src := Max(Get(n.next, m.src), m.matchIndex + 1)]), save);
    } else {
      RejectedStep(c, i, m);
    }
  }

  lemma ThenAdvance(c: State, i: nat, n: Node, save: Outcome)
    requires i < |c.nodes| && Inv(Update(c, i, n, {}))
    ensures Inv(Update(c, i, AdvanceCommit(n, i, |c.nodes|, save), {}))
  {
    var c1 := Update(c, i, n, {});
    AdvanceStep(c1, i, save);
    assert Update(c1, i, AdvanceCommit(n, i, |c.nodes|, save), {}) == Update(c, i, AdvanceCommit(n, i, |c.nodes|, save), {});
  }
}
