/** Elections keep the invariant. */
module StepElect {
  import opened RaftLog
  import opened Protocol
  import opened Cluster
  import opened Invariant
  import opened Frame
  import opened StepBase

  /** Following a newer term, or the leader of the current one. */
  lemma RaisedFits(c: State, i: nat, t: nat, leader: int)
    requires Inv(c) && i < |c.nodes| && t > c.nodes[i].term
    ensures var n1 := BecomeFollower(c.nodes[i], t, leader, Ok);
            NodeFits(c, i, n1) && forall k :: 0 <= k < |n1.log| ==> n1.log[k].term < t
  {
    var n := c.nodes[i];
    var n1 := BecomeFollower(n, t, leader, Ok);
    assert NodeOk(c, i);
    GoodLogBound(c.hist, n.log, n.term, t);
    GoodLogBound(c.hist, n.saved, n.term, t);
    CommittedPrefix(c, n.log[..n.commit + 1], n.term, n.log[..n.commit + 1], t);
    CommittedPrefix(c, n.saved, n.term, n.saved, t);
    KeepsAcksMore(c, i, n.log, n.term, n.log, t);
    SelfSaved(c, i, n1);
    forall k | 0 <= k < |n1.log| ensures n1.log[k].term < t {
      assert k > 0 ==> GoodAt(c.hist, n.log, n.term, k);
    }
  }

  lemma FollowStep(c: State, i: nat, t: nat, leader: int)
    requires Inv(c) && i < |c.nodes| && t >= c.nodes[i].term
    requires t == c.nodes[i].term ==> c.nodes[i].role != Leader
    ensures Inv(Update(c, i, BecomeFollower(c.nodes[i], t, leader, Ok), {}))
  {
    var n := c.nodes[i];
    var n1 := BecomeFollower(n, t, leader, Ok);
    assert NodeOk(c, i);
    VotesKept(c, i);
    if t > n.term {
      RaisedFits(c, i, t, leader);
    } else {
      assert DurableLog(n1) == DurableLog(n);
    }
    SameHistory(c, i, n1, {});
  }

  lemma TimeoutStep(c: State, i: nat, save: Outcome)
    requires Inv(c) && Enabled(c, Timeout(i, save))
    ensures Inv(DoTimeout(c, i, save))
  {
    var n := c.nodes[i];
    assert NodeOk(c, i);
    VotesKept(c, i);
    if save == Ok {
      CandidateStep(c, i);
    } else {
      var n1 := StartElection(n, i, save);
      if save == Published {
        CommittedPrefix(c, n.log[..n.commit + 1], n.term, n.log[..n.commit + 1], n.term + 1);
        DiskSaved(c, i, n, Disk(n.term + 1, i, n.log, n.commit));
      } else {
        assert n1 == n;
      }
      SameHistory(c, i, n1, {});
    }
  }

  /** A log holding (t, k) ends at least as recently. */
  lemma HolderIsRecent(c: State, log: Log, x: nat, t: nat, k: nat)
    requires ElectionsOk(c) && GoodLog(c.hist, log, x) && OwnIndex(c.hist, t, k) && LeaderLog(c.hist, t)[..k + 1] <= log
    ensures Recent(log, t, k)
  {
    assert ElectionOk(c, t);
    assert log[k] == LeaderLog(c.hist, t)[..k + 1][k];
    GoodLogOrdered(c, log, x, k, |log| - 1);
  }

  lemma CandidateStep(c: State, i: nat)
    requires Inv(c) && Enabled(c, Timeout(i, Ok))
    ensures Inv(DoTimeout(c, i, Ok))
  {
    var n := c.nodes[i];
    var d := DoTimeout(c, i, Ok);
    var t := n.term + 1;
    assert NodeOk(c, i);
    VotesKept(c, i);
    CandidateShape(c, d, i);
    forall s | s in d.hist.elections ensures ElectionOk(d, s) {
      assert ElectionOk(c, s);
      ElectionFrame(c, d, s);
    }
    CandidateFits(c, d, i);
    SelfVote(c, d, i);
    OneMoreVote(c, i, t, i);
    StepKeepsInv(c, d, i);
  }

  lemma CandidateShape(c: State, d: State, i: nat)
    requires i < |c.nodes| && c.nodes[i].role != Leader && d == DoTimeout(c, i, Ok)
    requires VotesOk(c) && NodeOk(c, i)
    ensures StepOf(c, d, i)
  {
    var n, t := c.nodes[i], c.nodes[i].term + 1;
    assert (t, i) in c.hist.candidacies ==> CandidacyOk(c, t, i);
    forall k | 0 <= k < |n.log| ensures n.log[k].term < t {
      assert k > 0 ==> GoodAt(c.hist, n.log, n.term, k);
    }
  }

  lemma KeepsAcksSame(c: State, d: State, v: nat, log: Log, x: nat, y: nat)
    requires ElectionsOk(c) && ElectionsOk(d) && Grows(c, d) && KeepsAcks(c, v, log, x) && x <= y
    requires d.hist.elections == c.hist.elections && d.hist.acked == c.hist.acked
    ensures KeepsAcks(d, v, log, y)
  {
    forall t: nat, k: nat | OwnIndex(d.hist, t, k) && Acked(d.hist, v, t, k) ensures Kept(d.hist, log, y, t, k) {
      assert Kept(c.hist, log, x, t, k);
      KeptGrows(c, d, log, x, y, t, k);
    }
  }

  lemma CandidateFits(c: State, d: State, i: nat)
    requires i < |c.nodes| && c.nodes[i].role != Leader && d == DoTimeout(c, i, Ok)
    requires ElectionsOk(c) && ElectionsOk(d) && VotesOk(c) && Grows(c, d) && NodeOk(c, i)
    ensures NodeOk(d, i)
  {
    CandidateMemory(c, d, i);
    DiskFits(d, i, d.nodes[i], c);
  }

  lemma CandidateMemory(c: State, d: State, i: nat)
    requires i < |c.nodes| && c.nodes[i].role != Leader && d == DoTimeout(c, i, Ok)
    requires ElectionsOk(c) && ElectionsOk(d) && VotesOk(c) && Grows(c, d) && NodeOk(c, i)
    ensures MemoryFits(d, i, d.nodes[i]) && d.nodes[i].disk == DiskOf(d.nodes[i])
    ensures d.hist.elections == c.hist.elections && d.hist.acked == c.hist.acked
  {
    var n, t := c.nodes[i], c.nodes[i].term + 1;
    GoodLogGrows(c, d, n.log, n.term, t);
    GoodLogGrows(c, d, n.saved, n.term, t);
    CommittedGrows(c, d, n.log[..n.commit + 1], n.term, t);
    CommittedGrows(c, d, n.saved, n.term, t);
    KeepsAcksSame(c, d, i, n.log, n.term, t);
    assert t in c.hist.elections ==> ElectionOk(c, t);
  }

  /** DiskSaved for a state whose votes grew: only elections and chosen records matter. */
  lemma DiskFits(d: State, i: nat, n: Node, c: State)
    requires ElectionsOk(c) && VotesOk(c) && ElectionsOk(d) && Grows(c, d)
    requires d.hist.elections == c.hist.elections && d.hist.acked == c.hist.acked
    requires MemoryFits(d, i, n) && n.disk == DiskOf(n)
    ensures NodeFits(d, i, n)
  {
    RestoreIs(d.hist, n.log, n.term, n.saved, n.term);
    if !(n.saved <= n.log) {
      SnapshotFits(d, i, n.log, n.saved, n.term, c);
    }
  }

  /** KeepsAcksRestore for such a state. */
  lemma SnapshotFits(d: State, i: nat, log: Log, saved: Log, x: nat, c: State)
    requires ElectionsOk(c) && VotesOk(c) && ElectionsOk(d) && Grows(c, d)
    requires d.hist.elections == c.hist.elections && d.hist.acked == c.hist.acked
    requires KeepsAcks(d, i, log, x) && Committed(d, saved, x) && saved != [BOOTSTRAP] && !(saved <= log)
    ensures KeepsAcks(d, i, saved, x)
  {
    var s: nat, j: nat :| s <= x && CommittedBy(d, saved, s, j);
    assert Ackers(c, s, j) == Ackers(d, s, j);
    assert CommittedBy(c, saved, s, j);
    forall t: nat, k: nat | OwnIndex(d.hist, t, k) && Acked(d.hist, i, t, k) ensures Kept(d.hist, saved, x, t, k) {
      assert Kept(d.hist, log, x, t, k);
      KeptBack(c, d, log, x, t, k);
      SnapshotKeeps(c, log, saved, s, j, x, t, k);
      KeptGrows(c, d, saved, x, x, t, k);
    }
  }

  lemma KeptBack(c: State, d: State, log: Log, x: nat, t: nat, k: nat)
    requires d.hist.elections == c.hist.elections && OwnIndex(d.hist, t, k) && Kept(d.hist, log, x, t, k)
    ensures Kept(c.hist, log, x, t, k)
  {
    if Superseded(d.hist, x, t, k) {
      var s :| t < s <= x && s in d.hist.elections && !Contains(d.hist, s, t, k);
      assert !Contains(c.hist, s, t, k);
    }
  }

  /** A candidate's own vote is as good as any: its log holds all it confirmed. */
  lemma SelfVote(c: State, d: State, i: nat)
    requires i < |c.nodes| && c.nodes[i].role != Leader && d == DoTimeout(c, i, Ok)
    requires ElectionsOk(c) && ElectionsOk(d) && Grows(c, d) && NodeOk(c, i)
    ensures VoteOk(d, i, c.nodes[i].term + 1, i)
  {
    var n, t := c.nodes[i], c.nodes[i].term + 1;
    forall s: nat, k: nat | OwnIndex(d.hist, s, k) && s < t && Acked(d.hist, i, s, k)
      ensures VotedAfter(d.hist, i, t, i, s, k)
    {
      assert Kept(c.hist, n.log, n.term, s, k);
      if LeaderLog(c.hist, s)[..k + 1] <= n.log {
        HolderIsRecent(c, n.log, n.term, s, k);
      } else {
        SupersededGrows(c, d, n.term, t - 1, s, k);
      }
    }
  }

  lemma OneMoreVote(c: State, v: nat, s: nat, w: nat)
    requires VotesOk(c) && v < |c.nodes|
    requires c.nodes[v].term < s || (c.nodes[v].term == s && c.nodes[v].vote == w)
    ensures OneVote(c.hist.(granted := c.hist.granted + {(v, s, w)}))
  {
    forall x | (v, s, x) in c.hist.granted ensures x == w {
      assert VoteOk(c, v, s, x);
    }
  }

  /** Recording a vote the node has made durable. */
  lemma GrantStep(c: State, i: nat, s: nat, w: nat)
    requires Inv(c) && i < |c.nodes| && w < |c.nodes| && s >= 1 && (s, w) in c.hist.candidacies
    requires c.nodes[i].term == s == c.nodes[i].disk.term && c.nodes[i].vote == w == c.nodes[i].disk.vote
    requires UpToDate(c.nodes[i].log, LastIndex(c.hist.candidacies[(s, w)]), LastTerm(c.hist.candidacies[(s, w)]))
    ensures Inv(c.(hist := c.hist.(granted := c.hist.granted + {(i, s, w)})))
  {
    var d := c.(hist := c.hist.(granted := c.hist.granted + {(i, s, w)}));
    var n := c.nodes[i];
    if (i, s, w) in c.hist.granted {
      assert d == c;
    } else {
      assert NodeOk(c, i);
      VotesKept(c, i);
      assert StepOf(c, d, i);
      forall t | t in d.hist.elections ensures ElectionOk(d, t) {
        assert ElectionOk(c, t);
        ElectionFrame(c, d, t);
      }
      GrantFits(c, d, i);
      OneMoreVote(c, i, s, w);
      LateOrRecent(c, d, i, s, w);
      StepKeepsInv(c, d, i);
    }
  }

  lemma GrantFits(c: State, d: State, i: nat)
    requires Grows(c, d) && ElectionsOk(c) && ElectionsOk(d) && i < |c.nodes| && NodeOk(c, i) && d.nodes == c.nodes
    requires d.hist.elections == c.hist.elections && d.hist.acked == c.hist.acked && d.hist.candidacies == c.hist.candidacies
    ensures NodeOk(d, i)
  {
    var n := c.nodes[i];
    LogsFrame(c, d, n);
    DiskFrame(c, d, n);
    KeepsAcksSame(c, d, i, n.log, n.term, n.term);
    KeepsAcksSame(c, d, i, DurableLog(n), n.disk.term, n.disk.term);
    if n.role == Leader {
      forall p | 0 <= p < |d.nodes| && p != i ensures PeerOk(d, n, p) {
        assert PeerOk(c, n, p);
      }
    }
  }

  lemma LateOrRecent(c: State, d: State, i: nat, s: nat, w: nat)
    requires Inv(c) && ElectionsOk(d) && Grows(c, d) && i < |c.nodes| && w < |c.nodes|
    requires s >= 1 && (s, w) in c.hist.candidacies && (i, s, w) !in c.hist.granted
    requires d == c.(hist := c.hist.(granted := c.hist.granted + {(i, s, w)}))
    requires c.nodes[i].term == s == c.nodes[i].disk.term && c.nodes[i].vote == w == c.nodes[i].disk.vote
    requires UpToDate(c.nodes[i].log, LastIndex(c.hist.candidacies[(s, w)]), LastTerm(c.hist.candidacies[(s, w)]))
    ensures VoteOk(d, i, s, w)
  {
    var n := c.nodes[i];
    assert NodeOk(c, i);
    forall t: nat, k: nat | OwnIndex(d.hist, t, k) && t < s && Acked(d.hist, i, t, k)
      ensures VotedAfter(d.hist, i, s, w, t, k)
    {
      assert Kept(c.hist, n.log, n.term, t, k);
      if s in c.hist.elections {
        var e := c.hist.elections[s];
        assert ElectionOk(c, s);
        assert i in e.voters ==> VoteOk(c, i, s, e.leader);
      } else if LeaderLog(c.hist, t)[..k + 1] <= n.log {
        HolderIsRecent(c, n.log, n.term, t, k);
      } else {
        var r :| t < r <= n.term && r in c.hist.elections && !Contains(c.hist, r, t, k);
        ContainsGrows(c, d, r, t, k);
      }
    }
  }

  lemma VoteReqStep(c: State, m: Message, save: Outcome)
    requires Inv(c) && Enabled(c, RecvVoteReq(m, Ok, save))
    ensures Inv(DoVoteReq(c, m, Ok, save))
  {
    var i := m.dst;
    var n := c.nodes[i];
    assert MsgOk(c, m);
    var (n', reply) := OnRequestVote(n, m, Ok, save);
    if m.term < n.term {
      AddMessage(c, reply);
      assert c.nodes[i := n] == c.nodes;
    } else {
      assert CandidacyOk(c, m.term, m.src);
      var n1 := if m.term > n.term then BecomeFollower(n, m.term, -1, Ok) else n;
      var c1 := Update(c, i, n1, {});
      if m.term > n.term {
        FollowStep(c, i, m.term, -1);
      } else {
        assert c1.nodes == c.nodes;
        assert c1 == c;
      }
      DecideVote(c1, m, save);
      assert DoVoteReq(c, m, Ok, save) == DoVoteReq(c1, m, Ok, save);
    }
  }

  /** Changing the vote in memory and on disk, where no vote for another candidate was given. */
  lemma ChangeVote(c: State, i: nat, w: nat)
    requires Inv(c) && i < |c.nodes| && (c.nodes[i].vote == -1 || c.nodes[i].vote == w)
    ensures var n := c.nodes[i].(vote := w); Inv(Update(c, i, n.(disk := DiskOf(n)), {}))
  {
    var n := c.nodes[i].(vote := w);
    assert NodeOk(c, i);
    VotesKept(c, i);
    if n.role == Leader {
      PeersSame(c, i, c.nodes[i], n);
    }
    SelfSaved(c, i, n);
    SameHistory(c, i, n.(disk := DiskOf(n)), {});
  }

  /** A vote that could not be saved cleanly leaves memory alone. */
  lemma ChangeDiskVote(c: State, i: nat, w: nat)
    requires Inv(c) && i < |c.nodes| && (c.nodes[i].vote == -1 || c.nodes[i].vote == w)
    ensures var n := c.nodes[i]; Inv(Update(c, i, n.(disk := DiskOf(n.(vote := w))), {}))
  {
    var n := c.nodes[i];
    assert NodeOk(c, i);
    VotesKept(c, i);
    DiskSaved(c, i, n, DiskOf(n.(vote := w)));
    SameHistory(c, i, n.(disk := DiskOf(n.(vote := w))), {});
  }

  /** Voting in the current term. */
  lemma DecideVote(c: State, m: Message, save: Outcome)
    requires Inv(c) && Delivered(c, m) && m.VoteReq? && VoteReqOk(c, m) && c.nodes[m.dst].term == m.term
    ensures Inv(DoVoteReq(c, m, Ok, save))
  {
    var i := m.dst;
    var n := c.nodes[i];
    var (n', reply) := OnRequestVote(n, m, Ok, save);
    var c1 := Update(c, i, n', {});
    if reply.granted {
      ChangeVote(c, i, m.src);
      assert CandidacyOk(c, m.term, m.src);
      GrantStep(c1, i, m.term, m.src);
      var c2 := c1.(hist := c1.hist.(granted := c1.hist.granted + {(i, m.term, m.src)}));
      AddMessage(c2, reply);
      assert DoVoteReq(c, m, Ok, save) == c2.(net := c2.net + {reply});
    } else {
      if n' != n {
        ChangeDiskVote(c, i, m.src);
      } else {
        assert c1.nodes == c.nodes;
        assert c1 == c;
      }
      AddMessage(c1, reply);
      assert DoVoteReq(c, m, Ok, save) == c1.(net := c1.net + {reply});
    }
  }

  lemma AddVote(c: State, i: nat, v: nat)
    requires Inv(c) && i < |c.nodes| && v < |c.nodes| && c.nodes[i].role == Candidate
    requires (v, c.nodes[i].term, i) in c.hist.granted
    ensures Inv(Update(c, i, c.nodes[i].(votes := c.nodes[i].votes + {v}), {}))
  {
    var n := c.nodes[i];
    var n' := n.(votes := n.votes + {v});
    assert NodeOk(c, i);
    VotesKept(c, i);
    assert DurableLog(n') == DurableLog(n);
    assert NodeFits(c, i, n');
    SameHistory(c, i, n', {});
  }

  lemma VoteRespStep(c: State, m: Message)
    requires Inv(c) && Enabled(c, RecvVoteResp(m, Ok))
    ensures Inv(Update(c, m.dst, OnVoteResponse(c.nodes[m.dst], m, Ok), {}))
  {
    var i := m.dst;
    var n := c.nodes[i];
    if m.term > n.term {
      FollowStep(c, i, m.term, -1);
    } else if n.role != Candidate || n.term != m.reqTerm || !m.granted {
      assert c.nodes[i := n] == c.nodes;
      assert c.net + {} == c.net;
    } else {
      assert MsgOk(c, m);
      AddVote(c, i, m.src);
    }
  }

  // ---------------------------------------------------------------- winning

  lemma NotYetWon(c: State, i: nat)
    requires Inv(c) && Enabled(c, Win(i))
    ensures c.nodes[i].term !in c.hist.elections
  {
    var n := c.nodes[i];
    assert NodeOk(c, i);
    if n.term in c.hist.elections {
      assert ElectionOk(c, n.term);
      var e := c.hist.elections[n.term];
      var v := QuorumsMeet(|c.nodes|, n.votes, e.voters);
    }
  }

  lemma WinStep(c: State, i: nat)
    requires Inv(c) && Enabled(c, Win(i))
    ensures Inv(DoWin(c, i))
  {
    var d := DoWin(c, i);
    NotYetWon(c, i);
    VotesKept(c, i);
    WinShape(c, i);
    assert NodeOk(c, i);
    WinElections(c, d, i);
    WinnerFits(c, d, i);
    StepKeepsInv(c, d, i);
  }

  lemma WinShape(c: State, i: nat)
    requires i < |c.nodes| && c.nodes[i].term !in c.hist.elections
    ensures StepOf(c, DoWin(c, i), i)
  {
  }

  lemma WinElections(c: State, d: State, i: nat)
    requires i < |c.nodes| && d == DoWin(c, i) && ElectionsOk(c) && NodeOk(c, i) && Grows(c, d)
    requires c.nodes[i].role == Candidate && |c.nodes[i].votes| >= Quorum(|c.nodes|)
    requires c.nodes[i].term !in c.hist.elections
    ensures ElectionsOk(d)
  {
    var n := c.nodes[i];
    forall t | t in d.hist.elections ensures ElectionOk(d, t) {
      if t == n.term {
        GoodLogGrows(c, d, n.log, t, t);
        forall k | 0 <= k < |n.log| ensures n.log[k].term < t {
          assert k > 0 ==> GoodAt(c.hist, n.log, t, k);
        }
        assert n.log[..|n.log|] == n.log;
      } else {
        assert ElectionOk(c, t);
        ElectionFrame(c, d, t);
      }
    }
  }

  lemma WinnerFits(c: State, d: State, i: nat)
    requires i < |c.nodes| && d == DoWin(c, i) && ElectionsOk(c) && ElectionsOk(d) && NodeOk(c, i) && Grows(c, d)
    requires c.nodes[i].role == Candidate && c.nodes[i].term !in c.hist.elections
    ensures NodeOk(d, i)
  {
    var n, n' := c.nodes[i], d.nodes[i];
    LogsFrame(c, d, n);
    assert LogsOk(d, n');
    assert DurableLog(n') == DurableLog(n);
    KeepsAcksElected(c, d, i, n.log, n.term);
    KeepsAcksElected(c, d, i, DurableLog(n), n.disk.term);
    forall p | 0 <= p < |d.nodes| && p != i ensures PeerOk(d, n', p) {
      assert p in Ids(|d.nodes|);
    }
  }

  lemma KeepsAcksElected(c: State, d: State, i: nat, log: Log, x: nat)
    requires i < |c.nodes| && d == DoWin(c, i) && ElectionsOk(c) && ElectionsOk(d) && Grows(c, d)
    requires c.nodes[i].term !in c.hist.elections && KeepsAcks(c, i, log, x)
    ensures KeepsAcks(d, i, log, x)
  {
    forall t: nat, k: nat | OwnIndex(d.hist, t, k) && Acked(d.hist, i, t, k) ensures Kept(d.hist, log, x, t, k) {
      assert Kept(c.hist, log, x, t, k);
      KeptGrows(c, d, log, x, x, t, k);
    }
  }
}
