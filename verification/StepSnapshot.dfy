/** Snapshots, compaction, flushing and restarts keep the invariant. */
module StepSnapshot {
  import opened RaftLog
  import opened Protocol
  import opened Cluster
  import opened Invariant
  import opened Frame
  import opened StepBase
  import opened StepElect
  import opened StepLeader
  import opened StepFollow

  // ---------------------------------------------------------------- saving a snapshot

  /** A newer snapshot on top of an older one is the newer one. */
  lemma RestoreTwice(h: History, log: Log, x: nat, older: Log, newer: Log, y: nat)
    requires GoodLog(h, log, x) && GoodLog(h, older, y) && GoodLog(h, newer, y) && older <= newer
    ensures Restore(Restore(log, older), newer) == Restore(log, newer)
  {
    RestoreIs(h, log, x, older, y);
    RestoreIs(h, log, x, newer, y);
    if older <= log {
    } else {
      RestoreIs(h, older, y, newer, y);
    }
  }

  /** Publishing committed records as the newest snapshot. */
  lemma SaveStep(c: State, i: nat, snapshot: Log)
    requires Inv(c) && i < |c.nodes| && Committed(c, snapshot, c.nodes[i].term)
    requires GoodLog(c.hist, snapshot, c.nodes[i].term)
    ensures Inv(Update(c, i, SaveSnapshot(c.nodes[i], snapshot), {}))
  {
    var n := c.nodes[i];
    if SaveSnapshot(n, snapshot) == n {
      assert c.nodes[i := n] == c.nodes;
      assert c.net + {} == c.net;
    } else {
      VotesKept(c, i);
      SavedFits(c, i, snapshot);
      SameHistory(c, i, n.(saved := snapshot), {});
    }
  }

  lemma SavedFits(c: State, i: nat, snapshot: Log)
    requires Inv(c) && i < |c.nodes| && Committed(c, snapshot, c.nodes[i].term)
    requires GoodLog(c.hist, snapshot, c.nodes[i].term) && |snapshot| > |c.nodes[i].saved|
    ensures NodeFits(c, i, c.nodes[i].(saved := snapshot))
  {
    var n := c.nodes[i];
    assert NodeOk(c, i);
    CommittedComparable(c, n.saved, n.term, snapshot, n.term);
    SavedDurable(c, i, snapshot);
    if n.role == Leader {
      PeersSame(c, i, n, n.(saved := snapshot));
    }
  }

  lemma SavedDurable(c: State, i: nat, snapshot: Log)
    requires ElectionsOk(c) && VotesOk(c) && i < |c.nodes| && NodeOk(c, i)
    requires Committed(c, snapshot, c.nodes[i].term) && GoodLog(c.hist, snapshot, c.nodes[i].term)
    requires c.nodes[i].saved <= snapshot
    ensures var n' := c.nodes[i].(saved := snapshot);
            DiskFollows(c.hist, n') && KeepsAcks(c, i, DurableLog(n'), n'.disk.term)
  {
    var n := c.nodes[i];
    var n' := n.(saved := snapshot);
    if Leftover(n) {
      LeftoverDurable(c, i, n);
      LeftoverDurable(c, i, n');
    } else {
      var before, after := DurableLog(n), DurableLog(n');
      RestoreTwice(c.hist, n.disk.log, n.term, n.saved, snapshot, n.term);
      RestoreTwice(c.hist, n.log, n.term, n.saved, snapshot, n.term);
      RestoreIs(c.hist, n.disk.log, n.term, n.saved, n.term);
      RestoreIs(c.hist, before, n.term, snapshot, n.term);
      CommittedPrefix(c, snapshot, n.term, snapshot, n.disk.term);
      KeepsAcksRestore(c, i, before, n.term, snapshot, n.term, n.disk.term);
      if n.term in c.hist.elections {
        CommittedInLeader(c, snapshot, n.term, n.term);
      }
    }
  }

  lemma SnapSaveStep(c: State, m: Message)
    requires Inv(c) && Enabled(c, SnapSave(m))
    ensures Inv(Update(c, m.dst, SaveSnapshot(c.nodes[m.dst], m.snapshot), {}))
  {
    assert MsgOk(c, m) && ElectionOk(c, m.term);
    GoodPrefix(c.hist, LeaderLog(c.hist, m.term), m.term, m.snapshot, c.nodes[m.dst].term);
    CommittedPrefix(c, m.snapshot, m.term, m.snapshot, c.nodes[m.dst].term);
    SaveStep(c, m.dst, m.snapshot);
  }

  lemma LocalSnapshotStep(c: State, i: nat, k: nat)
    requires Inv(c) && Enabled(c, LocalSnapshot(i, k))
    ensures Inv(Update(c, i, SaveSnapshot(c.nodes[i], c.nodes[i].log[..k + 1]), {}))
  {
    var n := c.nodes[i];
    assert NodeOk(c, i);
    GoodPrefix(c.hist, n.log, n.term, n.log[..k + 1], n.term);
    assert n.log[..k + 1] <= n.log[..n.commit + 1];
    CommittedPrefix(c, n.log[..n.commit + 1], n.term, n.log[..k + 1], n.term);
    SaveStep(c, i, n.log[..k + 1]);
  }

  /** Moving the compaction marker inside the committed part. */
  lemma CompactStep(c: State, i: nat, k: nat, save: Outcome)
    requires Inv(c) && i < |c.nodes| && k <= c.nodes[i].commit
    ensures Inv(Update(c, i, Compact(c.nodes[i], k, save), {}))
  {
    var n := c.nodes[i];
    var n' := Compact(n, k, save);
    assert NodeOk(c, i);
    VotesKept(c, i);
    if n' == n {
      assert c.nodes[i := n] == c.nodes;
      assert c.net + {} == c.net;
    } else {
      var n1 := n.(snap := k);
      if n.role == Leader {
        PeersSame(c, i, n, n1);
      }
      if save == Lost {
        assert DurableLog(n') == DurableLog(n);
        assert NodeFits(c, i, n');
      } else {
        SelfSaved(c, i, n1);
      }
      SameHistory(c, i, n', {});
    }
  }

  lemma FlushStep(c: State, i: nat)
    requires Inv(c) && i < |c.nodes|
    ensures Inv(Update(c, i, c.nodes[i].(disk := DiskOf(c.nodes[i])), {}))
  {
    assert NodeOk(c, i);
    VotesKept(c, i);
    SelfSaved(c, i, c.nodes[i]);
    SameHistory(c, i, c.nodes[i].(disk := DiskOf(c.nodes[i])), {});
  }

  // ---------------------------------------------------------------- receiving a snapshot

  lemma SnapReplyOk(c: State, m: Message, reply: Message)
    requires m.SnapReq? && MsgOk(c, m) && reply.SnapResp? && !reply.success
    requires reply.src == m.dst && reply.dst == m.src && reply.reqTerm == m.term
    requires c.nodes[m.dst].term >= m.term && reply.lastIndex + 1 >= |c.nodes[m.dst].log|
    ensures MsgOk(c, reply)
  {
  }

  /** A confirmed snapshot. */
  lemma SnapConfirmed(c: State, m: Message, reply: Message)
    requires Inv(c) && m.SnapReq? && MsgOk(c, m) && reply.SnapResp? && reply.success
    requires reply.src == m.dst && reply.dst == m.src && reply.reqTerm == m.term == c.nodes[m.dst].term
    requires reply.includedIndex == LastIndex(m.snapshot) && m.snapshot <= c.nodes[m.dst].log
    ensures Inv(c.(net := c.net + {reply}, hist := Ack(c.hist, m.dst, m.term, LastIndex(m.snapshot))))
  {
    assert AgreeTo(c.nodes[m.dst].log, LeaderLog(c.hist, m.term), |m.snapshot|);
    Confirm(c, m.dst, m.term, LastIndex(m.snapshot));
    var c1 := c.(hist := Ack(c.hist, m.dst, m.term, LastIndex(m.snapshot)));
    AddMessage(c1, reply);
  }

  /** Anything below the compaction marker is already the leader's. */
  lemma OldNews(c: State, m: Message)
    requires Inv(c) && m.SnapReq? && MsgOk(c, m) && c.nodes[m.dst].term == m.term
    requires LastIndex(m.snapshot) <= c.nodes[m.dst].snap
    ensures m.snapshot <= c.nodes[m.dst].log
  {
    var n := c.nodes[m.dst];
    assert NodeOk(c, m.dst);
    CommittedAgrees(c, m.dst);
    assert n.log[..|m.snapshot|] == n.log[..n.commit + 1][..|m.snapshot|];
  }

  lemma SnapBeginStep(c: State, m: Message)
    requires Inv(c) && Enabled(c, SnapBegin(m, Ok))
    ensures Inv(DoSnapBegin(c, m, Ok))
  {
    var i, n := m.dst, c.nodes[m.dst];
    assert MsgOk(c, m);
    var (n', replies) := SnapshotBegin(n, m, Ok);
    if m.term < n.term {
      var reply :| replies == {reply};
      NodeLogNonempty(c, i);
      SnapReplyOk(c, m, reply);
      assert c.nodes[i := n] == c.nodes;
      AddMessage(c, reply);
    } else {
      NotToLeader(c, i, m.src, m.term);
      FollowStep(c, i, m.term, m.src);
      var c1 := Update(c, i, n', {});
      assert MsgOk(c1, m);
      if LastIndex(m.snapshot) <= n'.snap {
        var reply := SnapResp(m.dst, m.src, m.term, n'.term, true, LastIndex(n'.log), LastIndex(m.snapshot));
        assert replies == {reply} && reply in replies;
        OldNews(c1, m);
        SnapConfirmed(c1, m, reply);
        assert DoSnapBegin(c, m, Ok)
            == c1.(net := c1.net + {reply}, hist := Ack(c1.hist, m.dst, m.term, LastIndex(m.snapshot)));
      } else {
        assert DoSnapBegin(c, m, Ok) == c1;
      }
    }
  }

  lemma NodeLogNonempty(c: State, i: nat)
    requires NodesOk(c) && i < |c.nodes|
    ensures |c.nodes[i].log| > 0
  {
    assert NodeOk(c, i);
  }

  /** Memory after the last section of an incoming snapshot. */
  ghost predicate Installed(c: State, m: Message, n: Node)
    requires m.SnapReq? && m.dst < |c.nodes|
  {
    && MemoryFits(c, m.dst, n) && m.snapshot <= n.log
    && (n.log == c.nodes[m.dst].log || (n.log == m.snapshot && !(m.snapshot <= c.nodes[m.dst].log)))
  }

  lemma InstalledMemory(c: State, m: Message)
    requires Inv(c) && Enabled(c, SnapInstall(m, Ok)) && MsgOk(c, m)
    ensures Installed(c, m, SnapshotInstall(c.nodes[m.dst], m, Lost).0)
  {
    assert NodeOk(c, m.dst);
    InstallShape(c.nodes[m.dst], m);
    if |m.snapshot| - 1 <= c.nodes[m.dst].snap {
      OldNews(c, m);
    } else {
      InstalledNew(c, m);
    }
  }

  lemma InstalledNew(c: State, m: Message)
    requires Inv(c) && Enabled(c, SnapInstall(m, Ok)) && MsgOk(c, m) && |m.snapshot| - 1 > c.nodes[m.dst].snap
    ensures var n, log := c.nodes[m.dst], Restore(c.nodes[m.dst].log, m.snapshot);
            Installed(c, m, n.(log := log, snap := |m.snapshot| - 1, commit := Max(n.commit, |m.snapshot| - 1)))
  {
    var n := c.nodes[m.dst];
    assert NodeOk(c, m.dst) && ElectionOk(c, m.term);
    GoodPrefix(c.hist, LeaderLog(c.hist, m.term), m.term, m.snapshot, n.term);
    NewSnapshot(c, m.dst, m.snapshot);
  }

  lemma InstallShape(n: Node, m: Message)
    requires m.SnapReq? && |m.snapshot| > 0 && n.snap <= n.commit
    ensures SnapshotInstall(n, m, Lost).0 ==
            if |m.snapshot| - 1 <= n.snap then n
            else n.(log := Restore(n.log, m.snapshot), snap := |m.snapshot| - 1, commit := Max(n.commit, |m.snapshot| - 1))
  {
  }

  /** Installing committed records above the marker. */
  lemma NewSnapshot(c: State, i: nat, p: Log)
    requires ElectionsOk(c) && VotesOk(c) && i < |c.nodes| && NodeOk(c, i) && c.nodes[i].role == Follower
    requires GoodLog(c.hist, p, c.nodes[i].term) && Committed(c, p, c.nodes[i].term) && |p| - 1 > c.nodes[i].snap
    ensures var n, log := c.nodes[i], Restore(c.nodes[i].log, p);
            && log == (if p <= n.log then n.log else p)
            && MemoryFits(c, i, n.(log := log, snap := |p| - 1, commit := Max(n.commit, |p| - 1)))
  {
    var n := c.nodes[i];
    RestoreIs(c.hist, n.log, n.term, p, n.term);
    KeepsAcksRestore(c, i, n.log, n.term, p, n.term, n.term);
    if n.commit >= |p| {
      CommittedComparable(c, p, n.term, n.log[..n.commit + 1], n.term);
    }
    assert Restore(n.log, p)[..|p|] == p;
  }

  lemma InstallStep(c: State, m: Message, save: Outcome)
    requires Inv(c) && Enabled(c, SnapInstall(m, save))
    ensures Inv(Update(c, m.dst, SnapshotInstall(c.nodes[m.dst], m, save).0, {}))
  {
    var i, n := m.dst, c.nodes[m.dst];
    assert MsgOk(c, m);
    InstalledMemory(c, m);
    var n1 := SnapshotInstall(n, m, Lost).0;
    if save == Lost {
      assert NodeOk(c, i);
      InstallLost(c, m);
      InstalledNode(c, m, n1);
    } else {
      InstallSaved(c, m, n1);
      assert SnapshotInstall(n, m, save).0 == n1.(disk := DiskOf(n1));
    }
  }

  lemma InstallSaved(c: State, m: Message, n: Node)
    requires Inv(c) && m.SnapReq? && MsgOk(c, m) && Installed(c, m, n)
    requires n.term == c.nodes[m.dst].term == m.term && n.vote == c.nodes[m.dst].vote
    ensures Inv(Update(c, m.dst, n.(disk := DiskOf(n)), {}))
  {
    SelfSaved(c, m.dst, n);
    InstalledNode(c, m, n.(disk := DiskOf(n)));
  }

  lemma InstalledNode(c: State, m: Message, n: Node)
    requires Inv(c) && m.SnapReq? && MsgOk(c, m) && NodeFits(c, m.dst, n) && Installed(c, m, n)
    requires n.term == c.nodes[m.dst].term == m.term && n.vote == c.nodes[m.dst].vote
    requires n.disk == c.nodes[m.dst].disk || n.disk == DiskOf(n)
    ensures Inv(Update(c, m.dst, n, {}))
  {
    VotesKept(c, m.dst);
    SameHistory(c, m.dst, n, {});
  }

  /** The catalog already holds the snapshot, so a failed persist loses nothing. */
  lemma InstallLost(c: State, m: Message)
    requires Inv(c) && Enabled(c, SnapInstall(m, Lost)) && MsgOk(c, m) && NodeOk(c, m.dst)
    requires Installed(c, m, SnapshotInstall(c.nodes[m.dst], m, Lost).0)
    ensures NodeFits(c, m.dst, SnapshotInstall(c.nodes[m.dst], m, Lost).0)
  {
    var n, p := c.nodes[m.dst], m.snapshot;
    var n1 := SnapshotInstall(n, m, Lost).0;
    assert DurableLog(n1) == DurableLog(n);
    if n1.log != n.log {
      CommittedComparable(c, p, n.term, n.saved, n.term);
      RestoreIs(c.hist, n.log, n.term, n.saved, n.term);
      RestoreIs(c.hist, p, n.term, n.saved, n.term);
      RestoreIs(c.hist, n.disk.log, n.term, n.saved, n.term);
    }
  }

  lemma SnapInstallStep(c: State, m: Message, save: Outcome)
    requires Inv(c) && Enabled(c, SnapInstall(m, save))
    ensures Inv(DoSnapInstall(c, m, save))
  {
    var (n', reply) := SnapshotInstall(c.nodes[m.dst], m, save);
    var c1 := Update(c, m.dst, n', {});
    InstallStep(c, m, save);
    assert MsgOk(c, m) && MsgOk(c1, m);
    InstalledMemory(c, m);
    if save == Ok {
      SnapConfirmed(c1, m, reply);
      assert DoSnapInstall(c, m, save)
          == c1.(net := c1.net + {reply}, hist := Ack(c1.hist, m.dst, m.term, LastIndex(m.snapshot)));
    } else {
      SnapReplyOk(c1, m, reply);
      AddMessage(c1, reply);
      assert DoSnapInstall(c, m, save) == c1.(net := c1.net + {reply});
    }
  }

  lemma SnapFailStep(c: State, m: Message)
    requires Inv(c) && Enabled(c, SnapFail(m))
    ensures var n := c.nodes[m.dst];
            Inv(Update(c, m.dst, n, {SnapResp(m.dst, m.src, m.term, n.term, false, LastIndex(n.log), LastIndex(m.snapshot))}))
  {
    var n := c.nodes[m.dst];
    var reply := SnapResp(m.dst, m.src, m.term, n.term, false, LastIndex(n.log), LastIndex(m.snapshot));
    assert MsgOk(c, m);
    NodeLogNonempty(c, m.dst);
    SnapReplyOk(c, m, reply);
    assert c.nodes[m.dst := n] == c.nodes;
    AddMessage(c, reply);
  }

  lemma SnapRespStep(c: State, m: Message)
    requires Inv(c) && Enabled(c, RecvSnapResp(m, Ok))
    ensures Inv(Update(c, m.dst, OnSnapResponse(c.nodes[m.dst], m, Ok), {}))
  {
    var i, n := m.dst, c.nodes[m.dst];
    assert MsgOk(c, m) && NodeOk(c, i);
    if m.term > n.term {
      FollowStep(c, i, m.term, -1);
    } else if n.role != Leader || n.term != m.reqTerm {
      assert c.nodes[i := n] == c.nodes;
      assert c.net + {} == c.net;
    } else if m.success {
      ConfirmedStep(c, i, m.src, m.includedIndex);
    } else {
      SnapRefused(c, m);
      ProgressStep(c, i, n.next[m.src := m.lastIndex + 1], n.matched);
    }
  }

  lemma SnapRefused(c: State, m: Message)
    requires NodesOk(c) && Delivered(c, m) && m.SnapResp? && !m.success && MsgOk(c, m)
    requires c.nodes[m.dst].role == Leader && c.nodes[m.dst].term == m.reqTerm && m.term <= m.reqTerm
    ensures var n := c.nodes[m.dst];
            forall q {:trigger PeerOk(c, n.(next := n.next[m.src := m.lastIndex + 1]), q)} ::
              0 <= q < |c.nodes| && q != m.dst ==> PeerOk(c, n.(next := n.next[m.src := m.lastIndex + 1]), q)
  {
    var i, n := m.dst, c.nodes[m.dst];
    assert NodeOk(c, i);
    var next := n.next[m.src := m.lastIndex + 1];
    forall q | 0 <= q < |c.nodes| && q != i ensures PeerOk(c, n.(next := next), q) {
      assert PeerOk(c, n, q);
      if q == m.src {
        ProbeMore(c, q, n.term, m.lastIndex + 1, Max(m.lastIndex + 1, n.snap));
      }
    }
  }

  // ---------------------------------------------------------------- restart

  /** The commit index a restart takes is a committed prefix of the log it rebuilds. */
  lemma RestartCommitted(c: State, n: Node, log: Log)
    requires ElectionsOk(c) && VotesOk(c) && LogsOk(c, n) && n.saved <= log
    requires log == n.disk.log || (log == n.saved && !(n.saved <= n.disk.log))
    ensures var k := Max(Min(n.disk.commit, LastIndex(n.disk.log)), LastIndex(n.saved));
            LastIndex(n.saved) <= k < |log| && Committed(c, log[..k + 1], n.disk.term)
  {
    CommittedPrefix(c, n.saved, n.term, n.saved, n.disk.term);
    var done := n.disk.log[..n.disk.commit + 1];
    if |n.saved| <= |done| {
      CommittedComparable(c, n.saved, n.disk.term, done, n.disk.term);
    } else {
      assert log[..|n.saved|] == n.saved;
    }
  }

  /** Memory after a restart without a leftover record. */
  lemma RestartMemory(c: State, i: nat)
    requires Inv(c) && i < |c.nodes| && !Leftover(c.nodes[i])
    ensures MemoryFits(c, i, Restart(c.nodes[i], false))
    ensures NodeFits(c, i, Restart(c.nodes[i], false))
  {
    var n := c.nodes[i];
    var n' := Restart(n, false);
    assert NodeOk(c, i);
    RestartLogs(c, n);
    assert DurableLog(n') == DurableLog(n) == n'.log;
  }

  lemma RestartLogs(c: State, n: Node)
    requires ElectionsOk(c) && VotesOk(c) && LogsOk(c, n) && !Leftover(n)
    ensures LogsOk(c, Restart(n, false)) && Restore(DurableLog(n), n.saved) == DurableLog(n)
  {
    var n' := Restart(n, false);
    RestoreIs(c.hist, n.disk.log, n.term, n.saved, n.term);
    GoodLogBound(c.hist, n'.log, n.term, n.disk.term);
    GoodLogBound(c.hist, n.disk.log, n.term, n.disk.term);
    GoodLogBound(c.hist, n.saved, n.term, n.disk.term);
    RestoreIs(c.hist, n'.log, n.disk.term, n.saved, n.disk.term);
    RestartCommitted(c, n, n'.log);
    CommittedPrefix(c, n.saved, n.term, n.saved, n.disk.term);
  }

  lemma RestartEvolves(c: State, i: nat, resaved: bool)
    requires Inv(c) && i < |c.nodes| && !Leftover(c.nodes[i])
    ensures Evolves(c, Update(c, i, Restart(c.nodes[i], resaved), {}), i)
  {
    var n := c.nodes[i];
    var log := DurableLog(n);
    assert NodeOk(c, i);
    RestoreIs(c.hist, n.disk.log, n.term, n.saved, n.term);
    forall k | 0 <= k < |log| ensures log[k].term <= n.term {
      assert k > 0 ==> GoodAt(c.hist, log, n.term, k);
    }
    if n.disk.term == n.term && n.term in c.hist.elections {
      SavedInLeader(c, n);
      RestoreIs(c.hist, n.log, n.term, n.saved, n.term);
    }
  }

  lemma PlainCrash(c: State, i: nat, resaved: bool)
    requires Inv(c) && i < |c.nodes| && !Leftover(c.nodes[i])
    ensures Inv(Update(c, i, Restart(c.nodes[i], resaved), {}))
  {
    var n' := Restart(c.nodes[i], resaved);
    VotesKept(c, i);
    RestartMemory(c, i);
    assert NodeOk(c, i);
    if resaved {
      SelfSaved(c, i, Restart(c.nodes[i], false));
    }
    RestartEvolves(c, i, resaved);
    SameHistory(c, i, n', {});
  }

  /** A crashed leader without a leftover rebuilds exactly its log. */
  lemma PlainLeader(c: State, i: nat)
    requires Inv(c) && i < |c.nodes| && !Leftover(c.nodes[i]) && c.nodes[i].role == Leader
    requires c.nodes[i].term in c.hist.elections
    ensures DurableLog(c.nodes[i]) == LeaderLog(c.hist, c.nodes[i].term)
  {
    var n := c.nodes[i];
    assert NodeOk(c, i);
    SavedInLeader(c, n);
    RestoreIs(c.hist, n.log, n.term, n.saved, n.term);
  }

  lemma LeftoverCrash(c: State, i: nat, resaved: bool)
    requires Inv(c) && i < |c.nodes| && Leftover(c.nodes[i])
    ensures Inv(DoCrash(c, i, resaved))
  {
    var n := c.nodes[i];
    var d := DoCrash(c, i, resaved);
    assert NodeOk(c, i);
    VotesKept(c, i);
    LeftoverDurable(c, i, n);
    LeftoverShape(c, d, i, resaved);
    LeaderLogGrows(c, d, i, n.term, n.disk.log);
    LeftoverNode(c, d, i, resaved);
    StepKeepsInv(c, d, i);
  }

  lemma LeftoverNode(c: State, d: State, i: nat, resaved: bool)
    requires Inv(c) && i < |c.nodes| && Leftover(c.nodes[i]) && d == DoCrash(c, i, resaved) && StepOf(c, d, i) && ElectionsOk(d)
    requires DurableLog(c.nodes[i]) == c.nodes[i].disk.log && c.nodes[i].log <= c.nodes[i].disk.log
    ensures NodeFits(d, i, d.nodes[i])
  {
    var n := c.nodes[i];
    assert NodeOk(c, i);
    OwnGrowthKeeps(c, d, i, n.term, n.log, n.term, n.disk.log, n.disk.term);
    LeftoverLogs(c, d, i);
    RebuiltFits(d, i, n, resaved);
  }

  lemma LeftoverShape(c: State, d: State, i: nat, resaved: bool)
    requires i < |c.nodes| && Leftover(c.nodes[i]) && d == DoCrash(c, i, resaved)
    requires NodeOk(c, i) && DurableLog(c.nodes[i]) == c.nodes[i].disk.log && c.nodes[i].log <= c.nodes[i].disk.log
    ensures StepOf(c, d, i)
  {
    LeftoverTerms(c.hist, c.nodes[i]);
  }

  lemma LeftoverTerms(h: History, n: Node)
    requires Leftover(n) && GoodLog(h, n.log, n.term)
    ensures forall k :: 0 <= k < |n.disk.log| ==> n.disk.log[k].term <= n.term
  {
    forall k | 0 <= k < |n.disk.log| ensures n.disk.log[k].term <= n.term {
      assert 0 < k < |n.log| ==> GoodAt(h, n.log, n.term, k);
      assert k < |n.log| ==> n.disk.log[..|n.log|][k] == n.log[k];
    }
  }

  /** What LeftoverLogs establishes about the logs of a crashed leader n. */
  ghost predicate RebuiltLogs(d: State, n: Node) {
    var k := Max(Min(n.disk.commit, LastIndex(n.disk.log)), LastIndex(n.saved));
    && GoodLog(d.hist, n.disk.log, n.disk.term) && GoodLog(d.hist, n.saved, n.disk.term)
    && n.saved <= n.disk.log && LastIndex(n.saved) <= k < |n.disk.log| && n.disk.commit < |n.disk.log|
    && Committed(d, n.disk.log[..k + 1], n.disk.term) && Committed(d, n.saved, n.disk.term)
    && Committed(d, n.disk.log[..n.disk.commit + 1], n.disk.term)
  }

  lemma RebuiltFits(d: State, i: nat, n: Node, resaved: bool)
    requires RebuiltLogs(d, n) && DurableLog(n) == n.disk.log && KeepsAcks(d, i, n.disk.log, n.disk.term)
    ensures NodeFits(d, i, Restart(n, resaved))
  {
    var n' := Restart(n, resaved);
    assert n'.log == n.disk.log && n'.saved == n.saved && n'.disk.log == n.disk.log;
    assert DurableLog(n') == n.disk.log;
  }

  lemma LeftoverLogs(c: State, d: State, i: nat)
    requires Inv(c) && i < |c.nodes| && Leftover(c.nodes[i]) && StepOf(c, d, i) && ElectionsOk(d)
    requires c.nodes[i].log <= c.nodes[i].disk.log && c.nodes[i].term in c.hist.elections
    requires LeaderLog(d.hist, c.nodes[i].term) == c.nodes[i].disk.log
    ensures RebuiltLogs(d, c.nodes[i])
  {
    var n := c.nodes[i];
    assert NodeOk(c, i) && ElectionOk(d, n.term);
    SavedInLeader(c, n);
    LongerSaved(n);
    RestartCommitted(c, n, n.disk.log);
    LeftoverCommitted(c, d, n);
  }

  lemma LongerSaved(n: Node)
    requires n.saved <= n.log <= n.disk.log
    ensures n.saved <= n.disk.log
  {
  }

  lemma LeftoverCommitted(c: State, d: State, n: Node)
    requires Grows(c, d) && LogsOk(c, n) && GoodLog(d.hist, n.disk.log, n.term) && n.saved <= n.disk.log
    requires var k := Max(Min(n.disk.commit, LastIndex(n.disk.log)), LastIndex(n.saved));
             LastIndex(n.saved) <= k < |n.disk.log| && Committed(c, n.disk.log[..k + 1], n.disk.term)
    ensures RebuiltLogs(d, n)
  {
    GoodLogBound(d.hist, n.disk.log, n.term, n.disk.term);
    GoodLogGrows(c, d, n.saved, n.term, n.disk.term);
    var k := Max(Min(n.disk.commit, LastIndex(n.disk.log)), LastIndex(n.saved));
    assert k < |n.disk.log|;
    CommittedGrows(c, d, n.disk.log[..k + 1], n.disk.term, n.disk.term);
    CommittedGrows(c, d, n.saved, n.term, n.disk.term);
    CommittedGrows(c, d, n.disk.log[..n.disk.commit + 1], n.disk.term, n.disk.term);
  }

  lemma CrashStep(c: State, i: nat, resaved: bool)
    requires Inv(c) && i < |c.nodes|
    ensures Inv(DoCrash(c, i, resaved))
  {
    var n := c.nodes[i];
    if Leftover(n) {
      LeftoverCrash(c, i, resaved);
    } else {
      PlainCrash(c, i, resaved);
      if n.role == Leader {
        if n.term in c.hist.elections {
          PlainLeader(c, i);
          assert c.hist.elections[n.term := c.hist.elections[n.term].(log := DurableLog(n))] == c.hist.elections;
        }
      }
    }
  }
}
