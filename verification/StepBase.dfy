/** Tools for the step lemmas: what a restart would rebuild, and single additions to the record. */
module StepBase {
  import opened RaftLog
  import opened Protocol
  import opened Cluster
  import opened Invariant
  import opened Frame

  // ---------------------------------------------------------------- the durable log

  /** Installing a snapshot keeps a log that contains it and replaces any other. */
  lemma RestoreIs(h: History, log: Log, x: nat, snap: Log, y: nat)
    requires GoodLog(h, log, x) && GoodLog(h, snap, y)
    ensures Restore(log, snap) == if snap <= log then log else snap
  {
    if |snap| <= |log| && log[|snap| - 1].term == snap[|snap| - 1].term {
      GoodLogsMatch(h, log, x, snap, y, |snap| - 1);
      assert snap == snap[..|snap|];
      assert snap + log[|snap|..] == log;
    }
  }

  lemma SavedInLeader(c: State, n: Node)
    requires ElectionsOk(c) && VotesOk(c) && LogsOk(c, n) && n.term in c.hist.elections
    ensures n.saved <= LeaderLog(c.hist, n.term)
  {
    CommittedInLeader(c, n.saved, n.term, n.term);
  }

  lemma LeftoverDurable(c: State, i: nat, n: Node)
    requires ElectionsOk(c) && VotesOk(c) && LogsOk(c, n) && RoleOk(c, i, n) && Leftover(n)
    ensures DurableLog(n) == n.disk.log && n.log <= n.disk.log
  {
    SavedInLeader(c, n);
    var k := |n.saved|;
    assert n.disk.log[k - 1] == n.disk.log[..|n.log|][k - 1] == n.log[k - 1];
    assert n.disk.log[..k] == n.disk.log[..|n.log|][..k];
    assert n.saved + n.disk.log[k..] == n.disk.log;
  }

  /** Whatever the node shares with its current leader, a restart still has. */
  lemma DurableAgrees(c: State, i: nat, n: Node, k: nat)
    requires ElectionsOk(c) && VotesOk(c) && LogsOk(c, n) && RoleOk(c, i, n) && DiskFollows(c.hist, n)
    requires n.term in c.hist.elections && AgreeTo(n.log, LeaderLog(c.hist, n.term), k)
    ensures AgreeTo(DurableLog(n), LeaderLog(c.hist, n.term), k)
  {
    var leader := LeaderLog(c.hist, n.term);
    SavedInLeader(c, n);
    if Leftover(n) {
      LeftoverDurable(c, i, n);
      assert n.disk.log[..k] == n.log[..k];
    } else if DurableLog(n) == Restore(n.log, n.saved) {
      RestoreIs(c.hist, n.log, n.term, n.saved, n.term);
      if !(n.saved <= n.log) {
        assert k < |n.saved|;
        assert n.saved[..k] == leader[..k];
      }
    } else {
      assert DurableLog(n)[..k] == leader[..k];
    }
  }

  /** A snapshot of committed records on top of a log loses nothing the node confirmed. */
  lemma KeepsAcksRestore(c: State, v: nat, log: Log, x: nat, snap: Log, y: nat, bound: nat)
    requires ElectionsOk(c) && VotesOk(c) && GoodLog(c.hist, log, x) && GoodLog(c.hist, snap, y)
    requires KeepsAcks(c, v, log, bound) && Committed(c, snap, bound)
    ensures KeepsAcks(c, v, Restore(log, snap), bound)
  {
    RestoreIs(c.hist, log, x, snap, y);
    if !(snap <= log) {
      var s: nat, j: nat :| s <= bound && CommittedBy(c, snap, s, j);
      forall t: nat, i: nat | OwnIndex(c.hist, t, i) && Acked(c.hist, v, t, i)
        ensures Kept(c.hist, snap, bound, t, i)
      {
        assert Kept(c.hist, log, bound, t, i);
        SnapshotKeeps(c, log, snap, s, j, bound, t, i);
      }
    }
  }

  lemma SnapshotKeeps(c: State, log: Log, snap: Log, s: nat, j: nat, bound: nat, t: nat, i: nat)
    requires ElectionsOk(c) && VotesOk(c) && s <= bound && CommittedBy(c, snap, s, j)
    requires OwnIndex(c.hist, t, i) && Kept(c.hist, log, bound, t, i) && !(snap <= log)
    ensures Kept(c.hist, snap, bound, t, i)
  {
    var own := LeaderLog(c.hist, t)[..i + 1];
    if !Superseded(c.hist, bound, t, i) {
      var top := if s <= t then t else s;
      if s <= t {
        LeaderHasChosen(c, s, j, t);
        PrefixesComparable(snap, LeaderLog(c.hist, s)[..j + 1], LeaderLog(c.hist, s));
      } else {
        assert Contains(c.hist, s, t, i);
      }
      assert own <= LeaderLog(c.hist, top) && snap <= LeaderLog(c.hist, top);
      assert |own| <= |snap|;
      PrefixesComparable(own, snap, LeaderLog(c.hist, top));
    }
  }

  // ---------------------------------------------------------------- steps that record nothing

  lemma SameHistory(c: State, i: nat, n: Node, msgs: set<Message>)
    requires Inv(c) && i < |c.nodes| && n.term >= c.nodes[i].term
    requires NodeFits(c, i, n) && KeepsVotes(c.hist, i, n) && Evolves(c, Update(c, i, n, msgs), i)
    requires forall m :: m in msgs ==> MsgOk(Update(c, i, n, msgs), m)
    ensures Inv(Update(c, i, n, msgs))
  {
    var d := Update(c, i, n, msgs);
    assert StepOf(c, d, i);
    forall t | t in d.hist.elections ensures ElectionOk(d, t) {
      assert ElectionOk(c, t);
      ElectionFrame(c, d, t);
    }
    FitsSameHistory(c, d, i, n);
    StepKeepsInv(c, d, i);
  }

  lemma FitsSameHistory(c: State, d: State, i: nat, n: Node)
    requires i < |c.nodes| && d.hist == c.hist && d.nodes == c.nodes[i := n] && NodeFits(c, i, n)
    requires Grows(c, d) && ElectionsOk(c) && ElectionsOk(d)
    ensures NodeOk(d, i)
  {
    LogsFrame(c, d, n);
    forall t: nat, k: nat | OwnIndex(d.hist, t, k) && Acked(d.hist, i, t, k)
      ensures Kept(d.hist, n.log, n.term, t, k) && Kept(d.hist, DurableLog(n), n.disk.term, t, k)
    {
      assert Kept(c.hist, n.log, n.term, t, k) && Kept(c.hist, DurableLog(n), n.disk.term, t, k);
    }
    if n.role == Leader {
      forall p | 0 <= p < |d.nodes| && p != i ensures PeerOk(d, n, p) {
        assert PeerOk(c, n, p);
      }
    }
  }

  lemma VotesKept(c: State, i: nat)
    requires VotesOk(c) && i < |c.nodes|
    ensures KeepsVotes(c.hist, i, c.nodes[i])
  {
    var n := c.nodes[i];
    forall s, w | (i, s, w) in c.hist.granted
      ensures n.term > s || (n.term == s && n.vote == w)
      ensures n.disk.term > s || (n.disk.term == s && n.disk.vote == w)
    {
      assert VoteOk(c, i, s, w);
    }
  }

  /** A message that is in order may be added to the network. */
  lemma AddMessage(c: State, m: Message)
    requires Inv(c) && MsgOk(c, m)
    ensures Inv(c.(net := c.net + {m}))
  {
    var i := m.src;
    var n := c.nodes[i];
    var d := Update(c, i, n, {m});
    assert d.nodes == c.nodes;
    assert d == c.(net := c.net + {m});
    assert NodeOk(c, i);
    VotesKept(c, i);
    MsgSameNodes(c, d, m);
    SameHistory(c, i, n, {m});
  }

  lemma MsgSameNodes(c: State, d: State, m: Message)
    requires d.nodes == c.nodes && d.hist == c.hist && MsgOk(c, m)
    ensures MsgOk(d, m)
  {
    if m.AppendReq? && !(LeaderLog(c.hist, m.term)[..m.leaderCommit + 1] == [BOOTSTRAP]) {
      var p := LeaderLog(c.hist, m.term)[..m.leaderCommit + 1];
      var t: nat, i: nat :| t <= m.term && CommittedBy(c, p, t, i);
      assert CommittedBy(d, p, t, i);
    } else if m.SnapReq? && m.snapshot != [BOOTSTRAP] {
      var t: nat, i: nat :| t <= m.term && CommittedBy(c, m.snapshot, t, i);
      assert CommittedBy(d, m.snapshot, t, i);
    }
  }

  // ---------------------------------------------------------------- recording a confirmation

  /** A follower may confirm any index up to which it agrees with the leader of its term. */
  lemma Confirm(c: State, i: nat, t: nat, idx: nat)
    requires Inv(c) && i < |c.nodes| && t == c.nodes[i].term && t in c.hist.elections
    requires i != c.hist.elections[t].leader && AgreeTo(c.nodes[i].log, LeaderLog(c.hist, t), idx + 1)
    ensures Inv(c.(hist := Ack(c.hist, i, t, idx)))
  {
    var n := c.nodes[i];
    var d := c.(hist := Ack(c.hist, i, t, idx));
    assert NodeOk(c, i);
    DurableAgrees(c, i, n, idx + 1);
    assert StepOf(c, d, i);
    forall s | s in d.hist.elections ensures ElectionOk(d, s) {
      assert ElectionOk(c, s);
      ElectionFrame(c, d, s);
    }
    assert (i, t) in c.hist.acked ==> AckOk(c, i, t);
    ConfirmFits(c, d, i, t, idx);
    VotesKept(c, i);
    StepKeepsInv(c, d, i);
  }

  lemma ConfirmFits(c: State, d: State, i: nat, t: nat, idx: nat)
    requires Inv(c) && i < |c.nodes| && t == c.nodes[i].term && t in c.hist.elections && i != c.hist.elections[t].leader
    requires d == c.(hist := Ack(c.hist, i, t, idx)) && ElectionsOk(d) && Grows(c, d)
    requires AgreeTo(c.nodes[i].log, LeaderLog(c.hist, t), idx + 1) && AgreeTo(DurableLog(c.nodes[i]), LeaderLog(c.hist, t), idx + 1)
    ensures NodeFits(d, i, c.nodes[i])
  {
    var n := c.nodes[i];
    assert NodeOk(c, i);
    LogsFrame(c, d, n);
    DiskFrame(c, d, n);
    ConfirmKeeps(c, d, i, n.log, n.term, t, idx);
    ConfirmKeeps(c, d, i, DurableLog(n), n.disk.term, t, idx);
  }

  lemma ConfirmKeeps(c: State, d: State, i: nat, log: Log, x: nat, t: nat, idx: nat)
    requires ElectionsOk(c) && ElectionsOk(d) && Grows(c, d) && t in c.hist.elections
    requires d.hist == Ack(c.hist, i, t, idx) && KeepsAcks(c, i, log, x)
    requires AgreeTo(log, LeaderLog(c.hist, t), idx + 1)
    ensures KeepsAcks(d, i, log, x)
  {
    forall s: nat, k: nat | OwnIndex(d.hist, s, k) && Acked(d.hist, i, s, k) ensures Kept(d.hist, log, x, s, k) {
      if Acked(c.hist, i, s, k) {
        assert Kept(c.hist, log, x, s, k);
        KeptGrows(c, d, log, x, x, s, k);
      } else {
        AgreeToLess(log, LeaderLog(c.hist, t), idx + 1, k + 1);
      }
    }
  }

  // ---------------------------------------------------------------- memory and disk separately

  /** What is asked of a node's memory alone. */
  ghost predicate MemoryFits(c: State, i: nat, n: Node) {
    && GoodLog(c.hist, n.log, n.term) && GoodLog(c.hist, n.saved, n.term)
    && n.snap <= n.commit < |n.log|
    && Committed(c, n.log[..n.commit + 1], n.term) && Committed(c, n.saved, n.term)
    && RoleOk(c, i, n) && KeepsAcks(c, i, n.log, n.term)
    && (n.role == Leader ==>
          forall p {:trigger PeerOk(c, n, p)} :: 0 <= p < |c.nodes| && p != i ==> PeerOk(c, n, p))
  }

  lemma GoodLogBound(h: History, log: Log, x: nat, y: nat)
    requires GoodLog(h, log, x) && x <= y
    ensures GoodLog(h, log, y)
  {
    forall k | 0 < k < |log| ensures GoodAt(h, log, y, k) {
      assert GoodAt(h, log, x, k);
    }
  }

  lemma GoodPrefix(h: History, log: Log, x: nat, p: Log, y: nat)
    requires GoodLog(h, log, x) && p <= log && |p| > 0 && x <= y
    ensures GoodLog(h, p, y)
  {
    forall k | 0 < k < |p| ensures GoodAt(h, p, y, k) {
      assert GoodAt(h, log, x, k);
      assert p[..k + 1] == log[..k + 1];
    }
  }

  lemma CommittedPrefix(c: State, p: Log, x: nat, q: Log, y: nat)
    requires Committed(c, p, x) && q <= p && |q| > 0 && x <= y
    ensures Committed(c, q, y)
  {
    if p != [BOOTSTRAP] {
      var t: nat, i: nat :| t <= x && CommittedBy(c, p, t, i);
      assert CommittedBy(c, q, t, i);
    }
  }

  lemma KeepsAcksMore(c: State, v: nat, log: Log, x: nat, more: Log, y: nat)
    requires KeepsAcks(c, v, log, x) && log <= more && x <= y
    ensures KeepsAcks(c, v, more, y)
  {
    forall t: nat, i: nat | OwnIndex(c.hist, t, i) && Acked(c.hist, v, t, i) ensures Kept(c.hist, more, y, t, i) {
      assert Kept(c.hist, log, x, t, i);
    }
  }

  /** Peer progress does not depend on a leader's vote, log or disk fields. */
  lemma PeersSame(c: State, i: nat, n: Node, n': Node)
    requires n.term == n'.term && n.next == n'.next && n.matched == n'.matched && n.snap <= n'.snap
    requires n.term in c.hist.elections
    requires forall p {:trigger PeerOk(c, n, p)} :: 0 <= p < |c.nodes| && p != i ==> PeerOk(c, n, p)
    ensures forall p {:trigger PeerOk(c, n', p)} :: 0 <= p < |c.nodes| && p != i ==> PeerOk(c, n', p)
  {
    forall p | 0 <= p < |c.nodes| && p != i ensures PeerOk(c, n', p) {
      assert PeerOk(c, n, p);
      ProbeMore(c, p, n.term, Max(Get(n.next, p), n.snap), Max(Get(n.next, p), n'.snap));
    }
  }

  lemma ProbeMore(c: State, p: nat, t: nat, q: nat, r: nat)
    requires p < |c.nodes| && t in c.hist.elections && Probe(c, p, t, q) && q <= r
    ensures Probe(c, p, t, r)
  {
    if c.nodes[p].term == t && AgreeTo(c.nodes[p].log, LeaderLog(c.hist, t), r + 1) {
      AgreeToLess(c.nodes[p].log, LeaderLog(c.hist, t), r + 1, q + 1);
    }
  }

  /** A disk holding the node's own log, under any hard state at least as new, is in order. */
  lemma DiskSaved(c: State, i: nat, n: Node, k: Disk)
    requires ElectionsOk(c) && VotesOk(c) && MemoryFits(c, i, n)
    requires k.log == n.log && k.term >= n.term && k.commit < |k.log|
    requires Committed(c, k.log[..k.commit + 1], k.term)
    ensures NodeFits(c, i, n.(disk := k))
  {
    var n' := n.(disk := k);
    KeepsAcksMore(c, i, n.log, n.term, n.log, k.term);
    CommittedPrefix(c, n.saved, n.term, n.saved, k.term);
    KeepsAcksRestore(c, i, n.log, n.term, n.saved, n.term, k.term);
    if n.role == Leader {
      PeersSame(c, i, n, n');
    }
  }

  /** A node that saves its own state is in order. */
  lemma SelfSaved(c: State, i: nat, n: Node)
    requires ElectionsOk(c) && VotesOk(c) && MemoryFits(c, i, n)
    ensures NodeFits(c, i, n.(disk := DiskOf(n)))
  {
    DiskSaved(c, i, n, DiskOf(n));
  }
}
