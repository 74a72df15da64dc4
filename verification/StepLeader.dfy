/** What a leader does keeps the invariant: appending, sending, handling replies, advancing the commit index. */
module StepLeader {
  import opened RaftLog
  import opened Protocol
  import opened Cluster
  import opened Invariant
  import opened Frame
  import opened StepBase

  // ---------------------------------------------------------------- appending

  lemma ProposeStep(c: State, i: nat, command: string, save: Outcome)
    requires Inv(c) && Enabled(c, Propose(i, command, save))
    ensures Inv(DoPropose(c, i, command, save))
  {
    assert NodeOk(c, i);
    if save == Ok {
      AppendSaved(c, i, command);
    } else {
      AppendFailed(c, i, command, save);
    }
  }

  lemma AppendFailed(c: State, i: nat, command: string, save: Outcome)
    requires Inv(c) && Enabled(c, Propose(i, command, save)) && save != Ok
    ensures Inv(DoPropose(c, i, command, save))
  {
    var n := c.nodes[i];
    var n' := AppendLocal(n, i, command, save);
    assert NodeOk(c, i);
    VotesKept(c, i);
    assert c.hist.elections[n.term := c.hist.elections[n.term].(log := n.log)] == c.hist.elections;
    assert DoPropose(c, i, command, save) == Update(c, i, n', {});
    FailedFits(c, i, command, save);
    SameHistory(c, i, n', {});
  }

  lemma FailedFits(c: State, i: nat, command: string, save: Outcome)
    requires Inv(c) && i < |c.nodes| && c.nodes[i].role == Leader && save != Ok
    ensures NodeFits(c, i, AppendLocal(c.nodes[i], i, command, save))
  {
    var n := c.nodes[i];
    var n' := AppendLocal(n, i, command, save);
    assert NodeOk(c, i);
    forall p | 0 <= p < |c.nodes| && p != i ensures PeerOk(c, n', p) {
      assert PeerOk(c, n, p);
    }
    if save == Published {
      assert Leftover(n');
      assert n'.disk.log[..n.commit + 1] == n.log[..n.commit + 1];
      CommittedPrefix(c, n.log[..n.commit + 1], n.term, n.log[..n.commit + 1], n'.disk.term);
      LeftoverDurable(c, i, n');
      KeepsAcksMore(c, i, n.log, n.term, n'.disk.log, n'.disk.term);
    } else {
      assert DurableLog(n') == DurableLog(n);
    }
  }

  /** The leader's log of its term grows by records of that term. */
  lemma LeaderLogGrows(c: State, d: State, i: nat, t: nat, log: Log)
    requires ElectionsOk(c) && Grows(c, d) && t in c.hist.elections && LeaderLog(c.hist, t) <= log
    requires d.hist.elections == c.hist.elections[t := c.hist.elections[t].(log := log)]
    requires forall k :: |LeaderLog(c.hist, t)| <= k < |log| ==> log[k].term == t
    ensures ElectionsOk(d)
  {
    forall s | s in d.hist.elections ensures ElectionOk(d, s) {
      assert ElectionOk(c, s);
      if s == t {
        var was := LeaderLog(c.hist, t);
        forall k | 0 < k < |log| ensures GoodAt(d.hist, log, t, k) {
          if k < |was| {
            assert GoodAt(c.hist, was, t, k);
            assert log[..k + 1] == was[..k + 1];
          }
        }
        assert log[..InitLen(c.hist, t)] == was[..InitLen(c.hist, t)];
      } else {
        ElectionFrame(c, d, s);
      }
    }
  }

  lemma OwnGrowthKeeps(c: State, d: State, i: nat, t: nat, log: Log, x: nat, more: Log, y: nat)
    requires ElectionsOk(c) && ElectionsOk(d) && Grows(c, d) && t in c.hist.elections && AcksOk(c)
    requires c.hist.elections[t].leader == i && d.hist.acked == c.hist.acked
    requires d.hist.elections == c.hist.elections[t := c.hist.elections[t].(log := more)]
    requires KeepsAcks(c, i, log, x) && log <= more && x <= y
    ensures KeepsAcks(d, i, more, y)
  {
    forall s: nat, k: nat | OwnIndex(d.hist, s, k) && Acked(d.hist, i, s, k) ensures Kept(d.hist, more, y, s, k) {
      if s != t {
        assert Kept(c.hist, log, x, s, k);
        KeptGrows(c, d, log, x, y, s, k);
      }
    }
  }

  lemma AppendSaved(c: State, i: nat, command: string)
    requires Inv(c) && Enabled(c, Propose(i, command, Ok))
    ensures Inv(DoPropose(c, i, command, Ok))
  {
    var n := c.nodes[i];
    var d := DoPropose(c, i, command, Ok);
    var n' := d.nodes[i];
    assert NodeOk(c, i);
    VotesKept(c, i);
    AppendShape(c, i, command);
    LeaderLogGrows(c, d, i, n.term, n'.log);
    OwnGrowthKeeps(c, d, i, n.term, n.log, n.term, n'.log, n.term);
    AppendedFits(c, d, i, command);
    StepKeepsInv(c, d, i);
  }

  lemma AppendShape(c: State, i: nat, command: string)
    requires i < |c.nodes| && c.nodes[i].term in c.hist.elections && c.hist.elections[c.nodes[i].term].leader == i
    requires LeaderLog(c.hist, c.nodes[i].term) == c.nodes[i].log
    ensures c.nodes[i].log <= DoPropose(c, i, command, Ok).nodes[i].log && StepOf(c, DoPropose(c, i, command, Ok), i)
  {
  }

  lemma AppendedPeers(c: State, d: State, i: nat, command: string)
    requires Inv(c) && Enabled(c, Propose(i, command, Ok)) && d == DoPropose(c, i, command, Ok) && StepOf(c, d, i)
    requires ElectionsOk(d) && c.nodes[i].term in d.hist.elections
    ensures forall p :: 0 <= p < |d.nodes| && p != i ==> PeerOk(d, d.nodes[i], p)
  {
    var n := c.nodes[i];
    assert NodeOk(c, i);
    forall p | 0 <= p < |d.nodes| && p != i ensures PeerOk(d, d.nodes[i], p) {
      assert PeerOk(c, n, p) && NodeOk(c, p);
      ProbeGrows(c, d, i, p, n.term, Max(Get(n.next, p), n.snap));
    }
  }

  lemma AppendedFits(c: State, d: State, i: nat, command: string)
    requires Inv(c) && Enabled(c, Propose(i, command, Ok)) && d == DoPropose(c, i, command, Ok)
    requires StepOf(c, d, i) && ElectionsOk(d) && KeepsAcks(d, i, d.nodes[i].log, d.nodes[i].term)
    ensures NodeOk(d, i)
  {
    AppendedLogs(c, d, i, command);
    assert NodeOk(c, i);
    AppendedPeers(c, d, i, command);
  }

  lemma AppendedLogs(c: State, d: State, i: nat, command: string)
    requires Inv(c) && Enabled(c, Propose(i, command, Ok)) && d == DoPropose(c, i, command, Ok)
    requires StepOf(c, d, i) && ElectionsOk(d)
    ensures LogsOk(d, d.nodes[i]) && DurableLog(d.nodes[i]) == d.nodes[i].log
  {
    var n, n' := c.nodes[i], d.nodes[i];
    assert NodeOk(c, i) && ElectionOk(d, n.term);
    SavedInLeader(c, n);
    assert n.log <= n'.log;
    LongerLogs(c, d, n, n');
  }

  lemma LongerLogs(c: State, d: State, n: Node, n': Node)
    requires Grows(c, d) && LogsOk(c, n) && n.log <= n'.log && GoodLog(d.hist, n'.log, n.term) && n.saved <= n'.log
    requires n'.term == n.term && n'.commit == n.commit && n'.snap == n.snap && n'.saved == n.saved && n'.disk == DiskOf(n')
    ensures LogsOk(d, n') && DurableLog(n') == n'.log
  {
    GoodLogGrows(c, d, n.saved, n.term, n.term);
    assert n'.log[..n.commit + 1] == n.log[..n.commit + 1];
    CommittedGrows(c, d, n.log[..n.commit + 1], n.term, n.term);
    CommittedGrows(c, d, n.saved, n.term, n.term);
    RestoreIs(d.hist, n'.log, n.term, n.saved, n.term);
  }

  // ---------------------------------------------------------------- sending

  lemma SendStep(c: State, i: nat, p: nat, newest: bool)
    requires Inv(c) && Enabled(c, Send(i, p, newest))
    ensures Inv(DoSend(c, i, p, newest))
  {
    var n := c.nodes[i];
    assert NodeOk(c, i);
    assert c.nodes[i := n] == c.nodes;
    if !NeedsSnapshot(n, p) {
      var m := BuildAppend(n, i, p);
      RequestOk(c, i, p);
      AddMessage(c, m);
    } else if n.snap != 0 {
      SnapshotOk(c, i, p, newest);
      AddMessage(c, SnapReq(i, p, n.term, if newest then n.saved else n.log[..n.snap + 1]));
    }
  }

  lemma SnapshotOk(c: State, i: nat, p: nat, newest: bool)
    requires ElectionsOk(c) && VotesOk(c) && i < |c.nodes| && p < |c.nodes| && p != i && c.nodes[i].role == Leader
    requires LogsOk(c, c.nodes[i]) && RoleOk(c, i, c.nodes[i])
    ensures var n := c.nodes[i]; MsgOk(c, SnapReq(i, p, n.term, if newest then n.saved else n.log[..n.snap + 1]))
  {
    var n := c.nodes[i];
    if newest {
      SavedInLeader(c, n);
    } else {
      CommittedPrefix(c, n.log[..n.commit + 1], n.term, n.log[..n.snap + 1], n.term);
    }
  }

  lemma RequestOk(c: State, i: nat, p: nat)
    requires i < |c.nodes| && p < |c.nodes| && p != i && NodeOk(c, i)
    requires c.nodes[i].role == Leader && !NeedsSnapshot(c.nodes[i], p)
    ensures MsgOk(c, BuildAppend(c.nodes[i], i, p))
  {
    var n := c.nodes[i];
    var m := BuildAppend(n, i, p);
    assert PeerOk(c, n, p);
    var next := Get(n.next, p);
    assert Max(next, n.snap) == next == m.prevIndex + 1;
    assert m.entries == n.log[next..next + |m.entries|];
  }

  // ---------------------------------------------------------------- progress from replies

  lemma ProgressStep(c: State, i: nat, next: map<nat, nat>, matched: map<nat, nat>)
    requires Inv(c) && i < |c.nodes| && c.nodes[i].role == Leader && c.nodes[i].term in c.hist.elections
    requires forall p :: 0 <= p < |c.nodes| && p != i ==> PeerOk(c, c.nodes[i].(next := next, matched := matched), p)
    ensures Inv(Update(c, i, c.nodes[i].(next := next, matched := matched), {}))
  {
    var n := c.nodes[i];
    var n' := n.(next := next, matched := matched);
    assert NodeOk(c, i);
    VotesKept(c, i);
    assert DurableLog(n') == DurableLog(n);
    assert NodeFits(c, i, n');
    SameHistory(c, i, n', {});
  }

  /** A confirmation raises what the leader knows of one peer. */
  lemma ConfirmedStep(c: State, i: nat, p: nat, idx: nat)
    requires Inv(c) && i < |c.nodes| && c.nodes[i].role == Leader && c.nodes[i].term in c.hist.elections
    requires p < |c.nodes| && p != i
    requires (p, c.nodes[i].term) in c.hist.acked && idx <= c.hist.acked[(p, c.nodes[i].term)]
    ensures var n := c.nodes[i];
            Inv(Update(c, i, n.(matched := n.matched[p := Max(Get(n.matched, p), idx)],
                                next := n.next[p := Max(Get(n.next, p), idx + 1)]), {}))
  {
    var n := c.nodes[i];
    var next, matched := n.next[p := Max(Get(n.next, p), idx + 1)], n.matched[p := Max(Get(n.matched, p), idx)];
    assert NodeOk(c, i);
    forall q | 0 <= q < |c.nodes| && q != i ensures PeerOk(c, n.(next := next, matched := matched), q) {
      assert PeerOk(c, n, q);
      ProbeMore(c, q, n.term, Max(Get(n.next, q), n.snap), Max(Get(next, q), n.snap));
    }
    ProgressStep(c, i, next, matched);
  }

  /** The hint of a rejected probe never takes the next index below the first divergence. */
  lemma HintDiverges(c: State, log: Log, x: nat, n: Node, m: Message)
    requires ElectionsOk(c) && GoodLog(c.hist, log, x) && GoodLog(c.hist, n.log, n.term)
    requires m.AppendResp? && HintFrom(log, n.log, m)
    ensures HintedNext(n, m) >= 1
    ensures !AgreeTo(log, n.log, Max(HintedNext(n, m), n.snap) + 1)
  {
    var hint := HintedNext(n, m);
    var q := Max(hint, n.snap);
    var ct, ci := m.conflictTerm, m.conflictIndex;
    if AgreeTo(log, n.log, q + 1) {
      assert n.log[..q + 1][q] == log[..q + 1][q];
      if ct != 0 {
        var k :| 0 < ci <= k < |log| && log[ci].term == log[k].term == ct && !AgreeTo(log, n.log, k + 1);
        assert q < k;
        GoodLogOrdered(c, log, x, q, k);
        var after := AfterLastOfTerm(n.log, n.snap, |n.log|, ct);
        if after != 0 {
          GoodLogOrdered(c, n.log, n.term, after - 1, q);
        } else {
          GoodLogOrdered(c, log, x, ci, q);
        }
      }
    }
  }

  lemma RejectedStep(c: State, i: nat, m: Message)
    requires Inv(c) && i < |c.nodes| && c.nodes[i].role == Leader && m.AppendResp? && MsgOk(c, m) && m.dst == i
    requires m.reqTerm == c.nodes[i].term && !m.success
    ensures var n := c.nodes[i];
            var hint := HintedNext(n, m);
            var was := Get(n.next, m.src);
            Inv(Update(c, i, n.(next := n.next[m.src := if hint > 0 then hint else if was > 1 then was - 1 else 1]), {}))
  {
    var n, p := c.nodes[i], m.src;
    var hint, was := HintedNext(n, m), Get(n.next, p);
    var next := n.next[p := if hint > 0 then hint else if was > 1 then was - 1 else 1];
    assert NodeOk(c, i);
    forall q | 0 <= q < |c.nodes| && q != i ensures PeerOk(c, n.(next := next), q) {
      assert PeerOk(c, n, q);
      if q == p {
        RejectedPeer(c, i, m);
      }
    }
    ProgressStep(c, i, next, n.matched);
  }

  lemma RejectedPeer(c: State, i: nat, m: Message)
    requires Inv(c) && i < |c.nodes| && c.nodes[i].role == Leader && m.AppendResp? && MsgOk(c, m) && m.dst == i
    requires m.reqTerm == c.nodes[i].term && !m.success
    ensures var n := c.nodes[i];
            var hint := HintedNext(n, m);
            var was := Get(n.next, m.src);
            n.term in c.hist.elections && m.src < |c.nodes| &&
            PeerOk(c, n.(next := n.next[m.src := if hint > 0 then hint else if was > 1 then was - 1 else 1]), m.src)
  {
    assert NodeOk(c, i) && PeerOk(c, c.nodes[i], m.src);
    RejectedProbe(c, i, m);
  }

  lemma RejectedProbe(c: State, i: nat, m: Message)
    requires Inv(c) && i < |c.nodes| && c.nodes[i].role == Leader && m.AppendResp? && MsgOk(c, m) && m.dst == i
    requires m.reqTerm == c.nodes[i].term && !m.success && c.nodes[i].term in c.hist.elections
    ensures var n := c.nodes[i];
            var hint, was := HintedNext(n, m), Get(n.next, m.src);
            Probe(c, m.src, n.term, Max(if hint > 0 then hint else if was > 1 then was - 1 else 1, n.snap))
  {
    var n, p := c.nodes[i], m.src;
    assert NodeOk(c, i) && NodeOk(c, p);
    if c.nodes[p].term == n.term && !(c.nodes[p].log <= n.log) {
      HintDiverges(c, c.nodes[p].log, c.nodes[p].term, n, m);
    }
  }

  // ---------------------------------------------------------------- committing

  /** Counting match indexes counts nodes that really hold the record. */
  lemma CountedIsChosen(c: State, i: nat, idx: nat)
    requires i < |c.nodes| && NodeOk(c, i) && ElectionsOk(c) && c.nodes[i].role == Leader
    requires 0 < idx < |c.nodes[i].log| && c.nodes[i].log[idx].term == c.nodes[i].term
    requires 1 + |Replicated(c.nodes[i], i, |c.nodes|, idx)| >= Quorum(|c.nodes|)
    ensures Chosen(c, c.nodes[i].term, idx)
  {
    var n := c.nodes[i];
    assert ElectionOk(c, n.term);
    var counted := Replicated(n, i, |c.nodes|, idx);
    forall p | p in counted ensures p in Ackers(c, n.term, idx) {
      assert PeerOk(c, n, p);
    }
    assert counted + {i} <= Ackers(c, n.term, idx);
    SubsetSize(counted + {i}, Ackers(c, n.term, idx));
  }

  lemma AdvanceStep(c: State, i: nat, save: Outcome)
    requires Inv(c) && i < |c.nodes|
    ensures Inv(Update(c, i, AdvanceCommit(c.nodes[i], i, |c.nodes|, save), {}))
  {
    var n := c.nodes[i];
    var n' := AdvanceCommit(n, i, |c.nodes|, save);
    assert NodeOk(c, i);
    if n' == n {
      assert c.nodes[i := n] == c.nodes;
      assert c.net + {} == c.net;
    } else {
      CountedIsChosen(c, i, n'.commit);
      assert n.log[..n'.commit + 1] <= n.log;
      assert CommittedBy(c, n.log[..n'.commit + 1], n.term, n'.commit);
      CommitStep(c, i, n'.commit, save);
    }
  }

  /** Raising the commit index to a committed prefix of the log. */
  lemma CommitStep(c: State, i: nat, k: nat, save: Outcome)
    requires Inv(c) && i < |c.nodes| && c.nodes[i].commit <= k < |c.nodes[i].log|
    requires Committed(c, c.nodes[i].log[..k + 1], c.nodes[i].term)
    ensures var n := c.nodes[i].(commit := k); Inv(Update(c, i, n.(disk := Persist(n, save)), {}))
  {
    var n := c.nodes[i];
    var n1 := n.(commit := k);
    var n' := n1.(disk := Persist(n1, save));
    assert NodeOk(c, i);
    VotesKept(c, i);
    if n.role == Leader {
      PeersSame(c, i, n, n1);
    }
    if save == Lost {
      assert DurableLog(n') == DurableLog(n);
      assert NodeFits(c, i, n');
    } else {
      SelfSaved(c, i, n1);
    }
    SameHistory(c, i, n', {});
  }
}
