/** What stays true of the untouched parts of the cluster when one node takes a step. */
module Frame {
  import opened RaftLog
  import opened Protocol
  import opened Cluster
  import opened Invariant

  predicate ElectionGrows(a: Election, b: Election) {
    a.leader == b.leader && a.voters == b.voters && a.initLen == b.initLen && a.log <= b.log
  }

  ghost predicate Grows(c: State, d: State) {
    && |d.nodes| == |c.nodes|
    && c.hist.granted <= d.hist.granted
    && (forall k :: k in c.hist.candidacies ==>
          k in d.hist.candidacies && d.hist.candidacies[k] == c.hist.candidacies[k])
    && (forall k :: k in c.hist.acked ==> k in d.hist.acked && c.hist.acked[k] <= d.hist.acked[k])
    && (forall t :: t in c.hist.elections ==>
          t in d.hist.elections && ElectionGrows(c.hist.elections[t], d.hist.elections[t]))
    && (forall j :: 0 <= j < |c.nodes| ==> c.nodes[j].term <= d.nodes[j].term)
  }

  /** How the log of the stepping node may change, as its peers see it. */
  predicate Evolves(c: State, d: State, i: nat)
    requires i < |c.nodes| == |d.nodes|
  {
    var n, n' := c.nodes[i], d.nodes[i];
    n'.term in c.hist.elections && n'.term in d.hist.elections ==>
      if n'.term == n.term then n'.log == n.log || n'.log <= LeaderLog(d.hist, n'.term)
      else forall k :: 0 <= k < |n'.log| ==> n'.log[k].term < n'.term
  }

  /** Only node i moved; only its own term's log grew; only it confirmed something, in its current term. */
  ghost predicate StepOf(c: State, d: State, i: nat) {
    && i < |c.nodes| && Grows(c, d) && Evolves(c, d, i)
    && (forall j :: 0 <= j < |c.nodes| && j != i ==> d.nodes[j] == c.nodes[j])
    && (forall t :: t in d.hist.elections && t !in c.hist.elections ==>
          d.hist.elections[t].initLen == |d.hist.elections[t].log|)
    && (forall t :: t in c.hist.elections && t in d.hist.elections && d.hist.elections[t] != c.hist.elections[t] ==>
          t == c.nodes[i].term && c.hist.elections[t].leader == i)
    && (forall v: nat, t: nat :: NewAck(c, d, v, t) ==> v == i && t == d.nodes[i].term)
  }

  predicate NewAck(c: State, d: State, v: nat, t: nat) {
    (v, t) in d.hist.acked && ((v, t) in c.hist.acked ==> d.hist.acked[(v, t)] != c.hist.acked[(v, t)])
  }

  // ---------------------------------------------------------------- stability of single facts

  lemma GoodLogGrows(c: State, d: State, log: Log, x: nat, y: nat)
    requires Grows(c, d) && GoodLog(c.hist, log, x) && x <= y
    ensures GoodLog(d.hist, log, y)
  {
    forall k | 0 < k < |log| ensures GoodAt(d.hist, log, y, k) {
      assert GoodAt(c.hist, log, x, k);
    }
  }

  lemma ContainsGrows(c: State, d: State, s: nat, t: nat, i: nat)
    requires Grows(c, d) && ElectionsOk(c) && ElectionsOk(d)
    requires OwnIndex(c.hist, t, i) && s in c.hist.elections && t < s
    ensures OwnIndex(d.hist, t, i)
    ensures Contains(c.hist, s, t, i) == Contains(d.hist, s, t, i)
  {
    assert ElectionOk(c, t) && ElectionOk(c, s) && ElectionOk(d, s);
    assert LeaderLog(d.hist, t)[..i + 1] == LeaderLog(c.hist, t)[..i + 1];
    if Contains(d.hist, s, t, i) {
      assert LeaderLog(d.hist, s)[i] == LeaderLog(c.hist, t)[..i + 1][i];
    }
  }

  lemma SupersededGrows(c: State, d: State, x: nat, y: nat, t: nat, i: nat)
    requires Grows(c, d) && ElectionsOk(c) && ElectionsOk(d) && x <= y
    requires OwnIndex(c.hist, t, i) && Superseded(c.hist, x, t, i)
    ensures OwnIndex(d.hist, t, i) && Superseded(d.hist, y, t, i)
  {
    var s :| t < s <= x && s in c.hist.elections && !Contains(c.hist, s, t, i);
    ContainsGrows(c, d, s, t, i);
  }

  lemma KeptGrows(c: State, d: State, log: Log, x: nat, y: nat, t: nat, i: nat)
    requires Grows(c, d) && ElectionsOk(c) && ElectionsOk(d) && x <= y
    requires OwnIndex(c.hist, t, i) && Kept(c.hist, log, x, t, i)
    ensures OwnIndex(d.hist, t, i) && Kept(d.hist, log, y, t, i)
  {
    assert LeaderLog(d.hist, t)[..i + 1] == LeaderLog(c.hist, t)[..i + 1];
    if Superseded(c.hist, x, t, i) {
      SupersededGrows(c, d, x, y, t, i);
    }
  }

  lemma ChosenGrows(c: State, d: State, t: nat, i: nat)
    requires Grows(c, d) && Chosen(c, t, i)
    ensures Chosen(d, t, i)
  {
    assert Ackers(c, t, i) <= Ackers(d, t, i);
    SubsetSize(Ackers(c, t, i), Ackers(d, t, i));
  }

  lemma CommittedGrows(c: State, d: State, p: Log, x: nat, y: nat)
    requires Grows(c, d) && Committed(c, p, x) && x <= y
    ensures Committed(d, p, y)
  {
    if p != [BOOTSTRAP] {
      var t: nat, i: nat :| t <= x && CommittedBy(c, p, t, i);
      ChosenGrows(c, d, t, i);
      assert CommittedBy(d, p, t, i);
    }
  }

  /** A leader's new record is of its own term, so it cannot extend an agreement with an older log. */
  lemma DivergenceGrows(c: State, d: State, log: Log, x: nat, t: nat, q: nat)
    requires Grows(c, d) && GoodLog(c.hist, log, x) && t in c.hist.elections && ElectionOk(c, t) && ElectionOk(d, t)
    requires !AgreeTo(log, LeaderLog(c.hist, t), q)
    ensures !AgreeTo(log, LeaderLog(d.hist, t), q)
  {
    var k := |LeaderLog(c.hist, t)|;
    if k < q <= |LeaderLog(d.hist, t)| && q <= |log| && log[k] == LeaderLog(d.hist, t)[k] {
      GoodLogHasTerm(c.hist, log, x, k, t);
    }
    assert q <= k ==> LeaderLog(d.hist, t)[..q] == LeaderLog(c.hist, t)[..q];
  }

  lemma ProbeGrows(c: State, d: State, i: nat, p: nat, t: nat, q: nat)
    requires StepOf(c, d, i) && ElectionsOk(c) && ElectionsOk(d)
    requires p < |c.nodes| && t in c.hist.elections && GoodLog(c.hist, c.nodes[p].log, c.nodes[p].term)
    requires Probe(c, p, t, q)
    ensures Probe(d, p, t, q)
  {
    assert ElectionOk(c, t) && ElectionOk(d, t);
    var n, n' := c.nodes[p], d.nodes[p];
    if n'.term == t {
      if n.term == t {
        if n.log == n'.log && !(n.log <= LeaderLog(c.hist, t)) {
          DivergenceGrows(c, d, n.log, n.term, t, q + 1);
        }
      } else {
        var k := InitLen(c.hist, t);
        assert AgreeTo(n'.log, LeaderLog(d.hist, t), q + 1) ==>
            n'.log[..q + 1][k] == LeaderLog(d.hist, t)[..q + 1][k];
      }
    }
  }

  // ---------------------------------------------------------------- frames for the parts of the invariant

  lemma ElectionFrame(c: State, d: State, t: nat)
    requires Grows(c, d) && t in c.hist.elections && ElectionOk(c, t)
    requires d.hist.elections[t] == c.hist.elections[t]
    ensures ElectionOk(d, t)
  {
    GoodLogGrows(c, d, c.hist.elections[t].log, t, t);
  }

  lemma AckFrame(c: State, d: State, i: nat, v: nat, t: nat)
    requires StepOf(c, d, i) && AcksOk(c) && (v, t) in c.hist.acked && d.hist.acked[(v, t)] == c.hist.acked[(v, t)]
    ensures AckOk(d, v, t)
  {
    assert AckOk(c, v, t);
  }

  /** An acknowledgement another node can be held to after the step was one before it. */
  lemma OldAck(c: State, d: State, i: nat, v: nat, t: nat, k: nat)
    requires StepOf(c, d, i) && AcksOk(c) && OwnIndex(d.hist, t, k) && Acked(d.hist, v, t, k)
    ensures (OwnIndex(c.hist, t, k) && Acked(c.hist, v, t, k))
            || (v == i && (t == c.nodes[i].term || t == d.nodes[i].term))
  {
    if (v, t) in c.hist.acked {
      assert AckOk(c, v, t);
    }
    if NewAck(c, d, v, t) {
      assert v == i;
    }
  }

  lemma KeepsAcksFrame(c: State, d: State, i: nat, v: nat, log: Log, x: nat)
    requires StepOf(c, d, i) && ElectionsOk(c) && ElectionsOk(d) && AcksOk(c) && v != i
    requires KeepsAcks(c, v, log, x)
    ensures KeepsAcks(d, v, log, x)
  {
    forall t: nat, k: nat | OwnIndex(d.hist, t, k) && Acked(d.hist, v, t, k) ensures Kept(d.hist, log, x, t, k) {
      OldAck(c, d, i, v, t, k);
      KeptGrows(c, d, log, x, x, t, k);
    }
  }

  lemma VoteFrame(c: State, d: State, i: nat, v: nat, s: nat, w: nat)
    requires StepOf(c, d, i) && ElectionsOk(c) && ElectionsOk(d) && AcksOk(c) && VoteOk(c, v, s, w)
    requires d.nodes[v].term > s || (d.nodes[v].term == s && d.nodes[v].vote == w)
    requires d.nodes[v].disk.term > s || (d.nodes[v].disk.term == s && d.nodes[v].disk.vote == w)
    ensures VoteOk(d, v, s, w)
  {
    forall t: nat, k: nat | OwnIndex(d.hist, t, k) && t < s && Acked(d.hist, v, t, k)
      ensures VotedAfter(d.hist, v, s, w, t, k)
    {
      OldAck(c, d, i, v, t, k);
      assert VotedAfter(c.hist, v, s, w, t, k);
      if Superseded(c.hist, s - 1, t, k) {
        SupersededGrows(c, d, s - 1, s - 1, t, k);
      }
    }
  }

  lemma LogsFrame(c: State, d: State, n: Node)
    requires Grows(c, d) && LogsOk(c, n)
    ensures LogsOk(d, n)
  {
    GoodLogGrows(c, d, n.log, n.term, n.term);
    GoodLogGrows(c, d, n.saved, n.term, n.term);
    if !Leftover(n) {
      GoodLogGrows(c, d, n.disk.log, n.term, n.term);
    }
    CommittedGrows(c, d, n.log[..n.commit + 1], n.term, n.term);
    CommittedGrows(c, d, n.disk.log[..n.disk.commit + 1], n.disk.term, n.disk.term);
    CommittedGrows(c, d, n.saved, n.term, n.term);
  }

  lemma DiskFrame(c: State, d: State, n: Node)
    requires Grows(c, d) && ElectionsOk(c) && ElectionsOk(d) && GoodLog(c.hist, n.log, n.term) && DiskFollows(c.hist, n)
    ensures DiskFollows(d.hist, n)
  {
    if !Leftover(n) && DurableLog(n) != Restore(n.log, n.saved) {
      var t := n.term;
      assert ElectionOk(c, t) && ElectionOk(d, t);
      forall k: nat | AgreeTo(n.log, LeaderLog(d.hist, t), k) ensures k <= |DurableLog(n)| {
        if !AgreeTo(n.log, LeaderLog(c.hist, t), k) {
          DivergenceGrows(c, d, n.log, n.term, t, k);
        }
      }
    }
  }

  lemma NodeFrame(c: State, d: State, i: nat, j: nat)
    requires StepOf(c, d, i) && ElectionsOk(c) && ElectionsOk(d) && AcksOk(c) && NodesOk(c)
    requires j < |c.nodes| && j != i
    requires c.nodes[j].role == Candidate && c.nodes[j].term in d.hist.elections
             ==> d.hist.elections[c.nodes[j].term].leader != j
    ensures NodeOk(d, j)
  {
    var n := c.nodes[j];
    assert NodeOk(c, j);
    LogsFrame(c, d, n);
    DiskFrame(c, d, n);
    KeepsAcksFrame(c, d, i, j, n.log, n.term);
    KeepsAcksFrame(c, d, i, j, DurableLog(n), n.disk.term);
    if n.role == Leader {
      forall p | 0 <= p < |d.nodes| && p != j ensures PeerOk(d, n, p) {
        assert PeerOk(c, n, p) && NodeOk(c, p);
        ProbeGrows(c, d, i, p, n.term, Max(Get(n.next, p), n.snap));
      }
    }
  }

  lemma HintGrows(c: State, d: State, log: Log, x: nat, t: nat, m: Message)
    requires Grows(c, d) && GoodLog(c.hist, log, x) && t in c.hist.elections && ElectionOk(c, t) && ElectionOk(d, t)
    requires m.AppendResp? && HintFrom(log, LeaderLog(c.hist, t), m)
    ensures HintFrom(log, LeaderLog(d.hist, t), m)
  {
    if m.conflictTerm != 0 {
      var k :| 0 < m.conflictIndex <= k < |log| && log[m.conflictIndex].term == log[k].term == m.conflictTerm
               && !AgreeTo(log, LeaderLog(c.hist, t), k + 1);
      DivergenceGrows(c, d, log, x, t, k + 1);
    }
  }

  lemma AppendReqFrame(c: State, d: State, i: nat, m: Message)
    requires StepOf(c, d, i) && ElectionsOk(c) && ElectionsOk(d)
    requires m.AppendReq? && m.dst < |c.nodes| && AppendReqOk(c, m)
    requires GoodLog(c.hist, c.nodes[m.dst].log, c.nodes[m.dst].term)
    ensures AppendReqOk(d, m)
  {
    var x, y := LeaderLog(c.hist, m.term), LeaderLog(d.hist, m.term);
    var from, to := m.prevIndex + 1, m.prevIndex + 1 + |m.entries|;
    assert y[..m.leaderCommit + 1] == x[..m.leaderCommit + 1];
    assert y[from..to] == x[from..to];
    CommittedGrows(c, d, x[..m.leaderCommit + 1], m.term, m.term);
    ProbeGrows(c, d, i, m.dst, m.term, m.prevIndex + 1);
  }

  lemma AppendRespFrame(c: State, d: State, i: nat, m: Message)
    requires StepOf(c, d, i) && ElectionsOk(c) && ElectionsOk(d)
    requires m.AppendResp? && m.src < |c.nodes| && AppendRespOk(c, m)
    requires GoodLog(c.hist, c.nodes[m.src].log, c.nodes[m.src].term)
    ensures AppendRespOk(d, m)
  {
    var n, t := c.nodes[m.src], m.reqTerm;
    assert ElectionOk(c, t) && ElectionOk(d, t);
    if !m.success && d.nodes[m.src].term == t && d.nodes[m.src].log == n.log && !(n.log <= LeaderLog(c.hist, t)) {
      HintGrows(c, d, n.log, n.term, t, m);
    }
  }

  lemma SnapRespFrame(c: State, d: State, i: nat, m: Message)
    requires StepOf(c, d, i) && ElectionsOk(c) && ElectionsOk(d)
    requires m.SnapResp? && m.src < |c.nodes| && SnapRespOk(c, m)
    requires GoodLog(c.hist, c.nodes[m.src].log, c.nodes[m.src].term)
    ensures SnapRespOk(d, m)
  {
    if !m.success {
      ProbeGrows(c, d, i, m.src, m.reqTerm, m.lastIndex + 1);
    }
  }

  lemma MsgFrame(c: State, d: State, i: nat, m: Message)
    requires StepOf(c, d, i) && ElectionsOk(c) && ElectionsOk(d) && NodesOk(c) && MsgOk(c, m)
    ensures MsgOk(d, m)
  {
    assert NodeOk(c, m.src) && NodeOk(c, m.dst);
    match m
    case VoteReq(_, _, _, _, _) =>
    case VoteResp(_, _, _, _, _) =>
    case AppendReq(_, _, _, _, _, _, _) => AppendReqFrame(c, d, i, m);
    case AppendResp(_, _, _, _, _, _, _, _, _) => AppendRespFrame(c, d, i, m);
    case SnapReq(_, _, t, snapshot) => CommittedGrows(c, d, snapshot, t, t);
    case SnapResp(_, _, _, _, _, _, _) => SnapRespFrame(c, d, i, m);
  }

  /** Votes given by node i bind its new memory and its new disk. */
  ghost predicate KeepsVotes(h: History, i: nat, n: Node) {
    && (forall s, w :: (i, s, w) in h.granted ==> n.term > s || (n.term == s && n.vote == w))
    && (forall s, w :: (i, s, w) in h.granted ==> n.disk.term > s || (n.disk.term == s && n.disk.vote == w))
  }

  /** If the stepping node and everything new are in order, so is the whole state. */
  lemma StepKeepsInv(c: State, d: State, i: nat)
    requires Inv(c) && StepOf(c, d, i) && ElectionsOk(d) && NodeOk(d, i)
    requires KeepsVotes(c.hist, i, d.nodes[i])
    requires OneVote(d.hist)
    requires forall v, s, w :: (v, s, w) in d.hist.granted && (v, s, w) !in c.hist.granted ==> VoteOk(d, v, s, w)
    requires forall t, j :: (t, j) in d.hist.candidacies && (t, j) !in c.hist.candidacies ==> CandidacyOk(d, t, j)
    requires forall v: nat, t: nat :: NewAck(c, d, v, t) ==> AckOk(d, v, t)
    requires forall t :: t in d.hist.elections && t !in c.hist.elections ==> d.hist.elections[t].leader == i
    requires forall m :: m in d.net && m !in c.net ==> MsgOk(d, m)
    ensures Inv(d)
  {
    forall v, s, w | (v, s, w) in d.hist.granted && (v, s, w) in c.hist.granted ensures VoteOk(d, v, s, w) {
      assert VoteOk(c, v, s, w);
      VoteFrame(c, d, i, v, s, w);
    }
    forall t, j | (t, j) in d.hist.candidacies && (t, j) in c.hist.candidacies ensures CandidacyOk(d, t, j) {
      assert CandidacyOk(c, t, j);
    }
    forall v, t | (v, t) in d.hist.acked ensures AckOk(d, v, t) {
      if !NewAck(c, d, v, t) {
        AckFrame(c, d, i, v, t);
      }
    }
    forall j | 0 <= j < |d.nodes| && j != i ensures NodeOk(d, j) {
      assert NodeOk(c, j);
      NodeFrame(c, d, i, j);
    }
    forall m | m in d.net && m in c.net ensures MsgOk(d, m) {
      MsgFrame(c, d, i, m);
    }
  }
}
