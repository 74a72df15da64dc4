/** What a leader believes about a peer is true of the peer's memory and of its disk. */
module MatchIndex {
  import opened RaftLog
  import opened Protocol
  import opened Cluster
  import opened Invariant
  import opened Frame
  import opened StepBase
  import opened StepElect
  import opened StepFollow
  import opened StepSnapshot
  import opened Safety

  /** While v is in term t, its log is the leader's up to the highest index it confirmed in t. */
  predicate AckAt(c: State, v: nat, t: nat)
    requires (v, t) in c.hist.acked
  {
    v < |c.nodes| && t in c.hist.elections
    && (c.nodes[v].term == t ==> AgreeTo(c.nodes[v].log, LeaderLog(c.hist, t), c.hist.acked[(v, t)] + 1))
  }

  ghost predicate AcksAt(c: State) {
    forall v, t {:trigger AckAt(c, v, t)} :: (v, t) in c.hist.acked ==> AckAt(c, v, t)
  }

  // ---------------------------------------------------------------- a node that stays in its term keeps what it shares with its leader

  /** n' still shares with the leader of n's term what n shared with it, up to k records. */
  predicate Keeps(n: Node, n': Node, leader: Log, k: nat) {
    AgreeTo(n.log, leader, k) ==> AgreeTo(n'.log, leader, k)
  }

  lemma MergeKeepsShared(c: State, m: Message, k: nat)
    requires Inv(c) && Following(c, m) && PrevMatches(c.nodes[m.dst], m)
    ensures var log, leader := c.nodes[m.dst].log, LeaderLog(c.hist, m.term);
            AgreeTo(log, leader, k) ==> AgreeTo(Merge(log, m.prevIndex + 1, m.entries), leader, k)
  {
    var log, leader, end := c.nodes[m.dst].log, LeaderLog(c.hist, m.term), m.prevIndex + 1 + |m.entries|;
    MergedLog(c, m);
    if AgreeTo(log, leader, k) && end <= k {
      AgreeToLess(log, leader, k, end);
    }
  }

  /** The state in which the sender is followed. */
  lemma Followed(c: State, m: Message)
    requires Inv(c) && Delivered(c, m) && m.AppendReq? && c.nodes[m.dst].term <= m.term
    ensures var c1 := Update(c, m.dst, BecomeFollower(c.nodes[m.dst], m.term, m.src, Ok), {});
            Inv(c1) && Following(c1, m)
  {
    assert MsgOk(c, m);
    NotToLeader(c, m.dst, m.src, m.term);
    FollowStep(c, m.dst, m.term, m.src);
    var c1 := Update(c, m.dst, BecomeFollower(c.nodes[m.dst], m.term, m.src, Ok), {});
    assert MsgOk(c1, m);
  }

  lemma HandledLog(n: Node, m: Message, save: Outcome, commitSave: Outcome)
    requires m.AppendReq?
    ensures var n1 := BecomeFollower(n, m.term, m.src, Ok);
            var log := OnAppendEntries(n, m, Ok, save, commitSave).0.log;
            log == n.log || (m.term >= n.term && PrevMatches(n1, m) && log == Merge(n.log, m.prevIndex + 1, m.entries))
  {
    var n1 := BecomeFollower(n, m.term, m.src, Ok);
    if m.term >= n.term && PrevMatches(n1, m) {
      AcceptedLog(n1, m, save, commitSave);
    }
  }

  lemma AppendKeepsShared(c: State, m: Message, raise: Outcome, save: Outcome, commitSave: Outcome, k: nat)
    requires Inv(c) && Enabled(c, RecvAppendReq(m, raise, save, commitSave)) && m.term in c.hist.elections
    requires OnAppendEntries(c.nodes[m.dst], m, raise, save, commitSave).0.term == c.nodes[m.dst].term
    ensures c.nodes[m.dst].term in c.hist.elections ==>
              Keeps(c.nodes[m.dst], OnAppendEntries(c.nodes[m.dst], m, raise, save, commitSave).0, LeaderLog(c.hist, c.nodes[m.dst].term), k)
  {
    var n := c.nodes[m.dst];
    AppendLogs(n, m, raise, save, commitSave);
    HandledLog(n, m, save, commitSave);
    AppendTermIs(n, m, raise, save, commitSave);
    if m.term == n.term && PrevMatches(BecomeFollower(n, m.term, m.src, Ok), m) {
      Followed(c, m);
      MergeKeepsShared(Update(c, m.dst, BecomeFollower(n, m.term, m.src, Ok), {}), m, k);
    }
  }

  lemma AppendTermIs(n: Node, m: Message, raise: Outcome, save: Outcome, commitSave: Outcome)
    requires m.AppendReq?
    ensures OnAppendEntries(n, m, raise, save, commitSave).0.term == Max(n.term, m.term)
  {
  }

  lemma InstallKeepsShared(c: State, m: Message, save: Outcome, k: nat)
    requires Inv(c) && Enabled(c, SnapInstall(m, save)) && m.term in c.hist.elections
    ensures Keeps(c.nodes[m.dst], SnapshotInstall(c.nodes[m.dst], m, save).0, LeaderLog(c.hist, m.term), k)
  {
    var n, leader := c.nodes[m.dst], LeaderLog(c.hist, m.term);
    assert MsgOk(c, m);
    InstalledMemory(c, m);
    if AgreeTo(n.log, leader, k) && !(m.snapshot <= n.log) {
      if |m.snapshot| <= k {
        AgreeToLess(n.log, leader, k, |m.snapshot|);
      }
      assert m.snapshot[..k] == leader[..k];
    }
  }

  lemma RestartKeepsShared(c: State, i: nat, k: nat)
    requires Inv(c) && i < |c.nodes| && c.nodes[i].term in c.hist.elections
    requires AgreeTo(c.nodes[i].log, LeaderLog(c.hist, c.nodes[i].term), k)
    ensures AgreeTo(DurableLog(c.nodes[i]), LeaderLog(c.hist, c.nodes[i].term), k)
  {
    assert NodeOk(c, i);
    DurableAgrees(c, i, c.nodes[i], k);
  }

  lemma SteadyKeeps(log: Log, log': Log, leader: Log, k: nat)
    requires log <= log' && AgreeTo(log, leader, k)
    ensures AgreeTo(log', leader, k)
  {
    assert log'[..k] == log[..k];
  }

  lemma ShorteningKeepsShared(c: State, s: Step, v: nat, k: nat)
    requires Inv(c) && Enabled(c, s) && v < |c.nodes| && (s.RecvAppendReq? || s.SnapInstall? || s.Crash?)
    requires c.nodes[v].term in c.hist.elections && AgreeTo(c.nodes[v].log, LeaderLog(c.hist, c.nodes[v].term), k)
    ensures v < |Do(c, s).nodes|
    ensures Do(c, s).nodes[v].term == c.nodes[v].term ==> AgreeTo(Do(c, s).nodes[v].log, LeaderLog(c.hist, c.nodes[v].term), k)
  {
    ShorteningShape(c, s, v);
    if s.RecvAppendReq? && v == s.m.dst {
      assert MsgOk(c, s.m);
      if OnAppendEntries(c.nodes[v], s.m, s.raise, s.save, s.commitSave).0.term == c.nodes[v].term {
        AppendKeepsShared(c, s.m, s.raise, s.save, s.commitSave, k);
      }
    } else if s.SnapInstall? && v == s.m.dst {
      assert MsgOk(c, s.m);
      InstallKeepsShared(c, s.m, s.save, k);
    } else if s.Crash? && v == s.i {
      RestartKeepsShared(c, v, k);
    }
  }

  lemma StepKeepsShared(c: State, s: Step, v: nat, k: nat)
    requires Inv(c) && TermPersisted(s) && v < |c.nodes| && c.nodes[v].term in c.hist.elections
    requires AgreeTo(c.nodes[v].log, LeaderLog(c.hist, c.nodes[v].term), k)
    ensures v < |Do(c, s).nodes|
    ensures Do(c, s).nodes[v].term == c.nodes[v].term ==> AgreeTo(Do(c, s).nodes[v].log, LeaderLog(c.hist, c.nodes[v].term), k)
  {
    if Enabled(c, s) {
      if s.RecvAppendReq? || s.SnapInstall? || s.Crash? {
        ShorteningKeepsShared(c, s, v, k);
      } else {
        OtherStepsSteady(c, s, v, v);
        SteadyKeeps(c.nodes[v].log, Do(c, s).nodes[v].log, LeaderLog(c.hist, c.nodes[v].term), k);
      }
    }
  }

  // ---------------------------------------------------------------- new confirmations

  /** The step from c to d confirms nothing, or index idx of node v in term t, up to which v has the leader's log. */
  predicate Confirms(c: State, d: State, v: nat, t: nat, idx: nat)
    requires t in c.hist.elections && v < |d.nodes|
  {
    d.hist.acked == c.hist.acked
    || (d.hist.acked == Ack(c.hist, v, t, idx).acked && AgreeTo(d.nodes[v].log, LeaderLog(c.hist, t), idx + 1))
  }

  lemma ConfirmedHolds(c: State, d: State, v: nat, t: nat, idx: nat, w: nat, s: nat)
    requires t in c.hist.elections && v < |d.nodes| && Confirms(c, d, v, t, idx) && NewAck(c, d, w, s)
    ensures w == v && s == t && AgreeTo(d.nodes[v].log, LeaderLog(c.hist, t), d.hist.acked[(v, t)] + 1)
  {
  }

  lemma AppendConfirms(c: State, m: Message, raise: Outcome, save: Outcome, commitSave: Outcome)
    requires Inv(c) && Enabled(c, RecvAppendReq(m, raise, save, commitSave)) && m.term in c.hist.elections
    ensures Confirms(c, DoAppendReq(c, m, raise, save, commitSave), m.dst, m.term, m.prevIndex + |m.entries|)
  {
    AppendShape(c, m, raise, save, commitSave);
    if c.nodes[m.dst].term <= m.term && PrevMatches(BecomeFollower(c.nodes[m.dst], m.term, m.src, Ok), m) {
      MergeShares(c, m);
    }
  }

  lemma MergeShares(c: State, m: Message)
    requires Inv(c) && Delivered(c, m) && m.AppendReq? && c.nodes[m.dst].term <= m.term && m.term in c.hist.elections
    requires PrevMatches(BecomeFollower(c.nodes[m.dst], m.term, m.src, Ok), m)
    ensures AgreeTo(Merge(c.nodes[m.dst].log, m.prevIndex + 1, m.entries), LeaderLog(c.hist, m.term), m.prevIndex + |m.entries| + 1)
  {
    Followed(c, m);
    MergedShape(Update(c, m.dst, BecomeFollower(c.nodes[m.dst], m.term, m.src, Ok), {}), m);
  }

  lemma AppendShape(c: State, m: Message, raise: Outcome, save: Outcome, commitSave: Outcome)
    requires Enabled(c, RecvAppendReq(m, raise, save, commitSave))
    ensures var n, d := c.nodes[m.dst], DoAppendReq(c, m, raise, save, commitSave);
            if OnAppendEntries(n, m, raise, save, commitSave).1.success then
              && m.term >= n.term && PrevMatches(BecomeFollower(n, m.term, m.src, Ok), m)
              && d.nodes[m.dst].log == Merge(n.log, m.prevIndex + 1, m.entries)
              && d.hist.acked == Ack(c.hist, m.dst, m.term, m.prevIndex + |m.entries|).acked
            else d.hist.acked == c.hist.acked
  {
    if OnAppendEntries(c.nodes[m.dst], m, raise, save, commitSave).1.success {
      SuccessIs(c.nodes[m.dst], m, raise, save, commitSave);
    }
  }

  lemma SuccessIs(n: Node, m: Message, raise: Outcome, save: Outcome, commitSave: Outcome)
    requires m.AppendReq? && OnAppendEntries(n, m, raise, save, commitSave).1.success
    ensures var (n', reply) := OnAppendEntries(n, m, raise, save, commitSave);
            && m.term >= n.term && PrevMatches(BecomeFollower(n, m.term, m.src, Ok), m)
            && n'.log == Merge(n.log, m.prevIndex + 1, m.entries) && reply.matchIndex == m.prevIndex + |m.entries|
  {
  }

  lemma BeginConfirms(c: State, m: Message, raise: Outcome)
    requires Inv(c) && Enabled(c, SnapBegin(m, raise)) && m.term in c.hist.elections && raise != Lost
    ensures Confirms(c, DoSnapBegin(c, m, raise), m.dst, m.term, LastIndex(m.snapshot))
  {
    BeginShape(c, m, raise);
    if c.nodes[m.dst].term <= m.term && LastIndex(m.snapshot) <= c.nodes[m.dst].snap {
      BeginShared(c, m);
    }
  }

  lemma BeginShape(c: State, m: Message, raise: Outcome)
    requires Enabled(c, SnapBegin(m, raise))
    ensures var n, d := c.nodes[m.dst], DoSnapBegin(c, m, raise);
            && d.nodes[m.dst].log == n.log
            && (d.hist.acked == c.hist.acked
                || (d.hist.acked == Ack(c.hist, m.dst, m.term, LastIndex(m.snapshot)).acked
                    && n.term <= m.term && LastIndex(m.snapshot) <= n.snap))
  {
  }

  lemma BeginShared(c: State, m: Message)
    requires Inv(c) && Delivered(c, m) && m.SnapReq? && m.term in c.hist.elections
    requires c.nodes[m.dst].term <= m.term && LastIndex(m.snapshot) <= c.nodes[m.dst].snap
    ensures AgreeTo(c.nodes[m.dst].log, LeaderLog(c.hist, m.term), LastIndex(m.snapshot) + 1)
  {
    assert MsgOk(c, m);
    NotToLeader(c, m.dst, m.src, m.term);
    FollowStep(c, m.dst, m.term, m.src);
    var c1 := Update(c, m.dst, BecomeFollower(c.nodes[m.dst], m.term, m.src, Ok), {});
    assert MsgOk(c1, m);
    OldNews(c1, m);
    assert c.nodes[m.dst].log[..|m.snapshot|] == LeaderLog(c.hist, m.term)[..|m.snapshot|];
  }

  lemma InstallConfirms(c: State, m: Message, save: Outcome)
    requires Inv(c) && Enabled(c, SnapInstall(m, save)) && m.term in c.hist.elections
    ensures Confirms(c, DoSnapInstall(c, m, save), m.dst, m.term, LastIndex(m.snapshot))
  {
    assert MsgOk(c, m);
    InstalledMemory(c, m);
    assert SnapshotInstall(c.nodes[m.dst], m, save).0.log[..|m.snapshot|] == LeaderLog(c.hist, m.term)[..|m.snapshot|];
  }

  predicate Confirming(s: Step) { s.RecvAppendReq? || s.SnapBegin? || s.SnapInstall? }

  lemma OthersConfirmNothing(c: State, s: Step)
    requires !Confirming(s)
    ensures Do(c, s).hist.acked == c.hist.acked
  {
  }

  /** Every newly confirmed index is one up to which the follower has the leader's log. */
  lemma NewAckHolds(c: State, s: Step, v: nat, t: nat)
    requires Inv(c) && TermPersisted(s) && (v, t) in Do(c, s).hist.acked && NewAck(c, Do(c, s), v, t)
    ensures t in c.hist.elections && v < |Do(c, s).nodes|
    ensures AgreeTo(Do(c, s).nodes[v].log, LeaderLog(c.hist, t), Do(c, s).hist.acked[(v, t)] + 1)
  {
    if !Confirming(s) {
      OthersConfirmNothing(c, s);
    }
    assert Confirming(s) && Enabled(c, s);
    var idx := StepConfirms(c, s);
    ConfirmedHolds(c, Do(c, s), s.m.dst, s.m.term, idx, v, t);
  }

  lemma StepConfirms(c: State, s: Step) returns (idx: nat)
    requires Inv(c) && TermPersisted(s) && Confirming(s) && Enabled(c, s)
    ensures s.m.term in c.hist.elections && s.m.dst < |Do(c, s).nodes| && Confirms(c, Do(c, s), s.m.dst, s.m.term, idx)
  {
    assert MsgOk(c, s.m);
    match s
    case RecvAppendReq(m, raise, save, commitSave) =>
      idx := m.prevIndex + |m.entries|;
      AppendConfirms(c, m, raise, save, commitSave);
    case SnapBegin(m, raise) =>
      idx := LastIndex(m.snapshot);
      BeginConfirms(c, m, raise);
    case SnapInstall(m, save) =>
      idx := LastIndex(m.snapshot);
      InstallConfirms(c, m, save);
  }

  // ---------------------------------------------------------------- over every run

  lemma OldAckHolds(c: State, s: Step, v: nat, t: nat)
    requires Inv(c) && AcksAt(c) && TermPersisted(s) && (v, t) in Do(c, s).hist.acked && !NewAck(c, Do(c, s), v, t)
    ensures AckAt(Do(c, s), v, t)
  {
    assert AckAt(c, v, t) && AckOk(c, v, t);
    StepGrows(c, s);
    if Do(c, s).nodes[v].term == t {
      StepKeepsShared(c, s, v, c.hist.acked[(v, t)] + 1);
    }
    AckStays(c, Do(c, s), v, t);
  }

  lemma AckStays(c: State, d: State, v: nat, t: nat)
    requires Grows(c, d) && (v, t) in c.hist.acked && (v, t) in d.hist.acked && c.hist.acked[(v, t)] == d.hist.acked[(v, t)]
    requires v < |d.nodes| && t in c.hist.elections
    requires d.nodes[v].term == t ==> AgreeTo(d.nodes[v].log, LeaderLog(c.hist, t), c.hist.acked[(v, t)] + 1)
    ensures AckAt(d, v, t)
  {
    if d.nodes[v].term == t {
      LongerLeader(d.nodes[v].log, LeaderLog(c.hist, t), LeaderLog(d.hist, t), c.hist.acked[(v, t)] + 1);
    }
  }

  lemma LongerLeader(log: Log, leader: Log, leader': Log, k: nat)
    requires AgreeTo(log, leader, k) && leader <= leader'
    ensures AgreeTo(log, leader', k)
  {
    assert leader'[..k] == leader[..k];
  }

  lemma NewAckAt(c: State, s: Step, v: nat, t: nat)
    requires Inv(c) && TermPersisted(s) && (v, t) in Do(c, s).hist.acked && NewAck(c, Do(c, s), v, t)
    ensures AckAt(Do(c, s), v, t)
  {
    StepGrows(c, s);
    NewAckHolds(c, s, v, t);
    AckGained(c, Do(c, s), v, t);
  }

  lemma AckGained(c: State, d: State, v: nat, t: nat)
    requires Grows(c, d) && (v, t) in d.hist.acked && v < |d.nodes| && t in c.hist.elections
    requires AgreeTo(d.nodes[v].log, LeaderLog(c.hist, t), d.hist.acked[(v, t)] + 1)
    ensures AckAt(d, v, t)
  {
    LongerLeader(d.nodes[v].log, LeaderLog(c.hist, t), LeaderLog(d.hist, t), d.hist.acked[(v, t)] + 1);
  }

  lemma StepAcks(c: State, s: Step)
    requires Inv(c) && AcksAt(c) && TermPersisted(s)
    ensures AcksAt(Do(c, s))
  {
    var d := Do(c, s);
    forall v, t | (v, t) in d.hist.acked ensures AckAt(d, v, t) {
      if NewAck(c, d, v, t) {
        NewAckAt(c, s, v, t);
      } else {
        OldAckHolds(c, s, v, t);
      }
    }
  }

  lemma {:induction false} RunAcks(size: nat, steps: seq<Step>)
    requires AllTermsPersisted(steps)
    ensures Inv(Exec(size, steps)) && AcksAt(Exec(size, steps))
  {
    RunInv(size, steps);
    if steps != [] {
      RunAcks(size, steps[..|steps| - 1]);
      StepAcks(Exec(size, steps[..|steps| - 1]), steps[|steps| - 1]);
    }
  }

  lemma MatchHolds(c: State, i: nat, p: nat)
    requires Inv(c) && AcksAt(c) && i < |c.nodes| && p < |c.nodes| && p != i && c.nodes[i].role == Leader
    requires Get(c.nodes[i].matched, p) > 0 && c.nodes[p].term <= c.nodes[i].term
    ensures c.nodes[p].term == c.nodes[i].term && AgreeTo(c.nodes[p].log, c.nodes[i].log, Get(c.nodes[i].matched, p) + 1)
    ensures AgreeTo(DurableLog(c.nodes[p]), c.nodes[i].log, Get(c.nodes[i].matched, p) + 1)
  {
    var n, q := c.nodes[i], c.nodes[p];
    assert NodeOk(c, i) && PeerOk(c, n, p);
    assert AckOk(c, p, n.term) && AckAt(c, p, n.term);
    AgreeToLess(q.log, n.log, c.hist.acked[(p, n.term)] + 1, Get(n.matched, p) + 1);
    RestartKeepsShared(c, p, Get(n.matched, p) + 1);
  }

  /**
    A match index is a fact: while the peer has not moved to a newer term, its log and what it would restart with
    both agree with the leader up to the match index, whatever the terms of those records.
   */
  lemma MatchIndexSound(size: nat, steps: seq<Step>, i: nat, p: nat)
    requires AllTermsPersisted(steps)
    requires i < |Exec(size, steps).nodes| && p < |Exec(size, steps).nodes| && p != i
    requires Exec(size, steps).nodes[i].role == Leader && Get(Exec(size, steps).nodes[i].matched, p) > 0
    requires Exec(size, steps).nodes[p].term <= Exec(size, steps).nodes[i].term
    ensures var n, q := Exec(size, steps).nodes[i], Exec(size, steps).nodes[p];
            var k := Get(n.matched, p) + 1;
            q.term == n.term && AgreeTo(q.log, n.log, k) && AgreeTo(DurableLog(q), n.log, k)
  {
    RunAcks(size, steps);
    MatchHolds(Exec(size, steps), i, p);
  }
}
