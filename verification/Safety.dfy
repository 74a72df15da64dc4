/**
  Safety over every run: any number of nodes, any interleaving of elections, appends, commits,
  snapshots, lost or delayed messages, failing persists and restarts, as long as a raised term
  always reaches the disk. Exactness shows that this one condition cannot be dropped;
  AllRuns proves what needs no condition, election safety and log matching.
 */
module Safety {
  import opened RaftLog
  import opened Protocol
  import opened Cluster
  import opened Invariant
  import opened Frame
  import opened StepBase
  import opened StepElect
  import opened StepLeader
  import opened StepFollow
  import opened StepSnapshot
  import opened StepRaise

  // ---------------------------------------------------------------- the invariant holds in every run

  ghost predicate AllTermsPersisted(steps: seq<Step>) {
    forall s :: s in steps ==> TermPersisted(s)
  }

  lemma InitInv(size: nat)
    ensures Inv(Init(size))
  {
    var c := Init(size);
    forall i | 0 <= i < |c.nodes| ensures NodeOk(c, i) {
      var n := c.nodes[i];
      assert n == InitNode();
      assert n.log[..1] == [BOOTSTRAP];
      assert DurableLog(n) == Restore(n.log, n.saved);
    }
  }

  lemma StepInv(c: State, s: Step)
    requires Inv(c) && TermPersisted(s)
    ensures Inv(Do(c, s))
  {
    if Enabled(c, s) {
      match s
      case Timeout(i, save) => TimeoutStep(c, i, save);
      case RecvVoteReq(m, raise, save) => VoteReqAny(c, m, raise, save);
      case RecvVoteResp(m, _) =>
        LikeOk(c, s);
        VoteRespStep(c, m);
      case Win(i) => WinStep(c, i);
      case Propose(i, command, save) => ProposeStep(c, i, command, save);
      case Send(i, p, newest) => SendStep(c, i, p, newest);
      case RecvAppendReq(m, raise, save, commitSave) => AppendReqAny(c, m, raise, save, commitSave);
      case RecvAppendResp(m, _, save) =>
        LikeOk(c, s);
        AppendRespStep(c, m, save);
      case Advance(i, save) => AdvanceStep(c, i, save);
      case SnapBegin(m, raise) => SnapBeginAny(c, m, raise);
      case SnapSave(m) => SnapSaveStep(c, m);
      case SnapInstall(m, save) => SnapInstallStep(c, m, save);
      case SnapFail(m) => SnapFailStep(c, m);
      case RecvSnapResp(m, _) =>
        LikeOk(c, s);
        SnapRespStep(c, m);
      case LocalSnapshot(i, k) => LocalSnapshotStep(c, i, k);
      case LocalCompact(i, k, save) => CompactStep(c, i, k, save);
      case Flush(i) => FlushStep(c, i);
      case Crash(i, resaved) => CrashStep(c, i, resaved);
    }
  }

  lemma {:induction false} RunInv(size: nat, steps: seq<Step>)
    requires AllTermsPersisted(steps)
    ensures Inv(Exec(size, steps))
  {
    if steps == [] {
      InitInv(size);
    } else {
      var front := steps[..|steps| - 1];
      RunInv(size, front);
      StepInv(Exec(size, front), steps[|steps| - 1]);
    }
  }

  // ---------------------------------------------------------------- the record only grows

  lemma SameNodes(c: State, s: Step)
    ensures |Do(c, s).nodes| == |c.nodes|
  {
  }

  lemma TermGrows(c: State, s: Step, j: nat)
    requires Inv(c) && TermPersisted(s) && j < |c.nodes|
    ensures j < |Do(c, s).nodes| && c.nodes[j].term <= Do(c, s).nodes[j].term
  {
    if Enabled(c, s) {
      match s
      case RecvAppendReq(m, raise, save, commitSave) => AppendTerm(c.nodes[m.dst], m, raise, save, commitSave);
      case SnapInstall(_, _) =>
      case Crash(i, _) => DiskTerm(c, i);
      case _ => OtherStepsSteady(c, s, j, j);
    }
  }

  lemma AppendTerm(n: Node, m: Message, raise: Outcome, save: Outcome, commitSave: Outcome)
    requires m.AppendReq?
    ensures n.term <= OnAppendEntries(n, m, raise, save, commitSave).0.term
  {
  }

  lemma DiskTerm(c: State, i: nat)
    requires NodesOk(c) && i < |c.nodes|
    ensures c.nodes[i].term <= c.nodes[i].disk.term
  {
    assert NodeOk(c, i);
  }

  lemma TermsGrow(c: State, s: Step)
    requires Inv(c) && TermPersisted(s)
    ensures |Do(c, s).nodes| == |c.nodes|
    ensures forall j :: 0 <= j < |c.nodes| ==> c.nodes[j].term <= Do(c, s).nodes[j].term
  {
    forall j | 0 <= j < |c.nodes| ensures j < |Do(c, s).nodes| && c.nodes[j].term <= Do(c, s).nodes[j].term {
      TermGrows(c, s, j);
    }
    SameNodes(c, s);
  }

  lemma ProposeGrows(c: State, i: nat, command: string, save: Outcome, t: nat)
    requires Inv(c) && Enabled(c, Propose(i, command, save)) && t in c.hist.elections
    ensures ElectionGrows(c.hist.elections[t], DoPropose(c, i, command, save).hist.elections[t])
  {
    assert NodeOk(c, i);
  }

  lemma CrashedLeaderLog(c: State, i: nat)
    requires Inv(c) && i < |c.nodes| && c.nodes[i].role == Leader && c.nodes[i].term in c.hist.elections
    ensures LeaderLog(c.hist, c.nodes[i].term) <= DurableLog(c.nodes[i])
  {
    if Leftover(c.nodes[i]) {
      assert NodeOk(c, i);
      LeftoverDurable(c, i, c.nodes[i]);
    } else {
      PlainLeader(c, i);
    }
  }

  lemma RestartGrows(c: State, i: nat, resaved: bool, t: nat)
    requires i < |c.nodes| && t in c.hist.elections
    requires c.nodes[i].role == Leader && c.nodes[i].term in c.hist.elections ==>
               LeaderLog(c.hist, c.nodes[i].term) <= DurableLog(c.nodes[i])
    ensures ElectionGrows(c.hist.elections[t], DoCrash(c, i, resaved).hist.elections[t])
  {
  }

  lemma CrashGrows(c: State, i: nat, resaved: bool, t: nat)
    requires Inv(c) && i < |c.nodes| && t in c.hist.elections
    ensures ElectionGrows(c.hist.elections[t], DoCrash(c, i, resaved).hist.elections[t])
  {
    if c.nodes[i].role == Leader && c.nodes[i].term in c.hist.elections {
      CrashedLeaderLog(c, i);
    }
    RestartGrows(c, i, resaved, t);
  }

  lemma ElectionsGrow(c: State, s: Step, t: nat)
    requires Inv(c) && TermPersisted(s) && t in c.hist.elections
    ensures t in Do(c, s).hist.elections && ElectionGrows(c.hist.elections[t], Do(c, s).hist.elections[t])
  {
    if Enabled(c, s) {
      match s
      case Win(i) => NotYetWon(c, i);
      case Propose(i, command, save) => ProposeGrows(c, i, command, save, t);
      case Crash(i, resaved) => CrashGrows(c, i, resaved, t);
      case _ =>
    }
  }

  lemma CandidaciesGrow(c: State, s: Step, k: (nat, nat))
    requires Inv(c) && TermPersisted(s) && k in c.hist.candidacies
    ensures k in Do(c, s).hist.candidacies && Do(c, s).hist.candidacies[k] == c.hist.candidacies[k]
  {
    assert CandidacyOk(c, k.0, k.1);
  }

  lemma VotesAndAcksGrow(c: State, s: Step)
    ensures c.hist.granted <= Do(c, s).hist.granted
    ensures forall k :: k in c.hist.acked ==> k in Do(c, s).hist.acked && c.hist.acked[k] <= Do(c, s).hist.acked[k]
  {
  }

  lemma WinnersGrow(c: State, s: Step)
    requires Inv(c) && TermPersisted(s)
    ensures forall t :: t in c.hist.elections ==>
              t in Do(c, s).hist.elections && ElectionGrows(c.hist.elections[t], Do(c, s).hist.elections[t])
  {
    forall t | t in c.hist.elections
      ensures t in Do(c, s).hist.elections && ElectionGrows(c.hist.elections[t], Do(c, s).hist.elections[t])
    {
      ElectionsGrow(c, s, t);
    }
  }

  lemma AllCandidaciesGrow(c: State, s: Step)
    requires Inv(c) && TermPersisted(s)
    ensures forall k :: k in c.hist.candidacies ==> k in Do(c, s).hist.candidacies && Do(c, s).hist.candidacies[k] == c.hist.candidacies[k]
  {
    forall k | k in c.hist.candidacies
      ensures k in Do(c, s).hist.candidacies && Do(c, s).hist.candidacies[k] == c.hist.candidacies[k]
    {
      CandidaciesGrow(c, s, k);
    }
  }

  lemma StepGrows(c: State, s: Step)
    requires Inv(c) && TermPersisted(s)
    ensures Grows(c, Do(c, s))
  {
    TermsGrow(c, s);
    WinnersGrow(c, s);
    AllCandidaciesGrow(c, s);
    VotesAndAcksGrow(c, s);
  }

  lemma GrowsTrans(a: State, b: State, c: State)
    requires Grows(a, b) && Grows(b, c)
    ensures Grows(a, c)
  {
  }

  /** The state after the first k steps of a run. */
  function At(size: nat, steps: seq<Step>, k: nat): State
    requires k <= |steps|
  {
    Exec(size, steps[..k])
  }

  lemma {:induction false} RunGrows(size: nat, steps: seq<Step>, a: nat, b: nat)
    requires AllTermsPersisted(steps) && a <= b <= |steps|
    ensures Inv(At(size, steps, a)) && Inv(At(size, steps, b)) && Grows(At(size, steps, a), At(size, steps, b))
    decreases b - a
  {
    RunInv(size, steps[..a]);
    RunInv(size, steps[..b]);
    if a < b {
      RunGrows(size, steps, a, b - 1);
      assert steps[..b][..b - 1] == steps[..b - 1];
      assert steps[b - 1] in steps;
      StepGrows(At(size, steps, b - 1), steps[b - 1]);
      GrowsTrans(At(size, steps, a), At(size, steps, b - 1), At(size, steps, b));
    }
  }

  // ---------------------------------------------------------------- the theorems

  lemma CommittedAt(c: State, i: nat)
    requires NodesOk(c) && i < |c.nodes|
    ensures var n := c.nodes[i]; n.commit < |n.log| && Committed(c, n.log[..n.commit + 1], n.term)
  {
    assert NodeOk(c, i);
  }

  lemma LeaderElected(c: State, j: nat)
    requires NodesOk(c) && j < |c.nodes| && c.nodes[j].role == Leader
    ensures c.nodes[j].term in c.hist.elections && LeaderLog(c.hist, c.nodes[j].term) == c.nodes[j].log
  {
    assert NodeOk(c, j);
  }

  lemma LeaderHolds(c: State, d: State, i: nat, j: nat, k: nat)
    requires NodesOk(c) && Inv(d) && Grows(c, d) && i < |c.nodes| && k <= c.nodes[i].commit
    requires j < |d.nodes| && d.nodes[j].role == Leader && c.nodes[i].term <= d.nodes[j].term
    ensures k < |c.nodes[i].log| && k < |d.nodes[j].log| && c.nodes[i].log[k] == d.nodes[j].log[k]
  {
    var n, leader := c.nodes[i], d.nodes[j];
    CommittedAt(c, i);
    LeaderElected(d, j);
    var done := n.log[..n.commit + 1];
    CommittedGrows(c, d, done, n.term, n.term);
    CommittedInLeader(d, done, n.term, leader.term);
    assert done[k] == n.log[k];
  }

  lemma CommittedSame(c: State, d: State, i: nat, j: nat, k: nat)
    requires NodesOk(c) && Inv(d) && Grows(c, d)
    requires i < |c.nodes| && k <= c.nodes[i].commit && j < |d.nodes| && k <= d.nodes[j].commit
    ensures k < |c.nodes[i].log| && k < |d.nodes[j].log| && c.nodes[i].log[k] == d.nodes[j].log[k]
  {
    var n, m := c.nodes[i], d.nodes[j];
    CommittedAt(c, i);
    CommittedAt(d, j);
    var p, q := n.log[..n.commit + 1], m.log[..m.commit + 1];
    CommittedGrows(c, d, p, n.term, n.term);
    if |p| <= |q| {
      CommittedComparable(d, p, n.term, q, m.term);
    } else {
      CommittedComparable(d, q, m.term, p, n.term);
    }
    assert p[k] == n.log[k] && q[k] == m.log[k];
  }

  /** Leaders of a newer term had the record already when they were elected, even if it was committed only later. */
  lemma LeaderHeld(c: State, d: State, i: nat, j: nat, k: nat)
    requires Inv(c) && Inv(d) && Grows(c, d) && i < |d.nodes| && k <= d.nodes[i].commit
    requires j < |c.nodes| && c.nodes[j].role == Leader && d.nodes[i].term < c.nodes[j].term
    ensures k < |d.nodes[i].log| && k < |c.nodes[j].log| && d.nodes[i].log[k] == c.nodes[j].log[k]
  {
    var n, t := d.nodes[i], c.nodes[j].term;
    CommittedAt(d, i);
    LeaderElected(c, j);
    var done := n.log[..n.commit + 1];
    CommittedInLeader(d, done, n.term, t);
    assert ElectionOk(d, t) && NodeOk(d, i);
    assert k > 0 ==> GoodAt(d.hist, n.log, n.term, k);
    assert done[k] == n.log[k] == LeaderLog(d.hist, t)[k];
    assert k < InitLen(d.hist, t) <= |LeaderLog(c.hist, t)| by {
      InitialInside(c, j);
    }
  }

  lemma InitialInside(c: State, j: nat)
    requires NodesOk(c) && ElectionsOk(c) && j < |c.nodes| && c.nodes[j].role == Leader
    ensures c.nodes[j].term in c.hist.elections && InitLen(c.hist, c.nodes[j].term) <= |c.nodes[j].log|
  {
    assert NodeOk(c, j) && ElectionOk(c, c.nodes[j].term);
  }

  /**
    What a node commits is in the log of every leader of a newer term, whichever came first, and of every later
    leader of its own term.
   */
  lemma LeaderCompleteness(size: nat, steps: seq<Step>, a: nat, b: nat, i: nat, j: nat, k: nat)
    requires AllTermsPersisted(steps) && a <= |steps| && b <= |steps|
    requires i < |At(size, steps, a).nodes| && k <= At(size, steps, a).nodes[i].commit
    requires j < |At(size, steps, b).nodes| && At(size, steps, b).nodes[j].role == Leader
    requires At(size, steps, a).nodes[i].term < At(size, steps, b).nodes[j].term
             || (At(size, steps, a).nodes[i].term == At(size, steps, b).nodes[j].term && a <= b)
    ensures k < |At(size, steps, a).nodes[i].log| && k < |At(size, steps, b).nodes[j].log|
    ensures At(size, steps, a).nodes[i].log[k] == At(size, steps, b).nodes[j].log[k]
  {
    if a <= b {
      RunGrows(size, steps, a, b);
      LeaderHolds(At(size, steps, a), At(size, steps, b), i, j, k);
    } else {
      RunGrows(size, steps, b, a);
      LeaderHeld(At(size, steps, b), At(size, steps, a), i, j, k);
    }
  }

  /** State machine safety: an index committed anywhere, at any time, names one record. */
  lemma StateMachineSafety(size: nat, steps: seq<Step>, a: nat, b: nat, i: nat, j: nat, k: nat)
    requires AllTermsPersisted(steps) && a <= b <= |steps|
    requires i < |At(size, steps, a).nodes| && k <= At(size, steps, a).nodes[i].commit
    requires j < |At(size, steps, b).nodes| && k <= At(size, steps, b).nodes[j].commit
    ensures k < |At(size, steps, a).nodes[i].log| && k < |At(size, steps, b).nodes[j].log|
    ensures At(size, steps, a).nodes[i].log[k] == At(size, steps, b).nodes[j].log[k]
  {
    RunGrows(size, steps, a, b);
    CommittedSame(At(size, steps, a), At(size, steps, b), i, j, k);
  }

  // ---------------------------------------------------------------- nothing committed is ever cut

  lemma MergeKeepsCommitted(c: State, m: Message)
    requires Inv(c) && Following(c, m) && PrevMatches(c.nodes[m.dst], m)
    ensures var n := c.nodes[m.dst]; AgreeTo(n.log, Merge(n.log, m.prevIndex + 1, m.entries), n.commit + 1)
  {
    var n := c.nodes[m.dst];
    CommitInside(c, m.dst);
    MergedLog(c, m);
    CommittedAgrees(c, m.dst);
    var end := m.prevIndex + 1 + |m.entries|;
    if end <= n.commit + 1 {
      AgreeToLess(n.log, LeaderLog(c.hist, m.term), n.commit + 1, end);
    }
  }

  lemma CommitInside(c: State, i: nat)
    requires NodesOk(c) && i < |c.nodes|
    ensures c.nodes[i].commit < |c.nodes[i].log|
  {
    assert NodeOk(c, i);
  }

  lemma AppendKeepsCommitted(c: State, m: Message, save: Outcome, commitSave: Outcome)
    requires Inv(c) && Enabled(c, RecvAppendReq(m, Ok, save, commitSave))
    ensures var n := c.nodes[m.dst]; AgreeTo(n.log, OnAppendEntries(n, m, Ok, save, commitSave).0.log, n.commit + 1)
  {
    var i, n := m.dst, c.nodes[m.dst];
    assert MsgOk(c, m);
    CommitInside(c, i);
    if m.term >= n.term {
      NotToLeader(c, i, m.src, m.term);
      FollowStep(c, i, m.term, m.src);
      var n1 := BecomeFollower(n, m.term, m.src, Ok);
      var c1 := Update(c, i, n1, {});
      if PrevMatches(n1, m) {
        assert MsgOk(c1, m);
        MergeKeepsCommitted(c1, m);
        AcceptedLog(n1, m, save, commitSave);
      }
    }
  }

  lemma AcceptedLog(n: Node, m: Message, save: Outcome, commitSave: Outcome)
    requires m.AppendReq? && PrevMatches(n, m)
    ensures var log := AcceptAppend(n, m, save, commitSave).0.log;
            log == n.log || log == Merge(n.log, m.prevIndex + 1, m.entries)
  {
  }

  lemma RestartKeepsCommitted(c: State, i: nat)
    requires Inv(c) && i < |c.nodes|
    ensures AgreeTo(c.nodes[i].log, DurableLog(c.nodes[i]), c.nodes[i].commit + 1)
  {
    var n := c.nodes[i];
    assert NodeOk(c, i);
    var done := n.log[..n.commit + 1];
    if Leftover(n) {
      LeftoverDurable(c, i, n);
    } else if DurableLog(n) == Restore(n.log, n.saved) {
      RestoreIs(c.hist, n.log, n.term, n.saved, n.term);
      SnapshotCovers(c, n, n.saved);
    } else {
      CommittedAgrees(c, i);
    }
  }

  /** A committed snapshot the log does not contain still contains the log's committed part. */
  lemma SnapshotCovers(c: State, n: Node, snapshot: Log)
    requires ElectionsOk(c) && VotesOk(c) && LogsOk(c, n) && Committed(c, snapshot, n.term)
    ensures snapshot <= n.log || AgreeTo(n.log, snapshot, n.commit + 1)
  {
    var done := n.log[..n.commit + 1];
    if |snapshot| <= |done| {
      CommittedComparable(c, snapshot, n.term, done, n.term);
    } else {
      CommittedComparable(c, done, n.term, snapshot, n.term);
    }
  }

  lemma InstallKeepsCommitted(c: State, m: Message, save: Outcome)
    requires Inv(c) && Enabled(c, SnapInstall(m, save))
    ensures var n := c.nodes[m.dst]; AgreeTo(n.log, SnapshotInstall(n, m, save).0.log, n.commit + 1)
  {
    var n := c.nodes[m.dst];
    assert MsgOk(c, m) && NodeOk(c, m.dst);
    InstalledMemory(c, m);
    SnapshotCovers(c, n, m.snapshot);
  }

  /** The log does not shrink, and a node that stays leader forgets no match index of a peer. */
  predicate Steady(me: nat, p: nat, n: Node, n': Node) {
    && n.log <= n'.log && n.term <= n'.term
    && (p != me && n.role == Leader && n'.role == Leader ==> Get(n.matched, p) <= Get(n'.matched, p))
  }

  lemma VoteReqSteady(c: State, m: Message, raise: Outcome, save: Outcome, p: nat)
    requires Delivered(c, m) && m.VoteReq?
    ensures Steady(m.dst, p, c.nodes[m.dst], DoVoteReq(c, m, raise, save).nodes[m.dst])
    ensures forall j :: 0 <= j < |c.nodes| && j != m.dst ==> DoVoteReq(c, m, raise, save).nodes[j] == c.nodes[j]
  {
  }

  lemma AppendRespSteady(n: Node, me: nat, size: nat, m: Message, raise: Outcome, save: Outcome, p: nat)
    requires m.AppendResp?
    ensures Steady(me, p, n, OnAppendResponse(n, me, size, m, raise, save))
  {
  }

  lemma SnapBeginSteady(c: State, m: Message, raise: Outcome, p: nat)
    requires Delivered(c, m) && m.SnapReq?
    ensures Steady(m.dst, p, c.nodes[m.dst], DoSnapBegin(c, m, raise).nodes[m.dst])
    ensures forall j :: 0 <= j < |c.nodes| && j != m.dst ==> DoSnapBegin(c, m, raise).nodes[j] == c.nodes[j]
  {
  }

  lemma SnapRespSteady(n: Node, me: nat, m: Message, raise: Outcome, p: nat)
    requires m.SnapResp?
    ensures Steady(me, p, n, OnSnapResponse(n, m, raise))
  {
  }

  lemma LocalSteady(c: State, s: Step, p: nat)
    requires Enabled(c, s)
    ensures s.Timeout? ==> Steady(s.i, p, c.nodes[s.i], DoTimeout(c, s.i, s.save).nodes[s.i])
    ensures s.Propose? ==> Steady(s.i, p, c.nodes[s.i], DoPropose(c, s.i, s.command, s.save).nodes[s.i])
    ensures s.Send? ==> DoSend(c, s.i, s.peer, s.newest).nodes == c.nodes
    ensures s.Win? ==> Steady(s.i, p, c.nodes[s.i], DoWin(c, s.i).nodes[s.i])
  {
  }

  predicate Local(s: Step) {
    s.Timeout? || s.Win? || s.Propose? || s.Send? || s.Advance? || s.LocalSnapshot? || s.LocalCompact? || s.Flush?
  }

  lemma LocalStepsSteady(c: State, s: Step, i: nat, p: nat)
    requires i < |c.nodes| && Enabled(c, s) && Local(s)
    ensures i < |Do(c, s).nodes| && Steady(i, p, c.nodes[i], Do(c, s).nodes[i])
  {
    LocalSteady(c, s, p);
  }

  lemma ReceivesSteady(c: State, s: Step, i: nat, p: nat)
    requires i < |c.nodes| && Enabled(c, s) && !Local(s) && !s.RecvAppendReq? && !s.SnapInstall? && !s.Crash?
    ensures i < |Do(c, s).nodes| && Steady(i, p, c.nodes[i], Do(c, s).nodes[i])
  {
    match s
    case RecvVoteReq(m, raise, save) => VoteReqSteady(c, m, raise, save, p);
    case RecvVoteResp(m, raise) =>
    case RecvAppendResp(m, raise, save) => AppendRespSteady(c.nodes[m.dst], m.dst, |c.nodes|, m, raise, save, p);
    case SnapBegin(m, raise) => SnapBeginSteady(c, m, raise, p);
    case SnapSave(_) =>
    case SnapFail(_) =>
    case RecvSnapResp(m, raise) => SnapRespSteady(c.nodes[m.dst], m.dst, m, raise, p);
  }

  /** Only appends, snapshots and restarts can shorten a log. */
  lemma OtherStepsSteady(c: State, s: Step, i: nat, p: nat)
    requires i < |c.nodes| && Enabled(c, s) && !s.RecvAppendReq? && !s.SnapInstall? && !s.Crash?
    ensures i < |Do(c, s).nodes| && Steady(i, p, c.nodes[i], Do(c, s).nodes[i])
  {
    if Local(s) {
      LocalStepsSteady(c, s, i, p);
    } else {
      ReceivesSteady(c, s, i, p);
    }
  }

  /** A raised term that is reported as failed leaves the log alone; otherwise the handler ends as if nothing had failed. */
  lemma AppendLogs(n: Node, m: Message, raise: Outcome, save: Outcome, commitSave: Outcome)
    requires m.AppendReq?
    ensures var log := OnAppendEntries(n, m, raise, save, commitSave).0.log;
            log == n.log || log == OnAppendEntries(n, m, Ok, save, commitSave).0.log
  {
  }

  lemma AnyAppendKeepsCommitted(c: State, m: Message, raise: Outcome, save: Outcome, commitSave: Outcome)
    requires Inv(c) && Enabled(c, RecvAppendReq(m, raise, save, commitSave)) && c.nodes[m.dst].commit < |c.nodes[m.dst].log|
    ensures var n := c.nodes[m.dst]; AgreeTo(n.log, OnAppendEntries(n, m, raise, save, commitSave).0.log, n.commit + 1)
  {
    AppendLogs(c.nodes[m.dst], m, raise, save, commitSave);
    AppendKeepsCommitted(c, m, save, commitSave);
  }

  /** Which log a step that can shorten logs leaves at node i. */
  lemma ShorteningShape(c: State, s: Step, i: nat)
    requires Enabled(c, s) && i < |c.nodes| && (s.RecvAppendReq? || s.SnapInstall? || s.Crash?)
    ensures i < |Do(c, s).nodes|
    ensures Do(c, s).nodes[i] == c.nodes[i]
            || (s.RecvAppendReq? && i == s.m.dst && Do(c, s).nodes[i] == OnAppendEntries(c.nodes[i], s.m, s.raise, s.save, s.commitSave).0)
            || (s.SnapInstall? && i == s.m.dst && Do(c, s).nodes[i] == SnapshotInstall(c.nodes[i], s.m, s.save).0)
            || (s.Crash? && i == s.i && Do(c, s).nodes[i] == Restart(c.nodes[i], s.resaved))
  {
  }

  lemma ShorteningKeepsCommitted(c: State, s: Step, i: nat)
    requires Inv(c) && Enabled(c, s) && (s.RecvAppendReq? || s.SnapInstall? || s.Crash?)
    requires i < |c.nodes| && c.nodes[i].commit < |c.nodes[i].log|
    ensures i < |Do(c, s).nodes| && AgreeTo(c.nodes[i].log, Do(c, s).nodes[i].log, c.nodes[i].commit + 1)
  {
    ShorteningShape(c, s, i);
    if s.RecvAppendReq? && s.m.dst == i {
      AnyAppendKeepsCommitted(c, s.m, s.raise, s.save, s.commitSave);
    } else if s.SnapInstall? && s.m.dst == i {
      InstallKeepsCommitted(c, s.m, s.save);
    } else if s.Crash? && s.i == i {
      RestartKeepsCommitted(c, i);
    }
  }

  lemma StepKeepsCommitted(c: State, s: Step, i: nat)
    requires Inv(c) && TermPersisted(s) && i < |c.nodes|
    ensures i < |Do(c, s).nodes| && AgreeTo(c.nodes[i].log, Do(c, s).nodes[i].log, c.nodes[i].commit + 1)
  {
    CommitInside(c, i);
    if Enabled(c, s) {
      if s.RecvAppendReq? || s.SnapInstall? || s.Crash? {
        ShorteningKeepsCommitted(c, s, i);
      } else {
        OtherStepsSteady(c, s, i, i);
      }
    }
  }

  /** No step of any node, a restart included, removes or changes a committed record. */
  lemma CommittedNeverCut(size: nat, steps: seq<Step>, s: Step, i: nat)
    requires AllTermsPersisted(steps) && TermPersisted(s) && i < |Exec(size, steps).nodes|
    ensures i < |Do(Exec(size, steps), s).nodes|
    ensures var n := Exec(size, steps).nodes[i];
            AgreeTo(n.log, Do(Exec(size, steps), s).nodes[i].log, n.commit + 1)
  {
    RunInv(size, steps);
    StepKeepsCommitted(Exec(size, steps), s, i);
  }

  // ---------------------------------------------------------------- progress and followers

  /** While a node stays leader of its term, no match index goes down. */
  lemma MatchIndexMonotone(c: State, s: Step, i: nat, p: nat)
    requires i < |c.nodes| && p != i && c.nodes[i].role == Leader
    requires i < |Do(c, s).nodes| && Do(c, s).nodes[i].role == Leader && Do(c, s).nodes[i].term == c.nodes[i].term
    ensures Get(c.nodes[i].matched, p) <= Get(Do(c, s).nodes[i].matched, p)
  {
    if Enabled(c, s) {
      match s
      case RecvAppendReq(m, raise, save, commitSave) => AppendFollows(c.nodes[m.dst], m, raise, save, commitSave);
      case SnapInstall(_, _) =>
      case Crash(_, _) =>
      case _ => OtherStepsSteady(c, s, i, p);
    }
  }

  lemma AppendFollows(n: Node, m: Message, raise: Outcome, save: Outcome, commitSave: Outcome)
    requires m.AppendReq?
    ensures var n' := OnAppendEntries(n, m, raise, save, commitSave).0; n' == n || n'.role == Follower
  {
  }

  /** In every reachable state a node's committed part is the log of its current term's leader. */
  lemma FollowerCommitsLeaderLog(size: nat, steps: seq<Step>, i: nat)
    requires AllTermsPersisted(steps) && i < |Exec(size, steps).nodes|
    requires Exec(size, steps).nodes[i].term in Exec(size, steps).hist.elections
    ensures var c := Exec(size, steps);
            AgreeTo(c.nodes[i].log, c.hist.elections[c.nodes[i].term].log, c.nodes[i].commit + 1)
  {
    RunInv(size, steps);
    var c := Exec(size, steps);
    assert Inv(c) && i < |c.nodes| && c.nodes[i].term in c.hist.elections;
    CommittedAgrees(c, i);
  }
}
