/** What reaches the disk, and what a restart makes of it. */
module Restarts {
  import opened RaftLog
  import opened Protocol
  import opened Cluster
  import opened AllRuns
  import opened Reactions
  import opened Safety

  /** A snapshot and a log of one cluster: the longer one is kept if the snapshot is its beginning, the snapshot otherwise. */
  lemma RestoreKeepsLonger(L: Logs, log: Log, snapshot: Log)
    requires Sound(L, log) && Sound(L, snapshot)
    ensures Restore(log, snapshot) == if snapshot <= log then log else snapshot
  {
    var k := |snapshot| - 1;
    if |snapshot| <= |log| && log[k].term == snapshot[k].term {
      SoundMatch(L, log, snapshot, k);
      assert snapshot == snapshot[..k + 1] == log[..k + 1];
      assert log == log[..k + 1] + log[k + 1..];
    }
  }

  /** The disk holds what the node remembers. */
  predicate Current(n: Node) { n.disk == Disk(n.term, n.vote, n.log, n.commit) }

  /** All persists of the step succeed; a restart that changes something writes it back. */
  predicate AllOk(s: Step) {
    match s
    case Timeout(_, save) => save == Ok
    case RecvVoteReq(_, raise, save) => raise == save == Ok
    case RecvVoteResp(_, raise) => raise == Ok
    case Propose(_, _, save) => save == Ok
    case RecvAppendReq(_, raise, save, commitSave) => raise == save == commitSave == Ok
    case RecvAppendResp(_, raise, save) => raise == save == Ok
    case Advance(_, save) => save == Ok
    case SnapBegin(_, raise) => raise == Ok
    case SnapInstall(_, save) => save == Ok
    case RecvSnapResp(_, raise) => raise == Ok
    case LocalCompact(_, _, save) => save == Ok
    case Crash(_, resaved) => resaved
    case _ => true
  }

  /** No handler forgets to persist a term, a vote, a record or a commit index. */
  lemma StaysCurrent(c: State, s: Step, i: nat)
    requires i < |c.nodes| && Current(c.nodes[i]) && AllOk(s)
    ensures i < |Do(c, s).nodes| && Current(Do(c, s).nodes[i])
  {
    if Delivers(s) {
      ReceiverCurrent(c, s, i);
    }
  }

  lemma ReceiverCurrent(c: State, s: Step, i: nat)
    requires i < |c.nodes| && Current(c.nodes[i]) && AllOk(s) && Delivers(s)
    ensures i < |Do(c, s).nodes| && Current(Do(c, s).nodes[i])
  {
    if Enabled(c, s) && s.RecvAppendReq? {
      AppendStaysCurrent(c.nodes[s.m.dst], s.m);
    } else if Enabled(c, s) && s.RecvAppendResp? {
      ResponseStaysCurrent(c.nodes[s.m.dst], s.m.dst, |c.nodes|, s.m);
    }
  }

  lemma AppendStaysCurrent(n: Node, m: Message)
    requires m.AppendReq?
    ensures Current(n) ==> Current(OnAppendEntries(n, m, Ok, Ok, Ok).0)
  {
    var n1 := BecomeFollower(n, m.term, m.src, Ok);
    if Current(n1) && PrevMatches(n1, m) {
      AcceptStaysCurrent(n1, m);
    }
  }

  lemma AcceptStaysCurrent(n: Node, m: Message)
    requires m.AppendReq? && PrevMatches(n, m) && Current(n)
    ensures Current(AcceptAppend(n, m, Ok, Ok).0)
  {
  }

  lemma ResponseStaysCurrent(n: Node, me: nat, size: nat, m: Message)
    requires m.AppendResp?
    ensures Current(n) ==> Current(OnAppendResponse(n, me, size, m, Ok, Ok))
  {
  }

  lemma {:induction false} AlwaysCurrent(size: nat, steps: seq<Step>, i: nat)
    requires (forall s :: s in steps ==> AllOk(s)) && i < |Exec(size, steps).nodes|
    ensures Current(Exec(size, steps).nodes[i])
    decreases |steps|
  {
    if steps != [] {
      var before := steps[..|steps| - 1];
      SameNodes(Exec(size, before), steps[|steps| - 1]);
      AlwaysCurrent(size, before, i);
      StaysCurrent(Exec(size, before), steps[|steps| - 1], i);
    } else {
      assert Init(size).nodes[i] == InitNode();
    }
  }

  /** What a restart finds, in every run: the disk's term, vote and log, or the newest snapshot where the log does not contain it. */
  lemma RestartRestores(size: nat, steps: seq<Step>, i: nat, resaved: bool)
    requires i < |Exec(size, steps).nodes|
    ensures var n, d := Exec(size, steps).nodes[i], Do(Exec(size, steps), Crash(i, resaved));
            && i < |d.nodes|
            && var n' := d.nodes[i];
            && n'.role == Follower && n'.leaderId == -1 && n'.votes == {} && n'.term == n.disk.term && n'.vote == n.disk.vote
            && n'.log == (if n.saved <= n.disk.log then n.disk.log else n.saved)
            && n'.snap == LastIndex(n.saved) && n'.commit == Max(Min(n.disk.commit, LastIndex(n.disk.log)), n'.snap)
  {
    var c := Exec(size, steps);
    var L := AnyRun(size, steps);
    assert NodeW(c.hist, L, |c.nodes|, i, c.nodes[i]);
    SettledSound(c.hist, L, |c.nodes|, i, c.nodes[i]);
    RestoreKeepsLonger(Settled(L, c.nodes[i]), c.nodes[i].disk.log, c.nodes[i].saved);
  }

  /** When every persist succeeded, a crash costs a node neither its term nor its vote, and no record its newest snapshot does not replace. */
  lemma RestartLosesNothing(size: nat, steps: seq<Step>, i: nat, resaved: bool)
    requires (forall s :: s in steps ==> AllOk(s)) && i < |Exec(size, steps).nodes|
    ensures var n, d := Exec(size, steps).nodes[i], Do(Exec(size, steps), Crash(i, resaved));
            && i < |d.nodes| && d.nodes[i].term == n.term && d.nodes[i].vote == n.vote
            && d.nodes[i].log == (if n.saved <= n.log then n.log else n.saved)
            && d.nodes[i].commit >= Min(n.commit, LastIndex(n.log))
  {
    AlwaysCurrent(size, steps, i);
    RestartRestores(size, steps, i, resaved);
  }

  /**
    An install above the marker makes the log the longer of the two, or the snapshot where they differ; it is answered with success
    if and only if its persist succeeded. This holds in every run.
   */
  lemma InstallKeepsLonger(size: nat, steps: seq<Step>, m: Message, save: Outcome)
    requires Enabled(Exec(size, steps), SnapInstall(m, save))
    ensures var n, d := Exec(size, steps).nodes[m.dst], Do(Exec(size, steps), SnapInstall(m, save));
            && m.dst < |d.nodes|
            && d.nodes[m.dst].log == (if LastIndex(m.snapshot) <= n.snap || m.snapshot <= n.log then n.log else m.snapshot)
            && d.net == Exec(size, steps).net +
                        {SnapResp(m.dst, m.src, m.term, m.term, save == Ok, LastIndex(d.nodes[m.dst].log), LastIndex(m.snapshot))}
  {
    var c := Exec(size, steps);
    var L := AnyRun(size, steps);
    assert NodeW(c.hist, L, |c.nodes|, m.dst, c.nodes[m.dst]) && MsgW(c.hist, L, m);
    RestoreKeepsLonger(L, c.nodes[m.dst].log, m.snapshot);
  }
}
