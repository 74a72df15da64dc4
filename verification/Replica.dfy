/**
  The key-value maps of the whole cluster. Every node applies its committed records one by one, writes snapshots
  of its map, sends and installs snapshots, and rebuilds its map after a restart, all interleaved
  with the protocol steps of Cluster.
 */
module Replica {
  import opened Wrappers
  import opened RaftLog
  import opened Protocol
  import opened Cluster
  import opened Invariant
  import opened Frame
  import opened StepSnapshot
  import opened Safety
  import opened Command
  import opened KvStore

  // ---------------------------------------------------------------- replaying a log

  /** A state machine: the map after a command, or None when the command is refused. The theorems hold for any. */
  type Machine = (Kv, string) -> Option<Kv>

  /** The state machine of the source. */
  const EFFECT: Machine := (kv, data) => Effect(kv, data)

  /** The map after the commands of records 1 to k, from the empty map; None once a command is refused. */
  function Replay(f: Machine, log: Log, k: nat): Option<Kv> {
    if k == 0 then Some(map[])
    else if k >= |log| then None
    else
      var before := Replay(f, log, k - 1);
      if before.None? then None else f(before.value, log[k].command)
  }

  lemma {:induction false} ReplayPrefix(f: Machine, log: Log, c: nat, k: nat)
    requires k <= c && Replay(f, log, c).Some?
    ensures Replay(f, log, k).Some?
    decreases c
  {
    if k < c {
      ReplayPrefix(f, log, c - 1, k);
    }
  }

  /** Only the records replayed matter. */
  lemma {:induction false} ReplayAgrees(f: Machine, a: Log, b: Log, k: nat)
    requires AgreeTo(a, b, k + 1)
    ensures Replay(f, a, k) == Replay(f, b, k)
    decreases k
  {
    if k > 0 {
      AgreeToLess(a, b, k + 1, k);
      ReplayAgrees(f, a, b, k - 1);
      assert a[..k + 1][k] == b[..k + 1][k];
    }
  }

  // ---------------------------------------------------------------- the composed system

  /** `catalog` holds the valid snapshots by last included index; index 0 stands for starting empty. */
  datatype Replica = Replica(applied: nat, kv: Kv, catalog: map<nat, Kv>)

  /** `sent` holds the map that travels inside each InstallSnapshot request. */
  datatype Sys = Sys(raft: State, reps: seq<Replica>, sent: map<Message, Kv>)

  /**
    LateLoad: the snapshot is loaded into the map, then refused because the term moved on meanwhile.
    Prune: an older snapshot leaves the catalog.
   */
  datatype KvStep = Raft(s: Step) | Apply(i: nat) | LateLoad(m: Message) | Prune(i: nat, k: nat)

  function InitReplica(): Replica { Replica(0, map[], map[0 := map[]]) }

  function InitSys(size: nat): Sys {
    Sys(Init(size), seq(size, i => InitReplica()), map[])
  }

  predicate Snapshotting(n: Node, peer: nat) { NeedsSnapshot(n, peer) && n.snap != 0 }

  predicate KvEnabled(y: Sys, s: KvStep)
    requires |y.reps| == |y.raft.nodes|
  {
    match s
    case Raft(r) =>
      && Enabled(y.raft, r)
      && (r.LocalSnapshot? ==> r.k == y.reps[r.i].applied)
      && (r.LocalCompact? ==> r.k <= y.reps[r.i].applied)
      && (r.Send? && Snapshotting(y.raft.nodes[r.i], r.peer) ==>
            LastIndex(SnapshotToSend(y.raft.nodes[r.i], r.newest)) in y.reps[r.i].catalog)
    case Apply(i) => i < |y.reps| && y.reps[i].applied < y.raft.nodes[i].commit
    case LateLoad(m) => Delivered(y.raft, m) && m.SnapReq? && m.term < y.raft.nodes[m.dst].term
    case Prune(i, k) => i < |y.reps| && k != LastIndex(y.raft.nodes[i].saved)
  }

  /** One turn of the apply loop; a refused command is not passed. */
  function ApplyNext(f: Machine, n: Node, r: Replica): Replica
    requires r.applied < n.commit
  {
    if r.applied + 1 >= |n.log| then r
    else match f(r.kv, n.log[r.applied + 1].command)
      case None => r
      case Some(kv) => r.(applied := r.applied + 1, kv := kv)
  }

  /** The map and counter a restart begins its replay with. */
  function Recover(n: Node, r: Replica): Replica {
    var at := LastIndex(n.saved);
    Replica(at, if at in r.catalog then r.catalog[at] else map[], r.catalog)
  }

  /** What a protocol step does to the replica of node i. */
  function RepAfter(y: Sys, s: Step, i: nat): Replica
    requires i < |y.reps| == |y.raft.nodes|
  {
    var r := y.reps[i];
    match s
    case LocalSnapshot(j, k) => if i == j then r.(catalog := r.catalog[k := r.kv]) else r
    case SnapSave(m) =>
      if m.SnapReq? && m.dst == i && m in y.sent then r.(catalog := r.catalog[LastIndex(m.snapshot) := y.sent[m]]) else r
    case SnapInstall(m, _) =>
      if m.SnapReq? && m.dst == i && m in y.sent
      then r.(kv := y.sent[m], applied := Max(r.applied, LastIndex(m.snapshot))) else r
    case Crash(j, _) => if i == j then Recover(y.raft.nodes[i], r) else r
    case _ => r
  }

  function SentAfter(y: Sys, s: Step): map<Message, Kv>
    requires |y.reps| == |y.raft.nodes| && KvEnabled(y, Raft(s))
  {
    if s.Send? && Snapshotting(y.raft.nodes[s.i], s.peer) then
      var n := y.raft.nodes[s.i];
      var snapshot := SnapshotToSend(n, s.newest);
      y.sent[SnapReq(s.i, s.peer, n.term, snapshot) := y.reps[s.i].catalog[LastIndex(snapshot)]]
    else y.sent
  }

  function KvDo(f: Machine, y: Sys, s: KvStep): (r: Sys)
    requires |y.reps| == |y.raft.nodes|
    ensures |r.reps| == |r.raft.nodes| == |y.reps|
  {
    if !KvEnabled(y, s) then y
    else match s
      case Raft(t) => Sys(Do(y.raft, t), seq(|y.reps|, i requires 0 <= i < |y.reps| => RepAfter(y, t, i)), SentAfter(y, t))
      case Apply(i) => y.(reps := y.reps[i := ApplyNext(f, y.raft.nodes[i], y.reps[i])])
      case LateLoad(m) =>
        if m in y.sent then y.(reps := y.reps[m.dst := y.reps[m.dst].(kv := y.sent[m])]) else y
      case Prune(i, k) => y.(reps := y.reps[i := y.reps[i].(catalog := y.reps[i].catalog - {k})])
  }

  function KvExec(f: Machine, size: nat, steps: seq<KvStep>): (y: Sys)
    ensures |y.reps| == |y.raft.nodes|
  {
    if steps == [] then InitSys(size)
    else
      var y := KvExec(f, size, steps[..|steps| - 1]);
      var s := steps[|steps| - 1];
      assert s.Raft? ==> |Do(y.raft, s.s).nodes| == |y.raft.nodes| by { if s.Raft? { SameNodes(y.raft, s.s); } }
      KvDo(f, y, s)
  }

  /**
    A snapshot is loaded into the map only when it is not behind what the node has applied, or holds the same map; a
    snapshot that is then refused holds the same map.
   */
  predicate Harmless(y: Sys, s: KvStep)
    requires |y.reps| == |y.raft.nodes|
  {
    KvEnabled(y, s) ==>
      match s
      case Raft(SnapInstall(m, _)) =>
        m in y.sent ==> LastIndex(m.snapshot) >= y.reps[m.dst].applied || y.sent[m] == y.reps[m.dst].kv
      case Raft(_) => true
      case LateLoad(m) => m in y.sent ==> y.sent[m] == y.reps[m.dst].kv
      case _ => true
  }

  /** No raised term is lost. */
  ghost predicate Persisted(steps: seq<KvStep>) {
    forall s :: s in steps && s.Raft? ==> TermPersisted(s.s)
  }

  /** Every install and every late load is harmless. */
  predicate Orderly(f: Machine, size: nat, steps: seq<KvStep>) {
    steps == []
    || (Orderly(f, size, steps[..|steps| - 1]) && Harmless(KvExec(f, size, steps[..|steps| - 1]), steps[|steps| - 1]))
  }

  // ---------------------------------------------------------------- what a map shows

  /** A text the machine accepts in no state. */
  ghost predicate Refused(f: Machine, data: string) { forall kv :: f(kv, data) == None }

  ghost predicate AcceptedTo(f: Machine, log: Log, k: nat) {
    k < |log| && forall j :: 0 < j <= k ==> !Refused(f, log[j].command)
  }

  /** The exact claim is that kv is the replay of records 1 to k; the weak one, that none of them is always refused. */
  ghost predicate Shows(f: Machine, exact: bool, log: Log, k: nat, kv: Kv) {
    if exact then Replay(f, log, k) == Some(kv) else AcceptedTo(f, log, k)
  }

  lemma ShowsAgrees(f: Machine, exact: bool, a: Log, b: Log, k: nat, kv: Kv)
    requires Shows(f, exact, a, k, kv) && AgreeTo(a, b, k + 1)
    ensures Shows(f, exact, b, k, kv)
  {
    if exact {
      ReplayAgrees(f, a, b, k);
    } else {
      forall j | 0 < j <= k ensures !Refused(f, b[j].command) {
        assert a[..k + 1][j] == b[..k + 1][j];
      }
    }
  }

  lemma ShowsNext(f: Machine, exact: bool, log: Log, k: nat, kv: Kv)
    requires Shows(f, exact, log, k, kv) && k + 1 < |log| && f(kv, log[k + 1].command).Some?
    ensures Shows(f, exact, log, k + 1, f(kv, log[k + 1].command).value)
  {
  }

  // ---------------------------------------------------------------- the invariant

  ghost predicate ImageOk(f: Machine, exact: bool, saved: Log, k: nat, kv: Kv) {
    k < |saved| && Shows(f, exact, saved, k, kv)
  }

  /** The map is the replay of exactly the applied records, and so is every snapshot. */
  ghost predicate RepOk(f: Machine, exact: bool, n: Node, r: Replica) {
    && n.snap <= r.applied <= n.commit < |n.log|
    && Shows(f, exact, n.log, r.applied, r.kv)
    && |n.saved| > 0 && LastIndex(n.saved) in r.catalog
    && CatalogOk(f, exact, n.saved, r.catalog)
  }

  ghost predicate CatalogOk(f: Machine, exact: bool, saved: Log, catalog: map<nat, Kv>) {
    forall k {:trigger catalog[k]} :: k in catalog ==> ImageOk(f, exact, saved, k, catalog[k])
  }

  ghost predicate DataOk(f: Machine, exact: bool, y: Sys, m: Message)
    requires m.SnapReq?
  {
    m in y.sent && Shows(f, exact, m.snapshot, LastIndex(m.snapshot), y.sent[m])
  }

  ghost predicate RepsOk(f: Machine, exact: bool, y: Sys) {
    |y.reps| == |y.raft.nodes| && forall i {:trigger y.reps[i]} :: 0 <= i < |y.reps| ==> RepOk(f, exact, y.raft.nodes[i], y.reps[i])
  }

  ghost predicate AllDataOk(f: Machine, exact: bool, y: Sys) {
    forall m {:trigger m in y.raft.net} :: m in y.raft.net && m.SnapReq? ==> DataOk(f, exact, y, m)
  }

  ghost predicate KvInv(f: Machine, exact: bool, y: Sys) { Inv(y.raft) && RepsOk(f, exact, y) && AllDataOk(f, exact, y) }

  // ---------------------------------------------------------------- one node

  /** The committed records, the marker and the snapshots stay as they are. */
  predicate Undisturbed(n: Node, n': Node) {
    AgreeTo(n.log, n'.log, n.commit + 1) && n.commit <= n'.commit < |n'.log| && n'.snap == n.snap && n'.saved == n.saved
  }

  lemma RepKept(f: Machine, exact: bool, n: Node, r: Replica, n': Node)
    requires RepOk(f, exact, n, r) && Undisturbed(n, n')
    ensures RepOk(f, exact, n', r)
  {
    AgreeToLess(n.log, n'.log, n.commit + 1, r.applied + 1);
    ShowsAgrees(f, exact, n.log, n'.log, r.applied, r.kv);
  }

  lemma ApplyKeeps(f: Machine, exact: bool, n: Node, r: Replica)
    requires RepOk(f, exact, n, r) && r.applied < n.commit
    ensures RepOk(f, exact, n, ApplyNext(f, n, r))
  {
    if f(r.kv, n.log[r.applied + 1].command).Some? {
      ShowsNext(f, exact, n.log, r.applied, r.kv);
    }
  }

  /** Records that are committed, on this node and in a snapshot, extend one another. */
  lemma SnapshotsComparable(c: State, i: nat, p: Log, x: nat)
    requires Inv(c) && i < |c.nodes| && Committed(c, p, x)
    ensures p <= c.nodes[i].saved || c.nodes[i].saved <= p
    ensures var n := c.nodes[i]; n.commit < |n.log| && (p <= n.log[..n.commit + 1] || n.log[..n.commit + 1] <= p)
  {
    var n := c.nodes[i];
    assert NodeOk(c, i);
    var done := n.log[..n.commit + 1];
    if |p| <= |n.saved| { CommittedComparable(c, p, x, n.saved, n.term); } else { CommittedComparable(c, n.saved, n.term, p, x); }
    if |p| <= |done| { CommittedComparable(c, p, x, done, n.term); } else { CommittedComparable(c, done, n.term, p, x); }
  }

  lemma SavedComparable(c: State, i: nat)
    requires Inv(c) && i < |c.nodes|
    ensures var n := c.nodes[i];
            n.commit < |n.log| && (n.saved <= n.log[..n.commit + 1] || n.log[..n.commit + 1] <= n.saved)
  {
    assert NodeOk(c, i);
    SnapshotsComparable(c, i, c.nodes[i].saved, c.nodes[i].term);
  }

  lemma ImageKept(f: Machine, exact: bool, saved: Log, longer: Log, k: nat, kv: Kv)
    requires ImageOk(f, exact, saved, k, kv) && saved <= longer
    ensures ImageOk(f, exact, longer, k, kv)
  {
    ShowsAgrees(f, exact, saved, longer, k, kv);
  }

  lemma ImageOf(f: Machine, exact: bool, saved: Log, p: Log, kv: Kv)
    requires |p| > 0 && Shows(f, exact, p, LastIndex(p), kv) && p <= saved
    ensures ImageOk(f, exact, saved, LastIndex(p), kv)
  {
    ShowsAgrees(f, exact, p, saved, LastIndex(p), kv);
  }

  /** Adding a snapshot of the committed records p to a catalog. */
  lemma CatalogKept(f: Machine, exact: bool, n: Node, r: Replica, p: Log, kv: Kv)
    requires RepOk(f, exact, n, r) && |p| > 0 && Shows(f, exact, p, LastIndex(p), kv) && (p <= n.saved || n.saved <= p)
    ensures RepOk(f, exact, SaveSnapshot(n, p), r.(catalog := r.catalog[LastIndex(p) := kv]))
  {
    var longer := if |p| > |n.saved| then p else n.saved;
    if |p| > |n.saved| {
      ShorterIsPrefix(n.saved, p);
    } else {
      ShorterIsPrefix(p, n.saved);
    }
    CatalogGrows(f, exact, n.saved, longer, r.catalog, p, kv);
    NewCatalog(f, exact, n, r, longer, r.catalog[LastIndex(p) := kv]);
  }

  lemma NewCatalog(f: Machine, exact: bool, n: Node, r: Replica, saved: Log, catalog: map<nat, Kv>)
    requires RepOk(f, exact, n, r) && |saved| > 0 && LastIndex(saved) in catalog && CatalogOk(f, exact, saved, catalog)
    ensures RepOk(f, exact, n.(saved := saved), r.(catalog := catalog))
  {
  }

  lemma ShorterIsPrefix(a: Log, b: Log)
    requires (a <= b || b <= a) && |a| <= |b|
    ensures a <= b
  {
  }

  lemma CatalogGrows(f: Machine, exact: bool, saved: Log, longer: Log, catalog: map<nat, Kv>, p: Log, kv: Kv)
    requires CatalogOk(f, exact, saved, catalog) && |p| > 0 && Shows(f, exact, p, LastIndex(p), kv) && saved <= longer && p <= longer
    ensures CatalogOk(f, exact, longer, catalog[LastIndex(p) := kv])
  {
    var more := catalog[LastIndex(p) := kv];
    forall k | k in more ensures ImageOk(f, exact, longer, k, more[k]) {
      if k == LastIndex(p) {
        ImageOf(f, exact, longer, p, kv);
      } else {
        ImageKept(f, exact, saved, longer, k, catalog[k]);
      }
    }
  }

  lemma RecoverKeeps(f: Machine, exact: bool, n: Node, r: Replica, resaved: bool)
    requires RepOk(f, exact, n, r) && Restart(n, resaved).commit < |Restart(n, resaved).log|
    ensures RepOk(f, exact, Restart(n, resaved), Recover(n, r))
  {
    var n' := Restart(n, resaved);
    var at := LastIndex(n.saved);
    assert ImageOk(f, exact, n.saved, at, r.catalog[at]);
    assert n.saved <= n'.log;
    ShowsAgrees(f, exact, n.saved, n'.log, at, r.catalog[at]);
  }

  // ---------------------------------------------------------------- one step of the system

  /** Memory that matters to the replica stays, or the commit index rises. */
  predicate Quiet(n: Node, n': Node) { n.commit <= n'.commit && n'.snap == n.snap && n'.saved == n.saved }

  lemma CommitQuiet(n: Node, m: Message, commitSave: Outcome)
    requires m.AppendReq?
    ensures Quiet(n, CommitAppend(n, m, commitSave).0)
  {
  }

  lemma AcceptQuiet(n: Node, m: Message, save: Outcome, commitSave: Outcome)
    requires m.AppendReq? && PrevMatches(n, m)
    ensures Quiet(n, AcceptAppend(n, m, save, commitSave).0)
  {
    var merged := n.(log := Merge(n.log, m.prevIndex + 1, m.entries));
    CommitQuiet(n, m, commitSave);
    CommitQuiet(merged.(disk := DiskOf(merged)), m, commitSave);
  }

  lemma AppendQuiet(n: Node, m: Message, raise: Outcome, save: Outcome, commitSave: Outcome)
    requires m.AppendReq?
    ensures Quiet(n, OnAppendEntries(n, m, raise, save, commitSave).0)
  {
    var n1 := BecomeFollower(n, m.term, m.src, raise);
    if m.term >= n.term && PrevMatches(n1, m) {
      AcceptQuiet(n1, m, save, commitSave);
    }
  }

  lemma VoteReqQuiet(c: State, m: Message, raise: Outcome, save: Outcome, i: nat)
    requires Delivered(c, m) && m.VoteReq? && i < |c.nodes|
    ensures Quiet(c.nodes[i], DoVoteReq(c, m, raise, save).nodes[i])
  {
  }

  lemma AppendReqQuiet(c: State, m: Message, raise: Outcome, save: Outcome, commitSave: Outcome, i: nat)
    requires Delivered(c, m) && m.AppendReq? && i < |c.nodes|
    ensures Quiet(c.nodes[i], DoAppendReq(c, m, raise, save, commitSave).nodes[i])
  {
    AppendQuiet(c.nodes[m.dst], m, raise, save, commitSave);
  }

  lemma AppendRespQuiet(n: Node, me: nat, size: nat, m: Message, raise: Outcome, save: Outcome)
    requires m.AppendResp?
    ensures Quiet(n, OnAppendResponse(n, me, size, m, raise, save))
  {
  }

  lemma SnapBeginQuiet(c: State, m: Message, raise: Outcome, i: nat)
    requires Delivered(c, m) && m.SnapReq? && i < |c.nodes|
    ensures Quiet(c.nodes[i], DoSnapBegin(c, m, raise).nodes[i])
  {
  }

  lemma LocalQuiet(c: State, s: Step, i: nat)
    requires Enabled(c, s) && i < |c.nodes|
    ensures s.Timeout? ==> Quiet(c.nodes[i], DoTimeout(c, s.i, s.save).nodes[i])
    ensures s.Propose? ==> Quiet(c.nodes[i], DoPropose(c, s.i, s.command, s.save).nodes[i])
    ensures s.Send? ==> Quiet(c.nodes[i], DoSend(c, s.i, s.peer, s.newest).nodes[i])
    ensures s.Win? ==> Quiet(c.nodes[i], DoWin(c, s.i).nodes[i])
  {
  }

  predicate MovesSnapshots(s: Step) {
    s.SnapSave? || s.SnapInstall? || s.LocalSnapshot? || s.LocalCompact? || s.Crash?
  }

  lemma StepQuiet(c: State, s: Step, i: nat)
    requires i < |c.nodes| && Enabled(c, s) && !MovesSnapshots(s)
    ensures i < |Do(c, s).nodes| && Quiet(c.nodes[i], Do(c, s).nodes[i])
  {
    match s
    case Timeout(_, _) => LocalQuiet(c, s, i);
    case RecvVoteReq(m, raise, save) => VoteReqQuiet(c, m, raise, save, i);
    case RecvVoteResp(m, raise) =>
    case Win(_) => LocalQuiet(c, s, i);
    case Propose(_, _, _) => LocalQuiet(c, s, i);
    case Send(_, _, _) => LocalQuiet(c, s, i);
    case RecvAppendReq(m, raise, save, commitSave) => AppendReqQuiet(c, m, raise, save, commitSave, i);
    case RecvAppendResp(m, raise, save) => AppendRespQuiet(c.nodes[m.dst], m.dst, |c.nodes|, m, raise, save);
    case Advance(_, _) =>
    case SnapBegin(m, raise) => SnapBeginQuiet(c, m, raise, i);
    case SnapFail(_) =>
    case RecvSnapResp(m, raise) =>
    case Flush(_) =>
  }

  lemma QuietFacts(c: State, s: Step, i: nat)
    requires Inv(c) && TermPersisted(s) && Enabled(c, s) && i < |c.nodes| && !MovesSnapshots(s)
    ensures i < |Do(c, s).nodes| && Undisturbed(c.nodes[i], Do(c, s).nodes[i])
  {
    StepQuiet(c, s, i);
    StepKeepsCommitted(c, s, i);
    StepInv(c, s);
    CommitInside(Do(c, s), i);
  }

  lemma SameReplica(y: Sys, s: Step, i: nat)
    requires i < |y.reps| == |y.raft.nodes| && !MovesSnapshots(s)
    ensures RepAfter(y, s, i) == y.reps[i]
  {
  }

  lemma QuietRep(f: Machine, exact: bool, c: State, s: Step, i: nat, r: Replica)
    requires Inv(c) && TermPersisted(s) && Enabled(c, s) && i < |c.nodes| && !MovesSnapshots(s) && RepOk(f, exact, c.nodes[i], r)
    ensures i < |Do(c, s).nodes| && RepOk(f, exact, Do(c, s).nodes[i], r)
  {
    QuietFacts(c, s, i);
    RepKept(f, exact, c.nodes[i], r, Do(c, s).nodes[i]);
  }

  lemma AppliedPrefix(log: Log, commit: nat, applied: nat, saved: Log)
    requires applied <= commit < |log| && (saved <= log[..commit + 1] || log[..commit + 1] <= saved)
    ensures log[..applied + 1] <= saved || saved <= log[..applied + 1]
  {
  }

  lemma OwnSnapshot(f: Machine, exact: bool, y: Sys, i: nat)
    requires KvInv(f, exact, y) && i < |y.reps|
    ensures var n, r := y.raft.nodes[i], y.reps[i];
            r.applied < |n.log| &&
            RepOk(f, exact, SaveSnapshot(n, n.log[..r.applied + 1]), r.(catalog := r.catalog[r.applied := r.kv]))
  {
    var n, r := y.raft.nodes[i], y.reps[i];
    RepAt(f, exact, y, i);
    SavedComparable(y.raft, i);
    AppliedPrefix(n.log, n.commit, r.applied, n.saved);
    ShowsAgrees(f, exact, n.log, n.log[..r.applied + 1], r.applied, r.kv);
    CatalogKept(f, exact, n, r, n.log[..r.applied + 1], r.kv);
  }

  lemma ReceivedSnapshot(f: Machine, exact: bool, y: Sys, m: Message)
    requires KvInv(f, exact, y) && Delivered(y.raft, m) && m.SnapReq?
    ensures m in y.sent
    ensures var n, r := y.raft.nodes[m.dst], y.reps[m.dst];
            RepOk(f, exact, SaveSnapshot(n, m.snapshot), r.(catalog := r.catalog[LastIndex(m.snapshot) := y.sent[m]]))
  {
    assert MsgOk(y.raft, m) && DataOk(f, exact, y, m) && RepOk(f, exact, y.raft.nodes[m.dst], y.reps[m.dst]);
    SnapshotsComparable(y.raft, m.dst, m.snapshot, m.term);
    CatalogKept(f, exact, y.raft.nodes[m.dst], y.reps[m.dst], m.snapshot, y.sent[m]);
  }

  /** The heart of InstallSnapshot: log, marker, commit index and map move together. */
  lemma InstalledRep(f: Machine, exact: bool, y: Sys, m: Message, save: Outcome)
    requires KvInv(f, exact, y) && Enabled(y.raft, SnapInstall(m, save)) && m in y.sent
    requires exact && LastIndex(m.snapshot) < y.reps[m.dst].applied ==> y.sent[m] == y.reps[m.dst].kv
    ensures RepOk(f, exact, SnapshotInstall(y.raft.nodes[m.dst], m, save).0,
                  y.reps[m.dst].(kv := y.sent[m], applied := Max(y.reps[m.dst].applied, LastIndex(m.snapshot))))
  {
    assert DataOk(f, exact, y, m);
    RepAt(f, exact, y, m.dst);
    InstalledFacts(y.raft, m, save);
    InstallKeepsCommitted(y.raft, m, save);
    LoadedFits(f, exact, y.raft.nodes[m.dst], y.reps[m.dst], SnapshotInstall(y.raft.nodes[m.dst], m, save).0, m.snapshot, y.sent[m]);
  }

  lemma InstalledFacts(c: State, m: Message, save: Outcome)
    requires Inv(c) && Enabled(c, SnapInstall(m, save))
    ensures var n, n', at := c.nodes[m.dst], SnapshotInstall(c.nodes[m.dst], m, save).0, LastIndex(m.snapshot);
            && |m.snapshot| > 0 && m.snapshot <= n'.log && n'.snap == Max(n.snap, at)
            && Max(n.commit, at) == n'.commit < |n'.log| && n'.saved == n.saved
  {
    assert MsgOk(c, m);
    InstalledMemory(c, m);
    CommitInside(c, m.dst);
    InstallKeepsCommitted(c, m, save);
  }

  lemma LoadedFits(f: Machine, exact: bool, n: Node, r: Replica, n': Node, snapshot: Log, kv: Kv)
    requires RepOk(f, exact, n, r) && |snapshot| > 0 && snapshot <= n'.log && Shows(f, exact, snapshot, LastIndex(snapshot), kv)
    requires n'.snap == Max(n.snap, LastIndex(snapshot)) && n'.commit == Max(n.commit, LastIndex(snapshot)) < |n'.log|
    requires n'.saved == n.saved && AgreeTo(n.log, n'.log, n.commit + 1)
    requires exact && LastIndex(snapshot) < r.applied ==> kv == r.kv
    ensures RepOk(f, exact, n', r.(kv := kv, applied := Max(r.applied, LastIndex(snapshot))))
  {
    if LastIndex(snapshot) >= r.applied {
      ShowsAgrees(f, exact, snapshot, n'.log, LastIndex(snapshot), kv);
    } else {
      AgreeToLess(n.log, n'.log, n.commit + 1, r.applied + 1);
      ShowsAgrees(f, exact, n.log, n'.log, r.applied, kv);
    }
  }

  lemma SavingStep(c: State, s: Step)
    requires Enabled(c, s)
    ensures s.SnapSave? ==> Do(c, s) == Update(c, s.m.dst, SaveSnapshot(c.nodes[s.m.dst], s.m.snapshot), {})
    ensures s.LocalSnapshot? ==> Do(c, s) == Update(c, s.i, SaveSnapshot(c.nodes[s.i], c.nodes[s.i].log[..s.k + 1]), {})
    ensures s.LocalCompact? ==> Do(c, s) == Update(c, s.i, Compact(c.nodes[s.i], s.k, s.save), {})
  {
  }

  lemma CompactKeeps(f: Machine, exact: bool, n: Node, r: Replica, k: nat, save: Outcome)
    requires RepOk(f, exact, n, r) && k <= r.applied
    ensures RepOk(f, exact, Compact(n, k, save), r)
  {
  }

  lemma SnapSaveRep(f: Machine, exact: bool, y: Sys, m: Message, i: nat)
    requires KvInv(f, exact, y) && Enabled(y.raft, SnapSave(m)) && i < |y.reps|
    ensures i < |Do(y.raft, SnapSave(m)).nodes| && RepOk(f, exact, Do(y.raft, SnapSave(m)).nodes[i], RepAfter(y, SnapSave(m), i))
  {
    RepAt(f, exact, y, i);
    SavingStep(y.raft, SnapSave(m));
    ReceivedSnapshot(f, exact, y, m);
  }

  lemma LocalSnapshotRep(f: Machine, exact: bool, y: Sys, j: nat, i: nat)
    requires KvInv(f, exact, y) && i < |y.reps| && j < |y.reps| && Enabled(y.raft, LocalSnapshot(j, y.reps[j].applied))
    ensures var s := LocalSnapshot(j, y.reps[j].applied);
            i < |Do(y.raft, s).nodes| && RepOk(f, exact, Do(y.raft, s).nodes[i], RepAfter(y, s, i))
  {
    RepAt(f, exact, y, i);
    SavingStep(y.raft, LocalSnapshot(j, y.reps[j].applied));
    OwnSnapshot(f, exact, y, j);
  }

  lemma LocalCompactRep(f: Machine, exact: bool, y: Sys, s: Step, i: nat)
    requires RepsOk(f, exact, y) && KvEnabled(y, Raft(s)) && i < |y.reps| && s.LocalCompact?
    ensures i < |Do(y.raft, s).nodes| && RepOk(f, exact, Do(y.raft, s).nodes[i], RepAfter(y, s, i))
  {
    RepAt(f, exact, y, i);
    SavingStep(y.raft, s);
    RepAt(f, exact, y, s.i);
    CompactKeeps(f, exact, y.raft.nodes[s.i], y.reps[s.i], s.k, s.save);
  }

  lemma RebuildingRep(f: Machine, exact: bool, y: Sys, s: Step, i: nat)
    requires KvInv(f, exact, y) && KvEnabled(y, Raft(s)) && (exact ==> Harmless(y, Raft(s))) && i < |y.reps| && (s.SnapInstall? || s.Crash?)
    requires Inv(Do(y.raft, s))
    ensures i < |Do(y.raft, s).nodes| && RepOk(f, exact, Do(y.raft, s).nodes[i], RepAfter(y, s, i))
  {
    RepAt(f, exact, y, i);
    match s
    case SnapInstall(m, save) =>
      assert DataOk(f, exact, y, m);
      InstalledRep(f, exact, y, m, save);
    case Crash(j, resaved) =>
      if i == j {
        CommitInside(DoCrash(y.raft, i, resaved), i);
        RecoverKeeps(f, exact, y.raft.nodes[i], y.reps[i], resaved);
      }
  }

  lemma StepRep(f: Machine, exact: bool, y: Sys, s: Step, i: nat)
    requires KvInv(f, exact, y) && TermPersisted(s) && KvEnabled(y, Raft(s)) && (exact ==> Harmless(y, Raft(s))) && i < |y.reps|
    requires Inv(Do(y.raft, s))
    ensures i < |Do(y.raft, s).nodes| && RepOk(f, exact, Do(y.raft, s).nodes[i], RepAfter(y, s, i))
  {
    if s.SnapInstall? || s.Crash? {
      RebuildingRep(f, exact, y, s, i);
    } else if s.SnapSave? {
      SnapSaveRep(f, exact, y, s.m, i);
    } else if s.LocalSnapshot? {
      LocalSnapshotRep(f, exact, y, s.i, i);
    } else if s.LocalCompact? {
      LocalCompactRep(f, exact, y, s, i);
    } else {
      SameReplica(y, s, i);
      RepAt(f, exact, y, i);
      QuietRep(f, exact, y.raft, s, i, y.reps[i]);
    }
  }

  lemma StepReps(f: Machine, exact: bool, y: Sys, s: Step)
    requires KvInv(f, exact, y) && TermPersisted(s) && KvEnabled(y, Raft(s)) && (exact ==> Harmless(y, Raft(s)))
    ensures RepsOk(f, exact, KvDo(f, y, Raft(s)))
  {
    SameNodes(y.raft, s);
    StepInv(y.raft, s);
    forall i | 0 <= i < |y.reps| ensures RepOk(f, exact, Do(y.raft, s).nodes[i], RepAfter(y, s, i)) {
      StepRep(f, exact, y, s, i);
    }
  }

  /** Only a leader's Send puts a snapshot on the network. */
  lemma NewSnapReqs(c: State, s: Step, m: Message)
    requires m in Do(c, s).net && m.SnapReq? && m !in c.net
    ensures Enabled(c, s) && s.Send? && Snapshotting(c.nodes[s.i], s.peer)
    ensures m == SnapReq(s.i, s.peer, c.nodes[s.i].term, SnapshotToSend(c.nodes[s.i], s.newest))
  {
  }

  lemma SentData(f: Machine, exact: bool, y: Sys, s: Step)
    requires KvInv(f, exact, y) && KvEnabled(y, Raft(s)) && s.Send? && Snapshotting(y.raft.nodes[s.i], s.peer)
    ensures var p := SnapshotToSend(y.raft.nodes[s.i], s.newest); Shows(f, exact, p, LastIndex(p), y.reps[s.i].catalog[LastIndex(p)])
  {
    var n, r := y.raft.nodes[s.i], y.reps[s.i];
    assert RepOk(f, exact, n, r) && NodeOk(y.raft, s.i);
    var p := SnapshotToSend(n, s.newest);
    var k := LastIndex(p);
    assert ImageOk(f, exact, n.saved, k, r.catalog[k]);
    SnapshotsComparable(y.raft, s.i, n.saved, n.term);
    assert n.saved[..k + 1] == p;
    ShowsAgrees(f, exact, n.saved, p, k, r.catalog[k]);
  }

  lemma StepData(f: Machine, exact: bool, y: Sys, s: Step)
    requires KvInv(f, exact, y) && KvEnabled(y, Raft(s))
    ensures AllDataOk(f, exact, KvDo(f, y, Raft(s)))
  {
    var z := KvDo(f, y, Raft(s));
    if s.Send? && Snapshotting(y.raft.nodes[s.i], s.peer) {
      SentData(f, exact, y, s);
    }
    forall m | m in z.raft.net && m.SnapReq? ensures DataOk(f, exact, z, m) {
      if m in y.raft.net {
        assert DataOk(f, exact, y, m);
      } else {
        NewSnapReqs(y.raft, s, m);
      }
    }
  }

  lemma KvStepInv(f: Machine, exact: bool, y: Sys, s: KvStep)
    requires KvInv(f, exact, y) && (s.Raft? ==> TermPersisted(s.s)) && (exact ==> Harmless(y, s))
    ensures KvInv(f, exact, KvDo(f, y, s))
  {
    if KvEnabled(y, s) {
      match s
      case Raft(t) =>
        StepInv(y.raft, t);
        StepReps(f, exact, y, t);
        StepData(f, exact, y, t);
      case Apply(i) => ApplyStep(f, exact, y, i);
      case LateLoad(m) => LateLoadStep(f, exact, y, m);
      case Prune(i, k) => PruneStep(f, exact, y, i, k);
    }
  }

  lemma OneRep(f: Machine, exact: bool, y: Sys, i: nat, r: Replica)
    requires KvInv(f, exact, y) && i < |y.reps| && RepOk(f, exact, y.raft.nodes[i], r)
    ensures KvInv(f, exact, y.(reps := y.reps[i := r]))
  {
    var z := y.(reps := y.reps[i := r]);
    forall j | 0 <= j < |z.reps| ensures RepOk(f, exact, z.raft.nodes[j], z.reps[j]) {
      if j != i {
        RepAt(f, exact, y, j);
      }
    }
    forall m | m in z.raft.net && m.SnapReq? ensures DataOk(f, exact, z, m) {
      assert DataOk(f, exact, y, m);
    }
  }

  lemma ApplyStep(f: Machine, exact: bool, y: Sys, i: nat)
    requires KvInv(f, exact, y) && KvEnabled(y, Apply(i))
    ensures KvInv(f, exact, KvDo(f, y, Apply(i)))
  {
    RepAt(f, exact, y, i);
    ApplyKeeps(f, exact, y.raft.nodes[i], y.reps[i]);
    OneRep(f, exact, y, i, ApplyNext(f, y.raft.nodes[i], y.reps[i]));
  }

  lemma LateLoadStep(f: Machine, exact: bool, y: Sys, m: Message)
    requires KvInv(f, exact, y) && KvEnabled(y, LateLoad(m)) && (exact ==> Harmless(y, LateLoad(m)))
    ensures KvInv(f, exact, KvDo(f, y, LateLoad(m)))
  {
    RepAt(f, exact, y, m.dst);
    assert DataOk(f, exact, y, m);
    OneRep(f, exact, y, m.dst, y.reps[m.dst].(kv := y.sent[m]));
  }

  lemma PruneStep(f: Machine, exact: bool, y: Sys, i: nat, k: nat)
    requires KvInv(f, exact, y) && KvEnabled(y, Prune(i, k))
    ensures KvInv(f, exact, KvDo(f, y, Prune(i, k)))
  {
    RepAt(f, exact, y, i);
    OneRep(f, exact, y, i, y.reps[i].(catalog := y.reps[i].catalog - {k}));
  }

  // ---------------------------------------------------------------- every run

  lemma {:induction false} KvRunInv(f: Machine, exact: bool, size: nat, steps: seq<KvStep>)
    requires Persisted(steps) && (exact ==> Orderly(f, size, steps))
    ensures KvInv(f, exact, KvExec(f, size, steps))
  {
    if steps == [] {
      InitInv(size);
      assert RepOk(f, exact, InitNode(), InitReplica());
    } else {
      assert steps[|steps| - 1] in steps;
      KvRunInv(f, exact, size, steps[..|steps| - 1]);
      KvStepInv(f, exact, KvExec(f, size, steps[..|steps| - 1]), steps[|steps| - 1]);
    }
  }

  function KvAt(f: Machine, size: nat, steps: seq<KvStep>, k: nat): (y: Sys)
    requires k <= |steps|
    ensures |y.reps| == |y.raft.nodes|
  {
    KvExec(f, size, steps[..k])
  }

  lemma {:induction false} OrderlyPrefix(f: Machine, size: nat, steps: seq<KvStep>, k: nat)
    requires Orderly(f, size, steps) && k <= |steps|
    ensures Orderly(f, size, steps[..k])
    decreases |steps|
  {
    if k < |steps| {
      OrderlyPrefix(f, size, steps[..|steps| - 1], k);
      assert steps[..|steps| - 1][..k] == steps[..k];
    } else {
      assert steps[..k] == steps;
    }
  }

  lemma KvStepGrows(f: Machine, y: Sys, s: KvStep)
    requires Inv(y.raft) && |y.reps| == |y.raft.nodes| && (s.Raft? ==> TermPersisted(s.s))
    ensures Grows(y.raft, KvDo(f, y, s).raft)
  {
    if s.Raft? {
      StepGrows(y.raft, s.s);
    }
  }

  /** The state after b steps is one step from the state after b - 1. */
  lemma KvNext(f: Machine, size: nat, steps: seq<KvStep>, b: nat)
    requires 0 < b <= |steps|
    ensures KvAt(f, size, steps, b) == KvDo(f, KvAt(f, size, steps, b - 1), steps[b - 1])
  {
    assert steps[..b][..b - 1] == steps[..b - 1];
  }

  lemma KvAtInv(f: Machine, exact: bool, size: nat, steps: seq<KvStep>, k: nat)
    requires Persisted(steps) && (exact ==> Orderly(f, size, steps)) && k <= |steps|
    ensures KvInv(f, exact, KvAt(f, size, steps, k))
  {
    if exact {
      OrderlyPrefix(f, size, steps, k);
    }
    KvRunInv(f, exact, size, steps[..k]);
  }

  lemma OneStepGrows(f: Machine, size: nat, steps: seq<KvStep>, b: nat)
    requires Persisted(steps) && 0 < b <= |steps|
    ensures Grows(KvAt(f, size, steps, b - 1).raft, KvAt(f, size, steps, b).raft)
  {
    assert steps[b - 1] in steps;
    KvNext(f, size, steps, b);
    KvAtInv(f, false, size, steps, b - 1);
    KvStepGrows(f, KvAt(f, size, steps, b - 1), steps[b - 1]);
  }

  lemma {:induction false} KvRunGrows(f: Machine, size: nat, steps: seq<KvStep>, a: nat, b: nat)
    requires Persisted(steps) && a <= b <= |steps|
    ensures Grows(KvAt(f, size, steps, a).raft, KvAt(f, size, steps, b).raft)
    decreases b - a
  {
    if a < b {
      KvRunGrows(f, size, steps, a, b - 1);
      OneStepGrows(f, size, steps, b);
      GrowsTrans(KvAt(f, size, steps, a).raft, KvAt(f, size, steps, b - 1).raft, KvAt(f, size, steps, b).raft);
    }
  }

  /** Two nodes' committed parts, at two times of one run, extend one another. */
  lemma CommittedPartsComparable(c: State, d: State, i: nat, j: nat)
    requires Inv(c) && Inv(d) && Grows(c, d) && i < |c.nodes| && j < |d.nodes|
    ensures var n, m := c.nodes[i], d.nodes[j];
            n.commit < |n.log| && m.commit < |m.log| &&
            (n.log[..n.commit + 1] <= m.log[..m.commit + 1] || m.log[..m.commit + 1] <= n.log[..n.commit + 1])
  {
    var n := c.nodes[i];
    assert NodeOk(c, i);
    CommittedGrows(c, d, n.log[..n.commit + 1], n.term, n.term);
    SnapshotsComparable(d, j, n.log[..n.commit + 1], n.term);
  }

  // ---------------------------------------------------------------- the theorems

  /** In every reachable state the map is the replay of the records up to last_applied, and the counters are in order. */
  lemma MapIsReplay(f: Machine, size: nat, steps: seq<KvStep>, i: nat)
    requires Persisted(steps) && Orderly(f, size, steps) && i < |KvExec(f, size, steps).reps|
    ensures var n, r := KvExec(f, size, steps).raft.nodes[i], KvExec(f, size, steps).reps[i];
            n.snap <= r.applied <= n.commit < |n.log| && Replay(f, n.log, r.applied) == Some(r.kv)
  {
    KvRunInv(f, true, size, steps);
    RepAt(f, true, KvExec(f, size, steps), i);
  }

  lemma RepAt(f: Machine, exact: bool, y: Sys, i: nat)
    requires RepsOk(f, exact, y) && i < |y.reps|
    ensures RepOk(f, exact, y.raft.nodes[i], y.reps[i])
    ensures var n, r := y.raft.nodes[i], y.reps[i];
            n.snap <= r.applied <= n.commit < |n.log| && Shows(f, exact, n.log, r.applied, r.kv)
  {
  }

  lemma SharedPrefix(a: Log, b: Log, x: Log, y: Log, k: nat)
    requires x <= a && y <= b && (x <= y || y <= x) && k <= |x| && k <= |y|
    ensures a[..k] == b[..k]
  {
  }

  lemma MapsAgree(f: Machine, n: Node, r: Replica, m: Node, q: Replica)
    requires RepOk(f, true, n, r) && RepOk(f, true, m, q) && r.applied <= q.applied
    requires n.log[..n.commit + 1] <= m.log[..m.commit + 1] || m.log[..m.commit + 1] <= n.log[..n.commit + 1]
    ensures r.applied < |m.log| && Replay(f, m.log, r.applied) == Some(r.kv)
    ensures r.applied == q.applied ==> r.kv == q.kv
  {
    SharedPrefix(n.log, m.log, n.log[..n.commit + 1], m.log[..m.commit + 1], r.applied + 1);
    ReplayAgrees(f, n.log, m.log, r.applied);
  }

  lemma PartsEither(c: State, d: State, i: nat, j: nat)
    requires Inv(c) && Inv(d) && (Grows(c, d) || Grows(d, c)) && i < |c.nodes| && j < |d.nodes|
    ensures var n, m := c.nodes[i], d.nodes[j];
            n.commit < |n.log| && m.commit < |m.log| &&
            (n.log[..n.commit + 1] <= m.log[..m.commit + 1] || m.log[..m.commit + 1] <= n.log[..n.commit + 1])
  {
    if Grows(c, d) {
      CommittedPartsComparable(c, d, i, j);
    } else {
      CommittedPartsComparable(d, c, j, i);
    }
  }

  lemma SysAgree(f: Machine, y: Sys, z: Sys, i: nat, j: nat)
    requires KvInv(f, true, y) && KvInv(f, true, z) && (Grows(y.raft, z.raft) || Grows(z.raft, y.raft))
    requires i < |y.reps| && j < |z.reps| && y.reps[i].applied <= z.reps[j].applied
    ensures var r, q, m := y.reps[i], z.reps[j], z.raft.nodes[j];
            && r.applied < |m.log| && Replay(f, m.log, r.applied) == Some(r.kv)
            && (r.applied == q.applied ==> r.kv == q.kv)
  {
    RepAt(f, true, y, i);
    RepAt(f, true, z, j);
    PartsEither(y.raft, z.raft, i, j);
    MapsAgree(f, y.raft.nodes[i], y.reps[i], z.raft.nodes[j], z.reps[j]);
  }

  /**
    Replicas agree: whenever, in one run, node j has applied at least as much as node i has (at any two times),
    the map of i is the replay of a prefix of what j has applied; equal counters mean equal maps.
   */
  lemma ReplicasAgree(f: Machine, size: nat, steps: seq<KvStep>, a: nat, b: nat, i: nat, j: nat)
    requires Persisted(steps) && Orderly(f, size, steps) && a <= |steps| && b <= |steps|
    requires i < |KvAt(f, size, steps, a).reps| && j < |KvAt(f, size, steps, b).reps|
    requires KvAt(f, size, steps, a).reps[i].applied <= KvAt(f, size, steps, b).reps[j].applied
    ensures var r, q, m := KvAt(f, size, steps, a).reps[i], KvAt(f, size, steps, b).reps[j], KvAt(f, size, steps, b).raft.nodes[j];
            && r.applied < |m.log| && Replay(f, m.log, r.applied) == Some(r.kv)
            && (r.applied == q.applied ==> r.kv == q.kv)
  {
    if a <= b {
      KvRunGrows(f, size, steps, a, b);
    } else {
      KvRunGrows(f, size, steps, b, a);
    }
    KvAtInv(f, true, size, steps, a);
    KvAtInv(f, true, size, steps, b);
    SysAgree(f, KvAt(f, size, steps, a), KvAt(f, size, steps, b), i, j);
  }

  lemma RefusedNotApplied(f: Machine, log: Log, c: nat, m: Node, r: Replica, k: nat)
    requires RepOk(f, false, m, r) && 0 < k <= c < |log| && Refused(f, log[k].command)
    requires log[..c + 1] <= m.log[..m.commit + 1] || m.log[..m.commit + 1] <= log[..c + 1]
    ensures r.applied < k
  {
    if m.commit >= k {
      SharedPrefix(log, m.log, log[..c + 1], m.log[..m.commit + 1], k + 1);
      assert m.log[..k + 1][k] == log[..k + 1][k];
    }
  }

  lemma SysBlocked(f: Machine, y: Sys, z: Sys, i: nat, j: nat, k: nat)
    requires KvInv(f, false, y) && KvInv(f, false, z) && Grows(y.raft, z.raft) && i < |y.reps| && j < |z.reps|
    requires 0 < k <= y.raft.nodes[i].commit < |y.raft.nodes[i].log| && Refused(f, y.raft.nodes[i].log[k].command)
    ensures z.reps[j].applied < k
  {
    CommittedPartsComparable(y.raft, z.raft, i, j);
    RepAt(f, false, z, j);
    RefusedNotApplied(f, y.raft.nodes[i].log, y.raft.nodes[i].commit, z.raft.nodes[j], z.reps[j], k);
  }

  /** Once a refused command is committed anywhere, no node ever applies it or anything after it, whatever snapshots are installed. */
  lemma RefusedBlocksEveryone(f: Machine, size: nat, steps: seq<KvStep>, a: nat, b: nat, i: nat, j: nat, k: nat)
    requires Persisted(steps) && a <= b <= |steps|
    requires i < |KvAt(f, size, steps, a).reps| && j < |KvAt(f, size, steps, b).reps|
    requires 0 < k <= KvAt(f, size, steps, a).raft.nodes[i].commit < |KvAt(f, size, steps, a).raft.nodes[i].log|
    requires Refused(f, KvAt(f, size, steps, a).raft.nodes[i].log[k].command)
    ensures KvAt(f, size, steps, b).reps[j].applied < k
  {
    KvAtInv(f, false, size, steps, a);
    KvAtInv(f, false, size, steps, b);
    KvRunGrows(f, size, steps, a, b);
    SysBlocked(f, KvAt(f, size, steps, a), KvAt(f, size, steps, b), i, j, k);
  }

  // ---------------------------------------------------------------- recovery

  /** The apply loop run to its end. */
  function CatchUp(f: Machine, n: Node, r: Replica): Replica
    decreases n.commit - r.applied
  {
    if r.applied >= n.commit then r
    else
      var r' := ApplyNext(f, n, r);
      if r' == r then r else CatchUp(f, n, r')
  }

  lemma {:induction false} CatchUpEnds(f: Machine, n: Node, r: Replica)
    requires RepOk(f, true, n, r)
    ensures RepOk(f, true, n, CatchUp(f, n, r))
    ensures Replay(f, n.log, n.commit).Some? ==> CatchUp(f, n, r).applied == n.commit
    decreases n.commit - r.applied
  {
    if r.applied < n.commit {
      ApplyKeeps(f, true, n, r);
      if ApplyNext(f, n, r) == r {
        if Replay(f, n.log, n.commit).Some? {
          ReplayPrefix(f, n.log, n.commit, r.applied + 1);
        }
      } else {
        CatchUpEnds(f, n, ApplyNext(f, n, r));
      }
    }
  }

  /** The catch-up of node n reaches the commit index exactly when every command up to it is accepted. */
  ghost predicate FullReplay(f: Machine, n: Node, start: Replica) {
    && n.commit < |n.log|
    && (CatchUp(f, n, start).applied == n.commit <==> Replay(f, n.log, n.commit).Some?)
    && (CatchUp(f, n, start).applied == n.commit ==> Replay(f, n.log, n.commit) == Some(CatchUp(f, n, start).kv))
  }

  lemma CatchUpIsReplay(f: Machine, n: Node, r: Replica)
    requires RepOk(f, true, n, r)
    ensures FullReplay(f, n, r)
  {
    CatchUpEnds(f, n, r);
  }

  /**
    Restart recovery equals full replay: newest snapshot plus the rest of the log give the replay of the recovered
    log from the empty map up to max(clamped commit, snapshot index), and last_applied is that index. It fails
    exactly when one of those commands is refused.
   */
  lemma RecoveryIsReplay(f: Machine, size: nat, steps: seq<KvStep>, i: nat, resaved: bool)
    requires Persisted(steps) && Orderly(f, size, steps) && i < |KvExec(f, size, steps).reps|
    ensures var n, r := KvExec(f, size, steps).raft.nodes[i], KvExec(f, size, steps).reps[i];
            && Restart(n, resaved).commit == Max(Min(n.disk.commit, LastIndex(n.disk.log)), LastIndex(n.saved))
            && FullReplay(f, Restart(n, resaved), Recover(n, r))
  {
    KvRunInv(f, true, size, steps);
    var y := KvExec(f, size, steps);
    assert RepOk(f, true, y.raft.nodes[i], y.reps[i]);
    CrashStep(y.raft, i, resaved);
    CommitInside(DoCrash(y.raft, i, resaved), i);
    RecoverKeeps(f, true, y.raft.nodes[i], y.reps[i], resaved);
    CatchUpIsReplay(f, Restart(y.raft.nodes[i], resaved), Recover(y.raft.nodes[i], y.reps[i]));
  }

  // ---------------------------------------------------------------- which runs keep the maps right

  predicate MapRight(f: Machine, n: Node, r: Replica) { Replay(f, n.log, r.applied) == Some(r.kv) }

  /** Every map is the replay of what its node has applied. */
  ghost predicate MapsRight(f: Machine, y: Sys) {
    |y.reps| == |y.raft.nodes| && forall i {:trigger MapRight(f, y.raft.nodes[i], y.reps[i])} ::
      0 <= i < |y.reps| ==> MapRight(f, y.raft.nodes[i], y.reps[i])
  }

  lemma InvMapsRight(f: Machine, y: Sys)
    requires KvInv(f, true, y)
    ensures MapsRight(f, y)
  {
    forall i | 0 <= i < |y.reps| ensures MapRight(f, y.raft.nodes[i], y.reps[i]) {
      RepAt(f, true, y, i);
    }
  }

  lemma WrongMap(f: Machine, n: Node, r: Replica, n': Node, r': Replica)
    requires RepOk(f, true, n, r) && AgreeTo(n.log, n'.log, n.commit + 1) && r'.applied == r.applied && r'.kv != r.kv
    ensures !MapRight(f, n', r')
  {
    AgreeToLess(n.log, n'.log, n.commit + 1, r.applied + 1);
    ReplayAgrees(f, n.log, n'.log, r.applied);
  }

  /** An install that is not harmless makes the map wrong at once. */
  lemma HarmfulInstall(f: Machine, y: Sys, m: Message, save: Outcome)
    requires KvInv(f, true, y) && KvEnabled(y, Raft(SnapInstall(m, save))) && !Harmless(y, Raft(SnapInstall(m, save)))
    ensures !MapsRight(f, KvDo(f, y, Raft(SnapInstall(m, save))))
  {
    var n, r := y.raft.nodes[m.dst], y.reps[m.dst];
    var z := KvDo(f, y, Raft(SnapInstall(m, save)));
    RepAt(f, true, y, m.dst);
    InstalledFacts(y.raft, m, save);
    InstallKeepsCommitted(y.raft, m, save);
    assert z.raft.nodes[m.dst] == SnapshotInstall(n, m, save).0;
    WrongMap(f, n, r, z.raft.nodes[m.dst], z.reps[m.dst]);
  }

  lemma HarmfulLoad(f: Machine, y: Sys, m: Message)
    requires KvInv(f, true, y) && KvEnabled(y, LateLoad(m)) && !Harmless(y, LateLoad(m))
    ensures !MapsRight(f, KvDo(f, y, LateLoad(m)))
  {
    var z := KvDo(f, y, LateLoad(m));
    RepAt(f, true, y, m.dst);
    assert !MapRight(f, z.raft.nodes[m.dst], z.reps[m.dst]);
  }

  lemma HarmfulBreaks(f: Machine, y: Sys, s: KvStep)
    requires KvInv(f, true, y) && !Harmless(y, s)
    ensures !MapsRight(f, KvDo(f, y, s))
  {
    match s
    case Raft(SnapInstall(m, save)) => HarmfulInstall(f, y, m, save);
    case LateLoad(m) => HarmfulLoad(f, y, m);
  }

  /** The maps are right after each of the first k steps. */
  ghost predicate RightUpTo(f: Machine, size: nat, steps: seq<KvStep>, k: nat)
    requires k <= |steps|
  {
    forall a {:trigger KvAt(f, size, steps, a)} :: 0 <= a <= k ==> MapsRight(f, KvAt(f, size, steps, a))
  }

  lemma {:induction false} RightIsOrderly(f: Machine, size: nat, steps: seq<KvStep>, k: nat)
    requires Persisted(steps) && k <= |steps| && RightUpTo(f, size, steps, k)
    ensures Orderly(f, size, steps[..k])
    decreases k
  {
    if k > 0 {
      RightIsOrderly(f, size, steps, k - 1);
      assert steps[..k][..k - 1] == steps[..k - 1];
      assert Persisted(steps[..k - 1]);
      KvRunInv(f, true, size, steps[..k - 1]);
      var y := KvAt(f, size, steps, k - 1);
      KvNext(f, size, steps, k);
      assert MapsRight(f, KvAt(f, size, steps, k));
      if !Harmless(y, steps[k - 1]) {
        HarmfulBreaks(f, y, steps[k - 1]);
      }
    }
  }

  /**
    Exactly which runs keep the maps right. In a run that loses no raised term, every map is the replay of what its node has
    applied, all the time, if and only if every install is not behind last_applied or carries the same map, and every load that
    is then refused carries the same map.
   */
  lemma MapsRightIff(f: Machine, size: nat, steps: seq<KvStep>)
    requires Persisted(steps)
    ensures RightUpTo(f, size, steps, |steps|) <==> Orderly(f, size, steps)
  {
    assert steps[..|steps|] == steps;
    if RightUpTo(f, size, steps, |steps|) {
      RightIsOrderly(f, size, steps, |steps|);
    }
    if Orderly(f, size, steps) {
      forall a | 0 <= a <= |steps| ensures MapsRight(f, KvAt(f, size, steps, a)) {
        KvAtInv(f, true, size, steps, a);
        InvMapsRight(f, KvAt(f, size, steps, a));
      }
    }
  }
}
