/**
  Runs in which a map goes wrong: after a snapshot behind last_applied is installed, after a snapshot is loaded and then refused, and
  after a lost term raise. Each shows that one condition of the theorems in Replica cannot be dropped.
 */
module KvRuns {
  import opened Wrappers
  import opened RaftLog
  import opened Protocol
  import opened Cluster
  import opened Command
  import opened KvStore
  import opened Replica
  import opened Safety
  import opened Script
  import C = Counterexample
  import opened MatchRun

  // ---------------------------------------------------------------- runs without snapshots

  function Lift(steps: seq<Step>): (r: seq<KvStep>)
    ensures |r| == |steps|
  {
    if steps == [] then [] else Lift(steps[..|steps| - 1]) + [Raft(steps[|steps| - 1])]
  }

  predicate Untouched(n: Node) { n.snap == 0 && n.saved == [BOOTSTRAP] }

  ghost predicate AllUntouched(c: State) {
    forall i {:trigger c.nodes[i]} :: 0 <= i < |c.nodes| ==> Untouched(c.nodes[i])
  }

  function FreshReps(size: nat): seq<Replica> { seq(size, i => InitReplica()) }

  lemma SimpleUntouched(c: State, s: Step)
    requires AllUntouched(c) && Simple(s)
    ensures AllUntouched(Do(c, s)) && |Do(c, s).nodes| == |c.nodes|
  {
    SameNodes(c, s);
    if Enabled(c, s) {
      forall i | 0 <= i < |c.nodes| ensures Untouched(Do(c, s).nodes[i]) {
        if !s.Crash? {
          StepQuiet(c, s, i);
        }
      }
    }
  }

  /** A step that is not about snapshots, in a system without any: only the protocol moves. */
  lemma LiftStep(f: Machine, y: Sys, s: Step)
    requires |y.reps| == |y.raft.nodes| && AllUntouched(y.raft) && Simple(s) && y.reps == FreshReps(|y.raft.nodes|) && y.sent == map[]
    ensures KvDo(f, y, Raft(s)) == Sys(Do(y.raft, s), y.reps, map[])
  {
    if Enabled(y.raft, s) {
      assert KvEnabled(y, Raft(s));
      var z := KvDo(f, y, Raft(s));
      forall i | 0 <= i < |y.reps| ensures RepAfter(y, s, i) == y.reps[i] {
      }
      assert z.reps == y.reps;
    }
  }

  lemma {:induction false} LiftRun(f: Machine, size: nat, steps: seq<Step>)
    requires Tidy(steps, true)
    ensures KvExec(f, size, Lift(steps)) == Sys(Exec(size, steps), FreshReps(size), map[])
    ensures AllUntouched(Exec(size, steps)) && |Exec(size, steps).nodes| == size
  {
    if steps == [] {
      assert KvExec(f, size, Lift(steps)) == InitSys(size);
    } else {
      var front, s := steps[..|steps| - 1], steps[|steps| - 1];
      LiftRun(f, size, front);
      assert s in steps;
      SimpleUntouched(Exec(size, front), s);
      LiftStep(f, Sys(Exec(size, front), FreshReps(size), map[]), s);
      assert Lift(steps)[..|steps| - 1] == Lift(front);
    }
  }

  lemma {:induction false} LiftPersisted(steps: seq<Step>)
    requires Tidy(steps, false)
    ensures Persisted(Lift(steps))
  {
    if steps != [] {
      LiftPersisted(steps[..|steps| - 1]);
      assert steps[|steps| - 1] in steps;
    }
  }

  lemma {:induction false} LiftPlain(steps: seq<Step>)
    requires Tidy(steps, true)
    ensures forall s :: s in Lift(steps) ==> s.Raft? && !s.s.SnapInstall?
  {
    if steps != [] {
      LiftPlain(steps[..|steps| - 1]);
      assert steps[|steps| - 1] in steps;
    }
  }

  // ---------------------------------------------------------------- classes of runs

  /** A step that may occur in a run of the class. */
  predicate StepIn(y: Sys, s: KvStep, lose: bool, installs: bool, loads: bool)
    requires |y.reps| == |y.raft.nodes|
  {
    && (s.Raft? ==> lose || TermPersisted(s.s))
    && (s.Raft? && s.s.SnapInstall? ==> installs || Harmless(y, s))
    && (s.LateLoad? ==> loads || Harmless(y, s))
  }

  /** The runs in which a raised term may be lost, or not; installs may be harmful, or not; refused loads may be harmful, or not. */
  predicate InClass(f: Machine, size: nat, steps: seq<KvStep>, lose: bool, installs: bool, loads: bool) {
    steps == []
    || (InClass(f, size, steps[..|steps| - 1], lose, installs, loads)
        && StepIn(KvExec(f, size, steps[..|steps| - 1]), steps[|steps| - 1], lose, installs, loads))
  }

  /** Membership that can be read off the steps. */
  predicate Within(s: KvStep, lose: bool, installs: bool, loads: bool) {
    (s.Raft? ==> (lose || TermPersisted(s.s)) && (installs || !s.s.SnapInstall?)) && (s.LateLoad? ==> loads)
  }

  lemma {:induction false} WithinClass(f: Machine, size: nat, steps: seq<KvStep>, lose: bool, installs: bool, loads: bool)
    requires forall s :: s in steps ==> Within(s, lose, installs, loads)
    ensures InClass(f, size, steps, lose, installs, loads)
  {
    if steps != [] {
      WithinClass(f, size, steps[..|steps| - 1], lose, installs, loads);
      assert steps[|steps| - 1] in steps;
    }
  }

  /** The smallest class is the one Replica's theorems speak about. */
  lemma {:induction false} StrictClass(f: Machine, size: nat, steps: seq<KvStep>)
    requires InClass(f, size, steps, false, false, false)
    ensures Persisted(steps) && Orderly(f, size, steps)
  {
    if steps != [] {
      StrictClass(f, size, steps[..|steps| - 1]);
      assert steps == steps[..|steps| - 1] + [steps[|steps| - 1]];
    }
  }

  // ---------------------------------------------------------------- the properties

  /** Nodes that have applied the same number of records hold the same map. */
  ghost predicate EqualMaps(y: Sys) {
    forall i, j {:trigger y.reps[i], y.reps[j]} ::
      0 <= i < |y.reps| && 0 <= j < |y.reps| && y.reps[i].applied == y.reps[j].applied ==> y.reps[i].kv == y.reps[j].kv
  }

  ghost predicate RecoversAt(f: Machine, y: Sys, i: nat)
    requires i < |y.reps| == |y.raft.nodes|
  {
    FullReplay(f, Restart(y.raft.nodes[i], false), Recover(y.raft.nodes[i], y.reps[i]))
  }

  /** Every node would recover the replay of its log. */
  ghost predicate Recovers(f: Machine, y: Sys) {
    |y.reps| == |y.raft.nodes| && forall i {:trigger RecoversAt(f, y, i)} :: 0 <= i < |y.reps| ==> RecoversAt(f, y, i)
  }

  /**
    Node i has applied k records, as many as node j, but its map is not their replay; its newest snapshot holds that map.
   */
  ghost predicate Wrong(f: Machine, y: Sys, i: nat, j: nat, k: nat) {
    && i < |y.reps| == |y.raft.nodes| && j < |y.reps|
    && y.reps[i].applied == y.reps[j].applied == k && y.reps[i].kv != y.reps[j].kv
    && y.raft.nodes[i].saved == y.raft.nodes[i].log && |y.raft.nodes[i].log| == k + 1
    && y.raft.nodes[i].disk.log == y.raft.nodes[i].log && y.raft.nodes[i].disk.commit <= k
    && Replay(f, y.raft.nodes[i].log, k).Some? && Replay(f, y.raft.nodes[i].log, k) != Some(y.reps[i].kv)
    && k in y.reps[i].catalog && y.reps[i].catalog[k] == y.reps[i].kv
  }

  lemma WrongBreaks(f: Machine, y: Sys, i: nat, j: nat, k: nat)
    requires Wrong(f, y, i, j, k)
    ensures !MapsRight(f, y) && !EqualMaps(y) && !Recovers(f, y)
  {
    var n, r := y.raft.nodes[i], y.reps[i];
    assert !MapRight(f, n, r);
    assert Restore(n.log, n.log) == n.log;
    var n' := Restart(n, false);
    assert n'.log == n.log && n'.commit == k;
    assert CatchUp(f, n', Recover(n, r)) == Recover(n, r);
    assert !RecoversAt(f, y, i);
  }

  lemma StrictHolds(f: Machine, size: nat, steps: seq<KvStep>)
    requires InClass(f, size, steps, false, false, false)
    ensures MapsRight(f, KvExec(f, size, steps)) && EqualMaps(KvExec(f, size, steps)) && Recovers(f, KvExec(f, size, steps))
  {
    StrictClass(f, size, steps);
    KvRunInv(f, true, size, steps);
    InvMapsRight(f, KvExec(f, size, steps));
    assert steps[..|steps|] == steps;
    var y := KvExec(f, size, steps);
    forall i, j | 0 <= i < |y.reps| && 0 <= j < |y.reps| && y.reps[i].applied == y.reps[j].applied
      ensures y.reps[i].kv == y.reps[j].kv
    {
      ReplicasAgree(f, size, steps, |steps|, |steps|, i, j);
    }
    forall i | 0 <= i < |y.reps| ensures RecoversAt(f, y, i) {
      RecoveryIsReplay(f, size, steps, i, false);
    }
  }

  // ---------------------------------------------------------------- single steps of a system

  lemma KvMore(f: Machine, steps: seq<KvStep>, s: KvStep)
    ensures KvExec(f, 5, steps + [s]) == KvDo(f, KvExec(f, 5, steps), s)
  {
    assert (steps + [s])[..|steps|] == steps;
  }

  lemma ApplyEffect(f: Machine, y: Sys, i: nat, kv: Kv)
    requires i < |y.reps| == |y.raft.nodes| && y.reps[i].applied < y.raft.nodes[i].commit
    requires y.reps[i].applied + 1 < |y.raft.nodes[i].log|
    requires f(y.reps[i].kv, y.raft.nodes[i].log[y.reps[i].applied + 1].command) == Some(kv)
    ensures KvDo(f, y, Apply(i)) == y.(reps := y.reps[i := y.reps[i].(applied := y.reps[i].applied + 1, kv := kv)])
  {
  }

  /** Node i applies everything up to index k. */
  lemma {:induction false} ApplyUpTo(f: Machine, steps: seq<KvStep>, i: nat, k: nat) returns (more: seq<KvStep>)
    requires i < |KvExec(f, 5, steps).reps|
    requires var y := KvExec(f, 5, steps);
             && y.reps[i].applied <= k <= y.raft.nodes[i].commit < |y.raft.nodes[i].log|
             && Replay(f, y.raft.nodes[i].log, y.reps[i].applied) == Some(y.reps[i].kv) && Replay(f, y.raft.nodes[i].log, k).Some?
    ensures var y, z := KvExec(f, 5, steps), KvExec(f, 5, more);
            z == y.(reps := y.reps[i := y.reps[i].(applied := k, kv := Replay(f, y.raft.nodes[i].log, k).value)])
    ensures steps <= more && forall s :: s in more ==> s in steps || s == Apply(i)
    decreases k - KvExec(f, 5, steps).reps[i].applied
  {
    var y := KvExec(f, 5, steps);
    var r, log := y.reps[i], y.raft.nodes[i].log;
    if r.applied == k {
      more := steps;
      assert y.reps[i := r.(applied := k, kv := Replay(f, log, k).value)] == y.reps;
    } else {
      ReplayPrefix(f, log, k, r.applied + 1);
      var kv := Replay(f, log, r.applied + 1).value;
      ApplyEffect(f, y, i, kv);
      KvMore(f, steps, Apply(i));
      var next := steps + [Apply(i)];
      more := ApplyUpTo(f, next, i, k);
      assert steps <= next;
    }
  }

  /** A protocol step that is not about snapshots. */
  lemma QuietEffect(f: Machine, y: Sys, s: Step)
    requires |y.reps| == |y.raft.nodes| && Enabled(y.raft, s) && !MovesSnapshots(s) && !s.Send?
    ensures KvDo(f, y, Raft(s)) == y.(raft := Do(y.raft, s))
  {
    assert KvEnabled(y, Raft(s));
    forall i | 0 <= i < |y.reps| ensures RepAfter(y, s, i) == y.reps[i] {
      SameReplica(y, s, i);
    }
    assert KvDo(f, y, Raft(s)).reps == y.reps;
  }

  lemma LocalSnapshotEffect(f: Machine, y: Sys, i: nat)
    requires i < |y.reps| == |y.raft.nodes| && y.reps[i].applied <= y.raft.nodes[i].commit < |y.raft.nodes[i].log|
    ensures var n, r, z := y.raft.nodes[i], y.reps[i], KvDo(f, y, Raft(LocalSnapshot(i, y.reps[i].applied)));
            && z.raft == y.raft.(nodes := y.raft.nodes[i := SaveSnapshot(n, n.log[..r.applied + 1])])
            && z.reps == y.reps[i := r.(catalog := r.catalog[r.applied := r.kv])] && z.sent == y.sent
  {
    var s := LocalSnapshot(i, y.reps[i].applied);
    SnapshotEffect(y.raft, i, y.reps[i].applied);
    assert KvEnabled(y, Raft(s));
    var r := y.reps[i];
    assert KvDo(f, y, Raft(s)).reps == y.reps[i := r.(catalog := r.catalog[r.applied := r.kv])];
  }

  lemma LocalCompactEffect(f: Machine, y: Sys, i: nat, k: nat)
    requires i < |y.reps| == |y.raft.nodes| && k <= y.reps[i].applied && k <= y.raft.nodes[i].commit && k < |y.raft.nodes[i].saved|
    ensures KvDo(f, y, Raft(LocalCompact(i, k, Ok))) ==
            y.(raft := y.raft.(nodes := y.raft.nodes[i := Compact(y.raft.nodes[i], k, Ok)]))
  {
    CompactEffect(y.raft, i, k);
    assert KvEnabled(y, Raft(LocalCompact(i, k, Ok)));
    assert KvDo(f, y, Raft(LocalCompact(i, k, Ok))).reps == y.reps;
  }

  lemma SendEffect(f: Machine, y: Sys, i: nat, p: nat)
    requires i < |y.reps| == |y.raft.nodes| && p < |y.reps| && p != i && y.raft.nodes[i].role == Leader
    requires Snapshotting(y.raft.nodes[i], p) && LastIndex(SnapshotToSend(y.raft.nodes[i], false)) in y.reps[i].catalog
    ensures var n, z := y.raft.nodes[i], KvDo(f, y, Raft(Send(i, p, false)));
            var m := SnapReq(i, p, n.term, SnapshotToSend(n, false));
            && z.raft.nodes == y.raft.nodes && z.reps == y.reps && m in z.raft.net && y.raft.net <= z.raft.net
            && z.sent == y.sent[m := y.reps[i].catalog[LastIndex(m.snapshot)]]
  {
    SendSnapshotEffect(y.raft, i, p);
    assert KvEnabled(y, Raft(Send(i, p, false)));
    assert KvDo(f, y, Raft(Send(i, p, false))).reps == y.reps;
  }

  lemma SaveEffect(f: Machine, y: Sys, m: Message)
    requires |y.reps| == |y.raft.nodes| && Delivered(y.raft, m) && m.SnapReq? && y.raft.nodes[m.dst].term >= m.term && m in y.sent
    ensures var r, z := y.reps[m.dst], KvDo(f, y, Raft(SnapSave(m)));
            && z.raft == y.raft.(nodes := y.raft.nodes[m.dst := SaveSnapshot(y.raft.nodes[m.dst], m.snapshot)])
            && z.reps == y.reps[m.dst := r.(catalog := r.catalog[LastIndex(m.snapshot) := y.sent[m]])] && z.sent == y.sent
  {
    SnapSaveEffect(y.raft, m);
    assert KvEnabled(y, Raft(SnapSave(m)));
    var r := y.reps[m.dst];
    assert KvDo(f, y, Raft(SnapSave(m))).reps == y.reps[m.dst := r.(catalog := r.catalog[LastIndex(m.snapshot) := y.sent[m]])];
  }

  lemma InstallEffect(f: Machine, y: Sys, m: Message)
    requires |y.reps| == |y.raft.nodes| && Enabled(y.raft, SnapInstall(m, Ok)) && m in y.sent
    ensures var r, z := y.reps[m.dst], KvDo(f, y, Raft(SnapInstall(m, Ok)));
            && z.raft.nodes == y.raft.nodes[m.dst := SnapshotInstall(y.raft.nodes[m.dst], m, Ok).0]
            && z.reps == y.reps[m.dst := r.(kv := y.sent[m], applied := Max(r.applied, LastIndex(m.snapshot)))]
  {
    assert KvEnabled(y, Raft(SnapInstall(m, Ok)));
    var r := y.reps[m.dst];
    assert KvDo(f, y, Raft(SnapInstall(m, Ok))).reps
        == y.reps[m.dst := r.(kv := y.sent[m], applied := Max(r.applied, LastIndex(m.snapshot)))];
  }

  // ---------------------------------------------------------------- two records on every node that matters

  const N := Entry(1, NO_OP)
  const S := Entry(1, Serialize(Set("k", "v")))
  const LOG: Log := [BOOTSTRAP, N, S]
  const NEW: Kv := map["k" := "v"]
  const EMPTY: Kv := map[]
  const BOTH := AppendReq(0, 1, 1, 0, 0, [N, S], 2)
  const OLD := SnapReq(0, 1, 1, [BOOTSTRAP, N])

  /** What the two records do. */
  ghost predicate Writes(f: Machine) {
    Replay(f, LOG, 0) == Some(EMPTY) && Replay(f, LOG, 1) == Some(EMPTY) && Replay(f, LOG, 2) == Some(NEW)
  }

  lemma Replays()
    ensures Writes(EFFECT)
  {
    TransportFaithful(map[], Set("k", "v"));
    assert Replay(EFFECT, LOG, 1) == EFFECT(EMPTY, NO_OP);
    assert Replay(EFFECT, LOG, 2) == EFFECT(EMPTY, S.command);
  }

  lemma NewIsNotEmpty()
    ensures EMPTY != NEW
  {
    assert "k" in NEW;
  }

  lemma BatchTwo()
    ensures BatchCount(LOG, 1, 0, 0) == 2 && LOG[1..3] == [N, S]
  {
    assert SizeOf(LOG, 2, 1) == 7 + SizeOf(LOG, 3, 0);
    assert SizeOf(LOG, 1, 2) == 22 + SizeOf(LOG, 2, 1);
    BatchIs(LOG, 1, 0, 0, 2);
  }

  lemma AcceptTwo(n: Node, m: Message, k: nat)
    requires m.AppendReq? && m.term == 1 && m.prevIndex == 0 && m.prevTerm == 0 && m.entries == [N, S] && m.leaderCommit == k <= 2
    requires Plain(n, n.term, [BOOTSTRAP], 0) && n.term <= 1
    ensures var (n', reply) := OnAppendEntries(n, m, Ok, Ok, Ok);
            && Plain(n', 1, LOG, k) && n'.disk.log == LOG && n'.disk.commit == k
            && reply == AppendResp(m.dst, m.src, 1, 1, true, 2, 2, 0, 0)
  {
    MergeAppends([BOOTSTRAP], [N, S]);
    assert [BOOTSTRAP] + [N, S] == LOG;
  }

  lemma GiveTwo(steps: seq<Step>, p: nat) returns (more: seq<Step>)
    requires 0 < p < 5 && Five(Run(steps)) && Leads(Run(steps), 0, 1, LOG, Run(steps).nodes[0].commit) && Run(steps).nodes[0].commit <= 2
    requires Get(Run(steps).nodes[0].next, p) == 1
    requires Run(steps).nodes[p].term <= 1 && Plain(Run(steps).nodes[p], Run(steps).nodes[p].term, [BOOTSTRAP], 0)
    ensures var c, d := Run(steps), Run(more);
            var k := c.nodes[0].commit;
            && Five(d) && d.nodes == c.nodes[p := d.nodes[p]] && Same(c, d) && Plain(d.nodes[p], 1, LOG, k)
            && d.nodes[p].disk.log == LOG && d.nodes[p].disk.commit == k
            && AppendResp(p, 0, 1, 1, true, 2, 2, 0, 0) in d.net
    ensures StaysTidy(steps, more)
  {
    var n := Run(steps).nodes[0];
    BatchTwo();
    more := Post(steps, 0, p);
    var m := BuildAppend(n, 0, p);
    AcceptTwo(Run(more).nodes[p], m, n.commit);
    more := Deliver(more, m, Ok);
  }

  lemma Confirm(n: Node)
    requires LeaderNode(n, 1, LOG, 0) && forall p :: 0 <= p < 5 && p != 0 ==> Get(n.next, p) == 1 && Get(n.matched, p) == 0
    ensures var n1 := OnAppendResponse(n, 0, 5, AppendResp(3, 0, 1, 1, true, 2, 2, 0, 0), Ok, Ok);
            var n2 := OnAppendResponse(n1, 0, 5, AppendResp(4, 0, 1, 1, true, 2, 2, 0, 0), Ok, Ok);
            LeaderNode(n2, 1, LOG, 2) && Get(n2.next, 1) == 1
  {
    assert Get(n.matched, 1) == 0 && Get(n.matched, 2) == 0 && Get(n.matched, 4) == 0 && Get(n.next, 1) == 1;
    var m1 := n.(matched := n.matched[3 := 2], next := n.next[3 := Max(Get(n.next, 3), 3)]);
    assert Get(m1.matched, 1) == 0 && Get(m1.matched, 2) == 0 && Get(m1.matched, 4) == 0;
    assert Replicated(m1, 0, 5, 2) == {3} && Replicated(m1, 0, 5, 1) == {3};
    assert CommitScan(m1, 0, 5, 2) == CommitScan(m1, 0, 5, 1) == CommitScan(m1, 0, 5, 0) == 0;
    var m2 := m1.(matched := m1.matched[4 := 2], next := m1.next[4 := Max(Get(m1.next, 4), 3)]);
    assert Get(m2.matched, 1) == 0 && Get(m2.matched, 2) == 0 && Get(m2.matched, 3) == 2 && Get(m2.matched, 4) == 2;
    assert Replicated(m2, 0, 5, 2) == {3, 4};
    assert CommitScan(m2, 0, 5, 2) == 2;
  }

  /** Node 0 leads with both records committed; node 1 has them too; the leader still counts node 1 from the start. */
  predicate Ready(c: State) {
    && Five(c) && Leads(c, 0, 1, LOG, 2) && Get(c.nodes[0].next, 1) == 1
    && Plain(c.nodes[1], 1, LOG, 2) && c.nodes[1].disk.log == LOG && c.nodes[1].disk.commit == 2
  }

  lemma Prepare() returns (steps: seq<Step>)
    ensures Ready(Run(steps)) && Tidy(steps, false)
  {
    assert Run([]) == Init(5);
    steps := Elect([], 0, [BOOTSTRAP]);
    steps := WriteAll(steps, 0, 1, [BOOTSTRAP], [N, S]);
    assert [BOOTSTRAP] + [N, S] == LOG;
    steps := GiveTwo(steps, 3);
    steps := GiveTwo(steps, 4);
    Confirm(Run(steps).nodes[0]);
    steps := Answer(steps, AppendResp(3, 0, 1, 1, true, 2, 2, 0, 0));
    steps := Answer(steps, AppendResp(4, 0, 1, 1, true, 2, 2, 0, 0));
    steps := GiveTwo(steps, 1);
  }

  // ---------------------------------------------------------------- an old snapshot on its way

  function Rep(applied: nat, kv: Kv, catalog: map<nat, Kv>): Replica { Replica(applied, kv, catalog) }

  const CAT0: map<nat, Kv> := map[0 := EMPTY]

  /** All steps stay inside the class. */
  ghost predicate AllWithin(steps: seq<KvStep>, lose: bool, installs: bool, loads: bool) {
    forall s :: s in steps ==> Within(s, lose, installs, loads)
  }

  /** The snapshot at index 1 is on its way to node 1, which has applied index 2. */
  ghost predicate Underway(y: Sys) {
    && |y.reps| == |y.raft.nodes| == 5 && OLD in y.raft.net && OLD in y.sent && y.sent[OLD] == EMPTY
    && Plain(y.raft.nodes[1], 1, LOG, 2) && y.raft.nodes[1].disk.log == LOG && y.raft.nodes[1].disk.commit == 2
    && y.reps[0].applied == 2 && y.reps[0].kv == NEW && y.reps[1] == Rep(2, NEW, CAT0)
  }

  lemma ShortSnapshot(n: Node)
    requires n.log == LOG && n.saved == [BOOTSTRAP] && n.commit == 2 && n.snap == 0 && n.role == Leader && n.term == 1 && Get(n.next, 1) == 1
    ensures var n1 := SaveSnapshot(n, n.log[..2]);
            var n2 := Compact(n1, 1, Ok);
            && n1.commit == 2 && |n1.saved| == 2 && Snapshotting(n2, 1) && SnapshotToSend(n2, false) == [BOOTSTRAP, N]
            && n2.role == Leader && n2.term == 1 && n2.log == LOG && n2.commit == 2
  {
    assert LOG[..2] == [BOOTSTRAP, N];
  }

  /** Node 0 applies the first record, snapshots, compacts and sends; then both nodes apply the rest. */
  lemma SnapshotSent(f: Machine) returns (steps: seq<KvStep>)
    requires Writes(f)
    ensures Underway(KvExec(f, 5, steps)) && AllWithin(steps, false, false, false)
  {
    steps := Prepared(f);
    steps := Shipped(f, steps);
    steps := ApplyUpTo(f, steps, 0, 2);
    steps := ApplyUpTo(f, steps, 1, 2);
  }

  lemma Prepared(f: Machine) returns (steps: seq<KvStep>)
    requires Writes(f)
    ensures OneApplied(KvExec(f, 5, steps)) && AllWithin(steps, false, false, false)
  {
    var raft := Prepare();
    LiftRun(f, 5, raft);
    LiftPersisted(raft);
    LiftPlain(raft);
    steps := Lift(raft);
    assert AllWithin(steps, false, false, false);
    steps := ApplyUpTo(f, steps, 0, 1);
  }

  /** Node 0 has applied the first record and nothing was sent. */
  ghost predicate OneApplied(y: Sys) {
    && |y.reps| == |y.raft.nodes| == 5 && Ready(y.raft) && y.reps[0] == Rep(1, EMPTY, CAT0) && y.reps[1] == InitReplica()
    && y.sent == map[]
  }

  /** Node 0 has a snapshot of it, and the log compacted to it. */
  ghost predicate Compacted(y: Sys) {
    && |y.reps| == |y.raft.nodes| == 5 && Plain(y.raft.nodes[1], 1, LOG, 2)
    && y.raft.nodes[1].disk.log == LOG && y.raft.nodes[1].disk.commit == 2
    && y.reps[0] == Rep(1, EMPTY, CAT0[1 := EMPTY]) && y.reps[1] == InitReplica() && y.sent == map[]
    && ShortLog(y.raft.nodes[0])
  }

  predicate ShortLog(n: Node) {
    && n.role == Leader && n.term == 1 && n.log == LOG && n.commit == 2
    && Snapshotting(n, 1) && SnapshotToSend(n, false) == [BOOTSTRAP, N]
  }

  lemma CompactsLog(f: Machine, y: Sys)
    requires OneApplied(y)
    ensures Compacted(KvDo(f, KvDo(f, y, Raft(LocalSnapshot(0, 1))), Raft(LocalCompact(0, 1, Ok))))
  {
    ShortSnapshot(y.raft.nodes[0]);
    LocalSnapshotEffect(f, y, 0);
    var y1 := KvDo(f, y, Raft(LocalSnapshot(0, 1)));
    LocalCompactEffect(f, y1, 0, 1);
  }

  /** The old snapshot is on its way. */
  ghost predicate SentOld(y: Sys) {
    && |y.reps| == |y.raft.nodes| == 5 && Plain(y.raft.nodes[1], 1, LOG, 2)
    && y.raft.nodes[1].disk.log == LOG && y.raft.nodes[1].disk.commit == 2
    && y.raft.nodes[0].log == LOG && y.raft.nodes[0].commit == 2
    && y.reps[0].applied == 1 && y.reps[0].kv == EMPTY && y.reps[1] == InitReplica()
    && OLD in y.raft.net && OLD in y.sent && y.sent[OLD] == EMPTY
  }

  lemma SendsOld(f: Machine, y: Sys)
    requires Compacted(y)
    ensures SentOld(KvDo(f, y, Raft(Send(0, 1, false))))
  {
    SendEffect(f, y, 0, 1);
  }

  /** The snapshot, the compaction and the request. */
  lemma Shipped(f: Machine, steps: seq<KvStep>) returns (more: seq<KvStep>)
    requires OneApplied(KvExec(f, 5, steps))
    ensures SentOld(KvExec(f, 5, more))
    ensures AllWithin(steps, false, false, false) ==> AllWithin(more, false, false, false)
  {
    var a, b, c := Raft(LocalSnapshot(0, 1)), Raft(LocalCompact(0, 1, Ok)), Raft(Send(0, 1, false));
    CompactsLog(f, KvExec(f, 5, steps));
    TwoMore(f, steps, a, b);
    more := steps + [a] + [b];
    SendsOld(f, KvExec(f, 5, more));
    KvMore(f, more, c);
    more := more + [c];
    ThreeWithin(steps, a, b, c);
  }

  lemma TwoMore(f: Machine, steps: seq<KvStep>, a: KvStep, b: KvStep)
    ensures KvExec(f, 5, steps + [a] + [b]) == KvDo(f, KvDo(f, KvExec(f, 5, steps), a), b)
  {
    KvMore(f, steps, a);
    KvMore(f, steps + [a], b);
  }

  lemma ThreeWithin(steps: seq<KvStep>, a: KvStep, b: KvStep, c: KvStep)
    requires Within(a, false, false, false) && Within(b, false, false, false) && Within(c, false, false, false)
    ensures AllWithin(steps, false, false, false) ==> AllWithin(steps + [a] + [b] + [c], false, false, false)
  {
  }

  /** Node 1 begins the install and saves the snapshot. */
  lemma BeginNode(n: Node)
    requires Plain(n, 1, LOG, 2) && n.disk.log == LOG && n.disk.commit == 2
    ensures var n1 := SnapshotBegin(n, OLD, Ok).0;
            var n2 := SaveSnapshot(n1, OLD.snapshot);
            && n1.term == 1 && n2.role == Follower && n2.term == 1 && n2.log == LOG && n2.commit == 2 && n2.snap == 0
            && n2.saved == [BOOTSTRAP, N] && n2.disk.log == LOG && n2.disk.commit == 2
  {
  }

  predicate HoldsOld(n: Node) {
    && n.role == Follower && n.term == 1 && n.log == LOG && n.commit == 2 && n.snap == 0
    && n.saved == [BOOTSTRAP, N] && n.disk.log == LOG && n.disk.commit == 2
  }

  /** The snapshot is in the catalog of node 1. */
  ghost predicate Begun(y: Sys) {
    && |y.reps| == |y.raft.nodes| == 5 && OLD in y.raft.net && OLD in y.sent && y.sent[OLD] == EMPTY
    && HoldsOld(y.raft.nodes[1])
    && y.reps[0].applied == 2 && y.reps[0].kv == NEW && y.reps[1] == Rep(2, NEW, CAT0[1 := EMPTY])
  }

  lemma Begins(f: Machine, y: Sys)
    requires Underway(y)
    ensures Begun(KvDo(f, KvDo(f, y, Raft(SnapBegin(OLD, Ok))), Raft(SnapSave(OLD))))
  {
    BeginNode(y.raft.nodes[1]);
    SnapBeginEffect(y.raft, OLD, Ok);
    QuietEffect(f, y, SnapBegin(OLD, Ok));
    var y1 := KvDo(f, y, Raft(SnapBegin(OLD, Ok)));
    SaveEffect(f, y1, OLD);
  }

  lemma Begin(f: Machine) returns (steps: seq<KvStep>)
    requires Writes(f)
    ensures Begun(KvExec(f, 5, steps)) && AllWithin(steps, false, false, false)
  {
    steps := SnapshotSent(f);
    Begins(f, KvExec(f, 5, steps));
    TwoMore(f, steps, Raft(SnapBegin(OLD, Ok)), Raft(SnapSave(OLD)));
    steps := steps + [Raft(SnapBegin(OLD, Ok))] + [Raft(SnapSave(OLD))];
  }

  // ---------------------------------------------------------------- the three runs

  /** Node i has applied k records, all it has, as many as node j, and its map is neither their replay nor j's map. */
  ghost predicate Astray(f: Machine, y: Sys, i: nat, j: nat, k: nat) {
    && |y.reps| == |y.raft.nodes| == 5 && i < 5 && j < 5 && i != j
    && y.reps[i].applied == y.reps[j].applied == k && y.reps[i].kv != y.reps[j].kv
    && AllOf(y.raft.nodes[i], k)
    && Replay(f, y.raft.nodes[i].log, k).Some? && Replay(f, y.raft.nodes[i].log, k) != Some(y.reps[i].kv)
  }

  predicate AllOf(n: Node, k: nat) {
    |n.log| == k + 1 && n.commit == k && |n.saved| < k + 1 && n.disk.log == n.log && n.disk.commit <= k
  }

  /** The next snapshot makes the wrong map permanent. */
  lemma Sealed(f: Machine, y: Sys, i: nat, j: nat, k: nat)
    requires Astray(f, y, i, j, k)
    ensures Wrong(f, KvDo(f, y, Raft(LocalSnapshot(i, k))), i, j, k)
  {
    LocalSnapshotEffect(f, y, i);
    assert y.raft.nodes[i].log[..k + 1] == y.raft.nodes[i].log;
  }

  lemma Seal(f: Machine, steps: seq<KvStep>, i: nat, j: nat, k: nat) returns (more: seq<KvStep>)
    requires Astray(f, KvExec(f, 5, steps), i, j, k)
    ensures Wrong(f, KvExec(f, 5, more), i, j, k) && more == steps + [Raft(LocalSnapshot(i, k))]
  {
    more := steps + [Raft(LocalSnapshot(i, k))];
    KvMore(f, steps, Raft(LocalSnapshot(i, k)));
    Sealed(f, KvExec(f, 5, steps), i, j, k);
  }

  lemma InstallNode(n: Node)
    requires HoldsOld(n)
    ensures SnapshotInstall(n, OLD, Ok).0.log == LOG && AllOf(SnapshotInstall(n, OLD, Ok).0, 2)
  {
    assert [BOOTSTRAP, N] + LOG[2..] == LOG;
  }

  lemma InstallGoesAstray(f: Machine, y: Sys)
    requires Begun(y) && Writes(f)
    ensures Astray(f, KvDo(f, y, Raft(SnapInstall(OLD, Ok))), 1, 0, 2)
  {
    InstallNode(y.raft.nodes[1]);
    InstallEffect(f, y, OLD);
    NewIsNotEmpty();
  }

  /** A snapshot behind last_applied is installed; every persist succeeds. */
  lemma OldInstall(f: Machine) returns (steps: seq<KvStep>)
    requires Writes(f)
    ensures Wrong(f, KvExec(f, 5, steps), 1, 0, 2) && AllWithin(steps, false, true, false)
  {
    var front := Begin(f);
    InstallEnds(f, front);
    steps := front + [Raft(SnapInstall(OLD, Ok))] + [Raft(LocalSnapshot(1, 2))];
  }

  lemma InstallEnds(f: Machine, front: seq<KvStep>)
    requires Writes(f) && Begun(KvExec(f, 5, front))
    ensures Wrong(f, KvExec(f, 5, front + [Raft(SnapInstall(OLD, Ok))] + [Raft(LocalSnapshot(1, 2))]), 1, 0, 2)
  {
    InstallSealed(f, KvExec(f, 5, front));
    TwoMore(f, front, Raft(SnapInstall(OLD, Ok)), Raft(LocalSnapshot(1, 2)));
  }

  lemma InstallSealed(f: Machine, y: Sys)
    requires Begun(y) && Writes(f)
    ensures Wrong(f, KvDo(f, KvDo(f, y, Raft(SnapInstall(OLD, Ok))), Raft(LocalSnapshot(1, 2))), 1, 0, 2)
  {
    InstallGoesAstray(f, y);
    Sealed(f, KvDo(f, y, Raft(SnapInstall(OLD, Ok))), 1, 0, 2);
  }

  lemma StandAside(f: Machine, y: Sys)
    requires Begun(y)
    ensures var z := KvDo(f, y, Raft(Timeout(1, Ok)));
            && |z.reps| == |z.raft.nodes| == 5 && OLD in z.raft.net && z.sent == y.sent && z.reps == y.reps
            && z.raft.nodes[1].term == 2 && z.raft.nodes[1].log == LOG && AllOf(z.raft.nodes[1], 2)
  {
    StandEffect(y.raft, 1);
    QuietEffect(f, y, Timeout(1, Ok));
  }

  lemma LoadGoesAstray(f: Machine, y: Sys)
    requires |y.reps| == |y.raft.nodes| == 5 && OLD in y.raft.net && OLD in y.sent && y.sent[OLD] == EMPTY
    requires y.raft.nodes[1].term == 2 && y.raft.nodes[1].log == LOG && AllOf(y.raft.nodes[1], 2)
    requires y.reps[0].applied == 2 && y.reps[0].kv == NEW && y.reps[1].applied == 2
    requires Writes(f)
    ensures Astray(f, KvDo(f, y, LateLoad(OLD)), 1, 0, 2)
  {
    NewIsNotEmpty();
  }

  /** A snapshot is loaded and then refused, because the node has moved to a newer term. */
  lemma RefusedLoad(f: Machine) returns (steps: seq<KvStep>)
    requires Writes(f)
    ensures Wrong(f, KvExec(f, 5, steps), 1, 0, 2) && AllWithin(steps, false, false, true)
  {
    var front := Begin(f);
    LoadEnds(f, front);
    steps := front + [Raft(Timeout(1, Ok))] + [LateLoad(OLD)] + [Raft(LocalSnapshot(1, 2))];
  }

  lemma LoadEnds(f: Machine, front: seq<KvStep>)
    requires Writes(f) && Begun(KvExec(f, 5, front))
    ensures Wrong(f, KvExec(f, 5, front + [Raft(Timeout(1, Ok))] + [LateLoad(OLD)] + [Raft(LocalSnapshot(1, 2))]), 1, 0, 2)
  {
    var a, b, c := Raft(Timeout(1, Ok)), LateLoad(OLD), Raft(LocalSnapshot(1, 2));
    LoadSealed(f, KvExec(f, 5, front));
    TwoMore(f, front, a, b);
    KvMore(f, front + [a] + [b], c);
  }

  lemma LoadSealed(f: Machine, y: Sys)
    requires Begun(y) && Writes(f)
    ensures Wrong(f, KvDo(f, KvDo(f, KvDo(f, y, Raft(Timeout(1, Ok))), LateLoad(OLD)), Raft(LocalSnapshot(1, 2))), 1, 0, 2)
  {
    StandAside(f, y);
    LoadGoesAstray(f, KvDo(f, y, Raft(Timeout(1, Ok))));
    Sealed(f, KvDo(f, KvDo(f, y, Raft(Timeout(1, Ok))), LateLoad(OLD)), 1, 0, 2);
  }

  /** What the replays below need to know about the machine. */
  ghost predicate SetsValues(f: Machine) {
    && (forall kv {:trigger f(kv, NO_OP)} :: f(kv, NO_OP) == Some(kv))
    && (forall kv, n {:trigger f(kv, C.SetOf(n).command)} :: n > 0 ==> f(kv, C.SetOf(n).command) == Some(kv["k" := C.Filled(n)]))
    && (forall kv {:trigger f(kv, C.Y.command)} :: f(kv, C.Y.command) == Some(kv["k" := "v"]))
  }

  lemma EffectSetsValues()
    ensures SetsValues(EFFECT)
  {
    forall kv: Kv, n: nat | n > 0 ensures EFFECT(kv, C.SetOf(n).command) == Some(kv["k" := C.Filled(n)]) {
      assert forall i :: 0 <= i < n ==> C.Filled(n)[i] == 'x';
      TransportFaithful(kv, Set("k", C.Filled(n)));
    }
    forall kv: Kv ensures EFFECT(kv, C.Y.command) == Some(kv["k" := "v"]) {
      TransportFaithful(kv, Set("k", "v"));
    }
  }

  lemma SetReplay(f: Machine, log: Log, k: nat, n: nat, kv: Kv)
    requires SetsValues(f) && k + 1 < |log| && n > 0 && log[k + 1] == C.SetOf(n) && Replay(f, log, k) == Some(kv) && kv.Keys <= {"k"}
    ensures Replay(f, log, k + 1) == Some(map["k" := C.Filled(n)])
  {
    assert Replay(f, log, k + 1) == f(kv, C.SetOf(n).command);
    assert kv["k" := C.Filled(n)] == map["k" := C.Filled(n)];
  }

  /** The records of the counterexample, replayed. */
  lemma {:induction false} BigReplays(f: Machine, log: Log, k: nat)
    requires SetsValues(f) && |log| == 11 && log[1].command == NO_OP && (forall j :: 2 <= j <= 8 ==> log[j] == C.BIG) && 2 <= k <= 8
    ensures Replay(f, log, k) == Some(map["k" := C.Filled(C.MAX_VALUE_BYTES)])
  {
    if k == 2 {
      assert Replay(f, log, 1) == f(map[], NO_OP);
      SetReplay(f, log, 1, C.MAX_VALUE_BYTES, map[]);
    } else {
      BigReplays(f, log, k - 1);
      SetReplay(f, log, k - 1, C.MAX_VALUE_BYTES, map["k" := C.Filled(C.MAX_VALUE_BYTES)]);
    }
  }

  lemma PReplays(f: Machine, log: Log)
    requires SetsValues(f) && |log| == 11 && log[..10] == C.P
    ensures Replay(f, log, 9) == Some(map["k" := C.Filled(65448)])
  {
    C.Records();
    forall j | 0 <= j < 10 ensures log[j] == C.P[j] {
      assert log[j] == log[..10][j];
    }
    BigReplays(f, log, 8);
    SetReplay(f, log, 8, 65448, map["k" := C.Filled(C.MAX_VALUE_BYTES)]);
  }

  lemma DifferentValues(a: string, b: string)
    requires |a| != |b|
    ensures map["k" := a] != map["k" := b]
  {
    assert map["k" := a]["k"] != map["k" := b]["k"];
  }

  lemma BothReplays(f: Machine)
    requires SetsValues(f)
    ensures Replay(f, C.SECOND, 10) == Some(map["k" := C.Filled(65448)])
    ensures Replay(f, C.STALE, 10) == Some(map["k" := "v"])
    ensures map["k" := "v"] != map["k" := C.Filled(65448)]
  {
    C.Records();
    var kv := map["k" := C.Filled(65448)];
    assert C.SECOND[..10] == C.P && C.STALE[..10] == C.P;
    PReplays(f, C.SECOND);
    PReplays(f, C.STALE);
    assert Replay(f, C.SECOND, 10) == f(kv, NO_OP);
    assert Replay(f, C.STALE, 10) == f(kv, C.Y.command);
    assert kv["k" := "v"] == map["k" := "v"];
    DifferentValues("v", C.Filled(65448));
  }

  lemma CutGoesAstray(f: Machine, y: Sys, c: State)
    requires y.raft == c && Five(c) && |y.reps| == 5 && Delivered(c, C.CUT)
    requires Do(c, RecvAppendReq(C.CUT, Ok, Ok, Ok)).nodes == c.nodes[2 := Do(c, RecvAppendReq(C.CUT, Ok, Ok, Ok)).nodes[2]]
    requires var n := Do(c, RecvAppendReq(C.CUT, Ok, Ok, Ok)).nodes[2];
             Plain(n, 2, C.SECOND, 10) && n.disk.log == n.log && n.disk.commit <= 10
    requires y.reps[2].applied == y.reps[1].applied == 10 && y.reps[2].kv == map["k" := "v"] && y.reps[1].kv == map["k" := C.Filled(65448)]
    requires Replay(f, C.SECOND, 10) == Some(y.reps[1].kv) && y.reps[1].kv != y.reps[2].kv
    ensures Astray(f, KvDo(f, y, Raft(RecvAppendReq(C.CUT, Ok, Ok, Ok))), 2, 1, 10)
  {
    C.Records();
    QuietEffect(f, y, RecvAppendReq(C.CUT, Ok, Ok, Ok));
  }

  /** A lost term raise lets a node apply a record that is then cut. */
  lemma LostRaise() returns (steps: seq<KvStep>)
    ensures Wrong(EFFECT, KvExec(EFFECT, 5, steps), 2, 1, 10) && AllWithin(steps, true, false, false)
  {
    var raft := C.Cut();
    C.Records();
    EffectSetsValues();
    BothReplays(EFFECT);
    LiftRun(EFFECT, 5, raft);
    LiftPlain(raft);
    steps := Lift(raft);
    assert AllWithin(steps, true, false, false);
    steps := ApplyUpTo(EFFECT, steps, 2, 10);
    steps := ApplyUpTo(EFFECT, steps, 1, 10);
    CutGoesAstray(EFFECT, KvExec(EFFECT, 5, steps), Run(raft));
    KvMore(EFFECT, steps, Raft(RecvAppendReq(C.CUT, Ok, Ok, Ok)));
    steps := steps + [Raft(RecvAppendReq(C.CUT, Ok, Ok, Ok))];
    steps := Seal(EFFECT, steps, 2, 1, 10);
  }

  // ---------------------------------------------------------------- the equivalences

  lemma SomeRunIsWrong(lose: bool, installs: bool, loads: bool) returns (steps: seq<KvStep>)
    requires lose || installs || loads
    ensures InClass(EFFECT, 5, steps, lose, installs, loads)
    ensures var y := KvExec(EFFECT, 5, steps); !MapsRight(EFFECT, y) && !EqualMaps(y) && !Recovers(EFFECT, y)
  {
    if lose {
      steps := LostRaise();
      WrongBreaks(EFFECT, KvExec(EFFECT, 5, steps), 2, 1, 10);
    } else if installs {
      Replays();
      steps := OldInstall(EFFECT);
      WrongBreaks(EFFECT, KvExec(EFFECT, 5, steps), 1, 0, 2);
    } else {
      Replays();
      steps := RefusedLoad(EFFECT);
      WrongBreaks(EFFECT, KvExec(EFFECT, 5, steps), 1, 0, 2);
    }
    WithinClass(EFFECT, 5, steps, lose, installs, loads);
  }

  /** The maps are right in all runs of a class if and only if the class has no lost term, no harmful install and no harmful load. */
  lemma MapIsReplayIff(lose: bool, installs: bool, loads: bool)
    ensures (forall size: nat, steps: seq<KvStep> :: InClass(EFFECT, size, steps, lose, installs, loads) ==>
               MapsRight(EFFECT, KvExec(EFFECT, size, steps))) <==> !lose && !installs && !loads
  {
    if lose || installs || loads {
      var steps := SomeRunIsWrong(lose, installs, loads);
      assert !MapsRight(EFFECT, KvExec(EFFECT, 5, steps));
    } else {
      forall size: nat, steps: seq<KvStep> | InClass(EFFECT, size, steps, lose, installs, loads)
        ensures MapsRight(EFFECT, KvExec(EFFECT, size, steps))
      {
        StrictHolds(EFFECT, size, steps);
      }
    }
  }

  /** The same for the agreement of replicas. */
  lemma ReplicasAgreeIff(lose: bool, installs: bool, loads: bool)
    ensures (forall size: nat, steps: seq<KvStep> :: InClass(EFFECT, size, steps, lose, installs, loads) ==>
               EqualMaps(KvExec(EFFECT, size, steps))) <==> !lose && !installs && !loads
  {
    if lose || installs || loads {
      var steps := SomeRunIsWrong(lose, installs, loads);
      assert !EqualMaps(KvExec(EFFECT, 5, steps));
    } else {
      forall size: nat, steps: seq<KvStep> | InClass(EFFECT, size, steps, lose, installs, loads)
        ensures EqualMaps(KvExec(EFFECT, size, steps))
      {
        StrictHolds(EFFECT, size, steps);
      }
    }
  }

  /** The same for recovery. */
  lemma RecoveryIff(lose: bool, installs: bool, loads: bool)
    ensures (forall size: nat, steps: seq<KvStep> :: InClass(EFFECT, size, steps, lose, installs, loads) ==>
               Recovers(EFFECT, KvExec(EFFECT, size, steps))) <==> !lose && !installs && !loads
  {
    if lose || installs || loads {
      var steps := SomeRunIsWrong(lose, installs, loads);
      assert !Recovers(EFFECT, KvExec(EFFECT, 5, steps));
    } else {
      forall size: nat, steps: seq<KvStep> | InClass(EFFECT, size, steps, lose, installs, loads)
        ensures Recovers(EFFECT, KvExec(EFFECT, size, steps))
      {
        StrictHolds(EFFECT, size, steps);
      }
    }
  }

  // ---------------------------------------------------------------- refused commands

  /** No node has applied a refused command that some node has committed, or anything after it. */
  ghost predicate RefusedStops(f: Machine, y: Sys) {
    forall i: nat, j: nat, k: nat {:trigger y.raft.nodes[i].log[k], y.reps[j]} ::
      i < |y.raft.nodes| && j < |y.reps| && 0 < k <= y.raft.nodes[i].commit < |y.raft.nodes[i].log| ==>
        Refused(f, y.raft.nodes[i].log[k].command) ==> y.reps[j].applied < k
  }

  lemma {:induction false} NoLossPersisted(f: Machine, size: nat, steps: seq<KvStep>)
    requires InClass(f, size, steps, false, true, true)
    ensures Persisted(steps)
  {
    if steps != [] {
      NoLossPersisted(f, size, steps[..|steps| - 1]);
      assert steps == steps[..|steps| - 1] + [steps[|steps| - 1]];
    }
  }

  lemma NoLossStops(f: Machine, size: nat, steps: seq<KvStep>)
    requires InClass(f, size, steps, false, true, true)
    ensures RefusedStops(f, KvExec(f, size, steps))
  {
    NoLossPersisted(f, size, steps);
    KvRunInv(f, false, size, steps);
    assert steps[..|steps|] == steps;
    var y := KvExec(f, size, steps);
    forall i: nat, j: nat, k: nat | i < |y.raft.nodes| && j < |y.reps| && 0 < k <= y.raft.nodes[i].commit < |y.raft.nodes[i].log|
                                    && Refused(f, y.raft.nodes[i].log[k].command)
      ensures y.reps[j].applied < k
    {
      RefusedBlocksEveryone(f, size, steps, |steps|, |steps|, i, j, k);
    }
  }

  /** A machine that refuses one text and ignores all others. */
  ghost predicate Refuses(f: Machine, text: string) {
    forall kv, data {:trigger f(kv, data)} :: f(kv, data) == if data == text then None else Some(kv)
  }

  lemma {:induction false} OthersReplay(f: Machine, text: string, log: Log, k: nat)
    requires Refuses(f, text) && k < |log| && forall j :: 0 < j <= k ==> log[j].command != text
    ensures Replay(f, log, k) == Some(map[])
  {
    if k > 0 {
      OthersReplay(f, text, log, k - 1);
    }
  }

  lemma SecondHasNoY()
    ensures forall j :: 0 < j <= 10 ==> C.SECOND[j].command != C.Y.command
  {
    C.Records();
    C.Lengths();
    C.RecordSizes();
    assert forall j :: 0 < j <= 9 ==> C.SECOND[j] == C.P[j];
  }

  /** Node 2 has committed Y at index 10; node 1 has applied index 10. */
  lemma AppliedPast(f: Machine) returns (steps: seq<KvStep>)
    requires Refuses(f, C.Y.command)
    ensures !RefusedStops(f, KvExec(f, 5, steps)) && AllWithin(steps, true, false, false)
  {
    var raft := C.Violation();
    C.Records();
    LiftRun(f, 5, raft);
    LiftPlain(raft);
    steps := Lift(raft);
    assert AllWithin(steps, true, false, false);
    SecondHasNoY();
    OthersReplay(f, C.Y.command, C.SECOND, 10);
    steps := ApplyUpTo(f, steps, 1, 10);
    GoneBy(f, KvExec(f, 5, steps));
  }

  lemma GoneBy(f: Machine, y: Sys)
    requires Refuses(f, C.Y.command) && |y.reps| == |y.raft.nodes| == 5
    requires y.raft.nodes[2].log == C.STALE && y.raft.nodes[2].commit == 10 && y.reps[1].applied == 10
    ensures !RefusedStops(f, y)
  {
    C.Records();
    assert y.raft.nodes[2].log[10] == C.Y && Refused(f, C.Y.command);
  }

  const PICKY: Machine := (kv, data) => if data == C.Y.command then None else Some(kv)

  /** Refused commands stop every replica, for every machine and run of the class, if and only if no raised term is lost in it. */
  lemma RefusedBlocksIff(lose: bool)
    ensures (forall f: Machine, size: nat, steps: seq<KvStep> :: InClass(f, size, steps, lose, true, true) ==>
               RefusedStops(f, KvExec(f, size, steps))) <==> !lose
  {
    if lose {
      var steps := AppliedPast(PICKY);
      WithinClass(PICKY, 5, steps, lose, true, true);
      assert !RefusedStops(PICKY, KvExec(PICKY, 5, steps));
    } else {
      forall f: Machine, size: nat, steps: seq<KvStep> | InClass(f, size, steps, lose, true, true)
        ensures RefusedStops(f, KvExec(f, size, steps))
      {
        NoLossStops(f, size, steps);
      }
    }
  }
}
