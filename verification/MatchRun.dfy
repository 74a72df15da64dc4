/**
  One lost term raise also makes a match index wrong: a peer that confirmed a record to the leader of term 1 restarts in term 1 with another
  record at that index, because a snapshot of term 2 reached its catalog while term 2 itself never reached its disk.
 */
module MatchRun {
  import opened RaftLog
  import opened Protocol
  import opened Cluster
  import opened Script
  import opened Command

  const A := Entry(1, NO_OP)
  const B := Entry(2, NO_OP)
  const FIRST: Log := [BOOTSTRAP, A]
  const OTHER: Log := [BOOTSTRAP, B]

  // ---------------------------------------------------------------- snapshot steps

  lemma SnapshotEffect(c: State, i: nat, k: nat)
    requires i < |c.nodes| && k <= c.nodes[i].commit && k < |c.nodes[i].log|
    ensures Do(c, LocalSnapshot(i, k)) == c.(nodes := c.nodes[i := SaveSnapshot(c.nodes[i], c.nodes[i].log[..k + 1])])
  {
    assert c.net + {} == c.net;
  }

  lemma CompactEffect(c: State, i: nat, k: nat)
    requires i < |c.nodes| && k <= c.nodes[i].commit && k < |c.nodes[i].saved|
    ensures Do(c, LocalCompact(i, k, Ok)) == c.(nodes := c.nodes[i := Compact(c.nodes[i], k, Ok)])
  {
    assert c.net + {} == c.net;
  }

  lemma SendSnapshotEffect(c: State, i: nat, p: nat)
    requires i < |c.nodes| && p < |c.nodes| && p != i && c.nodes[i].role == Leader
    requires NeedsSnapshot(c.nodes[i], p) && c.nodes[i].snap != 0
    ensures var d := Do(c, Send(i, p, false));
            && d.nodes == c.nodes && d.hist == c.hist && c.net <= d.net
            && SnapReq(i, p, c.nodes[i].term, SnapshotToSend(c.nodes[i], false)) in d.net
  {
    assert c.nodes[i := c.nodes[i]] == c.nodes;
  }

  lemma SnapBeginEffect(c: State, m: Message, raise: Outcome)
    requires Delivered(c, m) && m.SnapReq?
    ensures var d := Do(c, SnapBegin(m, raise));
            d.nodes == c.nodes[m.dst := SnapshotBegin(c.nodes[m.dst], m, raise).0] && Same(c, d)
  {
  }

  lemma SnapSaveEffect(c: State, m: Message)
    requires Delivered(c, m) && m.SnapReq? && c.nodes[m.dst].term >= m.term
    ensures Do(c, SnapSave(m)) == c.(nodes := c.nodes[m.dst := SaveSnapshot(c.nodes[m.dst], m.snapshot)])
  {
    assert c.net + {} == c.net;
  }

  // ---------------------------------------------------------------- the run

  lemma BatchOne(log: Log)
    requires |log| == 2 && |log[1].command| <= 100
    ensures BatchCount(log, 1, 0, 0) == 1
  {
    assert SizeOf(log, 1, 1) == |log[1].command| + SizeOf(log, 2, 0);
    BatchIs(log, 1, 0, 0, 1);
  }

  lemma AcceptOne(n: Node, m: Message, e: Entry)
    requires m.AppendReq? && m.prevIndex == 0 && m.prevTerm == 0 && m.entries == [e] && m.leaderCommit == 0
    requires Plain(n, n.term, [BOOTSTRAP], 0) && n.term <= m.term
    ensures var (n', reply) := OnAppendEntries(n, m, Ok, Ok, Ok);
            && Plain(n', m.term, [BOOTSTRAP, e], 0) && n'.disk == Disk(m.term, n'.vote, [BOOTSTRAP, e], 0)
            && reply == AppendResp(m.dst, m.src, m.term, m.term, true, 1, 1, 0, 0)
  {
    MergeAppends([BOOTSTRAP], [e]);
  }

  /** The leader's only record is given to node p. */
  lemma Give(steps: seq<Step>, me: nat, term: nat, e: Entry, p: nat) returns (more: seq<Step>)
    requires me < 5 && p < 5 && p != me && Five(Run(steps)) && Leads(Run(steps), me, term, [BOOTSTRAP, e], 0) && |e.command| <= 100
    requires Get(Run(steps).nodes[me].next, p) == 1
    requires Run(steps).nodes[p].term <= term && Plain(Run(steps).nodes[p], Run(steps).nodes[p].term, [BOOTSTRAP], 0)
    ensures var c, d := Run(steps), Run(more);
            && Five(d) && d.nodes == c.nodes[p := d.nodes[p]] && Same(c, d)
            && Plain(d.nodes[p], term, [BOOTSTRAP, e], 0) && d.nodes[p].disk == Disk(term, d.nodes[p].vote, [BOOTSTRAP, e], 0)
            && AppendResp(p, me, term, term, true, 1, 1, 0, 0) in d.net
    ensures StaysTidy(steps, more)
  {
    var n := Run(steps).nodes[me];
    BatchOne(n.log);
    more := Post(steps, me, p);
    var m := BuildAppend(n, me, p);
    assert n.log[1..2] == [e];
    AcceptOne(Run(more).nodes[p], m, e);
    more := Deliver(more, m, Ok);
  }

  /** Node 0 leads term 1; its only record A is confirmed by node 1. */
  lemma FirstTerm() returns (more: seq<Step>)
    ensures var d := Run(more);
            && Five(d) && Leads(d, 0, 1, FIRST, 0) && Get(d.nodes[0].matched, 1) == 1
            && d.nodes[2] == InitNode() && Plain(d.nodes[3], 1, [BOOTSTRAP], 0) && Plain(d.nodes[4], 1, [BOOTSTRAP], 0)
            && Plain(d.nodes[1], 1, FIRST, 0) && d.nodes[1].disk == Disk(1, d.nodes[1].vote, FIRST, 0)
    ensures Tidy(more, false)
  {
    assert Run([]) == Init(5);
    more := Elect([], 0, [BOOTSTRAP]);
    more := Write(more, 0, 1, [BOOTSTRAP], NO_OP);
    assert [BOOTSTRAP] + [A] == FIRST;
    more := Give(more, 0, 1, A, 1);
    FirstAck(Run(more).nodes[0]);
    more := Answer(more, AppendResp(1, 0, 1, 1, true, 1, 1, 0, 0));
  }

  lemma FirstAck(n: Node)
    requires LeaderNode(n, 1, FIRST, 0) && forall p :: 0 <= p < 5 && p != 0 ==> Get(n.matched, p) == 0
    ensures var n' := OnAppendResponse(n, 0, 5, AppendResp(1, 0, 1, 1, true, 1, 1, 0, 0), Ok, Ok);
            LeaderNode(n', 1, FIRST, 0) && Get(n'.matched, 1) == 1
  {
    assert Get(n.matched, 2) == 0 && Get(n.matched, 3) == 0 && Get(n.matched, 4) == 0;
    var n1 := n.(matched := n.matched[1 := 1], next := n.next[1 := Max(Get(n.next, 1), 2)]);
    assert Get(n1.matched, 2) == 0 && Get(n1.matched, 3) == 0 && Get(n1.matched, 4) == 0;
    assert Replicated(n1, 0, 5, 1) == {1};
    assert CommitScan(n1, 0, 5, 1) == CommitScan(n1, 0, 5, 0) == 0;
  }

  /** What stays of term 1 while term 2 goes on. */
  predicate Confirmed(c: State) {
    && Five(c) && Leads(c, 0, 1, FIRST, 0) && Get(c.nodes[0].matched, 1) == 1
    && Plain(c.nodes[1], 1, FIRST, 0) && c.nodes[1].disk == Disk(1, c.nodes[1].vote, FIRST, 0)
  }

  /** Node 2 leads term 2 and has B on nodes 3 and 4. */
  lemma SecondTerm() returns (more: seq<Step>)
    ensures var d := Run(more);
            && Confirmed(d) && Leads(d, 2, 2, OTHER, 0) && Fresh1(d.nodes[2])
            && AppendResp(3, 2, 2, 2, true, 1, 1, 0, 0) in d.net && AppendResp(4, 2, 2, 2, true, 1, 1, 0, 0) in d.net
    ensures Tidy(more, false)
  {
    more := FirstTerm();
    more := Stand(more, 2);
    more := Elect(more, 2, [BOOTSTRAP]);
    more := Write(more, 2, 2, [BOOTSTRAP], NO_OP);
    assert [BOOTSTRAP] + [B] == OTHER;
    more := Give(more, 2, 2, B, 3);
    more := Give(more, 2, 2, B, 4);
  }

  /** Nothing confirmed yet, every peer still at index 1. */
  predicate Fresh1(n: Node) { forall p :: 0 <= p < 5 && p != 2 ==> Get(n.next, p) == 1 && Get(n.matched, p) == 0 }

  lemma TwoAcks(n: Node)
    requires LeaderNode(n, 2, OTHER, 0) && Fresh1(n)
    ensures var n1 := OnAppendResponse(n, 2, 5, AppendResp(3, 2, 2, 2, true, 1, 1, 0, 0), Ok, Ok);
            var n2 := OnAppendResponse(n1, 2, 5, AppendResp(4, 2, 2, 2, true, 1, 1, 0, 0), Ok, Ok);
            LeaderNode(n2, 2, OTHER, 1) && Get(n2.next, 1) == 1 && Get(n2.next, 0) == 1 && Get(n2.matched, 0) == 0
  {
    assert Get(n.matched, 0) == 0 && Get(n.matched, 1) == 0 && Get(n.matched, 4) == 0 && Get(n.next, 1) == 1;
    var m1 := n.(matched := n.matched[3 := 1], next := n.next[3 := Max(Get(n.next, 3), 2)]);
    assert Get(m1.matched, 0) == 0 && Get(m1.matched, 1) == 0 && Get(m1.matched, 4) == 0;
    assert Replicated(m1, 2, 5, 1) == {3};
    assert CommitScan(m1, 2, 5, 1) == CommitScan(m1, 2, 5, 0) == 0;
    var m2 := m1.(matched := m1.matched[4 := 1], next := m1.next[4 := Max(Get(m1.next, 4), 2)]);
    assert Get(m2.matched, 0) == 0 && Get(m2.matched, 1) == 0 && Get(m2.matched, 3) == 1 && Get(m2.matched, 4) == 1;
    assert Replicated(m2, 2, 5, 1) == {3, 4};
    assert CommitScan(m2, 2, 5, 1) == 1;
  }

  const SNAPSHOT := SnapReq(2, 1, 2, OTHER)

  /** Node 2 commits B, compacts its log and sends the snapshot to node 1. */
  lemma Snapshot() returns (more: seq<Step>)
    ensures Confirmed(Run(more)) && SNAPSHOT in Run(more).net
  {
    more := SecondTerm();
    TwoAcks(Run(more).nodes[2]);
    more := Answer(more, AppendResp(3, 2, 2, 2, true, 1, 1, 0, 0));
    more := Answer(more, AppendResp(4, 2, 2, 2, true, 1, 1, 0, 0));
    SnapshotEffect(Run(more), 2, 1);
    OneMore(5, more, LocalSnapshot(2, 1));
    assert OTHER[..2] == OTHER;
    more := more + [LocalSnapshot(2, 1)];
    CompactEffect(Run(more), 2, 1);
    OneMore(5, more, LocalCompact(2, 1, Ok));
    more := more + [LocalCompact(2, 1, Ok)];
    SendSnapshotEffect(Run(more), 2, 1);
    OneMore(5, more, Send(2, 1, false));
    more := more + [Send(2, 1, false)];
  }

  /** Node 1 after both first sections of the install and the save: in term 2, with the snapshot in its catalog and term 1 on its disk. */
  lemma Raised(n: Node)
    requires Plain(n, 1, FIRST, 0) && n.disk == Disk(1, n.vote, FIRST, 0)
    ensures var n1 := SnapshotBegin(n, SNAPSHOT, Lost).0;
            var n2 := SnapshotBegin(n1, SNAPSHOT, Ok).0;
            var n3 := SaveSnapshot(n2, OTHER);
            && n1.term == 2 && n2.term == 2 && n3.role == Follower
            && Restart(n3, false).term == 1 && Restart(n3, false).log == OTHER
  {
  }

  /** The leader of term 1 believes node 1 holds A; node 1, in term 1, holds B. */
  predicate Mismatched(c: State) {
    && Five(c) && Leads(c, 0, 1, FIRST, 0) && Get(c.nodes[0].matched, 1) == 1
    && c.nodes[1].term == 1 && c.nodes[1].log == OTHER
  }

  lemma Mismatch() returns (steps: seq<Step>)
    ensures Mismatched(Run(steps))
  {
    steps := Snapshot();
    Raised(Run(steps).nodes[1]);
    SnapBeginEffect(Run(steps), SNAPSHOT, Lost);
    OneMore(5, steps, SnapBegin(SNAPSHOT, Lost));
    steps := steps + [SnapBegin(SNAPSHOT, Lost)];
    SnapBeginEffect(Run(steps), SNAPSHOT, Ok);
    OneMore(5, steps, SnapBegin(SNAPSHOT, Ok));
    steps := steps + [SnapBegin(SNAPSHOT, Ok)];
    SnapSaveEffect(Run(steps), SNAPSHOT);
    OneMore(5, steps, SnapSave(SNAPSHOT));
    steps := steps + [SnapSave(SNAPSHOT)];
    steps := Reboot(steps, 1);
  }
}
