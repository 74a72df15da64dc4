/**
  The persist inside BecomeFollower must not be lost. One loss there, with the raised term kept in memory only, is
  enough for a five-node cluster to commit two different records at one index and then to cut one of them. The records are the ones the code would
  write: each leader starts its term with the internal no-op, and no value is larger than the default limit of 64 KiB.
 */
module Counterexample {
  import opened RaftLog
  import opened Protocol
  import opened Cluster
  import opened Script
  import opened Command

  const MAX_VALUE_BYTES: nat := 64 * 1024

  function Filled(n: nat): (v: string)
    ensures |v| == n
  {
    seq(n, _ => 'x')
  }

  /** A record of term 1 that sets key "k" to a value of n bytes. */
  function SetOf(n: nat): (e: Entry)
    ensures e.term == 1 && |e.command| == n + 6
  {
    Entry(1, Serialize(Set("k", Filled(n))))
  }

  const BIG := SetOf(MAX_VALUE_BYTES)

  /** Term 1: the no-op and eight large values, 524270 bytes, 18 less than a request may carry. */
  const XS: seq<Entry> := [Entry(1, NO_OP), BIG, BIG, BIG, BIG, BIG, BIG, BIG, SetOf(65448)]

  /** A small Set of term 1, which still fits into the request. */
  const Y := Entry(1, Serialize(Set("k", "v")))

  /** The no-op of term 2, which does not. */
  const E := Entry(2, NO_OP)

  const P: Log := [BOOTSTRAP] + XS
  const SECOND: Log := P + [E]
  const STALE: Log := P + [Y]

  // ---------------------------------------------------------------- sizes

  lemma Records()
    ensures |XS| == 9 && |P| == 10 && |SECOND| == 11 && |STALE| == 11 && P[0] == BOOTSTRAP
    ensures forall k :: 0 <= k < 9 ==> XS[k].term == 1 && P[k + 1] == XS[k]
  {
  }

  lemma Lengths()
    ensures |NO_OP| == 22 && |E.command| == 22 && |Y.command| == 7
    ensures |BIG.command| == 65542 && |SetOf(65448).command| == 65454
  {
  }

  lemma RecordSizes()
    ensures |P| == 10 && |P[1].command| == 22 && |P[9].command| == 65454
    ensures forall k :: 2 <= k <= 8 ==> |P[k].command| == 65542
  {
    Lengths();
  }

  /** Eight records after the no-op. */
  lemma SizeOfP(log: Log)
    requires |log| >= 10 && log[..10] == P
    ensures SizeOf(log, 1, 9) == 524270
  {
    RecordSizes();
    forall k | 0 <= k < 10 ensures log[k] == P[k] {
      assert log[k] == log[..10][k];
    }
    assert SizeOf(log, 9, 1) == 65454 + SizeOf(log, 10, 0);
    assert SizeOf(log, 7, 3) == 65542 + SizeOf(log, 8, 2);
    assert SizeOf(log, 5, 5) == 65542 + SizeOf(log, 6, 4);
    assert SizeOf(log, 3, 7) == 65542 + SizeOf(log, 4, 6);
    assert SizeOf(log, 1, 9) == 22 + SizeOf(log, 2, 8);
  }

  /** All of P in one request, and Y with it, but not E. */
  lemma Batches()
    ensures BatchCount(P, 1, 0, 0) == 9 && BatchCount(STALE, 1, 0, 0) == 10
    ensures BatchCount(SECOND, 1, 0, 0) == 9 && BatchCount(SECOND, 10, 0, 0) == 1
  {
    Records();
    Lengths();
    assert P[..10] == P && STALE[..10] == P && SECOND[..10] == P;
    SizeOfP(P);
    SizeOfP(STALE);
    SizeOfP(SECOND);
    BatchIs(P, 1, 0, 0, 9);
    OneMoreFits(STALE);
    BatchIs(SECOND, 1, 0, 0, 9);
    LastAlone(SECOND);
  }

  lemma OneMoreFits(log: Log)
    requires |log| == 11 && SizeOf(log, 1, 9) == 524270 && |log[10].command| == 7
    ensures BatchCount(log, 1, 0, 0) == 10
  {
    SizeSplit(log, 1, 9);
    BatchIs(log, 1, 0, 0, 10);
  }

  lemma LastAlone(log: Log)
    requires |log| == 11 && |log[10].command| == 22
    ensures BatchCount(log, 10, 0, 0) == 1
  {
    assert SizeOf(log, 10, 1) == 22 + SizeOf(log, 11, 0);
    BatchIs(log, 10, 0, 0, 1);
  }

  lemma {:induction false} SizeSplit(log: Log, from: nat, n: nat)
    requires from + n < |log|
    ensures SizeOf(log, from, n + 1) == SizeOf(log, from, n) + |log[from + n].command|
    decreases n
  {
    if n > 0 {
      SizeSplit(log, from + 1, n - 1);
    }
  }

  // ---------------------------------------------------------------- the run

  const LATE := AppendReq(0, 2, 1, 0, 0, XS + [Y], 0)

  /** Node 0 leads term 1 and appends XS. */
  lemma FirstRecords() returns (more: seq<Step>)
    ensures var d := Run(more);
            && Five(d) && Leads(d, 0, 1, P, 0) && (forall p :: 1 <= p < 5 ==> Get(d.nodes[0].next, p) == 1)
            && d.nodes[1] == InitNode() == d.nodes[2]
            && Plain(d.nodes[3], 1, [BOOTSTRAP], 0) && Plain(d.nodes[4], 1, [BOOTSTRAP], 0)
    ensures Tidy(more, true)
  {
    assert Run([]) == Init(5);
    more := Elect([], 0, [BOOTSTRAP]);
    Records();
    more := WriteAll(more, 0, 1, [BOOTSTRAP], XS);
  }

  lemma AcceptP(n: Node, m: Message)
    requires m.AppendReq? && m.term == 1 && m.prevIndex == 0 && m.prevTerm == 0 && m.entries == XS && m.leaderCommit == 0
    requires Plain(n, n.term, [BOOTSTRAP], 0) && n.term <= 1
    ensures Plain(OnAppendEntries(n, m, Ok, Ok, Ok).0, 1, P, 0)
  {
    MergeAppends([BOOTSTRAP], XS);
  }

  /** Node 0 gives P to node p. */
  lemma GiveP(steps: seq<Step>, p: nat) returns (more: seq<Step>)
    requires 0 < p < 5 && Five(Run(steps)) && Leads(Run(steps), 0, 1, P, 0) && Get(Run(steps).nodes[0].next, p) == 1
    requires Run(steps).nodes[p].term <= 1 && Plain(Run(steps).nodes[p], Run(steps).nodes[p].term, [BOOTSTRAP], 0)
    ensures var c, d := Run(steps), Run(more);
            Five(d) && d.nodes == c.nodes[p := d.nodes[p]] && Same(c, d) && Plain(d.nodes[p], 1, P, 0)
    ensures StaysTidy(steps, more)
  {
    var n := Run(steps).nodes[0];
    Records();
    Batches();
    more := Post(steps, 0, p);
    var m := BuildAppend(n, 0, p);
    assert P[1..10] == XS;
    AcceptP(Run(more).nodes[p], m);
    more := Deliver(more, m, Ok);
  }

  /** Node 0 gives P to nodes 1, 3 and 4, and its request with P and Y to node 2 is delayed. */
  lemma FirstTerm() returns (more: seq<Step>)
    ensures var d := Run(more);
            && Five(d) && d.nodes[2] == InitNode() && LATE in d.net
            && Plain(d.nodes[1], 1, P, 0) && Plain(d.nodes[3], 1, P, 0) && Plain(d.nodes[4], 1, P, 0)
    ensures Tidy(more, true)
  {
    more := FirstRecords();
    more := GiveP(more, 1);
    more := GiveP(more, 3);
    more := GiveP(more, 4);
    more := Write(more, 0, 1, P, Y.command);
    more := Delayed(more);
  }

  lemma Delayed(steps: seq<Step>) returns (more: seq<Step>)
    requires Five(Run(steps)) && Leads(Run(steps), 0, 1, STALE, 0) && Get(Run(steps).nodes[0].next, 2) == 1
    ensures Run(more).nodes == Run(steps).nodes && LATE in Run(more).net
    ensures StaysTidy(steps, more)
  {
    Records();
    Batches();
    more := Post(steps, 0, 2);
    assert STALE[1..11] == XS + [Y];
  }

  /** Node 1 leads term 2 and appends E after P. */
  lemma SecondTerm() returns (more: seq<Step>)
    ensures var d := Run(more);
            && Five(d) && d.nodes[2] == InitNode() && LATE in d.net && Leads(d, 1, 2, SECOND, 0)
            && (forall p :: 0 <= p < 5 && p != 1 ==> Get(d.nodes[1].next, p) == 10 && Get(d.nodes[1].matched, p) == 0)
            && Plain(d.nodes[3], 2, P, 0) && Plain(d.nodes[4], 2, P, 0)
    ensures Tidy(more, true)
  {
    more := FirstTerm();
    Records();
    more := Elect(more, 1, P);
    more := Write(more, 1, 2, P, E.command);
  }

  lemma AcceptE(n: Node, m: Message)
    requires m.AppendReq? && m.term == 2 && m.prevIndex == 9 && m.prevTerm == 1 && m.entries == [E] && m.leaderCommit == 0
    requires Plain(n, 2, P, 0)
    ensures OnAppendEntries(n, m, Ok, Ok, Ok).1 == AppendResp(m.dst, m.src, 2, 2, true, 10, 10, 0, 0)
  {
    Records();
    MergeAppends(P, [E]);
  }

  function Acked(p: nat): Message { AppendResp(p, 1, 2, 2, true, 10, 10, 0, 0) }

  lemma GiveE(steps: seq<Step>, p: nat) returns (more: seq<Step>)
    requires (p == 3 || p == 4) && Five(Run(steps)) && Leads(Run(steps), 1, 2, SECOND, 0)
    requires Get(Run(steps).nodes[1].next, p) == 10 && Plain(Run(steps).nodes[p], 2, P, 0)
    ensures var c, d := Run(steps), Run(more);
            Five(d) && d.nodes == c.nodes[p := d.nodes[p]] && Same(c, d) && Acked(p) in d.net
    ensures StaysTidy(steps, more)
  {
    var n := Run(steps).nodes[1];
    Records();
    Batches();
    more := Post(steps, 1, p);
    var m := BuildAppend(n, 1, p);
    assert SECOND[10..11] == [E];
    AcceptE(Run(more).nodes[p], m);
    more := Deliver(more, m, Ok);
  }

  /** The leader's node with index k credited to peer p. */
  function Credit(n: Node, p: nat, k: nat): Node {
    n.(matched := n.matched[p := Max(Get(n.matched, p), k)], next := n.next[p := Max(Get(n.next, p), k + 1)])
  }

  lemma CreditCounts(n: Node, p: nat)
    requires p < 5 && p != 1
    ensures Replicated(Credit(n, p, 10), 1, 5, 10) == Replicated(n, 1, 5, 10) + {p}
  {
  }

  /** Any log whose last record, at index 10, is the only one of term 2. */
  predicate OneOfTwo(log: Log) {
    |log| == 11 && log[10].term == 2 && forall k :: 0 <= k < 10 ==> log[k].term != 2
  }

  lemma ScanTen(n: Node, log: Log)
    requires LeaderNode(n, 2, log, 0) && OneOfTwo(log)
    ensures CommitScan(n, 1, 5, 10) == if |Replicated(n, 1, 5, 10)| >= 2 then 10 else 0
  {
    if |Replicated(n, 1, 5, 10)| < 2 {
      ScanOld(n, 1, 5, 9);
    }
  }

  /** Node 1 after a confirmation of index 10. */
  lemma OneAck(n: Node, log: Log, p: nat)
    requires p < 5 && p != 1 && LeaderNode(n, 2, log, 0) && OneOfTwo(log)
    ensures var n', holders := OnAppendResponse(n, 1, 5, Acked(p), Ok, Ok), Replicated(n, 1, 5, 10) + {p};
            && n'.matched == Credit(n, p, 10).matched && n'.next == Credit(n, p, 10).next && Replicated(n', 1, 5, 10) == holders
            && LeaderNode(n', 2, log, if |holders| >= 2 then 10 else 0)
  {
    var n1 := Credit(n, p, 10);
    CreditCounts(n, p);
    ScanTen(n1, log);
    var n' := OnAppendResponse(n, 1, 5, Acked(p), Ok, Ok);
    assert n' == AdvanceCommit(n1, 1, 5, Ok);
    assert Replicated(n', 1, 5, 10) == Replicated(n1, 1, 5, 10);
  }

  /** Two confirmations commit index 10. */
  lemma TwoAcks(n: Node, log: Log)
    requires LeaderNode(n, 2, log, 0) && OneOfTwo(log) && Replicated(n, 1, 5, 10) == {}
    ensures var n1 := OnAppendResponse(n, 1, 5, Acked(3), Ok, Ok);
            var n2 := OnAppendResponse(n1, 1, 5, Acked(4), Ok, Ok);
            LeaderNode(n2, 2, log, 10) && Get(n2.next, 2) == Get(n.next, 2)
  {
    OneAck(n, log, 3);
    var n1 := OnAppendResponse(n, 1, 5, Acked(3), Ok, Ok);
    assert |{3}| == 1 && |{3} + {4}| == 2;
    assert Replicated(n1, 1, 5, 10) == {3};
    OneAck(n1, log, 4);
  }

  /** Nodes 3 and 4 confirm E, so node 1 commits it. */
  lemma CommitE() returns (more: seq<Step>)
    ensures var d := Run(more);
            && Five(d) && d.nodes[2] == InitNode() && LATE in d.net
            && Leads(d, 1, 2, SECOND, 10) && Get(d.nodes[1].next, 2) == 10
    ensures Tidy(more, true)
  {
    more := SecondTerm();
    more := GiveE(more, 3);
    more := GiveE(more, 4);
    more := Confirmed(more);
  }

  lemma NobodyYet(n: Node)
    requires Get(n.matched, 0) == 0 && Get(n.matched, 2) == 0 && Get(n.matched, 3) == 0 && Get(n.matched, 4) == 0
    ensures Replicated(n, 1, 5, 10) == {}
  {
  }

  lemma Confirmed(steps: seq<Step>) returns (more: seq<Step>)
    requires var c := Run(steps);
             && Five(c) && Acked(3) in c.net && Acked(4) in c.net && Leads(c, 1, 2, SECOND, 0)
             && (forall p :: 0 <= p < 5 && p != 1 ==> Get(c.nodes[1].next, p) == 10 && Get(c.nodes[1].matched, p) == 0)
    ensures var c, d := Run(steps), Run(more);
            && Five(d) && d.nodes[2] == c.nodes[2] && c.net == d.net
            && Leads(d, 1, 2, SECOND, 10) && Get(d.nodes[1].next, 2) == 10
    ensures StaysTidy(steps, more)
  {
    var n := Run(steps).nodes[1];
    NobodyYet(n);
    Records();
    TwoAcks(n, SECOND);
    more := Answer(steps, Acked(3));
    more := Answer(more, Acked(4));
  }

  /** The reply of node 2 when the raised term is lost, and what the leader makes of it. */
  lemma LostReply(n: Node, m: Message)
    requires m.AppendReq? && m.term == 2 && m.dst == 2 && m.src == 1 && n == InitNode()
    ensures var (n', reply) := OnAppendEntries(n, m, Lost, Ok, Ok);
            && reply == AppendResp(2, 1, 2, 2, false, 0, 0, 0, 0) && n'.role == Follower && Restart(n', false) == InitNode()
  {
    assert Restore([BOOTSTRAP], [BOOTSTRAP]) == [BOOTSTRAP];
  }

  /** Node 2 forgets that it ever heard of term 2, but node 1 now probes it from the start. */
  lemma Forget() returns (more: seq<Step>)
    ensures var d := Run(more);
            && Five(d) && d.nodes[2] == InitNode() && LATE in d.net
            && Leads(d, 1, 2, SECOND, 10) && Get(d.nodes[1].next, 2) == 1
    ensures Tidy(more, true)
  {
    more := CommitE();
    var n := Run(more).nodes[1];
    Records();
    Batches();
    more := Post(more, 1, 2);
    var m := BuildAppend(n, 1, 2);
    LostReply(Run(more).nodes[2], m);
    more := Deliver(more, m, Lost);
    more := Answer(more, AppendResp(2, 1, 2, 2, false, 0, 0, 0, 0));
    more := Reboot(more, 2);
  }

  lemma AcceptLate()
    ensures OnAppendEntries(InitNode(), LATE, Ok, Ok, Ok).0 ==
            InitNode().(term := 1, leaderId := 0, log := STALE, disk := Disk(1, -1, STALE, 0))
  {
    Records();
    MergeAppends([BOOTSTRAP], XS + [Y]);
    assert [BOOTSTRAP] + (XS + [Y]) == STALE;
  }

  const PROBE := AppendReq(1, 2, 2, 0, 0, XS, 10)
  const CUT := AppendReq(1, 2, 2, 9, 1, [E], 10)

  /** Node 2 with the stale log, in term t with commit index k. */
  predicate Stale(n: Node, t: nat, k: nat) { Plain(n, t, STALE, k) }

  lemma AcceptProbe(n: Node)
    requires Stale(n, 1, 0)
    ensures Stale(OnAppendEntries(n, PROBE, Ok, Ok, Ok).0, 2, 10)
    ensures OnAppendEntries(n, PROBE, Ok, Ok, Ok).1 == AppendResp(2, 1, 2, 2, true, 9, 10, 0, 0)
  {
    Records();
    KnownProbe(n, PROBE, STALE, XS);
  }

  /** A request whose records the log already holds, with a commit index at the end of the log. */
  lemma KnownProbe(n: Node, m: Message, log: Log, es: seq<Entry>)
    requires Plain(n, 1, log, 0) && |log| == 11 && |es| == 9 && log[0].term == 0 && forall k :: 0 <= k < 9 ==> log[1 + k].term == es[k].term
    requires m == AppendReq(1, 2, 2, 0, 0, es, 10)
    ensures var (n', reply) := OnAppendEntries(n, m, Ok, Ok, Ok);
            Plain(n', 2, log, 10) && reply == AppendResp(2, 1, 2, 2, true, 9, 10, 0, 0)
  {
    MergeKnown(log, 1, es);
  }

  /** The state with two different committed records at index 10. */
  predicate Violated(c: State) {
    Five(c) && Leads(c, 1, 2, SECOND, 10) && Get(c.nodes[1].next, 2) == 1 && Stale(c.nodes[2], 2, 10)
  }

  /** The delayed request of term 1 arrives, then node 1's probe, whose batch ends before the divergence. */
  lemma Violation() returns (steps: seq<Step>)
    ensures Violated(Run(steps)) && AppendResp(2, 1, 2, 2, true, 9, 10, 0, 0) in Run(steps).net
    ensures Tidy(steps, true)
  {
    steps := Forget();
    AcceptLate();
    steps := Deliver(steps, LATE, Ok);
    SendsProbe(Run(steps).nodes[1]);
    steps := Post(steps, 1, 2);
    AcceptProbe(Run(steps).nodes[2]);
    steps := Deliver(steps, PROBE, Ok);
  }

  lemma SendsProbe(n: Node)
    requires LeaderNode(n, 2, SECOND, 10) && Get(n.next, 2) == 1
    ensures !NeedsSnapshot(n, 2) && BuildAppend(n, 1, 2) == PROBE
  {
    Records();
    Batches();
    assert SECOND[1..10] == XS;
  }

  lemma StepsOn(n: Node)
    requires LeaderNode(n, 2, SECOND, 10) && Get(n.next, 2) == 1
    ensures var n' := OnAppendResponse(n, 1, 5, AppendResp(2, 1, 2, 2, true, 9, 10, 0, 0), Ok, Ok);
            LeaderNode(n', 2, SECOND, 10) && Get(n'.next, 2) == 10
  {
    Records();
  }

  lemma CutsY(n: Node)
    requires Stale(n, 2, 10)
    ensures var n' := OnAppendEntries(n, CUT, Ok, Ok, Ok).0;
            Plain(n', 2, SECOND, 10) && n'.disk.log == SECOND && n'.disk.commit == 10
  {
    Records();
    assert STALE[..10] == P;
    assert Merge(STALE, 10, [E]) == Merge(P + [E], 11, [E][1..]);
  }

  /** One more round, and the committed record Y of node 2 is cut. */
  lemma Cut() returns (steps: seq<Step>)
    ensures var c, d := Run(steps), Do(Run(steps), RecvAppendReq(CUT, Ok, Ok, Ok));
            && Five(c) && Leads(c, 1, 2, SECOND, 10) && Stale(c.nodes[2], 2, 10) && CUT in c.net
            && Five(d) && d.nodes == c.nodes[2 := d.nodes[2]] && Plain(d.nodes[2], 2, SECOND, 10)
            && d.nodes[2].disk.log == SECOND && d.nodes[2].disk.commit == 10
    ensures Tidy(steps, true)
  {
    steps := Violation();
    StepsOn(Run(steps).nodes[1]);
    steps := Answer(steps, AppendResp(2, 1, 2, 2, true, 9, 10, 0, 0));
    SendsE(Run(steps).nodes[1]);
    steps := Post(steps, 1, 2);
    CutEffect(Run(steps));
  }

  lemma SendsE(n: Node)
    requires LeaderNode(n, 2, SECOND, 10) && Get(n.next, 2) == 10
    ensures !NeedsSnapshot(n, 2) && BuildAppend(n, 1, 2) == CUT
  {
    Records();
    Batches();
    assert SECOND[10..11] == [E];
  }

  lemma CutEffect(c: State)
    requires Five(c) && Stale(c.nodes[2], 2, 10) && CUT in c.net
    ensures var d := Do(c, RecvAppendReq(CUT, Ok, Ok, Ok));
            && Five(d) && d.nodes == c.nodes[2 := d.nodes[2]] && Plain(d.nodes[2], 2, SECOND, 10)
            && d.nodes[2].disk.log == SECOND && d.nodes[2].disk.commit == 10
  {
    CutsY(c.nodes[2]);
    DeliverEffect(c, CUT, Ok);
  }
}
