/**
  A run, with every persist succeeding, after which a leader counts on a record its own log does not have: the refusal of a
  snapshot sets the next index behind the follower's last record, and the follower's log is the longer one.
 */
module StuckRun {
  import opened RaftLog
  import opened Protocol
  import opened Cluster
  import opened Command
  import opened Script
  import opened Safety
  import R = MatchRun
  import opened Exchange
  import opened CatchUp

  const X := Entry(1, Serialize(Set("k", "x")))
  const Y := Entry(1, Serialize(Set("k", "y")))
  const Z := Entry(2, Serialize(Set("k", "z")))
  const LONG: Log := R.FIRST + [X] + [Y]
  const SHORT: Log := R.OTHER + [Z]
  const OFFER := SnapReq(2, 0, 2, R.OTHER)
  const REFUSAL := SnapResp(0, 2, 2, 2, false, 3, 1)

  /** Node 2 leads term 2 with B committed, next index 1 and match index 0 for node 0. */
  predicate Ahead(n: Node, snap: nat, log: Log) {
    n.role == Leader && n.term == 2 && n.log == log && n.commit == 1 && n.snap == snap && Get(n.next, 0) == 1 && Get(n.matched, 0) == 0
  }

  ghost predicate Both(c: State, snap: nat, log: Log) {
    && Five(c) && c.nodes[0].role == Leader && c.nodes[0].term == 1 && c.nodes[0].log == LONG && c.nodes[0].snap == 0
    && Ahead(c.nodes[2], snap, log) && 2 in c.hist.elections
  }

  lemma TwoLogs() returns (steps: seq<Step>)
    ensures Both(Run(steps), 0, R.OTHER) && Run(steps).nodes[2].saved == [BOOTSTRAP] && AllTermsPersisted(steps)
  {
    steps := R.SecondTerm();
    steps := Write(steps, 0, 1, R.FIRST, X.command);
    steps := Write(steps, 0, 1, R.FIRST + [X], Y.command);
    R.TwoAcks(Run(steps).nodes[2]);
    steps := Answer(steps, AppendResp(3, 2, 2, 2, true, 1, 1, 0, 0));
    steps := Answer(steps, AppendResp(4, 2, 2, 2, true, 1, 1, 0, 0));
  }

  lemma ProposeEffect(c: State, i: nat, command: string)
    requires Enabled(c, Propose(i, command, Ok))
    ensures var d := Do(c, Propose(i, command, Ok));
            d.nodes == c.nodes[i := AppendLocal(c.nodes[i], i, command, Ok)] && d.hist.elections.Keys == c.hist.elections.Keys
  {
  }

  /** Snapshot at index 1, compaction, and one more record. */
  lemma Shortened(c: State)
    requires Both(c, 0, R.OTHER) && c.nodes[2].saved == [BOOTSTRAP]
    ensures var a := Do(c, LocalSnapshot(2, 1));
            var b := Do(a, LocalCompact(2, 1, Ok));
            Both(Do(b, Propose(2, Z.command, Ok)), 1, SHORT)
  {
    R.SnapshotEffect(c, 2, 1);
    assert R.OTHER[..2] == R.OTHER;
    var a := Do(c, LocalSnapshot(2, 1));
    R.CompactEffect(a, 2, 1);
    var b := Do(a, LocalCompact(2, 1, Ok));
    ProposeEffect(b, 2, Z.command);
  }

  lemma FailEffect(c: State, m: Message)
    requires Enabled(c, SnapFail(m))
    ensures var n, d := c.nodes[m.dst], Do(c, SnapFail(m));
            && d.nodes == c.nodes
            && SnapResp(m.dst, m.src, m.term, n.term, false, LastIndex(n.log), LastIndex(m.snapshot)) in d.net
  {
    assert c.nodes[m.dst := c.nodes[m.dst]] == c.nodes;
  }

  /** The leader of term 2 will never count node 0 as having its last record, whatever is exchanged between the two. */
  predicate Stuck(c: State) {
    && Five(c) && c.nodes[2].role == Leader && c.nodes[2].term == 2 && c.nodes[2].log == SHORT && c.nodes[2].snap == 1
    && c.nodes[0].term == 2 && Get(c.nodes[2].next, 0) == 4 && Get(c.nodes[2].matched, 0) == 0
  }

  /** Node 0 cannot store the snapshot it is offered, and says so. */
  lemma Refused(c: State)
    requires Both(c, 1, SHORT)
    ensures var a := Do(c, Send(2, 0, false));
            var b := Do(Do(a, SnapBegin(OFFER, Ok)), SnapFail(OFFER));
            Stuck(Do(b, RecvSnapResp(REFUSAL, Ok)))
  {
    assert SHORT[..2] == R.OTHER;
    R.SendSnapshotEffect(c, 2, 0);
    var a := Do(c, Send(2, 0, false));
    R.SnapBeginEffect(a, OFFER, Ok);
    FailEffect(Do(a, SnapBegin(OFFER, Ok)), OFFER);
    SnapRespEffect(Do(Do(a, SnapBegin(OFFER, Ok)), SnapFail(OFFER)), REFUSAL);
  }

  lemma ShortenedRun() returns (steps: seq<Step>)
    ensures AllTermsPersisted(steps) && Both(Run(steps), 1, SHORT)
  {
    steps := TwoLogs();
    Shortened(Run(steps));
    ThreeSteps(Run(steps), LocalSnapshot(2, 1), LocalCompact(2, 1, Ok), Propose(2, Z.command, Ok));
    PerformMore(5, steps, [LocalSnapshot(2, 1), LocalCompact(2, 1, Ok), Propose(2, Z.command, Ok)]);
    steps := steps + [LocalSnapshot(2, 1), LocalCompact(2, 1, Ok), Propose(2, Z.command, Ok)];
  }

  lemma StuckReachable() returns (steps: seq<Step>)
    ensures AllTermsPersisted(steps) && Stuck(Run(steps))
  {
    steps := ShortenedRun();
    Refused(Run(steps));
    FourSteps(Run(steps), Send(2, 0, false), SnapBegin(OFFER, Ok), SnapFail(OFFER), RecvSnapResp(REFUSAL, Ok));
    PerformMore(5, steps, [Send(2, 0, false), SnapBegin(OFFER, Ok), SnapFail(OFFER), RecvSnapResp(REFUSAL, Ok)]);
    steps := steps + [Send(2, 0, false), SnapBegin(OFFER, Ok), SnapFail(OFFER), RecvSnapResp(REFUSAL, Ok)];
  }

  lemma FourSteps(c: State, a: Step, b: Step, d: Step, e: Step)
    ensures Perform(c, [a, b, d, e]) == Do(Do(Do(Do(c, a), b), d), e)
  {
    assert [a, b, d, e][1..] == [b, d, e];
    ThreeSteps(Do(c, a), b, d, e);
  }

  /** A reachable state from which no number of rounds ends with the leader counting node 0 as complete. */
  lemma NeverCatchesUp() returns (steps: seq<Step>)
    ensures AllTermsPersisted(steps) && Five(Run(steps)) && Run(steps).nodes[2].role == Leader && Run(steps).nodes[0].term == Run(steps).nodes[2].term
    ensures forall k {:trigger KnowsAllAfter(RoundOf(2, 0), Run(steps), 2, 0, k)} :: !KnowsAllAfter(RoundOf(2, 0), Run(steps), 2, 0, k)
  {
    steps := StuckReachable();
    CatchUpIff(5, steps, 2, 0);
  }
}
