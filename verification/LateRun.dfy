/**
  A run in which a deposed leader sends a newer snapshot under its old term, so that a node of the old term commits a record of the newer
  one. With LateSend, this decides when the two properties that speak of a node's own term hold.
 */
module LateRun {
  import opened RaftLog
  import opened Protocol
  import opened Cluster
  import opened Invariant
  import opened Command
  import opened Script
  import R = MatchRun
  import opened LateSend

  const A := Entry(1, NO_OP)
  const C := Entry(2, NO_OP)
  const ONE: Log := [BOOTSTRAP, A]
  const TWO: Log := [BOOTSTRAP, A, C]

  // ---------------------------------------------------------------- two confirmations

  /** The leader `me` has no confirmation yet. */
  ghost predicate Quiet(n: Node, me: nat) { forall p :: 0 <= p < 5 && p != me ==> Get(n.matched, p) == 0 }

  function Ack(p: nat, me: nat, term: nat, last: nat): Message { AppendResp(p, me, term, term, true, last, last, 0, 0) }

  function Credited(n: Node, p: nat, k: nat): Node {
    n.(matched := n.matched[p := k], next := n.next[p := Max(Get(n.next, p), k + 1)])
  }

  lemma {:induction false} TooFew(n: Node, me: nat, idx: nat)
    requires forall k: nat :: k > 0 ==> |Replicated(n, me, 5, k)| <= 1
    ensures CommitScan(n, me, 5, idx) == n.commit
    decreases idx
  {
    if idx > n.commit {
      TooFew(n, me, idx - 1);
    }
  }

  lemma OneHolder(n: Node, me: nat, last: nat)
    requires me < 3 && Quiet(n, me)
    ensures forall k: nat :: k > 0 ==> |Replicated(Credited(n, 3, last), me, 5, k)| <= 1
  {
    var n1 := Credited(n, 3, last);
    assert forall p :: 0 <= p < 5 && p != me && p != 3 ==> Get(n1.matched, p) == Get(n.matched, p) == 0;
    forall k: nat | k > 0 ensures |Replicated(n1, me, 5, k)| <= 1 {
      assert Replicated(n1, me, 5, k) <= {3};
      Invariant.SubsetSize(Replicated(n1, me, 5, k), {3});
    }
  }

  lemma TwoHolders(n: Node, me: nat, last: nat)
    requires me < 3 && Quiet(n, me) && last > 0
    ensures |Replicated(Credited(Credited(n, 3, last), 4, last), me, 5, last)| == 2
  {
    var n2 := Credited(Credited(n, 3, last), 4, last);
    assert forall p :: 0 <= p < 5 && p != me && p != 3 && p != 4 ==> Get(n2.matched, p) == Get(n.matched, p) == 0;
    assert Replicated(n2, me, 5, last) == {3, 4};
  }

  /** The leader's last record is committed once nodes 3 and 4 confirm it. */
  lemma BothConfirm(n: Node, me: nat, term: nat, log: Log, last: nat)
    requires me < 3 && LeaderNode(n, term, log, 0) && Quiet(n, me) && last > 0 && |log| == last + 1 && log[last].term == term
    ensures var n1 := OnAppendResponse(n, me, 5, Ack(3, me, term, last), Ok, Ok);
            var n2 := OnAppendResponse(n1, me, 5, Ack(4, me, term, last), Ok, Ok);
            LeaderNode(n2, term, log, last) && (forall p :: p != 3 && p != 4 ==> Get(n2.next, p) == Get(n.next, p))
  {
    OneHolder(n, me, last);
    TooFew(Credited(n, 3, last), me, last);
    assert Get(n.matched, 3) == 0 && Get(n.matched, 4) == 0;
    var n1 := Credited(n, 3, last);
    assert OnAppendResponse(n, me, 5, Ack(3, me, term, last), Ok, Ok) == n1;
    TwoHolders(n, me, last);
    assert CommitScan(Credited(n1, 4, last), me, 5, last) == last;
  }

  // ---------------------------------------------------------------- the first term

  /** Node 0 leads term 1, has committed A and compacted its log to it; node 1 has heard nothing. */
  ghost predicate Deposed(c: State) {
    && Five(c) && c.nodes[1] == InitNode()
    && c.nodes[0].role == Leader && c.nodes[0].term == 1 && c.nodes[0].log == ONE && c.nodes[0].commit == 1 && c.nodes[0].snap == 1
    && c.nodes[0].saved == ONE && Get(c.nodes[0].next, 1) == 1 && 1 in c.hist.elections && c.hist.elections[1].log == ONE
  }

  lemma CommitA() returns (steps: seq<Step>)
    ensures var d := Run(steps);
            && Five(d) && d.nodes[1] == InitNode() && Leads(d, 0, 1, ONE, 1) && Get(d.nodes[0].next, 1) == 1
            && (forall p :: 2 <= p < 5 ==> Plain(d.nodes[p], 1, ONE, 0))
    ensures Tidy(steps, false)
  {
    assert Run([]) == Init(5);
    steps := Elect([], 0, [BOOTSTRAP]);
    steps := Write(steps, 0, 1, [BOOTSTRAP], NO_OP);
    assert [BOOTSTRAP] + [A] == ONE;
    steps := R.Give(steps, 0, 1, A, 2);
    steps := R.Give(steps, 0, 1, A, 3);
    steps := R.Give(steps, 0, 1, A, 4);
    BothConfirm(Run(steps).nodes[0], 0, 1, ONE, 1);
    steps := Answer(steps, Ack(3, 0, 1, 1));
    steps := Answer(steps, Ack(4, 0, 1, 1));
  }

  lemma CompactA() returns (steps: seq<Step>)
    ensures Deposed(Run(steps)) && (forall p :: 2 <= p < 5 ==> Plain(Run(steps).nodes[p], 1, ONE, 0))
    ensures NoneLost(steps)
  {
    steps := CommitA();
    R.SnapshotEffect(Run(steps), 0, 1);
    OneMore(5, steps, LocalSnapshot(0, 1));
    assert ONE[..2] == ONE;
    steps := steps + [LocalSnapshot(0, 1)];
    R.CompactEffect(Run(steps), 0, 1);
    OneMore(5, steps, LocalCompact(0, 1, Ok));
    steps := steps + [LocalCompact(0, 1, Ok)];
  }

  // ---------------------------------------------------------------- the second term

  /** What has not been touched of node 0 and node 1, and of the record of term 1. */
  lemma StillDeposed(c: State, d: State)
    requires Deposed(c) && Five(d) && d.nodes[0] == c.nodes[0] && d.nodes[1] == c.nodes[1]
    requires 1 in d.hist.elections && d.hist.elections[1] == c.hist.elections[1]
    ensures Deposed(d)
  {
  }

  lemma AcceptC(n: Node, m: Message)
    requires m.AppendReq? && m.term == 2 && m.prevIndex == 1 && m.prevTerm == 1 && m.entries == [C] && m.leaderCommit == 0
    requires Plain(n, 2, ONE, 0)
    ensures OnAppendEntries(n, m, Ok, Ok, Ok).1 == Ack(m.dst, m.src, 2, 2)
  {
    MergeAppends(ONE, [C]);
  }

  lemma BatchC()
    ensures BatchCount(TWO, 2, 0, 0) == 1 && TWO[2..3] == [C]
  {
    assert SizeOf(TWO, 2, 1) == 22 + SizeOf(TWO, 3, 0);
    BatchIs(TWO, 2, 0, 0, 1);
  }

  lemma GiveC(steps: seq<Step>, p: nat) returns (more: seq<Step>)
    requires 3 <= p < 5 && Five(Run(steps)) && Leads(Run(steps), 2, 2, TWO, 0) && Get(Run(steps).nodes[2].next, p) == 2
    requires Plain(Run(steps).nodes[p], 2, ONE, 0)
    ensures var c, d := Run(steps), Run(more);
            Five(d) && d.nodes == c.nodes[p := d.nodes[p]] && Same(c, d) && Ack(p, 2, 2, 2) in d.net
    ensures StaysTidy(steps, more)
  {
    var n := Run(steps).nodes[2];
    BatchC();
    more := Post(steps, 2, p);
    var m := BuildAppend(n, 2, p);
    AcceptC(Run(more).nodes[p], m);
    more := Deliver(more, m, Ok);
  }

  /** Node 2 leads term 2, with A only, while node 0 still leads term 1. */
  ghost predicate Elected(c: State) {
    Deposed(c) && Leads(c, 2, 2, ONE, 0) && Fresh(c.nodes[2], 2) && Plain(c.nodes[3], 2, ONE, 0) && Plain(c.nodes[4], 2, ONE, 0)
  }

  lemma SecondLeader() returns (steps: seq<Step>)
    ensures Elected(Run(steps)) && NoneLost(steps)
  {
    var first := CompactA();
    steps := Elect(first, 2, ONE);
    StillDeposed(Run(first), Run(steps));
  }

  /** Node 2 has committed C and still counts node 0 from index 2. */
  ghost predicate Ready(c: State) { Deposed(c) && LeaderNode(c.nodes[2], 2, TWO, 2) && Get(c.nodes[2].next, 0) == 2 }

  lemma CommitC(first: seq<Step>) returns (steps: seq<Step>)
    requires Elected(Run(first)) && NoneLost(first)
    ensures Ready(Run(steps)) && NoneLost(steps) && first <= steps
  {
    steps := Write(first, 2, 2, ONE, NO_OP);
    assert ONE + [C] == TWO;
    steps := GiveC(steps, 3);
    steps := GiveC(steps, 4);
    BothConfirm(Run(steps).nodes[2], 2, 2, TWO, 2);
    steps := Answer(steps, Ack(3, 2, 2, 2));
    steps := Answer(steps, Ack(4, 2, 2, 2));
    StillDeposed(Run(first), Run(steps));
  }

  // ---------------------------------------------------------------- the late snapshot

  const CAUGHT := SnapReq(0, 1, 1, ONE)
  const NEWS := AppendReq(2, 0, 2, 1, 1, [C], 2)
  const LATE := SnapReq(0, 1, 1, TWO)

  /** Node 0 after it heard of term 2 and saved a snapshot of C. */
  lemma Outdated(n: Node)
    requires n.role == Leader && n.term == 1 && n.log == ONE && n.commit == 1 && n.snap == 1 && n.saved == ONE
    ensures var n1 := OnAppendEntries(n, NEWS, Ok, Ok, Ok).0;
            n1.log == TWO && n1.commit == 2 && SaveSnapshot(n1, TWO[..3]).saved == TWO
  {
    MergeAppends(ONE, [C]);
    assert ONE + [C] == TWO && TWO[..3] == TWO;
  }

  lemma SendsNews(c: State)
    requires Ready(c)
    ensures !NeedsSnapshot(c.nodes[2], 0) && BuildAppend(c.nodes[2], 2, 0) == NEWS
  {
    BatchC();
  }

  /** Node 0's catalog holds C; node 1 has still heard nothing. */
  ghost predicate Moved(c: State) {
    Five(c) && c.nodes[0].saved == TWO && c.nodes[1] == InitNode() && 1 in c.hist.elections && c.hist.elections[1].log == ONE
  }

  lemma HearsNews(c: State)
    requires Ready(c)
    ensures Moved(Do(Do(Do(c, Send(2, 0, false)), RecvAppendReq(NEWS, Ok, Ok, Ok)), LocalSnapshot(0, 2)))
  {
    SendsNews(c);
    PostEffect(c, 2, 0);
    var c1 := Do(c, Send(2, 0, false));
    DeliverEffect(c1, NEWS, Ok);
    Outdated(c.nodes[0]);
    R.SnapshotEffect(Do(c1, RecvAppendReq(NEWS, Ok, Ok, Ok)), 0, 2);
  }

  /** Node 1, which follows the old term, has committed C. */
  ghost predicate Misled(c: State) {
    && Five(c) && c.nodes[1].term == 1 && c.nodes[1].log == TWO && c.nodes[1].commit == 2
    && 1 in c.hist.elections && c.hist.elections[1].log == ONE
  }

  lemma InstallsLate(n: Node)
    requires n == InitNode()
    ensures var n1 := SnapshotBegin(n, LATE, Ok).0;
            var n2 := SaveSnapshot(n1, TWO);
            var n3 := SnapshotInstall(n2, LATE, Ok).0;
            && n1.term == 1 && n2.term == 1 && n2.role == Follower && |n2.saved| == 3
            && n3.term == 1 && n3.log == TWO && n3.commit == 2
  {
  }

  lemma InstallEffect(c: State, m: Message)
    requires Enabled(c, SnapInstall(m, Ok))
    ensures var d := Do(c, SnapInstall(m, Ok));
            d.nodes == c.nodes[m.dst := SnapshotInstall(c.nodes[m.dst], m, Ok).0] && d.hist.elections == c.hist.elections
  {
  }

  lemma GetsMisled(c: State)
    requires Moved(c) && LATE in c.net
    ensures Misled(Do(Do(Do(c, SnapBegin(LATE, Ok)), SnapSave(LATE)), SnapInstall(LATE, Ok)))
  {
    InstallsLate(c.nodes[1]);
    R.SnapBeginEffect(c, LATE, Ok);
    var c1 := Do(c, SnapBegin(LATE, Ok));
    R.SnapSaveEffect(c1, LATE);
    InstallEffect(Do(c1, SnapSave(LATE)), LATE);
  }

  // ---------------------------------------------------------------- as a run of events

  function AsEvents(steps: seq<Step>): (es: seq<Event>)
    ensures |es| == |steps| && forall k :: 0 <= k < |es| ==> es[k] == Happens(steps[k])
  {
    seq(|steps|, k requires 0 <= k < |steps| => Happens(steps[k]))
  }

  lemma {:induction false} PlainTrace(size: nat, steps: seq<Step>)
    ensures Trace(size, AsEvents(steps)) == World(Exec(size, steps), {})
  {
    if steps != [] {
      PlainTrace(size, steps[..|steps| - 1]);
      assert AsEvents(steps)[..|steps| - 1] == AsEvents(steps[..|steps| - 1]);
    }
  }

  lemma {:induction false} LateAllowed(size: nat, es: seq<Event>)
    requires forall e :: e in es && e.Happens? ==> TermPersisted(e.s)
    ensures Allowed(true, size, es)
  {
    if es != [] {
      LateAllowed(size, es[..|es| - 1]);
      assert es[|es| - 1] in es;
    }
  }

  function ReactAll(w: World, es: seq<Event>): World {
    if es == [] then w else React(ReactAll(w, es[..|es| - 1]), es[|es| - 1])
  }

  lemma {:induction false} TraceMore(size: nat, es: seq<Event>, more: seq<Event>)
    ensures Trace(size, es + more) == ReactAll(Trace(size, es), more)
    decreases |more|
  {
    if more == [] {
      assert es + more == es;
    } else {
      var front, e := more[..|more| - 1], more[|more| - 1];
      TraceMore(size, es, front);
      assert es + more == es + front + [e];
      TraceOne(size, es + front, e);
    }
  }

  lemma TraceOne(size: nat, es: seq<Event>, e: Event)
    ensures Trace(size, es + [e]) == React(Trace(size, es), e)
  {
    assert (es + [e])[..|es|] == es;
  }

  lemma FourEvents(w: World, a: Event, b: Event, d: Event, e: Event)
    ensures ReactAll(w, [a, b, d, e]) == React(React(React(React(w, a), b), d), e)
  {
    assert [a, b, d, e][..3] == [a, b, d] && [a, b, d][..2] == [a, b] && [a, b][..1] == [a] && [a][..0] == [];
    assert ReactAll(w, [a, b]) == React(ReactAll(w, [a]), b) == React(React(ReactAll(w, []), a), b);
  }

  const BEFORE: seq<Event> := [Captures(0, 1), Happens(Send(2, 0, false)), Happens(RecvAppendReq(NEWS, Ok, Ok, Ok)), Happens(LocalSnapshot(0, 2))]
  const AFTER: seq<Event> := [Sends(CAUGHT, true), Happens(SnapBegin(LATE, Ok)), Happens(SnapSave(LATE)), Happens(SnapInstall(LATE, Ok))]

  lemma CapturesOld(c: State)
    requires Ready(c)
    ensures React(World(c, {}), Captures(0, 1)) == World(c, {CAUGHT})
  {
    assert ONE[..2] == ONE;
  }

  lemma FirstHalf(c: State)
    requires Ready(c)
    ensures var w := ReactAll(World(c, {}), BEFORE); Moved(w.c) && w.captured == {CAUGHT}
  {
    CapturesOld(c);
    HearsNews(c);
    FourEvents(World(c, {}), BEFORE[0], BEFORE[1], BEFORE[2], BEFORE[3]);
  }

  lemma SecondHalf(w: World)
    requires Moved(w.c) && w.captured == {CAUGHT}
    ensures Misled(ReactAll(w, AFTER).c)
  {
    GetsMisled(React(w, Sends(CAUGHT, true)).c);
    FourEvents(w, AFTER[0], AFTER[1], AFTER[2], AFTER[3]);
  }

  /** The whole run; after its first b events node 2 leads term 2 without C. */
  lemma SentLate() returns (es: seq<Event>, b: nat)
    ensures Allowed(true, 5, es) && Misled(Trace(5, es).c)
    ensures b <= |es| && Five(Trace(5, es[..b]).c) && Leads(Trace(5, es[..b]).c, 2, 2, ONE, 0)
  {
    var first := SecondLeader();
    var steps := CommitC(first);
    b := |first|;
    es := AsEvents(steps) + BEFORE + AFTER;
    assert es[..b] == AsEvents(first);
    PlainTrace(5, first);
    PlainTrace(5, steps);
    TraceMore(5, AsEvents(steps), BEFORE);
    FirstHalf(Run(steps));
    TraceMore(5, AsEvents(steps) + BEFORE, AFTER);
    SecondHalf(Trace(5, AsEvents(steps) + BEFORE));
    EventsPersisted(steps);
    LateAllowed(5, es);
  }

  lemma EventsPersisted(steps: seq<Step>)
    requires NoneLost(steps)
    ensures forall e :: e in AsEvents(steps) + BEFORE + AFTER && e.Happens? ==> TermPersisted(e.s)
  {
    forall e | e in AsEvents(steps) ensures e.Happens? && TermPersisted(e.s) {
      var k :| 0 <= k < |steps| && AsEvents(steps)[k] == e;
      assert steps[k] in steps;
    }
  }

  // ---------------------------------------------------------------- the equivalences

  lemma MisledBreaks(c: State)
    requires Misled(c)
    ensures !CommitsAgree(c)
  {
    assert !AgreesWithLeader(c, 1);
  }

  /** What nodes commit agrees with the leader of their term in all runs considered if and only if no snapshot is sent late. */
  lemma FollowerCommitsIff(late: bool)
    ensures (forall size: nat, es: seq<Event> :: Allowed(late, size, es) ==> CommitsAgree(Trace(size, es).c)) <==> !late
  {
    if late {
      var es, b := SentLate();
      MisledBreaks(Trace(5, es).c);
      assert !CommitsAgree(Trace(5, es).c);
    } else {
      forall size: nat, es: seq<Event> | Allowed(late, size, es) ensures CommitsAgree(Trace(size, es).c) {
        InTimeAgree(size, es);
      }
    }
  }

  lemma LateIncomplete(es: seq<Event>, b: nat)
    requires Misled(Trace(5, es).c) && b <= |es| && Five(Trace(5, es[..b]).c) && Leads(Trace(5, es[..b]).c, 2, 2, ONE, 0)
    ensures !Complete(5, es)
  {
    assert es[..|es|] == es;
    assert CommitsAndLeads(5, es, |es|, b, 1, 2, 2);
    assert !LateSend.SameRecord(5, es, |es|, b, 1, 2, 2);
  }

  /** The same for leader completeness in terms of the committing node's term. */
  lemma LeaderCompletenessIff(late: bool)
    ensures (forall size: nat, es: seq<Event> :: Allowed(late, size, es) ==> Complete(size, es)) <==> !late
  {
    if late {
      var es, b := SentLate();
      LateIncomplete(es, b);
      assert !Complete(5, es);
    } else {
      forall size: nat, es: seq<Event> | Allowed(late, size, es) ensures Complete(size, es) {
        InTimeComplete(size, es);
      }
    }
  }
}
