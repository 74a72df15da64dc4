/**
  A crash between the removal of meta.bin and the publication of the new one: the next start finds no state at all, so the node has
  forgotten its term and its vote. AllRuns has no such crash; here it is added, and election safety and log matching fail.
 */
module MetaLoss {
  import opened RaftLog
  import opened Protocol
  import opened Cluster
  import opened Command
  import opened Script
  import AllRuns

  datatype Event = Happens(s: Step) | LosesMeta(i: nat, resaved: bool)

  /** A restart of node n without any stored state; its snapshots are still there. */
  function Forgotten(n: Node, resaved: bool): Node {
    Restart(InitNode().(saved := n.saved), resaved)
  }

  function React(c: State, e: Event): State {
    match e
    case Happens(s) => Do(c, s)
    case LosesMeta(i, resaved) => if i < |c.nodes| then c.(nodes := c.nodes[i := Forgotten(c.nodes[i], resaved)]) else c
  }

  /** The state a run of events reaches from a fresh cluster. */
  function Trace(size: nat, es: seq<Event>): State {
    if es == [] then Init(size) else React(Trace(size, es[..|es| - 1]), es[|es| - 1])
  }

  /** The runs considered: all of them, or those in which no node loses its meta file. */
  ghost predicate Allowed(mayLose: bool, es: seq<Event>) { mayLose || forall e :: e in es ==> e.Happens? }

  /** No two nodes lead the same term. */
  ghost predicate OneLeader(c: State) {
    forall i: nat, j: nat {:trigger c.nodes[i], c.nodes[j]} ::
      i < |c.nodes| && j < |c.nodes| && c.nodes[i].role == Leader && c.nodes[j].role == Leader && c.nodes[i].term == c.nodes[j].term ==> i == j
  }

  predicate SameTermAt(a: Log, b: Log, k: nat) { k < |a| && k < |b| && a[k].term == b[k].term }

  /** Logs with the same term at an index are equal up to it. */
  ghost predicate Matching(c: State) {
    forall i: nat, j: nat, k: nat {:trigger SameTermAt(c.nodes[i].log, c.nodes[j].log, k)} ::
      i < |c.nodes| && j < |c.nodes| && SameTermAt(c.nodes[i].log, c.nodes[j].log, k) ==> c.nodes[i].log[..k + 1] == c.nodes[j].log[..k + 1]
  }

  // ---------------------------------------------------------------- runs without the loss

  function Plainly(steps: seq<Step>): (es: seq<Event>)
    ensures |es| == |steps| && forall e :: e in es ==> e.Happens?
  {
    if steps == [] then [] else Plainly(steps[..|steps| - 1]) + [Happens(steps[|steps| - 1])]
  }

  lemma {:induction false} PlainTrace(size: nat, steps: seq<Step>)
    ensures Trace(size, Plainly(steps)) == Exec(size, steps)
  {
    if steps != [] {
      PlainTrace(size, steps[..|steps| - 1]);
      assert Plainly(steps)[..|steps| - 1] == Plainly(steps[..|steps| - 1]);
    }
  }

  lemma {:induction false} WithoutLoss(size: nat, es: seq<Event>) returns (steps: seq<Step>)
    requires forall e :: e in es ==> e.Happens?
    ensures Trace(size, es) == Exec(size, steps)
  {
    if es == [] {
      steps := [];
    } else {
      var front := WithoutLoss(size, es[..|es| - 1]);
      assert es[|es| - 1] in es;
      OneMore(size, front, es[|es| - 1].s);
      steps := front + [es[|es| - 1].s];
    }
  }

  lemma NoLossIsSafe(size: nat, es: seq<Event>)
    requires Allowed(false, es)
    ensures OneLeader(Trace(size, es)) && Matching(Trace(size, es))
  {
    var steps := WithoutLoss(size, es);
    var c := Exec(size, steps);
    assert steps[..|steps|] == steps;
    forall i: nat, j: nat | i < |c.nodes| && j < |c.nodes| && c.nodes[i].role == Leader && c.nodes[j].role == Leader && c.nodes[i].term == c.nodes[j].term
      ensures i == j
    {
      AllRuns.ElectionSafety(size, steps, |steps|, |steps|, i, j);
    }
    forall i: nat, j: nat, k: nat | i < |c.nodes| && j < |c.nodes| && SameTermAt(c.nodes[i].log, c.nodes[j].log, k)
      ensures c.nodes[i].log[..k + 1] == c.nodes[j].log[..k + 1]
    {
      AllRuns.LogMatching(size, steps, i, j, k);
    }
  }

  // ---------------------------------------------------------------- a vote given twice

  const N := Entry(1, NO_OP)
  const V := Entry(1, Serialize(Set("k", "v")))
  const U := Entry(1, Serialize(Set("k", "u")))

  /** Node 0 leads term 1; node 1 stands in the same term and has the vote of node 2; its request to node 3 is on its way. */
  ghost predicate Standing(c: State) {
    && Five(c) && LeaderNode(c.nodes[0], 1, [BOOTSTRAP, N, V], 0)
    && Candidates(c.nodes[1], 1, [BOOTSTRAP]) && c.nodes[1].votes == {1, 2}
    && Plain(c.nodes[3], 1, [BOOTSTRAP], 0) && Asked(c, 1, 3, 1, [BOOTSTRAP])
  }

  lemma Stands() returns (steps: seq<Step>)
    ensures Standing(Run(steps))
  {
    assert Run([]) == Init(5);
    steps := Elect([], 0, [BOOTSTRAP]);
    steps := WriteAll(steps, 0, 1, [BOOTSTRAP], [N, V]);
    assert [BOOTSTRAP] + [N, V] == [BOOTSTRAP, N, V];
    steps := Stand(steps, 1);
    assert Asked(Run(steps), 1, 2, 1, [BOOTSTRAP]) && Asked(Run(steps), 1, 3, 1, [BOOTSTRAP]);
    steps := Ballot(steps, 1, 1, [BOOTSTRAP], 2);
    assert {1} + {2} == {1, 2};
  }

  const REQUEST := Request(1, 3, 1, [BOOTSTRAP])
  const GRANT := VoteResp(3, 1, 1, 1, true)

  /** Both lead term 1, with different records at index 2. */
  ghost predicate TwoLeaders(c: State) {
    Five(c) && LeaderNode(c.nodes[0], 1, [BOOTSTRAP, N, V], 0) && LeaderNode(c.nodes[1], 1, [BOOTSTRAP, N, U], 0)
  }

  /** Node 3, which voted for node 0, votes again. */
  lemma VotesAgain(c: State)
    requires Standing(c)
    ensures var d := Do(React(c, LosesMeta(3, false)), RecvVoteReq(REQUEST, Ok, Ok));
            && Five(d) && d.nodes[0] == c.nodes[0] && d.nodes[1] == c.nodes[1] && GRANT in d.net
  {
    assert Restore([BOOTSTRAP], [BOOTSTRAP]) == [BOOTSTRAP];
    var c1 := React(c, LosesMeta(3, false));
    assert c1.nodes[3] == InitNode();
    GrantEffect(InitNode(), REQUEST, [BOOTSTRAP]);
    VoteReqEffect(c1, REQUEST);
  }

  lemma WinsToo(c: State)
    requires Five(c) && GRANT in c.net && Candidates(c.nodes[1], 1, [BOOTSTRAP]) && c.nodes[1].votes == {1, 2}
    ensures var d := Do(Do(c, RecvVoteResp(GRANT, Ok)), Win(1));
            Five(d) && d.nodes[0] == c.nodes[0] && Leads(d, 1, 1, [BOOTSTRAP], 0)
  {
    VoteRespEffect(c, GRANT);
    assert {1, 2} + {3} == {1, 2, 3} && |{1, 2, 3}| == 3;
    WinEffect(Do(c, RecvVoteResp(GRANT, Ok)), 1, 1, [BOOTSTRAP]);
  }

  lemma WritesToo(c: State)
    requires Five(c) && LeaderNode(c.nodes[0], 1, [BOOTSTRAP, N, V], 0) && Leads(c, 1, 1, [BOOTSTRAP], 0)
    ensures TwoLeaders(Do(Do(c, Propose(1, N.command, Ok)), Propose(1, U.command, Ok)))
  {
    WriteEffect(c, 1, 1, [BOOTSTRAP], N.command);
    assert [BOOTSTRAP] + [N] == [BOOTSTRAP, N] && [BOOTSTRAP, N] + [U] == [BOOTSTRAP, N, U];
    WriteEffect(Do(c, Propose(1, N.command, Ok)), 1, 1, [BOOTSTRAP, N], U.command);
  }

  lemma TraceMore(size: nat, es: seq<Event>, e: Event)
    ensures Trace(size, es + [e]) == React(Trace(size, es), e)
  {
    assert (es + [e])[..|es|] == es;
  }

  lemma TraceTwo(size: nat, es: seq<Event>, a: Event, b: Event)
    ensures Trace(size, es + [a] + [b]) == React(React(Trace(size, es), a), b)
  {
    TraceMore(size, es, a);
    TraceMore(size, es + [a], b);
  }

  lemma VoteTwice() returns (es: seq<Event>)
    ensures TwoLeaders(Trace(5, es))
  {
    var steps := Stands();
    PlainTrace(5, steps);
    es := Plainly(steps);
    VotesAgain(Trace(5, es));
    TraceTwo(5, es, LosesMeta(3, false), Happens(RecvVoteReq(REQUEST, Ok, Ok)));
    es := es + [LosesMeta(3, false)] + [Happens(RecvVoteReq(REQUEST, Ok, Ok))];
    WinsToo(Trace(5, es));
    TraceTwo(5, es, Happens(RecvVoteResp(GRANT, Ok)), Happens(Win(1)));
    es := es + [Happens(RecvVoteResp(GRANT, Ok))] + [Happens(Win(1))];
    WritesToo(Trace(5, es));
    TraceTwo(5, es, Happens(Propose(1, N.command, Ok)), Happens(Propose(1, U.command, Ok)));
    es := es + [Happens(Propose(1, N.command, Ok))] + [Happens(Propose(1, U.command, Ok))];
  }

  lemma TwoLeadersBreak(c: State)
    requires TwoLeaders(c)
    ensures !OneLeader(c) && !Matching(c)
  {
    assert SameTermAt(c.nodes[0].log, c.nodes[1].log, 2);
    assert V.command[6] == 'v' && U.command[6] == 'u';
    assert c.nodes[0].log[..3][2] == V && c.nodes[1].log[..3][2] == U;
  }

  // ---------------------------------------------------------------- the equivalences

  /** There is at most one leader per term in all runs considered if and only if no node may lose its meta file. */
  lemma ElectionSafetyIff(mayLose: bool)
    ensures (forall size: nat, es: seq<Event> :: Allowed(mayLose, es) ==> OneLeader(Trace(size, es))) <==> !mayLose
  {
    if mayLose {
      var es := VoteTwice();
      TwoLeadersBreak(Trace(5, es));
      assert Allowed(mayLose, es) && !OneLeader(Trace(5, es));
    } else {
      forall size: nat, es: seq<Event> | Allowed(mayLose, es) ensures OneLeader(Trace(size, es)) {
        NoLossIsSafe(size, es);
      }
    }
  }

  /** The same for log matching. */
  lemma LogMatchingIff(mayLose: bool)
    ensures (forall size: nat, es: seq<Event> :: Allowed(mayLose, es) ==> Matching(Trace(size, es))) <==> !mayLose
  {
    if mayLose {
      var es := VoteTwice();
      TwoLeadersBreak(Trace(5, es));
      assert Allowed(mayLose, es) && !Matching(Trace(5, es));
    } else {
      forall size: nat, es: seq<Event> | Allowed(mayLose, es) ensures Matching(Trace(size, es)) {
        NoLossIsSafe(size, es);
      }
    }
  }
}
