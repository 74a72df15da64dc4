/** One round of replication between a leader and one peer, as steps of the cluster: a request, its handling, the handling of the reply. */
module Exchange {
  import opened RaftLog
  import opened Protocol
  import opened Cluster
  import opened Invariant
  import opened StepBase
  import opened StepElect
  import opened StepFollow
  import opened StepSnapshot
  import opened Safety
  import M = MatchIndex
  import opened Script
  import R = MatchRun
  import opened Reactions

  // ---------------------------------------------------------------- rounds

  function Perform(c: State, steps: seq<Step>): State
    decreases |steps|
  {
    if steps == [] then c else Perform(Do(c, steps[0]), steps[1..])
  }

  /** The request i would send to p now. */
  function NextMessage(c: State, i: nat, p: nat): Message
    requires i < |c.nodes|
  {
    var n := c.nodes[i];
    if !NeedsSnapshot(n, p) then BuildAppend(n, i, p) else SnapReq(i, p, n.term, SnapshotToSend(n, false))
  }

  /** Request, handling and reply, all delivered, every persist succeeding. */
  function Conversation(c: State, i: nat, p: nat): seq<Step>
    requires i < |c.nodes| && p < |c.nodes|
  {
    var n, f, m := c.nodes[i], c.nodes[p], NextMessage(c, i, p);
    if m.AppendReq? then
      [Send(i, p, false), RecvAppendReq(m, Ok, Ok, Ok), RecvAppendResp(OnAppendEntries(f, m, Ok, Ok, Ok).1, Ok, Ok)]
    else if n.snap == 0 then [Send(i, p, false)]
    else if LastIndex(m.snapshot) <= f.snap then
      [Send(i, p, false), SnapBegin(m, Ok), RecvSnapResp(SnapResp(p, i, n.term, n.term, true, LastIndex(f.log), LastIndex(m.snapshot)), Ok)]
    else
      var f1 := SaveSnapshot(SnapshotBegin(f, m, Ok).0, m.snapshot);
      [Send(i, p, false), SnapBegin(m, Ok), SnapSave(m), SnapInstall(m, Ok), RecvSnapResp(SnapshotInstall(f1, m, Ok).1, Ok)]
  }

  lemma {:induction false} SameSize(c: State, steps: seq<Step>)
    ensures |Perform(c, steps).nodes| == |c.nodes|
    decreases |steps|
  {
    if steps != [] {
      SameNodes(c, steps[0]);
      SameSize(Do(c, steps[0]), steps[1..]);
    }
  }

  function Round(c: State, i: nat, p: nat): (d: State)
    requires i < |c.nodes| && p < |c.nodes|
    ensures |d.nodes| == |c.nodes|
  {
    SameSize(c, Conversation(c, i, p));
    Perform(c, Conversation(c, i, p))
  }

  lemma {:induction false} PerformInv(c: State, steps: seq<Step>)
    requires Inv(c) && AllTermsPersisted(steps)
    ensures Inv(Perform(c, steps))
    decreases |steps|
  {
    if steps != [] {
      StepInv(c, steps[0]);
      PerformInv(Do(c, steps[0]), steps[1..]);
    }
  }

  lemma {:induction false} PerformMore(size: nat, steps: seq<Step>, more: seq<Step>)
    ensures Exec(size, steps + more) == Perform(Exec(size, steps), more)
    decreases |more|
  {
    if more == [] {
      assert steps + more == steps;
    } else {
      OneMore(size, steps, more[0]);
      PerformMore(size, steps + [more[0]], more[1..]);
      assert steps + [more[0]] + more[1..] == steps + more;
    }
  }

  /** i leads, and p has not moved on to a newer term. */
  ghost predicate Pair(c: State, i: nat, p: nat) {
    && Inv(c) && i < |c.nodes| && p < |c.nodes| && i != p
    && c.nodes[i].role == Leader && c.nodes[p].term <= c.nodes[i].term
  }

  function NextOf(c: State, i: nat, p: nat): nat
    requires i < |c.nodes|
  {
    Get(c.nodes[i].next, p)
  }

  function MatchOf(c: State, i: nat, p: nat): nat
    requires i < |c.nodes|
  {
    Get(c.nodes[i].matched, p)
  }

  // ---------------------------------------------------------------- what one round does to the two nodes

  lemma ThreeSteps(c: State, a: Step, b: Step, d: Step)
    ensures Perform(c, [a, b, d]) == Do(Do(Do(c, a), b), d)
  {
    assert [a, b, d][1..] == [b, d] && [b, d][1..] == [d] && [d][1..] == [];
    assert Perform(Do(Do(c, a), b), [d]) == Perform(Do(Do(Do(c, a), b), d), []);
  }

  lemma FiveSteps(c: State, a: Step, b: Step, d: Step, e: Step, f: Step)
    ensures Perform(c, [a, b, d, e, f]) == Do(Do(Do(Do(Do(c, a), b), d), e), f)
  {
    assert [a, b, d, e, f][1..] == [b, d, e, f] && [b, d, e, f][1..] == [d, e, f];
    ThreeSteps(Do(Do(c, a), b), d, e, f);
  }

  lemma AppendRound(c: State, i: nat, p: nat)
    requires i < |c.nodes| && p < |c.nodes| && i != p && c.nodes[i].role == Leader && !NeedsSnapshot(c.nodes[i], p)
    ensures var n, f, m := c.nodes[i], c.nodes[p], BuildAppend(c.nodes[i], i, p);
            var (f', reply) := OnAppendEntries(f, m, Ok, Ok, Ok);
            Round(c, i, p).nodes == c.nodes[p := f'][i := OnAppendResponse(n, i, |c.nodes|, reply, Ok, Ok)]
  {
    AppendConversation(c, i, p);
    PostEffect(c, i, p);
    AppendTail(Do(c, Send(i, p, false)), i, p, BuildAppend(c.nodes[i], i, p));
  }

  lemma AppendConversation(c: State, i: nat, p: nat)
    requires i < |c.nodes| && p < |c.nodes| && !NeedsSnapshot(c.nodes[i], p)
    ensures var m := BuildAppend(c.nodes[i], i, p);
            var reply := OnAppendEntries(c.nodes[p], m, Ok, Ok, Ok).1;
            Round(c, i, p) == Do(Do(Do(c, Send(i, p, false)), RecvAppendReq(m, Ok, Ok, Ok)), RecvAppendResp(reply, Ok, Ok))
  {
    var m := BuildAppend(c.nodes[i], i, p);
    ThreeSteps(c, Send(i, p, false), RecvAppendReq(m, Ok, Ok, Ok), RecvAppendResp(OnAppendEntries(c.nodes[p], m, Ok, Ok, Ok).1, Ok, Ok));
  }

  lemma AppendTail(c: State, i: nat, p: nat, m: Message)
    requires Delivered(c, m) && m.AppendReq? && m.src == i && m.dst == p && i != p
    ensures var (f, reply) := OnAppendEntries(c.nodes[p], m, Ok, Ok, Ok);
            Do(Do(c, RecvAppendReq(m, Ok, Ok, Ok)), RecvAppendResp(reply, Ok, Ok)).nodes
            == c.nodes[p := f][i := OnAppendResponse(c.nodes[i], i, |c.nodes|, reply, Ok, Ok)]
  {
    DeliverEffect(c, m, Ok);
    var reply := OnAppendEntries(c.nodes[p], m, Ok, Ok, Ok).1;
    AppendAnswer(c.nodes[p], m, Ok, Ok, Ok);
    AnswerEffect(Do(c, RecvAppendReq(m, Ok, Ok, Ok)), reply);
  }

  lemma SnapRespEffect(c: State, m: Message)
    requires Delivered(c, m) && m.SnapResp?
    ensures Do(c, RecvSnapResp(m, Ok)).nodes == c.nodes[m.dst := OnSnapResponse(c.nodes[m.dst], m, Ok)]
  {
  }

  lemma BeginReplies(c: State, m: Message)
    requires Delivered(c, m) && m.SnapReq? && m.term >= c.nodes[m.dst].term && LastIndex(m.snapshot) <= c.nodes[m.dst].snap
    ensures SnapResp(m.dst, m.src, m.term, m.term, true, LastIndex(c.nodes[m.dst].log), LastIndex(m.snapshot)) in Do(c, SnapBegin(m, Ok)).net
  {
  }

  lemma InstallEffect(c: State, m: Message)
    requires Enabled(c, SnapInstall(m, Ok))
    ensures var d := Do(c, SnapInstall(m, Ok));
            && d.nodes == c.nodes[m.dst := SnapshotInstall(c.nodes[m.dst], m, Ok).0]
            && c.net <= d.net && SnapshotInstall(c.nodes[m.dst], m, Ok).1 in d.net
  {
  }

  /** A snapshot round: p has the snapshot, or something newer, and the leader credits it with the marker. */
  lemma SnapshotRound(c: State, i: nat, p: nat)
    requires Pair(c, i, p) && NeedsSnapshot(c.nodes[i], p) && c.nodes[i].snap > 0
    ensures var n, f, d := c.nodes[i], c.nodes[p], Round(c, i, p);
            && p < |d.nodes| && i < |d.nodes| && d.nodes[p].term == n.term && d.nodes[p].snap == Max(f.snap, n.snap)
            && d.nodes[i] == n.(matched := n.matched[p := Max(Get(n.matched, p), n.snap)],
                                next := n.next[p := Max(Get(n.next, p), n.snap + 1)])
  {
    MarkerInside(c, i);
    if c.nodes[i].snap <= c.nodes[p].snap {
      OldSnapshotRound(c, i, p);
    } else {
      NewSnapshotRound(c, i, p);
    }
  }

  lemma MarkerInside(c: State, i: nat)
    requires NodesOk(c) && i < |c.nodes|
    ensures c.nodes[i].snap <= c.nodes[i].commit < |c.nodes[i].log|
  {
    assert NodeOk(c, i);
  }

  lemma OldSnapshotRound(c: State, i: nat, p: nat)
    requires i < |c.nodes| && p < |c.nodes| && i != p && c.nodes[i].role == Leader && c.nodes[p].term <= c.nodes[i].term
    requires NeedsSnapshot(c.nodes[i], p) && 0 < c.nodes[i].snap < |c.nodes[i].log| && c.nodes[i].snap <= c.nodes[p].snap
    ensures var n, f, d := c.nodes[i], c.nodes[p], Round(c, i, p);
            && p < |d.nodes| && i < |d.nodes| && d.nodes[p].term == n.term && d.nodes[p].snap == f.snap
            && d.nodes[i] == n.(matched := n.matched[p := Max(Get(n.matched, p), n.snap)],
                                next := n.next[p := Max(Get(n.next, p), n.snap + 1)])
  {
    var n, f, m := c.nodes[i], c.nodes[p], NextMessage(c, i, p);
    assert LastIndex(m.snapshot) == n.snap;
    var reply := SnapResp(p, i, n.term, n.term, true, LastIndex(f.log), n.snap);
    R.SendSnapshotEffect(c, i, p);
    var c1 := Do(c, Send(i, p, false));
    R.SnapBeginEffect(c1, m, Ok);
    BeginReplies(c1, m);
    var c2 := Do(c1, SnapBegin(m, Ok));
    SnapRespEffect(c2, reply);
    ThreeSteps(c, Send(i, p, false), SnapBegin(m, Ok), RecvSnapResp(reply, Ok));
  }

  /** The two nodes after an install. */
  lemma InstalledPair(n: Node, f: Node, i: nat, p: nat, m: Message)
    requires m.SnapReq? && m.src == i && m.dst == p && m.term == n.term && |m.snapshot| > 0
    requires n.role == Leader && f.term <= n.term && f.snap < LastIndex(m.snapshot)
    ensures var f1 := SaveSnapshot(SnapshotBegin(f, m, Ok).0, m.snapshot);
            var (f2, reply) := SnapshotInstall(f1, m, Ok);
            && f1.term == n.term && f1.role == Follower && |m.snapshot| <= |f1.saved|
            && f2.term == n.term && f2.snap == LastIndex(m.snapshot) && reply.SnapResp? && reply.src == p && reply.dst == i
            && OnSnapResponse(n, reply, Ok) == n.(matched := n.matched[p := Max(Get(n.matched, p), LastIndex(m.snapshot))],
                                                  next := n.next[p := Max(Get(n.next, p), LastIndex(m.snapshot) + 1)])
  {
  }

  lemma NewSnapshotRound(c: State, i: nat, p: nat)
    requires i < |c.nodes| && p < |c.nodes| && i != p && c.nodes[i].role == Leader && c.nodes[p].term <= c.nodes[i].term
    requires NeedsSnapshot(c.nodes[i], p) && 0 < c.nodes[i].snap < |c.nodes[i].log| && c.nodes[p].snap < c.nodes[i].snap
    ensures var n, f, d := c.nodes[i], c.nodes[p], Round(c, i, p);
            && p < |d.nodes| && i < |d.nodes| && d.nodes[p].term == n.term && d.nodes[p].snap == n.snap
            && d.nodes[i] == n.(matched := n.matched[p := Max(Get(n.matched, p), n.snap)],
                                next := n.next[p := Max(Get(n.next, p), n.snap + 1)])
  {
    var n, f, m := c.nodes[i], c.nodes[p], NextMessage(c, i, p);
    assert LastIndex(m.snapshot) == n.snap;
    InstalledPair(n, f, i, p, m);
    InstallRound(c, i, p, m);
  }

  lemma InstallRound(c: State, i: nat, p: nat, m: Message)
    requires i < |c.nodes| && p < |c.nodes| && i != p && c.nodes[i].role == Leader && NeedsSnapshot(c.nodes[i], p) && c.nodes[i].snap != 0
    requires m == SnapReq(i, p, c.nodes[i].term, SnapshotToSend(c.nodes[i], false)) && LastIndex(m.snapshot) > c.nodes[p].snap
    requires var f1 := SaveSnapshot(SnapshotBegin(c.nodes[p], m, Ok).0, m.snapshot);
             f1.term == m.term && f1.role == Follower && |m.snapshot| <= |f1.saved|
    ensures var f1 := SaveSnapshot(SnapshotBegin(c.nodes[p], m, Ok).0, m.snapshot);
            var (f2, reply) := SnapshotInstall(f1, m, Ok);
            Round(c, i, p).nodes == c.nodes[p := f2][i := OnSnapResponse(c.nodes[i], reply, Ok)]
  {
    InstallSteps(c, i, p, m);
    InstallConversation(c, i, p, m);
  }

  lemma InstallConversation(c: State, i: nat, p: nat, m: Message)
    requires i < |c.nodes| && p < |c.nodes| && NeedsSnapshot(c.nodes[i], p) && c.nodes[i].snap != 0
    requires m == SnapReq(i, p, c.nodes[i].term, SnapshotToSend(c.nodes[i], false)) && LastIndex(m.snapshot) > c.nodes[p].snap
    ensures var f1 := SaveSnapshot(SnapshotBegin(c.nodes[p], m, Ok).0, m.snapshot);
            Round(c, i, p)
            == Do(Do(Do(Do(Do(c, Send(i, p, false)), SnapBegin(m, Ok)), SnapSave(m)), SnapInstall(m, Ok)),
                  RecvSnapResp(SnapshotInstall(f1, m, Ok).1, Ok))
  {
    var f1 := SaveSnapshot(SnapshotBegin(c.nodes[p], m, Ok).0, m.snapshot);
    FiveSteps(c, Send(i, p, false), SnapBegin(m, Ok), SnapSave(m), SnapInstall(m, Ok), RecvSnapResp(SnapshotInstall(f1, m, Ok).1, Ok));
  }

  lemma InstallSteps(c: State, i: nat, p: nat, m: Message)
    requires i < |c.nodes| && p < |c.nodes| && i != p && c.nodes[i].role == Leader && NeedsSnapshot(c.nodes[i], p) && c.nodes[i].snap != 0
    requires m == SnapReq(i, p, c.nodes[i].term, SnapshotToSend(c.nodes[i], false))
    requires var f1 := SaveSnapshot(SnapshotBegin(c.nodes[p], m, Ok).0, m.snapshot);
             f1.term == m.term && f1.role == Follower && |m.snapshot| <= |f1.saved|
    ensures var f1 := SaveSnapshot(SnapshotBegin(c.nodes[p], m, Ok).0, m.snapshot);
            var (f2, reply) := SnapshotInstall(f1, m, Ok);
            Do(Do(Do(Do(Do(c, Send(i, p, false)), SnapBegin(m, Ok)), SnapSave(m)), SnapInstall(m, Ok)), RecvSnapResp(reply, Ok)).nodes
            == c.nodes[p := f2][i := OnSnapResponse(c.nodes[i], reply, Ok)]
  {
    var f1 := SaveSnapshot(SnapshotBegin(c.nodes[p], m, Ok).0, m.snapshot);
    R.SendSnapshotEffect(c, i, p);
    var c1 := Do(c, Send(i, p, false));
    R.SnapBeginEffect(c1, m, Ok);
    InstallTail(Do(c1, SnapBegin(m, Ok)), c.nodes[i], f1, i, p, m);
  }

  lemma InstallTail(c: State, n: Node, f1: Node, i: nat, p: nat, m: Message)
    requires Delivered(c, m) && m.SnapReq? && m.src == i && m.dst == p && i != p && c.nodes[i] == n
    requires SaveSnapshot(c.nodes[p], m.snapshot) == f1 && f1.term == m.term && f1.role == Follower && |m.snapshot| <= |f1.saved|
    ensures var reply := SnapshotInstall(f1, m, Ok).1;
            Do(Do(Do(c, SnapSave(m)), SnapInstall(m, Ok)), RecvSnapResp(reply, Ok)).nodes
            == c.nodes[p := SnapshotInstall(f1, m, Ok).0][i := OnSnapResponse(n, reply, Ok)]
  {
    R.SnapSaveEffect(c, m);
    var c3 := Do(c, SnapSave(m));
    InstallEffect(c3, m);
    SnapRespEffect(Do(c3, SnapInstall(m, Ok)), SnapshotInstall(f1, m, Ok).1);
  }

  // ---------------------------------------------------------------- what a round leaves alone

  predicate Persisting(s: Step) {
    match s
    case RecvAppendReq(_, raise, save, commitSave) => raise == save == commitSave == Ok
    case RecvAppendResp(_, raise, save) => raise == save == Ok
    case SnapBegin(_, raise) => raise == Ok
    case RecvSnapResp(_, raise) => raise == Ok
    case Send(_, _, _) => true
    case SnapSave(_) => true
    case SnapInstall(_, save) => save == Ok
    case _ => false
  }

  lemma RoundInv(c: State, i: nat, p: nat)
    requires Inv(c) && i < |c.nodes| && p < |c.nodes|
    ensures Inv(Round(c, i, p))
  {
    ConversationPersists(c, i, p);
    PerformInv(c, Conversation(c, i, p));
  }

  /** In a round every persist succeeds. */
  lemma ConversationPersists(c: State, i: nat, p: nat)
    requires i < |c.nodes| && p < |c.nodes|
    ensures forall s :: s in Conversation(c, i, p) ==> Persisting(s)
  {
  }

  /** The leader after a reply in its own term: only progress and commit change. */
  predicate Leading(n: Node, n': Node) {
    n'.role == Leader && n'.term == n.term && n'.log == n.log && n'.snap == n.snap && n'.commit >= n.commit
  }

  lemma ReplyKeepsLeading(n: Node, i: nat, size: nat, reply: Message)
    requires n.role == Leader && reply.AppendResp? && reply.term <= n.term
    ensures Leading(n, OnAppendResponse(n, i, size, reply, Ok, Ok))
  {
  }

  /** How the leader's indexes for p move. */
  lemma ReplyMoves(n: Node, i: nat, size: nat, reply: Message)
    requires n.role == Leader && reply.AppendResp? && reply.term <= n.term == reply.reqTerm
    ensures var n' := OnAppendResponse(n, i, size, reply, Ok, Ok);
            if reply.success then
              && Get(n'.matched, reply.src) == Max(Get(n.matched, reply.src), reply.matchIndex)
              && Get(n'.next, reply.src) == Max(Get(n.next, reply.src), reply.matchIndex + 1)
            else Get(n'.matched, reply.src) == Get(n.matched, reply.src)
                 && (HintedNext(n, reply) > 0 ==> Get(n'.next, reply.src) == HintedNext(n, reply))
  {
  }

  /** The follower and its reply. */
  lemma Handled(f: Node, m: Message)
    requires m.AppendReq? && f.term <= m.term
    ensures var (f', reply) := OnAppendEntries(f, m, Ok, Ok, Ok);
            && f'.term == m.term && f'.snap == f.snap && reply.AppendResp? && reply.src == m.dst && reply.term == reply.reqTerm == m.term
            && if PrevMatches(f, m) then
                 && reply.success && reply.matchIndex == m.prevIndex + |m.entries| && f'.log == Merge(f.log, m.prevIndex + 1, m.entries)
                 && f'.commit == Max(f.commit, Min(m.leaderCommit, LastIndex(f'.log)))
               else !reply.success && f'.log == f.log && reply == Reject(f.(term := m.term), m)
  {
    var f1 := BecomeFollower(f, m.term, m.src, Ok);
    if PrevMatches(f1, m) {
      AcceptedAll(f1, m);
    }
  }

  lemma AcceptedAll(f: Node, m: Message)
    requires m.AppendReq? && PrevMatches(f, m)
    ensures var (f', reply) := AcceptAppend(f, m, Ok, Ok);
            && f'.term == f.term && f'.snap == f.snap && f'.log == Merge(f.log, m.prevIndex + 1, m.entries)
            && f'.commit == Max(f.commit, Min(m.leaderCommit, LastIndex(f'.log)))
            && reply.AppendResp? && reply.src == m.dst && reply.reqTerm == m.term && reply.term == f.term
            && reply.success && reply.matchIndex == m.prevIndex + |m.entries|
  {
  }

  lemma RoundKeepsPair(c: State, i: nat, p: nat)
    requires Pair(c, i, p)
    ensures var d := Round(c, i, p);
            && Pair(d, i, p) && Leading(c.nodes[i], d.nodes[i])
            && (d.nodes[p].term == d.nodes[i].term || (NeedsSnapshot(c.nodes[i], p) && c.nodes[i].snap == 0))
  {
    RoundInv(c, i, p);
    var n, f := c.nodes[i], c.nodes[p];
    if !NeedsSnapshot(n, p) {
      AppendRound(c, i, p);
      var m := BuildAppend(n, i, p);
      Handled(f, m);
      ReplyKeepsLeading(n, i, |c.nodes|, OnAppendEntries(f, m, Ok, Ok, Ok).1);
    } else if n.snap > 0 {
      SnapshotRound(c, i, p);
    } else {
      NothingSent(c, i, p);
    }
  }

  lemma NothingSent(c: State, i: nat, p: nat)
    requires i < |c.nodes| && p < |c.nodes| && i != p && NeedsSnapshot(c.nodes[i], p) && c.nodes[i].snap == 0
    ensures Round(c, i, p) == c
  {
    assert [Send(i, p, false)][1..] == [];
    assert Perform(Do(c, Send(i, p, false)), []) == Do(c, Send(i, p, false));
  }

  // ---------------------------------------------------------------- accepted rounds

  /** The next request will be accepted: p has the leader's log up to next. */
  ghost predicate InStep(c: State, i: nat, p: nat) {
    && Pair(c, i, p) && c.nodes[i].snap < NextOf(c, i, p) <= |c.nodes[i].log|
    && c.nodes[p].snap < NextOf(c, i, p) && AgreeTo(c.nodes[p].log, c.nodes[i].log, NextOf(c, i, p))
  }

  /** p has the leader's whole log and the leader knows it. */
  ghost predicate CaughtUp(c: State, i: nat, p: nat) {
    && i < |c.nodes| && p < |c.nodes|
    && MatchOf(c, i, p) >= LastIndex(c.nodes[i].log) && c.nodes[i].log <= c.nodes[p].log
  }

  lemma RecordTerms(c: State, i: nat, k: nat)
    requires NodesOk(c) && i < |c.nodes| && 0 < k < |c.nodes[i].log|
    ensures c.nodes[i].log[k].term >= 1
  {
    assert NodeOk(c, i);
    assert GoodAt(c.hist, c.nodes[i].log, c.nodes[i].term, k);
  }

  /** With a next index inside the retained log the leader sends records. */
  lemma SendsRecords(c: State, i: nat, p: nat)
    requires NodesOk(c) && i < |c.nodes| && c.nodes[i].snap < NextOf(c, i, p) <= |c.nodes[i].log|
    ensures !NeedsSnapshot(c.nodes[i], p) && NextFor(c.nodes[i], p) == NextOf(c, i, p)
  {
    if NextOf(c, i, p) > 1 {
      RecordTerms(c, i, NextOf(c, i, p) - 1);
    }
  }

  lemma InStepMatches(c: State, i: nat, p: nat)
    requires InStep(c, i, p)
    ensures !NeedsSnapshot(c.nodes[i], p) && NextFor(c.nodes[i], p) == NextOf(c, i, p)
    ensures PrevMatches(c.nodes[p], BuildAppend(c.nodes[i], i, p))
  {
    SendsRecords(c, i, p);
    var k := NextOf(c, i, p);
    assert c.nodes[p].log[..k][k - 1] == c.nodes[i].log[..k][k - 1];
  }

  /** The records of an accepted request are the leader's. */
  lemma AcceptedShares(c: State, i: nat, p: nat)
    requires Pair(c, i, p) && !NeedsSnapshot(c.nodes[i], p) && PrevMatches(c.nodes[p], BuildAppend(c.nodes[i], i, p))
    ensures var f, m := c.nodes[p], BuildAppend(c.nodes[i], i, p);
            && AgreeTo(f.log, c.nodes[i].log, m.prevIndex + 1)
            && AgreeTo(Merge(f.log, m.prevIndex + 1, m.entries), c.nodes[i].log, m.prevIndex + |m.entries| + 1)
  {
    var m := BuildAppend(c.nodes[i], i, p);
    PostEffect(c, i, p);
    StepInv(c, Send(i, p, false));
    var c1 := Do(c, Send(i, p, false));
    M.Followed(c1, m);
    var c2 := Update(c1, p, BecomeFollower(c1.nodes[p], m.term, m.src, Ok), {});
    MergedLog(c2, m);
    MergedShape(c2, m);
    LeaderElected(c1, i);
  }

  /** The two nodes after an accepted request with the records up to index `end`. */
  predicate Moved(n: Node, f: Node, n': Node, f': Node, i: nat, p: nat, end: nat)
    requires !NeedsSnapshot(n, p)
  {
    var m := BuildAppend(n, i, p);
    && m.prevIndex < |f.log| && Get(n'.next, p) == end == m.prevIndex + |m.entries| + 1 && Get(n'.matched, p) >= end - 1
    && f'.log == Merge(f.log, m.prevIndex + 1, m.entries) && f'.snap == f.snap
    && f'.commit == Max(f.commit, Min(n.commit, LastIndex(f'.log)))
  }

  function EndOf(n: Node, p: nat): nat
    requires Get(n.next, p) <= |n.log|
  {
    Get(n.next, p) + BatchCount(n.log, Get(n.next, p), 0, 0)
  }

  lemma AcceptedPair(n: Node, f: Node, i: nat, p: nat, size: nat)
    requires n.role == Leader && f.term <= n.term && Get(n.next, p) >= 1 && !NeedsSnapshot(n, p) && PrevMatches(f, BuildAppend(n, i, p))
    ensures var (f', reply) := OnAppendEntries(f, BuildAppend(n, i, p), Ok, Ok, Ok);
            Moved(n, f, OnAppendResponse(n, i, size, reply, Ok, Ok), f', i, p, EndOf(n, p))
  {
    var m := BuildAppend(n, i, p);
    Handled(f, m);
    ReplyMoves(n, i, size, OnAppendEntries(f, m, Ok, Ok, Ok).1);
  }

  lemma AcceptedRound(c: State, i: nat, p: nat)
    requires Pair(c, i, p) && !NeedsSnapshot(c.nodes[i], p) && PrevMatches(c.nodes[p], BuildAppend(c.nodes[i], i, p))
    requires NextOf(c, i, p) >= 1
    ensures var n, d := c.nodes[i], Round(c, i, p);
            && Moved(n, c.nodes[p], d.nodes[i], d.nodes[p], i, p, EndOf(n, p)) && AgreeTo(d.nodes[p].log, n.log, EndOf(n, p))
  {
    AcceptedShares(c, i, p);
    AcceptedNodes(c, i, p);
  }

  lemma AcceptedNodes(c: State, i: nat, p: nat)
    requires i < |c.nodes| && p < |c.nodes| && i != p && c.nodes[i].role == Leader && c.nodes[p].term <= c.nodes[i].term
    requires NextOf(c, i, p) >= 1 && !NeedsSnapshot(c.nodes[i], p) && PrevMatches(c.nodes[p], BuildAppend(c.nodes[i], i, p))
    ensures var n, d := c.nodes[i], Round(c, i, p);
            Moved(n, c.nodes[p], d.nodes[i], d.nodes[p], i, p, EndOf(n, p))
  {
    AppendRound(c, i, p);
    AcceptedPair(c.nodes[i], c.nodes[p], i, p, |c.nodes|);
  }

  lemma NextInStep(c: State, i: nat, p: nat)
    requires InStep(c, i, p)
    ensures var d := Round(c, i, p);
            && Leading(c.nodes[i], d.nodes[i]) && InStep(d, i, p)
            && (if NextOf(d, i, p) == |c.nodes[i].log| then CaughtUp(d, i, p) else NextOf(d, i, p) > NextOf(c, i, p))
            && d.nodes[p].commit == Max(c.nodes[p].commit, Min(c.nodes[i].commit, LastIndex(d.nodes[p].log)))
  {
    InStepMatches(c, i, p);
    RoundKeepsPair(c, i, p);
    AcceptedRound(c, i, p);
    InStepAfter(c, i, p, Round(c, i, p));
  }

  lemma InStepAfter(c: State, i: nat, p: nat, d: State)
    requires InStep(c, i, p) && !NeedsSnapshot(c.nodes[i], p) && Pair(d, i, p) && Leading(c.nodes[i], d.nodes[i])
    requires Moved(c.nodes[i], c.nodes[p], d.nodes[i], d.nodes[p], i, p, EndOf(c.nodes[i], p))
    requires AgreeTo(d.nodes[p].log, c.nodes[i].log, EndOf(c.nodes[i], p))
    ensures InStep(d, i, p)
    ensures if NextOf(d, i, p) == |c.nodes[i].log| then CaughtUp(d, i, p) else NextOf(d, i, p) > NextOf(c, i, p)
  {
  }

  // ---------------------------------------------------------------- rejected rounds

  /** The hint after a conflict at the previous index lies strictly before the next index. */
  lemma ConflictHint(c: State, n: Node, f: Node, next: nat)
    requires GoodLog(c.hist, n.log, n.term) && GoodLog(c.hist, f.log, f.term) && f.snap < next <= |n.log| && next <= |f.log|
    requires f.log[next - 1].term != n.log[next - 1].term
    ensures var t := f.log[next - 1].term;
            && t > 0 && 0 < FirstIndexOfTerm(f.log, f.snap, t) < next
            && AfterLastOfTerm(n.log, n.snap, |n.log|, t) < next
  {
    var prev := next - 1;
    assert prev > 0;
    assert GoodAt(c.hist, f.log, f.term, prev);
    var t := f.log[prev].term;
    FirstIndexFound(f.log, f.snap, prev, t);
    var after := AfterLastOfTerm(n.log, n.snap, |n.log|, t);
    if after >= next {
      SameTermEarlier(c.hist, n.log, n.term, f.log, f.term, prev, after - 1);
    }
  }

  /** A log with a record of some term has that term's earlier records. */
  lemma SameTermEarlier(h: History, a: Log, x: nat, b: Log, y: nat, k: nat, j: nat)
    requires GoodLog(h, a, x) && GoodLog(h, b, y) && 0 < k <= j < |a| && k < |b| && a[j].term == b[k].term
    ensures a[k].term == b[k].term
  {
    assert GoodAt(h, a, x, j) && GoodAt(h, b, y, k);
    assert a[..j + 1][k] == LeaderLog(h, b[k].term)[k] == b[..k + 1][k];
  }

  lemma RejectHint(c: State, n: Node, f: Node, m: Message, next: nat)
    requires GoodLog(c.hist, n.log, n.term) && GoodLog(c.hist, f.log, f.term) && 0 < next <= |n.log|
    requires m.AppendReq? && m.prevIndex == next - 1 && m.prevTerm == n.log[next - 1].term && !PrevMatches(f, m)
    ensures var hint := HintedNext(n, Reject(f, m));
            if next <= f.snap then hint == Min(f.snap + 1, |n.log|) else 0 < hint < next
  {
    if f.snap < next <= |f.log| {
      ConflictHint(c, n, f, next);
    }
  }

  lemma RejectedRound(c: State, i: nat, p: nat)
    requires Pair(c, i, p) && c.nodes[i].snap < NextOf(c, i, p) <= |c.nodes[i].log| && !NeedsSnapshot(c.nodes[i], p)
    requires !PrevMatches(c.nodes[p], BuildAppend(c.nodes[i], i, p))
    ensures var n, f, d := c.nodes[i], c.nodes[p], Round(c, i, p);
            && d.nodes[p].snap == f.snap
            && if NextOf(c, i, p) <= f.snap then NextOf(d, i, p) == Min(f.snap + 1, |n.log|) else 0 < NextOf(d, i, p) < NextOf(c, i, p)
  {
    var n, f, m := c.nodes[i], c.nodes[p], BuildAppend(c.nodes[i], i, p);
    SendsRecords(c, i, p);
    GoodNodeLog(c, i);
    GoodNodeLog(c, p);
    AppendRound(c, i, p);
    Handled(f, m);
    ReplyMoves(n, i, |c.nodes|, OnAppendEntries(f, m, Ok, Ok, Ok).1);
    SameReject(f, m);
    RejectHint(c, n, f, m, NextOf(c, i, p));
  }

  /** The hint does not depend on the follower's term. */
  lemma SameReject(f: Node, m: Message)
    requires m.AppendReq?
    ensures var a, b := Reject(f, m), Reject(f.(term := m.term), m);
            && a.AppendResp? && b.AppendResp? && a.conflictIndex == b.conflictIndex && a.conflictTerm == b.conflictTerm && a.lastIndex == b.lastIndex
            && forall n: Node :: HintedNext(n, a) == HintedNext(n, b)
  {
  }

  // ---------------------------------------------------------------- the outcome of a round

  lemma ComesBack(c: State, i: nat, p: nat)
    requires Pair(c, i, p) && c.nodes[i].snap < NextOf(c, i, p) <= |c.nodes[i].log|
    requires !NeedsSnapshot(c.nodes[i], p) && !PrevMatches(c.nodes[p], BuildAppend(c.nodes[i], i, p)) && OthersSame(c, Round(c, i, p), i, p)
    ensures RoundEnds(c, Round(c, i, p), i, p)
  {
    RoundKeepsPair(c, i, p);
    RejectedRound(c, i, p);
    if InStep(c, i, p) {
      InStepMatches(c, i, p);
    }
  }

  lemma GoesOn(c: State, i: nat, p: nat)
    requires Pair(c, i, p) && c.nodes[i].snap < NextOf(c, i, p) <= |c.nodes[i].log|
    requires !NeedsSnapshot(c.nodes[i], p) && PrevMatches(c.nodes[p], BuildAppend(c.nodes[i], i, p)) && OthersSame(c, Round(c, i, p), i, p)
    ensures InStep(c, i, p) && RoundEnds(c, Round(c, i, p), i, p)
  {
    SendsRecords(c, i, p);
    AcceptedShares(c, i, p);
    NextInStep(c, i, p);
    RoundKeepsPair(c, i, p);
  }

  /** Below the marker a snapshot is sent; past the end of the log too, or nothing, and the next index stays there. */
  lemma GetsSnapshot(c: State, i: nat, p: nat)
    requires Pair(c, i, p) && 0 < NextOf(c, i, p) && (NextOf(c, i, p) <= c.nodes[i].snap || NextOf(c, i, p) > |c.nodes[i].log|)
    requires OthersSame(c, Round(c, i, p), i, p)
    ensures RoundEnds(c, Round(c, i, p), i, p)
  {
    MarkerInside(c, i);
    RoundKeepsPair(c, i, p);
    if c.nodes[i].snap > 0 {
      SnapshotRound(c, i, p);
    } else {
      NothingSent(c, i, p);
    }
  }

  /** A round concerns these two nodes only, and what the leader knows of p. */
  ghost predicate OthersSame(c: State, d: State, i: nat, p: nat)
    requires i < |c.nodes|
  {
    && |d.nodes| == |c.nodes| && (forall q :: 0 <= q < |c.nodes| && q != i && q != p ==> d.nodes[q] == c.nodes[q])
    && (forall q :: q != p ==> NextOf(d, i, q) == NextOf(c, i, q) && MatchOf(d, i, q) == MatchOf(c, i, q))
  }

  lemma RoundLeavesOthers(c: State, i: nat, p: nat)
    requires Pair(c, i, p)
    ensures OthersSame(c, Round(c, i, p), i, p)
  {
    MarkerInside(c, i);
    if !NeedsSnapshot(c.nodes[i], p) {
      AppendLeavesOthers(c, i, p);
    } else if c.nodes[i].snap == 0 {
      NothingSent(c, i, p);
    } else {
      SnapshotRound(c, i, p);
      SnapshotLeavesOthers(c, i, p);
    }
  }

  lemma AppendLeavesOthers(c: State, i: nat, p: nat)
    requires i < |c.nodes| && p < |c.nodes| && i != p && c.nodes[i].role == Leader && !NeedsSnapshot(c.nodes[i], p)
    requires c.nodes[p].term <= c.nodes[i].term
    ensures OthersSame(c, Round(c, i, p), i, p)
  {
    AppendRound(c, i, p);
    AppendAnswer(c.nodes[p], BuildAppend(c.nodes[i], i, p), Ok, Ok, Ok);
    ReplyLeavesOthers(c.nodes[i], i, |c.nodes|, OnAppendEntries(c.nodes[p], BuildAppend(c.nodes[i], i, p), Ok, Ok, Ok).1);
  }

  lemma ReplyLeavesOthers(n: Node, i: nat, size: nat, reply: Message)
    requires n.role == Leader && reply.AppendResp? && reply.term <= n.term
    ensures var n' := OnAppendResponse(n, i, size, reply, Ok, Ok);
            forall q :: q != reply.src ==> Get(n'.next, q) == Get(n.next, q) && Get(n'.matched, q) == Get(n.matched, q)
  {
  }

  /** The steps of a round are i's and p's. */
  predicate Between(s: Step, i: nat, p: nat) {
    match s
    case Send(_, _, _) => true
    case RecvAppendReq(m, _, _, _) => m.dst == p
    case RecvAppendResp(m, _, _) => m.dst == i
    case SnapBegin(m, _) => m.dst == p
    case SnapSave(m) => m.dst == p
    case SnapInstall(m, _) => m.dst == p
    case RecvSnapResp(m, _) => m.dst == i
    case _ => false
  }

  lemma StepBetween(c: State, s: Step, i: nat, p: nat, q: nat)
    requires Between(s, i, p) && q < |c.nodes| && q != i && q != p
    ensures q < |Do(c, s).nodes| && Do(c, s).nodes[q] == c.nodes[q]
  {
  }

  lemma {:induction false} StepsBetween(c: State, steps: seq<Step>, i: nat, p: nat, q: nat)
    requires (forall s :: s in steps ==> Between(s, i, p)) && q < |c.nodes| && q != i && q != p
    ensures q < |Perform(c, steps).nodes| && Perform(c, steps).nodes[q] == c.nodes[q]
    decreases |steps|
  {
    if steps != [] {
      StepBetween(c, steps[0], i, p, q);
      StepsBetween(Do(c, steps[0]), steps[1..], i, p, q);
    }
  }

  lemma SnapshotLeavesOthers(c: State, i: nat, p: nat)
    requires Pair(c, i, p) && NeedsSnapshot(c.nodes[i], p) && c.nodes[i].snap > 0
    ensures forall q :: 0 <= q < |c.nodes| && q != i && q != p ==> Round(c, i, p).nodes[q] == c.nodes[q]
  {
    MarkerInside(c, i);
    SnapshotBetween(c, i, p);
    forall q | 0 <= q < |c.nodes| && q != i && q != p ensures Round(c, i, p).nodes[q] == c.nodes[q] {
      StepsBetween(c, Conversation(c, i, p), i, p, q);
    }
  }

  lemma SnapshotBetween(c: State, i: nat, p: nat)
    requires i < |c.nodes| && p < |c.nodes| && NeedsSnapshot(c.nodes[i], p)
    ensures forall s :: s in Conversation(c, i, p) ==> Between(s, i, p)
  {
  }

  /** What a round can do, by where the next index stands. */
  ghost predicate RoundEnds(c: State, d: State, i: nat, p: nat)
    requires i < |c.nodes| && p < |c.nodes|
  {
    var n, f, next := c.nodes[i], c.nodes[p], NextOf(c, i, p);
    && Pair(d, i, p) && Leading(n, d.nodes[i])
    && (InStep(c, i, p) ==>
          && InStep(d, i, p) && (if NextOf(d, i, p) == |n.log| then CaughtUp(d, i, p) else NextOf(d, i, p) > next)
          && d.nodes[p].commit == Max(f.commit, Min(n.commit, LastIndex(d.nodes[p].log))))
    && OthersSame(c, d, i, p)
    && (!InStep(c, i, p) && n.snap < next <= |n.log| ==>
          && d.nodes[p].term == n.term && d.nodes[p].snap == f.snap
          && if next <= f.snap then NextOf(d, i, p) == Min(f.snap + 1, |n.log|) else 0 < NextOf(d, i, p) < next)
    && (next <= n.snap ==> d.nodes[p].term == n.term && d.nodes[p].snap == Max(f.snap, n.snap) && NextOf(d, i, p) == n.snap + 1)
    && (next > |n.log| ==> NextOf(d, i, p) == next && MatchOf(d, i, p) == Max(MatchOf(c, i, p), n.snap))
  }

  lemma RoundOutcome(c: State, i: nat, p: nat)
    requires Pair(c, i, p)
    ensures NextOf(c, i, p) > 0 && RoundEnds(c, Round(c, i, p), i, p)
  {
    NextPositive(c, i, p);
    MarkerInside(c, i);
    RoundLeavesOthers(c, i, p);
    if c.nodes[i].snap < NextOf(c, i, p) <= |c.nodes[i].log| {
      SendsRecords(c, i, p);
      if PrevMatches(c.nodes[p], BuildAppend(c.nodes[i], i, p)) {
        GoesOn(c, i, p);
      } else {
        ComesBack(c, i, p);
      }
    } else {
      GetsSnapshot(c, i, p);
    }
  }

  lemma NextPositive(c: State, i: nat, p: nat)
    requires NodesOk(c) && i < |c.nodes| && p < |c.nodes| && i != p && c.nodes[i].role == Leader
    ensures NextOf(c, i, p) > 0
  {
    assert NodeOk(c, i) && PeerOk(c, c.nodes[i], p);
  }

  // ---------------------------------------------------------------- what is sent

  /** The most records from index `from` on that fit: 256 at most, 512 KiB unless it is just one. */
  predicate LargestBatch(log: Log, from: nat, k: nat) {
    && from + k <= |log| && k <= 256 && (k <= 1 || SizeOf(log, from, k) <= 524288)
    && (from + k == |log| || k == 256 || (k > 0 && SizeOf(log, from, k) + |log[from + k].command| > 524288))
  }

  ghost predicate Carries(n: Node, i: nat, p: nat, next: nat, m: Message)
    requires 0 < next <= |n.log|
  {
    exists k :: LargestBatch(n.log, next, k)
                && m == AppendReq(i, p, n.term, next - 1, n.log[next - 1].term, n.log[next..next + k], n.commit)
  }

  /**
    What a leader sends, in every state: the largest batch from the next index on with the record before it and its own commit index, if it
    still has them; otherwise the snapshot at its marker or the newest one; and nothing when it has never compacted.
   */
  lemma SendIs(c: State, i: nat, p: nat, newest: bool)
    requires Inv(c) && Enabled(c, Send(i, p, newest))
    ensures var n, next, d := c.nodes[i], NextOf(c, i, p), Do(c, Send(i, p, newest));
            && d.nodes == c.nodes && d.hist == c.hist && 0 < next
            && (n.snap < next <= |n.log| ==> exists m :: Carries(n, i, p, next, m) && d.net == c.net + {m})
            && (next <= n.snap || next > |n.log| ==>
                  n.snap < |n.log|
                  && d.net == if n.snap == 0 then c.net else c.net + {SnapReq(i, p, n.term, if newest then n.saved else n.log[..n.snap + 1])})
  {
    NextPositive(c, i, p);
    MarkerInside(c, i);
    if c.nodes[i].snap < NextOf(c, i, p) <= |c.nodes[i].log| {
      SendsRecords(c, i, p);
      SendsBatch(c, i, p, newest);
    } else {
      SendsSnapshot(c, i, p, newest);
    }
  }

  lemma SendsBatch(c: State, i: nat, p: nat, newest: bool)
    requires Enabled(c, Send(i, p, newest)) && !NeedsSnapshot(c.nodes[i], p) && 0 < NextOf(c, i, p) <= |c.nodes[i].log|
    ensures var n, d, m := c.nodes[i], Do(c, Send(i, p, newest)), BuildAppend(c.nodes[i], i, p);
            d.nodes == c.nodes && d.hist == c.hist && d.net == c.net + {m} && Carries(n, i, p, NextOf(c, i, p), m)
  {
    var n, next := c.nodes[i], NextOf(c, i, p);
    assert c.nodes[i := n] == c.nodes;
    BatchIsLargest(n.log, next, 0, 0);
    assert LargestBatch(n.log, next, BatchCount(n.log, next, 0, 0));
  }

  lemma SendsSnapshot(c: State, i: nat, p: nat, newest: bool)
    requires Enabled(c, Send(i, p, newest)) && NeedsSnapshot(c.nodes[i], p) && c.nodes[i].snap < |c.nodes[i].log|
    ensures var n, d := c.nodes[i], Do(c, Send(i, p, newest));
            && d.nodes == c.nodes && d.hist == c.hist
            && d.net == if n.snap == 0 then c.net else c.net + {SnapReq(i, p, n.term, if newest then n.saved else n.log[..n.snap + 1])}
  {
    assert c.nodes[i := c.nodes[i]] == c.nodes;
  }
}
