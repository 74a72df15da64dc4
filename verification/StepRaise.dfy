/** A raised term that reached the disk although its persist reported a failure: the node moves on as usual, only its reply refuses. */
module StepRaise {
  import opened RaftLog
  import opened Protocol
  import opened Cluster
  import opened Invariant
  import opened Frame
  import opened StepBase
  import opened StepElect
  import opened StepLeader
  import opened StepFollow
  import opened StepSnapshot

  lemma RaiseReported(c: State, i: nat, t: nat, leader: int, reply: Message)
    requires Inv(c) && i < |c.nodes| && t > c.nodes[i].term
    requires MsgOk(Update(c, i, BecomeFollower(c.nodes[i], t, leader, Published), {}), reply)
    ensures Inv(Update(c, i, BecomeFollower(c.nodes[i], t, leader, Published), {reply}))
  {
    var n1 := BecomeFollower(c.nodes[i], t, leader, Published);
    assert n1 == BecomeFollower(c.nodes[i], t, leader, Ok);
    FollowStep(c, i, t, leader);
    AddMessage(Update(c, i, n1, {}), reply);
    assert c.net + {} + {reply} == c.net + {reply};
  }

  lemma VoteReqRaised(c: State, m: Message, save: Outcome)
    requires Inv(c) && Delivered(c, m) && m.VoteReq? && m.term > c.nodes[m.dst].term
    ensures Inv(DoVoteReq(c, m, Published, save))
  {
    RaiseReported(c, m.dst, m.term, -1, VoteResp(m.dst, m.src, m.term, m.term, false));
  }

  lemma AppendReqRaised(c: State, m: Message, save: Outcome, commitSave: Outcome)
    requires Inv(c) && Delivered(c, m) && m.AppendReq? && m.term > c.nodes[m.dst].term
    ensures Inv(DoAppendReq(c, m, Published, save, commitSave))
  {
    var n := c.nodes[m.dst];
    assert MsgOk(c, m);
    var reply := AppendResp(m.dst, m.src, m.term, m.term, false, n.snap, LastIndex(n.log), 0, 0);
    RaiseReported(c, m.dst, m.term, m.src, reply);
  }

  lemma SnapBeginRaised(c: State, m: Message)
    requires Inv(c) && Delivered(c, m) && m.SnapReq? && m.term > c.nodes[m.dst].term
    ensures Inv(DoSnapBegin(c, m, Published))
  {
    var n := c.nodes[m.dst];
    assert MsgOk(c, m);
    NodeLogNonempty(c, m.dst);
    var reply := SnapResp(m.dst, m.src, m.term, m.term, false, LastIndex(n.log), LastIndex(m.snapshot));
    var c1 := Update(c, m.dst, BecomeFollower(n, m.term, m.src, Published), {});
    NotToLeader(c, m.dst, m.src, m.term);
    FollowStep(c, m.dst, m.term, m.src);
    assert MsgOk(c1, m);
    SnapReplyOk(c1, m, reply);
    RaiseReported(c, m.dst, m.term, m.src, reply);
    assert forall r :: r in {reply} ==> !r.success;
  }

  /** Where no term is raised, or the handler does not look at the outcome, Published is the same as Ok. */
  lemma LikeOk(c: State, s: Step)
    requires Enabled(c, s)
    ensures s.RecvVoteReq? && s.m.term <= c.nodes[s.m.dst].term ==>
              DoVoteReq(c, s.m, s.raise, s.save) == DoVoteReq(c, s.m, Ok, s.save)
    ensures s.RecvAppendReq? && s.m.term <= c.nodes[s.m.dst].term ==>
              DoAppendReq(c, s.m, s.raise, s.save, s.commitSave) == DoAppendReq(c, s.m, Ok, s.save, s.commitSave)
    ensures s.SnapBegin? && s.m.term <= c.nodes[s.m.dst].term ==> DoSnapBegin(c, s.m, s.raise) == DoSnapBegin(c, s.m, Ok)
    ensures s.RecvVoteResp? && s.raise != Lost ==>
              OnVoteResponse(c.nodes[s.m.dst], s.m, s.raise) == OnVoteResponse(c.nodes[s.m.dst], s.m, Ok)
    ensures s.RecvSnapResp? && s.raise != Lost ==>
              OnSnapResponse(c.nodes[s.m.dst], s.m, s.raise) == OnSnapResponse(c.nodes[s.m.dst], s.m, Ok)
    ensures s.RecvAppendResp? && s.raise != Lost ==>
              OnAppendResponse(c.nodes[s.m.dst], s.m.dst, |c.nodes|, s.m, s.raise, s.save) ==
              OnAppendResponse(c.nodes[s.m.dst], s.m.dst, |c.nodes|, s.m, Ok, s.save)
  {
  }

  lemma VoteReqAny(c: State, m: Message, raise: Outcome, save: Outcome)
    requires Inv(c) && Enabled(c, RecvVoteReq(m, raise, save)) && raise != Lost
    ensures Inv(DoVoteReq(c, m, raise, save))
  {
    if raise == Published && m.term > c.nodes[m.dst].term {
      VoteReqRaised(c, m, save);
    } else {
      LikeOk(c, RecvVoteReq(m, raise, save));
      VoteReqStep(c, m, save);
    }
  }

  lemma AppendReqAny(c: State, m: Message, raise: Outcome, save: Outcome, commitSave: Outcome)
    requires Inv(c) && Enabled(c, RecvAppendReq(m, raise, save, commitSave)) && raise != Lost
    ensures Inv(DoAppendReq(c, m, raise, save, commitSave))
  {
    if raise == Published && m.term > c.nodes[m.dst].term {
      AppendReqRaised(c, m, save, commitSave);
    } else {
      LikeOk(c, RecvAppendReq(m, raise, save, commitSave));
      AppendReqStep(c, m, save, commitSave);
    }
  }

  lemma SnapBeginAny(c: State, m: Message, raise: Outcome)
    requires Inv(c) && Enabled(c, SnapBegin(m, raise)) && raise != Lost
    ensures Inv(DoSnapBegin(c, m, raise))
  {
    if raise == Published && m.term > c.nodes[m.dst].term {
      SnapBeginRaised(c, m);
    } else {
      LikeOk(c, SnapBegin(m, raise));
      SnapBeginStep(c, m);
    }
  }
}
