/**
  The whole cluster: `size` nodes, a network that may lose, delay, reorder and duplicate messages
  (a set that only grows, from which any message can be delivered any number of times), and a record of what
  happened, which no step reads.
 */
module Cluster {
  import opened RaftLog
  import opened Protocol

  /** One won election: who won, with whose votes, and the leader's log, whose first `initLen` records it started with. */
  datatype Election = Election(leader: nat, voters: set<nat>, initLen: nat, log: Log)

  /**
    elections: the winner of each term. candidacies: the log each (term, candidate) stood with.
    granted: (voter, term, candidate). acked: highest index (follower, term) confirmed to that term's leader.
   */
  datatype History = History(elections: map<nat, Election>, candidacies: map<(nat, nat), Log>,
                             granted: set<(nat, nat, nat)>, acked: map<(nat, nat), nat>)

  datatype State = State(nodes: seq<Node>, net: set<Message>, hist: History)

  /**
    `raise` is the outcome of the persist inside BecomeFollower, `save` and `commitSave` the
    outcomes of the handler's other persists. Messages are delivered in any order.
   */
  datatype Step =
    | Timeout(i: nat, save: Outcome)
    | RecvVoteReq(m: Message, raise: Outcome, save: Outcome)
    | RecvVoteResp(m: Message, raise: Outcome)
    | Win(i: nat)
    | Propose(i: nat, command: string, save: Outcome)
    | Send(i: nat, peer: nat, newest: bool)
    | RecvAppendReq(m: Message, raise: Outcome, save: Outcome, commitSave: Outcome)
    | RecvAppendResp(m: Message, raise: Outcome, save: Outcome)
    | Advance(i: nat, save: Outcome)
    | SnapBegin(m: Message, raise: Outcome)
    | SnapSave(m: Message)
    | SnapInstall(m: Message, save: Outcome)
    | SnapFail(m: Message)
    | RecvSnapResp(m: Message, raise: Outcome)
    | LocalSnapshot(i: nat, k: nat)
    | LocalCompact(i: nat, k: nat, save: Outcome)
    | Flush(i: nat)
    | Crash(i: nat, resaved: bool)

  function Init(size: nat): State {
    State(seq(size, i => InitNode()), {}, History(map[], map[], {}, map[]))
  }

  function Update(c: State, i: nat, n: Node, msgs: set<Message>): State
    requires i < |c.nodes|
  {
    c.(nodes := c.nodes[i := n], net := c.net + msgs)
  }

  function SetLeaderLog(h: History, t: nat, log: Log): History
    requires t in h.elections
  {
    h.(elections := h.elections[t := h.elections[t].(log := log)])
  }

  function Ack(h: History, who: nat, t: nat, idx: nat): History {
    var key := (who, t);
    h.(acked := h.acked[key := if key in h.acked then Max(h.acked[key], idx) else idx])
  }

  predicate Delivered(c: State, m: Message) {
    m in c.net && m.src < |c.nodes| && m.dst < |c.nodes|
  }

  /** May step s happen in state c? */
  predicate Enabled(c: State, s: Step) {
    match s
    case Timeout(i, _) => i < |c.nodes| && c.nodes[i].role != Leader
    case RecvVoteReq(m, _, _) => Delivered(c, m) && m.VoteReq?
    case RecvVoteResp(m, _) => Delivered(c, m) && m.VoteResp?
    case Win(i) => i < |c.nodes| && c.nodes[i].role == Candidate && |c.nodes[i].votes| >= Quorum(|c.nodes|)
    case Propose(i, _, _) => i < |c.nodes| && c.nodes[i].role == Leader && c.nodes[i].term in c.hist.elections
    case Send(i, p, _) => i < |c.nodes| && p < |c.nodes| && p != i && c.nodes[i].role == Leader
    case RecvAppendReq(m, _, _, _) => Delivered(c, m) && m.AppendReq?
    case RecvAppendResp(m, _, _) => Delivered(c, m) && m.AppendResp?
    case Advance(i, _) => i < |c.nodes|
    case SnapBegin(m, _) => Delivered(c, m) && m.SnapReq?
    case SnapSave(m) => Delivered(c, m) && m.SnapReq? && c.nodes[m.dst].term >= m.term
    case SnapInstall(m, _) =>
      Delivered(c, m) && m.SnapReq? && c.nodes[m.dst].term == m.term && c.nodes[m.dst].role == Follower
      && |m.snapshot| <= |c.nodes[m.dst].saved|
    case SnapFail(m) => Delivered(c, m) && m.SnapReq? && c.nodes[m.dst].term >= m.term
    case RecvSnapResp(m, _) => Delivered(c, m) && m.SnapResp?
    case LocalSnapshot(i, k) => i < |c.nodes| && k <= c.nodes[i].commit && k < |c.nodes[i].log|
    case LocalCompact(i, k, _) => i < |c.nodes| && k <= c.nodes[i].commit && k < |c.nodes[i].saved|
    case Flush(i) => i < |c.nodes|
    case Crash(i, _) => i < |c.nodes|
  }

  function DoTimeout(c: State, i: nat, save: Outcome): State
    requires i < |c.nodes|
  {
    var n := StartElection(c.nodes[i], i, save);
    if n.role == Candidate && n.term > c.nodes[i].term then
      Update(c, i, n, set p | 0 <= p < |c.nodes| && p != i :: VoteReq(i, p, n.term, LastIndex(n.log), LastTerm(n.log)))
        .(hist := c.hist.(candidacies := c.hist.candidacies[(n.term, i) := n.log],
                          granted := c.hist.granted + {(i, n.term, i)}))
    else Update(c, i, n, {})
  }

  function DoVoteReq(c: State, m: Message, raise: Outcome, save: Outcome): State
    requires Delivered(c, m) && m.VoteReq?
  {
    var (n, reply) := OnRequestVote(c.nodes[m.dst], m, raise, save);
    var c1 := Update(c, m.dst, n, {reply});
    if reply.VoteResp? && reply.granted then c1.(hist := c.hist.(granted := c.hist.granted + {(m.dst, m.term, m.src)}))
    else c1
  }

  function DoWin(c: State, i: nat): State
    requires i < |c.nodes|
  {
    var n := c.nodes[i];
    Update(c, i, BecomeLeader(n, i, |c.nodes|), {})
      .(hist := c.hist.(elections := c.hist.elections[n.term := Election(i, n.votes, |n.log|, n.log)]))
  }

  function DoPropose(c: State, i: nat, command: string, save: Outcome): State
    requires i < |c.nodes| && c.nodes[i].term in c.hist.elections
  {
    var n := AppendLocal(c.nodes[i], i, command, save);
    Update(c, i, n, {}).(hist := SetLeaderLog(c.hist, n.term, n.log))
  }

  /** `newest` chooses between the snapshot at the marker and the newest one in the catalog. */
  function SnapshotToSend(n: Node, newest: bool): Log {
    if newest || n.snap >= |n.log| then n.saved else n.log[..n.snap + 1]
  }

  function DoSend(c: State, i: nat, p: nat, newest: bool): State
    requires i < |c.nodes|
  {
    var n := c.nodes[i];
    if !NeedsSnapshot(n, p) then Update(c, i, n, {BuildAppend(n, i, p)})
    else if n.snap == 0 then c
    else Update(c, i, n, {SnapReq(i, p, n.term, SnapshotToSend(n, newest))})
  }

  /** The follower's new state and reply; a success is recorded as a confirmation. */
  function Replied(c: State, m: Message, n: Node, reply: Message): State
    requires m.AppendReq? && m.dst < |c.nodes| && reply.AppendResp?
  {
    var c1 := Update(c, m.dst, n, {reply});
    if reply.success then c1.(hist := Ack(c.hist, m.dst, m.term, reply.matchIndex)) else c1
  }

  function DoAppendReq(c: State, m: Message, raise: Outcome, save: Outcome, commitSave: Outcome): State
    requires Delivered(c, m) && m.AppendReq?
  {
    var (n, reply) := OnAppendEntries(c.nodes[m.dst], m, raise, save, commitSave);
    Replied(c, m, n, reply)
  }

  function DoSnapBegin(c: State, m: Message, raise: Outcome): State
    requires Delivered(c, m) && m.SnapReq?
  {
    var (n, replies) := SnapshotBegin(c.nodes[m.dst], m, raise);
    var c1 := Update(c, m.dst, n, replies);
    if exists r :: r in replies && r.SnapResp? && r.success
    then c1.(hist := Ack(c.hist, m.dst, m.term, LastIndex(m.snapshot))) else c1
  }

  function DoSnapInstall(c: State, m: Message, save: Outcome): State
    requires Delivered(c, m) && m.SnapReq?
  {
    var (n, reply) := SnapshotInstall(c.nodes[m.dst], m, save);
    var c1 := Update(c, m.dst, n, {reply});
    if save == Ok then c1.(hist := Ack(c.hist, m.dst, m.term, LastIndex(m.snapshot))) else c1
  }

  /** A record only the crashed leader's disk holds becomes part of its term's log. */
  function DoCrash(c: State, i: nat, resaved: bool): State
    requires i < |c.nodes|
  {
    var n := c.nodes[i];
    var n1 := Restart(n, resaved);
    var c1 := Update(c, i, n1, {});
    if n.role == Leader && n.term in c.hist.elections && |n.disk.log| > |n.log|
    then c1.(hist := SetLeaderLog(c.hist, n.term, n1.log)) else c1
  }

  /** One step; a step that is not enabled changes nothing. */
  function Do(c: State, s: Step): State {
    if !Enabled(c, s) then c
    else match s
      case Timeout(i, save) => DoTimeout(c, i, save)
      case RecvVoteReq(m, raise, save) => DoVoteReq(c, m, raise, save)
      case RecvVoteResp(m, raise) => Update(c, m.dst, OnVoteResponse(c.nodes[m.dst], m, raise), {})
      case Win(i) => DoWin(c, i)
      case Propose(i, command, save) => DoPropose(c, i, command, save)
      case Send(i, p, newest) => DoSend(c, i, p, newest)
      case RecvAppendReq(m, raise, save, commitSave) => DoAppendReq(c, m, raise, save, commitSave)
      case RecvAppendResp(m, raise, save) =>
        Update(c, m.dst, OnAppendResponse(c.nodes[m.dst], m.dst, |c.nodes|, m, raise, save), {})
      case Advance(i, save) => Update(c, i, AdvanceCommit(c.nodes[i], i, |c.nodes|, save), {})
      case SnapBegin(m, raise) => DoSnapBegin(c, m, raise)
      case SnapSave(m) => Update(c, m.dst, SaveSnapshot(c.nodes[m.dst], m.snapshot), {})
      case SnapInstall(m, save) => DoSnapInstall(c, m, save)
      case SnapFail(m) =>
        var n := c.nodes[m.dst];
        Update(c, m.dst, n, {SnapResp(m.dst, m.src, m.term, n.term, false, LastIndex(n.log), LastIndex(m.snapshot))})
      case RecvSnapResp(m, raise) => Update(c, m.dst, OnSnapResponse(c.nodes[m.dst], m, raise), {})
      case LocalSnapshot(i, k) => Update(c, i, SaveSnapshot(c.nodes[i], c.nodes[i].log[..k + 1]), {})
      case LocalCompact(i, k, save) => Update(c, i, Compact(c.nodes[i], k, save), {})
      case Flush(i) => Update(c, i, c.nodes[i].(disk := DiskOf(c.nodes[i])), {})
      case Crash(i, resaved) => DoCrash(c, i, resaved)
  }

  /** The state a run of steps reaches from a fresh cluster. */
  function Exec(size: nat, steps: seq<Step>): State {
    if steps == [] then Init(size) else Do(Exec(size, steps[..|steps| - 1]), steps[|steps| - 1])
  }

  /** The raised term of this step, if any, reached the disk, whatever its persist reported. */
  predicate TermPersisted(s: Step) {
    match s
    case RecvVoteReq(_, raise, _) => raise != Lost
    case RecvVoteResp(_, raise) => raise != Lost
    case RecvAppendReq(_, raise, _, _) => raise != Lost
    case RecvAppendResp(_, raise, _) => raise != Lost
    case SnapBegin(_, raise) => raise != Lost
    case RecvSnapResp(_, raise) => raise != Lost
    case _ => true
  }
}
