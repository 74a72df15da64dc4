/**
  One node of the cluster and its message handlers. Every handler runs under the node's mutex,
  so it is one function from the old node to the new node and the reply. The log is the
  uncompacted log of RaftLog; `snap` is the index of the compaction marker.
 */
module Protocol {
  import opened RaftLog

  datatype Role = Follower | Candidate | Leader

  /**
    How a persist call ends. Ok: the new state is on disk. Lost: failure reported, disk unchanged.
    Published: failure reported although the new state did become the one a restart loads.
   */
  datatype Outcome = Ok | Lost | Published

  /** The hard state and log a restart loads. */
  datatype Disk = Disk(term: nat, vote: int, log: Log, commit: nat)

  /** `saved` is the newest snapshot in the catalog, as the records it stands for. */
  datatype Node = Node(
    role: Role, term: nat, vote: int, leaderId: int,
    log: Log, commit: nat, snap: nat,
    next: map<nat, nat>, matched: map<nat, nat>, votes: set<nat>,
    disk: Disk, saved: Log)

  /** `reqTerm` is the term the caller captured when it sent the request. */
  datatype Message =
    | VoteReq(src: nat, dst: nat, term: nat, lastIndex: nat, lastTerm: nat)
    | VoteResp(src: nat, dst: nat, reqTerm: nat, term: nat, granted: bool)
    | AppendReq(src: nat, dst: nat, term: nat, prevIndex: nat, prevTerm: nat, entries: seq<Entry>, leaderCommit: nat)
    | AppendResp(src: nat, dst: nat, reqTerm: nat, term: nat, success: bool, matchIndex: nat,
                 lastIndex: nat, conflictIndex: nat, conflictTerm: nat)
    | SnapReq(src: nat, dst: nat, term: nat, snapshot: Log)
    | SnapResp(src: nat, dst: nat, reqTerm: nat, term: nat, success: bool, lastIndex: nat, includedIndex: nat)

  function Min(a: nat, b: nat): nat { if a <= b then a else b }

  function Max(a: nat, b: nat): nat { if a >= b then a else b }

  /** operator[] of the progress maps: a missing peer reads as 0. */
  function Get(m: map<nat, nat>, k: nat): nat { if k in m then m[k] else 0 }

  /** The node ids of a cluster. */
  function Ids(size: nat): (r: set<nat>)
    ensures forall p: nat :: p in r <==> p < size
    ensures |r| == size
  {
    if size == 0 then {} else Ids(size - 1) + {size - 1}
  }

  function Quorum(size: nat): nat { size / 2 + 1 }

  function InitNode(): Node {
    Node(Follower, 0, -1, -1, [BOOTSTRAP], 0, 0, map[], map[], {},
         Disk(0, -1, [BOOTSTRAP], 0), [BOOTSTRAP])
  }

  function DiskOf(n: Node): Disk { Disk(n.term, n.vote, n.log, n.commit) }

  function Persist(n: Node, o: Outcome): Disk { if o == Lost then n.disk else DiskOf(n) }

  /** What a restart rebuilds its log from: the disk log with the newest snapshot on top. */
  function DurableLog(n: Node): Log { Restore(n.disk.log, n.saved) }

  /** The raised term and cleared vote stay in memory even when their persist fails. */
  function BecomeFollower(n: Node, newTerm: nat, leader: int, raise: Outcome): Node {
    if newTerm > n.term then
      var n1 := n.(role := Follower, leaderId := leader, term := newTerm, vote := -1);
      n1.(disk := Persist(n1, raise))
    else
      n.(role := Follower, leaderId := leader)
  }

  /** True when BecomeFollower reports that its persist failed. */
  predicate RaiseFailed(n: Node, newTerm: nat, raise: Outcome) {
    newTerm > n.term && raise != Ok
  }

  function StartElection(n: Node, me: nat, save: Outcome): Node {
    if n.role == Leader then n
    else
      var n1 := n.(role := Candidate, term := n.term + 1, vote := me, leaderId := -1, votes := {me});
      if save == Ok then n1.(disk := DiskOf(n1)) else n.(disk := Persist(n1, save))
  }

  function FreshNext(size: nat, last: nat): map<nat, nat> { map p | p in Ids(size) :: last + 1 }

  function FreshMatched(me: nat, size: nat, last: nat): map<nat, nat> {
    map p | p in Ids(size) :: if p == me then last else 0
  }

  function BecomeLeader(n: Node, me: nat, size: nat): Node {
    var last := LastIndex(n.log);
    n.(role := Leader, leaderId := me,
       next := FreshNext(size, last), matched := FreshMatched(me, size, last))
  }

  /** One vote per term, for a log at least as recent; taken back when its persist fails. */
  function DecideVote(n: Node, m: Message, save: Outcome): (Node, Message)
    requires m.VoteReq?
  {
    if (n.vote == -1 || n.vote == m.src) && UpToDate(n.log, m.lastIndex, m.lastTerm) then
      var n1 := n.(vote := m.src);
      if save == Ok then (n1.(disk := DiskOf(n1)), VoteResp(m.dst, m.src, m.term, n1.term, true))
      else (n.(disk := Persist(n1, save)), VoteResp(m.dst, m.src, m.term, n.term, false))
    else (n, VoteResp(m.dst, m.src, m.term, n.term, false))
  }

  function OnRequestVote(n: Node, m: Message, raise: Outcome, save: Outcome): (Node, Message)
    requires m.VoteReq?
  {
    if m.term < n.term then (n, VoteResp(m.dst, m.src, m.term, n.term, false))
    else
      var n1 := if m.term > n.term then BecomeFollower(n, m.term, -1, raise) else n;
      if RaiseFailed(n, m.term, raise) then (n1, VoteResp(m.dst, m.src, m.term, n1.term, false))
      else DecideVote(n1, m, save)
  }

  function OnVoteResponse(n: Node, m: Message, raise: Outcome): Node
    requires m.VoteResp?
  {
    if m.term > n.term then BecomeFollower(n, m.term, -1, raise)
    else if n.role != Candidate || n.term != m.reqTerm || !m.granted then n
    else n.(votes := n.votes + {m.src})
  }

  /** A leader's own append; a failed persist pops the record again. */
  function AppendLocal(n: Node, me: nat, command: string, save: Outcome): Node {
    var n1 := n.(log := n.log + [Entry(n.term, command)],
                 matched := n.matched[me := |n.log|], next := n.next[me := |n.log| + 1]);
    if save == Ok then n1.(disk := DiskOf(n1))
    else n.(matched := n.matched[me := LastIndex(n.log)], next := n.next[me := LastIndex(n.log) + 1],
            disk := Persist(n1, save))
  }

  function NextFor(n: Node, peer: nat): nat {
    if Get(n.next, peer) == 0 then LastIndex(n.log) + 1 else Get(n.next, peer)
  }

  /** The retained log cannot serve this peer: a snapshot has to be sent. */
  predicate NeedsSnapshot(n: Node, peer: nat) {
    var next := NextFor(n, peer);
    next <= n.snap || next > |n.log| || (n.log[next - 1].term == 0 && next != 1)
  }

  function BuildAppend(n: Node, me: nat, peer: nat): Message
    requires !NeedsSnapshot(n, peer)
  {
    var next := NextFor(n, peer);
    AppendReq(me, peer, n.term, next - 1, n.log[next - 1].term,
              n.log[next..next + BatchCount(n.log, next, 0, 0)], n.commit)
  }

  /** The hint a follower sends with a rejected probe. */
  function Reject(n: Node, m: Message): Message
    requires m.AppendReq?
  {
    var p := m.prevIndex;
    if p < n.snap then
      AppendResp(m.dst, m.src, m.term, n.term, false, n.snap, LastIndex(n.log), n.snap + 1, 0)
    else if p >= |n.log| then
      AppendResp(m.dst, m.src, m.term, n.term, false, n.snap, LastIndex(n.log), LastIndex(n.log) + 1, 0)
    else
      AppendResp(m.dst, m.src, m.term, n.term, false, n.snap, LastIndex(n.log),
                 FirstIndexOfTerm(n.log, n.snap, n.log[p].term), n.log[p].term)
  }

  predicate PrevMatches(n: Node, m: Message)
    requires m.AppendReq?
  {
    n.snap <= m.prevIndex < |n.log| && n.log[m.prevIndex].term == m.prevTerm
  }

  /** Last part of an append: the commit index follows the leader's, as far as the log reaches. */
  function CommitAppend(n: Node, m: Message, commitSave: Outcome): (Node, Message)
    requires m.AppendReq?
  {
    var last := m.prevIndex + |m.entries|;
    var k := Min(m.leaderCommit, LastIndex(n.log));
    if k <= n.commit then
      (n, AppendResp(m.dst, m.src, m.term, n.term, true, last, LastIndex(n.log), 0, 0))
    else if commitSave == Ok then
      (n.(commit := k, disk := DiskOf(n.(commit := k))),
       AppendResp(m.dst, m.src, m.term, n.term, true, last, LastIndex(n.log), 0, 0))
    else
      (n.(disk := Persist(n.(commit := k), commitSave)),
       AppendResp(m.dst, m.src, m.term, n.term, false, last, LastIndex(n.log), 0, 0))
  }

  /** The part of an append after the term and the previous record were accepted. */
  function AcceptAppend(n: Node, m: Message, save: Outcome, commitSave: Outcome): (Node, Message)
    requires m.AppendReq? && PrevMatches(n, m)
  {
    var merged := n.(log := Merge(n.log, m.prevIndex + 1, m.entries));
    if merged == n then CommitAppend(n, m, commitSave)
    else if save == Ok then CommitAppend(merged.(disk := DiskOf(merged)), m, commitSave)
    else
      (n.(disk := Persist(merged, save)),
       AppendResp(m.dst, m.src, m.term, n.term, false, m.prevIndex + |m.entries|, LastIndex(n.log), 0, 0))
  }

  function OnAppendEntries(n: Node, m: Message, raise: Outcome, save: Outcome, commitSave: Outcome): (Node, Message)
    requires m.AppendReq?
  {
    if m.term < n.term then
      (n, AppendResp(m.dst, m.src, m.term, n.term, false, n.snap, LastIndex(n.log), 0, 0))
    else
      var n1 := BecomeFollower(n, m.term, m.src, raise);
      if RaiseFailed(n, m.term, raise) then
        (n1, AppendResp(m.dst, m.src, m.term, n1.term, false, n1.snap, LastIndex(n1.log), 0, 0))
      else if !PrevMatches(n1, m) then (n1, Reject(n1, m))
      else AcceptAppend(n1, m, save, commitSave)
  }

  /** The peers other than `me` known to hold index idx. */
  function Replicated(n: Node, me: nat, size: nat, idx: nat): set<nat> {
    set p | 0 <= p < size && p != me && Get(n.matched, p) >= idx
  }

  /** Highest index in (commit, idx] of the current term held by a majority; commit when there is none. */
  function CommitScan(n: Node, me: nat, size: nat, idx: nat): (r: nat)
    ensures r == n.commit || (n.commit < r <= idx && n.snap <= r < |n.log| && n.log[r].term == n.term
                              && 1 + |Replicated(n, me, size, r)| >= Quorum(size))
    decreases idx
  {
    if idx <= n.commit then n.commit
    else if n.snap <= idx < |n.log| && n.log[idx].term == n.term && 1 + |Replicated(n, me, size, idx)| >= Quorum(size)
    then idx
    else CommitScan(n, me, size, idx - 1)
  }

  /** The scan misses no index it could commit. */
  lemma {:induction false} CommitScanHighest(n: Node, me: nat, size: nat, idx: nat, k: nat)
    requires n.commit < k <= idx && n.snap <= k < |n.log| && n.log[k].term == n.term
    requires 1 + |Replicated(n, me, size, k)| >= Quorum(size)
    ensures k <= CommitScan(n, me, size, idx)
    decreases idx
  {
    if k < idx {
      CommitScanHighest(n, me, size, idx - 1, k);
    }
  }

  /** The advanced commit index is kept in memory even when its persist fails. */
  function AdvanceCommit(n: Node, me: nat, size: nat, save: Outcome): Node {
    if n.role != Leader then n
    else
      var c := CommitScan(n, me, size, LastIndex(n.log));
      if c == n.commit then n
      else
        var n1 := n.(commit := c);
        n1.(disk := Persist(n1, save))
  }

  /** The next index a leader derives from a rejected probe. */
  function HintedNext(n: Node, m: Message): nat
    requires m.AppendResp?
  {
    var hint :=
      if m.conflictTerm != 0 then
        var after := AfterLastOfTerm(n.log, n.snap, |n.log|, m.conflictTerm);
        if after == 0 then m.conflictIndex else after
      else if m.conflictIndex != 0 then m.conflictIndex
      else m.lastIndex + 1;
    Min(hint, LastIndex(n.log) + 1)
  }

  function OnAppendResponse(n: Node, me: nat, size: nat, m: Message, raise: Outcome, save: Outcome): Node
    requires m.AppendResp?
  {
    if m.term > n.term then BecomeFollower(n, m.term, -1, raise)
    else if n.role != Leader || n.term != m.reqTerm then n
    else if m.success then
      AdvanceCommit(n.(matched := n.matched[m.src := Max(Get(n.matched, m.src), m.matchIndex)],
                       next := n.next[m.src := Max(Get(n.next, m.src), m.matchIndex + 1)]),
                    me, size, save)
    else
      var hint := HintedNext(n, m);
      var was := Get(n.next, m.src);
      n.(next := n.next[m.src := if hint > 0 then hint else if was > 1 then was - 1 else 1])
  }

  /** First locked section of an incoming snapshot: follow the leader, answer at once when it is old news. */
  function SnapshotBegin(n: Node, m: Message, raise: Outcome): (Node, set<Message>)
    requires m.SnapReq?
  {
    if m.term < n.term then
      (n, {SnapResp(m.dst, m.src, m.term, n.term, false, LastIndex(n.log), LastIndex(m.snapshot))})
    else
      var n1 := BecomeFollower(n, m.term, m.src, raise);
      if RaiseFailed(n, m.term, raise) then
        (n1, {SnapResp(m.dst, m.src, m.term, n1.term, false, LastIndex(n1.log), LastIndex(m.snapshot))})
      else if LastIndex(m.snapshot) <= n1.snap then
        (n1, {SnapResp(m.dst, m.src, m.term, n1.term, true, LastIndex(n1.log), LastIndex(m.snapshot))})
      else (n1, {})
  }

  /** Publishing a snapshot in the catalog: a restart takes the one with the highest index. */
  function SaveSnapshot(n: Node, snapshot: Log): Node {
    if |snapshot| > |n.saved| then n.(saved := snapshot) else n
  }

  /** Last locked section of an incoming snapshot; the compaction is not undone when its persist fails. */
  function SnapshotInstall(n: Node, m: Message, save: Outcome): (Node, Message)
    requires m.SnapReq?
  {
    var at := LastIndex(m.snapshot);
    var n1 := n.(log := if at <= n.snap then n.log else Restore(n.log, m.snapshot),
                 snap := Max(n.snap, at), commit := Max(n.commit, at));
    (n1.(disk := Persist(n1, save)),
     SnapResp(m.dst, m.src, m.term, n1.term, save == Ok, LastIndex(n1.log), at))
  }

  function OnSnapResponse(n: Node, m: Message, raise: Outcome): Node
    requires m.SnapResp?
  {
    if m.term > n.term then BecomeFollower(n, m.term, -1, raise)
    else if n.role != Leader || n.term != m.reqTerm then n
    else if !m.success then n.(next := n.next[m.src := m.lastIndex + 1])
    else n.(matched := n.matched[m.src := Max(Get(n.matched, m.src), m.includedIndex)],
            next := n.next[m.src := Max(Get(n.next, m.src), m.includedIndex + 1)])
  }

  /** Compaction after a local snapshot at index k. */
  function Compact(n: Node, k: nat, save: Outcome): Node {
    if k <= n.snap then n
    else
      var n1 := n.(snap := k);
      n1.(disk := Persist(n1, save))
  }

  /** A restart: everything is rebuilt from the disk state and the newest snapshot. */
  function Restart(n: Node, resaved: bool): Node {
    var log := DurableLog(n);
    var n1 := InitNode().(term := n.disk.term, vote := n.disk.vote, log := log,
                          commit := Max(Min(n.disk.commit, LastIndex(n.disk.log)), LastIndex(n.saved)),
                          snap := LastIndex(n.saved), disk := n.disk, saved := n.saved);
    if resaved then n1.(disk := DiskOf(n1)) else n1
  }
}
