/**
  The node object of the source: fields updated in place, a compacted log, loops. Its handlers, and its restart, are shown to act
  on the object's abstract value, with the uncompacted log as a ghost field, exactly as the Protocol function of the same name, so
  the theorems of Safety and Replica speak about this object. Publishing a snapshot is SnapshotCatalog's part.
 */
module RaftServer {
  import opened Wrappers
  import opened RaftLog
  import opened Protocol
  import P = Protocol
  import opened CompactLog
  import opened Command
  import opened KvStore
  import opened Replica
  import opened Cluster

  /** An AppendEntries request whose entries claim indexes of their own. */
  datatype AppendRequest = AppendRequest(src: nat, dst: nat, term: nat, prevIndex: nat, prevTerm: nat,
                                         entries: seq<Record>, leaderCommit: nat)

  function AsMessage(q: AppendRequest): (m: Message)
    ensures m.AppendReq?
  {
    AppendReq(q.src, q.dst, q.term, q.prevIndex, q.prevTerm, Plain(q.entries), q.leaderCommit)
  }

  ghost predicate StoredIs(stored: Stored, disk: Disk) {
    && stored.log != [] && Compacts(stored.log, disk.log, stored.log[0].index)
    && stored.term == disk.term && stored.vote == disk.vote && stored.commit == disk.commit
  }

  // ---------------------------------------------------------------- requests with arbitrary entry indexes

  function CommitRaw(n: Node, q: AppendRequest, matched: nat, commitSave: Outcome): (Node, Message) {
    var k := Min(q.leaderCommit, LastIndex(n.log));
    if k <= n.commit then
      (n, AppendResp(q.dst, q.src, q.term, n.term, true, matched, LastIndex(n.log), 0, 0))
    else if commitSave == Ok then
      (n.(commit := k, disk := DiskOf(n.(commit := k))),
       AppendResp(q.dst, q.src, q.term, n.term, true, matched, LastIndex(n.log), 0, 0))
    else
      (n.(disk := Persist(n.(commit := k), commitSave)),
       AppendResp(q.dst, q.src, q.term, n.term, false, matched, LastIndex(n.log), 0, 0))
  }

  /** At a gap the handler returns with the log already changed in memory and nothing written. */
  function AcceptRaw(n: Node, q: AppendRequest, save: Outcome, commitSave: Outcome): (Node, Message) {
    var w := Walk(Walked(n.log, q.prevIndex, false, None), n.snap, q.entries);
    var merged := n.(log := w.full);
    if w.gap.Some? then
      (merged, Reject(merged, AsMessage(q.(prevIndex := if w.gap.value == 0 then 0 else w.gap.value - 1))))
    else if !w.changed then CommitRaw(n, q, w.matched, commitSave)
    else if save == Ok then CommitRaw(merged.(disk := DiskOf(merged)), q, w.matched, commitSave)
    else
      (n.(disk := Persist(merged, save)),
       AppendResp(q.dst, q.src, q.term, n.term, false, w.matched, LastIndex(n.log), 0, 0))
  }

  /** The part after the request's term was accepted. */
  function CheckRaw(n: Node, q: AppendRequest, save: Outcome, commitSave: Outcome): (Node, Message) {
    if !PrevMatches(n, AsMessage(q)) then (n, Reject(n, AsMessage(q))) else AcceptRaw(n, q, save, commitSave)
  }

  function AppendRaw(n: Node, q: AppendRequest, raise: Outcome, save: Outcome, commitSave: Outcome): (Node, Message) {
    if q.term < n.term then
      (n, AppendResp(q.dst, q.src, q.term, n.term, false, n.snap, LastIndex(n.log), 0, 0))
    else
      var n1 := P.BecomeFollower(n, q.term, q.src, raise);
      if RaiseFailed(n, q.term, raise) then
        (n1, AppendResp(q.dst, q.src, q.term, n1.term, false, n1.snap, LastIndex(n1.log), 0, 0))
      else CheckRaw(n1, q, save, commitSave)
  }

  lemma AcceptNumbered(n: Node, q: AppendRequest, save: Outcome, commitSave: Outcome)
    requires PrevMatches(n, AsMessage(q)) && NumberedFrom(q.prevIndex + 1, q.entries)
    ensures AcceptRaw(n, q, save, commitSave) == P.AcceptAppend(n, AsMessage(q), save, commitSave)
  {
    WalkIsMerge(Walked(n.log, q.prevIndex, false, None), n.snap, q.prevIndex + 1, q.entries);
  }

  /** On the requests a leader builds, the handler on raw entries is the protocol's. */
  lemma NumberedIsProtocol(n: Node, q: AppendRequest, raise: Outcome, save: Outcome, commitSave: Outcome)
    requires NumberedFrom(q.prevIndex + 1, q.entries)
    ensures AppendRaw(n, q, raise, save, commitSave) == P.OnAppendEntries(n, AsMessage(q), raise, save, commitSave)
  {
    var n1 := P.BecomeFollower(n, q.term, q.src, raise);
    if PrevMatches(n1, AsMessage(q)) {
      AcceptNumbered(n1, q, save, commitSave);
    }
  }

  /** A probe below the marker changes no record. */
  lemma BelowMarkerKeepsLog(n: Node, q: AppendRequest, raise: Outcome, save: Outcome, commitSave: Outcome)
    requires q.prevIndex < n.snap
    ensures AppendRaw(n, q, raise, save, commitSave).0.log == n.log
    ensures AppendRaw(n, q, raise, save, commitSave).0.commit == n.commit
    ensures var reply := AppendRaw(n, q, raise, save, commitSave).1; reply.AppendResp? && !reply.success
  {
  }

  lemma {:induction false} WalkKeepsMarker(w: Walked, b: nat, entries: seq<Record>)
    requires b < |w.full|
    ensures AgreeTo(w.full, Walk(w, b, entries).full, b + 1) && Walk(w, b, entries).full[b] == w.full[b]
    decreases |entries|
  {
    if entries != [] && w.gap.None? {
      var e := entries[0];
      if e.index <= b {
        WalkKeepsMarker(w.(matched := if w.matched >= e.index then w.matched else e.index), b, entries[1..]);
      } else if e.index <= |w.full| {
        if e.index < |w.full| && w.full[e.index].term == e.term {
          WalkKeepsMarker(w.(matched := e.index), b, entries[1..]);
        } else {
          var full := w.full[..e.index] + [Entry(e.term, e.command)];
          assert full[..b + 1] == w.full[..b + 1];
          WalkKeepsMarker(Walked(full, e.index, true, None), b, entries[1..]);
          assert w.full[..b + 1][b] == Walk(w, b, entries).full[..b + 1][b];
        }
      }
    }
  }

  /** The records up to index k are the same in both logs, and the disk of n' holds them too unless it holds what n's disk held. */
  predicate PrefixKept(n: Node, n': Node, k: nat) {
    n'.snap == n.snap && AgreeTo(n.log, n'.log, k + 1) && (n'.disk.log == n.disk.log || AgreeTo(n.log, n'.disk.log, k + 1))
  }

  lemma CommitPrefixKept(n: Node, q: AppendRequest, matched: nat, commitSave: Outcome)
    requires n.snap < |n.log|
    ensures PrefixKept(n, CommitRaw(n, q, matched, commitSave).0, n.snap)
  {
  }

  lemma AcceptPrefixKept(n: Node, q: AppendRequest, save: Outcome, commitSave: Outcome)
    requires n.snap < |n.log|
    ensures PrefixKept(n, AcceptRaw(n, q, save, commitSave).0, n.snap)
  {
    WalkKeepsMarker(Walked(n.log, q.prevIndex, false, None), n.snap, q.entries);
    var w := Walk(Walked(n.log, q.prevIndex, false, None), n.snap, q.entries);
    var merged := n.(log := w.full);
    CommitPrefixKept(n, q, w.matched, commitSave);
    CommitPrefixKept(merged.(disk := DiskOf(merged)), q, w.matched, commitSave);
  }

  /** No request, however its entries are numbered and whatever persists fail, touches a record at or below the marker, in memory or on disk. */
  lemma MarkerPrefixKept(n: Node, q: AppendRequest, raise: Outcome, save: Outcome, commitSave: Outcome)
    requires n.snap < |n.log|
    ensures PrefixKept(n, AppendRaw(n, q, raise, save, commitSave).0, n.snap)
  {
    var n1 := P.BecomeFollower(n, q.term, q.src, raise);
    FollowPrefixKept(n, CheckRaw(n1, q, save, commitSave).0, q, raise, save, commitSave);
  }

  lemma CheckPrefixKept(n: Node, q: AppendRequest, save: Outcome, commitSave: Outcome)
    requires n.snap < |n.log|
    ensures PrefixKept(n, CheckRaw(n, q, save, commitSave).0, n.snap)
  {
    AcceptPrefixKept(n, q, save, commitSave);
  }

  lemma FollowPrefixKept(n: Node, n2: Node, q: AppendRequest, raise: Outcome, save: Outcome, commitSave: Outcome)
    requires n.snap < |n.log| && n2 == CheckRaw(P.BecomeFollower(n, q.term, q.src, raise), q, save, commitSave).0
    ensures PrefixKept(n, P.BecomeFollower(n, q.term, q.src, raise), n.snap) && PrefixKept(n, n2, n.snap)
  {
    CheckPrefixKept(P.BecomeFollower(n, q.term, q.src, raise), q, save, commitSave);
  }

  /**
    The reply of a failed install carries a term read before the sender was followed, or a last index that is no longer
    current. A leader, whose term is at least the request's, does the same as with the values at the end of the handler.
   */
  lemma FailedReplySame(n: Node, src: nat, me: nat, reqTerm: nat, term: nat, term': nat, last: nat, last': nat, at: nat, raise: Outcome)
    requires reqTerm <= n.term
    ensures term <= reqTerm && term' <= reqTerm ==>
              P.OnSnapResponse(n, SnapResp(src, me, reqTerm, term, false, last, at), raise) ==
              P.OnSnapResponse(n, SnapResp(src, me, reqTerm, term', false, last, at), raise)
    ensures term > reqTerm ==>
              P.OnSnapResponse(n, SnapResp(src, me, reqTerm, term, false, last, at), raise) ==
              P.OnSnapResponse(n, SnapResp(src, me, reqTerm, term, false, last', at), raise)
  {
  }

  lemma BuildIs(n: Node, me: nat, peer: nat)
    ensures var k := NextFor(n, peer);
            && (NeedsSnapshot(n, peer) <==> k <= n.snap || k > |n.log| || (n.log[k - 1].term == 0 && k != 1))
            && (!NeedsSnapshot(n, peer) ==>
                  P.BuildAppend(n, me, peer)
                  == AppendReq(me, peer, n.term, k - 1, n.log[k - 1].term, n.log[k..k + BatchCount(n.log, k, 0, 0)], n.commit))
  {
  }

  /** What a new leader assumes about its peers, the other node ids below `size`. */
  method ResetProgress(me: nat, size: nat, last: nat) returns (next: map<nat, nat>, matched: map<nat, nat>)
    requires me < size
    ensures next == FreshNext(size, last) && matched == FreshMatched(me, size, last)
  {
    next, matched := map[me := last + 1], map[me := last];
    var p := 0;
    while p < size
      invariant 0 <= p <= size
      invariant forall q: nat :: q in next <==> q < p || q == me
      invariant forall q: nat :: q in matched <==> q < p || q == me
      invariant forall q :: q in next ==> next[q] == last + 1
      invariant forall q :: q in matched ==> matched[q] == if q == me then last else 0
    {
      if p != me {
        next, matched := next[p := last + 1], matched[p := 0];
      }
      p := p + 1;
    }
    assert next == FreshNext(size, last);
  }

  // ---------------------------------------------------------------- the object

  class RaftNode {
    const id: nat
    const size: nat
    var role: Role
    var term: nat
    var vote: int
    var leaderId: int
    var log: seq<Record>
    var commit: nat
    var applied: nat
    var snapIndex: nat
    var snapTerm: nat
    var next: map<nat, nat>
    var matched: map<nat, nat>
    var votes: set<nat>
    var stored: Stored
    ghost var full: Log
    ghost var disk: Disk
    ghost var saved: Log
    const machine: KvStateMachine

    ghost predicate Valid()
      reads this
    {
      Compacts(log, full, snapIndex) && snapTerm == full[snapIndex].term && StoredIs(stored, disk)
    }

    /** The node of the protocol model this object stands for. */
    ghost function View(): Node
      reads this
    {
      Node(role, term, vote, leaderId, full, commit, snapIndex, next, matched, votes, disk, saved)
    }

    /** What a persist writes. */
    ghost function Current(): Disk
      reads this
    {
      Disk(term, vote, full, commit)
    }

    constructor (id: nat, size: nat, machine: KvStateMachine)
      ensures Valid() && View() == InitNode() && applied == 0
      ensures this.id == id && this.size == size && this.machine == machine
    {
      this.id, this.size, this.machine := id, size, machine;
      role, term, vote, leaderId := Follower, 0, -1, -1;
      log, commit, applied, snapIndex, snapTerm := [Record(0, 0, "bootstrap")], 0, 0, 0, 0;
      next, matched, votes := map[], map[], {};
      stored := Stored(0, -1, [Record(0, 0, "bootstrap")], 0, 0);
      full, disk, saved := [BOOTSTRAP], Disk(0, -1, [BOOTSTRAP], 0), [BOOTSTRAP];
    }

    /** PersistStateLocked, with its outcome given. */
    method PersistState(o: Outcome) returns (ok: bool)
      requires Valid()
      modifies this`stored, this`disk
      ensures Valid() && ok == (o == Ok) && View() == old(View()).(disk := P.Persist(old(View()), o))
      ensures stored == if o == Lost then old(stored) else Stored(term, vote, log, commit, applied)
    {
      if o != Lost {
        stored := Stored(term, vote, log, commit, applied);
        disk := Disk(term, vote, full, commit);
      }
      ok := o == Ok;
    }

    method BecomeFollower(newTerm: nat, leader: int, raise: Outcome) returns (ok: bool)
      requires Valid()
      modifies this`role, this`term, this`vote, this`leaderId, this`stored, this`disk
      ensures Valid() && View() == P.BecomeFollower(old(View()), newTerm, leader, raise)
      ensures ok == !RaiseFailed(old(View()), newTerm, raise)
    {
      var changed := false;
      if newTerm > term {
        term, vote, changed := newTerm, -1, true;
      }
      role, leaderId := Follower, leader;
      ok := true;
      if changed {
        ok := PersistState(raise);
      }
    }

    /** Every field is put back when the persist fails. */
    method StartElection(save: Outcome)
      requires Valid()
      modifies this`role, this`term, this`vote, this`leaderId, this`votes, this`stored, this`disk
      ensures Valid() && View() == P.StartElection(old(View()), id, save)
    {
      if role == Leader {
        return;
      }
      var oldRole, oldTerm, oldVote, oldLeader, oldVotes := role, term, vote, leaderId, votes;
      role, term, vote, leaderId, votes := Candidate, term + 1, id, -1, {id};
      ghost var candidate := View();
      var ok := PersistState(save);
      assert View() == candidate.(disk := P.Persist(candidate, save));
      if !ok {
        role, term, vote, leaderId, votes := oldRole, oldTerm, oldVote, oldLeader, oldVotes;
        assert View() == old(View()).(disk := P.Persist(candidate, save));
      }
    }

    method OnVoteResponse(m: Message, raise: Outcome)
      requires Valid() && m.VoteResp?
      modifies this`role, this`term, this`vote, this`leaderId, this`votes, this`stored, this`disk
      ensures Valid() && View() == P.OnVoteResponse(old(View()), m, raise)
    {
      if m.term > term {
        var _ := BecomeFollower(m.term, -1, raise);
      } else if role == Candidate && term == m.reqTerm && m.granted {
        votes := votes + {m.src};
      }
    }

    method BecomeLeader()
      requires Valid() && id < size
      modifies this`role, this`leaderId, this`next, this`matched
      ensures Valid() && View() == P.BecomeLeader(old(View()), id, size)
    {
      CompactsContiguous(log, full, snapIndex);
      role, leaderId := Leader, id;
      next, matched := ResetProgress(id, size, LastLogIndex(log, snapIndex));
    }

    method OnRequestVote(m: Message, raise: Outcome, save: Outcome) returns (reply: Message)
      requires Valid() && m.VoteReq?
      modifies this`role, this`term, this`vote, this`leaderId, this`stored, this`disk
      ensures Valid() && (View(), reply) == P.OnRequestVote(old(View()), m, raise, save)
    {
      if m.term < term {
        return VoteResp(m.dst, m.src, m.term, term, false);
      }
      if m.term > term {
        var ok := BecomeFollower(m.term, -1, raise);
        if !ok {
          return VoteResp(m.dst, m.src, m.term, term, false);
        }
      }
      reply := DecideVote(m, save);
    }

    method DecideVote(m: Message, save: Outcome) returns (reply: Message)
      requires Valid() && m.VoteReq?
      modifies this`vote, this`stored, this`disk
      ensures Valid() && (View(), reply) == P.DecideVote(old(View()), m, save)
    {
      VoteCheckUnchanged(log, full, snapIndex, m.lastIndex, m.lastTerm);
      var granted := false;
      if (vote == -1 || vote == m.src) && CandidateUpToDate(log, snapIndex, snapTerm, m.lastIndex, m.lastTerm) {
        var oldVote := vote;
        vote := m.src;
        granted := PersistState(save);
        if !granted {
          vote := oldVote;
        }
      }
      reply := VoteResp(m.dst, m.src, m.term, term, granted);
    }

    method PushRecord(command: string) returns (index: nat)
      requires Valid()
      modifies this`log, this`full, this`next, this`matched
      ensures Valid() && index == |old(full)| && full == old(full) + [Entry(term, command)] && log[..|log| - 1] == old(log)
      ensures matched == old(matched)[id := index] && next == old(next)[id := index + 1]
    {
      CompactsContiguous(log, full, snapIndex);
      CompactPush(log, full, snapIndex, Entry(term, command));
      index := LastLogIndex(log, snapIndex) + 1;
      log, full := log + [Record(index, term, command)], full + [Entry(term, command)];
      matched, next := matched[id := index], next[id := index + 1];
    }

    method PopRecord()
      requires Valid() && |log| > 1
      modifies this`log, this`full, this`next, this`matched
      ensures Valid() && full == old(full[..|full| - 1]) && log == old(log[..|log| - 1])
      ensures matched == old(matched)[id := |full| - 1] && next == old(next)[id := |full|]
    {
      CompactCut(log, full, snapIndex, |full| - 1);
      log, full := log[..|log| - 1], full[..|full| - 1];
      CompactsContiguous(log, full, snapIndex);
      matched := matched[id := LastLogIndex(log, snapIndex)];
      next := next[id := LastLogIndex(log, snapIndex) + 1];
    }

    /** The new record's index, or 0 when the persist failed and the record was taken back. */
    method AppendLocal(command: string, save: Outcome) returns (index: nat)
      requires Valid()
      modifies this`log, this`full, this`next, this`matched, this`stored, this`disk
      ensures Valid() && View() == P.AppendLocal(old(View()), id, command, save)
      ensures index == if save == Ok then |old(full)| else 0
    {
      index := PushRecord(command);
      ghost var pushed := View();
      var ok := PersistState(save);
      if !ok {
        TakeBack(old(View()), pushed);
        index := 0;
      }
    }

    /** The last record is popped again; `was` is the node before it was pushed. */
    method TakeBack(ghost was: Node, ghost pushed: Node)
      requires Valid() && |log| > 1 && View() == pushed.(disk := disk)
      requires pushed == was.(log := full, matched := was.matched[id := |was.log|], next := was.next[id := |was.log| + 1])
      requires |full| == |was.log| + 1 && full[..|was.log|] == was.log
      modifies this`log, this`full, this`next, this`matched
      ensures Valid()
      ensures View() == was.(matched := was.matched[id := LastIndex(was.log)], next := was.next[id := LastIndex(was.log) + 1], disk := disk)
    {
      PopRecord();
      Overwrite(was.matched, id, |full|, |full| - 1);
      Overwrite(was.next, id, |full| + 1, |full|);
    }

    /** The hint after a rejected probe at index p. */
    method Hint(q: AppendRequest, p: nat) returns (reply: Message)
      requires Valid()
      ensures reply == Reject(View(), AsMessage(q.(prevIndex := p)))
    {
      CompactReads(log, full, snapIndex, p);
      CompactsContiguous(log, full, snapIndex);
      var last := LastLogIndex(log, snapIndex);
      if p < snapIndex {
        return AppendResp(q.dst, q.src, q.term, term, false, snapIndex, last, snapIndex + 1, 0);
      }
      if !HasLogAt(log, p) {
        return AppendResp(q.dst, q.src, q.term, term, false, snapIndex, last, last + 1, 0);
      }
      var t := TermAt(log, snapIndex, snapTerm, p);
      var first := ScanFirstOfTerm(log, full, snapIndex, t);
      reply := AppendResp(q.dst, q.src, q.term, term, false, snapIndex, last, first, t);
    }

    /** The commit index follows the leader's as far as the log reaches, and is put back when its persist fails. */
    method FollowCommit(q: AppendRequest, matchIndex: nat, commitSave: Outcome) returns (reply: Message)
      requires Valid()
      modifies this`commit, this`stored, this`disk
      ensures Valid() && (View(), reply) == CommitRaw(old(View()), q, matchIndex, commitSave)
    {
      CompactsContiguous(log, full, snapIndex);
      var last := LastLogIndex(log, snapIndex);
      if q.leaderCommit > commit {
        var newCommit := Min(q.leaderCommit, last);
        if newCommit > commit {
          var oldCommit := commit;
          commit := newCommit;
          var ok := PersistState(commitSave);
          if !ok {
            commit := oldCommit;
            return AppendResp(q.dst, q.src, q.term, term, false, matchIndex, last, 0, 0);
          }
        }
      }
      reply := AppendResp(q.dst, q.src, q.term, term, true, matchIndex, last, 0, 0);
    }

    method AcceptEntries(q: AppendRequest, save: Outcome, commitSave: Outcome) returns (reply: Message)
      requires Valid()
      modifies this`log, this`full, this`commit, this`stored, this`disk
      ensures Valid() && (View(), reply) == AcceptRaw(old(View()), q, save, commitSave)
    {
      var oldLog := log;
      ghost var oldFull := full;
      var r, matchIndex, changed, gap, full' := MergeEntries(log, full, snapIndex, q.prevIndex, q.entries);
      WalkKeepsMarker(Walked(full, q.prevIndex, false, None), snapIndex, q.entries);
      log, full := r, full';
      if gap.Some? {
        reply := Hint(q, if gap.value == 0 then 0 else gap.value - 1);
        return;
      }
      if changed {
        var ok := PersistState(save);
        if !ok {
          log, full := oldLog, oldFull;
          CompactsContiguous(log, full, snapIndex);
          return AppendResp(q.dst, q.src, q.term, term, false, matchIndex, LastLogIndex(log, snapIndex), 0, 0);
        }
      }
      reply := FollowCommit(q, matchIndex, commitSave);
    }

    method OnAppendEntries(q: AppendRequest, raise: Outcome, save: Outcome, commitSave: Outcome) returns (reply: Message)
      requires Valid()
      modifies this`role, this`term, this`vote, this`leaderId, this`log, this`full, this`commit, this`stored, this`disk
      ensures Valid() && (View(), reply) == AppendRaw(old(View()), q, raise, save, commitSave)
    {
      CompactsContiguous(log, full, snapIndex);
      if q.term < term {
        return AppendResp(q.dst, q.src, q.term, term, false, snapIndex, LastLogIndex(log, snapIndex), 0, 0);
      }
      var ok := FollowSender(q.term, q.src, raise);
      if !ok {
        return AppendResp(q.dst, q.src, q.term, term, false, snapIndex, LastLogIndex(log, snapIndex), 0, 0);
      }
      reply := CheckEntries(q, save, commitSave);
    }

    /** A node that already follows the sender keeps its role and term as they are. */
    method FollowSender(newTerm: nat, leader: nat, raise: Outcome) returns (ok: bool)
      requires Valid() && newTerm >= term
      modifies this`role, this`term, this`vote, this`leaderId, this`stored, this`disk
      ensures Valid() && View() == P.BecomeFollower(old(View()), newTerm, leader, raise)
      ensures ok == !RaiseFailed(old(View()), newTerm, raise)
    {
      ok := true;
      if newTerm > term || role != Follower || leaderId != leader {
        ok := BecomeFollower(newTerm, leader, raise);
      } else {
        leaderId := leader;
      }
    }

    method CheckEntries(q: AppendRequest, save: Outcome, commitSave: Outcome) returns (reply: Message)
      requires Valid()
      modifies this`log, this`full, this`commit, this`stored, this`disk
      ensures Valid() && (View(), reply) == CheckRaw(old(View()), q, save, commitSave)
    {
      CompactReads(log, full, snapIndex, q.prevIndex);
      if q.prevIndex < snapIndex || !HasLogAt(log, q.prevIndex)
         || TermAt(log, snapIndex, snapTerm, q.prevIndex) != q.prevTerm {
        reply := Hint(q, q.prevIndex);
        return;
      }
      reply := AcceptEntries(q, save, commitSave);
    }

    /** An AppendEntries request for the peer, or None when a snapshot has to be sent. */
    method BuildAppend(peer: nat) returns (r: Option<Message>)
      requires Valid()
      modifies this`next
      ensures Valid() && next == old(next)[peer := NextFor(old(View()), peer)]
      ensures r == if NeedsSnapshot(old(View()), peer) then None else Some(P.BuildAppend(old(View()), id, peer))
    {
      var n := NextIndex(peer);
      BuildIs(View(), id, peer);
      r := RequestFrom(peer, n);
      next := next[peer := n];
    }

    method NextIndex(peer: nat) returns (n: nat)
      requires Valid()
      ensures n == NextFor(View(), peer)
    {
      CompactsContiguous(log, full, snapIndex);
      n := Get(next, peer);
      if n == 0 {
        n := LastLogIndex(log, snapIndex) + 1;
      }
    }

    /** The request that starts at index n. */
    method RequestFrom(peer: nat, n: nat) returns (r: Option<Message>)
      requires Valid() && n > 0
      ensures r == if n <= snapIndex || n > |full| || (full[n - 1].term == 0 && n != 1) then None
                   else Some(AppendReq(id, peer, term, n - 1, full[n - 1].term,
                                       full[n..n + BatchCount(full, n, 0, 0)], commit))
    {
      CompactsContiguous(log, full, snapIndex);
      if n <= FirstLogIndex(log, snapIndex) {
        return None;
      }
      CompactReads(log, full, snapIndex, n - 1);
      var prevTerm := TermAt(log, snapIndex, snapTerm, n - 1);
      if prevTerm == 0 && n - 1 != 0 {
        return None;
      }
      var entries := CollectBatch(log, full, snapIndex, n);
      r := Some(AppendReq(id, peer, term, n - 1, prevTerm, entries, commit));
    }

    /** How many nodes hold index idx, this one included. */
    method CountReplicated(idx: nat) returns (count: nat)
      requires idx > 0
      ensures count == 1 + |Replicated(View(), id, size, idx)|
    {
      count := 1;
      var p := 0;
      while p < size
        invariant 0 <= p <= size
        invariant count == 1 + |Replicated(View(), id, p, idx)|
      {
        ReplicatedNext(View(), id, p, idx);
        if p != id && p in matched && matched[p] >= idx {
          count := count + 1;
        }
        p := p + 1;
      }
    }

    /** The descending commit loop. */
    method FindCommit() returns (c: nat)
      requires Valid()
      ensures c == CommitScan(View(), id, size, LastIndex(full))
    {
      CompactsContiguous(log, full, snapIndex);
      var index: nat := LastLogIndex(log, snapIndex);
      while index > commit
        invariant CommitScan(View(), id, size, index) == CommitScan(View(), id, size, LastIndex(full))
      {
        CompactReads(log, full, snapIndex, index);
        if HasLogAt(log, index) && TermAt(log, snapIndex, snapTerm, index) == term {
          var count := CountReplicated(index);
          if count >= size / 2 + 1 {
            return index;
          }
        }
        index := index - 1;
      }
      c := commit;
    }

    method AdvanceCommit(save: Outcome)
      requires Valid()
      modifies this`commit, this`stored, this`disk
      ensures Valid() && View() == P.AdvanceCommit(old(View()), id, size, save)
    {
      if role != Leader {
        return;
      }
      var c := FindCommit();
      if c != commit {
        commit := c;
        var _ := PersistState(save);
      }
    }

    method OnAppendResponse(m: Message, raise: Outcome, save: Outcome)
      requires Valid() && m.AppendResp?
      modifies this`role, this`term, this`vote, this`leaderId, this`next, this`matched, this`commit, this`stored, this`disk
      ensures Valid() && View() == P.OnAppendResponse(old(View()), id, size, m, raise, save)
    {
      if m.term > term {
        var _ := BecomeFollower(m.term, -1, raise);
        return;
      }
      if role != Leader || term != m.reqTerm {
        return;
      }
      if m.success {
        matched := matched[m.src := Max(Get(matched, m.src), m.matchIndex)];
        next := next[m.src := Max(Get(next, m.src), m.matchIndex + 1)];
        AdvanceCommit(save);
      } else {
        StepBack(m);
      }
    }

    /** The next index after a rejected probe. */
    method StepBack(m: Message)
      requires Valid() && m.AppendResp?
      modifies this`next
      ensures Valid()
      ensures var hint, was := P.HintedNext(old(View()), m), Get(old(next), m.src);
              next == old(next)[m.src := if hint > 0 then hint else if was > 1 then was - 1 else 1]
    {
      var hint := HintedNext(m);
      var was := Get(next, m.src);
      next := next[m.src := if hint > 0 then hint else if was > 1 then was - 1 else 1];
    }

    method HintedNext(m: Message) returns (hint: nat)
      requires Valid() && m.AppendResp?
      ensures hint == P.HintedNext(View(), m)
    {
      CompactsContiguous(log, full, snapIndex);
      hint := 0;
      if m.conflictTerm != 0 {
        hint := ScanAfterLastOfTerm(log, full, snapIndex, m.conflictTerm);
        if hint == 0 {
          hint := m.conflictIndex;
        }
      } else if m.conflictIndex != 0 {
        hint := m.conflictIndex;
      } else {
        hint := m.lastIndex + 1;
      }
      hint := Min(hint, LastLogIndex(log, snapIndex) + 1);
    }

    /**
      RestoreLogAfterSnapshotLocked for a snapshot that stands for the records `snapshot`: a matching boundary record
      keeps the suffix, and no counter goes down.
     */
    method RestoreLog(at: nat, t: nat, ghost snapshot: Log)
      requires Valid() && |snapshot| == at + 1 && snapshot[at].term == t
      modifies this`log, this`full, this`snapIndex, this`snapTerm, this`commit, this`applied
      ensures Valid()
      ensures full == if at <= old(snapIndex) then old(full) else Restore(old(full), snapshot)
      ensures snapIndex == Max(old(snapIndex), at)
      ensures commit == if at <= old(snapIndex) then old(commit) else Max(old(commit), at)
      ensures applied == if at <= old(snapIndex) then old(applied) else Max(old(applied), at)
    {
      if at <= snapIndex {
        return;
      }
      log := MarkedLog(at, t, snapshot);
      full := Restore(full, snapshot);
      snapIndex, snapTerm := at, t;
      commit, applied := Max(commit, at), Max(applied, at);
    }

    /** The marker and what is kept after it. */
    method MarkedLog(at: nat, t: nat, ghost snapshot: Log) returns (r: seq<Record>)
      requires Valid() && |snapshot| == at + 1 && snapshot[at].term == t && at > snapIndex
      ensures Compacts(r, Restore(full, snapshot), at) && Restore(full, snapshot)[at].term == t
    {
      CompactReads(log, full, snapIndex, at);
      RestoreCompacts(log, full, snapIndex, snapshot);
      var suffix: seq<Record> := [];
      if HasLogAt(log, at) && LogAt(log, at).value.term == t {
        suffix := KeepAfter(log, full, snapIndex, at);
      }
      r := [Record(at, t, SNAPSHOT_MARKER)] + suffix;
    }

    /** Compaction after a local snapshot at index k; the snapshot holds this node's own records. */
    method Compact(k: nat, save: Outcome)
      requires Valid() && k < |full|
      modifies this`log, this`full, this`snapIndex, this`snapTerm, this`commit, this`applied, this`stored, this`disk
      ensures Valid() && (k <= old(commit) ==> View() == P.Compact(old(View()), k, save))
      ensures applied == if k <= old(snapIndex) then old(applied) else Max(old(applied), k)
    {
      if k > snapIndex {
        CompactReads(log, full, snapIndex, k);
        RestoreOwn(full, k);
        RestoreLog(k, TermAt(log, snapIndex, snapTerm, k), full[..k + 1]);
        assert k <= old(commit) ==> View() == old(View()).(snap := k);
        var _ := PersistState(save);
      }
    }

    /**
      The first locked section for an incoming snapshot. When the handler goes on, `reply` holds what a later failure
      will report: the term and last index read before the sender was followed.
     */
    method BeginInstall(src: nat, reqTerm: nat, at: nat, raise: Outcome, ghost snapshot: Log) returns (done: bool, reply: Message)
      requires Valid() && |snapshot| == at + 1
      modifies this`role, this`term, this`vote, this`leaderId, this`stored, this`disk
      ensures Valid()
      ensures (View(), if done then {reply} else {}) == P.SnapshotBegin(old(View()), SnapReq(src, id, reqTerm, snapshot), raise)
      ensures !done ==> reply == SnapResp(id, src, reqTerm, old(term), false, LastIndex(full), at)
    {
      CompactsContiguous(log, full, snapIndex);
      var last := LastLogIndex(log, snapIndex);
      done, reply := true, SnapResp(id, src, reqTerm, term, false, last, at);
      if reqTerm < term {
        return;
      }
      var ok := FollowSender(reqTerm, src, raise);
      if !ok {
        reply := SnapResp(id, src, reqTerm, term, false, last, at);
      } else if at <= snapIndex {
        reply := SnapResp(id, src, reqTerm, term, true, last, at);
      } else {
        done := false;
      }
    }

    /** Loading an incoming snapshot and the last locked section of its handler, which read `sawTerm` and `sawLast` when it began. */
    method InstallSnapshot(src: nat, reqTerm: nat, at: nat, t: nat, file: string, save: Outcome,
                           sawTerm: nat, sawLast: nat, ghost snapshot: Log)
      returns (installed: bool, reply: Message)
      requires Valid() && |snapshot| == at + 1 && snapshot[at].term == t
      modifies this`log, this`full, this`snapIndex, this`snapTerm, this`commit, this`applied, this`stored, this`disk, machine
      ensures Valid() && installed == (LoadFile(file).Loaded? && reqTerm >= term)
      ensures machine.kv == if LoadFile(file).Loaded? then LoadFile(file).kv else old(machine.kv)
      ensures !installed ==> View() == old(View()) && applied == old(applied)
      ensures !installed ==> reply == SnapResp(id, src, reqTerm, if LoadFile(file).Loaded? then term else sawTerm, false, sawLast, at)
      ensures installed ==> (View(), reply) == P.SnapshotInstall(old(View()), SnapReq(src, id, reqTerm, snapshot), save)
      ensures installed ==> applied == Max(old(applied), at)
    {
      reply := SnapResp(id, src, reqTerm, sawTerm, false, sawLast, at);
      var status := machine.LoadSnapshot(file);
      installed := status.Loaded? && reqTerm >= term;
      if installed {
        reply := FinishInstall(src, reqTerm, at, t, save, snapshot);
      } else if status.Loaded? {
        reply := SnapResp(id, src, reqTerm, term, false, sawLast, at);
      }
    }

    /** The leader's side of a snapshot reply. */
    method OnSnapResponse(m: Message, raise: Outcome)
      requires Valid() && m.SnapResp?
      modifies this`role, this`term, this`vote, this`leaderId, this`next, this`matched, this`stored, this`disk
      ensures Valid() && View() == P.OnSnapResponse(old(View()), m, raise)
    {
      if m.term > term {
        var _ := BecomeFollower(m.term, -1, raise);
      } else if role == Leader && term == m.reqTerm {
        if m.success {
          matched := matched[m.src := Max(Get(matched, m.src), m.includedIndex)];
          next := next[m.src := Max(Get(next, m.src), m.includedIndex + 1)];
        } else {
          next := next[m.src := m.lastIndex + 1];
        }
      }
    }

    /** The snapshot to send: the one at the marker if the catalog has it, or else the newest; none without a marker. */
    method PickSnapshot(snapshots: seq<SnapshotFile>) returns (r: Option<SnapshotFile>, exact: bool)
      requires Valid()
      ensures r.None? <==> snapIndex == 0 || snapshots == []
      ensures r.Some? ==> (exact <==> exists k :: 0 <= k < |snapshots| && At(snapshots[k], snapIndex, snapTerm))
      ensures r.Some? ==> if exact then r.value in snapshots && Ends(r.value, SnapshotToSend(View(), false)) else r.value == snapshots[0]
    {
      r, exact := None, false;
      if snapIndex == 0 || snapshots == [] {
        return;
      }
      var k := 0;
      while k < |snapshots|
        invariant 0 <= k <= |snapshots| && forall j :: 0 <= j < k ==> !At(snapshots[j], snapIndex, snapTerm)
      {
        if At(snapshots[k], snapIndex, snapTerm) {
          return Some(snapshots[k]), true;
        }
        k := k + 1;
      }
      r := Some(snapshots[0]);
    }

    method FinishInstall(src: nat, reqTerm: nat, at: nat, t: nat, save: Outcome, ghost snapshot: Log) returns (reply: Message)
      requires Valid() && |snapshot| == at + 1 && snapshot[at].term == t
      modifies this`log, this`full, this`snapIndex, this`snapTerm, this`commit, this`applied, this`stored, this`disk
      ensures Valid() && (View(), reply) == P.SnapshotInstall(old(View()), SnapReq(src, id, reqTerm, snapshot), save)
      ensures applied == Max(old(applied), at)
    {
      InstallMemory(at, t, snapshot);
      CompactsContiguous(log, full, snapIndex);
      ghost var n1 := View();
      var ok := PersistState(save);
      reply := SnapResp(id, src, reqTerm, term, ok, LastLogIndex(log, snapIndex), at);
      assert View() == n1.(disk := P.Persist(n1, save));
    }

    method InstallMemory(at: nat, t: nat, ghost snapshot: Log)
      requires Valid() && |snapshot| == at + 1 && snapshot[at].term == t
      modifies this`log, this`full, this`snapIndex, this`snapTerm, this`commit, this`applied
      ensures Valid() && View() == Installed(old(View()), snapshot) && applied == Max(old(applied), at)
    {
      RestoreLog(at, t, snapshot);
      commit, applied := Max(commit, at), Max(applied, at);
    }

    /**
      The apply loop. `saves` gives the outcome of the persist after each index. Whatever was applied stays the replay
      of the log; a return of true means everything committed is applied; a return of false means the next command
      is refused, the next record is missing, or the last persist failed.
     */
    method ApplyCommitted(saves: nat -> Outcome) returns (ok: bool)
      requires Valid()
      modifies this`applied, this`stored, this`disk, machine
      ensures Valid() && applied >= Max(old(applied), snapIndex)
      ensures Reached(full, Max(old(applied), snapIndex), old(machine.kv), applied, machine.kv)
      ensures ReplaysTo(full, Max(old(applied), snapIndex), old(machine.kv)) ==> ReplaysTo(full, applied, machine.kv)
      ensures ok ==> applied == Max(Max(old(applied), snapIndex), commit)
      ensures ok ==> disk == if applied > Max(old(applied), snapIndex) then Current() else old(disk)
      ensures !ok ==> Stopped(full, applied, machine.kv, saves) && (disk == old(disk) || disk == Current())
    {
      ghost var start, kv0, disk0 := Max(applied, snapIndex), machine.kv, disk;
      if applied < snapIndex {
        applied := snapIndex;
      }
      ok := true;
      while ok && applied < commit
        invariant Valid() && start <= applied && (applied <= commit || applied == start)
        invariant Reached(full, start, kv0, applied, machine.kv)
        invariant disk == disk0 || disk == Current()
        invariant ok ==> disk == if applied > start then Current() else disk0
        invariant !ok ==> Stopped(full, applied, machine.kv, saves)
        decreases commit + 1 - applied, ok
      {
        ghost var k, kv := applied, machine.kv;
        ok := ApplyOne(saves);
        ReachedNext(full, start, kv0, k, kv);
      }
      ReachedReplays(full, start, kv0, applied, machine.kv);
    }

    /** First part of a restart: the stored state, with its commit index cut to the log. */
    method LoadStored(found: Option<Stored>, ghost d: Disk)
      requires FoundIs(found, d)
      modifies this`role, this`leaderId, this`applied, this`next, this`matched, this`votes
      modifies this`term, this`vote, this`log, this`snapIndex, this`snapTerm, this`commit, this`stored, this`full, this`disk
      ensures Valid() && full == d.log && disk == d && snapIndex == MarkerOf(found) && applied == 0
      ensures role == Follower && term == d.term && vote == d.vote && leaderId == -1
      ensures next == map[] && matched == map[] && votes == {}
      ensures commit == Min(CommitOf(found), LastIndex(d.log))
    {
      role, leaderId, applied := Follower, -1, 0;
      next, matched, votes := map[], map[], {};
      match found
      case None => StartEmpty();
      case Some(st) => AdoptLog(st, d);
    }

    method StartEmpty()
      modifies this`term, this`vote, this`log, this`snapIndex, this`snapTerm, this`commit, this`stored, this`full, this`disk
      ensures Valid() && full == [BOOTSTRAP] && disk == Disk(0, -1, [BOOTSTRAP], 0) && snapIndex == term == commit == 0 && vote == -1
    {
      EmptyStored();
      term, vote, commit, snapIndex, snapTerm := 0, -1, 0, 0, 0;
      log := [Record(0, 0, "bootstrap")];
      stored := Stored(0, -1, log, 0, 0);
      full, disk := [BOOTSTRAP], Disk(0, -1, [BOOTSTRAP], 0);
    }

    method AdoptLog(st: Stored, ghost d: Disk)
      requires StoredIs(st, d) && d.log[0] == BOOTSTRAP
      modifies this`term, this`vote, this`log, this`snapIndex, this`snapTerm, this`commit, this`stored, this`full, this`disk
      ensures Valid() && full == d.log && disk == d && snapIndex == st.log[0].index
      ensures term == st.term && vote == st.vote && commit == Min(Max(st.commit, st.applied), LastIndex(d.log))
    {
      term, vote, log, snapIndex, snapTerm := st.term, st.vote, st.log, 0, 0;
      stored, full, disk := st, d.log, d;
      if log[0].index > 0 && log[0].command == SNAPSHOT_MARKER {
        snapIndex, snapTerm := log[0].index, log[0].term;
      }
      CompactsContiguous(log, full, snapIndex);
      commit := Min(Max(st.commit, st.applied), LastLogIndex(log, snapIndex));
    }

    /** Tries the snapshots in order; one that does not load leaves the map alone. */
    method LoadFirst(snapshots: seq<SnapshotFile>) returns (k: nat)
      modifies machine
      ensures k == FirstLoadable(snapshots)
      ensures machine.kv == if k < |snapshots| then LoadFile(snapshots[k].file).kv else old(machine.kv)
    {
      k := 0;
      while k < |snapshots|
        invariant 0 <= k <= FirstLoadable(snapshots) && machine.kv == old(machine.kv)
      {
        var status := machine.LoadSnapshot(snapshots[k].file);
        if status.Loaded? {
          return;
        }
        k := k + 1;
      }
    }

    /** The newest snapshot that loads is put under the log; the others are skipped. */
    method LoadLatest(snapshots: seq<SnapshotFile>, save: Outcome, ghost logs: seq<Log>) returns (ok: bool)
      requires Valid() && full[0] == BOOTSTRAP && applied == 0 && machine.kv == map[] && commit < |full|
      requires |logs| == |snapshots| && forall k :: 0 <= k < |logs| ==> StandsFor(snapshots[k], logs[k])
      modifies this`log, this`full, this`snapIndex, this`snapTerm, this`commit, this`applied, this`stored, this`disk, this`saved, machine
      ensures Valid() && saved == Base(snapshots, logs) && machine.kv == BaseMap(snapshots)
      ensures full == PutUnderLog(old(full), old(snapIndex), saved) && snapIndex == Max(old(snapIndex), LastIndex(saved))
      ensures applied == LastIndex(saved) && commit == Max(old(commit), LastIndex(saved))
      ensures ok == (save == Ok || FirstLoadable(snapshots) == |snapshots|)
      ensures disk == if FirstLoadable(snapshots) == |snapshots| then old(disk) else P.Persist(View().(disk := old(disk)), save)
    {
      ok := true;
      saved := Base(snapshots, logs);
      var k := LoadFirst(snapshots);
      if k < |snapshots| {
        assert StandsFor(snapshots[k], logs[k]);
        ok := PutUnder(snapshots[k], save, logs[k]);
      } else {
        assert full == Restore(full, [BOOTSTRAP]);
      }
    }

    method PutUnder(s: SnapshotFile, save: Outcome, ghost base: Log) returns (ok: bool)
      requires Valid() && full[0] == BOOTSTRAP && StandsFor(s, base) && commit < |full|
      modifies this`log, this`full, this`snapIndex, this`snapTerm, this`commit, this`applied, this`stored, this`disk
      ensures Valid() && applied == s.index && commit == Max(old(commit), s.index)
      ensures full == PutUnderLog(old(full), old(snapIndex), base) && snapIndex == Max(old(snapIndex), s.index)
      ensures ok == (save == Ok) && disk == P.Persist(View().(disk := old(disk)), save)
    {
      ghost var same := snapIndex == s.index && snapTerm == s.term;
      RestoreLog(s.index, s.term, base);
      commit, applied := Max(commit, s.index), s.index;
      if same {
        SwapPrefix(log, full, snapIndex, base);
        full := Restore(full, base);
      }
      ok := PersistState(save);
    }

    /**
      A restart. Whatever is found, a successful start leaves the map of the chosen snapshot with the records after
      max(snapshot index, marker) replayed on it; RecoveryRightIff says when that is the replay of the log. If the
      snapshot covers the marker, the node is the one of the protocol's Restart.
     */
    method Recover(found: Option<Stored>, snapshots: seq<SnapshotFile>, save: Outcome, saves: nat -> Outcome,
                   ghost d: Disk, ghost logs: seq<Log>) returns (ok: bool)
      requires FoundIs(found, d) && machine.kv == map[]
      requires |logs| == |snapshots| && forall k :: 0 <= k < |logs| ==> StandsFor(snapshots[k], logs[k])
      modifies this, machine
      ensures Valid() && saved == Base(snapshots, logs)
      ensures ok ==> IsRecovered(found, d, saved, BaseMap(snapshots), full, snapIndex, commit, applied, machine.kv)
      ensures ok && Covers(saved, MarkerOf(found), d.log) ==>
                && applied == commit && ReplaysTo(full, commit, machine.kv)
                && (CommitOf(found) == d.commit ==>
                      View() == Restart(InitNode().(disk := d, saved := saved), FirstLoadable(snapshots) < |snapshots| || applied > 0))
      ensures !ok ==> (save != Ok && FirstLoadable(snapshots) < |snapshots|) || Stopped(full, applied, machine.kv, saves)
    {
      LoadStored(found, d);
      ok := LoadLatest(snapshots, save, logs);
      if ok {
        BaseReplays(snapshots, logs);
        ok := FinishRecovery(saves, found, d, FirstLoadable(snapshots) < |snapshots|);
      }
    }

    method FinishRecovery(saves: nat -> Outcome, ghost found: Option<Stored>, ghost d: Disk, ghost written: bool) returns (ok: bool)
      requires Valid() && |saved| > 0 && applied == LastIndex(saved) && Replay(EFFECT, saved, LastIndex(saved)) == Some(machine.kv)
      requires View() == InitNode().(term := d.term, vote := d.vote, log := full, commit := commit, snap := snapIndex, disk := disk, saved := saved)
      requires full == PutUnderLog(d.log, MarkerOf(found), saved) && snapIndex == Max(MarkerOf(found), LastIndex(saved))
      requires commit == RecoveredCommit(found, d, saved) && disk == (if written then Current() else d) && (!written ==> applied == 0)
      modifies this`applied, this`stored, this`disk, machine
      ensures Valid()
      ensures ok ==> IsRecovered(found, d, saved, old(machine.kv), full, snapIndex, commit, applied, machine.kv)
      ensures ok && Covers(saved, MarkerOf(found), d.log) ==>
                && applied == commit && ReplaysTo(full, commit, machine.kv)
                && (CommitOf(found) == d.commit ==> View() == Restart(InitNode().(disk := d, saved := saved), written || applied > 0))
      ensures !ok ==> Stopped(full, applied, machine.kv, saves)
    {
      ghost var kv0 := machine.kv;
      ok := CatchUpLog(saves);
      if ok && Covers(saved, MarkerOf(found), d.log) {
        CoveredIsReplay(found, d, saved, kv0, full, snapIndex, commit, applied, machine.kv);
        if CommitOf(found) == d.commit {
          RestartIs(found, d, View(), written || applied > 0);
        }
      }
    }

    /** The replay at the end of a restart. */
    method CatchUpLog(saves: nat -> Outcome) returns (ok: bool)
      requires Valid()
      modifies this`applied, this`stored, this`disk, machine
      ensures Valid()
      ensures ok ==> applied == (if commit > old(applied) then Max(Max(old(applied), snapIndex), commit) else old(applied))
      ensures ok ==> Reached(full, Max(old(applied), snapIndex), old(machine.kv), commit, machine.kv)
      ensures ok ==> disk == if commit > Max(old(applied), snapIndex) then Current() else old(disk)
      ensures !ok ==> Stopped(full, applied, machine.kv, saves)
    {
      ok := true;
      if commit > applied {
        ok := ApplyCommitted(saves);
      }
    }

    /** One turn of the loop. */
    method ApplyOne(saves: nat -> Outcome) returns (ok: bool)
      requires Valid() && snapIndex <= applied
      modifies this`applied, this`stored, this`disk, machine
      ensures Valid() && old(applied) <= applied <= old(applied) + 1 && (ok ==> applied == old(applied) + 1)
      ensures if applied == old(applied) then machine.kv == old(machine.kv)
              else applied < |full| && Effect(old(machine.kv), full[applied].command) == Some(machine.kv)
      ensures if ok then disk == Current() else disk == old(disk) || disk == Current()
      ensures !ok ==> Stopped(full, applied, machine.kv, saves)
    {
      var k := applied + 1;
      CompactReads(log, full, snapIndex, k);
      if !HasLogAt(log, k) {
        return false;
      }
      ok := ApplyRecord(k, LogAt(log, k).value.command);
      if ok {
        ok := MarkApplied(k, saves(k));
      }
    }

    method ApplyRecord(k: nat, command: string) returns (ok: bool)
      requires 0 < k < |full| && command == full[k].command
      modifies machine
      ensures if ok then Effect(old(machine.kv), command) == Some(machine.kv)
              else machine.kv == old(machine.kv) && Blocked(full, k - 1, machine.kv)
    {
      ok := machine.Apply(command);
    }

    method MarkApplied(k: nat, save: Outcome) returns (ok: bool)
      requires Valid()
      modifies this`applied, this`stored, this`disk
      ensures Valid() && applied == k && ok == (save == Ok) && disk == P.Persist(old(View()), save)
    {
      applied := k;
      ok := PersistState(save);
    }
  }

  /** A valid entry of the snapshot catalog. */
  datatype SnapshotFile = SnapshotFile(index: nat, term: nat, file: string)

  predicate At(s: SnapshotFile, index: nat, term: nat) { s.index == index && s.term == term }

  /** The snapshot's index and term are those of the last of the records. */
  predicate Ends(s: SnapshotFile, records: Log) { At(s, LastIndex(records), LastTerm(records)) }

  /** If the file loads, its map is the replay of `records`, which end at the snapshot's index and term. */
  ghost predicate StandsFor(s: SnapshotFile, records: Log) {
    && |records| == s.index + 1 && records[0] == BOOTSTRAP && records[s.index].term == s.term
    && (LoadFile(s.file).Loaded? ==> Replay(EFFECT, records, s.index) == Some(LoadFile(s.file).kv))
  }

  /** The first snapshot of the list that loads, |snapshots| when there is none. */
  function FirstLoadable(snapshots: seq<SnapshotFile>): (k: nat)
    ensures k <= |snapshots| && (k < |snapshots| ==> LoadFile(snapshots[k].file).Loaded?)
    ensures forall j :: 0 <= j < k ==> !LoadFile(snapshots[j].file).Loaded?
  {
    if snapshots == [] || LoadFile(snapshots[0].file).Loaded? then 0 else 1 + FirstLoadable(snapshots[1..])
  }

  /** The records a restart builds on: those of the first snapshot that loads. */
  ghost function Base(snapshots: seq<SnapshotFile>, logs: seq<Log>): (base: Log)
    requires |logs| == |snapshots| && forall k :: 0 <= k < |logs| ==> StandsFor(snapshots[k], logs[k])
    ensures |base| > 0
  {
    var k := FirstLoadable(snapshots);
    if k < |snapshots| then assert StandsFor(snapshots[k], logs[k]); logs[k] else [BOOTSTRAP]
  }

  function CommitOf(found: Option<Stored>): nat {
    if found.None? then 0 else Max(found.value.commit, found.value.applied)
  }

  function MarkerOf(found: Option<Stored>): nat {
    if found.None? || found.value.log == [] then 0 else found.value.log[0].index
  }

  lemma EmptyStored()
    ensures Compacts([Record(0, 0, "bootstrap")], [BOOTSTRAP], 0)
    ensures StoredIs(Stored(0, -1, [Record(0, 0, "bootstrap")], 0, 0), Disk(0, -1, [BOOTSTRAP], 0))
  {
  }

  /** `d` is the uncompacted form of what the storage returned. */
  ghost predicate FoundIs(found: Option<Stored>, d: Disk) {
    && d.log != [] && d.log[0] == BOOTSTRAP
    && (if found.None? then d == Disk(0, -1, [BOOTSTRAP], 0) else StoredIs(found.value, d))
  }

  /** The marker, at index b of the stored log, is covered by the records the snapshot stands for. */
  predicate Covers(base: Log, b: nat, log: Log) {
    b < |base| && (b == |base| - 1 && b < |log| ==> log[b].term == base[b].term)
  }

  /** The map a restart builds on. */
  function BaseMap(snapshots: seq<SnapshotFile>): Kv {
    var k := FirstLoadable(snapshots);
    if k < |snapshots| then LoadFile(snapshots[k].file).kv else map[]
  }

  /** The log with the snapshot's records under it; a snapshot behind the marker changes nothing. */
  function PutUnderLog(log: Log, b: nat, base: Log): Log {
    if Covers(base, b, log) then Restore(log, base) else log
  }

  function RecoveredCommit(found: Option<Stored>, d: Disk, base: Log): nat {
    Max(Min(CommitOf(found), LastIndex(d.log)), LastIndex(base))
  }

  /** Where a successful restart ends: the counters, the log, and the map kv0 of the snapshot with the retained records replayed on it. */
  ghost predicate IsRecovered(found: Option<Stored>, d: Disk, base: Log, kv0: Kv, full: Log, snap: nat, commit: nat, applied: nat, kv: Kv) {
    var b, m := MarkerOf(found), LastIndex(base);
    && full == PutUnderLog(d.log, b, base) && snap == Max(b, m) && commit == RecoveredCommit(found, d, base)
    && applied == (if commit > m then Max(Max(b, m), commit) else m)
    && Reached(full, Max(b, m), kv0, commit, kv)
  }

  lemma BaseReplays(snapshots: seq<SnapshotFile>, logs: seq<Log>)
    requires |logs| == |snapshots| && forall k :: 0 <= k < |logs| ==> StandsFor(snapshots[k], logs[k])
    ensures Replay(EFFECT, Base(snapshots, logs), LastIndex(Base(snapshots, logs))) == Some(BaseMap(snapshots))
  {
    var k := FirstLoadable(snapshots);
    if k < |snapshots| {
      assert StandsFor(snapshots[k], logs[k]);
    }
  }

  /** A snapshot that covers the marker: the map is the replay of the whole log. */
  lemma CoveredIsReplay(found: Option<Stored>, d: Disk, base: Log, kv0: Kv, full: Log, snap: nat, commit: nat, applied: nat, kv: Kv)
    requires IsRecovered(found, d, base, kv0, full, snap, commit, applied, kv)
    requires |base| > 0 && Covers(base, MarkerOf(found), d.log) && Replay(EFFECT, base, LastIndex(base)) == Some(kv0)
    ensures applied == commit && ReplaysTo(full, commit, kv)
  {
    var m := LastIndex(base);
    assert full[..m + 1] == base[..m + 1];
    ReplayAgrees(EFFECT, base, full, m);
    ReachedReplays(full, m, kv0, commit, kv);
  }

  lemma RestartIs(found: Option<Stored>, d: Disk, n: Node, resaved: bool)
    requires |n.saved| > 0 && Covers(n.saved, MarkerOf(found), d.log) && CommitOf(found) == d.commit
    requires n == InitNode().(term := d.term, vote := d.vote, log := n.log, commit := n.commit, snap := n.snap, disk := n.disk, saved := n.saved)
    requires n.log == PutUnderLog(d.log, MarkerOf(found), n.saved) && n.snap == Max(MarkerOf(found), LastIndex(n.saved))
    requires n.commit == RecoveredCommit(found, d, n.saved) && n.disk == if resaved then DiskOf(n) else d
    ensures n == Restart(InitNode().(disk := d, saved := n.saved), resaved)
  {
  }

  lemma SwapPrefix(log: seq<Record>, full: Log, b: nat, base: Log)
    requires Compacts(log, full, b) && |base| == b + 1 && base[b].term == full[b].term
    requires full[0] == base[0] == BOOTSTRAP || b > 0
    ensures Compacts(log, Restore(full, base), b) && Restore(full, base)[b].term == full[b].term
  {
  }

  /** The map is the replay of the log from empty up to index k. */
  ghost predicate ReplaysTo(full: Log, k: nat, kv: Kv) { k < |full| && Replay(EFFECT, full, k) == Some(kv) }

  /** Why the apply loop ends early at index k: the record after it is missing or refused, or the persist failed. */
  predicate Stopped(full: Log, k: nat, kv: Kv, saves: nat -> Outcome) {
    k + 1 >= |full| || saves(k) != Ok || Blocked(full, k, kv)
  }

  /** The command after index k is refused. */
  predicate Blocked(full: Log, k: nat, kv: Kv) { k + 1 < |full| && Effect(kv, full[k + 1].command) == None }

  /** The map kv0 at index `from` with the commands of the records up to index `last` applied; None once one is refused. */
  function ReplayFrom(f: Machine, kv0: Kv, log: Log, from: nat, last: nat): Option<Kv>
    decreases last
  {
    if last <= from then Some(kv0)
    else if last >= |log| then None
    else
      var before := ReplayFrom(f, kv0, log, from, last - 1);
      if before.None? then None else f(before.value, log[last].command)
  }

  ghost predicate Reached(log: Log, from: nat, kv0: Kv, last: nat, kv: Kv) {
    ReplayFrom(EFFECT, kv0, log, from, last) == Some(kv)
  }

  lemma ReachedNext(log: Log, from: nat, kv0: Kv, k: nat, kv: Kv)
    requires Reached(log, from, kv0, k, kv) && from <= k
    ensures k + 1 < |log| && Effect(kv, log[k + 1].command).Some? ==>
              Reached(log, from, kv0, k + 1, Effect(kv, log[k + 1].command).value)
  {
  }

  /** Replaying in two parts. */
  lemma {:induction false} ReplayInParts(f: Machine, kv0: Kv, log: Log, from: nat, last: nat)
    requires from <= last && Replay(f, log, from) == Some(kv0)
    ensures ReplayFrom(f, kv0, log, from, last) == Replay(f, log, last)
    decreases last
  {
    if last > from {
      ReplayInParts(f, kv0, log, from, last - 1);
    }
  }

  lemma ReachedReplays(log: Log, from: nat, kv0: Kv, last: nat, kv: Kv)
    requires Reached(log, from, kv0, last, kv) && from <= last
    ensures ReplaysTo(log, from, kv0) ==> ReplaysTo(log, last, kv)
  {
    if ReplaysTo(log, from, kv0) {
      ReplayInParts(EFFECT, kv0, log, from, last);
    }
  }

  /** Memory after a snapshot was installed. */
  function Installed(n: Node, snapshot: Log): Node {
    var at := LastIndex(snapshot);
    n.(log := if at <= n.snap then n.log else Restore(n.log, snapshot), snap := Max(n.snap, at), commit := Max(n.commit, at))
  }

  lemma RestoreOwn(log: Log, k: nat)
    requires k < |log|
    ensures Restore(log, log[..k + 1]) == log
  {
  }

  lemma Overwrite(m: map<nat, nat>, k: nat, a: nat, b: nat)
    ensures m[k := a][k := b] == m[k := b]
  {
  }

  lemma ReplicatedNext(n: Node, me: nat, p: nat, idx: nat)
    ensures Replicated(n, me, p + 1, idx) ==
            Replicated(n, me, p, idx) + (if p != me && Get(n.matched, p) >= idx then {p} else {})
    ensures p !in Replicated(n, me, p, idx)
  {
  }

  lemma RestoreCompacts(log: seq<Record>, full: Log, b: nat, snapshot: Log)
    requires Compacts(log, full, b) && |snapshot| > b + 1
    ensures var at := |snapshot| - 1;
            var marker := Record(at, snapshot[at].term, SNAPSHOT_MARKER);
            if at < |full| && full[at].term == snapshot[at].term
            then Compacts([marker] + log[at + 1 - b..], Restore(full, snapshot), at)
            else Compacts([marker], Restore(full, snapshot), at)
  {
  }
}
