/** Single steps of a five-node cluster, as building blocks for concrete runs. */
module Script {
  import opened RaftLog
  import opened Protocol
  import opened Cluster

  /** A node that follows, whatever its vote. */
  predicate Plain(n: Node, term: nat, log: Log, commit: nat) {
    n.role == Follower && n.term == term && n.log == log && n.commit == commit && n.snap == 0 && n.saved == [BOOTSTRAP]
  }

  predicate LeaderNode(n: Node, term: nat, log: Log, commit: nat) {
    n.role == Leader && n.term == term && n.log == log && n.commit == commit && n.snap == 0 && n.saved == [BOOTSTRAP]
  }

  predicate Leads(c: State, me: nat, term: nat, log: Log, commit: nat) {
    && me < |c.nodes| && LeaderNode(c.nodes[me], term, log, commit)
    && term in c.hist.elections && c.hist.elections[term].log == log
  }

  /** Nothing was sent away or forgotten, and the leaders' logs are the same. */
  predicate Same(c: State, d: State) { c.net <= d.net && d.hist.elections == c.hist.elections }

  predicate Five(c: State) { |c.nodes| == 5 }

  function Run(steps: seq<Step>): State { Exec(5, steps) }

  /** No snapshot is saved, installed or compacted to. */
  predicate Simple(s: Step) { !s.SnapSave? && !s.SnapInstall? && !s.LocalSnapshot? && !s.LocalCompact? }

  /** Simple steps; unless `lossy`, no raised term is lost. */
  ghost predicate Tidy(steps: seq<Step>, lossy: bool) {
    forall s :: s in steps ==> Simple(s) && (lossy || TermPersisted(s))
  }

  ghost predicate NoneLost(steps: seq<Step>) { forall s :: s in steps ==> TermPersisted(s) }

  /** The run goes on, and stays simple and free of losses. */
  ghost predicate StaysTidy(steps: seq<Step>, more: seq<Step>) {
    steps <= more && (NoneLost(steps) ==> NoneLost(more)) && (Tidy(steps, false) ==> Tidy(more, false)) && (Tidy(steps, true) ==> Tidy(more, true))
  }

  lemma TidyMore(steps: seq<Step>, s: Step)
    requires Simple(s)
    ensures Tidy(steps, true) ==> Tidy(steps + [s], true)
    ensures TermPersisted(s) ==> StaysTidy(steps, steps + [s])
  {
  }

  lemma OneMore(size: nat, steps: seq<Step>, s: Step)
    ensures Exec(size, steps + [s]) == Do(Exec(size, steps), s)
  {
    assert (steps + [s])[..|steps|] == steps;
  }

  // ---------------------------------------------------------------- elections

  function Request(me: nat, p: nat, term: nat, log: Log): Message {
    VoteReq(me, p, term, LastIndex(log), LastTerm(log))
  }

  /** The request of candidate `me` to p is on its way. */
  predicate Asked(c: State, me: nat, p: nat, term: nat, log: Log) { Request(me, p, term, log) in c.net }

  lemma StandEffect(c: State, me: nat)
    requires me < |c.nodes| && c.nodes[me].role != Leader
    ensures var d, n := Do(c, Timeout(me, Ok)), c.nodes[me];
            && d.nodes == c.nodes[me := StartElection(n, me, Ok)] && Same(c, d)
            && forall p {:trigger Asked(d, me, p, n.term + 1, n.log)} ::
                 0 <= p < |c.nodes| && p != me ==> Asked(d, me, p, n.term + 1, n.log)
  {
  }

  /** A node stands for election. */
  lemma Stand(steps: seq<Step>, me: nat) returns (more: seq<Step>)
    requires me < 5 && Five(Run(steps)) && Run(steps).nodes[me].role != Leader
    ensures var c, d, n := Run(steps), Run(more), Run(steps).nodes[me];
            && Five(d) && d.nodes == c.nodes[me := StartElection(n, me, Ok)] && Same(c, d)
            && forall p {:trigger Asked(d, me, p, n.term + 1, n.log)} :: 0 <= p < 5 && p != me ==> Asked(d, me, p, n.term + 1, n.log)
    ensures StaysTidy(steps, more)
  {
    OneMore(5, steps, Timeout(me, Ok));
    StandEffect(Run(steps), me);
    TidyMore(steps, Timeout(me, Ok));
    more := steps + [Timeout(me, Ok)];
  }

  lemma GrantEffect(n: Node, m: Message, log: Log)
    requires m.VoteReq? && m.term >= 1 && Plain(n, n.term, log, 0) && n.term < m.term && |log| >= 1
    requires m.lastIndex == LastIndex(log) && m.lastTerm == LastTerm(log)
    ensures var (n', reply) := OnRequestVote(n, m, Ok, Ok);
            Plain(n', m.term, log, 0) && reply == VoteResp(m.dst, m.src, m.term, m.term, true)
  {
  }

  lemma VoteReqEffect(c: State, m: Message)
    requires Delivered(c, m) && m.VoteReq?
    ensures var d := Do(c, RecvVoteReq(m, Ok, Ok));
            var (n, reply) := OnRequestVote(c.nodes[m.dst], m, Ok, Ok);
            d.nodes == c.nodes[m.dst := n] && Same(c, d) && reply in d.net
  {
  }

  lemma VoteRespEffect(c: State, m: Message)
    requires Delivered(c, m) && m.VoteResp?
    ensures var d := Do(c, RecvVoteResp(m, Ok));
            d.nodes == c.nodes[m.dst := OnVoteResponse(c.nodes[m.dst], m, Ok)] && Same(c, d)
  {
  }

  predicate Candidates(n: Node, term: nat, log: Log) {
    n.role == Candidate && n.term == term && n.log == log && n.commit == 0 && n.snap == 0 && n.saved == [BOOTSTRAP]
  }

  /** One voter grants its vote and the candidate counts it. */
  lemma Ballot(steps: seq<Step>, me: nat, term: nat, log: Log, v: nat) returns (more: seq<Step>)
    requires me < 5 && v < 5 && v != me && term >= 1 && |log| >= 1 && Five(Run(steps))
    requires Candidates(Run(steps).nodes[me], term, log) && Run(steps).nodes[v].term < term
    requires Plain(Run(steps).nodes[v], Run(steps).nodes[v].term, log, 0) && Asked(Run(steps), me, v, term, log)
    ensures var c, d := Run(steps), Run(more);
            && Five(d) && d.nodes == c.nodes[v := d.nodes[v]][me := c.nodes[me].(votes := c.nodes[me].votes + {v})]
            && Plain(d.nodes[v], term, log, 0) && Same(c, d)
    ensures StaysTidy(steps, more)
  {
    var c, m := Run(steps), Request(me, v, term, log);
    OneMore(5, steps, RecvVoteReq(m, Ok, Ok));
    VoteReqEffect(c, m);
    GrantEffect(c.nodes[v], m, log);
    var mid := steps + [RecvVoteReq(m, Ok, Ok)];
    var reply := VoteResp(v, me, term, term, true);
    OneMore(5, mid, RecvVoteResp(reply, Ok));
    VoteRespEffect(Run(mid), reply);
    TidyMore(steps, RecvVoteReq(m, Ok, Ok));
    TidyMore(mid, RecvVoteResp(reply, Ok));
    more := mid + [RecvVoteResp(reply, Ok)];
  }

  lemma WinEffect(c: State, me: nat, term: nat, log: Log)
    requires me < |c.nodes| == 5 && Candidates(c.nodes[me], term, log) && |log| >= 1 && |c.nodes[me].votes| >= 3
    ensures var d := Do(c, Win(me));
            && Five(d) && d.nodes == c.nodes[me := d.nodes[me]] && d.net == c.net && Leads(d, me, term, log, 0)
            && d.nodes[me] == BecomeLeader(c.nodes[me], me, 5)
            && (forall t :: t in c.hist.elections && t != term ==> t in d.hist.elections && d.hist.elections[t] == c.hist.elections[t])
  {
    assert c.net + {} == c.net;
  }

  /** All progress of a new leader's peers. */
  predicate Fresh(n: Node, me: nat) {
    forall p :: 0 <= p < 5 && p != me ==> Get(n.next, p) == |n.log| && Get(n.matched, p) == 0
  }

  lemma FreshLeader(n: Node, me: nat)
    requires me < 5 && |n.log| >= 1
    ensures Fresh(BecomeLeader(n, me, 5), me)
  {
    assert forall p :: 0 <= p < 5 ==> p in Ids(5);
  }

  lemma ThreeVotes(me: nat)
    requires me < 3
    ensures |{me} + {3} + {4}| == 3
  {
  }

  /** Nodes 3 and 4 elect `me`, which stands in the term after its own. */
  lemma Elect(steps: seq<Step>, me: nat, log: Log) returns (more: seq<Step>)
    requires me < 3 && |log| >= 1 && Five(Run(steps))
    requires var c, n := Run(steps), Run(steps).nodes[me];
             && n.role != Leader && n.log == log && n.commit == 0 && n.snap == 0 && n.saved == [BOOTSTRAP]
             && c.nodes[3].term <= n.term && Plain(c.nodes[3], c.nodes[3].term, log, 0)
             && c.nodes[4].term <= n.term && Plain(c.nodes[4], c.nodes[4].term, log, 0)
    ensures var c, d := Run(steps), Run(more);
            var term := c.nodes[me].term + 1;
            && Five(d) && c.net <= d.net && Leads(d, me, term, log, 0) && Fresh(d.nodes[me], me)
            && Plain(d.nodes[3], term, log, 0) && Plain(d.nodes[4], term, log, 0)
            && (forall p :: 0 <= p < 3 && p != me ==> d.nodes[p] == c.nodes[p])
            && (forall t :: t in c.hist.elections && t != term ==> t in d.hist.elections && d.hist.elections[t] == c.hist.elections[t])
    ensures StaysTidy(steps, more)
  {
    more := Stand(steps, me);
    more := Counted(more, me, Run(steps).nodes[me].term + 1, log);
    more := Won(more, me, Run(steps).nodes[me].term + 1, log);
  }

  /** Nodes 3 and 4 vote for the candidate. */
  lemma Counted(steps: seq<Step>, me: nat, term: nat, log: Log) returns (more: seq<Step>)
    requires me < 3 && term >= 1 && |log| >= 1 && Five(Run(steps))
    requires var c := Run(steps);
             && Candidates(c.nodes[me], term, log) && c.nodes[me].votes == {me}
             && c.nodes[3].term < term && Plain(c.nodes[3], c.nodes[3].term, log, 0) && Asked(c, me, 3, term, log)
             && c.nodes[4].term < term && Plain(c.nodes[4], c.nodes[4].term, log, 0) && Asked(c, me, 4, term, log)
    ensures var c, d := Run(steps), Run(more);
            && Five(d) && Same(c, d) && Candidates(d.nodes[me], term, log) && |d.nodes[me].votes| == 3
            && Plain(d.nodes[3], term, log, 0) && Plain(d.nodes[4], term, log, 0)
            && (forall p :: 0 <= p < 3 && p != me ==> d.nodes[p] == c.nodes[p])
    ensures StaysTidy(steps, more)
  {
    more := Ballot(steps, me, term, log, 3);
    more := Ballot(more, me, term, log, 4);
    ThreeVotes(me);
  }

  lemma Won(steps: seq<Step>, me: nat, term: nat, log: Log) returns (more: seq<Step>)
    requires me < 3 && |log| >= 1 && Five(Run(steps))
    requires Candidates(Run(steps).nodes[me], term, log) && |Run(steps).nodes[me].votes| == 3
    ensures var c, d := Run(steps), Run(more);
            && Five(d) && d.net == c.net && d.nodes == c.nodes[me := d.nodes[me]] && Leads(d, me, term, log, 0) && Fresh(d.nodes[me], me)
            && (forall t :: t in c.hist.elections && t != term ==> t in d.hist.elections && d.hist.elections[t] == c.hist.elections[t])
    ensures StaysTidy(steps, more)
  {
    WinEffect(Run(steps), me, term, log);
    FreshLeader(Run(steps).nodes[me], me);
    OneMore(5, steps, Win(me));
    TidyMore(steps, Win(me));
    more := steps + [Win(me)];
  }

  // ---------------------------------------------------------------- replication

  /** What a leader assumes about its peers stays the same. */
  predicate SameProgress(n: Node, n': Node, me: nat) {
    forall p :: 0 <= p < 5 && p != me ==> Get(n'.next, p) == Get(n.next, p) && Get(n'.matched, p) == Get(n.matched, p)
  }

  lemma WriteEffect(c: State, me: nat, term: nat, log: Log, command: string)
    requires me < 5 && Five(c) && Leads(c, me, term, log, 0)
    ensures var d := Do(c, Propose(me, command, Ok));
            && Five(d) && d.nodes == c.nodes[me := d.nodes[me]] && d.net == c.net
            && Leads(d, me, term, log + [Entry(term, command)], 0) && SameProgress(c.nodes[me], d.nodes[me], me)
            && d.hist.elections.Keys == c.hist.elections.Keys
            && (forall t :: t in c.hist.elections && t != term ==> d.hist.elections[t] == c.hist.elections[t])
  {
    assert c.net + {} == c.net;
  }

  /** The leader appends a record. */
  lemma Write(steps: seq<Step>, me: nat, term: nat, log: Log, command: string) returns (more: seq<Step>)
    requires me < 5 && Five(Run(steps)) && Leads(Run(steps), me, term, log, 0)
    ensures var c, d := Run(steps), Run(more);
            && Five(d) && d.nodes == c.nodes[me := d.nodes[me]] && d.net == c.net
            && Leads(d, me, term, log + [Entry(term, command)], 0) && SameProgress(c.nodes[me], d.nodes[me], me)
            && d.hist.elections.Keys == c.hist.elections.Keys
            && (forall t :: t in c.hist.elections && t != term ==> d.hist.elections[t] == c.hist.elections[t])
    ensures StaysTidy(steps, more)
  {
    OneMore(5, steps, Propose(me, command, Ok));
    WriteEffect(Run(steps), me, term, log, command);
    TidyMore(steps, Propose(me, command, Ok));
    more := steps + [Propose(me, command, Ok)];
  }

  /** The leader appends the records es, all of its own term. */
  lemma {:induction false} WriteAll(steps: seq<Step>, me: nat, term: nat, log: Log, es: seq<Entry>) returns (more: seq<Step>)
    requires me < 5 && Five(Run(steps)) && Leads(Run(steps), me, term, log, 0)
    requires forall k :: 0 <= k < |es| ==> es[k].term == term
    ensures var c, d := Run(steps), Run(more);
            && Five(d) && d.nodes == c.nodes[me := d.nodes[me]] && d.net == c.net
            && Leads(d, me, term, log + es, 0) && SameProgress(c.nodes[me], d.nodes[me], me)
    ensures StaysTidy(steps, more)
    decreases |es|
  {
    if es == [] {
      more := steps;
      assert log + es == log;
      assert Run(steps).nodes[me := Run(steps).nodes[me]] == Run(steps).nodes;
    } else {
      more := Write(steps, me, term, log, es[0].command);
      assert (log + [es[0]]) + es[1..] == log + es;
      more := WriteAll(more, me, term, log + [es[0]], es[1..]);
    }
  }

  lemma PostEffect(c: State, me: nat, p: nat)
    requires me < |c.nodes| && p < |c.nodes| && p != me && c.nodes[me].role == Leader && !NeedsSnapshot(c.nodes[me], p)
    ensures var d := Do(c, Send(me, p, false));
            d.nodes == c.nodes && d.hist == c.hist && c.net <= d.net && BuildAppend(c.nodes[me], me, p) in d.net
  {
    assert c.nodes[me := c.nodes[me]] == c.nodes;
  }

  /** The leader sends a request. */
  lemma Post(steps: seq<Step>, me: nat, p: nat) returns (more: seq<Step>)
    requires me < 5 && p < 5 && p != me && Five(Run(steps)) && Run(steps).nodes[me].role == Leader
    requires !NeedsSnapshot(Run(steps).nodes[me], p)
    ensures var c, d := Run(steps), Run(more);
            d.nodes == c.nodes && d.hist == c.hist && c.net <= d.net && BuildAppend(c.nodes[me], me, p) in d.net
    ensures StaysTidy(steps, more)
  {
    OneMore(5, steps, Send(me, p, false));
    PostEffect(Run(steps), me, p);
    TidyMore(steps, Send(me, p, false));
    more := steps + [Send(me, p, false)];
  }

  lemma DeliverEffect(c: State, m: Message, raise: Outcome)
    requires Delivered(c, m) && m.AppendReq?
    ensures var d := Do(c, RecvAppendReq(m, raise, Ok, Ok));
            var (n, reply) := OnAppendEntries(c.nodes[m.dst], m, raise, Ok, Ok);
            d.nodes == c.nodes[m.dst := n] && Same(c, d) && reply in d.net
  {
  }

  /** A follower handles a request. */
  lemma Deliver(steps: seq<Step>, m: Message, raise: Outcome) returns (more: seq<Step>)
    requires m.AppendReq? && m.src < 5 && m.dst < 5 && Five(Run(steps)) && m in Run(steps).net
    ensures more == steps + [RecvAppendReq(m, raise, Ok, Ok)]
    ensures var c, d := Run(steps), Run(more);
            var (n, reply) := OnAppendEntries(c.nodes[m.dst], m, raise, Ok, Ok);
            Five(d) && d.nodes == c.nodes[m.dst := n] && Same(c, d) && reply in d.net
    ensures raise != Lost ==> StaysTidy(steps, more)
    ensures Tidy(steps, true) ==> Tidy(more, true)
  {
    OneMore(5, steps, RecvAppendReq(m, raise, Ok, Ok));
    DeliverEffect(Run(steps), m, raise);
    TidyMore(steps, RecvAppendReq(m, raise, Ok, Ok));
    more := steps + [RecvAppendReq(m, raise, Ok, Ok)];
  }

  lemma AnswerEffect(c: State, m: Message)
    requires Delivered(c, m) && m.AppendResp?
    ensures var d := Do(c, RecvAppendResp(m, Ok, Ok));
            && d.nodes == c.nodes[m.dst := OnAppendResponse(c.nodes[m.dst], m.dst, |c.nodes|, m, Ok, Ok)]
            && d.hist == c.hist && d.net == c.net
  {
    assert c.net + {} == c.net;
  }

  /** The leader handles a reply. */
  lemma Answer(steps: seq<Step>, m: Message) returns (more: seq<Step>)
    requires m.AppendResp? && m.src < 5 && m.dst < 5 && Five(Run(steps)) && m in Run(steps).net
    ensures var c, d := Run(steps), Run(more);
            && Five(d) && d.nodes == c.nodes[m.dst := OnAppendResponse(c.nodes[m.dst], m.dst, 5, m, Ok, Ok)]
            && d.hist == c.hist && d.net == c.net
    ensures StaysTidy(steps, more)
  {
    OneMore(5, steps, RecvAppendResp(m, Ok, Ok));
    AnswerEffect(Run(steps), m);
    TidyMore(steps, RecvAppendResp(m, Ok, Ok));
    more := steps + [RecvAppendResp(m, Ok, Ok)];
  }

  lemma RebootEffect(c: State, i: nat)
    requires i < |c.nodes| && c.nodes[i].role == Follower
    ensures Do(c, Crash(i, false)) == c.(nodes := c.nodes[i := Restart(c.nodes[i], false)])
  {
    assert c.net + {} == c.net;
  }

  lemma Reboot(steps: seq<Step>, i: nat) returns (more: seq<Step>)
    requires i < 5 && Five(Run(steps)) && Run(steps).nodes[i].role == Follower
    ensures Five(Run(more)) && Run(more) == Run(steps).(nodes := Run(steps).nodes[i := Restart(Run(steps).nodes[i], false)])
    ensures StaysTidy(steps, more)
  {
    OneMore(5, steps, Crash(i, false));
    RebootEffect(Run(steps), i);
    TidyMore(steps, Crash(i, false));
    more := steps + [Crash(i, false)];
  }

  // ---------------------------------------------------------------- merging and batching

  /** New records at the end of a log are appended. */
  lemma {:induction false} MergeAppends(log: Log, es: seq<Entry>)
    ensures Merge(log, |log|, es) == log + es
    decreases |es|
  {
    if es == [] {
      assert log + es == log;
    } else {
      assert log[..|log|] == log;
      MergeAppends(log + [es[0]], es[1..]);
      assert (log + [es[0]]) + es[1..] == log + es;
    }
  }

  /** Records the log already holds change nothing. */
  lemma {:induction false} MergeKnown(log: Log, at: nat, es: seq<Entry>)
    requires at + |es| <= |log| && forall k :: 0 <= k < |es| ==> log[at + k].term == es[k].term
    ensures Merge(log, at, es) == log
    decreases |es|
  {
    if es != [] {
      forall k | 0 <= k < |es[1..]| ensures log[at + 1 + k].term == es[1..][k].term {
        assert log[at + (k + 1)].term == es[k + 1].term;
      }
      MergeKnown(log, at + 1, es[1..]);
    }
  }

  /** A batch ends where the next record would exceed the byte limit, or with the log. */
  lemma {:induction false} BatchIs(log: Log, from: nat, count: nat, bytes: nat, n: nat)
    requires from + n <= |log| && count + n < MAX_ENTRIES_PER_RPC && bytes + SizeOf(log, from, n) <= MAX_BYTES_PER_RPC
    requires from + n < |log| ==> count + n > 0 && bytes + SizeOf(log, from, n) + |log[from + n].command| > MAX_BYTES_PER_RPC
    ensures BatchCount(log, from, count, bytes) == n
    decreases n
  {
    if n > 0 {
      BatchIs(log, from + 1, count + 1, bytes + |log[from].command|, n - 1);
    }
  }

  /** No record of the current term, nothing to commit. */
  lemma {:induction false} ScanOld(n: Node, me: nat, size: nat, idx: nat)
    requires idx < |n.log| && forall k :: n.commit < k <= idx ==> n.log[k].term != n.term
    ensures CommitScan(n, me, size, idx) == n.commit
  {
    if idx > n.commit {
      ScanOld(n, me, size, idx - 1);
    }
  }
}
