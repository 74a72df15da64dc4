/** The vote rule, what decides a vote, and who can be elected. */
module Elections {
  import opened RaftLog
  import opened Protocol
  import opened Cluster
  import I = Invariant
  import opened Script
  import opened Exchange

  // ---------------------------------------------------------------- the order of logs

  /** (term, index) pairs in lexicographic order. */
  predicate Before(aTerm: nat, aIndex: nat, bTerm: nat, bIndex: nat) {
    aTerm < bTerm || (aTerm == bTerm && aIndex <= bIndex)
  }

  /** Log a ends no later than log b. */
  predicate NoLater(a: Log, b: Log) { Before(LastTerm(a), LastIndex(a), LastTerm(b), LastIndex(b)) }

  /** The vote rule is a total order on log ends: of any two logs one may be voted for by the holder of the other. */
  lemma VoteRuleTotal(a: Log, b: Log)
    ensures UpToDate(a, LastIndex(b), LastTerm(b)) || UpToDate(b, LastIndex(a), LastTerm(a))
    ensures UpToDate(a, LastIndex(b), LastTerm(b)) && UpToDate(b, LastIndex(a), LastTerm(a)) ==>
              LastIndex(a) == LastIndex(b) && LastTerm(a) == LastTerm(b)
  {
  }

  lemma VoteRuleTransitive(a: Log, b: Log, c: Log)
    requires UpToDate(a, LastIndex(b), LastTerm(b)) && UpToDate(b, LastIndex(c), LastTerm(c))
    ensures UpToDate(a, LastIndex(c), LastTerm(c))
  {
  }

  // ---------------------------------------------------------------- one vote

  /**
    A vote is granted if and only if the request is not of an old term, no other candidate has the vote of that term, the
    candidate's log ends no earlier than the voter's, and every persist this takes succeeds. It is then in memory and on disk.
   */
  lemma GrantIff(n: Node, m: Message, raise: Outcome, save: Outcome)
    requires m.VoteReq?
    ensures var (n', reply) := OnRequestVote(n, m, raise, save);
            && reply.VoteResp?
            && (reply.granted <==>
                  && m.term >= n.term
                  && (m.term > n.term || n.vote == -1 || n.vote == m.src)
                  && (m.lastTerm > LastTerm(n.log) || (m.lastTerm == LastTerm(n.log) && m.lastIndex >= LastIndex(n.log)))
                  && (m.term > n.term ==> raise == Ok) && save == Ok)
            && (reply.granted ==> n'.vote == m.src && n'.term == m.term && n'.disk == Disk(m.term, m.src, n.log, n.commit))
            && (!reply.granted ==> n'.vote == if m.term > n.term then -1 else n.vote)
            && n'.log == n.log && n'.commit == n.commit && n'.snap == n.snap && n'.saved == n.saved
            && reply == VoteResp(m.dst, m.src, m.term, Max(n.term, m.term), reply.granted)
  {
  }

  // ---------------------------------------------------------------- who can be elected

  function MaxTerm(nodes: seq<Node>): (t: nat)
    ensures forall v :: 0 <= v < |nodes| ==> nodes[v].term <= t
  {
    if nodes == [] then 0 else Max(MaxTerm(nodes[..|nodes| - 1]), nodes[|nodes| - 1].term)
  }

  /** i stands in the term with its log, has the votes of `got`, and its requests are on their way to all others. */
  ghost predicate StandsWith(c: State, i: nat, term: nat, log: Log, got: set<nat>) {
    && i < |c.nodes| && c.nodes[i].role == Candidate && c.nodes[i].term == term && c.nodes[i].log == log && got <= c.nodes[i].votes
    && forall p {:trigger Asked(c, i, p, term, log)} :: 0 <= p < |c.nodes| && p != i ==> Asked(c, i, p, term, log)
  }

  predicate StandingStep(s: Step, i: nat) {
    s == Timeout(i, Ok) || s == Win(i)
    || (s.RecvVoteReq? && s.m.src == i && s.raise == Ok && s.save == Ok) || (s.RecvVoteResp? && s.m.dst == i && s.raise == Ok)
  }

  lemma Joined(c: State, a: seq<Step>, b: seq<Step>)
    ensures Perform(c, a + b) == Perform(Perform(c, a), b)
    decreases |a|
  {
    if a == [] {
      assert a + b == b;
    } else {
      assert (a + b)[1..] == a[1..] + b;
      Joined(Do(c, a[0]), a[1..], b);
    }
  }

  lemma OnlyOne(c: State, s: Step)
    ensures Perform(c, [s]) == Do(c, s)
  {
    assert [s][1..] == [];
    assert Perform(Do(c, s), []) == Do(c, s);
  }

  /** i stands again and again, until its term is above t. */
  lemma {:induction false} StandAbove(c: State, i: nat, t: nat) returns (steps: seq<Step>)
    requires i < |c.nodes| && c.nodes[i].role != Leader
    ensures var d := Perform(c, steps);
            && |d.nodes| == |c.nodes| && d.nodes[i].term > t && StandsWith(d, i, d.nodes[i].term, c.nodes[i].log, {i})
            && forall v :: 0 <= v < |c.nodes| && v != i ==> d.nodes[v] == c.nodes[v]
    ensures forall s :: s in steps ==> StandingStep(s, i)
    decreases t - c.nodes[i].term
  {
    var d := Do(c, Timeout(i, Ok));
    StandEffect(c, i);
    OnlyOne(c, Timeout(i, Ok));
    if d.nodes[i].term > t {
      steps := [Timeout(i, Ok)];
    } else {
      var more := StandAbove(d, i, t);
      Joined(c, [Timeout(i, Ok)], more);
      steps := [Timeout(i, Ok)] + more;
    }
  }

  /** One voter with an older term and a log that ends no later. */
  lemma Persuaded(c: State, i: nat, v: nat, term: nat, log: Log, got: set<nat>)
    requires StandsWith(c, i, term, log, got) && v < |c.nodes| && v != i && c.nodes[v].term < term && NoLater(c.nodes[v].log, log)
    ensures var m, reply := Request(i, v, term, log), VoteResp(v, i, term, term, true);
            var d := Do(Do(c, RecvVoteReq(m, Ok, Ok)), RecvVoteResp(reply, Ok));
            && |d.nodes| == |c.nodes| && StandsWith(d, i, term, log, got + {v}) && d.nodes[v].term == term
            && forall w :: 0 <= w < |c.nodes| && w != i && w != v ==> d.nodes[w] == c.nodes[w]
  {
    var m, reply := Request(i, v, term, log), VoteResp(v, i, term, term, true);
    assert Asked(c, i, v, term, log);
    GrantIff(c.nodes[v], m, Ok, Ok);
    VoteReqEffect(c, m);
    var c1 := Do(c, RecvVoteReq(m, Ok, Ok));
    VoteRespEffect(c1, reply);
    var d := Do(c1, RecvVoteResp(reply, Ok));
    forall p | 0 <= p < |c.nodes| && p != i ensures Asked(d, i, p, term, log) {
      assert Asked(c, i, p, term, log);
    }
  }

  /** The voters have an older term and logs that end no later. */
  ghost predicate Willing(c: State, i: nat, term: nat, log: Log, voters: set<nat>) {
    forall v {:trigger v in voters} :: v in voters ==> v < |c.nodes| && v != i && c.nodes[v].term < term && NoLater(c.nodes[v].log, log)
  }

  /** Only i and the voters moved, and the voters are in the term. */
  ghost predicate Voted(c: State, d: State, i: nat, term: nat, voters: set<nat>) {
    && |d.nodes| == |c.nodes|
    && (forall v {:trigger d.nodes[v]} :: v in voters && v < |d.nodes| ==> d.nodes[v].term == term)
    && (forall w {:trigger d.nodes[w]} :: 0 <= w < |c.nodes| && w != i && w !in voters ==> d.nodes[w] == c.nodes[w])
  }

  lemma VotedOn(c: State, d: State, e: State, i: nat, term: nat, v: nat, rest: set<nat>)
    requires v in rest && Voted(c, d, i, term, {v}) && Voted(d, e, i, term, rest - {v}) && v < |c.nodes| && v != i
    ensures Voted(c, e, i, term, rest)
  {
    assert e.nodes[v] == d.nodes[v];
    forall w | 0 <= w < |c.nodes| && w != i && w !in rest ensures e.nodes[w] == c.nodes[w] {
      assert e.nodes[w] == d.nodes[w];
    }
  }

  lemma OneBallot(c: State, i: nat, v: nat, term: nat, log: Log, got: set<nat>, rest: set<nat>) returns (steps: seq<Step>)
    requires StandsWith(c, i, term, log, got) && Willing(c, i, term, log, rest) && v in rest
    ensures var d := Perform(c, steps);
            Voted(c, d, i, term, {v}) && StandsWith(d, i, term, log, got + {v}) && Willing(d, i, term, log, rest - {v})
    ensures forall s :: s in steps ==> StandingStep(s, i)
  {
    Persuaded(c, i, v, term, log, got);
    assert forall w :: w in rest - {v} ==> w in rest;
    steps := [RecvVoteReq(Request(i, v, term, log), Ok, Ok), RecvVoteResp(VoteResp(v, i, term, term, true), Ok)];
    TwoSteps(c, steps[0], steps[1]);
  }

  /** All voters of `rest`, one after the other. */
  lemma {:induction false} Gather(c: State, i: nat, term: nat, log: Log, got: set<nat>, rest: set<nat>) returns (steps: seq<Step>)
    requires StandsWith(c, i, term, log, got) && Willing(c, i, term, log, rest)
    ensures var d := Perform(c, steps); Voted(c, d, i, term, rest) && StandsWith(d, i, term, log, got + rest)
    ensures forall s :: s in steps ==> StandingStep(s, i)
    decreases |rest|
  {
    if rest == {} {
      steps := [];
      assert got + rest == got;
    } else {
      var v :| v in rest;
      var pair := OneBallot(c, i, v, term, log, got, rest);
      var d := Perform(c, pair);
      var more := Gather(d, i, term, log, got + {v}, rest - {v});
      Joined(c, pair, more);
      VotedOn(c, d, Perform(d, more), i, term, v, rest);
      steps := pair + more;
      assert got + {v} + (rest - {v}) == got + rest;
    }
  }

  lemma TwoSteps(c: State, a: Step, b: Step)
    ensures Perform(c, [a, b]) == Do(Do(c, a), b)
  {
    assert [a, b][1..] == [b];
    OnlyOne(Do(c, a), b);
  }

  /** The winner starts with every peer at the end of its log. */
  predicate NewLeader(c: State, i: nat, log: Log) {
    && i < |c.nodes| && c.nodes[i].role == Leader && c.nodes[i].leaderId == i && c.nodes[i].log == log && c.nodes[i].term in c.hist.elections
    && forall p :: 0 <= p < |c.nodes| && p != i ==> Get(c.nodes[i].next, p) == LastIndex(log) + 1 && Get(c.nodes[i].matched, p) == 0
  }

  lemma Wins(c: State, i: nat, q: set<nat>)
    requires i < |c.nodes| && c.nodes[i].role == Candidate && q <= c.nodes[i].votes && |q| >= Quorum(|c.nodes|)
    ensures var d := Do(c, Win(i));
            && |d.nodes| == |c.nodes| && NewLeader(d, i, c.nodes[i].log) && d.nodes[i].term == c.nodes[i].term
            && forall w :: 0 <= w < |c.nodes| && w != i ==> d.nodes[w] == c.nodes[w]
  {
    I.SubsetSize(q, c.nodes[i].votes);
    assert forall p :: 0 <= p < |c.nodes| ==> p in Ids(|c.nodes|);
  }

  /** A node that does not lead yet. */
  lemma GetsElected(c: State, i: nat, q: set<nat>) returns (steps: seq<Step>)
    requires i in q && i < |c.nodes| && |q| >= Quorum(|c.nodes|) && c.nodes[i].role != Leader
    requires forall v :: v in q ==> v < |c.nodes| && NoLater(c.nodes[v].log, c.nodes[i].log)
    ensures var d := Perform(c, steps);
            && |d.nodes| == |c.nodes| && NewLeader(d, i, c.nodes[i].log)
            && forall v :: v in q ==> d.nodes[v].term == d.nodes[i].term
    ensures forall s :: s in steps ==> StandingStep(s, i)
  {
    var log := c.nodes[i].log;
    var first := StandAbove(c, i, MaxTerm(c.nodes));
    var d := Perform(c, first);
    var second := Gather(d, i, d.nodes[i].term, log, {i}, q - {i});
    Joined(c, first, second);
    var e := Perform(d, second);
    assert {i} + (q - {i}) == q;
    Wins(e, i, q);
    OnlyOne(e, Win(i));
    Joined(c, first + second, [Win(i)]);
    steps := first + second + [Win(i)];
  }

  /**
    Whatever has happened, a node whose log ends no earlier than any log of a majority it belongs to can be elected: it stands until its
    term is the newest, the majority votes for it, and it wins. Nothing else has to happen and no persist has to fail.
   */
  lemma Electable(c: State, i: nat, q: set<nat>) returns (steps: seq<Step>)
    requires i in q && i < |c.nodes| && |q| >= Quorum(|c.nodes|)
    requires forall v :: v in q ==> v < |c.nodes| && NoLater(c.nodes[v].log, c.nodes[i].log)
    ensures |Perform(c, steps).nodes| == |c.nodes| && Perform(c, steps).nodes[i].role == Leader
    ensures forall s :: s in steps ==> StandingStep(s, i)
  {
    if c.nodes[i].role == Leader {
      steps := [];
    } else {
      steps := GetsElected(c, i, q);
    }
  }

  /** In every majority there is such a node. */
  lemma {:induction false} Greatest(c: State, q: set<nat>) returns (i: nat)
    requires q != {} && forall v :: v in q ==> v < |c.nodes|
    ensures i in q && forall v :: v in q ==> NoLater(c.nodes[v].log, c.nodes[i].log)
    decreases |q|
  {
    var x :| x in q;
    var rest := q - {x};
    if rest == {} {
      i := x;
      assert q == {x};
    } else {
      i := Greatest(c, rest);
      if NoLater(c.nodes[i].log, c.nodes[x].log) {
        i := x;
      }
    }
  }
}
