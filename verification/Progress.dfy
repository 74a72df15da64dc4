/**
  The cluster is never stuck for good: from every reachable state the nodes of any majority can elect one of them, append a command and
  commit it on all of them, with no persist failing; at most one of them has to restart first.
 */
module Progress {
  import opened RaftLog
  import opened Protocol
  import opened Cluster
  import opened Invariant
  import opened StepSnapshot
  import opened Safety
  import opened Script
  import opened Reactions
  import opened Exchange
  import opened CatchUp
  import opened Elections

  // ---------------------------------------------------------------- rounds with one peer beside others

  /** d comes from c by rounds between i and p. */
  ghost predicate After(c: State, d: State, i: nat, p: nat) {
    && i < |c.nodes| && p < |c.nodes| && Pair(d, i, p) && Leading(c.nodes[i], d.nodes[i]) && OthersSame(c, d, i, p)
  }

  lemma AfterTwice(c: State, d: State, e: State, i: nat, p: nat)
    requires After(c, d, i, p) && After(d, e, i, p)
    ensures After(c, e, i, p)
  {
    forall q | 0 <= q < |c.nodes| && q != i && q != p ensures e.nodes[q] == c.nodes[q] {
      assert e.nodes[q] == d.nodes[q];
    }
    forall q | q != p ensures NextOf(e, i, q) == NextOf(c, i, q) && MatchOf(e, i, q) == MatchOf(c, i, q) {
      assert NextOf(e, i, q) == NextOf(d, i, q) && MatchOf(e, i, q) == MatchOf(d, i, q);
    }
  }

  lemma {:induction false} RoundsAfter(f: Rounder, c: State, i: nat, p: nat, k: nat)
    requires Rounds(f, i, p) && Pair(c, i, p)
    ensures After(c, Iterate(f, c, k), i, p)
    decreases k
  {
    if k > 0 {
      assert RoundEnds(c, f(c), i, p);
      RoundsAfter(f, f(c), i, p, k - 1);
      AfterTwice(c, f(c), Iterate(f, f(c), k - 1), i, p);
    }
  }

  lemma OneRound(c: State, i: nat, p: nat) returns (steps: seq<Step>)
    requires i < |c.nodes| && p < |c.nodes|
    ensures Perform(c, steps) == RoundOf(i, p)(c) && |Perform(c, steps).nodes| == |c.nodes| && forall s :: s in steps ==> Persisting(s)
  {
    steps := Conversation(c, i, p);
    ConversationPersists(c, i, p);
    SameSize(c, steps);
  }

  /** Rounds are steps. */
  lemma {:induction false} RoundSteps(f: Rounder, c: State, i: nat, p: nat, k: nat) returns (steps: seq<Step>)
    requires f == RoundOf(i, p) && i < |c.nodes| && p < |c.nodes|
    ensures Perform(c, steps) == Iterate(f, c, k) && forall s :: s in steps ==> Persisting(s)
    decreases k
  {
    if k == 0 {
      steps := [];
    } else {
      var first := OneRound(c, i, p);
      var more := RoundSteps(f, f(c), i, p, k - 1);
      Joined(c, first, more);
      steps := first + more;
    }
  }

  // ---------------------------------------------------------------- all peers

  /** p can be brought up to date by rounds. */
  ghost predicate Reachable(c: State, i: nat, p: nat) { Pair(c, i, p) && NextOf(c, i, p) <= |c.nodes[i].log| }

  lemma OthersStay(c: State, d: State, i: nat, p: nat, q: nat)
    requires After(c, d, i, p) && q != p
    ensures Reachable(c, i, q) ==> Reachable(d, i, q)
    ensures Done(c, i, q) ==> Done(d, i, q) && d.nodes[q] == c.nodes[q]
  {
  }

  ghost predicate AllDone(c: State, i: nat, peers: set<nat>) { forall p {:trigger Done(c, i, p)} :: p in peers ==> Done(c, i, p) }

  ghost predicate AllReachable(c: State, i: nat, peers: set<nat>) { forall p {:trigger Reachable(c, i, p)} :: p in peers ==> Reachable(c, i, p) }

  /** Peer p is brought up to date; the others stay as they are. */
  lemma CatchOne(c: State, i: nat, p: nat, done: set<nat>, rest: set<nat>) returns (steps: seq<Step>)
    requires p in rest && AllDone(c, i, done) && AllReachable(c, i, rest) && i < |c.nodes|
    ensures var d := Perform(c, steps);
            && i < |d.nodes| == |c.nodes| && Leading(c.nodes[i], d.nodes[i]) && AllDone(d, i, done + {p}) && AllReachable(d, i, rest - {p})
    ensures forall s :: s in steps ==> Persisting(s)
  {
    var f := RoundOf(i, p);
    RoundOfRounds(i, p);
    assert Reachable(c, i, p);
    var k := CatchesUp(f, c, i, p);
    RoundsAfter(f, c, i, p, k);
    steps := RoundSteps(f, c, i, p, k);
    var d := Perform(c, steps);
    forall q | q in done + {p} ensures Done(d, i, q) {
      if q != p {
        assert Done(c, i, q);
        OthersStay(c, d, i, p, q);
      }
    }
    forall q | q in rest - {p} ensures Reachable(d, i, q) {
      assert Reachable(c, i, q);
      OthersStay(c, d, i, p, q);
    }
  }

  lemma LeadingOn(a: Node, b: Node, c: Node)
    requires Leading(a, b) && Leading(b, c)
    ensures Leading(a, c)
  {
  }

  lemma {:induction false} CatchAll(c: State, i: nat, done: set<nat>, rest: set<nat>) returns (steps: seq<Step>)
    requires AllDone(c, i, done) && AllReachable(c, i, rest) && i < |c.nodes| && c.nodes[i].role == Leader
    ensures var d := Perform(c, steps);
            i < |d.nodes| == |c.nodes| && Leading(c.nodes[i], d.nodes[i]) && AllDone(d, i, done + rest)
    ensures forall s :: s in steps ==> Persisting(s)
    decreases |rest|
  {
    if rest == {} {
      steps := [];
      assert done + rest == done;
    } else {
      var p :| p in rest;
      var first := CatchOne(c, i, p, done, rest);
      var d := Perform(c, first);
      var more := CatchAll(d, i, done + {p}, rest - {p});
      Joined(c, first, more);
      LeadingOn(c.nodes[i], d.nodes[i], Perform(d, more).nodes[i]);
      steps := first + more;
      assert done + {p} + (rest - {p}) == done + rest;
    }
  }

  // ---------------------------------------------------------------- telling the commit index

  ghost predicate Told(c: State, i: nat, k: nat, peers: set<nat>) {
    forall p {:trigger Done(c, i, p)} :: p in peers ==> Done(c, i, p) && c.nodes[p].commit >= k
  }

  lemma TellOne(c: State, i: nat, p: nat, k: nat, told: set<nat>, rest: set<nat>) returns (steps: seq<Step>)
    requires p in rest && p !in told && Told(c, i, k, told) && AllDone(c, i, rest) && i < |c.nodes| && c.nodes[i].commit >= k
    ensures var d := Perform(c, steps);
            && i < |d.nodes| == |c.nodes| && Leading(c.nodes[i], d.nodes[i]) && d.nodes[i].commit >= k
            && Told(d, i, k, told + {p}) && AllDone(d, i, rest - {p})
    ensures forall s :: s in steps ==> Persisting(s)
  {
    var f := RoundOf(i, p);
    RoundOfRounds(i, p);
    assert Done(c, i, p);
    OneFurtherRound(f, c, i, p);
    RoundsAfter(f, c, i, p, 1);
    steps := RoundSteps(f, c, i, p, 1);
    var d := Perform(c, steps);
    assert Iterate(f, c, 1) == Iterate(f, f(c), 0) == f(c);
    forall q | q in told + {p} ensures Done(d, i, q) && d.nodes[q].commit >= k {
      if q != p {
        assert Done(c, i, q);
        OthersStay(c, d, i, p, q);
      }
    }
    forall q | q in rest - {p} ensures Done(d, i, q) {
      assert Done(c, i, q);
      OthersStay(c, d, i, p, q);
    }
  }

  lemma {:induction false} TellAll(c: State, i: nat, k: nat, told: set<nat>, rest: set<nat>) returns (steps: seq<Step>)
    requires told !! rest && Told(c, i, k, told) && AllDone(c, i, rest) && i < |c.nodes| && c.nodes[i].role == Leader && c.nodes[i].commit >= k
    ensures var d := Perform(c, steps);
            && i < |d.nodes| == |c.nodes| && Leading(c.nodes[i], d.nodes[i]) && Told(d, i, k, told + rest)
    ensures forall s :: s in steps ==> Persisting(s)
    decreases |rest|
  {
    if rest == {} {
      steps := [];
      assert told + rest == told;
    } else {
      var p :| p in rest;
      var first := TellOne(c, i, p, k, told, rest);
      var d := Perform(c, first);
      var more := TellAll(d, i, k, told + {p}, rest - {p});
      Joined(c, first, more);
      LeadingOn(c.nodes[i], d.nodes[i], Perform(d, more).nodes[i]);
      steps := first + more;
      assert told + {p} + (rest - {p}) == told + rest;
    }
  }

  // ---------------------------------------------------------------- committing

  /** A leader whose last record is of its own term and is held by a majority commits it. */
  lemma CommitsLast(c: State, i: nat, peers: set<nat>)
    requires AllDone(c, i, peers) && Inv(c) && i < |c.nodes| && c.nodes[i].role == Leader && i !in peers
    requires 1 + |peers| >= Quorum(|c.nodes|) && forall p :: p in peers ==> p < |c.nodes|
    requires LastTerm(c.nodes[i].log) == c.nodes[i].term
    ensures var d := Do(c, Advance(i, Ok));
            && Inv(d) && |d.nodes| == |c.nodes| && Leading(c.nodes[i], d.nodes[i]) && d.nodes[i].commit == LastIndex(c.nodes[i].log)
            && AllDone(d, i, peers)
  {
    var n, last := c.nodes[i], LastIndex(c.nodes[i].log);
    var d := Do(c, Advance(i, Ok));
    StepInv(c, Advance(i, Ok));
    MarkerInside(c, i);
    MarkerInside(d, i);
    assert Holders(n, i, |c.nodes|, last, peers + {i}) by {
      assert |peers + {i}| == |peers| + 1;
      forall p | p in peers ensures Get(n.matched, p) >= last {
        assert Done(c, i, p);
      }
    }
    ScanIsGreatest(n, i, |c.nodes|, last);
    forall p | p in peers ensures Done(d, i, p) {
      assert Done(c, i, p);
    }
  }

  // ---------------------------------------------------------------- the theorem

  /** Steps that need no failure: i stands, proposes and advances, messages are exchanged, every persist succeeds. */
  predicate Smooth(s: Step, i: nat, command: string) {
    StandingStep(s, i) || Persisting(s) || s == Propose(i, command, Ok) || s == Advance(i, Ok)
  }

  /** The last record of leader i is the command, and all of q have committed it. */
  ghost predicate Written(c: State, i: nat, q: set<nat>, command: string) {
    && i < |c.nodes| && c.nodes[i].role == Leader && c.nodes[i].log != []
    && c.nodes[i].log[LastIndex(c.nodes[i].log)] == Entry(c.nodes[i].term, command)
    && forall p :: p in q ==> p < |c.nodes| && c.nodes[i].log <= c.nodes[p].log && c.nodes[p].commit >= LastIndex(c.nodes[i].log)
  }

  /** A fresh leader whose voters are in its term appends a command. */
  lemma Proposes(c: State, i: nat, q: set<nat>, log: Log, command: string)
    requires Inv(c) && NewLeader(c, i, log) && i in q && forall v :: v in q ==> v < |c.nodes| && c.nodes[v].term == c.nodes[i].term
    ensures var d := Do(c, Propose(i, command, Ok));
            && Inv(d) && |d.nodes| == |c.nodes| && d.nodes[i].role == Leader && d.nodes[i].log == log + [Entry(c.nodes[i].term, command)]
            && d.nodes[i].term == c.nodes[i].term && AllReachable(d, i, q - {i})
  {
    var d := Do(c, Propose(i, command, Ok));
    StepInv(c, Propose(i, command, Ok));
    MarkerInside(c, i);
    forall p | p in q - {i} ensures Reachable(d, i, p) {
      assert d.nodes[p] == c.nodes[p];
      assert Get(d.nodes[i].next, p) == Get(c.nodes[i].next, p) == LastIndex(log) + 1;
    }
  }

  /** From there on: everybody catches up, the leader commits, everybody is told. */
  lemma Replicates(c: State, i: nat, q: set<nat>, command: string) returns (steps: seq<Step>)
    requires Inv(c) && i in q && i < |c.nodes| && c.nodes[i].role == Leader && |q| >= Quorum(|c.nodes|)
    requires (forall v :: v in q ==> v < |c.nodes|) && AllReachable(c, i, q - {i})
    requires c.nodes[i].log != [] && c.nodes[i].log[LastIndex(c.nodes[i].log)] == Entry(c.nodes[i].term, command)
    ensures Written(Perform(c, steps), i, q, command)
    ensures forall s :: s in steps ==> Smooth(s, i, command)
  {
    var peers, last := q - {i}, LastIndex(c.nodes[i].log);
    var first := CatchAll(c, i, {}, peers);
    assert {} + peers == peers;
    var d := Perform(c, first);
    SmoothPersists(c, first);
    CommitsLast(d, i, peers);
    var e := Do(d, Advance(i, Ok));
    OnlyOne(d, Advance(i, Ok));
    Joined(c, first, [Advance(i, Ok)]);
    var third := TellAll(e, i, last, {}, peers);
    Joined(c, first + [Advance(i, Ok)], third);
    steps := first + [Advance(i, Ok)] + third;
    var z := Perform(e, third);
    SmoothPersists(e, third);
    MarkerInside(z, i);
    forall p | p in q ensures p < |z.nodes| && z.nodes[i].log <= z.nodes[p].log && z.nodes[p].commit >= last {
      if p != i {
        assert p in {} + peers;
        assert Done(z, i, p);
      }
    }
  }

  lemma SmoothPersists(c: State, steps: seq<Step>)
    requires Inv(c) && forall s :: s in steps ==> Persisting(s)
    ensures Inv(Perform(c, steps))
  {
    PerformInv(c, steps);
  }

  /** A node that does not lead is elected, proposes and replicates. */
  lemma FromFollower(c: State, i: nat, q: set<nat>, command: string) returns (steps: seq<Step>)
    requires Inv(c) && i in q && i < |c.nodes| && c.nodes[i].role != Leader && |q| >= Quorum(|c.nodes|)
    requires forall v :: v in q ==> v < |c.nodes| && NoLater(c.nodes[v].log, c.nodes[i].log)
    ensures Written(Perform(c, steps), i, q, command)
    ensures forall s :: s in steps ==> Smooth(s, i, command)
  {
    var first := GetsElected(c, i, q);
    var d := Perform(c, first);
    PerformInv(c, first);
    Proposes(d, i, q, c.nodes[i].log, command);
    var e := Do(d, Propose(i, command, Ok));
    OnlyOne(d, Propose(i, command, Ok));
    Joined(c, first, [Propose(i, command, Ok)]);
    var more := Replicates(e, i, q, command);
    Joined(c, first + [Propose(i, command, Ok)], more);
    steps := first + [Propose(i, command, Ok)] + more;
  }

  /** A leader that restarts is a follower with a log that ends no earlier. */
  lemma Restarts(c: State, i: nat)
    requires Inv(c) && i < |c.nodes| && c.nodes[i].role == Leader
    ensures var d := Do(c, Crash(i, false));
            && Inv(d) && |d.nodes| == |c.nodes| && d.nodes[i].role == Follower && NoLater(c.nodes[i].log, d.nodes[i].log)
            && forall v :: 0 <= v < |c.nodes| && v != i ==> d.nodes[v] == c.nodes[v]
  {
    var d := Do(c, Crash(i, false));
    StepInv(c, Crash(i, false));
    LeaderElected(c, i);
    CrashedLeaderLog(c, i);
    assert NodeOk(d, i) && NodeOk(c, i);
    GoodLogOrdered(d, d.nodes[i].log, d.nodes[i].term, LastIndex(c.nodes[i].log), LastIndex(d.nodes[i].log));
  }

  lemma NoLaterOn(a: Log, b: Log, c: Log)
    requires NoLater(a, b) && NoLater(b, c)
    ensures NoLater(a, c)
  {
  }

  /**
    From every reachable state and for every majority q there is a run in which one of q appends the command and all of q commit it. No
    persist fails in it, and nobody restarts except, at the very start, the node itself if it was leader already.
   */
  lemma CanCommit(size: nat, steps: seq<Step>, q: set<nat>, command: string) returns (i: nat, more: seq<Step>)
    requires AllTermsPersisted(steps) && |q| >= Quorum(|Exec(size, steps).nodes|) && forall v :: v in q ==> v < |Exec(size, steps).nodes|
    ensures i in q && Written(Exec(size, steps + more), i, q, command)
    ensures forall k :: 0 <= k < |more| ==> Smooth(more[k], i, command) || (k == 0 && more[k] == Crash(i, false))
  {
    var c := Exec(size, steps);
    RunInv(size, steps);
    i := Greatest(c, q);
    if c.nodes[i].role == Leader {
      Restarts(c, i);
      var d := Do(c, Crash(i, false));
      forall v | v in q ensures v < |d.nodes| && NoLater(d.nodes[v].log, d.nodes[i].log) {
        NoLaterOn(c.nodes[v].log, c.nodes[i].log, d.nodes[i].log);
      }
      var rest := FromFollower(d, i, q, command);
      OnlyOne(c, Crash(i, false));
      Joined(c, [Crash(i, false)], rest);
      more := [Crash(i, false)] + rest;
    } else {
      more := FromFollower(c, i, q, command);
    }
    PerformMore(size, steps, more);
  }
}
