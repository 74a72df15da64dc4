/**
  Rounds of replication between a leader and one peer, with nothing else happening and no persist failing: the peer catches up,
  except when the leader's next index is past the end of its log.
 */
module CatchUp {
  import opened RaftLog
  import opened Protocol
  import opened Cluster
  import opened Invariant
  import opened StepFollow
  import opened Safety
  import opened Exchange

  type Rounder = State -> State

  /** One round between i and p. */
  function RoundOf(i: nat, p: nat): Rounder {
    (c: State) => if i < |c.nodes| && p < |c.nodes| then Round(c, i, p) else c
  }

  function Iterate(f: Rounder, c: State, k: nat): State
    decreases k
  {
    if k == 0 then c else Iterate(f, f(c), k - 1)
  }

  /** All that is needed to know about f. */
  ghost predicate Rounds(f: Rounder, i: nat, p: nat) {
    forall c {:trigger f(c)} :: Pair(c, i, p) ==> NextOf(c, i, p) > 0 && RoundEnds(c, f(c), i, p)
  }

  lemma RoundOfRounds(i: nat, p: nat)
    ensures Rounds(RoundOf(i, p), i, p)
  {
    forall c | Pair(c, i, p) ensures NextOf(c, i, p) > 0 && RoundEnds(c, RoundOf(i, p)(c), i, p) {
      RoundOutcome(c, i, p);
    }
  }

  lemma {:induction false} IterateLast(f: Rounder, c: State, k: nat)
    ensures Iterate(f, c, k + 1) == f(Iterate(f, c, k))
    decreases k
  {
    if k > 0 {
      IterateLast(f, f(c), k - 1);
    }
  }

  // ---------------------------------------------------------------- catching up

  /** p has the whole log, the leader knows it, and its next request starts after the last record. */
  ghost predicate Done(c: State, i: nat, p: nat) {
    InStep(c, i, p) && CaughtUp(c, i, p) && NextOf(c, i, p) == |c.nodes[i].log|
  }

  /** One further round tells p the leader's commit index. */
  ghost predicate ToldCommit(c: State, d: State, i: nat, p: nat) {
    Done(c, i, p) && Done(d, i, p) && d.nodes[p].commit >= c.nodes[i].commit
  }

  lemma OneFurtherRound(f: Rounder, c: State, i: nat, p: nat)
    requires Rounds(f, i, p) && Done(c, i, p)
    ensures ToldCommit(c, f(c), i, p)
  {
    assert RoundEnds(c, f(c), i, p);
    MarkerInside(c, i);
  }

  /** Accepted rounds go on to the end of the log. */
  lemma {:induction false} StaysInStep(f: Rounder, c: State, i: nat, p: nat) returns (k: nat)
    requires Rounds(f, i, p) && InStep(c, i, p)
    ensures k <= |c.nodes[i].log| + 1 - NextOf(c, i, p) && Done(Iterate(f, c, k), i, p)
    decreases |c.nodes[i].log| - NextOf(c, i, p)
  {
    var d := f(c);
    assert RoundEnds(c, d, i, p);
    if NextOf(d, i, p) == |c.nodes[i].log| {
      k := 1;
      assert Iterate(f, c, 1) == Iterate(f, d, 0);
    } else {
      k := StaysInStep(f, d, i, p);
      k := k + 1;
    }
  }

  /** Right above the follower's marker the logs agree. */
  lemma AboveMarker(c: State, i: nat, p: nat)
    requires Pair(c, i, p) && c.nodes[p].term == c.nodes[i].term && NextOf(c, i, p) > c.nodes[i].snap
    requires NextOf(c, i, p) == Min(c.nodes[p].snap + 1, |c.nodes[i].log|)
    ensures InStep(c, i, p)
  {
    LeaderElected(c, i);
    CommittedAgrees(c, p);
    MarkerInside(c, p);
    AgreeToLess(c.nodes[p].log, c.nodes[i].log, c.nodes[p].commit + 1, c.nodes[p].snap + 1);
  }

  /** From below the follower's marker. */
  lemma FromBelow(f: Rounder, c: State, i: nat, p: nat) returns (k: nat)
    requires Rounds(f, i, p) && Pair(c, i, p) && !InStep(c, i, p)
    requires c.nodes[i].snap < NextOf(c, i, p) <= |c.nodes[i].log| && NextOf(c, i, p) <= c.nodes[p].snap
    ensures k <= |c.nodes[i].log| + 2 && Done(Iterate(f, c, k), i, p)
  {
    var d := f(c);
    assert RoundEnds(c, d, i, p);
    AboveMarker(d, i, p);
    k := StaysInStep(f, d, i, p);
    k := k + 1;
  }

  /** From below the leader's marker: a snapshot. */
  lemma FromSnapshot(f: Rounder, c: State, i: nat, p: nat) returns (k: nat)
    requires Rounds(f, i, p) && Pair(c, i, p) && NextOf(c, i, p) <= c.nodes[i].snap
    ensures k <= |c.nodes[i].log| + 3 && Done(Iterate(f, c, k), i, p)
  {
    var d := f(c);
    assert RoundEnds(c, d, i, p);
    MarkerInside(c, i);
    if InStep(d, i, p) {
      k := StaysInStep(f, d, i, p);
    } else if d.nodes[p].snap == c.nodes[i].snap {
      AboveMarker(d, i, p);
      k := StaysInStep(f, d, i, p);
    } else {
      k := FromBelow(f, d, i, p);
    }
    k := k + 1;
  }

  /** From anywhere inside the leader's log. */
  lemma {:induction false} CatchesUp(f: Rounder, c: State, i: nat, p: nat) returns (k: nat)
    requires Rounds(f, i, p) && Pair(c, i, p) && NextOf(c, i, p) <= |c.nodes[i].log|
    ensures k <= |c.nodes[i].log| + NextOf(c, i, p) + 3 && Done(Iterate(f, c, k), i, p)
    decreases NextOf(c, i, p)
  {
    var d := f(c);
    assert NextOf(c, i, p) > 0 && RoundEnds(c, d, i, p);
    if NextOf(c, i, p) <= c.nodes[i].snap {
      k := FromSnapshot(f, c, i, p);
    } else if InStep(c, i, p) {
      k := StaysInStep(f, c, i, p);
    } else if NextOf(c, i, p) <= c.nodes[p].snap {
      k := FromBelow(f, c, i, p);
    } else {
      k := CatchesUp(f, d, i, p);
      k := k + 1;
    }
  }

  // ---------------------------------------------------------------- past the end

  /** The log is the same and the match index is at most m. */
  predicate NoFurther(d: State, i: nat, p: nat, log: Log, m: nat) {
    i < |d.nodes| && d.nodes[i].log == log && MatchOf(d, i, p) <= m
  }

  /** A next index past the end of the log stays there. */
  lemma {:induction false} StaysStuck(f: Rounder, c: State, i: nat, p: nat, k: nat)
    requires Rounds(f, i, p) && Pair(c, i, p) && NextOf(c, i, p) > |c.nodes[i].log|
    ensures NoFurther(Iterate(f, c, k), i, p, c.nodes[i].log, Max(MatchOf(c, i, p), c.nodes[i].snap))
    decreases k
  {
    if k > 0 {
      assert RoundEnds(c, f(c), i, p);
      StaysStuck(f, f(c), i, p, k - 1);
    }
  }

  /** The leader knows that p has its whole log. */
  ghost predicate KnowsAll(c: State, i: nat, p: nat) { i < |c.nodes| && MatchOf(c, i, p) >= LastIndex(c.nodes[i].log) }

  ghost predicate KnowsAllAfter(f: Rounder, c: State, i: nat, p: nat, k: nat) { KnowsAll(Iterate(f, c, k), i, p) }

  /** After at most 2 * |log| + 3 rounds p has the leader's whole log and the leader knows it. */
  ghost predicate SoonCaughtUp(f: Rounder, c: State, i: nat, p: nat, log: Log) {
    exists k: nat :: k <= 2 * |log| + 3 && Done(Iterate(f, c, k), i, p)
  }

  lemma PairCatchesUp(f: Rounder, c: State, i: nat, p: nat)
    requires Rounds(f, i, p) && Pair(c, i, p)
    ensures var log := c.nodes[i].log;
            && ((exists k :: KnowsAllAfter(f, c, i, p, k)) <==>
                 NextOf(c, i, p) <= |log| || c.nodes[i].snap == LastIndex(log) || KnowsAll(c, i, p))
            && (NextOf(c, i, p) <= |log| ==> SoonCaughtUp(f, c, i, p, log))
  {
    var n := c.nodes[i];
    MarkerInside(c, i);
    assert RoundEnds(c, f(c), i, p);
    if NextOf(c, i, p) <= |n.log| {
      var k := CatchesUp(f, c, i, p);
      OneFurtherRound(f, Iterate(f, c, k), i, p);
      IterateLast(f, c, k);
      assert KnowsAllAfter(f, c, i, p, k);
    } else if KnowsAll(c, i, p) {
      assert KnowsAllAfter(f, c, i, p, 0);
    } else if n.snap == LastIndex(n.log) {
      assert Iterate(f, c, 1) == Iterate(f, f(c), 0);
      assert KnowsAllAfter(f, c, i, p, 1);
    } else {
      forall k | KnowsAllAfter(f, c, i, p, k) ensures false {
        StaysStuck(f, c, i, p, k);
      }
    }
  }

  /**
    In every reachable state: rounds of replication with nothing else happening make the leader count p as having its whole log if and only
    if its next index is not past the end of its log, its log ends at the marker, or it counts p so already. In the first case a bounded
    number of rounds gives p the whole log.
   */
  lemma CatchUpIff(size: nat, steps: seq<Step>, i: nat, p: nat)
    requires AllTermsPersisted(steps) && i < |Exec(size, steps).nodes| && p < |Exec(size, steps).nodes| && i != p
    requires Exec(size, steps).nodes[i].role == Leader && Exec(size, steps).nodes[p].term <= Exec(size, steps).nodes[i].term
    ensures var c := Exec(size, steps);
            var log := c.nodes[i].log;
            && ((exists k :: KnowsAllAfter(RoundOf(i, p), c, i, p, k)) <==>
                 NextOf(c, i, p) <= |log| || c.nodes[i].snap == LastIndex(log) || KnowsAll(c, i, p))
            && (NextOf(c, i, p) <= |log| ==> SoonCaughtUp(RoundOf(i, p), c, i, p, log))
  {
    RunInv(size, steps);
    RoundOfRounds(i, p);
    PairCatchesUp(RoundOf(i, p), Exec(size, steps), i, p);
  }
}
