/**
  When exactly the theorems of Safety hold. Each is stated for all runs of a class: the runs in which a raised term may be lost, or
  the runs in which it never is. Every one of them holds for the second class and fails for the first.
 */
module Exactness {
  import opened RaftLog
  import opened Protocol
  import opened Cluster
  import opened Safety
  import opened MatchIndex
  import opened Script
  import opened Counterexample
  import opened MatchRun

  /** The runs considered: all of them, or those in which every raised term reaches the disk. */
  ghost predicate Allowed(mayLose: bool, steps: seq<Step>) { mayLose || AllTermsPersisted(steps) }

  // ---------------------------------------------------------------- the properties

  /** Node i at time a and node j at time b have both committed index k. */
  predicate BothCommit(size: nat, steps: seq<Step>, a: nat, b: nat, i: nat, j: nat, k: nat) {
    && a <= b <= |steps| && i < |At(size, steps, a).nodes| && j < |At(size, steps, b).nodes|
    && k <= At(size, steps, a).nodes[i].commit && k <= At(size, steps, b).nodes[j].commit
  }

  /** Node i at time a and node j at time b hold the same record at index k. */
  predicate SameRecord(size: nat, steps: seq<Step>, a: nat, b: nat, i: nat, j: nat, k: nat)
    requires a <= |steps| && b <= |steps| && i < |At(size, steps, a).nodes| && j < |At(size, steps, b).nodes|
  {
    var x, y := At(size, steps, a).nodes[i].log, At(size, steps, b).nodes[j].log;
    k < |x| && k < |y| && x[k] == y[k]
  }

  /** No index is committed with different records, at any two times of the run. */
  ghost predicate Consistent(size: nat, steps: seq<Step>) {
    forall a: nat, b: nat, i: nat, j: nat, k: nat {:trigger BothCommit(size, steps, a, b, i, j, k)} ::
      BothCommit(size, steps, a, b, i, j, k) ==> SameRecord(size, steps, a, b, i, j, k)
  }

  /** At time a of the run node i has committed index k; at time b node j leads a newer term, or leads the same term and b is not earlier. */
  predicate CommitsAndLeads(size: nat, steps: seq<Step>, a: nat, b: nat, i: nat, j: nat, k: nat) {
    && a <= |steps| && b <= |steps| && i < |At(size, steps, a).nodes| && j < |At(size, steps, b).nodes|
    && k <= At(size, steps, a).nodes[i].commit && At(size, steps, b).nodes[j].role == Leader
    && (At(size, steps, a).nodes[i].term < At(size, steps, b).nodes[j].term
        || (At(size, steps, a).nodes[i].term == At(size, steps, b).nodes[j].term && a <= b))
  }

  /** Leader completeness, between any two times of the run. */
  ghost predicate Complete(size: nat, steps: seq<Step>) {
    forall a: nat, b: nat, i: nat, j: nat, k: nat {:trigger CommitsAndLeads(size, steps, a, b, i, j, k)} ::
      CommitsAndLeads(size, steps, a, b, i, j, k) ==> SameRecord(size, steps, a, b, i, j, k)
  }

  predicate KeptBy(c: State, d: State, i: nat)
    requires i < |c.nodes|
  {
    i < |d.nodes| && AgreeTo(c.nodes[i].log, d.nodes[i].log, c.nodes[i].commit + 1)
  }

  /** The step from c to d removes or changes no committed record. */
  ghost predicate NeverCut(c: State, d: State) {
    forall i: nat {:trigger KeptBy(c, d, i)} :: i < |c.nodes| ==> KeptBy(c, d, i)
  }

  predicate AgreesWithLeader(c: State, i: nat)
    requires i < |c.nodes| && c.nodes[i].term in c.hist.elections
  {
    AgreeTo(c.nodes[i].log, c.hist.elections[c.nodes[i].term].log, c.nodes[i].commit + 1)
  }

  /** Every committed part is the log of the leader of the node's term. */
  ghost predicate CommitsAgree(c: State) {
    forall i: nat {:trigger AgreesWithLeader(c, i)} ::
      i < |c.nodes| && c.nodes[i].term in c.hist.elections ==> AgreesWithLeader(c, i)
  }

  /** Leader i keeps a match index for p, which is not in a newer term. */
  predicate Believes(c: State, i: nat, p: nat) {
    && i < |c.nodes| && p < |c.nodes| && p != i && c.nodes[i].role == Leader
    && Get(c.nodes[i].matched, p) > 0 && c.nodes[p].term <= c.nodes[i].term
  }

  predicate Holds(c: State, i: nat, p: nat)
    requires i < |c.nodes| && p < |c.nodes|
  {
    var n, q, k := c.nodes[i], c.nodes[p], Get(c.nodes[i].matched, p) + 1;
    q.term == n.term && AgreeTo(q.log, n.log, k) && AgreeTo(DurableLog(q), n.log, k)
  }

  /** Match indexes are facts. */
  ghost predicate MatchesHold(c: State) {
    forall i: nat, p: nat {:trigger Believes(c, i, p)} :: Believes(c, i, p) ==> Holds(c, i, p)
  }

  // ---------------------------------------------------------------- they hold

  lemma WithoutLoss(size: nat, steps: seq<Step>)
    requires AllTermsPersisted(steps)
    ensures Consistent(size, steps) && Complete(size, steps)
  {
    forall a: nat, b: nat, i: nat, j: nat, k: nat | BothCommit(size, steps, a, b, i, j, k)
      ensures SameRecord(size, steps, a, b, i, j, k)
    {
      StateMachineSafety(size, steps, a, b, i, j, k);
    }
    forall a: nat, b: nat, i: nat, j: nat, k: nat | CommitsAndLeads(size, steps, a, b, i, j, k)
      ensures SameRecord(size, steps, a, b, i, j, k)
    {
      LeaderCompleteness(size, steps, a, b, i, j, k);
    }
  }

  lemma WithoutLossMore(size: nat, steps: seq<Step>)
    requires AllTermsPersisted(steps)
    ensures CommitsAgree(Exec(size, steps)) && MatchesHold(Exec(size, steps))
  {
    var c := Exec(size, steps);
    forall i: nat | i < |c.nodes| && c.nodes[i].term in c.hist.elections ensures AgreesWithLeader(c, i) {
      FollowerCommitsLeaderLog(size, steps, i);
    }
    forall i: nat, p: nat | Believes(c, i, p) ensures Holds(c, i, p) {
      MatchIndexSound(size, steps, i, p);
    }
  }

  lemma WithoutLossKept(size: nat, steps: seq<Step>, s: Step)
    requires AllTermsPersisted(steps + [s])
    ensures NeverCut(Exec(size, steps), Do(Exec(size, steps), s))
  {
    var c := Exec(size, steps);
    assert s in steps + [s] && forall x :: x in steps ==> x in steps + [s];
    forall i: nat | i < |c.nodes| ensures KeptBy(c, Do(c, s), i) {
      CommittedNeverCut(size, steps, s, i);
    }
  }

  // ---------------------------------------------------------------- they fail

  lemma ViolatedBreaks(c: State)
    requires Violated(c)
    ensures !CommitsAgree(c)
  {
    Records();
    assert STALE[..11][10] != SECOND[..11][10];
    assert !AgreesWithLeader(c, 2);
  }

  lemma ViolationBreaks(steps: seq<Step>)
    requires Violated(Run(steps))
    ensures !Consistent(5, steps) && !Complete(5, steps)
  {
    Records();
    var z := |steps|;
    assert steps[..z] == steps;
    assert SECOND[10] == E && STALE[10] == Y;
    assert BothCommit(5, steps, z, z, 2, 1, 10) && CommitsAndLeads(5, steps, z, z, 2, 1, 10);
    assert !SameRecord(5, steps, z, z, 2, 1, 10);
  }

  lemma MismatchedBreaks(c: State)
    requires Mismatched(c)
    ensures !MatchesHold(c)
  {
    assert Believes(c, 0, 1);
    assert OTHER[..2][1] != FIRST[..2][1];
    assert !Holds(c, 0, 1);
  }

  lemma CutBreaks(c: State, d: State)
    requires Five(c) && Five(d) && Stale(c.nodes[2], 2, 10) && d.nodes[2].log == SECOND
    ensures !NeverCut(c, d)
  {
    Records();
    assert STALE[..11][10] == Y && SECOND[..11][10] == E;
    assert !KeptBy(c, d, 2);
  }

  // ---------------------------------------------------------------- the equivalences

  /** State machine safety, between any two times of a run, holds in all runs of a class if and only if no raised term is lost in it. */
  lemma StateMachineSafetyIff(mayLose: bool)
    ensures (forall size: nat, steps: seq<Step> :: Allowed(mayLose, steps) ==> Consistent(size, steps)) <==> !mayLose
  {
    if mayLose {
      var steps := Violation();
      ViolationBreaks(steps);
      assert !Consistent(5, steps);
    } else {
      forall size: nat, steps: seq<Step> | Allowed(mayLose, steps) ensures Consistent(size, steps) {
        WithoutLoss(size, steps);
      }
    }
  }

  /** The same for leader completeness, between any two times of a run. */
  lemma LeaderCompletenessIff(mayLose: bool)
    ensures (forall size: nat, steps: seq<Step> :: Allowed(mayLose, steps) ==> Complete(size, steps)) <==> !mayLose
  {
    if mayLose {
      var steps := Violation();
      ViolationBreaks(steps);
      assert !Complete(5, steps);
    } else {
      forall size: nat, steps: seq<Step> | Allowed(mayLose, steps) ensures Complete(size, steps) {
        WithoutLoss(size, steps);
      }
    }
  }

  /** The same for what followers commit. */
  lemma FollowerCommitsIff(mayLose: bool)
    ensures (forall size: nat, steps: seq<Step> :: Allowed(mayLose, steps) ==> CommitsAgree(Exec(size, steps))) <==> !mayLose
  {
    if mayLose {
      var steps := Violation();
      ViolatedBreaks(Run(steps));
      assert !CommitsAgree(Exec(5, steps));
    } else {
      forall size: nat, steps: seq<Step> | Allowed(mayLose, steps) ensures CommitsAgree(Exec(size, steps)) {
        WithoutLossMore(size, steps);
      }
    }
  }

  /** The same for match indexes. */
  lemma MatchIndexIff(mayLose: bool)
    ensures (forall size: nat, steps: seq<Step> :: Allowed(mayLose, steps) ==> MatchesHold(Exec(size, steps))) <==> !mayLose
  {
    if mayLose {
      var steps := Mismatch();
      MismatchedBreaks(Run(steps));
      assert !MatchesHold(Exec(5, steps));
    } else {
      forall size: nat, steps: seq<Step> | Allowed(mayLose, steps) ensures MatchesHold(Exec(size, steps)) {
        WithoutLossMore(size, steps);
      }
    }
  }

  /** What a step does to a run's last state. */
  ghost predicate StepKeeps(size: nat, steps: seq<Step>, s: Step) { NeverCut(Exec(size, steps), Do(Exec(size, steps), s)) }

  /** The same for committed records, over every step of every run. */
  lemma CommittedNeverCutIff(mayLose: bool)
    ensures (forall size: nat, steps: seq<Step>, s: Step :: Allowed(mayLose, steps + [s]) ==> StepKeeps(size, steps, s)) <==> !mayLose
  {
    if mayLose {
      var steps := Cut();
      CutBreaks(Run(steps), Do(Run(steps), RecvAppendReq(CUT, Ok, Ok, Ok)));
      assert !StepKeeps(5, steps, RecvAppendReq(CUT, Ok, Ok, Ok));
    } else {
      forall size: nat, steps: seq<Step>, s: Step | Allowed(mayLose, steps + [s]) ensures StepKeeps(size, steps, s) {
        WithoutLossKept(size, steps, s);
      }
    }
  }
}
