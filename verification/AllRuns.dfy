/**
  What holds in every run, whichever persists fail: at most one leader per term, and log matching. MetaLoss adds a
  crash that breaks both.
  The invariant W speaks about a map L from terms to the log of that term's leader, which a step may extend.
 */
module AllRuns {
  import opened RaftLog
  import opened Protocol
  import opened Cluster
  import opened Invariant

  type Logs = map<nat, Log>

  // ---------------------------------------------------------------- logs

  predicate SoundAt(L: Logs, log: Log, k: nat)
    requires 0 < k < |log|
  {
    log[k].term >= 1 && log[k].term in L && log[..k + 1] <= L[log[k].term]
  }

  /** Every record was created by the leader of its term, on top of the same earlier records. */
  ghost predicate Sound(L: Logs, log: Log) {
    |log| > 0 && log[0] == BOOTSTRAP && forall k {:trigger SoundAt(L, log, k)} :: 0 < k < |log| ==> SoundAt(L, log, k)
  }

  ghost predicate LogsGrow(L: Logs, L': Logs) {
    forall t {:trigger L[t]} :: t in L ==> t in L' && L[t] <= L'[t]
  }

  lemma SoundGrows(L: Logs, L': Logs, log: Log)
    requires Sound(L, log) && LogsGrow(L, L')
    ensures Sound(L', log)
  {
    forall k | 0 < k < |log| ensures SoundAt(L', log, k) {
      assert SoundAt(L, log, k);
    }
  }

  lemma SoundPrefix(L: Logs, log: Log, p: Log)
    requires Sound(L, log) && p <= log && |p| > 0
    ensures Sound(L, p)
  {
    forall k | 0 < k < |p| ensures SoundAt(L, p, k) {
      assert SoundAt(L, log, k) && p[..k + 1] == log[..k + 1];
    }
  }

  /** Two sound logs with the same term at an index are equal up to it. */
  lemma SoundMatch(L: Logs, a: Log, b: Log, k: nat)
    requires Sound(L, a) && Sound(L, b) && k < |a| && k < |b| && a[k].term == b[k].term
    ensures AgreeTo(a, b, k + 1)
  {
    if k > 0 {
      assert SoundAt(L, a, k) && SoundAt(L, b, k);
      assert a[..k + 1] == b[..k + 1];
    }
  }

  lemma SoundMerge(L: Logs, log: Log, leader: Log, prev: nat, count: nat)
    requires Sound(L, log) && Sound(L, leader) && prev < |log| && prev + count < |leader|
    requires log[prev].term == leader[prev].term
    ensures Sound(L, Merge(log, prev + 1, leader[prev + 1..prev + 1 + count]))
  {
    SoundMatch(L, log, leader, prev);
    forall j | 0 <= j < |log| && j < |leader| && log[j].term == leader[j].term ensures AgreeTo(log, leader, j + 1) {
      SoundMatch(L, log, leader, j);
    }
    MergeOutcome(log, leader, prev + 1, count);
    SoundPrefix(L, leader, leader[..prev + 1 + count]);
  }

  lemma SoundRestore(L: Logs, log: Log, snap: Log)
    requires Sound(L, log) && Sound(L, snap)
    ensures Sound(L, Restore(log, snap))
  {
    if |snap| <= |log| && log[|snap| - 1].term == snap[|snap| - 1].term {
      SoundMatch(L, log, snap, |snap| - 1);
      assert Restore(log, snap) == log;
    }
  }

  // ---------------------------------------------------------------- history

  /** The vote of v for w in term s is remembered, in memory and on disk. */
  predicate Held(n: Node, s: nat, w: nat) {
    && (n.term > s || (n.term == s && n.vote == w))
    && (n.disk.term > s || (n.disk.term == s && n.disk.vote == w))
  }

  /** Nobody who had voted in a later term gave a vote to a candidate that knew of that term. */
  ghost predicate GrantClean(h: History, v: nat, s: nat, w: nat)
    requires (s, w) in h.candidacies
  {
    forall k :: 0 <= k < |h.candidacies[(s, w)]| && h.candidacies[(s, w)][k].term > s && h.candidacies[(s, w)][k].term in h.elections
      ==> v !in h.elections[h.candidacies[(s, w)][k].term].voters
  }

  ghost predicate GrantOk(h: History, size: nat, v: nat, s: nat, w: nat) {
    v < size && w < size && (s, w) in h.candidacies && GrantClean(h, v, s, w)
  }

  ghost predicate WonOk(h: History, L: Logs, size: nat, t: nat)
    requires t in h.elections
  {
    var e := h.elections[t];
    && t >= 1 && e.leader < size && e.voters <= Ids(size) && |e.voters| >= Quorum(size)
    && (forall v :: v in e.voters ==> (v, t, e.leader) in h.granted) && (t, e.leader) in h.candidacies
    && t in L && Sound(L, L[t]) && (forall k :: 0 <= k < |L[t]| ==> L[t][k].term <= t)
    && (forall j, k :: 0 <= j < k < |L[t]| ==> L[t][j].term <= L[t][k].term)
  }

  ghost predicate HistOk(h: History, L: Logs, size: nat) {
    && OneVote(h) && L.Keys == h.elections.Keys
    && (forall t {:trigger WonOk(h, L, size, t)} :: t in h.elections ==> WonOk(h, L, size, t))
    && (forall v, s, w {:trigger GrantOk(h, size, v, s, w)} :: (v, s, w) in h.granted ==> GrantOk(h, size, v, s, w))
    && (forall x {:trigger h.candidacies[x]} :: x in h.candidacies ==> Sound(L, h.candidacies[x]) && (x.1, x.0, x.1) in h.granted)
  }

  ghost predicate HistGrows(h: History, h': History) {
    && h.granted <= h'.granted
    && (forall x {:trigger h.candidacies[x]} :: x in h.candidacies ==> x in h'.candidacies && h'.candidacies[x] == h.candidacies[x])
    && (forall t {:trigger h.elections[t]} :: t in h.elections ==>
          t in h'.elections && h'.elections[t].leader == h.elections[t].leader && h'.elections[t].voters == h.elections[t].voters)
  }

  // ---------------------------------------------------------------- nodes and messages

  /** A leader's disk holds its log, or one record more; anyone else's disk log is sound. */
  ghost predicate DiskOk(L: Logs, n: Node) {
    && (n.role == Follower ==> Sound(L, n.disk.log))
    && (n.role == Candidate ==> n.disk.log == n.log)
    && (n.role == Leader ==> n.disk.log == n.log || Leftover(n))
  }

  ghost predicate NodeW(h: History, L: Logs, size: nat, i: nat, n: Node) {
    && Sound(L, n.log) && Sound(L, n.saved) && DiskOk(L, n)
    && (n.role == Candidate ==>
          && n.term >= 1 && (n.term, i) in h.candidacies && h.candidacies[(n.term, i)] == n.log
          && n.votes <= Ids(size) && (forall v :: v in n.votes ==> (v, n.term, i) in h.granted)
          && (n.term in h.elections ==> h.elections[n.term].leader != i))
    && (n.role == Leader ==> n.term in h.elections && h.elections[n.term].leader == i && n.term in L && L[n.term] == n.log)
  }

  ghost predicate MsgW(h: History, L: Logs, m: Message) {
    match m
    case VoteReq(src, _, term, _, _) => (term, src) in h.candidacies
    case VoteResp(src, dst, reqTerm, _, granted) => granted ==> (src, reqTerm, dst) in h.granted
    case AppendReq(_, _, term, prevIndex, prevTerm, entries, _) =>
      && term in L && prevIndex + |entries| < |L[term]| && prevTerm == L[term][prevIndex].term
      && entries == L[term][prevIndex + 1..prevIndex + 1 + |entries|]
    case SnapReq(_, _, _, snapshot) => Sound(L, snapshot)
    case _ => true
  }

  ghost predicate AllHeld(c: State, v: nat)
    requires v < |c.nodes|
  {
    forall s, w {:trigger (v, s, w) in c.hist.granted} :: (v, s, w) in c.hist.granted ==> Held(c.nodes[v], s, w)
  }

  ghost predicate W(c: State, L: Logs) {
    && HistOk(c.hist, L, |c.nodes|)
    && (forall i {:trigger NodeW(c.hist, L, |c.nodes|, i, c.nodes[i])} ::
          0 <= i < |c.nodes| ==> NodeW(c.hist, L, |c.nodes|, i, c.nodes[i]))
    && (forall v {:trigger AllHeld(c, v)} :: 0 <= v < |c.nodes| ==> AllHeld(c, v))
    && (forall m {:trigger MsgW(c.hist, L, m)} :: m in c.net ==> MsgW(c.hist, L, m))
  }

  // ---------------------------------------------------------------- what does not concern a step stays

  /** L changed only for terms led by i, and only i won anything new. */
  ghost predicate OnlyBy(h: History, h': History, L: Logs, L': Logs, i: nat) {
    && (forall t {:trigger L[t]} :: t in L && t in L' && L'[t] != L[t] ==> t in h.elections && h.elections[t].leader == i)
    && (forall t {:trigger h'.elections[t]} :: t in h'.elections && t !in h.elections ==> h'.elections[t].leader == i)
  }

  lemma NodeStays(h: History, h': History, L: Logs, L': Logs, size: nat, i: nat, j: nat, n: Node)
    requires NodeW(h, L, size, j, n) && HistGrows(h, h') && LogsGrow(L, L') && OnlyBy(h, h', L, L', i) && j != i
    ensures NodeW(h', L', size, j, n)
  {
    SoundGrows(L, L', n.log);
    SoundGrows(L, L', n.saved);
    if n.role == Follower {
      SoundGrows(L, L', n.disk.log);
    }
  }

  lemma MsgStays(h: History, h': History, L: Logs, L': Logs, m: Message)
    requires MsgW(h, L, m) && HistGrows(h, h') && LogsGrow(L, L')
    ensures MsgW(h', L', m)
  {
    match m
    case SnapReq(_, _, _, snapshot) => SoundGrows(L, L', snapshot);
    case AppendReq(_, _, term, prevIndex, _, entries, _) =>
      assert L[term] <= L'[term];
      assert L'[term][prevIndex + 1..prevIndex + 1 + |entries|] == L[term][prevIndex + 1..prevIndex + 1 + |entries|];
    case _ =>
  }

  /** A step of node i. */
  lemma StepW(c: State, L: Logs, d: State, L': Logs, i: nat)
    requires W(c, L) && i < |c.nodes| && |d.nodes| == |c.nodes|
    requires HistOk(d.hist, L', |d.nodes|) && HistGrows(c.hist, d.hist) && LogsGrow(L, L') && OnlyBy(c.hist, d.hist, L, L', i)
    requires NodeW(d.hist, L', |d.nodes|, i, d.nodes[i]) && AllHeld(d, i)
    requires forall j :: 0 <= j < |c.nodes| && j != i ==> d.nodes[j] == c.nodes[j]
    requires forall v, s, w :: (v, s, w) in d.hist.granted && (v, s, w) !in c.hist.granted ==> v == i
    requires forall m :: m in d.net && m !in c.net ==> MsgW(d.hist, L', m)
    ensures W(d, L')
  {
    forall j | 0 <= j < |d.nodes| ensures NodeW(d.hist, L', |d.nodes|, j, d.nodes[j]) {
      if j != i {
        assert NodeW(c.hist, L, |c.nodes|, j, c.nodes[j]);
        NodeStays(c.hist, d.hist, L, L', |c.nodes|, i, j, c.nodes[j]);
      }
    }
    forall v | 0 <= v < |d.nodes| ensures AllHeld(d, v) {
      if v != i {
        assert AllHeld(c, v);
      }
    }
    forall m | m in d.net ensures MsgW(d.hist, L', m) {
      if m in c.net {
        MsgStays(c.hist, d.hist, L, L', m);
      }
    }
  }

  /** The histories differ at most in what HistOk does not look at. */
  ghost predicate SameVotes(h: History, h': History) {
    && h'.granted == h.granted && h'.candidacies == h.candidacies && h'.elections.Keys == h.elections.Keys
    && (forall t {:trigger h.elections[t]} :: t in h.elections ==>
          h'.elections[t].leader == h.elections[t].leader && h'.elections[t].voters == h.elections[t].voters)
  }

  /** The log of term t may be extended by records of that term. */
  ghost predicate Extends(L: Logs, L': Logs, t: nat) {
    && t in L && L'.Keys == L.Keys && (forall u :: u in L && u != t ==> L'[u] == L[u])
    && L[t] <= L'[t] && (forall k :: |L[t]| <= k < |L'[t]| ==> L'[t][k].term == t)
  }

  lemma ExtendedSound(L: Logs, L': Logs, t: nat, log: Log)
    requires Extends(L, L', t) && t >= 1 && Sound(L, L[t]) && log <= L'[t] && |log| > 0
    ensures LogsGrow(L, L') && Sound(L', log)
  {
    forall k | 0 < k < |log| ensures SoundAt(L', log, k) {
      if k < |L[t]| {
        assert SoundAt(L, L[t], k) && log[..k + 1] == L[t][..k + 1];
      }
    }
  }

  lemma HistStays(h: History, h': History, L: Logs, L': Logs, size: nat, t: nat)
    requires HistOk(h, L, size) && SameVotes(h, h') && t in h.elections && Extends(L, L', t)
    ensures HistOk(h', L', size) && HistGrows(h, h') && LogsGrow(L, L')
  {
    assert WonOk(h, L, size, t);
    ExtendedSound(L, L', t, L'[t]);
    forall u | u in h'.elections ensures WonOk(h', L', size, u) {
      assert WonOk(h, L, size, u);
      if u != t {
        SoundGrows(L, L', L[u]);
      }
    }
    forall x | x in h'.candidacies ensures Sound(L', h'.candidacies[x]) {
      SoundGrows(L, L', h.candidacies[x]);
    }
    GrantsStay(h, h', L, size);
  }

  lemma GrantsStay(h: History, h': History, L: Logs, size: nat)
    requires HistOk(h, L, size) && SameVotes(h, h')
    ensures forall v, s, w {:trigger GrantOk(h', size, v, s, w)} :: (v, s, w) in h'.granted ==> GrantOk(h', size, v, s, w)
  {
    forall v, s, w | (v, s, w) in h'.granted ensures GrantOk(h', size, v, s, w) {
      assert GrantOk(h, size, v, s, w);
    }
  }

  lemma HistSame(h: History, h': History, L: Logs, size: nat)
    requires HistOk(h, L, size) && SameVotes(h, h')
    ensures HistOk(h', L, size) && HistGrows(h, h') && LogsGrow(L, L)
  {
    forall u | u in h'.elections ensures WonOk(h', L, size, u) {
      assert WonOk(h, L, size, u);
    }
    GrantsStay(h, h', L, size);
  }

  // ---------------------------------------------------------------- steps without new votes

  ghost predicate KeepsGrants(h: History, i: nat, n: Node) {
    forall s, w {:trigger (i, s, w) in h.granted} :: (i, s, w) in h.granted ==> Held(n, s, w)
  }

  /** A reply that promises nothing. */
  predicate Harmless(m: Message) { (m.VoteResp? && !m.granted) || m.AppendResp? || m.SnapResp? }

  /** A step after which L is the same, apart perhaps from the log of node i's old term. */
  lemma NodeStep(c: State, L: Logs, L': Logs, i: nat, n: Node, msgs: set<Message>, h: History)
    requires W(c, L) && i < |c.nodes| && SameVotes(c.hist, h)
    requires L' == L || (c.nodes[i].role == Leader && Extends(L, L', c.nodes[i].term))
    requires NodeW(h, L', |c.nodes|, i, n) && KeepsGrants(c.hist, i, n)
    requires forall m :: m in msgs ==> MsgW(h, L', m)
    ensures W(Update(c, i, n, msgs).(hist := h), L')
  {
    var d := Update(c, i, n, msgs).(hist := h);
    assert NodeW(c.hist, L, |c.nodes|, i, c.nodes[i]);
    if L' == L {
      HistSame(c.hist, h, L, |c.nodes|);
    } else {
      HistStays(c.hist, h, L, L', |c.nodes|, c.nodes[i].term);
    }
    StepW(c, L, d, L', i);
  }

  lemma Replies(h: History, L: Logs, msgs: set<Message>)
    requires forall m :: m in msgs ==> Harmless(m)
    ensures forall m :: m in msgs ==> MsgW(h, L, m)
  {
  }

  /** n' differs from n in nothing W looks at, except that its disk may have been brought up to date. */
  predicate SameLog(n: Node, n': Node) {
    && n'.role == n.role && n'.term == n.term && n'.vote == n.vote && n'.log == n.log && n'.votes == n.votes
    && n'.saved == n.saved && (n'.disk == n.disk || (n'.disk.term == n.term && n'.disk.vote == n.vote && n'.disk.log == n.log))
  }

  lemma SameLogStep(c: State, L: Logs, i: nat, n': Node, msgs: set<Message>, h: History)
    requires W(c, L) && i < |c.nodes| && SameVotes(c.hist, h) && SameLog(c.nodes[i], n')
    requires forall m :: m in msgs ==> MsgW(h, L, m)
    ensures W(Update(c, i, n', msgs).(hist := h), L)
  {
    assert NodeW(c.hist, L, |c.nodes|, i, c.nodes[i]) && AllHeld(c, i);
    NodeStep(c, L, L, i, n', msgs, h);
  }

  // ---------------------------------------------------------------- stepping down

  /** The log of a leader's term when the leader may go away: a record only its disk holds is part of it. */
  function Settled(L: Logs, n: Node): Logs {
    if n.role == Leader && Leftover(n) then L[n.term := n.disk.log] else L
  }

  lemma SettledSound(h: History, L: Logs, size: nat, i: nat, n: Node)
    requires HistOk(h, L, size) && NodeW(h, L, size, i, n)
    ensures var L' := Settled(L, n);
            && (L' == L || (n.role == Leader && Extends(L, L', n.term)))
            && LogsGrow(L, L') && Sound(L', n.log) && Sound(L', n.saved) && Sound(L', n.disk.log)
  {
    var L' := Settled(L, n);
    if n.role == Leader && Leftover(n) {
      assert WonOk(h, L, size, n.term);
      assert n.log <= n.disk.log;
      assert Extends(L, L', n.term);
      ExtendedSound(L, L', n.term, n.disk.log);
    }
    SoundGrows(L, L', n.log);
    SoundGrows(L, L', n.saved);
  }

  /** The node becomes or stays a follower, keeping its log. */
  lemma StepDown(c: State, L: Logs, i: nat, t: nat, leader: int, raise: Outcome) returns (L': Logs)
    requires W(c, L) && i < |c.nodes| && t >= c.nodes[i].term
    ensures W(Update(c, i, BecomeFollower(c.nodes[i], t, leader, raise), {}), L')
  {
    var n := c.nodes[i];
    var n' := BecomeFollower(n, t, leader, raise);
    assert NodeW(c.hist, L, |c.nodes|, i, n) && AllHeld(c, i);
    SettledSound(c.hist, L, |c.nodes|, i, n);
    L' := Settled(L, n);
    NodeStep(c, L, L', i, n', {}, c.hist);
    assert Update(c, i, n', {}).(hist := c.hist) == Update(c, i, n', {});
  }

  lemma UpdateTwice(c: State, i: nat, a: Node, b: Node, msgs: set<Message>)
    requires i < |c.nodes|
    ensures Update(Update(c, i, a, {}), i, b, msgs) == Update(c, i, b, msgs)
  {
    assert c.nodes[i := a][i := b] == c.nodes[i := b];
    assert c.net + {} + msgs == c.net + msgs;
  }

  // ---------------------------------------------------------------- elections

  /** One vote, recorded after it reached the disk. */
  lemma GrantHist(h: History, L: Logs, size: nat, i: nat, n: Node, w: nat)
    requires HistOk(h, L, size) && KeepsGrants(h, i, n) && i < size && w < size && (n.term, w) in h.candidacies
    requires n.vote == -1 || n.vote == w
    ensures var h' := h.(granted := h.granted + {(i, n.term, w)}); HistOk(h', L, size) && HistGrows(h, h')
  {
    var h' := h.(granted := h.granted + {(i, n.term, w)});
    forall t | t in h'.elections ensures WonOk(h', L, size, t) {
      assert WonOk(h, L, size, t);
    }
    forall v, s, x | (v, s, x) in h'.granted ensures GrantOk(h', size, v, s, x) {
      if (v, s, x) in h.granted {
        assert GrantOk(h, size, v, s, x);
      } else {
        NewGrantClean(h, L, size, i, n, w);
      }
    }
    assert OneVote(h');
  }

  lemma NewGrantClean(h: History, L: Logs, size: nat, i: nat, n: Node, w: nat)
    requires HistOk(h, L, size) && KeepsGrants(h, i, n) && (n.term, w) in h.candidacies
    ensures GrantClean(h, i, n.term, w)
  {
    var log := h.candidacies[(n.term, w)];
    forall k | 0 <= k < |log| && log[k].term > n.term && log[k].term in h.elections
      ensures i !in h.elections[log[k].term].voters
    {
      if i in h.elections[log[k].term].voters {
        VoterGranted(h, L, size, log[k].term, i);
      }
    }
  }

  lemma VoterGranted(h: History, L: Logs, size: nat, t: nat, v: nat)
    requires HistOk(h, L, size) && t in h.elections && v in h.elections[t].voters
    ensures (v, t, h.elections[t].leader) in h.granted
  {
    assert WonOk(h, L, size, t);
  }

  lemma CandidateGranted(h: History, L: Logs, size: nat, t: nat, i: nat)
    requires HistOk(h, L, size) && (t, i) in h.candidacies
    ensures (i, t, i) in h.granted
  {
    assert h.candidacies[(t, i)] == h.candidacies[(t, i)];
  }

  lemma WinnerStood(h: History, L: Logs, size: nat, t: nat)
    requires HistOk(h, L, size) && t in h.elections
    ensures (t, h.elections[t].leader) in h.candidacies
  {
    assert WonOk(h, L, size, t);
  }

  lemma DecideW(c: State, L: Logs, m: Message, save: Outcome)
    requires W(c, L) && Delivered(c, m) && m.VoteReq? && m.term == c.nodes[m.dst].term && MsgW(c.hist, L, m)
    ensures var (n, reply) := DecideVote(c.nodes[m.dst], m, save);
            var h := if reply.VoteResp? && reply.granted then c.hist.(granted := c.hist.granted + {(m.dst, m.term, m.src)}) else c.hist;
            W(Update(c, m.dst, n, {reply}).(hist := h), L)
  {
    var i, n := m.dst, c.nodes[m.dst];
    var (n', reply) := DecideVote(n, m, save);
    assert NodeW(c.hist, L, |c.nodes|, i, n) && AllHeld(c, i);
    assert KeepsGrants(c.hist, i, n);
    if reply.granted {
      GrantHist(c.hist, L, |c.nodes|, i, n, m.src);
      var d := Update(c, i, n', {reply}).(hist := c.hist.(granted := c.hist.granted + {(i, m.term, m.src)}));
      assert KeepsGrants(c.hist, i, n');
      StepW(c, L, d, L, i);
    } else {
      NodeStep(c, L, L, i, n', {reply}, c.hist);
    }
  }

  lemma VoteReqW(c: State, L: Logs, m: Message, raise: Outcome, save: Outcome) returns (L': Logs)
    requires W(c, L) && Delivered(c, m) && m.VoteReq?
    ensures W(DoVoteReq(c, m, raise, save), L')
  {
    var i, n := m.dst, c.nodes[m.dst];
    assert MsgW(c.hist, L, m);
    var (n', reply) := OnRequestVote(n, m, raise, save);
    L' := L;
    var c1 := c;
    if m.term > n.term {
      L' := StepDown(c, L, i, m.term, -1, raise);
      var n1 := BecomeFollower(n, m.term, -1, raise);
      c1 := Update(c, i, n1, {});
      UpdateTwice(c, i, n1, n', {reply});
      assert MsgW(c1.hist, L', m);
    }
    if m.term < n.term || RaiseFailed(n, m.term, raise) {
      SameLogStep(c1, L', i, n', {reply}, c.hist);
    } else {
      DecideW(c1, L', m, save);
    }
    assert DoVoteReq(c, m, raise, save) == Update(c1, i, n', {reply}).(hist := DoVoteReq(c, m, raise, save).hist);
  }

  lemma NotYetCandidate(h: History, L: Logs, size: nat, i: nat, n: Node)
    requires HistOk(h, L, size) && KeepsGrants(h, i, n)
    ensures (n.term + 1, i) !in h.candidacies && (n.term + 1 in h.elections ==> h.elections[n.term + 1].leader != i)
  {
    var t := n.term + 1;
    if t in h.elections {
      WinnerStood(h, L, size, t);
    }
    if (t, i) in h.candidacies {
      CandidateGranted(h, L, size, t, i);
    }
  }

  lemma CandidacyHist(h: History, L: Logs, size: nat, i: nat, n: Node)
    requires HistOk(h, L, size) && KeepsGrants(h, i, n) && i < size && Sound(L, n.log)
    ensures var t := n.term + 1;
            var h' := h.(candidacies := h.candidacies[(t, i) := n.log], granted := h.granted + {(i, t, i)});
            && (t, i) !in h.candidacies && (t in h.elections ==> h.elections[t].leader != i)
            && HistOk(h', L, size) && HistGrows(h, h')
  {
    var t := n.term + 1;
    var h' := h.(candidacies := h.candidacies[(t, i) := n.log], granted := h.granted + {(i, t, i)});
    NotYetCandidate(h, L, size, i, n);
    forall u | u in h'.elections ensures WonOk(h', L, size, u) {
      assert WonOk(h, L, size, u);
    }
    CandidacyGrants(h, L, size, i, n);
    assert OneVote(h');
  }

  lemma CandidacyGrants(h: History, L: Logs, size: nat, i: nat, n: Node)
    requires HistOk(h, L, size) && KeepsGrants(h, i, n) && i < size && (n.term + 1, i) !in h.candidacies
    ensures var t := n.term + 1;
            var h' := h.(candidacies := h.candidacies[(t, i) := n.log], granted := h.granted + {(i, t, i)});
            forall v, s, x {:trigger GrantOk(h', size, v, s, x)} :: (v, s, x) in h'.granted ==> GrantOk(h', size, v, s, x)
  {
    var t := n.term + 1;
    var h' := h.(candidacies := h.candidacies[(t, i) := n.log], granted := h.granted + {(i, t, i)});
    forall v, s, x | (v, s, x) in h'.granted ensures GrantOk(h', size, v, s, x) {
      if (v, s, x) in h.granted {
        assert GrantOk(h, size, v, s, x);
      } else {
        OwnGrantClean(h, L, size, i, n);
      }
    }
  }

  lemma OwnGrantClean(h: History, L: Logs, size: nat, i: nat, n: Node)
    requires HistOk(h, L, size) && KeepsGrants(h, i, n)
    ensures forall u :: u > n.term && u in h.elections ==> i !in h.elections[u].voters
  {
    forall u | u > n.term && u in h.elections ensures i !in h.elections[u].voters {
      if i in h.elections[u].voters {
        VoterGranted(h, L, size, u, i);
      }
    }
  }

  /** The messages a new candidate sends. */
  lemma CandidateRequests(c: State, L: Logs, i: nat, m: Message)
    requires i < |c.nodes| && c.nodes[i].role != Leader && m in DoTimeout(c, i, Ok).net && m !in c.net
    ensures MsgW(DoTimeout(c, i, Ok).hist, L, m)
  {
  }

  /** The new candidate, beside the record of its candidacy. */
  lemma CandidateNode(h: History, L: Logs, size: nat, i: nat, n: Node)
    requires NodeW(h, L, size, i, n) && i < size && (n.term + 1 in h.elections ==> h.elections[n.term + 1].leader != i) && n.role != Leader
    ensures var h' := h.(candidacies := h.candidacies[(n.term + 1, i) := n.log], granted := h.granted + {(i, n.term + 1, i)});
            NodeW(h', L, size, i, StartElection(n, i, Ok))
  {
  }

  lemma CandidateHeld(c: State, i: nat)
    requires i < |c.nodes| && c.nodes[i].role != Leader && KeepsGrants(c.hist, i, c.nodes[i])
    ensures AllHeld(DoTimeout(c, i, Ok), i)
  {
  }

  lemma CandidateW(c: State, L: Logs, i: nat)
    requires W(c, L) && i < |c.nodes| && c.nodes[i].role != Leader
    ensures W(DoTimeout(c, i, Ok), L)
  {
    var n := c.nodes[i];
    assert NodeW(c.hist, L, |c.nodes|, i, n) && AllHeld(c, i);
    CandidacyHist(c.hist, L, |c.nodes|, i, n);
    CandidateNode(c.hist, L, |c.nodes|, i, n);
    CandidateHeld(c, i);
    CandidateStep(c, L, DoTimeout(c, i, Ok), i);
  }

  lemma CandidateStep(c: State, L: Logs, d: State, i: nat)
    requires W(c, L) && i < |c.nodes| && c.nodes[i].role != Leader && d == DoTimeout(c, i, Ok)
    requires HistOk(d.hist, L, |c.nodes|) && HistGrows(c.hist, d.hist)
    requires NodeW(d.hist, L, |c.nodes|, i, d.nodes[i]) && AllHeld(d, i)
    ensures W(d, L)
  {
    forall m | m in d.net && m !in c.net ensures MsgW(d.hist, L, m) {
      CandidateRequests(c, L, i, m);
    }
    StepW(c, L, d, L, i);
  }

  lemma TimeoutW(c: State, L: Logs, i: nat, save: Outcome)
    requires W(c, L) && i < |c.nodes| && c.nodes[i].role != Leader
    ensures W(DoTimeout(c, i, save), L)
  {
    if save == Ok {
      CandidateW(c, L, i);
    } else {
      var n' := StartElection(c.nodes[i], i, save);
      assert NodeW(c.hist, L, |c.nodes|, i, c.nodes[i]) && AllHeld(c, i);
      NodeStep(c, L, L, i, n', {}, c.hist);
      assert Update(c, i, n', {}).(hist := c.hist) == DoTimeout(c, i, save);
    }
  }

  lemma SoundOrdered(h: History, L: Logs, size: nat, log: Log, j: nat, k: nat)
    requires HistOk(h, L, size) && Sound(L, log) && j <= k < |log|
    ensures log[j].term <= log[k].term
  {
    if j < k {
      assert SoundAt(L, log, k);
      var t := log[k].term;
      assert WonOk(h, L, size, t);
      assert log[j] == L[t][j] && log[k] == L[t][k];
    }
  }

  /** A candidate with a majority is the first winner of its term and knows of no later term. */
  lemma FirstWinner(c: State, L: Logs, i: nat)
    requires W(c, L) && i < |c.nodes| && c.nodes[i].role == Candidate && |c.nodes[i].votes| >= Quorum(|c.nodes|)
    ensures c.nodes[i].term !in c.hist.elections
    ensures forall k :: 0 <= k < |c.nodes[i].log| ==> c.nodes[i].log[k].term < c.nodes[i].term
  {
    var n, h := c.nodes[i], c.hist;
    assert NodeW(h, L, |c.nodes|, i, n);
    if n.term in h.elections {
      OneWinner(h, L, |c.nodes|, n.term, i, n.votes);
    }
    forall k | 0 <= k < |n.log| ensures n.log[k].term < n.term {
      if k > 0 {
        assert SoundAt(L, n.log, k);
        KnowsNoLater(h, L, |c.nodes|, n.term, i, n.votes, k);
      }
    }
  }

  /** A majority of votes for i in a term that was won makes i the winner. */
  lemma OneWinner(h: History, L: Logs, size: nat, t: nat, i: nat, votes: set<nat>)
    requires HistOk(h, L, size) && t in h.elections && votes <= Ids(size) && |votes| >= Quorum(size)
    requires forall v :: v in votes ==> (v, t, i) in h.granted
    ensures h.elections[t].leader == i
  {
    assert WonOk(h, L, size, t);
    var v := QuorumsMeet(size, votes, h.elections[t].voters);
    assert (v, t, i) in h.granted && (v, t, h.elections[t].leader) in h.granted;
  }

  /** A candidate with a majority has no record of a later term. */
  lemma KnowsNoLater(h: History, L: Logs, size: nat, s: nat, w: nat, votes: set<nat>, k: nat)
    requires HistOk(h, L, size) && (s, w) in h.candidacies && votes <= Ids(size) && |votes| >= Quorum(size)
    requires forall v :: v in votes ==> (v, s, w) in h.granted
    requires 0 < k < |h.candidacies[(s, w)]| && h.candidacies[(s, w)][k].term in h.elections
    ensures h.candidacies[(s, w)][k].term <= s
  {
    var u := h.candidacies[(s, w)][k].term;
    assert WonOk(h, L, size, u);
    var v := QuorumsMeet(size, votes, h.elections[u].voters);
    assert GrantOk(h, size, v, s, w);
  }

  /** What Win(i) finds, by FirstWinner. */
  ghost predicate Winning(c: State, L: Logs, i: nat) {
    && W(c, L) && i < |c.nodes| && c.nodes[i].role == Candidate && |c.nodes[i].votes| >= Quorum(|c.nodes|)
    && c.nodes[i].term !in c.hist.elections
    && forall k :: 0 <= k < |c.nodes[i].log| ==> c.nodes[i].log[k].term < c.nodes[i].term
  }

  lemma WinElections(c: State, L: Logs, i: nat, t: nat)
    requires Winning(c, L, i) && t in DoWin(c, i).hist.elections
    ensures WonOk(DoWin(c, i).hist, L[c.nodes[i].term := c.nodes[i].log], |c.nodes|, t)
  {
    var L' := L[c.nodes[i].term := c.nodes[i].log];
    if t == c.nodes[i].term {
      NewWinner(c, L, i);
    } else {
      assert WonOk(c.hist, L, |c.nodes|, t);
      OldWinner(c.hist, DoWin(c, i).hist, L, L', |c.nodes|, t);
    }
  }

  lemma WinGrants(c: State, L: Logs, i: nat, v: nat, s: nat, w: nat)
    requires Winning(c, L, i) && (v, s, w) in c.hist.granted
    ensures GrantOk(DoWin(c, i).hist, |c.nodes|, v, s, w)
  {
    assert NodeW(c.hist, L, |c.nodes|, i, c.nodes[i]);
    WinKeepsClean(c.hist, L, |c.nodes|, DoWin(c, i).hist, c.nodes[i].term, v, s, w);
  }

  lemma WinHist(c: State, L: Logs, i: nat)
    requires Winning(c, L, i)
    ensures var n := c.nodes[i];
            HistOk(DoWin(c, i).hist, L[n.term := n.log], |c.nodes|) && HistGrows(c.hist, DoWin(c, i).hist)
            && LogsGrow(L, L[n.term := n.log])
  {
    WinRecords(c, L, i);
    WinCandidacies(c, L, i);
    WinGrows(c, L, i);
  }

  lemma WinGrows(c: State, L: Logs, i: nat)
    requires i < |c.nodes| && c.nodes[i].term !in c.hist.elections && HistOk(c.hist, L, |c.nodes|)
    ensures var h, h' := c.hist, DoWin(c, i).hist;
            && HistGrows(h, h') && h'.granted == h.granted && h'.candidacies == h.candidacies
            && L[c.nodes[i].term := c.nodes[i].log].Keys == h'.elections.Keys
  {
  }

  lemma WinRecords(c: State, L: Logs, i: nat)
    requires Winning(c, L, i)
    ensures var h', L' := DoWin(c, i).hist, L[c.nodes[i].term := c.nodes[i].log];
            && (forall t {:trigger WonOk(h', L', |c.nodes|, t)} :: t in h'.elections ==> WonOk(h', L', |c.nodes|, t))
            && (forall v, s, w {:trigger GrantOk(h', |c.nodes|, v, s, w)} :: (v, s, w) in h'.granted ==> GrantOk(h', |c.nodes|, v, s, w))
  {
    var h', L' := DoWin(c, i).hist, L[c.nodes[i].term := c.nodes[i].log];
    forall t | t in h'.elections ensures WonOk(h', L', |c.nodes|, t) {
      WinElections(c, L, i, t);
    }
    forall v, s, w | (v, s, w) in h'.granted ensures GrantOk(h', |c.nodes|, v, s, w) {
      WinGrants(c, L, i, v, s, w);
    }
  }

  lemma WinCandidacies(c: State, L: Logs, i: nat)
    requires Winning(c, L, i)
    ensures var h, L' := c.hist, L[c.nodes[i].term := c.nodes[i].log];
            LogsGrow(L, L') && forall x :: x in h.candidacies ==> Sound(L', h.candidacies[x])
  {
    var h, L' := c.hist, L[c.nodes[i].term := c.nodes[i].log];
    assert c.nodes[i].term !in L;
    forall x | x in h.candidacies ensures Sound(L', h.candidacies[x]) {
      SoundGrows(L, L', h.candidacies[x]);
    }
  }

  lemma OldWinner(h: History, h': History, L: Logs, L': Logs, size: nat, t: nat)
    requires t in h.elections && WonOk(h, L, size, t) && LogsGrow(L, L') && t in h'.elections && L'[t] == L[t]
    requires h'.elections[t] == h.elections[t] && h.granted <= h'.granted && h'.candidacies == h.candidacies
    ensures WonOk(h', L', size, t)
  {
    SoundGrows(L, L', L[t]);
  }

  lemma NewWinner(c: State, L: Logs, i: nat)
    requires Winning(c, L, i)
    ensures WonOk(DoWin(c, i).hist, L[c.nodes[i].term := c.nodes[i].log], |c.nodes|, c.nodes[i].term)
  {
    var n := c.nodes[i];
    assert NodeW(c.hist, L, |c.nodes|, i, n);
    SoundGrows(L, L[n.term := n.log], n.log);
    forall j, k | 0 <= j < k < |n.log| ensures n.log[j].term <= n.log[k].term {
      SoundOrdered(c.hist, L, |c.nodes|, n.log, j, k);
    }
  }

  lemma WinKeepsClean(h: History, L: Logs, size: nat, h': History, t: nat, v: nat, s: nat, w: nat)
    requires HistOk(h, L, size) && (v, s, w) in h.granted && h'.candidacies == h.candidacies && t !in h.elections && t >= 1
    requires forall u :: u in h'.elections && u != t ==> u in h.elections && h'.elections[u] == h.elections[u]
    ensures GrantOk(h', size, v, s, w)
  {
    assert GrantOk(h, size, v, s, w);
    var log := h.candidacies[(s, w)];
    forall k | 0 <= k < |log| ensures log[k].term != t {
      assert k > 0 ==> SoundAt(L, log, k);
    }
  }

  lemma WinW(c: State, L: Logs, i: nat)
    requires W(c, L) && Enabled(c, Win(i))
    ensures W(DoWin(c, i), L[c.nodes[i].term := c.nodes[i].log])
  {
    var n := c.nodes[i];
    var L' := L[n.term := n.log];
    assert NodeW(c.hist, L, |c.nodes|, i, n) && AllHeld(c, i);
    FirstWinner(c, L, i);
    WinHist(c, L, i);
    SoundGrows(L, L', n.log);
    SoundGrows(L, L', n.saved);
    StepW(c, L, DoWin(c, i), L', i);
  }

  // ---------------------------------------------------------------- the leader

  lemma ProposeW(c: State, L: Logs, i: nat, command: string, save: Outcome) returns (L': Logs)
    requires W(c, L) && Enabled(c, Propose(i, command, save))
    ensures W(DoPropose(c, i, command, save), L')
  {
    var n := c.nodes[i];
    var n' := AppendLocal(n, i, command, save);
    var h := SetLeaderLog(c.hist, n.term, n'.log);
    L' := L[n.term := n'.log];
    assert NodeW(c.hist, L, |c.nodes|, i, n) && AllHeld(c, i);
    ProposeNode(c.hist, L, |c.nodes|, i, n, command, save);
    NodeStep(c, L, L', i, n', {}, h);
    assert Update(c, i, n', {}).(hist := h) == DoPropose(c, i, command, save);
  }

  lemma ProposeNode(h: History, L: Logs, size: nat, i: nat, n: Node, command: string, save: Outcome)
    requires HistOk(h, L, size) && NodeW(h, L, size, i, n) && n.role == Leader
    ensures var n' := AppendLocal(n, i, command, save);
            var h', L' := SetLeaderLog(h, n.term, n'.log), L[n.term := n'.log];
            Extends(L, L', n.term) && SameVotes(h, h') && NodeW(h', L', size, i, n')
  {
    var n' := AppendLocal(n, i, command, save);
    var L' := L[n.term := n'.log];
    assert WonOk(h, L, size, n.term);
    ExtendedSound(L, L', n.term, n'.log);
    SoundGrows(L, L', n.saved);
  }

  lemma SendW(c: State, L: Logs, i: nat, p: nat, newest: bool)
    requires W(c, L) && Enabled(c, Send(i, p, newest))
    ensures W(DoSend(c, i, p, newest), L)
  {
    var n := c.nodes[i];
    assert NodeW(c.hist, L, |c.nodes|, i, n);
    if !NeedsSnapshot(n, p) {
      assert MsgW(c.hist, L, BuildAppend(n, i, p));
      SameLogStep(c, L, i, n, {BuildAppend(n, i, p)}, c.hist);
    } else if n.snap != 0 {
      var snapshot := SnapshotToSend(n, newest);
      if snapshot != n.saved {
        SoundPrefix(L, n.log, snapshot);
      }
      SameLogStep(c, L, i, n, {SnapReq(i, p, n.term, snapshot)}, c.hist);
    }
  }

  /** A reply to the leader: it steps down, or changes nothing W looks at. */
  lemma ResponseW(c: State, L: Logs, i: nat, t: nat, raise: Outcome, n': Node) returns (L': Logs)
    requires W(c, L) && i < |c.nodes|
    requires if t > c.nodes[i].term then n' == BecomeFollower(c.nodes[i], t, -1, raise) else SameLog(c.nodes[i], n')
    ensures W(Update(c, i, n', {}), L')
  {
    if t > c.nodes[i].term {
      L' := StepDown(c, L, i, t, -1, raise);
    } else {
      L' := L;
      SameLogStep(c, L, i, n', {}, c.hist);
      assert Update(c, i, n', {}).(hist := c.hist) == Update(c, i, n', {});
    }
  }

  lemma VoteRespW(c: State, L: Logs, m: Message, raise: Outcome) returns (L': Logs)
    requires W(c, L) && Delivered(c, m) && m.VoteResp?
    ensures W(Update(c, m.dst, OnVoteResponse(c.nodes[m.dst], m, raise), {}), L')
  {
    var i, n := m.dst, c.nodes[m.dst];
    var n' := OnVoteResponse(n, m, raise);
    if m.term > n.term {
      L' := StepDown(c, L, i, m.term, -1, raise);
    } else {
      L' := L;
      assert NodeW(c.hist, L, |c.nodes|, i, n) && AllHeld(c, i) && MsgW(c.hist, L, m);
      NodeStep(c, L, L, i, n', {}, c.hist);
      assert Update(c, i, n', {}).(hist := c.hist) == Update(c, i, n', {});
    }
  }

  // ---------------------------------------------------------------- the follower

  /** What an accepted append may leave in memory and on disk. */
  predicate Merged(n: Node, n': Node, log: Log) {
    && n'.role == n.role && n'.term == n.term && n'.vote == n.vote && n'.saved == n.saved && n'.votes == n.votes
    && (n'.log == n.log || n'.log == log)
    && (n'.disk == n.disk || (n'.disk.term == n.term && n'.disk.vote == n.vote && (n'.disk.log == n.log || n'.disk.log == log)))
  }

  lemma AcceptShape(n: Node, m: Message, save: Outcome, commitSave: Outcome)
    requires m.AppendReq? && PrevMatches(n, m)
    ensures Merged(n, AcceptAppend(n, m, save, commitSave).0, Merge(n.log, m.prevIndex + 1, m.entries))
    ensures AcceptAppend(n, m, save, commitSave).1.AppendResp?
  {
  }

  lemma AcceptW(c: State, L: Logs, m: Message, save: Outcome, commitSave: Outcome, h: History)
    requires W(c, L) && Delivered(c, m) && m.AppendReq? && c.nodes[m.dst].role == Follower && PrevMatches(c.nodes[m.dst], m)
    requires SameVotes(c.hist, h)
    ensures var (n, reply) := AcceptAppend(c.nodes[m.dst], m, save, commitSave);
            W(Update(c, m.dst, n, {reply}).(hist := h), L)
  {
    var i, n := m.dst, c.nodes[m.dst];
    var (n', reply) := AcceptAppend(n, m, save, commitSave);
    assert NodeW(c.hist, L, |c.nodes|, i, n) && AllHeld(c, i) && MsgW(c.hist, L, m) && WonOk(c.hist, L, |c.nodes|, m.term);
    SoundMerge(L, n.log, L[m.term], m.prevIndex, |m.entries|);
    AcceptShape(n, m, save, commitSave);
    NodeStep(c, L, L, i, n', {reply}, h);
  }

  lemma AckSame(h: History, who: nat, t: nat, idx: nat)
    ensures SameVotes(h, Ack(h, who, t, idx)) && SameVotes(h, h)
  {
  }

  /** Follow the sender first, then handle the request. */
  lemma Followed(c: State, L: Logs, i: nat, t: nat, leader: nat, raise: Outcome) returns (L': Logs, c1: State)
    requires W(c, L) && i < |c.nodes| && t >= c.nodes[i].term
    ensures c1 == Update(c, i, BecomeFollower(c.nodes[i], t, leader, raise), {}) && W(c1, L') && c1.nodes[i].role == Follower
    ensures forall n, msgs :: Update(c1, i, n, msgs) == Update(c, i, n, msgs)
  {
    var n1 := BecomeFollower(c.nodes[i], t, leader, raise);
    L' := StepDown(c, L, i, t, leader, raise);
    c1 := Update(c, i, n1, {});
    forall n, msgs ensures Update(c1, i, n, msgs) == Update(c, i, n, msgs) {
      UpdateTwice(c, i, n1, n, msgs);
    }
  }

  lemma AppendReqW(c: State, L: Logs, m: Message, raise: Outcome, save: Outcome, commitSave: Outcome) returns (L': Logs)
    requires W(c, L) && Delivered(c, m) && m.AppendReq?
    ensures W(DoAppendReq(c, m, raise, save, commitSave), L')
  {
    var i, n := m.dst, c.nodes[m.dst];
    var (n', reply) := OnAppendEntries(n, m, raise, save, commitSave);
    var h := DoAppendReq(c, m, raise, save, commitSave).hist;
    AckSame(c.hist, m.dst, m.term, reply.matchIndex);
    assert DoAppendReq(c, m, raise, save, commitSave) == Update(c, i, n', {reply}).(hist := h);
    if m.term < n.term {
      L' := L;
      SameLogStep(c, L, i, n', {reply}, h);
    } else {
      var c1: State;
      L', c1 := Followed(c, L, i, m.term, m.src, raise);
      if RaiseFailed(n, m.term, raise) || !PrevMatches(c1.nodes[i], m) {
        SameLogStep(c1, L', i, n', {reply}, h);
      } else {
        AcceptW(c1, L', m, save, commitSave, h);
      }
    }
  }

  lemma SnapBeginW(c: State, L: Logs, m: Message, raise: Outcome) returns (L': Logs)
    requires W(c, L) && Delivered(c, m) && m.SnapReq?
    ensures W(DoSnapBegin(c, m, raise), L')
  {
    var i, n := m.dst, c.nodes[m.dst];
    var (n', replies) := SnapshotBegin(n, m, raise);
    var h := DoSnapBegin(c, m, raise).hist;
    AckSame(c.hist, m.dst, m.term, LastIndex(m.snapshot));
    assert DoSnapBegin(c, m, raise) == Update(c, i, n', replies).(hist := h);
    assert forall r :: r in replies ==> Harmless(r);
    if m.term < n.term {
      L' := L;
      Replies(h, L, replies);
      SameLogStep(c, L, i, n', replies, h);
    } else {
      var c1: State;
      L', c1 := Followed(c, L, i, m.term, m.src, raise);
      Replies(h, L', replies);
      SameLogStep(c1, L', i, n', replies, h);
    }
  }

  lemma SaveW(c: State, L: Logs, i: nat, snapshot: Log)
    requires W(c, L) && i < |c.nodes| && Sound(L, snapshot)
    ensures W(Update(c, i, SaveSnapshot(c.nodes[i], snapshot), {}), L)
  {
    var n' := SaveSnapshot(c.nodes[i], snapshot);
    assert NodeW(c.hist, L, |c.nodes|, i, c.nodes[i]) && AllHeld(c, i);
    NodeStep(c, L, L, i, n', {}, c.hist);
    assert Update(c, i, n', {}).(hist := c.hist) == Update(c, i, n', {});
  }

  lemma InstallW(c: State, L: Logs, m: Message, save: Outcome)
    requires W(c, L) && Enabled(c, SnapInstall(m, save))
    ensures W(DoSnapInstall(c, m, save), L)
  {
    var i, n := m.dst, c.nodes[m.dst];
    var (n', reply) := SnapshotInstall(n, m, save);
    var h := DoSnapInstall(c, m, save).hist;
    AckSame(c.hist, m.dst, m.term, LastIndex(m.snapshot));
    assert NodeW(c.hist, L, |c.nodes|, i, n) && AllHeld(c, i) && MsgW(c.hist, L, m);
    SoundRestore(L, n.log, m.snapshot);
    NodeStep(c, L, L, i, n', {reply}, h);
    assert DoSnapInstall(c, m, save) == Update(c, i, n', {reply}).(hist := h);
  }

  lemma CrashW(c: State, L: Logs, i: nat, resaved: bool) returns (L': Logs)
    requires W(c, L) && i < |c.nodes|
    ensures W(DoCrash(c, i, resaved), L')
  {
    var n := c.nodes[i];
    var n' := Restart(n, resaved);
    var h := DoCrash(c, i, resaved).hist;
    assert NodeW(c.hist, L, |c.nodes|, i, n) && AllHeld(c, i);
    SettledSound(c.hist, L, |c.nodes|, i, n);
    L' := Settled(L, n);
    SoundRestore(L', n.disk.log, n.saved);
    NodeStep(c, L, L', i, n', {}, h);
    assert DoCrash(c, i, resaved) == Update(c, i, n', {}).(hist := h);
  }

  // ---------------------------------------------------------------- every run

  lemma InitW(size: nat)
    ensures W(Init(size), map[])
  {
    var c := Init(size);
    forall i | 0 <= i < |c.nodes| ensures NodeW(c.hist, map[], |c.nodes|, i, c.nodes[i]) {
      assert c.nodes[i] == InitNode();
    }
  }

  lemma LocalW(c: State, s: Step, L: Logs) returns (L': Logs)
    requires W(c, L) && Enabled(c, s)
    requires s.Timeout? || s.Win? || s.Propose? || s.Send? || s.Advance? || s.Crash?
    ensures W(Do(c, s), L')
  {
    L' := L;
    match s
    case Timeout(i, save) => TimeoutW(c, L, i, save);
    case Win(i) =>
      WinW(c, L, i);
      L' := L[c.nodes[i].term := c.nodes[i].log];
    case Propose(i, command, save) => L' := ProposeW(c, L, i, command, save);
    case Send(i, p, newest) => SendW(c, L, i, p, newest);
    case Advance(i, save) => L' := ResponseW(c, L, i, 0, Ok, AdvanceCommit(c.nodes[i], i, |c.nodes|, save));
    case Crash(i, resaved) => L' := CrashW(c, L, i, resaved);
  }

  lemma SavingW(c: State, s: Step, L: Logs) returns (L': Logs)
    requires W(c, L) && Enabled(c, s) && (s.LocalSnapshot? || s.LocalCompact? || s.Flush?)
    ensures W(Do(c, s), L')
  {
    L' := L;
    match s
    case LocalSnapshot(i, k) =>
      OwnPrefixSound(c, L, i, k);
      SaveW(c, L, i, c.nodes[i].log[..k + 1]);
    case LocalCompact(i, k, save) => L' := ResponseW(c, L, i, 0, Ok, Compact(c.nodes[i], k, save));
    case Flush(i) => L' := ResponseW(c, L, i, 0, Ok, c.nodes[i].(disk := DiskOf(c.nodes[i])));
  }

  lemma ReceiveW(c: State, s: Step, L: Logs) returns (L': Logs)
    requires W(c, L) && Enabled(c, s)
    requires s.RecvVoteReq? || s.RecvVoteResp? || s.RecvAppendReq? || s.RecvAppendResp? || s.SnapBegin? || s.SnapSave?
             || s.SnapInstall? || s.SnapFail? || s.RecvSnapResp?
    ensures W(Do(c, s), L')
  {
    L' := L;
    match s
    case RecvVoteReq(m, raise, save) => L' := VoteReqW(c, L, m, raise, save);
    case RecvVoteResp(m, raise) => L' := VoteRespW(c, L, m, raise);
    case RecvAppendReq(m, raise, save, commitSave) => L' := AppendReqW(c, L, m, raise, save, commitSave);
    case RecvAppendResp(m, raise, save) =>
      L' := ResponseW(c, L, m.dst, m.term, raise, OnAppendResponse(c.nodes[m.dst], m.dst, |c.nodes|, m, raise, save));
    case SnapBegin(m, raise) => L' := SnapBeginW(c, L, m, raise);
    case SnapSave(m) =>
      assert MsgW(c.hist, L, m);
      SaveW(c, L, m.dst, m.snapshot);
    case SnapInstall(m, save) => InstallW(c, L, m, save);
    case SnapFail(m) => FailW(c, L, m);
    case RecvSnapResp(m, raise) => L' := ResponseW(c, L, m.dst, m.term, raise, OnSnapResponse(c.nodes[m.dst], m, raise));
  }

  lemma AnyStep(c: State, s: Step, L: Logs) returns (L': Logs)
    requires W(c, L)
    ensures W(Do(c, s), L')
  {
    if !Enabled(c, s) {
      L' := L;
    } else if s.RecvVoteReq? || s.RecvVoteResp? || s.RecvAppendReq? || s.RecvAppendResp? || s.SnapBegin? || s.SnapSave?
              || s.SnapInstall? || s.SnapFail? || s.RecvSnapResp? {
      L' := ReceiveW(c, s, L);
    } else if s.LocalSnapshot? || s.LocalCompact? || s.Flush? {
      L' := SavingW(c, s, L);
    } else {
      L' := LocalW(c, s, L);
    }
  }

  lemma FailW(c: State, L: Logs, m: Message)
    requires W(c, L) && Enabled(c, SnapFail(m))
    ensures W(Do(c, SnapFail(m)), L)
  {
    var n := c.nodes[m.dst];
    var reply := SnapResp(m.dst, m.src, m.term, n.term, false, LastIndex(n.log), LastIndex(m.snapshot));
    SameLogStep(c, L, m.dst, n, {reply}, c.hist);
    assert Do(c, SnapFail(m)) == Update(c, m.dst, n, {reply}).(hist := c.hist);
  }

  lemma OwnPrefixSound(c: State, L: Logs, i: nat, k: nat)
    requires W(c, L) && i < |c.nodes| && k < |c.nodes[i].log|
    ensures Sound(L, c.nodes[i].log[..k + 1])
  {
    assert NodeW(c.hist, L, |c.nodes|, i, c.nodes[i]);
    SoundPrefix(L, c.nodes[i].log, c.nodes[i].log[..k + 1]);
  }

  lemma {:induction false} AnyRun(size: nat, steps: seq<Step>) returns (L: Logs)
    ensures W(Exec(size, steps), L)
  {
    if steps == [] {
      InitW(size);
      L := map[];
    } else {
      var front := steps[..|steps| - 1];
      L := AnyRun(size, front);
      L := AnyStep(Exec(size, front), steps[|steps| - 1], L);
    }
  }

  lemma WinnersStay(c: State, s: Step, L: Logs, t: nat)
    requires W(c, L) && t in c.hist.elections
    ensures t in Do(c, s).hist.elections && Do(c, s).hist.elections[t].leader == c.hist.elections[t].leader
  {
    if s.Win? && Enabled(c, s) {
      FirstWinner(c, L, s.i);
    }
  }

  lemma {:induction false} WinnersStayOn(size: nat, steps: seq<Step>, a: nat, b: nat, t: nat)
    requires a <= b <= |steps| && t in Exec(size, steps[..a]).hist.elections
    ensures t in Exec(size, steps[..b]).hist.elections
    ensures Exec(size, steps[..b]).hist.elections[t].leader == Exec(size, steps[..a]).hist.elections[t].leader
    decreases b - a
  {
    if a < b {
      WinnersStayOn(size, steps, a, b - 1, t);
      var L := AnyRun(size, steps[..b - 1]);
      WinnersStay(Exec(size, steps[..b - 1]), steps[b - 1], L, t);
      LastStep(size, steps, b);
    }
  }

  lemma LastStep(size: nat, steps: seq<Step>, b: nat)
    requires 0 < b <= |steps|
    ensures Exec(size, steps[..b]) == Do(Exec(size, steps[..b - 1]), steps[b - 1])
  {
    assert steps[..b][..b - 1] == steps[..b - 1];
  }

  // ---------------------------------------------------------------- the theorems

  lemma LeaderWon(c: State, L: Logs, i: nat)
    requires W(c, L) && i < |c.nodes| && c.nodes[i].role == Leader
    ensures c.nodes[i].term in c.hist.elections && c.hist.elections[c.nodes[i].term].leader == i
  {
    assert NodeW(c.hist, L, |c.nodes|, i, c.nodes[i]);
  }

  /** At most one node is ever leader in a given term, in every run: whatever persists fail and whoever restarts. */
  lemma ElectionSafety(size: nat, steps: seq<Step>, a: nat, b: nat, i: nat, j: nat)
    requires a <= b <= |steps|
    requires i < |Exec(size, steps[..a]).nodes| && Exec(size, steps[..a]).nodes[i].role == Leader
    requires j < |Exec(size, steps[..b]).nodes| && Exec(size, steps[..b]).nodes[j].role == Leader
    requires Exec(size, steps[..a]).nodes[i].term == Exec(size, steps[..b]).nodes[j].term
    ensures i == j
  {
    var L := AnyRun(size, steps[..a]);
    LeaderWon(Exec(size, steps[..a]), L, i);
    var L' := AnyRun(size, steps[..b]);
    LeaderWon(Exec(size, steps[..b]), L', j);
    WinnersStayOn(size, steps, a, b, Exec(size, steps[..a]).nodes[i].term);
  }

  lemma LogsMatch(c: State, L: Logs, i: nat, j: nat, k: nat)
    requires W(c, L) && i < |c.nodes| && j < |c.nodes| && k < |c.nodes[i].log| && k < |c.nodes[j].log|
    requires c.nodes[i].log[k].term == c.nodes[j].log[k].term
    ensures c.nodes[i].log[..k + 1] == c.nodes[j].log[..k + 1]
    ensures forall x :: 0 <= x <= k ==> c.nodes[i].log[x].term <= c.nodes[i].log[k].term
  {
    assert NodeW(c.hist, L, |c.nodes|, i, c.nodes[i]) && NodeW(c.hist, L, |c.nodes|, j, c.nodes[j]);
    SoundMatch(L, c.nodes[i].log, c.nodes[j].log, k);
    forall x | 0 <= x <= k ensures c.nodes[i].log[x].term <= c.nodes[i].log[k].term {
      SoundOrdered(c.hist, L, |c.nodes|, c.nodes[i].log, x, k);
    }
  }

  /** In every run, two logs with the same term at an index are equal up to it, and terms never decrease. */
  lemma LogMatching(size: nat, steps: seq<Step>, i: nat, j: nat, k: nat)
    requires i < |Exec(size, steps).nodes| && j < |Exec(size, steps).nodes|
    requires k < |Exec(size, steps).nodes[i].log| && k < |Exec(size, steps).nodes[j].log|
    requires Exec(size, steps).nodes[i].log[k].term == Exec(size, steps).nodes[j].log[k].term
    ensures Exec(size, steps).nodes[i].log[..k + 1] == Exec(size, steps).nodes[j].log[..k + 1]
    ensures forall x :: 0 <= x <= k ==>
              Exec(size, steps).nodes[i].log[x].term <= Exec(size, steps).nodes[i].log[k].term
  {
    var L := AnyRun(size, steps);
    LogsMatch(Exec(size, steps), L, i, j, k);
  }
}
