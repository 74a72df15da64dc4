/**
  Sending a snapshot in two parts. The leader's term and marker are read under the lock; the catalog is read later, without it, and
  if the marker's snapshot is gone the newest one is sent. A node that has moved to a newer term in between may send a newer snapshot
  under its old term. What holds as long as it still leads, and what fails otherwise.
 */
module LateSend {
  import opened RaftLog
  import opened Protocol
  import opened Cluster
  import opened Invariant
  import opened Frame
  import opened StepBase
  import opened StepFollow
  import opened Safety
  import A = AllRuns
  import ML = MetaLoss

  /** Happens: a step. Captures: node i reads its term and marker to send p a snapshot. Sends: it goes out, or the newest one does. */
  datatype Event = Happens(s: Step) | Captures(i: nat, p: nat) | Sends(m: Message, newest: bool)

  /** `captured` holds the requests as they were captured. */
  datatype World = World(c: State, captured: set<Message>)

  function Captured(c: State, i: nat, p: nat): set<Message> {
    if i < |c.nodes| && p < |c.nodes| && p != i && c.nodes[i].role == Leader && NeedsSnapshot(c.nodes[i], p) && c.nodes[i].snap != 0
    then {SnapReq(i, p, c.nodes[i].term, SnapshotToSend(c.nodes[i], false))} else {}
  }

  function Outgoing(c: State, m: Message, newest: bool): Message
    requires m.SnapReq? && m.src < |c.nodes|
  {
    if newest then SnapReq(m.src, m.dst, m.term, c.nodes[m.src].saved) else m
  }

  predicate CanSend(w: World, m: Message) { m in w.captured && m.SnapReq? && m.src < |w.c.nodes| && m.dst < |w.c.nodes| }

  function React(w: World, e: Event): World {
    match e
    case Happens(s) => w.(c := Do(w.c, s))
    case Captures(i, p) => w.(captured := w.captured + Captured(w.c, i, p))
    case Sends(m, newest) => if CanSend(w, m) then w.(c := w.c.(net := w.c.net + {Outgoing(w.c, m, newest)})) else w
  }

  function Trace(size: nat, es: seq<Event>): World {
    if es == [] then World(Init(size), {}) else React(Trace(size, es[..|es| - 1]), es[|es| - 1])
  }

  /** No raised term is lost, and the newest snapshot is only sent by a node that still leads the captured term. */
  predicate InTime(w: World, e: Event) {
    && (e.Happens? ==> TermPersisted(e.s))
    && (e.Sends? && e.newest && CanSend(w, e.m) ==> w.c.nodes[e.m.src].role == Leader && w.c.nodes[e.m.src].term == e.m.term)
  }

  /** The runs considered: with late sends, or without. */
  predicate Allowed(late: bool, size: nat, es: seq<Event>) {
    es == []
    || (Allowed(late, size, es[..|es| - 1])
        && (if late then es[|es| - 1].Happens? ==> TermPersisted(es[|es| - 1].s) else InTime(Trace(size, es[..|es| - 1]), es[|es| - 1])))
  }

  // ---------------------------------------------------------------- without late sends

  /** The state with the captured requests on their way already. */
  function Whole(w: World): State { w.c.(net := w.c.net + w.captured) }

  lemma MoreMessages(c: State, extra: set<Message>, s: Step)
    requires Enabled(c, s)
    ensures var d, d' := Do(c, s), Do(c.(net := c.net + extra), s);
            d'.nodes == d.nodes && d'.hist == d.hist && d'.net == d.net + extra
  {
    if Local(s) {
      if s.Timeout? || s.Send? || s.Win? {
        MoreSent(c, extra, s);
      } else {
        MoreLocal(c, extra, s);
      }
    } else {
      MoreReceived(c, extra, s);
    }
  }

  lemma MoreSent(c: State, extra: set<Message>, s: Step)
    requires Enabled(c, s) && (s.Timeout? || s.Send? || s.Win?)
    ensures var d, d' := Do(c, s), Do(c.(net := c.net + extra), s);
            d'.nodes == d.nodes && d'.hist == d.hist && d'.net == d.net + extra
  {
    assert Enabled(c.(net := c.net + extra), s);
  }

  lemma MoreLocal(c: State, extra: set<Message>, s: Step)
    requires Enabled(c, s) && Local(s) && !s.Timeout? && !s.Send? && !s.Win?
    ensures var d, d' := Do(c, s), Do(c.(net := c.net + extra), s);
            d'.nodes == d.nodes && d'.hist == d.hist && d'.net == d.net + extra
  {
    assert Enabled(c.(net := c.net + extra), s);
  }

  lemma MoreReceived(c: State, extra: set<Message>, s: Step)
    requires Enabled(c, s) && !Local(s)
    ensures var d, d' := Do(c, s), Do(c.(net := c.net + extra), s);
            d'.nodes == d.nodes && d'.hist == d.hist && d'.net == d.net + extra
  {
    assert Enabled(c.(net := c.net + extra), s);
  }

  lemma WholeStep(w: World, s: Step)
    requires Enabled(w.c, s)
    ensures Whole(w.(c := Do(w.c, s))) == Do(Whole(w), s)
  {
    MoreMessages(w.c, w.captured, s);
  }

  lemma CaptureStep(w: World, i: nat, p: nat)
    requires Inv(Whole(w))
    ensures Inv(Whole(React(w, Captures(i, p)))) && Grows(Whole(w), Whole(React(w, Captures(i, p))))
  {
    var c := Whole(w);
    if Captured(w.c, i, p) != {} {
      StepInv(c, Send(i, p, false));
      StepGrows(c, Send(i, p, false));
      assert c.nodes[i := c.nodes[i]] == c.nodes;
      assert Do(c, Send(i, p, false)) == Whole(React(w, Captures(i, p)));
    } else {
      assert w.captured + {} == w.captured;
      assert React(w, Captures(i, p)) == w;
    }
  }

  lemma SnapshotInOrder(c: State, i: nat, p: nat)
    requires Inv(c) && i < |c.nodes| && p < |c.nodes| && p != i && c.nodes[i].role == Leader
    ensures MsgOk(c, SnapReq(i, p, c.nodes[i].term, c.nodes[i].saved))
  {
    assert NodeOk(c, i);
    SavedInLeader(c, c.nodes[i]);
  }

  lemma SendOut(w: World, m: Message, newest: bool)
    requires Inv(Whole(w)) && InTime(w, Sends(m, newest))
    ensures Inv(Whole(React(w, Sends(m, newest)))) && Grows(Whole(w), Whole(React(w, Sends(m, newest))))
  {
    var c := Whole(w);
    if CanSend(w, m) {
      var out := Outgoing(w.c, m, newest);
      if newest {
        assert MsgOk(c, m);
        SnapshotInOrder(c, m.src, m.dst);
      } else {
        assert out in c.net;
      }
      AddMessage(c, out);
      assert Whole(React(w, Sends(m, newest))) == c.(net := c.net + {out});
    }
  }

  lemma EventInv(w: World, e: Event)
    requires Inv(Whole(w)) && InTime(w, e)
    ensures Inv(Whole(React(w, e))) && Grows(Whole(w), Whole(React(w, e)))
  {
    match e
    case Happens(s) =>
      if Enabled(w.c, s) {
        WholeStep(w, s);
        StepInv(Whole(w), s);
        StepGrows(Whole(w), s);
      }
    case Captures(i, p) => CaptureStep(w, i, p);
    case Sends(m, newest) => SendOut(w, m, newest);
  }

  lemma {:induction false} TraceInv(size: nat, es: seq<Event>)
    requires Allowed(false, size, es)
    ensures Inv(Whole(Trace(size, es)))
  {
    if es == [] {
      InitInv(size);
      assert Whole(World(Init(size), {})) == Init(size);
    } else {
      TraceInv(size, es[..|es| - 1]);
      EventInv(Trace(size, es[..|es| - 1]), es[|es| - 1]);
    }
  }

  function At(size: nat, es: seq<Event>, a: nat): World
    requires a <= |es|
  {
    Trace(size, es[..a])
  }

  lemma {:induction false} AllowedPrefix(late: bool, size: nat, es: seq<Event>, a: nat)
    requires Allowed(late, size, es) && a <= |es|
    ensures Allowed(late, size, es[..a])
    decreases |es|
  {
    if a == |es| {
      assert es[..a] == es;
    } else {
      AllowedPrefix(late, size, es[..|es| - 1], a);
      assert es[..|es| - 1][..a] == es[..a];
    }
  }

  lemma LastEvent(size: nat, es: seq<Event>, b: nat)
    requires Allowed(false, size, es) && 0 < b <= |es|
    ensures At(size, es, b) == React(At(size, es, b - 1), es[b - 1]) && InTime(At(size, es, b - 1), es[b - 1])
  {
    AllowedPrefix(false, size, es, b);
    assert es[..b][..b - 1] == es[..b - 1];
  }

  lemma InvAt(size: nat, es: seq<Event>, a: nat)
    requires Allowed(false, size, es) && a <= |es|
    ensures Inv(Whole(At(size, es, a)))
  {
    AllowedPrefix(false, size, es, a);
    TraceInv(size, es[..a]);
  }

  lemma OneEvent(size: nat, es: seq<Event>, b: nat)
    requires Allowed(false, size, es) && 0 < b <= |es|
    ensures Grows(Whole(At(size, es, b - 1)), Whole(At(size, es, b)))
  {
    InvAt(size, es, b - 1);
    LastEvent(size, es, b);
    EventInv(At(size, es, b - 1), es[b - 1]);
  }

  ghost predicate GrowsBetween(size: nat, es: seq<Event>, a: nat, b: nat) {
    a <= b <= |es| && Grows(Whole(At(size, es, a)), Whole(At(size, es, b)))
  }

  lemma GrowsOnce(size: nat, es: seq<Event>, a: nat, b: nat)
    requires Allowed(false, size, es) && a < b <= |es| && GrowsBetween(size, es, a, b - 1)
    ensures GrowsBetween(size, es, a, b)
  {
    OneEvent(size, es, b);
    GrowsTrans(Whole(At(size, es, a)), Whole(At(size, es, b - 1)), Whole(At(size, es, b)));
  }

  lemma {:induction false} TraceGrowsBetween(size: nat, es: seq<Event>, a: nat, b: nat)
    requires Allowed(false, size, es) && a <= b <= |es|
    ensures GrowsBetween(size, es, a, b)
    decreases b - a
  {
    if a < b {
      TraceGrowsBetween(size, es, a, b - 1);
      GrowsOnce(size, es, a, b);
    }
  }

  lemma TraceGrows(size: nat, es: seq<Event>, a: nat, b: nat)
    requires Allowed(false, size, es) && a <= b <= |es|
    ensures Inv(Whole(At(size, es, a))) && Inv(Whole(At(size, es, b))) && Grows(Whole(At(size, es, a)), Whole(At(size, es, b)))
  {
    InvAt(size, es, a);
    InvAt(size, es, b);
    TraceGrowsBetween(size, es, a, b);
  }

  // ---------------------------------------------------------------- the properties

  function LogAt(size: nat, es: seq<Event>, a: nat, i: nat): Log
    requires a <= |es| && i < |At(size, es, a).c.nodes|
  {
    At(size, es, a).c.nodes[i].log
  }

  predicate SameRecord(size: nat, es: seq<Event>, a: nat, b: nat, i: nat, j: nat, k: nat)
    requires a <= |es| && b <= |es| && i < |At(size, es, a).c.nodes| && j < |At(size, es, b).c.nodes|
  {
    var x, y := LogAt(size, es, a, i), LogAt(size, es, b, j);
    k < |x| && k < |y| && x[k] == y[k]
  }

  predicate BothCommit(size: nat, es: seq<Event>, a: nat, b: nat, i: nat, j: nat, k: nat) {
    && a <= b <= |es| && i < |At(size, es, a).c.nodes| && j < |At(size, es, b).c.nodes|
    && k <= At(size, es, a).c.nodes[i].commit && k <= At(size, es, b).c.nodes[j].commit
  }

  ghost predicate Consistent(size: nat, es: seq<Event>) {
    forall a: nat, b: nat, i: nat, j: nat, k: nat {:trigger BothCommit(size, es, a, b, i, j, k)} ::
      BothCommit(size, es, a, b, i, j, k) ==> SameRecord(size, es, a, b, i, j, k)
  }

  predicate CommitsAndLeads(size: nat, es: seq<Event>, a: nat, b: nat, i: nat, j: nat, k: nat) {
    && a <= |es| && b <= |es| && i < |At(size, es, a).c.nodes| && j < |At(size, es, b).c.nodes|
    && k <= At(size, es, a).c.nodes[i].commit && At(size, es, b).c.nodes[j].role == Leader
    && (At(size, es, a).c.nodes[i].term < At(size, es, b).c.nodes[j].term
        || (At(size, es, a).c.nodes[i].term == At(size, es, b).c.nodes[j].term && a <= b))
  }

  ghost predicate Complete(size: nat, es: seq<Event>) {
    forall a: nat, b: nat, i: nat, j: nat, k: nat {:trigger CommitsAndLeads(size, es, a, b, i, j, k)} ::
      CommitsAndLeads(size, es, a, b, i, j, k) ==> SameRecord(size, es, a, b, i, j, k)
  }

  predicate AgreesWithLeader(c: State, i: nat)
    requires i < |c.nodes| && c.nodes[i].term in c.hist.elections
  {
    AgreeTo(c.nodes[i].log, c.hist.elections[c.nodes[i].term].log, c.nodes[i].commit + 1)
  }

  ghost predicate CommitsAgree(c: State) {
    forall i: nat {:trigger AgreesWithLeader(c, i)} ::
      i < |c.nodes| && c.nodes[i].term in c.hist.elections ==> AgreesWithLeader(c, i)
  }

  lemma InTimeConsistent(size: nat, es: seq<Event>)
    requires Allowed(false, size, es)
    ensures Consistent(size, es)
  {
    forall a: nat, b: nat, i: nat, j: nat, k: nat | BothCommit(size, es, a, b, i, j, k) ensures SameRecord(size, es, a, b, i, j, k) {
      TraceGrows(size, es, a, b);
      CommittedSame(Whole(At(size, es, a)), Whole(At(size, es, b)), i, j, k);
    }
  }

  lemma InTimeComplete(size: nat, es: seq<Event>)
    requires Allowed(false, size, es)
    ensures Complete(size, es)
  {
    forall a: nat, b: nat, i: nat, j: nat, k: nat | CommitsAndLeads(size, es, a, b, i, j, k) ensures SameRecord(size, es, a, b, i, j, k) {
      if a <= b {
        TraceGrows(size, es, a, b);
        LeaderHolds(Whole(At(size, es, a)), Whole(At(size, es, b)), i, j, k);
      } else {
        TraceGrows(size, es, b, a);
        LeaderHeld(Whole(At(size, es, b)), Whole(At(size, es, a)), i, j, k);
      }
    }
  }

  lemma InTimeAgree(size: nat, es: seq<Event>)
    requires Allowed(false, size, es)
    ensures CommitsAgree(Trace(size, es).c)
  {
    TraceInv(size, es);
    WholeAgrees(Trace(size, es));
  }

  lemma WholeAgrees(w: World)
    requires Inv(Whole(w))
    ensures CommitsAgree(w.c)
  {
    forall i: nat | i < |w.c.nodes| && w.c.nodes[i].term in w.c.hist.elections ensures AgreesWithLeader(w.c, i) {
      CommittedAgrees(Whole(w), i);
    }
  }

  // ---------------------------------------------------------------- with late sends

  lemma MessageW(c: State, L: A.Logs, m: Message)
    requires A.W(c, L) && m.SnapReq? && A.Sound(L, m.snapshot)
    ensures A.W(c.(net := c.net + {m}), L)
  {
    var d := c.(net := c.net + {m});
    forall i | 0 <= i < |d.nodes| ensures A.NodeW(d.hist, L, |d.nodes|, i, d.nodes[i]) && A.AllHeld(d, i) {
      assert A.NodeW(c.hist, L, |c.nodes|, i, c.nodes[i]) && A.AllHeld(c, i);
    }
    forall x | x in d.net ensures A.MsgW(d.hist, L, x) {
      assert x in c.net ==> A.MsgW(c.hist, L, x);
    }
  }

  lemma CapturedW(w: World, L: A.Logs, i: nat, p: nat)
    requires A.W(Whole(w), L)
    ensures A.W(Whole(React(w, Captures(i, p))), L)
  {
    var c := Whole(w);
    if Captured(w.c, i, p) != {} {
      assert A.NodeW(c.hist, L, |c.nodes|, i, c.nodes[i]);
      var m := SnapReq(i, p, c.nodes[i].term, SnapshotToSend(c.nodes[i], false));
      if m.snapshot != c.nodes[i].saved {
        A.SoundPrefix(L, c.nodes[i].log, m.snapshot);
      }
      MessageW(c, L, m);
      assert Whole(React(w, Captures(i, p))) == c.(net := c.net + {m});
    } else {
      assert w.captured + {} == w.captured;
      assert React(w, Captures(i, p)) == w;
    }
  }

  lemma SentW(w: World, L: A.Logs, m: Message, newest: bool)
    requires A.W(Whole(w), L)
    ensures A.W(Whole(React(w, Sends(m, newest))), L)
  {
    var c := Whole(w);
    if CanSend(w, m) {
      var out := Outgoing(w.c, m, newest);
      assert A.MsgW(c.hist, L, m) && A.NodeW(c.hist, L, |c.nodes|, m.src, c.nodes[m.src]);
      MessageW(c, L, out);
      assert Whole(React(w, Sends(m, newest))) == c.(net := c.net + {out});
    }
  }

  lemma {:induction false} AnyTrace(size: nat, es: seq<Event>) returns (L: A.Logs)
    ensures A.W(Whole(Trace(size, es)), L)
  {
    if es == [] {
      L := A.AnyRun(size, []);
      assert Whole(World(Init(size), {})) == Init(size);
    } else {
      L := AnyTrace(size, es[..|es| - 1]);
      L := AnyEvent(Trace(size, es[..|es| - 1]), L, es[|es| - 1]);
    }
  }

  lemma AnyEvent(w: World, L: A.Logs, e: Event) returns (L': A.Logs)
    requires A.W(Whole(w), L)
    ensures A.W(Whole(React(w, e)), L')
  {
    L' := L;
    match e
    case Happens(s) =>
      if Enabled(w.c, s) {
        WholeStep(w, s);
        L' := A.AnyStep(Whole(w), s, L);
      }
    case Captures(i, p) => CapturedW(w, L, i, p);
    case Sends(m, newest) => SentW(w, L, m, newest);
  }

  /** Late sends or not, whatever persists fail: one leader per term, and log matching. */
  lemma LateStillMatches(size: nat, es: seq<Event>)
    ensures ML.OneLeader(Trace(size, es).c) && ML.Matching(Trace(size, es).c)
  {
    var c := Trace(size, es).c;
    var L := AnyTrace(size, es);
    forall i: nat, j: nat | i < |c.nodes| && j < |c.nodes| && c.nodes[i].role == Leader && c.nodes[j].role == Leader && c.nodes[i].term == c.nodes[j].term
      ensures i == j
    {
      A.LeaderWon(Whole(Trace(size, es)), L, i);
      A.LeaderWon(Whole(Trace(size, es)), L, j);
    }
    forall i: nat, j: nat, k: nat | i < |c.nodes| && j < |c.nodes| && ML.SameTermAt(c.nodes[i].log, c.nodes[j].log, k)
      ensures c.nodes[i].log[..k + 1] == c.nodes[j].log[..k + 1]
    {
      A.LogsMatch(Whole(Trace(size, es)), L, i, j, k);
    }
  }
}
