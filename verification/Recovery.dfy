/**
  When a restart rebuilds the right map. The newest snapshot may be unreadable, so the one that loads can be older than
  the stored log's marker; the records between the two are in neither, and last_applied jumps over them.
 */
module Recovery {
  import opened Wrappers
  import opened RaftLog
  import opened Protocol
  import opened CompactLog
  import opened Command
  import opened KvStore
  import opened Replica
  import opened RaftServer

  /** A stored state with marker b and a catalog whose first loadable snapshot has index m, both of one history. */
  ghost predicate Situation(found: Option<Stored>, d: Disk, snapshots: seq<SnapshotFile>, logs: seq<Log>, m: nat, b: nat) {
    && FoundIs(found, d) && MarkerOf(found) == b
    && |logs| == |snapshots| && (forall k :: 0 <= k < |logs| ==> StandsFor(snapshots[k], logs[k]))
    && LastIndex(Base(snapshots, logs)) == m
    && forall k {:trigger d.log[k]} :: 0 <= k <= b && k <= m && k < |d.log| ==> d.log[k] == Base(snapshots, logs)[k]
  }

  /** A start that succeeds leaves the replay of the log up to last_applied. */
  ghost predicate StartsRight(found: Option<Stored>, d: Disk, base: Log, kv0: Kv) {
    forall full, snap, commit, applied, kv {:trigger IsRecovered(found, d, base, kv0, full, snap, commit, applied, kv)} ::
      IsRecovered(found, d, base, kv0, full, snap, commit, applied, kv) ==> ReplaysTo(full, applied, kv)
  }

  // ---------------------------------------------------------------- a snapshot behind the marker

  const WRITE_V := Entry(1, Serialize(Set("k", "v")))

  /** No-ops, and one write at index b. */
  function LastWrites(b: nat): (log: Log)
    requires b > 0
    ensures |log| == b + 1 && log[0] == BOOTSTRAP && log[b] == WRITE_V
    ensures forall k :: 0 < k < b ==> log[k] == Entry(1, NO_OP)
  {
    seq(b + 1, k => if k == 0 then BOOTSTRAP else if k == b then WRITE_V else Entry(1, NO_OP))
  }

  lemma {:induction false} NothingYet(f: Machine, b: nat, k: nat)
    requires k < b && f(map[], NO_OP) == Some(map[])
    ensures Replay(f, LastWrites(b), k) == Some(map[])
  {
    if k > 0 {
      NothingYet(f, b, k - 1);
    }
  }

  lemma WriteShows(b: nat)
    requires b > 0
    ensures Replay(EFFECT, LastWrites(b), b) == Some(map["k" := "v"]) && map["k" := "v"] != map[]
  {
    NothingYet(EFFECT, b, b - 1);
    assert LastWrites(b)[b] == WRITE_V;
    assert Replay(EFFECT, LastWrites(b), b) == EFFECT(map[], WRITE_V.command);
    WriteWorks();
  }

  lemma WriteWorks()
    ensures EFFECT(map[], WRITE_V.command) == Some(map["k" := "v"]) && map["k" := "v"] != map[]
  {
    TransportFaithful(map[], Set("k", "v"));
    assert "k" in map["k" := "v"];
  }

  lemma EmptyFile()
    ensures LoadFile(FileOf([])) == Loaded(map[])
  {
    SnapshotRoundTrip(map[], [], "");
    assert FileOf([]) + "" == FileOf([]);
  }

  /** The stored state: everything up to b was compacted away and committed. */
  function Compacted(b: nat): Stored {
    Stored(1, -1, [Record(b, 1, SNAPSHOT_MARKER)], b, 0)
  }

  /** A snapshot at m, taken before the write. */
  function Before(m: nat): SnapshotFile {
    SnapshotFile(m, if m == 0 then 0 else 1, FileOf([]))
  }

  lemma CompactedIs(b: nat)
    requires b > 0
    ensures FoundIs(Some(Compacted(b)), Disk(1, -1, LastWrites(b), b))
  {
  }

  lemma BeforeStands(m: nat, b: nat)
    requires m < b
    ensures StandsFor(Before(m), LastWrites(b)[..m + 1]) && LoadFile(Before(m).file) == Loaded(map[])
  {
    EmptyFile();
    NothingYet(EFFECT, b, m);
    ReplayAgrees(EFFECT, LastWrites(b), LastWrites(b)[..m + 1], m);
  }

  lemma OneFile(s: SnapshotFile, base: Log)
    requires StandsFor(s, base) && LoadFile(s.file).Loaded?
    ensures FirstLoadable([s]) == 0 && Base([s], [base]) == base && BaseMap([s]) == LoadFile(s.file).kv
  {
  }

  lemma SituationWith(found: Option<Stored>, d: Disk, s: SnapshotFile, m: nat, b: nat)
    requires FoundIs(found, d) && MarkerOf(found) == b && m < b < |d.log| && StandsFor(s, d.log[..m + 1]) && LoadFile(s.file).Loaded?
    ensures Situation(found, d, [s], [d.log[..m + 1]], m, b)
  {
    OneFile(s, d.log[..m + 1]);
  }

  lemma BehindSituation(m: nat, b: nat)
    requires m < b
    ensures Situation(Some(Compacted(b)), Disk(1, -1, LastWrites(b), b), [Before(m)], [LastWrites(b)[..m + 1]], m, b)
    ensures BaseMap([Before(m)]) == map[]
  {
    var base := LastWrites(b)[..m + 1];
    CompactedIs(b);
    BeforeStands(m, b);
    OneFile(Before(m), base);
    SituationWith(Some(Compacted(b)), Disk(1, -1, LastWrites(b), b), Before(m), m, b);
  }

  /** The write at the marker is lost: last_applied is b, and the map is empty. */
  lemma BehindLoses(m: nat, b: nat)
    requires m < b
    ensures var log := LastWrites(b);
            && IsRecovered(Some(Compacted(b)), Disk(1, -1, log, b), log[..m + 1], map[], log, b, b, b, map[])
            && !ReplaysTo(log, b, map[])
  {
    WriteShows(b);
  }

  lemma BehindGoesWrong(m: nat, b: nat)
    requires m < b
    ensures var found, d, files, logs := Some(Compacted(b)), Disk(1, -1, LastWrites(b), b), [Before(m)], [LastWrites(b)[..m + 1]];
            Situation(found, d, files, logs, m, b) && !StartsRight(found, d, Base(files, logs), BaseMap(files))
  {
    var log := LastWrites(b);
    BehindSituation(m, b);
    BehindLoses(m, b);
    BeforeStands(m, b);
    OneFile(Before(m), log[..m + 1]);
    assert !StartsRight(Some(Compacted(b)), Disk(1, -1, log, b), log[..m + 1], map[]);
  }

  // ---------------------------------------------------------------- the equivalence

  lemma CoveredStartsRight(found: Option<Stored>, d: Disk, snapshots: seq<SnapshotFile>, logs: seq<Log>, m: nat, b: nat)
    requires Situation(found, d, snapshots, logs, m, b) && m >= b
    ensures StartsRight(found, d, Base(snapshots, logs), BaseMap(snapshots))
  {
    var base, kv0 := Base(snapshots, logs), BaseMap(snapshots);
    BaseReplays(snapshots, logs);
    assert Covers(base, b, d.log);
    forall full, snap, commit, applied, kv | IsRecovered(found, d, base, kv0, full, snap, commit, applied, kv)
      ensures ReplaysTo(full, applied, kv)
    {
      CoveredIsReplay(found, d, base, kv0, full, snap, commit, applied, kv);
    }
  }

  /** Every start from a snapshot at m and a marker at b is right if and only if the snapshot is not behind the marker. */
  lemma RecoveryRightIff(m: nat, b: nat)
    ensures (forall found: Option<Stored>, d: Disk, snapshots: seq<SnapshotFile>, logs: seq<Log>
              {:trigger Situation(found, d, snapshots, logs, m, b)} ::
                Situation(found, d, snapshots, logs, m, b) ==> StartsRight(found, d, Base(snapshots, logs), BaseMap(snapshots)))
            <==> m >= b
  {
    if m >= b {
      forall found: Option<Stored>, d: Disk, snapshots: seq<SnapshotFile>, logs: seq<Log> | Situation(found, d, snapshots, logs, m, b)
        ensures StartsRight(found, d, Base(snapshots, logs), BaseMap(snapshots))
      {
        CoveredStartsRight(found, d, snapshots, logs, m, b);
      }
    } else {
      BehindGoesWrong(m, b);
    }
  }
}
