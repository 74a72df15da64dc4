/**
  The snapshot catalog: one directory per snapshot, named by its index, written in a staging directory and renamed.
  `sum` is the checksum of a data file, an arbitrary function.
 */
module SnapshotCatalog {
  import opened Wrappers
  import opened Bytes

  datatype SnapMeta = SnapMeta(created: nat, index: nat, term: nat, checksum: nat)

  /** A directory with its meta file, None when missing or unreadable, and its data file. */
  datatype Entry = Entry(meta: Option<SnapMeta>, data: Option<string>)

  /** published: the snapshot directories by the index in their name. staging: by index and time. */
  datatype Catalog = Catalog(published: map<nat, Entry>, staging: map<(nat, nat), Entry>)

  function Stamp(sum: string -> nat, data: string): nat { sum(data) % WORD32 }

  /** ReadDirectorySnapshot succeeds. */
  predicate IsValid(sum: string -> nat, k: nat, e: Entry) {
    e.meta.Some? && e.data.Some? && e.meta.value.index == k && e.meta.value.checksum == Stamp(sum, e.data.value)
  }

  /** The snapshots a listing reports. */
  function Valid(sum: string -> nat, c: Catalog): map<nat, Entry> {
    map k | k in c.published && IsValid(sum, k, c.published[k]) :: c.published[k]
  }

  /** A snapshot counts if and only if both files are there, the index is the directory's, and the checksum is that of the data. */
  lemma ValidIff(sum: string -> nat, c: Catalog, k: nat)
    ensures k in Valid(sum, c) <==>
              && k in c.published && c.published[k].meta.Some? && c.published[k].data.Some?
              && c.published[k].meta.value.index == k
              && c.published[k].meta.value.checksum == sum(c.published[k].data.value) % 0x1_0000_0000
    ensures k in Valid(sum, c) ==> Valid(sum, c)[k] == c.published[k]
  {
  }

  /** A data file that changed together with its checksum drops out of the catalog, and only it. */
  lemma RotDropsOut(sum: string -> nat, c: Catalog, k: nat, data: string)
    requires k in Valid(sum, c) && sum(data) % 0x1_0000_0000 != sum(c.published[k].data.value) % 0x1_0000_0000
    ensures var rotten := c.(published := c.published[k := c.published[k].(data := Some(data))]);
            Valid(sum, rotten) == Valid(sum, c) - {k}
  {
  }

  // ---------------------------------------------------------------- single file-system operations

  /** Removing a directory takes its two files away one by one, in either order, and then the directory itself. */
  datatype Op =
    | Unstage(key: (nat, nat))
    | StageWrite(key: (nat, nat), e: Entry)
    | DropPart(k: nat, meta: bool)
    | DropDir(k: nat)
    | Publish(k: nat, key: (nat, nat))

  function Do(c: Catalog, op: Op): Catalog {
    match op
    case Unstage(key) => c.(staging := c.staging - {key})
    case StageWrite(key, e) => c.(staging := c.staging[key := e])
    case DropPart(k, meta) =>
      if k !in c.published then c
      else if meta then c.(published := c.published[k := c.published[k].(meta := None)])
      else c.(published := c.published[k := c.published[k].(data := None)])
    case DropDir(k) => c.(published := c.published - {k})
    case Publish(k, key) =>
      if key !in c.staging then c
      else Catalog(c.published[k := c.staging[key]], c.staging - {key})
  }

  function Run(c: Catalog, ops: seq<Op>): Catalog {
    if ops == [] then c else Do(Run(c, ops[..|ops| - 1]), ops[|ops| - 1])
  }

  lemma RunNext(c: Catalog, ops: seq<Op>, i: nat)
    requires i < |ops|
    ensures Run(c, ops[..i + 1]) == Do(Run(c, ops[..i]), ops[i])
  {
    assert ops[..i + 1][..i] == ops[..i];
  }

  lemma StagingHidden(sum: string -> nat, c: Catalog, op: Op)
    requires op.Unstage? || op.StageWrite?
    ensures Valid(sum, Do(c, op)) == Valid(sum, c) && Do(c, op).published == c.published
  {
  }

  lemma DropRemoves(sum: string -> nat, c: Catalog, op: Op)
    requires op.DropPart? || op.DropDir?
    ensures Valid(sum, Do(c, op)) == Valid(sum, c) - {op.k} && Do(c, op).staging == c.staging
  {
  }

  lemma PublishAdds(sum: string -> nat, c: Catalog, k: nat, key: (nat, nat))
    requires key in c.staging && IsValid(sum, k, c.staging[key])
    ensures Valid(sum, Do(c, Publish(k, key))) == Valid(sum, c)[k := c.staging[key]]
  {
  }

  // ---------------------------------------------------------------- staged publish

  function NewEntry(sum: string -> nat, k: nat, term: nat, now: nat, data: string): (e: Entry)
    ensures IsValid(sum, k, e)
  {
    Entry(Some(SnapMeta(now, k, term, Stamp(sum, data))), Some(data))
  }

  /** The write of the staging directory; `partial` are its contents while the files are being written. */
  function StageOps(key: (nat, nat), partial: seq<Entry>): seq<Op> {
    if partial == [] then [Unstage(key)] else StageOps(key, partial[..|partial| - 1]) + [StageWrite(key, partial[|partial| - 1])]
  }

  function DropOps(k: nat, metaFirst: bool): seq<Op> { [DropPart(k, metaFirst), DropPart(k, !metaFirst), DropDir(k)] }

  /** What SaveSnapshotFile does when there is no valid snapshot at index k yet. */
  function SaveOps(sum: string -> nat, c: Catalog, k: nat, term: nat, now: nat, data: string, partial: seq<Entry>, metaFirst: bool): seq<Op> {
    var key := (k, now);
    StageOps(key, partial + [NewEntry(sum, k, term, now, data)])
    + (if k in c.published then DropOps(k, metaFirst) else [])
    + [Publish(k, key)]
  }

  /** Everything before the final rename. */
  function PrepareOps(sum: string -> nat, c: Catalog, k: nat, term: nat, now: nat, data: string, partial: seq<Entry>, metaFirst: bool): seq<Op> {
    StageOps((k, now), partial + [NewEntry(sum, k, term, now, data)]) + (if k in c.published then DropOps(k, metaFirst) else [])
  }

  /** An operation that touches staging directories or the directory of index k only, without publishing. */
  predicate Quiet(op: Op, k: nat) { !op.Publish? && ((op.DropPart? || op.DropDir?) ==> op.k == k) }

  predicate AllQuiet(ops: seq<Op>, k: nat) { forall i :: 0 <= i < |ops| ==> Quiet(ops[i], k) }

  lemma {:induction false} StageQuiet(key: (nat, nat), partial: seq<Entry>, k: nat)
    ensures AllQuiet(StageOps(key, partial), k)
  {
    if partial != [] {
      StageQuiet(key, partial[..|partial| - 1], k);
    }
  }

  /** Quiet operations can only make the snapshot at k disappear. */
  lemma {:induction false} QuietRun(sum: string -> nat, c: Catalog, ops: seq<Op>, k: nat)
    requires AllQuiet(ops, k)
    ensures Valid(sum, Run(c, ops)) == Valid(sum, c) || Valid(sum, Run(c, ops)) == Valid(sum, c) - {k}
    decreases |ops|
  {
    if ops != [] {
      var front, op := ops[..|ops| - 1], ops[|ops| - 1];
      QuietRun(sum, c, front, k);
      var d := Run(c, front);
      if op.Unstage? || op.StageWrite? {
        StagingHidden(sum, d, op);
      } else {
        DropRemoves(sum, d, op);
        assert (Valid(sum, c) - {k}) - {k} == Valid(sum, c) - {k};
      }
    }
  }

  lemma {:induction false} RunJoin(c: Catalog, a: seq<Op>, b: seq<Op>)
    ensures Run(c, a + b) == Run(Run(c, a), b)
    decreases |b|
  {
    if b == [] {
      assert a + b == a;
    } else {
      assert (a + b)[..|a + b| - 1] == a + b[..|b| - 1];
      RunJoin(c, a, b[..|b| - 1]);
    }
  }

  lemma StagedLast(c: Catalog, key: (nat, nat), partial: seq<Entry>)
    requires partial != []
    ensures var d := Run(c, StageOps(key, partial)); key in d.staging && d.staging[key] == partial[|partial| - 1]
  {
    var ops := StageOps(key, partial);
    assert ops[..|ops| - 1] == StageOps(key, partial[..|partial| - 1]);
  }

  lemma DropKeepsStaging(sum: string -> nat, c: Catalog, k: nat, metaFirst: bool)
    ensures Run(c, DropOps(k, metaFirst)).staging == c.staging
  {
    var ops := DropOps(k, metaFirst);
    RunNext(c, ops, 0);
    RunNext(c, ops, 1);
    RunNext(c, ops, 2);
    assert ops[..3] == ops;
  }

  lemma Prepared(sum: string -> nat, c: Catalog, k: nat, term: nat, now: nat, data: string, partial: seq<Entry>, metaFirst: bool)
    ensures var ops := PrepareOps(sum, c, k, term, now, data, partial, metaFirst);
            && AllQuiet(ops, k)
            && (k, now) in Run(c, ops).staging && Run(c, ops).staging[(k, now)] == NewEntry(sum, k, term, now, data)
  {
    var key, e := (k, now), NewEntry(sum, k, term, now, data);
    var stage := StageOps(key, partial + [e]);
    StageQuiet(key, partial + [e], k);
    StagedLast(c, key, partial + [e]);
    if k in c.published {
      RunJoin(c, stage, DropOps(k, metaFirst));
      DropKeepsStaging(sum, Run(c, stage), k, metaFirst);
    } else {
      assert stage + [] == stage;
    }
  }

  /**
    Staged publish: after every single operation the valid snapshots are the old ones, and after the last operation they are the
    old ones and the complete new one. This holds whatever half-written files the staging directory goes through.
   */
  lemma SaveIsAtomic(sum: string -> nat, c: Catalog, k: nat, term: nat, now: nat, data: string, partial: seq<Entry>, metaFirst: bool, i: nat)
    requires k !in Valid(sum, c)
    requires i <= |SaveOps(sum, c, k, term, now, data, partial, metaFirst)|
    ensures var ops := SaveOps(sum, c, k, term, now, data, partial, metaFirst);
            Valid(sum, Run(c, ops[..i])) ==
            if i < |ops| then Valid(sum, c) else Valid(sum, c)[k := NewEntry(sum, k, term, now, data)]
  {
    var ops := SaveOps(sum, c, k, term, now, data, partial, metaFirst);
    var prepare := PrepareOps(sum, c, k, term, now, data, partial, metaFirst);
    assert ops == prepare + [Publish(k, (k, now))];
    Prepared(sum, c, k, term, now, data, partial, metaFirst);
    assert Valid(sum, c) - {k} == Valid(sum, c);
    if i < |ops| {
      assert ops[..i] == prepare[..i];
      QuietRun(sum, c, prepare[..i], k);
    } else {
      assert ops[..i] == ops && ops[..|ops| - 1] == prepare;
      QuietRun(sum, c, prepare, k);
      PublishAdds(sum, Run(c, prepare), k, (k, now));
    }
  }

  lemma {:induction false} StagePublished(c: Catalog, key: (nat, nat), partial: seq<Entry>)
    ensures Run(c, StageOps(key, partial)).published == c.published
    decreases |partial|
  {
    if partial == [] {
      RunOne(c, Unstage(key));
    } else {
      var front := StageOps(key, partial[..|partial| - 1]);
      StagePublished(c, key, partial[..|partial| - 1]);
      assert StageOps(key, partial)[..|front|] == front;
    }
  }

  lemma DropPublished(c: Catalog, k: nat, metaFirst: bool)
    ensures Run(c, DropOps(k, metaFirst)).published == c.published - {k}
  {
    var ops := DropOps(k, metaFirst);
    RunNext(c, ops, 0);
    RunNext(c, ops, 1);
    RunNext(c, ops, 2);
    assert ops[..3] == ops;
  }

  /** A completed save: the directory of index k is the new one, whatever was there before, and no other directory changed. */
  lemma SavePublishes(sum: string -> nat, c: Catalog, k: nat, term: nat, now: nat, data: string, partial: seq<Entry>, metaFirst: bool)
    ensures Run(c, SaveOps(sum, c, k, term, now, data, partial, metaFirst)).published ==
            c.published[k := Entry(Some(SnapMeta(now, k, term, sum(data) % 0x1_0000_0000)), Some(data))]
  {
    var ops := SaveOps(sum, c, k, term, now, data, partial, metaFirst);
    var prepare := PrepareOps(sum, c, k, term, now, data, partial, metaFirst);
    var stage := StageOps((k, now), partial + [NewEntry(sum, k, term, now, data)]);
    assert ops == prepare + [Publish(k, (k, now))];
    Prepared(sum, c, k, term, now, data, partial, metaFirst);
    StagePublished(c, (k, now), partial + [NewEntry(sum, k, term, now, data)]);
    if k in c.published {
      RunJoin(c, stage, DropOps(k, metaFirst));
      DropPublished(Run(c, stage), k, metaFirst);
    } else {
      assert stage + [] == stage;
    }
    assert ops[..|ops| - 1] == prepare;
  }

  // ---------------------------------------------------------------- listing

  predicate Descending(list: seq<nat>) { forall i, j :: 0 <= i < j < |list| ==> list[i] > list[j] }

  /** The indexes of the valid snapshots, newest first. */
  ghost predicate Lists(list: seq<nat>, valid: map<nat, Entry>) {
    Descending(list) && (forall k :: k in valid <==> k in list)
  }

  /** The snapshot a restart chooses: the highest index. */
  predicate IsLatest(valid: map<nat, Entry>, k: nat) { k in valid && forall j :: j in valid ==> j <= k }

  lemma FirstIsLatest(list: seq<nat>, valid: map<nat, Entry>)
    requires Lists(list, valid) && list != []
    ensures IsLatest(valid, list[0])
  {
    assert list[0] in list;
  }

  // ---------------------------------------------------------------- pruning

  function Keep(maxKeep: nat): nat { if maxKeep == 0 then 1 else maxKeep }

  /** The removals of the listed snapshots; metaFirst says for each directory which of its files goes first. */
  function PruneOps(list: seq<nat>, metaFirst: nat -> bool): seq<Op> {
    if list == [] then [] else DropOps(list[0], metaFirst(list[0])) + PruneOps(list[1..], metaFirst)
  }

  predicate DropsOnly(ops: seq<Op>, gone: set<nat>) {
    forall i :: 0 <= i < |ops| ==> (ops[i].DropPart? || ops[i].DropDir?) && ops[i].k in gone
  }

  lemma {:induction false} PruneDrops(list: seq<nat>, metaFirst: nat -> bool, gone: set<nat>)
    requires forall k :: k in list ==> k in gone
    ensures DropsOnly(PruneOps(list, metaFirst), gone)
    decreases |list|
  {
    if list != [] {
      assert list[0] in list;
      PruneDrops(list[1..], metaFirst, gone);
    }
  }

  /** Removals change nothing about the snapshots they do not name. */
  lemma {:induction false} DropsKeep(sum: string -> nat, c: Catalog, ops: seq<Op>, gone: set<nat>)
    requires DropsOnly(ops, gone)
    ensures Valid(sum, Run(c, ops)).Keys <= Valid(sum, c).Keys
    ensures Valid(sum, Run(c, ops)) - gone == Valid(sum, c) - gone
    decreases |ops|
  {
    if ops != [] {
      var front, op := ops[..|ops| - 1], ops[|ops| - 1];
      DropsKeep(sum, c, front, gone);
      DropRemoves(sum, Run(c, front), op);
    }
  }

  lemma {:induction false} PruneRemoves(sum: string -> nat, c: Catalog, list: seq<nat>, metaFirst: nat -> bool, k: nat)
    requires k in list
    ensures k !in Valid(sum, Run(c, PruneOps(list, metaFirst)))
    decreases |list|
  {
    var first, rest := DropOps(list[0], metaFirst(list[0])), PruneOps(list[1..], metaFirst);
    RunJoin(c, first, rest);
    if k in list[1..] {
      PruneRemoves(sum, Run(c, first), list[1..], metaFirst, k);
    } else {
      assert first[..2] + [DropDir(k)] == first;
      RunNext(c, first, 2);
      assert first[..3] == first;
      DropRemoves(sum, Run(c, first[..2]), first[2]);
      var gone := set x | x in list[1..];
      PruneDrops(list[1..], metaFirst, gone);
      DropsKeep(sum, Run(c, first), rest, gone);
    }
  }

  lemma PruneKeeps(sum: string -> nat, c: Catalog, list: seq<nat>, n: nat, metaFirst: nat -> bool, i: nat)
    requires Lists(list, Valid(sum, c)) && n <= |list| && i <= |PruneOps(list[n..], metaFirst)|
    ensures var now := Valid(sum, Run(c, PruneOps(list[n..], metaFirst)[..i]));
            && now.Keys <= Valid(sum, c).Keys
            && (forall k :: k in list[..n] ==> k in now && k in Valid(sum, c) && now[k] == Valid(sum, c)[k])
  {
    var ops, gone := PruneOps(list[n..], metaFirst), set k | k in list[n..];
    PruneDrops(list[n..], metaFirst, gone);
    DropsKeep(sum, c, ops[..i], gone);
    KeptApart(list, n);
    forall k | k in list[..n] ensures k in Valid(sum, c) - gone {
      assert k in list;
    }
  }

  lemma InEither(list: seq<nat>, n: nat, k: nat)
    requires n <= |list| && k in list
    ensures k in list[..n] || k in list[n..]
  {
  }

  lemma PruneEnds(sum: string -> nat, c: Catalog, list: seq<nat>, n: nat, metaFirst: nat -> bool, k: nat)
    requires Lists(list, Valid(sum, c)) && n <= |list| && k in Valid(sum, Run(c, PruneOps(list[n..], metaFirst)))
    ensures k in list[..n]
  {
    var ops, gone := PruneOps(list[n..], metaFirst), set k | k in list[n..];
    PruneDrops(list[n..], metaFirst, gone);
    DropsKeep(sum, c, ops, gone);
    InEither(list, n, k);
    if k in list[n..] {
      PruneRemoves(sum, c, list[n..], metaFirst, k);
    }
  }

  /**
    Pruning: after every single removal the Keep(maxKeep) newest valid snapshots are still there, unchanged, and nothing new
    became valid; at the end they are all that is left.
   */
  lemma PruneKeepsNewest(sum: string -> nat, c: Catalog, list: seq<nat>, maxKeep: nat, metaFirst: nat -> bool, i: nat)
    requires Lists(list, Valid(sum, c)) && Keep(maxKeep) <= |list|
    requires i <= |PruneOps(list[Keep(maxKeep)..], metaFirst)|
    ensures var ops, kept := PruneOps(list[Keep(maxKeep)..], metaFirst), list[..Keep(maxKeep)];
            var now := Valid(sum, Run(c, ops[..i]));
            && now.Keys <= Valid(sum, c).Keys
            && (forall k :: k in kept ==> k in now && k in Valid(sum, c) && now[k] == Valid(sum, c)[k])
            && (i == |ops| ==> forall k :: k in now ==> k in kept)
  {
    var n := Keep(maxKeep);
    var ops := PruneOps(list[n..], metaFirst);
    PruneKeeps(sum, c, list, n, metaFirst, i);
    if i == |ops| {
      assert ops[..i] == ops;
      forall k | k in Valid(sum, Run(c, ops)) ensures k in list[..n] {
        PruneEnds(sum, c, list, n, metaFirst, k);
      }
    }
  }

  /** What a prune of the listed snapshots leaves valid: the newest, max(1, maxKeep) of them or all there are. */
  ghost predicate Leaves(sum: string -> nat, now: Catalog, list: seq<nat>, maxKeep: nat) {
    var n := if maxKeep == 0 then 1 else maxKeep;
    forall k :: k in Valid(sum, now) <==> k in list[..if |list| <= n then |list| else n]
  }

  lemma PruneLeaves(sum: string -> nat, c: Catalog, list: seq<nat>, maxKeep: nat, metaFirst: nat -> bool)
    requires Lists(list, Valid(sum, c))
    ensures |list| <= Keep(maxKeep) ==> Leaves(sum, c, list, maxKeep)
    ensures |list| > Keep(maxKeep) ==> Leaves(sum, Run(c, PruneOps(list[Keep(maxKeep)..], metaFirst)), list, maxKeep)
  {
    if |list| > Keep(maxKeep) {
      var ops := PruneOps(list[Keep(maxKeep)..], metaFirst);
      PruneKeepsNewest(sum, c, list, maxKeep, metaFirst, |ops|);
      assert ops[..|ops|] == ops;
    } else {
      assert list[..|list|] == list;
    }
  }

  lemma KeptApart(list: seq<nat>, n: nat)
    requires Descending(list) && n <= |list|
    ensures forall k :: k in list[..n] ==> k !in list[n..]
  {
  }

  // ---------------------------------------------------------------- any sequence of calls, each cut short anywhere

  /** `upto` is the number of operations completed before a crash, if there is one. */
  datatype Call =
    | Save(k: nat, term: nat, now: nat, data: string, partial: seq<Entry>, metaFirst: bool, upto: nat)
    | Prune(list: seq<nat>, maxKeep: nat, metaFirstIn: nat -> bool, upto: nat)

  /** Saving where a valid snapshot exists changes nothing: it is either the same one or the call is refused. */
  function CallOps(sum: string -> nat, c: Catalog, call: Call): seq<Op> {
    match call
    case Save(k, term, now, data, partial, metaFirst, _) =>
      if k in Valid(sum, c) then [] else SaveOps(sum, c, k, term, now, data, partial, metaFirst)
    case Prune(list, maxKeep, metaFirst, _) =>
      if Keep(maxKeep) <= |list| then PruneOps(list[Keep(maxKeep)..], metaFirst) else []
  }

  /** A prune works on the listing of the catalog it starts from. */
  ghost predicate Fits(sum: string -> nat, c: Catalog, call: Call) {
    call.upto <= |CallOps(sum, c, call)| && (call.Prune? ==> Lists(call.list, Valid(sum, c)))
  }

  function AfterCall(sum: string -> nat, c: Catalog, call: Call): Catalog {
    var ops := CallOps(sum, c, call);
    if call.upto <= |ops| then Run(c, ops[..call.upto]) else c
  }

  /** A snapshot valid before and after is the same one, and the latest stays valid. */
  ghost predicate Advances(before: map<nat, Entry>, after: map<nat, Entry>) {
    && (forall k :: k in before && k in after ==> after[k] == before[k])
    && (forall k :: IsLatest(before, k) ==> k in after)
  }

  lemma CallAdvances(sum: string -> nat, c: Catalog, call: Call)
    requires Fits(sum, c, call)
    ensures Advances(Valid(sum, c), Valid(sum, AfterCall(sum, c, call)))
  {
    match call
    case Save(k, term, now, data, partial, metaFirst, upto) =>
      if k !in Valid(sum, c) {
        SaveIsAtomic(sum, c, k, term, now, data, partial, metaFirst, upto);
      }
    case Prune(list, maxKeep, metaFirst, upto) =>
      if Keep(maxKeep) <= |list| {
        PruneAdvances(sum, c, list, maxKeep, metaFirst, upto);
      }
  }

  lemma PruneAdvances(sum: string -> nat, c: Catalog, list: seq<nat>, maxKeep: nat, metaFirst: nat -> bool, i: nat)
    requires Lists(list, Valid(sum, c)) && Keep(maxKeep) <= |list|
    requires i <= |PruneOps(list[Keep(maxKeep)..], metaFirst)|
    ensures Advances(Valid(sum, c), Valid(sum, Run(c, PruneOps(list[Keep(maxKeep)..], metaFirst)[..i])))
  {
    var n := Keep(maxKeep);
    var ops, gone := PruneOps(list[n..], metaFirst), set k | k in list[n..];
    PruneKeeps(sum, c, list, n, metaFirst, i);
    FirstIsLatest(list, Valid(sum, c));
    assert list[..n][0] == list[0];
    PruneDrops(list[n..], metaFirst, gone);
    DropsSame(sum, c, ops[..i], gone);
  }

  lemma {:induction false} DropsSame(sum: string -> nat, c: Catalog, ops: seq<Op>, gone: set<nat>)
    requires DropsOnly(ops, gone)
    ensures forall x :: x in Valid(sum, Run(c, ops)) ==> x in Valid(sum, c) && Valid(sum, Run(c, ops))[x] == Valid(sum, c)[x]
    decreases |ops|
  {
    if ops != [] {
      DropRemoves(sum, Run(c, ops[..|ops| - 1]), ops[|ops| - 1]);
      DropsSame(sum, c, ops[..|ops| - 1], gone);
    }
  }

  function AfterCalls(sum: string -> nat, c: Catalog, calls: seq<Call>): Catalog {
    if calls == [] then c else AfterCall(sum, AfterCalls(sum, c, calls[..|calls| - 1]), calls[|calls| - 1])
  }

  ghost predicate AllFit(sum: string -> nat, c: Catalog, calls: seq<Call>) {
    calls == [] || (AllFit(sum, c, calls[..|calls| - 1])
                    && Fits(sum, AfterCalls(sum, c, calls[..|calls| - 1]), calls[|calls| - 1]))
  }

  lemma LatestExists(valid: map<nat, Entry>, k: nat) returns (top: nat)
    requires k in valid
    ensures IsLatest(valid, top) && top >= k
  {
    var keys := valid.Keys;
    top := k;
    var seen: set<nat> := {k};
    while keys - seen != {}
      invariant seen <= keys && top in keys && top >= k && forall j :: j in seen ==> j <= top
      decreases |keys - seen|
    {
      var j :| j in keys - seen;
      assert keys - (seen + {j}) == (keys - seen) - {j};
      seen := seen + {j};
      if j > top {
        top := j;
      }
    }
    assert keys <= seen;
  }

  /** The choice of the latest snapshot never goes backwards, over any saves and prunes, completed or not. */
  lemma {:induction false} LatestNeverFalls(sum: string -> nat, c: Catalog, calls: seq<Call>, k: nat) returns (top: nat)
    requires AllFit(sum, c, calls) && IsLatest(Valid(sum, c), k)
    ensures IsLatest(Valid(sum, AfterCalls(sum, c, calls)), top) && top >= k
    decreases |calls|
  {
    if calls == [] {
      top := k;
    } else {
      var front := calls[..|calls| - 1];
      var mid := LatestNeverFalls(sum, c, front, k);
      CallAdvances(sum, AfterCalls(sum, c, front), calls[|calls| - 1]);
      top := LatestExists(Valid(sum, AfterCalls(sum, c, calls)), mid);
    }
  }

  // ---------------------------------------------------------------- the catalog object

  class FileSnapshotStorage {
    var cat: Catalog
    /** The operations of the last call. */
    ghost var done: seq<Op>

    constructor ()
      ensures cat == Catalog(map[], map[])
    {
      cat, done := Catalog(map[], map[]), [];
    }

    method Perform(op: Op)
      modifies this
      ensures cat == Do(old(cat), op) && done == old(done) + [op]
    {
      cat := Do(cat, op);
      done := done + [op];
    }

    /** remove_all on the directory of index k. */
    method RemoveAll(k: nat, metaFirst: bool)
      modifies this
      ensures done == old(done) + DropOps(k, metaFirst) && cat == Run(old(cat), DropOps(k, metaFirst))
    {
      Perform(DropPart(k, metaFirst));
      Perform(DropPart(k, !metaFirst));
      Perform(DropDir(k));
      ghost var ops := DropOps(k, metaFirst);
      RunNext(old(cat), ops, 0);
      RunNext(old(cat), ops, 1);
      RunNext(old(cat), ops, 2);
      assert ops[..3] == ops;
    }

    /** The staging directory: created empty, then the data file, then the meta file. */
    method WriteStaging(key: (nat, nat), data: string, meta: SnapMeta)
      modifies this
      ensures var stages := [Entry(None, None), Entry(None, Some(data)), Entry(Some(meta), Some(data))];
              done == old(done) + StageOps(key, stages) && cat == Run(old(cat), StageOps(key, stages))
    {
      ghost var start, a, b, e := cat, Entry(None, None), Entry(None, Some(data)), Entry(Some(meta), Some(data));
      assert [] + [a] == [a] && [a] + [b] == [a, b] && [a, b] + [e] == [a, b, e];
      Perform(Unstage(key));
      RunOne(start, Unstage(key));
      Perform(StageWrite(key, Entry(None, None)));
      StageNext(start, key, [], Entry(None, None));
      Perform(StageWrite(key, Entry(None, Some(data))));
      StageNext(start, key, [Entry(None, None)], Entry(None, Some(data)));
      Perform(StageWrite(key, Entry(Some(meta), Some(data))));
      StageNext(start, key, [Entry(None, None), Entry(None, Some(data))], Entry(Some(meta), Some(data)));
    }

    /** A valid snapshot of the same index is kept; with another term the save is refused. */
    method SaveSnapshotFile(sum: string -> nat, k: nat, term: nat, now: nat, data: string, metaFirst: bool) returns (ok: bool)
      modifies this
      ensures var valid := Valid(sum, old(cat));
              if k in valid then ok == (valid[k].meta.value.term == term) && cat == old(cat) && done == []
              else ok && done == SaveOps(sum, old(cat), k, term, now, data, [Entry(None, None), Entry(None, Some(data))], metaFirst)
                   && cat == Run(old(cat), done)
      ensures var was := if k in old(cat).published then old(cat).published[k] else Entry(None, None);
              if was.meta.Some? && was.data.Some? && was.meta.value.index == k
                 && was.meta.value.checksum == sum(was.data.value) % 0x1_0000_0000
              then cat == old(cat) && ok == (was.meta.value.term == term)
              else ok && cat.published == old(cat).published[k := Entry(Some(SnapMeta(now, k, term, sum(data) % 0x1_0000_0000)), Some(data))]
    {
      done := [];
      if k in cat.published && IsValid(sum, k, cat.published[k]) {
        return cat.published[k].meta.value.term == term;
      }
      ghost var start := cat;
      var key := (k, now);
      WriteStaging(key, data, SnapMeta(now, k, term, Stamp(sum, data)));
      ghost var stage := done;
      assert stage == StageOps(key, [Entry(None, None), Entry(None, Some(data)), NewEntry(sum, k, term, now, data)]);
      StagePublished(start, key, [Entry(None, None), Entry(None, Some(data)), NewEntry(sum, k, term, now, data)]);
      if k in cat.published {
        RemoveAll(k, metaFirst);
        RunJoin(start, stage, DropOps(k, metaFirst));
      } else {
        assert stage + [] == stage;
      }
      ghost var before := done;
      Perform(Publish(k, key));
      RunJoin(start, before, [Publish(k, key)]);
      RunOne(Run(start, before), Publish(k, key));
      assert [Entry(None, None), Entry(None, Some(data))] + [NewEntry(sum, k, term, now, data)] ==
             [Entry(None, None), Entry(None, Some(data)), NewEntry(sum, k, term, now, data)];
      SavePublishes(sum, start, k, term, now, data, [Entry(None, None), Entry(None, Some(data))], metaFirst);
      ok := true;
    }

    /** Directories are visited in any order; the valid ones are sorted, newest first. */
    method ListSnapshots(sum: string -> nat) returns (list: seq<nat>)
      ensures Lists(list, Valid(sum, cat))
      ensures forall k :: k in list <==>
                && k in cat.published && cat.published[k].meta.Some? && cat.published[k].data.Some?
                && cat.published[k].meta.value.index == k
                && cat.published[k].meta.value.checksum == sum(cat.published[k].data.value) % 0x1_0000_0000
      ensures forall i, j :: 0 <= i < j < |list| ==> list[i] > list[j]
    {
      list := [];
      var left := cat.published.Keys;
      while left != {}
        invariant left <= cat.published.Keys && Descending(list)
        invariant forall k :: k in list <==> k in Valid(sum, cat) && k !in left
        decreases |left|
      {
        var k :| k in left;
        if IsValid(sum, k, cat.published[k]) {
          list := InsertIndex(list, k);
        }
        left := left - {k};
      }
    }

    /** The loop that removes everything behind the first Keep(maxKeep) valid snapshots. */
    method PruneSnapshots(sum: string -> nat, maxKeep: nat, metaFirst: nat -> bool) returns (list: seq<nat>)
      modifies this
      ensures Lists(list, Valid(sum, old(cat))) && cat == Run(old(cat), done)
      ensures done == if |list| <= Keep(maxKeep) then [] else PruneOps(list[Keep(maxKeep)..], metaFirst)
      ensures Leaves(sum, cat, list, maxKeep)
    {
      done := [];
      list := ListSnapshots(sum);
      var n := Keep(maxKeep);
      ghost var start := cat;
      PruneLeaves(sum, start, list, maxKeep, metaFirst);
      if |list| <= n {
        return;
      }
      var i := n;
      while i < |list|
        invariant n <= i <= |list| && cat == Run(start, done)
        invariant done + PruneOps(list[i..], metaFirst) == PruneOps(list[n..], metaFirst)
      {
        ghost var before := done;
        RemoveAll(list[i], metaFirst(list[i]));
        RunJoin(start, before, DropOps(list[i], metaFirst(list[i])));
        assert list[i..][1..] == list[i + 1..];
        OpsAssoc(before, DropOps(list[i], metaFirst(list[i])), PruneOps(list[i + 1..], metaFirst));
        i := i + 1;
      }
    }
  }

  lemma OpsAssoc(a: seq<Op>, b: seq<Op>, c: seq<Op>)
    ensures a + (b + c) == (a + b) + c
  {
  }

  lemma RunOne(c: Catalog, op: Op)
    ensures Run(c, [op]) == Do(c, op)
  {
    assert [op][..0] == [];
  }

  lemma StageNext(c: Catalog, key: (nat, nat), partial: seq<Entry>, e: Entry)
    ensures StageOps(key, partial + [e]) == StageOps(key, partial) + [StageWrite(key, e)]
    ensures Run(c, StageOps(key, partial + [e])) == Do(Run(c, StageOps(key, partial)), StageWrite(key, e))
  {
    var ops := StageOps(key, partial + [e]);
    assert (partial + [e])[..|partial|] == partial;
    assert ops[..|ops| - 1] == StageOps(key, partial);
  }

  method InsertIndex(list: seq<nat>, k: nat) returns (r: seq<nat>)
    requires Descending(list) && k !in list
    ensures Descending(r) && forall x :: x in r <==> x in list || x == k
  {
    var i := |list|;
    while i > 0 && list[i - 1] < k
      invariant 0 <= i <= |list|
      invariant forall j :: i <= j < |list| ==> list[j] < k
    {
      i := i - 1;
    }
    r := list[..i] + [k] + list[i..];
    IndexInserted(list, k, i);
  }

  lemma IndexInserted(list: seq<nat>, k: nat, i: nat)
    requires Descending(list) && i <= |list|
    requires (forall j :: 0 <= j < i ==> list[j] > k) && (forall j :: i <= j < |list| ==> list[j] < k)
    ensures Descending(list[..i] + [k] + list[i..])
    ensures forall x :: x in list[..i] + [k] + list[i..] <==> x in list || x == k
  {
    assert list == list[..i] + list[i..];
  }
}
