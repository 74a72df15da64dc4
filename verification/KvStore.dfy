/** The key-value state machine: applying commands, and its snapshot file. */
module KvStore {
  import opened Wrappers
  import opened Bytes
  import opened Command

  type Kv = map<string, string>
  type Item = (string, string)

  const SNAPSHOT_MAGIC: nat := 0x4B565331
  const SNAPSHOT_VERSION: nat := 1

  // ---------------------------------------------------------------- commands

  /** The map after the command text, or None when the text is refused. */
  function Effect(kv: Kv, data: string): Option<Kv> {
    if data == NO_OP then Some(kv)
    else match Parse(data)
      case None => None
      case Some(Set(key, value)) => Some(kv[key := value])
      case Some(Delete(key)) => Some(kv - {key})
      case Some(Unknown) => None
  }

  /** A transportable command, sent through its text form, is exactly the update it names. */
  lemma TransportFaithful(kv: Kv, c: Command)
    requires Transportable(c)
    ensures c.Set? ==> Effect(kv, Serialize(c)) == Some(kv[c.key := c.value])
    ensures c.Delete? ==> Effect(kv, Serialize(c)) == Some(kv - {c.key})
  {
    RoundTrip(c);
    ReservedTexts(c);
  }

  /** What every text does: the no-op nothing, a text that spells a Set or a Delete that update, and any other text is refused. */
  lemma EffectIs(kv: Kv, data: string)
    ensures data == NO_OP ==> Effect(kv, data) == Some(kv)
    ensures forall key, value, rest {:trigger SpellsSet(data, key, value, rest)} ::
              SpellsSet(data, key, value, rest) && key != "" && '|' !in key && '|' !in value ==> Effect(kv, data) == Some(kv[key := value])
    ensures forall key, rest {:trigger SpellsDelete(data, key, rest)} ::
              SpellsDelete(data, key, rest) && key != "" && '|' !in key ==> Effect(kv, data) == Some(kv - {key})
    ensures Effect(kv, data) == None <==> data != NO_OP && !Spelled(data)
  {
    forall key, value, rest | SpellsSet(data, key, value, rest) && key != "" && '|' !in key && '|' !in value
      ensures data != NO_OP && Parse(data) == Some(Set(key, value))
    {
      ParseSetIff(data, key, value);
      SetLayout(data, key, value, rest);
    }
    forall key, rest | SpellsDelete(data, key, rest) && key != "" && '|' !in key
      ensures data != NO_OP && Parse(data) == Some(Delete(key))
    {
      ParseDeleteIff(data, key);
      DeleteLayout(key, rest);
    }
    match Parse(data)
    case None =>
    case Some(Set(key, value)) => ParseSetIff(data, key, value);
    case Some(Delete(key)) => ParseDeleteIff(data, key);
    case Some(Unknown) =>
  }

  /** The text is one of a Set or a Delete with a non-empty key. */
  ghost predicate Spelled(data: string) {
    || (exists key, value, rest :: SpellsSet(data, key, value, rest) && key != "" && '|' !in key && '|' !in value)
    || (exists key, rest :: SpellsDelete(data, key, rest) && key != "" && '|' !in key)
  }

  // ---------------------------------------------------------------- the order of the snapshot

  /** std::string's operator<. */
  predicate Less(a: string, b: string) {
    if b == "" then false
    else if a == "" then true
    else a[0] < b[0] || (a[0] == b[0] && Less(a[1..], b[1..]))
  }

  lemma {:induction false} LessTrans(a: string, b: string, c: string)
    requires Less(a, b) && Less(b, c)
    ensures Less(a, c)
  {
    if a != "" && a[0] == b[0] && b[0] == c[0] {
      LessTrans(a[1..], b[1..], c[1..]);
    }
  }

  lemma {:induction false} LessTotal(a: string, b: string)
    ensures a == b || Less(a, b) || Less(b, a)
    ensures !(Less(a, b) && Less(b, a)) && !Less(a, a)
  {
    if a != "" {
      LessTotal(a[1..], a[1..]);
      if b != "" && a[0] == b[0] {
        LessTotal(a[1..], b[1..]);
        assert a == [a[0]] + a[1..] && b == [b[0]] + b[1..];
      }
    }
  }

  predicate Sorted(items: seq<Item>) {
    forall i, j :: 0 <= i < j < |items| ==> Less(items[i].0, items[j].0)
  }

  function MapOf(items: seq<Item>): Kv {
    if items == [] then map[] else MapOf(items[..|items| - 1])[items[|items| - 1].0 := items[|items| - 1].1]
  }

  /** `items` is the map, each key once, in ascending key order. */
  ghost predicate Lists(items: seq<Item>, kv: Kv) {
    && Sorted(items)
    && (forall k :: k in kv ==> (k, kv[k]) in items)
    && (forall i :: 0 <= i < |items| ==> items[i].0 in kv && kv[items[i].0] == items[i].1)
  }

  lemma {:induction false} MapOfKeys(items: seq<Item>, k: string)
    requires k in MapOf(items)
    ensures (k, MapOf(items)[k]) in items
  {
    if items != [] {
      var last := items[|items| - 1];
      if k != last.0 {
        MapOfKeys(items[..|items| - 1], k);
      } else {
        assert last == (k, MapOf(items)[k]);
      }
    }
  }

  lemma {:induction false} MapOfItem(items: seq<Item>, i: nat)
    requires Sorted(items) && i < |items|
    ensures items[i].0 in MapOf(items) && MapOf(items)[items[i].0] == items[i].1
  {
    if i < |items| - 1 {
      MapOfItem(items[..|items| - 1], i);
      LessTotal(items[i].0, items[|items| - 1].0);
    }
  }

  lemma ListsIsMap(items: seq<Item>, kv: Kv)
    requires Lists(items, kv)
    ensures MapOf(items) == kv
  {
    forall k | k in kv ensures k in MapOf(items) && MapOf(items)[k] == kv[k] {
      var i :| 0 <= i < |items| && items[i] == (k, kv[k]);
      MapOfItem(items, i);
    }
    forall k | k in MapOf(items) ensures k in kv {
      MapOfKeys(items, k);
    }
  }

  /** The sort makes the listing of a map unique, whatever order the hash table yields. */
  lemma {:induction false} ListsUnique(a: seq<Item>, b: seq<Item>, kv: Kv)
    requires Lists(a, kv) && Lists(b, kv)
    ensures a == b
    decreases |a|
  {
    if a != [] {
      var last := a[|a| - 1];
      LastIsGreatest(a, b, kv);
      var kv' := kv - {last.0};
      DropLast(a, kv);
      DropLast(b, kv);
      ListsUnique(a[..|a| - 1], b[..|b| - 1], kv');
      assert a == a[..|a| - 1] + [last] && b == b[..|b| - 1] + [last];
    }
  }

  lemma LastIsGreatest(a: seq<Item>, b: seq<Item>, kv: Kv)
    requires Lists(a, kv) && Lists(b, kv) && a != []
    ensures b != [] && a[|a| - 1] == b[|b| - 1]
  {
    var p := a[|a| - 1];
    assert p.0 in kv && p in b;
    var q := b[|b| - 1];
    assert q.0 in kv && q in a;
    LessTotal(p.0, q.0);
  }

  lemma DropLast(a: seq<Item>, kv: Kv)
    requires Lists(a, kv) && a != []
    ensures Lists(a[..|a| - 1], kv - {a[|a| - 1].0})
  {
    var last := a[|a| - 1];
    var front := a[..|a| - 1];
    forall i | 0 <= i < |front| ensures front[i].0 in kv - {last.0} {
      LessTotal(front[i].0, last.0);
    }
    forall k | k in kv - {last.0} ensures (k, kv[k]) in front {
      var i :| 0 <= i < |a| && a[i] == (k, kv[k]);
      assert i < |a| - 1;
      assert front[i] == a[i];
    }
  }

  // ---------------------------------------------------------------- the snapshot file

  function EncodeItem(item: Item): string { WriteString(item.0) + WriteString(item.1) }

  type ItemWriter = Item -> string
  type ItemReader = string -> Option<(Item, string)>

  function Encode(enc: ItemWriter, items: seq<Item>): string {
    if items == [] then "" else enc(items[0]) + Encode(enc, items[1..])
  }

  const WRITE: ItemWriter := item => EncodeItem(item)
  const READ: ItemReader := s => ReadItem(s)

  function Header(count: nat): string { Le(SNAPSHOT_MAGIC, 4) + Le(SNAPSHOT_VERSION, 4) + Le(count, 8) }

  function FileOf(items: seq<Item>): string { Header(|items|) + Encode(WRITE, items) }

  function ReadItem(s: string): (r: Option<(Item, string)>)
    ensures r.Some? ==> |r.value.1| < |s|
  {
    match ReadString(s)
    case None => None
    case Some((key, rest)) =>
      match ReadString(rest)
      case None => None
      case Some((value, rest2)) => Some(((key, value), rest2))
  }

  /** Reads `count` items on top of kv. */
  function ReadItems(read: ItemReader, s: string, count: nat, kv: Kv): Option<Kv>
    decreases count
  {
    if count == 0 then Some(kv)
    else match read(s)
      case None => None
      case Some((item, rest)) => ReadItems(read, rest, count - 1, kv[item.0 := item.1])
  }

  datatype Status = Loaded(kv: Kv) | Corrupted | VersionMismatch

  /** What loading a file yields; bytes after the last item are ignored. */
  function LoadFile(s: string): Status {
    if |s| < 16 then Corrupted
    else if UnLe(s[..4]) != SNAPSHOT_MAGIC then Corrupted
    else if UnLe(s[4..8]) != SNAPSHOT_VERSION then VersionMismatch
    else match ReadItems(READ, s[16..], UnLe(s[8..16]), map[])
      case None => Corrupted
      case Some(kv) => Loaded(kv)
  }

  /** Everything a 64-bit size can describe. */
  ghost predicate Fits(kv: Kv) {
    |kv| < WORD64 && forall k :: k in kv ==> |k| < WORD64 && |kv[k]| < WORD64
  }

  predicate ItemsFit(items: seq<Item>) {
    forall i :: 0 <= i < |items| ==> |items[i].0| < WORD64 && |items[i].1| < WORD64
  }

  lemma {:induction false} ListsSize(items: seq<Item>, kv: Kv)
    requires Lists(items, kv)
    ensures |items| == |kv|
    decreases |items|
  {
    if items == [] {
      assert kv == map[];
    } else {
      var last := items[|items| - 1];
      DropLast(items, kv);
      ListsSize(items[..|items| - 1], kv - {last.0});
      assert kv.Keys == (kv - {last.0}).Keys + {last.0};
      assert |kv.Keys| == |kv| && |(kv - {last.0}).Keys| == |kv - {last.0}|;
    }
  }

  lemma ReadItemBack(item: Item, rest: string)
    requires |item.0| < WORD64 && |item.1| < WORD64
    ensures ReadItem(EncodeItem(item) + rest) == Some((item, rest))
  {
    assert WriteString(item.0) + WriteString(item.1) + rest == WriteString(item.0) + (WriteString(item.1) + rest);
    ReadStringBack(item.0, WriteString(item.1) + rest);
    ReadStringBack(item.1, rest);
  }

  function PutAll(kv: Kv, items: seq<Item>): Kv
    decreases |items|
  {
    if items == [] then kv else PutAll(kv[items[0].0 := items[0].1], items[1..])
  }

  /** The reader takes any of these items back off the front of a file. */
  ghost predicate Faithful(read: ItemReader, enc: ItemWriter, items: seq<Item>) {
    forall item, rest {:trigger ReadsBack(read, enc, item, rest)} :: item in items ==> ReadsBack(read, enc, item, rest)
  }

  predicate ReadsBack(read: ItemReader, enc: ItemWriter, item: Item, rest: string) {
    read(enc(item) + rest) == Some((item, rest))
  }

  /** The reader refuses any strict prefix of one of these items. */
  ghost predicate Detects(read: ItemReader, enc: ItemWriter, items: seq<Item>) {
    forall item, cut {:trigger Notices(read, enc, item, cut)} ::
      item in items && 0 <= cut < |enc(item)| ==> Notices(read, enc, item, cut)
  }

  predicate Notices(read: ItemReader, enc: ItemWriter, item: Item, cut: nat)
    requires cut <= |enc(item)|
  {
    read(enc(item)[..cut]) == None
  }

  lemma FormatFits(items: seq<Item>)
    requires ItemsFit(items)
    ensures Faithful(READ, WRITE, items) && Detects(READ, WRITE, items)
  {
    forall item, rest | item in items ensures ReadsBack(READ, WRITE, item, rest) {
      ReadItemBack(item, rest);
    }
    forall item, cut | item in items && 0 <= cut < |WRITE(item)| ensures Notices(READ, WRITE, item, cut) {
      ReadItemShort(item, cut);
    }
  }

  lemma EncodeFront(enc: ItemWriter, items: seq<Item>, rest: string)
    requires items != []
    ensures Encode(enc, items) + rest == enc(items[0]) + (Encode(enc, items[1..]) + rest)
  {
  }

  lemma {:induction false} ReadItemsBack(read: ItemReader, enc: ItemWriter, items: seq<Item>, kv: Kv, rest: string)
    requires Faithful(read, enc, items)
    ensures ReadItems(read, Encode(enc, items) + rest, |items|, kv) == Some(PutAll(kv, items))
    decreases |items|
  {
    if items != [] {
      EncodeFront(enc, items, rest);
      assert ReadsBack(read, enc, items[0], Encode(enc, items[1..]) + rest);
      ReadItemsBack(read, enc, items[1..], kv[items[0].0 := items[0].1], rest);
    }
  }

  lemma {:induction false} PutAllIs(kv: Kv, items: seq<Item>)
    ensures PutAll(kv, items) == kv + MapOf(items)
    decreases |items|
  {
    if items != [] {
      var front, last := items[..|items| - 1], items[|items| - 1];
      PutAllIs(kv, front);
      PutAllLast(kv, front, last);
      assert items == front + [last];
    }
  }

  lemma {:induction false} PutAllLast(kv: Kv, front: seq<Item>, last: Item)
    ensures PutAll(kv, front + [last]) == PutAll(kv, front)[last.0 := last.1]
    decreases |front|
  {
    if front == [] {
      assert front + [last] == [last] && [last][1..] == [];
    } else {
      assert (front + [last])[1..] == front[1..] + [last];
      PutAllLast(kv[front[0].0 := front[0].1], front[1..], last);
    }
  }

  lemma HeaderParts(count: nat, rest: string)
    requires count < WORD64
    ensures var s := Header(count) + rest;
            |s| >= 16 && UnLe(s[..4]) == SNAPSHOT_MAGIC && UnLe(s[4..8]) == SNAPSHOT_VERSION
            && UnLe(s[8..16]) == count && s[16..] == rest
  {
    var s := Header(count) + rest;
    Widths();
    UnLeLe(SNAPSHOT_MAGIC, 4);
    UnLeLe(SNAPSHOT_VERSION, 4);
    UnLeLe(count, 8);
    FourPieces(Le(SNAPSHOT_MAGIC, 4), Le(SNAPSHOT_VERSION, 4), Le(count, 8), "", rest);
    assert Header(count) + "" + rest == s;
  }

  lemma LoadIs(count: nat, rest: string)
    requires count < WORD64
    ensures LoadFile(Header(count) + rest) ==
            match ReadItems(READ, rest, count, map[]) case None => Corrupted case Some(kv) => Loaded(kv)
  {
    HeaderParts(count, rest);
  }

  lemma Concat(a: string, b: string, c: string)
    ensures (a + b) + c == a + (b + c)
  {
  }

  lemma ListedPutAll(items: seq<Item>, kv: Kv)
    requires Lists(items, kv)
    ensures PutAll(map[], items) == kv
  {
    PutAllIs(map[], items);
    ListsIsMap(items, kv);
  }

  /** Loading what was saved gives back the map, even with bytes appended to the file. */
  lemma SnapshotRoundTrip(kv: Kv, items: seq<Item>, extra: string)
    requires Fits(kv) && Lists(items, kv)
    ensures LoadFile(FileOf(items) + extra) == Loaded(kv)
  {
    ListsSize(items, kv);
    Concat(Header(|items|), Encode(WRITE, items), extra);
    LoadIs(|items|, Encode(WRITE, items) + extra);
    FormatFits(items);
    ReadItemsBack(READ, WRITE, items, map[], extra);
    ListedPutAll(items, kv);
  }

  // ---------------------------------------------------------------- exactly what is accepted

  /** An item that is read was written by EncodeItem. */
  lemma ReadItemIs(s: string)
    requires AreBytes(s) && ReadItem(s).Some?
    ensures var (item, rest) := ReadItem(s).value;
            s == EncodeItem(item) + rest && |item.0| < WORD64 && |item.1| < WORD64 && AreBytes(rest)
  {
    ReadStringIs(s);
    var (key, rest) := ReadString(s).value;
    ReadStringIs(rest);
    var (value, rest2) := ReadString(rest).value;
    assert WriteString(key) + (WriteString(value) + rest2) == WriteString(key) + WriteString(value) + rest2;
  }

  /** The reader only takes off what the writer writes. */
  ghost predicate OnlyWritten(read: ItemReader, enc: ItemWriter) {
    forall s {:trigger read(s)} :: AreBytes(s) && read(s).Some? ==> TakenOff(read, enc, s)
  }

  ghost predicate TakenOff(read: ItemReader, enc: ItemWriter, s: string)
    requires read(s).Some?
  {
    var (item, rest) := read(s).value;
    s == enc(item) + rest && |item.0| < WORD64 && |item.1| < WORD64 && AreBytes(rest)
  }

  lemma FormatOnlyWritten()
    ensures OnlyWritten(READ, WRITE)
  {
    forall s: string | AreBytes(s) && READ(s).Some? ensures TakenOff(READ, WRITE, s) {
      ReadItemIs(s);
    }
  }

  /** s starts with these items, and they give the map. */
  ghost predicate Spells(enc: ItemWriter, s: string, items: seq<Item>, extra: string, kv0: Kv, kv: Kv) {
    s == Encode(enc, items) + extra && ItemsFit(items) && PutAll(kv0, items) == kv
  }

  lemma SpellsMore(enc: ItemWriter, s: string, item: Item, rest: string, more: seq<Item>, extra: string, kv0: Kv, kv: Kv)
    requires s == enc(item) + rest && |item.0| < WORD64 && |item.1| < WORD64 && Spells(enc, rest, more, extra, kv0[item.0 := item.1], kv)
    ensures Spells(enc, s, [item] + more, extra, kv0, kv)
  {
    assert ([item] + more)[1..] == more;
    EncodeFront(enc, [item] + more, extra);
  }

  lemma {:induction false} ReadItemsIs(read: ItemReader, enc: ItemWriter, s: string, count: nat, kv0: Kv, kv: Kv)
    returns (items: seq<Item>, extra: string)
    requires OnlyWritten(read, enc) && AreBytes(s) && ReadItems(read, s, count, kv0) == Some(kv)
    ensures |items| == count && Spells(enc, s, items, extra, kv0, kv)
    decreases count
  {
    if count == 0 {
      items, extra := [], s;
    } else {
      assert TakenOff(read, enc, s);
      var (item, rest) := read(s).value;
      var more;
      more, extra := ReadItemsIs(read, enc, rest, count - 1, kv0[item.0 := item.1], kv);
      SpellsMore(enc, s, item, rest, more, extra, kv0, kv);
      items := [item] + more;
    }
  }

  /** The file holds these items behind a header that counts them, and perhaps more bytes. */
  ghost predicate Holds(s: string, items: seq<Item>, extra: string, kv: Kv) {
    s == FileOf(items) + extra && |items| < WORD64 && ItemsFit(items) && PutAll(map[], items) == kv
  }

  lemma HeaderIs(s: string)
    requires AreBytes(s) && |s| >= 16 && UnLe(s[..4]) == SNAPSHOT_MAGIC && UnLe(s[4..8]) == SNAPSHOT_VERSION
    ensures UnLe(s[8..16]) < WORD64 && s == Header(UnLe(s[8..16])) + s[16..]
  {
    LeUnLe(s[..4]);
    LeUnLe(s[4..8]);
    LeUnLe(s[8..16]);
    Widths();
    assert s == s[..4] + s[4..8] + s[8..16] + s[16..];
  }

  /**
    A snapshot file is loaded if and only if it is the magic number, the version, a count and that many items, with anything after them;
    the map is what the items put one after the other, a later one replacing an earlier one of the same key.
   */
  lemma LoadIff(s: string, kv: Kv)
    requires AreBytes(s)
    ensures LoadFile(s) == Loaded(kv) <==> exists items, extra :: Holds(s, items, extra, kv)
  {
    if LoadFile(s) == Loaded(kv) {
      HeaderIs(s);
      FormatOnlyWritten();
      var items, extra := ReadItemsIs(READ, WRITE, s[16..], UnLe(s[8..16]), map[], kv);
      assert s == FileOf(items) + extra;
      assert Holds(s, items, extra, kv);
    }
    if exists items, extra :: Holds(s, items, extra, kv) {
      var items, extra :| Holds(s, items, extra, kv);
      HeldLoads(s, items, extra, kv);
    }
  }

  lemma HeldLoads(s: string, items: seq<Item>, extra: string, kv: Kv)
    requires Holds(s, items, extra, kv)
    ensures LoadFile(s) == Loaded(kv)
  {
    assert s == Header(|items|) + (Encode(WRITE, items) + extra);
    LoadIs(|items|, Encode(WRITE, items) + extra);
    FormatFits(items);
    ReadItemsBack(READ, WRITE, items, map[], extra);
  }

  /** Only a file with the right magic number and another version is a version mismatch; everything else that does not load is corrupted. */
  lemma VersionMismatchIff(s: string)
    ensures LoadFile(s) == VersionMismatch <==> |s| >= 16 && UnLe(s[0..4]) == 0x4B565331 && UnLe(s[4..8]) != 1
  {
    if |s| >= 16 {
      assert s[..4] == s[0..4];
    }
  }

  lemma ReadItemShort(item: Item, cut: nat)
    requires |item.0| < WORD64 && |item.1| < WORD64
    requires cut < |EncodeItem(item)|
    ensures ReadItem(EncodeItem(item)[..cut]) == None
  {
    var a, b := WriteString(item.0), WriteString(item.1);
    if cut < |a| {
      assert (a + b)[..cut] == a[..cut];
      ReadStringShort(item.0, cut);
    } else {
      assert (a + b)[..cut] == a + b[..cut - |a|];
      ReadStringBack(item.0, b[..cut - |a|]);
      ReadStringShort(item.1, cut - |a|);
    }
  }

  lemma CutInside(a: string, b: string, cut: nat)
    requires cut < |a + b|
    ensures (a + b)[..cut] == if cut < |a| then a[..cut] else a + b[..cut - |a|]
  {
  }

  lemma {:induction false} ReadItemsShort(read: ItemReader, enc: ItemWriter, items: seq<Item>, kv: Kv, cut: nat)
    requires Faithful(read, enc, items) && Detects(read, enc, items) && cut < |Encode(enc, items)|
    ensures ReadItems(read, Encode(enc, items)[..cut], |items|, kv) == None
    decreases |items|
  {
    var one, rest := enc(items[0]), Encode(enc, items[1..]);
    CutInside(one, rest, cut);
    if cut < |one| {
      assert Notices(read, enc, items[0], cut);
    } else {
      assert ReadsBack(read, enc, items[0], rest[..cut - |one|]);
      ReadItemsShort(read, enc, items[1..], kv[items[0].0 := items[0].1], cut - |one|);
    }
  }

  /** Every strict prefix of a saved file is refused. */
  lemma StrictPrefixRefused(kv: Kv, items: seq<Item>, cut: nat)
    requires Fits(kv) && Lists(items, kv) && cut < |FileOf(items)|
    ensures LoadFile(FileOf(items)[..cut]) == Corrupted
  {
    ListsSize(items, kv);
    if cut >= 16 {
      CutInside(Header(|items|), Encode(WRITE, items), cut);
      LoadIs(|items|, Encode(WRITE, items)[..cut - 16]);
      FormatFits(items);
      ReadItemsShort(READ, WRITE, items, map[], cut - 16);
    }
  }

  // ---------------------------------------------------------------- the object

  /** The insertion step of the sort. */
  method Insert(items: seq<Item>, item: Item) returns (r: seq<Item>)
    requires Sorted(items) && forall i :: 0 <= i < |items| ==> items[i].0 != item.0
    ensures Sorted(r) && (forall x :: x in r <==> x in items || x == item)
  {
    var i := |items|;
    while i > 0 && Less(item.0, items[i - 1].0)
      invariant 0 <= i <= |items|
      invariant forall j :: i <= j < |items| ==> Less(item.0, items[j].0)
    {
      i := i - 1;
    }
    r := items[..i] + [item] + items[i..];
    Inserted(items, item, i);
  }

  lemma Inserted(items: seq<Item>, item: Item, i: nat)
    requires Sorted(items) && i <= |items|
    requires forall j :: 0 <= j < |items| ==> items[j].0 != item.0
    requires forall j :: i <= j < |items| ==> Less(item.0, items[j].0)
    requires i > 0 ==> !Less(item.0, items[i - 1].0)
    ensures Sorted(items[..i] + [item] + items[i..])
    ensures forall x :: x in items[..i] + [item] + items[i..] <==> x in items || x == item
  {
    forall j | 0 <= j < i ensures Less(items[j].0, item.0) {
      LessTotal(items[i - 1].0, item.0);
      if j < i - 1 {
        LessTrans(items[j].0, items[i - 1].0, item.0);
      }
    }
    assert items == items[..i] + items[i..];
  }

  /** The hash table read out in any order and sorted by key. */
  method SortItems(kv: Kv) returns (items: seq<Item>)
    ensures Lists(items, kv)
  {
    items := [];
    var left := kv.Keys;
    while left != {}
      invariant left <= kv.Keys
      invariant Lists(items, kv - left)
      decreases |left|
    {
      var key :| key in left;
      KeyAbsent(items, kv - left, key);
      var more := Insert(items, (key, kv[key]));
      InsertLists(items, more, kv - left, key, kv[key]);
      KeyMoved(kv, left, key);
      items := more;
      left := left - {key};
    }
    assert kv - {} == kv;
  }

  lemma KeyAbsent(items: seq<Item>, kv: Kv, key: string)
    requires Lists(items, kv) && key !in kv
    ensures forall i :: 0 <= i < |items| ==> items[i].0 != key
  {
  }

  lemma KeyMoved(kv: Kv, left: set<string>, key: string)
    requires key in left && left <= kv.Keys
    ensures kv - (left - {key}) == (kv - left)[key := kv[key]]
  {
  }

  method WriteItems(items: seq<Item>) returns (file: string)
    ensures file == FileOf(items)
  {
    file := Header(|items|);
    var i := 0;
    while i < |items|
      invariant 0 <= i <= |items|
      invariant file + Encode(WRITE, items[i..]) == FileOf(items)
    {
      EncodeNext(items, i);
      file := file + EncodeItem(items[i]);
      i := i + 1;
    }
  }

  lemma EncodeNext(items: seq<Item>, i: nat)
    requires i < |items|
    ensures Encode(WRITE, items[i..]) == EncodeItem(items[i]) + Encode(WRITE, items[i + 1..])
  {
    assert items[i..][1..] == items[i + 1..];
  }

  class KvStateMachine {
    var kv: Kv

    constructor ()
      ensures kv == map[]
    {
      kv := map[];
    }

    /** A refused command leaves the map as it was. */
    method Apply(data: string) returns (ok: bool)
      modifies this
      ensures ok == Effect(old(kv), data).Some?
      ensures kv == if ok then Effect(old(kv), data).value else old(kv)
    {
      if data == NO_OP {
        return true;
      }
      var parsed := Deserialize(data);
      match parsed
      case None => ok := false;
      case Some(Set(key, value)) =>
        kv := kv[key := value];
        ok := true;
      case Some(Delete(key)) =>
        kv := kv - {key};
        ok := true;
      case Some(Unknown) => ok := false;
    }

    /** The file depends on the map alone: it is the one every ascending listing of the map gives. */
    method SaveSnapshot() returns (file: string)
      ensures forall items :: Lists(items, kv) ==> file == FileOf(items)
      ensures exists items :: Lists(items, kv) && file == FileOf(items)
    {
      var items := SortItems(kv);
      file := WriteItems(items);
      forall other | Lists(other, kv) ensures other == items {
        ListsUnique(items, other, kv);
      }
    }

    /** A file that does not load leaves the map as it was. */
    method LoadSnapshot(file: string) returns (status: Status)
      modifies this
      ensures status == LoadFile(file)
      ensures kv == if status.Loaded? then status.kv else old(kv)
    {
      if |file| < 16 || UnLe(file[..4]) != SNAPSHOT_MAGIC {
        return Corrupted;
      }
      if UnLe(file[4..8]) != SNAPSHOT_VERSION {
        return VersionMismatch;
      }
      var incoming := ReadMap(READ, file[16..], UnLe(file[8..16]));
      match incoming
      case None => status := Corrupted;
      case Some(loaded) =>
        kv := loaded;
        status := Loaded(kv);
    }
  }

  /** The loop over the items of a file. */
  method ReadMap(read: ItemReader, items: string, count: nat) returns (r: Option<Kv>)
    ensures r == ReadItems(read, items, count, map[])
  {
    var rest, kv: Kv, i := items, map[], 0;
    while i < count
      invariant 0 <= i <= count
      invariant ReadItems(read, rest, count - i, kv) == ReadItems(read, items, count, map[])
    {
      match read(rest)
      case None => return None;
      case Some((item, more)) =>
        kv := kv[item.0 := item.1];
        rest := more;
        i := i + 1;
    }
    r := Some(kv);
  }

  lemma InsertLists(before: seq<Item>, after: seq<Item>, kv: Kv, key: string, value: string)
    requires Lists(before, kv) && key !in kv
    requires Sorted(after) && (forall x :: x in after <==> x in before || x == (key, value))
    ensures Lists(after, kv[key := value])
  {
    var kv' := kv[key := value];
    forall k | k in kv' ensures (k, kv'[k]) in after {
    }
    forall i | 0 <= i < |after| ensures after[i].0 in kv' && kv'[after[i].0] == after[i].1 {
      assert after[i] in after;
    }
  }
}
