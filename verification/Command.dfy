/** The text form in which client commands travel through the log. A C++ char is a Dafny char. */
module Command {
  import opened Wrappers

  datatype Command = Unknown | Set(key: string, value: string) | Delete(key: string)

  const NO_OP := "__raft_internal_noop__"
  const SNAPSHOT_MARKER := "snapshot"

  /** Where the part that starts at pos ends: at the next delimiter, or at the end of the text. */
  function EndOf(s: string, pos: nat): (e: nat)
    requires pos <= |s|
    ensures pos <= e <= |s| && (e < |s| ==> s[e] == '|')
    ensures forall j :: pos <= j < e ==> s[j] != '|'
    decreases |s| - pos
  {
    if pos == |s| || s[pos] == '|' then pos else EndOf(s, pos + 1)
  }

  /** Where the next part starts. */
  function After(s: string, pos: nat): (a: nat)
    requires pos <= |s|
    ensures pos <= a <= |s| && (pos < |s| ==> pos < a)
  {
    var e := EndOf(s, pos);
    if e < |s| then e + 1 else |s|
  }

  /** The parts std::getline yields from position pos on: an empty part after a trailing delimiter is not one of them. */
  function PartsFrom(s: string, pos: nat): (r: seq<string>)
    requires pos <= |s|
    decreases |s| - pos
  {
    if pos == |s| then [] else [s[pos..EndOf(s, pos)]] + PartsFrom(s, After(s, pos))
  }

  function Parts(s: string): seq<string> { PartsFrom(s, 0) }

  /** One call of getline. */
  method GetLine(s: string, pos: nat) returns (item: string, after: nat)
    requires pos <= |s|
    ensures item == s[pos..EndOf(s, pos)] && after == After(s, pos)
  {
    var i := pos;
    while i < |s| && s[i] != '|'
      invariant pos <= i <= |s|
      invariant EndOf(s, i) == EndOf(s, pos)
    {
      i := i + 1;
    }
    item, after := s[pos..i], if i < |s| then i + 1 else |s|;
  }

  /** The loop over getline. */
  method Split(s: string) returns (parts: seq<string>)
    ensures parts == Parts(s)
  {
    parts := [];
    var pos: nat := 0;
    while pos < |s|
      invariant pos <= |s| && parts + PartsFrom(s, pos) == Parts(s)
      decreases |s| - pos
    {
      var item, after := GetLine(s, pos);
      Shift(parts, item, PartsFrom(s, after));
      parts, pos := parts + [item], after;
    }
  }

  lemma Shift(parts: seq<string>, p: string, rest: seq<string>)
    ensures (parts + [p]) + rest == parts + ([p] + rest)
  {
  }

  lemma EndIs(s: string, pos: nat, e: nat)
    requires pos <= e <= |s| && (e < |s| ==> s[e] == '|') && forall j :: pos <= j < e ==> s[j] != '|'
    ensures EndOf(s, pos) == e
  {
  }

  /** The parts put back together. */
  function Join(parts: seq<string>): string {
    if parts == [] then "" else if |parts| == 1 then parts[0] else parts[0] + "|" + Join(parts[1..])
  }

  /** No part contains the delimiter. */
  lemma {:induction false} PartsFree(s: string, pos: nat)
    requires pos <= |s|
    ensures forall p :: p in PartsFrom(s, pos) ==> '|' !in p
    decreases |s| - pos
  {
    if pos < |s| {
      PartsFree(s, After(s, pos));
    }
  }

  predicate EndsInDelimiter(s: string) { s != "" && s[|s| - 1] == '|' }

  /** The parts spell the text, except that one trailing delimiter is lost. */
  lemma PartsSpell(s: string)
    ensures s == Join(Parts(s)) + (if EndsInDelimiter(s) then "|" else "")
  {
    SpellFrom(s, 0);
    assert s[0..] == s;
  }

  lemma {:induction false} SpellFrom(s: string, pos: nat)
    requires pos <= |s|
    ensures s[pos..] == Join(PartsFrom(s, pos)) + (if pos < |s| && EndsInDelimiter(s) then "|" else "")
    decreases |s| - pos
  {
    if pos < |s| {
      var e, rest := EndOf(s, pos), PartsFrom(s, After(s, pos));
      SpellFrom(s, After(s, pos));
      JoinOne(s[pos..e], rest);
      if e < |s| {
        Around(s, pos, e, Join(rest), if e + 1 < |s| && EndsInDelimiter(s) then "|" else "");
      } else {
        assert s[pos..] == s[pos..e];
      }
    }
  }

  lemma Around(s: string, pos: nat, e: nat, rest: string, tail: string)
    requires pos <= e < |s| && s[e] == '|' && s[e + 1..] == rest + tail
    ensures s[pos..] == s[pos..e] + "|" + rest + tail
  {
  }

  lemma JoinOne(p: string, rest: seq<string>)
    ensures Join([p] + rest) == if rest == [] then p else p + "|" + Join(rest)
  {
    assert ([p] + rest)[1..] == rest;
  }

  predicate IsValid(c: Command) {
    match c
    case Unknown => false
    case Set(key, _) => key != ""
    case Delete(key) => key != ""
  }

  function Serialize(c: Command): string {
    match c
    case Unknown => ""
    case Set(key, value) => "SET|" + key + "|" + value
    case Delete(key) => "DEL|" + key + "|"
  }

  function Interpret(parts: seq<string>): Option<Command> {
    if parts == [] then None
    else if parts[0] == "SET" then
      if |parts| < 3 then None
      else if IsValid(Set(parts[1], parts[2])) then Some(Set(parts[1], parts[2])) else None
    else if parts[0] == "DEL" then
      if |parts| < 2 then None
      else if IsValid(Delete(parts[1])) then Some(Delete(parts[1])) else None
    else None
  }

  function Parse(data: string): Option<Command> { Interpret(Parts(data)) }

  method Deserialize(data: string) returns (r: Option<Command>)
    ensures r == Parse(data)
  {
    var parts := Split(data);
    r := Interpret(parts);
  }

  /** The commands the text form can carry. */
  predicate Transportable(c: Command) {
    && IsValid(c) && '|' !in c.key
    && (c.Set? ==> c.value != "" && '|' !in c.value)
  }

  /** The field in front of the first delimiter at or after pos. */
  lemma FieldAt(s: string, pos: nat, field: string)
    requires pos + |field| < |s| && s[pos..pos + |field|] == field && '|' !in field && s[pos + |field|] == '|'
    ensures PartsFrom(s, pos) == [field] + PartsFrom(s, pos + |field| + 1)
  {
    forall j | pos <= j < pos + |field| ensures s[j] != '|' {
      assert s[j] == field[j - pos];
    }
    EndIs(s, pos, pos + |field|);
  }

  lemma LastField(s: string, pos: nat, field: string)
    requires pos + |field| == |s| && s[pos..] == field && '|' !in field
    ensures PartsFrom(s, pos) == if field == "" then [] else [field]
  {
    if field != "" {
      forall j | pos <= j < |s| ensures s[j] != '|' {
        assert s[j] == field[j - pos];
      }
      EndIs(s, pos, |s|);
      assert s[pos..|s|] == field;
    }
  }

  /** A field with a delimiter in it does not come back. */
  lemma BrokenField(s: string, pos: nat, field: string)
    requires pos < |s| && '|' in field
    ensures PartsFrom(s, pos) != [] && PartsFrom(s, pos)[0] != field
  {
    PartsFree(s, pos);
  }

  /** s is a three-letter tag and two fields, separated by delimiters. */
  predicate Layout(s: string, tag: string, key: string, value: string) {
    && |tag| == 3 && |s| == 5 + |key| + |value| && s[0..3] == tag && s[3] == '|'
    && s[4..4 + |key|] == key && s[4 + |key|] == '|' && s[5 + |key|..] == value
  }

  lemma LayoutOf(tag: string, key: string, value: string)
    requires |tag| == 3
    ensures Layout(tag + "|" + key + "|" + value, tag, key, value)
  {
  }

  lemma KeyPart(s: string, tag: string, key: string, value: string)
    requires Layout(s, tag, key, value) && '|' !in tag
    ensures Parts(s) == [tag] + PartsFrom(s, 4)
    ensures '|' !in key ==> PartsFrom(s, 4) == [key] + PartsFrom(s, 5 + |key|)
    ensures '|' in key ==> PartsFrom(s, 4) != [] && PartsFrom(s, 4)[0] != key
  {
    FieldAt(s, 0, tag);
    if '|' in key {
      BrokenField(s, 4, key);
    } else {
      FieldAt(s, 4, key);
    }
  }

  lemma ValuePart(s: string, tag: string, key: string, value: string)
    requires Layout(s, tag, key, value)
    ensures '|' !in value ==> PartsFrom(s, 5 + |key|) == if value == "" then [] else [value]
    ensures '|' in value ==> PartsFrom(s, 5 + |key|) != [] && PartsFrom(s, 5 + |key|)[0] != value
  {
    if '|' in value {
      BrokenField(s, 5 + |key|, value);
    } else {
      LastField(s, 5 + |key|, value);
    }
  }

  lemma DeleteTrip(key: string)
    ensures Parse(Serialize(Delete(key))) == Some(Delete(key)) <==> Transportable(Delete(key))
  {
    assert Serialize(Delete(key)) == "DEL" + "|" + key + "|" + "";
    LayoutOf("DEL", key, "");
    KeyPart(Serialize(Delete(key)), "DEL", key, "");
    ValuePart(Serialize(Delete(key)), "DEL", key, "");
  }

  lemma SetTrip(key: string, value: string)
    ensures Parse(Serialize(Set(key, value))) == Some(Set(key, value)) <==> Transportable(Set(key, value))
  {
    assert Serialize(Set(key, value)) == "SET" + "|" + key + "|" + value;
    LayoutOf("SET", key, value);
    KeyPart(Serialize(Set(key, value)), "SET", key, value);
    ValuePart(Serialize(Set(key, value)), "SET", key, value);
  }

  /** The first part of a text, and whether others follow. */
  lemma FirstPart(s: string, pos: nat)
    requires pos < |s|
    ensures var e := EndOf(s, pos);
            && PartsFrom(s, pos) != [] && PartsFrom(s, pos)[0] == s[pos..e]
            && PartsFrom(s, pos)[1..] == PartsFrom(s, if e < |s| then e + 1 else |s|)
  {
  }

  lemma SecondPart(s: string, pos: nat, p: string)
    requires pos <= |s| && |PartsFrom(s, pos)| >= 2 && PartsFrom(s, pos)[0] == p
    ensures pos + |p| < |s| && s[pos..pos + |p|] == p && s[pos + |p|] == '|' && '|' !in p
    ensures PartsFrom(s, pos)[1..] == PartsFrom(s, pos + |p| + 1)
  {
    FirstPart(s, pos);
    var e := EndOf(s, pos);
    assert forall j :: 0 <= j < |p| ==> p[j] == s[pos + j];
  }

  /** What may follow the last field that is read. */
  predicate EndsField(rest: string) { rest == "" || rest[0] == '|' }

  predicate SpellsSet(s: string, key: string, value: string, rest: string) {
    s == "SET|" + key + "|" + value + rest && EndsField(rest) && (rest == "" ==> value != "")
  }

  predicate SpellsDelete(s: string, key: string, rest: string) { s == "DEL|" + key + rest && EndsField(rest) }

  lemma SetSpelled(s: string, key: string, value: string, rest: string)
    requires SpellsSet(s, key, value, rest) && '|' !in key && '|' !in value
    ensures |Parts(s)| >= 3 && Parts(s)[0] == "SET" && Parts(s)[1] == key && Parts(s)[2] == value
  {
    var at := 5 + |key|;
    SetLayout(s, key, value, rest);
    FieldAt(s, 0, "SET");
    FieldAt(s, 4, key);
    if rest == "" {
      LastField(s, at, value);
    } else {
      FieldAt(s, at, value);
    }
  }

  /** Where the fields of such a text lie. */
  lemma SetLayout(s: string, key: string, value: string, rest: string)
    ensures var t, at := "SET|" + key + "|" + value + rest, 5 + |key|;
            && t[0..3] == "SET" && t[3] == '|' && t[4..4 + |key|] == key && t[4 + |key|] == '|'
            && t[at..at + |value|] == value && t[at + |value|..] == rest && |t| == at + |value| + |rest|
  {
  }

  lemma Rejoined(s: string, key: string, value: string)
    requires |s| >= 5 + |key| + |value| && s[0..3] == "SET" && s[3] == '|' && s[4..4 + |key|] == key && s[4 + |key|] == '|'
    requires s[5 + |key|..5 + |key| + |value|] == value
    ensures s == "SET|" + key + "|" + value + s[5 + |key| + |value|..]
  {
  }

  lemma SetRead(s: string, key: string, value: string)
    requires Parse(s) == Some(Set(key, value))
    ensures key != "" && '|' !in key && '|' !in value && |s| >= 5 + |key| + |value| && SpellsSet(s, key, value, s[5 + |key| + |value|..])
  {
    SecondPart(s, 0, "SET");
    SecondPart(s, 4, key);
    var at := 5 + |key|;
    FirstPart(s, at);
    PartsFree(s, at);
    Rejoined(s, key, value);
  }

  /** A text is read as a Set if and only if it spells one; whatever follows a further delimiter is ignored. */
  lemma ParseSetIff(s: string, key: string, value: string)
    ensures Parse(s) == Some(Set(key, value)) <==>
              key != "" && '|' !in key && '|' !in value && exists rest :: SpellsSet(s, key, value, rest)
  {
    if Parse(s) == Some(Set(key, value)) {
      SetRead(s, key, value);
    }
    if key != "" && '|' !in key && '|' !in value && exists rest :: SpellsSet(s, key, value, rest) {
      var rest :| SpellsSet(s, key, value, rest);
      SetSpelled(s, key, value, rest);
    }
  }

  lemma DeleteLayout(key: string, rest: string)
    ensures var t := "DEL|" + key + rest;
            t[0..3] == "DEL" && t[3] == '|' && t[4..4 + |key|] == key && t[4 + |key|..] == rest && |t| == 4 + |key| + |rest|
  {
  }

  lemma DeleteSpelled(s: string, key: string, rest: string)
    requires SpellsDelete(s, key, rest) && '|' !in key && key != ""
    ensures |Parts(s)| >= 2 && Parts(s)[0] == "DEL" && Parts(s)[1] == key
  {
    DeleteLayout(key, rest);
    FieldAt(s, 0, "DEL");
    if rest == "" {
      LastField(s, 4, key);
    } else {
      FieldAt(s, 4, key);
    }
  }

  lemma DeleteRejoined(s: string, key: string)
    requires |s| >= 4 + |key| && s[0..3] == "DEL" && s[3] == '|' && s[4..4 + |key|] == key
    ensures s == "DEL|" + key + s[4 + |key|..]
  {
  }

  lemma DeleteRead(s: string, key: string)
    requires Parse(s) == Some(Delete(key))
    ensures key != "" && '|' !in key && |s| >= 4 + |key| && SpellsDelete(s, key, s[4 + |key|..])
  {
    SecondPart(s, 0, "DEL");
    FirstPart(s, 4);
    PartsFree(s, 4);
    DeleteRejoined(s, key);
  }

  /** The same for a Delete. */
  lemma ParseDeleteIff(s: string, key: string)
    ensures Parse(s) == Some(Delete(key)) <==> key != "" && '|' !in key && exists rest :: SpellsDelete(s, key, rest)
  {
    if Parse(s) == Some(Delete(key)) {
      DeleteRead(s, key);
    }
    if key != "" && '|' !in key && exists rest :: SpellsDelete(s, key, rest) {
      var rest :| SpellsDelete(s, key, rest);
      DeleteSpelled(s, key, rest);
    }
  }

  /** Exactly the transportable commands survive the trip through the log. */
  lemma RoundTrip(c: Command)
    ensures Parse(Serialize(c)) == Some(c) <==> Transportable(c)
  {
    match c
    case Unknown =>
    case Delete(key) => DeleteTrip(key);
    case Set(key, value) => SetTrip(key, value);
  }

  /** Two transportable commands with the same text are the same command. */
  lemma SerializeInjective(a: Command, b: Command)
    requires Transportable(a) && Transportable(b) && Serialize(a) == Serialize(b)
    ensures a == b
  {
    RoundTrip(a);
    RoundTrip(b);
  }

  /** No command's text is one of the two texts the log uses for itself. */
  lemma ReservedTexts(c: Command)
    ensures Serialize(c) != NO_OP && Serialize(c) != SNAPSHOT_MARKER
    ensures Parse(SNAPSHOT_MARKER) == None
  {
    assert !c.Unknown? ==> Serialize(c)[3] == '|';
    LastField(SNAPSHOT_MARKER, 0, SNAPSHOT_MARKER);
  }

  /** A validated Set with an empty value is written to the log and then refused by every replica. */
  lemma EmptyValueRefused(key: string)
    requires key != "" && '|' !in key
    ensures IsValid(Set(key, "")) && Parse(Serialize(Set(key, ""))) == None
  {
    assert Serialize(Set(key, "")) == "SET" + "|" + key + "|" + "";
    LayoutOf("SET", key, "");
    KeyPart(Serialize(Set(key, "")), "SET", key, "");
    ValuePart(Serialize(Set(key, "")), "SET", key, "");
  }
}
