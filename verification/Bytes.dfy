/**
  Fixed-width little-endian numbers and length-prefixed strings inside a byte string; a char stands for one byte.
  A reader consumes the front of what is left of a file and returns the rest, as the streams of the source do.
 */
module Bytes {
  import opened Wrappers

  const WORD64: nat := 0x1_0000_0000_0000_0000
  const WORD32: nat := 0x1_0000_0000

  function Pow256(w: nat): (r: nat)
    ensures r > 0
  {
    if w == 0 then 1 else 256 * Pow256(w - 1)
  }

  function Le(n: nat, w: nat): (r: string)
    ensures |r| == w
  {
    if w == 0 then "" else [(n % 256) as char] + Le(n / 256, w - 1)
  }

  function UnLe(s: string): nat {
    if s == "" then 0 else s[0] as int + 256 * UnLe(s[1..])
  }

  /** A number that fits its width is read back. */
  lemma {:induction false} UnLeLe(n: nat, w: nat)
    requires n < Pow256(w)
    ensures UnLe(Le(n, w)) == n
  {
    if w > 0 {
      UnLeLe(n / 256, w - 1);
      assert Le(n, w)[1..] == Le(n / 256, w - 1);
    }
  }

  /** A string that stands for bytes. */
  predicate AreBytes(s: string) { forall k :: 0 <= k < |s| ==> s[k] as int < 256 }

  /** Bytes are the number they spell. */
  lemma {:induction false} LeUnLe(s: string)
    requires AreBytes(s)
    ensures UnLe(s) < Pow256(|s|) && Le(UnLe(s), |s|) == s
    decreases |s|
  {
    if s != "" {
      LeUnLe(s[1..]);
      assert UnLe(s) % 256 == s[0] as int && UnLe(s) / 256 == UnLe(s[1..]);
      assert s == [s[0]] + s[1..];
    }
  }

  lemma Widths()
    ensures Pow256(4) == WORD32 && Pow256(8) == WORD64
  {
    assert Pow256(2) == 65536;
    assert Pow256(4) == 256 * Pow256(3) == 65536 * Pow256(2);
    assert Pow256(6) == 65536 * Pow256(4);
    assert Pow256(8) == 65536 * Pow256(6);
  }

  /** Where four consecutive pieces of a file start and end. */
  lemma FourPieces(a: string, b: string, c: string, d: string, rest: string)
    ensures var s := a + b + c + d + rest;
            && s[..|a|] == a && s[|a|..|a| + |b|] == b && s[|a| + |b|..|a| + |b| + |c|] == c
            && s[|a| + |b| + |c|..|a| + |b| + |c| + |d|] == d && s[|a| + |b| + |c| + |d|..] == rest
  {
  }

  /** in.read of w bytes. */
  function Take(s: string, w: nat): (r: Option<(string, string)>)
    ensures r.Some? <==> |s| >= w
    ensures r.Some? ==> r.value.0 + r.value.1 == s && |r.value.0| == w
  {
    if |s| < w then None else Some((s[..w], s[w..]))
  }

  function ReadNum(s: string, w: nat): (r: Option<(nat, string)>)
    ensures r.Some? ==> |r.value.1| + w == |s|
  {
    if |s| < w then None else Some((UnLe(s[..w]), s[w..]))
  }

  function WriteString(v: string): string { Le(|v|, 8) + v }

  function ReadString(s: string): (r: Option<(string, string)>)
    ensures r.Some? ==> |r.value.0| + |r.value.1| + 8 == |s|
  {
    match ReadNum(s, 8)
    case None => None
    case Some((size, rest)) => Take(rest, size)
  }

  lemma ReadNumBack(n: nat, w: nat, rest: string)
    requires n < Pow256(w)
    ensures ReadNum(Le(n, w) + rest, w) == Some((n, rest))
  {
    UnLeLe(n, w);
    assert (Le(n, w) + rest)[..w] == Le(n, w);
    assert (Le(n, w) + rest)[w..] == rest;
  }

  lemma ReadStringBack(v: string, rest: string)
    requires |v| < WORD64
    ensures ReadString(WriteString(v) + rest) == Some((v, rest))
  {
    Widths();
    assert WriteString(v) + rest == Le(|v|, 8) + (v + rest);
    ReadNumBack(|v|, 8, v + rest);
    assert (v + rest)[..|v|] == v && (v + rest)[|v|..] == rest;
  }

  /** A string that is read was written by WriteString, with whatever follows it. */
  lemma ReadStringIs(s: string)
    requires AreBytes(s) && ReadString(s).Some?
    ensures var (v, rest) := ReadString(s).value;
            s == WriteString(v) + rest && |v| < WORD64 && AreBytes(rest)
  {
    var (v, rest) := ReadString(s).value;
    LeUnLe(s[..8]);
    Widths();
    assert s == s[..8] + s[8..] && s[8..] == v + rest;
    assert forall k :: 0 <= k < |rest| ==> rest[k] == s[|s| - |rest| + k];
  }

  /** A strictly shortened string is refused. */
  lemma ReadStringShort(v: string, cut: nat)
    requires |v| < WORD64 && cut < |WriteString(v)|
    ensures ReadString(WriteString(v)[..cut]) == None
  {
    if cut >= 8 {
      Widths();
      var s := WriteString(v)[..cut];
      assert s == Le(|v|, 8) + v[..cut - 8];
      ReadNumBack(|v|, 8, v[..cut - 8]);
    }
  }
}
