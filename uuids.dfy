/**
 * UUIDs and their text. `str(u)` writes the canonical form: 32 lower-case hex
 * digits grouped 8-4-4-4-12 by hyphens. `UUID(s)` reads text back; like it,
 * this model's parser ignores hyphens and accepts hex digits of either case,
 * and it returns None on anything else.
 */
module Uuids {
  import opened Wrappers

  type Nibble = n: int | 0 <= n < 16

  /** A 128-bit UUID as its 32 hex digits, most significant first. */
  type Uuid = d: seq<Nibble> | |d| == 32 witness seq(32, _ => 0)

  predicate IsHexChar(c: char) {
    '0' <= c <= '9' || 'a' <= c <= 'f' || 'A' <= c <= 'F'
  }

  /** The lower-case hex digit `str(u)` writes for a nibble. */
  function HexChar(n: Nibble): char {
    if n < 10 then ('0' as int + n) as char else ('a' as int + n - 10) as char
  }

  function NibbleOf(c: char): Nibble
    requires IsHexChar(c)
  {
    if '0' <= c <= '9' then c as int - '0' as int
    else if 'a' <= c <= 'f' then c as int - 'a' as int + 10
    else c as int - 'A' as int + 10
  }

  function Hex(d: seq<Nibble>): string {
    seq(|d|, i requires 0 <= i < |d| => HexChar(d[i]))
  }

  /** `str(u)`: the canonical 8-4-4-4-12 text of a UUID. */
  function Text(u: Uuid): (s: string)
    ensures |s| == 36
    ensures s[8] == s[13] == s[18] == s[23] == '-'
  {
    Hex(u[..8]) + "-" + Hex(u[8..12]) + "-" + Hex(u[12..16]) + "-" + Hex(u[16..20]) + "-" + Hex(u[20..])
  }

  /** The text with every hyphen removed, as `UUID(s)` does before reading digits. */
  function RemoveHyphens(s: string): string {
    if s == [] then []
    else (if s[0] == '-' then [] else [s[0]]) + RemoveHyphens(s[1..])
  }

  /** `UUID(s)`: None where the source raises `ValueError`. */
  function ParseUuid(s: string): Option<Uuid> {
    var h := RemoveHyphens(s);
    if |h| == 32 && forall i | 0 <= i < 32 :: IsHexChar(h[i]) then
      Some(seq(32, i requires 0 <= i < 32 => NibbleOf(h[i])))
    else
      None
  }

  /** Text that reads back as a UUID whose canonical text is the text itself. */
  predicate IsCanonical(s: string) {
    ParseUuid(s).Some? && Text(ParseUuid(s).value) == s
  }

  lemma {:induction false} RemoveHyphensAppend(a: string, b: string)
    ensures RemoveHyphens(a + b) == RemoveHyphens(a) + RemoveHyphens(b)
  {
    if a != [] {
      assert (a + b)[1..] == a[1..] + b;
      RemoveHyphensAppend(a[1..], b);
    } else {
      assert a + b == b;
    }
  }

  lemma {:induction false} RemoveHyphensOfHex(d: seq<Nibble>)
    ensures RemoveHyphens(Hex(d)) == Hex(d)
  {
    if d != [] {
      assert Hex(d)[1..] == Hex(d[1..]);
      RemoveHyphensOfHex(d[1..]);
    }
  }

  lemma HexAppend(x: seq<Nibble>, y: seq<Nibble>)
    ensures Hex(x + y) == Hex(x) + Hex(y)
  {
  }

  lemma RemoveHyphensOfHyphen()
    ensures RemoveHyphens("-") == []
  {
    assert "-"[1..] == [];
  }

  /** Removing the hyphens after one more hyphen and group of digits adds just those digits. */
  lemma AppendGroup(t: string, d: seq<Nibble>)
    ensures RemoveHyphens(t + "-" + Hex(d)) == RemoveHyphens(t) + Hex(d)
  {
    RemoveHyphensAppend(t + "-", Hex(d));
    RemoveHyphensAppend(t, "-");
    RemoveHyphensOfHyphen();
    RemoveHyphensOfHex(d);
    assert RemoveHyphens(t + "-") == RemoveHyphens(t);
  }

  /** The hyphen-free digits of the canonical text are the UUID's hex digits. */
  lemma TextDigits(u: Uuid)
    ensures RemoveHyphens(Text(u)) == Hex(u)
  {
    var t1 := Hex(u[..8]);
    RemoveHyphensOfHex(u[..8]);
    var t2 := t1 + "-" + Hex(u[8..12]);
    AppendGroup(t1, u[8..12]);
    HexAppend(u[..8], u[8..12]);
    assert u[..8] + u[8..12] == u[..12];
    var t3 := t2 + "-" + Hex(u[12..16]);
    AppendGroup(t2, u[12..16]);
    HexAppend(u[..12], u[12..16]);
    assert u[..12] + u[12..16] == u[..16];
    var t4 := t3 + "-" + Hex(u[16..20]);
    AppendGroup(t3, u[16..20]);
    HexAppend(u[..16], u[16..20]);
    assert u[..16] + u[16..20] == u[..20];
    var t5 := t4 + "-" + Hex(u[20..]);
    AppendGroup(t4, u[20..]);
    HexAppend(u[..20], u[20..]);
    assert u[..20] + u[20..] == u;
    assert Text(u) == t5;
  }

  /** `UUID(str(u)) == u`: the canonical text always reads back as the same UUID. */
  lemma ParseText(u: Uuid)
    ensures ParseUuid(Text(u)) == Some(u)
    ensures IsCanonical(Text(u))
  {
    TextDigits(u);
    var h := Hex(u);
    assert forall i | 0 <= i < 32 :: IsHexChar(h[i]) && NibbleOf(h[i]) == u[i];
    assert seq(32, i requires 0 <= i < 32 => NibbleOf(h[i])) == u;
  }

  /** Distinct UUIDs have distinct canonical texts, so text keys identify sessions. */
  lemma TextInjective(u: Uuid, v: Uuid)
    requires Text(u) == Text(v)
    ensures u == v
  {
    ParseText(u);
    ParseText(v);
  }
}
