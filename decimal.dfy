/**
 * Decimal rendering of natural numbers and of `_`-separated number lists, the
 * shape shared by every identifier's string form (`dag_1400000000000_1_3`).
 */
module Decimal {
  import opened Wrappers

  predicate IsDigit(c: char) {
    '0' <= c <= '9'
  }

  predicate AllDigits(s: string) {
    forall i :: 0 <= i < |s| ==> IsDigit(s[i])
  }

  function DigitChar(d: nat): (c: char)
    requires d < 10
    ensures IsDigit(c) && c as int - '0' as int == d
  {
    ('0' as int + d) as char
  }

  function DigitValue(c: char): (d: nat)
    requires IsDigit(c)
    ensures d < 10
  {
    c as int - '0' as int
  }

  /** The shortest decimal rendering of `n` (no leading zeros). */
  function NatToString(n: nat): (s: string)
    ensures |s| > 0 && AllDigits(s)
    decreases n
  {
    if n < 10 then [DigitChar(n)] else NatToString(n / 10) + [DigitChar(n % 10)]
  }

  /** The value of a string of decimal digits (Java's `Integer.parseInt` on such a string). */
  function StringToNat(s: string): nat
    requires AllDigits(s)
  {
    if |s| == 0 then 0 else StringToNat(s[..|s| - 1]) * 10 + DigitValue(s[|s| - 1])
  }

  lemma {:induction false} StringToNatOfNatToString(n: nat)
    ensures StringToNat(NatToString(n)) == n
    decreases n
  {
    if n >= 10 {
      var s := NatToString(n);
      assert s[..|s| - 1] == NatToString(n / 10);
      StringToNatOfNatToString(n / 10);
    }
  }

  /** Each number of `ns` preceded by `_`. */
  function Fields(ns: seq<nat>): string {
    if ns == [] then "" else "_" + NatToString(ns[0]) + Fields(ns[1..])
  }

  lemma FieldsStart(ns: seq<nat>)
    ensures Fields(ns) == "" || Fields(ns)[0] == '_'
  {
  }

  /** The length of the run of digits that starts `s`. */
  function DigitRun(s: string): (k: nat)
    ensures k <= |s| && AllDigits(s[..k])
    ensures k < |s| ==> !IsDigit(s[k])
  {
    if |s| == 0 || !IsDigit(s[0]) then 0 else 1 + DigitRun(s[1..])
  }

  lemma {:induction false} DigitRunOfDigits(d: string, t: string)
    requires AllDigits(d)
    requires t == "" || !IsDigit(t[0])
    ensures DigitRun(d + t) == |d|
  {
    if d != [] {
      assert (d + t)[1..] == d[1..] + t;
      DigitRunOfDigits(d[1..], t);
    }
  }

  /** Inverse of `Fields`: `None` unless `s` is `_`-prefixed, non-empty digit runs. */
  function ParseFields(s: string): Option<seq<nat>>
    decreases |s|
  {
    if s == "" then Some([])
    else if s[0] != '_' then None
    else
      var t := s[1..];
      var k := DigitRun(t);
      if k == 0 then None
      else
        match ParseFields(t[k..])
        case None => None
        case Some(rest) => Some([StringToNat(t[..k])] + rest)
  }

  lemma {:induction false} ParseFieldsOfFields(ns: seq<nat>)
    ensures ParseFields(Fields(ns)) == Some(ns)
  {
    if ns != [] {
      var d := NatToString(ns[0]);
      var t := Fields(ns[1..]);
      var s := Fields(ns);
      assert s[1..] == d + t;
      FieldsStart(ns[1..]);
      DigitRunOfDigits(d, t);
      assert (d + t)[|d|..] == t;
      assert (d + t)[..|d|] == d;
      StringToNatOfNatToString(ns[0]);
      ParseFieldsOfFields(ns[1..]);
      assert s[0] == '_';
      assert ParseFields(s) == Some([StringToNat(d)] + ns[1..]);
      assert [ns[0]] + ns[1..] == ns;
    }
  }

  /** A tagged number list, the string form of an identifier: `tag` then `Fields(ns)`. */
  function Tagged(tag: string, ns: seq<nat>): string {
    tag + Fields(ns)
  }

  /** Inverse of `Tagged` for a fixed tag and field count. */
  function ParseTagged(tag: string, count: nat, s: string): (r: Option<seq<nat>>)
    ensures r.Some? ==> |r.value| == count
  {
    if |s| < |tag| || s[..|tag|] != tag then None
    else
      match ParseFields(s[|tag|..])
      case None => None
      case Some(ns) => if |ns| == count then Some(ns) else None
  }

  lemma ParseTaggedOfTagged(tag: string, ns: seq<nat>)
    ensures ParseTagged(tag, |ns|, Tagged(tag, ns)) == Some(ns)
  {
    var s := Tagged(tag, ns);
    assert s[..|tag|] == tag;
    assert s[|tag|..] == Fields(ns);
    ParseFieldsOfFields(ns);
  }
}
