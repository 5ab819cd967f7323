/**
  The key under which the migration registry files a transform: the decimal
  rendering of the source version, the letter 'x', the decimal rendering of
  the target version (Python's f"{version_from}x{version_to}").
 */
module VersionKey {

  /** The ASCII digit for a value below ten. */
  function DigitChar(d: nat): (c: char)
    requires d < 10
    ensures '0' <= c <= '9' && c as int - '0' as int == d
  {
    ('0' as int + d) as char
  }

  /** Decimal rendering of a natural number without leading zeros (Python's `str` on a non-negative int). */
  function NatToString(n: nat): (s: string)
    ensures |s| > 0 && forall k :: 0 <= k < |s| ==> '0' <= s[k] <= '9'
  {
    if n < 10 then [DigitChar(n)] else NatToString(n / 10) + [DigitChar(n % 10)]
  }

  /** Decimal rendering of an integer; negative values carry a leading '-'. */
  function IntToString(i: int): (s: string)
    ensures |s| > 0 && 'x' !in s
    ensures (s[0] == '-') <==> i < 0
  {
    if i < 0 then "-" + NatToString(-i) else NatToString(i)
  }

  /** The transform-registry key of the version pair (from, to). */
  function MappingKey(versionFrom: int, versionTo: int): (key: string)
    ensures 'x' in key
  {
    IntToString(versionFrom) + "x" + IntToString(versionTo)
  }

  /** Reads back a string of decimal digits; the inverse of NatToString. */
  function ParseDigits(s: string): nat
  {
    if s == [] then 0
    else ParseDigits(s[..|s| - 1]) * 10
         + (if '0' <= s[|s| - 1] <= '9' then s[|s| - 1] as int - '0' as int else 0)
  }

  lemma {:induction false} ParseNatToString(n: nat)
    ensures ParseDigits(NatToString(n)) == n
  {
    var s := NatToString(n);
    if n >= 10 {
      ParseNatToString(n / 10);
      assert s[..|s| - 1] == NatToString(n / 10);
    }
  }

  lemma NatToStringInjective(a: nat, b: nat)
    requires NatToString(a) == NatToString(b)
    ensures a == b
  {
    ParseNatToString(a);
    ParseNatToString(b);
  }

  lemma IntToStringInjective(a: int, b: int)
    requires IntToString(a) == IntToString(b)
    ensures a == b
  {
    var s := IntToString(a);
    if a < 0 {
      assert NatToString(-a) == s[1..] == NatToString(-b);
      NatToStringInjective(-a, -b);
    } else {
      NatToStringInjective(a, b);
    }
  }

  /** Splitting at the only 'x': equal joins of 'x'-free parts have equal parts. */
  lemma SplitAtSeparator(a: string, b: string, c: string, d: string)
    requires 'x' !in a && 'x' !in b && 'x' !in c && 'x' !in d
    requires a + "x" + b == c + "x" + d
    ensures a == c && b == d
  {
    var s := a + "x" + b;
    var t := c + "x" + d;
    assert s[|a|] == 'x' && forall k :: 0 <= k < |c| ==> t[k] != 'x';
    assert t[|c|] == 'x' && forall k :: 0 <= k < |a| ==> s[k] != 'x';
    assert a == s[..|a|] == c;
    assert b == s[|a| + 1..] == d;
  }

  /** Distinct version pairs never share a key, so a lookup by key finds only its own pair's transform. */
  lemma MappingKeyInjective(f1: int, t1: int, f2: int, t2: int)
    ensures MappingKey(f1, t1) == MappingKey(f2, t2) <==> f1 == f2 && t1 == t2
  {
    if MappingKey(f1, t1) == MappingKey(f2, t2) {
      SplitAtSeparator(IntToString(f1), IntToString(t1), IntToString(f2), IntToString(t2));
      IntToStringInjective(f1, f2);
      IntToStringInjective(t1, t2);
    }
  }
}
