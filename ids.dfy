/**
 * Element identifiers. A figure id is an opaque string; an axes id is the
 * figure id followed by the decimal form of the axes' 1-based position, and a
 * line id is the axes id followed by the decimal form of the line's 1-based
 * position (Python's `str(i)` and `"{0}{1}".format(axid, i)`).
 */
module Ids {

  predicate IsDigits(s: string) {
    forall k :: 0 <= k < |s| ==> '0' <= s[k] <= '9'
  }

  function Digit(d: nat): (c: char)
    requires d < 10
    ensures '0' <= c <= '9'
  {
    ('0' as int + d) as char
  }

  function DigitValue(c: char): (d: nat)
    requires '0' <= c <= '9'
    ensures d < 10
  {
    c as int - '0' as int
  }

  /** Python's `str(n)` for a non-negative integer: no sign, no leading zeros. */
  function DecimalString(n: nat): (s: string)
    ensures |s| >= 1 && IsDigits(s)
    ensures |s| > 1 ==> s[0] != '0'
    decreases n
  {
    if n < 10 then [Digit(n)] else DecimalString(n / 10) + [Digit(n % 10)]
  }

  /** Reads a string of decimal digits back as a number. */
  function ParseDecimal(s: string): nat
    requires IsDigits(s)
    decreases |s|
  {
    if s == [] then 0 else ParseDecimal(s[..|s| - 1]) * 10 + DigitValue(s[|s| - 1])
  }

  lemma {:induction false} ParseDecimalString(n: nat)
    ensures ParseDecimal(DecimalString(n)) == n
    decreases n
  {
    var s := DecimalString(n);
    if n < 10 {
      assert s[..|s| - 1] == [];
    } else {
      assert s[..|s| - 1] == DecimalString(n / 10);
      ParseDecimalString(n / 10);
    }
  }

  lemma DecimalStringInjective(m: nat, n: nat)
    requires DecimalString(m) == DecimalString(n)
    ensures m == n
  {
    ParseDecimalString(m);
    ParseDecimalString(n);
  }

  /** `prefix + str(i)`: how both axes ids and line ids are formed. */
  function IndexedId(prefix: string, i: nat): (r: string)
    ensures |r| > |prefix| && r[..|prefix|] == prefix
    ensures IsDigits(r[|prefix|..])
  {
    assert (prefix + DecimalString(i))[|prefix|..] == DecimalString(i);
    prefix + DecimalString(i)
  }

  /** Two different positions under one prefix get different ids. */
  lemma IndexedIdInjective(prefix: string, i: nat, j: nat)
    requires i != j
    ensures IndexedId(prefix, i) != IndexedId(prefix, j)
  {
    var a, b := IndexedId(prefix, i), IndexedId(prefix, j);
    assert a[|prefix|..] == DecimalString(i);
    assert b[|prefix|..] == DecimalString(j);
    if a == b {
      DecimalStringInjective(i, j);
    }
  }

  /**
   * Prefixes of one length (uuid4 hex strings are all 32 characters long)
   * that differ keep their ids apart whatever the positions.
   */
  lemma IndexedIdSeparatesPrefixes(p: string, q: string, i: nat, j: nat)
    requires |p| == |q| && p != q
    ensures IndexedId(p, i) != IndexedId(q, j)
  {
    assert IndexedId(p, i)[..|p|] == p;
    assert IndexedId(q, j)[..|q|] == q;
  }

  /**
   * Line ids are unique within one axes only: line 11 of axes 1 and line 1
   * of axes 11 of the same figure receive the same id.
   */
  lemma LineIdsCollideAcrossAxes(figid: string)
    ensures IndexedId(IndexedId(figid, 1), 11) == IndexedId(IndexedId(figid, 11), 1)
  {
    assert DecimalString(1) == ['1'];
    assert DecimalString(11) == ['1', '1'];
  }
}
