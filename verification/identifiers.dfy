/** Generated identifiers: "{sigId}-ref{n}" for references and
    "{sigId}-object{m}" for enveloping ds:Object elements, with the number
    written in decimal as String.format's "%d" writes it. ParseRefIndex
    reads a generated reference id back to its number; it is the inverse
    used to prove the ids injective and distinct from object ids. */
module Identifiers {
  import opened Wrappers

  predicate IsDigit(c: char) {
    '0' <= c <= '9'
  }

  predicate AllDigits(s: string) {
    forall i :: 0 <= i < |s| ==> IsDigit(s[i])
  }

  function DigitChar(d: nat): (c: char)
    requires d < 10
    ensures IsDigit(c)
  {
    ('0' as int + d) as char
  }

  function DigitValue(c: char): (d: nat)
    requires IsDigit(c)
    ensures d < 10
  {
    c as int - '0' as int
  }

  /** The decimal form of n: non-empty, digits only, no leading zero. */
  function Decimal(n: nat): (r: string)
    ensures |r| > 0 && AllDigits(r)
    ensures n == 0 ==> r == "0"
    ensures n > 0 ==> r[0] != '0'
    decreases n
  {
    if n < 10 then [DigitChar(n)] else Decimal(n / 10) + [DigitChar(n % 10)]
  }

  /** Reads a string of digits as a decimal number. */
  function ParseDecimal(s: string): nat
    requires AllDigits(s)
    decreases |s|
  {
    if |s| == 0 then 0
    else ParseDecimal(s[..|s| - 1]) * 10 + DigitValue(s[|s| - 1])
  }

  /** A decimal numeral in the form Decimal produces. */
  predicate Canonical(s: string) {
    |s| > 0 && AllDigits(s) && (s[0] != '0' || |s| == 1)
  }

  /** Reading back the decimal form of n gives n. */
  lemma {:induction false} DecimalRoundTrip(n: nat)
    ensures ParseDecimal(Decimal(n)) == n
    decreases n
  {
    var s := Decimal(n);
    if n < 10 {
      assert s[..|s| - 1] == [];
    } else {
      assert s[..|s| - 1] == Decimal(n / 10);
      DecimalRoundTrip(n / 10);
    }
  }

  /** Distinct numbers have distinct decimal forms. */
  lemma DecimalInjective(a: nat, b: nat)
    requires Decimal(a) == Decimal(b)
    ensures a == b
  {
    DecimalRoundTrip(a);
    DecimalRoundTrip(b);
  }

  /** A numeral whose first digit is not zero denotes a positive number. */
  lemma {:induction false} ParsePositive(s: string)
    requires AllDigits(s) && |s| > 0 && s[0] != '0'
    ensures ParseDecimal(s) > 0
    decreases |s|
  {
    if |s| > 1 {
      ParsePositive(s[..|s| - 1]);
    }
  }

  /** Writing back a canonical numeral gives the same text. */
  lemma {:induction false} CanonicalRoundTrip(s: string)
    requires Canonical(s)
    ensures Decimal(ParseDecimal(s)) == s
    decreases |s|
  {
    var n := ParseDecimal(s);
    if |s| == 1 {
      assert s[..0] == [];
    } else {
      var p := s[..|s| - 1];
      assert Canonical(p);
      CanonicalRoundTrip(p);
      ParsePositive(p);
      assert n / 10 == ParseDecimal(p) && n % 10 == DigitValue(s[|s| - 1]);
      assert s == p + [s[|s| - 1]];
    }
  }

  const RefInfix: string := "-ref"
  const ObjectInfix: string := "-object"

  /** The id of the reference numbered n in a signature whose id is sigId. */
  function RefId(sigId: string, n: nat): string {
    sigId + RefInfix + Decimal(n)
  }

  /** The id of the ds:Object numbered m in a signature whose id is sigId. */
  function ObjectId(sigId: string, m: nat): string {
    sigId + ObjectInfix + Decimal(m)
  }

  /** The reference number encoded in id, if id is a reference id of the
      signature sigId. */
  function ParseRefIndex(sigId: string, id: string): Option<nat> {
    var p := sigId + RefInfix;
    if |p| <= |id| && id[..|p|] == p && Canonical(id[|p|..])
    then Some(ParseDecimal(id[|p|..]))
    else None
  }

  /** A generated reference id parses back to its number. */
  lemma RefIdParses(sigId: string, n: nat)
    ensures ParseRefIndex(sigId, RefId(sigId, n)) == Some(n)
  {
    var p := sigId + RefInfix;
    var id := RefId(sigId, n);
    assert id[..|p|] == p && id[|p|..] == Decimal(n);
    DecimalRoundTrip(n);
  }

  /** Only generated reference ids parse, and each to the number it was
      generated from. */
  lemma ParsedRefIdIsGenerated(sigId: string, id: string, n: nat)
    requires ParseRefIndex(sigId, id) == Some(n)
    ensures id == RefId(sigId, n)
  {
    var p := sigId + RefInfix;
    CanonicalRoundTrip(id[|p|..]);
    assert id == id[..|p|] + id[|p|..];
  }

  /** Reference ids of one signature never repeat. */
  lemma RefIdInjective(sigId: string, a: nat, b: nat)
    requires RefId(sigId, a) == RefId(sigId, b)
    ensures a == b
  {
    RefIdParses(sigId, a);
    RefIdParses(sigId, b);
  }

  /** Object ids of one signature never repeat. */
  lemma ObjectIdInjective(sigId: string, a: nat, b: nat)
    requires ObjectId(sigId, a) == ObjectId(sigId, b)
    ensures a == b
  {
    var k := |sigId + ObjectInfix|;
    assert ObjectId(sigId, a)[k..] == Decimal(a);
    assert ObjectId(sigId, b)[k..] == Decimal(b);
    DecimalInjective(a, b);
  }

  /** A reference id is never an object id of the same signature: they part
      at the character after the signature id. */
  lemma RefIdIsNotObjectId(sigId: string, a: nat, b: nat)
    ensures RefId(sigId, a) != ObjectId(sigId, b)
  {
    assert RefId(sigId, a)[|sigId| + 1] == 'r';
    assert ObjectId(sigId, b)[|sigId| + 1] == 'o';
  }
}
