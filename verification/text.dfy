/** Decimal rendering of integers (Java's string concatenation of an `int`)
    and comma-separated lists, each with a parser that inverts it. */
module Text {

  predicate IsDigit(c: char) {
    '0' <= c <= '9'
  }

  function DigitChar(d: int): (c: char)
    requires 0 <= d < 10
    ensures IsDigit(c)
  {
    (('0' as int) + d) as char
  }

  function DigitValue(c: char): int {
    (c as int) - ('0' as int)
  }

  /** Most significant digit first, no leading zeros. */
  function NatToString(n: nat): (s: string)
    ensures |s| >= 1
    ensures forall i :: 0 <= i < |s| ==> IsDigit(s[i])
    decreases n
  {
    if n < 10 then [DigitChar(n)] else NatToString(n / 10) + [DigitChar(n % 10)]
  }

  /** Java's `"" + i`: a minus sign in front of the magnitude when negative. */
  function IntToString(i: int): (s: string)
    ensures |s| >= 1
    ensures ',' !in s
  {
    if i < 0 then "-" + NatToString(-i) else NatToString(i)
  }

  function ParseNat(s: string): int
    decreases |s|
  {
    if |s| == 0 then 0 else ParseNat(s[..|s| - 1]) * 10 + DigitValue(s[|s| - 1])
  }

  function ParseInt(s: string): int {
    if |s| > 0 && s[0] == '-' then -ParseNat(s[1..]) else ParseNat(s)
  }

  lemma {:induction false} ParseNatToString(n: nat)
    ensures ParseNat(NatToString(n)) == n
    decreases n
  {
    if n >= 10 {
      var s := NatToString(n);
      assert s[..|s| - 1] == NatToString(n / 10);
      ParseNatToString(n / 10);
    }
  }

  /** Reading back a rendered integer gives the integer. */
  lemma ParseIntToString(i: int)
    ensures ParseInt(IntToString(i)) == i
  {
    if i < 0 {
      assert IntToString(i)[1..] == NatToString(-i);
      ParseNatToString(-i);
    } else {
      ParseNatToString(i);
    }
  }

  /** The parts with a comma between neighbours and none at the end. */
  function Join(parts: seq<string>): string
    decreases |parts|
  {
    if |parts| == 0 then ""
    else if |parts| == 1 then parts[0]
    else parts[0] + "," + Join(parts[1..])
  }

  function FirstComma(s: string): (i: nat)
    requires ',' in s
    ensures i < |s| && s[i] == ','
    ensures ',' !in s[..i]
    decreases |s|
  {
    if s[0] == ',' then 0
    else
      assert ',' in s[1..] by {
        var k :| 0 <= k < |s| && s[k] == ',';
        assert s[1..][k - 1] == ',';
      }
      var j := FirstComma(s[1..]);
      assert s[..j + 1] == [s[0]] + s[1..][..j];
      j + 1
  }

  /** The comma-separated fields of a string; always at least one. */
  function Fields(s: string): (r: seq<string>)
    ensures |r| >= 1
    decreases |s|
  {
    if ',' in s then
      var i := FirstComma(s);
      [s[..i]] + Fields(s[i + 1..])
    else [s]
  }

  function Split(s: string): seq<string> {
    if s == "" then [] else Fields(s)
  }

  lemma FirstCommaAt(s: string, i: nat)
    requires i < |s| && s[i] == ',' && ',' !in s[..i]
    ensures ',' in s && FirstComma(s) == i
  {
    var j := FirstComma(s);
    assert forall k :: 0 <= k < j ==> s[..j][k] == s[k];
    assert forall k :: 0 <= k < i ==> s[..i][k] == s[k];
  }

  lemma {:induction false} FieldsJoin(parts: seq<string>)
    requires |parts| >= 1
    requires forall k :: 0 <= k < |parts| ==> ',' !in parts[k]
    ensures Fields(Join(parts)) == parts
    decreases |parts|
  {
    if |parts| > 1 {
      var s := Join(parts);
      var rest := Join(parts[1..]);
      assert s == parts[0] + "," + rest;
      assert s[..|parts[0]|] == parts[0];
      FirstCommaAt(s, |parts[0]|);
      assert s[|parts[0]| + 1..] == rest;
      FieldsJoin(parts[1..]);
    }
  }

  /** Splitting a joined list of non-empty, comma-free parts gives the parts back. */
  lemma SplitJoin(parts: seq<string>)
    requires forall k :: 0 <= k < |parts| ==> |parts[k]| > 0 && ',' !in parts[k]
    ensures Split(Join(parts)) == parts
  {
    if |parts| > 0 {
      if |parts| > 1 {
        assert |Join(parts)| > 0 by {
          assert Join(parts) == parts[0] + "," + Join(parts[1..]);
        }
      }
      FieldsJoin(parts);
    }
  }
}
