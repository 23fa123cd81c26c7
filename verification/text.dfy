/** String helpers standing in for the PHP string functions the query builder
    calls (strtoupper, strtolower, trim, rtrim, implode, stripos, str_replace,
    integer-to-string conversion). Characters are treated as single bytes;
    case mapping is ASCII only, as PHP's default locale does. */
module Text {

  function UpperChar(c: char): char {
    if 'a' <= c <= 'z' then (c as int - 32) as char else c
  }

  function LowerChar(c: char): char {
    if 'A' <= c <= 'Z' then (c as int + 32) as char else c
  }

  /** strtoupper */
  function Upper(s: string): (r: string)
    ensures |r| == |s|
    ensures forall i :: 0 <= i < |s| ==> r[i] == UpperChar(s[i])
  {
    if s == [] then [] else [UpperChar(s[0])] + Upper(s[1..])
  }

  /** strtolower */
  function Lower(s: string): (r: string)
    ensures |r| == |s|
    ensures forall i :: 0 <= i < |s| ==> r[i] == LowerChar(s[i])
  {
    if s == [] then [] else [LowerChar(s[0])] + Lower(s[1..])
  }

  /** The characters PHP's trim() removes by default. */
  predicate IsBlank(c: char) {
    c == ' ' || c == '\t' || c == '\n' || c == '\r' || c == 0 as char || c == 11 as char
  }

  function TrimLeft(s: string): (r: string)
    ensures |r| <= |s| && r == s[|s| - |r|..]
    ensures r == [] || !IsBlank(r[0])
    ensures forall i :: 0 <= i < |s| - |r| ==> IsBlank(s[i])
  {
    if s != [] && IsBlank(s[0]) then TrimLeft(s[1..]) else s
  }

  function TrimRight(s: string): (r: string)
    ensures |r| <= |s| && r == s[..|r|]
    ensures r == [] || !IsBlank(r[|r| - 1])
    ensures forall i :: |r| <= i < |s| ==> IsBlank(s[i])
  {
    if s != [] && IsBlank(s[|s| - 1]) then TrimRight(s[..|s| - 1]) else s
  }

  /** trim() with its default character list. */
  function Trim(s: string): string {
    TrimRight(TrimLeft(s))
  }

  /** rtrim($s, $chars): drop every trailing character that is in `cut`. */
  function RTrim(s: string, cut: set<char>): (r: string)
    ensures |r| <= |s| && r == s[..|r|]
    ensures r == [] || r[|r| - 1] !in cut
    ensures forall i :: |r| <= i < |s| ==> s[i] in cut
  {
    if s != [] && s[|s| - 1] in cut then RTrim(s[..|s| - 1], cut) else s
  }

  /** The list rtrim($query, ', ') strips. */
  const CommaSpace: set<char> := {',', ' '}

  /** Trimming a string whose tail past `a` holds a character outside `cut`
      never reaches into `a`. */
  lemma {:induction false} RTrimKeepsPrefix(a: string, b: string, cut: set<char>)
    requires exists i :: 0 <= i < |b| && b[i] !in cut
    ensures RTrim(a + b, cut) == a + RTrim(b, cut)
    decreases |b|
  {
    var i :| 0 <= i < |b| && b[i] !in cut;
    if b[|b| - 1] in cut {
      var b' := b[..|b| - 1];
      assert (a + b)[..|a + b| - 1] == a + b';
      assert i < |b'| && b'[i] !in cut;
      RTrimKeepsPrefix(a, b', cut);
    } else {
      assert (a + b)[|a + b| - 1] == b[|b| - 1];
    }
  }

  lemma AppendAssoc(a: string, b: string, c: string)
    ensures (a + b) + c == a + (b + c)
  {
  }

  /** implode($sep, $parts) */
  function Join(parts: seq<string>, sep: string): (r: string)
    ensures parts == [] ==> r == ""
    ensures |parts| == 1 ==> r == parts[0]
  {
    if parts == [] then ""
    else if |parts| == 1 then parts[0]
    else parts[0] + sep + Join(parts[1..], sep)
  }

  /** `sub` occurs in `s` at position 0. */
  predicate StartsWith(s: string, sub: string) {
    |sub| <= |s| && s[..|sub|] == sub
  }

  /** strpos($s, $sub) !== false */
  predicate Contains(s: string, sub: string)
    decreases |s|
  {
    StartsWith(s, sub) || (s != [] && Contains(s[1..], sub))
  }

  /** stripos($s, $sub) !== false, for an all-lower-case `sub`. */
  predicate ContainsIgnoreCase(s: string, sub: string) {
    Contains(Lower(s), sub)
  }

  /** str_replace($from, $to, $s) for a single-character $from. */
  function ReplaceChar(s: string, from: char, to: string): (r: string)
    ensures from !in s ==> r == s
  {
    if s == [] then []
    else (if s[0] == from then to else [s[0]]) + ReplaceChar(s[1..], from, to)
  }

  /** PHP truthiness of a string: everything except "" and "0". */
  predicate Truthy(s: string) {
    s != "" && s != "0"
  }

  /** What preg_replace('/.* (.*)/', '$1', $s) leaves of a single-line `s`:
      the text after its last space, or `s` itself when it has no space. */
  function AfterLastSpace(s: string): (r: string)
    ensures ' ' !in r
    ensures ' ' !in s ==> r == s
    ensures ' ' in s ==> |r| < |s| && s[|s| - |r| - 1] == ' ' && r == s[|s| - |r|..]
  {
    if s == [] then []
    else if s[|s| - 1] == ' ' then []
    else AfterLastSpace(s[..|s| - 1]) + [s[|s| - 1]]
  }

  function DigitChar(d: nat): char
    requires d < 10
  {
    "0123456789"[d]
  }

  function NatText(n: nat): (r: string)
    ensures r != [] && '0' <= r[|r| - 1] <= '9'
    ensures forall i :: 0 <= i < |r| ==> '0' <= r[i] <= '9'
  {
    if n < 10 then [DigitChar(n)] else NatText(n / 10) + [DigitChar(n % 10)]
  }

  /** PHP's decimal rendering of an integer. */
  function IntText(i: int): (r: string)
    ensures r != [] && '0' <= r[|r| - 1] <= '9'
    ensures forall k :: 0 <= k < |r| ==> r[k] == '-' || '0' <= r[k] <= '9'
  {
    if i < 0 then "-" + NatText(-i) else NatText(i)
  }

  predicate IsDigit(c: char) {
    '0' <= c <= '9'
  }

  predicate AllDigits(s: string) {
    forall i :: 0 <= i < |s| ==> IsDigit(s[i])
  }

  /** A decimal mantissa: digits with at most one '.', at least one digit. */
  predicate Mantissa(m: string) {
    (m != [] && AllDigits(m))
    || (exists k :: 0 <= k < |m| && m[k] == '.' && AllDigits(m[..k]) && AllDigits(m[k + 1..]) && |m| >= 2)
  }

  function DropSign(s: string): string {
    if s != [] && (s[0] == '+' || s[0] == '-') then s[1..] else s
  }

  /** The blanks is_numeric skips in front of a number: space, tab, line
      feed, carriage return, vertical tab and form feed. Unlike trim()'s
      list, NUL is not one of them. */
  predicate IsNumericBlank(c: char) {
    c == ' ' || c == '\t' || c == '\n' || c == '\r' || c == 11 as char || c == 12 as char
  }

  function SkipNumericBlanks(s: string): (r: string)
    ensures |r| <= |s| && r == s[|s| - |r|..]
    ensures r == [] || !IsNumericBlank(r[0])
    ensures forall i :: 0 <= i < |s| - |r| ==> IsNumericBlank(s[i])
  {
    if s != [] && IsNumericBlank(s[0]) then SkipNumericBlanks(s[1..]) else s
  }

  /** PHP 7's is_numeric on a string: leading blanks, an optional sign, a
      decimal mantissa and an optional exponent. */
  predicate NumericString(s: string) {
    var u := DropSign(SkipNumericBlanks(s));
    Mantissa(u)
    || (exists e :: 0 < e < |u| && (u[e] == 'e' || u[e] == 'E') && Mantissa(u[..e])
                    && DropSign(u[e + 1..]) != [] && AllDigits(DropSign(u[e + 1..])))
  }

  /** is_numeric accepts PHP's decimal rendering of every integer. */
  lemma IntTextNumeric(i: int)
    ensures NumericString(IntText(i))
  {
    var s := IntText(i);
    var n := NatText(if i < 0 then -i else i);
    assert SkipNumericBlanks(s) == s by {
      assert s[0] == '-' || '0' <= s[0] <= '9';
    }
    assert DropSign(s) == n;
    assert Mantissa(n) by {
      assert n != [] && AllDigits(n);
    }
  }

  /** A form feed may lead a number, though trim() keeps it. */
  lemma FormFeedLeadsNumber()
    ensures NumericString([12 as char, '1'])
  {
    assert SkipNumericBlanks([12 as char, '1']) == ['1'];
    assert DropSign(['1']) == ['1'] && Mantissa(['1']);
  }

  /** A mantissa starts with a digit or a point. */
  lemma MantissaStart(m: string)
    requires Mantissa(m)
    ensures m != [] && (IsDigit(m[0]) || m[0] == '.')
  {
    if !AllDigits(m) || m == [] {
      var k :| 0 <= k < |m| && m[k] == '.' && AllDigits(m[..k]) && AllDigits(m[k + 1..]) && |m| >= 2;
      if k > 0 {
        assert m[..k][0] == m[0];
      }
    }
  }

  /** A numeric string starts, after its blanks, with a sign, a digit or a
      point. */
  lemma NumericStart(s: string)
    requires NumericString(s)
    ensures var t := SkipNumericBlanks(s);
      t != [] && (t[0] == '+' || t[0] == '-' || IsDigit(t[0]) || t[0] == '.')
  {
    var t := SkipNumericBlanks(s);
    var u := DropSign(t);
    if Mantissa(u) {
      MantissaStart(u);
    } else {
      var e :| 0 < e < |u| && (u[e] == 'e' || u[e] == 'E') && Mantissa(u[..e])
               && DropSign(u[e + 1..]) != [] && AllDigits(DropSign(u[e + 1..]));
      MantissaStart(u[..e]);
    }
  }

  /** A NUL may not lead a number, though trim() strips it. */
  lemma NulDoesNotLeadNumber(s: string)
    requires s != [] && s[0] == 0 as char
    ensures !NumericString(s)
  {
    assert SkipNumericBlanks(s) == s;
    if NumericString(s) {
      NumericStart(s);
    }
  }
}
