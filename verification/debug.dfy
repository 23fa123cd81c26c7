/** replacePlaceHolders: the debug rendering of a statement with its bound
    values written in place, kept by the builder as its "last query". It is
    informational only and follows the source's loop, including where that
    loop stops early. */
module Debug {
  import opened Text
  import opened Values
  import opened Placeholders

  /** PHP's is_numeric on a scalar: numbers, and strings that spell one;
      never a boolean or null. */
  predicate IsNumeric(p: Param) {
    match p
    case Int(_) => true
    case Double(_) => true
    case Str(s) => NumericString(s)
    case _ => false
  }

  /** The text PHP's string conversion gives a scalar. */
  function AsText(p: Param): string {
    match p
    case Null => ""
    case Str(s) => s
    case Int(i) => IntText(i)
    case Bool(b) => if b then "1" else ""
    case Double(r) => r
  }

  /** How one value is written: numeric values bare, everything else in
      single quotes. A null is first turned into the string 'NULL' and so is
      quoted; true prints as 1 and false as the empty string. */
  function DebugLit(p: Param): (r: string)
    ensures var t := if p.Null? then "NULL" else AsText(p);
      r == if IsNumeric(p) then t else "'" + t + "'"
  {
    match p
    case Null => "'NULL'"
    case Int(i) => IntText(i)
    case Double(r) => r
    case Str(s) => if NumericString(s) then s else "'" + s + "'"
    case Bool(b) => if b then "'1'" else "''"
  }

  /** strpos($s, '?'), or -1 when there is none. */
  function FirstHole(s: string): (r: int)
    ensures -1 <= r < |s|
    ensures r >= 0 ==> s[r] == '?' && '?' !in s[..r]
    ensures r == -1 ==> '?' !in s
  {
    if s == [] then -1
    else if s[0] == '?' then 0
    else var k := FirstHole(s[1..]); if k == -1 then -1 else k + 1
  }

  /** The value for the next placeholder; past the end the source reads an
      undefined entry, which is null. */
  function Next(bs: seq<Param>): Param {
    if bs == [] then Null else bs[0]
  }

  function Rest(bs: seq<Param>): seq<Param> {
    if bs == [] then [] else bs[1..]
  }

  /** The loop `while ($pos = strpos($str, "?"))`: it ends at the first text
      with no placeholder, and also at one whose placeholder is its first
      character (position 0 is falsy). */
  function DebugText(s: string, bs: seq<Param>): string
    decreases |s|
  {
    var pos := FirstHole(s);
    if pos <= 0 then s
    else s[..pos] + DebugLit(Next(bs)) + DebugText(s[pos + 1..], Rest(bs))
  }

  /** One round of the loop: the text up to the first placeholder, the
      value's literal, then the rest. */
  lemma DebugTextStep(s: string, bs: seq<Param>)
    requires FirstHole(s) > 0
    ensures DebugText(s, bs) == s[..FirstHole(s)] + DebugLit(Next(bs)) + DebugText(s[FirstHole(s) + 1..], Rest(bs))
  {
  }

  /** replacePlaceHolders as the source writes it, with the values without
      the leading signature entry. */
  method ReplacePlaceHolders(str: string, vals: seq<Param>) returns (newStr: string)
    ensures newStr == DebugText(str, vals)
  {
    var rest := str;
    ghost var rem := vals;
    var i := 0;
    newStr := "";
    var pos := FirstHole(rest);
    while pos > 0
      invariant 0 <= i
      invariant pos == FirstHole(rest)
      invariant i <= |vals| ==> rem == vals[i..]
      invariant i > |vals| ==> rem == []
      invariant newStr + DebugText(rest, rem) == DebugText(str, vals)
      decreases |rest|
    {
      var val := if i < |vals| then vals[i] else Null;
      assert val == Next(rem);
      DebugTextStep(rest, rem);
      var piece := rest[..pos] + DebugLit(val);
      newStr := newStr + piece;
      rest := rest[pos + 1..];
      rem := Rest(rem);
      i := i + 1;
      pos := FirstHole(rest);
    }
    newStr := newStr + rest;
  }

  /** A template no remainder of which starts with a placeholder: its first
      character and every character right after a `?` are not `?`. */
  predicate NoLeadingHoles(s: string) {
    (s == [] || s[0] != '?')
    && forall i :: 0 <= i < |s| - 1 && s[i] == '?' ==> s[i + 1] != '?'
  }

  /** On such a template, with a value for every placeholder, the debug text
      is the template with each placeholder replaced, in order, by its
      value's debug literal. */
  lemma {:induction false} DebugTextFillsInOrder(s: string, bs: seq<Param>)
    requires NoLeadingHoles(s)
    requires Count(s) <= |bs|
    ensures DebugText(s, bs) == Substitute(s, bs, DebugLit)
    decreases |s|
  {
    var pos := FirstHole(s);
    if pos == -1 {
      NoHolesChars(s);
      SubstituteNoHoles(s, bs, DebugLit);
    } else {
      assert pos > 0;
      DebugTextStep(s, bs);
      SubstituteAtHole(s, bs, pos);
      AfterHoleNoLeadingHoles(s, pos);
      DebugTextFillsInOrder(s[pos + 1..], bs[1..]);
    }
  }

  /** Filling a template whose first placeholder is at `pos`: the text before
      it, the first value's literal, then the rest filled with the other
      values. */
  lemma SubstituteAtHole(s: string, bs: seq<Param>, pos: int)
    requires pos == FirstHole(s) && pos > 0
    requires Count(s) <= |bs|
    ensures bs != [] && Count(s[pos + 1..]) == Count(s) - 1
    ensures Substitute(s, bs, DebugLit) == s[..pos] + DebugLit(bs[0]) + Substitute(s[pos + 1..], bs[1..], DebugLit)
  {
    var pre := s[..pos];
    var post := s[pos + 1..];
    assert s == pre + ("?" + post);
    NoHolesChars(pre);
    CountAppend(pre, "?" + post);
    CountAppend("?", post);
    assert Count("?") == 1;
    SubstituteAppend(pre, "?" + post, [], bs, DebugLit);
    SubstituteNoHoles(pre, [], DebugLit);
    assert ("?" + post)[0] == '?' && ("?" + post)[1..] == post;
    assert Substitute("?" + post, bs, DebugLit) == DebugLit(bs[0]) + Substitute(post, bs[1..], DebugLit);
    assert [] + bs == bs;
  }

  /** What follows a placeholder of such a template is such a template. */
  lemma AfterHoleNoLeadingHoles(s: string, pos: int)
    requires NoLeadingHoles(s)
    requires 0 <= pos < |s| && s[pos] == '?'
    ensures NoLeadingHoles(s[pos + 1..])
  {
    var post := s[pos + 1..];
    assert post == [] || post[0] == s[pos + 1];
    forall i | 0 <= i < |post| - 1 && post[i] == '?' ensures post[i + 1] != '?' {
      assert s[pos + 1 + i] == post[i] && s[pos + 2 + i] == post[i + 1];
    }
  }

  /** The loop's early stop: a placeholder at the very start is never
      filled. */
  lemma LeadingHoleIsKept(bs: seq<Param>)
    ensures DebugText("?", bs) == "?"
  {
  }
}
