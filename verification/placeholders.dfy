/** Placeholders and their bind values: counting `?` in a statement text and
    filling them, left to right, with the literals of the bound values. */
module Placeholders {
  import opened Text
  import opened Values

  /** The number of `?` placeholders in `s`. */
  function Count(s: string): nat {
    if s == [] then 0 else (if s[0] == '?' then 1 else 0) + Count(s[1..])
  }

  /** A text with no placeholder in it. */
  predicate NoHoles(s: string) {
    Count(s) == 0
  }

  lemma {:induction false} CountAppend(a: string, b: string)
    ensures Count(a + b) == Count(a) + Count(b)
  {
    if a == [] {
      assert a + b == b;
    } else {
      assert (a + b)[1..] == a[1..] + b;
      CountAppend(a[1..], b);
    }
  }

  lemma {:induction false} NoHolesChars(s: string)
    ensures NoHoles(s) <==> '?' !in s
  {
    if s != [] {
      NoHolesChars(s[1..]);
      assert s == [s[0]] + s[1..];
    }
  }

  /** The text a bound value stands for when it is written in place of its
      placeholder. */
  function Lit(p: Param): (r: string)
    ensures r != [] && r[|r| - 1] != ',' && r[|r| - 1] != ' '
  {
    match p
    case Null => "NULL"
    case Str(s) => "'" + s + "'"
    case Int(i) => IntText(i)
    case Bool(b) => if b then "TRUE" else "FALSE"
    case Double(r) => "'" + r + "'"
  }

  /** Replace the k-th placeholder of `t` by lit(bs[k]), scanning left to
      right; placeholders beyond the values are kept. */
  function Substitute(t: string, bs: seq<Param>, lit: Param -> string): string {
    if t == [] then []
    else if t[0] == '?' && bs != [] then lit(bs[0]) + Substitute(t[1..], bs[1..], lit)
    else [t[0]] + Substitute(t[1..], bs, lit)
  }

  function Inline(t: string, bs: seq<Param>): string {
    Substitute(t, bs, Lit)
  }

  /** Filling splits at a boundary where the left text has exactly as many
      placeholders as the left values. */
  lemma {:induction false} SubstituteAppend(a: string, b: string, ba: seq<Param>, bb: seq<Param>, lit: Param -> string)
    requires Count(a) == |ba|
    ensures Substitute(a + b, ba + bb, lit) == Substitute(a, ba, lit) + Substitute(b, bb, lit)
  {
    if a == [] {
      assert ba == [];
      assert a + b == b && ba + bb == bb;
    } else {
      assert (a + b)[0] == a[0] && (a + b)[1..] == a[1..] + b;
      if a[0] == '?' {
        assert ba != [];
        assert (ba + bb)[0] == ba[0] && (ba + bb)[1..] == ba[1..] + bb;
        SubstituteAppend(a[1..], b, ba[1..], bb, lit);
      } else {
        SubstituteAppend(a[1..], b, ba, bb, lit);
      }
    }
  }

  /** A text without placeholders is left as it is. */
  lemma {:induction false} SubstituteNoHoles(t: string, bs: seq<Param>, lit: Param -> string)
    requires NoHoles(t)
    ensures Substitute(t, bs, lit) == t
  {
    if t != [] {
      SubstituteNoHoles(t[1..], bs, lit);
    }
  }

  /** A single placeholder becomes the literal of its value. */
  lemma OneHole(p: Param, lit: Param -> string)
    ensures Substitute("?", [p], lit) == lit(p)
  {
    assert "?"[1..] == [];
  }

  /** rtrim never removes a placeholder. */
  lemma CountRTrim(s: string, cut: set<char>)
    requires '?' !in cut
    ensures Count(RTrim(s, cut)) == Count(s)
  {
    var r := RTrim(s, cut);
    var tail := s[|r|..];
    assert s == r + tail;
    CountAppend(r, tail);
    NoHolesChars(tail);
  }

  /** Filling placeholders and trimming trailing commas and blanks commute,
      because no literal ends in one of them. */
  lemma InlineRTrim(t: string, bs: seq<Param>)
    requires Count(t) == |bs|
    ensures Inline(RTrim(t, CommaSpace), bs) == RTrim(Inline(t, bs), CommaSpace)
  {
    var r := RTrim(t, CommaSpace);
    var tail := t[|r|..];
    assert t == r + tail;
    CountRTrim(t, CommaSpace);
    NoHolesChars(tail);
    SubstituteAppend(r, tail, bs, [], Lit);
    assert bs + [] == bs;
    SubstituteNoHoles(tail, [], Lit);
    var ir := Inline(r, bs);
    assert Inline(t, bs) == ir + tail;
    InlineEndsOutsideCut(r, bs);
    RTrimDropsTail(ir, tail, CommaSpace);
  }

  /** The filled text ends where its template ends: in a character outside
      {',', ' '}, or in the literal of the last value. */
  lemma {:induction false} InlineEndsOutsideCut(r: string, bs: seq<Param>)
    requires Count(r) == |bs|
    requires r == [] || r[|r| - 1] !in CommaSpace
    ensures var ir := Inline(r, bs); ir == [] || ir[|ir| - 1] !in CommaSpace
    ensures r == [] ==> Inline(r, bs) == []
  {
    if r != [] {
      var init := r[..|r| - 1];
      var last := r[|r| - 1];
      assert r == init + [last];
      CountAppend(init, [last]);
      assert Count([last]) == if last == '?' then 1 else 0;
      var k := Count(init);
      SubstituteAppend(init, [last], bs[..k], bs[k..], Lit);
      assert bs[..k] + bs[k..] == bs;
      if last == '?' {
        assert bs[k..] == [bs[k]];
        OneHole(bs[k], Lit);
      } else {
        assert bs[k..] == [];
        assert [last][1..] == [];
      }
    }
  }

  lemma RTrimDropsTail(a: string, tail: string, cut: set<char>)
    requires a == [] || a[|a| - 1] !in cut
    requires forall i :: 0 <= i < |tail| ==> tail[i] in cut
    ensures RTrim(a + tail, cut) == a
    decreases |tail|
  {
    if tail != [] {
      assert (a + tail)[..|a + tail| - 1] == a + tail[..|tail| - 1];
      RTrimDropsTail(a, tail[..|tail| - 1], cut);
    } else {
      assert a + tail == a;
    }
  }
}
