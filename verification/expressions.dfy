/** The expression markers the builder hands out for column data: inc and
    dec, not, func, and now with the interval arithmetic behind it. Each is
    a value built from its arguments alone; _buildDataPairs gives them their
    meaning when it renders a column (Render.ColumnValue). */
module Expressions {
  import opened Text
  import opened Values
  import opened Render
  import opened Debug

  /** The shared body of inc and dec: a signed delta for a numeric argument,
      an error for anything else. */
  function Delta(sign: string, num: Param): (r: Result<Value>)
    ensures r.Ok? <==> IsNumeric(num)
    ensures r.Err? ==> r.error == NotANumber
  {
    if IsNumeric(num) then Ok(Inc(sign + AsText(num))) else Err(NotANumber)
  }

  /** inc */
  function IncExpr(num: Param := Int(1)): (r: Result<Value>)
    ensures r.Ok? <==> IsNumeric(num)
    ensures r.Ok? ==> r.value.Inc? && r.value.delta != [] && r.value.delta[0] == '+'
    ensures r.Err? ==> r.error == NotANumber
  {
    Delta("+", num)
  }

  /** dec */
  function DecExpr(num: Param := Int(1)): (r: Result<Value>)
    ensures r.Ok? <==> IsNumeric(num)
    ensures r.Ok? ==> r.value.Inc? && r.value.delta != [] && r.value.delta[0] == '-'
    ensures r.Err? ==> r.error == NotANumber
  {
    Delta("-", num)
  }

  /** A column set to inc(n) is written as `column+n` and binds nothing;
      dec(n) as `column-n`. */
  lemma IncDecRender(column: string, num: Param)
    requires IsNumeric(num)
    ensures ColumnValue(column, IncExpr(num).value) == Step(Emit(column + "+" + AsText(num) + ", "), true)
    ensures ColumnValue(column, DecExpr(num).value) == Step(Emit(column + "-" + AsText(num) + ", "), true)
  {
    AppendAssoc(column, "+", AsText(num));
    AppendAssoc(column, "-", AsText(num));
  }

  /** The same number never gives the same marker to inc and dec. */
  lemma IncIsNotDec(num: Param)
    requires IsNumeric(num)
    ensures IncExpr(num).value != DecExpr(num).value
  {
  }

  /** not: the argument cast to a string; null gives the empty string. */
  function NotExpr(col: Param := Null): (r: Value)
    ensures r.Not?
    ensures col.Null? ==> r.col == ""
    ensures col.Str? ==> r.col == col.s
    ensures col.Int? ==> r.col != ""
  {
    Not(AsText(col))
  }

  /** A column set to not() is written as the negated column itself; with a
      non-empty argument, as the negated argument. Nothing is bound. */
  lemma NotRender(column: string, col: Param)
    ensures col.Null? ==> ColumnValue(column, NotExpr(col)) == Step(Emit("!" + column + ", "), true)
    ensures AsText(col) != "" ==> ColumnValue(column, NotExpr(col)) == Step(Emit("!" + AsText(col) + ", "), true)
  {
  }

  /** func: the raw expression and its own bind values, both kept in the
      marker's entry; a missing list binds nothing. */
  function FuncExpr(expr: string, bindParams: Option<seq<Param>> := None): (r: Value)
    ensures r.Func? && r.expr == expr && r.listed
    ensures bindParams.None? ==> r.binds == []
  {
    Func(expr, if bindParams.Some? then bindParams.value else [], true)
  }

  /** A column set to func(e, ps) is written as e and binds exactly ps, in
      order. */
  lemma FuncRender(column: string, expr: string, ps: seq<Param>)
    ensures ColumnValue(column, FuncExpr(expr, Some(ps))) == Step(Out(expr + ", ", ps), true)
    ensures ColumnValue(column, FuncExpr(expr, None)) == Step(Emit(expr + ", "), true)
  {
  }

  /** The three groups the interval pattern `([+-]?) ?([0-9]+) ?([a-zA-Z]?)`
      captures in a diff text: a sign, an amount and a one-letter unit,
      each possibly empty. */
  datatype IntervalMatch = IntervalMatch(sign: string, amount: string, unit: string)

  /** The interval units, by letter. */
  const IntervalUnits: map<string, string> :=
    map["s" := "second", "m" := "minute", "h" := "hour", "d" := "day", "M" := "month", "Y" := "year"]

  /** The unit letter used: the captured one, or day. */
  function UnitOf(g: IntervalMatch): string {
    if Truthy(g.unit) then g.unit else "d"
  }

  /** interval. `m` is the pattern's match in the diff text, None when the
      diff is falsy or does not match; then `func` is returned unchanged.
      Each group PHP finds empty falls back to a default: '+', no amount,
      day ("0" is empty to PHP, so an amount of "0" is dropped). */
  function Interval(m: Option<IntervalMatch>, func: string := "NOW()"): (r: Result<string>)
    ensures m.None? ==> r == Ok(func)
    ensures r.Err? <==> m.Some? && UnitOf(m.value) !in IntervalUnits
    ensures r.Err? ==> r.error == InvalidIntervalType(UnitOf(m.value))
    ensures r.Ok? ==> |func| <= |r.value| && r.value[..|func|] == func
  {
    match m
    case None => Ok(func)
    case Some(g) =>
      var incr := if Truthy(g.sign) then g.sign else "+";
      var items := if Truthy(g.amount) then g.amount else "";
      var unit := UnitOf(g);
      if unit !in IntervalUnits then Err(InvalidIntervalType(unit))
      else Ok(func + (" " + incr + " interval " + items + " " + IntervalUnits[unit] + " "))
  }

  /** A bare amount counts forward in days. */
  lemma IntervalDefaults(amount: string, func: string)
    requires Truthy(amount)
    ensures Interval(Some(IntervalMatch("", amount, "")), func) == Ok(func + " + interval " + amount + " day ")
  {
    var tail := " " + "+" + " interval " + amount + " " + "day" + " ";
    assert func + tail == func + " + interval " + amount + " day ";
  }

  /** Of the letters the pattern can capture as a unit, exactly the six
      unit letters are accepted. */
  lemma IntervalUnitAllowList(sign: string, amount: string, u: char, func: string)
    requires 'a' <= u <= 'z' || 'A' <= u <= 'Z'
    ensures Interval(Some(IntervalMatch(sign, amount, [u])), func).Ok? <==> u in "smhdMY"
  {
    assert Truthy([u]);
    if u in "smhdMY" {
      assert [u] in IntervalUnits;
    }
  }

  /** An amount of "0" is dropped from the text. */
  lemma ZeroAmountDropped(func: string)
    ensures Interval(Some(IntervalMatch("", "0", "d")), func) == Ok(func + " + interval  day ")
  {
    assert func + (" " + "+" + " interval " + "" + " " + "day" + " ") == func + " + interval  day ";
  }

  /** now: a func marker whose entry holds only the interval text, so it
      has no bind values. */
  function NowExpr(m: Option<IntervalMatch> := None, func: string := "NOW()"): (r: Result<Value>)
    ensures r.Ok? <==> Interval(m, func).Ok?
    ensures r.Err? ==> r.error == Interval(m, func).error
    ensures r.Ok? ==> r.value.Func? && r.value.binds == [] && !r.value.listed
  {
    match Interval(m, func)
    case Ok(t) => Ok(Func(t, [], false))
    case Err(e) => Err(e)
  }

  /** A column set to now() is written as the interval text and binds
      nothing. */
  lemma NowRender(column: string, m: Option<IntervalMatch>, func: string)
    requires Interval(m, func).Ok?
    ensures ColumnValue(column, NowExpr(m, func).value) == Step(Emit(Interval(m, func).value + ", "), true)
  {
  }
}
