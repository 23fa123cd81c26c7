/** What each _build* step of the query builder appends to the statement
    text and to the bind register, as functions of the accumulated clauses.
    The builder's methods are proved to append exactly these fragments. */
module Render {
  import opened Text
  import opened Values

  /** A piece of statement text together with the values bound, in order,
      while it was emitted. */
  datatype Out = Out(text: string, binds: seq<Param>)

  const Empty := Out("", [])

  function Emit(s: string): Out {
    Out(s, [])
  }

  /** One fragment followed by another. */
  function Then(a: Out, b: Out): Out {
    Out(a.text + b.text, a.binds + b.binds)
  }

  lemma ThenAssoc(a: Out, b: Out, c: Out)
    ensures Then(Then(a, b), c) == Then(a, Then(b, c))
  {
    assert (a.text + b.text) + c.text == a.text + (b.text + c.text);
    assert (a.binds + b.binds) + c.binds == a.binds + (b.binds + c.binds);
  }

  lemma ThenEmit(a: Out, s: string)
    ensures Then(a, Emit(s)) == Out(a.text + s, a.binds)
  {
    assert a.binds + [] == a.binds;
  }

  lemma EmitThen(s: string, b: Out)
    ensures Then(Emit(s), b) == Out(s + b.text, b.binds)
  {
    assert [] + b.binds == b.binds;
  }

  /** _buildPair: a subquery is embedded as "(text) alias" and brings its own
      values; anything else is bound to one placeholder. */
  function Pair(op: string, v: Value): Out {
    if v.Sub? then Out(" " + op + " (" + v.sub.query + ") " + v.sub.alias, v.sub.params)
    else Out(" " + op + " ? ", [AsParam(v)])
  }

  function Repeat(s: string, n: nat): string {
    if n == 0 then "" else Repeat(s, n - 1) + s
  }

  predicate IsIn(op: string) {
    var l := Lower(op); l == "in" || l == "not in"
  }

  predicate IsBetween(op: string) {
    var l := Lower(op); l == "between" || l == "not between"
  }

  predicate IsExists(op: string) {
    var l := Lower(op); l == "exists" || l == "not exists"
  }

  /** The values the default branch writes nothing for: the 'DBNULL' default
      itself, and true, which PHP's loose `$val != 'DBNULL' || $val == '0'`
      also rejects. */
  predicate Skips(v: Value) {
    v.Absent? || v == Scalar(Str("DBNULL")) || v == Scalar(Bool(true))
  }

  /** A text PHP reads as the number zero: zeros, with a point, a sign or
      blanks (exponents are not considered). */
  predicate ZeroText(s: string) {
    s != [] && forall i :: 0 <= i < |s| ==> s[i] in "0.+- "
  }

  /** PHP 7's loose `$val == 'DBNULL'` for a scalar: a string compares as
      text, a number with 'DBNULL' read as 0, a boolean with the truth of a
      non-empty string, and null as the empty string. */
  predicate LooseEqualsDbNull(p: Param) {
    match p
    case Null => false
    case Str(s) => s == "DBNULL"
    case Int(i) => i == 0
    case Double(r) => ZeroText(r)
    case Bool(b) => b
  }

  /** PHP 7's loose `$val == '0'` for a scalar: '0' is numeric, so a numeric
      string or a number compares as a number; a boolean with the falsity
      of '0'; null as the empty string. */
  predicate LooseEqualsZero(p: Param) {
    match p
    case Null => false
    case Str(s) => ZeroText(s)
    case Int(i) => i == 0
    case Double(r) => ZeroText(r)
    case Bool(b) => !b
  }

  /** The default branch skips exactly the scalars that fail the source's
      test `$val != 'DBNULL' || $val == '0'` (null is handled before it):
      the string 'DBNULL' and true. A number never fails it, since both
      comparisons then agree. */
  lemma SkipsMatchesLooseTest(p: Param)
    requires !p.Null?
    ensures Skips(Scalar(p)) <==> LooseEqualsDbNull(p) && !LooseEqualsZero(p)
  {
    if p == Str("DBNULL") {
      assert p.s[0] !in "0.+- ";
    }
  }

  /** IN and NOT IN: a subquery in parentheses, or one placeholder per
      value with the trailing comma trimmed. */
  function InList(op: string, v: Value): (r: Out)
    ensures v.Sub? ==> r.binds == v.sub.params
    ensures !v.Sub? ==> r.binds == Elems(v)
    ensures |r.text| >= 3 && r.text[|r.text| - 3..] == " ) "
  {
    var inner := if v.Sub? then Pair("", v) else Out(Repeat(" ?,", |Elems(v)|), Elems(v));
    Out(RTrim(" " + op + " (" + inner.text, {','}) + " ) ", inner.binds)
  }

  /** The operator-and-value part of one condition: the switch in
      _buildCondition (spacedNull) and its copy conditionToSql, which writes
      no blank before "op NULL". */
  function Comparison(op: string, v: Value, spacedNull: bool): Out {
    if IsIn(op) then InList(op, v)
    else if IsBetween(op) then
      Out(" " + op + " ? AND ? ", Elems(v))
    else if IsExists(op) then
      var p := Pair("", v); Out(op + p.text, p.binds)
    else if IsArray(v) then
      Out("", Elems(v))
    else if v == Scalar(Null) then
      Emit((if spacedNull then " " else "") + op + " NULL")
    else if Skips(v) then
      Empty
    else
      Pair(op, v)
  }

  /** What the operator switch writes and binds: nothing at all exactly for
      a raw array under a plain operator and for a skipped value; the
      elements a foreach visits wherever the switch iterates the value; the
      value itself behind one placeholder in the default case. */
  lemma ComparisonShape(op: string, v: Value, spacedNull: bool)
    ensures var r := Comparison(op, v, spacedNull);
      && (r.text == "" <==> !IsIn(op) && !IsBetween(op) && !IsExists(op)
                            && (IsArray(v) || (v != Scalar(Null) && Skips(v))))
      && (!v.Sub? && (IsIn(op) || IsBetween(op) || (!IsExists(op) && IsArray(v))) ==> r.binds == Elems(v))
      && (!IsIn(op) && !IsBetween(op) && !IsExists(op) && !IsArray(v) && v != Scalar(Null) && !Skips(v) && !v.Sub? ==>
            r.binds == [AsParam(v)])
  {
  }

  /** One condition: connector, property text, then the comparison. */
  function Clause(c: Cond, spacedNull: bool): Out {
    Then(Emit(" " + c.conn + " " + c.prop), Comparison(c.op, c.val, spacedNull))
  }

  function Clauses(cs: seq<Cond>, spacedNull: bool): Out
    decreases |cs|
  {
    if cs == [] then Empty
    else Then(Clauses(cs[..|cs| - 1], spacedNull), Clause(cs[|cs| - 1], spacedNull))
  }

  /** _buildCondition: the keyword once, then every clause; nothing at all
      for an empty list. */
  function Conditions(keyword: string, cs: seq<Cond>): Out {
    if cs == [] then Empty else Then(Emit(" " + keyword), Clauses(cs, true))
  }

  /** The rendered join target: a table name, or an embedded subquery. */
  function TargetPart(t: JoinTarget): Out {
    match t
    case Table(n) => Emit(n)
    case SubTable(e) => Pair("", Sub(e))
  }

  /** One join of _buildJoin, followed by the joinWhere conditions filed
      under its rendered target. */
  function JoinPart(j: JoinClause, joinAnd: map<string, seq<Cond>>): Out {
    var t := TargetPart(j.target);
    var head := Out(" " + j.kind + " JOIN " + t.text
                    + (if ContainsIgnoreCase(j.on, "using") then " " else " on ") + j.on, t.binds);
    if t.text in joinAnd then Then(head, Clauses(joinAnd[t.text], false)) else head
  }

  function Joins(js: seq<JoinClause>, joinAnd: map<string, seq<Cond>>): Out
    decreases |js|
  {
    if js == [] then Empty
    else Then(Joins(js[..|js| - 1], joinAnd), JoinPart(js[|js| - 1], joinAnd))
  }

  lemma JoinsSnoc(js: seq<JoinClause>, i: nat, joinAnd: map<string, seq<Cond>>)
    requires i < |js|
    ensures Joins(js[..i + 1], joinAnd) == Then(Joins(js[..i], joinAnd), JoinPart(js[i], joinAnd))
  {
    assert js[..i + 1][..i] == js[..i];
  }

  /** A fragment and whether its step ran to the end (false: it threw, and
      the fragment is what was emitted before the throw). */
  datatype Step = Step(out: Out, ok: bool)

  /** The "`column` = " prefix of an assignment; a dotted name keeps its
      table part unquoted. */
  function ColumnHead(name: string, isInsert: bool): string {
    if isInsert then ""
    else if '.' !in name then "`" + name + "` = "
    else ReplaceChar(name, '.', ".`") + "` = "
  }

  /** What one column of _buildDataPairs writes after its head, by value
      shape; an array that is not a marker throws before writing. */
  function ColumnValue(name: string, v: Value): Step {
    match v
    case Sub(e) => Step(Out(Pair("", v).text + ", ", e.params), true)
    case Scalar(_) => Step(Out("?, ", [AsParam(v)]), true)
    case Absent => Step(Out("?, ", [AsParam(v)]), true)
    case Inc(d) => Step(Emit(name + d + ", "), true)
    case Func(e, b, _) => Step(Out(e + ", ", b), true)
    case Not(col) => Step(Emit("!" + (if col == "" then name else col) + ", "), true)
    case List(_) => Step(Empty, false)
  }

  /** Only a plain list throws, and it does so before writing anything; a
      scalar or the default binds one value, a subquery or func its own
      values, and inc or not none. */
  lemma ColumnValueShape(name: string, v: Value)
    ensures var r := ColumnValue(name, v);
      && (r.ok <==> !v.List?)
      && (!r.ok ==> r.out == Empty)
      && (v.Scalar? || v.Absent? ==> r.out.binds == [AsParam(v)])
      && (v.Sub? ==> r.out.binds == v.sub.params)
      && (v.Func? ==> r.out.binds == v.binds)
      && (v.Inc? || v.Not? ==> r.out.binds == [])
  {
  }

  /** One column of _buildDataPairs: its head, then its value. */
  function ColumnPair(c: Column, isInsert: bool): Step {
    var v := ColumnValue(c.name, c.val);
    Step(Then(Emit(ColumnHead(c.name, isInsert)), v.out), v.ok)
  }

  /** The columns of _buildDataPairs up to the closing rtrim, stopping at the
      first column that throws. */
  function Pairs(cols: seq<Column>, isInsert: bool): Step
    decreases |cols|
  {
    if cols == [] then Step(Empty, true)
    else
      var prev := Pairs(cols[..|cols| - 1], isInsert);
      if !prev.ok then prev
      else
        var s := ColumnPair(cols[|cols| - 1], isInsert);
        Step(Then(prev.out, s.out), s.ok)
  }

  lemma PairsSnoc(cols: seq<Column>, i: nat, isInsert: bool)
    requires i < |cols|
    requires Pairs(cols[..i], isInsert).ok
    ensures Pairs(cols[..i + 1], isInsert)
         == Step(Then(Pairs(cols[..i], isInsert).out, ColumnPair(cols[i], isInsert).out), ColumnPair(cols[i], isInsert).ok)
  {
    assert cols[..i + 1][..i] == cols[..i];
  }

  /** A head, the data pairs with trailing ", " trimmed, then a tail; when a
      column throws, the text stops untrimmed at that column. */
  function Closed(head: string, p: Step, tail: string): Step {
    if p.ok then Step(Out(RTrim(head + p.out.text, CommaSpace) + tail, p.out.binds), true)
    else Step(Out(head + p.out.text, p.out.binds), false)
  }

  /** A closed list written after a statement text: the trim never reaches
      back past the head, which holds a character outside the cut set. */
  lemma ClosedAfter(q: string, head: string, p: Step, tail: string)
    requires exists i :: 0 <= i < |head| && head[i] !in CommaSpace
    ensures q + Closed(head, p, tail).out.text
         == if p.ok then RTrim((q + head) + p.out.text, CommaSpace) + tail else (q + head) + p.out.text
  {
    var i :| 0 <= i < |head| && head[i] !in CommaSpace;
    assert (head + p.out.text)[i] == head[i];
    AppendAssoc(q, head, p.out.text);
    if p.ok {
      RTrimKeepsPrefix(q, head + p.out.text, CommaSpace);
      AppendAssoc(q, RTrim(head + p.out.text, CommaSpace), tail);
    }
  }

  function Names(cols: seq<Column>): (r: seq<string>)
    ensures |r| == |cols|
    ensures forall i :: 0 <= i < |cols| ==> r[i] == cols[i].name
  {
    if cols == [] then [] else Names(cols[..|cols| - 1]) + [cols[|cols| - 1].name]
  }

  /** The head _buildInsertQuery writes before the data pairs. */
  function DataHead(data: seq<Column>, isInsert: bool): string {
    if isInsert then
      (if data != [] then " (`" + Join(Names(data), "`, `") + "`) " else "") + " VALUES ("
    else " SET "
  }

  /** _buildInsertQuery: "(cols) VALUES (...)" in insert mode, "SET ..." in
      update mode. */
  function DataPart(data: seq<Column>, isInsert: bool): Step {
    Closed(DataHead(data, isInsert), Pairs(data, isInsert), if isInsert then ")" else "")
  }

  /** The onDuplicate keys in the order PHP's array ends up with: keyed
      entries first, in their order, then every reused column that is not
      already a key. */
  function NamedKeys(u: seq<Upsert>): seq<string>
    decreases |u|
  {
    if u == [] then []
    else
      var ks := NamedKeys(u[..|u| - 1]);
      var e := u[|u| - 1];
      if e.Assign? && e.col !in ks then ks + [e.col] else ks
  }

  function ReusedKeys(u: seq<Upsert>): seq<string>
    decreases |u|
  {
    if u == [] then []
    else
      var ks := ReusedKeys(u[..|u| - 1]);
      var e := u[|u| - 1];
      if e.Reuse? && e.col !in ks then ks + [e.col] else ks
  }

  function Without(xs: seq<string>, ys: seq<string>): (r: seq<string>)
    ensures forall x :: x in r <==> x in xs && x !in ys
    decreases |xs|
  {
    if xs == [] then []
    else
      var r := Without(xs[..|xs| - 1], ys);
      var x := xs[|xs| - 1];
      if x in ys then r else r + [x]
  }

  function UpsertKeys(u: seq<Upsert>): seq<string> {
    NamedKeys(u) + Without(ReusedKeys(u), NamedKeys(u))
  }

  /** $tableData[$k]; an undefined key reads as null. */
  function Lookup(data: seq<Column>, k: string): Value
    decreases |data|
  {
    if data == [] then Scalar(Null)
    else if data[0].name == k then data[0].val
    else Lookup(data[1..], k)
  }

  /** $tableData[$k] = $v: overwrite in place, or append. */
  function Put(data: seq<Column>, k: string, v: Value): seq<Column>
    decreases |data|
  {
    if data == [] then [Column(k, v)]
    else if data[0].name == k then [Column(k, v)] + data[1..]
    else [data[0]] + Put(data[1..], k, v)
  }

  /** The insert data with every keyed onDuplicate value written over it. */
  function Merge(data: seq<Column>, u: seq<Upsert>): seq<Column>
    decreases |u|
  {
    if u == [] then data
    else
      var m := Merge(data, u[..|u| - 1]);
      var e := u[|u| - 1];
      if e.Assign? then Put(m, e.col, e.val) else m
  }

  function LookupAll(keys: seq<string>, data: seq<Column>): (r: seq<Column>)
    ensures |r| == |keys|
    ensures forall i :: 0 <= i < |keys| ==> r[i] == Column(keys[i], Lookup(data, keys[i]))
    decreases |keys|
  {
    if keys == [] then [] else LookupAll(keys[..|keys| - 1], data) + [Column(keys[|keys| - 1], Lookup(data, keys[|keys| - 1]))]
  }

  /** The column list _buildOnDuplicate renders. */
  function UpsertColumns(u: seq<Upsert>, data: seq<Column>): seq<Column> {
    LookupAll(UpsertKeys(u), Merge(data, u))
  }

  /** _buildOnDuplicate: nothing without update columns. */
  function OnDuplicatePart(u: seq<Upsert>, data: seq<Column>): Step {
    if u == [] then Step(Empty, true)
    else Closed(" ON DUPLICATE KEY UPDATE ", Pairs(UpsertColumns(u, data), false), "")
  }

  /** The bare names of an update list written over `m` in order with '':
      `$this->_updateColumns[$val] = ''` in _buildOnDuplicate's loop. */
  function Blanked(m: seq<Column>, u: seq<Upsert>): seq<Column>
    decreases |u|
  {
    if u == [] then m
    else
      var b := Blanked(m, u[..|u| - 1]);
      var e := u[|u| - 1];
      if e.Reuse? then Put(b, e.col, Scalar(Str(""))) else b
  }

  /** What _buildOnDuplicate leaves in _updateColumns: the keyed entries
      (each at its first place, with its last value), every bare name set
      to '' in place or appended, and the numeric keys unset. */
  function RewrittenColumns(u: seq<Upsert>): seq<Column> {
    Blanked(Merge([], u), u)
  }

  /** A column list read back as keyed update entries. */
  function AsAssigns(m: seq<Column>): (r: seq<Upsert>)
    ensures |r| == |m|
    ensures forall i :: 0 <= i < |m| ==> r[i] == Assign(m[i].name, m[i].val)
    decreases |m|
  {
    if m == [] then [] else AsAssigns(m[..|m| - 1]) + [Assign(m[|m| - 1].name, m[|m| - 1].val)]
  }

  /** The accumulators once _buildOnDuplicate has run: only the update
      columns change, to their rewritten form. */
  function AfterDuplicate(a: Accumulators): Accumulators {
    a.(updateColumns := AsAssigns(RewrittenColumns(a.updateColumns)))
  }

  /** The accumulators _buildQuery leaves: the ON DUPLICATE step, reached
      unless the data pairs threw, has rewritten the update columns. */
  function AfterBuild(a: Accumulators, data: Option<seq<Column>>, isInsert: bool): Accumulators {
    if Opening(a, data, isInsert).ok then AfterDuplicate(a) else a
  }

  function GroupItems(gs: seq<string>): string
    decreases |gs|
  {
    if gs == [] then "" else GroupItems(gs[..|gs| - 1]) + (gs[|gs| - 1] + ", ")
  }

  /** _buildGroupBy */
  function GroupByPart(gs: seq<string>): string {
    if gs == [] then "" else RTrim(" GROUP BY " + GroupItems(gs), CommaSpace) + " "
  }

  /** A field that is rand() in any case and spacing. */
  predicate IsRand(field: string) {
    Lower(ReplaceChar(field, ' ', "")) == "rand()"
  }

  /** One ORDER BY entry; any spelling of rand() is normalised. */
  function OrderItem(t: OrderTerm): string {
    if IsRand(t.field) then "rand(), " else t.field + " " + t.dir + ", "
  }

  function OrderItems(os: seq<OrderTerm>): string
    decreases |os|
  {
    if os == [] then "" else OrderItems(os[..|os| - 1]) + OrderItem(os[|os| - 1])
  }

  /** Trimming the trailing separators of a list introduced by a keyword
      never reaches back into the text before the keyword. */
  lemma CloseList(q: string, head: string, items: string)
    requires exists i :: 0 <= i < |head| && head[i] !in CommaSpace
    ensures RTrim(q + head + items, CommaSpace) + " " == q + (RTrim(head + items, CommaSpace) + " ")
  {
    var i :| 0 <= i < |head| && head[i] !in CommaSpace;
    assert (head + items)[i] == head[i];
    AppendAssoc(q, head, items);
    RTrimKeepsPrefix(q, head + items, CommaSpace);
  }

  /** _buildOrderBy */
  function OrderByPart(os: seq<OrderTerm>): string {
    if os == [] then "" else RTrim(" ORDER BY " + OrderItems(os), CommaSpace) + " "
  }

  lemma OrderItemsSnoc(os: seq<OrderTerm>, i: nat)
    requires i < |os|
    ensures OrderItems(os[..i + 1]) == OrderItems(os[..i]) + OrderItem(os[i])
  {
    assert os[..i + 1][..i] == os[..i];
  }

  /** The text the ORDER BY loop leaves, once trimmed and closed, is the
      statement so far followed by the ORDER BY part. */
  lemma OrderByClosed(q: string, os: seq<OrderTerm>)
    requires os != []
    ensures RTrim(q + " ORDER BY " + OrderItems(os), CommaSpace) + " " == q + OrderByPart(os)
  {
    assert " ORDER BY "[1] == 'O';
    CloseList(q, " ORDER BY ", OrderItems(os));
  }

  /** _buildLimit */
  function LimitPart(l: Limit): string {
    match l
    case NoLimit => ""
    case Rows(n) => " LIMIT " + IntText(n)
    case Range(a, b) => " LIMIT " + IntText(a) + ", " + IntText(b)
  }

  /** Everything the clause-accumulating calls have collected. */
  datatype Accumulators = Accumulators(
    join: seq<JoinClause>,
    joinAnd: map<string, seq<Cond>>,
    where: seq<Cond>,
    having: seq<Cond>,
    orderBy: seq<OrderTerm>,
    groupBy: seq<string>,
    queryOptions: seq<string>,
    nestJoin: bool,
    forUpdate: bool,
    lockInShareMode: bool,
    updateColumns: seq<Upsert>)

  const NoAccumulators := Accumulators([], map[], [], [], [], [], [], false, false, false, [])

  function LockingPart(forUpdate: bool, lockInShareMode: bool): string {
    (if forUpdate then " FOR UPDATE" else "") + (if lockInShareMode then " LOCK IN SHARE MODE" else "")
  }

  /** Appending the five filter fragments one after another appends their
      concatenation. */
  lemma FilterChain(x: Out, w: Out, g: Out, h: Out, o: Out, l: Out)
    ensures Then(Then(Then(Then(Then(x, w), g), h), o), l)
         == Then(x, Then(Then(Then(Then(w, g), h), o), l))
  {
    ThenAssoc(x, w, g);
    ThenAssoc(x, Then(w, g), h);
    ThenAssoc(x, Then(Then(w, g), h), o);
    ThenAssoc(x, Then(Then(Then(w, g), h), o), l);
  }

  /** The part of _buildQuery from WHERE to LIMIT, which cannot throw. */
  function FilterPart(where: seq<Cond>, groupBy: seq<string>, having: seq<Cond>, orderBy: seq<OrderTerm>,
                      numRows: Limit): Out {
    Then(Then(Then(Then(Conditions("WHERE", where), Emit(GroupByPart(groupBy))),
                        Conditions("HAVING", having)),
                   Emit(OrderByPart(orderBy))),
         Emit(LimitPart(numRows)))
  }

  /** The part of _buildQuery before WHERE: the joins, then the data pairs
      of an insert or update, which may throw. */
  function Opening(a: Accumulators, data: Option<seq<Column>>, isInsert: bool): Step {
    var ins := if data.Some? then DataPart(data.value, isInsert) else Step(Empty, true);
    Step(Then(Joins(a.join, a.joinAnd), ins.out), ins.ok)
  }

  /** The end of _buildQuery: the ON DUPLICATE KEY UPDATE list, which may
      throw, then the locking suffixes. */
  function Tail(updateColumns: seq<Upsert>, forUpdate: bool, lockInShareMode: bool, data: Option<seq<Column>>): Step {
    var dup := OnDuplicatePart(updateColumns, if data.Some? then data.value else []);
    if !dup.ok then dup
    else Step(Then(dup.out, Emit(LockingPart(forUpdate, lockInShareMode))), true)
  }

  /** The part of _buildQuery from WHERE on. */
  function Closing(a: Accumulators, numRows: Limit, data: Option<seq<Column>>): Step {
    var t := Tail(a.updateColumns, a.forUpdate, a.lockInShareMode, data);
    Step(Then(FilterPart(a.where, a.groupBy, a.having, a.orderBy, numRows), t.out), t.ok)
  }

  /** The steps of _buildQuery. */
  datatype Stage = JoinStage | DataStage | WhereStage | GroupByStage | HavingStage
                 | OrderByStage | LimitStage | DuplicateStage | LockStage

  /** The step _buildQuery calls next: join, data, WHERE, GROUP BY, HAVING,
      ORDER BY, LIMIT, ON DUPLICATE KEY UPDATE, then the locking suffixes,
      which end the statement. */
  function Following(st: Stage): Option<Stage> {
    match st
    case JoinStage => Some(DataStage)
    case DataStage => Some(WhereStage)
    case WhereStage => Some(GroupByStage)
    case GroupByStage => Some(HavingStage)
    case HavingStage => Some(OrderByStage)
    case OrderByStage => Some(LimitStage)
    case LimitStage => Some(DuplicateStage)
    case DuplicateStage => Some(LockStage)
    case LockStage => None
  }

  /** How many steps come after a step. */
  function Remaining(st: Stage): nat {
    match st
    case JoinStage => 8
    case DataStage => 7
    case WhereStage => 6
    case GroupByStage => 5
    case HavingStage => 4
    case OrderByStage => 3
    case LimitStage => 2
    case DuplicateStage => 1
    case LockStage => 0
  }

  /** What one step appends; only the data pairs and the ON DUPLICATE list
      can throw. */
  function StageOut(st: Stage, a: Accumulators, numRows: Limit, data: Option<seq<Column>>, isInsert: bool): Step {
    match st
    case JoinStage => Step(Joins(a.join, a.joinAnd), true)
    case DataStage => if data.Some? then DataPart(data.value, isInsert) else Step(Empty, true)
    case WhereStage => Step(Conditions("WHERE", a.where), true)
    case GroupByStage => Step(Emit(GroupByPart(a.groupBy)), true)
    case HavingStage => Step(Conditions("HAVING", a.having), true)
    case OrderByStage => Step(Emit(OrderByPart(a.orderBy)), true)
    case LimitStage => Step(Emit(LimitPart(numRows)), true)
    case DuplicateStage => OnDuplicatePart(a.updateColumns, if data.Some? then data.value else [])
    case LockStage => Step(Emit(LockingPart(a.forUpdate, a.lockInShareMode)), true)
  }

  /** A step, then the rest unless the step threw. */
  function Compose(s: Step, rest: Step): Step {
    if !s.ok then s else Step(Then(s.out, rest.out), rest.ok)
  }

  /** The steps from `st` on, one after another; a throwing step ends the
      statement where it threw. (The accumulators in the decreases clause
      keep a run from a named step from being unfolded all at once.) */
  function RunFrom(st: Stage, a: Accumulators, numRows: Limit, data: Option<seq<Column>>, isInsert: bool): Step
    decreases Remaining(st), a
  {
    var s := StageOut(st, a, numRows, data, isInsert);
    match Following(st)
    case None => s
    case Some(next) => Compose(s, RunFrom(next, a, numRows, data, isInsert))
  }

  /** One step of a run that goes on. */
  lemma RunFromNext(st: Stage, next: Stage, a: Accumulators, numRows: Limit, data: Option<seq<Column>>, isInsert: bool)
    requires Following(st) == Some(next)
    ensures RunFrom(st, a, numRows, data, isInsert)
         == Compose(StageOut(st, a, numRows, data, isInsert), RunFrom(next, a, numRows, data, isInsert))
  {
  }

  /** _buildQuery: every step in order, from the joins on. */
  function Statement(a: Accumulators, numRows: Limit, data: Option<seq<Column>>, isInsert: bool): Step {
    RunFrom(JoinStage, a, numRows, data, isInsert)
  }

  lemma ComposeAssoc(x: Step, y: Step, z: Step)
    ensures Compose(Compose(x, y), z) == Compose(x, Compose(y, z))
  {
    if x.ok && y.ok {
      ThenAssoc(x.out, y.out, z.out);
    }
  }

  /** The ON DUPLICATE list and the locking suffixes. */
  lemma TailRun(a: Accumulators, numRows: Limit, data: Option<seq<Column>>, isInsert: bool)
    ensures RunFrom(DuplicateStage, a, numRows, data, isInsert)
         == Tail(a.updateColumns, a.forUpdate, a.lockInShareMode, data)
  {
  }

  /** What the steps that cannot throw append. */
  lemma WhereOut(a: Accumulators, numRows: Limit, data: Option<seq<Column>>, isInsert: bool)
    ensures StageOut(WhereStage, a, numRows, data, isInsert) == Step(Conditions("WHERE", a.where), true)
  {
  }

  lemma GroupByOut(a: Accumulators, numRows: Limit, data: Option<seq<Column>>, isInsert: bool)
    ensures StageOut(GroupByStage, a, numRows, data, isInsert) == Step(Emit(GroupByPart(a.groupBy)), true)
  {
  }

  lemma HavingOut(a: Accumulators, numRows: Limit, data: Option<seq<Column>>, isInsert: bool)
    ensures StageOut(HavingStage, a, numRows, data, isInsert) == Step(Conditions("HAVING", a.having), true)
  {
  }

  lemma OrderByOut(a: Accumulators, numRows: Limit, data: Option<seq<Column>>, isInsert: bool)
    ensures StageOut(OrderByStage, a, numRows, data, isInsert) == Step(Emit(OrderByPart(a.orderBy)), true)
  {
  }

  lemma LimitOut(a: Accumulators, numRows: Limit, data: Option<seq<Column>>, isInsert: bool)
    ensures StageOut(LimitStage, a, numRows, data, isInsert) == Step(Emit(LimitPart(numRows)), true)
  {
  }

  lemma JoinOut(a: Accumulators, numRows: Limit, data: Option<seq<Column>>, isInsert: bool)
    ensures StageOut(JoinStage, a, numRows, data, isInsert) == Step(Joins(a.join, a.joinAnd), true)
  {
  }

  /** A step that cannot throw, in front of the rest of the run. */
  lemma RunFromOk(st: Stage, next: Stage, x: Out, a: Accumulators, numRows: Limit, data: Option<seq<Column>>, isInsert: bool)
    requires Following(st) == Some(next)
    requires StageOut(st, a, numRows, data, isInsert) == Step(x, true)
    ensures var r := RunFrom(next, a, numRows, data, isInsert);
      RunFrom(st, a, numRows, data, isInsert) == Step(Then(x, r.out), r.ok)
  {
    RunFromNext(st, next, a, numRows, data, isInsert);
  }

  /** From ORDER BY on, in front of the ON DUPLICATE list and the locking
      suffixes. */
  lemma OrderByRun(a: Accumulators, numRows: Limit, data: Option<seq<Column>>, isInsert: bool)
    ensures var r := RunFrom(DuplicateStage, a, numRows, data, isInsert);
      RunFrom(OrderByStage, a, numRows, data, isInsert)
      == Step(Then(Emit(OrderByPart(a.orderBy)), Then(Emit(LimitPart(numRows)), r.out)), r.ok)
  {
    LimitOut(a, numRows, data, isInsert);
    RunFromOk(LimitStage, DuplicateStage, Emit(LimitPart(numRows)), a, numRows, data, isInsert);
    OrderByOut(a, numRows, data, isInsert);
    RunFromOk(OrderByStage, LimitStage, Emit(OrderByPart(a.orderBy)), a, numRows, data, isInsert);
  }

  lemma GroupByRun(a: Accumulators, numRows: Limit, data: Option<seq<Column>>, isInsert: bool)
    ensures var r := RunFrom(DuplicateStage, a, numRows, data, isInsert);
      RunFrom(GroupByStage, a, numRows, data, isInsert)
      == Step(Then(Emit(GroupByPart(a.groupBy)), Then(Conditions("HAVING", a.having),
                   Then(Emit(OrderByPart(a.orderBy)), Then(Emit(LimitPart(numRows)), r.out)))), r.ok)
  {
    OrderByRun(a, numRows, data, isInsert);
    HavingOut(a, numRows, data, isInsert);
    RunFromOk(HavingStage, OrderByStage, Conditions("HAVING", a.having), a, numRows, data, isInsert);
    GroupByOut(a, numRows, data, isInsert);
    RunFromOk(GroupByStage, HavingStage, Emit(GroupByPart(a.groupBy)), a, numRows, data, isInsert);
  }

  /** From WHERE on: the filter fragments, appended one after another, then
      the rest. */
  lemma WhereRun(a: Accumulators, numRows: Limit, data: Option<seq<Column>>, isInsert: bool)
    ensures var r := RunFrom(DuplicateStage, a, numRows, data, isInsert);
      RunFrom(WhereStage, a, numRows, data, isInsert)
      == Step(Then(FilterPart(a.where, a.groupBy, a.having, a.orderBy, numRows), r.out), r.ok)
  {
    var r := RunFrom(DuplicateStage, a, numRows, data, isInsert).out;
    var w := Conditions("WHERE", a.where);
    var g := Emit(GroupByPart(a.groupBy));
    var h := Conditions("HAVING", a.having);
    var o := Emit(OrderByPart(a.orderBy));
    var l := Emit(LimitPart(numRows));
    GroupByRun(a, numRows, data, isInsert);
    WhereOut(a, numRows, data, isInsert);
    RunFromOk(WhereStage, GroupByStage, w, a, numRows, data, isInsert);
    ThenAssoc(w, g, Then(h, Then(o, Then(l, r))));
    ThenAssoc(Then(w, g), h, Then(o, Then(l, r)));
    ThenAssoc(Then(Then(w, g), h), o, Then(l, r));
    ThenAssoc(Then(Then(Then(w, g), h), o), l, r);
  }

  lemma ClosingRun(a: Accumulators, numRows: Limit, data: Option<seq<Column>>, isInsert: bool)
    ensures RunFrom(WhereStage, a, numRows, data, isInsert) == Closing(a, numRows, data)
  {
    WhereRun(a, numRows, data, isInsert);
    TailRun(a, numRows, data, isInsert);
  }

  /** The statement is its opening (joins and data) followed, unless the
      data threw, by its closing (WHERE to the locking suffixes). */
  lemma StatementHalves(a: Accumulators, numRows: Limit, data: Option<seq<Column>>, isInsert: bool)
    ensures Statement(a, numRows, data, isInsert) == Compose(Opening(a, data, isInsert), Closing(a, numRows, data))
  {
    ClosingRun(a, numRows, data, isInsert);
    var d := StageOut(DataStage, a, numRows, data, isInsert);
    RunFromNext(DataStage, WhereStage, a, numRows, data, isInsert);
    JoinOut(a, numRows, data, isInsert);
    RunFromOk(JoinStage, DataStage, Joins(a.join, a.joinAnd), a, numRows, data, isInsert);
    ComposeAssoc(Step(Joins(a.join, a.joinAnd), true), d, Closing(a, numRows, data));
  }

  /** The table reference of get: prefixed unless it names a database. */
  function SelectTable(prefix: string, tableName: string): string {
    if '.' !in tableName then prefix + tableName else tableName
  }

  function ColumnsText(c: Columns): string {
    match c
    case ColumnText(s) => if s == "" || s == "0" then "*" else s
    case ColumnList(cs) => if cs == [] then "*" else Join(cs, ", ")
  }

  function SelectHead(opts: seq<string>, columns: Columns, table: string): string {
    "SELECT " + Join(opts, " ") + " " + ColumnsText(columns) + " FROM " + table
  }

  function InsertHead(operation: string, opts: seq<string>, table: string): string {
    operation + " " + Join(opts, " ") + " INTO " + table
  }

  /** delete: with joins, only rows of the table's alias (the last word of
      the table expression) are deleted. */
  function DeleteHead(table: string, joined: bool): string {
    if joined then "DELETE " + AfterLastSpace(table) + " FROM " + table else "DELETE FROM " + table
  }
}
