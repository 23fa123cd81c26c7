/** The central invariant of the bind register: every `?` the build steps
    write has exactly one bound value, and the values are bound in the order
    their placeholders appear. Clause, column and table texts supplied by
    the caller are assumed to hold no `?` of their own, except where a
    condition passes an array of raw values whose placeholders are in its
    property text. */
module Balance {
  import opened Text
  import opened Values
  import opened Placeholders
  import opened Render

  /** As many placeholders in the text as values bound. */
  predicate Balanced(o: Out) {
    Count(o.text) == |o.binds|
  }

  lemma BalancedThen(a: Out, b: Out)
    requires Balanced(a) && Balanced(b)
    ensures Balanced(Then(a, b))
  {
    CountAppend(a.text, b.text);
  }

  lemma NoHole(s: string)
    requires '?' !in s
    ensures Count(s) == 0
  {
    NoHolesChars(s);
  }

  lemma Count3(a: string, b: string, c: string)
    ensures Count(a + b + c) == Count(a) + Count(b) + Count(c)
  {
    CountAppend(a + b, c);
    CountAppend(a, b);
  }

  lemma CountHole()
    ensures Count("?") == 1
  {
    assert "?"[1..] == [];
  }

  /** A text with one placeholder between two texts without any. */
  lemma OneHoleIn(a: string, b: string)
    requires '?' !in a && '?' !in b
    ensures Count(a + "?" + b) == 1
  {
    Count3(a, "?", b);
    NoHole(a);
    NoHole(b);
    CountHole();
  }

  //---------- values and conditions ----------

  /** A value whose own text carries exactly its own bind values. */
  predicate CleanValue(v: Value) {
    match v
    case Sub(e) => Count(e.query) == |e.params| && '?' !in e.alias
    case Func(e, b, _) => Count(e) == |b|
    case Inc(d) => '?' !in d
    case Not(c) => '?' !in c
    case _ => true
  }

  /** _buildPair writes one placeholder per bound value. */
  lemma PairBalanced(op: string, v: Value)
    requires '?' !in op && CleanValue(v)
    ensures Balanced(Pair(op, v))
  {
    if v.Sub? {
      var e := v.sub;
      assert Pair(op, v).text == (" " + op + " (") + e.query + (") " + e.alias);
      Count3(" " + op + " (", e.query, ") " + e.alias);
      NoHole(" " + op + " (");
      NoHole(") " + e.alias);
    } else {
      assert Pair(op, v).text == (" " + op + " ") + "?" + " ";
      OneHoleIn(" " + op + " ", " ");
    }
  }

  lemma {:induction false} RepeatCount(n: nat)
    ensures Count(Repeat(" ?,", n)) == n
  {
    if n > 0 {
      RepeatCount(n - 1);
      CountAppend(Repeat(" ?,", n - 1), " ?,");
      assert " ?," == " " + "?" + ",";
      OneHoleIn(" ", ",");
    }
  }

  lemma InListBalanced(op: string, v: Value)
    requires '?' !in op && (v.Sub? ==> CleanValue(v))
    ensures Balanced(InList(op, v))
  {
    var inner := if v.Sub? then Pair("", v) else Out(Repeat(" ?,", |Elems(v)|), Elems(v));
    if v.Sub? {
      PairBalanced("", v);
    } else {
      RepeatCount(|Elems(v)|);
    }
    var x := " " + op + " (" + inner.text;
    CountAppend(" " + op + " (", inner.text);
    NoHole(" " + op + " (");
    CountRTrim(x, {','});
    CountAppend(RTrim(x, {','}), " ) ");
    NoHole(" ) ");
  }

  /** The default branch of the operator switch binds the items of an
      array value without writing a placeholder for them. */
  predicate Raw(op: string, v: Value) {
    !IsIn(op) && !IsBetween(op) && !IsExists(op) && IsArray(v)
  }

  function RawCount(op: string, v: Value): nat {
    if Raw(op, v) then |Elems(v)| else 0
  }

  /** BETWEEN writes two placeholders. */
  lemma BetweenCount(op: string)
    requires '?' !in op
    ensures Count(" " + op + " ? AND ? ") == 2
  {
    var y := " AND " + "?" + " ";
    assert " " + op + " ? AND ? " == (" " + op + " ") + "?" + y;
    Count3(" " + op + " ", "?", y);
    NoHole(" " + op + " ");
    CountHole();
    OneHoleIn(" AND ", " ");
  }

  /** The operator switch: its placeholders, together with those a raw
      array value relies on in the property text, match the values it
      binds. */
  lemma ComparisonCount(op: string, v: Value, spacedNull: bool)
    requires '?' !in op && CleanValue(v)
    requires IsBetween(op) ==> |Elems(v)| == 2
    ensures var c := Comparison(op, v, spacedNull); Count(c.text) + RawCount(op, v) == |c.binds|
  {
    if IsIn(op) {
      InListBalanced(op, v);
    } else if IsBetween(op) {
      BetweenCount(op);
    } else if IsExists(op) {
      PairBalanced("", v);
      CountAppend(op, Pair("", v).text);
      NoHole(op);
    } else if IsArray(v) {
      assert Count("") == 0;
    } else if v == Scalar(Null) {
      NoHole((if spacedNull then " " else "") + op + " NULL");
    } else if Skips(v) {
      assert Count("") == 0;
    } else {
      PairBalanced(op, v);
    }
  }

  /** BETWEEN keeps the register in step exactly when its value has two
      items. */
  lemma BetweenBalancedIff(op: string, v: Value, spacedNull: bool)
    requires '?' !in op && IsBetween(op)
    ensures Balanced(Comparison(op, v, spacedNull)) <==> |Elems(v)| == 2
  {
    BetweenCount(op);
  }

  /** A condition record whose texts hold no placeholder of their own,
      except those its raw array value is bound to. */
  predicate CleanCond(c: Cond) {
    '?' !in c.op && CleanValue(c.val)
    && (IsBetween(c.op) ==> |Elems(c.val)| == 2)
    && Count(c.conn) + Count(c.prop) == RawCount(c.op, c.val)
  }

  predicate CleanConds(cs: seq<Cond>) {
    forall i :: 0 <= i < |cs| ==> CleanCond(cs[i])
  }

  lemma ClauseBalanced(c: Cond, spacedNull: bool)
    requires CleanCond(c)
    ensures Balanced(Clause(c, spacedNull))
  {
    ComparisonCount(c.op, c.val, spacedNull);
    var h := " " + c.conn + " " + c.prop;
    assert h == " " + c.conn + (" " + c.prop);
    Count3(" ", c.conn, " " + c.prop);
    CountAppend(" ", c.prop);
    NoHole(" ");
    CountAppend(h, Comparison(c.op, c.val, spacedNull).text);
  }

  lemma {:induction false} ClausesBalanced(cs: seq<Cond>, spacedNull: bool)
    requires CleanConds(cs)
    ensures Balanced(Clauses(cs, spacedNull))
    decreases |cs|
  {
    if cs != [] {
      var init := cs[..|cs| - 1];
      assert CleanConds(init) by {
        forall i | 0 <= i < |init| ensures CleanCond(init[i]) {
          assert init[i] == cs[i];
        }
      }
      ClausesBalanced(init, spacedNull);
      ClauseBalanced(cs[|cs| - 1], spacedNull);
      BalancedThen(Clauses(init, spacedNull), Clause(cs[|cs| - 1], spacedNull));
    }
  }

  lemma ConditionsBalanced(keyword: string, cs: seq<Cond>)
    requires '?' !in keyword && CleanConds(cs)
    ensures Balanced(Conditions(keyword, cs))
  {
    if cs != [] {
      ClausesBalanced(cs, true);
      NoHole(" " + keyword);
      BalancedThen(Emit(" " + keyword), Clauses(cs, true));
    }
  }

  //---------- joins ----------

  predicate CleanJoin(j: JoinClause) {
    '?' !in j.kind && '?' !in j.on
    && match j.target
       case Table(n) => '?' !in n
       case SubTable(e) => CleanValue(Sub(e))
  }

  predicate CleanJoinConds(joinAnd: map<string, seq<Cond>>) {
    forall k :: k in joinAnd ==> CleanConds(joinAnd[k])
  }

  lemma JoinPartBalanced(j: JoinClause, joinAnd: map<string, seq<Cond>>)
    requires CleanJoin(j) && CleanJoinConds(joinAnd)
    ensures Balanced(JoinPart(j, joinAnd))
  {
    var t := TargetPart(j.target);
    if j.target.Table? {
      NoHole(j.target.name);
    } else {
      PairBalanced("", Sub(j.target.sub));
    }
    var a := " " + j.kind + " JOIN ";
    var b := (if ContainsIgnoreCase(j.on, "using") then " " else " on ") + j.on;
    var u := if ContainsIgnoreCase(j.on, "using") then " " else " on ";
    assert " " + j.kind + " JOIN " + t.text + u + j.on == a + t.text + b;
    Count3(a, t.text, b);
    NoHole(a);
    NoHole(b);
    var head := Out(a + t.text + b, t.binds);
    assert Balanced(head);
    if t.text in joinAnd {
      ClausesBalanced(joinAnd[t.text], false);
      BalancedThen(head, Clauses(joinAnd[t.text], false));
    }
  }

  lemma {:induction false} JoinsBalanced(js: seq<JoinClause>, joinAnd: map<string, seq<Cond>>)
    requires forall i :: 0 <= i < |js| ==> CleanJoin(js[i])
    requires CleanJoinConds(joinAnd)
    ensures Balanced(Joins(js, joinAnd))
    decreases |js|
  {
    if js != [] {
      var init := js[..|js| - 1];
      assert forall i :: 0 <= i < |init| ==> init[i] == js[i];
      JoinsBalanced(init, joinAnd);
      JoinPartBalanced(js[|js| - 1], joinAnd);
      BalancedThen(Joins(init, joinAnd), JoinPart(js[|js| - 1], joinAnd));
    }
  }

  //---------- data pairs ----------

  predicate CleanColumn(c: Column) {
    '?' !in c.name && CleanValue(c.val)
  }

  predicate CleanColumns(cols: seq<Column>) {
    forall i :: 0 <= i < |cols| ==> CleanColumn(cols[i])
  }

  lemma {:induction false} ReplaceCharNoHole(s: string, from: char, to: string)
    requires '?' !in s && '?' !in to
    ensures '?' !in ReplaceChar(s, from, to)
    decreases |s|
  {
    if s != [] {
      assert s[0] in s;
      assert forall c :: c in s[1..] ==> c in s;
      ReplaceCharNoHole(s[1..], from, to);
    }
  }

  lemma ColumnPairBalanced(c: Column, isInsert: bool)
    requires CleanColumn(c)
    ensures Balanced(ColumnPair(c, isInsert).out)
  {
    var h := ColumnHead(c.name, isInsert);
    if !isInsert && '.' in c.name {
      ReplaceCharNoHole(c.name, '.', ".`");
    }
    NoHole(h);
    var v := ColumnValue(c.name, c.val);
    match c.val {
      case Sub(e) =>
        PairBalanced("", c.val);
        CountAppend(Pair("", c.val).text, ", ");
        NoHole(", ");
      case Scalar(_) =>
        assert "?, " == "" + "?" + ", ";
        OneHoleIn("", ", ");
      case Absent =>
        assert "?, " == "" + "?" + ", ";
        OneHoleIn("", ", ");
      case Inc(d) =>
        NoHole(c.name + d + ", ");
      case Func(e, b, _) =>
        CountAppend(e, ", ");
        NoHole(", ");
      case Not(col) =>
        NoHole("!" + (if col == "" then c.name else col) + ", ");
      case List(_) =>
        assert Count("") == 0;
    }
    BalancedThen(Emit(h), v.out);
  }

  lemma {:induction false} PairsBalanced(cols: seq<Column>, isInsert: bool)
    requires CleanColumns(cols)
    ensures Balanced(Pairs(cols, isInsert).out)
    decreases |cols|
  {
    if cols != [] {
      var init := cols[..|cols| - 1];
      assert CleanColumns(init) by {
        forall i | 0 <= i < |init| ensures CleanColumn(init[i]) {
          assert init[i] == cols[i];
        }
      }
      PairsBalanced(init, isInsert);
      if Pairs(init, isInsert).ok {
        ColumnPairBalanced(cols[|cols| - 1], isInsert);
        BalancedThen(Pairs(init, isInsert).out, ColumnPair(cols[|cols| - 1], isInsert).out);
      }
    }
  }

  lemma ClosedBalanced(head: string, p: Step, tail: string)
    requires '?' !in head && '?' !in tail && Balanced(p.out)
    ensures Balanced(Closed(head, p, tail).out)
  {
    CountAppend(head, p.out.text);
    NoHole(head);
    if p.ok {
      CountRTrim(head + p.out.text, CommaSpace);
      CountAppend(RTrim(head + p.out.text, CommaSpace), tail);
      NoHole(tail);
    }
  }

  lemma {:induction false} JoinNoHole(parts: seq<string>, sep: string)
    requires forall i :: 0 <= i < |parts| ==> '?' !in parts[i]
    requires '?' !in sep
    ensures '?' !in Join(parts, sep)
    decreases |parts|
  {
    if |parts| > 1 {
      assert forall i :: 0 <= i < |parts[1..]| ==> parts[1..][i] == parts[i + 1];
      JoinNoHole(parts[1..], sep);
    }
  }

  lemma DataPartBalanced(data: seq<Column>, isInsert: bool)
    requires CleanColumns(data)
    ensures Balanced(DataPart(data, isInsert).out)
  {
    JoinNoHole(Names(data), "`, `");
    PairsBalanced(data, isInsert);
    ClosedBalanced(DataHead(data, isInsert), Pairs(data, isInsert), if isInsert then ")" else "");
  }

  //---------- ON DUPLICATE KEY UPDATE ----------

  predicate CleanUpsert(e: Upsert) {
    '?' !in e.col && (e.Assign? ==> CleanValue(e.val))
  }

  predicate CleanUpserts(u: seq<Upsert>) {
    forall i :: 0 <= i < |u| ==> CleanUpsert(u[i])
  }

  lemma CleanUpsertsInit(u: seq<Upsert>)
    requires u != [] && CleanUpserts(u)
    ensures CleanUpserts(u[..|u| - 1]) && CleanUpsert(u[|u| - 1])
  {
    var init := u[..|u| - 1];
    forall i | 0 <= i < |init| ensures CleanUpsert(init[i]) {
      assert init[i] == u[i];
    }
  }

  lemma {:induction false} NamedKeysNoHole(u: seq<Upsert>)
    requires CleanUpserts(u)
    ensures forall k :: k in NamedKeys(u) ==> '?' !in k
    decreases |u|
  {
    if u != [] {
      CleanUpsertsInit(u);
      NamedKeysNoHole(u[..|u| - 1]);
    }
  }

  lemma {:induction false} ReusedKeysNoHole(u: seq<Upsert>)
    requires CleanUpserts(u)
    ensures forall k :: k in ReusedKeys(u) ==> '?' !in k
    decreases |u|
  {
    if u != [] {
      CleanUpsertsInit(u);
      ReusedKeysNoHole(u[..|u| - 1]);
    }
  }

  lemma {:induction false} LookupClean(data: seq<Column>, k: string)
    requires CleanColumns(data)
    ensures CleanValue(Lookup(data, k))
    decreases |data|
  {
    if data != [] && data[0].name != k {
      assert CleanColumns(data[1..]) by {
        forall i | 0 <= i < |data[1..]| ensures CleanColumn(data[1..][i]) {
          assert data[1..][i] == data[i + 1];
        }
      }
      LookupClean(data[1..], k);
    }
  }

  lemma {:induction false} PutClean(data: seq<Column>, k: string, v: Value)
    requires CleanColumns(data) && '?' !in k && CleanValue(v)
    ensures CleanColumns(Put(data, k, v))
    decreases |data|
  {
    if data != [] {
      var rest := data[1..];
      assert CleanColumns(rest) by {
        forall i | 0 <= i < |rest| ensures CleanColumn(rest[i]) {
          assert rest[i] == data[i + 1];
        }
      }
      if data[0].name != k {
        PutClean(rest, k, v);
        var r := [data[0]] + Put(rest, k, v);
        forall i | 0 <= i < |r| ensures CleanColumn(r[i]) {
          if i > 0 {
            assert r[i] == Put(rest, k, v)[i - 1];
          }
        }
      } else {
        var r := [Column(k, v)] + rest;
        forall i | 0 <= i < |r| ensures CleanColumn(r[i]) {
          if i > 0 {
            assert r[i] == rest[i - 1];
          }
        }
      }
    }
  }

  lemma {:induction false} MergeClean(data: seq<Column>, u: seq<Upsert>)
    requires CleanColumns(data) && CleanUpserts(u)
    ensures CleanColumns(Merge(data, u))
    decreases |u|
  {
    if u != [] {
      CleanUpsertsInit(u);
      MergeClean(data, u[..|u| - 1]);
      var e := u[|u| - 1];
      if e.Assign? {
        PutClean(Merge(data, u[..|u| - 1]), e.col, e.val);
      }
    }
  }

  lemma UpsertColumnsClean(u: seq<Upsert>, data: seq<Column>)
    requires CleanUpserts(u) && CleanColumns(data)
    ensures CleanColumns(UpsertColumns(u, data))
  {
    NamedKeysNoHole(u);
    ReusedKeysNoHole(u);
    var keys := UpsertKeys(u);
    assert forall k :: k in keys ==> '?' !in k;
    var merged := Merge(data, u);
    MergeClean(data, u);
    var cols := LookupAll(keys, merged);
    forall i | 0 <= i < |cols| ensures CleanColumn(cols[i]) {
      assert keys[i] in keys;
      LookupClean(merged, keys[i]);
    }
  }

  lemma DuplicateHeadNoHole()
    ensures '?' !in " ON DUPLICATE KEY UPDATE "
  {
  }

  lemma OnDuplicateBalanced(u: seq<Upsert>, data: seq<Column>)
    requires CleanUpserts(u) && CleanColumns(data)
    ensures Balanced(OnDuplicatePart(u, data).out)
  {
    if u != [] {
      DuplicateHeadNoHole();
      UpsertColumnsClean(u, data);
      PairsBalanced(UpsertColumns(u, data), false);
      ClosedBalanced(" ON DUPLICATE KEY UPDATE ", Pairs(UpsertColumns(u, data), false), "");
    } else {
      assert Count("") == 0;
    }
  }

  //---------- the fragments that bind nothing ----------

  lemma RTrimNoHole(s: string, cut: set<char>)
    requires '?' !in s
    ensures '?' !in RTrim(s, cut)
  {
    var r := RTrim(s, cut);
    forall i | 0 <= i < |r| ensures r[i] != '?' {
      assert r[i] == s[i];
    }
  }

  lemma KeywordsNoHole()
    ensures '?' !in " GROUP BY " && '?' !in " ORDER BY " && '?' !in "WHERE" && '?' !in "HAVING"
  {
  }

  /** A keyword and a list of items, trimmed and closed by a blank. */
  lemma ListNoHole(head: string, items: string)
    requires '?' !in head && '?' !in items
    ensures '?' !in RTrim(head + items, CommaSpace) + " "
  {
    RTrimNoHole(head + items, CommaSpace);
  }

  lemma {:induction false} GroupItemsNoHole(gs: seq<string>)
    requires forall i :: 0 <= i < |gs| ==> '?' !in gs[i]
    ensures '?' !in GroupItems(gs)
    decreases |gs|
  {
    if gs != [] {
      var init := gs[..|gs| - 1];
      assert forall i :: 0 <= i < |init| ==> init[i] == gs[i];
      GroupItemsNoHole(init);
    }
  }

  lemma GroupByNoHole(gs: seq<string>)
    requires forall i :: 0 <= i < |gs| ==> '?' !in gs[i]
    ensures '?' !in GroupByPart(gs)
  {
    if gs != [] {
      GroupItemsNoHole(gs);
      KeywordsNoHole();
      ListNoHole(" GROUP BY ", GroupItems(gs));
    }
  }

  predicate CleanOrder(t: OrderTerm) {
    '?' !in t.field && '?' !in t.dir
  }

  lemma OrderItemNoHole(t: OrderTerm)
    requires CleanOrder(t)
    ensures '?' !in OrderItem(t)
  {
    if IsRand(t.field) {
      assert '?' !in "rand(), ";
    } else {
      assert '?' !in " " && '?' !in ", ";
    }
  }

  lemma {:induction false} OrderItemsNoHole(os: seq<OrderTerm>)
    requires forall i :: 0 <= i < |os| ==> CleanOrder(os[i])
    ensures '?' !in OrderItems(os)
    decreases |os|
  {
    if os != [] {
      var init := os[..|os| - 1];
      assert forall i :: 0 <= i < |init| ==> init[i] == os[i];
      OrderItemsNoHole(init);
      OrderItemNoHole(os[|os| - 1]);
    }
  }

  lemma OrderByNoHole(os: seq<OrderTerm>)
    requires forall i :: 0 <= i < |os| ==> CleanOrder(os[i])
    ensures '?' !in OrderByPart(os)
  {
    if os != [] {
      OrderItemsNoHole(os);
      KeywordsNoHole();
      ListNoHole(" ORDER BY ", OrderItems(os));
    }
  }

  lemma IntTextNoHole(i: int)
    ensures '?' !in IntText(i)
  {
    var r := IntText(i);
    forall k | 0 <= k < |r| ensures r[k] != '?' {
    }
  }

  lemma LimitNoHole(l: Limit)
    ensures '?' !in LimitPart(l)
  {
    match l
    case NoLimit =>
    case Rows(n) => IntTextNoHole(n);
    case Range(a, b) => IntTextNoHole(a); IntTextNoHole(b);
  }

  lemma LockingNoHole(forUpdate: bool, lockInShareMode: bool)
    ensures '?' !in LockingPart(forUpdate, lockInShareMode)
  {
  }

  //---------- the statement ----------

  /** Accumulators whose texts hold no placeholders of their own. */
  predicate CleanAccumulators(a: Accumulators) {
    (forall i :: 0 <= i < |a.join| ==> CleanJoin(a.join[i]))
    && CleanJoinConds(a.joinAnd)
    && CleanConds(a.where) && CleanConds(a.having)
    && (forall i :: 0 <= i < |a.orderBy| ==> CleanOrder(a.orderBy[i]))
    && (forall i :: 0 <= i < |a.groupBy| ==> '?' !in a.groupBy[i])
    && CleanUpserts(a.updateColumns)
  }

  /** GROUP BY, ORDER BY and LIMIT bind nothing and write no placeholder. */
  lemma PlainPartsBalanced(gs: seq<string>, os: seq<OrderTerm>, numRows: Limit)
    requires forall i :: 0 <= i < |gs| ==> '?' !in gs[i]
    requires forall i :: 0 <= i < |os| ==> CleanOrder(os[i])
    ensures Balanced(Emit(GroupByPart(gs))) && Balanced(Emit(OrderByPart(os))) && Balanced(Emit(LimitPart(numRows)))
  {
    GroupByNoHole(gs);
    NoHole(GroupByPart(gs));
    OrderByNoHole(os);
    NoHole(OrderByPart(os));
    LimitNoHole(numRows);
    NoHole(LimitPart(numRows));
  }

  lemma FilterBalanced(a: Accumulators, numRows: Limit)
    requires CleanAccumulators(a)
    ensures Balanced(FilterPart(a.where, a.groupBy, a.having, a.orderBy, numRows))
  {
    var w := Conditions("WHERE", a.where);
    var g := Emit(GroupByPart(a.groupBy));
    var h := Conditions("HAVING", a.having);
    var o := Emit(OrderByPart(a.orderBy));
    var l := Emit(LimitPart(numRows));
    KeywordsNoHole();
    ConditionsBalanced("WHERE", a.where);
    ConditionsBalanced("HAVING", a.having);
    PlainPartsBalanced(a.groupBy, a.orderBy, numRows);
    BalancedThen(w, g);
    BalancedThen(Then(w, g), h);
    BalancedThen(Then(Then(w, g), h), o);
    BalancedThen(Then(Then(Then(w, g), h), o), l);
  }

  lemma OpeningBalanced(a: Accumulators, data: Option<seq<Column>>, isInsert: bool)
    requires CleanAccumulators(a) && (data.Some? ==> CleanColumns(data.value))
    ensures Balanced(Opening(a, data, isInsert).out)
  {
    JoinsBalanced(a.join, a.joinAnd);
    if data.Some? {
      DataPartBalanced(data.value, isInsert);
    } else {
      assert Count("") == 0;
    }
    var ins := if data.Some? then DataPart(data.value, isInsert) else Step(Empty, true);
    BalancedThen(Joins(a.join, a.joinAnd), ins.out);
  }

  lemma TailBalanced(u: seq<Upsert>, forUpdate: bool, lockInShareMode: bool, data: Option<seq<Column>>)
    requires CleanUpserts(u) && (data.Some? ==> CleanColumns(data.value))
    ensures Balanced(Tail(u, forUpdate, lockInShareMode, data).out)
  {
    var d := if data.Some? then data.value else [];
    OnDuplicateBalanced(u, d);
    var lock := LockingPart(forUpdate, lockInShareMode);
    LockingNoHole(forUpdate, lockInShareMode);
    NoHole(lock);
    BalancedThen(OnDuplicatePart(u, d).out, Emit(lock));
  }

  lemma ClosingBalanced(a: Accumulators, numRows: Limit, data: Option<seq<Column>>)
    requires CleanAccumulators(a) && (data.Some? ==> CleanColumns(data.value))
    ensures Balanced(Closing(a, numRows, data).out)
  {
    FilterBalanced(a, numRows);
    TailBalanced(a.updateColumns, a.forUpdate, a.lockInShareMode, data);
    BalancedThen(FilterPart(a.where, a.groupBy, a.having, a.orderBy, numRows),
                 Tail(a.updateColumns, a.forUpdate, a.lockInShareMode, data).out);
  }

  /** _buildQuery keeps the register in step: the text it appends holds
      exactly as many placeholders as the values it binds, whether it runs
      to the end or throws part way. */
  lemma StatementBalanced(a: Accumulators, numRows: Limit, data: Option<seq<Column>>, isInsert: bool)
    requires CleanAccumulators(a) && (data.Some? ==> CleanColumns(data.value))
    ensures Balanced(Statement(a, numRows, data, isInsert).out)
  {
    StatementHalves(a, numRows, data, isInsert);
    OpeningBalanced(a, data, isInsert);
    ClosingBalanced(a, numRows, data);
    var o := Opening(a, data, isInsert);
    if o.ok {
      BalancedThen(o.out, Closing(a, numRows, data).out);
    }
  }
}
