/** The QueryBuilder object: clause accumulators filled by the chaining
    calls, and the terminal verbs that assemble a statement text with its
    bind register, snapshot it, and reset the builder. */
module Builder {
  import opened Text
  import opened Values
  import opened Render
  import opened Debug

  const AllowedDirections: seq<string> := ["ASC", "DESC"]

  const AllowedJoinTypes: seq<string> := ["LEFT", "RIGHT", "OUTER", "INNER", "LEFT OUTER", "RIGHT OUTER", "NATURAL"]

  const AllowedOptions: seq<string> := [
    "ALL", "DISTINCT", "DISTINCTROW", "HIGH_PRIORITY", "STRAIGHT_JOIN", "SQL_SMALL_RESULT",
    "SQL_BIG_RESULT", "SQL_BUFFER_RESULT", "SQL_CACHE", "SQL_NO_CACHE", "SQL_CALC_FOUND_ROWS",
    "LOW_PRIORITY", "IGNORE", "QUICK", "MYSQLI_NESTJOIN", "FOR UPDATE", "LOCK IN SHARE MODE"]

  /** The three options setQueryOption turns into flags instead of listing. */
  predicate Routed(o: string) {
    o == "MYSQLI_NESTJOIN" || o == "FOR UPDATE" || o == "LOCK IN SHARE MODE"
  }

  /** Every connector after the first condition is kept; the first is blank. */
  predicate Leading(cs: seq<Cond>) {
    cs == [] || cs[0].conn == ""
  }

  /** The operator and value having stores. PHP replaces the operator by
      the first key of an array value unless that key is 0: a marker's key
      ([I], [N] or [F]) becomes the operator and its entry the value, and
      an empty array, which has no key, gives a null operator and a null
      value. A caller's `[op => v]` gives `op` and `v`, unless `op` is "0",
      which makes it the list [v]. */
  function HavingEntry(value: HavingValue, op: string): (r: (string, Value))
    ensures value.Plain? ==> !(r.1.Inc? || r.1.Not? || r.1.Func?)
    ensures value.Plain? && (!IsArray(value.v) || (value.v.List? && value.v.items != [])) ==> r == (op, value.v)
    ensures value.Plain? && value.v.Inc? ==> r == ("[I]", Scalar(Str(value.v.delta)))
    ensures value.Plain? && value.v.Not? ==> r == ("[N]", Scalar(Str(value.v.col)))
    ensures value.Plain? && value.v.Func? ==>
              r.0 == "[F]" && r.1.List? && |r.1.items| == (if value.v.listed then 2 else 1)
              && r.1.items[0] == Str(value.v.expr)
    ensures value == Plain(List([])) ==> r == ("", Scalar(Null))
    ensures value.Keyed? && value.op != "0" ==> r == (value.op, value.v)
    ensures value.Keyed? && value.op == "0" ==> r == (op, List([AsParam(value.v)]))
  {
    match value
    case Keyed(k, v) =>
      if k == "0" then (op, List([AsParam(v)])) else (k, v)
    case Plain(v) =>
      match v
      case Inc(d) => ("[I]", Scalar(Str(d)))
      case Not(c) => ("[N]", Scalar(Str(c)))
      case Func(e, _, listed) => ("[F]", List([Str(e)] + (if listed then [Null] else [])))
      case List(items) => if items == [] then ("", Scalar(Null)) else (op, v)
      case _ => (op, v)
  }

  /** The ORDER BY list is a PHP map keyed by field: no field twice. */
  predicate DistinctFields(os: seq<OrderTerm>) {
    forall i, j :: 0 <= i < j < |os| ==> os[i].field != os[j].field
  }

  /** orderBy: validate the direction, render the custom ordering. */
  function OrderTermFor(field: string, dir: string, custom: Custom): (r: Result<OrderTerm>)
    ensures r.Ok? <==> Upper(Trim(dir)) in AllowedDirections && !custom.NotAString?
    ensures r.Ok? ==> r.value.dir == Upper(Trim(dir)) && r.value.dir in AllowedDirections
    ensures !(Upper(Trim(dir)) in AllowedDirections) ==> r == Err(WrongOrderDirection(Upper(Trim(dir))))
    ensures Upper(Trim(dir)) in AllowedDirections && custom.NotAString? ==> r == Err(WrongCustomField)
    ensures r.Ok? && custom.NoCustom? ==> r.value.field == field
  {
    var d := Upper(Trim(dir));
    if d !in AllowedDirections then Err(WrongOrderDirection(d))
    else
      match custom
      case FieldList(vals) => Ok(OrderTerm("FIELD (" + field + ", \"" + Join(vals, "\",\"") + "\")", d))
      case Pattern(re) => Ok(OrderTerm(field + " REGEXP '" + re + "'", d))
      case NotAString => Err(WrongCustomField)
      case NoCustom => Ok(OrderTerm(field, d))
  }

  /** `$this->_orderBy[$field] = $dir`: a field already present keeps its
      place and takes the new direction; a new one goes last. */
  function SetOrder(os: seq<OrderTerm>, t: OrderTerm): (r: seq<OrderTerm>)
    ensures t in r
    ensures |r| == |os| || r == os + [t]
    ensures forall u :: u in os && u.field != t.field ==> u in r
    ensures forall u :: u in r ==> u == t || u in os
    ensures DistinctFields(os) ==> forall u :: u in r ==> u == t || (u in os && u.field != t.field)
    decreases |os|
  {
    if os == [] then [t]
    else if os[0].field == t.field then [t] + os[1..]
    else [os[0]] + SetOrder(os[1..], t)
  }

  /** Dropping the first term keeps the fields distinct. */
  lemma DistinctTail(os: seq<OrderTerm>)
    requires os != [] && DistinctFields(os)
    ensures DistinctFields(os[1..])
  {
    forall i, j | 0 <= i < j < |os| - 1 ensures os[1..][i].field != os[1..][j].field {
      assert os[1..][i] == os[i + 1] && os[1..][j] == os[j + 1];
    }
  }

  /** A term whose field no other term has can go in front. */
  lemma DistinctCons(t: OrderTerm, rest: seq<OrderTerm>)
    requires DistinctFields(rest)
    requires forall u :: u in rest ==> u.field != t.field
    ensures DistinctFields([t] + rest)
  {
    var r := [t] + rest;
    forall i, j | 0 <= i < j < |r| ensures r[i].field != r[j].field {
      assert r[j] == rest[j - 1];
      if i > 0 {
        assert r[i] == rest[i - 1];
      }
    }
  }

  /** Keying by field keeps the list free of duplicates. */
  lemma {:induction false} SetOrderDistinct(os: seq<OrderTerm>, t: OrderTerm)
    requires DistinctFields(os)
    ensures DistinctFields(SetOrder(os, t))
    decreases |os|
  {
    if os == [] {
      return;
    }
    DistinctTail(os);
    var tail := os[1..];
    if os[0].field == t.field {
      forall u | u in tail ensures u.field != t.field {
        var k :| 0 <= k < |tail| && tail[k] == u;
        assert os[k + 1] == u;
      }
      DistinctCons(t, tail);
    } else {
      SetOrderDistinct(tail, t);
      var rest := SetOrder(tail, t);
      forall u | u in rest ensures u.field != os[0].field {
        if u != t {
          var k :| 0 <= k < |tail| && tail[k] == u;
          assert os[k + 1] == u;
        }
      }
      DistinctCons(os[0], rest);
    }
  }

  /** join: validate the type (an empty or "0" type is accepted), prefix a
      plain table name. */
  function JoinRecord(prefix: string, table: JoinTarget, cond: string, kind: string): (r: Result<JoinClause>)
    ensures r.Ok? <==> !Truthy(Upper(Trim(kind))) || Upper(Trim(kind)) in AllowedJoinTypes
    ensures r.Err? ==> r.error == WrongJoinType(Upper(Trim(kind)))
    ensures r.Ok? ==> r.value.kind == Upper(Trim(kind)) && r.value.on == cond
    ensures r.Ok? && table.Table? ==> r.value.target == Table(prefix + table.name)
    ensures r.Ok? && table.SubTable? ==> r.value.target == table
  {
    var k := Upper(Trim(kind));
    if Truthy(k) && k !in AllowedJoinTypes then Err(WrongJoinType(k))
    else Ok(JoinClause(k, if table.Table? then Table(prefix + table.name) else table, cond))
  }

  /** One option of setQueryOption applied to the accumulators. */
  function ApplyOption(a: Accumulators, option: string): Result<Accumulators> {
    var o := Upper(option);
    if o !in AllowedOptions then Err(WrongQueryOption(o))
    else if o == "MYSQLI_NESTJOIN" then Ok(a.(nestJoin := true))
    else if o == "FOR UPDATE" then Ok(a.(forUpdate := true))
    else if o == "LOCK IN SHARE MODE" then Ok(a.(lockInShareMode := true))
    else Ok(a.(queryOptions := a.queryOptions + [o]))
  }

  /** setQueryOption over a list: options are applied in order and the first
      rejected one throws, leaving the earlier ones applied. */
  function ApplyOptions(a: Accumulators, options: seq<string>): (Accumulators, Outcome)
    decreases |options|
  {
    if options == [] then (a, Done)
    else match ApplyOption(a, options[0])
      case Err(e) => (a, Failed(e))
      case Ok(a') => ApplyOptions(a', options[1..])
  }

  /** The accepted lock modes. */
  predicate LockModeAccepted(m: string) {
    Upper(m) == "READ" || Upper(m) == "WRITE"
  }

  /** The check setLockTableMode performs: `case "READ" || "WRITE"` is
      `case true`, which a loose switch matches for every truthy string. */
  predicate LockModeAcceptedAsWritten(m: string) {
    Truthy(Upper(m))
  }

  /** preg_match('/^[INSERT|REPLACE]/', $query): a character class, so any
      statement whose first character is one of those letters or '|'. */
  predicate InsertMode(q: string) {
    q != [] && q[0] in {'I', 'N', 'S', 'E', 'R', 'T', '|', 'P', 'L', 'A', 'C'}
  }

  /** The entries of lockTable's list: every string entry, with a comma
      before it unless it sits at index 0. */
  function LockList(items: seq<Param>, prefix: string, mode: string): string
    decreases |items|
  {
    if items == [] then ""
    else
      var k := |items| - 1;
      LockList(items[..k], prefix, mode)
      + (if items[k].Str? then (if k > 0 then "," else "") + " " + prefix + items[k].s + " " + mode else "")
  }

  /** lockTable's list writes nothing exactly when none of its entries is
      a string. */
  lemma {:induction false} LockListEmptyIff(items: seq<Param>, prefix: string, mode: string)
    ensures LockList(items, prefix, mode) == "" <==> forall i :: 0 <= i < |items| ==> !items[i].Str?
    decreases |items|
  {
    if items != [] {
      var k := |items| - 1;
      LockListEmptyIff(items[..k], prefix, mode);
      assert forall i :: 0 <= i < k ==> items[..k][i] == items[i];
    }
  }

  /** lockTable */
  function LockTablesText(t: Tables, prefix: string, mode: string): string {
    match t
    case OneTable(n) => "LOCK TABLES " + prefix + n + " " + mode
    case TableList(items) => "LOCK TABLES" + LockList(items, prefix, mode)
  }

  /** The state reset() records for the getLast* accessors. */
  datatype Snapshot = Snapshot(query: string, binds: seq<Param>, options: seq<string>)

  class QueryBuilder {
    var prefix: string
    const isSubQuery: bool
    const subQueryAlias: string

    var query: string
    var lastQuery: string
    /** The clause accumulators (_join, _where, _joinAnd, _having, _orderBy,
        _groupBy, _queryOptions, _nestJoin, _forUpdate, _lockInShareMode and
        _updateColumns), held as one record. */
    var acc: Accumulators
    var tableLockMethod: string
    /** The bind register: the signature string PHP keeps in entry 0 of
        _bindParams, and the values after it. */
    var sig: string
    var binds: seq<Param>
    var tableName: string
    var lastPrepareQuery: string
    var lastBindParams: seq<Param>
    var lastQueryOptions: seq<string>

    ghost predicate Valid()
      reads this`sig, this`binds, this`acc
    {
      sig == Signature(binds) && Leading(acc.where) && Leading(acc.having)
    }

    /** The statement text and bind values built so far. */
    function Cur(): Out
      reads this`query, this`binds
    {
      Out(query, binds)
    }

    function Last(): Snapshot
      reads this`lastPrepareQuery, this`lastBindParams, this`lastQueryOptions
    {
      Snapshot(lastPrepareQuery, lastBindParams, lastQueryOptions)
    }

    /** The state reset() leaves. */
    ghost predicate Cleared()
      reads this
    {
      acc == NoAccumulators && query == "" && binds == [] && sig == "" && tableName == ""
    }

    /** The lock mode is one MySQL accepts. */
    ghost predicate LockModeOk()
      reads this
    {
      LockModeAccepted(tableLockMethod)
    }

    /** How a terminal verb with the statement `head + s` ended: on success
        the statement is snapshotted, its debug text kept and the builder
        cleared; when a step threw, the builder keeps the partial text, the
        values bound so far, the accumulators `a1` the build left and
        everything else as it was. */
    ghost predicate Finished(r: Outcome, head: string, s: Step, b0: seq<Param>, a0: Accumulators, a1: Accumulators,
                             last0: Snapshot, debug0: string, table: string)
      reads this`query, this`binds, this`acc, this`lastPrepareQuery, this`lastBindParams, this`lastQueryOptions, this`lastQuery, this`tableName
    {
      var text := head + s.out.text;
      var values := b0 + s.out.binds;
      if s.ok then
        r == Done && acc == NoAccumulators && query == "" && binds == [] && tableName == ""
        && Last() == Snapshot(text, values, a0.queryOptions) && lastQuery == DebugText(text, values)
      else
        r == Failed(WrongOperation) && acc == a1 && query == text && binds == values
        && Last() == last0 && lastQuery == debug0 && tableName == table
    }

    constructor (isSubQuery: bool := false, subQueryAlias: string := "")
      ensures Valid() && Cleared() && LockModeOk()
      ensures this.isSubQuery == isSubQuery
      ensures this.subQueryAlias == (if isSubQuery then subQueryAlias else "")
      ensures prefix == "" && tableLockMethod == "READ" && lastQuery == ""
      ensures Last() == Snapshot("", [], [])
    {
      this.isSubQuery := isSubQuery;
      this.subQueryAlias := if isSubQuery then subQueryAlias else "";
      prefix := "";
      query := "";
      lastQuery := "";
      acc := NoAccumulators;
      tableLockMethod := "READ";
      sig := "";
      binds := [];
      tableName := "";
      lastPrepareQuery := "";
      lastBindParams := [];
      lastQueryOptions := [];
    }

    /** subQuery: a fresh builder marked as a subquery. The alias is
        required: without one, subQuery hands null to the constructor's
        string parameter, which PHP rejects. */
    static method SubQuery(alias: string) returns (b: QueryBuilder)
      ensures fresh(b) && b.Valid() && b.Cleared()
      ensures b.isSubQuery && b.subQueryAlias == alias
    {
      b := new QueryBuilder(true, alias);
    }

    //---------- clause accumulators ----------

    method Where(prop: string, value: Value := Absent, op: string := "=", conn: string := "AND")
      requires Valid()
      modifies this`acc
      ensures Valid()
      ensures acc == old(acc).(where := old(acc.where) + [Cond(if old(acc.where) == [] then "" else conn, prop, op, value)])
    {
      var c := conn;
      if |acc.where| == 0 {
        c := "";
      }
      acc := acc.(where := acc.where + [Cond(c, prop, op, value)]);
    }

    method OrWhere(prop: string, value: Value := Absent, op: string := "=")
      requires Valid()
      modifies this`acc
      ensures Valid()
      ensures acc == old(acc).(where := old(acc.where) + [Cond(if old(acc.where) == [] then "" else "OR", prop, op, value)])
    {
      Where(prop, value, op, "OR");
    }

    method OrderBy(field: string, dir: string := "DESC", custom: Custom := NoCustom) returns (r: Outcome)
      requires Valid()
      modifies this`acc
      ensures Valid()
      ensures match OrderTermFor(field, dir, custom)
        case Ok(t) => r == Done && acc == old(acc).(orderBy := SetOrder(old(acc.orderBy), t))
        case Err(e) => r == Failed(e) && acc == old(acc)
      ensures DistinctFields(old(acc.orderBy)) ==> DistinctFields(acc.orderBy)
    {
      match OrderTermFor(field, dir, custom)
      case Ok(t) =>
        if DistinctFields(acc.orderBy) {
          SetOrderDistinct(acc.orderBy, t);
        }
        acc := acc.(orderBy := SetOrder(acc.orderBy, t));
        r := Done;
      case Err(e) =>
        r := Failed(e);
    }

    method GroupBy(field: string)
      requires Valid()
      modifies this`acc
      ensures Valid()
      ensures acc == old(acc).(groupBy := old(acc.groupBy) + [field])
    {
      acc := acc.(groupBy := acc.groupBy + [field]);
    }

    /** having: an array value whose first key is not 0 replaces the
        operator by that key (HavingEntry). */
    method Having(prop: string, value: HavingValue := Plain(Absent), op: string := "=", conn: string := "AND")
      requires Valid()
      modifies this`acc
      ensures Valid()
      ensures var (o, v) := HavingEntry(value, op);
        acc == old(acc).(having := old(acc.having) + [Cond(if old(acc.having) == [] then "" else conn, prop, o, v)])
    {
      var (o, v) := HavingEntry(value, op);
      var c := conn;
      if |acc.having| == 0 {
        c := "";
      }
      acc := acc.(having := acc.having + [Cond(c, prop, o, v)]);
    }

    /** orHaving: its value and operator default to null. */
    method OrHaving(prop: string, value: HavingValue := Plain(Scalar(Null)), op: string := "")
      requires Valid()
      modifies this`acc
      ensures Valid()
      ensures var (o, v) := HavingEntry(value, op);
        acc == old(acc).(having := old(acc.having) + [Cond(if old(acc.having) == [] then "" else "OR", prop, o, v)])
    {
      Having(prop, value, op, "OR");
    }

    method Join(table: JoinTarget, cond: string, kind: string := "") returns (r: Outcome)
      requires Valid()
      modifies this`acc
      ensures Valid()
      ensures match JoinRecord(prefix, table, cond, kind)
        case Ok(j) => r == Done && acc == old(acc).(join := old(acc.join) + [j])
        case Err(e) => r == Failed(e) && acc == old(acc)
    {
      match JoinRecord(prefix, table, cond, kind)
      case Ok(j) =>
        acc := acc.(join := acc.join + [j]);
        r := Done;
      case Err(e) =>
        r := Failed(e);
    }

    /** joinWhere: conditions filed under the prefixed acc.join table; unlike
        acc.where, the first connector is kept. */
    method JoinWhere(whereJoin: string, prop: string, value: Value := Absent, op: string := "=", conn: string := "AND")
      requires Valid()
      modifies this`acc
      ensures Valid()
      ensures var key := prefix + whereJoin;
        acc == old(acc).(joinAnd := old(acc.joinAnd)[key := (if key in old(acc.joinAnd) then old(acc.joinAnd)[key] else []) + [Cond(conn, prop, op, value)]])
    {
      var key := prefix + whereJoin;
      var cs := if key in acc.joinAnd then acc.joinAnd[key] else [];
      acc := acc.(joinAnd := acc.joinAnd[key := cs + [Cond(conn, prop, op, value)]]);
    }

    /** joinOrWhere: always connects with OR. */
    method JoinOrWhere(whereJoin: string, prop: string, value: Value := Absent, op: string := "=")
      requires Valid()
      modifies this`acc
      ensures Valid()
      ensures var key := prefix + whereJoin;
        acc == old(acc).(joinAnd := old(acc.joinAnd)[key := (if key in old(acc.joinAnd) then old(acc.joinAnd)[key] else []) + [Cond("OR", prop, op, value)]])
    {
      JoinWhere(whereJoin, prop, value, op, "OR");
    }

    method SetQueryOption(options: seq<string>) returns (r: Outcome)
      requires Valid()
      modifies this`acc
      ensures Valid()
      ensures (acc, r) == ApplyOptions(old(acc), options)
    {
      for i := 0 to |options|
        invariant Valid()
        invariant ApplyOptions(old(acc), options) == ApplyOptions(acc, options[i..])
      {
        assert options[i..][0] == options[i] && options[i..][1..] == options[i + 1..];
        var option := Upper(options[i]);
        if option !in AllowedOptions {
          r := Failed(WrongQueryOption(option));
          return;
        }
        if option == "MYSQLI_NESTJOIN" {
          acc := acc.(nestJoin := true);
        } else if option == "FOR UPDATE" {
          acc := acc.(forUpdate := true);
        } else if option == "LOCK IN SHARE MODE" {
          acc := acc.(lockInShareMode := true);
        } else {
          acc := acc.(queryOptions := acc.queryOptions + [option]);
        }
      }
      r := Done;
    }

    method SetPrefix(p: string := "")
      requires Valid()
      modifies this`prefix
      ensures Valid() && prefix == p
    {
      prefix := p;
    }

    method WithTotalCount()
      requires Valid()
      modifies this`acc
      ensures Valid()
      ensures acc == old(acc).(queryOptions := old(acc.queryOptions) + ["SQL_CALC_FOUND_ROWS"])
    {
      acc := acc.(queryOptions := acc.queryOptions + ["SQL_CALC_FOUND_ROWS"]);
    }

    /** onDuplicate; the last-insert-id argument is stored but never read. */
    method OnDuplicate(u: seq<Upsert>)
      requires Valid()
      modifies this`acc
      ensures Valid() && acc == old(acc).(updateColumns := u)
    {
      acc := acc.(updateColumns := u);
    }

    /** acc.lockInShareMode, with false clearing the flag. */
    method LockInShareMode(isLock: bool := true)
      requires Valid()
      modifies this`acc
      ensures Valid() && acc == old(acc).(lockInShareMode := isLock)
    {
      acc := acc.(lockInShareMode := isLock);
    }

    /** acc.lockInShareMode as written: false unsets a key of the option list
        that the option never goes to, so the flag stays as it was. */
    method LockInShareModeAsWritten(isLock: bool := true)
      requires Valid()
      modifies this`acc
      ensures Valid()
      ensures acc == old(acc).(lockInShareMode := isLock || old(acc.lockInShareMode))
    {
      if isLock {
        acc := acc.(lockInShareMode := true);
      }
    }

    /** selectForUpdate, with false clearing the flag. */
    method SelectForUpdate(isLock: bool := true)
      requires Valid()
      modifies this`acc
      ensures Valid() && acc == old(acc).(forUpdate := isLock)
    {
      acc := acc.(forUpdate := isLock);
    }

    /** selectForUpdate as written: false leaves the flag as it was. */
    method SelectForUpdateAsWritten(isLock: bool := true)
      requires Valid()
      modifies this`acc
      ensures Valid()
      ensures acc == old(acc).(forUpdate := isLock || old(acc.forUpdate))
    {
      if isLock {
        acc := acc.(forUpdate := true);
      }
    }

    /** setLockTableMode accepting READ and WRITE only. */
    method SetLockTableMode(m: string) returns (r: Outcome)
      requires Valid()
      modifies this`tableLockMethod
      ensures Valid()
      ensures LockModeAccepted(m) ==> r == Done && tableLockMethod == m
      ensures !LockModeAccepted(m) ==> r == Failed(BadLockType) && tableLockMethod == old(tableLockMethod)
      ensures old(LockModeOk()) ==> LockModeOk()
    {
      var u := Upper(m);
      if u == "READ" || u == "WRITE" {
        tableLockMethod := m;
        r := Done;
      } else {
        r := Failed(BadLockType);
      }
    }

    /** setLockTableMode as written. */
    method SetLockTableModeAsWritten(m: string) returns (r: Outcome)
      requires Valid()
      modifies this`tableLockMethod
      ensures Valid()
      ensures LockModeAcceptedAsWritten(m) ==> r == Done && tableLockMethod == m
      ensures !LockModeAcceptedAsWritten(m) ==> r == Failed(BadLockType) && tableLockMethod == old(tableLockMethod)
    {
      if Truthy(Upper(m)) {
        tableLockMethod := m;
        r := Done;
      } else {
        r := Failed(BadLockType);
      }
    }

    //---------- the bind register and the build steps ----------

    method BindParam(p: Param)
      requires Valid()
      modifies this`sig, this`binds
      ensures Valid()
      ensures binds == old(binds) + [p] && sig == old(sig) + [TypeTag(p)]
    {
      sig := sig + [TypeTag(p)];
      binds := binds + [p];
      assert binds[..|binds| - 1] == old(binds);
    }

    method BindParams(ps: seq<Param>)
      requires Valid()
      modifies this`sig, this`binds
      ensures Valid()
      ensures binds == old(binds) + ps
    {
      for i := 0 to |ps|
        invariant Valid()
        invariant binds == old(binds) + ps[..i]
      {
        BindParam(ps[i]);
        assert ps[..i + 1] == ps[..i] + [ps[i]];
      }
      assert ps[..|ps|] == ps;
    }

    method BuildPair(op: string, v: Value) returns (s: string)
      requires Valid()
      modifies this`sig, this`binds
      ensures Valid()
      ensures s == Pair(op, v).text && binds == old(binds) + Pair(op, v).binds
    {
      if !v.Sub? {
        BindParam(AsParam(v));
        return " " + op + " ? ";
      }
      BindParams(v.sub.params);
      s := " " + op + " (" + v.sub.query + ") " + v.sub.alias;
    }

    /** The operator switch of _buildCondition and conditionToSql. */
    method ConditionToSql(op: string, val: Value, spacedNull: bool)
      requires Valid()
      modifies this`query, this`sig, this`binds
      ensures Valid()
      ensures Cur() == Then(old(Cur()), Comparison(op, val, spacedNull))
    {
      if IsIn(op) {
        BuildInList(op, val);
      } else if IsBetween(op) {
        query := query + (" " + op + " ? AND ? ");
        BindParams(Elems(val));
      } else if IsExists(op) {
        var s := BuildPair("", val);
        query := query + (op + s);
      } else if IsArray(val) {
        BindParams(Elems(val));
        assert query == old(query) + "";
      } else if val == Scalar(Null) {
        query := query + ((if spacedNull then " " else "") + op + " NULL");
        assert binds == old(binds) + [];
      } else if !Skips(val) {
        var s := BuildPair(op, val);
        query := query + s;
      } else {
        assert query == old(query) + "" && binds == old(binds) + [];
      }
    }

    /** The IN branch of the operator switch. */
    method BuildInList(op: string, val: Value)
      requires Valid()
      modifies this`query, this`sig, this`binds
      ensures Valid()
      ensures Cur() == Then(old(Cur()), InList(op, val))
    {
      var items: string;
      if val.Sub? {
        items := BuildPair("", val);
      } else {
        items := BindEach(Elems(val));
      }
      query := query + (RTrim(" " + op + " (" + items, {','}) + " ) ");
    }

    /** The loop of the IN branch: one placeholder and one bound value per
        item. */
    method BindEach(vs: seq<Param>) returns (items: string)
      requires Valid()
      modifies this`sig, this`binds
      ensures Valid()
      ensures items == Repeat(" ?,", |vs|) && binds == old(binds) + vs
    {
      items := "";
      for i := 0 to |vs|
        invariant Valid()
        invariant binds == old(binds) + vs[..i]
        invariant items == Repeat(" ?,", i)
      {
        items := items + " ?,";
        BindParam(vs[i]);
        assert vs[..i + 1] == vs[..i] + [vs[i]];
      }
      assert vs[..|vs|] == vs;
    }

    /** The loop over condition records shared by _buildCondition and
        _buildJoin. */
    method BuildClauses(cs: seq<Cond>, spacedNull: bool)
      requires Valid()
      modifies this`query, this`sig, this`binds
      ensures Valid()
      ensures Cur() == Then(old(Cur()), Clauses(cs, spacedNull))
    {
      for i := 0 to |cs|
        invariant Valid()
        invariant Cur() == Then(old(Cur()), Clauses(cs[..i], spacedNull))
      {
        Append(" " + cs[i].conn + " " + cs[i].prop);
        ConditionToSql(cs[i].op, cs[i].val, spacedNull);
        ClausesLoopStep(old(Cur()), cs, i, spacedNull);
      }
      assert cs[..|cs|] == cs;
    }

    /** One round of the _buildWhere loop: the connector and property, then
        the comparison, extend the clauses written so far by one. */
    static lemma ClausesLoopStep(o0: Out, cs: seq<Cond>, i: nat, spacedNull: bool)
      requires i < |cs|
      ensures Then(Then(Then(o0, Clauses(cs[..i], spacedNull)), Emit(" " + cs[i].conn + " " + cs[i].prop)),
                   Comparison(cs[i].op, cs[i].val, spacedNull))
           == Then(o0, Clauses(cs[..i + 1], spacedNull))
    {
      assert cs[..i + 1][..i] == cs[..i];
      var prior := Then(o0, Clauses(cs[..i], spacedNull));
      ThenAssoc(prior, Emit(" " + cs[i].conn + " " + cs[i].prop), Comparison(cs[i].op, cs[i].val, spacedNull));
      ThenAssoc(o0, Clauses(cs[..i], spacedNull), Clause(cs[i], spacedNull));
    }

    method BuildCondition(keyword: string, cs: seq<Cond>)
      requires Valid()
      modifies this`query, this`sig, this`binds
      ensures Valid()
      ensures Cur() == Then(old(Cur()), Conditions(keyword, cs))
    {
      if |cs| == 0 {
        ThenEmit(Cur(), "");
        assert query + "" == query;
        return;
      }
      Append(" " + keyword);
      BuildClauses(cs, true);
      ThenAssoc(old(Cur()), Emit(" " + keyword), Clauses(cs, true));
    }

    /** Text written straight onto the statement. */
    method Append(s: string)
      modifies this`query
      ensures Cur() == Then(old(Cur()), Emit(s))
    {
      query := query + s;
      ThenEmit(old(Cur()), s);
    }

    method BuildJoin(js: seq<JoinClause>, conds: map<string, seq<Cond>>)
      requires Valid()
      modifies this`query, this`sig, this`binds
      ensures Valid()
      ensures Cur() == Then(old(Cur()), Joins(js, conds))
    {
      for i := 0 to |js|
        invariant Valid()
        invariant Cur() == Then(old(Cur()), Joins(js[..i], conds))
      {
        BuildJoinPart(js[i], conds);
        JoinsSnoc(js, i, conds);
        ThenAssoc(old(Cur()), Joins(js[..i], conds), JoinPart(js[i], conds));
      }
      assert js[..|js|] == js;
    }

    /** One acc.join of the _buildJoin loop, with the joinWhere conditions filed
        under its rendered target. */
    method BuildJoinPart(j: JoinClause, conds: map<string, seq<Cond>>)
      requires Valid()
      modifies this`query, this`sig, this`binds
      ensures Valid()
      ensures Cur() == Then(old(Cur()), JoinPart(j, conds))
    {
      ghost var t := TargetPart(j.target);
      var joinStr: string;
      match j.target {
        case Table(n) =>
          joinStr := n;
          assert binds == old(binds) + [];
        case SubTable(e) =>
          joinStr := BuildPair("", Sub(e));
      }
      var line := " " + j.kind + " JOIN " + joinStr + (if ContainsIgnoreCase(j.on, "using") then " " else " on ") + j.on;
      query := query + line;
      ghost var head := Out(line, t.binds);
      assert Cur() == Then(old(Cur()), head);
      if joinStr in conds {
        BuildClauses(conds[joinStr], false);
        ThenAssoc(old(Cur()), head, Clauses(conds[joinStr], false));
      }
    }

    /** One column of the _buildDataPairs loop: the assignment head in
        update mode, then the value. */
    method BuildColumnPair(c: Column, isInsert: bool) returns (ok: bool)
      requires Valid()
      modifies this`query, this`sig, this`binds
      ensures Valid()
      ensures ok == ColumnPair(c, isInsert).ok && Cur() == Then(old(Cur()), ColumnPair(c, isInsert).out)
    {
      var column := c.name;
      if !isInsert {
        if '.' !in column {
          query := query + ("`" + column + "` = ");
        } else {
          query := query + (ReplaceChar(column, '.', ".`") + "` = ");
        }
      }
      ghost var h := ColumnHead(column, isInsert);
      assert Cur() == Then(old(Cur()), Emit(h)) by {
        ThenEmit(old(Cur()), h);
        if isInsert { assert old(query) + "" == old(query); }
      }
      ghost var mid := Cur();
      ok := BuildColumnValue(column, c.val);
      ThenAssoc(old(Cur()), Emit(h), ColumnValue(column, c.val).out);
    }

    /** The value of one column, by shape. */
    method BuildColumnValue(column: string, value: Value) returns (ok: bool)
      requires Valid()
      modifies this`query, this`sig, this`binds
      ensures Valid()
      ensures ok == ColumnValue(column, value).ok && Cur() == Then(old(Cur()), ColumnValue(column, value).out)
    {
      match value {
        case Sub(e) =>
          var s := BuildPair("", value);
          query := query + (s + ", ");
        case Scalar(_) =>
          BindParam(AsParam(value));
          query := query + "?, ";
        case Absent =>
          BindParam(AsParam(value));
          query := query + "?, ";
        case Inc(d) =>
          query := query + (column + d + ", ");
          assert binds == old(binds) + [];
        case Func(e, b, _) =>
          query := query + (e + ", ");
          if b != [] {
            BindParams(b);
          } else {
            assert binds == old(binds) + b;
          }
        case Not(col) =>
          var neg := if col == "" then column else col;
          query := query + ("!" + neg + ", ");
          assert binds == old(binds) + [];
        case List(_) =>
          assert query == old(query) + "" && binds == old(binds) + [];
          return false;
      }
      ok := true;
    }

    method BuildDataPairs(cols: seq<Column>, isInsert: bool) returns (ok: bool)
      requires Valid()
      modifies this`query, this`sig, this`binds
      ensures Valid()
      ensures var p := Pairs(cols, isInsert);
        ok == p.ok && binds == old(binds) + p.out.binds
        && query == (if ok then RTrim(old(query) + p.out.text, CommaSpace) else old(query) + p.out.text)
    {
      for i := 0 to |cols|
        invariant Valid()
        invariant Pairs(cols[..i], isInsert).ok
        invariant Cur() == Then(old(Cur()), Pairs(cols[..i], isInsert).out)
      {
        ok := BuildColumnPair(cols[i], isInsert);
        PairsLoopStep(old(Cur()), cols, i, isInsert);
        if !ok {
          return;
        }
      }
      assert cols[..|cols|] == cols;
      query := RTrim(query, CommaSpace);
      ok := true;
    }

    /** One round of the _buildDataPairs loop: the next column extends the
        pairs, and a failed one ends them. */
    static lemma PairsLoopStep(o0: Out, cols: seq<Column>, i: nat, isInsert: bool)
      requires i < |cols| && Pairs(cols[..i], isInsert).ok
      ensures Pairs(cols[..i + 1], isInsert).ok == ColumnPair(cols[i], isInsert).ok
      ensures Then(Then(o0, Pairs(cols[..i], isInsert).out), ColumnPair(cols[i], isInsert).out)
           == Then(o0, Pairs(cols[..i + 1], isInsert).out)
      ensures !ColumnPair(cols[i], isInsert).ok ==> Pairs(cols, isInsert) == Pairs(cols[..i + 1], isInsert)
    {
      PairsSnoc(cols, i, isInsert);
      ThenAssoc(o0, Pairs(cols[..i], isInsert).out, ColumnPair(cols[i], isInsert).out);
      if !ColumnPair(cols[i], isInsert).ok {
        PairsStopAtFailure(cols, i + 1, isInsert);
      }
    }

    /** A failed column ends the data pairs: nothing after it is rendered. */
    static lemma {:induction false} PairsStopAtFailure(cols: seq<Column>, n: nat, isInsert: bool)
      requires n <= |cols|
      requires !Pairs(cols[..n], isInsert).ok
      ensures Pairs(cols, isInsert) == Pairs(cols[..n], isInsert)
      decreases |cols| - n
    {
      if n < |cols| {
        assert cols[..n + 1][..n] == cols[..n];
        PairsStopAtFailure(cols, n + 1, isInsert);
      } else {
        assert cols[..n] == cols;
      }
    }

    method BuildInsertQuery(data: Option<seq<Column>>) returns (ok: bool)
      requires Valid()
      requires query != ""
      modifies this`query, this`sig, this`binds
      ensures Valid()
      ensures var s := if data.Some? then DataPart(data.value, InsertMode(old(query))) else Step(Empty, true);
        ok == s.ok && Cur() == Then(old(Cur()), s.out)
    {
      if data.None? {
        ThenEmit(Cur(), "");
        assert query + "" == query;
        return true;
      }
      var isInsert := InsertMode(query);
      var tableData := data.value;
      var head := " SET ";
      if isInsert {
        var columnList := if |tableData| > 0 then " (`" + Text.Join(Names(tableData), "`, `") + "`) " else "";
        head := columnList + " VALUES (";
      }
      assert head == DataHead(tableData, isInsert);
      assert if isInsert then head[|head| - 1] == '(' else head[1] == 'S';
      ok := BuildClosedPairs(head, tableData, isInsert, if isInsert then ")" else "");
    }

    /** A head, the data pairs of _buildDataPairs (which trims the trailing
        separator), then a tail that is written only when no column threw. */
    method BuildClosedPairs(head: string, cols: seq<Column>, isInsert: bool, tail: string) returns (ok: bool)
      requires Valid()
      requires exists i :: 0 <= i < |head| && head[i] !in CommaSpace
      modifies this`query, this`sig, this`binds
      ensures Valid()
      ensures var s := Closed(head, Pairs(cols, isInsert), tail); ok == s.ok && Cur() == Then(old(Cur()), s.out)
    {
      query := query + head;
      ok := BuildDataPairs(cols, isInsert);
      if ok {
        query := query + tail;
      }
      ClosedAfter(old(query), head, Pairs(cols, isInsert), tail);
    }

    /** _buildOnDuplicate: the update list, which also rewrites the update
        columns in place, whether or not its pairs then throw. */
    method BuildOnDuplicate(data: seq<Column>) returns (ok: bool)
      requires Valid()
      modifies this`query, this`sig, this`binds, this`acc
      ensures Valid()
      ensures var s := OnDuplicatePart(old(acc.updateColumns), data); ok == s.ok && Cur() == Then(old(Cur()), s.out)
      ensures acc == AfterDuplicate(old(acc))
    {
      var kept;
      ok, kept := BuildUpsertList(acc.updateColumns, data);
      SetUpdateColumns(AsAssigns(kept));
    }

    /** The ON DUPLICATE KEY UPDATE text and values for the update list `u`,
        and the list the loop leaves in _updateColumns. */
    method BuildUpsertList(u: seq<Upsert>, data: seq<Column>) returns (ok: bool, kept: seq<Column>)
      requires Valid()
      modifies this`query, this`sig, this`binds
      ensures Valid()
      ensures var s := OnDuplicatePart(u, data); ok == s.ok && Cur() == Then(old(Cur()), s.out)
      ensures kept == RewrittenColumns(u)
    {
      if |u| == 0 {
        assert RewrittenColumns([]) == [];
        ThenEmit(Cur(), "");
        assert query + "" == query;
        return true, [];
      }
      var cols;
      cols, kept := UpsertPlan(u, data);
      var head := " ON DUPLICATE KEY UPDATE ";
      assert head[1] == 'O';
      ok := BuildClosedPairs(head, cols, false, "");
    }

    /** _updateColumns takes the list _buildOnDuplicate's loop leaves. */
    method SetUpdateColumns(u: seq<Upsert>)
      requires Valid()
      modifies this`acc
      ensures Valid()
      ensures acc == old(acc).(updateColumns := u)
    {
      acc := acc.(updateColumns := u);
    }

    /** The loop of _buildOnDuplicate over the update columns: keyed entries
        overwrite the insert data, bare names are moved to the end of the key
        list and set to '' in the kept list; then the columns to assign, with
        their values. */
    static method UpsertPlan(u: seq<Upsert>, data: seq<Column>) returns (cols: seq<Column>, kept: seq<Column>)
      ensures cols == UpsertColumns(u, data)
      ensures kept == RewrittenColumns(u)
    {
      var merged := data;
      var named: seq<string> := [];
      var reused: seq<string> := [];
      kept := Merge([], u);
      for i := 0 to |u|
        invariant merged == Merge(data, u[..i])
        invariant named == NamedKeys(u[..i])
        invariant reused == ReusedKeys(u[..i])
        invariant kept == Blanked(Merge([], u), u[..i])
      {
        UpsertStep(data, Merge([], u), u, i);
        match u[i]
        case Reuse(c) =>
          kept := Put(kept, c, Scalar(Str("")));
          if c !in reused {
            reused := reused + [c];
          }
        case Assign(k, v) =>
          merged := Put(merged, k, v);
          if k !in named {
            named := named + [k];
          }
      }
      assert u[..|u|] == u;
      cols := LookupColumns(named + Without(reused, named), merged);
    }

    /** The columns _buildDataPairs is handed: each key with its value in
        the merged data. */
    static method LookupColumns(keys: seq<string>, merged: seq<Column>) returns (cols: seq<Column>)
      ensures cols == LookupAll(keys, merged)
    {
      cols := [];
      for k := 0 to |keys|
        invariant cols == LookupAll(keys[..k], merged)
      {
        assert keys[..k + 1][..k] == keys[..k];
        cols := cols + [Column(keys[k], Lookup(merged, keys[k]))];
      }
      assert keys[..|keys|] == keys;
    }

    /** One round of _buildOnDuplicate's loop over the update entries. */
    static lemma UpsertStep(data: seq<Column>, m0: seq<Column>, u: seq<Upsert>, i: nat)
      requires i < |u|
      ensures Merge(data, u[..i + 1])
              == if u[i].Assign? then Put(Merge(data, u[..i]), u[i].col, u[i].val) else Merge(data, u[..i])
      ensures NamedKeys(u[..i + 1])
              == if u[i].Assign? && u[i].col !in NamedKeys(u[..i]) then NamedKeys(u[..i]) + [u[i].col] else NamedKeys(u[..i])
      ensures ReusedKeys(u[..i + 1])
              == if u[i].Reuse? && u[i].col !in ReusedKeys(u[..i]) then ReusedKeys(u[..i]) + [u[i].col] else ReusedKeys(u[..i])
      ensures Blanked(m0, u[..i + 1])
              == if u[i].Reuse? then Put(Blanked(m0, u[..i]), u[i].col, Scalar(Str(""))) else Blanked(m0, u[..i])
    {
      assert u[..i + 1][..i] == u[..i];
    }

    /** The loop of _buildGroupBy, on the statement text it extends. */
    static method AppendGroupBy(q0: string, gs: seq<string>) returns (q: string)
      ensures q == q0 + GroupByPart(gs)
    {
      if |gs| == 0 {
        return q0;
      }
      var head := " GROUP BY ";
      q := q0 + head;
      for i := 0 to |gs|
        invariant q == q0 + head + GroupItems(gs[..i])
      {
        assert gs[..i + 1][..i] == gs[..i];
        AppendAssoc(q0 + head, GroupItems(gs[..i]), gs[i] + ", ");
        q := q + (gs[i] + ", ");
      }
      assert gs[..|gs|] == gs;
      assert head[1] !in CommaSpace;
      CloseList(q0, head, GroupItems(gs));
      q := RTrim(q, CommaSpace) + " ";
    }

    method BuildGroupBy(gs: seq<string>)
      modifies this`query
      ensures Cur() == Then(old(Cur()), Emit(GroupByPart(gs)))
    {
      ThenEmit(Cur(), GroupByPart(gs));
      query := AppendGroupBy(query, gs);
    }

    /** The loop of _buildOrderBy, on the statement text it extends. */
    static method AppendOrderBy(q0: string, os: seq<OrderTerm>) returns (q: string)
      ensures q == q0 + OrderByPart(os)
    {
      if |os| == 0 {
        return q0;
      }
      q := q0 + " ORDER BY ";
      for i := 0 to |os|
        invariant q == q0 + " ORDER BY " + OrderItems(os[..i])
      {
        var item := OrderItem(os[i]);
        OrderItemsSnoc(os, i);
        AppendAssoc(q0 + " ORDER BY ", OrderItems(os[..i]), item);
        q := q + item;
      }
      assert os[..|os|] == os;
      OrderByClosed(q0, os);
      q := RTrim(q, CommaSpace) + " ";
    }

    method BuildOrderBy(os: seq<OrderTerm>)
      modifies this`query
      ensures Cur() == Then(old(Cur()), Emit(OrderByPart(os)))
    {
      ThenEmit(Cur(), OrderByPart(os));
      query := AppendOrderBy(query, os);
    }

    method BuildLimit(numRows: Limit)
      modifies this`query
      ensures Cur() == Then(old(Cur()), Emit(LimitPart(numRows)))
    {
      ThenEmit(Cur(), LimitPart(numRows));
      match numRows
      case NoLimit =>
        assert query + "" == query;
      case Rows(n) =>
        query := query + (" LIMIT " + IntText(n));
      case Range(a, b) =>
        query := query + (" LIMIT " + IntText(a) + ", " + IntText(b));
    }

    /** _buildQuery: every step in order; a throwing step ends the build
        before the debug text is made. */
    method BuildQuery(numRows: Limit, data: Option<seq<Column>>) returns (ok: bool)
      requires Valid()
      requires query != ""
      modifies this`query, this`sig, this`binds, this`lastQuery, this`acc
      ensures Valid()
      ensures var s := Statement(old(acc), numRows, data, InsertMode(old(query)));
        ok == s.ok && Cur() == Then(old(Cur()), s.out)
      ensures acc == AfterBuild(old(acc), data, InsertMode(old(query)))
      ensures ok ==> lastQuery == DebugText(query, binds)
      ensures !ok ==> lastQuery == old(lastQuery)
    {
      ok := BuildStatement(acc, numRows, data);
      if ok {
        lastQuery := ReplacePlaceHolders(query, binds);
      }
    }

    /** The steps of _buildQuery that write the statement, in order, reading
        the accumulators `a` they start from; only the ON DUPLICATE step
        changes them. */
    method BuildStatement(a: Accumulators, numRows: Limit, data: Option<seq<Column>>) returns (ok: bool)
      requires Valid()
      requires query != "" && acc == a
      modifies this`query, this`sig, this`binds, this`acc
      ensures Valid()
      ensures var s := Statement(a, numRows, data, InsertMode(old(query)));
        ok == s.ok && Cur() == Then(old(Cur()), s.out)
      ensures acc == AfterBuild(a, data, InsertMode(old(query)))
    {
      StatementHalves(a, numRows, data, InsertMode(query));
      ok := BuildOpening(a, data);
      if !ok {
        return;
      }
      ghost var o := Opening(a, data, InsertMode(old(query))).out;
      ok := BuildClosing(a, numRows, data);
      ThenAssoc(old(Cur()), o, Closing(a, numRows, data).out);
    }

    /** The joins and the data pairs. */
    method BuildOpening(a: Accumulators, data: Option<seq<Column>>) returns (ok: bool)
      requires Valid()
      requires query != ""
      modifies this`query, this`sig, this`binds
      ensures Valid()
      ensures var s := Opening(a, data, InsertMode(old(query)));
        ok == s.ok && Cur() == Then(old(Cur()), s.out)
    {
      BuildJoin(a.join, a.joinAnd);
      assert query[0] == old(query)[0];
      ok := BuildInsertQuery(data);
      ThenAssoc(old(Cur()), Joins(a.join, a.joinAnd),
                (if data.Some? then DataPart(data.value, InsertMode(old(query))) else Step(Empty, true)).out);
    }

    /** The filters, the upsert list and the locking suffixes. */
    method BuildClosing(a: Accumulators, numRows: Limit, data: Option<seq<Column>>) returns (ok: bool)
      requires Valid() && acc == a
      modifies this`query, this`sig, this`binds, this`acc
      ensures Valid()
      ensures var s := Closing(a, numRows, data);
        ok == s.ok && Cur() == Then(old(Cur()), s.out)
      ensures acc == AfterDuplicate(a)
    {
      BuildFilters(a, numRows);
      ok := BuildTail(a, data);
      ThenAssoc(old(Cur()), FilterPart(a.where, a.groupBy, a.having, a.orderBy, numRows),
                Tail(a.updateColumns, a.forUpdate, a.lockInShareMode, data).out);
    }

    /** The upsert list, then the locking suffixes unless it threw. */
    method BuildTail(a: Accumulators, data: Option<seq<Column>>) returns (ok: bool)
      requires Valid() && acc == a
      modifies this`query, this`sig, this`binds, this`acc
      ensures Valid()
      ensures var t := Tail(a.updateColumns, a.forUpdate, a.lockInShareMode, data);
        ok == t.ok && Cur() == Then(old(Cur()), t.out)
      ensures acc == AfterDuplicate(a)
    {
      var d := if data.Some? then data.value else [];
      ok := BuildOnDuplicate(d);
      if !ok {
        return;
      }
      ghost var dup := OnDuplicatePart(a.updateColumns, d).out;
      BuildLocking(a.forUpdate, a.lockInShareMode);
      ThenAssoc(old(Cur()), dup, Emit(LockingPart(a.forUpdate, a.lockInShareMode)));
    }

    /** The steps of _buildQuery from WHERE to LIMIT, none of which throws. */
    method BuildFilters(a: Accumulators, numRows: Limit)
      requires Valid()
      modifies this`query, this`sig, this`binds
      ensures Valid()
      ensures Cur() == Then(old(Cur()), FilterPart(a.where, a.groupBy, a.having, a.orderBy, numRows))
    {
      BuildCondition("WHERE", a.where);
      BuildGroupBy(a.groupBy);
      BuildCondition("HAVING", a.having);
      BuildOrderBy(a.orderBy);
      BuildLimit(numRows);
      FilterChain(old(Cur()), Conditions("WHERE", a.where), Emit(GroupByPart(a.groupBy)), Conditions("HAVING", a.having),
                  Emit(OrderByPart(a.orderBy)), Emit(LimitPart(numRows)));
    }

    /** The closing FOR UPDATE and LOCK IN SHARE MODE of _buildQuery. */
    method BuildLocking(forUpdate: bool, lockInShareMode: bool)
      modifies this`query
      ensures Cur() == Then(old(Cur()), Emit(LockingPart(forUpdate, lockInShareMode)))
    {
      if forUpdate {
        query := query + " FOR UPDATE";
      }
      if lockInShareMode {
        query := query + " LOCK IN SHARE MODE";
      }
      assert query == old(query) + LockingPart(forUpdate, lockInShareMode) by {
        if forUpdate && lockInShareMode {
          AppendAssoc(old(query), " FOR UPDATE", " LOCK IN SHARE MODE");
        } else if forUpdate {
          assert " FOR UPDATE" + "" == " FOR UPDATE";
        } else if lockInShareMode {
          assert "" + " LOCK IN SHARE MODE" == " LOCK IN SHARE MODE";
        } else {
          assert old(query) + ("" + "") == old(query);
        }
      }
      ThenEmit(old(Cur()), LockingPart(forUpdate, lockInShareMode));
    }

    /** reset: snapshot the statement for the getLast* accessors and clear
        every accumulator. The lock mode, the prefix and the debug text are
        kept. */
    method Reset()
      modifies this`lastPrepareQuery, this`lastBindParams, this`lastQueryOptions, this`acc, this`sig, this`binds, this`query, this`tableName
      ensures Valid() && Cleared()
      ensures Last() == Snapshot(old(query), old(binds), old(acc.queryOptions))
    {
      SnapshotLast();
      acc := NoAccumulators;
      ClearStatement();
    }

    /** The getLast* snapshot of the statement about to be cleared. */
    method SnapshotLast()
      modifies this`lastPrepareQuery, this`lastBindParams, this`lastQueryOptions
      ensures Last() == Snapshot(query, binds, acc.queryOptions)
    {
      lastPrepareQuery := query;
      lastBindParams := binds;
      lastQueryOptions := acc.queryOptions;
    }

    /** The statement text, its values and the table name. */
    method ClearStatement()
      modifies this`sig, this`binds, this`query, this`tableName
      ensures sig == "" && binds == [] && query == "" && tableName == ""
    {
      sig := "";
      binds := [];
      query := "";
      tableName := "";
    }

    //---------- terminal verbs ----------

    method LockTable(tables: Tables)
      requires Valid()
      modifies this
      ensures Valid() && Cleared()
      ensures Last() == Snapshot(LockTablesText(tables, prefix, tableLockMethod), old(binds), old(acc.queryOptions))
      ensures prefix == old(prefix) && tableLockMethod == old(tableLockMethod) && lastQuery == old(lastQuery)
    {
      match tables {
        case TableList(items) =>
          query := LockedTables(items, prefix, tableLockMethod);
        case OneTable(name) =>
          query := "LOCK TABLES " + prefix + name + " " + tableLockMethod;
      }
      Reset();
    }

    /** The loop of lockTable over a list of tables. */
    static method LockedTables(items: seq<Param>, prefix: string, mode: string) returns (q: string)
      ensures q == "LOCK TABLES" + LockList(items, prefix, mode)
    {
      q := "LOCK TABLES";
      for k := 0 to |items|
        invariant q == "LOCK TABLES" + LockList(items[..k], prefix, mode)
      {
        assert items[..k + 1][..k] == items[..k];
        if items[k].Str? {
          if k > 0 {
            q := q + ",";
          }
          q := q + " " + prefix + items[k].s + " " + mode;
        }
      }
      assert items[..|items|] == items;
    }

    method UnlockTable()
      requires Valid()
      modifies this
      ensures Valid() && Cleared()
      ensures Last() == Snapshot("UNLOCK TABLES", old(binds), old(acc.queryOptions))
      ensures prefix == old(prefix) && tableLockMethod == old(tableLockMethod) && lastQuery == old(lastQuery)
    {
      query := "UNLOCK TABLES";
      Reset();
    }

    /** The end every terminal verb shares: _buildQuery, then reset; a
        throwing step skips the reset. */
    method BuildAndReset(numRows: Limit, data: Option<seq<Column>>) returns (r: Outcome)
      requires Valid()
      requires query != ""
      modifies this`lastPrepareQuery, this`lastBindParams, this`lastQueryOptions, this`acc, this`sig, this`binds, this`query, this`tableName, this`lastQuery
      ensures Valid()
      ensures Finished(r, old(query), Statement(old(acc), numRows, data, InsertMode(old(query))),
                       old(binds), old(acc), AfterBuild(old(acc), data, InsertMode(old(query))),
                       old(Last()), old(lastQuery), old(tableName))
    {
      var ok := BuildQuery(numRows, data);
      if !ok {
        return Failed(WrongOperation);
      }
      Reset();
      r := Done;
    }

    /** get: SELECT with the listed options and columns. */
    method Get(tableName: string, numRows: Limit := NoLimit, columns: Columns := ColumnText("*")) returns (r: Outcome)
      requires Valid()
      modifies this`lastPrepareQuery, this`lastBindParams, this`lastQueryOptions, this`acc, this`sig, this`binds, this`query, this`tableName, this`lastQuery
      ensures Valid()
      ensures var table := SelectTable(prefix, tableName);
        var head := SelectHead(old(acc.queryOptions), columns, table);
        Finished(r, head, Statement(old(acc), numRows, None, InsertMode(head)),
                 old(binds), old(acc), AfterBuild(old(acc), None, InsertMode(head)), old(Last()), old(lastQuery), table)
    {
      StartSelect(tableName, columns);
      r := BuildAndReset(numRows, None);
    }

    /** The table name and the SELECT head get starts from. */
    method StartSelect(tableName: string, columns: Columns)
      modifies this`query, this`tableName
      ensures this.tableName == SelectTable(prefix, tableName)
      ensures query == SelectHead(acc.queryOptions, columns, this.tableName)
    {
      this.tableName := SelectTable(prefix, tableName);
      query := "SELECT " + Text.Join(acc.queryOptions, " ") + " " + ColumnsText(columns) + " FROM " + this.tableName;
    }

    method GetOne(tableName: string, columns: Columns := ColumnText("*")) returns (r: Outcome)
      requires Valid()
      modifies this`lastPrepareQuery, this`lastBindParams, this`lastQueryOptions, this`acc, this`sig, this`binds, this`query, this`tableName, this`lastQuery
      ensures Valid()
      ensures var table := SelectTable(prefix, tableName);
        var head := SelectHead(old(acc.queryOptions), columns, table);
        Finished(r, head, Statement(old(acc), Rows(1), None, InsertMode(head)),
                 old(binds), old(acc), AfterBuild(old(acc), None, InsertMode(head)), old(Last()), old(lastQuery), table)
    {
      r := Get(tableName, Rows(1), columns);
    }

    /** insert and replace through _buildInsert: on a subquery builder no
        statement is built but the builder is still reset. */
    method Write(tableName: string, data: seq<Column>, operation: string) returns (r: Outcome)
      requires Valid()
      requires operation == "INSERT" || operation == "REPLACE"
      modifies this`lastPrepareQuery, this`lastBindParams, this`lastQueryOptions, this`acc, this`sig, this`binds, this`query, this`tableName, this`lastQuery
      ensures Valid()
      ensures isSubQuery ==> r == Skipped && Cleared() && lastQuery == old(lastQuery)
                             && Last() == Snapshot(old(query), old(binds), old(acc.queryOptions))
      ensures !isSubQuery ==>
        var head := InsertHead(operation, old(acc.queryOptions), prefix + tableName);
        Finished(r, head, Statement(old(acc), NoLimit, Some(data), InsertMode(head)),
                 old(binds), old(acc), AfterBuild(old(acc), Some(data), InsertMode(head)), old(Last()), old(lastQuery), old(this.tableName))
    {
      if isSubQuery {
        Reset();
        return Skipped;
      }
      StartInsert(tableName, operation);
      r := BuildAndReset(NoLimit, Some(data));
    }

    /** The head _buildInsert starts from. */
    method StartInsert(tableName: string, operation: string)
      modifies this`query
      ensures query == InsertHead(operation, acc.queryOptions, prefix + tableName)
    {
      query := operation + " " + Text.Join(acc.queryOptions, " ") + " INTO " + prefix + tableName;
    }

    method Insert(tableName: string, data: seq<Column>) returns (r: Outcome)
      requires Valid()
      modifies this`lastPrepareQuery, this`lastBindParams, this`lastQueryOptions, this`acc, this`sig, this`binds, this`query, this`tableName, this`lastQuery
      ensures Valid()
      ensures isSubQuery ==> r == Skipped && Cleared() && lastQuery == old(lastQuery)
                             && Last() == Snapshot(old(query), old(binds), old(acc.queryOptions))
      ensures !isSubQuery ==>
        var head := InsertHead("INSERT", old(acc.queryOptions), prefix + tableName);
        Finished(r, head, Statement(old(acc), NoLimit, Some(data), InsertMode(head)),
                 old(binds), old(acc), AfterBuild(old(acc), Some(data), InsertMode(head)), old(Last()), old(lastQuery), old(this.tableName))
    {
      r := Write(tableName, data, "INSERT");
    }

    method Replace(tableName: string, data: seq<Column>) returns (r: Outcome)
      requires Valid()
      modifies this`lastPrepareQuery, this`lastBindParams, this`lastQueryOptions, this`acc, this`sig, this`binds, this`query, this`tableName, this`lastQuery
      ensures Valid()
      ensures isSubQuery ==> r == Skipped && Cleared() && lastQuery == old(lastQuery)
                             && Last() == Snapshot(old(query), old(binds), old(acc.queryOptions))
      ensures !isSubQuery ==>
        var head := InsertHead("REPLACE", old(acc.queryOptions), prefix + tableName);
        Finished(r, head, Statement(old(acc), NoLimit, Some(data), InsertMode(head)),
                 old(binds), old(acc), AfterBuild(old(acc), Some(data), InsertMode(head)), old(Last()), old(lastQuery), old(this.tableName))
    {
      r := Write(tableName, data, "REPLACE");
    }

    /** update: a silent no-op on a subquery builder. */
    method Update(tableName: string, data: seq<Column>, numRows: Limit := NoLimit) returns (r: Outcome)
      requires Valid()
      modifies this`lastPrepareQuery, this`lastBindParams, this`lastQueryOptions, this`acc, this`sig, this`binds, this`query, this`tableName, this`lastQuery
      ensures Valid()
      ensures isSubQuery ==> r == Skipped && unchanged(this)
      ensures !isSubQuery ==>
        var head := "UPDATE " + prefix + tableName;
        Finished(r, head, Statement(old(acc), numRows, Some(data), InsertMode(head)),
                 old(binds), old(acc), AfterBuild(old(acc), Some(data), InsertMode(head)), old(Last()), old(lastQuery), old(this.tableName))
    {
      if isSubQuery {
        return Skipped;
      }
      StartUpdate(tableName);
      r := BuildAndReset(numRows, Some(data));
    }

    method StartUpdate(tableName: string)
      modifies this`query
      ensures query == "UPDATE " + prefix + tableName
    {
      query := "UPDATE " + prefix + tableName;
    }

    /** delete: a silent no-op on a subquery builder. */
    method Delete(tableName: string, numRows: Limit := NoLimit) returns (r: Outcome)
      requires Valid()
      modifies this`lastPrepareQuery, this`lastBindParams, this`lastQueryOptions, this`acc, this`sig, this`binds, this`query, this`tableName, this`lastQuery
      ensures Valid()
      ensures isSubQuery ==> r == Skipped && unchanged(this)
      ensures !isSubQuery ==>
        var head := DeleteHead(prefix + tableName, old(acc.join) != []);
        Finished(r, head, Statement(old(acc), numRows, None, InsertMode(head)),
                 old(binds), old(acc), AfterBuild(old(acc), None, InsertMode(head)), old(Last()), old(lastQuery), old(this.tableName))
    {
      if isSubQuery {
        return Skipped;
      }
      StartDelete(tableName);
      r := BuildAndReset(numRows, None);
    }

    /** The head delete starts from; with joins the deleted table is named
        before FROM. */
    method StartDelete(tableName: string)
      modifies this`query
      ensures query == DeleteHead(prefix + tableName, acc.join != [])
    {
      var table := prefix + tableName;
      if |acc.join| > 0 {
        query := "DELETE " + AfterLastSpace(table) + " FROM " + table;
      } else {
        query := "DELETE FROM " + table;
      }
    }

    /** getSubQuery: the last statement, its values and the alias, then a
        reset; null on a builder that is not a subquery. */
    method GetSubQuery() returns (r: Option<Embedded>)
      requires Valid()
      modifies this
      ensures Valid()
      ensures !isSubQuery ==> r == None && unchanged(this)
      ensures isSubQuery ==>
        r == Some(Embedded(old(lastPrepareQuery), old(lastBindParams), subQueryAlias))
        && Cleared() && Last() == Snapshot(old(query), old(binds), old(acc.queryOptions))
        && prefix == old(prefix) && tableLockMethod == old(tableLockMethod) && lastQuery == old(lastQuery)
    {
      if !isSubQuery {
        return None;
      }
      r := Some(Embedded(lastPrepareQuery, lastBindParams, subQueryAlias));
      Reset();
    }
  }
}
