/** The closed set of value shapes the query builder accepts, the clause
    records its accumulators hold, and the errors it raises. */
module Values {

  /** A PHP scalar that can be bound to a `?` placeholder. A float is kept as
      the text PHP prints for it: the builder never computes with it. */
  datatype Param = Null | Str(s: string) | Int(i: int) | Bool(b: bool) | Double(repr: string)

  /** The type tag _determineType gives a bound value. */
  function TypeTag(p: Param): (c: char)
    ensures c == 's' <==> p.Null? || p.Str?
    ensures c == 'i' <==> p.Bool? || p.Int?
    ensures c == 'd' <==> p.Double?
  {
    match p
    case Null => 's'
    case Str(_) => 's'
    case Bool(_) => 'i'
    case Int(_) => 'i'
    case Double(_) => 'd'
  }

  /** The type-signature string kept beside the bound values: one tag per
      value, in binding order. */
  function Signature(bs: seq<Param>): (sig: string)
    ensures |sig| == |bs|
    ensures forall i :: 0 <= i < |bs| ==> sig[i] == TypeTag(bs[i])
  {
    if bs == [] then "" else Signature(bs[..|bs| - 1]) + [TypeTag(bs[|bs| - 1])]
  }

  /** What getSubQuery hands to a parent builder: the child's last statement
      text, its bind values and its alias. */
  datatype Embedded = Embedded(query: string, params: seq<Param>, alias: string)

  /** A value passed to where/having/joinWhere or as column data.
      Scalar(Null) is PHP's null; Absent is the 'DBNULL' default meaning
      "no value given"; Inc, Func and Not are the markers built by
      inc/dec, func/now and not; Sub is an embedded subquery. A Func marker
      is the one-entry array ["[F]" => entry]: `listed` says whether its
      entry holds the bind list as a second element (func) or only the
      expression (now). */
  datatype Value =
    | Scalar(p: Param)
    | Absent
    | List(items: seq<Param>)
    | Inc(delta: string)
    | Func(expr: string, binds: seq<Param>, listed: bool)
    | Not(col: string)
    | Sub(sub: Embedded)

  /** The shapes that are PHP arrays. */
  predicate IsArray(v: Value) {
    v.List? || v.Inc? || v.Func? || v.Not?
  }

  /** The scalars a foreach over the value visits: the items of a list;
      the one entry of a marker (the delta of inc/dec, the column of not,
      and the inner array of func/now, which is bound as null like any
      array); nothing for a scalar or the default. A subquery is also
      given nothing to visit, although a foreach inside the builder
      walks the child builder's protected properties. */
  function Elems(v: Value): (r: seq<Param>)
    ensures v.List? ==> r == v.items
    ensures v.Inc? || v.Not? || v.Func? ==> |r| == 1
    ensures v.Func? ==> r == [Null]
    ensures !IsArray(v) ==> r == []
  {
    match v
    case List(items) => items
    case Inc(d) => [Str(d)]
    case Not(c) => [Str(c)]
    case Func(_, _, _) => [Null]
    case _ => []
  }

  /** The scalar _bindParam receives when a non-object value is bound
      directly: a scalar as itself, the 'DBNULL' default as that string.
      Array-shaped values reach this only through misuse; the model binds
      NULL for them. */
  function AsParam(v: Value): (r: Param)
    ensures v.Scalar? ==> r == v.p
    ensures v.Absent? ==> r == Str("DBNULL")
    ensures IsArray(v) || v.Sub? ==> r == Null
  {
    match v
    case Scalar(p) => p
    case Absent => Str("DBNULL")
    case _ => Null
  }

  /** A where/having/join condition record: connector, property text,
      operator and value. */
  datatype Cond = Cond(conn: string, prop: string, op: string, val: Value)

  datatype JoinTarget = Table(name: string) | SubTable(sub: Embedded)

  /** A join record: upper-cased join type, target and ON/USING text. */
  datatype JoinClause = JoinClause(kind: string, target: JoinTarget, on: string)

  /** One ORDER BY entry: rendered field expression and direction. */
  datatype OrderTerm = OrderTerm(field: string, dir: string)

  /** One column of insert/update data, in the order given. */
  datatype Column = Column(name: string, val: Value)

  /** One entry of the onDuplicate list: a bare column name reuses the
      inserted value, a keyed entry assigns an explicit one. */
  datatype Upsert = Reuse(col: string) | Assign(col: string, val: Value)

  /** The numRows argument: unset, a row count, or an (offset, count) pair,
      already coerced to integers. */
  datatype Limit = NoLimit | Rows(n: int) | Range(offset: int, count: int)

  /** The columns argument of get: a string or a list of strings. */
  datatype Columns = ColumnText(text: string) | ColumnList(cols: seq<string>)

  /** The argument of lockTable: one table name, or a list whose string
      entries are table names and whose other entries are skipped. */
  datatype Tables = OneTable(name: string) | TableList(items: seq<Param>)

  /** The third argument of orderBy. */
  datatype Custom = NoCustom | FieldList(values: seq<string>) | Pattern(re: string) | NotAString

  /** The value argument of having: a plain value, or the one-entry array
      [operator => value] whose key replaces the operator. */
  datatype HavingValue = Plain(v: Value) | Keyed(op: string, v: Value)

  datatype Error =
    | WrongOrderDirection(dir: string)
    | WrongCustomField
    | WrongJoinType(kind: string)
    | WrongQueryOption(option: string)
    | BadLockType
    | NotANumber
    | WrongOperation
    | InvalidIntervalType(unit: string)

  datatype Option<T> = None | Some(value: T)

  datatype Result<T> = Ok(value: T) | Err(error: Error)

  /** How a call that may throw ended. Skipped is the silent return of a
      write verb on a subquery builder. */
  datatype Outcome = Done | Skipped | Failed(error: Error)
}
