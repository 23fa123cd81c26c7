/** Properties of the builder's accumulators and statement heads stated
    against independent reference definitions: which options setQueryOption
    lists, the LOCK TABLES text, the insert/set mode of each verb, the cases
    of the condition switch, the upsert plan of ON DUPLICATE KEY UPDATE, and
    the bind register of a finished statement. */
module Correspondence {
  import opened Text
  import opened Values
  import opened Placeholders
  import opened Render
  import opened Builder
  import opened Balance

  //---------- setQueryOption ----------

  /** The options setQueryOption appends to the option list, upper-cased
      and in order: all but the three routed to flags. */
  function Listed(options: seq<string>): (r: seq<string>)
    decreases |options|
  {
    if options == [] then []
    else (if Routed(Upper(options[0])) then [] else [Upper(options[0])]) + Listed(options[1..])
  }

  predicate AllAllowed(options: seq<string>) {
    forall i :: 0 <= i < |options| ==> Upper(options[i]) in AllowedOptions
  }

  /** Some option, once upper-cased, is `o`. */
  predicate Mentions(options: seq<string>, o: string) {
    exists i :: 0 <= i < |options| && Upper(options[i]) == o
  }

  lemma MentionsCons(options: seq<string>, o: string)
    requires options != []
    ensures Mentions(options, o) <==> Upper(options[0]) == o || Mentions(options[1..], o)
  {
    if Mentions(options[1..], o) {
      var i :| 0 <= i < |options[1..]| && Upper(options[1..][i]) == o;
      assert options[i + 1] == options[1..][i];
    }
    if Mentions(options, o) && Upper(options[0]) != o {
      var i :| 0 <= i < |options| && Upper(options[i]) == o;
      assert options[1..][i - 1] == options[i];
    }
  }

  lemma AllAllowedCons(options: seq<string>)
    requires options != []
    ensures AllAllowed(options) <==> Upper(options[0]) in AllowedOptions && AllAllowed(options[1..])
  {
    if Upper(options[0]) in AllowedOptions && AllAllowed(options[1..]) {
      forall i | 0 <= i < |options| ensures Upper(options[i]) in AllowedOptions {
        if i > 0 {
          assert options[i] == options[1..][i - 1];
        }
      }
    }
    if AllAllowed(options) {
      forall i | 0 <= i < |options[1..]| ensures Upper(options[1..][i]) in AllowedOptions {
        assert options[1..][i] == options[i + 1];
      }
    }
  }

  /** One option, applied: the routed ones set their flag, the others are
      listed. */
  lemma OptionStep(a: Accumulators, option: string)
    ensures var o := Upper(option);
      && (ApplyOption(a, option).Ok? <==> o in AllowedOptions)
      && (ApplyOption(a, option).Err? ==> ApplyOption(a, option).error == WrongQueryOption(o))
      && (ApplyOption(a, option).Ok? ==>
            ApplyOption(a, option).value
            == a.(queryOptions := a.queryOptions + (if Routed(o) then [] else [o]),
                  nestJoin := a.nestJoin || o == "MYSQLI_NESTJOIN",
                  forUpdate := a.forUpdate || o == "FOR UPDATE",
                  lockInShareMode := a.lockInShareMode || o == "LOCK IN SHARE MODE"))
  {
    var o := Upper(option);
    if !Routed(o) {
      assert a.queryOptions + [o] == a.queryOptions + (if Routed(o) then [] else [o]);
    } else {
      assert a.queryOptions + [] == a.queryOptions;
    }
  }

  /** The accumulators after a run of accepted options. */
  function AfterOptions(a: Accumulators, options: seq<string>): Accumulators {
    a.(queryOptions := a.queryOptions + Listed(options),
       nestJoin := a.nestJoin || Mentions(options, "MYSQLI_NESTJOIN"),
       forUpdate := a.forUpdate || Mentions(options, "FOR UPDATE"),
       lockInShareMode := a.lockInShareMode || Mentions(options, "LOCK IN SHARE MODE"))
  }

  /** setQueryOption succeeds exactly when every option is on the allow-list.
      Then the routed options set their flags and are never listed, the
      others are appended in order, and nothing else changes. Otherwise it
      throws on the first option that is not allowed, and the options before
      it stay applied. */
  lemma {:induction false} OptionsOutcome(a: Accumulators, options: seq<string>)
    ensures var (a', r) := ApplyOptions(a, options);
      && (r == Done <==> AllAllowed(options))
      && (r.Failed? ==> exists i :: 0 <= i < |options| && AllAllowed(options[..i]) && Upper(options[i]) !in AllowedOptions
                                   && r == Failed(WrongQueryOption(Upper(options[i])))
                                   && a' == AfterOptions(a, options[..i]))
      && (r == Done ==> a' == AfterOptions(a, options))
    decreases |options|
  {
    FirstRejected(a, options);
    if options == [] {
      assert a.queryOptions + [] == a.queryOptions;
      return;
    }
    AllAllowedCons(options);
    OptionStep(a, options[0]);
    var r1 := ApplyOption(a, options[0]);
    if r1.Err? {
      return;
    }
    var a1 := r1.value;
    OptionsOutcome(a1, options[1..]);
    var (a', r) := ApplyOptions(a1, options[1..]);
    assert ApplyOptions(a, options) == (a', r);
    if r == Done {
      AfterOptionsCons(a, a1, options);
    }
  }

  /** A failing run of options stops at its first rejected option, with the
      accepted ones before it applied. */
  lemma {:induction false} FirstRejected(a: Accumulators, options: seq<string>)
    ensures var (a', r) := ApplyOptions(a, options);
      r.Failed? ==> exists i :: 0 <= i < |options| && AllAllowed(options[..i]) && Upper(options[i]) !in AllowedOptions
                               && r == Failed(WrongQueryOption(Upper(options[i])))
                               && a' == AfterOptions(a, options[..i])
    decreases |options|
  {
    if options == [] {
      return;
    }
    OptionStep(a, options[0]);
    var r1 := ApplyOption(a, options[0]);
    if r1.Err? {
      assert options[..0] == [];
      assert a.queryOptions + [] == a.queryOptions;
      return;
    }
    var a1 := r1.value;
    FirstRejected(a1, options[1..]);
    var (a', r) := ApplyOptions(a1, options[1..]);
    assert ApplyOptions(a, options) == (a', r);
    if r.Failed? {
      var j :| 0 <= j < |options[1..]| && AllAllowed(options[1..][..j]) && Upper(options[1..][j]) !in AllowedOptions
               && r == Failed(WrongQueryOption(Upper(options[1..][j])))
               && a' == AfterOptions(a1, options[1..][..j]);
      AcceptedPrefix(a, a1, a', options, j);
      assert options[j + 1] == options[1..][j];
    }
  }

  /** An accepted first option extends the accepted prefix after it. */
  lemma AcceptedPrefix(a: Accumulators, a1: Accumulators, a': Accumulators, options: seq<string>, j: nat)
    requires j < |options| - 1
    requires ApplyOption(a, options[0]) == Ok(a1)
    requires AllAllowed(options[1..][..j]) && a' == AfterOptions(a1, options[1..][..j])
    ensures AllAllowed(options[..j + 1]) && a' == AfterOptions(a, options[..j + 1])
  {
    OptionStep(a, options[0]);
    var pre := options[..j + 1];
    assert pre[1..] == options[1..][..j];
    assert pre[0] == options[0];
    AllAllowedCons(pre);
    AfterOptionsCons(a, a1, pre);
  }

  /** One accepted option taken off the front of the list. */
  lemma AfterOptionsCons(a: Accumulators, a1: Accumulators, options: seq<string>)
    requires options != []
    requires var o := Upper(options[0]);
      a1 == a.(queryOptions := a.queryOptions + (if Routed(o) then [] else [o]),
               nestJoin := a.nestJoin || o == "MYSQLI_NESTJOIN",
               forUpdate := a.forUpdate || o == "FOR UPDATE",
               lockInShareMode := a.lockInShareMode || o == "LOCK IN SHARE MODE")
    ensures AfterOptions(a1, options[1..]) == AfterOptions(a, options)
  {
    FlagsCons(options);
    ListedCons(a.queryOptions, options);
  }

  lemma ListedCons(q: seq<string>, options: seq<string>)
    requires options != []
    ensures var o := Upper(options[0]);
      q + (if Routed(o) then [] else [o]) + Listed(options[1..]) == q + Listed(options)
  {
    var o := Upper(options[0]);
    var mine: seq<string> := if Routed(o) then [] else [o];
    assert Listed(options) == mine + Listed(options[1..]);
    assert q + mine + Listed(options[1..]) == q + (mine + Listed(options[1..]));
  }

  lemma FlagsCons(options: seq<string>)
    requires options != []
    ensures Mentions(options, "MYSQLI_NESTJOIN") == (Upper(options[0]) == "MYSQLI_NESTJOIN" || Mentions(options[1..], "MYSQLI_NESTJOIN"))
    ensures Mentions(options, "FOR UPDATE") == (Upper(options[0]) == "FOR UPDATE" || Mentions(options[1..], "FOR UPDATE"))
    ensures Mentions(options, "LOCK IN SHARE MODE") == (Upper(options[0]) == "LOCK IN SHARE MODE" || Mentions(options[1..], "LOCK IN SHARE MODE"))
  {
    MentionsCons(options, "MYSQLI_NESTJOIN");
    MentionsCons(options, "FOR UPDATE");
    MentionsCons(options, "LOCK IN SHARE MODE");
  }

  /** No routed option ever reaches the option list. */
  lemma {:induction false} ListedNeverRouted(options: seq<string>)
    ensures forall o :: o in Listed(options) ==> !Routed(o)
    decreases |options|
  {
    if options != [] {
      ListedNeverRouted(options[1..]);
    }
  }

  //---------- lockTable ----------

  /** The entry lockTable writes for one table. */
  function LockEntry(name: string, prefix: string, mode: string): string {
    prefix + name + " " + mode
  }

  function LockEntries(names: seq<string>, prefix: string, mode: string): (r: seq<string>)
    ensures |r| == |names|
    ensures forall i :: 0 <= i < |names| ==> r[i] == LockEntry(names[i], prefix, mode)
    decreases |names|
  {
    if names == [] then [] else LockEntries(names[..|names| - 1], prefix, mode) + [LockEntry(names[|names| - 1], prefix, mode)]
  }

  /** A list of table names as lockTable's array argument. */
  function NameItems(names: seq<string>): (r: seq<Param>)
    ensures |r| == |names|
    ensures forall i :: 0 <= i < |names| ==> r[i] == Str(names[i])
    decreases |names|
  {
    if names == [] then [] else NameItems(names[..|names| - 1]) + [Str(names[|names| - 1])]
  }

  lemma {:induction false} JoinSnoc(parts: seq<string>, x: string, sep: string)
    requires parts != []
    ensures Join(parts + [x], sep) == Join(parts, sep) + sep + x
    decreases |parts|
  {
    if |parts| == 1 {
      assert (parts + [x])[1..] == [x];
    } else {
      assert (parts + [x])[1..] == parts[1..] + [x];
      JoinSnoc(parts[1..], x, sep);
      AppendAssoc(parts[0] + sep, Join(parts[1..], sep), sep + x);
    }
  }

  /** lockTable on a non-empty list of table names locks them all, comma
      separated, each prefixed and followed by the lock mode. */
  lemma {:induction false} LockListOfNames(names: seq<string>, prefix: string, mode: string)
    requires names != []
    ensures "LOCK TABLES" + LockList(NameItems(names), prefix, mode)
         == "LOCK TABLES " + Join(LockEntries(names, prefix, mode), ", ")
    decreases |names|
  {
    var k := |names| - 1;
    var e := LockEntry(names[k], prefix, mode);
    LockListStep(names, prefix, mode);
    if k > 0 {
      var before := LockList(NameItems(names[..k]), prefix, mode);
      var entries := LockEntries(names[..k], prefix, mode);
      LockListOfNames(names[..k], prefix, mode);
      JoinSnoc(entries, e, ", ");
      ExtendBoth("LOCK TABLES", before, "LOCK TABLES ", Join(entries, ", "), ", ", e);
    }
  }

  /** Two equal texts stay equal when both are extended by `sep` and `e`. */
  lemma ExtendBoth(p: string, x: string, q: string, y: string, sep: string, e: string)
    requires p + x == q + y
    ensures p + (x + sep + e) == q + (y + sep + e)
  {
    calc {
      p + (x + sep + e);
      (p + x) + sep + e;
      (q + y) + sep + e;
      q + (y + sep + e);
    }
  }

  /** One entry of lockTable's list of names. */
  lemma LockListStep(names: seq<string>, prefix: string, mode: string)
    requires names != []
    ensures var k := |names| - 1;
      && LockEntries(names, prefix, mode) == LockEntries(names[..k], prefix, mode) + [LockEntry(names[k], prefix, mode)]
      && LockList(NameItems(names), prefix, mode)
         == LockList(NameItems(names[..k]), prefix, mode) + (if k > 0 then ", " else " ") + LockEntry(names[k], prefix, mode)
  {
    var k := |names| - 1;
    NameItemsSnoc(names);
    LockListSnoc(NameItems(names), prefix, mode);
    EntryText(LockList(NameItems(names[..k]), prefix, mode), k > 0, prefix, names[k], mode);
  }

  lemma NameItemsSnoc(names: seq<string>)
    requires names != []
    ensures var k := |names| - 1;
      NameItems(names)[..k] == NameItems(names[..k]) && NameItems(names)[k] == Str(names[k])
  {
  }

  /** The last entry of lockTable's list, when it is a string. */
  lemma LockListSnoc(items: seq<Param>, prefix: string, mode: string)
    requires items != [] && items[|items| - 1].Str?
    ensures var k := |items| - 1;
      LockList(items, prefix, mode)
      == LockList(items[..k], prefix, mode) + ((if k > 0 then "," else "") + " " + prefix + items[k].s + " " + mode)
  {
    var k := |items| - 1;
    if k == 0 {
      assert LockList(items[..k], prefix, mode) == "";
    }
  }

  lemma EntryText(a: string, comma: bool, prefix: string, name: string, mode: string)
    ensures a + ((if comma then "," else "") + " " + prefix + name + " " + mode)
         == a + (if comma then ", " else " ") + LockEntry(name, prefix, mode)
  {
  }

  /** An entry that is not a string is skipped, but the comma goes by the
      entry's index: a list whose first entry is skipped starts with a
      comma. */
  lemma SkippedFirstEntryLeavesComma()
    ensures LockTablesText(TableList([Int(1), Str("t")]), "", "READ") == "LOCK TABLES, t READ"
  {
    var items := [Int(1), Str("t")];
    assert items[..1] == [Int(1)];
    assert items[..1][..0] == [];
    assert LockList(items[..1], "", "READ") == "";
  }

  //---------- the insert/set mode of each verb ----------

  /** Of the heads the verbs write, insert and replace put _buildInsertQuery
      in insert mode and update in set mode. A SELECT head also matches
      the character class, but get passes no data, so the mode is unused. */
  lemma InsertModeOfHeads(opts: seq<string>, table: string, columns: Columns, joined: bool)
    ensures InsertMode(InsertHead("INSERT", opts, table))
    ensures InsertMode(InsertHead("REPLACE", opts, table))
    ensures !InsertMode("UPDATE " + table)
    ensures !InsertMode(DeleteHead(table, joined))
    ensures InsertMode(SelectHead(opts, columns, table))
  {
    assert InsertHead("INSERT", opts, table)[0] == 'I';
    assert InsertHead("REPLACE", opts, table)[0] == 'R';
    assert ("UPDATE " + table)[0] == 'U';
    assert DeleteHead(table, joined)[0] == 'D';
    assert SelectHead(opts, columns, table)[0] == 'S';
  }

  //---------- the condition switch ----------

  /** The cases of _buildCondition by operator and value shape: IN binds
      every item of a list behind one placeholder each, BETWEEN writes two
      placeholders and binds the value's items, a plain scalar binds itself
      behind one placeholder, null writes `op NULL` and binds nothing, and
      the 'DBNULL' default writes nothing at all. */
  lemma ConditionShapes(op: string, v: Value, spacedNull: bool)
    requires '?' !in op
    ensures var c := Comparison(op, v, spacedNull);
      && (IsIn(op) && v.List? ==> c.binds == v.items && Count(c.text) == |v.items|)
      && (IsBetween(op) ==> c.binds == Elems(v) && Count(c.text) == 2)
      && (!IsIn(op) && !IsBetween(op) && !IsExists(op) && v.Scalar? && v.p != Null && !Skips(v) ==>
            c.binds == [v.p] && Count(c.text) == 1)
      && (!IsIn(op) && !IsBetween(op) && !IsExists(op) && v == Scalar(Null) ==>
            c.binds == [] && Count(c.text) == 0)
      && (!IsIn(op) && !IsBetween(op) && !IsExists(op) && v.Absent? ==> c == Empty)
  {
    if IsIn(op) {
      if v.List? {
        InListBalanced(op, v);
      }
    } else if IsBetween(op) {
      BetweenCount(op);
    } else if !IsExists(op) && v.Scalar? {
      if v.p == Null {
        NoHole((if spacedNull then " " else "") + op + " NULL");
      } else if !Skips(v) {
        PairBalanced(op, v);
      }
    }
  }

  /** A func or now marker used as a condition value: the foreach visits
      its one inner array, which is bound as one value. IN writes a
      placeholder for it; the default branch writes none, so there the
      register stays in step only when the caller's own text carries one. */
  lemma FuncConditionValue(op: string, v: Value, spacedNull: bool)
    requires '?' !in op && v.Func?
    ensures IsIn(op) ==> Comparison(op, v, spacedNull).binds == [Null] && Count(Comparison(op, v, spacedNull).text) == 1
    ensures !IsIn(op) && !IsBetween(op) && !IsExists(op) ==> Comparison(op, v, spacedNull) == Out("", [Null])
  {
    if IsIn(op) {
      InListBalanced(op, v);
    }
  }

  /** having with an inc or dec marker: the marker's key becomes the
      operator, so the delta is bound behind one ` [I] ? ` placeholder
      instead of being bound with none. */
  lemma HavingIncClause(d: string, op: string, spacedNull: bool)
    requires d != [] && (d[0] == '+' || d[0] == '-')
    ensures var (o, v) := HavingEntry(Plain(Inc(d)), op);
      Comparison(o, v, spacedNull) == Out(" [I] ? ", [Str(d)]) && Count(" [I] ? ") == 1
  {
    assert Lower("[I]") == "[i]";
    assert d != "DBNULL" by {
      assert "DBNULL"[0] == 'D';
    }
    PairBalanced("[I]", Scalar(Str(d)));
  }

  //---------- _buildDataPairs ----------

  /** No column holds a plain array. */
  predicate NoPlainList(cols: seq<Column>) {
    forall i :: 0 <= i < |cols| ==> !cols[i].val.List?
  }

  /** The data pairs run to the end exactly when no column holds a plain
      array, the one shape the value switch rejects. */
  lemma {:induction false} PairsOkIff(cols: seq<Column>, isInsert: bool)
    ensures Pairs(cols, isInsert).ok <==> NoPlainList(cols)
    decreases |cols|
  {
    if cols != [] {
      var init := cols[..|cols| - 1];
      PairsOkIff(init, isInsert);
      PairsOkStep(cols, isInsert);
      NoListSnoc(cols);
    }
  }

  lemma NoListSnoc(cols: seq<Column>)
    requires cols != []
    ensures NoPlainList(cols) <==> NoPlainList(cols[..|cols| - 1]) && !cols[|cols| - 1].val.List?
  {
    var init := cols[..|cols| - 1];
    assert forall i :: 0 <= i < |init| ==> init[i] == cols[i];
  }

  lemma PairsOkStep(cols: seq<Column>, isInsert: bool)
    requires cols != []
    ensures Pairs(cols, isInsert).ok == (Pairs(cols[..|cols| - 1], isInsert).ok && !cols[|cols| - 1].val.List?)
  {
    var c := cols[|cols| - 1];
    assert ColumnPair(c, isInsert).ok == ColumnValue(c.name, c.val).ok;
  }

  //---------- ON DUPLICATE KEY UPDATE ----------

  /** The value of the last keyed onDuplicate entry for `k`, if any. */
  function LastAssigned(u: seq<Upsert>, k: string): Option<Value>
    decreases |u|
  {
    if u == [] then None
    else
      var e := u[|u| - 1];
      if e.Assign? && e.col == k then Some(e.val) else LastAssigned(u[..|u| - 1], k)
  }

  lemma {:induction false} LookupPut(m: seq<Column>, k: string, v: Value, key: string)
    ensures Lookup(Put(m, k, v), key) == if key == k then v else Lookup(m, key)
    decreases |m|
  {
    if m != [] && m[0].name != k {
      LookupPut(m[1..], k, v, key);
      assert ([m[0]] + Put(m[1..], k, v))[1..] == Put(m[1..], k, v);
    } else if m != [] {
      assert ([Column(k, v)] + m[1..])[1..] == m[1..];
    }
  }

  /** The merged data holds, for each column, the last keyed onDuplicate
      value for it, or else the inserted value. */
  lemma {:induction false} LookupMerge(data: seq<Column>, u: seq<Upsert>, key: string)
    ensures Lookup(Merge(data, u), key) == match LastAssigned(u, key) case Some(v) => v case None => Lookup(data, key)
    decreases |u|
  {
    if u != [] {
      LookupMerge(data, u[..|u| - 1], key);
      var e := u[|u| - 1];
      if e.Assign? {
        LookupPut(Merge(data, u[..|u| - 1]), e.col, e.val, key);
      }
    }
  }

  lemma {:induction false} NamedKeysAre(u: seq<Upsert>, k: string)
    ensures k in NamedKeys(u) <==> exists i :: 0 <= i < |u| && u[i].Assign? && u[i].col == k
    decreases |u|
  {
    if u != [] {
      var init := u[..|u| - 1];
      NamedKeysAre(init, k);
      assert forall i :: 0 <= i < |init| ==> init[i] == u[i];
      if exists i :: 0 <= i < |u| && u[i].Assign? && u[i].col == k {
        var i :| 0 <= i < |u| && u[i].Assign? && u[i].col == k;
        if i < |init| {
          assert init[i] == u[i];
        }
      }
    }
  }

  lemma {:induction false} ReusedKeysAre(u: seq<Upsert>, k: string)
    ensures k in ReusedKeys(u) <==> exists i :: 0 <= i < |u| && u[i].Reuse? && u[i].col == k
    decreases |u|
  {
    if u != [] {
      var init := u[..|u| - 1];
      ReusedKeysAre(init, k);
      assert forall i :: 0 <= i < |init| ==> init[i] == u[i];
      if exists i :: 0 <= i < |u| && u[i].Reuse? && u[i].col == k {
        var i :| 0 <= i < |u| && u[i].Reuse? && u[i].col == k;
        if i < |init| {
          assert init[i] == u[i];
        }
      }
    }
  }

  /** ON DUPLICATE KEY UPDATE assigns exactly the columns onDuplicate names,
      each once: a keyed entry with its (last) value, a bare name with the
      inserted value, which is null when the insert data lacks it. */
  lemma UpsertPlanSpec(u: seq<Upsert>, data: seq<Column>)
    ensures var cols := UpsertColumns(u, data);
      && (forall k :: k in Names(cols) <==> exists i :: 0 <= i < |u| && u[i].col == k)
      && (forall i :: 0 <= i < |cols| ==>
            cols[i].val == match LastAssigned(u, cols[i].name) case Some(v) => v case None => Lookup(data, cols[i].name))
  {
    var cols := UpsertColumns(u, data);
    var keys := UpsertKeys(u);
    assert Names(cols) == keys;
    forall k ensures k in keys <==> exists i :: 0 <= i < |u| && u[i].col == k {
      NamedKeysAre(u, k);
      ReusedKeysAre(u, k);
    }
    forall i | 0 <= i < |cols|
      ensures cols[i].val == match LastAssigned(u, cols[i].name) case Some(v) => v case None => Lookup(data, cols[i].name)
    {
      LookupMerge(data, u, keys[i]);
    }
  }

  //---------- the update columns _buildOnDuplicate leaves ----------

  lemma NamesSnoc(m: seq<Column>, c: Column)
    ensures Names(m + [c]) == Names(m) + [c.name]
  {
  }

  lemma NamesCons(c: Column, m: seq<Column>)
    ensures Names([c] + m) == [c.name] + Names(m)
  {
  }

  /** $m[$k] = $v keeps the key list when the key is there and appends the
      entry otherwise. */
  lemma PutNames(m: seq<Column>, k: string, v: Value)
    ensures k in Names(m) ==> Names(Put(m, k, v)) == Names(m)
    ensures k !in Names(m) ==> Put(m, k, v) == m + [Column(k, v)]
  {
    if k in Names(m) {
      PutKnownName(m, k, v);
    } else {
      PutNewName(m, k, v);
    }
  }

  lemma {:induction false} PutKnownName(m: seq<Column>, k: string, v: Value)
    requires k in Names(m)
    ensures Names(Put(m, k, v)) == Names(m)
    decreases |m|
  {
    var t := m[1..];
    assert m == [m[0]] + t;
    NamesCons(m[0], t);
    if m[0].name == k {
      assert Put(m, k, v) == [Column(k, v)] + t;
      NamesCons(Column(k, v), t);
    } else {
      PutKnownName(t, k, v);
      var pt := Put(t, k, v);
      assert Put(m, k, v) == [m[0]] + pt;
      NamesCons(m[0], pt);
    }
  }

  lemma {:induction false} PutNewName(m: seq<Column>, k: string, v: Value)
    requires k !in Names(m)
    ensures Put(m, k, v) == m + [Column(k, v)]
    decreases |m|
  {
    if m != [] {
      var t := m[1..];
      assert m == [m[0]] + t;
      NamesCons(m[0], t);
      PutNewName(t, k, v);
      assert [m[0]] + (t + [Column(k, v)]) == m + [Column(k, v)];
    }
  }

  /** The keyed entries of an update list, as PHP's array holds them,
      have the keys in first-appearance order. */
  lemma {:induction false} MergeNames(u: seq<Upsert>)
    ensures Names(Merge([], u)) == NamedKeys(u)
    decreases |u|
  {
    if u != [] {
      var init := u[..|u| - 1];
      var e := u[|u| - 1];
      MergeNames(init);
      if e.Assign? {
        PutNames(Merge([], init), e.col, e.val);
        if e.col !in NamedKeys(init) {
          NamesSnoc(Merge([], init), Column(e.col, e.val));
        }
      }
    }
  }

  lemma WithoutSnoc(xs: seq<string>, x: string, ys: seq<string>)
    ensures Without(xs + [x], ys) == if x in ys then Without(xs, ys) else Without(xs, ys) + [x]
  {
    assert (xs + [x])[..|xs|] == xs;
  }

  /** Blanking the bare names keeps the existing keys in place and appends
      each new bare name once, in order. */
  lemma {:induction false} BlankedNames(m: seq<Column>, u: seq<Upsert>)
    ensures Names(Blanked(m, u)) == Names(m) + Without(ReusedKeys(u), Names(m))
    decreases |u|
  {
    if u != [] {
      var init := u[..|u| - 1];
      var e := u[|u| - 1];
      var b := Blanked(m, init);
      var n := Names(m);
      BlankedNames(m, init);
      if e.Reuse? {
        var c := e.col;
        PutNames(b, c, Scalar(Str("")));
        assert c in Names(b) <==> c in n || c in ReusedKeys(init);
        if c !in ReusedKeys(init) {
          WithoutSnoc(ReusedKeys(init), c, n);
          if c !in n {
            NamesSnoc(b, Column(c, Scalar(Str(""))));
          }
        }
      }
    }
  }

  /** After blanking, a bare name reads '' and every other key keeps its
      value. */
  lemma {:induction false} BlankedLookup(m: seq<Column>, u: seq<Upsert>, k: string)
    ensures Lookup(Blanked(m, u), k) == if k in ReusedKeys(u) then Scalar(Str("")) else Lookup(m, k)
    decreases |u|
  {
    if u != [] {
      var init := u[..|u| - 1];
      var e := u[|u| - 1];
      BlankedLookup(m, init, k);
      if e.Reuse? {
        LookupPut(Blanked(m, init), e.col, Scalar(Str("")), k);
      }
    }
  }

  /** _buildOnDuplicate leaves one keyed entry per update column, in the
      order it renders them: a bare name now holds '', a keyed name its last
      value. */
  lemma RewrittenColumnsSpec(u: seq<Upsert>)
    ensures Names(RewrittenColumns(u)) == UpsertKeys(u)
    ensures forall k :: Lookup(RewrittenColumns(u), k)
                        == if k in ReusedKeys(u) then Scalar(Str(""))
                           else match LastAssigned(u, k) case Some(v) => v case None => Scalar(Null)
  {
    MergeNames(u);
    BlankedNames(Merge([], u), u);
    forall k
      ensures Lookup(RewrittenColumns(u), k)
              == if k in ReusedKeys(u) then Scalar(Str(""))
                 else match LastAssigned(u, k) case Some(v) => v case None => Scalar(Null)
    {
      BlankedLookup(Merge([], u), u, k);
      LookupMerge([], u, k);
    }
  }

  //---------- the bind register of a finished statement ----------

  /** Filling a text made of two parts, the first holding exactly as many
      placeholders as it has values, fills each part with its own values:
      the values are consumed left to right in the order they were bound. */
  lemma InlineThen(x: Out, y: Out)
    requires Balanced(x)
    ensures Inline(Then(x, y).text, Then(x, y).binds) == Inline(x.text, x.binds) + Inline(y.text, y.binds)
  {
    SubstituteAppend(x.text, y.text, x.binds, y.binds, Lit);
  }

  /** When a verb runs to the end on a head whose placeholders match the
      values bound before it, and on accumulators and data free of stray
      placeholders, the recorded statement holds exactly one placeholder per
      recorded value, and those filled by the head's values come first. */
  lemma SnapshotBalanced(q: QueryBuilder, r: Outcome, head: string, a: Accumulators, numRows: Limit,
                         data: Option<seq<Column>>, b0: seq<Param>, last0: Snapshot, debug0: string, table: string)
    requires q.Finished(r, head, Statement(a, numRows, data, InsertMode(head)), b0, a, AfterBuild(a, data, InsertMode(head)), last0, debug0, table)
    requires r == Done
    requires Count(head) == |b0|
    requires CleanAccumulators(a) && (data.Some? ==> CleanColumns(data.value))
    ensures Count(q.lastPrepareQuery) == |q.lastBindParams|
    ensures var s := Statement(a, numRows, data, InsertMode(head)).out;
      Inline(q.lastPrepareQuery, q.lastBindParams) == Inline(head, b0) + Inline(s.text, s.binds)
  {
    var s := Statement(a, numRows, data, InsertMode(head)).out;
    StatementBalanced(a, numRows, data, InsertMode(head));
    BalancedThen(Out(head, b0), s);
    InlineThen(Out(head, b0), s);
  }

  //---------- Findings ----------

  /** setLockTableMode as written accepts a mode MySQL does not know. */
  lemma LockModeAsWrittenAcceptsNowait()
    ensures LockModeAcceptedAsWritten("NOWAIT") && !LockModeAccepted("NOWAIT")
  {
    assert Upper("NOWAIT") == "NOWAIT";
  }

  /** lockInShareMode(false) as written leaves a share-mode lock set by
      lockInShareMode() in place. */
  method ShareModeReleaseAsWritten() returns (stillLocked: bool)
    ensures stillLocked
  {
    var q := new QueryBuilder();
    q.LockInShareModeAsWritten(true);
    q.LockInShareModeAsWritten(false);
    stillLocked := q.acc.lockInShareMode;
  }

  /** With false clearing the flag, the lock is released. */
  method ShareModeRelease() returns (stillLocked: bool)
    ensures !stillLocked
  {
    var q := new QueryBuilder();
    q.LockInShareMode(true);
    q.LockInShareMode(false);
    stillLocked := q.acc.lockInShareMode;
  }

  /** selectForUpdate(false) as written leaves FOR UPDATE in place. */
  method ForUpdateReleaseAsWritten() returns (stillLocked: bool)
    ensures stillLocked
  {
    var q := new QueryBuilder();
    q.SelectForUpdateAsWritten(true);
    q.SelectForUpdateAsWritten(false);
    stillLocked := q.acc.forUpdate;
  }

  /** With false clearing the flag, FOR UPDATE is dropped. */
  method ForUpdateRelease() returns (stillLocked: bool)
    ensures !stillLocked
  {
    var q := new QueryBuilder();
    q.SelectForUpdate(true);
    q.SelectForUpdate(false);
    stillLocked := q.acc.forUpdate;
  }
}
