# QueryBuilder — a Dafny model of the EasySwoole MySQL statement builder

`QueryBuilder` (`src/QueryBuilder.php`) assembles MySQL statements for a
prepared-statement client. Chaining calls fill clause accumulators:

- `where`, `having` and `joinWhere`;
- `orderBy`, `groupBy` and `join`;
- `setQueryOption` and the lock flags;
- `onDuplicate`.

Each terminal verb (`get`, `getOne`, `insert`, `replace`, `update`,
`delete`, `lockTable`, `unlockTable`) writes a statement head. `_buildQuery`
then appends the joins, the data pairs, WHERE, GROUP BY, HAVING, ORDER BY,
LIMIT, the ON DUPLICATE KEY UPDATE list and the locking suffixes. Every
value that is not part of the SQL text is bound to a `?` placeholder in a
bind register. The register also carries a type-signature string. Finally
`reset` records the statement, its values and its options for the
`getLast*` accessors and clears the builder. A debug rendering with the
values written in place is kept as the "last query". Expression helpers
(`inc`, `dec`, `not`, `func`, `now`, `interval`) build the markers that
column data may carry. `subQuery` and `getSubQuery` embed one builder's
statement in another's.

The model has these modules:

- **Values** (`values.dfy`): the closed set of value shapes, the clause
  records and the errors.
- **Text** (`text.dfy`): the PHP string functions the builder relies on.
- **Placeholders** (`placeholders.dfy`): counting `?` and filling
  placeholders in order.
- **Debug** (`debug.dfy`): `replacePlaceHolders`, as written.
- **Render** (`render.dfy`): every build step as a function from the
  accumulators to an output fragment, plus the composed `_buildQuery`.
- **Builder** (`builder.dfy`): the `QueryBuilder` class. Each method
  updates the fields in place, and each build loop is proved against
  Render.
- **Expressions** (`expressions.dfy`): the expression helpers.
- **Balance** (`balance.dfy`): the bind-register invariant. Every
  placeholder the build writes has exactly one bound value, in order.
- **Correspondence** (`correspondence.dfy`): the accumulators and heads
  checked against independent reference definitions, and the two findings.

## Model

| member | source | states |
|---|---|---|
| Values.TypeTag | src/QueryBuilder.php:901-920 | null and strings are tagged 's', booleans and integers 'i', floats 'd', each an if-and-only-if |
| Values.Signature | src/QueryBuilder.php:493-497 | the signature string has one tag per bound value, in binding order |
| Values.Elems | src/QueryBuilder.php:665-668 | what a foreach over a condition value visits: a list's items in order, one entry for an inc, not, func or now marker (for func and now the inner array, bound as null), nothing for a scalar or the default; a subquery is modelled as visiting nothing (see Left out) |
| Values.AsParam | src/QueryBuilder.php:516-520 | _buildPair binds a scalar as itself and the 'DBNULL' default as that string |
| Placeholders.SubstituteAppend | src/QueryBuilder.php:776-801 | filling a concatenation whose left part has as many placeholders as left values fills each part with its own values |
| Placeholders.InlineRTrim | src/QueryBuilder.php:640 | trimming trailing commas and blanks commutes with filling the placeholders, because no literal ends in one |
| Placeholders.CountRTrim | src/QueryBuilder.php:640 | rtrim over ", " never removes a placeholder |
| Debug.ReplacePlaceHolders | src/QueryBuilder.php:776-801 | the loop computes DebugText of the statement and its values |
| Debug.DebugLit | src/QueryBuilder.php:785-795 | a value is written bare when is_numeric holds and in single quotes otherwise; null is first turned into the string NULL, so it is quoted |
| Text.NulDoesNotLeadNumber | src/QueryBuilder.php:791 | is_numeric skips its own blanks, not trim()'s: a string starting with NUL is never numeric |
| Text.FormFeedLeadsNumber | src/QueryBuilder.php:791 | a form feed may lead a numeric string |
| Text.IntTextNumeric | src/QueryBuilder.php:791 | is_numeric accepts the decimal text of every integer, so integer values are always written bare |
| Debug.DebugTextFillsInOrder | src/QueryBuilder.php:776-801 | on a template with no `?` first and no `??`, given enough values, the debug text replaces each placeholder in order by its value's literal |
| Debug.LeadingHoleIsKept | src/QueryBuilder.php:783 | a `?` at position 0 stops the loop (position 0 is falsy), so it is never filled |
| Render.JoinsSnoc | src/QueryBuilder.php:746-768 | each join of the loop appends its own JoinPart, in order |
| Render.PairsSnoc | src/QueryBuilder.php:597-639 | each column of the data loop appends its head and value, in order |
| Render.SkipsMatchesLooseTest | src/QueryBuilder.php:686 | for every non-null scalar, the default branch writes nothing exactly when PHP 7's `$val != 'DBNULL' \|\| $val == '0'` is false, which is the string 'DBNULL' and true |
| Render.InList | src/QueryBuilder.php:660-671 | IN binds the subquery's values, or each visited item in order, and always ends with ` ) ` |
| Render.ComparisonShape | src/QueryBuilder.php:657-689 | the operator switch writes nothing exactly for an array value or a skipped value under a plain operator; where it iterates the value it binds what the foreach visits; in the default pair it binds the value itself |
| Render.ColumnValueShape | src/QueryBuilder.php:606-638 | the data value switch throws exactly for a plain array, before writing anything; a scalar or the default binds one value, a subquery or func its own values, inc and not none |
| Render.ClosedAfter | src/QueryBuilder.php:640 | the closing rtrim of the data pairs never reaches back past a head that holds a character outside ", " |
| Render.CloseList | src/QueryBuilder.php:696-706 | trimming the GROUP BY list leaves the statement before the keyword intact |
| Render.OrderByClosed | src/QueryBuilder.php:711-725 | the trimmed and closed ORDER BY loop equals the prior statement followed by the ORDER BY part |
| Render.Without | src/QueryBuilder.php:575-583 | the reused column names appended to the update keys are exactly those not already keyed |
| Render.LookupAll | src/QueryBuilder.php:584 | each update key is paired with its value in the merged data |
| Render.RunFromNext | src/QueryBuilder.php:848-865 | each step of _buildQuery is followed by the rest of the steps, in the fixed order |
| Render.RunFromOk | src/QueryBuilder.php:848-865 | a step that cannot throw appends its text in front of the rest of the run |
| Render.TailRun | src/QueryBuilder.php:857-863 | the last steps are the ON DUPLICATE list, then FOR UPDATE and LOCK IN SHARE MODE unless the list threw |
| Render.OrderByRun | src/QueryBuilder.php:855-863 | from ORDER BY on, the statement is ORDER BY, LIMIT, then the tail |
| Render.GroupByRun | src/QueryBuilder.php:853-863 | from GROUP BY on, the statement is GROUP BY, HAVING, ORDER BY, LIMIT, then the tail |
| Render.WhereRun | src/QueryBuilder.php:852-863 | from WHERE on, the statement is the filter part followed by the tail |
| Render.ClosingRun | src/QueryBuilder.php:852-863 | the steps from WHERE on produce the closing half |
| Render.StatementHalves | src/QueryBuilder.php:848-865 | _buildQuery is the joins and the data pairs followed, unless the data threw, by WHERE through the locking suffixes |
| Builder.OrderTermFor | src/QueryBuilder.php:103-124 | an orderBy term is accepted exactly when the trimmed, upper-cased direction is ASC or DESC and the custom argument is an array, a string or null; a bad direction throws the wrong-direction error naming it, and with a good direction a custom value of another type throws the wrong-custom-field error |
| Builder.SetOrder | src/QueryBuilder.php:125 | keying by field: a known field keeps its place and takes the new direction, a new one goes last, no other term is lost |
| Builder.SetOrderDistinct | src/QueryBuilder.php:125 | the ORDER BY list never holds one field twice |
| Builder.JoinRecord | src/QueryBuilder.php:185-197 | a join is accepted exactly when its type is empty or on the allow-list; a table name gets the prefix and a subquery does not |
| Builder.HavingEntry | src/QueryBuilder.php:153-156 | having replaces the operator by an array value's first key unless it is 0: inc gives `[I]` with the delta, not gives `[N]` with the column, func and now give `[F]` with the inner array, an empty array gives a null operator and value, a caller's `[op => v]` gives op and v; other values keep the operator |
| Builder.LockListEmptyIff | src/QueryBuilder.php:283-294 | the table list writes no entry exactly when none of its items is a string |
| Builder.QueryBuilder.constructor | src/QueryBuilder.php:53-59 | a new builder is cleared with mode READ; the alias is kept only for a subquery |
| Builder.QueryBuilder.SubQuery | src/QueryBuilder.php:1019-1022 | subQuery with an alias gives a fresh, cleared builder marked as a subquery with that alias |
| Builder.QueryBuilder.Where | src/QueryBuilder.php:74-81 | appends one condition and changes nothing else; the first condition's connector is blank |
| Builder.QueryBuilder.OrWhere | src/QueryBuilder.php:90-93 | where with the connector OR |
| Builder.QueryBuilder.OrderBy | src/QueryBuilder.php:103-127 | on success, sets the term in the ORDER BY list; on an error, throws and changes nothing; the fields stay distinct |
| Builder.QueryBuilder.GroupBy | src/QueryBuilder.php:135-140 | appends the field to the GROUP BY list and changes nothing else |
| Builder.QueryBuilder.Having | src/QueryBuilder.php:151-162 | appends one condition with the operator and value HavingEntry computes (a marker's key as operator) and changes nothing else; the first connector is blank |
| Builder.QueryBuilder.OrHaving | src/QueryBuilder.php:171-174 | having with the connector OR and null defaults, with the same keyed operator and value |
| Builder.QueryBuilder.Join | src/QueryBuilder.php:185-197 | appends the join record, or throws and changes nothing |
| Builder.QueryBuilder.JoinWhere | src/QueryBuilder.php:208-212 | files a condition under the prefixed table, keeping its connector, and changes nothing else |
| Builder.QueryBuilder.JoinOrWhere | src/QueryBuilder.php:223-226 | files a condition with connector OR under the prefixed table |
| Builder.QueryBuilder.SetQueryOption | src/QueryBuilder.php:322-346 | the accumulators and outcome are those of applying the options in order |
| Builder.QueryBuilder.SetPrefix | src/QueryBuilder.php:353-357 | sets the prefix |
| Builder.QueryBuilder.WithTotalCount | src/QueryBuilder.php:364-368 | appends SQL_CALC_FOUND_ROWS to the options and changes nothing else |
| Builder.QueryBuilder.OnDuplicate | src/QueryBuilder.php:440-445 | stores the update-column list and changes nothing else |
| Builder.QueryBuilder.LockInShareMode | src/QueryBuilder.php:233-240 | corrected: sets the share-mode flag to the argument |
| Builder.QueryBuilder.LockInShareModeAsWritten | src/QueryBuilder.php:233-240 | as written: true sets the flag and false leaves it as it was |
| Builder.QueryBuilder.SelectForUpdate | src/QueryBuilder.php:247-254 | corrected: sets the FOR UPDATE flag to the argument |
| Builder.QueryBuilder.SelectForUpdateAsWritten | src/QueryBuilder.php:247-254 | as written: true sets the flag and false leaves it as it was |
| Builder.QueryBuilder.SetLockTableMode | src/QueryBuilder.php:262-273 | corrected: accepts exactly READ and WRITE in any case, otherwise throws and keeps the old mode; preserves a valid lock mode |
| Builder.QueryBuilder.SetLockTableModeAsWritten | src/QueryBuilder.php:262-273 | as written: accepts every string whose upper case is truthy |
| Builder.QueryBuilder.BindParam | src/QueryBuilder.php:493-497 | appends the value to the register and its type tag to the signature |
| Builder.QueryBuilder.BindParams | src/QueryBuilder.php:503-508 | appends all values in order |
| Builder.QueryBuilder.BuildPair | src/QueryBuilder.php:516-526 | a scalar becomes ` op ? ` with one bound value; a subquery is embedded with its own values |
| Builder.QueryBuilder.ConditionToSql | src/QueryBuilder.php:808-841 | appends the operator switch's fragment (the copy that writes no blank before `op NULL`) |
| Builder.QueryBuilder.BuildInList | src/QueryBuilder.php:660-671 | appends the IN list: one ` ?,` per item with the last comma trimmed, or the subquery |
| Builder.QueryBuilder.BindEach | src/QueryBuilder.php:665-668 | writes one placeholder per item and binds the items in order |
| Builder.QueryBuilder.BuildClauses | src/QueryBuilder.php:655-690 | appends every condition in order, each with its connector, property and comparison |
| Builder.QueryBuilder.BuildCondition | src/QueryBuilder.php:648-691 | appends nothing for no conditions, otherwise the keyword then the clauses |
| Builder.QueryBuilder.BuildJoin | src/QueryBuilder.php:746-768 | appends every join with its own join conditions |
| Builder.QueryBuilder.BuildJoinPart | src/QueryBuilder.php:751-766 | one join: type, target, ON or USING text, then the conditions filed under the rendered target |
| Builder.QueryBuilder.BuildColumnPair | src/QueryBuilder.php:598-639 | one column: the assignment head in set mode, then its value; fails exactly where ColumnPair fails |
| Builder.QueryBuilder.BuildColumnValue | src/QueryBuilder.php:606-638 | the value switch: subquery, bound scalar, inc/dec, func with its values, not; a plain array throws |
| Builder.QueryBuilder.BuildDataPairs | src/QueryBuilder.php:595-641 | the pairs of all columns, then the rtrim; on a throw, the text so far, untrimmed, with its values |
| Builder.QueryBuilder.PairsStopAtFailure | src/QueryBuilder.php:637 | after a column throws, no later column is rendered |
| Builder.QueryBuilder.BuildInsertQuery | src/QueryBuilder.php:547-565 | appends the data part (a column list and VALUES in insert mode, SET otherwise), nothing without data |
| Builder.QueryBuilder.BuildClosedPairs | src/QueryBuilder.php:556-564 | head, trimmed pairs, then the closing text only if no column threw |
| Builder.QueryBuilder.BuildOnDuplicate | src/QueryBuilder.php:571-586 | appends the ON DUPLICATE KEY UPDATE part, nothing without update columns, and leaves the update columns rewritten: bare names keyed with '' and numeric keys gone |
| Builder.QueryBuilder.BuildUpsertList | src/QueryBuilder.php:573-585 | the ON DUPLICATE text and values for an update list, and the list the loop leaves behind |
| Builder.QueryBuilder.UpsertPlan | src/QueryBuilder.php:575-584 | the loop over the update columns yields the planned columns with their values, and the rewritten update columns |
| Builder.QueryBuilder.BuildGroupBy | src/QueryBuilder.php:696-706 | appends the GROUP BY part |
| Builder.QueryBuilder.AppendGroupBy | src/QueryBuilder.php:696-706 | the GROUP BY loop and its rtrim extend the statement by the GROUP BY part |
| Builder.QueryBuilder.AppendOrderBy | src/QueryBuilder.php:711-725 | the ORDER BY loop extends the statement by the ORDER BY part |
| Builder.QueryBuilder.BuildOrderBy | src/QueryBuilder.php:711-725 | appends the ORDER BY part |
| Builder.QueryBuilder.BuildLimit | src/QueryBuilder.php:731-741 | appends nothing, ` LIMIT n`, or ` LIMIT offset, count` |
| Builder.QueryBuilder.BuildQuery | src/QueryBuilder.php:848-865 | appends the whole statement and binds its values; the update columns are rewritten once the ON DUPLICATE step is reached; on success, the debug text is the filled statement; on a throw, the debug text is untouched |
| Builder.QueryBuilder.BuildStatement | src/QueryBuilder.php:850-863 | the build steps in order append Statement; the update columns are rewritten unless the data pairs threw |
| Builder.QueryBuilder.BuildOpening | src/QueryBuilder.php:850-851 | joins, then the data part |
| Builder.QueryBuilder.BuildClosing | src/QueryBuilder.php:852-863 | WHERE through the locking suffixes, leaving the update columns rewritten |
| Builder.QueryBuilder.BuildTail | src/QueryBuilder.php:857-863 | the ON DUPLICATE part, then the locking suffixes unless it threw; the update columns are left rewritten either way |
| Builder.QueryBuilder.BuildFilters | src/QueryBuilder.php:852-856 | WHERE, GROUP BY, HAVING, ORDER BY, LIMIT, none of which throws |
| Builder.QueryBuilder.BuildLocking | src/QueryBuilder.php:858-863 | appends FOR UPDATE and LOCK IN SHARE MODE as flagged |
| Builder.QueryBuilder.Reset | src/QueryBuilder.php:873-894 | records statement, values and options, then clears every accumulator, the register, the statement and the table name |
| Builder.QueryBuilder.SnapshotLast | src/QueryBuilder.php:875-878 | the getLast* snapshot is the current statement, values and options |
| Builder.QueryBuilder.ClearStatement | src/QueryBuilder.php:885-891 | the statement, register and table name are emptied |
| Builder.QueryBuilder.LockTable | src/QueryBuilder.php:280-303 | records the LOCK TABLES text with the prefix and lock mode, then resets; keeps prefix, mode and debug text |
| Builder.QueryBuilder.LockedTables | src/QueryBuilder.php:283-294 | the loop over a table list produces the listed LOCK TABLES text |
| Builder.QueryBuilder.UnlockTable | src/QueryBuilder.php:309-314 | records UNLOCK TABLES and resets |
| Builder.QueryBuilder.BuildAndReset | src/QueryBuilder.php:392-393 | _buildQuery then reset; a throw leaves the partial statement and its values, and the accumulators as the build left them: unchanged if the data pairs threw, with the update columns rewritten if the ON DUPLICATE pairs did |
| Builder.QueryBuilder.Get | src/QueryBuilder.php:379-395 | SELECT with the options, the columns ('*' when empty) and the prefixed table unless it names a database, then the statement and reset; a throw skips the reset and leaves the update columns rewritten |
| Builder.QueryBuilder.StartSelect | src/QueryBuilder.php:381-390 | sets the table name and writes the SELECT head |
| Builder.QueryBuilder.GetOne | src/QueryBuilder.php:403-406 | get with LIMIT 1 |
| Builder.QueryBuilder.Write | src/QueryBuilder.php:534-541 | INSERT or REPLACE with the options and prefixed table, then the data; on a subquery builder no statement is built, but the reset still runs; a throw skips the reset, with the update columns rewritten unless the data threw |
| Builder.QueryBuilder.StartInsert | src/QueryBuilder.php:539 | writes the INSERT or REPLACE head |
| Builder.QueryBuilder.Insert | src/QueryBuilder.php:414-419 | Write with INSERT |
| Builder.QueryBuilder.Replace | src/QueryBuilder.php:427-432 | Write with REPLACE |
| Builder.QueryBuilder.Update | src/QueryBuilder.php:454-463 | UPDATE with SET data and the filters; a no-op that changes nothing on a subquery builder; a throw skips the reset, with the update columns rewritten unless the data threw |
| Builder.QueryBuilder.StartUpdate | src/QueryBuilder.php:459 | writes the UPDATE head |
| Builder.QueryBuilder.Delete | src/QueryBuilder.php:471-485 | DELETE, naming the table's alias before FROM when there are joins; a no-op on a subquery builder; a throw skips the reset and leaves the update columns rewritten |
| Builder.QueryBuilder.StartDelete | src/QueryBuilder.php:476-481 | writes the DELETE head |
| Builder.QueryBuilder.GetSubQuery | src/QueryBuilder.php:1066-1078 | null and no change on a builder that is not a subquery; otherwise the last statement, its values and the alias, then a reset |
| Expressions.Delta | src/QueryBuilder.php:971-991 | a signed delta exactly for a numeric argument, otherwise an error |
| Expressions.IncExpr | src/QueryBuilder.php:971-977 | inc accepts exactly numeric arguments and gives a delta starting with '+' |
| Expressions.DecExpr | src/QueryBuilder.php:985-991 | dec accepts exactly numeric arguments and gives a delta starting with '-' |
| Expressions.IncDecRender | src/QueryBuilder.php:620-622 | a column set to inc(n) or dec(n) is written `column+n` or `column-n` and binds nothing |
| Expressions.NotExpr | src/QueryBuilder.php:998-1001 | not holds its argument as a string; null gives the empty string |
| Expressions.NotRender | src/QueryBuilder.php:629-635 | a not() column is written as the negated column, or as the negated argument when it is non-empty |
| Expressions.FuncExpr | src/QueryBuilder.php:1009-1012 | func holds the raw expression and its values; a missing list binds nothing |
| Expressions.FuncRender | src/QueryBuilder.php:623-628 | a func column is written as the expression and binds exactly its values |
| Expressions.Interval | src/QueryBuilder.php:929-951 | without a match, the function text unchanged; it throws exactly for a unit outside s, m, h, d, M, Y; on success, the function text is a prefix of the result |
| Expressions.IntervalDefaults | src/QueryBuilder.php:932-948 | a bare amount counts forward in days |
| Expressions.IntervalUnitAllowList | src/QueryBuilder.php:931-947 | of the letters, exactly the six unit letters are accepted |
| Expressions.ZeroAmountDropped | src/QueryBuilder.php:939-941 | an amount of "0" is dropped |
| Expressions.NowExpr | src/QueryBuilder.php:960-963 | now succeeds exactly when interval does and carries its error otherwise |
| Expressions.NowRender | src/QueryBuilder.php:960-963 | a now() column is written as the interval text and binds nothing |
| Balance.PairBalanced | src/QueryBuilder.php:516-526 | _buildPair writes exactly one placeholder per value it binds |
| Balance.InListBalanced | src/QueryBuilder.php:660-671 | the IN list writes one placeholder per value it binds |
| Balance.ComparisonCount | src/QueryBuilder.php:657-689 | the switch's placeholders, plus those a raw array value relies on in the property text, match the values bound |
| Balance.BetweenBalancedIff | src/QueryBuilder.php:673-676 | BETWEEN keeps the register in step exactly when its value has two items |
| Balance.ClausesBalanced | src/QueryBuilder.php:655-690 | clean conditions keep the register in step |
| Balance.ConditionsBalanced | src/QueryBuilder.php:648-691 | a WHERE or HAVING part keeps the register in step |
| Balance.JoinPartBalanced | src/QueryBuilder.php:751-766 | one join with its conditions keeps the register in step |
| Balance.JoinsBalanced | src/QueryBuilder.php:746-768 | all joins keep the register in step |
| Balance.ColumnPairBalanced | src/QueryBuilder.php:598-638 | one column keeps the register in step |
| Balance.PairsBalanced | src/QueryBuilder.php:595-641 | the data pairs keep the register in step, whether or not a column throws |
| Balance.DataPartBalanced | src/QueryBuilder.php:547-565 | the insert or set part keeps the register in step |
| Balance.MergeClean | src/QueryBuilder.php:575-583 | merging clean update columns into clean data stays clean |
| Balance.OnDuplicateBalanced | src/QueryBuilder.php:571-586 | the ON DUPLICATE part keeps the register in step |
| Balance.GroupByNoHole | src/QueryBuilder.php:696-706 | GROUP BY over clean fields writes no placeholder |
| Balance.OrderByNoHole | src/QueryBuilder.php:711-725 | ORDER BY over clean terms writes no placeholder |
| Balance.LimitNoHole | src/QueryBuilder.php:731-741 | LIMIT writes no placeholder |
| Balance.LockingNoHole | src/QueryBuilder.php:858-863 | the locking suffixes write no placeholder |
| Balance.FilterBalanced | src/QueryBuilder.php:852-856 | WHERE through LIMIT keeps the register in step |
| Balance.OpeningBalanced | src/QueryBuilder.php:850-851 | joins and data keep the register in step |
| Balance.TailBalanced | src/QueryBuilder.php:857-863 | the ON DUPLICATE part and locking suffixes keep the register in step |
| Balance.ClosingBalanced | src/QueryBuilder.php:852-863 | WHERE through the locking suffixes keep the register in step |
| Balance.StatementBalanced | src/QueryBuilder.php:848-865 | _buildQuery appends exactly as many placeholders as values it binds, whether it finishes or throws |
| Correspondence.OptionsOutcome | src/QueryBuilder.php:322-346 | setQueryOption succeeds exactly when every upper-cased option is allowed; then the routed options set their flags, the others are appended in order, and nothing else changes; otherwise it throws naming the first rejected option, with every option before it already applied |
| Correspondence.FirstRejected | src/QueryBuilder.php:322-346 | a failing run of options stops at its first rejected option, with the accepted ones before it applied |
| Correspondence.ListedNeverRouted | src/QueryBuilder.php:335-343 | MYSQLI_NESTJOIN, FOR UPDATE and LOCK IN SHARE MODE never reach the option list |
| Correspondence.LockListOfNames | src/QueryBuilder.php:280-294 | lockTable on a non-empty list of names writes `LOCK TABLES ` and the entries `prefix name mode`, joined by ", " |
| Correspondence.SkippedFirstEntryLeavesComma | src/QueryBuilder.php:287-291 | a list whose entry at index 0 is not a string gives `LOCK TABLES, t READ` |
| Correspondence.InsertModeOfHeads | src/QueryBuilder.php:552 | INSERT and REPLACE heads are in insert mode, UPDATE and DELETE heads in set mode |
| Correspondence.ConditionShapes | src/QueryBuilder.php:657-689 | IN binds each item behind its own placeholder, BETWEEN writes two, a scalar binds itself behind one, null writes `op NULL` and binds nothing, the 'DBNULL' default writes nothing |
| Correspondence.FuncConditionValue | src/QueryBuilder.php:665-668 | a func or now marker as a condition value binds its inner array as one value: IN writes one placeholder for it, the default branch writes none |
| Correspondence.HavingIncClause | src/QueryBuilder.php:153-156 | having with an inc or dec marker renders ` [I] ? ` and binds the delta behind that one placeholder |
| Correspondence.PairsOkIff | src/QueryBuilder.php:595-641 | the data pairs run to the end exactly when no column holds a plain array |
| Correspondence.LookupPut | src/QueryBuilder.php:581 | assigning a key changes that key's value and no other |
| Correspondence.LookupMerge | src/QueryBuilder.php:575-583 | after the merge, each column holds its last keyed update value, or else its inserted value |
| Correspondence.RewrittenColumnsSpec | src/QueryBuilder.php:575-583 | the update columns _buildOnDuplicate leaves hold one keyed entry per rendered column, in the rendered order: a bare name holds '', a keyed name its last value |
| Correspondence.UpsertPlanSpec | src/QueryBuilder.php:571-586 | ON DUPLICATE KEY UPDATE assigns exactly the listed columns: a keyed entry with its last value, a bare name with the inserted value (null if missing) |
| Correspondence.InlineThen | src/QueryBuilder.php:776-801 | filling a statement built part by part fills each part with its own values, left to right |
| Correspondence.SnapshotBalanced | src/QueryBuilder.php:873-877 | after a verb finishes, the recorded statement has one placeholder per recorded value, and the head's values fill the head's placeholders first |
| Correspondence.LockModeAsWrittenAcceptsNowait | src/QueryBuilder.php:264-266 | the written check accepts "NOWAIT", which the intended check rejects |
| Correspondence.ShareModeReleaseAsWritten | src/QueryBuilder.php:233-240 | as written, lockInShareMode(true) then lockInShareMode(false) leaves the lock set |
| Correspondence.ShareModeRelease | src/QueryBuilder.php:233-240 | corrected, the same calls release it |
| Correspondence.ForUpdateReleaseAsWritten | src/QueryBuilder.php:247-254 | as written, selectForUpdate(true) then selectForUpdate(false) leaves FOR UPDATE set |
| Correspondence.ForUpdateRelease | src/QueryBuilder.php:247-254 | corrected, the same calls release it |

## Left out

- Executing the statements, the database connection and the
  `lastInsertId` argument of `onDuplicate`. That argument is stored but
  never read here, so the model drops it.
- The sanitising regular expressions of `orderBy` and `groupBy`, and the
  one in `orderBy` that inserts the table prefix into a backquoted table
  name. The model takes field texts as already sanitised.
- `interval` matches its pattern against the diff text. The model takes
  the three captured groups as its input (`IntervalMatch`), or None when
  the diff is falsy or does not match. Regular-expression matching is not
  modelled.
- The DELETE alias regex `preg_replace('/.* (.*)/', '$1', …)` is modelled
  as "the text after the last space" (`AfterLastSpace`), for a single-line
  table name.
- PHP's loose comparisons are modelled where the builder's output depends
  on them and the model can state them. The default branch's
  `$val != 'DBNULL' || $val == '0'` is `Render.Skips`, which also skips
  `true` (`Render.SkipsMatchesLooseTest`). Numeric texts with an exponent
  are not read as zero there.
- Render.ColumnValue, Builder.QueryBuilder.BuildColumnValue and
  Correspondence.PairsOkIff: a plain list among the data throws. Under
  PHP 7, its first key is the integer 0, and `switch (0)` matches
  `case '[I]'`, so the column would be written as `column` followed by
  the list's first item. PHP 8 throws, as modelled.
- Builder.QueryBuilder.SubQuery: the alias is required. Called without
  one, `subQuery` hands null to the constructor's `string` parameter, which
  PHP rejects with a TypeError. That call is not modelled.
- Builder.QueryBuilder.BuildLimit: the numRows argument is taken already
  cast to integers (`Values.Limit`). The `(int)` casts `_buildLimit`
  applies to strings, floats and array items are not modelled.
- Floats are kept as the text PHP prints for them (`Double(repr)`); the
  builder never computes with them.
- The static `$prefix` shared by every builder is a field of each builder.
- `Value.Sub` is the child's `getSubQuery` triple. The child's own reset
  when a parent embeds it is not modelled.
- Arrays with string keys passed to `lockTable`: the model takes a list
  indexed from 0.
- The clause accumulators are one record field (`acc`) of the class rather
  than eleven fields.
- The getters `getLastPrepareQuery`, `getLastBindParams`,
  `getLastQueryOptions`, `getLastQuery` and `isSubQuery` are field reads.
  They are `Last()`, `lastQuery` and `isSubQuery`.
- Values.AsParam: an array-shaped value reaching `_bindParam` directly
  is bound as null. PHP would bind the array itself.
- Values.Elems: a func or now marker's inner array is bound as null with
  the tag 's'. PHP binds the array itself, whose tag is the empty string.
  A subquery value is modelled as visiting nothing, so under BETWEEN or
  NOT BETWEEN it binds no value. In PHP, `_bindParams` runs its foreach
  inside the builder, so it walks the child builder's protected
  properties (`_query`, `_join`, `_where`, … `lastQueryOptions`) and binds
  each one. Both the model and PHP leave the placeholders and the values
  out of step there, as `Balance.BetweenBalancedIff` states.
- Builder.HavingEntry: a `[0 => v]` value is kept as the list `[v]` with
  `v` read as a scalar. A key such as "00" or "0.0", which PHP 7 also
  compares equal to "0", is kept as an operator.
- Where the code and its description differ, the model follows the code.
  `insert` and `replace` on a subquery builder still reset it
  (`Builder.QueryBuilder.Write`). The INSERT column list is written with
  backquotes.
- Balance.StatementBalanced: it holds for accumulators and data whose
  texts carry no `?` of their own (`CleanAccumulators`, `CleanColumns`).
  Raw texts written by the caller can carry placeholders the builder
  knows nothing about.

## Findings

| source | as written | input that shows it | evidently intended | confidence | as-written member | corrected member |
|---|---|---|---|---|---|---|
| src/QueryBuilder.php:264-266 | `case "READ" \|\| "WRITE"` compares the mode with `true`, so every truthy string is accepted | `setLockTableMode("NOWAIT")` sets the mode to NOWAIT instead of throwing | accept READ or WRITE only | high (not executed) | Correspondence.LockModeAsWrittenAcceptsNowait | Builder.QueryBuilder.SetLockTableMode |
| src/QueryBuilder.php:233-254 | `lockInShareMode(false)` and `selectForUpdate(false)` unset a key of the option list, but the option was routed to a flag | `lockInShareMode(true); lockInShareMode(false)` still appends LOCK IN SHARE MODE | false clears the flag | high (not executed) | Correspondence.ShareModeReleaseAsWritten | Correspondence.ShareModeRelease |
