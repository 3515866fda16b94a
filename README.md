# mysqlb query builder and paginator, in Dafny

This project models the core of `mysqlb`, a fluent builder for MySQL statements. A `Query` is bound
to one table and one execution channel. Its chain methods add to the builder's clause text and
bound values: `where`, `whereRaw`, `whereIn`, `like`, the three joins, `only`, `orderBy`, `limit`
and `offset`. A terminal method then guards the accumulated state against the statement kind,
compiles it into SQL text with `?` placeholders and a positional parameter list, and hands both to
the channel. The terminals are `get`, `getFirst`, `find`, `getCount`, `create`, `update`, `delete`
and `getPaginated`. `getPaginated` first counts on a copy of the builder, then fetches one page
and wraps the result in a `Paginator`.

Layout:

- `results.dfy` holds `Option`, `Outcome` and the error kinds. A thrown `Error` becomes `Err(Invalid(..))`, a channel error `Err(Execution(..))`, and a JavaScript type error `Err(Fault(..))`.
- `sql_text.dfy` holds bound values and rows, and the placeholder count `Marks`. It also has `join(', ')`, the decimal printing of integers, ASCII upper-casing, and table qualification of field names.
- `execution.dfy` holds the execution channel. It is a class that records every statement it receives and answers with a reply function supplied when it is built.
- `pagination.dfy` holds the `Paginator` value and its page arithmetic.
- `clauses.dfy` holds the clause state of a builder as a value. It has a function per chain method, the guard of each statement kind, compilation, and chains of calls.
- `terminals.dfy` holds each terminal method as a function. Each gives the callback's result, the builder's new state and the statements sent.
- `query.dfy` holds the `Query` class itself. Its fields are the builder's fields, and its methods update them in place, with loops where the source loops. Each method is proved against the functions of `clauses.dfy` and `terminals.dfy`.
- `clause_laws.dfy`, `terminal_laws.dfy` and `placeholders.dfy` hold what the builder promises, proved over those functions. `placeholders.dfy` proves a result about the first terminal call after any chain of calls on a fresh builder: every statement it sends binds one value per placeholder, and each call's values sit at the positions of that call's own placeholders. This needs the caller's table, field, comparison and key text to hold no `?`, and every raw fragment to hold one `?` per value. A second terminal call on the same builder is not covered, because the bound values are never reset.

The model follows the code where the code and its documented intent differ:

- `limit` checks the limit text but appends ` LIMIT n` to the order text. A second `limit` therefore succeeds, and `orderBy` after `limit` fails.
- `only` is rejected only when the select text is longer than one character. An `only()` with an empty list does not lock it.
- The count query of `getPaginated` keeps the builder's `ORDER BY`. It clears only the limit and offset text.
- `_queryData` is never reset. A second terminal call on one builder sends the old values again.

## Model

| member | source | states |
|---|---|---|
| QueryBuilder.Query.constructor | lib/query.js:21-80 | a new builder selects `*` from its table, has empty clause text and no bound values, and keeps its channel |
| QueryBuilder.Query.CountCopy | lib/query.js:605-607 | the count builder has the same channel and clauses as the original, with the limit and offset text cleared |
| QueryBuilder.Query.Where | lib/query.js:90-97 | appends ` AND <field> <comparison> ?` and pushes the value; the field is qualified with the table unless dotted |
| QueryBuilder.Query.WhereRaw | lib/query.js:106-113 | appends the raw fragment and pushes each value in order (loop with invariant) |
| QueryBuilder.Query.WhereIn | lib/query.js:122-135 | pushes each value and writes one `?` per value in `IN (…)` (loop with invariant) |
| QueryBuilder.Query.Join | lib/query.js:147-151 | appends ` <KIND> JOIN <other> ON <table>.<local> <cmp> <other>.<remote>`, `=` when no comparison is given |
| QueryBuilder.Query.LeftJoin | lib/query.js:162-164 | a join of kind LEFT |
| QueryBuilder.Query.RightJoin | lib/query.js:175-177 | a join of kind RIGHT |
| QueryBuilder.Query.InnerJoin | lib/query.js:188-190 | a join of kind INNER |
| QueryBuilder.Query.Only | lib/query.js:198-204 | fails with "Fields could be set only once" when the select text is longer than one character and leaves the builder unchanged; otherwise sets it to the joined fields |
| QueryBuilder.Query.Like | lib/query.js:213-216 | a `where` with comparison ` LIKE` |
| QueryBuilder.Query.OrderBy | lib/query.js:225-235 | rejects a direction other than ASC/DESC in any case, then a second order; otherwise appends ` ORDER BY <table>.<field> <DIR>` |
| QueryBuilder.Query.Limit | lib/query.js:243-252 | rejects a non-number, then a non-empty limit text; otherwise appends ` LIMIT n` to the order text |
| QueryBuilder.Query.Offset | lib/query.js:260-269 | rejects a non-number, then a second offset; otherwise sets ` OFFSET n` |
| QueryBuilder.Query.CreateInsertQuery | lib/query.js:431-441 | on a guard failure the builder is unchanged and the error names the clause; otherwise the INSERT text and the values are appended |
| QueryBuilder.Query.CreateUpdateQuery | lib/query.js:447-456 | as the compile step for UPDATE: guard, then text, then update values followed by condition values |
| QueryBuilder.Query.CreateDeleteQuery | lib/query.js:462-469 | as the compile step for DELETE: guard, then text, then the condition values |
| QueryBuilder.Query.CreateSelectQuery | lib/query.js:475-483 | a SELECT always compiles; the text and condition values are appended |
| QueryBuilder.Query.Get | lib/query.js:490-493 | the SELECT statement is sent to the channel, and the callback receives the channel's reply unchanged |
| QueryBuilder.Query.GetFirst | lib/query.js:544-551 | applies `limit(1)`, sends the SELECT, and gives the first row or none |
| QueryBuilder.Query.Find | lib/query.js:516-522 | adds `where('id', '=', id)`, then behaves as `getFirst` |
| QueryBuilder.Query.GetCount | lib/query.js:572-578 | sets the select text to ` COUNT (*)`, sends the SELECT, and gives the `COUNT (*)` cell of the first row |
| QueryBuilder.Query.StageInsert | lib/query.js:279-290 | one `field=?` fragment and one value per field, in order; with the duplicate-key update the values are bound again and the fragment text copied |
| QueryBuilder.Query.Create | lib/query.js:278-293 | stages `field=?` fragments and values (twice with the duplicate-key update), then compiles and sends; a guard failure sends nothing |
| QueryBuilder.Query.StageUpdate | lib/query.js:319-328 | one qualified `field=?` fragment and one value per field, in order |
| QueryBuilder.Query.Update | lib/query.js:318-331 | stages qualified `field=?` fragments and values, then compiles and sends; a guard failure sends nothing |
| QueryBuilder.Query.Delete | lib/query.js:353-356 | compiles the DELETE and sends it; a guard failure sends nothing |
| QueryBuilder.Query.GetPaginated | lib/query.js:601-625 | a zero size fails at once; otherwise counts on a copy, then fetches the page on the builder itself |
| QueryBuilder.Query.FetchPage | lib/query.js:608-624 | the count callback: `offset(size*(page-1))`, `limit(size)`, `get`, then a paginator of count, size, page and rows |
| Execution.Channel.Query | lib/query.js:492 | the channel logs the statement and answers with the reply for its position |
| Clauses.Compile | lib/query.js:431-483 | fails exactly when the guard finds a forbidden clause, with the guard's message |
| Clauses.Check | lib/query.js:376-425 | SELECT is never refused; any clause a guard reports is one its kind forbids and the state carries |
| Clauses.GuardMatrix | lib/query.js:376-425 | each guard rejects exactly the states that carry a clause its kind forbids, and names one of them |
| Clauses.CompileChangesOnlyQuery | lib/query.js:431-483 | compilation changes only the query text and extends the bound values |
| Terminals.Execute | lib/query.js:490-493 | at most one statement is sent; none exactly when the guard fails, and then the state is unchanged and the error is the guard's |
| SqlText.PlaceholdersCount | lib/query.js:124-129 | the `?, ?, …` list for n values holds exactly n placeholders and is empty for none |
| SqlText.DigitsRoundTrip | lib/query.js:250 | the printed digits of a count read back as the same number |
| SqlText.Decimal | lib/query.js:250 | a printed integer holds no `?` |
| SqlText.UpperAsciiMatches | lib/query.js:226-227 | the upper-cased direction equals ASC/DESC exactly when the input spells it in any case |
| ClauseLaws.QualifyPrefixesOnce | lib/query.js:91-93 | an undotted field gets the table and a `.` in front, the only `.` when the table has none; a dotted field is kept |
| ClauseLaws.WhereOnlyAppends | lib/query.js:90-97 | `where` extends the condition text and values and changes nothing else |
| ClauseLaws.LikeIsWhere | lib/query.js:213-216 | `like` is `where` with ` LIKE`, which leaves two spaces before the keyword |
| ClauseLaws.WhereRawOnlyAppends | lib/query.js:106-113 | the raw values follow the earlier ones in order, and nothing else changes |
| ClauseLaws.WhereInBindsEachValue | lib/query.js:122-135 | the list's values are bound in order after the earlier ones, the text gets ` AND <field> IN (?, …)`, and an empty list writes `IN ()` |
| ClauseLaws.JoinOnlyAppends | lib/query.js:147-151 | a join strictly extends the join text and changes nothing else |
| ClauseLaws.JoinDefaultsToEquals | lib/query.js:148 | a missing comparison is `=` |
| ClauseLaws.OnlyOnFreshBuilder | lib/query.js:198-204 | `only` on a fresh builder sets the select text to the joined fields |
| ClauseLaws.OnlyTwice | lib/query.js:198-204 | a second `only` fails exactly when the first wrote a non-empty list |
| ClauseLaws.OrderByValidatesDirectionFirst | lib/query.js:225-229 | "Invalid order value" exactly for directions that are not ASC/DESC in some case, even when an order exists |
| ClauseLaws.OrderByTwiceFails | lib/query.js:230-232 | a second valid `orderBy` always fails |
| ClauseLaws.OrderByDottedField | lib/query.js:233 | the order names the builder's table even before a dotted field, and the direction is upper-cased |
| ClauseLaws.LimitTwiceSucceeds | lib/query.js:247-250 | `limit` writes into the order text, so a second `limit` succeeds and appends again |
| ClauseLaws.LimitThenOrderByFails | lib/query.js:230-250 | after `limit`, `orderBy` reports that the order was already set |
| ClauseLaws.LimitBlamesOrderBy | lib/query.js:376-425 | after `limit`, INSERT, UPDATE and DELETE are rejected in the name of `orderBy` |
| ClauseLaws.ChainLeavesLimitText | lib/query.js:90-269 | no chain method changes the limit text |
| ClauseLaws.LimitNeverRejectedTwice | lib/query.js:247-249 | from a fresh builder, "Limit could be set only once" is never reported |
| ClauseLaws.RunLeavesLimitText | lib/query.js:90-269 | a chain of calls keeps the limit text |
| ClauseLaws.OffsetTwiceFails | lib/query.js:264-266 | a second `offset` with a number always fails |
| Placeholders.CompileBalanced | lib/query.js:431-483 | compiled text of a clean state holds one `?` per newly bound value |
| Placeholders.SelectBalanced | lib/query.js:475-483 | the SELECT text holds one `?` per condition value |
| Placeholders.InsertBalanced | lib/query.js:431-441 | the INSERT text holds one `?` per insert value, plus one per duplicate-key value when that part is written |
| Placeholders.UpdateBalanced | lib/query.js:447-456 | the UPDATE text holds one `?` per update value and condition value |
| Placeholders.DeleteBalanced | lib/query.js:462-469 | the DELETE text holds one `?` per condition value |
| Placeholders.QualifyMarks | lib/query.js:91-93 | qualifying a field adds no placeholder |
| Placeholders.WhereMarks | lib/query.js:90-97 | `where` adds exactly one placeholder |
| Placeholders.WhereRawMarks | lib/query.js:106-113 | `whereRaw` adds the placeholders of its fragment |
| Placeholders.WhereInMarks | lib/query.js:122-135 | `whereIn` adds one placeholder per value |
| Placeholders.JoinMarks | lib/query.js:147-151 | a join adds no placeholder |
| Placeholders.OnlyMarks | lib/query.js:198-204 | `only` writes no placeholder |
| Placeholders.OrderByMarks | lib/query.js:225-235 | `orderBy` writes no placeholder |
| Placeholders.LimitMarks | lib/query.js:243-252 | `limit` writes no placeholder |
| Placeholders.OffsetMarks | lib/query.js:260-269 | `offset` writes no placeholder |
| Placeholders.ApplyKeepsClean | lib/query.js:90-269 | each chain method keeps text and values in step and stages nothing |
| Placeholders.RunKeepsClean | lib/query.js:90-269 | any chain of calls keeps text and values in step |
| Placeholders.ApplyBindsInPlace | lib/query.js:90-269 | a call keeps the earlier condition text and values as prefixes, and appends one `?` per value it appends |
| Placeholders.RunExtendsConditions | lib/query.js:90-269 | a chain of calls keeps the condition text and values it started from as prefixes |
| Placeholders.ConditionsAlignAtEveryCall | lib/query.js:90-135 | at every call boundary the condition text and values so far are prefixes of the final ones with equal counts, so each call's values line up with its own `?` |
| Placeholders.UpdateBindsSetFirst | lib/query.js:447-456 | the UPDATE text puts the SET placeholders before the condition placeholders, as its parameters put the new values before the condition values |
| Placeholders.InsertBindsDuplicatesLast | lib/query.js:431-441 | the INSERT text puts the insert placeholders before the duplicate-key ones, in the order of its parameters |
| Placeholders.StageInsertKeepsClean | lib/query.js:278-290 | staging by `create` writes one `?` per staged value |
| Placeholders.StageUpdateKeepsClean | lib/query.js:318-328 | staging by `update` writes one `?` per staged value |
| Placeholders.ExecuteBalanced | lib/query.js:490-493 | the statement sent from a clean, not yet compiled state is balanced |
| Placeholders.ReadsBalanced | lib/query.js:490-578 | `get`, `getFirst`, `find` and `getCount` send balanced statements |
| Placeholders.WritesBalanced | lib/query.js:278-356 | `create`, `update` and `delete` send balanced statements |
| Placeholders.FetchPageBalanced | lib/query.js:608-624 | the page query of `getPaginated` is balanced |
| Placeholders.PaginatedBalanced | lib/query.js:601-625 | both statements of `getPaginated` are balanced |
| Placeholders.StatementsBalanced | lib/query.js:90-625 | after any chain of calls on a fresh builder, the first terminal call, whichever of the eight it is, sends one parameter per placeholder, provided the caller's text holds no stray `?` |
| TerminalLaws.StagingKeepsGuards | lib/query.js:278-331 | staging by `create`/`update` never changes a guard's verdict |
| TerminalLaws.TerminalGuards | lib/query.js:376-425 | `get` always sends; `create`, `update` and `delete` send nothing exactly when a forbidden clause is present, and then keep the staged state and report that clause |
| TerminalLaws.InsertPartsJoinEmpty | lib/query.js:280-284 | the staged insert text is empty exactly when there are no fields |
| TerminalLaws.ReadParameters | lib/query.js:475-493 | a SELECT or DELETE binds exactly the condition values |
| TerminalLaws.UpdateParameters | lib/query.js:447-456 | an UPDATE binds the new values in order, then the condition values |
| TerminalLaws.CreateParameters | lib/query.js:431-441 | an INSERT binds its values, and binds them again for the duplicate-key update when asked and non-empty |
| TerminalLaws.SecondGetRepeatsParameters | lib/query.js:481 | a second `get` on one builder sends the condition values twice, and is then unbalanced |
| TerminalLaws.DecimalOne | lib/query.js:545 | the limit written by `getFirst` is the text `1` |
| TerminalLaws.GetFirstForcesLimitOne | lib/query.js:544-551 | `getFirst` sends ` LIMIT 1` after the order and gives the first row or none |
| TerminalLaws.FindFiltersById | lib/query.js:516-522 | `find` adds ` AND <table>.id = ?` with the id as last parameter, then behaves as `getFirst` |
| TerminalLaws.GetCountOverwritesSelect | lib/query.js:572-578 | `getCount` replaces the select text without a check and reads the `COUNT (*)` cell |
| TerminalLaws.PaginatedRequiresSize | lib/query.js:602 | a zero size fails with "Limit is required" and sends nothing |
| TerminalLaws.PaginatedCountsFirst | lib/query.js:605-609 | the first statement counts with limit and offset cleared and order kept; a failed count leaves the builder as it was |
| TerminalLaws.PaginatedFetchesPage | lib/query.js:603-624 | the page is fetched with offset `size*(page-1)`, page 1 for a missing page, and limit `size`, and the paginator holds count, size, page and rows |
| TerminalLaws.PaginatedAfterOffsetFails | lib/query.js:605-610 | with an offset already set, the count is sent and then the page's `offset` fails |
| TerminalLaws.FiveRowsSecondPage | lib/query.js:601-625 | five rows, pages of two, page 2: three pages, next page 3, previous page 1 |
| Pagination.CountInPage | lib/paginator.js:36-38 | reports the page size, not the number of items on the page |
| Pagination.Items | lib/paginator.js:68-70 | the items the paginator was built from |
| Pagination.CurrentPage | lib/paginator.js:76-78 | the page the paginator was built for |
| Pagination.FirstPage | lib/paginator.js:52-54 | pages are numbered from 1 |
| Pagination.LastPage | lib/paginator.js:60-62 | the page count; for a positive size, the page holding the last row |
| Pagination.PrevPage | lib/paginator.js:83-89 | a previous page exactly after page 1, one less than the current page |
| Pagination.NextPage | lib/paginator.js:94-101 | a next page exactly before the page count, one more than the current page and at most the count |
| Pagination.GettersReturnStored | lib/paginator.js:25-78 | the getters return the count, size, page and items the paginator was built from |
| Pagination.TotalPages | lib/paginator.js:44-46 | the total is the ceiling of count over size: enough pages for all rows, one fewer is not enough |
| Pagination.TotalPagesIsLeast | lib/paginator.js:44-46 | no smaller page count holds all rows |
| Pagination.TotalPagesSign | lib/paginator.js:44-46 | no rows gives no pages, and some rows give at least one |
| Pagination.NextPageBounds | lib/paginator.js:94-101 | there is a next page exactly before the last page, and it lies within range |
| Pagination.PrevPageBounds | lib/paginator.js:83-89 | there is a previous page exactly after page 1, and it is at least 1 |
| Pagination.NextPrevInverse | lib/paginator.js:83-101 | forward then back, and back then forward, return to the page one started from |
| Pagination.FiveRowsPagesOfTwo | lib/paginator.js:44-101 | five rows in pages of two at page 2: three pages, next 3, previous 1 |

## Left out

- The database connection and `index.js`, which opens and caches it, are not part of this model. The channel is a parameter that records statements and answers with a supplied reply function.
- The promise wrappers (`createAsync` … `getPaginatedAsync`) only forward to the callback methods and are not modelled. `deleteAsync` never settles on success, because its callback returns the data instead of resolving. This is not represented.
- Thrown errors are modelled as `Err` results. A callback-delivered error is `Err(Execution(..))`. The builder's state at the throw is the state the model returns.
- Three errors are thrown inside the channel's callback: `offset` and `limit` in the count callback of `getPaginated` (lib/query.js:610-611), and reading `COUNT (*)` from an empty reply (lib/query.js:576). In JavaScript they escape, and the caller's callback is never called. The model returns them as the terminal's result.
- QueryBuilder.Query.Limit: `parseInt` accepts strings and floats and the text is written as passed. The model takes an integer, or `NaN` for anything `parseInt` rejects, and prints it in decimal.
- QueryBuilder.Query.Offset: the same restriction as `limit`.
- QueryBuilder.Query.OrderBy: `String(order).toUpperCase()` is modelled on ASCII letters only; non-ASCII case mappings are not modelled.
- QueryBuilder.Query.Create: `for … in` key order of the data object (lib/query.js:280) is the order of the given pairs; duplicate keys are not excluded.
- QueryBuilder.Query.Update: the same holds for its `for … in` loop (lib/query.js:320).
- QueryBuilder.Query.CountCopy: `Object.create` prototype delegation is modelled as a structural copy. Later writes through the prototype are therefore not seen by the copy.
- Missing arguments are written as values: an empty comparison for joins, an empty list for `whereRaw`/`whereIn`, and 0 for a missing page or size.
- `_queryStr` starts as `null`; the model starts it as the empty string, which no guard or compilation reads.
- Terminals.MakePage: a count cell that is not an integer (undefined, or a metadata reply) is reported as a fault instead of building a paginator from it.
- Pagination.TotalPages: `Math.ceil` over floating point is modelled as integer ceiling, and a zero page size (an infinite or NaN total in JavaScript) is excluded by its precondition.
- Concurrent writers between the count query and the page query, and concurrent terminal calls on one builder, are not modelled.
