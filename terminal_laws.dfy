/**
 * What the terminal methods of `Query` promise: which statements reach the channel and with
 * which parameters, what `getFirst`, `find` and `getCount` make of the reply, and how
 * `getPaginated` counts on a copy of the builder before it fetches the page.
 */
module TerminalLaws {
  import opened Results
  import opened SqlText
  import opened Execution
  import opened Clauses
  import opened Pagination
  import opened Terminals
  import opened Placeholders

  // ---------------------------------------------------------------- guards

  /** `create` and `update` stage their data without touching any clause the guards look at. */
  lemma StagingKeepsGuards(kind: Kind, s: State, pairs: seq<(string, Value)>, withUpdate: bool)
    ensures Check(kind, StageInsert(s, pairs, withUpdate)) == Check(kind, s)
    ensures Check(kind, StageUpdate(s, pairs)) == Check(kind, s)
  {
  }

  /**
   * A SELECT is always sent. Any other statement is sent exactly when the builder holds none of
   * the clauses its kind forbids; otherwise nothing reaches the channel, the callback gets the
   * guard's error naming a forbidden clause that is present, and the builder keeps its state
   * (including what `create` or `update` staged before compiling).
   */
  lemma TerminalGuards(s: State, pairs: seq<(string, Value)>, withUpdate: bool, n: nat,
                       respond: (nat, Statement) -> Reply)
    ensures |Get(s, n, respond).sent| == 1
    ensures Create(s, pairs, withUpdate, n, respond).sent == [] <==> Forbidden(InsertStmt) * Present(s) != {}
    ensures Update(s, pairs, n, respond).sent == [] <==> Forbidden(UpdateStmt) * Present(s) != {}
    ensures Delete(s, n, respond).sent == [] <==> Forbidden(DeleteStmt) * Present(s) != {}
    ensures var t := Create(s, pairs, withUpdate, n, respond);
      t.sent == [] ==>
        (t.state == StageInsert(s, pairs, withUpdate)
         && exists c | c in Forbidden(InsertStmt) * Present(s) :: t.result == Err(GuardError(InsertStmt, c)))
    ensures var t := Update(s, pairs, n, respond);
      t.sent == [] ==>
        (t.state == StageUpdate(s, pairs)
         && exists c | c in Forbidden(UpdateStmt) * Present(s) :: t.result == Err(GuardError(UpdateStmt, c)))
    ensures var t := Delete(s, n, respond);
      t.sent == [] ==>
        (t.state == s
         && exists c | c in Forbidden(DeleteStmt) * Present(s) :: t.result == Err(GuardError(DeleteStmt, c)))
  {
    GuardMatrix(SelectStmt, s);
    StagingKeepsGuards(InsertStmt, s, pairs, withUpdate);
    GuardMatrix(InsertStmt, s);
    StagingKeepsGuards(UpdateStmt, s, pairs, withUpdate);
    GuardMatrix(UpdateStmt, s);
    GuardMatrix(DeleteStmt, s);
  }

  // ---------------------------------------------------------------- parameters

  lemma InsertPartsJoinEmpty(pairs: seq<(string, Value)>)
    ensures JoinWith(InsertParts(pairs), ", ") == "" <==> pairs == []
  {
    var parts := InsertParts(pairs);
    if pairs != [] {
      assert |parts[0]| > 0;
      if |parts| > 1 {
        assert JoinWith(parts, ", ") == parts[0] + ", " + JoinWith(parts[1..], ", ");
      }
    }
  }

  /** A SELECT or a DELETE binds the condition values. */
  lemma ReadParameters(s: State, n: nat, respond: (nat, Statement) -> Reply)
    requires s.queryData == []
    ensures Get(s, n, respond).sent[0].params == s.whereData
    ensures Delete(s, n, respond).sent != [] ==> Delete(s, n, respond).sent[0].params == s.whereData
  {
  }

  /** An UPDATE binds the new values, in the order given, then the condition values. */
  lemma UpdateParameters(s: State, pairs: seq<(string, Value)>, n: nat, respond: (nat, Statement) -> Reply)
    requires NothingStaged(s)
    ensures Update(s, pairs, n, respond).sent != [] ==>
      Update(s, pairs, n, respond).sent[0].params == ValuesOf(pairs) + s.whereData
  {
  }

  /**
   * An INSERT binds its values, and binds them a second time for `ON DUPLICATE KEY UPDATE` when
   * asked to and there is at least one field.
   */
  lemma CreateParameters(s: State, pairs: seq<(string, Value)>, withUpdate: bool, n: nat,
                         respond: (nat, Statement) -> Reply)
    requires NothingStaged(s)
    ensures Create(s, pairs, withUpdate, n, respond).sent != [] ==>
      Create(s, pairs, withUpdate, n, respond).sent[0].params
        == (if withUpdate && pairs != [] then ValuesOf(pairs) + ValuesOf(pairs) else ValuesOf(pairs))
  {
    InsertPartsJoinEmpty(pairs);
    var t := StageInsert(s, pairs, withUpdate);
    assert |t.dupStr| > 0 <==> withUpdate && pairs != [];
    assert NewParams(InsertStmt, t)
        == (if withUpdate && pairs != [] then ValuesOf(pairs) + ValuesOf(pairs) else ValuesOf(pairs));
  }

  /**
   * `_queryData` is never reset: a second terminal call on the same builder sends the condition
   * values again after the ones it already sent, so its statement carries more parameters than
   * placeholders as soon as there is a condition value.
   */
  lemma SecondGetRepeatsParameters(s: State, n: nat, respond: (nat, Statement) -> Reply)
    ensures var first := Get(s, n, respond);
      var second := Get(first.state, n + 1, respond);
      second.sent[0].params == s.queryData + s.whereData + s.whereData
    ensures var first := Get(s, n, respond);
      Clean(s) && s.queryData == [] && s.whereData != [] ==> !Balanced(Get(first.state, n + 1, respond).sent)
  {
    var first := Get(s, n, respond);
    var second := Get(first.state, n + 1, respond);
    if Clean(s) && s.queryData == [] && s.whereData != [] {
      SelectBalanced(first.state);
      assert Marks(second.sent[0].sql) == |s.whereData|;
    }
  }

  // ---------------------------------------------------------------- getFirst, find, getCount

  /** `Decimal(1)` is the text `1`. */
  lemma DecimalOne()
    ensures Decimal(1) == "1"
  {
    assert Digits(1) == [DigitChar(1)];
  }

  /**
   * `getFirst` sends the SELECT with ` LIMIT 1` added to the order text, and gives the first row,
   * or null when the reply holds no row.
   */
  lemma GetFirstForcesLimitOne(s: State, n: nat, respond: (nat, Statement) -> Reply)
    requires s.limitStr == ""
    ensures var t := GetFirst(s, n, respond);
      t.sent == [Statement(SelectSql(s.(order := s.order + " LIMIT 1")), s.queryData + s.whereData)]
    ensures var t := GetFirst(s, n, respond);
      match respond(n, t.sent[0])
      case Failure(m) => t.result == Err(Execution(m))
      case Answer(Rows(rows)) => t.result == Ok(if rows == [] then None else Some(rows[0]))
      case Answer(Info(_)) => t.result == Ok(None)
  {
    DecimalOne();
    var s1 := s.(order := s.order + " LIMIT 1");
    assert " LIMIT " + Decimal(1) == " LIMIT 1";
    assert s.order + " LIMIT " + Decimal(1) == s.order + " LIMIT 1";
    assert Limit(s, Number(1)) == Ok(s1);
    assert Get(s1, n, respond).sent == [Statement(Sql(SelectStmt, s1), s1.queryData + NewParams(SelectStmt, s1))];
  }

  /** `find(id)` filters on the table's `id` column and then behaves as `getFirst`. */
  lemma FindFiltersById(s: State, id: Value, n: nat, respond: (nat, Statement) -> Reply)
    requires s.limitStr == ""
    ensures var t := Find(s, id, n, respond);
      t.sent == [Statement(SelectSql(s.(whereStr := s.whereStr + " AND " + s.table + ".id = ?",
                                         order := s.order + " LIMIT 1")),
                           s.queryData + s.whereData + [id])]
  {
    DecimalOne();
    var w := Where(s, "id", "=", id);
    assert Qualify(s.table, "id") == s.table + ".id";
    assert s.table + "." + "id" == s.table + ".id";
    assert w.whereStr == s.whereStr + " AND " + s.table + ".id = ?" by {
      assert " " + "=" + " ?" == " = ?";
    }
    GetFirstForcesLimitOne(w, n, respond);
    assert SelectSql(w.(order := w.order + " LIMIT 1"))
        == SelectSql(s.(whereStr := s.whereStr + " AND " + s.table + ".id = ?", order := s.order + " LIMIT 1"));
    assert w.queryData + w.whereData == s.queryData + s.whereData + [id];
    assert Find(s, id, n, respond) == GetFirst(w, n, respond);
  }

  /**
   * `getCount` overwrites the select list with ` COUNT (*)` without any set-once check, and gives
   * the `COUNT (*)` cell of the first row (undefined when the column is absent).
   */
  lemma GetCountOverwritesSelect(s: State, n: nat, respond: (nat, Statement) -> Reply)
    ensures var t := GetCount(s, n, respond);
      && t.sent == [Statement(SelectSql(s.(select := " COUNT (*)")), s.queryData + s.whereData)]
      && t.state.select == " COUNT (*)"
    ensures var t := GetCount(s, n, respond);
      match respond(n, t.sent[0])
      case Failure(m) => t.result == Err(Execution(m))
      case Answer(d) =>
        (d.Rows? && d.rows != [] && CountColumn in d.rows[0] ==> t.result == Ok(d.rows[0][CountColumn]))
        && (d.Rows? && d.rows != [] && CountColumn !in d.rows[0] ==> t.result == Ok(Undefined))
        && (d.Info? || d.rows == [] ==> t.result.Err?)
  {
  }

  // ---------------------------------------------------------------- getPaginated

  /** A missing or zero page size fails at once and sends nothing. */
  lemma PaginatedRequiresSize(s: State, page: int, n: nat, respond: (nat, Statement) -> Reply)
    ensures GetPaginated(s, 0, page, n, respond) == Trace(Err(Invalid("Limit is required")), s, [])
  {
  }

  /** The statement `getPaginated` counts with: the builder's clauses, limit and offset cleared. */
  function CountStatement(s: State): Statement
  {
    Statement(SelectSql(s.(select := CountSelect, limitStr := "", offsetStr := "")), s.queryData + s.whereData)
  }

  /** The page state: the builder with `offset(size * (page - 1))` and then `limit(size)` applied. */
  function PageState(s: State, size: int, page: int): State
  {
    s.(offsetStr := s.offsetStr + " OFFSET " + Decimal(size * (PageOf(page) - 1)),
       order := s.order + " LIMIT " + Decimal(size))
  }

  /**
   * The first statement counts the rows the builder's clauses select, with its limit and offset
   * cleared but its order kept. If the count fails, the original builder is left as it was and
   * nothing more is sent.
   */
  lemma PaginatedCountsFirst(s: State, size: int, page: int, n: nat, respond: (nat, Statement) -> Reply)
    requires size != 0
    ensures var t := GetPaginated(s, size, page, n, respond);
      1 <= |t.sent| <= 2 && t.sent[0] == CountStatement(s)
    ensures var t := GetPaginated(s, size, page, n, respond);
      respond(n, CountStatement(s)).Failure? ==>
        t == Trace(Err(Execution(respond(n, CountStatement(s)).message)), s, [CountStatement(s)])
  {
    assert CountCopy(s).(select := CountSelect) == s.(select := CountSelect, limitStr := "", offsetStr := "");
  }

  /**
   * When the count succeeds with a number and the builder had no limit or offset yet, the second
   * statement fetches the page: the offset is `size * (page - 1)` with page 1 for a missing page,
   * the limit is `size`, and the paginator holds the count, the size, the page and the rows.
   */
  lemma PaginatedFetchesPage(s: State, size: int, page: int, n: nat, respond: (nat, Statement) -> Reply,
                             rows: seq<Row>, count: int)
    requires size != 0 && s.limitStr == "" && s.offsetStr == ""
    requires respond(n, CountStatement(s)) == Answer(Rows(rows))
    requires rows != [] && CountColumn in rows[0] && rows[0][CountColumn] == Int(count)
    ensures var t := GetPaginated(s, size, page, n, respond);
      && |t.sent| == 2
      && t.sent[1] == Statement(SelectSql(PageState(s, size, page)), s.queryData + s.whereData)
      && t.state == PageState(s, size, page).(queryStr := t.sent[1].sql, queryData := t.sent[1].params)
    ensures var t := GetPaginated(s, size, page, n, respond);
      match respond(n + 1, t.sent[1])
      case Answer(d) => t.result == Ok(Paginator(count, size, PageOf(page), d))
      case Failure(m) => t.result == Err(Execution(m))
  {
    PaginatedCountsFirst(s, size, page, n, respond);
    var counted := GetCount(CountCopy(s), n, respond);
    assert counted.sent == [CountStatement(s)];
    assert counted.result == Ok(Int(count));
    var s1 := Offset(s, Number(size * (PageOf(page) - 1))).value;
    assert Limit(s1, Number(size)).value == PageState(s, size, page);
  }

  /**
   * On a builder that already has an offset, the count query is still sent, and then the page's
   * own `offset` call fails.
   */
  lemma PaginatedAfterOffsetFails(s: State, size: int, page: int, n: nat, respond: (nat, Statement) -> Reply,
                                  rows: seq<Row>, count: int)
    requires size != 0 && s.offsetStr != ""
    requires respond(n, CountStatement(s)) == Answer(Rows(rows))
    requires rows != [] && CountColumn in rows[0] && rows[0][CountColumn] == Int(count)
    ensures GetPaginated(s, size, page, n, respond)
         == Trace(Err(Invalid("Offset could be set only once")), s, [CountStatement(s)])
  {
    PaginatedCountsFirst(s, size, page, n, respond);
    assert GetCount(CountCopy(s), n, respond).result == Ok(Int(count));
  }

  /**
   * Five matching rows, pages of two, page 2: the paginator reports three pages, page 3 next and
   * page 1 before.
   */
  lemma FiveRowsSecondPage(s: State, n: nat, respond: (nat, Statement) -> Reply, rows: seq<Row>, d: Data)
    requires s.limitStr == "" && s.offsetStr == ""
    requires respond(n, CountStatement(s)) == Answer(Rows(rows))
    requires rows != [] && CountColumn in rows[0] && rows[0][CountColumn] == Int(5)
    requires respond(n + 1, Statement(SelectSql(PageState(s, 2, 2)), s.queryData + s.whereData)) == Answer(d)
    ensures var t := GetPaginated(s, 2, 2, n, respond);
      && t.result.Ok?
      && LastPage(t.result.value) == 3
      && NextPage(t.result.value) == Some(3)
      && PrevPage(t.result.value) == Some(1)
      && Items(t.result.value) == d
  {
    PaginatedFetchesPage(s, 2, 2, n, respond, rows, 5);
    FiveRowsPagesOfTwo(d);
  }
}
