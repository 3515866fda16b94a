/**
 * What each terminal method of `Query` does, as a value: the result it delivers to its callback,
 * the builder's state afterwards, and the statements it hands to the channel. `respond` is the
 * channel's reply to its k-th statement; `n` is how many statements the channel had received before.
 */
module Terminals {
  import opened Results
  import opened SqlText
  import opened Execution
  import opened Clauses
  import opened Pagination

  datatype Trace<T> = Trace(result: Outcome<T>, state: State, sent: seq<Statement>)

  /** The callback sees the channel's data, or its error unchanged. */
  function Forward(reply: Reply): Outcome<Data>
  {
    match reply
    case Answer(d) => Ok(d)
    case Failure(m) => Err(Execution(m))
  }

  /** The statement a successful compilation leaves in `_queryStr`/`_queryData`. */
  function Compiled(t: State): Statement
  {
    Statement(t.queryStr, t.queryData)
  }

  /** Guard and compile a statement of the given kind, then send it (as `_builder.query` does). */
  function Execute(kind: Kind, s: State, n: nat, respond: (nat, Statement) -> Reply): (r: Trace<Data>)
    ensures |r.sent| <= 1
    ensures r.sent == [] <==> Check(kind, s).Some?
    ensures r.sent == [] ==> r.state == s && r.result == Err(GuardError(kind, Check(kind, s).value))
    ensures r.sent != [] ==>
      r.sent[0] == Statement(Sql(kind, s), s.queryData + NewParams(kind, s))
      && r.result == Forward(respond(n, r.sent[0]))
  {
    match Compile(kind, s)
    case Err(e) => Trace(Err(e), s, [])
    case Ok(t) => Trace(Forward(respond(n, Compiled(t))), t, [Compiled(t)])
  }

  function Get(s: State, n: nat, respond: (nat, Statement) -> Reply): Trace<Data>
  {
    Execute(SelectStmt, s, n, respond)
  }

  function Create(s: State, pairs: seq<(string, Value)>, withUpdate: bool, n: nat,
                  respond: (nat, Statement) -> Reply): Trace<Data>
  {
    Execute(InsertStmt, StageInsert(s, pairs, withUpdate), n, respond)
  }

  function Update(s: State, pairs: seq<(string, Value)>, n: nat, respond: (nat, Statement) -> Reply): Trace<Data>
  {
    Execute(UpdateStmt, StageUpdate(s, pairs), n, respond)
  }

  function Delete(s: State, n: nat, respond: (nat, Statement) -> Reply): Trace<Data>
  {
    Execute(DeleteStmt, s, n, respond)
  }

  /** `data.length > 0 ? data[0] : null`; metadata has no length, so it gives null too. */
  function FirstRow(d: Data): Option<Row>
  {
    if d.Rows? && |d.rows| > 0 then Some(d.rows[0]) else None
  }

  function GetFirst(s: State, n: nat, respond: (nat, Statement) -> Reply): Trace<Option<Row>>
  {
    match Limit(s, Number(1))
    case Err(e) => Trace(Err(e), s, [])
    case Ok(s1) =>
      var t := Get(s1, n, respond);
      Trace(if t.result.Ok? then Ok(FirstRow(t.result.value)) else Err(t.result.error), t.state, t.sent)
  }

  function Find(s: State, id: Value, n: nat, respond: (nat, Statement) -> Reply): Trace<Option<Row>>
  {
    GetFirst(Where(s, "id", "=", id), n, respond)
  }

  const CountColumn := "COUNT (*)"
  const CountSelect := " COUNT (*)"

  /** `data[0]['COUNT (*)']`: a type error when there is no first row, undefined when the column is absent. */
  function CountCell(d: Data): Outcome<Value>
  {
    if d.Rows? && |d.rows| > 0 then
      Ok(if CountColumn in d.rows[0] then d.rows[0][CountColumn] else Undefined)
    else
      Err(Fault("Cannot read properties of undefined (reading 'COUNT (*)')"))
  }

  function GetCount(s: State, n: nat, respond: (nat, Statement) -> Reply): Trace<Value>
  {
    var t := Get(s.(select := CountSelect), n, respond);
    Trace(if t.result.Ok? then CountCell(t.result.value) else Err(t.result.error), t.state, t.sent)
  }

  /** The count builder of `getPaginated`: the same clauses with limit and offset text cleared. */
  function CountCopy(s: State): State
  {
    s.(limitStr := "", offsetStr := "")
  }

  /** A missing (falsy) page number means page 1. */
  function PageOf(page: int): int
  {
    if page == 0 then 1 else page
  }

  function MakePage(cell: Value, size: int, page: int, got: Outcome<Data>): Outcome<Paginator<Data>>
  {
    match got
    case Err(e) => Err(e)
    case Ok(d) => if cell.Int? then Ok(Paginator(cell.i, size, page, d)) else Err(Fault("count is not a number"))
  }

  /**
   * The count callback of `getPaginated`: on the original builder, `offset(size * (page - 1))`,
   * then `limit(size)`, then `get`, and the paginator built from the count and the rows.
   */
  function FetchPage(s: State, cell: Value, size: int, page: int, n: nat, respond: (nat, Statement) -> Reply)
    : Trace<Paginator<Data>>
  {
    match Offset(s, Number(size * (page - 1)))
    case Err(e) => Trace(Err(e), s, [])
    case Ok(s1) =>
      match Limit(s1, Number(size))
      case Err(e) => Trace(Err(e), s1, [])
      case Ok(s2) =>
        var got := Get(s2, n, respond);
        Trace(MakePage(cell, size, page, got.result), got.state, got.sent)
  }

  /**
   * `getPaginated(size, page)`; a missing size or page is written 0 (both are falsy). The count
   * query runs on a copy of the builder; the original builder then fetches the page.
   */
  function GetPaginated(s: State, size: int, page: int, n: nat, respond: (nat, Statement) -> Reply)
    : Trace<Paginator<Data>>
  {
    if size == 0 then Trace(Err(Invalid("Limit is required")), s, [])
    else
      var counted := GetCount(CountCopy(s), n, respond);
      if counted.result.Err? then Trace(Err(counted.result.error), s, counted.sent)
      else
        var fetched := FetchPage(s, counted.result.value, size, PageOf(page), n + |counted.sent|, respond);
        Trace(fetched.result, fetched.state, counted.sent + fetched.sent)
  }
}
