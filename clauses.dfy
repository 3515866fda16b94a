/**
 * The clause state of a `Query` builder as a value, and what each chain method, each guard and
 * each compilation step does to it. The class in query.dfy is proved against these functions.
 */
module Clauses {
  import opened Results
  import opened SqlText

  /**
   * Every field of a builder. `whereStr`/`whereData` are `_where.str`/`_where.data`; `dupStr`/`dupData`
   * are `_insertOnDuplicateKeys`; `queryStr` is `_queryStr`, whose initial `null` is modelled by "".
   */
  datatype State = State(
    table: string,
    select: string,
    whereStr: string, whereData: seq<Value>,
    joins: string,
    order: string, limitStr: string, offsetStr: string,
    updateStr: string, updateData: seq<Value>,
    insertStr: string, insertData: seq<Value>,
    dupStr: string, dupData: seq<Value>,
    queryStr: string, queryData: seq<Value>)

  /** The state of a builder fresh from its constructor. */
  function Defaults(table: string): State
  {
    State(table, "*", "", [], "", "", "", "", "", [], "", [], "", [], "", [])
  }

  /** An argument to `limit`/`offset`: an integer, or something `parseInt` turns into NaN. */
  datatype Quantity = Number(n: int) | NaN

  datatype JoinKind = Left | Right | Inner

  function JoinWord(k: JoinKind): string
  {
    match k
    case Left => "LEFT"
    case Right => "RIGHT"
    case Inner => "INNER"
  }

  // ---------------------------------------------------------------- chain methods

  function Where(s: State, field: string, comparison: string, value: Value): State
  {
    s.(whereStr := s.whereStr + " AND " + Qualify(s.table, field) + " " + comparison + " ?",
       whereData := s.whereData + [value])
  }

  function WhereRaw(s: State, raw: string, data: seq<Value>): State
  {
    s.(whereStr := s.whereStr + " AND " + raw, whereData := s.whereData + data)
  }

  function WhereIn(s: State, field: string, values: seq<Value>): State
  {
    s.(whereStr := s.whereStr + " AND " + Qualify(s.table, field) + " IN (" + Placeholders(|values|) + ")",
       whereData := s.whereData + values)
  }

  /** The ` <KIND> JOIN <other> ON <table>.<local> <cmp> <other>.<remote>` text one join appends. */
  function JoinText(kind: JoinKind, other: string, table: string, localField: string, remoteField: string,
                      cmp: string): string
  {
    " " + JoinWord(kind) + " JOIN " + other + " ON " + table + "." + localField + " " + cmp + " " + other + "."
    + remoteField
  }

  /** A join; an empty comparison stands for the missing argument and becomes `=`. */
  function Join(s: State, kind: JoinKind, other: string, localField: string, remoteField: string,
                comparison: string): State
  {
    var cmp := if comparison == "" then "=" else comparison;
    s.(joins := s.joins + JoinText(kind, other, s.table, localField, remoteField, cmp))
  }

  function Only(s: State, fields: seq<string>): Outcome<State>
  {
    if |s.select| > 1 then Err(Invalid("Fields could be set only once"))
    else Ok(s.(select := " " + JoinWith(fields, ", ")))
  }

  function Like(s: State, field: string, value: Value): State
  {
    Where(s, field, " LIKE", value)
  }

  predicate ValidDirection(order: string)
  {
    UpperAscii(order) == "ASC" || UpperAscii(order) == "DESC"
  }

  function OrderBy(s: State, field: string, order: string): Outcome<State>
  {
    if !ValidDirection(order) then Err(Invalid("Invalid order value"))
    else if |s.order| > 0 then Err(Invalid("Order could be set only once"))
    else Ok(s.(order := s.order + " ORDER BY " + s.table + "." + field + " " + UpperAscii(order)))
  }

  /** `limit` checks `_limitStr` but writes to `_orderStr`. */
  function Limit(s: State, q: Quantity): Outcome<State>
  {
    if q.NaN? then Err(Invalid("Limit value is not a number"))
    else if |s.limitStr| > 0 then Err(Invalid("Limit could be set only once"))
    else Ok(s.(order := s.order + " LIMIT " + Decimal(q.n)))
  }

  function Offset(s: State, q: Quantity): Outcome<State>
  {
    if q.NaN? then Err(Invalid("Offset value is not a number"))
    else if |s.offsetStr| > 0 then Err(Invalid("Offset could be set only once"))
    else Ok(s.(offsetStr := s.offsetStr + " OFFSET " + Decimal(q.n)))
  }

  // ---------------------------------------------------------------- staging by create and update

  /** The `field=?` fragments `create` builds from its data, in key order. */
  function InsertParts(pairs: seq<(string, Value)>): seq<string>
  {
    seq(|pairs|, i requires 0 <= i < |pairs| => pairs[i].0 + "=?")
  }

  /** The `table.field=?` (or `dotted.field=?`) fragments `update` builds from its data. */
  function UpdateParts(table: string, pairs: seq<(string, Value)>): seq<string>
  {
    seq(|pairs|, i requires 0 <= i < |pairs| => Qualify(table, pairs[i].0) + "=?")
  }

  function ValuesOf(pairs: seq<(string, Value)>): seq<Value>
  {
    seq(|pairs|, i requires 0 <= i < |pairs| => pairs[i].1)
  }

  /** What `create` does to the state before it compiles. */
  function StageInsert(s: State, pairs: seq<(string, Value)>, withUpdate: bool): State
  {
    var t := s.(insertStr := s.insertStr + JoinWith(InsertParts(pairs), ", "),
                insertData := s.insertData + ValuesOf(pairs));
    if withUpdate then t.(dupData := t.dupData + ValuesOf(pairs), dupStr := t.insertStr) else t
  }

  /** What `update` does to the state before it compiles. */
  function StageUpdate(s: State, pairs: seq<(string, Value)>): State
  {
    s.(updateStr := s.updateStr + JoinWith(UpdateParts(s.table, pairs), ", "),
       updateData := s.updateData + ValuesOf(pairs))
  }

  // ---------------------------------------------------------------- guards

  datatype Kind = SelectStmt | InsertStmt | UpdateStmt | DeleteStmt

  function KindName(k: Kind): string
  {
    match k
    case SelectStmt => "SELECT"
    case InsertStmt => "INSERT"
    case UpdateStmt => "UPDATE"
    case DeleteStmt => "DELETE"
  }

  /** The clauses a guard can object to, named as in its error message. */
  datatype Clause = OnlyClause | OrderByClause | LimitClause | OffsetClause | WhereClause | JoinClause

  function ClauseName(c: Clause): string
  {
    match c
    case OnlyClause => "only"
    case OrderByClause => "orderBy"
    case LimitClause => "limit"
    case OffsetClause => "offset"
    case WhereClause => "where"
    case JoinClause => "join"
  }

  /** `_check{Select,Insert,Update,Delete}IsAble`: the first clause the statement kind forbids, if any. */
  function Check(kind: Kind, s: State): (r: Option<Clause>)
    ensures kind == SelectStmt ==> r == None
    ensures r.Some? ==> r.value in Forbidden(kind) && r.value in Present(s)
  {
    if kind == SelectStmt then None
    else if |s.select| > 1 then Some(OnlyClause)
    else if s.order != "" then Some(OrderByClause)
    else if s.limitStr != "" then Some(LimitClause)
    else if s.offsetStr != "" then Some(OffsetClause)
    else if kind == InsertStmt && s.whereStr != "" then Some(WhereClause)
    else if kind == InsertStmt && s.joins != "" then Some(JoinClause)
    else None
  }

  function GuardError(kind: Kind, c: Clause): Error
  {
    Invalid("Parameter '" + ClauseName(c) + "' is forbidden in " + KindName(kind) + " query")
  }

  /** The table of which clauses each statement kind forbids. */
  function Forbidden(kind: Kind): set<Clause>
  {
    match kind
    case SelectStmt => {}
    case UpdateStmt => {OnlyClause, OrderByClause, LimitClause, OffsetClause}
    case DeleteStmt => {OnlyClause, OrderByClause, LimitClause, OffsetClause}
    case InsertStmt => {OnlyClause, OrderByClause, LimitClause, OffsetClause, WhereClause, JoinClause}
  }

  /** The clauses a state carries (a field list counts once `_selectStr` is longer than `*`). */
  function Present(s: State): set<Clause>
  {
    (if |s.select| > 1 then {OnlyClause} else {})
    + (if s.order != "" then {OrderByClause} else {})
    + (if s.limitStr != "" then {LimitClause} else {})
    + (if s.offsetStr != "" then {OffsetClause} else {})
    + (if s.whereStr != "" then {WhereClause} else {})
    + (if s.joins != "" then {JoinClause} else {})
  }

  /** The guard rejects exactly the states that carry a forbidden clause, and names one of them. */
  lemma GuardMatrix(kind: Kind, s: State)
    ensures Check(kind, s).None? <==> Forbidden(kind) * Present(s) == {}
    ensures Check(kind, s).Some? ==> Check(kind, s).value in Forbidden(kind) * Present(s)
  {
    var c := Check(kind, s);
    if c.None? && kind != SelectStmt {
      assert OnlyClause !in Present(s) && OrderByClause !in Present(s);
      assert LimitClause !in Present(s) && OffsetClause !in Present(s);
      assert kind == InsertStmt ==> WhereClause !in Present(s) && JoinClause !in Present(s);
      forall x | x in Forbidden(kind) ensures x !in Present(s) {
      }
    }
  }

  // ---------------------------------------------------------------- compilation

  /** The SQL text `_create{Select,Insert,Update,Delete}Query` writes to `_queryStr`. */
  function Sql(kind: Kind, s: State): string
  {
    match kind
    case SelectStmt => SelectSql(s)
    case InsertStmt => InsertSql(s)
    case UpdateStmt => UpdateSql(s)
    case DeleteStmt => DeleteSql(s)
  }

  function SelectSql(s: State): string
  {
    "SELECT " + s.select + " FROM " + s.table + " " + s.joins + " " + "WHERE 1 " + s.whereStr + " "
    + s.order + " " + s.limitStr + " " + s.offsetStr + " "
  }

  function InsertSql(s: State): string
  {
    var insert := "INSERT INTO " + s.table + " " + "SET " + s.insertStr + " ";
    if |s.dupStr| > 0 then insert + "ON DUPLICATE KEY UPDATE " + s.dupStr + " " else insert
  }

  function UpdateSql(s: State): string
  {
    "UPDATE " + s.table + " " + s.joins + " " + "SET " + s.updateStr + " " + "WHERE 1 " + s.whereStr + " "
  }

  function DeleteSql(s: State): string
  {
    "DELETE FROM " + s.table + " " + s.joins + " " + "WHERE 1 " + s.whereStr + " "
  }

  /** The values compilation appends to `_queryData`, in placeholder order. */
  function NewParams(kind: Kind, s: State): seq<Value>
  {
    match kind
    case SelectStmt => s.whereData
    case InsertStmt => s.insertData + (if |s.dupStr| > 0 then s.dupData else [])
    case UpdateStmt => s.updateData + s.whereData
    case DeleteStmt => s.whereData
  }

  /** Guard, then compile: the new `_queryStr`, and `_queryData` extended (never reset). */
  function Compile(kind: Kind, s: State): (r: Outcome<State>)
    ensures r.Err? <==> Check(kind, s).Some?
    ensures r.Err? ==> r.error == GuardError(kind, Check(kind, s).value)
  {
    match Check(kind, s)
    case Some(c) => Err(GuardError(kind, c))
    case None => Ok(s.(queryStr := Sql(kind, s), queryData := s.queryData + NewParams(kind, s)))
  }

  /** Compilation touches only `_queryStr` and `_queryData`, and only extends the latter. */
  lemma CompileChangesOnlyQuery(kind: Kind, s: State)
    requires Compile(kind, s).Ok?
    ensures Compile(kind, s).value.(queryStr := s.queryStr, queryData := s.queryData) == s
    ensures s.queryData <= Compile(kind, s).value.queryData
  {
  }

  // ---------------------------------------------------------------- chains of calls

  /** One call of a chain method, with its arguments. */
  datatype Call =
    | WhereCall(field: string, comparison: string, value: Value)
    | WhereRawCall(raw: string, data: seq<Value>)
    | WhereInCall(field: string, values: seq<Value>)
    | JoinCall(kind: JoinKind, other: string, localField: string, remoteField: string, comparison: string)
    | OnlyCall(fields: seq<string>)
    | LikeCall(field: string, value: Value)
    | OrderByCall(field: string, order: string)
    | LimitCall(quantity: Quantity)
    | OffsetCall(quantity: Quantity)

  function Apply(s: State, c: Call): Outcome<State>
  {
    match c
    case WhereCall(f, cmp, v) => Ok(Where(s, f, cmp, v))
    case WhereRawCall(raw, data) => Ok(WhereRaw(s, raw, data))
    case WhereInCall(f, vs) => Ok(WhereIn(s, f, vs))
    case JoinCall(k, other, lf, rf, cmp) => Ok(Join(s, k, other, lf, rf, cmp))
    case OnlyCall(fields) => Only(s, fields)
    case LikeCall(f, v) => Ok(Like(s, f, v))
    case OrderByCall(f, order) => OrderBy(s, f, order)
    case LimitCall(q) => Limit(s, q)
    case OffsetCall(q) => Offset(s, q)
  }

  /** A chain of calls; the first one that throws ends it. */
  function Run(s: State, calls: seq<Call>): Outcome<State>
    decreases |calls|
  {
    if calls == [] then Ok(s)
    else
      match Apply(s, calls[0])
      case Err(e) => Err(e)
      case Ok(t) => Run(t, calls[1..])
  }
}
