/**
 * The builder binds values positionally, so a statement is well formed only when its SQL text
 * holds exactly as many `?` placeholders as it carries parameters, and the k-th placeholder stands
 * for the k-th parameter. This module proves that the first terminal call after any chain of calls
 * on a fresh builder sends statements of that shape, provided the caller's table, field,
 * comparison and key text holds no `?` and every raw fragment holds one per value.
 */
module Placeholders {
  import opened Results
  import opened SqlText
  import opened Execution
  import opened Clauses
  import opened Terminals

  /** Every fragment holds as many placeholders as values are bound to it; the other text holds none. */
  predicate Clean(s: State)
  {
    && Marks(s.table) == 0 && Marks(s.select) == 0 && Marks(s.joins) == 0
    && Marks(s.order) == 0 && Marks(s.limitStr) == 0 && Marks(s.offsetStr) == 0
    && Marks(s.whereStr) == |s.whereData| && Marks(s.updateStr) == |s.updateData|
    && Marks(s.insertStr) == |s.insertData| && Marks(s.dupStr) == |s.dupData|
  }

  /** Nothing staged by `create`/`update` and nothing compiled yet. */
  predicate NothingStaged(s: State)
  {
    && s.queryData == [] && s.insertStr == "" && s.insertData == [] && s.dupStr == "" && s.dupData == []
    && s.updateStr == "" && s.updateData == []
  }

  /** What every chain of calls from a fresh builder keeps: nothing staged, and no limit text. */
  predicate Unstaged(s: State)
  {
    NothingStaged(s) && s.limitStr == ""
  }

  /** The compiled text of a clean state has one placeholder per newly bound value. */
  lemma CompileBalanced(kind: Kind, s: State)
    requires Clean(s)
    ensures Marks(Sql(kind, s)) == |NewParams(kind, s)|
  {
    match kind
    case SelectStmt => SelectBalanced(s);
    case InsertStmt => InsertBalanced(s);
    case UpdateStmt => UpdateBalanced(s);
    case DeleteStmt => DeleteBalanced(s);
  }

  lemma SelectBalanced(s: State)
    requires Marks(s.select) == 0 && Marks(s.table) == 0 && Marks(s.joins) == 0 && Marks(s.whereStr) == |s.whereData|
    requires Marks(s.order) == 0 && Marks(s.limitStr) == 0 && Marks(s.offsetStr) == 0
    ensures Marks(SelectSql(s)) == |s.whereData|
  {
    MarksFree("SELECT "); MarksFree(" FROM "); MarksFree(" "); MarksFree("WHERE 1 ");
    var a := "SELECT " + s.select;
    MarksCat("SELECT ", s.select);
    var b := a + " FROM " + s.table;
    MarksCat(a, " FROM "); MarksCat(a + " FROM ", s.table);
    var c := b + " " + s.joins;
    MarksCat(b, " "); MarksCat(b + " ", s.joins);
    var d := c + " " + "WHERE 1 ";
    MarksCat(c, " "); MarksCat(c + " ", "WHERE 1 ");
    var e := d + s.whereStr + " ";
    MarksCat(d, s.whereStr); MarksCat(d + s.whereStr, " ");
    var f := e + s.order + " ";
    MarksCat(e, s.order); MarksCat(e + s.order, " ");
    var g := f + s.limitStr + " ";
    MarksCat(f, s.limitStr); MarksCat(f + s.limitStr, " ");
    MarksCat(g, s.offsetStr); MarksCat(g + s.offsetStr, " ");
  }

  lemma InsertBalanced(s: State)
    requires Marks(s.table) == 0 && Marks(s.insertStr) == |s.insertData| && Marks(s.dupStr) == |s.dupData|
    ensures Marks(InsertSql(s)) == |s.insertData| + (if |s.dupStr| > 0 then |s.dupData| else 0)
  {
    MarksFree("INSERT INTO "); MarksFree(" "); MarksFree("SET "); MarksFree("ON DUPLICATE KEY UPDATE ");
    var a := "INSERT INTO " + s.table;
    MarksCat("INSERT INTO ", s.table);
    var b := a + " " + "SET ";
    MarksCat(a, " "); MarksCat(a + " ", "SET ");
    var insert := b + s.insertStr + " ";
    MarksCat(b, s.insertStr); MarksCat(b + s.insertStr, " ");
    var c := insert + "ON DUPLICATE KEY UPDATE ";
    MarksCat(insert, "ON DUPLICATE KEY UPDATE ");
    MarksCat(c, s.dupStr); MarksCat(c + s.dupStr, " ");
  }

  lemma UpdateBalanced(s: State)
    requires Marks(s.table) == 0 && Marks(s.joins) == 0
    requires Marks(s.updateStr) == |s.updateData| && Marks(s.whereStr) == |s.whereData|
    ensures Marks(UpdateSql(s)) == |s.updateData| + |s.whereData|
  {
    MarksFree("UPDATE "); MarksFree(" "); MarksFree("SET "); MarksFree("WHERE 1 ");
    var a := "UPDATE " + s.table;
    MarksCat("UPDATE ", s.table);
    var b := a + " " + s.joins;
    MarksCat(a, " "); MarksCat(a + " ", s.joins);
    var c := b + " " + "SET ";
    MarksCat(b, " "); MarksCat(b + " ", "SET ");
    var d := c + s.updateStr + " ";
    MarksCat(c, s.updateStr); MarksCat(c + s.updateStr, " ");
    var e := d + "WHERE 1 ";
    MarksCat(d, "WHERE 1 ");
    MarksCat(e, s.whereStr); MarksCat(e + s.whereStr, " ");
  }

  lemma DeleteBalanced(s: State)
    requires Marks(s.table) == 0 && Marks(s.joins) == 0 && Marks(s.whereStr) == |s.whereData|
    ensures Marks(DeleteSql(s)) == |s.whereData|
  {
    var a := "DELETE FROM " + s.table;
    MarksCat("DELETE FROM ", s.table); MarksFree("DELETE FROM ");
    MarksCat(a, " "); MarksFree(" ");
    var b := a + " " + s.joins;
    MarksCat(a + " ", s.joins);
    MarksCat(b, " ");
    MarksCat(b + " ", "WHERE 1 "); MarksFree("WHERE 1 ");
    var c := b + " " + "WHERE 1 " + s.whereStr;
    MarksCat(b + " " + "WHERE 1 ", s.whereStr);
    MarksCat(c, " ");
  }

  // ---------------------------------------------------------------- any chain of calls

  /** The caller's text holds no `?`, except a raw fragment, which holds one per value. */
  predicate CleanCall(c: Call)
  {
    match c
    case WhereCall(f, cmp, _) => Marks(f) == 0 && Marks(cmp) == 0
    case WhereRawCall(raw, data) => Marks(raw) == |data|
    case WhereInCall(f, _) => Marks(f) == 0
    case JoinCall(_, other, lf, rf, cmp) => Marks(other) == 0 && Marks(lf) == 0 && Marks(rf) == 0 && Marks(cmp) == 0
    case OnlyCall(fields) => forall i | 0 <= i < |fields| :: Marks(fields[i]) == 0
    case LikeCall(f, _) => Marks(f) == 0
    case OrderByCall(f, _) => Marks(f) == 0
    case LimitCall(_) => true
    case OffsetCall(_) => true
  }

  lemma QualifyMarks(table: string, field: string)
    requires Marks(table) == 0 && Marks(field) == 0
    ensures Marks(Qualify(table, field)) == 0
  {
    MarksFree(".");
    MarksCat(table, ".");
    MarksCat(table + ".", field);
  }

  /** `where` adds exactly one placeholder, for its one value. */
  lemma WhereMarks(s: State, field: string, comparison: string, value: Value)
    requires Marks(s.table) == 0 && Marks(field) == 0 && Marks(comparison) == 0
    ensures Marks(Where(s, field, comparison, value).whereStr) == Marks(s.whereStr) + 1
  {
    var q := Qualify(s.table, field);
    var a := s.whereStr + " AND " + q;
    QualifyMarks(s.table, field);
    MarksFree(" AND "); MarksFree(" ");
    MarksCat(s.whereStr, " AND "); MarksCat(s.whereStr + " AND ", q);
    MarksCat(a, " "); MarksCat(a + " ", comparison);
    assert Marks(" ?") == 1;
    MarksCat(a + " " + comparison, " ?");
  }

  /** `whereRaw` adds the placeholders its fragment holds. */
  lemma WhereRawMarks(s: State, raw: string, data: seq<Value>)
    ensures Marks(WhereRaw(s, raw, data).whereStr) == Marks(s.whereStr) + Marks(raw)
  {
    MarksFree(" AND ");
    MarksCat(s.whereStr, " AND "); MarksCat(s.whereStr + " AND ", raw);
  }

  /** `whereIn` adds one placeholder per value of its list. */
  lemma WhereInMarks(s: State, field: string, values: seq<Value>)
    requires Marks(s.table) == 0 && Marks(field) == 0
    ensures Marks(WhereIn(s, field, values).whereStr) == Marks(s.whereStr) + |values|
  {
    var q := Qualify(s.table, field);
    var a := s.whereStr + " AND " + q;
    QualifyMarks(s.table, field);
    MarksFree(" AND "); MarksFree(" IN ("); MarksFree(")");
    MarksCat(s.whereStr, " AND "); MarksCat(s.whereStr + " AND ", q);
    PlaceholdersCount(|values|);
    MarksCat(a, " IN ("); MarksCat(a + " IN (", Placeholders(|values|));
    MarksCat(a + " IN (" + Placeholders(|values|), ")");
  }

  lemma JoinMarks(s: State, kind: JoinKind, other: string, localField: string, remoteField: string,
                  comparison: string)
    requires Marks(s.table) == 0 && Marks(other) == 0 && Marks(localField) == 0
    requires Marks(remoteField) == 0 && Marks(comparison) == 0
    ensures Marks(Join(s, kind, other, localField, remoteField, comparison).joins) == Marks(s.joins)
  {
    var cmp := if comparison == "" then "=" else comparison;
    var w := JoinWord(kind);
    MarksFree("="); MarksFree(" "); MarksFree(" JOIN "); MarksFree(" ON "); MarksFree("."); MarksFree(w);
    var a := " " + w + " JOIN ";
    MarksCat(" ", w); MarksCat(" " + w, " JOIN ");
    var b := a + other + " ON " + s.table;
    MarksCat(a, other); MarksCat(a + other, " ON "); MarksCat(a + other + " ON ", s.table);
    var d := b + "." + localField + " " + cmp;
    MarksCat(b, "."); MarksCat(b + ".", localField); MarksCat(b + "." + localField, " ");
    MarksCat(b + "." + localField + " ", cmp);
    var e := d + " " + other + ".";
    MarksCat(d, " "); MarksCat(d + " ", other); MarksCat(d + " " + other, ".");
    MarksCat(e, remoteField);
    MarksCat(s.joins, JoinText(kind, other, s.table, localField, remoteField, cmp));
  }

  lemma OnlyMarks(s: State, fields: seq<string>)
    requires forall i | 0 <= i < |fields| :: Marks(fields[i]) == 0
    requires Only(s, fields).Ok?
    ensures Marks(Only(s, fields).value.select) == 0
  {
    MarksFree(", "); MarksFree(" ");
    JoinWithMarks(fields, ", ");
    SumMarksFree(fields);
    MarksCat(" ", JoinWith(fields, ", "));
  }

  lemma OrderByMarks(s: State, field: string, order: string)
    requires Marks(s.table) == 0 && Marks(field) == 0 && Marks(s.order) == 0
    requires OrderBy(s, field, order).Ok?
    ensures Marks(OrderBy(s, field, order).value.order) == 0
  {
    MarksFree(" ORDER BY "); MarksFree("."); MarksFree(" "); MarksFree("ASC"); MarksFree("DESC");
    var a := s.order + " ORDER BY " + s.table;
    MarksCat(s.order, " ORDER BY "); MarksCat(s.order + " ORDER BY ", s.table);
    MarksCat(a, "."); MarksCat(a + ".", field); MarksCat(a + "." + field, " ");
    MarksCat(a + "." + field + " ", UpperAscii(order));
  }

  lemma LimitMarks(s: State, q: Quantity)
    requires Marks(s.order) == 0 && Limit(s, q).Ok?
    ensures Marks(Limit(s, q).value.order) == 0
  {
    MarksFree(" LIMIT ");
    MarksCat(s.order, " LIMIT "); MarksCat(s.order + " LIMIT ", Decimal(q.n));
  }

  lemma OffsetMarks(s: State, q: Quantity)
    requires Marks(s.offsetStr) == 0 && Offset(s, q).Ok?
    ensures Marks(Offset(s, q).value.offsetStr) == 0
  {
    MarksFree(" OFFSET ");
    MarksCat(s.offsetStr, " OFFSET "); MarksCat(s.offsetStr + " OFFSET ", Decimal(q.n));
  }

  lemma ApplyKeepsClean(s: State, c: Call)
    requires Clean(s) && Unstaged(s) && CleanCall(c) && Apply(s, c).Ok?
    ensures Clean(Apply(s, c).value) && Unstaged(Apply(s, c).value)
    ensures Apply(s, c).value.table == s.table
  {
    match c
    case WhereCall(f, cmp, v) => WhereMarks(s, f, cmp, v);
    case WhereRawCall(raw, data) => WhereRawMarks(s, raw, data);
    case WhereInCall(f, vs) => WhereInMarks(s, f, vs);
    case JoinCall(k, other, lf, rf, cmp) => JoinMarks(s, k, other, lf, rf, cmp);
    case OnlyCall(fields) => OnlyMarks(s, fields);
    case LikeCall(f, v) =>
      MarksFree(" LIKE");
      WhereMarks(s, f, " LIKE", v);
    case OrderByCall(f, order) => OrderByMarks(s, f, order);
    case LimitCall(q) => LimitMarks(s, q);
    case OffsetCall(q) => OffsetMarks(s, q);
  }

  lemma {:induction false} RunKeepsClean(s: State, calls: seq<Call>)
    requires Clean(s) && Unstaged(s)
    requires forall i | 0 <= i < |calls| :: CleanCall(calls[i])
    requires Run(s, calls).Ok?
    ensures Clean(Run(s, calls).value) && Unstaged(Run(s, calls).value)
    ensures Run(s, calls).value.table == s.table
    decreases |calls|
  {
    if calls != [] {
      ApplyKeepsClean(s, calls[0]);
      RunKeepsClean(Apply(s, calls[0]).value, calls[1..]);
    }
  }

  /**
   * A call keeps the condition text and values it found as prefixes, and the text it appends holds
   * one placeholder per value it appends: its values are bound to its own placeholders.
   */
  lemma ApplyBindsInPlace(s: State, c: Call)
    requires Clean(s) && Unstaged(s) && CleanCall(c) && Apply(s, c).Ok?
    ensures var t := Apply(s, c).value;
      && |s.whereStr| <= |t.whereStr| && t.whereStr[..|s.whereStr|] == s.whereStr
      && |s.whereData| <= |t.whereData| && t.whereData[..|s.whereData|] == s.whereData
      && Marks(t.whereStr[|s.whereStr|..]) == |t.whereData| - |s.whereData|
  {
    ApplyKeepsClean(s, c);
    var t := Apply(s, c).value;
    assert t.whereStr[..|s.whereStr|] == s.whereStr;
    assert t.whereData[..|s.whereData|] == s.whereData;
    assert t.whereStr == s.whereStr + t.whereStr[|s.whereStr|..];
    MarksCat(s.whereStr, t.whereStr[|s.whereStr|..]);
  }

  /** A chain of calls keeps the condition text and values it started from as prefixes. */
  lemma {:induction false} RunExtendsConditions(s: State, calls: seq<Call>)
    requires Clean(s) && Unstaged(s)
    requires forall i | 0 <= i < |calls| :: CleanCall(calls[i])
    requires Run(s, calls).Ok?
    ensures var t := Run(s, calls).value;
      && |s.whereStr| <= |t.whereStr| && t.whereStr[..|s.whereStr|] == s.whereStr
      && |s.whereData| <= |t.whereData| && t.whereData[..|s.whereData|] == s.whereData
    decreases |calls|
  {
    if calls != [] {
      var u := Apply(s, calls[0]).value;
      ApplyBindsInPlace(s, calls[0]);
      ApplyKeepsClean(s, calls[0]);
      RunExtendsConditions(u, calls[1..]);
      var t := Run(s, calls).value;
      assert t.whereStr[..|s.whereStr|] == t.whereStr[..|u.whereStr|][..|s.whereStr|];
      assert t.whereData[..|s.whereData|] == t.whereData[..|u.whereData|][..|s.whereData|];
    }
  }

  /** Running a chain is running its first k calls, then the rest. */
  lemma {:induction false} RunSplit(s: State, calls: seq<Call>, k: nat)
    requires k <= |calls| && Run(s, calls).Ok?
    ensures Run(s, calls[..k]).Ok?
    ensures Run(Run(s, calls[..k]).value, calls[k..]) == Run(s, calls)
    decreases k
  {
    if k == 0 {
      assert calls[..0] == [] && calls[0..] == calls;
    } else {
      var u := Apply(s, calls[0]).value;
      RunSplit(u, calls[1..], k - 1);
      assert calls[..k][0] == calls[0] && calls[..k][1..] == calls[1..][..k - 1];
      assert calls[k..] == calls[1..][k - 1..];
    }
  }

  /**
   * At every call boundary of a chain on a fresh builder, the condition text and values written so
   * far are prefixes of the final ones and hold as many placeholders as values. So the values each
   * call binds occupy the same positions among the parameters as its `?` do among the placeholders.
   */
  lemma ConditionsAlignAtEveryCall(table: string, calls: seq<Call>, k: nat)
    requires Marks(table) == 0
    requires forall i | 0 <= i < |calls| :: CleanCall(calls[i])
    requires Run(Defaults(table), calls).Ok? && k <= |calls|
    ensures Run(Defaults(table), calls[..k]).Ok?
    ensures var mid := Run(Defaults(table), calls[..k]).value;
      var end := Run(Defaults(table), calls).value;
      && |mid.whereStr| <= |end.whereStr| && end.whereStr[..|mid.whereStr|] == mid.whereStr
      && |mid.whereData| <= |end.whereData| && end.whereData[..|mid.whereData|] == mid.whereData
      && Marks(mid.whereStr) == |mid.whereData|
  {
    MarksFree("*");
    RunSplit(Defaults(table), calls, k);
    var mid := Run(Defaults(table), calls[..k]).value;
    assert forall i | 0 <= i < |calls[..k]| :: CleanCall(calls[..k][i]);
    RunKeepsClean(Defaults(table), calls[..k]);
    assert forall i | 0 <= i < |calls[k..]| :: CleanCall(calls[k..][i]);
    RunExtendsConditions(mid, calls[k..]);
  }

  /**
   * An UPDATE writes the SET fragments before the conditions, and binds the new values before the
   * condition values: the first `|updateData|` placeholders are the SET ones.
   */
  lemma UpdateBindsSetFirst(s: State)
    requires Clean(s)
    ensures var head := "UPDATE " + s.table + " " + s.joins + " " + "SET ";
      var tail := " " + "WHERE 1 " + s.whereStr + " ";
      && UpdateSql(s) == head + s.updateStr + tail
      && Marks(head + s.updateStr) == |s.updateData| && Marks(tail) == |s.whereData|
      && NewParams(UpdateStmt, s) == s.updateData + s.whereData
  {
    var head := "UPDATE " + s.table + " " + s.joins + " " + "SET ";
    var tail := " " + "WHERE 1 " + s.whereStr + " ";
    MarksFree("UPDATE "); MarksFree(" "); MarksFree("SET "); MarksFree("WHERE 1 ");
    MarksCat("UPDATE ", s.table); MarksCat("UPDATE " + s.table, " ");
    MarksCat("UPDATE " + s.table + " ", s.joins); MarksCat("UPDATE " + s.table + " " + s.joins, " ");
    MarksCat("UPDATE " + s.table + " " + s.joins + " ", "SET ");
    MarksCat(head, s.updateStr);
    MarksCat(" ", "WHERE 1 "); MarksCat(" " + "WHERE 1 ", s.whereStr); MarksCat(" " + "WHERE 1 " + s.whereStr, " ");
  }

  /**
   * An INSERT with `ON DUPLICATE KEY UPDATE` writes the insert fragments before the duplicate-key
   * ones, and binds the insert values before the duplicate-key values.
   */
  lemma InsertBindsDuplicatesLast(s: State)
    requires Clean(s) && |s.dupStr| > 0
    ensures var head := "INSERT INTO " + s.table + " " + "SET ";
      var tail := " " + "ON DUPLICATE KEY UPDATE " + s.dupStr + " ";
      && InsertSql(s) == head + s.insertStr + tail
      && Marks(head + s.insertStr) == |s.insertData| && Marks(tail) == |s.dupData|
      && NewParams(InsertStmt, s) == s.insertData + s.dupData
  {
    var head := "INSERT INTO " + s.table + " " + "SET ";
    var tail := " " + "ON DUPLICATE KEY UPDATE " + s.dupStr + " ";
    MarksFree("INSERT INTO "); MarksFree(" "); MarksFree("SET "); MarksFree("ON DUPLICATE KEY UPDATE ");
    MarksCat("INSERT INTO ", s.table); MarksCat("INSERT INTO " + s.table, " ");
    MarksCat("INSERT INTO " + s.table + " ", "SET ");
    MarksCat(head, s.insertStr);
    MarksCat(" ", "ON DUPLICATE KEY UPDATE "); MarksCat(" " + "ON DUPLICATE KEY UPDATE ", s.dupStr);
    MarksCat(" " + "ON DUPLICATE KEY UPDATE " + s.dupStr, " ");
  }

  lemma StageInsertKeepsClean(s: State, pairs: seq<(string, Value)>, withUpdate: bool)
    requires Clean(s) && (!withUpdate || |s.insertData| == |s.dupData|)
    requires forall i | 0 <= i < |pairs| :: Marks(pairs[i].0) == 0
    ensures Clean(StageInsert(s, pairs, withUpdate))
  {
    var parts := InsertParts(pairs);
    assert Marks("=?") == 1;
    MarksFree(", ");
    forall i | 0 <= i < |parts| ensures Marks(parts[i]) == 1 {
      MarksCat(pairs[i].0, "=?");
    }
    SumMarksOnes(parts);
    JoinWithMarks(parts, ", ");
    MarksCat(s.insertStr, JoinWith(parts, ", "));
  }

  lemma StageUpdateKeepsClean(s: State, pairs: seq<(string, Value)>)
    requires Clean(s)
    requires forall i | 0 <= i < |pairs| :: Marks(pairs[i].0) == 0
    ensures Clean(StageUpdate(s, pairs))
  {
    var parts := UpdateParts(s.table, pairs);
    assert Marks("=?") == 1;
    MarksFree(", ");
    forall i | 0 <= i < |parts| ensures Marks(parts[i]) == 1 {
      QualifyMarks(s.table, pairs[i].0);
      MarksCat(Qualify(s.table, pairs[i].0), "=?");
    }
    SumMarksOnes(parts);
    JoinWithMarks(parts, ", ");
    MarksCat(s.updateStr, JoinWith(parts, ", "));
  }

  /** Every statement of the list binds one parameter per placeholder. */
  predicate Balanced(sent: seq<Statement>)
  {
    forall i | 0 <= i < |sent| :: Marks(sent[i].sql) == |sent[i].params|
  }

  /** A statement of a clean, not yet compiled state sends one parameter per placeholder. */
  lemma ExecuteBalanced(kind: Kind, s: State, n: nat, respond: (nat, Statement) -> Reply)
    requires Clean(s) && s.queryData == []
    ensures Balanced(Execute(kind, s, n, respond).sent)
  {
    CompileBalanced(kind, s);
  }

  lemma ReadsBalanced(s: State, id: Value, n: nat, respond: (nat, Statement) -> Reply)
    requires Clean(s) && Unstaged(s)
    ensures Balanced(Get(s, n, respond).sent)
    ensures Balanced(GetFirst(s, n, respond).sent)
    ensures Balanced(Find(s, id, n, respond).sent)
    ensures Balanced(GetCount(s, n, respond).sent)
  {
    MarksFree("id"); MarksFree("=");
    WhereMarks(s, "id", "=", id);
    var w := Where(s, "id", "=", id);
    LimitMarks(w, Number(1));
    ExecuteBalanced(SelectStmt, Limit(w, Number(1)).value, n, respond);
    ExecuteBalanced(SelectStmt, s, n, respond);
    LimitMarks(s, Number(1));
    ExecuteBalanced(SelectStmt, Limit(s, Number(1)).value, n, respond);
    MarksFree(CountSelect);
    ExecuteBalanced(SelectStmt, s.(select := CountSelect), n, respond);
  }

  lemma WritesBalanced(s: State, pairs: seq<(string, Value)>, withUpdate: bool, n: nat,
                       respond: (nat, Statement) -> Reply)
    requires Clean(s) && Unstaged(s)
    requires forall i | 0 <= i < |pairs| :: Marks(pairs[i].0) == 0
    ensures Balanced(Create(s, pairs, withUpdate, n, respond).sent)
    ensures Balanced(Update(s, pairs, n, respond).sent)
    ensures Balanced(Delete(s, n, respond).sent)
  {
    StageInsertKeepsClean(s, pairs, withUpdate);
    ExecuteBalanced(InsertStmt, StageInsert(s, pairs, withUpdate), n, respond);
    StageUpdateKeepsClean(s, pairs);
    ExecuteBalanced(UpdateStmt, StageUpdate(s, pairs), n, respond);
    ExecuteBalanced(DeleteStmt, s, n, respond);
  }

  lemma FetchPageBalanced(s: State, cell: Value, size: int, page: int, n: nat,
                          respond: (nat, Statement) -> Reply)
    requires Clean(s) && Unstaged(s)
    ensures Balanced(FetchPage(s, cell, size, page, n, respond).sent)
  {
    var off := Offset(s, Number(size * (page - 1)));
    if off.Ok? {
      OffsetMarks(s, Number(size * (page - 1)));
      var lim := Limit(off.value, Number(size));
      if lim.Ok? {
        LimitMarks(off.value, Number(size));
        ExecuteBalanced(SelectStmt, lim.value, n, respond);
      }
    }
  }

  lemma PaginatedBalanced(s: State, size: int, page: int, n: nat, respond: (nat, Statement) -> Reply)
    requires Clean(s) && Unstaged(s)
    ensures Balanced(GetPaginated(s, size, page, n, respond).sent)
  {
    if size != 0 {
      var counted := GetCount(CountCopy(s), n, respond);
      ReadsBalanced(CountCopy(s), Null, n, respond);
      if counted.result.Ok? {
        var fetched := FetchPage(s, counted.result.value, size, PageOf(page), n + |counted.sent|, respond);
        FetchPageBalanced(s, counted.result.value, size, PageOf(page), n + |counted.sent|, respond);
        assert GetPaginated(s, size, page, n, respond).sent == counted.sent + fetched.sent;
      }
    }
  }

  /**
   * After any chain of calls on a fresh builder, the first terminal call sends statements whose
   * placeholders and parameters agree in number, whichever terminal it is: get, getFirst, find,
   * getCount, create, update, delete, and both statements of getPaginated. This holds when the
   * table, field, comparison and key text holds no `?` and every raw fragment holds one per value.
   */
  lemma StatementsBalanced(table: string, calls: seq<Call>, pairs: seq<(string, Value)>, withUpdate: bool,
                           id: Value, size: int, page: int, n: nat, respond: (nat, Statement) -> Reply)
    requires Marks(table) == 0
    requires forall i | 0 <= i < |calls| :: CleanCall(calls[i])
    requires forall i | 0 <= i < |pairs| :: Marks(pairs[i].0) == 0
    requires Run(Defaults(table), calls).Ok?
    ensures var s := Run(Defaults(table), calls).value;
      && Balanced(Get(s, n, respond).sent) && Balanced(GetFirst(s, n, respond).sent)
      && Balanced(Find(s, id, n, respond).sent)
      && Balanced(GetCount(s, n, respond).sent) && Balanced(Create(s, pairs, withUpdate, n, respond).sent)
      && Balanced(Update(s, pairs, n, respond).sent) && Balanced(Delete(s, n, respond).sent)
      && Balanced(GetPaginated(s, size, page, n, respond).sent)
  {
    MarksFree("*");
    RunKeepsClean(Defaults(table), calls);
    var s := Run(Defaults(table), calls).value;
    ReadsBalanced(s, id, n, respond);
    WritesBalanced(s, pairs, withUpdate, n, respond);
    PaginatedBalanced(s, size, page, n, respond);
  }
}
