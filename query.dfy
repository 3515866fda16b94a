/**
 * The `Query` builder: a per-table, single-use object whose chain methods append SQL fragments
 * and bound values to its fields, and whose terminal methods guard, compile and send one
 * statement (two for pagination) to the execution channel. Every method is proved against the
 * value-level description in Clauses and Terminals, applied to the state before the call.
 */
module QueryBuilder {
  import opened Results
  import opened SqlText
  import opened Execution
  import opened Clauses
  import opened Pagination
  import Terminals

  class Query {
    const channel: Channel
    const table: string
    var selectStr: string
    var whereStr: string
    var whereData: seq<Value>
    var joinStr: string
    var orderStr: string
    var limitStr: string
    var offsetStr: string
    var updateStr: string
    var updateData: seq<Value>
    var insertStr: string
    var insertData: seq<Value>
    var dupStr: string
    var dupData: seq<Value>
    var queryStr: string
    var queryData: seq<Value>

    /** All fields of the builder as one value. */
    function View(): State
      reads this
    {
      State(table, selectStr, whereStr, whereData, joinStr, orderStr, limitStr, offsetStr,
            updateStr, updateData, insertStr, insertData, dupStr, dupData, queryStr, queryData)
    }

    /** `new Query(builder, table)`: defaults, then the channel and the table. */
    constructor (channel: Channel, table: string)
      ensures this.channel == channel
      ensures View() == Defaults(table)
    {
      this.channel := channel;
      this.table := table;
      selectStr := "*";
      whereStr, whereData := "", [];
      joinStr, orderStr, limitStr, offsetStr := "", "", "", "";
      updateStr, updateData := "", [];
      insertStr, insertData := "", [];
      dupStr, dupData := "", [];
      queryStr, queryData := "", [];
    }

    /** The count builder of `getPaginated`: a structural copy with limit and offset text cleared. */
    constructor CountCopy(q: Query)
      ensures channel == q.channel
      ensures View() == Terminals.CountCopy(q.View())
    {
      channel := q.channel;
      table := q.table;
      selectStr := q.selectStr;
      whereStr, whereData := q.whereStr, q.whereData;
      joinStr, orderStr := q.joinStr, q.orderStr;
      limitStr, offsetStr := "", "";
      updateStr, updateData := q.updateStr, q.updateData;
      insertStr, insertData := q.insertStr, q.insertData;
      dupStr, dupData := q.dupStr, q.dupData;
      queryStr, queryData := q.queryStr, q.queryData;
    }

    // ------------------------------------------------------------ chain methods

    method Where(field: string, comparison: string, value: Value)
      modifies this
      ensures View() == Clauses.Where(old(View()), field, comparison, value)
    {
      var f := field;
      if '.' !in field {
        f := table + "." + field;
      }
      whereStr := whereStr + " AND " + f + " " + comparison + " ?";
      whereData := whereData + [value];
    }

    method WhereRaw(raw: string, data: seq<Value>)
      modifies this
      ensures View() == Clauses.WhereRaw(old(View()), raw, data)
    {
      whereStr := whereStr + " AND " + raw;
      var i := 0;
      while i < |data|
        invariant 0 <= i <= |data|
        invariant View() == old(View()).(whereStr := old(whereStr) + " AND " + raw,
                                         whereData := old(whereData) + data[..i])
      {
        whereData := whereData + [data[i]];
        i := i + 1;
      }
      assert data[..i] == data;
    }

    method WhereIn(field: string, values: seq<Value>)
      modifies this
      ensures View() == Clauses.WhereIn(old(View()), field, values)
    {
      var marks: seq<string> := [];
      var i := 0;
      while i < |values|
        invariant 0 <= i <= |values|
        invariant marks == seq(i, _ => "?")
        invariant View() == old(View()).(whereData := old(whereData) + values[..i])
      {
        whereData := whereData + [values[i]];
        marks := marks + ["?"];
        i := i + 1;
      }
      assert values[..i] == values;
      var f := field;
      if '.' !in field {
        f := table + "." + field;
      }
      whereStr := whereStr + " AND " + f + " IN (" + JoinWith(marks, ", ") + ")";
    }

    /** `_join`: an empty comparison stands for the missing argument and becomes `=`. */
    method Join(kind: JoinKind, other: string, localField: string, remoteField: string, comparison: string)
      modifies this
      ensures View() == Clauses.Join(old(View()), kind, other, localField, remoteField, comparison)
    {
      var cmp := comparison;
      if cmp == "" {
        cmp := "=";
      }
      joinStr := joinStr + JoinText(kind, other, table, localField, remoteField, cmp);
    }

    method LeftJoin(other: string, localField: string, remoteField: string, comparison: string)
      modifies this
      ensures View() == Clauses.Join(old(View()), Left, other, localField, remoteField, comparison)
    {
      Join(Left, other, localField, remoteField, comparison);
    }

    method RightJoin(other: string, localField: string, remoteField: string, comparison: string)
      modifies this
      ensures View() == Clauses.Join(old(View()), Right, other, localField, remoteField, comparison)
    {
      Join(Right, other, localField, remoteField, comparison);
    }

    method InnerJoin(other: string, localField: string, remoteField: string, comparison: string)
      modifies this
      ensures View() == Clauses.Join(old(View()), Inner, other, localField, remoteField, comparison)
    {
      Join(Inner, other, localField, remoteField, comparison);
    }

    method Only(fields: seq<string>) returns (failure: Option<Error>)
      modifies this
      ensures match Clauses.Only(old(View()), fields)
        case Ok(t) => failure == None && View() == t
        case Err(e) => failure == Some(e) && View() == old(View())
    {
      if |selectStr| > 1 {
        return Some(Invalid("Fields could be set only once"));
      }
      selectStr := " " + JoinWith(fields, ", ");
      failure := None;
    }

    method Like(field: string, value: Value)
      modifies this
      ensures View() == Clauses.Like(old(View()), field, value)
    {
      Where(field, " LIKE", value);
    }

    method OrderBy(field: string, order: string) returns (failure: Option<Error>)
      modifies this
      ensures match Clauses.OrderBy(old(View()), field, order)
        case Ok(t) => failure == None && View() == t
        case Err(e) => failure == Some(e) && View() == old(View())
    {
      var upper := UpperAscii(order);
      if upper != "ASC" && upper != "DESC" {
        return Some(Invalid("Invalid order value"));
      }
      if |orderStr| > 0 {
        return Some(Invalid("Order could be set only once"));
      }
      orderStr := orderStr + " ORDER BY " + table + "." + field + " " + upper;
      failure := None;
    }

    method Limit(quantity: Quantity) returns (failure: Option<Error>)
      modifies this
      ensures match Clauses.Limit(old(View()), quantity)
        case Ok(t) => failure == None && View() == t
        case Err(e) => failure == Some(e) && View() == old(View())
    {
      if quantity.NaN? {
        return Some(Invalid("Limit value is not a number"));
      }
      if |limitStr| > 0 {
        return Some(Invalid("Limit could be set only once"));
      }
      orderStr := orderStr + " LIMIT " + Decimal(quantity.n);
      failure := None;
    }

    method Offset(quantity: Quantity) returns (failure: Option<Error>)
      modifies this
      ensures match Clauses.Offset(old(View()), quantity)
        case Ok(t) => failure == None && View() == t
        case Err(e) => failure == Some(e) && View() == old(View())
    {
      if quantity.NaN? {
        return Some(Invalid("Offset value is not a number"));
      }
      if |offsetStr| > 0 {
        return Some(Invalid("Offset could be set only once"));
      }
      offsetStr := offsetStr + " OFFSET " + Decimal(quantity.n);
      failure := None;
    }

    // ------------------------------------------------------------ guard, then compile

    method CreateInsertQuery() returns (failure: Option<Error>)
      modifies this
      ensures match Compile(InsertStmt, old(View()))
        case Ok(t) => failure == None && View() == t
        case Err(e) => failure == Some(e) && View() == old(View())
    {
      var violation := Check(InsertStmt, View());
      if violation.Some? {
        return Some(GuardError(InsertStmt, violation.value));
      }
      ghost var s := View();
      var sql := "";
      var data := queryData;
      sql := sql + "INSERT INTO " + table + " ";
      assert sql == "INSERT INTO " + table + " ";
      sql := sql + "SET " + insertStr + " ";
      data := data + insertData;
      if |dupStr| > 0 {
        sql := sql + "ON DUPLICATE KEY UPDATE " + dupStr + " ";
        data := data + dupData;
      }
      assert sql == Sql(InsertStmt, s);
      assert data == s.queryData + NewParams(InsertStmt, s);
      assert Compile(InsertStmt, s) == Ok(s.(queryStr := sql, queryData := data));
      queryStr, queryData := sql, data;
      failure := None;
    }

    method CreateUpdateQuery() returns (failure: Option<Error>)
      modifies this
      ensures match Compile(UpdateStmt, old(View()))
        case Ok(t) => failure == None && View() == t
        case Err(e) => failure == Some(e) && View() == old(View())
    {
      var violation := Check(UpdateStmt, View());
      if violation.Some? {
        return Some(GuardError(UpdateStmt, violation.value));
      }
      ghost var s := View();
      var sql := "";
      var data := queryData;
      sql := sql + "UPDATE " + table + " ";
      assert sql == "UPDATE " + table + " ";
      sql := sql + joinStr + " ";
      sql := sql + "SET " + updateStr + " ";
      data := data + updateData;
      sql := sql + "WHERE 1 " + whereStr + " ";
      data := data + whereData;
      assert sql == Sql(UpdateStmt, s);
      assert data == s.queryData + NewParams(UpdateStmt, s);
      assert Compile(UpdateStmt, s) == Ok(s.(queryStr := sql, queryData := data));
      queryStr, queryData := sql, data;
      failure := None;
    }

    method CreateDeleteQuery() returns (failure: Option<Error>)
      modifies this
      ensures match Compile(DeleteStmt, old(View()))
        case Ok(t) => failure == None && View() == t
        case Err(e) => failure == Some(e) && View() == old(View())
    {
      var violation := Check(DeleteStmt, View());
      if violation.Some? {
        return Some(GuardError(DeleteStmt, violation.value));
      }
      ghost var s := View();
      var sql := "";
      var data := queryData;
      sql := sql + "DELETE FROM " + table + " ";
      assert sql == "DELETE FROM " + table + " ";
      sql := sql + joinStr + " ";
      sql := sql + "WHERE 1 " + whereStr + " ";
      data := data + whereData;
      assert sql == Sql(DeleteStmt, s);
      assert data == s.queryData + NewParams(DeleteStmt, s);
      assert Compile(DeleteStmt, s) == Ok(s.(queryStr := sql, queryData := data));
      queryStr, queryData := sql, data;
      failure := None;
    }

    /** The SELECT guard accepts every state, so this one cannot fail. */
    method CreateSelectQuery()
      modifies this
      ensures Compile(SelectStmt, old(View())).Ok?
      ensures View() == Compile(SelectStmt, old(View())).value
    {
      ghost var s := View();
      var sql := "";
      var data := queryData;
      sql := sql + "SELECT " + selectStr + " FROM " + table + " ";
      assert sql == "SELECT " + selectStr + " FROM " + table + " ";
      sql := sql + joinStr + " ";
      sql := sql + "WHERE 1 " + whereStr + " ";
      data := data + whereData;
      sql := sql + orderStr + " " + limitStr + " " + offsetStr + " ";
      assert sql == Sql(SelectStmt, s);
      queryStr, queryData := sql, data;
      assert Check(SelectStmt, s) == None;
      assert Compile(SelectStmt, s) == Ok(s.(queryStr := Sql(SelectStmt, s), queryData := s.queryData + s.whereData));
    }

    // ------------------------------------------------------------ terminal methods

    method Get() returns (r: Outcome<Data>)
      modifies this, channel
      ensures var t := Terminals.Get(old(View()), |old(channel.log)|, channel.respond);
        r == t.result && View() == t.state && channel.log == old(channel.log) + t.sent
    {
      CreateSelectQuery();
      var reply := channel.Query(queryStr, queryData);
      r := Terminals.Forward(reply);
    }

    method GetFirst() returns (r: Outcome<Option<Row>>)
      modifies this, channel
      ensures var t := Terminals.GetFirst(old(View()), |old(channel.log)|, channel.respond);
        r == t.result && View() == t.state && channel.log == old(channel.log) + t.sent
    {
      var failure := Limit(Number(1));
      if failure.Some? {
        return Err(failure.value);
      }
      var got := Get();
      if got.Err? {
        return Err(got.error);
      }
      r := Ok(Terminals.FirstRow(got.value));
    }

    method Find(id: Value) returns (r: Outcome<Option<Row>>)
      modifies this, channel
      ensures var t := Terminals.Find(old(View()), id, |old(channel.log)|, channel.respond);
        r == t.result && View() == t.state && channel.log == old(channel.log) + t.sent
    {
      Where("id", "=", id);
      r := GetFirst();
    }

    method GetCount() returns (r: Outcome<Value>)
      modifies this, channel
      ensures var t := Terminals.GetCount(old(View()), |old(channel.log)|, channel.respond);
        r == t.result && View() == t.state && channel.log == old(channel.log) + t.sent
    {
      selectStr := Terminals.CountSelect;
      var got := Get();
      if got.Err? {
        return Err(got.error);
      }
      r := Terminals.CountCell(got.value);
    }

    /** The first half of `create`: the `field=?` fragments and the values, twice with `withUpdate`. */
    method StageInsert(pairs: seq<(string, Value)>, withUpdate: bool)
      modifies this
      ensures View() == Clauses.StageInsert(old(View()), pairs, withUpdate)
    {
      var parts: seq<string> := [];
      var i := 0;
      while i < |pairs|
        modifies this
        invariant 0 <= i <= |pairs|
        invariant |parts| == i && forall k | 0 <= k < i :: parts[k] == pairs[k].0 + "=?"
        invariant View() == old(View()).(insertData := old(insertData) + ValuesOf(pairs[..i]))
      {
        parts := parts + [pairs[i].0 + "=?"];
        insertData := insertData + [pairs[i].1];
        assert ValuesOf(pairs[..i + 1]) == ValuesOf(pairs[..i]) + [pairs[i].1];
        i := i + 1;
      }
      assert pairs[..i] == pairs;
      assert parts == InsertParts(pairs);
      insertStr := insertStr + JoinWith(parts, ", ");
      if withUpdate {
        ghost var staged := View();
        var j := 0;
        while j < |pairs|
          modifies this
          invariant 0 <= j <= |pairs|
          invariant View() == staged.(dupData := staged.dupData + ValuesOf(pairs[..j]))
        {
          dupData := dupData + [pairs[j].1];
          assert ValuesOf(pairs[..j + 1]) == ValuesOf(pairs[..j]) + [pairs[j].1];
          j := j + 1;
        }
        assert pairs[..j] == pairs;
        dupStr := insertStr;
      }
    }

    method Create(pairs: seq<(string, Value)>, withUpdate: bool) returns (r: Outcome<Data>)
      modifies this, channel
      ensures var t := Terminals.Create(old(View()), pairs, withUpdate, |old(channel.log)|, channel.respond);
        r == t.result && View() == t.state && channel.log == old(channel.log) + t.sent
    {
      StageInsert(pairs, withUpdate);
      var failure := CreateInsertQuery();
      if failure.Some? {
        return Err(failure.value);
      }
      var reply := channel.Query(queryStr, queryData);
      r := Terminals.Forward(reply);
    }

    /** The first half of `update`: the qualified `field=?` fragments and the values. */
    method StageUpdate(pairs: seq<(string, Value)>)
      modifies this
      ensures View() == Clauses.StageUpdate(old(View()), pairs)
    {
      var parts: seq<string> := [];
      var i := 0;
      while i < |pairs|
        modifies this
        invariant 0 <= i <= |pairs|
        invariant |parts| == i && forall k | 0 <= k < i :: parts[k] == Qualify(table, pairs[k].0) + "=?"
        invariant View() == old(View()).(updateData := old(updateData) + ValuesOf(pairs[..i]))
      {
        var field := pairs[i].0;
        if '.' in field {
          parts := parts + [field + "=?"];
        } else {
          parts := parts + [table + "." + field + "=?"];
        }
        updateData := updateData + [pairs[i].1];
        assert ValuesOf(pairs[..i + 1]) == ValuesOf(pairs[..i]) + [pairs[i].1];
        i := i + 1;
      }
      assert pairs[..i] == pairs;
      assert parts == UpdateParts(table, pairs);
      updateStr := updateStr + JoinWith(parts, ", ");
    }

    method Update(pairs: seq<(string, Value)>) returns (r: Outcome<Data>)
      modifies this, channel
      ensures var t := Terminals.Update(old(View()), pairs, |old(channel.log)|, channel.respond);
        r == t.result && View() == t.state && channel.log == old(channel.log) + t.sent
    {
      StageUpdate(pairs);
      var failure := CreateUpdateQuery();
      if failure.Some? {
        return Err(failure.value);
      }
      var reply := channel.Query(queryStr, queryData);
      r := Terminals.Forward(reply);
    }

    method Delete() returns (r: Outcome<Data>)
      modifies this, channel
      ensures var t := Terminals.Delete(old(View()), |old(channel.log)|, channel.respond);
        r == t.result && View() == t.state && channel.log == old(channel.log) + t.sent
    {
      var failure := CreateDeleteQuery();
      if failure.Some? {
        return Err(failure.value);
      }
      var reply := channel.Query(queryStr, queryData);
      r := Terminals.Forward(reply);
    }

    method GetPaginated(size: int, page: int) returns (r: Outcome<Paginator<Data>>)
      modifies this, channel
      ensures var t := Terminals.GetPaginated(old(View()), size, page, |old(channel.log)|, channel.respond);
        r == t.result && View() == t.state && channel.log == old(channel.log) + t.sent
    {
      if size == 0 {
        return Err(Invalid("Limit is required"));
      }
      var counter := new Query.CountCopy(this);
      var count := counter.GetCount();
      if count.Err? {
        return Err(count.error);
      }
      r := FetchPage(count.value, size, Terminals.PageOf(page));
    }

    /** The callback `getPaginated` passes to the count query. */
    method FetchPage(count: Value, size: int, page: int) returns (r: Outcome<Paginator<Data>>)
      modifies this, channel
      ensures var t := Terminals.FetchPage(old(View()), count, size, page, |old(channel.log)|, channel.respond);
        r == t.result && View() == t.state && channel.log == old(channel.log) + t.sent
    {
      var failure := Offset(Number(size * (page - 1)));
      if failure.Some? {
        return Err(failure.value);
      }
      failure := Limit(Number(size));
      if failure.Some? {
        return Err(failure.value);
      }
      var got := Get();
      r := Terminals.MakePage(count, size, page, got);
    }
  }
}
