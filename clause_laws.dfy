/**
 * What the chain methods of `Query` promise, and the quirks they have, stated over the clause
 * state: conditions and joins only append, the set-once rules of `only`, `orderBy` and `offset`,
 * and the way `limit` writes into the order text and so never trips its own set-once rule.
 */
module ClauseLaws {
  import opened Results
  import opened SqlText
  import opened Clauses

  // ---------------------------------------------------------------- qualification

  /**
   * An undotted field is prefixed with the table and a `.`; for an undotted table that `.` is the
   * only one. A dotted field is used as given.
   */
  lemma QualifyPrefixesOnce(table: string, field: string)
    ensures '.' in field ==> Qualify(table, field) == field
    ensures '.' !in field ==>
      var q := Qualify(table, field);
      && q[..|table| + 1] == table + "."
      && q[|table| + 1..] == field
      && ('.' !in table ==> forall i | 0 <= i < |q| && q[i] == '.' :: i == |table|)
  {
    if '.' !in field && '.' !in table {
      var q := Qualify(table, field);
      assert q == table + "." + field;
      forall i | 0 <= i < |q| && i != |table| ensures q[i] != '.' {
        if i < |table| {
          assert q[i] == table[i];
        } else {
          assert q[i] == field[i - |table| - 1];
        }
      }
    }
  }

  // ---------------------------------------------------------------- conditions

  /**
   * `where` appends ` AND <qualified field> <comparison> ?` to the condition text and its value
   * to the condition data; nothing else changes.
   */
  lemma WhereOnlyAppends(s: State, field: string, comparison: string, value: Value)
    ensures var t := Where(s, field, comparison, value);
      && t.whereStr == s.whereStr + " AND " + Qualify(s.table, field) + " " + comparison + " ?"
      && t.whereData == s.whereData + [value]
      && t.(whereStr := s.whereStr, whereData := s.whereData) == s
  {
  }

  /** `like` is `where` with the comparison ` LIKE`, which leaves two spaces before the keyword. */
  lemma LikeIsWhere(s: State, field: string, value: Value)
    ensures Like(s, field, value) == Where(s, field, " LIKE", value)
    ensures Like(s, field, value).whereStr == s.whereStr + " AND " + Qualify(s.table, field) + "  LIKE ?"
  {
    assert Qualify(s.table, field) + " " + " LIKE" + " ?" == Qualify(s.table, field) + "  LIKE ?";
  }

  /** `whereRaw` appends its fragment as given and binds all its values, in order, after the earlier ones. */
  lemma WhereRawOnlyAppends(s: State, raw: string, data: seq<Value>)
    ensures var t := WhereRaw(s, raw, data);
      && t.whereStr == s.whereStr + " AND " + raw
      && t.whereData[..|s.whereData|] == s.whereData && t.whereData[|s.whereData|..] == data
      && t.(whereStr := s.whereStr, whereData := s.whereData) == s
  {
  }

  /**
   * `whereIn` binds the values of its list in order, writes the `?, ?, …` list for them (one `?`
   * per value, by PlaceholdersCount), and writes the empty list `IN ()` when there are none.
   */
  lemma WhereInBindsEachValue(s: State, field: string, values: seq<Value>)
    ensures var t := WhereIn(s, field, values);
      && t.whereData == s.whereData + values
      && t.(whereStr := s.whereStr, whereData := s.whereData) == s
      && t.whereStr == s.whereStr + " AND " + Qualify(s.table, field) + " IN (" + Placeholders(|values|) + ")"
      && (values == [] ==> t.whereStr == s.whereStr + " AND " + Qualify(s.table, field) + " IN ()")
  {
    PlaceholdersCount(|values|);
    if values == [] {
      assert Placeholders(0) == "";
    }
  }

  // ---------------------------------------------------------------- joins

  /** A join appends a non-empty clause to the join text; nothing else changes. */
  lemma JoinOnlyAppends(s: State, kind: JoinKind, other: string, localField: string, remoteField: string,
                        comparison: string)
    ensures var t := Join(s, kind, other, localField, remoteField, comparison);
      && |s.joins| < |t.joins| && t.joins[..|s.joins|] == s.joins
      && t.(joins := s.joins) == s
  {
    var t := Join(s, kind, other, localField, remoteField, comparison);
    var added := JoinText(kind, other, s.table, localField, remoteField,
                            if comparison == "" then "=" else comparison);
    assert t.joins == s.joins + added;
    assert t.joins[..|s.joins|] == s.joins;
  }

  /** A missing comparison (written as the empty string) means `=`. */
  lemma JoinDefaultsToEquals(s: State, kind: JoinKind, other: string, localField: string, remoteField: string)
    ensures Join(s, kind, other, localField, remoteField, "") == Join(s, kind, other, localField, remoteField, "=")
  {
  }

  // ---------------------------------------------------------------- only

  /** On a fresh builder `only` always succeeds. */
  lemma OnlyOnFreshBuilder(table: string, fields: seq<string>)
    ensures Only(Defaults(table), fields) == Ok(Defaults(table).(select := " " + JoinWith(fields, ", ")))
  {
  }

  /**
   * A second `only` fails exactly when the first one wrote a non-empty list: `only()` with no
   * fields (or one empty name) leaves the select text one character long and does not lock it.
   */
  lemma OnlyTwice(s: State, first: seq<string>, second: seq<string>)
    requires Only(s, first).Ok?
    ensures Only(Only(s, first).value, second).Err? <==> JoinWith(first, ", ") != ""
    ensures Only(Only(s, first).value, second).Err? ==>
      Only(Only(s, first).value, second).error == Invalid("Fields could be set only once")
  {
  }

  // ---------------------------------------------------------------- orderBy

  /**
   * `orderBy` accepts a direction exactly when it spells ASC or DESC in any mixture of cases, and
   * checks this before its set-once rule: an invalid direction is reported as such even when an
   * order was already set.
   */
  lemma OrderByValidatesDirectionFirst(s: State, field: string, order: string)
    ensures OrderBy(s, field, order) == Err(Invalid("Invalid order value"))
        <==> !(SpellsIgnoringCase(order, "ASC") || SpellsIgnoringCase(order, "DESC"))
  {
    UpperAsciiMatches(order, "ASC");
    UpperAsciiMatches(order, "DESC");
  }

  /** A second `orderBy` with a valid direction always fails. */
  lemma OrderByTwiceFails(s: State, f1: string, d1: string, f2: string, d2: string)
    requires OrderBy(s, f1, d1).Ok? && ValidDirection(d2)
    ensures OrderBy(OrderBy(s, f1, d1).value, f2, d2) == Err(Invalid("Order could be set only once"))
  {
  }

  /**
   * The order text names the builder's table even for a dotted field, and the direction is
   * upper-cased.
   */
  lemma OrderByDottedField()
    ensures OrderBy(Defaults("users"), "posts.id", "desc")
         == Ok(Defaults("users").(order := " ORDER BY users.posts.id DESC"))
  {
    var up := UpperAscii("desc");
    assert up[0] == 'D' && up[1] == 'E' && up[2] == 'S' && up[3] == 'C';
    assert up == "DESC";
    var s := Defaults("users");
    assert OrderBy(s, "posts.id", "desc") == Ok(s.(order := s.order + " ORDER BY " + s.table + "." + "posts.id" + " " + up));
    assert s.order + " ORDER BY " + s.table + "." + "posts.id" + " " + up == " ORDER BY users.posts.id DESC";
  }

  // ---------------------------------------------------------------- limit

  /**
   * `limit` checks the limit text but writes ` LIMIT n` into the order text, so the limit text
   * stays empty and a second `limit` succeeds as well.
   */
  lemma LimitTwiceSucceeds(s: State, a: int, b: int)
    requires s.limitStr == ""
    ensures Limit(s, Number(a)).Ok?
    ensures Limit(s, Number(a)).value == s.(order := s.order + " LIMIT " + Decimal(a))
    ensures Limit(Limit(s, Number(a)).value, Number(b)).Ok?
    ensures Limit(Limit(s, Number(a)).value, Number(b)).value.order
         == s.order + " LIMIT " + Decimal(a) + " LIMIT " + Decimal(b)
  {
  }

  /** After `limit`, `orderBy` reports that the order was already set. */
  lemma LimitThenOrderByFails(s: State, n: int, field: string, order: string)
    requires s.limitStr == "" && ValidDirection(order)
    ensures OrderBy(Limit(s, Number(n)).value, field, order) == Err(Invalid("Order could be set only once"))
  {
  }

  /** After `limit`, an UPDATE, DELETE or INSERT is rejected in the name of `orderBy`, not `limit`. */
  lemma LimitBlamesOrderBy(kind: Kind, s: State, n: int)
    requires kind != SelectStmt && |s.select| <= 1 && s.limitStr == ""
    ensures Check(kind, Limit(s, Number(n)).value) == Some(OrderByClause)
  {
  }

  /** No chain method ever writes the limit text. */
  lemma ChainLeavesLimitText(s: State, c: Call)
    requires Apply(s, c).Ok?
    ensures Apply(s, c).value.limitStr == s.limitStr
  {
  }

  /** From a fresh builder, "Limit could be set only once" can never be reported. */
  lemma {:induction false} LimitNeverRejectedTwice(table: string, calls: seq<Call>, q: Quantity)
    requires Run(Defaults(table), calls).Ok?
    ensures Limit(Run(Defaults(table), calls).value, q) != Err(Invalid("Limit could be set only once"))
  {
    RunLeavesLimitText(Defaults(table), calls);
  }

  lemma {:induction false} RunLeavesLimitText(s: State, calls: seq<Call>)
    requires Run(s, calls).Ok?
    ensures Run(s, calls).value.limitStr == s.limitStr
    decreases |calls|
  {
    if calls != [] {
      ChainLeavesLimitText(s, calls[0]);
      RunLeavesLimitText(Apply(s, calls[0]).value, calls[1..]);
    }
  }

  // ---------------------------------------------------------------- offset

  /** A second `offset` with a number always fails. */
  lemma OffsetTwiceFails(s: State, a: int, b: int)
    requires Offset(s, Number(a)).Ok?
    ensures Offset(Offset(s, Number(a)).value, Number(b)) == Err(Invalid("Offset could be set only once"))
  {
  }
}
