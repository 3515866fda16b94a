/** Values, rows and the string helpers the builder uses to assemble SQL text. */
module SqlText {

  /** A value bound to a `?` placeholder, or read back from a row. */
  datatype Value = Int(i: int) | Text(s: string) | Null | Undefined

  /** A row record as the execution channel returns it: column name to value. */
  type Row = map<string, Value>

  /** What the channel hands back on success: rows for a SELECT, metadata for the other statements. */
  datatype Data = Rows(rows: seq<Row>) | Info(meta: Row)

  /** The number of `?` placeholders in a piece of SQL text. */
  function Marks(s: string): nat
  {
    if s == [] then 0 else Marks(s[..|s| - 1]) + (if s[|s| - 1] == '?' then 1 else 0)
  }

  lemma {:induction false} MarksFree(s: string)
    requires '?' !in s
    ensures Marks(s) == 0
  {
    if s != [] {
      MarksFree(s[..|s| - 1]);
    }
  }

  /** Placeholders of concatenated text add up. */
  lemma {:induction false} MarksCat(a: string, b: string)
    ensures Marks(a + b) == Marks(a) + Marks(b)
    decreases |b|
  {
    if b != [] {
      assert (a + b)[..|a + b| - 1] == a + b[..|b| - 1];
      assert (a + b)[|a + b| - 1] == b[|b| - 1];
      MarksCat(a, b[..|b| - 1]);
    } else {
      assert a + b == a;
    }
  }

  /** `parts.join(sep)` of JavaScript arrays. */
  function JoinWith(parts: seq<string>, sep: string): string
  {
    if |parts| == 0 then ""
    else if |parts| == 1 then parts[0]
    else parts[0] + sep + JoinWith(parts[1..], sep)
  }

  /** Total number of placeholders in a list of fragments. */
  function SumMarks(parts: seq<string>): nat
  {
    if parts == [] then 0 else Marks(parts[0]) + SumMarks(parts[1..])
  }

  /** Joining with a separator free of `?` neither adds nor loses placeholders. */
  lemma {:induction false} JoinWithMarks(parts: seq<string>, sep: string)
    requires Marks(sep) == 0
    ensures Marks(JoinWith(parts, sep)) == SumMarks(parts)
  {
    if |parts| > 1 {
      JoinWithMarks(parts[1..], sep);
      MarksCat(parts[0], sep);
      MarksCat(parts[0] + sep, JoinWith(parts[1..], sep));
    }
  }

  /** A list of fragments none of which holds a placeholder sums to zero. */
  lemma {:induction false} SumMarksFree(parts: seq<string>)
    requires forall i | 0 <= i < |parts| :: Marks(parts[i]) == 0
    ensures SumMarks(parts) == 0
  {
    if parts != [] {
      SumMarksFree(parts[1..]);
    }
  }

  /** A list of fragments each holding one placeholder sums to its length. */
  lemma {:induction false} SumMarksOnes(parts: seq<string>)
    requires forall i | 0 <= i < |parts| :: Marks(parts[i]) == 1
    ensures SumMarks(parts) == |parts|
  {
    if parts != [] {
      SumMarksOnes(parts[1..]);
    }
  }

  /** The `?, ?, …, ?` list that `whereIn` emits for `n` values. */
  function Placeholders(n: nat): string
  {
    JoinWith(seq(n, _ => "?"), ", ")
  }

  /** The placeholder list for `n` values holds exactly `n` placeholders, and is empty for none. */
  lemma PlaceholdersCount(n: nat)
    ensures Marks(Placeholders(n)) == n
    ensures n == 0 <==> Placeholders(n) == ""
    ensures n == 1 ==> Placeholders(n) == "?"
  {
    MarksFree(", ");
    assert Marks("?") == 1;
    JoinWithMarks(seq(n, _ => "?"), ", ");
    SumMarksOnes(seq(n, _ => "?"));
  }

  function DigitChar(d: nat): (c: char)
    requires d < 10
    ensures '0' <= c <= '9'
  {
    ('0' as int + d) as char
  }

  /** Decimal digits of a natural number, most significant first. */
  function Digits(n: nat): (r: string)
    ensures |r| > 0
    ensures forall i | 0 <= i < |r| :: '0' <= r[i] <= '9'
  {
    if n < 10 then [DigitChar(n)] else Digits(n / 10) + [DigitChar(n % 10)]
  }

  /** The number a string of decimal digits denotes. */
  function DigitsValue(s: string): int
  {
    if s == [] then 0 else DigitsValue(s[..|s| - 1]) * 10 + (s[|s| - 1] as int - '0' as int)
  }

  /** Reading the digits back gives the number they were made from. */
  lemma {:induction false} DigitsRoundTrip(n: nat)
    ensures DigitsValue(Digits(n)) == n
  {
    if n >= 10 {
      var r := Digits(n);
      assert r[..|r| - 1] == Digits(n / 10);
      DigitsRoundTrip(n / 10);
    }
  }

  /** An integer as a JavaScript template literal prints it. */
  function Decimal(n: int): (r: string)
    ensures Marks(r) == 0
  {
    var r := if n < 0 then "-" + Digits(-n) else Digits(n);
    MarksFree(r);
    r
  }

  function UpperChar(c: char): char
  {
    if 'a' <= c <= 'z' then (c as int - 32) as char else c
  }

  /** `toUpperCase` restricted to ASCII letters. */
  function UpperAscii(s: string): string
  {
    seq(|s|, i requires 0 <= i < |s| => UpperChar(s[i]))
  }

  /** A word of capital letters spelt in any mixture of cases. */
  predicate SpellsIgnoringCase(s: string, w: string)
  {
    |s| == |w| && forall i | 0 <= i < |s| :: s[i] == w[i] || s[i] as int == w[i] as int + 32
  }

  /** Upper-casing yields a word of capital letters exactly when the input spells it in any case. */
  lemma UpperAsciiMatches(s: string, w: string)
    requires forall i | 0 <= i < |w| :: 'A' <= w[i] <= 'Z'
    ensures UpperAscii(s) == w <==> SpellsIgnoringCase(s, w)
  {
    if SpellsIgnoringCase(s, w) {
      assert forall i | 0 <= i < |s| :: UpperAscii(s)[i] == w[i];
    }
    if UpperAscii(s) == w {
      forall i | 0 <= i < |s| ensures s[i] == w[i] || s[i] as int == w[i] as int + 32 {
        assert UpperChar(s[i]) == w[i];
      }
    }
  }

  /** A field without a `.` is prefixed with the table name; a dotted field is kept as given. */
  function Qualify(table: string, field: string): string
  {
    if '.' in field then field else table + "." + field
  }
}
