/** Tables printed as rows, and when a printed row is read back. */
module ContentPrinting {
  import opened Bytes
  import opened Content
  import opened ContentLines
  import Quoting

  /** Printing: the fields up to and including the last column's `=`, then the last value. */
  function Front(values: seq<string>, columns: seq<string>, i: nat): string
    requires i < |columns| == |values|
    decreases |columns| - i
  {
    if i + 1 == |columns| then columns[i] + "="
    else columns[i] + "=" + (values[i] + (", " + Front(values, columns, i + 1)))
  }

  function PrintFields(values: seq<string>, columns: seq<string>): string
    requires |values| == |columns| > 0
  {
    Front(values, columns, 0) + values[|values| - 1]
  }

  function PrintRow(number: string, values: seq<string>, columns: seq<string>): string
    requires |values| == |columns| > 0
  {
    ROW + number + " " + PrintFields(values, columns)
  }

  /** `column=value` for every column. */
  function Pairs(values: seq<string>, columns: seq<string>): seq<string>
    requires |values| == |columns|
  {
    seq(|columns|, k requires 0 <= k < |columns| => columns[k] + "=" + values[k])
  }

  lemma {:induction false} FrontIsPairs(values: seq<string>, columns: seq<string>, i: nat)
    requires i < |columns| == |values|
    ensures Front(values, columns, i) + values[|values| - 1]
            == Quoting.Joined(Pairs(values, columns)[i..], ", ")
    decreases |columns| - i
  {
    var pairs := Pairs(values, columns);
    if i + 1 == |columns| {
      assert pairs[i..] == [pairs[i]];
    } else {
      FrontIsPairs(values, columns, i + 1);
      assert pairs[i..][0] == pairs[i] && pairs[i..][1..] == pairs[i + 1..];
      FrontGrouped(columns[i] + "=", values[i], ", ", Front(values, columns, i + 1), values[|values| - 1]);
    }
  }

  lemma FrontGrouped(a: string, b: string, c: string, d: string, e: string)
    ensures a + (b + (c + d)) + e == a + b + c + (d + e)
  {
  }

  /** The text of a row: `Row: `, its number, and the pairs separated by a comma and a blank. */
  lemma PrintedText(number: string, values: seq<string>, columns: seq<string>)
    requires |values| == |columns| > 0
    ensures PrintRow(number, values, columns) ==
            "Row: " + number + " " + Quoting.Joined(Pairs(values, columns), ", ")
  {
    FrontIsPairs(values, columns, 0);
    assert Pairs(values, columns)[0..] == Pairs(values, columns);
  }

  predicate Rectangular(table: seq<seq<string>>, columns: seq<string>) {
    forall k :: 0 <= k < |table| ==> |table[k]| == |columns|
  }

  /** Rows one per line, numbered in any way. */
  function PrintRows(numbers: seq<string>, table: seq<seq<string>>, columns: seq<string>): string
    requires |numbers| == |table| && |columns| > 0 && Rectangular(table, columns)
  {
    if table == [] then ""
    else PrintRow(numbers[0], table[0], columns) + "\n" + PrintRows(numbers[1..], table[1..], columns)
  }

  function KeyedRows(table: seq<seq<string>>, columns: seq<string>): seq<Row>
    requires Rectangular(table, columns)
  {
    if table == [] then [] else [Keyed(columns, table[0])] + KeyedRows(table[1..], columns)
  }

  /** A projection of distinct columns without newlines and `=`. */
  predicate Projection(columns: seq<string>) {
    && |columns| > 0
    && (forall i, j :: 0 <= i < j < |columns| ==> columns[i] != columns[j])
    && (forall i :: 0 <= i < |columns| ==> '\n' !in columns[i] && '=' !in columns[i])
  }

  predicate Numbers(numbers: seq<string>) {
    forall k :: 0 <= k < |numbers| ==> '\n' !in numbers[k] && ' ' !in numbers[k]
  }

  predicate Continuation(piece: string) {
    piece != "" && piece != NOTHING && !IsRow(piece) && !EndsInCr(piece)
  }

  /** An earlier value must not hide the next column; nor may it have a newline. */
  predicate Unambiguous(value: string, next: string) {
    '\n' !in value && Find(value, Delimiter(next)).None?
  }

  predicate Separable(values: seq<string>, columns: seq<string>)
    requires |values| == |columns|
  {
    forall i :: 0 <= i < |values| - 1 ==> Unambiguous(values[i], columns[i + 1])
  }

  /** The last value's lines must not be mistaken for anything else, or be trimmed. */
  predicate Continues(value: string) {
    && !EndsInCr(Split(value)[0])
    && forall k :: 1 <= k < |Split(value)| ==> Continuation(Split(value)[k])
  }

  predicate Clean(values: seq<string>, columns: seq<string>) {
    && |values| == |columns|
    && Separable(values, columns)
    && (columns != [] ==> Continues(values[|values| - 1]))
  }

  // One row.

  lemma DelimiterEnds(next: string)
    requires '=' !in next
    ensures var d := Delimiter(next);
            d[|d| - 1] == '=' && forall j :: 0 <= j < |d| - 1 ==> d[j] != '='
  {
    var d := Delimiter(next);
    forall j | 0 <= j < |d| - 1 ensures d[j] != '=' {
      assert j >= 2 ==> d[j] == next[j - 2];
    }
  }

  lemma NoDelimiterBefore(value: string, next: string, more: string, k: nat)
    requires Find(value, Delimiter(next)).None? && '=' !in next && k < |value|
    ensures !At(value + (", " + (next + "=" + more)), Delimiter(next), k)
  {
    var d := Delimiter(next);
    var s := value + (", " + (next + "=" + more));
    assert s == value + d + more;
    if k + |d| <= |value| {
      assert !At(value, d, k);
      assert s[k..k + |d|] == value[k..k + |d|];
    } else {
      DelimiterEnds(next);
      var j := k + |d| - 1 - |value|;
      assert s[k + |d| - 1] == d[j];
      assert s[k..k + |d|][|d| - 1] == s[k + |d| - 1];
    }
  }

  /** An unambiguous value ends where the next column starts. */
  lemma ValueEnds(value: string, next: string, more: string)
    requires Find(value, Delimiter(next)).None? && '=' !in next
    ensures Find(value + (", " + (next + "=" + more)), Delimiter(next)) == Some(|value|)
  {
    var d := Delimiter(next);
    var s := value + (", " + (next + "=" + more));
    assert s == value + d + more;
    assert At(s, d, |value|);
    forall k: nat | k < |value| ensures !At(s, d, k) {
      NoDelimiterBefore(value, next, more, k);
    }
  }

  lemma FrontStarts(values: seq<string>, columns: seq<string>, i: nat)
    requires i < |columns| == |values|
    ensures columns[i] + "=" <= Front(values, columns, i)
  {
  }

  lemma FieldParsed(values: seq<string>, columns: seq<string>, i: nat, last: string)
    requires Projection(columns) && i + 1 < |columns| == |values| && Unambiguous(values[i], columns[i + 1])
    ensures NextField(Front(values, columns, i) + last, columns, i)
            == Ok(Field(values[i], Front(values, columns, i + 1) + last))
  {
    var prefix, more := columns[i] + "=", Front(values, columns, i + 1) + last;
    FrontStarts(values, columns, i + 1);
    var start := columns[i + 1] + "=";
    var rest := values[i] + (", " + more);
    FrontText(prefix, values[i], Front(values, columns, i + 1), last);
    ValueEnds(values[i], columns[i + 1], more[|start|..]);
    assert more == start + more[|start|..];
    assert rest[..|values[i]|] == values[i] && rest[|values[i]| + 2..] == more;
  }

  lemma FrontText(prefix: string, value: string, front: string, last: string)
    ensures var fields := prefix + (value + (", " + front)) + last;
            fields == prefix + (value + (", " + (front + last)))
            && fields[|prefix|..] == value + (", " + (front + last))
  {
  }

  lemma LastFieldParsed(values: seq<string>, columns: seq<string>, i: nat, last: string)
    requires i + 1 == |columns| == |values|
    ensures NextField(Front(values, columns, i) + last, columns, i) == Ok(Field(last, ""))
  {
    assert (columns[i] + "=" + last)[|columns[i] + "="|..] == last;
  }

  lemma ThenField(fields: string, columns: seq<string>, i: nat, field: Field, more: seq<string>)
    requires i < |columns| && NextField(fields, columns, i) == Ok(field)
    requires FieldValues(field.rest, columns, i + 1) == Ok(more)
    ensures FieldValues(fields, columns, i) == Ok([field.value] + more)
  {
  }

  lemma ValuesFrom(values: seq<string>, i: nat, last: string)
    requires i < |values|
    ensures i + 1 == |values| ==> values[i..|values| - 1] + [last] == [last] + []
    ensures i + 1 < |values| ==>
              [values[i]] + (values[i + 1..|values| - 1] + [last]) == values[i..|values| - 1] + [last]
  {
  }

  /** The printed fields from column `i` on, with `last` at the end, are read back. */
  predicate Read(values: seq<string>, columns: seq<string>, i: nat, last: string)
    requires i < |columns| == |values|
  {
    FieldValues(Front(values, columns, i) + last, columns, i) == Ok(values[i..|values| - 1] + [last])
  }

  lemma FieldsParsedLast(values: seq<string>, columns: seq<string>, i: nat, last: string)
    requires i + 1 == |columns| == |values|
    ensures Read(values, columns, i, last)
  {
    LastFieldParsed(values, columns, i, last);
    ThenField(Front(values, columns, i) + last, columns, i, Field(last, ""), []);
    ValuesFrom(values, i, last);
  }

  lemma FieldsParsedStep(values: seq<string>, columns: seq<string>, i: nat, last: string)
    requires Projection(columns) && i + 1 < |columns| == |values| && Separable(values, columns)
    requires Read(values, columns, i + 1, last)
    ensures Read(values, columns, i, last)
  {
    var rest := Front(values, columns, i + 1) + last;
    FieldParsed(values, columns, i, last);
    ThenField(Front(values, columns, i) + last, columns, i, Field(values[i], rest),
              values[i + 1..|values| - 1] + [last]);
    ValuesFrom(values, i, last);
  }

  lemma {:induction false} FieldsParsed(values: seq<string>, columns: seq<string>, i: nat, last: string)
    requires Projection(columns) && i < |columns| == |values| && Separable(values, columns)
    ensures Read(values, columns, i, last)
    decreases |columns| - i
  {
    if i + 1 == |columns| {
      FieldsParsedLast(values, columns, i, last);
    } else {
      FieldsParsed(values, columns, i + 1, last);
      FieldsParsedStep(values, columns, i, last);
    }
  }

  lemma {:induction false} FrontHasNoNewline(values: seq<string>, columns: seq<string>, i: nat)
    requires Projection(columns) && i < |columns| == |values|
    requires Separable(values, columns)
    ensures '\n' !in Front(values, columns, i)
    decreases |columns| - i
  {
    if i + 1 < |columns| {
      FrontHasNoNewline(values, columns, i + 1);
    }
  }

  /** What a row line without its newline means: one more row, with the line's end as last value. */
  lemma RowLine(number: string, values: seq<string>, columns: seq<string>, last: string, rows: seq<Row>)
    requires Projection(columns) && |columns| == |values| && ' ' !in number
    requires Separable(values, columns)
    ensures AddLine(ROW + number + " " + (Front(values, columns, 0) + last), columns, rows)
            == Ok(rows + [Keyed(columns, values[..|values| - 1] + [last])])
  {
    FieldsFound(number, Front(values, columns, 0) + last);
    FieldsParsed(values, columns, 0, last);
    assert values[0..|values| - 1] == values[..|values| - 1];
  }

  lemma FieldsFound(number: string, fields: string)
    requires ' ' !in number
    ensures var line := ROW + number + " " + fields; IsRow(line) && Fields(line) == Some(fields)
  {
    var line, rest := ROW + number + " " + fields, number + " " + fields;
    assert line == ROW + rest;
    assert line[|ROW|..] == rest;
    IndexOfSkips(number, ' ', fields);
    assert rest[|number| + 1..] == fields;
  }

  lemma FrontEnds(values: seq<string>, columns: seq<string>, i: nat, last: string)
    requires i < |columns| == |values|
    ensures EndsInCr(Front(values, columns, i) + last) <==> EndsInCr(last)
    decreases |columns| - i
  {
    if i + 1 < |columns| {
      FrontEnds(values, columns, i + 1, last);
      var more := Front(values, columns, i + 1);
      assert Front(values, columns, i) + last == columns[i] + "=" + (values[i] + (", " + (more + last)));
    }
  }

  // Whole tables.

  lemma {:induction false} AddLinesInTurn(a: seq<string>, b: seq<string>, columns: seq<string>, rows: seq<Row>)
    ensures AddLines(a + b, columns, rows)
            == var r := AddLines(a, columns, rows); if r.Err? then r else AddLines(b, columns, r.value)
    decreases |a|
  {
    if a == [] {
      assert a + b == b;
    } else {
      assert (a + b)[1..] == a[1..] + b;
      var added := AddLine(TrimCr(a[0]), columns, rows);
      if added.Ok? {
        AddLinesInTurn(a[1..], b, columns, added.value);
      }
    }
  }

  lemma KeyedContinued(columns: seq<string>, values: seq<string>, last: string, line: string)
    requires |columns| == |values| + 1
    ensures Continued(Keyed(columns, values + [last]), columns[|columns| - 1], line)
            == Keyed(columns, values + [last + ("\n" + line)])
  {
    assert (values + [last])[..|values|] == values && (values + [last + ("\n" + line)])[..|values|] == values;
    assert last + "\n" + line == last + ("\n" + line);
  }

  /** Continuation lines extend the last row's last value. */
  lemma {:induction false} ContinuationsAdded(pieces: seq<string>, columns: seq<string>, rows: seq<Row>,
                                              values: seq<string>, last: string)
    requires |columns| == |values| + 1 && forall k :: 0 <= k < |pieces| ==> Continuation(pieces[k])
    ensures AddLines(pieces, columns, rows + [Keyed(columns, values + [last])])
            == Ok(rows + [Keyed(columns, values + [last + Tail(pieces)])])
    decreases |pieces|
  {
    if pieces == [] {
      assert last + "" == last;
    } else {
      var before := rows + [Keyed(columns, values + [last])];
      var grown := last + ("\n" + pieces[0]);
      assert Continuation(pieces[0]);
      TrimmedLine(pieces[0]);
      KeyedContinued(columns, values, last, pieces[0]);
      assert before[..|before| - 1] == rows;
      assert AddLine(pieces[0], columns, before) == Ok(rows + [Keyed(columns, values + [grown])]);
      ContinuationsAdded(pieces[1..], columns, rows, values, grown);
      assert grown + Tail(pieces[1..]) == last + ("\n" + pieces[0] + Tail(pieces[1..]));
    }
  }

  lemma FirstLineAdded(number: string, values: seq<string>, columns: seq<string>, last: string, rows: seq<Row>)
    requires Projection(columns) && 0 < |columns| == |values| && ' ' !in number
    requires Separable(values, columns) && !EndsInCr(last)
    ensures AddLines([ROW + number + " " + Front(values, columns, 0) + last], columns, rows)
            == Ok(rows + [Keyed(columns, values[..|values| - 1] + [last])])
  {
    var front := Front(values, columns, 0);
    var line := ROW + number + " " + front + last;
    assert line == ROW + number + " " + (front + last);
    RowLine(number, values, columns, last, rows);
    LineNotTrimmed(ROW + number + " ", front, values, columns, last);
    assert [line][1..] == [];
  }

  /** The lines of a clean row add the row. */
  lemma RowLinesAdded(number: string, values: seq<string>, columns: seq<string>, rows: seq<Row>)
    requires Projection(columns) && 0 < |columns| == |values| && Clean(values, columns) && ' ' !in number
    ensures var pieces := Split(values[|values| - 1]);
            AddLines([ROW + number + " " + Front(values, columns, 0) + pieces[0]] + pieces[1..], columns, rows)
            == Ok(rows + [Keyed(columns, values)])
  {
    var n := |values| - 1;
    var front, pieces := Front(values, columns, 0), Split(values[n]);
    var line := ROW + number + " " + front + pieces[0];
    FirstLineAdded(number, values, columns, pieces[0], rows);
    AddLinesInTurn([line], pieces[1..], columns, rows);
    assert forall k :: 0 <= k < |pieces| - 1 ==> pieces[1..][k] == pieces[k + 1];
    ContinuationsAdded(pieces[1..], columns, rows, values[..n], pieces[0]);
    Rejoined(values[n]);
    assert values[..n] + [values[n]] == values;
  }

  /** A clean row, printed, is read back before whatever follows it. */
  lemma RowReadBack(number: string, values: seq<string>, columns: seq<string>, rest: string, rows: seq<Row>)
    requires Projection(columns) && 0 < |columns| == |values| && Clean(values, columns)
    requires '\n' !in number && ' ' !in number
    ensures AddLines(Lines(PrintRow(number, values, columns) + "\n" + rest), columns, rows)
            == AddLines(Lines(rest), columns, rows + [Keyed(columns, values)])
  {
    var front, last := Front(values, columns, 0), values[|values| - 1];
    var start := ROW + number + " " + front;
    FrontHasNoNewline(values, columns, 0);
    assert PrintRow(number, values, columns) == start + last;
    LinesOf(start, last, rest);
    RowLinesAdded(number, values, columns, rows);
    AddLinesInTurn([start + Split(last)[0]] + Split(last)[1..], Lines(rest), columns, rows);
  }

  lemma LineNotTrimmed(head: string, front: string, values: seq<string>, columns: seq<string>, last: string)
    requires 0 < |columns| == |values| && front == Front(values, columns, 0) && !EndsInCr(last)
    ensures TrimCr(head + front + last) == head + front + last
  {
    FrontEnds(values, columns, 0, last);
    FrontStarts(values, columns, 0);
    var line := head + front + last;
    assert line[|line| - 1] == (front + last)[|front + last| - 1];
    TrimmedLine(line);
  }

  lemma OneMoreRow(rows: seq<Row>, row: Row, more: seq<Row>)
    ensures rows + [row] + more == rows + ([row] + more)
  {
  }

  lemma {:induction false} RowsReadBack(numbers: seq<string>, table: seq<seq<string>>, columns: seq<string>,
                                        rows: seq<Row>)
    requires Projection(columns) && |numbers| == |table| && Numbers(numbers) && Rectangular(table, columns)
    requires forall k :: 0 <= k < |table| ==> Clean(table[k], columns)
    ensures AddLines(Lines(PrintRows(numbers, table, columns)), columns, rows) == Ok(rows + KeyedRows(table, columns))
    decreases |table|
  {
    if table == [] {
      assert rows + [] == rows;
    } else {
      var row := Keyed(columns, table[0]);
      RowReadBack(numbers[0], table[0], columns, PrintRows(numbers[1..], table[1..], columns), rows);
      RowsReadBack(numbers[1..], table[1..], columns, rows + [row]);
      OneMoreRow(rows, row, KeyedRows(table[1..], columns));
    }
  }
}
