/** Which tables survive being printed as rows and parsed again, and what every parse yields. */
module ContentTheorems {
  import opened Bytes
  import opened Content
  import opened ContentLines
  import opened ContentPrinting

  // Counting.

  lemma {:induction false} CountKept(lines: seq<string>, columns: seq<string>, rows: seq<Row>)
    ensures var r := AddLines(lines, columns, rows);
            r.Ok? ==> |r.value| == |rows| + CountRows(lines)
    decreases |lines|
  {
    if lines != [] {
      TrimmedRow(lines[0]);
      var added := AddLine(TrimCr(lines[0]), columns, rows);
      if added.Ok? {
        CountKept(lines[1..], columns, added.value);
      }
    }
  }

  /** A successful parse yields as many rows as there are row lines. */
  lemma ParsedRowsAreCounted(output: string, columns: seq<string>)
    ensures Rows(output, columns).Ok? ==> |Rows(output, columns).value| == CountRows(Lines(output))
  {
    CountKept(Lines(output), columns, []);
  }

  // What parsing yields.

  ghost predicate CleanRow(row: Row, columns: seq<string>) {
    exists values :: |values| == |columns| && Clean(values, columns) && row == Keyed(columns, values)
  }

  ghost predicate CleanRows(rows: seq<Row>, columns: seq<string>) {
    forall k :: 0 <= k < |rows| ==> CleanRow(rows[k], columns)
  }

  /** A value cut from a line of no newlines is unambiguous, as it ends at the leftmost delimiter. */
  lemma CutIsUnambiguous(text: string, next: string)
    requires '\n' !in text && Find(text, Delimiter(next)).Some?
    ensures Unambiguous(text[..Find(text, Delimiter(next)).value], next)
  {
    var d := Delimiter(next);
    var value := text[..Find(text, d).value];
    forall k: nat ensures !At(value, d, k) {
      if k + |d| <= |value| {
        assert !At(text, d, k);
        assert text[k..k + |d|] == value[k..k + |d|];
      }
    }
  }

  predicate EndOf(end: string, text: string) {
    |end| <= |text| && text[|text| - |end|..] == end
  }

  lemma NextFieldClean(fields: string, columns: seq<string>, i: nat)
    requires i < |columns| && '\n' !in fields && NextField(fields, columns, i).Ok?
    ensures var field := NextField(fields, columns, i).value;
            && (i + 1 < |columns| ==> Unambiguous(field.value, columns[i + 1]) && EndOf(field.rest, fields))
            && (i + 1 == |columns| ==> EndOf(field.value, fields))
  {
    var rest := fields[|columns[i] + "="|..];
    if i + 1 < |columns| {
      CutIsUnambiguous(rest, columns[i + 1]);
    }
  }

  predicate SeparableFrom(values: seq<string>, columns: seq<string>, i: nat)
    requires i + |values| == |columns|
  {
    forall j :: 0 <= j < |values| - 1 ==> Unambiguous(values[j], columns[i + 1 + j])
  }

  lemma EndsCompose(c: string, b: string, a: string)
    requires EndOf(c, b) && EndOf(b, a)
    ensures EndOf(c, a) && ('\n' !in a ==> '\n' !in b)
  {
    assert b[|b| - |c|..] == a[|a| - |c|..];
  }

  /** The values read from column `i` on are separable, and the last one ends the text. */
  predicate ReadClean(values: seq<string>, fields: string, columns: seq<string>, i: nat) {
    |values| > 0 && i + |values| == |columns| && SeparableFrom(values, columns, i)
    && EndOf(values[|values| - 1], fields)
  }

  lemma {:induction false} FieldsClean(fields: string, columns: seq<string>, i: nat)
    requires i < |columns| && '\n' !in fields && FieldValues(fields, columns, i).Ok?
    ensures ReadClean(FieldValues(fields, columns, i).value, fields, columns, i)
    decreases |columns| - i
  {
    NextFieldClean(fields, columns, i);
    var field := NextField(fields, columns, i).value;
    if i + 1 < |columns| {
      EndsCompose("", field.rest, fields);
      FieldsClean(field.rest, columns, i + 1);
      MoreClean(field, FieldValues(field.rest, columns, i + 1).value, fields, columns, i);
    }
  }

  lemma MoreClean(field: Field, more: seq<string>, fields: string, columns: seq<string>, i: nat)
    requires ReadClean(more, field.rest, columns, i + 1) && EndOf(field.rest, fields)
    requires Unambiguous(field.value, columns[i + 1])
    ensures ReadClean([field.value] + more, fields, columns, i)
  {
    EndsCompose(more[|more| - 1], field.rest, fields);
    SeparableMore(field.value, more, columns, i);
  }

  lemma SeparableMore(value: string, more: seq<string>, columns: seq<string>, i: nat)
    requires |more| > 0 && i + 1 + |more| == |columns|
    requires Unambiguous(value, columns[i + 1]) && SeparableFrom(more, columns, i + 1)
    ensures SeparableFrom([value] + more, columns, i)
  {
    var values := [value] + more;
    forall j | 0 <= j < |values| - 1 ensures Unambiguous(values[j], columns[i + 1 + j]) {
      if j > 0 {
        assert values[j] == more[j - 1] && columns[i + 2 + (j - 1)] == columns[i + 1 + j];
      }
    }
  }

  lemma SeparableAll(values: seq<string>, columns: seq<string>)
    requires |values| == |columns| && SeparableFrom(values, columns, 0)
    ensures Separable(values, columns)
  {
    forall j | 0 <= j < |values| - 1 ensures Unambiguous(values[j], columns[j + 1]) {
      assert columns[0 + 1 + j] == columns[j + 1];
    }
  }

  lemma NewRowClean(fields: string, columns: seq<string>)
    requires '\n' !in fields && !EndsInCr(fields) && RowOf(fields, columns).Ok?
    ensures CleanRow(RowOf(fields, columns).value, columns)
  {
    var values := FieldValues(fields, columns, 0).value;
    if columns != [] {
      FieldsClean(fields, columns, 0);
      SeparableAll(values, columns);
      EndContinues(values[|values| - 1], fields);
    }
    IsCleanRow(values, columns);
  }

  lemma EndContinues(last: string, fields: string)
    requires EndOf(last, fields) && '\n' !in fields && !EndsInCr(fields)
    ensures Continues(last)
  {
    assert last != "" ==> last[|last| - 1] == fields[|fields| - 1];
    EndsCompose("", last, fields);
    SplitOne(last);
  }

  lemma ContinuesMore(last: string, line: string)
    requires Continues(last) && '\n' !in line && Continuation(line)
    ensures Continues(last + ("\n" + line))
  {
    assert last + ("\n" + line) == last + "\n" + line;
    SplitMore(last, line);
    OneMorePiece(Split(last), line);
  }

  lemma OneMorePiece(pieces: seq<string>, line: string)
    requires |pieces| > 0 && Continuation(line) && forall k :: 1 <= k < |pieces| ==> Continuation(pieces[k])
    ensures (pieces + [line])[0] == pieces[0]
    ensures forall k :: 1 <= k < |pieces + [line]| ==> Continuation((pieces + [line])[k])
  {
  }

  lemma ContinuedClean(row: Row, columns: seq<string>, line: string)
    requires columns != [] && CleanRow(row, columns) && '\n' !in line && Continuation(line)
    ensures CleanRow(Continued(row, columns[|columns| - 1], line), columns)
  {
    var values :| |values| == |columns| && Clean(values, columns) && row == Keyed(columns, values);
    var front, last := values[..|values| - 1], values[|values| - 1];
    assert values == front + [last];
    KeyedContinued(columns, front, last, line);
    LongerCleanRow(front, last, columns, line);
  }

  lemma LongerCleanRow(front: seq<string>, last: string, columns: seq<string>, line: string)
    requires |front| + 1 == |columns| && Clean(front + [last], columns) && '\n' !in line && Continuation(line)
    ensures CleanRow(Keyed(columns, front + [last + ("\n" + line)]), columns)
  {
    var longer := last + ("\n" + line);
    assert (front + [last])[|front|] == last;
    ContinuesMore(last, line);
    LongerClean(front, last, longer, columns);
    IsCleanRow(front + [longer], columns);
  }

  lemma IsCleanRow(values: seq<string>, columns: seq<string>)
    requires |values| == |columns| && Clean(values, columns)
    ensures CleanRow(Keyed(columns, values), columns)
  {
  }

  lemma LongerClean(front: seq<string>, last: string, longer: string, columns: seq<string>)
    requires |front| + 1 == |columns| && Clean(front + [last], columns) && Continues(longer)
    ensures Clean(front + [longer], columns)
  {
    forall j | 0 <= j < |front| ensures Unambiguous((front + [longer])[j], columns[j + 1]) {
      assert Unambiguous((front + [last])[j], columns[j + 1]);
    }
  }

  lemma AddedClean(line: string, columns: seq<string>, rows: seq<Row>)
    requires '\n' !in line && !EndsInCr(line) && CleanRows(rows, columns) && AddLine(line, columns, rows).Ok?
    ensures CleanRows(AddLine(line, columns, rows).value, columns)
  {
    var added := AddLine(line, columns, rows).value;
    if IsRow(line) {
      FieldsOfLine(line);
      NewRowClean(Fields(line).value, columns);
    } else if line != "" && line != NOTHING {
      ContinuedClean(rows[|rows| - 1], columns, line);
    }
  }

  lemma FieldsOfLine(line: string)
    requires '\n' !in line && !EndsInCr(line) && IsRow(line) && Fields(line).Some?
    ensures '\n' !in Fields(line).value && !EndsInCr(Fields(line).value)
  {
    var fields := Fields(line).value;
    assert fields != "" ==> fields[|fields| - 1] == line[|line| - 1];
    assert forall k :: 0 <= k < |fields| ==> fields[k] == line[|line| - |fields| + k];
  }

  lemma {:induction false} AddLinesClean(lines: seq<string>, columns: seq<string>, rows: seq<Row>)
    requires forall k :: 0 <= k < |lines| ==> '\n' !in lines[k]
    requires CleanRows(rows, columns) && AddLines(lines, columns, rows).Ok?
    ensures CleanRows(AddLines(lines, columns, rows).value, columns)
    decreases |lines|
  {
    if lines != [] {
      TrimmedLine(lines[0]);
      AddedClean(TrimCr(lines[0]), columns, rows);
      AddLinesClean(lines[1..], columns, AddLine(TrimCr(lines[0]), columns, rows).value);
    }
  }

  /** What a line does that does not begin a row: nothing if it is empty or the notice; otherwise it goes
      on with the last column of the last row, after a newline, and it is an error without these. */
  lemma OtherLines(line: string, columns: seq<string>, rows: seq<Row>)
    requires !("Row: " <= line)
    ensures var r := AddLine(line, columns, rows);
            if line == "" || line == "No result found." then r == Ok(rows)
            else if columns == [] || rows == [] then r == Err(UnexpectedLine)
            else
              var n, column := |rows| - 1, columns[|columns| - 1];
              && r.Ok? && |r.value| == |rows| && r.value[..n] == rows[..n]
              && r.value[n].Keys == rows[n].Keys + {column}
              && (forall c :: c in rows[n] && c != column ==> r.value[n][c] == rows[n][c])
              && r.value[n][column] == (if column in rows[n] then rows[n][column] else "") + "\n" + line
  {
  }

  /** A line that begins a row adds one row, read from what is behind the blank after the row's number,
      or is an error; without a blank it has no fields. */
  lemma RowLines(number: string, fields: string, columns: seq<string>, rows: seq<Row>)
    requires ' ' !in number
    ensures AddLine("Row: " + number, columns, rows) == Err(RowWithoutFields)
    ensures AddLine("Row: " + number + " " + fields, columns, rows) ==
            match RowOf(fields, columns)
            case Err(e) => Err(e)
            case Ok(row) => Ok(rows + [row])
  {
    FieldsFound(number, fields);
    var line := "Row: " + number;
    assert line[5..] == number;
    assert IndexOf(number, ' ') == |number|;
  }

  /** Which column is missing: the one whose name does not come next, or the next one, if nothing
      separates its value from that of this one. */
  lemma FieldErrors(fields: string, columns: seq<string>, i: nat)
    requires i < |columns|
    ensures var named := columns[i] + "=" <= fields;
            var r := FieldValues(fields, columns, i);
            && (!named ==> r == Err(ExpectedColumn(columns[i])))
            && (named && i + 1 < |columns| && !Occurs(fields[|columns[i]| + 1..], ", " + columns[i + 1] + "=") ==>
                  r == Err(MissingColumn(columns[i + 1])))
            && (named && i + 1 == |columns| ==> r == Ok([fields[|columns[i]| + 1..]]))
  {
    if columns[i] + "=" <= fields && i + 1 < |columns| {
      var rest := fields[|columns[i]| + 1..];
      var at := Find(rest, Delimiter(columns[i + 1]));
      if at.Some? {
        assert At(rest, ", " + columns[i + 1] + "=", at.value);
      }
    }
    if columns[i] + "=" <= fields && i + 1 == |columns| {
      var value := fields[|columns[i]| + 1..];
      assert FieldValues("", columns, i + 1) == Ok([]);
      assert [value] + [] == [value];
    }
  }

  ghost predicate Occurs(s: string, pattern: string) {
    exists k: nat :: At(s, pattern, k)
  }

  /** Only carriage returns are trimmed, and all that are at the end. */
  lemma {:induction false} TrimCrIsExact(s: string)
    ensures var t := TrimCr(s);
            && t <= s && (forall k :: |t| <= k < |s| ==> s[k] == '\r')
            && (t != "" ==> t[|t| - 1] != '\r')
    decreases |s|
  {
    if s != "" && s[|s| - 1] == '\r' {
      TrimCrIsExact(s[..|s| - 1]);
    }
  }

  /** Whatever was parsed, all rows are clean. */
  lemma ParsedRowsAreClean(output: string, columns: seq<string>)
    requires Rows(output, columns).Ok?
    ensures CleanRows(Rows(output, columns).value, columns)
  {
    LinesHaveNoNewline(output);
    AddLinesClean(Lines(output), columns, []);
  }

  lemma {:induction false} KeyedHolds(columns: seq<string>, values: seq<string>, i: nat)
    requires i < |columns| == |values| && Projection(columns)
    ensures columns[i] in Keyed(columns, values) && Keyed(columns, values)[columns[i]] == values[i]
    decreases |columns|
  {
    var n := |columns| - 1;
    if i < n {
      assert columns[..n][i] == columns[i];
      KeyedHolds(columns[..n], values[..n], i);
    }
  }

  lemma KeyedIsOneToOne(columns: seq<string>, a: seq<string>, b: seq<string>)
    requires Projection(columns) && |a| == |b| == |columns| && Keyed(columns, a) == Keyed(columns, b)
    ensures a == b
  {
    forall i | 0 <= i < |a| ensures a[i] == b[i] {
      KeyedHolds(columns, a, i);
      KeyedHolds(columns, b, i);
    }
  }

  lemma {:induction false} KeyedRowAt(table: seq<seq<string>>, columns: seq<string>, k: nat)
    requires Rectangular(table, columns) && k < |table|
    ensures |KeyedRows(table, columns)| == |table| && KeyedRows(table, columns)[k] == Keyed(columns, table[k])
    decreases |table|
  {
    if |table| > 1 {
      KeyedRowAt(table[1..], columns, if k > 0 then k - 1 else 0);
    }
  }

  /** Printing and parsing gives a table back exactly if all its rows are clean. */
  lemma RoundTripIffClean(numbers: seq<string>, table: seq<seq<string>>, columns: seq<string>)
    requires Projection(columns) && |numbers| == |table| && Numbers(numbers) && Rectangular(table, columns)
    ensures Rows(PrintRows(numbers, table, columns), columns) == Ok(KeyedRows(table, columns))
            <==> forall k :: 0 <= k < |table| ==> Clean(table[k], columns)
  {
    var output := PrintRows(numbers, table, columns);
    if forall k :: 0 <= k < |table| ==> Clean(table[k], columns) {
      RowsReadBack(numbers, table, columns, []);
      assert [] + KeyedRows(table, columns) == KeyedRows(table, columns);
    }
    if Rows(output, columns) == Ok(KeyedRows(table, columns)) {
      ParsedRowsAreClean(output, columns);
      forall k | 0 <= k < |table| ensures Clean(table[k], columns) {
        KeyedRowAt(table, columns, k);
        var values :| |values| == |columns| && Clean(values, columns)
                      && Keyed(columns, table[k]) == Keyed(columns, values);
        KeyedIsOneToOne(columns, table[k], values);
      }
    }
  }
}
