/** The rows that `content query` prints, as the parser reads them. */
module Content {
  import opened Bytes

  datatype ContentError =
    | UnexpectedLine | RowWithoutFields | ExpectedColumn(column: string) | MissingColumn(column: string)

  type Row = map<string, string>

  const ROW := "Row: "
  const NOTHING := "No result found."

  /** The first position of `c` in `s`, or the end. */
  function IndexOf(s: string, c: char): (at: nat)
    ensures at <= |s| && (at < |s| ==> s[at] == c) && c !in s[..at]
  {
    if s == "" || s[0] == c then 0
    else
      var at := 1 + IndexOf(s[1..], c);
      assert s[..at] == [s[0]] + s[1..][..at - 1];
      at
  }

  predicate At(s: string, pattern: string, k: nat) {
    k + |pattern| <= |s| && s[k..k + |pattern|] == pattern
  }

  /** `find`: the leftmost occurrence. */
  function Find(s: string, pattern: string): (at: Option<nat>)
    ensures at.Some? ==> At(s, pattern, at.value) && forall k: nat :: k < at.value ==> !At(s, pattern, k)
    ensures at.None? ==> forall k: nat :: !At(s, pattern, k)
  {
    FindFrom(s, pattern, 0)
  }

  function FindFrom(s: string, pattern: string, from: nat): (at: Option<nat>)
    ensures at.Some? ==> from <= at.value && At(s, pattern, at.value)
    ensures at.Some? ==> forall k: nat :: from <= k < at.value ==> !At(s, pattern, k)
    ensures at.None? ==> forall k: nat :: from <= k ==> !At(s, pattern, k)
    decreases |s| + 1 - from
  {
    if from > |s| then None
    else if At(s, pattern, from) then Some(from)
    else FindFrom(s, pattern, from + 1)
  }

  /** The pieces between newlines, at least one. */
  function Split(s: string): (pieces: seq<string>)
    ensures |pieces| > 0
  {
    var at := IndexOf(s, '\n');
    if at == |s| then [s] else [s[..at]] + Split(s[at + 1..])
  }

  /** `lines`, before carriage returns are dropped: the pieces, but not an empty one at the end. */
  function Lines(s: string): seq<string> {
    var at := IndexOf(s, '\n');
    if s == "" then [] else if at == |s| then [s] else [s[..at]] + Lines(s[at + 1..])
  }

  function TrimCr(s: string): string {
    if s != "" && s[|s| - 1] == '\r' then TrimCr(s[..|s| - 1]) else s
  }

  predicate IsRow(line: string) {
    ROW <= line
  }

  function CountRows(lines: seq<string>): nat {
    if lines == [] then 0 else (if IsRow(lines[0]) then 1 else 0) + CountRows(lines[1..])
  }

  function Delimiter(column: string): string {
    ", " + column + "="
  }

  datatype Field = Field(value: string, rest: string)

  /** The value of column `i`, up to the next column's delimiter, and the text from that column on. */
  function NextField(fields: string, columns: seq<string>, i: nat): Result<Field, ContentError>
    requires i < |columns|
  {
    var prefix := columns[i] + "=";
    if !(prefix <= fields) then Err(ExpectedColumn(columns[i]))
    else
      var rest := fields[|prefix|..];
      if i + 1 == |columns| then Ok(Field(rest, ""))
      else
        var at := Find(rest, Delimiter(columns[i + 1]));
        if at.None? then Err(MissingColumn(columns[i + 1]))
        else Ok(Field(rest[..at.value], rest[at.value + 2..]))
  }

  function FieldValues(fields: string, columns: seq<string>, i: nat): (r: Result<seq<string>, ContentError>)
    requires i <= |columns|
    ensures r.Ok? ==> |r.value| == |columns| - i
    decreases |columns| - i
  {
    if i == |columns| then Ok([])
    else
      match NextField(fields, columns, i)
      case Err(e) => Err(e)
      case Ok(field) => After([field.value], FieldValues(field.rest, columns, i + 1))
  }

  function After(values: seq<string>, more: Result<seq<string>, ContentError>): Result<seq<string>, ContentError> {
    if more.Err? then more else Ok(values + more.value)
  }

  /** The values keyed by column; a later column of the same name replaces an earlier one. */
  function Keyed(columns: seq<string>, values: seq<string>): Row
    requires |columns| == |values|
  {
    if columns == [] then map[]
    else Keyed(columns[..|columns| - 1], values[..|values| - 1])[columns[|columns| - 1] := values[|values| - 1]]
  }

  function RowOf(fields: string, columns: seq<string>): Result<Row, ContentError> {
    match FieldValues(fields, columns, 0)
    case Err(e) => Err(e)
    case Ok(values) => Ok(Keyed(columns, values))
  }

  lemma AfterNothing(more: Result<seq<string>, ContentError>)
    ensures After([], more) == more
  {
    if more.Ok? {
      assert [] + more.value == more.value;
    }
  }

  lemma AfterBoth(values: seq<string>, value: string, more: Result<seq<string>, ContentError>)
    ensures After(values, After([value], more)) == After(values + [value], more)
  {
    if more.Ok? {
      assert values + ([value] + more.value) == values + [value] + more.value;
    }
  }

  lemma KeyedMore(columns: seq<string>, values: seq<string>, column: string, value: string)
    requires |columns| == |values|
    ensures Keyed(columns + [column], values + [value]) == Keyed(columns, values)[column := value]
  {
    assert (columns + [column])[..|columns|] == columns && (values + [value])[..|values|] == values;
  }

  method ParseFields(fields: string, columns: seq<string>) returns (r: Result<Row, ContentError>)
    ensures r == RowOf(fields, columns)
  {
    var row: Row := map[];
    var rest := fields;
    ghost var values := [];
    AfterNothing(FieldValues(fields, columns, 0));
    for i := 0 to |columns|
      invariant |values| == i && row == Keyed(columns[..i], values)
      invariant FieldValues(fields, columns, 0) == After(values, FieldValues(rest, columns, i))
    {
      var prefix := columns[i] + "=";
      if !(prefix <= rest) {
        return Err(ExpectedColumn(columns[i]));
      }
      ghost var before := rest;
      rest := rest[|prefix|..];
      var value := rest;
      if i + 1 < |columns| {
        var at := Find(rest, Delimiter(columns[i + 1]));
        if at.None? {
          return Err(MissingColumn(columns[i + 1]));
        }
        value := rest[..at.value];
        rest := rest[at.value + 2..];
      } else {
        rest := "";
      }
      assert NextField(before, columns, i) == Ok(Field(value, rest));
      AfterBoth(values, value, FieldValues(rest, columns, i + 1));
      KeyedMore(columns[..i], values, columns[i], value);
      assert columns[..i + 1] == columns[..i] + [columns[i]];
      row := row[columns[i] := value];
      values := values + [value];
    }
    assert columns[..|columns|] == columns && values + [] == values;
    r := Ok(row);
  }

  /** The text after the row's number, none if there is no blank after it. */
  function Fields(line: string): Option<string>
    requires IsRow(line)
  {
    var rest := line[|ROW|..];
    var at := IndexOf(rest, ' ');
    if at == |rest| then None else Some(rest[at + 1..])
  }

  /** What one trimmed line does to the rows read before it. */
  function AddLine(line: string, columns: seq<string>, rows: seq<Row>): Result<seq<Row>, ContentError> {
    if IsRow(line) then
      if Fields(line).None? then Err(RowWithoutFields)
      else
        match RowOf(Fields(line).value, columns)
        case Err(e) => Err(e)
        case Ok(row) => Ok(rows + [row])
    else if line == "" || line == NOTHING then Ok(rows)
    else if columns == [] || rows == [] then Err(UnexpectedLine)
    else Ok(rows[..|rows| - 1] + [Continued(rows[|rows| - 1], columns[|columns| - 1], line)])
  }

  function Continued(row: Row, column: string, line: string): Row {
    row[column := (if column in row then row[column] else "") + "\n" + line]
  }

  function AddLines(lines: seq<string>, columns: seq<string>, rows: seq<Row>): Result<seq<Row>, ContentError> {
    if lines == [] then Ok(rows)
    else
      match AddLine(TrimCr(lines[0]), columns, rows)
      case Err(e) => Err(e)
      case Ok(more) => AddLines(lines[1..], columns, more)
  }

  function Rows(output: string, columns: seq<string>): Result<seq<Row>, ContentError> {
    AddLines(Lines(output), columns, [])
  }

  method ParseRows(output: string, columns: seq<string>) returns (r: Result<seq<Row>, ContentError>)
    ensures r == Rows(output, columns)
  {
    var rows: seq<Row> := [];
    var lines := Lines(output);
    for i := 0 to |lines|
      invariant Rows(output, columns) == AddLines(lines[i..], columns, rows)
    {
      assert lines[i..][0] == lines[i] && lines[i..][1..] == lines[i + 1..];
      var line := TrimCr(lines[i]);
      if IsRow(line) {
        var fields := Fields(line);
        if fields.None? {
          return Err(RowWithoutFields);
        }
        var row := ParseFields(fields.value, columns);
        if row.Err? {
          return Err(row.error);
        }
        rows := rows + [row.value];
      } else if line != "" && line != NOTHING {
        if columns == [] || rows == [] {
          return Err(UnexpectedLine);
        }
        var last := |rows| - 1;
        rows := rows[..last] + [Continued(rows[last], columns[|columns| - 1], line)];
      }
    }
    r := Ok(rows);
  }
}
