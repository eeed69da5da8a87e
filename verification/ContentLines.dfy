/** Lines, pieces and trimming: what they make of a text put together again. */
module ContentLines {
  import opened Bytes
  import opened Content

  predicate EndsInCr(s: string) {
    s != "" && s[|s| - 1] == '\r'
  }

  lemma {:induction false} IndexOfSkips(a: string, c: char, b: string)
    requires c !in a
    ensures IndexOf(a + [c] + b, c) == |a|
  {
    var s := a + [c] + b;
    if a == "" {
      assert s[0] == c;
    } else {
      assert a[0] in a && s[0] == a[0] && s[1..] == a[1..] + [c] + b;
      IndexOfSkips(a[1..], c, b);
    }
  }

  lemma IndexOfMissing(s: string, c: char)
    requires c !in s
    ensures IndexOf(s, c) == |s|
  {
  }

  lemma SplitLine(a: string, b: string)
    requires '\n' !in a
    ensures Split(a + "\n" + b) == [a] + Split(b)
    ensures Lines(a + "\n" + b) == [a] + Lines(b)
  {
    var s := a + "\n" + b;
    IndexOfSkips(a, '\n', b);
    assert s[..|a|] == a && s[|a| + 1..] == b;
  }

  lemma SplitOne(s: string)
    requires '\n' !in s
    ensures Split(s) == [s]
  {
    IndexOfMissing(s, '\n');
  }

  /** A text with a newline is its first line, the newline, and the rest. */
  lemma {:induction false} Cut(s: string) returns (head: string, tail: string)
    requires '\n' in s
    ensures s == head + "\n" + tail && '\n' !in head
  {
    if s[0] == '\n' {
      head, tail := "", s[1..];
    } else {
      assert s == [s[0]] + s[1..];
      head, tail := Cut(s[1..]);
      head := [s[0]] + head;
    }
  }

  /** Lines of a text that starts with `a` and then has the value `v` to the end of a line. */
  lemma {:induction false} LinesOf(a: string, v: string, rest: string)
    requires '\n' !in a
    ensures Lines(a + v + "\n" + rest) == [a + Split(v)[0]] + Split(v)[1..] + Lines(rest)
    decreases |v|
  {
    if '\n' !in v {
      SplitLine(a + v, rest);
      SplitOne(v);
      assert [a + v] + [] == [a + v];
    } else {
      var head, tail := Cut(v);
      LinesOf("", tail, rest);
      SplitLine(head, tail);
      SplitLine(a + head, tail + "\n" + rest);
      LineText(a, head, tail, rest);
      FirstPiece(a + head, Split(tail), Lines(rest));
    }
  }

  lemma LineText(a: string, head: string, tail: string, rest: string)
    ensures a + (head + "\n" + tail) + "\n" + rest == a + head + "\n" + (tail + "\n" + rest)
    ensures "" + tail + "\n" + rest == tail + "\n" + rest
  {
  }

  lemma FirstPiece(first: string, pieces: seq<string>, more: seq<string>)
    requires pieces != []
    ensures ["" + pieces[0]] + pieces[1..] == pieces
    ensures [first] + (pieces + more) == [first] + pieces + more
  {
    assert "" + pieces[0] == pieces[0];
  }

  function Tail(pieces: seq<string>): string {
    if pieces == [] then "" else "\n" + pieces[0] + Tail(pieces[1..])
  }

  lemma {:induction false} Rejoined(v: string)
    ensures Split(v)[0] + Tail(Split(v)[1..]) == v
    decreases |v|
  {
    if '\n' !in v {
      SplitOne(v);
      assert v + "" == v;
    } else {
      var head, tail := Cut(v);
      SplitLine(head, tail);
      Rejoined(tail);
      assert Split(v)[1..] == Split(tail);
      TailStep(head, Split(tail));
    }
  }

  lemma TailStep(head: string, pieces: seq<string>)
    requires pieces != []
    ensures head + Tail(pieces) == head + "\n" + (pieces[0] + Tail(pieces[1..]))
  {
    FourRegrouped(head, "\n", pieces[0], Tail(pieces[1..]));
    Regrouped(head + "\n", pieces[0], Tail(pieces[1..]));
  }

  lemma MoreText(head: string, tail: string, line: string)
    ensures head + "\n" + tail + "\n" + line == head + "\n" + (tail + "\n" + line)
  {
  }

  lemma {:induction false} SplitMore(v: string, line: string)
    requires '\n' !in line
    ensures Split(v + "\n" + line) == Split(v) + [line]
    decreases |v|
  {
    SplitOne(line);
    if '\n' !in v {
      SplitOne(v);
      SplitLine(v, line);
    } else {
      var head, tail := Cut(v);
      SplitMore(tail, line);
      SplitLine(head, tail + "\n" + line);
      SplitLine(head, tail);
      MoreText(head, tail, line);
      FirstPiece(head, Split(tail), [line]);
    }
  }

  lemma {:induction false} LinesHaveNoNewline(s: string)
    ensures forall k :: 0 <= k < |Lines(s)| ==> '\n' !in Lines(s)[k]
    decreases |s|
  {
    var at := IndexOf(s, '\n');
    if at < |s| {
      LinesHaveNoNewline(s[at + 1..]);
    } else {
      assert s[..at] == s;
    }
  }

  lemma {:induction false} TrimmedLine(s: string)
    ensures TrimCr(s) <= s && !EndsInCr(TrimCr(s))
    ensures forall k :: |TrimCr(s)| <= k < |s| ==> s[k] == '\r'
    ensures !EndsInCr(s) ==> TrimCr(s) == s
    ensures '\n' !in s ==> '\n' !in TrimCr(s)
    decreases |s|
  {
    if EndsInCr(s) {
      TrimmedLine(s[..|s| - 1]);
    }
  }

  /** Trimming does not change whether a line is a row. */
  lemma TrimmedRow(s: string)
    ensures IsRow(TrimCr(s)) == IsRow(s)
  {
    TrimmedLine(s);
    var t := TrimCr(s);
    assert forall k :: 0 <= k < |ROW| ==> ROW[k] != '\r';
    assert IsRow(s) ==> forall k :: 0 <= k < |ROW| ==> s[k] == ROW[k];
    assert |t| < |s| ==> s[|t|] == '\r';
  }
}
