/** `quote`, and how a POSIX shell takes it apart again. Strings are sequences of Unicode scalar
    values; a byte of a non-ASCII character is never one of the safe ones. */
module Quoting {

  import opened Bytes

  predicate Alphanumeric(c: char) {
    'a' <= c <= 'z' || 'A' <= c <= 'Z' || '0' <= c <= '9'
  }

  predicate Safe(c: char) {
    Alphanumeric(c) || c in {'-', '_', '.', '/', ':', '=', '@', ','}
  }

  predicate AllSafe(s: string) {
    forall k :: 0 <= k < |s| ==> Safe(s[k])
  }

  /** `replace('\'', "'\\''")`. */
  function Escape(s: string): string {
    if s == "" then "" else (if s[0] == '\'' then "'\\''" else [s[0]]) + Escape(s[1..])
  }

  function Quote(arg: string): string {
    if arg != "" && AllSafe(arg) then arg else "'" + Escape(arg) + "'"
  }

  /** Exactly the arguments of letters, digits and `-_./:=@,` are left as they are; any other one,
      the empty one included, is put in single quotes. */
  lemma QuotedOnlyIfNeeded(arg: string)
    ensures Quote(arg) == arg <==>
              arg != "" && forall c :: c in arg ==>
                'a' <= c <= 'z' || 'A' <= c <= 'Z' || '0' <= c <= '9' || c in "-_./:=@,"
    ensures Quote(arg) != arg ==> |Quote(arg)| >= 2 && Quote(arg)[0] == Quote(arg)[|Quote(arg)| - 1] == '\''
  {
    assert forall k :: 0 <= k < |arg| ==> arg[k] in arg;
    if !AllSafe(arg) {
      var k :| 0 <= k < |arg| && !Safe(arg[k]);
      assert arg[k] in arg;
      EscapeIsLonger(arg);
    }
  }

  lemma {:induction false} EscapeIsLonger(s: string)
    ensures |Escape(s)| >= |s|
  {
    if s != "" {
      EscapeIsLonger(s[1..]);
    }
  }

  /** Where a scanner of section 2.3 of the POSIX.1-2017 Shell Command Language stands: between two
      words, in a word, in single quotes (2.2.2), behind a backslash (2.2.1). */
  datatype Place = Between | InWord(word: string) | InQuotes(word: string) | Escaped(word: string)

  predicate Blank(c: char) {
    c == ' ' || c == '\t'
  }

  /** The characters of section 2.2 that are not themselves in an unquoted word, other than the two
      kinds of quoting used here. What they mean is not modelled: they end the scan. */
  predicate Special(c: char) {
    c in {'|', '&', ';', '<', '>', '(', ')', '$', '`', '"', '\n', '*', '?', '[', '#', '~', '%'}
  }

  /** The words of `s`; none if a quotation is left open or a special character stands unquoted. */
  function Scan(s: string, p: Place): Option<seq<string>>
    decreases |s|, if p.Between? then 1 else 0
  {
    match p
    case Between =>
      if s == "" then Some([])
      else if Blank(s[0]) then Scan(s[1..], Between)
      else Scan(s, InWord(""))
    case InWord(w) =>
      if s == "" then Some([w])
      else if Blank(s[0]) then Then(w, Scan(s[1..], Between))
      else if s[0] == '\'' then Scan(s[1..], InQuotes(w))
      else if s[0] == '\\' then Scan(s[1..], Escaped(w))
      else if Special(s[0]) then None
      else Scan(s[1..], InWord(w + [s[0]]))
    case InQuotes(w) =>
      if s == "" then None
      else if s[0] == '\'' then Scan(s[1..], InWord(w))
      else Scan(s[1..], InQuotes(w + [s[0]]))
    case Escaped(w) =>
      if s == "" then None
      else if s[0] == '\n' then Scan(s[1..], InWord(w))
      else Scan(s[1..], InWord(w + [s[0]]))
  }

  function Then(w: string, rest: Option<seq<string>>): Option<seq<string>> {
    if rest.None? then None else Some([w] + rest.value)
  }

  function Tokens(s: string): Option<seq<string>> {
    Scan(s, Between)
  }

  function Joined(words: seq<string>, separator: string): string {
    if words == [] then ""
    else if |words| == 1 then words[0]
    else words[0] + separator + Joined(words[1..], separator)
  }

  function QuoteAll(args: seq<string>): seq<string> {
    if args == [] then [] else [Quote(args[0])] + QuoteAll(args[1..])
  }

  /** What the next character does to a scanner that is not between words. */
  lemma ScanStep(c: char, rest: string, p: Place)
    requires !p.Between?
    ensures p.InQuotes? && c == '\'' ==> Scan([c] + rest, p) == Scan(rest, InWord(p.word))
    ensures p.InQuotes? && c != '\'' ==> Scan([c] + rest, p) == Scan(rest, InQuotes(p.word + [c]))
    ensures p.InWord? && c == '\'' ==> Scan([c] + rest, p) == Scan(rest, InQuotes(p.word))
    ensures p.InWord? && c == '\\' ==> Scan([c] + rest, p) == Scan(rest, Escaped(p.word))
    ensures p.InWord? && Safe(c) ==> Scan([c] + rest, p) == Scan(rest, InWord(p.word + [c]))
    ensures p.Escaped? && c != '\n' ==> Scan([c] + rest, p) == Scan(rest, InWord(p.word + [c]))
  {
    var s := [c] + rest;
    assert s[0] == c && s[1..] == rest;
  }

  lemma {:induction false} SafeScanned(arg: string, tail: string, w: string)
    requires AllSafe(arg)
    ensures Scan(arg + tail, InWord(w)) == Scan(tail, InWord(w + arg))
    decreases |arg|
  {
    if arg == "" {
      assert arg + tail == tail && w + arg == w;
    } else {
      assert arg + tail == [arg[0]] + (arg[1..] + tail);
      ScanStep(arg[0], arg[1..] + tail, InWord(w));
      SafeScanned(arg[1..], tail, w + [arg[0]]);
      assert w + [arg[0]] + arg[1..] == w + arg;
    }
  }

  /** A quote is written as: end of quotation, an escaped quote, start of quotation. */
  lemma EscapedQuoteScanned(rest: string, w: string)
    ensures Scan("'\\''" + rest, InQuotes(w)) == Scan(rest, InQuotes(w + "'"))
  {
    assert "'\\''" + rest == "'" + ("\\" + ("'" + ("'" + rest)));
    ScanStep('\'', "\\" + ("'" + ("'" + rest)), InQuotes(w));
    ScanStep('\\', "'" + ("'" + rest), InWord(w));
    ScanStep('\'', "'" + rest, Escaped(w));
    ScanStep('\'', rest, InWord(w + "'"));
  }

  lemma {:induction false} EscapeScanned(arg: string, tail: string, w: string)
    ensures Scan(Escape(arg) + ("'" + tail), InQuotes(w)) == Scan(tail, InWord(w + arg))
    decreases |arg|
  {
    if arg == "" {
      assert Escape(arg) + ("'" + tail) == "'" + tail && w + arg == w;
      ScanStep('\'', tail, InQuotes(w));
    } else {
      var more := Escape(arg[1..]);
      var rest := more + ("'" + tail);
      var c := if arg[0] == '\'' then "'\\''" else [arg[0]];
      assert Escape(arg) == c + more;
      assert c + more + ("'" + tail) == c + rest;
      if arg[0] == '\'' {
        EscapedQuoteScanned(rest, w);
      } else {
        ScanStep(arg[0], rest, InQuotes(w));
      }
      EscapeScanned(arg[1..], tail, w + [arg[0]]);
      assert w + [arg[0]] + arg[1..] == w + arg;
    }
  }

  lemma StartsWord(s: string)
    requires s != "" && !Blank(s[0])
    ensures Scan(s, Between) == Scan(s, InWord(""))
  {
  }

  /** A quoted argument is one word, the argument itself. */
  lemma QuoteScanned(arg: string, tail: string)
    ensures Scan(Quote(arg) + tail, Between) == Scan(tail, InWord(arg))
  {
    assert "" + arg == arg;
    if arg != "" && AllSafe(arg) {
      SafeWordStarts(arg, tail);
      SafeScanned(arg, tail, "");
    } else {
      var rest := Escape(arg) + ("'" + tail);
      assert Quote(arg) + tail == "'" + rest;
      StartsWord("'" + rest);
      ScanStep('\'', rest, InWord(""));
      EscapeScanned(arg, tail, "");
    }
  }

  lemma SafeWordStarts(arg: string, tail: string)
    requires arg != "" && AllSafe(arg)
    ensures Scan(arg + tail, Between) == Scan(arg + tail, InWord(""))
  {
    assert (arg + tail)[0] == arg[0] && Safe(arg[0]);
    StartsWord(arg + tail);
  }

  /** Quoted arguments joined by blanks are tokenised to exactly the arguments, whatever they
      contain. */
  lemma {:induction false} QuotingRoundTrip(args: seq<string>)
    ensures Tokens(Joined(QuoteAll(args), " ")) == Some(args)
    decreases |args|
  {
    if |args| == 1 {
      assert QuoteAll(args) == [Quote(args[0])] + QuoteAll([]);
      assert Quote(args[0]) + "" == Quote(args[0]);
      QuoteScanned(args[0], "");
      assert args == [args[0]];
    } else if args != [] {
      var more := Joined(QuoteAll(args[1..]), " ");
      var tail := " " + more;
      assert Joined(QuoteAll(args), " ") == Quote(args[0]) + tail;
      QuoteScanned(args[0], tail);
      assert tail[0] == ' ' && tail[1..] == more;
      QuotingRoundTrip(args[1..]);
      assert [args[0]] + args[1..] == args;
    }
  }

  /** `content::command`. */
  function Extra(args: seq<string>): string {
    if args == [] then "" else " " + Quote(args[0]) + Extra(args[1..])
  }

  function Projection(projection: seq<string>): string {
    if projection == [] then "" else " --projection " + Quote(Joined(projection, ":"))
  }

  function ContentCommand(uri: string, projection: seq<string>, extra: seq<string>): string {
    "content query --uri " + Quote(uri) + Projection(projection) + Extra(extra)
  }

  method BuildContentCommand(uri: string, projection: seq<string>, extra: seq<string>) returns (cmd: string)
    ensures cmd == ContentCommand(uri, projection, extra)
  {
    cmd := "content query --uri " + Quote(uri);
    if projection == [] {
      assert cmd + "" == cmd;
    } else {
      cmd := cmd + (" --projection " + Quote(Joined(projection, ":")));
    }
    cmd := AppendExtra(cmd, extra);
  }

  method AppendExtra(head: string, extra: seq<string>) returns (cmd: string)
    ensures cmd == head + Extra(extra)
  {
    cmd := head;
    for i := 0 to |extra|
      invariant cmd + Extra(extra[i..]) == head + Extra(extra)
    {
      assert extra[i..][1..] == extra[i + 1..];
      FourRegrouped(cmd, " ", Quote(extra[i]), Extra(extra[i + 1..]));
      cmd := cmd + " " + Quote(extra[i]);
    }
    assert cmd + "" == cmd;
  }

  lemma JoinedWords(word: string, more: seq<string>)
    ensures Joined(QuoteAll([word]), " ") == Quote(word)
    ensures more != [] ==>
              Joined(QuoteAll([word] + more), " ") == Quote(word) + " " + Joined(QuoteAll(more), " ")
  {
    var words := [word] + more;
    assert words[0] == word && words[1..] == more;
    assert QuoteAll([word]) == [Quote(word)] + QuoteAll([]);
    if more != [] {
      var quoted := [Quote(word)] + QuoteAll(more);
      assert QuoteAll(words) == quoted && quoted[1..] == QuoteAll(more) && |QuoteAll(more)| > 0;
    }
  }

  lemma {:induction false} ExtraIsJoined(word: string, extra: seq<string>)
    ensures Joined(QuoteAll([word] + extra), " ") == Quote(word) + Extra(extra)
    decreases |extra|
  {
    JoinedWords(word, extra);
    if extra == [] {
      assert [word] + extra == [word] && Quote(word) + "" == Quote(word);
    } else {
      ExtraIsJoined(extra[0], extra[1..]);
      assert [extra[0]] + extra[1..] == extra;
      FourRegrouped(Quote(word), " ", Quote(extra[0]), Extra(extra[1..]));
    }
  }

  lemma FixedWordsAreSafe()
    ensures AllSafe("content") && AllSafe("query") && AllSafe("--uri") && AllSafe("--projection")
  {
  }

  lemma SafeWord(word: string)
    requires word != "" && AllSafe(word)
    ensures Quote(word) == word
  {
  }

  /** The words after the uri, and the words from the uri on. */
  function WordsAfterUri(projection: seq<string>, extra: seq<string>): seq<string> {
    if projection == [] then extra else ["--projection"] + ([Joined(projection, ":")] + extra)
  }

  function CommandWords(uri: string, projection: seq<string>, extra: seq<string>): seq<string> {
    ["content"] + (["query"] + (["--uri"] + ([uri] + WordsAfterUri(projection, extra))))
  }

  lemma UriOnIsJoined(uri: string, projection: seq<string>, extra: seq<string>)
    ensures Joined(QuoteAll([uri] + WordsAfterUri(projection, extra)), " ")
            == Quote(uri) + Projection(projection) + Extra(extra)
  {
    if projection == [] {
      assert Quote(uri) + "" == Quote(uri);
      ExtraIsJoined(uri, extra);
    } else {
      FixedWordsAreSafe();
      SafeWord("--projection");
      ColumnsAreJoined(uri, "--projection", Joined(projection, ":"), extra);
      ColumnsText(Quote(Joined(projection, ":")));
    }
  }

  lemma ColumnsAreJoined(uri: string, option: string, columns: string, extra: seq<string>)
    requires Quote(option) == option
    ensures Joined(QuoteAll([uri] + ([option] + ([columns] + extra))), " ")
            == Quote(uri) + (" " + (option + " " + Quote(columns))) + Extra(extra)
  {
    JoinedWords(uri, [option] + ([columns] + extra));
    JoinedWords(option, [columns] + extra);
    ExtraIsJoined(columns, extra);
    OptionGrouped(Quote(uri), option, Quote(columns), Extra(extra));
  }

  lemma ColumnsText(columns: string)
    ensures " --projection " + columns == " " + ("--projection" + " " + columns)
  {
    assert " --projection " == " " + ("--projection" + " ");
  }

  lemma OptionGrouped(a: string, b: string, c: string, d: string)
    ensures a + " " + (b + " " + (c + d)) == a + (" " + (b + " " + c)) + d
  {
  }

  /** The shell sees the fixed words, the uri, the colon-joined projection and the extra arguments. */
  lemma CommandIsTokenised(uri: string, projection: seq<string>, extra: seq<string>)
    ensures Tokens(ContentCommand(uri, projection, extra)) == Some(CommandWords(uri, projection, extra))
  {
    var w3 := [uri] + WordsAfterUri(projection, extra);
    var w2 := ["--uri"] + w3;
    var w1 := ["query"] + w2;
    UriOnIsJoined(uri, projection, extra);
    FixedWordsAreSafe();
    SafeWord("content");
    SafeWord("query");
    SafeWord("--uri");
    JoinedWords("--uri", w3);
    JoinedWords("query", w2);
    JoinedWords("content", w1);
    CommandText(Quote(uri), Projection(projection), Extra(extra));
    QuotingRoundTrip(CommandWords(uri, projection, extra));
  }

  lemma CommandText(uri: string, columns: string, extra: string)
    ensures "content" + " " + ("query" + " " + ("--uri" + " " + (uri + columns + extra)))
            == "content query --uri " + uri + columns + extra
  {
    assert "content" + " " + ("query" + " " + ("--uri" + " ")) == "content query --uri ";
  }
}
