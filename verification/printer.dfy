/** The message of a failed function: its stderr line by line, indented, quoted and cut off
    after a number of lines, and its exit code. */
module Printer {
  import opened Values

  const TRUNCATE_LINES := 4
  const INDENT := "    "
  const EXIT_CODE := "  Exit Code: "
  const NOTICE := "...("
  const TRUNCATED := " line(s) truncated, "
  const ADVICE := "use '--truncate-output=false'"
  const TO_DISABLE := " to disable)"
  const NOTICE_END := TRUNCATED + ADVICE + TO_DISABLE

  // ------------------------------------------------------------------ splitting

  /** strings.Split(s, "\n"). */
  function Split(s: string): (ls: seq<string>)
    ensures ls != []
  {
    if s == "" then [""]
    else if s[0] == '\n' then [""] + Split(s[1..])
    else var rest := Split(s[1..]); [[s[0]] + rest[0]] + rest[1..]
  }

  /** strings.Join(ls, "\n"). */
  function Join(ls: seq<string>): string
    requires ls != []
  {
    if |ls| == 1 then ls[0] else ls[0] + "\n" + Join(ls[1..])
  }

  function Unlines(ls: seq<string>): string {
    if ls == [] then "" else Unlines(ls[..|ls| - 1]) + ls[|ls| - 1] + "\n"
  }

  predicate OneLine(s: string) { '\n' !in s }

  lemma {:induction false} JoinSplit(s: string)
    ensures Join(Split(s)) == s
    ensures forall i :: 0 <= i < |Split(s)| ==> OneLine(Split(s)[i])
  {
    if s != "" {
      JoinSplit(s[1..]);
      var rest := Split(s[1..]);
      if s[0] == '\n' {
        assert ([""] + rest)[1..] == rest;
      } else {
        assert ([[s[0]] + rest[0]] + rest[1..])[1..] == rest[1..];
      }
    }
  }

  lemma {:induction false} SplitAtNewline(a: string, t: string)
    requires OneLine(a)
    ensures Split(a + "\n" + t) == [a] + Split(t)
  {
    var s := a + "\n" + t;
    if a == "" {
      assert s[1..] == t;
    } else {
      assert s[1..] == a[1..] + "\n" + t;
      SplitAtNewline(a[1..], t);
      assert Split(s) == [[a[0]] + a[1..]] + Split(t);
      assert [a[0]] + a[1..] == a;
    }
  }

  lemma Regroup(u: string, l: string, t: string)
    ensures u + l + "\n" + t == u + (l + "\n" + t)
  {
  }

  lemma SnocRest(ls: seq<string>, rest: seq<string>)
    requires ls != []
    ensures ls[..|ls| - 1] + ([ls[|ls| - 1]] + rest) == ls + rest
  {
  }

  lemma {:induction false} SplitUnlines(ls: seq<string>, t: string)
    requires forall i :: 0 <= i < |ls| ==> OneLine(ls[i])
    ensures Split(Unlines(ls) + t) == ls + Split(t)
  {
    if ls == [] {
      assert Unlines(ls) + t == t;
      assert ls + Split(t) == Split(t);
    } else {
      var n := |ls| - 1;
      Regroup(Unlines(ls[..n]), ls[n], t);
      SplitUnlines(ls[..n], ls[n] + "\n" + t);
      SplitAtNewline(ls[n], t);
      SnocRest(ls, Split(t));
    }
  }

  // -------------------------------------------------------------------- numbers

  function FormatInt(n: int): string {
    if n < 0 then "-" + Decimal(-n) else Decimal(n)
  }

  predicate IsDigit(c: char) { '0' <= c <= '9' }

  function Digit(c: char): nat
    requires IsDigit(c)
  {
    c as int - '0' as int
  }

  function ParseDecimal(s: string): Option<nat> {
    if s == "" || !IsDigit(s[|s| - 1]) then None else
      var d := Digit(s[|s| - 1]);
      if |s| == 1 then Some(d) else
        var high := ParseDecimal(s[..|s| - 1]);
        if high.None? then None else Some(10 * high.value + d)
  }

  function Negated(n: Option<int>): Option<int> {
    if n.None? then None else Some(-n.value)
  }

  function ParseInt(s: string): Option<int> {
    if s != "" && s[0] == '-' then
      Negated(ParseDecimal(s[1..]))
    else ParseDecimal(s)
  }

  lemma {:induction false} DecimalIsParsed(n: nat)
    ensures ParseDecimal(Decimal(n)) == Some(n)
    ensures Decimal(n) != "" && OneLine(Decimal(n)) && IsDigit(Decimal(n)[0])
  {
    if n >= 10 {
      DecimalIsParsed(n / 10);
      var s := Decimal(n);
      assert s[..|s| - 1] == Decimal(n / 10);
    }
  }

  lemma OneLineOfTwo(a: string, b: string)
    ensures OneLine(a + b) <==> OneLine(a) && OneLine(b)
  {
    if OneLine(a + b) {
      forall i | 0 <= i < |a| ensures a[i] != '\n' { assert (a + b)[i] == a[i]; }
      forall i | 0 <= i < |b| ensures b[i] != '\n' { assert (a + b)[|a| + i] == b[i]; }
    }
  }

  lemma NegativeIsParsed(s: string)
    ensures ParseInt("-" + s) == Negated(ParseDecimal(s))
  {
    assert ("-" + s)[1..] == s;
  }

  lemma IntIsParsed(n: int)
    ensures ParseInt(FormatInt(n)) == Some(n) && OneLine(FormatInt(n))
  {
    var m: nat := if n < 0 then -n else n;
    DecimalIsParsed(m);
    var s := Decimal(m);
    NegativeIsParsed(s);
    OneLineOfTwo("-", s);
  }

  // --------------------------------------------------------------- the formatter

  function Clean(s: string): string {
    if s == "" then "" else [if s[0] == '\n' then ' ' else s[0]] + Clean(s[1..])
  }

  lemma {:induction false} CleanIsOneLine(s: string)
    ensures OneLine(s) ==> Clean(s) == s
    ensures OneLine(Clean(s))
  {
    if s != "" {
      CleanIsOneLine(s[1..]);
    }
  }

  function Shown(quote: Option<string -> string>, s: string): string {
    INDENT + if quote.Some? then quote.value(Clean(s)) else Clean(s)
  }

  function Notice(n: nat): string { INDENT + NOTICE + Decimal(n) + NOTICE_END }

  /** How many of the lines are printed. */
  function Printed(count: nat, truncate: bool, maxLines: int): nat {
    var limit := if maxLines == 0 then TRUNCATE_LINES else maxLines;
    if !truncate || count <= limit then count else if limit < 0 then 0 else limit
  }

  function ShownAll(quote: Option<string -> string>, lines: seq<string>): (r: seq<string>)
    ensures |r| == |lines| && forall i :: 0 <= i < |lines| ==> r[i] == Shown(quote, lines[i])
  {
    seq(|lines|, i requires 0 <= i < |lines| => Shown(quote, lines[i]))
  }

  function Header(title: string): string { "  " + title + ":" }

  /** The title and the first `k` lines. */
  function FirstLines(title: string, lines: seq<string>, k: nat, quote: Option<string -> string>): seq<string>
    requires k <= |lines|
  {
    [Header(title)] + ShownAll(quote, lines[..k])
  }

  /** The lines that the formatter writes. */
  function Formatted(title: string, lines: seq<string>, truncate: bool, maxLines: int, quote: Option<string -> string>)
    : seq<string>
  {
    var k := Printed(|lines|, truncate, maxLines);
    FirstLines(title, lines, k, quote) + if k < |lines| then [Notice(|lines| - k)] else []
  }

  lemma UnlinesOfTwo(ls: seq<string>, l: string)
    ensures Unlines(ls + [l]) == Unlines(ls) + l + "\n"
  {
    assert (ls + [l])[..|ls|] == ls;
  }

  /** The text of the title and the first `k` lines. */
  function FirstText(title: string, lines: seq<string>, k: nat, quote: Option<string -> string>): string
    requires k <= |lines|
  {
    if k == 0 then Header(title) + "\n"
    else FirstText(title, lines, k - 1, quote) + Shown(quote, lines[k - 1]) + "\n"
  }

  lemma ShownNext(quote: Option<string -> string>, lines: seq<string>, k: nat)
    requires 0 < k <= |lines|
    ensures ShownAll(quote, lines[..k]) == ShownAll(quote, lines[..k - 1]) + [Shown(quote, lines[k - 1])]
  {
  }

  lemma NextText(title: string, lines: seq<string>, k: nat, quote: Option<string -> string>)
    requires k < |lines|
    ensures FirstText(title, lines, k + 1, quote)
            == FirstText(title, lines, k, quote) + Shown(quote, lines[k]) + "\n"
  {
  }

  lemma OneMoreLine(head: seq<string>, shown: seq<string>, more: seq<string>, l: string)
    requires more == shown + [l]
    ensures Unlines(head + more) == Unlines(head + shown) + l + "\n"
  {
    assert head + more == head + shown + [l];
    UnlinesOfTwo(head + shown, l);
  }

  lemma LineAfterLine(title: string, lines: seq<string>, k: nat, quote: Option<string -> string>)
    requires 0 < k <= |lines|
    ensures Unlines(FirstLines(title, lines, k, quote))
            == Unlines(FirstLines(title, lines, k - 1, quote)) + Shown(quote, lines[k - 1]) + "\n"
  {
    ShownNext(quote, lines, k);
    OneMoreLine([Header(title)], ShownAll(quote, lines[..k - 1]),
                ShownAll(quote, lines[..k]), Shown(quote, lines[k - 1]));
  }

  lemma {:induction false} TextIsLines(title: string, lines: seq<string>, k: nat, quote: Option<string -> string>)
    requires k <= |lines|
    ensures FirstText(title, lines, k, quote) == Unlines(FirstLines(title, lines, k, quote))
  {
    if k == 0 {
      NoLineYet(title, lines, quote);
    } else {
      TextIsLines(title, lines, k - 1, quote);
      LineAfterLine(title, lines, k, quote);
    }
  }

  lemma NothingAdded(ls: seq<string>)
    ensures ls + [] == ls
  {
  }

  lemma NoLineYet(title: string, lines: seq<string>, quote: Option<string -> string>)
    ensures Unlines(FirstLines(title, lines, 0, quote)) == Header(title) + "\n"
  {
    UnlinesOfTwo([], Header(title));
    assert FirstLines(title, lines, 0, quote) == [] + [Header(title)];
  }

  class MultiLineFormatter {
    const title: string
    const lines: seq<string>
    const truncateOutput: bool
    /** Go's %q when lines are to be quoted. */
    const quote: Option<string -> string>
    var maxLines: int

    constructor (title: string, lines: seq<string>, truncateOutput: bool, maxLines: int,
                 quote: Option<string -> string>)
      ensures this.title == title && this.lines == lines && this.truncateOutput == truncateOutput
      ensures this.maxLines == maxLines && this.quote == quote
    {
      this.title, this.lines, this.truncateOutput := title, lines, truncateOutput;
      this.maxLines, this.quote := maxLines, quote;
    }

    method String() returns (b: string)
      modifies this
      ensures b == Unlines(Formatted(title, lines, truncateOutput, old(maxLines), quote))
      ensures maxLines == if old(maxLines) == 0 then TRUNCATE_LINES else old(maxLines)
    {
      if maxLines == 0 {
        maxLines := TRUNCATE_LINES;
      }
      b := Header(title) + "\n";
      if !truncateOutput {
        b := WriteAll(b);
        TextIsLines(title, lines, |lines|, quote);
        NothingAdded(FirstLines(title, lines, |lines|, quote));
        return;
      }
      var printedLines;
      b, printedLines := WriteFirst(b);
      TextIsLines(title, lines, printedLines, quote);
      NothingAdded(FirstLines(title, lines, printedLines, quote));
      var truncatedLines := |lines| - printedLines;
      if truncatedLines > 0 {
        UnlinesOfTwo(FirstLines(title, lines, printedLines, quote), Notice(truncatedLines));
        b := b + Notice(truncatedLines) + "\n";
      }
    }

    method WriteLine(start: string, i: nat) returns (b: string)
      requires i < |lines| && start == FirstText(title, lines, i, quote)
      ensures b == FirstText(title, lines, i + 1, quote)
    {
      NextText(title, lines, i, quote);
      b := start + Shown(quote, lines[i]) + "\n";
    }

    method WriteAll(start: string) returns (b: string)
      requires start == FirstText(title, lines, 0, quote)
      ensures b == FirstText(title, lines, |lines|, quote)
    {
      b := start;
      for i := 0 to |lines|
        invariant b == FirstText(title, lines, i, quote)
      {
        b := WriteLine(b, i);
      }
    }

    method WriteFirst(start: string) returns (b: string, printedLines: nat)
      requires start == FirstText(title, lines, 0, quote) && maxLines != 0
      ensures printedLines == Printed(|lines|, true, maxLines)
      ensures b == FirstText(title, lines, printedLines, quote)
    {
      b, printedLines := start, 0;
      for i := 0 to |lines|
        invariant printedLines == i && (i == 0 || i <= maxLines)
        invariant b == FirstText(title, lines, i, quote)
      {
        if i >= maxLines {
          break;
        }
        b := WriteLine(b, i);
        printedLines := printedLines + 1;
      }
    }
  }

  /** ExecError.String. */
  method ErrorString(stderr: string, exitCode: int, truncate: bool, quote: string -> string) returns (b: string)
    ensures b == Unlines(ErrorLines(stderr, exitCode, truncate, quote))
  {
    var errLines := new MultiLineFormatter("Stderr", Split(stderr), truncate, 0, Some(quote));
    b := errLines.String();
    UnlinesOfTwo(Formatted("Stderr", Split(stderr), truncate, 0, Some(quote)), EXIT_CODE + FormatInt(exitCode));
    b := b + (EXIT_CODE + FormatInt(exitCode)) + "\n";
  }

  function ErrorLines(stderr: string, exitCode: int, truncate: bool, quote: string -> string): seq<string> {
    Formatted("Stderr", Split(stderr), truncate, 0, Some(quote)) + [EXIT_CODE + FormatInt(exitCode)]
  }

  // ------------------------------------------------------------------ reading back

  /** %q loses nothing and writes one line that starts with a double quote. */
  ghost predicate Quotes(quote: string -> string, unquote: string -> string) {
    forall s :: unquote(quote(s)) == s && OneLine(quote(s)) && quote(s) != "" && quote(s)[0] == '"'
  }

  datatype Message = Message(lines: seq<string>, truncated: nat, exitCode: int)

  function Unshown(unquote: string -> string, ls: seq<string>): Option<seq<string>> {
    if ls == [] then Some([])
    else if |ls[0]| < |INDENT| then None
    else
      var rest := Unshown(unquote, ls[1..]);
      if rest.None? then None else Some([unquote(ls[0][|INDENT|..])] + rest.value)
  }

  /** The number in a truncation notice; a quoted line starts with a quote, not with dots. */
  function NoticeOf(l: string): Option<nat> {
    var head := INDENT + NOTICE;
    if |l| < |head| + |NOTICE_END| || l[..|head|] != head then None
    else ParseDecimal(l[|head|..|l| - |NOTICE_END|])
  }

  /** Reading the lines between title and exit code. */
  function ReadBody(body: seq<string>, unquote: string -> string): (Option<nat>, Option<seq<string>>) {
    var cut := if body == [] then None else NoticeOf(body[|body| - 1]);
    (cut, Unshown(unquote, if cut.Some? then body[..|body| - 1] else body))
  }

  function ReadCode(l: string): Option<int> {
    if |l| < |EXIT_CODE| then None else ParseInt(l[|EXIT_CODE|..])
  }

  /** Reading a message back, line by line. */
  function Parse(text: string, unquote: string -> string): Option<Message> {
    var ls := Split(text);
    if |ls| < 3 then None else
      var exitCode := ReadCode(ls[|ls| - 2]);
      var (cut, lines) := ReadBody(ls[1..|ls| - 2], unquote);
      if exitCode.None? || lines.None? then None
      else Some(Message(lines.value, if cut.Some? then cut.value else 0, exitCode.value))
  }

  lemma {:induction false} UnshownIsRead(quote: string -> string, unquote: string -> string, lines: seq<string>)
    requires Quotes(quote, unquote) && forall i :: 0 <= i < |lines| ==> OneLine(lines[i])
    ensures Unshown(unquote, ShownAll(Some(quote), lines)) == Some(lines)
  {
    if lines != [] {
      var all := ShownAll(Some(quote), lines);
      assert all[1..] == ShownAll(Some(quote), lines[1..]);
      assert forall i :: 0 <= i < |lines[1..]| ==> lines[1..][i] == lines[i + 1];
      UnshownIsRead(quote, unquote, lines[1..]);
      CleanIsOneLine(lines[0]);
      assert all[0][|INDENT|..] == quote(lines[0]);
      assert [lines[0]] + lines[1..] == lines;
    }
  }

  lemma Between(head: string, s: string, tail: string)
    ensures var l := head + s + tail; l[..|head|] == head && l[|head|..|l| - |tail|] == s
  {
  }

  lemma NoticeEndsOnItsLine()
    ensures OneLine(NOTICE_END)
  {
    OneLineOfTwo(TRUNCATED, ADVICE);
    OneLineOfTwo(TRUNCATED + ADVICE, TO_DISABLE);
  }

  lemma NoticeIsRead(n: nat)
    ensures NoticeOf(Notice(n)) == Some(n) && OneLine(Notice(n))
  {
    DecimalIsParsed(n);
    Between(INDENT + NOTICE, Decimal(n), NOTICE_END);
    NoticeEndsOnItsLine();
    OneLineOfTwo(INDENT + NOTICE, Decimal(n));
    OneLineOfTwo(INDENT + NOTICE + Decimal(n), NOTICE_END);
  }

  lemma QuotedIsNoNotice(quote: string -> string, unquote: string -> string, s: string)
    requires Quotes(quote, unquote)
    ensures NoticeOf(Shown(Some(quote), s)).None? && OneLine(Shown(Some(quote), s))
  {
    var l, head := Shown(Some(quote), s), INDENT + NOTICE;
    assert quote(Clean(s))[0] == '"' && l[|INDENT|] == quote(Clean(s))[0] && head[|INDENT|] == '.';
    if |l| >= |head| {
      assert l[..|head|][|INDENT|] == l[|INDENT|];
    }
  }

  /** What stands between the title and the exit code. */
  function Body(lines: seq<string>, k: nat, quote: string -> string): seq<string>
    requires k <= |lines|
  {
    ShownAll(Some(quote), lines[..k]) + if k < |lines| then [Notice(|lines| - k)] else []
  }

  lemma Regrouped(head: string, shown: seq<string>, rest: seq<string>)
    ensures [head] + shown + rest == [head] + (shown + rest)
  {
  }

  lemma FormattedIsBody(lines: seq<string>, truncate: bool, quote: string -> string)
    ensures Formatted("Stderr", lines, truncate, 0, Some(quote))
            == [Header("Stderr")] + Body(lines, Printed(|lines|, truncate, 0), quote)
  {
    var k := Printed(|lines|, truncate, 0);
    Regrouped(Header("Stderr"), ShownAll(Some(quote), lines[..k]),
              if k < |lines| then [Notice(|lines| - k)] else []);
  }

  lemma ErrorLinesAre(stderr: string, exitCode: int, truncate: bool, quote: string -> string)
    ensures var lines := Split(stderr);
            ErrorLines(stderr, exitCode, truncate, quote)
            == [Header("Stderr")] + Body(lines, Printed(|lines|, truncate, 0), quote)
               + [EXIT_CODE + FormatInt(exitCode)]
  {
    FormattedIsBody(Split(stderr), truncate, quote);
  }

  /** The letters of a line and of the notice. */
  lemma LineText(quote: string -> string, line: string)
    requires OneLine(line)
    ensures Shown(Some(quote), line) == "    " + quote(line)
  {
    CleanIsOneLine(line);
  }

  lemma NoticeText(n: nat)
    ensures Notice(n) == "    " + "...(" + Decimal(n)
                         + (" line(s) truncated, " + "use '--truncate-output=false'" + " to disable)")
  {
  }

  lemma BodyText(lines: seq<string>, k: nat, quote: string -> string)
    requires k <= |lines| && forall i :: 0 <= i < |lines| ==> OneLine(lines[i])
    ensures var body := Body(lines, k, quote);
            && |body| == k + (if k < |lines| then 1 else 0)
            && (forall i :: 0 <= i < k ==> body[i] == "    " + quote(lines[i]))
            && (k < |lines| ==> body[k] == Notice(|lines| - k))
  {
    forall i | 0 <= i < k ensures Body(lines, k, quote)[i] == "    " + quote(lines[i]) {
      assert Body(lines, k, quote)[i] == Shown(Some(quote), lines[..k][i]);
      LineText(quote, lines[i]);
    }
  }

  lemma Surrounded(title: string, body: seq<string>, code: string)
    ensures var all := [title] + body + [code];
            && |all| == |body| + 2 && all[0] == title && all[|all| - 1] == code
            && forall i :: 0 <= i < |body| ==> all[i + 1] == body[i]
  {
  }

  /** An error shows the title, the first four lines of stderr or all of them if there are no
      more or truncation is off, then how many are missing, and the exit code. */
  lemma ErrorText(stderr: string, exitCode: int, truncate: bool, quote: string -> string)
    ensures var lines, shown := Split(stderr), ErrorLines(stderr, exitCode, truncate, quote);
            var k := if truncate && |lines| > 4 then 4 else |lines|;
            && |shown| == k + (if k < |lines| then 3 else 2)
            && shown[0] == "  " + "Stderr" + ":"
            && (forall i :: 0 <= i < k ==> shown[i + 1] == "    " + quote(lines[i]))
            && (k < |lines| ==>
                  shown[k + 1] == "    " + "...(" + Decimal(|lines| - k)
                                  + (" line(s) truncated, " + "use '--truncate-output=false'" + " to disable)"))
            && shown[|shown| - 1] == "  Exit Code: " + FormatInt(exitCode)
  {
    var lines := Split(stderr);
    var k := Printed(|lines|, truncate, 0);
    JoinSplit(stderr);
    ErrorLinesAre(stderr, exitCode, truncate, quote);
    BodyText(lines, k, quote);
    Surrounded(Header("Stderr"), Body(lines, k, quote), EXIT_CODE + FormatInt(exitCode));
    if k < |lines| {
      NoticeText(|lines| - k);
    }
  }

  lemma BodyIsLines(lines: seq<string>, k: nat, quote: string -> string, unquote: string -> string)
    requires Quotes(quote, unquote) && k <= |lines|
    ensures forall i :: 0 <= i < |Body(lines, k, quote)| ==> OneLine(Body(lines, k, quote)[i])
  {
    forall i | 0 <= i < |Body(lines, k, quote)| ensures OneLine(Body(lines, k, quote)[i]) {
      if i < k {
        QuotedIsNoNotice(quote, unquote, lines[i]);
      } else {
        NoticeIsRead(|lines| - k);
      }
    }
  }

  lemma TitleIsOneLine()
    ensures OneLine(Header("Stderr"))
  {
    OneLineOfTwo("  ", "Stderr");
    OneLineOfTwo("  " + "Stderr", ":");
  }

  /** The written lines are what splitting the text gives back. */
  lemma ErrorLinesAreRead(body: seq<string>, exitCode: int)
    requires forall i :: 0 <= i < |body| ==> OneLine(body[i])
    ensures var ls := [Header("Stderr")] + body + [EXIT_CODE + FormatInt(exitCode)]; Split(Unlines(ls)) == ls + [""]
  {
    var ls := [Header("Stderr")] + body + [EXIT_CODE + FormatInt(exitCode)];
    IntIsParsed(exitCode);
    OneLineOfTwo(EXIT_CODE, FormatInt(exitCode));
    TitleIsOneLine();
    SplitUnlines(ls, "");
    assert Unlines(ls) + "" == Unlines(ls);
  }

  lemma WholeBodyIsRead(lines: seq<string>, quote: string -> string, unquote: string -> string)
    requires Quotes(quote, unquote) && lines != [] && forall i :: 0 <= i < |lines| ==> OneLine(lines[i])
    ensures ReadBody(Body(lines, |lines|, quote), unquote) == (None, Some(lines))
  {
    UnshownIsRead(quote, unquote, lines);
    var n := |lines|;
    assert lines[..n] == lines && Body(lines, n, quote) == ShownAll(Some(quote), lines);
    QuotedIsNoNotice(quote, unquote, lines[n - 1]);
  }

  lemma CutBodyIsRead(lines: seq<string>, k: nat, quote: string -> string, unquote: string -> string)
    requires Quotes(quote, unquote) && k < |lines| && forall i :: 0 <= i < |lines| ==> OneLine(lines[i])
    ensures ReadBody(Body(lines, k, quote), unquote) == (Some(|lines| - k), Some(lines[..k]))
  {
    UnshownIsRead(quote, unquote, lines[..k]);
    NoticeIsRead(|lines| - k);
    var shown, body := ShownAll(Some(quote), lines[..k]), Body(lines, k, quote);
    assert body[..|body| - 1] == shown && body[|body| - 1] == Notice(|lines| - k);
  }

  lemma ParseOfLines(text: string, title: seq<string>, body: seq<string>, code: string, unquote: string -> string)
    requires |title| == 1 && Split(text) == title + body + [code] + [""]
    requires ReadBody(body, unquote).1.Some? && ReadCode(code).Some?
    ensures var (cut, lines) := ReadBody(body, unquote);
            Parse(text, unquote) == Some(Message(lines.value, if cut.Some? then cut.value else 0, ReadCode(code).value))
  {
    Pieces(title, body, code);
  }

  lemma Pieces(title: seq<string>, body: seq<string>, code: string)
    requires |title| == 1
    ensures var all := title + body + [code] + [""]; all[1..|all| - 2] == body && all[|all| - 2] == code && |all| >= 3
  {
  }

  lemma CodeIsRead(exitCode: int)
    ensures ReadCode(EXIT_CODE + FormatInt(exitCode)) == Some(exitCode)
  {
    var l := EXIT_CODE + FormatInt(exitCode);
    assert l[|EXIT_CODE|..] == FormatInt(exitCode);
    IntIsParsed(exitCode);
  }

  lemma BodyIsRead(lines: seq<string>, k: nat, quote: string -> string, unquote: string -> string)
    requires Quotes(quote, unquote) && k <= |lines| && lines != [] && forall i :: 0 <= i < |lines| ==> OneLine(lines[i])
    ensures ReadBody(Body(lines, k, quote), unquote)
            == (if k < |lines| then Some(|lines| - k) else None, Some(lines[..k]))
  {
    if k < |lines| {
      CutBodyIsRead(lines, k, quote, unquote);
    } else {
      WholeBodyIsRead(lines, quote, unquote);
      assert lines[..k] == lines;
    }
  }

  lemma TextIsRead(body: seq<string>, exitCode: int, unquote: string -> string)
    requires ReadBody(body, unquote).1.Some? && forall i :: 0 <= i < |body| ==> OneLine(body[i])
    ensures var (cut, lines) := ReadBody(body, unquote);
            Parse(Unlines([Header("Stderr")] + body + [EXIT_CODE + FormatInt(exitCode)]), unquote)
            == Some(Message(lines.value, if cut.Some? then cut.value else 0, exitCode))
  {
    var code := EXIT_CODE + FormatInt(exitCode);
    ErrorLinesAreRead(body, exitCode);
    CodeIsRead(exitCode);
    ParseOfLines(Unlines([Header("Stderr")] + body + [code]), [Header("Stderr")], body, code, unquote);
  }

  /** The message can be read back: the first lines of stderr, all of them unless the output
      is truncated, how many are missing, and the exit code, negative ones included. */
  lemma MessageRoundTrip(stderr: string, exitCode: int, truncate: bool, quote: string -> string,
                         unquote: string -> string)
    requires Quotes(quote, unquote)
    ensures var lines := Split(stderr);
            var k := if truncate && |lines| > 4 then 4 else |lines|;
            Parse(Unlines(ErrorLines(stderr, exitCode, truncate, quote)), unquote)
            == Some(Message(lines[..k], |lines| - k, exitCode))
  {
    var lines := Split(stderr);
    var k := Printed(|lines|, truncate, 0);
    ErrorLinesAre(stderr, exitCode, truncate, quote);
    JoinSplit(stderr);
    BodyIsLines(lines, k, quote, unquote);
    BodyIsRead(lines, k, quote, unquote);
    TextIsRead(Body(lines, k, quote), exitCode, unquote);
  }

  /** Without truncation nothing is lost. */
  lemma StderrRoundTrip(stderr: string, exitCode: int, quote: string -> string, unquote: string -> string)
    requires Quotes(quote, unquote)
    ensures var m := Parse(Unlines(ErrorLines(stderr, exitCode, false, quote)), unquote);
            m.Some? && m.value.lines != [] && Join(m.value.lines) == stderr && m.value.exitCode == exitCode
  {
    MessageRoundTrip(stderr, exitCode, false, quote, unquote);
    JoinSplit(stderr);
    assert Split(stderr)[..|Split(stderr)|] == Split(stderr);
  }
}
