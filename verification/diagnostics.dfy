/**
 The source-context block of the four diagnostic kinds (`Error`,
 `NoPrefixParseFnError`, `SyntaxError`, `CompletionError`), as a sequence of
 abstract output lines: a source line with its 1-based number, a caret
 underline, or the suggested fix. Banners, the message header, colours and
 process termination are presentation and are not modelled.
 */
module Diagnostics {
  import opened TextLines
  import LineStream

  /** A token of the lexer: its line, its column span, and its text. */
  datatype Token = Token(lineNo: int, colNo: int, endColNo: int, literal: string)

  datatype OutLine =
    | Numbered(number: int, text: string)
    | Underline(marks: string)
    | Fix(suggestion: string)

  /**
   A diagnostic with the unit text it refers to; `Error` and `CompletionError`
   carry an explicit line range, the other two a token.
   */
  datatype Diagnostic =
    | Error(source: string, stLine: int, endLine: int, suggestedFix: string)
    | NoPrefixParseFnError(source: string, token: Token, suggestedFix: string)
    | SyntaxError(source: string, token: Token, suggestedFix: string)
    | CompletionError(source: string, stLine: int, endLine: int, suggestedFix: string)

  // ---------------------------------------------------------------------------
  // What a reader of a block relies on

  /** Every numbered line shows the source line its number names ("" past the end). */
  predicate ShowsSource(r: seq<OutLine>, lines: seq<string>) {
    forall i :: 0 <= i < |r| && r[i].Numbered? ==> r[i].text == LineOr(lines, r[i].number)
  }

  /** Line numbers strictly increase down the block. */
  predicate NumbersIncrease(r: seq<OutLine>) {
    forall i, j :: 0 <= i < j < |r| && r[i].Numbered? && r[j].Numbered? ==> r[i].number < r[j].number
  }

  /** The suggested fix is printed once, as the last line, exactly when it is not empty. */
  predicate FixAtEnd(r: seq<OutLine>, fix: string) {
    && (forall i :: 0 <= i < |r| - 1 ==> !r[i].Fix?)
    && (fix == "" ==> |r| == 0 || !r[|r| - 1].Fix?)
    && (fix != "" ==> |r| > 0 && r[|r| - 1] == Fix(fix))
  }

  function Min(a: int, b: int): int {
    if a <= b then a else b
  }

  // ---------------------------------------------------------------------------
  // Pieces of a block

  function Repeat(n: nat, c: char): (s: string)
    ensures |s| == n && forall i :: 0 <= i < n ==> s[i] == c
  {
    seq(n, _ => c)
  }

  /** `std::string::substr(0, n)`: at most the first `n` characters. */
  function Prefix(s: string, n: nat): (p: string)
    ensures |p| == Min(n, |s|) && p == s[..|p|]
  {
    if n <= |s| then s[..n] else s
  }

  /**
   The underline under the first line of a token's span: `col` spaces, then
   `endCol - col` carets, cut at the length of the printed line. The caret
   positions are exactly the columns `col..endCol-1` that the line has.
   */
  function FirstUnderline(col: int, endCol: int, line: string): (u: string)
    requires 0 <= col <= endCol
    ensures |u| == Min(endCol, |line|)
    ensures forall i :: 0 <= i < |u| ==> u[i] == if i < col then ' ' else '^'
  {
    Prefix(Repeat(col, ' ') + Repeat(endCol - col, '^'), |line|)
  }

  /** The underline under every later line of a span: the whole line in carets. */
  function FullUnderline(line: string): (u: string)
    ensures |u| == |line| && forall i :: 0 <= i < |u| ==> u[i] == '^'
  {
    Prefix(Repeat(|line|, '^'), |line|)
  }

  /** Line `n` under its own number. */
  function ContextLine(lines: seq<string>, n: int): OutLine {
    Numbered(n, LineOr(lines, n))
  }

  /**
   The line before `start`, printed only when `start > 1`; its text is what
   `get_before_start_line` holds, without the '\n' the iterator appends.
   */
  function Leading(lines: seq<string>, start: int): seq<OutLine> {
    if start > 1 then [ContextLine(lines, start - 1)] else []
  }

  /** The lines `from..to`, each with its own number. */
  function NumberedRange(lines: seq<string>, from: int, to: int): (r: seq<OutLine>)
    requires from <= to + 1
    decreases if from <= to then to - from + 1 else 0
    ensures |r| == to - from + 1
    ensures forall i :: 0 <= i < |r| ==> r[i] == ContextLine(lines, from + i)
  {
    if from > to then [] else [ContextLine(lines, from)] + NumberedRange(lines, from + 1, to)
  }

  /**
   The line after `end`, printed under `number` when `end` is below the line
   count of the source; its text is what `get_after_end_line` reads.
   */
  function Trailing(lines: seq<string>, number: int, end: int, total: int): seq<OutLine> {
    if end < total then [Numbered(number, LineOr(lines, end + 1))] else []
  }

  function FixPart(fix: string): seq<OutLine> {
    if |fix| == 0 then [] else [Fix(fix)]
  }

  /**
   The underline under line `from + j` of a span that starts at `from`: the
   first line of the span gets the token's columns, every later one is
   underlined whole.
   */
  function SpanMarks(lines: seq<string>, from: int, j: int, tok: Token, isFirst: bool): string
    requires 1 <= from && 0 <= j
    requires 0 <= tok.colNo <= tok.endColNo
  {
    if isFirst && j == 0 then FirstUnderline(tok.colNo, tok.endColNo, LineOr(lines, from))
    else FullUnderline(LineOr(lines, from + j))
  }

  /** The lines `from..to` of a token's span, each followed by its underline. */
  function SpanBody(lines: seq<string>, from: int, to: int, tok: Token, isFirst: bool): (r: seq<OutLine>)
    requires 1 <= from <= to + 1
    requires 0 <= tok.colNo <= tok.endColNo
    decreases if from <= to then to - from + 1 else 0
    ensures |r| == 2 * (to - from + 1)
  {
    if from > to then []
    else
      [ContextLine(lines, from), Underline(SpanMarks(lines, from, 0, tok, isFirst))]
      + SpanBody(lines, from + 1, to, tok, false)
  }

  /**
   Position `2 * j` of a span body shows line `from + j` and position
   `2 * j + 1` its underline: lines and underlines alternate, in order.
   */
  lemma SpanBodyAt(lines: seq<string>, from: int, to: int, tok: Token, isFirst: bool, j: int)
    requires 1 <= from <= to + 1
    requires 0 <= tok.colNo <= tok.endColNo
    requires 0 <= j <= to - from
    ensures SpanBody(lines, from, to, tok, isFirst)[2 * j] == ContextLine(lines, from + j)
    ensures SpanBody(lines, from, to, tok, isFirst)[2 * j + 1] == Underline(SpanMarks(lines, from, j, tok, isFirst))
  {
    SpanLineAt(lines, from, to, tok, isFirst, j);
    SpanMarkAt(lines, from, to, tok, isFirst, j);
  }

  lemma {:induction false} SpanLineAt(lines: seq<string>, from: int, to: int, tok: Token, isFirst: bool, j: int)
    requires 1 <= from <= to + 1
    requires 0 <= tok.colNo <= tok.endColNo
    requires 0 <= j <= to - from
    decreases j
    ensures SpanBody(lines, from, to, tok, isFirst)[2 * j] == ContextLine(lines, from + j)
  {
    var r := SpanBody(lines, from, to, tok, isFirst);
    var tail := SpanBody(lines, from + 1, to, tok, false);
    assert r == [ContextLine(lines, from), Underline(SpanMarks(lines, from, 0, tok, isFirst))] + tail;
    if j > 0 {
      SpanLineAt(lines, from + 1, to, tok, false, j - 1);
      assert r[2 * j] == tail[2 * (j - 1)];
    }
  }

  lemma {:induction false} SpanMarkAt(lines: seq<string>, from: int, to: int, tok: Token, isFirst: bool, j: int)
    requires 1 <= from <= to + 1
    requires 0 <= tok.colNo <= tok.endColNo
    requires 0 <= j <= to - from
    decreases j
    ensures SpanBody(lines, from, to, tok, isFirst)[2 * j + 1] == Underline(SpanMarks(lines, from, j, tok, isFirst))
  {
    var r := SpanBody(lines, from, to, tok, isFirst);
    var tail := SpanBody(lines, from + 1, to, tok, false);
    assert r == [ContextLine(lines, from), Underline(SpanMarks(lines, from, 0, tok, isFirst))] + tail;
    if j > 0 {
      SpanMarkAt(lines, from + 1, to, tok, false, j - 1);
      assert r[2 * j + 1] == tail[2 * (j - 1) + 1];
    }
  }

  /** Last line of a token's span: its first line plus the line breaks in its text. */
  function SpanEnd(tok: Token): int {
    tok.lineNo + NumberOfLines(tok.literal) - 1
  }

  // ---------------------------------------------------------------------------
  // Laws of the block properties

  /** No line of `a` is a fix. */
  predicate NoFix(a: seq<OutLine>) {
    forall i :: 0 <= i < |a| ==> !a[i].Fix?
  }

  /** Every line number in `a` lies in `lo..hi`. */
  predicate NumbersWithin(a: seq<OutLine>, lo: int, hi: int) {
    forall i :: 0 <= i < |a| && a[i].Numbered? ==> lo <= a[i].number <= hi
  }

  lemma ShowsSourceAppend(a: seq<OutLine>, b: seq<OutLine>, lines: seq<string>)
    requires ShowsSource(a, lines) && ShowsSource(b, lines)
    ensures ShowsSource(a + b, lines)
  {
    forall i | 0 <= i < |a + b| && (a + b)[i].Numbered?
      ensures (a + b)[i].text == LineOr(lines, (a + b)[i].number)
    {
      if i >= |a| {
        assert (a + b)[i] == b[i - |a|];
      }
    }
  }

  lemma NoFixAppend(a: seq<OutLine>, b: seq<OutLine>)
    requires NoFix(a) && NoFix(b)
    ensures NoFix(a + b)
  {
    forall i | 0 <= i < |a + b| ensures !(a + b)[i].Fix? {
      if i >= |a| {
        assert (a + b)[i] == b[i - |a|];
      }
    }
  }

  /** Two increasing runs, the second numbered above the first, make one increasing run. */
  lemma NumbersIncreaseAppend(a: seq<OutLine>, b: seq<OutLine>, lo: int, mid: int, hi: int)
    requires NumbersIncrease(a) && NumbersWithin(a, lo, mid)
    requires NumbersIncrease(b) && NumbersWithin(b, mid + 1, hi)
    requires lo <= mid + 1 && mid <= hi
    ensures NumbersIncrease(a + b) && NumbersWithin(a + b, lo, hi)
  {
    var ab := a + b;
    assert forall i :: |a| <= i < |ab| ==> ab[i] == b[i - |a|];
    assert forall i :: 0 <= i < |a| ==> ab[i] == a[i];
  }

  /** Appending the fix to a block without one puts it once, last. */
  lemma WithFix(a: seq<OutLine>, fix: string, lines: seq<string>)
    requires NoFix(a) && ShowsSource(a, lines) && NumbersIncrease(a)
    ensures var r := a + FixPart(fix);
      ShowsSource(r, lines) && NumbersIncrease(r) && FixAtEnd(r, fix)
  {
    var r := a + FixPart(fix);
    assert forall i :: 0 <= i < |a| ==> r[i] == a[i];
  }

  /** A run of consecutive lines shows the source, increases, and holds no fix. */
  lemma NumberedRangeProps(lines: seq<string>, from: int, to: int)
    requires from <= to + 1
    ensures var r := NumberedRange(lines, from, to);
      ShowsSource(r, lines) && NumbersIncrease(r) && NoFix(r) && NumbersWithin(r, from, to)
  {
  }

  /** A span body shows the source, increases within its span, and holds no fix. */
  lemma {:induction false} SpanBodyProps(lines: seq<string>, from: int, to: int, tok: Token, isFirst: bool)
    requires 1 <= from <= to + 1
    requires 0 <= tok.colNo <= tok.endColNo
    decreases if from <= to then to - from + 1 else 0
    ensures Plain(SpanBody(lines, from, to, tok, isFirst), lines, from, to)
  {
    if from <= to {
      var head := [ContextLine(lines, from), Underline(SpanMarks(lines, from, 0, tok, isFirst))];
      var tail := SpanBody(lines, from + 1, to, tok, false);
      SpanBodyProps(lines, from + 1, to, tok, false);
      PlainAppend(head, tail, lines, from, from, to);
    }
  }

  /** A run of source lines and underlines numbered within `lo..hi`: faithful, increasing, no fix. */
  predicate Plain(r: seq<OutLine>, lines: seq<string>, lo: int, hi: int) {
    ShowsSource(r, lines) && NumbersIncrease(r) && NoFix(r) && NumbersWithin(r, lo, hi)
  }

  lemma PlainAppend(a: seq<OutLine>, b: seq<OutLine>, lines: seq<string>, lo: int, mid: int, hi: int)
    requires Plain(a, lines, lo, mid) && Plain(b, lines, mid + 1, hi)
    requires lo <= mid + 1 && mid <= hi
    ensures Plain(a + b, lines, lo, hi)
  {
    ShowsSourceAppend(a, b, lines);
    NoFixAppend(a, b);
    NumbersIncreaseAppend(a, b, lo, mid, hi);
  }

  // ---------------------------------------------------------------------------
  // Blocks over the lines of a unit

  /** First and last line number of the window `Error::raise` prints for `st..end`. */
  function WindowFirst(st: int): int {
    if st > 1 then st - 1 else st
  }

  function WindowLast(end: int, total: int): int {
    if end < total then end + 1 else end
  }

  /** Appending the next line to a run of consecutive lines extends the run. */
  lemma {:induction false} NumberedRangeSnoc(lines: seq<string>, from: int, to: int)
    requires from <= to + 1
    decreases if from <= to then to - from + 1 else 0
    ensures NumberedRange(lines, from, to) + [ContextLine(lines, to + 1)] == NumberedRange(lines, from, to + 1)
  {
    if from <= to {
      NumberedRangeSnoc(lines, from + 1, to);
      assert [ContextLine(lines, from)] + NumberedRange(lines, from + 1, to) + [ContextLine(lines, to + 1)]
        == [ContextLine(lines, from)] + (NumberedRange(lines, from + 1, to) + [ContextLine(lines, to + 1)]);
    }
  }

  /**
   The lines `Error::raise` prints before the fix (the line before `st` when
   there is one, the lines `st..end`, the line after `end` when `end` is below
   the count) form one run of consecutive lines.
   */
  lemma WindowIsRun(lines: seq<string>, total: int, st: int, end: int)
    requires 1 <= st <= end + 1
    ensures Leading(lines, st) + NumberedRange(lines, st, end) + Trailing(lines, end + 1, end, total)
      == NumberedRange(lines, WindowFirst(st), WindowLast(end, total))
  {
    if end < total {
      NumberedRangeSnoc(lines, st, end);
    }
    if st > 1 {
      if end < total {
        assert NumberedRange(lines, st - 1, end + 1) == [ContextLine(lines, st - 1)] + NumberedRange(lines, st, end + 1);
      } else {
        assert NumberedRange(lines, st - 1, end) == [ContextLine(lines, st - 1)] + NumberedRange(lines, st, end);
      }
    }
  }

  /** The block of `Error::raise` over the lines of a unit whose line count is `total`. */
  function ErrorBlock(lines: seq<string>, total: int, st: int, end: int, fix: string): (r: seq<OutLine>)
    requires 1 <= st <= end + 1
    ensures r == NumberedRange(lines, WindowFirst(st), WindowLast(end, total)) + FixPart(fix)
  {
    WindowIsRun(lines, total, st, end);
    Leading(lines, st) + NumberedRange(lines, st, end) + Trailing(lines, end + 1, end, total) + FixPart(fix)
  }

  /** The block of `CompletionError::raise`: like `Error::raise`, never with the line before `st`. */
  function CompletionBlock(lines: seq<string>, total: int, st: int, end: int, fix: string): (r: seq<OutLine>)
    requires 1 <= st <= end + 1
    ensures r == NumberedRange(lines, st, WindowLast(end, total)) + FixPart(fix)
  {
    WindowIsRun(lines, total, st, end);
    assert Leading(lines, st) + NumberedRange(lines, st, end) + Trailing(lines, end + 1, end, total)
      == Leading(lines, st) + (NumberedRange(lines, st, end) + Trailing(lines, end + 1, end, total));
    if st > 1 then
      assert NumberedRange(lines, st - 1, WindowLast(end, total))
        == [ContextLine(lines, st - 1)] + NumberedRange(lines, st, WindowLast(end, total));
      NumberedRange(lines, st, end) + Trailing(lines, end + 1, end, total) + FixPart(fix)
    else
      NumberedRange(lines, st, end) + Trailing(lines, end + 1, end, total) + FixPart(fix)
  }

  /** Offset of the span's first line in a span block: after the leading line when there is one. */
  function Lead(tok: Token): int {
    if tok.lineNo > 1 then 1 else 0
  }

  /**
   The block of a token diagnostic whose span is the lines `tok.lineNo..end`,
   with the line after the span printed under `trailNumber`: the line before
   the span when there is one, each span line followed by its underline, the
   line after the span when `end` is below the count, then the fix.
   */
  function SpanBlock(lines: seq<string>, total: int, tok: Token, end: int, fix: string, trailNumber: int): (r: seq<OutLine>)
    requires 1 <= tok.lineNo <= end
    requires 0 <= tok.colNo <= tok.endColNo
    ensures |r| == Lead(tok) + 2 * (end - tok.lineNo + 1) + (if end < total then 1 else 0) + (if fix == "" then 0 else 1)
    ensures FixAtEnd(r, fix)
  {
    var lead := Leading(lines, tok.lineNo);
    var body := SpanBody(lines, tok.lineNo, end, tok, true);
    var trail := Trailing(lines, trailNumber, end, total);
    SpanBodyProps(lines, tok.lineNo, end, tok, true);
    NoFixAppend(lead, body);
    NoFixAppend(lead + body, trail);
    assert FixAtEnd(lead + body + trail + FixPart(fix), fix) by {
      var a := lead + body + trail;
      assert forall i :: 0 <= i < |a| ==> (a + FixPart(fix))[i] == a[i];
    }
    lead + body + trail + FixPart(fix)
  }

  /** A span block is its leading line, its span body, then its trailing line and fix. */
  lemma SpanBlockParts(lines: seq<string>, total: int, tok: Token, end: int, fix: string, trailNumber: int)
    requires 1 <= tok.lineNo <= end
    requires 0 <= tok.colNo <= tok.endColNo
    ensures SpanBlock(lines, total, tok, end, fix, trailNumber)
      == Leading(lines, tok.lineNo) + SpanBody(lines, tok.lineNo, end, tok, true)
         + (Trailing(lines, trailNumber, end, total) + FixPart(fix))
  {
  }

  /** `(a + b + c)[|a| + k]` is `b[k]`. */
  lemma IndexMiddle(a: seq<OutLine>, b: seq<OutLine>, c: seq<OutLine>, k: int)
    requires 0 <= k < |b|
    ensures (a + b + c)[|a| + k] == b[k]
  {
  }

  /** Where the lines of a span block sit: line `tok.lineNo + j` at `Lead + 2j`, its underline right after. */
  lemma SpanBlockAt(lines: seq<string>, total: int, tok: Token, end: int, fix: string, trailNumber: int, j: int)
    requires 1 <= tok.lineNo <= end
    requires 0 <= tok.colNo <= tok.endColNo
    requires 0 <= j <= end - tok.lineNo
    ensures var r := SpanBlock(lines, total, tok, end, fix, trailNumber);
      && r[Lead(tok) + 2 * j] == ContextLine(lines, tok.lineNo + j)
      && r[Lead(tok) + 2 * j + 1] == Underline(SpanMarks(lines, tok.lineNo, j, tok, true))
  {
    var lead := Leading(lines, tok.lineNo);
    var body := SpanBody(lines, tok.lineNo, end, tok, true);
    var rest := Trailing(lines, trailNumber, end, total) + FixPart(fix);
    var r := SpanBlock(lines, total, tok, end, fix, trailNumber);
    SpanBlockParts(lines, total, tok, end, fix, trailNumber);
    assert r == lead + body + rest && |lead| == Lead(tok);
    SpanBodyAt(lines, tok.lineNo, end, tok, true, j);
    IndexMiddle(lead, body, rest, 2 * j);
    IndexMiddle(lead, body, rest, 2 * j + 1);
  }

  /** The ends of a span block: the line before the span first, the line after it right after the span. */
  lemma SpanBlockEnds(lines: seq<string>, total: int, tok: Token, end: int, fix: string, trailNumber: int)
    requires 1 <= tok.lineNo <= end
    requires 0 <= tok.colNo <= tok.endColNo
    ensures var r := SpanBlock(lines, total, tok, end, fix, trailNumber);
      && (tok.lineNo > 1 ==> r[0] == ContextLine(lines, tok.lineNo - 1))
      && (end < total ==> r[Lead(tok) + 2 * (end - tok.lineNo + 1)] == Numbered(trailNumber, LineOr(lines, end + 1)))
  {
    var lead := Leading(lines, tok.lineNo);
    var body := SpanBody(lines, tok.lineNo, end, tok, true);
    var trail := Trailing(lines, trailNumber, end, total);
    var r := SpanBlock(lines, total, tok, end, fix, trailNumber);
    SpanBlockParts(lines, total, tok, end, fix, trailNumber);
    assert r == (lead + body) + (trail + FixPart(fix));
    if end < total {
      assert r[|lead + body|] == (trail + FixPart(fix))[0];
    }
  }

  /**
   How a span block is laid out: the line before the span when the span does
   not start on line 1; each line `tok.lineNo..end` under its number followed
   by its underline, the first cut to the token's columns and the others whole;
   the line after the span, under `trailNumber`, when `end` is below `total`;
   then the fix.
   */
  predicate SpanLayout(r: seq<OutLine>, lines: seq<string>, total: int, tok: Token, end: int, trailNumber: int, fix: string) {
    var lead := Lead(tok);
    var n := end - tok.lineNo + 1;
    && 1 <= tok.lineNo <= end && 0 <= tok.colNo <= tok.endColNo
    && |r| == lead + 2 * n + (if end < total then 1 else 0) + (if fix == "" then 0 else 1)
    && (lead == 1 ==> r[0] == ContextLine(lines, tok.lineNo - 1))
    && (forall j :: 0 <= j < n ==> r[lead + 2 * j] == ContextLine(lines, tok.lineNo + j))
    && r[lead + 1] == Underline(FirstUnderline(tok.colNo, tok.endColNo, LineOr(lines, tok.lineNo)))
    && (forall j :: 1 <= j < n ==> r[lead + 2 * j + 1] == Underline(FullUnderline(LineOr(lines, tok.lineNo + j))))
    && (end < total ==> r[lead + 2 * n] == Numbered(trailNumber, LineOr(lines, end + 1)))
    && FixAtEnd(r, fix)
  }

  /** Every span line of a span block under its number, every later one underlined whole. */
  lemma SpanBlockLines(lines: seq<string>, total: int, tok: Token, end: int, fix: string, trailNumber: int)
    requires 1 <= tok.lineNo <= end
    requires 0 <= tok.colNo <= tok.endColNo
    ensures var r := SpanBlock(lines, total, tok, end, fix, trailNumber);
      && (forall j :: 0 <= j < end - tok.lineNo + 1 ==> r[Lead(tok) + 2 * j] == ContextLine(lines, tok.lineNo + j))
      && (forall j :: 1 <= j < end - tok.lineNo + 1 ==>
            r[Lead(tok) + 2 * j + 1] == Underline(FullUnderline(LineOr(lines, tok.lineNo + j))))
  {
    var r := SpanBlock(lines, total, tok, end, fix, trailNumber);
    forall j | 0 <= j < end - tok.lineNo + 1
      ensures r[Lead(tok) + 2 * j] == ContextLine(lines, tok.lineNo + j)
      ensures j >= 1 ==> r[Lead(tok) + 2 * j + 1] == Underline(FullUnderline(LineOr(lines, tok.lineNo + j)))
    {
      SpanBlockAt(lines, total, tok, end, fix, trailNumber, j);
    }
  }

  lemma SpanBlockShape(lines: seq<string>, total: int, tok: Token, end: int, fix: string, trailNumber: int)
    requires 1 <= tok.lineNo <= end
    requires 0 <= tok.colNo <= tok.endColNo
    ensures SpanLayout(SpanBlock(lines, total, tok, end, fix, trailNumber), lines, total, tok, end, trailNumber, fix)
  {
    SpanBlockEnds(lines, total, tok, end, fix, trailNumber);
    SpanBlockAt(lines, total, tok, end, fix, trailNumber, 0);
    SpanBlockLines(lines, total, tok, end, fix, trailNumber);
  }

  /**
   A span block whose trailing line is numbered `end + 1` shows the source
   and numbers its lines in increasing order.
   */
  lemma SpanBlockOrdered(lines: seq<string>, total: int, tok: Token, end: int, fix: string)
    requires 1 <= tok.lineNo <= end
    requires 0 <= tok.colNo <= tok.endColNo
    ensures var r := SpanBlock(lines, total, tok, end, fix, end + 1);
      ShowsSource(r, lines) && NumbersIncrease(r)
  {
    var l := tok.lineNo;
    var lead := Leading(lines, l);
    var body := SpanBody(lines, l, end, tok, true);
    var trail := Trailing(lines, end + 1, end, total);
    SpanBodyProps(lines, l, end, tok, true);
    ShowsSourceAppend(lead, body, lines);
    ShowsSourceAppend(lead + body, trail, lines);
    NumbersIncreaseAppend(lead, body, l - 1, l - 1, end);
    NumbersIncreaseAppend(lead + body, trail, l - 1, end, end + 1);
    NoFixAppend(lead, body);
    NoFixAppend(lead + body, trail);
    WithFix(lead + body + trail, fix, lines);
  }

  /**
   How a window block is laid out: the lines `first..last`, each under its
   own number, then the fix.
   */
  predicate RunLayout(r: seq<OutLine>, lines: seq<string>, first: int, last: int, fix: string) {
    && |r| == last - first + 1 + (if fix == "" then 0 else 1)
    && (forall i :: 0 <= i <= last - first ==> r[i] == ContextLine(lines, first + i))
    && FixAtEnd(r, fix)
  }

  lemma RunProps(lines: seq<string>, first: int, last: int, fix: string)
    requires first <= last + 1
    ensures var r := NumberedRange(lines, first, last) + FixPart(fix);
      RunLayout(r, lines, first, last, fix) && ShowsSource(r, lines) && NumbersIncrease(r)
  {
    var run := NumberedRange(lines, first, last);
    NumberedRangeProps(lines, first, last);
    WithFix(run, fix, lines);
    assert forall i :: 0 <= i < |run| ==> (run + FixPart(fix))[i] == run[i];
  }

  // ---------------------------------------------------------------------------
  // The four renderers

  /**
   The line ranges the window renderers are given: a start at most one past
   the end, at most one past the last line, and an end within the line
   count. The end may thus be the line after a final '\n', which the
   iterator reads as "".
   */
  predicate InWindow(source: string, st: int, end: int) {
    1 <= st <= end + 1 && st <= |SplitLines(source)| + 1 && end <= NumberOfLines(source)
  }

  /**
   `Error::raise`: the line before `stLine` when there is one, the lines
   `stLine..endLine` each under its own number, the line after `endLine` when
   `endLine` is below the line count, and the suggested fix when it is not
   empty. So the block is a run of consecutive source lines followed by the fix.
   */
  function RenderError(source: string, stLine: int, endLine: int, fix: string): (r: seq<OutLine>)
    requires InWindow(source, stLine, endLine)
    ensures RunLayout(r, SplitLines(source), WindowFirst(stLine), WindowLast(endLine, NumberOfLines(source)), fix)
    ensures ShowsSource(r, SplitLines(source)) && NumbersIncrease(r)
  {
    RunProps(SplitLines(source), WindowFirst(stLine), WindowLast(endLine, NumberOfLines(source)), fix);
    ErrorBlock(SplitLines(source), NumberOfLines(source), stLine, endLine, fix)
  }

  /**
   `NoPrefixParseFnError::raise`: the same block as `Error::raise` over the
   single line of the token, so that line is the only body line.
   */
  function RenderNoPrefixParseFn(source: string, tok: Token, fix: string): (r: seq<OutLine>)
    requires 1 <= tok.lineNo <= NumberOfLines(source)
    ensures RunLayout(r, SplitLines(source), WindowFirst(tok.lineNo), WindowLast(tok.lineNo, NumberOfLines(source)), fix)
    ensures ShowsSource(r, SplitLines(source)) && NumbersIncrease(r)
  {
    NumberOfLinesVsSplit(source);
    RenderError(source, tok.lineNo, tok.lineNo, fix)
  }

  /**
   What a token diagnostic needs: a span that ends by the line count, as the
   window of the other kinds does (so it may end on the empty line after a
   final '\n'), and an ordered column range.
   */
  predicate TokenInSource(source: string, tok: Token) {
    && 1 <= tok.lineNo
    && 0 <= tok.colNo <= tok.endColNo
    && SpanEnd(tok) <= NumberOfLines(source)
  }

  /**
   `SyntaxError::raise` as written. The span runs from the token's line over
   the line breaks of its text; every line of it is followed by its underline:
   the first by the token's columns cut at the line's length, every later one
   by carets across the whole line. The line after the span is printed when
   the span ends below the line count, with the text of line `SpanEnd + 1`
   but labelled `token.line_no + 1` whatever the span's length.
   */
  function RenderSyntax(source: string, tok: Token, fix: string): (r: seq<OutLine>)
    requires TokenInSource(source, tok)
    ensures SpanLayout(r, SplitLines(source), NumberOfLines(source), tok, SpanEnd(tok), tok.lineNo + 1, fix)
  {
    SpanBlockShape(SplitLines(source), NumberOfLines(source), tok, SpanEnd(tok), fix, tok.lineNo + 1);
    SpanBlock(SplitLines(source), NumberOfLines(source), tok, SpanEnd(tok), fix, tok.lineNo + 1)
  }

  /**
   For a token whose text spans several lines, `RenderSyntax` prints the line
   after the span under the number of the span's second line: the numbers do
   not increase, and the trailing line does not show the line it names unless
   the two lines happen to read the same.
   */
  lemma SyntaxTrailingLabelRepeats(source: string, tok: Token, fix: string)
    requires TokenInSource(source, tok)
    requires CountNewlines(tok.literal) >= 1
    requires SpanEnd(tok) < NumberOfLines(source)
    ensures !NumbersIncrease(RenderSyntax(source, tok, fix))
    ensures LineOr(SplitLines(source), SpanEnd(tok) + 1) != LineOr(SplitLines(source), tok.lineNo + 1)
      ==> !ShowsSource(RenderSyntax(source, tok, fix), SplitLines(source))
  {
    var r := RenderSyntax(source, tok, fix);
    var lead := Lead(tok);
    var n := SpanEnd(tok) - tok.lineNo + 1;
    assert r[lead + 2 * 1] == ContextLine(SplitLines(source), tok.lineNo + 1);
    assert r[lead + 2 * n].number == r[lead + 2].number;
  }

  /** The lines of the text "b\nc". */
  lemma ExampleTailLines()
    ensures SplitLines("b\nc") == ["b", "c"]
  {
    var t := "b\nc";
    assert SplitLines("c") == ["c"] by {
      assert "c"[1..] == "";
      assert NewlineIndex("c") == 1;
    }
    assert t[1..] == "\nc" && NewlineIndex("\nc") == 0;
    assert NewlineIndex(t) == 1;
    assert t[..1] == "b" && t[2..] == "c";
  }

  /** The lines of the text "a\nb\nc". */
  lemma ExampleLines()
    ensures SplitLines("a\nb\nc") == ["a", "b", "c"]
  {
    var src := "a\nb\nc";
    ExampleTailLines();
    assert src[1..] == "\nb\nc" && NewlineIndex("\nb\nc") == 0;
    assert NewlineIndex(src) == 1;
    assert src[..1] == "a" && src[2..] == "b\nc";
  }

  /** The line counts of the texts "a\nb\nc" and "x\ny". */
  lemma ExampleCounts()
    ensures NumberOfLines("a\nb\nc") == 3 && NumberOfLines("x\ny") == 2
  {
    var src := "a\nb\nc";
    assert src[1..] == "\nb\nc" && src[2..] == "b\nc" && src[3..] == "\nc" && src[4..] == "c" && "c"[1..] == "";
    assert CountNewlines("c") == 0;
    assert "x\ny"[1..] == "\ny" && "\ny"[1..] == "y" && "y"[1..] == "";
    assert CountNewlines("y") == 0;
  }

  /** The span body of the token "x\ny" at line 1, columns 0..1, over the lines "a", "b", "c". */
  lemma ExampleSpanBody()
    ensures SpanBody(["a", "b", "c"], 1, 2, Token(1, 0, 1, "x\ny"), true)
      == [Numbered(1, "a"), Underline("^"), Numbered(2, "b"), Underline("^")]
  {
    var lines: seq<string> := ["a", "b", "c"];
    var tok := Token(1, 0, 1, "x\ny");
    assert FirstUnderline(0, 1, "a") == "^" by {
      var u := FirstUnderline(0, 1, "a");
      assert |u| == 1 && u[0] == '^';
    }
    assert FullUnderline("b") == "^" by {
      var u := FullUnderline("b");
      assert |u| == 1 && u[0] == '^';
    }
    assert SpanBody(lines, 3, 2, tok, false) == [];
    assert SpanBody(lines, 2, 2, tok, false) == [Numbered(2, "b"), Underline("^")];
  }

  /** A concrete instance: a two-line token on line 1 of a three-line unit. */
  lemma SyntaxTrailingLabelExample()
    ensures RenderSyntax("a\nb\nc", Token(1, 0, 1, "x\ny"), "") ==
      [Numbered(1, "a"), Underline("^"), Numbered(2, "b"), Underline("^"), Numbered(2, "c")]
  {
    ExampleLines();
    ExampleCounts();
    ExampleSpanBody();
    var lines: seq<string> := ["a", "b", "c"];
    var tok := Token(1, 0, 1, "x\ny");
    SpanBlockParts(lines, 3, tok, 2, "", 2);
  }

  /**
   `SyntaxError::raise` with the line after the span labelled with its own
   number `SpanEnd + 1`, as every other kind labels it: the same lines in the
   same places, and now every numbered line shows the source line it names
   and the numbers strictly increase.
   */
  function RenderSyntaxFixed(source: string, tok: Token, fix: string): (r: seq<OutLine>)
    requires TokenInSource(source, tok)
    ensures SpanLayout(r, SplitLines(source), NumberOfLines(source), tok, SpanEnd(tok), SpanEnd(tok) + 1, fix)
    ensures ShowsSource(r, SplitLines(source)) && NumbersIncrease(r)
  {
    SpanBlockFixed(SplitLines(source), NumberOfLines(source), tok, SpanEnd(tok), fix);
    SpanBlock(SplitLines(source), NumberOfLines(source), tok, SpanEnd(tok), fix, SpanEnd(tok) + 1)
  }

  /** The span block numbered as corrected has the span layout, shows the source, and increases. */
  lemma SpanBlockFixed(lines: seq<string>, total: int, tok: Token, end: int, fix: string)
    requires 1 <= tok.lineNo <= end
    requires 0 <= tok.colNo <= tok.endColNo
    ensures var r := SpanBlock(lines, total, tok, end, fix, end + 1);
      SpanLayout(r, lines, total, tok, end, end + 1, fix) && ShowsSource(r, lines) && NumbersIncrease(r)
  {
    SpanBlockShape(lines, total, tok, end, fix, end + 1);
    SpanBlockOrdered(lines, total, tok, end, fix);
  }

  /**
   Two span blocks that differ only in the number given to the line after the
   span agree before that line and after it, and on its text.
   */
  lemma SpanBlockRenumber(lines: seq<string>, total: int, tok: Token, end: int, fix: string, x: int, y: int)
    requires 1 <= tok.lineNo <= end
    requires 0 <= tok.colNo <= tok.endColNo
    ensures OnlyRenumbered(SpanBlock(lines, total, tok, end, fix, x), SpanBlock(lines, total, tok, end, fix, y),
                           Lead(tok) + 2 * (end - tok.lineNo + 1), end < total)
  {
    var front := Leading(lines, tok.lineNo) + SpanBody(lines, tok.lineNo, end, tok, true);
    var restA := Trailing(lines, x, end, total) + FixPart(fix);
    var restB := Trailing(lines, y, end, total) + FixPart(fix);
    SpanBlockParts(lines, total, tok, end, fix, x);
    SpanBlockParts(lines, total, tok, end, fix, y);
    assert |front| == Lead(tok) + 2 * (end - tok.lineNo + 1);
    assert (front + restA)[..|front|] == front == (front + restB)[..|front|];
    if end < total {
      assert (front + restA)[|front|] == Numbered(x, LineOr(lines, end + 1));
      assert (front + restB)[|front|] == Numbered(y, LineOr(lines, end + 1));
      assert (front + restA)[|front| + 1..] == FixPart(fix) == (front + restB)[|front| + 1..];
    }
  }

  /**
   `b` is `a` with at most line `t` renumbered: the two agree before `t`; when
   `renumbered`, both show the same text at `t` and agree after it, and
   otherwise they are equal.
   */
  predicate OnlyRenumbered(a: seq<OutLine>, b: seq<OutLine>, t: int, renumbered: bool) {
    && |a| == |b| && 0 <= t <= |a| && a[..t] == b[..t]
    && (renumbered ==>
          t < |a| && a[t].Numbered? && b[t].Numbered? && a[t].text == b[t].text && a[t + 1..] == b[t + 1..])
    && (!renumbered ==> a == b)
  }

  /**
   The correction changes only the number of the line after the span: both
   blocks agree before it and after it, and on its text.
   */
  lemma SyntaxFixOnlyRenumbersTrailing(source: string, tok: Token, fix: string)
    requires TokenInSource(source, tok)
    ensures OnlyRenumbered(RenderSyntax(source, tok, fix), RenderSyntaxFixed(source, tok, fix),
                           Lead(tok) + 2 * (SpanEnd(tok) - tok.lineNo + 1), SpanEnd(tok) < NumberOfLines(source))
  {
    SpanBlockRenumber(SplitLines(source), NumberOfLines(source), tok, SpanEnd(tok), fix, tok.lineNo + 1, SpanEnd(tok) + 1);
  }

  /**
   `CompletionError::raise`: never a line before the range; the lines
   `stLine..endLine` each under its own number, the line after `endLine` when
   it is below the line count, and the suggested fix.
   */
  function RenderCompletion(source: string, stLine: int, endLine: int, fix: string): (r: seq<OutLine>)
    requires InWindow(source, stLine, endLine)
    ensures RunLayout(r, SplitLines(source), stLine, WindowLast(endLine, NumberOfLines(source)), fix)
    ensures ShowsSource(r, SplitLines(source)) && NumbersIncrease(r)
  {
    RunProps(SplitLines(source), stLine, WindowLast(endLine, NumberOfLines(source)), fix);
    CompletionBlock(SplitLines(source), NumberOfLines(source), stLine, endLine, fix)
  }

  // ---------------------------------------------------------------------------
  // Any diagnostic

  /** The inputs each kind is rendered for: existing lines and ordered columns. */
  predicate WellFormed(d: Diagnostic) {
    match d
    case Error(source, st, end, _) => InWindow(source, st, end)
    case NoPrefixParseFnError(source, tok, _) => 1 <= tok.lineNo <= NumberOfLines(source)
    case SyntaxError(source, tok, _) => TokenInSource(source, tok)
    case CompletionError(source, st, end, _) => InWindow(source, st, end)
  }

  /**
   The source-context block of any diagnostic, with syntax errors numbered as
   `RenderSyntaxFixed` does: every numbered line shows the source line it
   names, the numbers strictly increase, and the suggested fix appears once,
   last, exactly when it is not empty.
   */
  function Render(d: Diagnostic): (r: seq<OutLine>)
    requires WellFormed(d)
    ensures ShowsSource(r, SplitLines(d.source)) && NumbersIncrease(r) && FixAtEnd(r, d.suggestedFix)
  {
    match d
    case Error(source, st, end, fix) =>
      var r := RenderError(source, st, end, fix);
      assert RunLayout(r, SplitLines(source), WindowFirst(st), WindowLast(end, NumberOfLines(source)), fix);
      r
    case NoPrefixParseFnError(source, tok, fix) =>
      var r := RenderNoPrefixParseFn(source, tok, fix);
      assert RunLayout(r, SplitLines(source), WindowFirst(tok.lineNo), WindowLast(tok.lineNo, NumberOfLines(source)), fix);
      r
    case SyntaxError(source, tok, fix) =>
      var r := RenderSyntaxFixed(source, tok, fix);
      assert SpanLayout(r, SplitLines(source), NumberOfLines(source), tok, SpanEnd(tok), SpanEnd(tok) + 1, fix);
      r
    case CompletionError(source, st, end, fix) =>
      var r := RenderCompletion(source, st, end, fix);
      assert RunLayout(r, SplitLines(source), st, WindowLast(end, NumberOfLines(source)), fix);
      r
  }

  /**
   A `CompletionError` shows the block of an `Error` over the same range
   without its leading line.
   */
  lemma CompletionDropsLeadingLine(source: string, st: int, end: int, fix: string)
    requires 1 < st && InWindow(source, st, end)
    ensures RenderError(source, st, end, fix) ==
      [Numbered(st - 1, SplitLines(source)[st - 2])] + RenderCompletion(source, st, end, fix)
  {
    var lines := SplitLines(source);
    var last := WindowLast(end, NumberOfLines(source));
    assert NumberedRange(lines, st - 1, last) == [ContextLine(lines, st - 1)] + NumberedRange(lines, st, last);
  }

  /**
   Under the assumed line count, when the unit text ends in '\n' and the range
   reaches its last line, the last numbered line of the block is one past the
   last line of the text, shown empty.
   */
  lemma TrailingLinePastFinalNewline(source: string, st: int, fix: string)
    requires EndsWithNewline(source)
    requires InWindow(source, st, |SplitLines(source)|)
    ensures var r := RenderError(source, st, |SplitLines(source)|, fix);
      var k := |SplitLines(source)| + 1 - WindowFirst(st);
      0 <= k < |r| && r[k] == Numbered(|SplitLines(source)| + 1, "")
  {
    NumberOfLinesVsSplit(source);
    var r := RenderError(source, st, |SplitLines(source)|, fix);
    assert RunLayout(r, SplitLines(source), WindowFirst(st), |SplitLines(source)| + 1, fix);
  }

  /**
   A syntax error on the line after the text (the empty line after a final
   '\n', or line 1 of an empty unit) is rendered: that line shows empty,
   with an empty underline, since `getline` yields "" there.
   */
  lemma SyntaxOnLineAfterText(source: string, tok: Token, fix: string)
    requires |source| == 0 || EndsWithNewline(source)
    requires tok.lineNo == |SplitLines(source)| + 1 && CountNewlines(tok.literal) == 0
    requires 0 <= tok.colNo <= tok.endColNo
    ensures TokenInSource(source, tok)
    ensures var r := RenderSyntax(source, tok, fix);
      Lead(tok) + 1 < |r| && r[Lead(tok)] == Numbered(tok.lineNo, "") && r[Lead(tok) + 1] == Underline("")
  {
    NumberOfLinesVsSplit(source);
    var u := FirstUnderline(tok.colNo, tok.endColNo, "");
    assert |u| == 0;
  }

  // ---------------------------------------------------------------------------
  // The renderers as the source writes them, over the line iterator

  /** Printing the next line of the window under `c` extends the run of numbered lines by line `c`. */
  lemma PrintNext(lines: seq<string>, lead: seq<OutLine>, st: int, c: int)
    requires st <= c
    ensures lead + NumberedRange(lines, st, c - 1) + [Numbered(c, LineOr(lines, c))] == lead + NumberedRange(lines, st, c)
  {
    NumberedRangeSnoc(lines, st, c - 1);
  }

  /**
   The `has_next`/`next` loop of a `raise`: each line of the window's body
   under `c_line`, which starts at `st` and goes up by one per line.
   */
  method PrintBody(lines: seq<string>, lead: seq<OutLine>, st: int, body: seq<string>) returns (out: seq<OutLine>)
    requires forall i :: 0 <= i < |body| ==> body[i] == LineOr(lines, st + i)
    ensures out == lead + NumberedRange(lines, st, st + |body| - 1)
  {
    out := lead;
    var c := st;
    var i := 0;
    while i < |body|
      invariant 0 <= i <= |body| && c == st + i
      invariant out == lead + NumberedRange(lines, st, c - 1)
    {
      PrintNext(lines, lead, st, c);
      out := out + [Numbered(c, body[i])];
      c := c + 1;
      i := i + 1;
    }
  }

  /** The block of `Error::raise` piece by piece: leading line, the range, trailing line, fix. */
  lemma RenderErrorParts(source: string, st: int, end: int, fix: string)
    requires InWindow(source, st, end)
    ensures RenderError(source, st, end, fix)
      == Leading(SplitLines(source), st) + NumberedRange(SplitLines(source), st, end)
         + Trailing(SplitLines(source), end + 1, end, NumberOfLines(source)) + FixPart(fix)
  {
  }

  /** The block of `CompletionError::raise` piece by piece: the range, trailing line, fix. */
  lemma RenderCompletionParts(source: string, st: int, end: int, fix: string)
    requires InWindow(source, st, end)
    ensures RenderCompletion(source, st, end, fix)
      == NumberedRange(SplitLines(source), st, end)
         + Trailing(SplitLines(source), end + 1, end, NumberOfLines(source)) + FixPart(fix)
  {
  }

  /**
   The context line `raise` prints before the range: the line read just
   before the window, with its newline dropped, numbered `start - 1`.
   */
  method LeadOf(lines: seq<string>, before: string, start: int) returns (lead: seq<OutLine>)
    requires 1 <= start <= |lines| + 1
    requires before == (if start > 1 then lines[start - 2] + "\n" else "")
    ensures lead == Leading(lines, start)
  {
    if start > 1 {
      assert before[..|before| - 1] == lines[start - 2];
      lead := [Numbered(start - 1, before[..|before| - 1])];
    } else {
      lead := [];
    }
  }

  /**
   `Error::raise` as the source writes it: a `LineIterator` over the range,
   the line before it without the '\n' the iterator appends, the loop over
   the window, the line after `end_line` when it is below the line count,
   then the fix. It prints exactly the block `RenderError` describes.
   */
  method RaiseError(source: string, stLine: int, endLine: int, fix: string) returns (out: seq<OutLine>)
    requires InWindow(source, stLine, endLine)
    ensures out == RenderError(source, stLine, endLine, fix)
  {
    var lines := SplitLines(source);
    var before, body, after := LineStream.Window(source, stLine, endLine);
    var lead := LeadOf(lines, before, stLine);
    out := PrintBody(lines, [], stLine, body);
    assert out == NumberedRange(lines, stLine, endLine);
    var trail := if endLine < NumberOfLines(source) then [Numbered(endLine + 1, after)] else [];
    var fixPart := if fix != "" then [Fix(fix)] else [];
    out := lead + out + trail + fixPart;
    RenderErrorParts(source, stLine, endLine, fix);
  }

  /** `NoPrefixParseFnError::raise` as the source writes it: the same steps over the token's line. */
  method RaiseNoPrefixParseFn(source: string, tok: Token, fix: string) returns (out: seq<OutLine>)
    requires 1 <= tok.lineNo <= NumberOfLines(source)
    ensures out == RenderNoPrefixParseFn(source, tok, fix)
  {
    NumberOfLinesVsSplit(source);
    out := RaiseError(source, tok.lineNo, tok.lineNo, fix);
  }

  /**
   `CompletionError::raise` as the source writes it: the loop over the
   window, the line after `end_line` when it is below the line count, then
   the fix; the line before the range is never printed. It prints exactly
   the block `RenderCompletion` describes.
   */
  method RaiseCompletion(source: string, stLine: int, endLine: int, fix: string) returns (out: seq<OutLine>)
    requires InWindow(source, stLine, endLine)
    ensures out == RenderCompletion(source, stLine, endLine, fix)
  {
    var lines := SplitLines(source);
    var before, body, after := LineStream.Window(source, stLine, endLine);
    out := PrintBody(lines, [], stLine, body);
    assert out == NumberedRange(lines, stLine, endLine);
    var trail := if endLine < NumberOfLines(source) then [Numbered(endLine + 1, after)] else [];
    var fixPart := if fix != "" then [Fix(fix)] else [];
    out := out + trail + fixPart;
    RenderCompletionParts(source, stLine, endLine, fix);
  }

  /** A span body one line longer: the next line and its underline follow at the end. */
  lemma {:induction false} SpanBodySnoc(lines: seq<string>, from: int, to: int, tok: Token, isFirst: bool)
    requires 1 <= from <= to + 1
    requires 0 <= tok.colNo <= tok.endColNo
    decreases if from <= to then to - from + 1 else 0
    ensures SpanBody(lines, from, to + 1, tok, isFirst)
      == SpanBody(lines, from, to, tok, isFirst)
         + [ContextLine(lines, to + 1), Underline(SpanMarks(lines, from, to + 1 - from, tok, isFirst))]
  {
    if from <= to {
      SpanBodySnoc(lines, from + 1, to, tok, false);
    }
  }

  /**
   The underline `raise` prints under line `c` of a token's span, cut at the
   line's length: the token's columns on the first line, carets across
   every later one.
   */
  lemma PrintedMarks(lines: seq<string>, tok: Token, c: int, line: string)
    requires 1 <= tok.lineNo <= c && 0 <= tok.colNo <= tok.endColNo
    requires line == LineOr(lines, c)
    ensures var underline := if c == tok.lineNo then Repeat(tok.colNo, ' ') + Repeat(tok.endColNo - tok.colNo, '^')
                             else Repeat(|line|, '^');
      Prefix(underline, |line|) == SpanMarks(lines, tok.lineNo, c - tok.lineNo, tok, true)
  {
  }

  /** Printing line `c` of the span and its underline extends the printed span body by that line. */
  lemma PrintSpanNext(lines: seq<string>, lead: seq<OutLine>, tok: Token, c: int, out: seq<OutLine>, marks: string)
    requires 1 <= tok.lineNo <= c && 0 <= tok.colNo <= tok.endColNo
    requires out == lead + SpanBody(lines, tok.lineNo, c - 1, tok, true)
    requires marks == SpanMarks(lines, tok.lineNo, c - tok.lineNo, tok, true)
    ensures out + [Numbered(c, LineOr(lines, c)), Underline(marks)] == lead + SpanBody(lines, tok.lineNo, c, tok, true)
  {
    SpanBodySnoc(lines, tok.lineNo, c - 1, tok, true);
  }

  /**
   The `has_next`/`next` loop of `SyntaxError::raise`: each line of the
   window under `c_line`, followed by its underline, with `is_first_line`
   true only for the first.
   */
  method PrintSpan(lines: seq<string>, lead: seq<OutLine>, tok: Token, body: seq<string>) returns (out: seq<OutLine>)
    requires 1 <= tok.lineNo && 0 <= tok.colNo <= tok.endColNo
    requires forall i :: 0 <= i < |body| ==> body[i] == LineOr(lines, tok.lineNo + i)
    ensures out == lead + SpanBody(lines, tok.lineNo, tok.lineNo + |body| - 1, tok, true)
  {
    out := lead;
    var c := tok.lineNo;
    var isFirstLine := true;
    var i := 0;
    while i < |body|
      invariant 0 <= i <= |body| && c == tok.lineNo + i && isFirstLine == (i == 0)
      invariant out == lead + SpanBody(lines, tok.lineNo, c - 1, tok, true)
    {
      var line := body[i];
      var underline := if isFirstLine then Repeat(tok.colNo, ' ') + Repeat(tok.endColNo - tok.colNo, '^')
                       else Repeat(|line|, '^');
      PrintedMarks(lines, tok, c, line);
      PrintSpanNext(lines, lead, tok, c, out, Prefix(underline, |line|));
      out := out + [Numbered(c, line), Underline(Prefix(underline, |line|))];
      c := c + 1;
      isFirstLine := false;
      i := i + 1;
    }
  }

  /** The block of `SyntaxError::raise` piece by piece: leading line, span body, trailing line, fix. */
  lemma RenderSyntaxParts(source: string, tok: Token, fix: string)
    requires TokenInSource(source, tok)
    ensures var lines := SplitLines(source);
      RenderSyntax(source, tok, fix)
        == Leading(lines, tok.lineNo) + SpanBody(lines, tok.lineNo, SpanEnd(tok), tok, true)
           + (Trailing(lines, tok.lineNo + 1, SpanEnd(tok), NumberOfLines(source)) + FixPart(fix))
  {
    SpanBlockParts(SplitLines(source), NumberOfLines(source), tok, SpanEnd(tok), fix, tok.lineNo + 1);
  }

  /**
   The end of `SyntaxError::raise`: the line after the span, numbered
   `number`, when the span ends above the line count, then the fix when
   there is one.
   */
  method PrintTail(lines: seq<string>, total: int, number: int, end: int, after: string, fix: string)
    returns (tail: seq<OutLine>)
    requires after == LineOr(lines, end + 1)
    ensures tail == Trailing(lines, number, end, total) + FixPart(fix)
  {
    tail := [];
    if end < total {
      tail := tail + [Numbered(number, after)];
    }
    if fix != "" {
      tail := tail + [Fix(fix)];
    }
  }

  /**
   The statements of `SyntaxError::raise`: a `LineIterator` over the token's
   span, the line before it, the loop that prints each line with its
   underline, the line after the span under `token.line_no + 1` when the span
   ends below the line count, then the fix.
   */
  method PrintSyntax(source: string, tok: Token, fix: string) returns (out: seq<OutLine>)
    requires TokenInSource(source, tok)
    ensures var lines := SplitLines(source);
      out == Leading(lines, tok.lineNo) + SpanBody(lines, tok.lineNo, SpanEnd(tok), tok, true)
             + (Trailing(lines, tok.lineNo + 1, SpanEnd(tok), NumberOfLines(source)) + FixPart(fix))
  {
    var lines := SplitLines(source);
    var end := SpanEnd(tok);
    NumberOfLinesVsSplit(source);
    var before, body, after := LineStream.Window(source, tok.lineNo, end);
    var lead := LeadOf(lines, before, tok.lineNo);
    var span := PrintSpan(lines, lead, tok, body);
    var tail := PrintTail(lines, NumberOfLines(source), tok.lineNo + 1, end, after, fix);
    out := span + tail;
  }

  /** `SyntaxError::raise` prints exactly the block `RenderSyntax` describes. */
  method RaiseSyntax(source: string, tok: Token, fix: string) returns (out: seq<OutLine>)
    requires TokenInSource(source, tok)
    ensures out == RenderSyntax(source, tok, fix)
  {
    out := PrintSyntax(source, tok, fix);
    RenderSyntaxParts(source, tok, fix);
  }
}
