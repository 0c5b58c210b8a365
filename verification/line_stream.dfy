/**
 The `LineIterator` helper of the diagnostic renderer, over a model of an
 `std::istringstream` read with `std::getline`.
 */
module LineStream {
  import opened TextLines

  /** The unread text of a string stream with its end-of-file and fail bits. */
  datatype Stream = Stream(rest: string, eof: bool, fail: bool)

  function OpenStream(text: string): Stream {
    Stream(text, false, false)
  }

  /** The stream after a `std::getline` call, and the string it left in the target. */
  datatype GetLineResult = GetLineResult(stream: Stream, line: string)

  /**
   One `std::getline(stream, target)`, where `target` held `current`. With the
   eof or fail bit already set nothing is read, the fail bit is set and the
   target keeps `current`. Otherwise the target is cleared and the characters
   up to the next '\n' are moved into it, the '\n' is consumed; reaching the
   end sets the eof bit, and reaching it without extracting anything also sets
   the fail bit.
   */
  function GetLine(s: Stream, current: string): (r: GetLineResult)
    ensures s.eof || s.fail ==> r == GetLineResult(s.(fail := true), current)
    ensures !s.eof && !s.fail && |s.rest| == 0 ==> r.stream.fail && r.line == ""
    ensures !s.eof && !s.fail && |s.rest| > 0 ==>
      && !r.stream.fail
      && r.line + (if r.stream.eof then "" else "\n") + r.stream.rest == s.rest
      && NoNewline(r.line)
      && (r.stream.eof <==> NoNewline(s.rest))
      && (r.stream.eof ==> r.stream.rest == "")
  {
    if s.eof || s.fail then GetLineResult(s.(fail := true), current)
    else
      var k := NewlineIndex(s.rest);
      if k < |s.rest| then
        assert s.rest == s.rest[..k] + "\n" + s.rest[k + 1..];
        GetLineResult(Stream(s.rest[k + 1..], false, false), s.rest[..k])
      else
        assert s.rest[..k] == s.rest;
        GetLineResult(Stream([], true, k == 0), s.rest)
  }

  /**
   The stream invariant the iterator keeps while it stays inside the text:
   nothing failed, and the eof bit is set only once everything was read.
   */
  predicate Healthy(s: Stream) {
    !s.fail && (s.eof ==> |s.rest| == 0)
  }

  /**
   What the stream still knows about the end of `text`: while text is
   unread it ends as `text` does, and the eof bit is set only after the
   last line of a text that does not end with '\n'.
   */
  predicate TracksEnd(s: Stream, text: string) {
    && (|s.rest| > 0 ==> |text| > 0 && (EndsWithNewline(s.rest) <==> EndsWithNewline(text)))
    && (s.eof ==> |text| > 0 && !EndsWithNewline(text))
  }

  /** A `getline` that reads from a healthy stream keeps what it knows about the end of the text. */
  lemma GetLineTracksEnd(s: Stream, current: string, text: string)
    requires Healthy(s) && TracksEnd(s, text) && |s.rest| > 0
    ensures TracksEnd(GetLine(s, current).stream, text)
  {
    var k := NewlineIndex(s.rest);
    if k + 1 < |s.rest| {
      SameLast(s.rest, k + 1);
    }
  }

  /**
   A healthy stream with lines left yields the first of its lines, stays
   healthy, and keeps exactly the remaining lines.
   */
  lemma GetLineTakesFirstLine(s: Stream, current: string, lines: seq<string>)
    requires Healthy(s) && SplitLines(s.rest) == lines && |lines| > 0
    ensures var r := GetLine(s, current);
      && Healthy(r.stream)
      && r.line == lines[0]
      && SplitLines(r.stream.rest) == lines[1..]
  {
    var k := NewlineIndex(s.rest);
    if k < |s.rest| {
      var rest := s.rest[k + 1..];
      if |rest| > 0 {
        assert SplitLines(s.rest) == [s.rest[..k]] + SplitLines(rest);
      }
    }
  }

  /** Once the lines are used up, `getline` leaves an empty target empty. */
  lemma GetLinePastEnd(s: Stream)
    requires Healthy(s) && |SplitLines(s.rest)| == 0
    ensures GetLine(s, "").line == ""
  {
  }

  /** The iterator's state: its stream, `current_line`, and `current_line_no`. */
  datatype Iterator = Iterator(stream: Stream, currentLine: string, currentLineNo: int)

  /**
   A `getline` into `current_line` that advances `current_line_no`: the step
   both the constructor loop and `has_next` followed by `next` take. Inside
   the text it yields the next line.
   */
  method Advance(it: Iterator, ghost lines: seq<string>, ghost text: string) returns (next: Iterator)
    requires Healthy(it.stream) && SplitLines(it.stream.rest) == lines && |lines| > 0
    requires TracksEnd(it.stream, text)
    ensures Healthy(next.stream) && SplitLines(next.stream.rest) == lines[1..]
    ensures next.currentLine == lines[0] && next.currentLineNo == it.currentLineNo + 1
    ensures TracksEnd(next.stream, text)
  {
    GetLineTakesFirstLine(it.stream, it.currentLine, lines);
    GetLineTracksEnd(it.stream, it.currentLine, text);
    var r := GetLine(it.stream, it.currentLine);
    next := Iterator(r.stream, r.line, it.currentLineNo + 1);
  }

  /**
   The `LineIterator` constructor: reads lines until `current_line_no` reaches
   `start`, remembering the last one read, followed by '\n', as the line before
   the start. Every `getline` here succeeds because `start - 1` lines exist.
   */
  method Construct(text: string, start: int) returns (it: Iterator, before: string)
    requires 1 <= start <= |SplitLines(text)| + 1
    ensures it.currentLineNo == start && Healthy(it.stream)
    ensures SplitLines(it.stream.rest) == SplitLines(text)[start - 1..]
    ensures before == (if start > 1 then SplitLines(text)[start - 2] + "\n" else "")
    ensures TracksEnd(it.stream, text)
  {
    ghost var lines := SplitLines(text);
    it := Iterator(OpenStream(text), "", 1);
    before := "";
    while it.currentLineNo < start
      invariant 1 <= it.currentLineNo <= start
      invariant Healthy(it.stream)
      invariant SplitLines(it.stream.rest) == lines[it.currentLineNo - 1..]
      invariant before == if it.currentLineNo > 1 then lines[it.currentLineNo - 2] + "\n" else ""
      invariant TracksEnd(it.stream, text)
    {
      assert lines[it.currentLineNo - 1..][1..] == lines[it.currentLineNo..];
      it := Advance(it, lines[it.currentLineNo - 1..], text);
      before := it.currentLine + "\n";
    }
  }

  /**
   `while (has_next()) lines.push_back(next())`: `has_next` reads a line while
   `current_line_no <= end`, and `next` advances the number and returns it.
   Started at line `start`, it yields exactly the lines `start..end`.
   */
  method ReadThrough(it0: Iterator, ghost lines: seq<string>, ghost text: string, end: int) returns (it: Iterator, body: seq<string>)
    requires 1 <= it0.currentLineNo <= end + 1 <= |lines| + 1
    requires Healthy(it0.stream) && TracksEnd(it0.stream, text)
    requires SplitLines(it0.stream.rest) == lines[it0.currentLineNo - 1..]
    ensures it.currentLineNo == end + 1 && Healthy(it.stream) && TracksEnd(it.stream, text)
    ensures SplitLines(it.stream.rest) == lines[end..]
    ensures body == lines[it0.currentLineNo - 1..end]
  {
    it := it0;
    body := [];
    while it.currentLineNo <= end
      invariant it0.currentLineNo <= it.currentLineNo <= end + 1
      invariant Healthy(it.stream)
      invariant SplitLines(it.stream.rest) == lines[it.currentLineNo - 1..]
      invariant body == lines[it0.currentLineNo - 1..it.currentLineNo - 1]
      invariant TracksEnd(it.stream, text)
    {
      assert lines[it.currentLineNo - 1..][1..] == lines[it.currentLineNo..];
      assert lines[it0.currentLineNo - 1..it.currentLineNo] == body + [lines[it.currentLineNo - 1]];
      it := Advance(it, lines[it.currentLineNo - 1..], text);
      body := body + [it.currentLine];
    }
  }

  /**
   `LineIterator(text, start, end)` followed by `get_before_start_line`,
   the `has_next`/`next` loop and `get_after_end_line`. It yields the line
   before `start` (with the '\n' the constructor appends; "" when `start` is
   1), exactly the 1-based lines `start..end` in order, and the line after
   `end` ("" when the text has none, since `get_after_end_line` reads into a
   member that starts out empty). `end` may be the line after a final '\n'
   (or line 1 of an empty text): its `getline` clears `current_line` and
   yields "".
   */
  method Window(text: string, start: int, end: int) returns (before: string, body: seq<string>, after: string)
    requires 1 <= start <= end + 1
    requires start <= |SplitLines(text)| + 1 && end <= NumberOfLines(text)
    ensures before == (if start > 1 then SplitLines(text)[start - 2] + "\n" else "")
    ensures |body| == end - start + 1
    ensures forall i :: 0 <= i < |body| ==> body[i] == LineOr(SplitLines(text), start + i)
    ensures end <= |SplitLines(text)| ==> body == SplitLines(text)[start - 1..end]
    ensures after == LineOr(SplitLines(text), end + 1)
  {
    var lines := SplitLines(text);
    NumberOfLinesVsSplit(text);
    var it;
    it, before := Construct(text, start);
    if end <= |lines| {
      it, body := ReadThrough(it, lines, text, end);
      if end < |lines| {
        GetLineTakesFirstLine(it.stream, "", lines[end..]);
      } else {
        GetLinePastEnd(it.stream);
      }
      var r := GetLine(it.stream, "");
      after := r.line;
    } else {
      it, body := ReadThrough(it, lines, text, |lines|);
      assert it.stream.rest == "" && !it.stream.eof;
      var r := GetLine(it.stream, it.currentLine);
      body := body + [r.line];
      var last := GetLine(r.stream, "");
      after := last.line;
    }
  }
}
