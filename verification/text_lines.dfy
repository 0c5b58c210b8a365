/**
 The line structure of a unit's text, as `std::getline` on an `std::istringstream`
 sees it, and the line count the diagnostics compare against.

 A text is cut at every '\n'; a final '\n' does not open a further line, so
 "a\nb" and "a\nb\n" both hold the two lines "a" and "b", and "" holds none.
 */
module TextLines {

  predicate NoNewline(s: string) {
    forall i :: 0 <= i < |s| ==> s[i] != '\n'
  }

  predicate EndsWithNewline(t: string) {
    |t| > 0 && t[|t| - 1] == '\n'
  }

  /** Position of the first '\n' in `s`, or `|s|` when there is none. */
  function NewlineIndex(s: string): (k: nat)
    ensures k <= |s|
    ensures NoNewline(s[..k])
    ensures k < |s| ==> s[k] == '\n'
  {
    if |s| == 0 then 0
    else if s[0] == '\n' then 0
    else
      var k := 1 + NewlineIndex(s[1..]);
      assert s[..k] == [s[0]] + s[1..][..k - 1];
      k
  }

  /** The lines separated by single '\n's (the inverse of `SplitLines` up to a final '\n'). */
  function Join(ls: seq<string>): string {
    if |ls| == 0 then ""
    else if |ls| == 1 then ls[0]
    else ls[0] + "\n" + Join(ls[1..])
  }

  /** Every line followed by its '\n' terminator. */
  function Unlines(ls: seq<string>): string {
    if |ls| == 0 then "" else ls[0] + "\n" + Unlines(ls[1..])
  }

  /**
   The lines that successive `std::getline` calls extract from `t` before the
   first failing call; there are none exactly when `t` is empty.
   */
  function SplitLines(t: string): (ls: seq<string>)
    ensures |ls| == 0 <==> |t| == 0
    decreases |t|
  {
    if |t| == 0 then []
    else
      var k := NewlineIndex(t);
      if k == |t| then [t]
      else [t[..k]] + SplitLines(t[k + 1..])
  }

  /** One step of `SplitLines` on a text holding a '\n': the first line, then the lines after it. */
  lemma SplitLinesStep(t: string)
    requires NewlineIndex(t) < |t|
    ensures var k := NewlineIndex(t);
      && t == t[..k] + "\n" + t[k + 1..]
      && SplitLines(t) == [t[..k]] + SplitLines(t[k + 1..])
      && (|t[k + 1..]| > 0 ==> EndsWithNewline(t) == EndsWithNewline(t[k + 1..]))
  {
    var k := NewlineIndex(t);
    Around(t, k);
    if k + 1 < |t| {
      SameLast(t, k + 1);
    }
  }

  /** A text is what comes before position `k`, the character there, and what follows. */
  lemma Around(t: string, k: int)
    requires 0 <= k < |t|
    ensures t == t[..k] + [t[k]] + t[k + 1..]
  {
  }

  /** A non-empty suffix ends with the text's last character. */
  lemma SameLast(t: string, k: int)
    requires 0 <= k < |t|
    ensures t[k..][|t[k..]| - 1] == t[|t| - 1]
  {
  }

  lemma JoinCons(line: string, ls: seq<string>)
    requires |ls| > 0
    ensures Join([line] + ls) == line + "\n" + Join(ls)
  {
    assert ([line] + ls)[1..] == ls;
  }

  /** No line that `SplitLines` yields holds a '\n'. */
  lemma {:induction false} SplitLinesNoNewline(t: string)
    ensures forall i :: 0 <= i < |SplitLines(t)| ==> NoNewline(SplitLines(t)[i])
    decreases |t|
  {
    if |t| > 0 && NewlineIndex(t) < |t| {
      SplitLinesStep(t);
      SplitLinesNoNewline(t[NewlineIndex(t) + 1..]);
    }
  }

  /**
   Joining the lines back gives `t` again, with the final '\n' restored when
   `t` had one: nothing is lost or invented.
   */
  lemma {:induction false} JoinSplitLines(t: string)
    ensures t == if EndsWithNewline(t) then Join(SplitLines(t)) + "\n" else Join(SplitLines(t))
    decreases |t|
  {
    if |t| > 0 {
      var k := NewlineIndex(t);
      if k == |t| {
        assert t[..k] == t;
      } else {
        SplitLinesStep(t);
        var rest := t[k + 1..];
        if |rest| > 0 {
          JoinSplitLines(rest);
          JoinCons(t[..k], SplitLines(rest));
        }
      }
    }
  }

  /** Number of '\n' characters in `s`. */
  function CountNewlines(s: string): nat {
    if |s| == 0 then 0 else (if s[0] == '\n' then 1 else 0) + CountNewlines(s[1..])
  }

  /**
   The line count the renderers compare a line number against: one more than
   the number of '\n's. The header declaring it is not part of this model;
   this definition is the assumption the model makes about it.
   */
  function NumberOfLines(s: string): nat {
    CountNewlines(s) + 1
  }

  /** Text of the 1-based line `n` of `ls`, or "" when there is no such line. */
  function LineOr(ls: seq<string>, n: int): string {
    if 1 <= n <= |ls| then ls[n - 1] else ""
  }

  lemma {:induction false} CountNewlinesAppend(a: string, b: string)
    ensures CountNewlines(a + b) == CountNewlines(a) + CountNewlines(b)
    decreases |a|
  {
    if |a| == 0 {
      assert a + b == b;
    } else {
      assert (a + b)[1..] == a[1..] + b;
      CountNewlinesAppend(a[1..], b);
    }
  }

  lemma {:induction false} CountNewlinesNone(s: string)
    requires NoNewline(s)
    ensures CountNewlines(s) == 0
    decreases |s|
  {
    if |s| > 0 {
      CountNewlinesNone(s[1..]);
    }
  }

  /**
   The assumed line count against the lines `getline` yields: it is one more
   than their number exactly when the text is empty or ends with '\n'.
   */
  lemma {:induction false} NumberOfLinesVsSplit(t: string)
    ensures NumberOfLines(t) == |SplitLines(t)| + (if |t| == 0 || EndsWithNewline(t) then 1 else 0)
    decreases |t|
  {
    if |t| > 0 {
      var k := NewlineIndex(t);
      CountNewlinesNone(t[..k]);
      if k == |t| {
        assert t[..k] == t;
        assert !EndsWithNewline(t);
      } else {
        SplitLinesStep(t);
        var rest := t[k + 1..];
        CountNewlinesSplit(t[..k], rest);
        NumberOfLinesVsSplit(rest);
      }
    }
  }

  /** A line break between two texts adds one to their newline counts. */
  lemma CountNewlinesSplit(a: string, b: string)
    ensures CountNewlines(a + "\n" + b) == CountNewlines(a) + 1 + CountNewlines(b)
  {
    assert a + "\n" + b == a + ("\n" + b);
    CountNewlinesAppend(a, "\n" + b);
    assert ("\n" + b)[1..] == b;
  }

  /** Splitting newline-terminated lines gives them back: `SplitLines` inverts `Unlines`. */
  lemma {:induction false} SplitUnlines(ls: seq<string>)
    requires forall i :: 0 <= i < |ls| ==> NoNewline(ls[i])
    ensures SplitLines(Unlines(ls)) == ls
    decreases |ls|
  {
    if |ls| > 0 {
      var t := Unlines(ls);
      var l := ls[0];
      assert t == l + "\n" + Unlines(ls[1..]);
      var k := NewlineIndex(t);
      assert t[|l|] == '\n';
      assert t[..|l|] == l;
      assert k == |l|;
      assert t[k + 1..] == Unlines(ls[1..]);
      SplitUnlines(ls[1..]);
      assert ls == [l] + ls[1..];
    }
  }
}
