/**
 * Line handling on strings: `String.prototype.split('\n')` and
 * `Array.prototype.join('\n')`, and the facts about them that the
 * markdown scanner relies on.
 */
module Text {

  /** `s.split('\n')`: the pieces between newlines; never empty, no piece holds a newline. */
  function Split(s: string): (lines: seq<string>)
    ensures |lines| >= 1
    ensures forall i :: 0 <= i < |lines| ==> '\n' !in lines[i]
    ensures |lines| == 1 + NewlineCount(s)
    decreases |s|
  {
    if |s| == 0 then [""]
    else
      var rest := Split(s[1..]);
      if s[0] == '\n' then [""] + rest
      else [[s[0]] + rest[0]] + rest[1..]
  }

  /** The number of newline characters in `s`. */
  function NewlineCount(s: string): nat
    decreases |s|
  {
    if |s| == 0 then 0
    else (if s[0] == '\n' then 1 else 0) + NewlineCount(s[1..])
  }

  /** `lines.join('\n')`: the empty list joins to the empty string, and `n` newline-free
    * lines join with exactly `n - 1` newlines. */
  function Join(lines: seq<string>): (r: string)
    ensures |lines| == 0 ==> r == ""
    ensures |lines| >= 1 && (forall i :: 0 <= i < |lines| ==> '\n' !in lines[i]) ==>
              NewlineCount(r) == |lines| - 1
    decreases |lines|
  {
    if |lines| == 0 then ""
    else if |lines| == 1 then
      NewlineCountPositive(lines[0]);
      lines[0]
    else
      NewlineCountPositive(lines[0]);
      NewlineCountAppend(lines[0], "\n");
      NewlineCountAppend(lines[0] + "\n", Join(lines[1..]));
      lines[0] + "\n" + Join(lines[1..])
  }

  /** Newlines of a concatenation add up. */
  lemma {:induction false} NewlineCountAppend(a: string, b: string)
    ensures NewlineCount(a + b) == NewlineCount(a) + NewlineCount(b)
    decreases |a|
  {
    if |a| > 0 {
      NewlineCountAppend(a[1..], b);
      assert (a + b)[1..] == a[1..] + b;
      assert (a + b)[0] == a[0];
    } else {
      assert a + b == b;
    }
  }

  lemma {:induction false} NewlineCountPositive(s: string)
    ensures NewlineCount(s) > 0 <==> '\n' in s
    decreases |s|
  {
    if |s| > 0 {
      NewlineCountPositive(s[1..]);
      assert s == [s[0]] + s[1..];
    }
  }

  /** Splitting yields at least two lines exactly when the text holds a newline. */
  lemma SplitHasTwoLines(s: string)
    ensures |Split(s)| >= 2 <==> '\n' in s
  {
    NewlineCountPositive(s);
  }

  /** Joining the split pieces gives back the text. */
  lemma {:induction false} JoinSplit(s: string)
    ensures Join(Split(s)) == s
    decreases |s|
  {
    if |s| > 0 {
      var rest := Split(s[1..]);
      JoinSplit(s[1..]);
      assert s == [s[0]] + s[1..];
      if s[0] != '\n' && |rest| > 1 {
        assert Join(rest) == rest[0] + "\n" + Join(rest[1..]);
      }
    }
  }

  /** A first line without newline is split off on its own. */
  lemma {:induction false} SplitLine(h: string, rest: string)
    requires '\n' !in h
    ensures Split(h + "\n" + rest) == [h] + Split(rest)
    decreases |h|
  {
    if |h| == 0 {
      assert h + "\n" + rest == "\n" + rest;
    } else {
      assert '\n' !in h[1..] by {
        forall k | 0 <= k < |h[1..]| ensures h[1..][k] != '\n' {
          assert h[1..][k] == h[k + 1];
        }
      }
      SplitLine(h[1..], rest);
      assert (h + "\n" + rest)[1..] == h[1..] + "\n" + rest;
      assert [h[0]] + h[1..] == h;
    }
  }

  /** Text without newline is a single line. */
  lemma {:induction false} SplitNoNewline(s: string)
    requires '\n' !in s
    ensures Split(s) == [s]
  {
    SplitHasTwoLines(s);
    JoinSplit(s);
  }

  /** Splitting the join of newline-free lines gives them back. */
  lemma {:induction false} SplitJoin(lines: seq<string>)
    requires |lines| >= 1
    requires forall i :: 0 <= i < |lines| ==> '\n' !in lines[i]
    ensures Split(Join(lines)) == lines
    decreases |lines|
  {
    if |lines| == 1 {
      SplitNoNewline(lines[0]);
    } else {
      SplitJoin(lines[1..]);
      SplitLine(lines[0], Join(lines[1..]));
      assert lines == [lines[0]] + lines[1..];
    }
  }
}
