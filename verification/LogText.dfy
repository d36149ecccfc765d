/** Cutting log text: splitting into lines and joining them, the last lines of a log for the status
    page, and the last bytes of a log file for the webhook payload. */
module LogText {

  // ---- lines ----

  const NEWLINE := '\n'

  /** The lines of s when `cur` has been read of the first. A final newline ends the last line. */
  function LinesFrom(cur: string, s: string): seq<string>
    decreases |s|
  {
    if s == "" then (if cur != "" then [cur] else [])
    else if s[0] == NEWLINE then [cur] + LinesFrom("", s[1..])
    else LinesFrom(cur + [s[0]], s[1..])
  }

  function Lines(s: string): seq<string> {
    LinesFrom("", s)
  }

  function Join(ls: seq<string>): string
    decreases |ls|
  {
    if ls == [] then ""
    else if |ls| == 1 then ls[0]
    else ls[0] + [NEWLINE] + Join(ls[1..])
  }

  function Count(s: string, c: char): nat
    decreases |s|
  {
    if s == "" then 0 else (if s[0] == c then 1 else 0) + Count(s[1..], c)
  }

  /** s without one newline at its end, if it has one. */
  function Chomp(s: string): string {
    if s != "" && s[|s| - 1] == NEWLINE then s[..|s| - 1] else s
  }

  predicate NewlineFree(ls: seq<string>) {
    forall i :: 0 <= i < |ls| ==> NEWLINE !in ls[i]
  }

  method SplitLines(s: string) returns (out: seq<string>)
    ensures out == Lines(s)
  {
    out := [];
    var cur := "";
    var i := 0;
    while i < |s|
      invariant 0 <= i <= |s|
      invariant out + LinesFrom(cur, s[i..]) == Lines(s)
    {
      assert s[i..][0] == s[i] && s[i..][1..] == s[i + 1..];
      if s[i] == NEWLINE {
        assert out + ([cur] + LinesFrom("", s[i + 1..])) == (out + [cur]) + LinesFrom("", s[i + 1..]);
        out := out + [cur];
        cur := "";
      } else {
        cur := cur + [s[i]];
      }
      i := i + 1;
    }
    if cur != "" {
      out := out + [cur];
    }
  }

  method JoinLines(ls: seq<string>) returns (out: string)
    ensures out == Join(ls)
  {
    out := "";
    var i := 0;
    while i < |ls|
      invariant 0 <= i <= |ls| && out == Join(ls[..i])
    {
      assert ls[..i + 1] == ls[..i] + [ls[i]];
      if i > 0 {
        JoinConcat(ls[..i], [ls[i]]);
        out := out + [NEWLINE];
      }
      out := out + ls[i];
      i := i + 1;
    }
    assert ls[..|ls|] == ls;
  }

  lemma {:induction false} JoinConcat(a: seq<string>, b: seq<string>)
    requires a != [] && b != []
    ensures Join(a + b) == Join(a) + [NEWLINE] + Join(b)
    decreases |a|
  {
    if |a| == 1 {
      assert (a + b)[1..] == b;
    } else {
      assert (a + b)[1..] == a[1..] + b;
      JoinConcat(a[1..], b);
    }
  }

  // ---- splitting and joining are inverse where they can be ----

  lemma {:induction false} JoinOfLines(cur: string, s: string)
    requires NEWLINE !in cur
    ensures Join(LinesFrom(cur, s)) == Chomp(cur + s)
    ensures s != "" ==> LinesFrom(cur, s) != []
    ensures NewlineFree(LinesFrom(cur, s))
    decreases |s|
  {
    if s == "" {
      assert cur + s == cur;
    } else if s[0] == NEWLINE {
      JoinOfLines("", s[1..]);
      assert "" + s[1..] == s[1..];
      assert cur + s == cur + [NEWLINE] + s[1..];
      if s[1..] == "" {
        assert LinesFrom(cur, s) == [cur];
        assert (cur + s)[..|cur + s| - 1] == cur;
      } else {
        assert LinesFrom(cur, s)[1..] == LinesFrom("", s[1..]);
        ChompTail(cur + [NEWLINE], s[1..]);
      }
    } else {
      JoinOfLines(cur + [s[0]], s[1..]);
      assert cur + [s[0]] + s[1..] == cur + s;
    }
  }

  lemma ChompTail(a: string, b: string)
    requires b != ""
    ensures Chomp(a + b) == a + Chomp(b)
  {
    assert (a + b)[|a + b| - 1] == b[|b| - 1];
    assert (a + b)[..|a + b| - 1] == a + b[..|b| - 1];
  }

  /** Joining the lines of a text gives the text back, up to one final newline. */
  lemma SplitThenJoin(s: string)
    ensures Join(Lines(s)) == if s != "" && s[|s| - 1] == '\n' then s[..|s| - 1] else s
    ensures Join(Lines(s)) == Chomp(s)
    ensures forall i :: 0 <= i < |Lines(s)| ==> '\n' !in Lines(s)[i]
    ensures NewlineFree(Lines(s))
  {
    JoinOfLines("", s);
    assert "" + s == s;
  }

  lemma {:induction false} LinesOfPrefix(cur: string, line: string, rest: string)
    requires NEWLINE !in line
    ensures LinesFrom(cur, line + [NEWLINE] + rest) == [cur + line] + LinesFrom("", rest)
    ensures LinesFrom(cur, line) == if cur + line != "" then [cur + line] else []
    decreases |line|
  {
    var s := line + [NEWLINE] + rest;
    if line == "" {
      assert s == [NEWLINE] + rest && s[1..] == rest;
      assert cur + line == cur;
    } else {
      assert s[1..] == line[1..] + [NEWLINE] + rest;
      assert cur + [line[0]] + line[1..] == cur + line;
      LinesOfPrefix(cur + [line[0]], line[1..], rest);
    }
  }

  lemma {:induction false} JoinThenSplitWhenGood(ls: seq<string>)
    requires NewlineFree(ls) && (ls == [] || ls[|ls| - 1] != "")
    ensures Lines(Join(ls)) == ls
    decreases |ls|
  {
    if |ls| == 1 {
      LinesOfPrefix("", ls[0], "");
      assert "" + ls[0] == ls[0];
    } else if ls != [] {
      JoinThenSplitWhenGood(ls[1..]);
      LinesOfPrefix("", ls[0], Join(ls[1..]));
      assert "" + ls[0] == ls[0];
    }
  }

  /** Splitting a joined list gives it back exactly when no line holds a newline and the list is
      empty or does not end in an empty line. */
  lemma JoinThenSplit(ls: seq<string>)
    ensures Lines(Join(ls)) == ls <==>
              (forall i :: 0 <= i < |ls| ==> '\n' !in ls[i]) && (ls == [] || ls[|ls| - 1] != "")
  {
    SplitThenJoin(Join(ls));
    if !NewlineFree(ls) {
    } else if ls != [] && ls[|ls| - 1] == "" {
      EmptyLastLineIsLost(ls);
    } else {
      JoinThenSplitWhenGood(ls);
    }
  }

  lemma EmptyLastLineIsLost(ls: seq<string>)
    requires ls != [] && ls[|ls| - 1] == ""
    ensures Lines(Join(ls)) != ls
  {
    if |ls| > 1 {
      var front := ls[..|ls| - 1];
      assert ls == front + [""];
      JoinConcat(front, [""]);
      var t := Join(ls);
      assert t[|t| - 1] == NEWLINE;
      SplitThenJoin(t);
      assert |Join(Lines(t))| == |t| - 1;
    }
  }

  // ---- the last lines ----

  function LastOf<T>(xs: seq<T>, n: nat): seq<T> {
    if |xs| > n then xs[|xs| - n..] else xs
  }

  /** The page shows at most maxLines lines; a negative number would be an index out of range. */
  method ReadLogTail(content: string, maxLines: int) returns (tail: string)
    requires maxLines >= 0
    ensures tail == Join(LastOf(Lines(content), maxLines))
  {
    var lines := SplitLines(content);
    if |lines| > maxLines {
      lines := lines[|lines| - maxLines..];
    }
    tail := JoinLines(lines);
  }

  lemma {:induction false} CountConcat(a: string, b: string, c: char)
    ensures Count(a + b, c) == Count(a, c) + Count(b, c)
    decreases |a|
  {
    if a == "" {
      assert a + b == b;
    } else {
      assert (a + b)[1..] == a[1..] + b;
      CountConcat(a[1..], b, c);
    }
  }

  lemma {:induction false} CountAbsent(s: string, c: char)
    requires c !in s
    ensures Count(s, c) == 0
    decreases |s|
  {
    if s != "" {
      CountAbsent(s[1..], c);
    }
  }

  lemma {:induction false} JoinedNewlines(ls: seq<string>)
    requires NewlineFree(ls) && ls != []
    ensures Count(Join(ls), NEWLINE) == |ls| - 1
    decreases |ls|
  {
    CountAbsent(ls[0], NEWLINE);
    if |ls| > 1 {
      JoinedNewlines(ls[1..]);
      CountConcat(ls[0], [NEWLINE], NEWLINE);
      CountConcat(ls[0] + [NEWLINE], Join(ls[1..]), NEWLINE);
    }
  }

  /** The tail is the end of the text (final newline apart), cut right after a newline or not at all,
      and it holds as many lines as there are up to the limit. */
  lemma TailMeaning(s: string, maxLines: nat)
    requires maxLines >= 1
    ensures var tail, whole := Join(LastOf(Lines(s), maxLines)), Chomp(s);
            && |tail| <= |whole| && whole[|whole| - |tail|..] == tail
            && (|tail| < |whole| ==> whole[|whole| - |tail| - 1] == '\n')
            && Count(tail, '\n') < maxLines
            && (Count(whole, '\n') < maxLines ==> tail == whole)
            && (Count(whole, '\n') >= maxLines ==> Count(tail, '\n') == maxLines - 1)
  {
    SplitThenJoin(s);
    var ls := Lines(s);
    if ls != [] {
      JoinedNewlines(ls);
      if |ls| > maxLines {
        var k := |ls| - maxLines;
        assert ls == ls[..k] + ls[k..];
        JoinConcat(ls[..k], ls[k..]);
        JoinedNewlines(ls[k..]);
      }
    }
  }

  // ---- the last bytes ----

  newtype byte = x: int | 0 <= x < 256

  /** The position of the first newline, or the length when there is none. */
  method IndexByte(b: seq<byte>) returns (i: nat)
    ensures i <= |b| && (i < |b| ==> b[i] == 10)
    ensures forall k :: 0 <= k < i ==> b[k] != 10
  {
    i := 0;
    while i < |b| && b[i] != 10
      invariant 0 <= i <= |b|
      invariant forall k :: 0 <= k < i ==> b[k] != 10
    {
      i := i + 1;
    }
  }

  /** The window of the last max bytes holds a newline that is not its final byte. */
  predicate CutsInside(b: seq<byte>, max: nat)
    requires |b| > max
  {
    exists k :: |b| - max <= k < |b| - 1 && b[k] == 10
  }

  /** b[k..] begins right after a newline. */
  predicate AfterNewline(b: seq<byte>, k: nat)
    requires 0 < k <= |b|
  {
    b[k - 1] == 10
  }

  /** A file within the bound is returned whole. Of a longer one the result is the longest proper part
      of the window that begins after a newline, provided that leaves anything; otherwise the window. */
  method TailFile(content: seq<byte>, max: nat) returns (tail: seq<byte>)
    ensures |content| <= max ==> tail == content
    ensures |content| > max ==> |tail| <= max && tail == content[|content| - |tail|..]
    ensures |content| > max && !CutsInside(content, max) ==> |tail| == max
    ensures |content| > max && CutsInside(content, max) ==>
              && 0 < |tail| < max && AfterNewline(content, |content| - |tail|)
              && forall k :: |content| - max < k < |content| - |tail| ==> !AfterNewline(content, k)
  {
    tail := content;
    if |content| > max {
      tail := content[|content| - max..];
      var i := IndexByte(tail);
      if i < |tail| && i + 1 < |tail| {
        assert content[|content| - max + i] == 10;
        tail := tail[i + 1..];
      }
    }
  }
}
