/**
 The Python string operations the grading client applies to text:
 `str.strip()`, `textwrap.dedent` and the substring test `sub in s`.
 */
module PyText {

  /** `c.isspace()`: the characters `str.strip()` removes when given no argument. */
  predicate IsSpace(c: char)
  {
    || ('\t' <= c <= '\r')
    || ('\U{1C}' <= c <= '\U{1F}')
    || c == ' '
    || c == '\U{85}'
    || c == '\U{A0}'
    || c == '\U{1680}'
    || ('\U{2000}' <= c <= '\U{200A}')
    || c == '\U{2028}'
    || c == '\U{2029}'
    || c == '\U{202F}'
    || c == '\U{205F}'
    || c == '\U{3000}'
  }

  /** `s.lstrip()`: the suffix of `s` left after dropping every leading white-space character. */
  function LStrip(s: string): (r: string)
    ensures |r| <= |s| && r == s[|s| - |r|..]
    ensures forall i :: 0 <= i < |s| - |r| ==> IsSpace(s[i])
    ensures r == [] || !IsSpace(r[0])
    decreases |s|
  {
    if s != [] && IsSpace(s[0]) then LStrip(s[1..]) else s
  }

  /** `s.rstrip()`: the prefix of `s` left after dropping every trailing white-space character. */
  function RStrip(s: string): (r: string)
    ensures |r| <= |s| && r == s[..|r|]
    ensures forall i :: |r| <= i < |s| ==> IsSpace(s[i])
    ensures r == [] || !IsSpace(r[|r| - 1])
    decreases |s|
  {
    if s != [] && IsSpace(s[|s| - 1]) then RStrip(s[..|s| - 1]) else s
  }

  /** `r` is the part of `s` starting at `k`, with only white space before and after it. */
  predicate Trimmed(s: string, r: string, k: int)
  {
    0 <= k && k + |r| <= |s| && s[k..k + |r|] == r
    && (forall i :: 0 <= i < k ==> IsSpace(s[i]))
    && (forall i :: k + |r| <= i < |s| ==> IsSpace(s[i]))
  }

  /** `s.strip()`: the part of `s` between its leading and trailing white
      space, which is empty exactly when `s` is white space alone. */
  function Strip(s: string): (r: string)
    ensures exists k :: Trimmed(s, r, k)
    ensures r == [] || (!IsSpace(r[0]) && !IsSpace(r[|r| - 1]))
    ensures r == [] <==> forall i :: 0 <= i < |s| ==> IsSpace(s[i])
  {
    var l := LStrip(s);
    TrimmedByParts(s, l, RStrip(l));
    RStrip(l)
  }

  /** Dropping a white-space prefix and then a white-space suffix leaves a
      trimmed part of the text. */
  lemma TrimmedByParts(s: string, l: string, r: string)
    requires |l| <= |s| && l == s[|s| - |l|..] && forall i :: 0 <= i < |s| - |l| ==> IsSpace(s[i])
    requires |r| <= |l| && r == l[..|r|] && forall i :: |r| <= i < |l| ==> IsSpace(l[i])
    ensures Trimmed(s, r, |s| - |l|)
  {
    var k := |s| - |l|;
    assert s[k..k + |r|] == r;
    forall i | k + |r| <= i < |s| ensures IsSpace(s[i]) {
      assert s[i] == l[i - k];
    }
  }

  /** Left-stripping skips a white-space prefix and stops at the first visible character. */
  lemma LStripSkips(w: string, x: string)
    requires forall i :: 0 <= i < |w| ==> IsSpace(w[i])
    requires x != [] && !IsSpace(x[0])
    ensures LStrip(w + x) == x
  {
    var s := w + x;
    assert forall i :: 0 <= i < |w| ==> s[i] == w[i];
    assert s[|w|] == x[0];
    assert s[|w|..] == x;
  }

  /** Right-stripping a concatenation: only when the right part is all white
      space does stripping reach into the left part. */
  lemma {:induction false} RStripAppend(a: string, b: string)
    ensures RStrip(a + b) == if RStrip(b) == [] then RStrip(a) else a + RStrip(b)
    decreases |b|
  {
    if b == [] {
      assert a + b == a;
    } else if IsSpace(b[|b| - 1]) {
      assert (a + b)[..|a + b| - 1] == a + b[..|b| - 1];
      RStripAppend(a, b[..|b| - 1]);
    } else {
      assert RStrip(b) == b;
    }
  }

  /** A right-stripped text that ends in a visible character, followed by a
      space and more text, keeps that space only when the text after it has
      something visible. */
  lemma RStripAfterVisible(a: string, u: string)
    requires a != [] && !IsSpace(a[|a| - 1])
    ensures RStrip(a + " " + u) == if RStrip(u) == [] then a else a + " " + RStrip(u)
  {
    RStripAppend(a, " ");
    assert RStrip(" ") == [];
    assert RStrip(a) == a;
    RStripAppend(a + " ", u);
  }

  /** A line `textwrap.dedent` empties: spaces and tabs only. */
  predicate IsBlankish(line: string)
  {
    line != [] && forall i :: 0 <= i < |line| ==> line[i] == ' ' || line[i] == '\t'
  }

  function BlankLine(line: string): string
  {
    if IsBlankish(line) then "" else line
  }

  predicate NoNewline(s: string)
  {
    forall i :: 0 <= i < |s| ==> s[i] != '\n'
  }

  /** Position of the first line break in `s`, or `|s|` when there is none. */
  function NewlineIndex(s: string): (k: nat)
    ensures k <= |s| && NoNewline(s[..k])
    ensures k < |s| ==> s[k] == '\n'
    decreases |s|
  {
    if s == [] || s[0] == '\n' then 0 else 1 + NewlineIndex(s[1..])
  }

  /** `textwrap.dedent(s)` for a text that has at least one line starting with
      a visible character, as both texts dedented by the grading client do: the
      common margin is then empty, and what remains is that every line made of
      spaces and tabs alone becomes empty. */
  function Dedent(s: string): string
    decreases |s|
  {
    var k := NewlineIndex(s);
    if k == |s| then BlankLine(s) else BlankLine(s[..k]) + "\n" + Dedent(s[k + 1..])
  }

  lemma NewlineIndexAppend(x: string, y: string)
    requires NoNewline(x)
    ensures NewlineIndex(x + "\n" + y) == |x|
  {
    var s := x + "\n" + y;
    assert s[|x|] == '\n';
    assert forall i :: 0 <= i < |x| ==> s[i] == x[i];
  }

  /** A text framed by one line break at each end dedents to its inside
      dedented, framed the same way. */
  lemma DedentFrame(t: string)
    ensures Dedent("\n" + t + "\n") == "\n" + Dedent(t) + "\n"
  {
    var s, u := "\n" + t + "\n", t + "\n" + "";
    assert NewlineIndex(s) == 0 && s[1..] == u;
    DedentJoin(t, "");
  }

  /** Stripping a text framed by line breaks whose first character is visible
      right-strips that text. */
  lemma StripFramed(body: string)
    requires body != [] && !IsSpace(body[0])
    ensures Strip("\n" + body + "\n") == RStrip(body)
  {
    var s := "\n" + body + "\n";
    assert s == "\n" + (body + "\n");
    LStripSkips("\n", body + "\n");
    assert RStrip("\n") == [];
    RStripAppend(body, "\n");
    assert Strip(s) == RStrip(LStrip(s)) == RStrip(body + "\n");
  }

  /** A non-empty joined text begins with the first line's first character
      and ends with the last line's last character. */
  lemma {:induction false} JoinLinesEnds(lines: seq<string>)
    requires |lines| > 0 && lines[|lines| - 1] != []
    ensures var t := JoinLines(lines);
            && t != [] && t[|t| - 1] == lines[|lines| - 1][|lines[|lines| - 1]| - 1]
            && (lines[0] != [] ==> t[0] == lines[0][0])
    decreases |lines|
  {
    if |lines| > 1 {
      JoinLinesEnds(lines[1..]);
    }
  }

  /** `textwrap.dedent(template).strip()` of a template that is a line break,
      unindented lines that are never spaces and tabs alone, and a line break,
      where the first line starts and the last line ends visibly: the lines
      joined, unchanged. */
  lemma FramedTemplate(lines: seq<string>)
    requires forall i :: 0 <= i < |lines| ==> NoNewline(lines[i]) && !IsBlankish(lines[i])
    requires |lines| > 0 && lines[0] != [] && lines[|lines| - 1] != []
    requires !IsSpace(lines[0][0]) && !IsSpace(lines[|lines| - 1][|lines[|lines| - 1]| - 1])
    ensures Strip(Dedent("\n" + JoinLines(lines) + "\n")) == JoinLines(lines)
  {
    var t := JoinLines(lines);
    DedentFrame(t);
    DedentJoinLines(lines);
    JoinLinesEnds(lines);
    StripFramed(t);
  }

  /** Dedenting never lengthens a text: it only empties lines. */
  lemma {:induction false} DedentLength(s: string)
    ensures |Dedent(s)| <= |s|
    decreases |s|
  {
    var k := NewlineIndex(s);
    if k < |s| {
      DedentLength(s[k + 1..]);
    }
  }

  /** Dedenting keeps the first character of a text that does not start with a space or tab. */
  lemma DedentHead(s: string)
    requires s != [] && s[0] != ' ' && s[0] != '\t'
    ensures Dedent(s) != [] && Dedent(s)[0] == s[0]
  {
    var k := NewlineIndex(s);
    if k > 0 {
      assert s[..k][0] == s[0];
    }
  }

  /** Dedenting treats every line on its own: it commutes with joining two texts by a line break. */
  lemma {:induction false} DedentJoin(x: string, y: string)
    ensures Dedent(x + "\n" + y) == Dedent(x) + "\n" + Dedent(y)
    decreases |x|
  {
    var s := x + "\n" + y;
    var k := NewlineIndex(x);
    if k == |x| {
      assert x[..k] == x;
      SplitAtNewline(x, y);
    } else {
      var x1, x2 := x[..k], x[k + 1..];
      SplitConcat(x, y, k);
      SplitAtNewline(x1, x2);
      SplitAtNewline(x1, x2 + "\n" + y);
      DedentJoin(x2, y);
      Regroup(BlankLine(x1), Dedent(x2), Dedent(y));
    }
  }

  /** Three lines joined by line breaks, grouped either way. */
  lemma Regroup(a: string, b: string, c: string)
    ensures a + "\n" + b + "\n" + c == a + "\n" + (b + "\n" + c)
  {
  }

  /** Cutting a text at a line break and regrouping the pieces. */
  lemma SplitConcat(x: string, y: string, k: nat)
    requires k < |x| && x[k] == '\n'
    ensures x == x[..k] + "\n" + x[k + 1..]
    ensures x + "\n" + y == x[..k] + "\n" + (x[k + 1..] + "\n" + y)
  {
    assert x == x[..k] + "\n" + x[k + 1..];
  }

  /** Dedenting a text whose first line is `x1` handles that line and then the rest. */
  lemma SplitAtNewline(x1: string, rest: string)
    requires NoNewline(x1)
    ensures Dedent(x1 + "\n" + rest) == BlankLine(x1) + "\n" + Dedent(rest)
  {
    var s := x1 + "\n" + rest;
    NewlineIndexAppend(x1, rest);
    assert s[..|x1|] == x1;
    assert s[|x1| + 1..] == rest;
  }

  /** A single line keeps its text unless it is spaces and tabs alone. */
  lemma DedentLine(line: string)
    requires NoNewline(line)
    ensures Dedent(line) == BlankLine(line)
    ensures line != [] && line[0] != ' ' && line[0] != '\t' ==> Dedent(line) == line
  {
  }

  /** `"\n".join(lines)` */
  function JoinLines(lines: seq<string>): string
    decreases |lines|
  {
    if |lines| == 0 then ""
    else if |lines| == 1 then lines[0]
    else lines[0] + "\n" + JoinLines(lines[1..])
  }

  /** Joining one more line appends a line break and that line. */
  lemma {:induction false} JoinLinesSnoc(lines: seq<string>, last: string)
    requires lines != []
    ensures JoinLines(lines + [last]) == JoinLines(lines) + "\n" + last
    decreases |lines|
  {
    if |lines| == 1 {
      assert (lines + [last])[1..] == [last];
    } else {
      assert (lines + [last])[1..] == lines[1..] + [last];
      JoinLinesSnoc(lines[1..], last);
    }
  }

  /** Dedenting leaves joined lines as they are when none is made of spaces and tabs alone. */
  lemma {:induction false} DedentJoinLines(lines: seq<string>)
    requires forall i :: 0 <= i < |lines| ==> NoNewline(lines[i]) && !IsBlankish(lines[i])
    ensures Dedent(JoinLines(lines)) == JoinLines(lines)
    decreases |lines|
  {
    if |lines| == 1 {
      DedentLine(lines[0]);
    } else if |lines| > 1 {
      DedentJoin(lines[0], JoinLines(lines[1..]));
      DedentLine(lines[0]);
      DedentJoinLines(lines[1..]);
    }
  }

  /** `sub` occurs in `s` starting at position `i`. */
  predicate OccursAt(s: string, sub: string, i: int)
  {
    0 <= i && i + |sub| <= |s| && s[i..i + |sub|] == sub
  }

  /** `sub in s` */
  function Contains(s: string, sub: string): (b: bool)
    ensures b <==> exists i :: OccursAt(s, sub, i)
    decreases |s|
  {
    if |s| < |sub| then false
    else if s[..|sub|] == sub then assert OccursAt(s, sub, 0); true
    else
      var b := Contains(s[1..], sub);
      assert forall i :: OccursAt(s[1..], sub, i) <==> OccursAt(s, sub, i + 1) by {
        forall i ensures OccursAt(s[1..], sub, i) <==> OccursAt(s, sub, i + 1) {
          if 0 <= i && i + |sub| <= |s| - 1 {
            assert s[1..][i..i + |sub|] == s[i + 1..i + 1 + |sub|];
          }
        }
      }
      assert (exists i :: OccursAt(s, sub, i)) ==> exists i :: OccursAt(s[1..], sub, i) by {
        if exists i :: OccursAt(s, sub, i) {
          var i :| OccursAt(s, sub, i);
          assert i != 0;
          assert OccursAt(s[1..], sub, i - 1);
        }
      }
      b
  }
}
