/** The string operations the kubeconfig handler relies on: splitting on a
    one-character separator (JavaScript's `String.prototype.split`), its
    inverse `Join`, and the line layout of a multi-line document. */
module Text {

  /** No piece contains the separator. */
  predicate SeparatorFree(parts: seq<string>, sep: char)
  {
    forall i :: 0 <= i < |parts| ==> sep !in parts[i]
  }

  /** The pieces of `s` between occurrences of `sep`, in order. As in
      JavaScript, the empty string splits into one empty piece, and two
      adjacent separators produce an empty piece between them. */
  function Split(s: string, sep: char): (parts: seq<string>)
    ensures |parts| >= 1
    ensures SeparatorFree(parts, sep)
    decreases |s|
  {
    if |s| == 0 then [""]
    else
      var rest := Split(s[1..], sep);
      if s[0] == sep then [""] + rest
      else [[s[0]] + rest[0]] + rest[1..]
  }

  /** The pieces glued back together with `sep` between neighbours. */
  function Join(parts: seq<string>, sep: char): string
  {
    if |parts| == 0 then ""
    else if |parts| == 1 then parts[0]
    else parts[0] + [sep] + Join(parts[1..], sep)
  }

  /** The number of occurrences of `c` in `s`. */
  function Count(s: string, c: char): nat
  {
    if |s| == 0 then 0 else (if s[0] == c then 1 else 0) + Count(s[1..], c)
  }

  /** Joining the pieces of a split gives back the original string. */
  lemma {:induction false} SplitThenJoin(s: string, sep: char)
    ensures Join(Split(s, sep), sep) == s
  {
    if |s| > 0 {
      var rest := Split(s[1..], sep);
      SplitThenJoin(s[1..], sep);
      if s[0] == sep {
        assert ([""] + rest)[1..] == rest;
      } else {
        var parts := [[s[0]] + rest[0]] + rest[1..];
        assert parts[1..] == rest[1..];
        if |rest| > 1 {
          assert Join(rest, sep) == rest[0] + [sep] + Join(rest[1..], sep);
          assert Join(parts, sep) == [s[0]] + rest[0] + [sep] + Join(rest[1..], sep);
        }
        assert Join(parts, sep) == [s[0]] + Join(rest, sep);
        assert s == [s[0]] + s[1..];
      }
    }
  }

  /** A string without the separator is a single piece. */
  lemma {:induction false} SplitWithoutSeparator(p: string, sep: char)
    requires sep !in p
    ensures Split(p, sep) == [p]
  {
    if |p| > 0 {
      assert sep !in p[1..];
      SplitWithoutSeparator(p[1..], sep);
      assert [p[0]] + p[1..] == p;
    }
  }

  /** A separator-free prefix followed by the separator splits off as the first piece. */
  lemma {:induction false} SplitAfterPiece(p: string, r: string, sep: char)
    requires sep !in p
    ensures Split(p + [sep] + r, sep) == [p] + Split(r, sep)
  {
    if |p| == 0 {
      assert p + [sep] + r == [sep] + r;
      assert ([sep] + r)[1..] == r;
    } else {
      assert sep !in p[1..];
      SplitAfterPiece(p[1..], r, sep);
      var s := p + [sep] + r;
      assert s[0] == p[0];
      assert s[1..] == p[1..] + [sep] + r;
      assert [p[0]] + p[1..] == p;
    }
  }

  /** Splitting a join of separator-free pieces gives back the pieces. */
  lemma {:induction false} JoinThenSplit(parts: seq<string>, sep: char)
    requires |parts| >= 1
    requires SeparatorFree(parts, sep)
    ensures Split(Join(parts, sep), sep) == parts
  {
    if |parts| == 1 {
      SplitWithoutSeparator(parts[0], sep);
    } else {
      assert SeparatorFree(parts[1..], sep) by {
        forall i | 0 <= i < |parts[1..]| ensures sep !in parts[1..][i] {
          assert parts[1..][i] == parts[i + 1];
        }
      }
      JoinThenSplit(parts[1..], sep);
      assert sep !in parts[0];
      SplitAfterPiece(parts[0], Join(parts[1..], sep), sep);
      assert [parts[0]] + parts[1..] == parts;
    }
  }

  /** A split has exactly one more piece than the string has separators. */
  lemma {:induction false} SplitLength(s: string, sep: char)
    ensures |Split(s, sep)| == Count(s, sep) + 1
  {
    if |s| > 0 {
      SplitLength(s[1..], sep);
    }
  }

  /** A character missing from a string is missing from each of its pieces. */
  lemma {:induction false} SplitKeepsOut(s: string, sep: char, x: char, i: nat)
    requires x !in s
    requires i < |Split(s, sep)|
    ensures x !in Split(s, sep)[i]
    decreases |s|
  {
    if |s| > 0 {
      assert x !in s[1..];
      var rest := Split(s[1..], sep);
      if s[0] == sep {
        if i > 0 { SplitKeepsOut(s[1..], sep, x, i - 1); }
      } else if i == 0 {
        SplitKeepsOut(s[1..], sep, x, 0);
      } else {
        SplitKeepsOut(s[1..], sep, x, i);
      }
    }
  }

  /** Every line followed by a line feed, as a template literal that ends in
      a newline lays them out. */
  function Unlines(lines: seq<string>): string
  {
    if |lines| == 0 then "" else lines[0] + "\n" + Unlines(lines[1..])
  }

  /** `t` occurs in `doc` starting at position `k`. */
  predicate OccursAt(doc: string, k: nat, t: string)
  {
    k + |t| <= |doc| && doc[k..k + |t|] == t
  }

  /** `t` occurs somewhere in `doc`, verbatim. */
  ghost predicate Contains(doc: string, t: string)
  {
    exists k: nat :: OccursAt(doc, k, t)
  }

  /** Laying out lines is joining them with line feeds, plus a final empty line. */
  lemma {:induction false} UnlinesIsJoin(lines: seq<string>)
    ensures Unlines(lines) == Join(lines + [""], '\n')
  {
    if |lines| > 0 {
      UnlinesIsJoin(lines[1..]);
      assert (lines + [""])[1..] == lines[1..] + [""];
    }
  }

  /** Reading a laid-out document line by line gives back its lines (and the
      empty remainder after the last line feed), provided no line has a line feed. */
  lemma UnlinesThenSplit(lines: seq<string>)
    requires SeparatorFree(lines, '\n')
    ensures Split(Unlines(lines), '\n') == lines + [""]
  {
    UnlinesIsJoin(lines);
    var all := lines + [""];
    assert SeparatorFree(all, '\n') by {
      forall i | 0 <= i < |all| ensures '\n' !in all[i] {
        if i < |lines| { assert all[i] == lines[i]; }
      }
    }
    JoinThenSplit(all, '\n');
  }

  /** Laying out a concatenation lays out each half in turn. */
  lemma {:induction false} UnlinesAppend(a: seq<string>, b: seq<string>)
    ensures Unlines(a + b) == Unlines(a) + Unlines(b)
  {
    if |a| > 0 {
      assert (a + b)[1..] == a[1..] + b;
      UnlinesAppend(a[1..], b);
    } else {
      assert a + b == b;
    }
  }

  /** Earlier lines sit at strictly smaller offsets of a laid-out document,
      so two equal lines are found at two different places. */
  lemma LineOffsetsIncrease(lines: seq<string>, i: nat, j: nat)
    requires i < j <= |lines|
    ensures |Unlines(lines[..i])| < |Unlines(lines[..j])|
  {
    assert lines[..j] == lines[..i] + lines[i..j];
    UnlinesAppend(lines[..i], lines[i..j]);
  }

  /** Every line of a laid-out document occurs in it verbatim, followed by
      its line feed, whatever characters the lines contain. */
  lemma LineOccurs(lines: seq<string>, i: nat)
    requires i < |lines|
    ensures OccursAt(Unlines(lines), |Unlines(lines[..i])|, lines[i] + "\n")
    ensures Contains(Unlines(lines), lines[i] + "\n")
  {
    assert lines == lines[..i] + ([lines[i]] + lines[i + 1..]);
    UnlinesAppend(lines[..i], [lines[i]] + lines[i + 1..]);
    assert ([lines[i]] + lines[i + 1..])[1..] == lines[i + 1..];
    var doc := Unlines(lines);
    var k := |Unlines(lines[..i])|;
    assert doc == Unlines(lines[..i]) + (lines[i] + "\n") + Unlines(lines[i + 1..]);
    assert doc[k..k + |lines[i] + "\n"|] == lines[i] + "\n";
    assert OccursAt(doc, k, lines[i] + "\n");
  }
}
