/** The JavaScript string operations the dashboard code uses, on strings as
    sequences of characters: `startsWith`, `includes`, `indexOf`, `split`
    on one character, `join`, `trim`, `toLowerCase` and number formatting. */
module Strings {
  import opened Base

  /** `s.startsWith(p)`. */
  predicate StartsWith(s: string, p: string) {
    |p| <= |s| && s[..|p|] == p
  }

  /** `p` occurs in `s` at position `i`. */
  predicate OccursAt(s: string, p: string, i: int) {
    0 <= i && i + |p| <= |s| && s[i..i + |p|] == p
  }

  /** `s.includes(p)`: `p` occurs somewhere in `s`. */
  predicate Contains(s: string, p: string) {
    exists i | 0 <= i <= |s| :: OccursAt(s, p, i)
  }

  lemma OccursShift(s: string, p: string)
    requires |s| > 0
    ensures forall j {:trigger OccursAt(s, p, j)} :: 1 <= j ==> (OccursAt(s, p, j) <==> OccursAt(s[1..], p, j - 1))
  {
    forall j | 1 <= j
      ensures OccursAt(s, p, j) <==> OccursAt(s[1..], p, j - 1)
    {
      if j + |p| <= |s| {
        var a, b := s[j..j + |p|], s[1..][j - 1..j - 1 + |p|];
        assert |a| == |b|;
        assert forall k :: 0 <= k < |a| ==> a[k] == s[j + k] == b[k];
        assert a == b;
      }
    }
  }

  /** A text that does not contain `p` does not start with it, and its tail
      does not contain it either. */
  lemma NotContainedTail(s: string, p: string)
    requires |s| > 0
    ensures !Contains(s, p) ==> !StartsWith(s, p) && !Contains(s[1..], p)
  {
    if !Contains(s, p) {
      OccursShift(s, p);
      assert !OccursAt(s, p, 0);
      forall j | 0 <= j <= |s[1..]|
        ensures !OccursAt(s[1..], p, j)
      {
        assert !OccursAt(s, p, j + 1);
      }
    }
  }

  /** `s.indexOf(p)`, with `None` for -1: the first position where `p` occurs. */
  function IndexOf(s: string, p: string): (r: Option<nat>)
    ensures r.Some? ==> OccursAt(s, p, r.value)
    ensures r.Some? ==> forall j :: 0 <= j < r.value ==> !OccursAt(s, p, j)
    ensures r.None? ==> forall j :: 0 <= j <= |s| ==> !OccursAt(s, p, j)
    decreases |s|
  {
    if |s| < |p| then None
    else if s[..|p|] == p then Some(0)
    else
      OccursShift(s, p);
      match IndexOf(s[1..], p)
      case None => None
      case Some(k) => Some(k + 1)
  }

  lemma IndexOfFindsContained(s: string, p: string)
    ensures IndexOf(s, p).Some? <==> Contains(s, p)
  {
  }

  /** The JavaScript `WhiteSpace` and `LineTerminator` code points, which
      `String.prototype.trim` removes. */
  predicate IsJsSpace(c: char) {
    || c == ' ' || c == '\t' || c == '\n' || c == '\r'
    || c == '\U{000B}' || c == '\U{000C}' || c == '\U{00A0}' || c == '\U{1680}'
    || ('\U{2000}' <= c <= '\U{200A}') || c == '\U{2028}' || c == '\U{2029}'
    || c == '\U{202F}' || c == '\U{205F}' || c == '\U{3000}' || c == '\U{FEFF}'
  }

  /** `s.trim()`: `s` without leading and trailing white space. */
  function Trim(s: string): (r: string)
    ensures |r| <= |s|
    ensures |r| > 0 ==> !IsJsSpace(r[0]) && !IsJsSpace(r[|r| - 1])
    ensures r == "" <==> forall i :: 0 <= i < |s| ==> IsJsSpace(s[i])
  {
    if |s| > 0 && IsJsSpace(s[0]) then
      assert forall i :: 1 <= i < |s| ==> s[i] == s[1..][i - 1];
      Trim(s[1..])
    else if |s| > 0 && IsJsSpace(s[|s| - 1]) then
      assert forall i :: 0 <= i < |s| - 1 ==> s[i] == s[..|s| - 1][i];
      Trim(s[..|s| - 1])
    else s
  }

  lemma TrimOfNoSpaceEnds(s: string)
    requires |s| > 0 && !IsJsSpace(s[0]) && !IsJsSpace(s[|s| - 1])
    ensures Trim(s) == s
  {
  }

  /** `s.split(c)` for a one-character separator: the maximal runs between
      occurrences of `c`; never empty. */
  function Split(s: string, c: char): (r: seq<string>)
    ensures |r| >= 1
    ensures forall i :: 0 <= i < |r| ==> c !in r[i]
    ensures c !in s ==> r == [s]
  {
    if |s| == 0 then [""]
    else
      var rest := Split(s[1..], c);
      if s[0] == c then [""] + rest
      else
        assert s == [s[0]] + s[1..];
        [[s[0]] + rest[0]] + rest[1..]
  }

  /** The first piece of a split is the text before the first separator. */
  lemma {:induction false} SplitHead(s: string, c: char)
    ensures |Split(s, c)[0]| <= |s| && Split(s, c)[0] == s[..|Split(s, c)[0]|]
    ensures |Split(s, c)[0]| < |s| ==> s[|Split(s, c)[0]|] == c
  {
    if |s| > 0 && s[0] != c {
      SplitHead(s[1..], c);
      assert s == [s[0]] + s[1..];
    }
  }

  /** `(a + b).split(c)[0]` is `a` when `a` is free of `c` and `b` is empty
      or starts with `c`. */
  lemma SplitHeadOf(a: string, b: string, c: char)
    requires c !in a
    requires |b| == 0 || b[0] == c
    ensures Split(a + b, c)[0] == a
  {
    var h := Split(a + b, c)[0];
    SplitHead(a + b, c);
    assert forall i :: 0 <= i < |a| ==> (a + b)[i] == a[i];
    assert forall i :: 0 <= i < |h| ==> h[i] == (a + b)[i];
    assert |b| > 0 ==> (a + b)[|a|] == b[0];
  }

  /** The first piece of a split runs at least through a prefix free of
      the separator. */
  lemma SplitHeadCovers(a: string, b: string, c: char)
    requires c !in a
    ensures |Split(a + b, c)[0]| >= |a|
  {
    SplitHead(a + b, c);
    assert forall i :: 0 <= i < |a| ==> (a + b)[i] == a[i];
  }

  /** `parts.join(sep)`. */
  function Join(parts: seq<string>, sep: string): string {
    if |parts| == 0 then ""
    else if |parts| == 1 then parts[0]
    else parts[0] + sep + Join(parts[1..], sep)
  }

  lemma {:induction false} SplitOfPiece(x: string, c: char, y: string)
    requires c !in x
    ensures Split(x + [c] + y, c) == [x] + Split(y, c)
  {
    if |x| == 0 {
      assert x + [c] + y == [c] + y;
      assert ([c] + y)[1..] == y;
    } else {
      assert (x + [c] + y)[1..] == x[1..] + [c] + y;
      SplitOfPiece(x[1..], c, y);
      assert [x[0]] + x[1..] == x;
    }
  }

  /** Splitting a join undoes it when no piece holds the separator. */
  lemma {:induction false} SplitJoin(parts: seq<string>, c: char)
    requires |parts| >= 1
    requires forall i :: 0 <= i < |parts| ==> c !in parts[i]
    ensures Split(Join(parts, [c]), c) == parts
  {
    if |parts| > 1 {
      SplitJoin(parts[1..], c);
      SplitOfPiece(parts[0], c, Join(parts[1..], [c]));
      assert [parts[0]] + parts[1..] == parts;
    }
  }

  /** Splitting at a separator between two texts splits each text on its
      own: the pieces of `x`, then the pieces of `y`. */
  lemma {:induction false} SplitAround(x: string, c: char, y: string)
    ensures Split(x + [c] + y, c) == Split(x, c) + Split(y, c)
  {
    if |x| == 0 {
      assert x + [c] + y == [c] + y;
      assert ([c] + y)[1..] == y;
    } else {
      assert (x + [c] + y)[1..] == x[1..] + [c] + y;
      SplitAround(x[1..], c, y);
    }
  }

  /** A prefix free of the separator stays on the first piece. */
  lemma {:induction false} SplitLead(lead: string, c: char, rest: string)
    requires c !in lead
    ensures Split(lead + rest, c) == [lead + Split(rest, c)[0]] + Split(rest, c)[1..]
  {
    if |lead| > 0 {
      assert (lead + rest)[1..] == lead[1..] + rest;
      SplitLead(lead[1..], c, rest);
      assert [lead[0]] + (lead[1..] + Split(rest, c)[0]) == lead + Split(rest, c)[0];
    } else {
      var r := Split(rest, c);
      assert lead + rest == rest && lead + r[0] == r[0];
      assert r == [r[0]] + r[1..];
    }
  }

  /** Joining the pieces of a split gives the text back. */
  lemma {:induction false} JoinSplit(s: string, c: char)
    ensures Join(Split(s, c), [c]) == s
  {
    if |s| > 0 {
      JoinSplit(s[1..], c);
      assert s == [s[0]] + s[1..];
    }
  }

  /** The lines of several texts: each text cut at its line breaks, in
      order. */
  function Lines(xs: seq<string>): (ls: seq<string>)
    ensures forall i :: 0 <= i < |ls| ==> '\n' !in ls[i]
    ensures |ls| >= |xs|
  {
    if |xs| == 0 then [] else Split(xs[0], '\n') + Lines(xs[1..])
  }

  lemma {:induction false} LinesAppend(a: seq<string>, b: seq<string>)
    ensures Lines(a + b) == Lines(a) + Lines(b)
  {
    if |a| > 0 {
      assert (a + b)[1..] == a[1..] + b;
      LinesAppend(a[1..], b);
    } else {
      assert a + b == b;
    }
  }

  /** Texts free of line breaks are their own lines. */
  lemma {:induction false} LinesOfFree(xs: seq<string>)
    requires forall i :: 0 <= i < |xs| ==> '\n' !in xs[i]
    ensures Lines(xs) == xs
  {
    if |xs| > 0 {
      LinesOfFree(xs[1..]);
    }
  }

  /** Texts of which only the one at `k` may hold line breaks: their lines
      are the others as they are, with that one cut in its place. */
  lemma LinesAround(xs: seq<string>, k: nat)
    requires k < |xs|
    requires forall i :: 0 <= i < |xs| && i != k ==> '\n' !in xs[i]
    ensures Lines(xs) == xs[..k] + Split(xs[k], '\n') + xs[k + 1..]
  {
    var a, b := xs[..k], xs[k + 1..];
    assert xs == a + ([xs[k]] + b);
    LinesAppend(a, [xs[k]] + b);
    LinesAppend([xs[k]], b);
    LinesOfFree(a);
    LinesOfFree(b);
    LinesOne(xs[k]);
    Regroup(a, Split(xs[k], '\n'), b);
  }

  lemma LinesOne(x: string)
    ensures Lines([x]) == Split(x, '\n')
  {
    assert Lines([x]) == Split(x, '\n') + Lines([]);
  }

  lemma Regroup(a: seq<string>, m: seq<string>, b: seq<string>)
    ensures a + (m + b) == a + m + b
  {
  }

  /** `text.split('\n')` of texts joined by newlines: the lines of every
      text, in order. */
  lemma {:induction false} SplitJoinLines(xs: seq<string>)
    requires |xs| >= 1
    ensures Split(Join(xs, "\n"), '\n') == Lines(xs)
  {
    if |xs| > 1 {
      SplitJoinLines(xs[1..]);
      SplitAround(xs[0], '\n', Join(xs[1..], "\n"));
    }
  }

  /** Cutting texts into lines and joining the lines again changes nothing. */
  lemma JoinLines(xs: seq<string>)
    ensures Join(Lines(xs), "\n") == Join(xs, "\n")
  {
    if |xs| > 0 {
      SplitJoinLines(xs);
      JoinSplit(Join(xs, "\n"), '\n');
    }
  }

  /** Joining pieces free of a character gives a string free of it, as long
      as the separator is free of it too. */
  lemma {:induction false} JoinAvoids(parts: seq<string>, sep: string, c: char)
    requires c !in sep
    requires forall i :: 0 <= i < |parts| ==> c !in parts[i]
    ensures c !in Join(parts, sep)
  {
    if |parts| > 1 {
      JoinAvoids(parts[1..], sep, c);
    }
  }

  /** A join of two lines followed by more opens with the two lines and the
      first of the rest, each followed by the separator. */
  lemma OpensWith(a: string, b: string, xs: seq<string>, sep: string)
    requires |xs| > 0
    ensures StartsWith(Join([a, b] + xs, sep), a + sep + b + sep + xs[0])
  {
    var ys := [a, b] + xs;
    assert ys[1..] == [b] + xs && ys[1..][1..] == xs;
    assert Join(ys, sep) == (a + sep + b + sep) + Join(xs, sep);
    JoinStarts(xs, sep);
    PrefixExtend(a + sep + b + sep, xs[0], Join(xs, sep));
  }

  /** A join opens with its first piece. */
  lemma JoinStarts(xs: seq<string>, sep: string)
    requires |xs| > 0
    ensures StartsWith(Join(xs, sep), xs[0])
  {
    if |xs| > 1 {
      assert Join(xs, sep) == xs[0] + (sep + Join(xs[1..], sep));
      PrefixOfConcat(xs[0], sep + Join(xs[1..], sep));
    }
  }

  lemma PrefixOfConcat(p: string, q: string)
    ensures StartsWith(p + q, p)
  {
    assert (p + q)[..|p|] == p;
  }

  /** Putting the same text in front keeps a prefix a prefix. */
  lemma PrefixExtend(h: string, p: string, s: string)
    requires StartsWith(s, p)
    ensures StartsWith(h + s, h + p)
  {
    assert (h + s)[..|h + p|] == h + s[..|p|];
  }

  /** `c.toLowerCase()` on ASCII letters. */
  function LowerChar(c: char): (d: char)
    ensures 'A' <= c <= 'Z' ==> 'a' <= d <= 'z'
    ensures !('A' <= c <= 'Z') ==> d == c
  {
    if 'A' <= c <= 'Z' then (c as int + 32) as char else c
  }

  /** `s.toLowerCase()` on ASCII letters; other characters are kept. */
  function Lower(s: string): (r: string)
    ensures |r| == |s|
    ensures forall i :: 0 <= i < |s| ==> r[i] == LowerChar(s[i])
  {
    seq(|s|, i requires 0 <= i < |s| => LowerChar(s[i]))
  }

  function DigitChar(d: int): char
    requires 0 <= d < 10
  {
    "0123456789"[d]
  }

  /** The decimal digits of `n`, as `n.toString()` writes them. */
  function NatToString(n: nat): (r: string)
    ensures |r| >= 1
    ensures forall i :: 0 <= i < |r| ==> '0' <= r[i] <= '9'
  {
    if n < 10 then [DigitChar(n)] else NatToString(n / 10) + [DigitChar(n % 10)]
  }

  /** `n.toString()` for an integer. */
  function IntToString(n: int): (r: string)
    ensures |r| >= 1
    ensures forall i :: 0 <= i < |r| ==> r[i] == '-' || '0' <= r[i] <= '9'
  {
    if n < 0 then "-" + NatToString(-n) else NatToString(n)
  }
}
