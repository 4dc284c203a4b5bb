/** Small building blocks shared by every module of the model: an optional
    value, the slice of JavaScript number semantics the dashboard relies on
    (division by zero, Math.min/Math.max and Math.round), and counting/summing
    over sequences. */
module Base {

  /** `null`/`undefined` versus a present value. */
  datatype Option<+T> = None | Some(value: T)

  /** The result of a JavaScript division as the progress bars see it:
      a finite value, one of the two infinities, or NaN (0/0). */
  datatype JsNum = Finite(r: real) | PosInf | NegInf | NaN

  /** `a / b` on JavaScript numbers, for finite operands. */
  function JsDiv(a: real, b: real): (q: JsNum)
    ensures b != 0.0 ==> q == Finite(a / b)
    ensures b == 0.0 ==> (q == NaN <==> a == 0.0)
    ensures b == 0.0 && a > 0.0 ==> q == PosInf
    ensures b == 0.0 && a < 0.0 ==> q == NegInf
  {
    if b != 0.0 then Finite(a / b)
    else if a > 0.0 then PosInf
    else if a < 0.0 then NegInf
    else NaN
  }

  /** Multiplication of a JavaScript number by a positive finite factor. */
  function JsScale(x: JsNum, k: real): JsNum
    requires k > 0.0
  {
    match x
    case Finite(v) => Finite(v * k)
    case _ => x
  }

  /** `a <= b` on JavaScript numbers; false whenever NaN is involved. */
  predicate JsLe(a: JsNum, b: JsNum) {
    match (a, b)
    case (NaN, _) => false
    case (_, NaN) => false
    case (NegInf, _) => true
    case (_, PosInf) => true
    case (PosInf, _) => false
    case (_, NegInf) => false
    case (Finite(x), Finite(y)) => x <= y
  }

  /** `Math.min(a, b)`: NaN if either argument is NaN, otherwise the smaller. */
  function JsMin(a: JsNum, b: JsNum): (m: JsNum)
    ensures m == NaN <==> a == NaN || b == NaN
    ensures m != NaN ==> JsLe(m, a) && JsLe(m, b) && (m == a || m == b)
  {
    if a == NaN || b == NaN then NaN
    else if JsLe(a, b) then a else b
  }

  /** `Math.max(a, b)`: NaN if either argument is NaN, otherwise the larger. */
  function JsMax(a: JsNum, b: JsNum): (m: JsNum)
    ensures m == NaN <==> a == NaN || b == NaN
    ensures m != NaN ==> JsLe(a, m) && JsLe(b, m) && (m == a || m == b)
  {
    if a == NaN || b == NaN then NaN
    else if JsLe(a, b) then b else a
  }

  /** `Math.round(x)` on an exact rational: the integer nearest to x, halves
      rounded up. */
  function Round(x: real): (n: int)
    ensures n as real - 0.5 <= x < n as real + 0.5
  {
    (x + 0.5).Floor
  }

  /** `Math.round(100 * part / whole)` for a positive whole, computed
      exactly: the nearest integer to 100*part/whole, halves rounded up. */
  function Percent(part: int, whole: int): (p: int)
    requires whole > 0
    ensures 2 * whole * p <= 200 * part + whole < 2 * whole * (p + 1)
    ensures 0 <= part <= whole ==> 0 <= p <= 100
    ensures part == 0 ==> p == 0
    ensures part == whole ==> p == 100
  {
    var p := (200 * part + whole) / (2 * whole);
    PercentBounds(part, whole, p);
    p
  }

  lemma PercentBounds(part: int, whole: int, p: int)
    requires whole > 0 && p == (200 * part + whole) / (2 * whole)
    ensures 2 * whole * p <= 200 * part + whole < 2 * whole * (p + 1)
    ensures 0 <= part <= whole ==> 0 <= p <= 100
    ensures part == 0 ==> p == 0
    ensures part == whole ==> p == 100
  {
    var n := 200 * part + whole;
    var d := 2 * whole;
    DivBounds(n, d);
    if 0 <= part <= whole {
      assert 0 < n < d * 101;
      QuotientBelow(n, d, 101);
      QuotientAtLeast(n, d, 0);
    }
    if part == 0 {
      assert d * 0 <= n < d * 1;
      QuotientBelow(n, d, 1);
      QuotientAtLeast(n, d, 0);
    }
    if part == whole {
      assert d * 100 <= n < d * 101;
      QuotientBelow(n, d, 101);
      QuotientAtLeast(n, d, 100);
    }
  }

  lemma DivBounds(n: int, d: int)
    requires d > 0
    ensures d * (n / d) <= n < d * (n / d + 1)
  {
    assert n == d * (n / d) + n % d;
  }

  lemma QuotientBelow(n: int, d: int, k: int)
    requires d > 0 && n < d * k
    ensures n / d < k
  {
    DivBounds(n, d);
    if n / d >= k {
      MulMonotone(d, k, n / d);
    }
  }

  lemma QuotientAtLeast(n: int, d: int, k: int)
    requires d > 0 && d * k <= n
    ensures k <= n / d
  {
    DivBounds(n, d);
    if n / d < k {
      MulMonotone(d, n / d + 1, k);
    }
  }

  /** Division undoes a multiplication whose remainder is in range. */
  lemma DivExact(q: int, r: int, d: int)
    requires d > 0 && 0 <= r < d
    ensures (d * q + r) / d == q
  {
    QuotientAtLeast(d * q + r, d, q);
    assert d * q + r < d * (q + 1);
    QuotientBelow(d * q + r, d, q + 1);
  }

  lemma MulMonotone(d: int, a: int, b: int)
    requires d > 0 && a <= b
    ensures d * a <= d * b
  {
    assert d * b - d * a == d * (b - a);
  }

  /** `part / whole * 100` for `0 <= part <= whole`: a percentage that is
      100 exactly when the part is the whole. */
  lemma RatioPercent(part: int, whole: int)
    requires 0 < whole
    ensures var r := part as real / whole as real * 100.0;
            (0 <= part <= whole ==> 0.0 <= r <= 100.0) && (r == 100.0 <==> part == whole)
  {
    var q := part as real / whole as real;
    var w := whole as real;
    assert q * w == part as real;
    assert (q - 1.0) * w == part as real - w;
  }

  /** The row an if/else-if ladder of `x >= ts[0]`, `x >= ts[1]`, ... selects:
      the position of the first threshold `x` reaches, or `|ts|` (the final
      `else`) when it reaches none. */
  function Tier(x: real, ts: seq<real>): (k: nat)
    ensures k <= |ts|
    ensures forall j :: 0 <= j < k ==> x < ts[j]
    ensures k < |ts| ==> ts[k] <= x
  {
    if |ts| == 0 then 0
    else if ts[0] <= x then 0
    else 1 + Tier(x, ts[1..])
  }

  /** A larger value never lands on a later row of the same ladder. */
  lemma TierMonotone(x: real, y: real, ts: seq<real>)
    requires x <= y
    ensures Tier(y, ts) <= Tier(x, ts)
  {
  }

  /** Number of elements of `s` satisfying `p`. */
  function Count<T>(s: seq<T>, p: T -> bool): (n: nat)
    ensures n <= |s|
    ensures n == 0 <==> forall i :: 0 <= i < |s| ==> !p(s[i])
    ensures n == |s| <==> forall i :: 0 <= i < |s| ==> p(s[i])
  {
    if |s| == 0 then 0
    else (if p(s[0]) then 1 else 0) + Count(s[1..], p)
  }

  /** Counting a stronger test never gives more. */
  lemma {:induction false} CountImplies<T>(s: seq<T>, p: T -> bool, q: T -> bool)
    requires forall i :: 0 <= i < |s| ==> p(s[i]) ==> q(s[i])
    ensures Count(s, p) <= Count(s, q)
  {
    if |s| > 0 {
      CountImplies(s[1..], p, q);
    }
  }

  /** The elements of `s` satisfying `p`, in order (`Array.prototype.filter`). */
  function Filter<T(==)>(s: seq<T>, p: T -> bool): (r: seq<T>)
    ensures |r| == Count(s, p) <= |s|
    ensures forall i :: 0 <= i < |r| ==> p(r[i]) && r[i] in s
    ensures forall i :: 0 <= i < |s| && p(s[i]) ==> s[i] in r
  {
    if |s| == 0 then []
    else (if p(s[0]) then [s[0]] else []) + Filter(s[1..], p)
  }

  /** A filter that keeps every element returns the sequence itself. */
  lemma {:induction false} FilterKeepsAll<T>(s: seq<T>, p: T -> bool)
    requires forall i :: 0 <= i < |s| ==> p(s[i])
    ensures Filter(s, p) == s
  {
    if |s| > 0 {
      FilterKeepsAll(s[1..], p);
      assert [s[0]] + s[1..] == s;
    }
  }

  /** A filter distributes over concatenation. */
  lemma {:induction false} FilterAppend<T>(a: seq<T>, b: seq<T>, p: T -> bool)
    ensures Filter(a + b, p) == Filter(a, p) + Filter(b, p)
  {
    if |a| == 0 {
      assert a + b == b;
    } else {
      assert (a + b)[1..] == a[1..] + b;
      FilterAppend(a[1..], b, p);
    }
  }

  function Differs<T(==)>(x: T): T -> bool {
    y => y != x
  }

  /** Flip the membership of `x` in a list used as a set: drop every
      occurrence when present (`filter(y => y !== x)`), append it when absent. */
  function ToggleMember<T(==,!new)>(xs: seq<T>, x: T): (r: seq<T>)
    ensures x in r <==> x !in xs
    ensures forall y :: y != x ==> (y in r <==> y in xs)
    ensures x !in xs ==> r == xs + [x]
    ensures x in xs ==> Subsequence(r, xs)
  {
    if x in xs then
      FilterIsSubsequence(xs, Differs(x));
      Filter(xs, Differs(x))
    else xs + [x]
  }

  /** Toggling twice restores the membership of every value, and restores
      the list itself when the value was absent. */
  lemma ToggleMemberTwice<T(!new)>(xs: seq<T>, x: T)
    ensures forall y :: y in ToggleMember(ToggleMember(xs, x), x) <==> y in xs
    ensures x !in xs ==> ToggleMember(ToggleMember(xs, x), x) == xs
  {
    if x !in xs {
      FilterAppend(xs, [x], Differs(x));
      FilterKeepsAll(xs, Differs(x));
    }
  }

  /** Flip the membership of `x` in a `Set` (`has` ? `delete` : `add`). */
  function Flip<T>(s: set<T>, x: T): (r: set<T>)
    ensures x in r <==> x !in s
    ensures r - {x} == s - {x}
  {
    if x in s then s - {x} else s + {x}
  }

  lemma FlipTwice<T>(s: set<T>, x: T)
    ensures Flip(Flip(s, x), x) == s
  {
  }

  /** Sum of `f` over `s` (a `reduce` with initial value 0). */
  function SumOf<T>(s: seq<T>, f: T -> int): int
  {
    if |s| == 0 then 0 else f(s[0]) + SumOf(s[1..], f)
  }

  lemma {:induction false} SumOfAppend<T>(a: seq<T>, b: seq<T>, f: T -> int)
    ensures SumOf(a + b, f) == SumOf(a, f) + SumOf(b, f)
  {
    if |a| == 0 {
      assert a + b == b;
    } else {
      assert (a + b)[1..] == a[1..] + b;
      SumOfAppend(a[1..], b, f);
    }
  }

  lemma {:induction false} CountAppend<T>(a: seq<T>, b: seq<T>, p: T -> bool)
    ensures Count(a + b, p) == Count(a, p) + Count(b, p)
  {
    if |a| == 0 {
      assert a + b == b;
    } else {
      assert (a + b)[1..] == a[1..] + b;
      CountAppend(a[1..], b, p);
    }
  }

  /** Sum of `f` over the elements satisfying `p` (a `reduce` that adds
      only when `p` holds). */
  function SumWhere<T>(s: seq<T>, p: T -> bool, f: T -> int): int
  {
    if |s| == 0 then 0 else (if p(s[0]) then f(s[0]) else 0) + SumWhere(s[1..], p, f)
  }

  /** A non-zero sum has a contributing element. */
  lemma {:induction false} SumWhereNonZero<T>(s: seq<T>, p: T -> bool, f: T -> int)
    requires SumWhere(s, p, f) != 0
    ensures exists i :: 0 <= i < |s| && p(s[i]) && f(s[i]) != 0
  {
    if p(s[0]) && f(s[0]) != 0 {
      assert p(s[0]) && f(s[0]) != 0;
    } else {
      SumWhereNonZero(s[1..], p, f);
      var i :| 0 <= i < |s[1..]| && p(s[1..][i]) && f(s[1..][i]) != 0;
      assert s[i + 1] == s[1..][i];
    }
  }

  /** A sum with no contributing element is zero. */
  lemma {:induction false} SumWhereNone<T>(s: seq<T>, p: T -> bool, f: T -> int)
    requires forall i :: 0 <= i < |s| ==> !p(s[i])
    ensures SumWhere(s, p, f) == 0
  {
    if |s| > 0 {
      SumWhereNone(s[1..], p, f);
    }
  }

  /** Summing over the survivors of a filter is summing where `p` holds. */
  lemma {:induction false} SumOfFilter<T>(s: seq<T>, p: T -> bool, f: T -> int)
    ensures SumOf(Filter(s, p), f) == SumWhere(s, p, f)
  {
    if |s| > 0 {
      SumOfFilter(s[1..], p, f);
      var head := if p(s[0]) then [s[0]] else [];
      SumOfAppend(head, Filter(s[1..], p), f);
    }
  }

  /** `s` is an order-preserving subsequence of `t`: `s` is obtained from
      `t` by deleting elements. */
  predicate Subsequence<T(==)>(s: seq<T>, t: seq<T>)
    decreases |t|
  {
    if |s| == 0 then true
    else if |t| == 0 then false
    else if s[0] == t[0] then Subsequence(s[1..], t[1..])
    else Subsequence(s, t[1..])
  }

  /** An ordered subsequence made of elements passing `p` has at most as
      many elements as pass `p`. */
  lemma {:induction false} SubsequenceCount<T>(r: seq<T>, s: seq<T>, p: T -> bool)
    requires Subsequence(r, s)
    requires forall i :: 0 <= i < |r| ==> p(r[i])
    ensures |r| <= Count(s, p)
    decreases |s|
  {
    if |r| > 0 {
      if r[0] == s[0] {
        SubsequenceCount(r[1..], s[1..], p);
      } else {
        SubsequenceCount(r, s[1..], p);
      }
    }
  }

  /** The filter is the only ordered subsequence of passing elements with
      as many elements as pass: a result with those three properties is
      the filter. */
  lemma {:induction false} FilterUnique<T>(r: seq<T>, s: seq<T>, p: T -> bool)
    requires Subsequence(r, s)
    requires forall i :: 0 <= i < |r| ==> p(r[i])
    requires |r| == Count(s, p)
    ensures r == Filter(s, p)
    decreases |s|
  {
    if |r| == 0 {
      assert Filter(s, p) == [];
    } else if r[0] == s[0] {
      FilterUnique(r[1..], s[1..], p);
      assert r == [r[0]] + r[1..];
    } else {
      if p(s[0]) {
        SubsequenceCount(r, s[1..], p);
        assert false;
      }
      FilterUnique(r, s[1..], p);
    }
  }

  /** Filtering keeps the survivors in their original order. */
  lemma {:induction false} FilterIsSubsequence<T>(s: seq<T>, p: T -> bool)
    ensures Subsequence(Filter(s, p), s)
  {
    if |s| > 0 {
      FilterIsSubsequence(s[1..], p);
      if !p(s[0]) {
        assert Filter(s, p) == Filter(s[1..], p);
        SubsequenceOfTail(Filter(s[1..], p), s);
      } else {
        assert Filter(s, p) == [s[0]] + Filter(s[1..], p);
      }
    }
  }

  lemma {:induction false} SubsequenceOfTail<T>(s: seq<T>, t: seq<T>)
    requires |t| > 0 && Subsequence(s, t[1..])
    ensures Subsequence(s, t)
    decreases |t|, |s|
  {
    if |s| > 0 && s[0] == t[0] {
      // s[1..] is a subsequence of t[1..] because s is
      SubsequenceDropHead(s, t[1..]);
    }
  }

  lemma {:induction false} SubsequenceDropHead<T>(s: seq<T>, t: seq<T>)
    requires |s| > 0 && Subsequence(s, t)
    ensures Subsequence(s[1..], t)
    decreases |t|, |s|
  {
    if s[0] != t[0] {
      SubsequenceDropHead(s, t[1..]);
      SubsequenceOfTail(s[1..], t);
    } else {
      SubsequenceOfTail(s[1..], t);
    }
  }
}
