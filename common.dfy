/** Small helpers shared by the scheduler, the progress tracker and the quiz:
    an option type, JavaScript's `Math.round`, the rounded percentage the
    statistics screens show, and a sequence filter. */
module Common {

  datatype Option<T> = None | Some(value: T) {
    function GetOr(default: T): T {
      match this
      case Some(v) => v
      case None => default
    }
  }

  function Min(a: int, b: int): int { if a <= b then a else b }

  function Max(a: int, b: int): int { if a >= b then a else b }

  /** `Math.round(x)`: the nearest integer, halves rounded up. */
  function RoundHalfUp(x: real): (r: int)
    ensures r as real - 0.5 <= x < r as real + 0.5
  {
    (x + 0.5).Floor
  }

  /** Floor division as Dafny defines it for a positive divisor. */
  lemma DivBounds(n: int, d: int)
    requires d > 0
    ensures d * (n / d) <= n < d * (n / d) + d
  {
  }

  lemma MulLess(d: int, a: int, b: int)
    requires d > 0 && d * a < d * b
    ensures a < b
  {
  }

  /** `Math.round((part / whole) * 100)`, the percentage shown for a score
      or a mastery rate, computed exactly: `r` is the integer nearest to
      `100 * part / whole`, halves rounded up. The caller must not divide by
      zero. */
  function Percent(part: nat, whole: nat): (r: int)
    requires whole > 0
    ensures (2 * whole) * r <= 200 * part + whole < (2 * whole) * r + 2 * whole
    ensures 0 <= r
    ensures part <= whole ==> r <= 100
  {
    var n, d := 200 * part + whole, 2 * whole;
    DivBounds(n, d);
    var r := n / d;
    MulLess(d, -1, r);
    if part <= whole then MulLess(d, r, 101); r else r
  }

  /** The elements of `s` that satisfy `p`, in their original order
      (JavaScript's `Array.prototype.filter`). */
  function Filter<T(==)>(s: seq<T>, p: T -> bool): (r: seq<T>)
    ensures |r| <= |s|
    ensures forall k :: 0 <= k < |r| ==> p(r[k]) && r[k] in s
    ensures forall k :: 0 <= k < |s| && p(s[k]) ==> s[k] in r
  {
    if s == [] then []
    else
      var rest := Filter(s[1..], p);
      assert s == [s[0]] + s[1..];
      if p(s[0]) then [s[0]] + rest else rest
  }

  /** Every element that satisfies `p` is kept as often as it occurs in
      `s`, and no other element is kept. */
  lemma {:induction false} FilterMultiset<T>(s: seq<T>, p: T -> bool)
    ensures forall x :: multiset(Filter(s, p))[x] == if p(x) then multiset(s)[x] else 0
  {
    if s != [] {
      FilterMultiset(s[1..], p);
      assert s == [s[0]] + s[1..];
    }
  }

  /** Filtering distributes over concatenation, so the kept elements stay
      in their original order. */
  lemma {:induction false} FilterAppend<T>(a: seq<T>, b: seq<T>, p: T -> bool)
    ensures Filter(a + b, p) == Filter(a, p) + Filter(b, p)
  {
    if a == [] {
      assert a + b == b;
    } else {
      assert (a + b)[1..] == a[1..] + b;
      FilterAppend(a[1..], b, p);
    }
  }

  /** The number of elements of `s` that satisfy `p`. */
  function Count<T(==)>(s: seq<T>, p: T -> bool): (n: nat)
    ensures n <= |s|
    ensures n == |Filter(s, p)|
  {
    if s == [] then 0 else (if p(s[0]) then 1 else 0) + Count(s[1..], p)
  }

  /** `s.slice(0, end)` in JavaScript: a negative `end` counts back from the
      end of the array. */
  function JsPrefix<T>(s: seq<T>, end: int): (r: seq<T>)
    ensures 0 <= end ==> |r| == Min(end, |s|)
    ensures end < 0 ==> |r| == Max(0, |s| + end)
    ensures r <= s
  {
    if end >= 0 then s[..Min(end, |s|)] else s[..Max(0, |s| + end)]
  }

  /** No element occurs twice. */
  predicate Distinct<T(==)>(s: seq<T>) {
    forall i, j :: 0 <= i < j < |s| ==> s[i] != s[j]
  }
}
