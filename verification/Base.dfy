// Small shared vocabulary: optional values, minima and maxima, and sums over sequences.

module Base {

  datatype Option<+T> = None | Some(value: T)

  function Min(a: int, b: int): int { if a <= b then a else b }

  function Max(a: int, b: int): int { if a >= b then a else b }

  /** The sum of `f` over a sequence, taken from the end so that appending a row adds one term. */
  function Total<T>(s: seq<T>, f: T -> int): int {
    if s == [] then 0 else Total(s[..|s| - 1], f) + f(s[|s| - 1])
  }

  lemma TotalAppend<T>(s: seq<T>, x: T, f: T -> int)
    ensures Total(s + [x], f) == Total(s, f) + f(x)
  {
    assert (s + [x])[..|s|] == s;
  }

  lemma TotalAppendTwo<T>(s: seq<T>, x: T, y: T, f: T -> int)
    ensures Total(s + [x] + [y], f) == Total(s, f) + f(x) + f(y)
  {
    TotalAppend(s, x, f);
    TotalAppend(s + [x], y, f);
  }

  lemma TotalAppendRows<T>(s: seq<T>, rows: seq<T>, f: T -> int)
    requires 1 <= |rows| <= 2
    ensures Total(s + rows, f) == Total(s, f) + f(rows[0]) + if |rows| == 2 then f(rows[1]) else 0
  {
    if |rows| == 2 {
      assert s + rows == s + [rows[0]] + [rows[1]];
      TotalAppendTwo(s, rows[0], rows[1], f);
    } else {
      assert s + rows == s + [rows[0]];
      TotalAppend(s, rows[0], f);
    }
  }

  lemma {:induction false} TotalUpdate<T>(s: seq<T>, i: nat, x: T, f: T -> int)
    requires i < |s|
    ensures Total(s[i := x], f) == Total(s, f) - f(s[i]) + f(x)
  {
    var last := |s| - 1;
    if i == last {
      assert s[i := x][..last] == s[..last];
    } else {
      assert s[i := x][..last] == s[..last][i := x];
      TotalUpdate(s[..last], i, x, f);
    }
  }

  /** Rows that keep their value under `f` keep the sum. */
  lemma {:induction false} TotalSame<T>(s: seq<T>, t: seq<T>, f: T -> int)
    requires |s| == |t|
    requires forall i :: 0 <= i < |s| ==> f(s[i]) == f(t[i])
    ensures Total(s, f) == Total(t, f)
  {
    if s != [] {
      TotalSame(s[..|s| - 1], t[..|t| - 1], f);
    }
  }
}
