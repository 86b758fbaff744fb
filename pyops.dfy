/** Python integer division, remainder and sequence slicing, written out over Dafny's
    unbounded integers (Dafny's own `/` and `%` are Euclidean). */
module PyOps {

  /** `a // d`: the quotient rounded towards minus infinity. */
  function FloorDiv(a: int, d: int): int
    requires d != 0
  {
    if d > 0 then a / d else (-a) / (-d)
  }

  /** `a % d`: the remainder that has the sign of the divisor. */
  function FloorMod(a: int, d: int): int
    requires d != 0
  {
    a - d * FloorDiv(a, d)
  }

  /** `np.ceil(a / d).astype(int)` for integer operands: the quotient rounded towards plus
      infinity (floating-point rounding of very large operands is not modelled). */
  function CeilDiv(a: int, d: int): int
    requires d != 0
  {
    -FloorDiv(-a, d)
  }

  /** Python's division law: `a == d * (a // d) + a % d`, with the remainder taking the sign
      of the divisor and smaller than it in magnitude. */
  lemma DivisionLaw(a: int, d: int)
    requires d != 0
    ensures a == d * FloorDiv(a, d) + FloorMod(a, d)
    ensures d > 0 ==> 0 <= FloorMod(a, d) < d
    ensures d < 0 ==> d < FloorMod(a, d) <= 0
  {
    if d > 0 {
      assert FloorDiv(a, d) == a / d;
    } else {
      var q := (-a) / (-d);
      assert -a == (-d) * q + (-a) % (-d);
      assert a == d * q - (-a) % (-d);
    }
  }

  /** For a positive divisor the quotient and remainder are the only ones that satisfy the
      division law with `0 <= r < d`. */
  lemma DivisionUnique(a: int, d: int, q: int, r: int)
    requires d > 0 && 0 <= r < d && a == d * q + r
    ensures FloorDiv(a, d) == q && FloorMod(a, d) == r
  {
    DivisionLaw(a, d);
    var q' := FloorDiv(a, d);
    if q' < q {
      MulLess(q', q, d);
    } else if q < q' {
      MulLess(q, q', d);
    }
  }

  /** `x < y` with a positive factor moves the product up by at least the factor. */
  lemma MulLess(x: int, y: int, d: int)
    requires d > 0 && x < y
    ensures d * x + d <= d * y
  {
    var k := y - x - 1;
    assert d * y == d * x + d + d * k;
    assert d * k >= 0;
  }

  /** For a positive divisor, `ceil(a / d)` is `a // d` when `d` divides `a` and one more
      when it does not. */
  lemma CeilDivByRemainder(a: int, d: int)
    requires d > 0
    ensures FloorMod(a, d) == 0 ==> CeilDiv(a, d) == FloorDiv(a, d)
    ensures FloorMod(a, d) != 0 ==> CeilDiv(a, d) == FloorDiv(a, d) + 1
  {
    DivisionLaw(a, d);
    var q, r := FloorDiv(a, d), FloorMod(a, d);
    assert d * (-q) == -(d * q);
    if r == 0 {
      DivisionUnique(-a, d, -q, 0);
    } else {
      assert d * (-q - 1) == -(d * q) - d;
      DivisionUnique(-a, d, -q - 1, d - r);
    }
  }

  /** How Python normalises one slice bound against a sequence of length `n`: a negative
      bound counts from the end, and the result is clamped to [0, n]. */
  function Clip(i: int, n: nat): (k: nat)
    ensures k <= n
    ensures 0 <= i <= n ==> k == i
    ensures i > n ==> k == n
    ensures i < 0 && i + n >= 0 ==> k == i + n
    ensures i + n < 0 ==> k == 0
  {
    if i < 0 then (if i + n < 0 then 0 else i + n)
    else if i > n then n
    else i
  }

  /** `s[i:j]` with Python's rules for out-of-range and negative bounds. */
  function Slice<T>(s: seq<T>, i: int, j: int): seq<T>
  {
    var a := Clip(i, |s|);
    var b := Clip(j, |s|);
    if a < b then s[a..b] else []
  }

  /** Inside the bounds, a Python slice is Dafny's subsequence. */
  lemma SliceInRange<T>(s: seq<T>, i: int, j: int)
    requires 0 <= i <= j <= |s|
    ensures Slice(s, i, j) == s[i..j]
  {
  }

  /** A slice with a non-negative end that does not exceed its start, or that starts at or
      past the end of the sequence, is empty. */
  lemma SliceEmpty<T>(s: seq<T>, i: int, j: int)
    requires 0 <= j
    requires j <= i || |s| <= i
    ensures Slice(s, i, j) == []
  {
  }

  /** Two sequences of the same length sliced with the same bounds give windows of the same
      length whose k-th elements sit at the same index of their sources. */
  lemma SlicePairs<T, U>(s: seq<T>, t: seq<U>, i: int, j: int)
    requires |s| == |t|
    ensures |Slice(s, i, j)| == |Slice(t, i, j)|
    ensures forall k :: 0 <= k < |Slice(s, i, j)| ==>
              Slice(s, i, j)[k] == s[Clip(i, |s|) + k] && Slice(t, i, j)[k] == t[Clip(i, |t|) + k]
  {
  }

  /** `str(n)` for a non-negative integer: its decimal digits. */
  function NatToString(n: nat): (s: string)
    ensures |s| >= 1
    ensures forall k :: 0 <= k < |s| ==> '0' <= s[k] <= '9'
  {
    var d := [(('0' as int) + n % 10) as char];
    if n < 10 then d else NatToString(n / 10) + d
  }

  /** `str(n)` for any integer. */
  function IntToString(n: int): (s: string)
    ensures |s| >= 1
  {
    if n < 0 then "-" + NatToString(-n) else NatToString(n)
  }
}
