/** Integer arithmetic as the benchmark script performs it: Python's floor
    division, the `(n + b - 1) // b` ceiling idiom, 32-bit tensor integers,
    and the `max`/`sum` reductions over lists of integers. */
module PyInts {

  const INT32_MIN: int := -0x8000_0000
  const INT32_MAX: int := 0x7fff_ffff

  /** True when `x` is representable as a torch.int (int32) element. */
  predicate InInt32(x: int) {
    INT32_MIN <= x <= INT32_MAX
  }

  /** Python's `a // b`: the floor of the rational a / b (Dafny's own `/` is
      Euclidean, which agrees with floor only for a positive divisor). */
  function FloorDiv(a: int, b: int): (q: int)
    requires b != 0
    ensures b > 0 ==> q * b <= a < q * b + b
    ensures b < 0 ==> q * b >= a > q * b + b
  {
    if b > 0 then a / b else (-a) / (-b)
  }

  /** `k` is the ceiling of n / b: the least k with k * b >= n. */
  predicate IsCeil(k: int, n: int, b: int) {
    k * b >= n && (k - 1) * b < n
  }

  /** The script's ceiling idiom `(n + b - 1) // b`. */
  function CeilDiv(n: int, b: int): int
    requires b != 0
  {
    FloorDiv(n + b - 1, b)
  }

  /** For a positive divisor the idiom really is the ceiling. */
  lemma CeilDivIsCeiling(n: int, b: int)
    requires b > 0
    ensures IsCeil(CeilDiv(n, b), n, b)
  {
    var k := CeilDiv(n, b);
    assert k * b <= n + b - 1 < k * b + b;
    assert (k - 1) * b == k * b - b;
  }

  /** The ceiling is unique: any two values meeting IsCeil agree. */
  lemma CeilUnique(k: int, k': int, n: int, b: int)
    requires b > 0
    requires IsCeil(k, n, b) && IsCeil(k', n, b)
    ensures k == k'
  {
    if k < k' {
      MulMonotone(k, k' - 1, b);
      assert false;
    } else if k' < k {
      MulMonotone(k', k - 1, b);
      assert false;
    }
  }

  lemma MulMonotone(x: int, y: int, b: int)
    requires x <= y && b >= 0
    ensures x * b <= y * b
  {
    assert y * b - x * b == (y - x) * b;
  }

  /** Ceiling division in two steps equals ceiling division by the product:
      ceil(ceil(n / b) / m) == ceil(n / (b * m)). */
  lemma CeilOfCeil(n: int, b: int, m: int)
    requires b > 0 && m > 0
    ensures CeilDiv(CeilDiv(n, b), m) == CeilDiv(n, b * m)
  {
    var c := CeilDiv(n, b);
    var d := CeilDiv(c, m);
    CeilDivIsCeiling(n, b);
    CeilDivIsCeiling(c, m);
    CeilDivIsCeiling(n, b * m);
    // d * m >= c and c * b >= n, so d * (b * m) >= n
    MulMonotone(c, d * m, b);
    assert d * (b * m) == (d * m) * b;
    // (d - 1) * m < c, i.e. (d - 1) * m <= c - 1, so (d - 1) * (b * m) <= (c - 1) * b < n
    MulMonotone((d - 1) * m, c - 1, b);
    assert (d - 1) * (b * m) == ((d - 1) * m) * b;
    assert (c - 1) * b < n;
    assert IsCeil(d, n, b * m);
    CeilUnique(d, CeilDiv(n, b * m), n, b * m);
  }

  /** Two's-complement wrap-around of an int32 tensor operation. */
  function Wrap32(x: int): (r: int)
    ensures InInt32(r)
    ensures (x - r) % 0x1_0000_0000 == 0
    ensures InInt32(x) ==> r == x
  {
    (x - INT32_MIN) % 0x1_0000_0000 + INT32_MIN
  }

  /** Python's `sum` (torch's `.sum()` accumulates int32 elements in int64;
      int64 overflow is not modelled). */
  function Sum(s: seq<int>): int {
    if s == [] then 0 else s[0] + Sum(s[1..])
  }

  /** The sum of a list whose every element is `c`. */
  lemma {:induction false} SumConstant(s: seq<int>, c: int)
    requires forall i :: 0 <= i < |s| ==> s[i] == c
    ensures Sum(s) == |s| * c
  {
    if s != [] {
      SumConstant(s[1..], c);
      assert Sum(s) == c + (|s| - 1) * c;
    }
  }

  /** Python's `max` of a non-empty list: an element no smaller than any other. */
  function MaxOf(s: seq<int>): (m: int)
    requires |s| > 0
    ensures m in s
    ensures forall i :: 0 <= i < |s| ==> s[i] <= m
  {
    if |s| == 1 then s[0]
    else
      var rest := MaxOf(s[1..]);
      assert forall i :: 1 <= i < |s| ==> s[i] == s[1..][i - 1];
      if s[0] >= rest then s[0] else rest
  }
}
