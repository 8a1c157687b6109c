/**
 * Integer helpers of the LLaMA-7B example: `toi64`, which reads an
 * unsigned ring element of bit width `bw` as its signed representative,
 * and the argmax loop that picks the predicted token from the logits.
 *
 * C++ `u64` arithmetic wraps modulo 2^64 and the final store into an
 * `i64` reinterprets the bit pattern; both are written out here.
 */
module Ring {
  const TWO_63: int := 0x8000_0000_0000_0000
  const TWO_64: int := 0x1_0000_0000_0000_0000

  /** `INT_MIN` of a 32-bit `int`, the argmax loop's starting maximum. */
  const INT_MIN: int := -0x8000_0000

  function Pow2(n: nat): (r: int)
    ensures r >= 1
  {
    if n == 0 then 1 else 2 * Pow2(n - 1)
  }

  predicate IsU64(u: int) { 0 <= u < TWO_64 }

  /** A `u64` result: the mathematical value modulo 2^64. */
  function U64(v: int): (r: int)
    ensures IsU64(r)
  {
    v % TWO_64
  }

  /** The `u64` result is congruent to the mathematical value modulo 2^64. */
  lemma U64Congruent(v: int)
    ensures (U64(v) - v) % TWO_64 == 0
  {
    RemainderCongruent(v, TWO_64);
  }

  /** The `i64` with the same bit pattern as a `u64`. */
  function AsI64(u: int): (r: int)
    requires IsU64(u)
    ensures -TWO_63 <= r < TWO_63
    ensures (r - u) % TWO_64 == 0
  {
    if u < TWO_63 then u else u - TWO_64
  }

  /**
   * One element of `toi64(t, bw)`:
   * `(t + (1LL << (bw-1))) % (1LL << bw) - (1LL << (bw-1))`, where the
   * `u64` operand makes the addition, the remainder and the subtraction
   * unsigned, and the store into `res.data[i]` reads the result as `i64`.
   */
  function ToI64Value(u: int, bw: nat): int
    requires IsU64(u) && 1 <= bw <= 62
  {
    var half := Pow2(bw - 1);
    AsI64(U64(U64(u + half) % Pow2(bw) - half))
  }

  /** `toi64`: a new tensor of the same shape, converted element by element. */
  method ToI64(t: array<int>, bw: nat) returns (res: array<int>)
    requires 1 <= bw <= 62
    requires forall i :: 0 <= i < t.Length ==> IsU64(t[i])
    ensures fresh(res) && res.Length == t.Length
    ensures forall i :: 0 <= i < res.Length ==> res[i] == ToI64Value(t[i], bw)
  {
    res := new int[t.Length];
    var i := 0;
    while i < t.Length
      invariant 0 <= i <= t.Length
      invariant forall j :: 0 <= j < i ==> res[j] == ToI64Value(t[j], bw)
    {
      res[i] := ToI64Value(t[i], bw);
      i := i + 1;
    }
  }

  lemma {:induction false} Pow2Add(a: nat, b: nat)
    ensures Pow2(a + b) == Pow2(a) * Pow2(b)
    decreases a
  {
    if a > 0 {
      Pow2Add(a - 1, b);
    }
  }

  lemma {:induction false} Pow2Monotone(a: nat, b: nat)
    requires a <= b
    ensures Pow2(a) <= Pow2(b)
    decreases b
  {
    if a < b {
      Pow2Monotone(a, b - 1);
    }
  }

  lemma Pow2Of64()
    ensures Pow2(63) == TWO_63 && Pow2(64) == TWO_64
  {
    assert Pow2(2) == 4;
    Pow2Add(2, 2);
    assert Pow2(4) == 16;
    Pow2Add(4, 4);
    assert Pow2(8) == 256;
    Pow2Add(8, 8);
    assert Pow2(16) == 0x1_0000;
    Pow2Add(16, 16);
    assert Pow2(32) == 0x1_0000_0000;
    Pow2Add(32, 32);
    assert Pow2(64) == TWO_64;
  }

  lemma MulAtLeast(d: int, m: int)
    requires d >= 1 && m > 0
    ensures d * m >= m
  {
    assert d * m == (d - 1) * m + m;
  }

  /** Euclidean division is determined by its quotient/remainder equation. */
  lemma DivModUnique(a: int, m: int, q: int, r: int)
    requires m > 0 && 0 <= r < m && a == q * m + r
    ensures a / m == q && a % m == r
  {
    var q0, r0 := a / m, a % m;
    assert q0 * m + r0 == q * m + r;
    assert (q - q0) * m == r0 - r;
    if q > q0 {
      MulAtLeast(q - q0, m);
    } else if q < q0 {
      MulAtLeast(q0 - q, m);
    }
  }

  /** A remainder modulo m*k, taken again modulo m, is the remainder modulo m. */
  lemma ModOfMod(a: int, m: nat, k: nat)
    requires m > 0 && k > 0
    ensures (a % (m * k)) % m == a % m
  {
    var q, r := a / (m * k), a % (m * k);
    assert a == (q * k) * m + r;
    DivModUnique(r, m, r / m, r % m);
    DivModUnique(a, m, q * k + r / m, r % m);
  }

  /** A number and its remainder differ by a multiple of the modulus. */
  lemma RemainderCongruent(a: int, m: int)
    requires m > 0
    ensures (a % m - a) % m == 0
  {
    var q := a / m;
    assert a % m - a == (-q) * m;
    DivModUnique((-q) * m, m, -q, 0);
  }

  lemma SameRemainder(x: int, y: int, m: int)
    requires m > 0 && x == y
    ensures x % m == y % m
  {
  }

  /** 2^64 is a multiple of 2^bw, and 2^(bw-1) is at most 2^63. */
  lemma WidthFacts(bw: nat)
    requires 1 <= bw <= 62
    ensures Pow2(bw) * Pow2(64 - bw) == TWO_64
    ensures Pow2(bw) == 2 * Pow2(bw - 1) && Pow2(bw - 1) <= TWO_63
  {
    Pow2Add(bw, 64 - bw);
    Pow2Monotone(bw - 1, 63);
    Pow2Of64();
  }

  /** `toi64` in closed form: the `u64` wrap-arounds cancel out. */
  lemma ToI64Closed(u: int, bw: nat)
    requires IsU64(u) && 1 <= bw <= 62
    ensures ToI64Value(u, bw) == (u + Pow2(bw - 1)) % Pow2(bw) - Pow2(bw - 1)
  {
    var half, m := Pow2(bw - 1), Pow2(bw);
    WidthFacts(bw);
    ModOfMod(u + half, m, Pow2(64 - bw));
    var v := U64(u + half) % m;
    assert v == (u + half) % m;
    if v >= half {
      DivModUnique(v - half, TWO_64, 0, v - half);
    } else {
      DivModUnique(v - half, TWO_64, -1, v - half + TWO_64);
    }
  }

  /** Every result is a signed representative in [-2^(bw-1), 2^(bw-1)). */
  lemma ToI64Range(u: int, bw: nat)
    requires IsU64(u) && 1 <= bw <= 62
    ensures -Pow2(bw - 1) <= ToI64Value(u, bw) < Pow2(bw - 1)
  {
    ToI64Closed(u, bw);
  }

  /** The result is congruent to the input modulo 2^bw. */
  lemma ToI64Congruent(u: int, bw: nat)
    requires IsU64(u) && 1 <= bw <= 62
    ensures (ToI64Value(u, bw) - u) % Pow2(bw) == 0
  {
    ToI64Closed(u, bw);
    ShiftedRemainder(ToI64Value(u, bw), u, Pow2(bw - 1), Pow2(bw));
  }

  /** `(u + h) % m - h` is congruent to `u` modulo `m`. */
  lemma ShiftedRemainder(r: int, u: int, h: int, m: int)
    requires m > 0 && r == (u + h) % m - h
    ensures (r - u) % m == 0
  {
    SameRemainder(r - u, (u + h) % m - (u + h), m);
    RemainderCongruent(u + h, m);
  }

  /** Values below 2^(bw-1) come back unchanged. */
  lemma ToI64Identity(u: int, bw: nat)
    requires IsU64(u) && 1 <= bw <= 62 && u < Pow2(bw - 1)
    ensures ToI64Value(u, bw) == u
  {
    WidthFacts(bw);
    ToI64Closed(u, bw);
    DivModUnique(u + Pow2(bw - 1), Pow2(bw), 0, u + Pow2(bw - 1));
  }

  /** The `u64` encoding of an `i64` at or above -2^(bw-1) comes back as that `i64`. */
  lemma ToI64Negative(v: int, bw: nat)
    requires 1 <= bw <= 62 && -Pow2(bw - 1) <= v < 0
    ensures ToI64Value(U64(v), bw) == v
  {
    var half, m := Pow2(bw - 1), Pow2(bw);
    WidthFacts(bw);
    DivModUnique(v, TWO_64, -1, v + TWO_64);
    ToI64Closed(U64(v), bw);
    DivModUnique(v + TWO_64 + half, m, Pow2(64 - bw), v + half);
  }

  /**
   * The loop's promise over `s`: the first index of a maximum that is
   * larger than `INT_MIN`, or 0 when no element is.
   */
  predicate IsArgmax(s: seq<int>, k: nat)
  {
    if exists i :: 0 <= i < |s| && s[i] > INT_MIN then
      k < |s| && s[k] > INT_MIN &&
      (forall j :: 0 <= j < |s| ==> s[j] <= s[k]) &&
      (forall j :: 0 <= j < k ==> s[j] < s[k])
    else
      k == 0
  }

  /** The promise names one index. */
  lemma ArgmaxUnique(s: seq<int>, k1: nat, k2: nat)
    requires IsArgmax(s, k1) && IsArgmax(s, k2)
    ensures k1 == k2
  {
  }

  /** The argmax loop of `test_llamaNextWordLogits_ct` over the first `n_vocab` logits. */
  method Argmax(logits: array<int>, n_vocab: nat) returns (argmax: nat)
    requires n_vocab <= logits.Length
    ensures IsArgmax(logits[..n_vocab], argmax)
  {
    var max := INT_MIN;
    argmax := 0;
    var i := 0;
    while i < n_vocab
      invariant 0 <= i <= n_vocab
      invariant forall j :: 0 <= j < i ==> logits[j] <= max
      invariant max == INT_MIN ==> argmax == 0
      invariant max != INT_MIN ==> argmax < i && max == logits[argmax] > INT_MIN
      invariant forall j :: 0 <= j < argmax ==> logits[j] < max
    {
      if logits[i] > max {
        max := logits[i];
        argmax := i;
      }
      i := i + 1;
    }
    ghost var s := logits[..n_vocab];
    if exists j :: 0 <= j < |s| && s[j] > INT_MIN {
      var j :| 0 <= j < |s| && s[j] > INT_MIN;
      assert logits[j] <= max;
    }
  }
}
