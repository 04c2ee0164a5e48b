/** Small value types and Python-semantics helpers shared by the whole model. */
module Common {

  /** Python's None, or a value. */
  datatype Option<+T> = None | Some(value: T)

  /** The kinds of exception the modelled code can raise. */
  datatype Error =
    | AssertionError     // a failed `assert` (edit construction)
    | IndexError         // a list index outside the list
    | ValueError         // a random draw with an empty range
    | CvError            // an OpenCV assertion (empty resize)
    | StopIteration      // `next` on a generator that yields nothing
    | RuntimeError       // a StopIteration escaping a generator body (PEP 479)
    | ZeroDivisionError  // a true division by zero
    | KeyError           // a dictionary lookup of a missing key
    | NotImplemented     // NotImplementedError
    | AttributeError     // an attribute read on None (an image OpenCV could not decode)

  /** A computation that either returns a value or raises. */
  datatype Result<+T> = Ok(value: T) | Err(error: Error)

  /** numpy's uint8. */
  type U8 = x: int | 0 <= x < 256

  /** `list(range(n))`. */
  function Range(n: nat): (r: seq<int>)
    ensures |r| == n
    ensures forall k :: 0 <= k < n ==> r[k] == k
  {
    seq(n, k => k)
  }

  /** Python's `s[i]` on a list, where a negative index counts from the end. */
  function PyIndex<T>(s: seq<T>, i: int): (r: Option<T>)
    ensures r.Some? <==> -|s| <= i < |s|
    ensures 0 <= i < |s| ==> r == Some(s[i])
    ensures -|s| <= i < 0 ==> r == Some(s[|s| + i])
  {
    if 0 <= i < |s| then Some(s[i])
    else if -|s| <= i < 0 then Some(s[|s| + i])
    else None
  }

  /** One end of a Python slice `[a:b]` on a dimension of length n, clamped
      into [0, n] after a negative value has been counted from the end. */
  function SliceEnd(a: int, n: nat): (r: nat)
    ensures r <= n
    ensures 0 <= a <= n ==> r == a
    ensures a + n < 0 ==> r == 0
    ensures n < a ==> r == n
  {
    if a < 0 then (if a + n < 0 then 0 else a + n)
    else if a > n then n
    else a
  }

  /** The half-open range of positions that the Python slice `[a:b]` selects
      in a dimension of length n (empty when the bounds cross). */
  function PySlice(a: int, b: int, n: nat): (r: (nat, nat))
    ensures r.0 <= r.1 <= n
    ensures 0 <= a <= b <= n ==> r == (a, b)
  {
    var lo := SliceEnd(a, n);
    var hi := SliceEnd(b, n);
    if hi < lo then (lo, lo) else (lo, hi)
  }

  /** Python's substring test `t in s`. */
  predicate Contains(s: string, t: string)
    decreases |s|
  {
    |t| <= |s| && (s[..|t|] == t || Contains(s[1..], t))
  }

  /** t occurs in s at position i. */
  predicate OccursAt(s: string, t: string, i: nat) {
    i + |t| <= |s| && s[i..i + |t|] == t
  }

  /** t cannot start at the front of s when they differ at position j, so
      `t in s` is decided by the rest of s. */
  lemma ContainsSkip(s: string, t: string, j: nat)
    requires j < |t| <= |s| && s[j] != t[j]
    ensures Contains(s, t) == Contains(s[1..], t)
  {
    assert s[..|t|][j] == s[j];
  }

  /** `t in s` holds exactly when t occurs at some position of s. */
  lemma {:induction false} ContainsIffOccurs(s: string, t: string)
    ensures Contains(s, t) <==> exists i: nat :: OccursAt(s, t, i)
    decreases |s|
  {
    if |t| <= |s| {
      if s[..|t|] == t {
        assert OccursAt(s, t, 0);
      } else {
        ContainsIffOccurs(s[1..], t);
        if Contains(s[1..], t) {
          var i: nat :| OccursAt(s[1..], t, i);
          assert s[i + 1..i + 1 + |t|] == s[1..][i..i + |t|];
          assert OccursAt(s, t, i + 1);
        }
        if exists i: nat :: OccursAt(s, t, i) {
          var i: nat :| OccursAt(s, t, i);
          assert i != 0 by {
            assert s[..|t|] == s[0..0 + |t|];
          }
          assert s[1..][i - 1..i - 1 + |t|] == s[i..i + |t|];
          assert OccursAt(s[1..], t, i - 1);
        }
      }
    }
  }

  /** The integer square root, rounded down. */
  function FloorSqrt(x: nat): (r: nat)
    ensures r * r <= x < (r + 1) * (r + 1)
  {
    if x == 0 then 0
    else
      var r := FloorSqrt(x - 1);
      if (r + 1) * (r + 1) <= x then r + 1 else r
  }

  /** The integer square root is the only integer whose square brackets x. */
  lemma FloorSqrtUnique(x: nat, n: nat)
    requires n * n <= x < (n + 1) * (n + 1)
    ensures n == FloorSqrt(x)
  {
    var r := FloorSqrt(x);
    SquareLess(n, r + 1);
    SquareLess(r, n + 1);
  }

  /** Squaring is monotone on naturals, stated contrapositively. */
  lemma SquareLess(a: nat, b: nat)
    ensures a * a < b * b ==> a < b
  {
    if b <= a {
      assert b * b <= a * b <= a * a;
    }
  }

  /** Squaring is strictly monotone on naturals. */
  lemma SquareMono(a: nat, b: nat)
    ensures a < b ==> a * a < b * b
  {
    if a < b {
      assert a * a <= a * b < b * b;
    }
  }

  /** Multiplying by a natural keeps an order. */
  lemma MulMono(a: nat, b: nat, c: nat)
    ensures a <= b ==> a * c <= b * c
  {
    if a <= b {
      assert b * c - a * c == (b - a) * c;
    }
  }

  /** Multiplying by a positive natural keeps a strict order. */
  lemma MulMonoStrict(a: nat, b: nat, c: nat)
    ensures a < b && c > 0 ==> a * c < b * c
  {
    if a < b && c > 0 {
      assert b * c - a * c == (b - a) * c;
    }
  }

  /** q <= x / w bounds q * w by x. */
  lemma DivMulLe(q: nat, x: nat, w: nat)
    requires w > 0 && q <= x / w
    ensures q * w <= x
  {
    MulMono(q, x / w, w);
    assert x == (x / w) * w + x % w;
  }

  /** q > x / w makes q * w exceed x. */
  lemma DivMulGt(q: nat, x: nat, w: nat)
    requires w > 0 && q > x / w
    ensures q * w > x
  {
    MulMono(x / w + 1, q, w);
    assert x == (x / w) * w + x % w;
    assert (x / w + 1) * w == (x / w) * w + w;
  }

  /** A quotient is positive exactly when the divisor fits into the dividend. */
  lemma DivPositive(x: nat, w: nat)
    requires w > 0
    ensures x / w >= 1 <==> w <= x
  {
    if x / w >= 1 {
      DivMulLe(1, x, w);
    } else {
      DivMulGt(1, x, w);
    }
  }
}
