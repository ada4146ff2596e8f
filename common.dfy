/** Failure-compatible wrappers and the fixed-width integer ranges the Rust source uses. */
module Common {

  const U32_LIMIT: int := 0x1_0000_0000
  const U64_LIMIT: int := 0x1_0000_0000_0000_0000
  const U64_MAX: int := U64_LIMIT - 1

  /** Rust's `u32` and `u64`, as ranges of mathematical integers. */
  type u32 = x: int | 0 <= x < U32_LIMIT
  type u64 = x: int | 0 <= x < U64_LIMIT

  /** `b` raised to the power `e`. */
  function Pow(b: nat, e: nat): (r: nat)
    ensures b >= 1 ==> r >= 1
  {
    if e == 0 then 1 else b * Pow(b, e - 1)
  }

  datatype Option<+T> = None | Some(value: T)

  datatype Result<+T, +E> = Ok(value: T) | Err(error: E) {
    predicate IsFailure() { Err? }
    function PropagateFailure<U>(): Result<U, E> requires Err? { Err(error) }
    function Extract(): T requires Ok? { value }
  }

  /** The `i`-th value handed out by a counter that starts at `start` and wraps at 2^64. */
  function Wrapped(start: u64, i: nat): u64 {
    (start + i) % U64_LIMIT
  }

  lemma WrappedStep(start: u64, i: nat)
    ensures (Wrapped(start, i) + 1) % U64_LIMIT == Wrapped(start, i + 1)
  {
  }

  /** Fewer than 2^64 draws never repeat a value, wrapped or not. */
  lemma WrappedDistinct(start: u64, i: nat, j: nat)
    requires i < j < U64_LIMIT
    ensures Wrapped(start, i) != Wrapped(start, j)
  {
    var qi, qj := (start + i) / U64_LIMIT, (start + j) / U64_LIMIT;
    assert start + i == qi * U64_LIMIT + Wrapped(start, i);
    assert start + j == qj * U64_LIMIT + Wrapped(start, j);
    if Wrapped(start, i) == Wrapped(start, j) {
      assert false;
    }
  }

  /** Until the counter wraps, later draws are larger. */
  lemma WrappedIncreasing(start: u64, i: nat, j: nat)
    requires i < j && start + j < U64_LIMIT
    ensures Wrapped(start, i) < Wrapped(start, j)
  {
  }

  /** `s` holds the first `|s|` values of a counter that starts at `start`, in order. */
  predicate DrawnFrom(start: u64, s: seq<u64>) {
    forall k | 0 <= k < |s| :: s[k] == Wrapped(start, k)
  }

  lemma DrawnFromSnoc(start: u64, s: seq<u64>)
    requires DrawnFrom(start, s)
    ensures DrawnFrom(start, s + [Wrapped(start, |s|)])
  {
  }

  /** Fewer than 2^64 draws are pairwise distinct. */
  lemma DrawnDistinct(start: u64, s: seq<u64>)
    requires DrawnFrom(start, s) && |s| <= U64_LIMIT
    ensures Distinct(s)
  {
    forall i, j | 0 <= i < j < |s| ensures s[i] != s[j] {
      WrappedDistinct(start, i, j);
    }
  }

  /** Draws that stop before the counter wraps strictly increase. */
  lemma DrawnIncreasing(start: u64, s: seq<u64>)
    requires DrawnFrom(start, s) && start + |s| <= U64_LIMIT
    ensures forall i, j | 0 <= i < j < |s| :: s[i] < s[j]
  {
    forall i, j | 0 <= i < j < |s| ensures s[i] < s[j] {
      WrappedIncreasing(start, i, j);
    }
  }

  /** No element occurs twice. */
  predicate Distinct<T(==)>(s: seq<T>) {
    forall i, j | 0 <= i < j < |s| :: s[i] != s[j]
  }
}
