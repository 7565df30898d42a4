/** Which sizes of a caller's stack are accepted, and how large the library makes a stack of its own. */
module Sizes {

  type Positive = x: int | 0 < x witness 1

  function Multiple(n: int, alignment: Positive): int { n * alignment }

  /** `ValidateStackSize`, for the stack alignment of a platform. */
  predicate SizeAccepted(size: int, alignment: Positive) {
    size != 0 && size % alignment == 0
  }

  /** Accepted are exactly the multiples of the alignment, from the first. */
  lemma AcceptedIff(size: int, alignment: Positive)
    requires 0 <= size
    ensures SizeAccepted(size, alignment) <==> exists n :: 0 < n && size == Multiple(n, alignment)
  {
    if SizeAccepted(size, alignment) {
      assert size == Multiple(size / alignment, alignment);
      SignOf(size / alignment, alignment);
    }
    forall n | 0 < n && size == Multiple(n, alignment) ensures SizeAccepted(size, alignment) {
      SignOf(n, alignment);
      Quotient(size, alignment, n);
    }
  }

  lemma SignOf(n: int, alignment: Positive)
    ensures Multiple(n, alignment) > 0 <==> n > 0
  {
    if n > 0 { assert n * alignment >= alignment; } else { assert n * alignment <= 0; }
  }

  lemma Quotient(x: int, m: int, q: int)
    requires m > 0 && 0 <= x - m * q < m
    ensures x % m == x - m * q
  {
    var d := x / m - q;
    assert x % m == x - m * q - m * d;
    assert d == 0;
  }

  /** A stack of `size` bytes is what a caller who asks for `request` bytes gets: the largest multiple of
      the alignment that is not larger, or the default if that is nothing. */
  predicate Granted(size: int, request: int, alignment: Positive, default: int) {
    if request < alignment then size == default
    else size % alignment == 0 && request - alignment < size <= request
  }

  lemma Remainders(x: int, alignment: Positive)
    requires 0 <= x
    ensures 0 <= x % alignment < alignment && (x - x % alignment) % alignment == 0
    ensures x - x % alignment == 0 <==> x < alignment
  {
    var q := x / alignment;
    assert x - x % alignment == Multiple(q, alignment);
    SignOf(q, alignment);
    Quotient(x - x % alignment, alignment, q);
  }

  /** The constructors that allocate a stack. For a power of two, `request & ~(alignment - 1)` subtracts the
      remainder. */
  method StackBytes(request: int, alignment: Positive, default: int) returns (size: int)
    requires 0 <= request
    ensures Granted(size, request, alignment, default)
  {
    size := request - request % alignment;
    Remainders(request, alignment);
    size := if size != 0 then size else default;
  }
}
