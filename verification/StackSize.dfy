/** How large the stacks are that the library allocates, when part of the allocation is set aside for a
    saved context: the setjmp, ucontext and aarch64 platforms. Sizes are `size_t` and wrap around. */
module StackSize {
  import opened Sizes

  const ALIGNMENT := 64

  /** One more than the largest `size_t`. */
  predicate Width(m: int) { m == 0x1_0000_0000 || m == 0x1_0000_0000_0000_0000 }

  function Wrap(x: int, m: int): int
    requires m > 0
  {
    x % m
  }

  predicate Requested(request: int, default: int, reserve: int, m: int) {
    && Width(m) && 0 <= request < m
    && 0 < default < m && default % 64 == 0
    && 0 <= reserve <= m - 64
  }

  /** `reserve` bytes, rounded up. */
  predicate Padded(offset: int, reserve: int) {
    offset % 64 == 0 && reserve <= offset < reserve + 64
  }

  /** An allocation of `allocSize` bytes is what is granted, plus the padded reserve, wrapped. */
  ghost predicate Allocates(allocSize: int, request: int, default: int, reserve: int, m: int)
    requires m > 0
  {
    exists size, offset ::
      Granted(size, request, 64, default) && Padded(offset, reserve) && allocSize == Wrap(size + offset, m)
  }

  lemma WrapOnce(x: int, m: int)
    requires m > 0
    ensures 0 <= x < m ==> Wrap(x, m) == x
    ensures m <= x < 2 * m ==> Wrap(x, m) == x - m
    ensures -m <= x < 0 ==> Wrap(x, m) == x + m
  {
    if m <= x < 2 * m {
      Quotient(x, m, 1);
    } else if -m <= x < 0 {
      Quotient(x, m, -1);
    } else if 0 <= x < m {
      Quotient(x, m, 0);
    }
  }

  function RoundUp(x: int): int { if x % ALIGNMENT == 0 then x else x + (ALIGNMENT - x % ALIGNMENT) }

  lemma RoundedUp(x: int)
    ensures Padded(RoundUp(x), x)
  {
  }

  lemma OnePadding(a: int, b: int, reserve: int)
    requires Padded(a, reserve) && Padded(b, reserve)
    ensures a == b
  {
  }

  lemma SameRemainder(usable: int, reserve: int, m: int, size: int)
    requires Width(m) && usable % 64 == 0
    requires size == usable + reserve || size == usable + reserve - m
    ensures size % 64 == reserve % 64
  {
  }

  /** Rounding up after a sum has wrapped gives the same as rounding up before. */
  lemma RoundedAfterWrap(usable: int, reserve: int, m: int, size: int)
    requires Width(m) && 0 <= usable < m && usable % 64 == 0 && 0 <= reserve <= m - 64
    requires size == Wrap(usable + reserve, m)
    ensures Wrap(usable + RoundUp(reserve), m) ==
      if size % ALIGNMENT == 0 then size else Wrap(size + (ALIGNMENT - size % ALIGNMENT), m)
  {
    var pad := RoundUp(reserve) - reserve;
    WrapOnce(usable + reserve, m);
    SameRemainder(usable, reserve, m, size);
    RoundedUp(reserve);
    WrappedSums(usable + reserve, pad, m, size);
  }

  /** Wrapping once after two additions is the same as wrapping after each. */
  lemma WrappedSums(x: int, pad: int, m: int, size: int)
    requires m > 0 && 0 <= x < 2 * m && 0 <= pad && x + pad < 2 * m && size == (if x < m then x else x - m)
    ensures Wrap(x + pad, m) == Wrap(size + pad, m)
    ensures Wrap(size, m) == size
  {
    WrapOnce(x + pad, m);
    WrapOnce(size + pad, m);
    WrapOnce(size, m);
  }

  lemma GrantedSize(size: int, request: int, default: int, m: int)
    requires 0 <= request < m && 0 < default < m && default % 64 == 0 && Granted(size, request, 64, default)
    ensures 0 < size < m && size % 64 == 0
  {
  }

  /** The allocating constructors of setjmp and ucontext. */
  method AllocSize(request: int, default: int, reserve: int, m: int) returns (allocSize: int)
    requires Requested(request, default, reserve, m)
    ensures Allocates(allocSize, request, default, reserve, m)
  {
    allocSize := StackBytes(request, ALIGNMENT, default);
    ghost var size := allocSize;
    GrantedSize(size, request, default, m);
    allocSize := Wrap(allocSize + reserve, m);
    RoundedAfterWrap(size, reserve, m, allocSize);
    RoundedUp(reserve);
    if allocSize % ALIGNMENT != 0 {
      allocSize := Wrap(allocSize + (ALIGNMENT - allocSize % ALIGNMENT), m);
    }
    assert allocSize == Wrap(size + RoundUp(reserve), m);
  }

  /** That of aarch64, which sets aside 0x100 bytes. */
  method SaveAreaAllocSize(request: int, m: int) returns (allocSize: int)
    requires Width(m) && 0 <= request < m
    ensures Allocates(allocSize, request, 0x80000, 0x100, m)
  {
    allocSize := StackBytes(request, ALIGNMENT, 0x80000);
    ghost var size := allocSize;
    allocSize := Wrap(allocSize + 0x100, m);
    assert Padded(0x100, 0x100) && allocSize == Wrap(size + 0x100, m);
  }

  /** `Prepare`: the stack starts after the context, in a buffer of `size` bytes. */
  method PlaceStack(size: int, reserve: int, m: int) returns (offset: int, stackSize: int)
    requires Width(m) && 0 <= size < m && 0 <= reserve <= m - 64
    ensures Padded(offset, reserve) && stackSize == Wrap(size - offset, m)
  {
    offset := reserve;
    if offset % ALIGNMENT != 0 {
      offset := offset + (ALIGNMENT - offset % ALIGNMENT);
    }
    stackSize := Wrap(size - offset, m);
  }

  /** The context and the stack lie in a buffer of `size` bytes, one after the other. */
  predicate Fits(size: int, reserve: int, offset: int, stackSize: int) {
    0 <= reserve <= offset && 0 <= stackSize && offset + stackSize <= size
  }

  /** The stack that `Prepare` places in an allocation has the size that was granted; the two lie in the
      allocation, and fill it, if and only if their sum does not wrap. */
  lemma OwnedStack(allocSize: int, request: int, default: int, reserve: int, m: int, offset: int)
    requires Requested(request, default, reserve, m)
    requires Allocates(allocSize, request, default, reserve, m) && Padded(offset, reserve)
    ensures var stackSize := Wrap(allocSize - offset, m);
      && Granted(stackSize, request, 64, default)
      && (Fits(allocSize, reserve, offset, stackSize) <==> stackSize + offset < m)
      && (stackSize + offset < m ==> allocSize == offset + stackSize && allocSize % 64 == 0)
  {
    var size, padded :|
      Granted(size, request, 64, default) && Padded(padded, reserve) && allocSize == Wrap(size + padded, m);
    OnePadding(offset, padded, reserve);
    GrantedSize(size, request, default, m);
    BothAligned(size, offset);
    Placed(size, offset, reserve, m, allocSize);
  }

  lemma BothAligned(a: int, b: int)
    requires a % 64 == 0 && b % 64 == 0
    ensures (a + b) % 64 == 0
  {
  }

  /** A context of `offset` bytes and a stack of `usable` bytes in an allocation of their sum, wrapped. */
  lemma Placed(usable: int, offset: int, reserve: int, m: int, size: int)
    requires 0 < usable < m && 0 <= reserve <= offset < m + 64 && usable + offset < 2 * m
    requires size == Wrap(usable + offset, m)
    ensures Wrap(size - offset, m) == usable
    ensures Fits(size, reserve, offset, usable) <==> usable + offset < m
    ensures usable + offset < m ==> size == offset + usable
  {
    WrapOnce(usable + offset, m);
    WrapOnce(size - offset, m);
  }

  /** In a buffer that the caller supplies, the context and the stack fit if and only if the buffer is as
      large as the context, and there is a stack at all if it is larger; its size is not checked. */
  lemma SuppliedStack(size: int, reserve: int, m: int, offset: int)
    requires Width(m) && 0 <= size < m && 0 <= reserve <= m - 64 && Padded(offset, reserve)
    ensures var stackSize := Wrap(size - offset, m);
      && (Fits(size, reserve, offset, stackSize) <==> offset <= size)
      && (Fits(size, reserve, offset, stackSize) && 0 < stackSize <==> offset < size)
      && (offset <= size ==> stackSize == size - offset)
  {
    WrapOnce(size - offset, m);
  }

  /** The aarch64 platform needs no rounding: an allocation is always a multiple of 64, and has the size that
      was granted after the 0x100 bytes of the save area if and only if the sum does not wrap. */
  lemma SaveAreaStack(allocSize: int, request: int, m: int)
    requires Width(m) && 0 <= request < m && Allocates(allocSize, request, 0x80000, 0x100, m)
    ensures allocSize % 64 == 0
    ensures var size := Wrap(allocSize - 0x100, m);
      Granted(size, request, 64, 0x80000) && (allocSize == size + 0x100 <==> size + 0x100 < m)
  {
    var size, padded :|
      Granted(size, request, 64, 0x80000) && Padded(padded, 0x100) && allocSize == Wrap(size + padded, m);
    OnePadding(0x100, padded, 0x100);
    GrantedSize(size, request, 0x80000, m);
    BothAligned(size, 0x100);
    Placed(size, 0x100, 0x100, m, allocSize);
    WrapOnce(size + 0x100, m);
  }
}
