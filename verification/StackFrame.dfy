/** Context switching by a frame on the stack: the amd64 (System V and Windows) and x86 platforms. They
    differ in the word size, the number of saved words, and what follows the entry function. */
module StackFrame {
  import opened Machine
  import opened Coroutine
  import opened Backend
  import opened Sizes

  /** What runs when `DereferenceCallInfo` returns: a stub on the stack that keeps `shadow` bytes for its
      callee, or nothing because `DereferenceCallInfo` calls `CothreadReturned` itself. */
  datatype Ending = Stub(shadow: int) | Direct

  /** A platform with words of `w` bytes whose `Switch` saves `n` words. */
  datatype Platform = Platform(w: int, n: nat, ending: Ending)

  const SYSV := Platform(8, 6, Stub(0))
  const WINDOWS := Platform(8, 28, Stub(32))
  const X86 := Platform(4, 4, Direct)

  /** The bytes that `n` words of `w` bytes take. */
  function Bytes(w: int, n: nat): (b: int)
    ensures w > 0 ==> b >= n
    decreases n
  {
    if n == 0 then 0 else w + Bytes(w, n - 1)
  }

  /** What the frame layout needs of a platform. */
  predicate Sound(p: Platform) {
    && p.w > 0
    && Bytes(p.w, p.n + 4) % 16 == 0
    && (p.ending.Stub? ==>
          && p.w == 8 && 0 <= p.ending.shadow && p.ending.shadow % 16 == 0
          && p.ending.shadow + 24 <= Bytes(8, p.n + 4))
  }

  lemma {:induction false} BytesSum(w: int, a: nat, b: nat)
    ensures Bytes(w, a + b) == Bytes(w, a) + Bytes(w, b)
    decreases a
  {
    if a > 0 { BytesSum(w, a - 1, b); }
  }

  lemma MoreBytes(w: int, n: nat)
    ensures Bytes(w, n + 1) == Bytes(w, n) + w
    ensures Bytes(w, n + 3) == Bytes(w, n) + 3 * w
    ensures Bytes(w, n + 4) == Bytes(w, n) + 4 * w
    ensures Bytes(w, n + 5) == Bytes(w, n) + 5 * w
  {
    assert Bytes(w, n + 2) == Bytes(w, n) + 2 * w;
  }

  lemma {:induction false} BytesTimes(w: int, n: nat)
    ensures Bytes(w, n) == w * n
    decreases n
  {
    if n > 0 { BytesTimes(w, n - 1); }
  }

  lemma PlatformsSound()
    ensures Sound(SYSV) && Sound(WINDOWS) && Sound(X86)
  {
    BytesTimes(8, 10);
    BytesTimes(8, 32);
    BytesTimes(4, 8);
  }

  // ---------------------------------------------------------------------------------------------
  // Pushing and popping

  /** Memory after pushing `vs`, one by one, with the stack pointer at `sp`. */
  function PushAll(m: Memory, sp: int, vs: seq<Word>, w: int): Memory
    decreases |vs|
  {
    if vs == [] then m else PushAll(m[sp - w := vs[0]], sp - w, vs[1..], w)
  }

  /** The last `n` words pushed, in the order they were pushed. */
  function PopAll(m: Memory, sp: int, n: nat, w: int): (vs: seq<Word>)
    ensures |vs| == n
    decreases n
  {
    if n == 0 then [] else PopAll(m, sp + w, n - 1, w) + [m[sp]]
  }

  lemma {:induction false} PushOutside(m: Memory, sp: int, vs: seq<Word>, w: int, x: int)
    requires w > 0 && (x >= sp || x < sp - Bytes(w, |vs|))
    ensures PushAll(m, sp, vs, w)[x] == m[x]
    decreases |vs|
  {
    if vs != [] {
      assert Bytes(w, |vs|) == w + Bytes(w, |vs[1..]|);
      PushOutside(m[sp - w := vs[0]], sp - w, vs[1..], w, x);
    }
  }

  lemma {:induction false} PopDepends(m: Memory, m': Memory, sp: int, n: nat, w: int)
    requires w > 0 && forall x :: sp <= x < sp + Bytes(w, n) ==> m'[x] == m[x]
    ensures PopAll(m', sp, n, w) == PopAll(m, sp, n, w)
    decreases n
  {
    if n > 0 {
      PopDepends(m, m', sp + w, n - 1, w);
    }
  }

  lemma {:induction false} PopLast(m: Memory, sp: int, n: nat, w: int)
    requires n > 0
    ensures PopAll(m, sp, n, w) == [m[sp + Bytes(w, n - 1)]] + PopAll(m, sp, n - 1, w)
    decreases n
  {
    if n > 1 {
      PopLast(m, sp + w, n - 1, w);
      calc {
        PopAll(m, sp, n, w);
        PopAll(m, sp + w, n - 1, w) + [m[sp]];
        ([m[sp + Bytes(w, n - 1)]] + PopAll(m, sp + w, n - 2, w)) + [m[sp]];
        [m[sp + Bytes(w, n - 1)]] + (PopAll(m, sp + w, n - 2, w) + [m[sp]]);
        [m[sp + Bytes(w, n - 1)]] + PopAll(m, sp, n - 1, w);
      }
    }
  }

  /** Popping gives back what was pushed. */
  lemma {:induction false} PopPush(m: Memory, sp: int, vs: seq<Word>, w: int)
    requires w > 0
    ensures PopAll(PushAll(m, sp, vs, w), sp - Bytes(w, |vs|), |vs|, w) == vs
    decreases |vs|
  {
    if vs != [] {
      var rest, m1 := vs[1..], m[sp - w := vs[0]];
      var m', top := PushAll(m, sp, vs, w), sp - Bytes(w, |vs|);
      assert Bytes(w, |vs|) == w + Bytes(w, |rest|);
      PopPush(m1, sp - w, rest, w);
      PopLast(m', top, |vs|, w);
      assert top + Bytes(w, |vs| - 1) == sp - w;
      PushOutside(m1, sp - w, rest, w, sp - w);
    }
  }

  lemma {:induction false} PushConcat(m: Memory, sp: int, a: seq<Word>, b: seq<Word>, w: int)
    ensures PushAll(m, sp, a + b, w) == PushAll(PushAll(m, sp, a, w), sp - Bytes(w, |a|), b, w)
    decreases |a|
  {
    if a == [] {
      assert a + b == b;
    } else {
      assert (a + b)[1..] == a[1..] + b;
      PushConcat(m[sp - w := a[0]], sp - w, a[1..], b, w);
      assert sp - Bytes(w, |a|) == sp - w - Bytes(w, |a[1..]|);
    }
  }

  /** One more push. */
  lemma PushMore(m: Memory, sp: int, vs: seq<Word>, v: Word, w: int)
    ensures PushAll(m, sp, vs + [v], w) == PushAll(m, sp, vs, w)[sp - w * |vs| - w := v]
  {
    PushConcat(m, sp, vs, [v], w);
    PushOne(PushAll(m, sp, vs, w), sp - Bytes(w, |vs|), v, [], w);
    BytesTimes(w, |vs|);
    assert [v] + [] == [v];
  }

  /** One more pop. */
  lemma PopMore(m: Memory, sp: int, n: nat, w: int)
    ensures PopAll(m, sp, n + 1, w) == [m[sp + w * n]] + PopAll(m, sp, n, w)
  {
    PopLast(m, sp, n + 1, w);
    BytesTimes(w, n);
  }

  lemma PushOne(m: Memory, sp: int, v: Word, rest: seq<Word>, w: int)
    ensures PushAll(m, sp, [v] + rest, w) == PushAll(m[sp - w := v], sp - w, rest, w)
  {
    assert ([v] + rest)[1..] == rest;
  }

  // ---------------------------------------------------------------------------------------------
  // The routines

  function RoundDown16(x: int): int { x - x % 16 }

  function Zeros(n: nat): (z: seq<Word>)
    ensures |z| == n && forall i :: 0 <= i < n ==> z[i] == 0
  {
    seq(n, _ => 0)
  }

  /** The return address of the entry function's caller. */
  function Link(p: Platform): Word {
    match p.ending
    case Stub(_) => ENTRY_RETURNED_STUB
    case Direct => NULL
  }

  /** Memory after the call to `Switch` and its pushes. */
  function Pushed(p: Platform, m: Memory, cpu: Context): Memory {
    PushAll(m[cpu.sp - p.w := cpu.pc], cpu.sp - p.w, cpu.regs, p.w)
  }

  /** The saving half of `Switch`, from the call onwards. */
  function Save(p: Platform, m: Memory, cpu: Context, field: int): Memory {
    Pushed(p, m, cpu)[field := cpu.sp - p.w - Bytes(p.w, |cpu.regs|)]
  }

  /** The restoring half of `Switch`, its `ret`, and `JumpToEntry` if that is where it returns to. */
  function Restore(p: Platform, m: Memory, field: int): Outcome {
    var top := m[field];
    var regs := PopAll(m, top, p.n, p.w);
    var sp := top + Bytes(p.w, p.n);
    var pc := m[sp];
    if pc == JUMP_TO_ENTRY then
      Outcome(m, Context(m[sp + p.w], sp + 3 * p.w, regs), m[sp + 2 * p.w])
    else
      Outcome(m, Context(pc, sp + p.w, regs), NULL)
  }

  function Switch(p: Platform, m: Memory, cpu: Context, from: Home, to: Home): Outcome {
    Restore(p, Save(p, m, cpu, from.field), to.field)
  }

  /** `Save` as the stores that it is made of. */
  lemma SaveBySteps(p: Platform, m: Memory, cpu: Context, field: int, w: int, regs: seq<Word>, x: int, a: int, top: int,
                    size: int)
    requires w == p.w && regs == cpu.regs && x == field && a == cpu.sp - w
    requires size == w * |regs| && top == a - size
    ensures Save(p, m, cpu, field) == Write(PushAll(Write(m, a, cpu.pc), a, regs, w), x, top)
  {
    BytesTimes(w, |regs|);
  }

  /** `Restore` from a frame at `top` whose return address is at `sp`. */
  lemma RestoreAt(p: Platform, m: Memory, field: int, top: int, sp: int)
    requires m[field] == top && sp == top + Bytes(p.w, p.n)
    ensures var regs := PopAll(m, top, p.n, p.w);
      Restore(p, m, field) ==
        if m[sp] == JUMP_TO_ENTRY then Outcome(m, Context(m[sp + p.w], sp + 3 * p.w, regs), m[sp + 2 * p.w])
        else Outcome(m, Context(m[sp], sp + p.w, regs), NULL)
  {
  }

  /** The restoring half of `Switch`, with `size` bytes of saved registers. */
  lemma RestoreBySteps(p: Platform, m: Memory, field: int, size: int)
    requires size == p.w * p.n
    ensures var top := m[field]; var regs := PopAll(m, top, p.n, p.w);
      Restore(p, m, field) ==
        if m[top + size] == JUMP_TO_ENTRY then
          Outcome(m, Context(m[top + size + p.w], top + size + 3 * p.w, regs), m[top + size + 2 * p.w])
        else
          Outcome(m, Context(m[top + size], top + size + p.w, regs), NULL)
  {
    BytesTimes(p.w, p.n);
  }

  /** Where `Prepare` starts to push, above the space it sets aside. */
  function FrameBase(p: Platform, stack: Region): int {
    stack.lo + RoundDown16(stack.hi - stack.lo) - Bytes(p.w, p.n + 4)
  }

  function FirstFrame(p: Platform, info: Word): (f: seq<Word>)
    ensures |f| == p.n + 4
  {
    [Link(p), info] + ([DEREFERENCE_CALL_INFO, JUMP_TO_ENTRY] + Zeros(p.n))
  }

  function Prepare(p: Platform, m: Memory, h: Home, info: Word): Memory {
    var base := FrameBase(p, h.stack);
    PushAll(m, base, FirstFrame(p, info), p.w)[h.field := base - Bytes(p.w, p.n + 4)]
  }

  /** `AllocKernelThreadWrapper`: the saved stack pointer starts out null. */
  function Wrap(m: Memory, h: Home): Memory { m[h.field := NULL] }

  /** `DereferenceCallInfo` returns to the stub, which fixes the alignment and calls `CothreadReturned`,
      or makes that call itself. */
  function Finish(p: Platform, m: Memory, cpu: Context): Outcome {
    match p.ending
    case Direct => Outcome(m, cpu.(pc := COTHREAD_RETURNED), NULL)
    case Stub(shadow) =>
      if m[cpu.sp] != ENTRY_RETURNED_STUB then
        Outcome(m, Context(m[cpu.sp], cpu.sp + 8, cpu.regs), NULL)
      else
        // the return pops a word, the stub reserves one and pushes rbp
        var rbp := cpu.sp - 8;
        var sp := rbp - shadow - 8;
        Outcome(m[rbp := if cpu.regs == [] then NULL else cpu.regs[0]][sp := ENTRY_RETURNED_STUB_END],
                Context(COTHREAD_RETURNED, sp, if cpu.regs == [] then [] else cpu.regs[0 := rbp]), NULL)
  }

  /** `Finish` from a stub at `rbp`, with the stack pointer at `top` for the call. */
  lemma FinishBySteps(p: Platform, m: Memory, cpu: Context, rbp: int, top: int)
    requires p.ending.Stub? && m[cpu.sp] == ENTRY_RETURNED_STUB && cpu.regs != []
    requires rbp == cpu.sp - 8 && top == rbp - p.ending.shadow - 8
    ensures Finish(p, m, cpu) ==
      Outcome(Write(Write(m, rbp, cpu.regs[0]), top, ENTRY_RETURNED_STUB_END),
              Context(COTHREAD_RETURNED, top, cpu.regs[0 := rbp]), NULL)
  {
  }

  // ---------------------------------------------------------------------------------------------
  // The representation of cothreads

  /** Bytes that a saved context takes. */
  function FrameBytes(p: Platform): int { Bytes(p.w, p.n + 1) }

  predicate Room(p: Platform, h: Home, cpu: Context) {
    && |cpu.regs| == p.n
    && h.stack.lo <= cpu.sp - FrameBytes(p)
    && cpu.sp <= h.stack.hi
    && p.w > 0 && cpu.sp % p.w == 0
  }

  /** A stack that `Prepare` can use: aligned, and with room for the first frame. */
  predicate Admits(p: Platform, h: Home) {
    && h.stack.lo % 16 == 0
    && Bytes(p.w, 8 + 2 * p.n) <= h.stack.hi - h.stack.lo
    && h.root == FrameBase(p, h.stack) - p.w
  }

  /** A suspended cothread's context is on its stack, where its `stackTop` field points. */
  predicate Holds(p: Platform, m: Memory, h: Home, cpu: Context) {
    && m[h.field] == cpu.sp - FrameBytes(p)
    && m[cpu.sp - p.w] == cpu.pc
    && PopAll(m, cpu.sp - FrameBytes(p), p.n, p.w) == cpu.regs
    && |cpu.regs| == p.n && h.stack.lo <= cpu.sp - FrameBytes(p)
  }

  predicate Linked(p: Platform, m: Memory, h: Home) { h.stack.Has(h.root) && m[h.root] == Link(p) }

  /** Four words in memory, from the highest address down. */
  predicate Reads(m: Memory, base: int, w: int, a: Word, b: Word, c: Word, d: Word) {
    m[base - w] == a && m[base - 2 * w] == b && m[base - 3 * w] == c && m[base - 4 * w] == d
  }

  /** The first frame ends at `base`, and the `stackTop` field points to its start. */
  predicate PrimedAt(p: Platform, m: Memory, h: Home, info: Word, base: int, top: int) {
    && m[h.field] == top && h.stack.lo <= top && base <= h.stack.hi
    && PopAll(m, top, p.n, p.w) == Zeros(p.n)
    && Reads(m, base, p.w, Link(p), info, DEREFERENCE_CALL_INFO, JUMP_TO_ENTRY)
  }

  /** A prepared cothread has its first frame on its stack. */
  predicate Primed(p: Platform, m: Memory, h: Home, info: Word) {
    var base := h.root + p.w;
    PrimedAt(p, m, h, info, base, base - 4 * p.w - Bytes(p.w, p.n))
  }

  /** The state in which `DereferenceCallInfo` is entered: aligned as for a function that was called,
      with its caller's frame inside the stack and all callee-saved registers zero. */
  predicate CallEntry(p: Platform, h: Home, cpu: Context) {
    && cpu == Context(DEREFERENCE_CALL_INFO, h.root, Zeros(p.n))
    && (cpu.sp + p.w) % 16 == 0
    && h.root + Bytes(p.w, p.n + 5) <= h.stack.hi
  }

  /** The state in which `CothreadReturned` is entered: by the stub, aligned and with a frame pointer to
      the word that the stub has pushed; or from `DereferenceCallInfo`, with nothing changed. */
  predicate ReturnEntry(p: Platform, h: Home, regs: seq<Word>, cpu: Context) {
    if p.ending.Stub? then
      && (cpu.sp + p.w) % 16 == 0 && cpu.sp < h.root
      && cpu.regs == if regs == [] then [] else regs[0 := h.root - 8]
    else
      cpu.sp == h.root && cpu.regs == regs
  }

  ghost function Implementation(p: Platform): Backend {
    Backend((m: Memory, cpu, from, to) => Switch(p, m, cpu, from, to),
            (m: Memory, h, info) => Prepare(p, m, h, info),
            (m: Memory, h) => Wrap(m, h),
            (m: Memory, cpu, h) => Finish(p, m, cpu))
  }

  ghost function Representation(p: Platform): Spec {
    Spec(Limits((h, cpu) => Room(p, h, cpu), h => Admits(p, h), h => true),
         (m: Memory, h) => true,
         (m: Memory, h, cpu) => Holds(p, m, h, cpu),
         (m: Memory, h, info) => Primed(p, m, h, info),
         (m: Memory, h) => Linked(p, m, h),
         (h, cpu) => CallEntry(p, h, cpu),
         (h, regs, cpu) => ReturnEntry(p, h, regs, cpu))
  }

  // ---------------------------------------------------------------------------------------------
  // The contract

  lemma SaveOutside(p: Platform, m: Memory, cpu: Context, field: int, x: int, bottom: int)
    requires p.w > 0 && bottom == cpu.sp - p.w - Bytes(p.w, |cpu.regs|) && (x < bottom || cpu.sp <= x) && x != field
    ensures Save(p, m, cpu, field)[x] == m[x]
  {
    PushOutside(m[cpu.sp - p.w := cpu.pc], cpu.sp - p.w, cpu.regs, p.w, x);
  }

  lemma SavePrivate(p: Platform, m: Memory, cpu: Context, h: Home)
    requires Sound(p) && h.WellFormed() && Room(p, h, cpu)
    ensures OnlyPrivate(m, Save(p, m, cpu, h.field), h, cpu.sp)
  {
    var bottom := cpu.sp - p.w - Bytes(p.w, |cpu.regs|);
    forall x | !h.Private(cpu.sp, x) ensures Save(p, m, cpu, h.field)[x] == m[x] {
      SaveOutside(p, m, cpu, h.field, x, bottom);
    }
  }

  lemma FrameTop(p: Platform, sp: int)
    ensures sp - FrameBytes(p) == sp - p.w - Bytes(p.w, p.n)
  {
  }

  lemma PushedFrame(p: Platform, m: Memory, cpu: Context)
    requires p.w > 0
    ensures Pushed(p, m, cpu)[cpu.sp - p.w] == cpu.pc
    ensures PopAll(Pushed(p, m, cpu), cpu.sp - p.w - Bytes(p.w, |cpu.regs|), |cpu.regs|, p.w) == cpu.regs
  {
    var sp := cpu.sp - p.w;
    PushOutside(m[sp := cpu.pc], sp, cpu.regs, p.w, sp);
    PopPush(m[sp := cpu.pc], sp, cpu.regs, p.w);
  }

  lemma SaveHolds(p: Platform, m: Memory, cpu: Context, h: Home)
    requires Sound(p) && h.WellFormed() && Room(p, h, cpu)
    ensures Holds(p, Save(p, m, cpu, h.field), h, cpu)
  {
    PushedFrame(p, m, cpu);
    FrameTop(p, cpu.sp);
    HoldsAfterSave(p, Pushed(p, m, cpu), h, cpu, cpu.sp - FrameBytes(p), Bytes(p.w, p.n));
  }

  lemma HoldsAfterSave(p: Platform, m: Memory, h: Home, cpu: Context, top: int, size: int)
    requires p.w > 0 && size == Bytes(p.w, p.n) && top == cpu.sp - p.w - size && size >= 0
    requires |cpu.regs| == p.n && h.stack.lo <= top && cpu.sp <= h.stack.hi && !h.stack.Has(h.field)
    requires m[cpu.sp - p.w] == cpu.pc && PopAll(m, top, p.n, p.w) == cpu.regs
    ensures Holds(p, m[h.field := top], h, cpu)
  {
    FrameTop(p, cpu.sp);
    PopDepends(m, m[h.field := top], top, p.n, p.w);
  }

  lemma RestoreSaved(p: Platform, m: Memory, field: int, cpu: Context, top: int, at: int)
    requires at == cpu.sp - p.w && top == at - Bytes(p.w, p.n) && m[field] == top
    requires m[at] == cpu.pc && PopAll(m, top, p.n, p.w) == cpu.regs && UserCode(cpu.pc)
    ensures Restore(p, m, field) == Outcome(m, cpu, NULL)
  {
    RestoreAt(p, m, field, top, at);
  }

  lemma RestoreResumes(p: Platform, m: Memory, h: Home, cpu: Context)
    requires Sound(p) && Holds(p, m, h, cpu) && UserCode(cpu.pc)
    ensures Restore(p, m, h.field) == Outcome(m, cpu, NULL)
  {
    FrameTop(p, cpu.sp);
    RestoreSaved(p, m, h.field, cpu, cpu.sp - FrameBytes(p), cpu.sp - p.w);
  }

  lemma RestoreFirst(p: Platform, m: Memory, field: int, base: int, sp: int, top: int, a: Word, info: Word)
    requires p.w > 0 && sp == base - 4 * p.w && top == sp - Bytes(p.w, p.n) && m[field] == top
    requires PopAll(m, top, p.n, p.w) == Zeros(p.n)
    requires Reads(m, base, p.w, a, info, DEREFERENCE_CALL_INFO, JUMP_TO_ENTRY)
    ensures Restore(p, m, field) == Outcome(m, Context(DEREFERENCE_CALL_INFO, base - p.w, Zeros(p.n)), info)
  {
    RestoreAt(p, m, field, top, sp);
    assert sp + p.w == base - 3 * p.w && sp + 2 * p.w == base - 2 * p.w;
  }

  lemma RestorePrimed(p: Platform, m: Memory, h: Home, info: Word, base: int, sp: int)
    requires p.w > 0 && base == h.root + p.w && sp == base - 4 * p.w && Primed(p, m, h, info)
    ensures Restore(p, m, h.field) == Outcome(m, Context(DEREFERENCE_CALL_INFO, h.root, Zeros(p.n)), info)
  {
    RestoreFirst(p, m, h.field, base, sp, sp - Bytes(p.w, p.n), Link(p), info);
  }

  lemma RestoreEnters(p: Platform, m: Memory, h: Home, info: Word)
    requires Sound(p) && Primed(p, m, h, info) && Admits(p, h)
    ensures var out := Restore(p, m, h.field); out.mem == m && out.arg == info && CallEntry(p, h, out.cpu)
    ensures Linked(p, m, h)
  {
    var base := h.root + p.w;
    FirstFrameFits(p, h);
    RestorePrimed(p, m, h, info, base, base - 4 * p.w);
    PrimedLinked(p, m, h, info, base);
  }

  lemma PrimedLinked(p: Platform, m: Memory, h: Home, info: Word, base: int)
    requires p.w > 0 && base == h.root + p.w && Bytes(p.w, p.n) >= 0 && Primed(p, m, h, info)
    ensures Linked(p, m, h)
  {
    assert base - p.w == h.root;
  }

  lemma PushTwo(m: Memory, sp: int, x: int, y: int, a: Word, b: Word, rest: seq<Word>, w: int)
    requires x == sp - w && y == x - w
    ensures PushAll(m, sp, [a, b] + rest, w) == PushAll(Write(Write(m, x, a), y, b), y, rest, w)
  {
    assert [a, b] + rest == [a] + ([b] + rest);
    PushOne(m, sp, a, [b] + rest, w);
    PushOne(Write(m, x, a), x, b, rest, w);
  }

  /** One more step of the loop that clears the saved registers. */
  lemma PushZero(m: Memory, sp: int, i: nat, w: int)
    ensures PushAll(m, sp, Zeros(i + 1), w) == PushAll(m, sp, Zeros(i), w)[sp - w * i - w := 0]
  {
    assert Zeros(i + 1) == Zeros(i) + [0];
    PushMore(m, sp, Zeros(i), 0, w);
  }

  /** Memory with four words stored below `base`. */
  function Four(m: Memory, base: int, w: int, a: Word, b: Word, c: Word, d: Word): Memory {
    Write(Write(Write(Write(m, base - w, a), base - 2 * w, b), base - 3 * w, c), base - 4 * w, d)
  }

  lemma FourRead(m: Memory, base: int, w: int, a: Word, b: Word, c: Word, d: Word)
    requires w > 0
    ensures Reads(Four(m, base, w, a, b, c, d), base, w, a, b, c, d)
  {
  }

  lemma PushFour(m: Memory, base: int, bottom: int, w: int, a: Word, b: Word, c: Word, d: Word, zs: seq<Word>)
    requires bottom == base - 4 * w
    ensures PushAll(m, base, [a, b] + ([c, d] + zs), w) == PushAll(Four(m, base, w, a, b, c, d), bottom, zs, w)
  {
    var x, y := base - w, base - 2 * w;
    PushTwo(m, base, x, y, a, b, [c, d] + zs, w);
    PushTwo(Write(Write(m, x, a), y, b), y, base - 3 * w, bottom, c, d, zs, w);
  }

  /** The words above the saved registers in a first frame. */
  function FourWords(p: Platform, m: Memory, base: int, info: Word): Memory {
    Four(m, base, p.w, Link(p), info, DEREFERENCE_CALL_INFO, JUMP_TO_ENTRY)
  }

  lemma PrepareZeros(p: Platform, m: Memory, base: int, bottom: int, info: Word)
    requires bottom == base - 4 * p.w
    ensures PushAll(m, base, FirstFrame(p, info), p.w) == PushAll(FourWords(p, m, base, info), bottom, Zeros(p.n), p.w)
  {
    PushFour(m, base, bottom, p.w, Link(p), info, DEREFERENCE_CALL_INFO, JUMP_TO_ENTRY, Zeros(p.n));
  }

  lemma PushKeepsFour(m: Memory, base: int, bottom: int, w: int, a: Word, b: Word, c: Word, d: Word, vs: seq<Word>)
    requires w > 0 && bottom == base - 4 * w && Reads(m, base, w, a, b, c, d)
    ensures Reads(PushAll(m, bottom, vs, w), base, w, a, b, c, d)
  {
    forall x | x >= bottom ensures PushAll(m, bottom, vs, w)[x] == m[x] {
      PushOutside(m, bottom, vs, w, x);
    }
    ReadsKept(m, PushAll(m, bottom, vs, w), base, w, a, b, c, d);
  }

  /** Pushing `zs` below four words. */
  lemma FrameWritten(m: Memory, base: int, bottom: int, w: int, a: Word, b: Word, c: Word, d: Word, zs: seq<Word>)
    requires w > 0 && bottom == base - 4 * w && Reads(m, base, w, a, b, c, d)
    ensures Reads(PushAll(m, bottom, zs, w), base, w, a, b, c, d)
    ensures PopAll(PushAll(m, bottom, zs, w), bottom - Bytes(w, |zs|), |zs|, w) == zs
  {
    PushKeepsFour(m, base, bottom, w, a, b, c, d, zs);
    PopPush(m, bottom, zs, w);
  }

  lemma PrepareWrites(p: Platform, m: Memory, base: int, bottom: int, top: int, info: Word)
    requires p.w > 0 && bottom == base - 4 * p.w && top == bottom - Bytes(p.w, p.n)
    ensures var m' := PushAll(m, base, FirstFrame(p, info), p.w);
      && Reads(m', base, p.w, Link(p), info, DEREFERENCE_CALL_INFO, JUMP_TO_ENTRY)
      && PopAll(m', top, p.n, p.w) == Zeros(p.n)
  {
    PrepareZeros(p, m, base, bottom, info);
    FourRead(m, base, p.w, Link(p), info, DEREFERENCE_CALL_INFO, JUMP_TO_ENTRY);
    FrameWritten(FourWords(p, m, base, info), base, bottom, p.w, Link(p), info, DEREFERENCE_CALL_INFO, JUMP_TO_ENTRY,
                 Zeros(p.n));
  }

  lemma PrepareIs(p: Platform, m: Memory, h: Home, info: Word, base: int, top: int)
    requires base == FrameBase(p, h.stack) && top == base - 4 * p.w - Bytes(p.w, p.n)
    ensures Prepare(p, m, h, info) == Write(PushAll(m, base, FirstFrame(p, info), p.w), h.field, top)
  {
    MoreBytes(p.w, p.n);
  }

  /** `Prepare` in two steps: the four words, and the cleared registers below them. */
  lemma PrepareBySteps(p: Platform, m: Memory, h: Home, info: Word, m': Memory, base: int, bottom: int, top: int)
    requires base == FrameBase(p, h.stack) && bottom == base - 4 * p.w && top == bottom - Bytes(p.w, p.n)
    requires m' == PushAll(FourWords(p, m, base, info), bottom, Zeros(p.n), p.w)
    ensures Prepare(p, m, h, info) == Write(m', h.field, top)
  {
    PrepareZeros(p, m, base, bottom, info);
    PrepareIs(p, m, h, info, base, top);
  }

  /** Half the space for the frame is below its base, half above. */
  lemma BaseInside(lo: int, hi: int, half: int, base: int)
    requires lo % 16 == 0 && half % 16 == 0 && hi - lo >= 2 * half && base == lo + RoundDown16(hi - lo) - half
    ensures base % 16 == 0 && lo <= base - half && base + half <= hi
  {
    RoundDownKeeps(lo, hi - lo, half);
  }

  /** The space that `Prepare` uses lies inside the stack. */
  lemma FirstFrameFits(p: Platform, h: Home)
    requires Sound(p) && Admits(p, h)
    ensures var base := FrameBase(p, h.stack); var size := Bytes(p.w, p.n);
      && h.root == base - p.w && size >= 0
      && h.stack.lo <= base - 4 * p.w - size
      && h.root + Bytes(p.w, p.n + 5) <= h.stack.hi
      && (h.root + p.w) % 16 == 0
  {
    var half, base := Bytes(p.w, p.n + 4), FrameBase(p, h.stack);
    BytesSum(p.w, p.n + 4, p.n + 4);
    BaseInside(h.stack.lo, h.stack.hi, half, base);
    FrameParts(p);
    RootInside(h.stack, p.w, Bytes(p.w, p.n), half, base, h.root);
  }

  lemma RootInside(stack: Region, w: int, size: int, half: int, base: int, root: int)
    requires half == size + 4 * w && root == base - w && base % 16 == 0
    requires stack.lo <= base - half && base + half <= stack.hi
    ensures stack.lo <= base - 4 * w - size && root + (half + w) <= stack.hi && (root + w) % 16 == 0
  {
  }

  lemma FrameParts(p: Platform)
    ensures Bytes(p.w, p.n + 4) == Bytes(p.w, p.n) + 4 * p.w && Bytes(p.w, p.n + 5) == Bytes(p.w, p.n + 4) + p.w
  {
    MoreBytes(p.w, p.n);
  }

  lemma RoundDownKeeps(lo: int, bytes: int, half: int)
    requires lo % 16 == 0 && half % 16 == 0 && bytes >= 2 * half
    ensures RoundDown16(bytes) <= bytes && RoundDown16(bytes) >= 2 * half
    ensures (lo + RoundDown16(bytes) - half) % 16 == 0
  {
  }

  lemma PreparePrimes(p: Platform, m: Memory, h: Home, info: Word)
    requires Sound(p) && h.WellFormed() && Admits(p, h)
    ensures Primed(p, Prepare(p, m, h, info), h, info)
  {
    var base := FrameBase(p, h.stack);
    FirstFrameFits(p, h);
    PreparePrimesAt(p, m, h, info, base, base - 4 * p.w, base - 4 * p.w - Bytes(p.w, p.n));
  }

  lemma PreparePrimesAt(p: Platform, m: Memory, h: Home, info: Word, base: int, bottom: int, top: int)
    requires p.w > 0 && base == FrameBase(p, h.stack) && bottom == base - 4 * p.w && top == bottom - Bytes(p.w, p.n)
    requires h.root == base - p.w && h.stack.lo <= top && base <= h.stack.hi && !h.stack.Has(h.field)
    ensures Primed(p, Prepare(p, m, h, info), h, info)
  {
    PrepareWrites(p, m, base, bottom, top, info);
    PrepareIs(p, m, h, info, base, top);
    PrimedAfterWrites(p, PushAll(m, base, FirstFrame(p, info), p.w), Prepare(p, m, h, info), h, info, base, top);
    PrimedFrom(p, Prepare(p, m, h, info), h, info, base, top);
  }

  lemma PrimedFrom(p: Platform, m: Memory, h: Home, info: Word, base: int, top: int)
    requires h.root == base - p.w && top == base - 4 * p.w - Bytes(p.w, p.n) && PrimedAt(p, m, h, info, base, top)
    ensures Primed(p, m, h, info)
  {
    assert base == h.root + p.w;
  }

  lemma PrimedAfterWrites(p: Platform, m: Memory, m': Memory, h: Home, info: Word, base: int, top: int)
    requires p.w > 0 && top == base - 4 * p.w - Bytes(p.w, p.n) && !h.stack.Has(h.field)
    requires h.stack.lo <= top && base <= h.stack.hi
    requires Reads(m, base, p.w, Link(p), info, DEREFERENCE_CALL_INFO, JUMP_TO_ENTRY)
    requires PopAll(m, top, p.n, p.w) == Zeros(p.n)
    requires m' == m[h.field := top]
    ensures PrimedAt(p, m', h, info, base, top)
  {
    FrameKept(p, m, m', base, top, Link(p), info, DEREFERENCE_CALL_INFO, JUMP_TO_ENTRY);
  }

  /** Nothing happens to the words from `top` to `base`. */
  lemma FrameKept(p: Platform, m: Memory, m': Memory, base: int, top: int, a: Word, b: Word, c: Word, d: Word)
    requires p.w > 0 && top == base - 4 * p.w - Bytes(p.w, p.n)
    requires forall x | top <= x < base :: m'[x] == m[x]
    requires Reads(m, base, p.w, a, b, c, d)
    ensures Reads(m', base, p.w, a, b, c, d) && PopAll(m', top, p.n, p.w) == PopAll(m, top, p.n, p.w)
  {
    ReadsKept(m, m', base, p.w, a, b, c, d);
    PopDepends(m, m', top, p.n, p.w);
  }

  lemma ReadsKept(m: Memory, m': Memory, base: int, w: int, a: Word, b: Word, c: Word, d: Word)
    requires w > 0 && (forall x | base - 4 * w <= x < base :: m'[x] == m[x]) && Reads(m, base, w, a, b, c, d)
    ensures Reads(m', base, w, a, b, c, d)
  {
  }

  lemma PrepareOutside(p: Platform, m: Memory, h: Home, info: Word, x: int, base: int, bottom: int)
    requires p.w > 0 && base == FrameBase(p, h.stack) && bottom == base - Bytes(p.w, p.n + 4)
    requires (x < bottom || base <= x) && x != h.field
    ensures Prepare(p, m, h, info)[x] == m[x]
  {
    PushOutside(m, base, FirstFrame(p, info), p.w, x);
  }

  lemma PreparePrivate(p: Platform, m: Memory, h: Home, info: Word)
    requires Sound(p) && h.WellFormed() && Admits(p, h)
    ensures OnlyPrivate(m, Prepare(p, m, h, info), h, h.stack.hi)
  {
    var base := FrameBase(p, h.stack);
    var bottom := base - Bytes(p.w, p.n + 4);
    FirstFrameFits(p, h);
    FrameParts(p);
    assert h.stack.lo <= bottom && base <= h.stack.hi;
    forall x | !h.Private(h.stack.hi, x) ensures Prepare(p, m, h, info)[x] == m[x] {
      PrepareOutside(p, m, h, info, x, base, bottom);
    }
  }

  lemma FinishPrivate(p: Platform, m: Memory, cpu: Context, h: Home)
    requires p.ending.Stub? ==> 0 <= p.ending.shadow && h.stack.lo <= cpu.sp - 16 - p.ending.shadow
    requires cpu.sp == h.root
    ensures OnlyPrivate(m, Finish(p, m, cpu).mem, h, h.root)
  {
  }

  lemma FinishReturns(p: Platform, m: Memory, cpu: Context, h: Home)
    requires Sound(p) && h.WellFormed() && Admits(p, h) && Linked(p, m, h) && cpu.sp == h.root
    ensures var out := Finish(p, m, cpu);
      && out.cpu.pc == COTHREAD_RETURNED && h.stack.lo <= out.cpu.sp <= h.root
      && ReturnEntry(p, h, cpu.regs, out.cpu) && OnlyPrivate(m, out.mem, h, h.root)
  {
    FirstFrameFits(p, h);
    MoreBytes(p.w, p.n);
    if p.ending.Stub? { Multiples(h.root + p.w, p.ending.shadow); }
    FinishPrivate(p, m, cpu, h);
  }

  lemma Multiples(a: int, b: int)
    requires a % 16 == 0 && b % 16 == 0
    ensures (a - 16 - b) % 16 == 0
  {
  }

  lemma HoldsIsLocal(p: Platform, m: Memory, m': Memory, h: Home, cpu: Context)
    requires Sound(p) && SamePrivate(m, m', h, cpu.sp) && Holds(p, m, h, cpu)
    ensures Holds(p, m', h, cpu)
  {
    FrameTop(p, cpu.sp);
    PopDepends(m, m', cpu.sp - FrameBytes(p), p.n, p.w);
  }

  lemma PrimedAtIsLocal(p: Platform, m: Memory, m': Memory, h: Home, info: Word, base: int, top: int)
    requires p.w > 0 && top == base - 4 * p.w - Bytes(p.w, p.n)
    requires m'[h.field] == m[h.field] && forall x | h.stack.lo <= x < h.stack.hi :: m'[x] == m[x]
    requires PrimedAt(p, m, h, info, base, top)
    ensures PrimedAt(p, m', h, info, base, top)
  {
    FrameKept(p, m, m', base, top, Link(p), info, DEREFERENCE_CALL_INFO, JUMP_TO_ENTRY);
  }

  lemma PrimedIsLocal(p: Platform, m: Memory, m': Memory, h: Home, info: Word)
    requires Sound(p) && SamePrivate(m, m', h, h.stack.hi) && Primed(p, m, h, info)
    ensures Primed(p, m', h, info)
  {
    var base := h.root + p.w;
    var top := base - 4 * p.w - Bytes(p.w, p.n);
    forall x | h.stack.lo <= x < h.stack.hi || x == h.field ensures m'[x] == m[x] {
      assert h.Private(h.stack.hi, x);
    }
    assert PrimedAt(p, m, h, info, base, top);
    PrimedAtIsLocal(p, m, m', h, info, base, top);
    PrimedFrom(p, m', h, info, base, top);
  }

  lemma SaveCorrect(p: Platform, m: Memory, cpu: Context, h: Home)
    requires Sound(p) && CanSave(Representation(p), m, cpu, h)
    ensures Saved(Representation(p), m, Save(p, m, cpu, h.field), cpu, h)
  {
    SaveHolds(p, m, cpu, h);
    SavePrivate(p, m, cpu, h);
  }

  /** Saving one cothread does not disturb the frame of another. */
  lemma ResumeAfterSave(p: Platform, m: Memory, m': Memory, from: Home, sp: int, to: Home, cont: Context)
    requires Sound(p) && OnlyPrivate(m, m', from, sp) && sp <= from.stack.hi && from.Apart(to)
    requires Holds(p, m, to, cont) && UserCode(cont.pc) && cont.sp <= to.stack.hi
    ensures Restore(p, m', to.field) == Outcome(m', cont, NULL)
  {
    HoldsIsLocal(p, m, m', to, cont);
    RestoreResumes(p, m', to, cont);
  }

  lemma EnterAfterSave(p: Platform, m: Memory, m': Memory, from: Home, sp: int, to: Home, info: Word)
    requires Sound(p) && OnlyPrivate(m, m', from, sp) && sp <= from.stack.hi && from.Apart(to)
    requires Primed(p, m, to, info) && Admits(p, to) && !to.Wrapper()
    ensures var out := Restore(p, m', to.field);
      out.mem == m' && out.arg == info && CallEntry(p, to, out.cpu) && Linked(p, m', to)
  {
    PrimedIsLocal(p, m, m', to, info);
    RestoreEnters(p, m', to, info);
  }

  /** The switch to a suspended cothread, stated of the routine itself. */
  lemma SwitchBack(p: Platform, m: Memory, cpu: Context, from: Home, to: Home, cont: Context)
    requires Sound(p) && CanSave(Representation(p), m, cpu, from) && from.Apart(to)
    requires Holds(p, m, to, cont) && UserCode(cont.pc) && cont.sp <= to.stack.hi
    ensures var out := Switch(p, m, cpu, from, to);
      Saved(Representation(p), m, out.mem, cpu, from) && out.cpu == cont
  {
    SaveCorrect(p, m, cpu, from);
    ResumeAfterSave(p, m, Save(p, m, cpu, from.field), from, cpu.sp, to, cont);
  }

  lemma SwitchCorrect(p: Platform, m: Memory, cpu: Context, from: Home, to: Home, cont: Context)
    requires Sound(p)
    ensures SwitchOk(Implementation(p), Representation(p), m, cpu, from, to, cont)
  {
    if CanSave(Representation(p), m, cpu, from) && to.WellFormed() && from.Apart(to)
      && Holds(p, m, to, cont) && UserCode(cont.pc) && cont.sp <= to.stack.hi {
      SwitchBack(p, m, cpu, from, to, cont);
    }
  }

  lemma SelfSwitchCorrect(p: Platform, m: Memory, cpu: Context, h: Home)
    requires Sound(p)
    ensures SelfSwitchOk(Implementation(p), Representation(p), m, cpu, h)
  {
    if CanSave(Representation(p), m, cpu, h) {
      SaveCorrect(p, m, cpu, h);
      RestoreResumes(p, Save(p, m, cpu, h.field), h, cpu);
    }
  }

  /** The first switch to a prepared cothread, stated of the routine itself. */
  lemma FirstSwitch(p: Platform, m: Memory, cpu: Context, from: Home, to: Home, info: Word)
    requires Sound(p) && CanSave(Representation(p), m, cpu, from) && from.Apart(to)
    requires Primed(p, m, to, info) && Admits(p, to) && !to.Wrapper()
    ensures var out := Switch(p, m, cpu, from, to);
      && Saved(Representation(p), m, out.mem, cpu, from)
      && Linked(p, out.mem, to) && CallEntry(p, to, out.cpu) && out.arg == info
  {
    SaveCorrect(p, m, cpu, from);
    EnterAfterSave(p, m, Save(p, m, cpu, from.field), from, cpu.sp, to, info);
  }

  lemma FirstSwitchCorrect(p: Platform, m: Memory, cpu: Context, from: Home, to: Home, info: Word)
    requires Sound(p)
    ensures FirstSwitchOk(Implementation(p), Representation(p), m, cpu, from, to, info)
  {
    if CanSave(Representation(p), m, cpu, from) && to.WellFormed() && from.Apart(to)
      && Primed(p, m, to, info) && Admits(p, to) && !to.Wrapper() {
      FirstSwitch(p, m, cpu, from, to, info);
    }
  }

  lemma PrepareCorrect(p: Platform, m: Memory, h: Home, info: Word)
    requires Sound(p)
    ensures PrepareOk(Implementation(p), Representation(p), m, h, info)
  {
    if h.WellFormed() && Admits(p, h) {
      PreparePrimes(p, m, h, info);
      PreparePrivate(p, m, h, info);
    }
  }

  lemma FinishCorrect(p: Platform, m: Memory, cpu: Context, h: Home)
    requires Sound(p)
    ensures FinishOk(Implementation(p), Representation(p), m, cpu, h)
  {
    if h.WellFormed() && Admits(p, h) && Linked(p, m, h) && cpu.sp == h.root { FinishReturns(p, m, cpu, h); }
  }

  lemma RepresentationLocal(p: Platform)
    requires Sound(p)
    ensures Local(Representation(p))
  {
    var c := Representation(p);
    forall m, m', h, cont ensures HoldsLocal(c, m, m', h, cont) {
      if SamePrivate(m, m', h, cont.sp) && Holds(p, m, h, cont) { HoldsIsLocal(p, m, m', h, cont); }
    }
    forall m, m', h, info ensures PrimedLocal(c, m, m', h, info) {
      if SamePrivate(m, m', h, h.stack.hi) && Primed(p, m, h, info) { PrimedIsLocal(p, m, m', h, info); }
    }
  }

  /** Every platform of this kind meets the contract of a backend. */
  lemma ImplementationCorrect(p: Platform)
    requires Sound(p)
    ensures Correct(Implementation(p), Representation(p))
  {
    var b, c := Implementation(p), Representation(p);
    RepresentationLocal(p);
    forall m, cpu, from, to, cont
      ensures SwitchOk(b, c, m, cpu, from, to, cont)
    {
      SwitchCorrect(p, m, cpu, from, to, cont);
    }
    forall m, cpu, from, to, info
      ensures FirstSwitchOk(b, c, m, cpu, from, to, info)
    {
      FirstSwitchCorrect(p, m, cpu, from, to, info);
    }
    forall m, cpu, h ensures SelfSwitchOk(b, c, m, cpu, h) { SelfSwitchCorrect(p, m, cpu, h); }
    forall m, h, info ensures PrepareOk(b, c, m, h, info) { PrepareCorrect(p, m, h, info); }
    forall m, cpu, h ensures FinishOk(b, c, m, cpu, h) { FinishCorrect(p, m, cpu, h); }
  }

  // ---------------------------------------------------------------------------------------------
  // Which stacks are large enough

  /** Whatever was in memory before, `Prepare` only stores to words of the stack. */
  ghost predicate StaysInside(p: Platform, stack: Region) {
    forall m, info, x | !stack.Has(x) :: PushAll(m, FrameBase(p, stack), FirstFrame(p, info), p.w)[x] == m[x]
  }

  /** The last word that `Prepare` stores. */
  lemma LowestWord(p: Platform, m: Memory, base: int, info: Word)
    requires p.w > 0
    ensures var f := FirstFrame(p, info);
      PushAll(m, base, f, p.w)[base - Bytes(p.w, p.n + 4)] == f[p.n + 3]
  {
    var f := FirstFrame(p, info);
    var m', top := PushAll(m, base, f, p.w), base - Bytes(p.w, p.n + 4);
    PopPush(m, base, f, p.w);
    assert PopAll(m', top, p.n + 4, p.w) == f;
    assert PopAll(m', top, p.n + 4, p.w)[p.n + 3] == m'[top];
  }

  lemma LargeStackSuffices(p: Platform, stack: Region, m: Memory, info: Word, x: int)
    requires Sound(p) && Bytes(p.w, 8 + 2 * p.n) <= stack.hi - stack.lo && !stack.Has(x)
    ensures PushAll(m, FrameBase(p, stack), FirstFrame(p, info), p.w)[x] == m[x]
  {
    BytesSum(p.w, p.n + 4, p.n + 4);
    RoundDownKeeps(0, stack.hi - stack.lo, Bytes(p.w, p.n + 4));
    PushOutside(m, FrameBase(p, stack), FirstFrame(p, info), p.w, x);
  }

  lemma TopBelow(lo: int, hi: int, half: int, base: int)
    requires hi - lo < 2 * half && base == lo + RoundDown16(hi - lo) - half
    ensures base - half < lo
  {
  }

  lemma SmallStackOverflows(p: Platform, stack: Region, any: Memory, half: int, base: int, top: int)
    requires p.w > 0 && half == Bytes(p.w, p.n + 4) && base == FrameBase(p, stack) && top == base - half
    requires stack.hi - stack.lo < 2 * half
    ensures !StaysInside(p, stack)
  {
    TopBelow(stack.lo, stack.hi, half, base);
    Overwrites(p, stack, any, base, top, FirstFrame(p, 0)[p.n + 3]);
  }

  lemma Overwrites(p: Platform, stack: Region, any: Memory, base: int, top: int, last: Word)
    requires p.w > 0 && base == FrameBase(p, stack) && top == base - Bytes(p.w, p.n + 4) && !stack.Has(top)
    requires last == FirstFrame(p, 0)[p.n + 3]
    ensures !StaysInside(p, stack)
  {
    var m: Memory := any[top := last + 1];
    LowestWord(p, m, base, 0);
    assert PushAll(m, base, FirstFrame(p, 0), p.w)[top] != m[top];
  }

  /** `Prepare` stays inside a stack exactly if the stack has twice the frame's bytes; validation of the
      stack size does not ask for that. */
  lemma StaysInsideIff(p: Platform, stack: Region)
    requires Sound(p)
    ensures StaysInside(p, stack) <==> Bytes(p.w, 8 + 2 * p.n) <= stack.hi - stack.lo
  {
    if Bytes(p.w, 8 + 2 * p.n) <= stack.hi - stack.lo {
      forall m, info, x | !stack.Has(x) ensures PushAll(m, FrameBase(p, stack), FirstFrame(p, info), p.w)[x] == m[x] {
        LargeStackSuffices(p, stack, m, info, x);
      }
    } else {
      var any: Memory :| true;
      var half, base := Bytes(p.w, p.n + 4), FrameBase(p, stack);
      BytesSum(p.w, p.n + 4, p.n + 4);
      SmallStackOverflows(p, stack, any, half, base, base - half);
    }
  }

  /** The bytes that each platform needs. */
  lemma BytesNeeded()
    ensures Bytes(8, 8 + 2 * 6) == 160 && Bytes(8, 8 + 2 * 28) == 512 && Bytes(4, 8 + 2 * 4) == 64
  {
    BytesTimes(8, 8 + 2 * 6);
    BytesTimes(8, 8 + 2 * 28);
    BytesTimes(4, 8 + 2 * 4);
  }

  lemma StaysInsideBytes(p: Platform, stack: Region, bytes: int)
    requires Sound(p) && bytes == Bytes(p.w, 8 + 2 * p.n)
    ensures StaysInside(p, stack) <==> bytes <= stack.hi - stack.lo
  {
    StaysInsideIff(p, stack);
  }

  lemma SysVSizes(stack: Region)
    requires stack.lo <= stack.hi
    ensures var size := stack.hi - stack.lo;
      && (SizeAccepted(size, 64) && !StaysInside(SYSV, stack) <==> size == 64 || size == 128)
      && (SizeAccepted(size, 64) && StaysInside(SYSV, stack) <==> size % 64 == 0 && 192 <= size)
  {
    PlatformsSound();
    BytesNeeded();
    StaysInsideBytes(SYSV, stack, 160);
  }

  lemma WindowsSizes(stack: Region)
    requires stack.lo <= stack.hi
    ensures var size := stack.hi - stack.lo;
      && (SizeAccepted(size, 64) && !StaysInside(WINDOWS, stack) <==> size % 64 == 0 && 0 < size < 512)
      && (SizeAccepted(size, 64) && StaysInside(WINDOWS, stack) <==> size % 64 == 0 && 512 <= size)
  {
    PlatformsSound();
    BytesNeeded();
    StaysInsideBytes(WINDOWS, stack, 512);
  }

  lemma X86Sizes(stack: Region)
    requires stack.lo <= stack.hi
    ensures var size := stack.hi - stack.lo;
      && (SizeAccepted(size, 16) && !StaysInside(X86, stack) <==> size == 16 || size == 32 || size == 48)
      && (SizeAccepted(size, 16) && StaysInside(X86, stack) <==> size % 16 == 0 && 64 <= size)
  {
    PlatformsSound();
    BytesNeeded();
    StaysInsideBytes(X86, stack, 64);
  }

  /** Among the sizes that validation accepts, those that make `Prepare` leave the stack are exactly 64
      and 128 on System V, the multiples of 64 below 512 on Windows, and 16, 32 and 48 on x86. */
  lemma AcceptedButTooSmall(stack: Region)
    requires stack.lo <= stack.hi
    ensures var size := stack.hi - stack.lo;
      && (SizeAccepted(size, 64) && !StaysInside(SYSV, stack) <==> size == 64 || size == 128)
      && (SizeAccepted(size, 64) && !StaysInside(WINDOWS, stack) <==> size % 64 == 0 && 0 < size < 512)
      && (SizeAccepted(size, 16) && !StaysInside(X86, stack) <==> size == 16 || size == 32 || size == 48)
  {
    SysVSizes(stack);
    WindowsSizes(stack);
    X86Sizes(stack);
  }

  /** And every larger multiple of the alignment is accepted and used without leaving the stack. */
  lemma AcceptedAndLargeEnough(stack: Region)
    requires stack.lo <= stack.hi
    ensures var size := stack.hi - stack.lo;
      && (SizeAccepted(size, 64) && StaysInside(SYSV, stack) <==> size % 64 == 0 && 192 <= size)
      && (SizeAccepted(size, 64) && StaysInside(WINDOWS, stack) <==> size % 64 == 0 && 512 <= size)
      && (SizeAccepted(size, 16) && StaysInside(X86, stack) <==> size % 16 == 0 && 64 <= size)
  {
    SysVSizes(stack);
    WindowsSizes(stack);
    X86Sizes(stack);
  }

  /** The contract admits every aligned stack that `Prepare` does not leave. */
  lemma AdmitsIff(p: Platform, h: Home)
    requires Sound(p) && h.stack.lo % 16 == 0 && h.root == FrameBase(p, h.stack) - p.w
    ensures Admits(p, h) <==> StaysInside(p, h.stack)
  {
    StaysInsideIff(p, h.stack);
  }

  /** The allocating constructors do not validate at all: `Prepare` leaves the allocation for requests from
      64 to 191 bytes on System V, from 64 to 511 on Windows and from 16 to 63 on x86, and for no others. */
  lemma RequestTooSmall(stack: Region, request: int)
    requires 0 <= request
    ensures Granted(stack.hi - stack.lo, request, 64, 0x80000) ==>
      (!StaysInside(SYSV, stack) <==> 64 <= request < 192) && (!StaysInside(WINDOWS, stack) <==> 64 <= request < 512)
    ensures Granted(stack.hi - stack.lo, request, 16, 0x40000) ==>
      (!StaysInside(X86, stack) <==> 16 <= request < 64)
  {
    PlatformsSound();
    BytesNeeded();
    SmallRequests(stack.hi - stack.lo, request);
    StaysInsideBytes(SYSV, stack, 160);
    StaysInsideBytes(WINDOWS, stack, 512);
    StaysInsideBytes(X86, stack, 64);
  }

  lemma SmallRequests(size: int, request: int)
    requires 0 <= request
    ensures Granted(size, request, 64, 0x80000) ==>
      (size < 160 <==> 64 <= request < 192) && (size < 512 <==> 64 <= request < 512)
    ensures Granted(size, request, 16, 0x40000) ==> (size < 64 <==> 16 <= request < 64)
  {
  }

  lemma TwiceTheFrame(w: int, n: nat)
    ensures 2 * Bytes(w, n + 4) == w * (8 + 2 * n)
  {
    BytesTimes(w, n + 4);
    assert 2 * (w * (n + 4)) == w * (8 + 2 * n);
  }

  lemma HalfBelow(lo: int, hi: int, half: int, base: int, whole: int)
    requires base == lo + RoundDown16(hi - lo) - half && whole == 2 * half
    ensures base - half == lo + RoundDown16(hi - lo) - whole
  {
  }

  lemma TopStored(p: Platform, m: Memory, h: Home, info: Word, top: int)
    requires top == FrameBase(p, h.stack) - Bytes(p.w, p.n + 4)
    ensures Prepare(p, m, h, info)[h.field] == top
  {
  }

  /** Where a prepared cothread's `stackTop` points, for any buffer. */
  lemma StackTopAfterPrepare(p: Platform, m: Memory, h: Home, info: Word)
    ensures Prepare(p, m, h, info)[h.field] ==
      h.stack.lo + RoundDown16(h.stack.hi - h.stack.lo) - p.w * (8 + 2 * p.n)
  {
    var base, half := FrameBase(p, h.stack), Bytes(p.w, p.n + 4);
    TwiceTheFrame(p.w, p.n);
    HalfBelow(h.stack.lo, h.stack.hi, half, base, p.w * (8 + 2 * p.n));
    TopStored(p, m, h, info, base - half);
  }
}
