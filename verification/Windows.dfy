/** The amd64 routines for the Windows calling convention, instruction by instruction. */
module Windows {
  import opened Machine
  import opened Backend
  import opened StackFrame

  const CONTEXT_TOP := 0x20
  const SWITCH := 0x2000

  /** A 128-bit register, as two words. */
  datatype Xmm = Xmm(lo: Word, hi: Word)

  /** The integer registers that a function must preserve. */
  datatype Integers = Integers(rbp: Word, rbx: Word, rdi: Word, rsi: Word, r12: Word, r13: Word, r14: Word, r15: Word) {

    function Low(): seq<Word> { [rbp, rbx, rdi, rsi] }

    function High(): seq<Word> { [r12, r13, r14, r15] }

    function Words(): (s: seq<Word>)
      ensures |s| == 8
    {
      Low() + High()
    }
  }

  /** The vector registers that a function must preserve. */
  datatype Vectors = Vectors(xmm6: Xmm, xmm7: Xmm, xmm8: Xmm, xmm9: Xmm, xmm10: Xmm,
                             xmm11: Xmm, xmm12: Xmm, xmm13: Xmm, xmm14: Xmm, xmm15: Xmm) {

    function Low(): seq<Word> {
      [xmm6.hi, xmm6.lo, xmm7.hi, xmm7.lo, xmm8.hi, xmm8.lo, xmm9.hi, xmm9.lo, xmm10.hi, xmm10.lo]
    }

    function High(): seq<Word> {
      [xmm11.hi, xmm11.lo, xmm12.hi, xmm12.lo, xmm13.hi, xmm13.lo, xmm14.hi, xmm14.lo, xmm15.hi, xmm15.lo]
    }

    function Words(): (s: seq<Word>)
      ensures |s| == 20
    {
      Low() + High()
    }
  }

  /** A 128-bit store below a run of pushes does what pushing its high and then its low word does. */
  lemma PushXmm(m: Memory, sp: int, vs: seq<Word>, x: Xmm)
    ensures var a := sp - 8 * |vs| - 16;
      PushAll(m, sp, vs + [x.hi, x.lo], 8) == PushAll(m, sp, vs, 8)[a := x.lo][a + 8 := x.hi]
  {
    assert vs + [x.hi, x.lo] == (vs + [x.hi]) + [x.lo];
    PushMore(m, sp, vs, x.hi, 8);
    PushMore(m, sp, vs + [x.hi], x.lo, 8);
  }

  lemma PopXmm(m: Memory, sp: int, n: nat)
    ensures PopAll(m, sp, n + 2, 8) == [m[sp + 8 * n + 8], m[sp + 8 * n]] + PopAll(m, sp, n, 8)
  {
    PopMore(m, sp, n, 8);
    PopMore(m, sp, n + 1, 8);
  }

  /** Two runs of pushes, one below the other. */
  lemma PushJoin(m: Memory, sp: int, a: seq<Word>, b: seq<Word>, w: int)
    ensures PushAll(m, sp, a + b, w) == PushAll(PushAll(m, sp, a, w), sp - w * |a|, b, w)
  {
    PushConcat(m, sp, a, b, w);
    BytesTimes(w, |a|);
  }

  /** Two runs of pops, the lower one first. */
  lemma {:induction false} PopConcat(m: Memory, sp: int, a: nat, b: nat, w: int)
    ensures PopAll(m, sp, a + b, w) == PopAll(m, sp + w * a, b, w) + PopAll(m, sp, a, w)
    decreases a
  {
    if a > 0 {
      PopConcat(m, sp + w, a - 1, b, w);
      assert sp + w + w * (a - 1) == sp + w * a;
    }
  }

  lemma PopJoin(m: Memory, sp: int, low: seq<Word>, high: seq<Word>)
    requires low == PopAll(m, sp, |low|, 8) && high == PopAll(m, sp + 8 * |low|, |high|, 8)
    ensures high + low == PopAll(m, sp, |high + low|, 8)
  {
    PopConcat(m, sp, |low|, |high|, 8);
  }

  lemma SetRbp(g: Integers, v: Vectors, x: Word)
    ensures (g.Words() + v.Words())[0] == g.rbp
    ensures g.(rbp := x).Words() + v.Words() == (g.Words() + v.Words())[0 := x]
  {
    assert g.(rbp := x).Low() == g.Low()[0 := x];
    assert g.(rbp := x).Words() == g.Words()[0 := x];
  }

  class Amd64 {
    var mem: Memory
    var rip: int
    var rsp: int
    var g: Integers
    var v: Vectors
    var rax: Word
    var rcx: Word
    var rdx: Word

    constructor (m: Memory)
      ensures mem == m
    {
      mem := m;
    }

    /** The registers that a function must preserve, as the words of the frame from the top down. */
    function Preserved(): (s: seq<Word>)
      reads this
      ensures |s| == 28
    {
      g.Words() + v.Words()
    }

    function Cpu(): Context
      reads this
    {
      Context(rip, rsp, Preserved())
    }

    /** `push word`, after `vs` have been pushed onto `m` from `sp`. */
    method Push(word: Word, ghost m: Memory, ghost sp: int, ghost vs: seq<Word>) returns (ghost vs': seq<Word>)
      requires rsp == sp - 8 * |vs| && mem == PushAll(m, sp, vs, 8)
      modifies this`mem, this`rsp
      ensures vs' == vs + [word] && rsp == sp - 8 * |vs'| && mem == PushAll(m, sp, vs', 8)
    {
      rsp := rsp - 8;
      mem := Write(mem, rsp, word);
      PushMore(m, sp, vs, word, 8);
      vs' := vs + [word];
    }

    /** `movdqu [rsp - off], x`, after `vs` have been stored onto `m` from `sp`. */
    method Store(off: int, x: Xmm, ghost m: Memory, ghost sp: int, ghost vs: seq<Word>) returns (ghost vs': seq<Word>)
      requires rsp - off == sp - 8 * |vs| - 16 && mem == PushAll(m, sp, vs, 8)
      modifies this`mem
      ensures vs' == vs + [x.hi, x.lo] && mem == PushAll(m, sp, vs', 8)
    {
      mem := Write(Write(mem, rsp - off, x.lo), rsp - off + 8, x.hi);
      PushXmm(m, sp, vs, x);
      vs' := vs + [x.hi, x.lo];
    }

    /** `pop`, after `vs` have been taken from `top` upwards. */
    method Pop(ghost top: int, ghost vs: seq<Word>) returns (word: Word, ghost vs': seq<Word>)
      requires rsp == top + 8 * |vs| && vs == PopAll(mem, top, |vs|, 8)
      modifies this`rsp
      ensures rsp == old(rsp) + 8 && vs' == [word] + vs && vs' == PopAll(old(mem), top, |vs'|, 8)
    {
      word := Load(mem, rsp);
      rsp := rsp + 8;
      PopMore(mem, top, |vs|, 8);
      vs' := [word] + vs;
    }

    /** `movdqu x, [rsp - off]`, after `vs` have been taken from `top` upwards. */
    method Take(off: int, ghost top: int, ghost vs: seq<Word>) returns (x: Xmm, ghost vs': seq<Word>)
      requires rsp - off == top + 8 * |vs| && vs == PopAll(mem, top, |vs|, 8)
      ensures x == Xmm(Load(mem, rsp - off), Load(mem, rsp - off + 8))
      ensures vs' == [x.hi, x.lo] + vs && vs' == PopAll(mem, top, |vs'|, 8)
    {
      x := Xmm(Load(mem, rsp - off), Load(mem, rsp - off + 8));
      PopXmm(mem, top, |vs|);
      vs' := [x.hi, x.lo] + vs;
    }

    method SaveLowIntegers()
      modifies this`mem, this`rsp
      ensures rsp == old(rsp) - 32 && mem == PushAll(old(mem), old(rsp), g.Low(), 8)
    {
      ghost var m, sp := mem, rsp;
      ghost var vs := Push(g.rbp, m, sp, []);
      vs := Push(g.rbx, m, sp, vs);
      vs := Push(g.rdi, m, sp, vs);
      vs := Push(g.rsi, m, sp, vs);
      assert vs == g.Low();
    }

    method SaveHighIntegers()
      modifies this`mem, this`rsp
      ensures rsp == old(rsp) - 32 && mem == PushAll(old(mem), old(rsp), g.High(), 8)
    {
      ghost var m, sp := mem, rsp;
      ghost var vs := Push(g.r12, m, sp, []);
      vs := Push(g.r13, m, sp, vs);
      vs := Push(g.r14, m, sp, vs);
      vs := Push(g.r15, m, sp, vs);
      assert vs == g.High();
    }

    method SaveLowVectors()
      modifies this`mem
      ensures mem == PushAll(old(mem), rsp, v.Low(), 8)
    {
      ghost var m := mem;
      ghost var vs := Store(0x10, v.xmm6, m, rsp, []);
      vs := Store(0x20, v.xmm7, m, rsp, vs);
      vs := Store(0x30, v.xmm8, m, rsp, vs);
      vs := Store(0x40, v.xmm9, m, rsp, vs);
      vs := Store(0x50, v.xmm10, m, rsp, vs);
      assert vs == v.Low();
    }

    method SaveHighVectors()
      modifies this`mem
      ensures mem == PushAll(old(mem), rsp - 0x50, v.High(), 8)
    {
      ghost var m, sp := mem, rsp - 0x50;
      ghost var vs := Store(0x60, v.xmm11, m, sp, []);
      vs := Store(0x70, v.xmm12, m, sp, vs);
      vs := Store(0x80, v.xmm13, m, sp, vs);
      vs := Store(0x90, v.xmm14, m, sp, vs);
      vs := Store(0xA0, v.xmm15, m, sp, vs);
      assert vs == v.High();
    }

    method SaveIntegers()
      modifies this`mem, this`rsp
      ensures rsp == old(rsp) - 64 && mem == PushAll(old(mem), old(rsp), g.Words(), 8)
    {
      SaveLowIntegers();
      SaveHighIntegers();
      PushJoin(old(mem), old(rsp), g.Low(), g.High(), 8);
    }

    /** The vector registers are stored below the stack pointer, which moves only afterwards. */
    method SaveVectors()
      modifies this`mem, this`rsp
      ensures rsp == old(rsp) - 0xA0 && mem == PushAll(old(mem), old(rsp), v.Words(), 8)
    {
      SaveLowVectors();
      SaveHighVectors();
      PushJoin(old(mem), rsp, v.Low(), v.High(), 8);
      rsp := rsp - 0xA0;
    }

    method SaveRegisters()
      modifies this`mem, this`rsp
      ensures rsp == old(rsp) - 224 && mem == PushAll(old(mem), old(rsp), g.Words() + v.Words(), 8)
    {
      SaveIntegers();
      SaveVectors();
      PushJoin(old(mem), old(rsp), g.Words(), v.Words(), 8);
    }

    /** The first half of `Switch(from, to)`, called with the arguments in `rcx` and `rdx`. */
    method SaveContext()
      modifies this`mem, this`rsp
      ensures rsp == old(rsp) - 224
      ensures mem == Write(PushAll(old(mem), old(rsp), g.Words() + v.Words(), 8), rcx + CONTEXT_TOP, rsp)
    {
      SaveRegisters();
      mem := Write(mem, rcx + CONTEXT_TOP, rsp);
    }

    method RestoreHighVectors(ghost top: int)
      requires rsp - 0xA0 == top
      modifies this`v
      ensures v.High() == PopAll(old(mem), top, |v.High()|, 8) && v.Low() == old(v.Low())
    {
      var xmm11, xmm12, xmm13, xmm14, xmm15;
      ghost var vs;
      xmm15, vs := Take(0xA0, top, []);
      xmm14, vs := Take(0x90, top, vs);
      xmm13, vs := Take(0x80, top, vs);
      xmm12, vs := Take(0x70, top, vs);
      xmm11, vs := Take(0x60, top, vs);
      v := v.(xmm11 := xmm11, xmm12 := xmm12, xmm13 := xmm13, xmm14 := xmm14, xmm15 := xmm15);
      assert vs == v.High();
    }

    method RestoreLowVectors(ghost top: int)
      requires rsp - 0x50 == top
      modifies this`v
      ensures v.Low() == PopAll(old(mem), top, |v.Low()|, 8) && v.High() == old(v.High())
    {
      var xmm6, xmm7, xmm8, xmm9, xmm10;
      ghost var vs;
      xmm10, vs := Take(0x50, top, []);
      xmm9, vs := Take(0x40, top, vs);
      xmm8, vs := Take(0x30, top, vs);
      xmm7, vs := Take(0x20, top, vs);
      xmm6, vs := Take(0x10, top, vs);
      v := v.(xmm6 := xmm6, xmm7 := xmm7, xmm8 := xmm8, xmm9 := xmm9, xmm10 := xmm10);
      assert vs == v.Low();
    }

    method RestoreHighIntegers(ghost top: int)
      requires rsp == top
      modifies this`rsp, this`g
      ensures rsp == top + 32 && g.High() == PopAll(old(mem), top, |g.High()|, 8) && g.Low() == old(g.Low())
    {
      var r12, r13, r14, r15;
      ghost var vs;
      r15, vs := Pop(top, []);
      r14, vs := Pop(top, vs);
      r13, vs := Pop(top, vs);
      r12, vs := Pop(top, vs);
      g := g.(r12 := r12, r13 := r13, r14 := r14, r15 := r15);
      assert vs == g.High();
    }

    method RestoreLowIntegers(ghost top: int)
      requires rsp == top
      modifies this`rsp, this`g
      ensures rsp == top + 32 && g.Low() == PopAll(old(mem), top, |g.Low()|, 8) && g.High() == old(g.High())
    {
      var rbp, rbx, rdi, rsi;
      ghost var vs;
      rsi, vs := Pop(top, []);
      rdi, vs := Pop(top, vs);
      rbx, vs := Pop(top, vs);
      rbp, vs := Pop(top, vs);
      g := g.(rbp := rbp, rbx := rbx, rdi := rdi, rsi := rsi);
      assert vs == g.Low();
    }

    method RestoreVectors(ghost top: int)
      requires rsp == top
      modifies this`rsp, this`v
      ensures rsp == top + 0xA0 && v.Words() == PopAll(old(mem), top, |v.Words()|, 8)
    {
      rsp := rsp + 0xA0;
      RestoreHighVectors(top);
      RestoreLowVectors(top + 80);
      PopJoin(mem, top, v.High(), v.Low());
    }

    method RestoreIntegers(ghost top: int)
      requires rsp == top
      modifies this`rsp, this`g
      ensures rsp == top + 64 && g.Words() == PopAll(old(mem), top, |g.Words()|, 8)
    {
      RestoreHighIntegers(top);
      RestoreLowIntegers(top + 32);
      PopJoin(mem, top, g.High(), g.Low());
    }

    method RestoreRegisters(ghost top: int)
      requires rsp == top
      modifies this`rsp, this`g, this`v
      ensures rsp == top + 224 && Preserved() == PopAll(old(mem), top, |Preserved()|, 8)
    {
      RestoreVectors(top);
      RestoreIntegers(top + 160);
      PopJoin(mem, top, v.Words(), g.Words());
    }

    /** The second half of `Switch(from, to)`. */
    method RestoreContext()
      modifies this`rip, this`rsp, this`g, this`v
      ensures var top := old(Load(mem, rdx + CONTEXT_TOP));
        Cpu() == Context(old(Load(mem, top + 224)), top + 232, PopAll(old(mem), top, WINDOWS.n, 8))
    {
      rsp := Load(mem, rdx + CONTEXT_TOP);
      RestoreRegisters(rsp);
      rip := Load(mem, rsp);
      rsp := rsp + 8;
    }

    method JumpToEntry()
      modifies this`rip, this`rsp, this`rax, this`rcx
      ensures rip == old(Load(mem, rsp)) && rcx == old(Load(mem, rsp + 8)) && rsp == old(rsp) + 16
    {
      rax := Load(mem, rsp);
      rsp := rsp + 8;
      rcx := Load(mem, rsp);
      rsp := rsp + 8;
      rip := rax;
    }

    method Call(target: int, back: int)
      modifies this`mem, this`rsp, this`rip
      ensures rsp == old(rsp) - 8 && mem == Write(old(mem), rsp, back) && rip == target
    {
      rsp := rsp - 8;
      mem := Write(mem, rsp, back);
      rip := target;
    }

    /** The call of `Switch` and its first half. */
    method Leave(from: Home, ghost m: Memory, ghost cpu: Context)
      requires rcx + CONTEXT_TOP == from.field
      requires m == mem && cpu == Context(rip, rsp, g.Words() + v.Words())
      modifies this`mem, this`rip, this`rsp
      ensures mem == StackFrame.Save(WINDOWS, m, cpu, from.field)
    {
      Call(SWITCH, rip);
      ghost var a := rsp;
      SaveContext();
      SaveBySteps(WINDOWS, m, cpu, from.field, 8, cpu.regs, rcx + CONTEXT_TOP, a, rsp, 224);
    }

    /** The state is `out`; `first` says whether the entry call runs, with an argument in `rcx`. */
    predicate Shows(out: Outcome, first: bool)
      reads this
    {
      mem == out.mem && Cpu() == out.cpu && out.arg == if first then rcx else NULL
    }

    /** The second half of `Switch`, up to where program code or the entry call runs. */
    method Enter(to: Home, ghost m: Memory) returns (first: bool)
      requires rdx + CONTEXT_TOP == to.field && m == mem
      modifies this`rip, this`rsp, this`g, this`v, this`rax, this`rcx
      ensures Shows(StackFrame.Restore(WINDOWS, m, to.field), first)
    {
      RestoreContext();
      RestoreBySteps(WINDOWS, mem, to.field, 224);
      first := rip == JUMP_TO_ENTRY;
      if first { JumpToEntry(); }
    }

    /** `Amd64::switchTo`: a call of `Switch(from, to)`. */
    method SwitchTo(from: Home, to: Home) returns (first: bool)
      modifies this
      ensures Shows(StackFrame.Switch(WINDOWS, old(mem), old(Cpu()), from, to), first)
    {
      ghost var m, cpu := mem, Cpu();
      rcx := from.field - CONTEXT_TOP;
      rdx := to.field - CONTEXT_TOP;
      Leave(from, m, cpu);
      first := Enter(to, StackFrame.Save(WINDOWS, m, cpu, from.field));
    }

    /** `Prepare`: builds the first frame of a cothread in its stack buffer. */
    method Prepare(h: Home, info: Word)
      modifies this`mem
      ensures mem == StackFrame.Prepare(WINDOWS, old(mem), h, info)
    {
      var size := h.stack.hi - h.stack.lo;
      var stack := h.stack.lo + (size - size % 16) - 8 * (4 + WINDOWS.n);
      ghost var base := stack;
      stack := stack - 8;
      mem := Write(mem, stack, ENTRY_RETURNED_STUB);
      stack := stack - 8;
      mem := Write(mem, stack, info);
      stack := stack - 8;
      mem := Write(mem, stack, DEREFERENCE_CALL_INFO);
      stack := stack - 8;
      mem := Write(mem, stack, JUMP_TO_ENTRY);
      ghost var bottom := stack;
      stack := Clear(stack);
      BytesTimes(8, WINDOWS.n);
      BytesTimes(8, WINDOWS.n + 4);
      PrepareBySteps(WINDOWS, old(mem), h, info, mem, base, bottom, stack);
      mem := Write(mem, h.field, stack);
    }

    /** The loop of `Prepare`: the region that the registers are loaded from is zero. */
    method Clear(start: int) returns (stack: int)
      modifies this`mem
      ensures stack == start - 8 * WINDOWS.n
      ensures mem == PushAll(old(mem), start, Zeros(WINDOWS.n), 8)
    {
      stack := start;
      for i := 0 to WINDOWS.n
        invariant stack == start - 8 * i
        invariant mem == PushAll(old(mem), start, Zeros(i), 8)
      {
        stack := stack - 8;
        mem := Write(mem, stack, 0);
        PushZero(old(mem), start, i, 8);
      }
    }

    /** Where `DereferenceCallInfo` returns to: 32 bytes are kept for the callee. */
    method EntryReturnedStub()
      modifies this`mem, this`rip, this`rsp, this`g
      ensures rsp == old(rsp) - 56 && rip == COTHREAD_RETURNED && g == old(g).(rbp := old(rsp) - 16)
      ensures mem == old(mem)[old(rsp) - 16 := old(g.rbp)][old(rsp) - 56 := ENTRY_RETURNED_STUB_END]
    {
      rsp := rsp - 8;
      rsp := rsp - 8;
      mem := Write(mem, rsp, g.rbp);
      g := g.(rbp := rsp);
      rsp := rsp - 0x20;
      Call(COTHREAD_RETURNED, ENTRY_RETURNED_STUB_END);
    }

    /** `DereferenceCallInfo` returns. */
    method EntryReturns()
      modifies this`mem, this`rip, this`rsp, this`g
      ensures var out := StackFrame.Finish(WINDOWS, old(mem), old(Cpu())); mem == out.mem && Cpu() == out.cpu
    {
      ghost var m, cpu := mem, Cpu();
      rip := Load(mem, rsp);
      rsp := rsp + 8;
      if rip == ENTRY_RETURNED_STUB {
        EntryReturnedStub();
        SetRbp(old(g), v, rsp + 40);
        FinishBySteps(WINDOWS, m, cpu, rsp + 40, rsp);
      }
    }
  }
}
