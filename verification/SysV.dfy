/** The amd64 routines for the System V calling convention, instruction by instruction. */
module SysV {
  import opened Machine
  import opened Backend
  import opened StackFrame

  /** The offset of the `stackTop` field in an implementation object. */
  const CONTEXT_TOP := 0x20

  /** The address of `Switch`. */
  const SWITCH := 0x1000

  /** The registers that a function must preserve. */
  datatype Registers = Registers(rbp: Word, rbx: Word, r12: Word, r13: Word, r14: Word, r15: Word) {

    /** In the order `Switch` saves them. */
    function Words(): (s: seq<Word>)
      ensures |s| == 6
    {
      [rbp, rbx, r12, r13, r14, r15]
    }
  }

  class Amd64 {
    var mem: Memory
    var rip: int
    var rsp: int
    var g: Registers
    var rax: Word
    var rdi: Word
    var rsi: Word

    constructor (m: Memory)
      ensures mem == m
    {
      mem := m;
    }

    function Cpu(): Context
      reads this
    {
      Context(rip, rsp, g.Words())
    }

    /** `push word`, after `vs` have been pushed onto `m` from `sp`. */
    method Push(word: Word, ghost m: Memory, ghost sp: int, ghost vs: seq<Word>) returns (ghost vs': seq<Word>)
      requires rsp == sp - 8 * |vs| && mem == PushAll(m, sp, vs, 8)
      modifies this`mem, this`rsp
      ensures vs' == vs + [word] && rsp == sp - 8 * |vs'| && mem == PushAll(m, sp, vs', 8)
    {
      rsp := rsp - 8;
      mem := Write(mem, rsp, word);
      PushMore(m, sp, vs, word, 8);
      vs' := vs + [word];
    }

    /** `pop`, after `vs` have been taken from `top` upwards. */
    method Pop(ghost top: int, ghost vs: seq<Word>) returns (word: Word, ghost vs': seq<Word>)
      requires rsp == top + 8 * |vs| && vs == PopAll(mem, top, |vs|, 8)
      modifies this`rsp
      ensures rsp == old(rsp) + 8 && vs' == [word] + vs && vs' == PopAll(old(mem), top, |vs'|, 8)
    {
      word := Load(mem, rsp);
      rsp := rsp + 8;
      PopMore(mem, top, |vs|, 8);
      vs' := [word] + vs;
    }

    method Call(target: int, back: int)
      modifies this`mem, this`rsp, this`rip
      ensures rsp == old(rsp) - 8 && mem == Write(old(mem), rsp, back) && rip == target
    {
      rsp := rsp - 8;
      mem := Write(mem, rsp, back);
      rip := target;
    }

    method Ret()
      modifies this`rsp, this`rip
      ensures rip == old(Load(mem, rsp)) && rsp == old(rsp) + 8
    {
      rip := Load(mem, rsp);
      rsp := rsp + 8;
    }

    method SaveRegisters()
      modifies this`mem, this`rsp
      ensures rsp == old(rsp) - 48 && mem == PushAll(old(mem), old(rsp), g.Words(), 8)
    {
      ghost var m, sp := mem, rsp;
      ghost var vs := Push(g.rbp, m, sp, []);
      vs := Push(g.rbx, m, sp, vs);
      vs := Push(g.r12, m, sp, vs);
      assert vs == [g.rbp, g.rbx, g.r12];
      vs := Push(g.r13, m, sp, vs);
      vs := Push(g.r14, m, sp, vs);
      vs := Push(g.r15, m, sp, vs);
      assert vs == g.Words();
    }

    method RestoreRegisters()
      modifies this`rsp, this`g
      ensures rsp == old(rsp) + 48 && g.Words() == PopAll(old(mem), old(rsp), |g.Words()|, 8)
    {
      ghost var top := rsp;
      var rbp, rbx, r12, r13, r14, r15;
      ghost var vs;
      r15, vs := Pop(top, []);
      r14, vs := Pop(top, vs);
      r13, vs := Pop(top, vs);
      r12, vs := Pop(top, vs);
      rbx, vs := Pop(top, vs);
      rbp, vs := Pop(top, vs);
      g := Registers(rbp, rbx, r12, r13, r14, r15);
      assert vs == g.Words();
    }

    /** The first half of `Switch(from, to)`, called with the arguments in `rdi` and `rsi`. */
    method SaveContext(ghost regs: seq<Word>)
      requires regs == g.Words()
      modifies this`mem, this`rsp
      ensures rsp == old(rsp) - 48
      ensures mem == Write(PushAll(old(mem), old(rsp), regs, 8), rdi + CONTEXT_TOP, rsp)
    {
      SaveRegisters();
      mem := Write(mem, rdi + CONTEXT_TOP, rsp);
    }

    /** The second half of `Switch(from, to)`. */
    method RestoreContext()
      modifies this`rip, this`rsp, this`g
      ensures var top := old(Load(mem, rsi + CONTEXT_TOP));
        Cpu() == Context(old(Load(mem, top + 48)), top + 56, PopAll(old(mem), top, SYSV.n, 8))
    {
      rsp := Load(mem, rsi + CONTEXT_TOP);
      RestoreRegisters();
      Ret();
    }

    method JumpToEntry()
      modifies this`rip, this`rsp, this`rax, this`rdi
      ensures rip == old(Load(mem, rsp)) && rdi == old(Load(mem, rsp + 8)) && rsp == old(rsp) + 16
    {
      rax := Load(mem, rsp);
      rsp := rsp + 8;
      rdi := Load(mem, rsp);
      rsp := rsp + 8;
      rip := rax;
    }

    /** The call of `Switch` and its first half. */
    method Leave(from: Home, ghost m: Memory, ghost cpu: Context)
      requires rdi + CONTEXT_TOP == from.field
      requires m == mem && cpu == Context(rip, rsp, g.Words())
      modifies this`mem, this`rip, this`rsp
      ensures mem == StackFrame.Save(SYSV, m, cpu, from.field)
    {
      Call(SWITCH, rip);
      ghost var a := rsp;
      SaveContext(cpu.regs);
      SaveBySteps(SYSV, m, cpu, from.field, 8, cpu.regs, rdi + CONTEXT_TOP, a, rsp, 48);
    }

    /** The state is `out`; `first` says whether the entry call runs, with an argument in `rdi`. */
    predicate Shows(out: Outcome, first: bool)
      reads this
    {
      mem == out.mem && Cpu() == out.cpu && out.arg == if first then rdi else NULL
    }

    /** The second half of `Switch`, up to where program code or the entry call runs. */
    method Enter(to: Home, ghost m: Memory) returns (first: bool)
      requires rsi + CONTEXT_TOP == to.field && m == mem
      modifies this`rip, this`rsp, this`g, this`rax, this`rdi
      ensures Shows(StackFrame.Restore(SYSV, m, to.field), first)
    {
      RestoreContext();
      RestoreBySteps(SYSV, mem, to.field, 48);
      first := rip == JUMP_TO_ENTRY;
      if first { JumpToEntry(); }
    }

    /** `Amd64::switchTo`: a call of `Switch(from, to)`. */
    method SwitchTo(from: Home, to: Home) returns (first: bool)
      modifies this
      ensures Shows(StackFrame.Switch(SYSV, old(mem), old(Cpu()), from, to), first)
    {
      ghost var m, cpu := mem, Cpu();
      rdi := from.field - CONTEXT_TOP;
      rsi := to.field - CONTEXT_TOP;
      Leave(from, m, cpu);
      first := Enter(to, StackFrame.Save(SYSV, m, cpu, from.field));
    }

    /** `Prepare`: builds the first frame of a cothread in its stack buffer. */
    method Prepare(h: Home, info: Word)
      modifies this`mem
      ensures mem == StackFrame.Prepare(SYSV, old(mem), h, info)
    {
      var size := h.stack.hi - h.stack.lo;
      var stack := h.stack.lo + (size - size % 16) - 8 * (4 + SYSV.n);
      ghost var base := stack;
      stack := stack - 8;
      mem := Write(mem, stack, ENTRY_RETURNED_STUB);
      stack := stack - 8;
      mem := Write(mem, stack, info);
      stack := stack - 8;
      mem := Write(mem, stack, DEREFERENCE_CALL_INFO);
      stack := stack - 8;
      mem := Write(mem, stack, JUMP_TO_ENTRY);
      ghost var bottom := stack;
      stack := Clear(stack);
      BytesTimes(8, SYSV.n);
      BytesTimes(8, SYSV.n + 4);
      PrepareBySteps(SYSV, old(mem), h, info, mem, base, bottom, stack);
      mem := Write(mem, h.field, stack);
    }

    /** The loop of `Prepare`: the region that the registers are loaded from is zero. */
    method Clear(start: int) returns (stack: int)
      modifies this`mem
      ensures stack == start - 8 * SYSV.n
      ensures mem == PushAll(old(mem), start, Zeros(SYSV.n), 8)
    {
      stack := start;
      for i := 0 to SYSV.n
        invariant stack == start - 8 * i
        invariant mem == PushAll(old(mem), start, Zeros(i), 8)
      {
        stack := stack - 8;
        mem := Write(mem, stack, 0);
        PushZero(old(mem), start, i, 8);
      }
    }

    /** Where `DereferenceCallInfo` returns to. */
    method EntryReturnedStub()
      modifies this`mem, this`rip, this`rsp, this`g
      ensures rsp == old(rsp) - 24 && rip == COTHREAD_RETURNED && g == old(g).(rbp := old(rsp) - 16)
      ensures mem == old(mem)[old(rsp) - 16 := old(g.rbp)][old(rsp) - 24 := ENTRY_RETURNED_STUB_END]
    {
      rsp := rsp - 8;
      rsp := rsp - 8;
      mem := Write(mem, rsp, g.rbp);
      g := g.(rbp := rsp);
      Call(COTHREAD_RETURNED, ENTRY_RETURNED_STUB_END);
    }

    /** `DereferenceCallInfo` returns. */
    method EntryReturns()
      modifies this`mem, this`rip, this`rsp, this`g
      ensures var out := StackFrame.Finish(SYSV, old(mem), old(Cpu())); mem == out.mem && Cpu() == out.cpu
    {
      Ret();
      if rip == ENTRY_RETURNED_STUB {
        EntryReturnedStub();
        assert g.Words() == old(g.Words())[0 := g.rbp];
      }
    }
  }
}
