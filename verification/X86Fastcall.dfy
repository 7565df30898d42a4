/** The x86 routines, with the fastcall convention, instruction by instruction. */
module X86Fastcall {
  import opened Machine
  import opened Backend
  import opened StackFrame

  /** The offset of the `stackTop` field in an implementation object. */
  const CONTEXT_TOP := 0x10

  /** The address of `Switch`. */
  const SWITCH := 0x3000

  /** The registers that a function must preserve. */
  datatype Registers = Registers(ebx: Word, esi: Word, edi: Word, ebp: Word) {

    /** In the order `Switch` saves them. */
    function Words(): seq<Word> { [ebx, esi, edi, ebp] }
  }

  class X86 {
    var mem: Memory
    var eip: int
    var esp: int
    var g: Registers
    var eax: Word
    var ecx: Word
    var edx: Word

    constructor (m: Memory)
      ensures mem == m
    {
      mem := m;
    }

    function Cpu(): Context
      reads this
    {
      Context(eip, esp, g.Words())
    }

    /** `push word`, after `vs` have been pushed onto `m` from `sp`. */
    method Push(word: Word, ghost m: Memory, ghost sp: int, ghost vs: seq<Word>) returns (ghost vs': seq<Word>)
      requires esp == sp - 4 * |vs| && mem == PushAll(m, sp, vs, 4)
      modifies this`mem, this`esp
      ensures vs' == vs + [word] && esp == sp - 4 * |vs'| && mem == PushAll(m, sp, vs', 4)
    {
      esp := esp - 4;
      mem := Write(mem, esp, word);
      PushMore(m, sp, vs, word, 4);
      vs' := vs + [word];
    }

    /** `pop`, after `vs` have been taken from `top` upwards. */
    method Pop(ghost top: int, ghost vs: seq<Word>) returns (word: Word, ghost vs': seq<Word>)
      requires esp == top + 4 * |vs| && vs == PopAll(mem, top, |vs|, 4)
      modifies this`esp
      ensures esp == old(esp) + 4 && vs' == [word] + vs && vs' == PopAll(old(mem), top, |vs'|, 4)
    {
      word := Load(mem, esp);
      esp := esp + 4;
      PopMore(mem, top, |vs|, 4);
      vs' := [word] + vs;
    }

    method Call(target: int, back: int)
      modifies this`mem, this`esp, this`eip
      ensures esp == old(esp) - 4 && mem == Write(old(mem), esp, back) && eip == target
    {
      esp := esp - 4;
      mem := Write(mem, esp, back);
      eip := target;
    }

    method Ret()
      modifies this`esp, this`eip
      ensures eip == old(Load(mem, esp)) && esp == old(esp) + 4
    {
      eip := Load(mem, esp);
      esp := esp + 4;
    }

    method SaveRegisters()
      modifies this`mem, this`esp
      ensures esp == old(esp) - 16 && mem == PushAll(old(mem), old(esp), g.Words(), 4)
    {
      ghost var m, sp := mem, esp;
      ghost var vs := Push(g.ebx, m, sp, []);
      vs := Push(g.esi, m, sp, vs);
      vs := Push(g.edi, m, sp, vs);
      vs := Push(g.ebp, m, sp, vs);
      assert vs == g.Words();
    }

    method RestoreRegisters()
      modifies this`esp, this`g
      ensures esp == old(esp) + 16 && g.Words() == PopAll(old(mem), old(esp), |g.Words()|, 4)
    {
      ghost var top := esp;
      var ebx, esi, edi, ebp;
      ghost var vs;
      ebp, vs := Pop(top, []);
      edi, vs := Pop(top, vs);
      esi, vs := Pop(top, vs);
      ebx, vs := Pop(top, vs);
      g := Registers(ebx, esi, edi, ebp);
      assert vs == g.Words();
    }

    /** The first half of `Switch(from, to)`, called with the arguments in `ecx` and `edx`. */
    method SaveContext()
      modifies this`mem, this`esp
      ensures esp == old(esp) - 16
      ensures mem == Write(PushAll(old(mem), old(esp), g.Words(), 4), ecx + CONTEXT_TOP, esp)
    {
      SaveRegisters();
      mem := Write(mem, ecx + CONTEXT_TOP, esp);
    }

    /** The second half of `Switch(from, to)`. */
    method RestoreContext()
      modifies this`eip, this`esp, this`g
      ensures var top := old(Load(mem, edx + CONTEXT_TOP));
        Cpu() == Context(old(Load(mem, top + 16)), top + 20, PopAll(old(mem), top, StackFrame.X86.n, 4))
    {
      esp := Load(mem, edx + CONTEXT_TOP);
      RestoreRegisters();
      Ret();
    }

    method JumpToEntry()
      modifies this`eip, this`esp, this`eax, this`ecx
      ensures eip == old(Load(mem, esp)) && ecx == old(Load(mem, esp + 4)) && esp == old(esp) + 8
    {
      eax := Load(mem, esp);
      esp := esp + 4;
      ecx := Load(mem, esp);
      esp := esp + 4;
      eip := eax;
    }

    /** The call of `Switch` and its first half. */
    method Leave(from: Home, ghost m: Memory, ghost cpu: Context)
      requires ecx + CONTEXT_TOP == from.field
      requires m == mem && cpu == Context(eip, esp, g.Words())
      modifies this`mem, this`eip, this`esp
      ensures mem == StackFrame.Save(StackFrame.X86, m, cpu, from.field)
    {
      Call(SWITCH, eip);
      ghost var a := esp;
      SaveContext();
      SaveBySteps(StackFrame.X86, m, cpu, from.field, 4, g.Words(), ecx + CONTEXT_TOP, a, esp, 16);
    }

    /** The state is `out`; `first` says whether the entry call runs, with an argument in `ecx`. */
    predicate Shows(out: Outcome, first: bool)
      reads this
    {
      mem == out.mem && Cpu() == out.cpu && out.arg == if first then ecx else NULL
    }

    /** The second half of `Switch`, up to where program code or the entry call runs. */
    method Enter(to: Home, ghost m: Memory) returns (first: bool)
      requires edx + CONTEXT_TOP == to.field && m == mem
      modifies this`eip, this`esp, this`g, this`eax, this`ecx
      ensures Shows(StackFrame.Restore(StackFrame.X86, m, to.field), first)
    {
      RestoreContext();
      RestoreBySteps(StackFrame.X86, mem, to.field, 16);
      first := eip == JUMP_TO_ENTRY;
      if first { JumpToEntry(); }
    }

    /** `x86::switchTo`: a call of `Switch(from, to)`. */
    method SwitchTo(from: Home, to: Home) returns (first: bool)
      modifies this
      ensures Shows(StackFrame.Switch(StackFrame.X86, old(mem), old(Cpu()), from, to), first)
    {
      ghost var m, cpu := mem, Cpu();
      ecx := from.field - CONTEXT_TOP;
      edx := to.field - CONTEXT_TOP;
      Leave(from, m, cpu);
      first := Enter(to, StackFrame.Save(StackFrame.X86, m, cpu, from.field));
    }

    /** `Prepare`: builds the first frame of a cothread in its stack buffer. */
    method Prepare(h: Home, info: Word)
      modifies this`mem
      ensures mem == StackFrame.Prepare(StackFrame.X86, old(mem), h, info)
    {
      var size := h.stack.hi - h.stack.lo;
      var stack := h.stack.lo + (size - size % 16) - 4 * (4 + StackFrame.X86.n);
      ghost var base := stack;
      stack := stack - 4;
      mem := Write(mem, stack, NULL);
      stack := stack - 4;
      mem := Write(mem, stack, info);
      stack := stack - 4;
      mem := Write(mem, stack, DEREFERENCE_CALL_INFO);
      stack := stack - 4;
      mem := Write(mem, stack, JUMP_TO_ENTRY);
      ghost var bottom := stack;
      stack := Clear(stack);
      BytesTimes(4, StackFrame.X86.n);
      BytesTimes(4, StackFrame.X86.n + 4);
      PrepareBySteps(StackFrame.X86, old(mem), h, info, mem, base, bottom, stack);
      mem := Write(mem, h.field, stack);
    }

    /** The loop of `Prepare`: the region that the registers are loaded from is zero. */
    method Clear(start: int) returns (stack: int)
      modifies this`mem
      ensures stack == start - 4 * StackFrame.X86.n
      ensures mem == PushAll(old(mem), start, Zeros(StackFrame.X86.n), 4)
    {
      stack := start;
      for i := 0 to StackFrame.X86.n
        invariant stack == start - 4 * i
        invariant mem == PushAll(old(mem), start, Zeros(i), 4)
      {
        stack := stack - 4;
        mem := Write(mem, stack, 0);
        PushZero(old(mem), start, i, 4);
      }
    }

    /** `DereferenceCallInfo`, whose entry call has returned, calls `CothreadReturned` itself. */
    method EntryReturns()
      modifies this`eip
      ensures var out := StackFrame.Finish(StackFrame.X86, mem, old(Cpu())); mem == out.mem && Cpu() == out.cpu
    {
      eip := COTHREAD_RETURNED;
    }
  }
}
