/** The aarch64 routines, instruction by instruction. */
module Aapcs {
  import opened Machine
  import opened Backend
  import opened SaveArea

  /** The offset of the `stackTop` field in an implementation object. */
  const CONTEXT_TOP := 0x20

  datatype Integers = Integers(x19: Word, x20: Word, x21: Word, x22: Word, x23: Word, x24: Word,
                               x25: Word, x26: Word, x27: Word, x28: Word, x29: Word) {

    function Words(): (s: seq<Word>)
      ensures |s| == 11
    {
      Low() + High()
    }

    function Low(): seq<Word> { ([x19, x20] + [x21, x22]) + ([x23, x24] + [x25, x26]) }

    function High(): seq<Word> { [x27, x28] + [x29] }

    function LowGroups(): seq<Group> { FourWords(0x10, x19, x20, x21, x22) + FourWords(0x30, x23, x24, x25, x26) }

    function HighGroups(): seq<Group> { [Two(0x50, x27, x28)] + [One(0x60, x29)] }

    function Groups(): seq<Group> { LowGroups() + HighGroups() }
  }

  /** The low halves of the vector registers that a function must preserve. */
  datatype Vectors = Vectors(d8: Word, d9: Word, d10: Word, d11: Word, d12: Word, d13: Word, d14: Word, d15: Word) {

    function Words(): (s: seq<Word>)
      ensures |s| == 8
    {
      ([d8, d9] + [d10, d11]) + ([d12, d13] + [d14, d15])
    }

    function Groups(): seq<Group> {
      FourWords(0x70, d8, d9, d10, d11) + FourWords(0x90, d12, d13, d14, d15)
    }
  }

  function FourWords(off: int, a: Word, b: Word, c: Word, d: Word): seq<Group> {
    [Two(off, a, b)] + [Two(off + 0x10, c, d)]
  }

  lemma FrontLast(gs: seq<Group>)
    requires gs != []
    ensures gs == Front(gs) + [Last(gs)]
  {
  }

  lemma StoredUnfold(m: Memory, from: int, gs: seq<Group>, front: seq<Group>, g: Group)
    requires gs == front + [g]
    ensures Stored(m, from, gs) == StoreGroup(Stored(m, from, front), from, g)
  {
    assert Front(gs) == front;
  }

  lemma StoredConcatNext(m: Memory, m': Memory, from: int, gs: seq<Group>, front: seq<Group>, g: Group, hs: seq<Group>)
    requires hs == front + [g] && Stored(m, from, gs + front) == Stored(m', from, front)
    ensures Stored(m, from, gs + hs) == Stored(m', from, hs)
  {
    Regroup(gs, front, [g]);
    StoredUnfold(m, from, gs + hs, gs + front, g);
    StoredUnfold(m', from, hs, front, g);
  }

  lemma {:induction false} StoredConcat(m: Memory, m': Memory, from: int, gs: seq<Group>, hs: seq<Group>)
    requires Stored(m, from, gs) == m'
    ensures Stored(m, from, gs + hs) == Stored(m', from, hs)
    decreases |hs|
  {
    if hs == [] {
      assert gs + hs == gs;
    } else {
      var front, g := Front(hs), Last(hs);
      FrontLast(hs);
      StoredConcat(m, m', from, gs, front);
      StoredConcatNext(m, m', from, gs, front, g, hs);
    }
  }

  lemma LoadedUnfold(m: Memory, from: int, to: int, gs: seq<Group>, front: seq<Group>, g: Group)
    requires gs == front + [g]
    ensures Loaded(m, from, to, gs) == Loaded(m, from, to, front) + LoadGroup(Stored(m, from, gs), to, g)
  {
    assert Front(gs) == front;
  }

  lemma Regroup<T>(a: seq<T>, b: seq<T>, c: seq<T>)
    ensures (a + b) + c == a + (b + c)
  {
  }

  lemma LoadedConcatMore(m: Memory, m': Memory, from: int, to: int, gs: seq<Group>, hs: seq<Group>, g: Group,
                         all: seq<Group>, rest: seq<Group>)
    requires all == (gs + hs) + [g] && rest == hs + [g] && Stored(m, from, all) == Stored(m', from, rest)
    requires Loaded(m, from, to, gs + hs) == Loaded(m, from, to, gs) + Loaded(m', from, to, hs)
    ensures Loaded(m, from, to, all) == Loaded(m, from, to, gs) + Loaded(m', from, to, rest)
  {
    LoadedUnfold(m, from, to, all, gs + hs, g);
    LoadedUnfold(m', from, to, rest, hs, g);
    Regroup(Loaded(m, from, to, gs), Loaded(m', from, to, hs), LoadGroup(Stored(m, from, all), to, g));
  }

  lemma LoadedConcatNext(m: Memory, m': Memory, from: int, to: int, gs: seq<Group>, front: seq<Group>, g: Group,
                         hs: seq<Group>)
    requires hs == front + [g] && Stored(m, from, gs + hs) == Stored(m', from, hs)
    requires Loaded(m, from, to, gs + front) == Loaded(m, from, to, gs) + Loaded(m', from, to, front)
    ensures Loaded(m, from, to, gs + hs) == Loaded(m, from, to, gs) + Loaded(m', from, to, hs)
  {
    Regroup(gs, front, [g]);
    LoadedConcatMore(m, m', from, to, gs, front, g, gs + hs, hs);
  }

  lemma {:induction false} LoadedConcat(m: Memory, m': Memory, from: int, to: int, gs: seq<Group>, hs: seq<Group>)
    requires Stored(m, from, gs) == m'
    ensures Loaded(m, from, to, gs + hs) == Loaded(m, from, to, gs) + Loaded(m', from, to, hs)
    decreases |hs|
  {
    if hs == [] {
      assert gs + hs == gs;
    } else {
      var front, g := Front(hs), Last(hs);
      FrontLast(hs);
      LoadedConcat(m, m', from, to, gs, front);
      StoredConcat(m, m', from, gs, hs);
      LoadedConcatNext(m, m', from, to, gs, front, g, hs);
    }
  }

  /** `m'` and `vs` are the result of the groups `gs`, carried out from memory `m`. */
  predicate Done(m: Memory, m': Memory, from: int, to: int, gs: seq<Group>, vs: seq<Word>) {
    m' == Stored(m, from, gs) && vs == Loaded(m, from, to, gs)
  }

  lemma OneDone(m: Memory, m': Memory, from: int, to: int, g: Group)
    requires m' == StoreGroup(m, from, g)
    ensures Done(m, m', from, to, [g], LoadGroup(m', to, g))
  {
    assert Front([g]) == [];
  }

  lemma BothDone(m: Memory, m': Memory, m'': Memory, from: int, to: int, gs: seq<Group>, hs: seq<Group>, vs: seq<Word>,
                 us: seq<Word>)
    requires Done(m, m', from, to, gs, vs) && Done(m', m'', from, to, hs, us)
    ensures Done(m, m'', from, to, gs + hs, vs + us)
  {
    StoredConcat(m, m', from, gs, hs);
    LoadedConcat(m, m', from, to, gs, hs);
  }

  lemma GroupMatches(sp: int, lr: int, g: Integers, v: Vectors, k: nat)
    requires k < 11
    ensures ([Two(0x00, sp, lr)] + (g.Groups() + v.Groups()))[k] == GroupOf([sp, lr] + (g.Words() + v.Words()), k)
  {
  }

  /** The instructions of `Switch` store the words of a context, in the order of a save area. */
  lemma GroupsMatch(cpu: Context, sp: int, lr: int, g: Integers, v: Vectors)
    requires cpu == Context(lr, sp, g.Words() + v.Words())
    ensures [Two(0x00, sp, lr)] + (g.Groups() + v.Groups()) == SaveArea.Groups(cpu)
  {
    var gs := [Two(0x00, sp, lr)] + (g.Groups() + v.Groups());
    forall k | 0 <= k < 11 ensures gs[k] == GroupOf([sp, lr] + (g.Words() + v.Words()), k) {
      GroupMatches(sp, lr, g, v, k);
    }
  }

  /** What `br lr` does when these values were loaded. */
  predicate Arrived(out: Outcome, m: Memory, sp: int, lr: int, regs: seq<Word>)
    requires |regs| == 19
  {
    && out.mem == m
    && out.cpu == Context(if lr == AARCH64_ENTRY_STUB then DEREFERENCE_CALL_INFO else lr, sp, regs)
    && out.arg == if lr == AARCH64_ENTRY_STUB then regs[0] else NULL
  }

  lemma SwitchDone(m: Memory, m': Memory, cpu: Context, from: Home, to: Home, a: int, b: int, sp: int, lr: int,
                   regs: seq<Word>)
    requires |cpu.regs| == 19 && |regs| == 19 && a == Load(m, from.field) && b == Load(m, to.field)
    requires Done(m, m', a, b, SaveArea.Groups(cpu), [sp, lr] + regs)
    ensures Arrived(SaveArea.Switch(m, cpu, from, to), m', sp, lr, regs)
  {
    assert ([sp, lr] + regs)[2..] == regs;
  }

  lemma FirstWord(g: Integers, v: Vectors)
    ensures (g.Words() + v.Words())[0] == g.x19
  {
    assert g.Words()[0] == g.Low()[0] == g.x19;
  }

  class Aarch64 {
    var mem: Memory
    var pc: int
    var sp: int
    var lr: int
    var g: Integers
    var v: Vectors
    var x0: Word
    var x1: Word
    var x16: Word

    constructor (m: Memory)
      ensures mem == m
    {
      mem := m;
    }

    function Cpu(): Context
      reads this
    {
      Context(pc, sp, g.Words() + v.Words())
    }

    /** `stp a, b, [x0, off]` and `ldp a, b, [x1, off]`. */
    method ExchangePair(off: int, a: Word, b: Word) returns (a': Word, b': Word)
      modifies this`mem
      ensures Done(old(mem), mem, x0, x1, [Two(off, a, b)], [a', b'])
    {
      mem := Write(mem, x0 + off, a);
      mem := Write(mem, x0 + off + 8, b);
      a' := Load(mem, x1 + off);
      b' := Load(mem, x1 + off + 8);
      OneDone(old(mem), mem, x0, x1, Two(off, a, b));
    }

    /** `str a, [x0, off]` and `ldr a, [x1, off]`. */
    method ExchangeWord(off: int, a: Word) returns (a': Word)
      modifies this`mem
      ensures Done(old(mem), mem, x0, x1, [One(off, a)], [a'])
    {
      mem := Write(mem, x0 + off, a);
      a' := Load(mem, x1 + off);
      OneDone(old(mem), mem, x0, x1, One(off, a));
    }

    /** Two pairs, one after the other. */
    method ExchangeFour(off: int, a: Word, b: Word, c: Word, d: Word) returns (a': Word, b': Word, c': Word, d': Word)
      modifies this`mem
      ensures Done(old(mem), mem, x0, x1, FourWords(off, a, b, c, d), [a', b'] + [c', d'])
    {
      a', b' := ExchangePair(off, a, b);
      ghost var m := mem;
      c', d' := ExchangePair(off + 0x10, c, d);
      BothDone(old(mem), m, mem, x0, x1, [Two(off, a, b)], [Two(off + 0x10, c, d)], [a', b'], [c', d']);
    }

    method ExchangeLow()
      modifies this`mem, this`g
      ensures Done(old(mem), mem, x0, x1, old(g).LowGroups(), g.Low())
      ensures g.High() == old(g).High() && g.HighGroups() == old(g).HighGroups()
    {
      var x19, x20, x21, x22 := ExchangeFour(0x10, g.x19, g.x20, g.x21, g.x22);
      ghost var m := mem;
      var x23, x24, x25, x26 := ExchangeFour(0x30, g.x23, g.x24, g.x25, g.x26);
      BothDone(old(mem), m, mem, x0, x1, FourWords(0x10, g.x19, g.x20, g.x21, g.x22),
               FourWords(0x30, g.x23, g.x24, g.x25, g.x26), [x19, x20] + [x21, x22], [x23, x24] + [x25, x26]);
      g := Integers(x19, x20, x21, x22, x23, x24, x25, x26, g.x27, g.x28, g.x29);
    }

    method ExchangeHigh()
      modifies this`mem, this`g
      ensures Done(old(mem), mem, x0, x1, old(g).HighGroups(), g.High()) && g.Low() == old(g).Low()
    {
      var x27, x28 := ExchangePair(0x50, g.x27, g.x28);
      ghost var m := mem;
      var x29 := ExchangeWord(0x60, g.x29);
      BothDone(old(mem), m, mem, x0, x1, [Two(0x50, g.x27, g.x28)], [One(0x60, g.x29)], [x27, x28], [x29]);
      g := g.(x27 := x27, x28 := x28, x29 := x29);
    }

    method ExchangeIntegers()
      modifies this`mem, this`g
      ensures Done(old(mem), mem, x0, x1, old(g).Groups(), g.Words())
    {
      ghost var was := g;
      ExchangeLow();
      ghost var m := mem;
      ExchangeHigh();
      BothDone(old(mem), m, mem, x0, x1, was.LowGroups(), was.HighGroups(), g.Low(), g.High());
    }

    method ExchangeVectors()
      modifies this`mem, this`v
      ensures Done(old(mem), mem, x0, x1, old(v).Groups(), v.Words())
    {
      var d8, d9, d10, d11 := ExchangeFour(0x70, v.d8, v.d9, v.d10, v.d11);
      ghost var m := mem;
      var d12, d13, d14, d15 := ExchangeFour(0x90, v.d12, v.d13, v.d14, v.d15);
      BothDone(old(mem), m, mem, x0, x1, FourWords(0x70, v.d8, v.d9, v.d10, v.d11),
               FourWords(0x90, v.d12, v.d13, v.d14, v.d15), [d8, d9] + [d10, d11], [d12, d13] + [d14, d15]);
      v := Vectors(d8, d9, d10, d11, d12, d13, d14, d15);
    }

    method ExchangeRegisters()
      modifies this`mem, this`g, this`v
      ensures Done(old(mem), mem, x0, x1, old(g.Groups() + v.Groups()), g.Words() + v.Words())
    {
      ExchangeIntegers();
      ghost var m := mem;
      ExchangeVectors();
      BothDone(old(mem), m, mem, x0, x1, old(g).Groups(), old(v).Groups(), g.Words(), v.Words());
    }

    method ExchangePointers()
      modifies this`mem, this`sp, this`lr, this`x16
      ensures Done(old(mem), mem, x0, x1, [Two(0x00, old(sp), old(lr))], [sp, lr])
    {
      x16 := sp;
      x16, lr := ExchangePair(0x00, x16, lr);
      sp := x16;
    }

    /** The body of `Switch`, with the addresses of the areas in x0 and x1. */
    method ExchangeAll(ghost cpu: Context)
      requires cpu == Context(lr, sp, g.Words() + v.Words())
      modifies this`mem, this`sp, this`lr, this`x16, this`g, this`v
      ensures Done(old(mem), mem, x0, x1, SaveArea.Groups(cpu), [sp, lr] + (g.Words() + v.Words()))
    {
      GroupsMatch(cpu, sp, lr, g, v);
      ghost var gs := g.Groups() + v.Groups();
      ExchangePointers();
      ghost var m := mem;
      ExchangeRegisters();
      BothDone(old(mem), m, mem, x0, x1, [Two(0x00, old(sp), old(lr))], gs, [sp, lr], g.Words() + v.Words());
    }

    /** Translates the argument in x19 and calls `DereferenceCallInfo`. */
    method EntryStub()
      modifies this`x0, this`lr, this`pc
      ensures x0 == g.x19 && pc == DEREFERENCE_CALL_INFO
    {
      x0 := g.x19;
      lr := AARCH64_ENTRY_STUB_END;
      pc := DEREFERENCE_CALL_INFO;
    }

    /** The end of `Switch(from, to)`: `br lr`. */
    method Branch(ghost out: Outcome) returns (first: bool)
      requires Arrived(out, mem, sp, lr, g.Words() + v.Words())
      modifies this`pc, this`lr, this`x0
      ensures Shows(out, first)
    {
      FirstWord(g, v);
      pc := lr;
      first := pc == AARCH64_ENTRY_STUB;
      if first { EntryStub(); }
    }

    /** The start of `Switch(from, to)`, called with the arguments in x0 and x1. */
    method FindAreas(from: Home, to: Home)
      requires x0 + CONTEXT_TOP == from.field && x1 + CONTEXT_TOP == to.field
      modifies this`x0, this`x1
      ensures x0 == Load(mem, from.field) && x1 == Load(mem, to.field)
    {
      x0 := Load(mem, x0 + CONTEXT_TOP);
      x1 := Load(mem, x1 + CONTEXT_TOP);
    }

    /** The state is `out`; `first` says whether the entry call runs, with an argument in x0. */
    predicate Shows(out: Outcome, first: bool)
      reads this
    {
      mem == out.mem && Cpu() == out.cpu && out.arg == if first then x0 else NULL
    }

    /** The rest of `Switch(from, to)`, up to where program code or the entry call runs. */
    method Exchange(from: Home, to: Home, ghost m: Memory, ghost cpu: Context) returns (first: bool)
      requires x0 == Load(mem, from.field) && x1 == Load(mem, to.field)
      requires m == mem && cpu == Context(lr, sp, g.Words() + v.Words())
      modifies this`mem, this`sp, this`lr, this`x16, this`g, this`v, this`pc, this`x0
      ensures Shows(SaveArea.Switch(m, cpu, from, to), first)
    {
      ExchangeAll(cpu);
      SwitchDone(m, mem, cpu, from, to, x0, x1, sp, lr, g.Words() + v.Words());
      first := Branch(SaveArea.Switch(m, cpu, from, to));
    }

    /** `Aarch64::switchTo`: a call of `Switch(from, to)`. */
    method SwitchTo(from: Home, to: Home) returns (first: bool)
      modifies this
      ensures Shows(SaveArea.Switch(old(mem), old(Cpu()), from, to), first)
    {
      ghost var m, cpu := mem, Cpu();
      x0 := from.field - CONTEXT_TOP;
      x1 := to.field - CONTEXT_TOP;
      lr := pc;
      FindAreas(from, to);
      first := Exchange(from, to, m, cpu);
    }

    /** `Prepare`: fills in four words of the save area. */
    method Prepare(h: Home, info: Word)
      modifies this`mem
      ensures mem == SaveArea.Prepare(old(mem), h, info)
    {
      var stackBottom := h.stack.lo + (h.stack.hi - h.stack.lo);
      var context := h.stack.lo;
      mem := Write(mem, context + 8 * 0, stackBottom);
      mem := Write(mem, context + 8 * 1, AARCH64_ENTRY_STUB);
      mem := Write(mem, context + 8 * 2, info);
      mem := Write(mem, context + 8 * 12, stackBottom);
      mem := Write(mem, h.field, context);
    }

    /** `DereferenceCallInfo`, whose entry call has returned, calls `CothreadReturned` itself. */
    method EntryReturns()
      modifies this`pc, this`lr
      ensures pc == COTHREAD_RETURNED && sp == old(sp) && g == old(g) && v == old(v)
      ensures var out := SaveArea.Finish(mem, old(Cpu())); mem == out.mem && Cpu() == out.cpu
    {
      lr := pc;
      pc := COTHREAD_RETURNED;
    }
  }
}
