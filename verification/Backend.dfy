/** What a platform implementation of cothreads must do, stated without reference to how it does it. */
module Backend {
  import opened Machine
  import opened Coroutine

  /** The effect of a library routine: memory, registers, and the first argument register. */
  datatype Outcome = Outcome(mem: Memory, cpu: Context, arg: Word)

  /** The routines of a platform implementation. */
  datatype Backend = Backend(
    switchTo: (Memory, Context, Home, Home) -> Outcome,
    prepare: (Memory, Home, Word) -> Memory,
    wrap: (Memory, Home) -> Memory,
    finish: (Memory, Context, Home) -> Outcome)

  /** How a platform represents cothreads in memory, and what it promises of the calls it makes. */
  datatype Spec = Spec(
    limits: Limits,
    ready: (Memory, Home) -> bool,
    holds: (Memory, Home, Context) -> bool,
    primed: (Memory, Home, Word) -> bool,
    linked: (Memory, Home) -> bool,
    callEntry: (Home, Context) -> bool,
    returnEntry: (Home, seq<Word>, Context) -> bool)

  /** `cpu` is the state of a running cothread that is about to call `Switch`. */
  ghost predicate CanSave(c: Spec, m: Memory, cpu: Context, h: Home) {
    && h.WellFormed() && h.stack.lo <= cpu.sp <= h.stack.hi
    && UserCode(cpu.pc) && c.limits.room(h, cpu) && c.ready(m, h)
  }

  /** The caller's context is saved, and nothing else of its memory changes. */
  ghost predicate Saved(c: Spec, m: Memory, m': Memory, cpu: Context, h: Home) {
    c.holds(m', h, cpu) && OnlyPrivate(m, m', h, cpu.sp)
  }

  ghost predicate SwitchOk(b: Backend, c: Spec, m: Memory, cpu: Context, from: Home, to: Home, cont: Context) {
    CanSave(c, m, cpu, from) && to.WellFormed() && from.Apart(to)
    && c.holds(m, to, cont) && c.limits.room(to, cont) && UserCode(cont.pc) && to.stack.lo <= cont.sp <= to.stack.hi ==>
      var out := b.switchTo(m, cpu, from, to);
      Saved(c, m, out.mem, cpu, from) && out.cpu == cont && c.ready(out.mem, to)
  }

  ghost predicate FirstSwitchOk(b: Backend, c: Spec, m: Memory, cpu: Context, from: Home, to: Home, info: Word) {
    CanSave(c, m, cpu, from) && to.WellFormed() && from.Apart(to)
    && c.primed(m, to, info) && c.limits.admits(to) && !to.Wrapper() ==>
      var out := b.switchTo(m, cpu, from, to);
      && Saved(c, m, out.mem, cpu, from) && c.ready(out.mem, to) && c.linked(out.mem, to)
      && out.cpu.pc == DEREFERENCE_CALL_INFO && out.cpu.sp == to.root && out.arg == info
      && c.callEntry(to, out.cpu)
  }

  ghost predicate SelfSwitchOk(b: Backend, c: Spec, m: Memory, cpu: Context, h: Home) {
    CanSave(c, m, cpu, h) ==>
      var out := b.switchTo(m, cpu, h, h);
      Saved(c, m, out.mem, cpu, h) && out.cpu == cpu && c.ready(out.mem, h)
  }

  ghost predicate PrepareOk(b: Backend, c: Spec, m: Memory, h: Home, info: Word) {
    h.WellFormed() && !h.Wrapper() && c.limits.admits(h) ==>
      c.primed(b.prepare(m, h, info), h, info) && OnlyPrivate(m, b.prepare(m, h, info), h, h.stack.hi)
  }

  ghost predicate WrapOk(b: Backend, c: Spec, m: Memory, h: Home) {
    h.WellFormed() && h.Wrapper() && c.limits.wraps(h) ==>
      c.ready(b.wrap(m, h), h) && OnlyPrivate(m, b.wrap(m, h), h, h.stack.lo)
  }

  /** `CothreadReturned` is entered with the registers `cpu`, on the stack of the cothread whose entry
      function has returned and left the registers `regs`. */
  ghost predicate EntersReturned(c: Spec, h: Home, regs: seq<Word>, cpu: Context) {
    h.stack.lo <= cpu.sp <= h.root && c.returnEntry(h, regs, cpu)
  }

  ghost predicate FinishOk(b: Backend, c: Spec, m: Memory, cpu: Context, h: Home) {
    h.WellFormed() && !h.Wrapper() && c.limits.admits(h) && c.linked(m, h) && c.ready(m, h) && cpu.sp == h.root ==>
      var out := b.finish(m, cpu, h);
      && out.cpu.pc == COTHREAD_RETURNED && EntersReturned(c, h, cpu.regs, out.cpu)
      && c.ready(out.mem, h) && OnlyPrivate(m, out.mem, h, h.root)
  }

  ghost predicate ReadyLocal(c: Spec, m: Memory, m': Memory, h: Home) {
    m'[h.field] == m[h.field] && c.ready(m, h) ==> c.ready(m', h)
  }

  ghost predicate HoldsLocal(c: Spec, m: Memory, m': Memory, h: Home, cont: Context) {
    SamePrivate(m, m', h, cont.sp) && c.holds(m, h, cont) ==> c.holds(m', h, cont)
  }

  ghost predicate PrimedLocal(c: Spec, m: Memory, m': Memory, h: Home, info: Word) {
    SamePrivate(m, m', h, h.stack.hi) && c.primed(m, h, info) ==> c.primed(m', h, info)
  }

  ghost predicate LinkedLocal(c: Spec, m: Memory, m': Memory, h: Home) {
    (h.stack.Has(h.root) ==> m'[h.root] == m[h.root]) && c.linked(m, h) ==> c.linked(m', h)
  }

  /** The representation of a cothread depends only on words that belong to it. */
  ghost predicate Local(c: Spec) {
    && (forall m, m', h :: ReadyLocal(c, m, m', h))
    && (forall m, m', h, cont :: HoldsLocal(c, m, m', h, cont))
    && (forall m, m', h, info :: PrimedLocal(c, m, m', h, info))
    && (forall m, m', h :: LinkedLocal(c, m, m', h))
  }

  /** The contract of a platform implementation. */
  ghost predicate Correct(b: Backend, c: Spec) {
    && Local(c)
    && (forall m, cpu, from, to, cont :: SwitchOk(b, c, m, cpu, from, to, cont))
    && (forall m, cpu, from, to, info :: FirstSwitchOk(b, c, m, cpu, from, to, info))
    && (forall m, cpu, h :: SelfSwitchOk(b, c, m, cpu, h))
    && (forall m, h, info :: PrepareOk(b, c, m, h, info))
    && (forall m, h :: WrapOk(b, c, m, h))
    && (forall m, cpu, h :: FinishOk(b, c, m, cpu, h))
  }
}
