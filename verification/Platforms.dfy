/** What the shipped platforms guarantee: the general results, for the machine as it is at start-up. */
module Platforms {
  import opened Common
  import opened Machine
  import opened Coroutine
  import opened Runs
  import opened History
  import opened Backend
  import opened Concrete = System
  import opened Refinement
  import StackFrame
  import SaveArea

  /** The four platforms with a context switch of their own. */
  datatype Name = SystemV | Windows64 | X86 | AArch64 {

    ghost function Implementation(): Backend {
      match this
      case SystemV => StackFrame.Implementation(StackFrame.SYSV)
      case Windows64 => StackFrame.Implementation(StackFrame.WINDOWS)
      case X86 => StackFrame.Implementation(StackFrame.X86)
      case AArch64 => SaveArea.Implementation()
    }

    ghost function Representation(): Spec {
      match this
      case SystemV => StackFrame.Representation(StackFrame.SYSV)
      case Windows64 => StackFrame.Representation(StackFrame.WINDOWS)
      case X86 => StackFrame.Representation(StackFrame.X86)
      case AArch64 => SaveArea.Representation()
    }
  }

  lemma AllCorrect(n: Name)
    ensures Correct(n.Implementation(), n.Representation())
  {
    StackFrame.PlatformsSound();
    match n
    case SystemV => StackFrame.ImplementationCorrect(StackFrame.SYSV);
    case Windows64 => StackFrame.ImplementationCorrect(StackFrame.WINDOWS);
    case X86 => StackFrame.ImplementationCorrect(StackFrame.X86);
    case AArch64 => SaveArea.ImplementationCorrect();
  }

  /** The machine and the abstract machine before any kernel thread has started. */
  ghost function PoweredOn(mem: Memory): Concrete.System {
    Concrete.System(mem, map[], map[], map[], map[], Default, false, [])
  }

  ghost function Start(mem: Memory): State {
    State(mem, map[], {}, map[], map[], Default, false, [])
  }

  lemma StartOk(c: Spec, mem: Memory)
    ensures Inv(c.limits, Start(mem)) && Rel(c, PoweredOn(mem), Start(mem))
    ensures Told(Start(mem)) && Counted(Start(mem))
  {
  }

  /** From the start, whatever the program does within the documented contract and for however long: the
      machine does what the abstract coroutine machine does, and its log tells the history of each
      cothread. */
  lemma Refines(n: Name, mem: Memory, ls: seq<Label>)
    requires LegalRun(n.Representation().limits, Start(mem), ls)
    ensures var b, c := n.Implementation(), n.Representation();
      && Executes(b, PoweredOn(mem), ls)
      && var s, a := ExecuteAll(b, PoweredOn(mem), ls), Run(c.limits, Start(mem), ls);
         && Rel(c, s, a) && Inv(c.limits, a)
         && Balance(s.log) == |s.calls|
         && (forall k :: Wrappers(s.log, k) <= 1)
         && (forall t :: Story(Of(s.log, t)))
         && (forall e | e in s.log && e.Entered? :: e.ran.Some? && Created(ls, e.t, e.info, e.ran.value))
         && (forall e | e in s.log && e.Returned? :: ReturnedUnder(ls, e.handler))
  {
    var b, c := n.Implementation(), n.Representation();
    AllCorrect(n);
    StartOk(c, mem);
    RunSimulates(b, c, PoweredOn(mem), Start(mem), ls);
    RunKeepsInv(c.limits, Start(mem), ls);
    RunTells(c.limits, Start(mem), ls);
    RunAsked(c.limits, mem, ls);
  }

  lemma RunAsked(lim: Limits, mem: Memory, ls: seq<Label>)
    requires LegalRun(lim, Start(mem), ls) && Told(Run(lim, Start(mem), ls))
    ensures var a := Run(lim, Start(mem), ls);
      && (forall e | e in a.log && e.Entered? :: e.ran.Some? && Created(ls, e.t, e.info, e.ran.value))
      && (forall e | e in a.log && e.Returned? :: ReturnedUnder(ls, e.handler))
  {
    var a := Run(lim, Start(mem), ls);
    RunAsAsked(lim, Start(mem), [], ls);
    assert [] + ls == ls;
    assert AsAsked(a, ls);
    forall e | e in a.log && e.Entered? ensures e.ran.Some? && Created(ls, e.t, e.info, e.ran.value) {
      EntryWasGiven(a, ls, e);
    }
    assert forall e | e in a.log :: Accounted(e, ls);
  }

  /** The registers of a kernel thread that executes program code are those of the abstract machine. */
  lemma SameRegisters(c: Spec, s: Concrete.System, a: State, k: Kid)
    requires Rel(c, s, a) && k in a.kernels && UserCode(a.kernels[k].cpu.pc)
    ensures k in s.kernels && s.kernels[k] == a.kernels[k]
  {
    assert SameKernel(c, a.threads, s.kernels[k], a.kernels[k]);
  }

  /** A legal step and then a legal run. */
  lemma StepAndRun(b: Backend, c: Spec, s: Concrete.System, a: State, l: Label, ls: seq<Label>)
    requires Correct(b, c) && Inv(c.limits, a) && Rel(c, s, a)
    requires Legal(c.limits, a, l) && LegalRun(c.limits, Step(a, l), ls)
    ensures Defined(s, l) && Executes(b, Execute(b, s, l), ls)
    ensures var a' := Run(c.limits, Step(a, l), ls);
      Rel(c, ExecuteAll(b, Execute(b, s, l), ls), a') && Inv(c.limits, a')
  {
    StepSimulates(b, c, s, a, l);
    StepKeepsInv(c.limits, a, l);
    RunSimulates(b, c, Execute(b, s, l), Step(a, l), ls);
    RunKeepsInv(c.limits, Step(a, l), ls);
  }

  /** What resumption on the abstract machine means for the machine. */
  lemma ResumedThere(c: Spec, s: Concrete.System, a: State, k: Kid, s': Concrete.System, a': State, k': Kid, t: Tid,
                     home: Home, x: int)
    requires Rel(c, s, a) && InProgram(a, k) && Rel(c, s', a')
    requires RunsWith(a', k', t, a.kernels[k].cpu)
    requires WordKept(home, a.kernels[k].cpu.sp, a.mem, a'.mem, x)
    ensures k in s.kernels && k' in s'.kernels
    ensures s'.kernels[k'].cpu == s.kernels[k].cpu && s'.kernels[k'].current == Some(t)
    ensures home.stack.Has(x) && s.kernels[k].cpu.sp <= x && x in a.mem ==> s'.mem[x] == s.mem[x]
  {
    SameRegisters(c, s, a, k);
    SameRegisters(c, s', a', k');
  }

  lemma SwitchedBack(b: Backend, c: Spec, s: Concrete.System, a: State, k: Kid, s2: Concrete.System, a2: State,
                     back: Label, k': Kid, t: Tid, home: Home, x: int)
    requires Rel(c, s, a) && InProgram(a, k)
    requires Correct(b, c) && Inv(c.limits, a2) && Rel(c, s2, a2) && Legal(c.limits, a2, back)
    requires RunsWith(Step(a2, back), k', t, a.kernels[k].cpu)
    requires WordKept(home, a.kernels[k].cpu.sp, a.mem, Step(a2, back).mem, x)
    ensures Defined(s2, back) && k in s.kernels && k' in Execute(b, s2, back).kernels
    ensures var s' := Execute(b, s2, back);
      && s'.kernels[k'].cpu == s.kernels[k].cpu && s'.kernels[k'].current == Some(t)
      && (home.stack.Has(x) && s.kernels[k].cpu.sp <= x && x in a.mem ==> s'.mem[x] == s.mem[x])
  {
    StepSimulates(b, c, s2, a2, back);
    ResumedThere(c, s, a, k, Execute(b, s2, back), Step(a2, back), k', t, home, x);
  }

  lemma ResumedAfter(b: Backend, c: Spec, s: Concrete.System, a: State, go: Label, a1: State, ls: seq<Label>, a2: State,
                     s2: Concrete.System, back: Label, t: Tid, x: int)
    requires Correct(b, c) && Inv(c.limits, a) && Rel(c, s, a) && Inv(c.limits, a2) && Rel(c, s2, a2)
    requires go.SwitchTo? && Legal(c.limits, a, go) && t == Caller(a, go) && t != go.to && a1 == Step(a, go)
    requires LegalRun(c.limits, a1, ls) && Undisturbed(ls, t) && Unwritten(ls, x) && a2 == Run(c.limits, a1, ls)
    requires back.SwitchTo? && back.to == t && Legal(c.limits, a2, back)
    ensures Defined(s2, back) && go.k in s.kernels && back.k in Execute(b, s2, back).kernels && t in a1.threads
    ensures var s' := Execute(b, s2, back);
      && s'.kernels[back.k].cpu == s.kernels[go.k].cpu && s'.kernels[back.k].current == Some(t)
      && (a1.threads[t].home.stack.Has(x) && s.kernels[go.k].cpu.sp <= x && x in a.mem ==> s'.mem[x] == s.mem[x])
  {
    Resumption(c.limits, a, go, a1, ls, a2, back, t, x);
    SwitchedBack(b, c, s, a, go.k, s2, a2, back, back.k, t, a1.threads[t].home, x);
  }

  /** On the machine: when the `switchTo` that cothread `t` issued with `go` returns, by the switch `back`
      and after any steps `ls` of any kernel threads, the program counter, the stack pointer, the
      registers and the live stack are as they were, and `t` is current. */
  lemma MachineResumes(b: Backend, c: Spec, s: Concrete.System, a: State, go: Label, ls: seq<Label>, back: Label,
                       t: Tid, x: int)
    requires Correct(b, c) && Inv(c.limits, a) && Rel(c, s, a)
    requires go.SwitchTo? && Legal(c.limits, a, go) && t == Caller(a, go) && t != go.to
    requires LegalRun(c.limits, Step(a, go), ls) && Undisturbed(ls, t) && Unwritten(ls, x)
    requires back.SwitchTo? && back.to == t && Legal(c.limits, Run(c.limits, Step(a, go), ls), back)
    ensures Defined(s, go) && Executes(b, Execute(b, s, go), ls)
    ensures Defined(ExecuteAll(b, Execute(b, s, go), ls), back)
    ensures var s' := Execute(b, ExecuteAll(b, Execute(b, s, go), ls), back);
      && go.k in s.kernels && back.k in s'.kernels
      && s'.kernels[back.k].cpu == s.kernels[go.k].cpu && s'.kernels[back.k].current == Some(t)
      && t in Step(a, go).threads
      && (Step(a, go).threads[t].home.stack.Has(x) && s.kernels[go.k].cpu.sp <= x && x in a.mem
          ==> s'.mem[x] == s.mem[x])
  {
    StepAndRun(b, c, s, a, go, ls);
    ResumedAfter(b, c, s, a, go, Step(a, go), ls, Run(c.limits, Step(a, go), ls), ExecuteAll(b, Execute(b, s, go), ls),
                 back, t, x);
  }

  /** What happens when an entry function returns: its call information, which exists, is deleted; then
      `CothreadReturned` is entered as the platform requires, and the return handler in force is given
      the cothread that returned. */
  lemma ReturnPath(b: Backend, c: Spec, s: Concrete.System, a: State, k: Kid)
    requires Correct(b, c) && Inv(c.limits, a) && Rel(c, s, a) && Legal(c.limits, a, EntryReturns(k))
    ensures Defined(s, EntryReturns(k))
    ensures var s', t := Execute(b, s, EntryReturns(k)), s.kernels[k].current.value;
      && var info := a.threads[t].life.info;
      && info in s.calls && s'.calls == s.calls - {info}
      && s'.log == s.log + [Returned(t, info, s.handler)] && s'.ended == s.handler.Default?
      && s'.kernels[k].current == Some(t) && s'.kernels[k].cpu.pc == COTHREAD_RETURNED
      && EntersReturned(c, a.threads[t].home, s.kernels[k].cpu.regs, s'.kernels[k].cpu)
  {
    var t := a.kernels[k].current.value;
    StepSimulates(b, c, s, a, EntryReturns(k));
    SameRegisters(c, s, a, k);
    assert ThreadOk(c.limits, a.calls, a.threads[t]);
    var a' := Step(a, EntryReturns(k));
    assert SameKernel(c, a'.threads, Execute(b, s, EntryReturns(k)).kernels[k], a'.kernels[k]);
  }

  /** On which stack and with which registers the return handler runs, in terms of those that the entry
      function left: on amd64 below the stub's words and aligned, with all registers but the frame pointer
      unchanged, and elsewhere exactly where the entry function left it. */
  predicate HandlerRuns(n: Name, stack: Region, before: Context, after: Context) {
    && stack.lo <= after.sp <= before.sp && |after.regs| == |before.regs|
    && if n.X86? || n.AArch64? then
         after.sp == before.sp && after.regs == before.regs
       else
         && (after.sp + 8) % 16 == 0 && after.sp < before.sp
         && forall i | 1 <= i < |before.regs| :: after.regs[i] == before.regs[i]
  }

  lemma HandlerRegisters(n: Name, home: Home, before: Context, after: Context)
    requires EntersReturned(n.Representation(), home, before.regs, after) && before.sp == home.root
    ensures HandlerRuns(n, home.stack, before, after)
  {
  }

  lemma ReturnPlace(b: Backend, c: Spec, s: Concrete.System, a: State, k: Kid)
    requires Correct(b, c) && Inv(c.limits, a) && Rel(c, s, a) && Legal(c.limits, a, EntryReturns(k))
    ensures Defined(s, EntryReturns(k)) && k in Execute(b, s, EntryReturns(k)).kernels
    ensures var home, before := s.homes[s.kernels[k].current.value], s.kernels[k].cpu;
      before.sp == home.root && EntersReturned(c, home, before.regs, Execute(b, s, EntryReturns(k)).kernels[k].cpu)
  {
    ReturnPath(b, c, s, a, k);
    SameRegisters(c, s, a, k);
  }

  /** The return handler runs on the stack of the cothread that has returned. */
  lemma HandlerStack(n: Name, s: Concrete.System, a: State, k: Kid)
    requires Inv(n.Representation().limits, a) && Rel(n.Representation(), s, a)
    requires Legal(n.Representation().limits, a, EntryReturns(k))
    ensures Defined(s, EntryReturns(k)) && k in Execute(n.Implementation(), s, EntryReturns(k)).kernels
    ensures HandlerRuns(n, s.homes[s.kernels[k].current.value].stack, s.kernels[k].cpu,
                        Execute(n.Implementation(), s, EntryReturns(k)).kernels[k].cpu)
  {
    AllCorrect(n);
    ReturnPlace(n.Implementation(), n.Representation(), s, a, k);
    HandlerRegisters(n, s.homes[s.kernels[k].current.value], s.kernels[k].cpu,
                     Execute(n.Implementation(), s, EntryReturns(k)).kernels[k].cpu);
  }

  /** Cothread `to` has just been entered on `k` for the first time. */
  ghost predicate JustEntered(c: Spec, s: Concrete.System, k: Kid, to: Tid, home: Home, info: Word, entry: Entry) {
    && k in s.kernels && s.kernels[k].current == Some(to)
    && s.kernels[k].cpu.pc == DEREFERENCE_CALL_INFO && s.kernels[k].cpu.sp == home.root
    && c.callEntry(home, s.kernels[k].cpu)
    && s.log != [] && s.log[|s.log| - 1] == Entered(to, info, Some(entry))
    && home.root in s.active && s.active[home.root] == info
  }

  /** The same of the abstract machine. */
  ghost predicate Enters(a: State, k: Kid, to: Tid, home: Home, info: Word, entry: Entry) {
    && k in a.kernels && a.kernels[k].current == Some(to)
    && a.kernels[k].cpu == Context(DEREFERENCE_CALL_INFO, home.root, [])
    && to in a.threads && a.threads[to] == Thread(home, Running(k), Active(info))
    && a.log != [] && a.log[|a.log| - 1] == Entered(to, info, Some(entry))
  }

  lemma FirstStep(lim: Limits, a: State, k: Kid, to: Tid, t: Tid, home: Home)
    requires Inv(lim, a) && Legal(lim, a, SwitchTo(k, to, t, home)) && a.threads[to].run.Fresh?
    ensures var a', th := Step(a, SwitchTo(k, to, t, home)), a.threads[to];
      && th.life.Pending? && th.life.info in a.calls
      && Enters(a', k, to, th.home, th.life.info, a.calls[th.life.info])
  {
    assert ThreadOk(lim, a.calls, a.threads[to]);
    EnsureCurrentKeepsInv(lim, a, k, t, home);
    var a0 := EnsureCurrent(a, k, t, home);
    assert KernelOk(a0.threads, k, a0.kernels[k]);
  }

  lemma EnteredThere(c: Spec, s: Concrete.System, a: State, k: Kid, to: Tid, home: Home, info: Word, entry: Entry)
    requires Rel(c, s, a) && Enters(a, k, to, home, info, entry)
    ensures JustEntered(c, s, k, to, home, info, entry)
  {
    assert SameKernel(c, a.threads, s.kernels[k], a.kernels[k]);
    assert Represents(c, s.mem, s.active, a.threads[to]);
  }

  lemma EnteredAfter(b: Backend, c: Spec, s: Concrete.System, a: State, l: Label, k: Kid, to: Tid, home: Home,
                     info: Word, entry: Entry)
    requires Correct(b, c) && Inv(c.limits, a) && Rel(c, s, a) && Legal(c.limits, a, l)
    requires Enters(Step(a, l), k, to, home, info, entry)
    ensures Defined(s, l) && JustEntered(c, Execute(b, s, l), k, to, home, info, entry)
  {
    StepSimulates(b, c, s, a, l);
    EnteredThere(c, Execute(b, s, l), Step(a, l), k, to, home, info, entry);
  }

  /** The first switch to a prepared cothread enters `DereferenceCallInfo` as the platform requires, with
      the call information of that cothread, and the entry that runs is the one it was prepared with. */
  lemma FirstEntry(b: Backend, c: Spec, s: Concrete.System, a: State, k: Kid, to: Tid, t: Tid, home: Home)
    requires Correct(b, c) && Inv(c.limits, a) && Rel(c, s, a)
    requires Legal(c.limits, a, SwitchTo(k, to, t, home)) && a.threads[to].run.Fresh?
    ensures Defined(s, SwitchTo(k, to, t, home))
    ensures var th := a.threads[to];
      && th.life.Pending? && th.life.info in s.calls
      && JustEntered(c, Execute(b, s, SwitchTo(k, to, t, home)), k, to, th.home, th.life.info, s.calls[th.life.info])
  {
    var th := a.threads[to];
    FirstStep(c.limits, a, k, to, t, home);
    EnteredAfter(b, c, s, a, SwitchTo(k, to, t, home), k, to, th.home, th.life.info, a.calls[th.life.info]);
  }

  /** A saved or fresh frame is found below the top of the stack it belongs to. */
  lemma TopInStack(p: StackFrame.Platform, m: Memory, th: Thread)
    requires StackFrame.Sound(p) && th.home.WellFormed()
    requires th.run.Suspended? ==> StackFrame.Holds(p, m, th.home, th.run.cont) && th.run.cont.sp <= th.home.stack.hi
    requires th.run.Fresh? ==> th.life.Pending? && StackFrame.Primed(p, m, th.home, th.life.info)
    requires !th.run.Running?
    ensures th.home.stack.lo <= m[th.home.field] < th.home.stack.hi
  {
    StackFrame.MoreBytes(p.w, p.n);
  }

  /** The saving half of `Switch` leaves `to`, or the caller itself, with such a frame. */
  lemma TopAfterSave(p: StackFrame.Platform, m: Memory, from: Thread, to: Thread, cpu: Context)
    requires StackFrame.Sound(p) && from.home.WellFormed() && to.home.WellFormed() && cpu.sp <= from.home.stack.hi
    requires Saved(StackFrame.Representation(p), m, StackFrame.Save(p, m, cpu, from.home.field), cpu, from.home)
    requires to != from ==> from.home.Apart(to.home) && !to.run.Running?
    requires to.run.Suspended? ==> StackFrame.Holds(p, m, to.home, to.run.cont) && to.run.cont.sp <= to.home.stack.hi
    requires to.run.Fresh? ==> to.life.Pending? && StackFrame.Primed(p, m, to.home, to.life.info)
    ensures to.home.stack.lo <= StackFrame.Save(p, m, cpu, from.home.field)[to.home.field] < to.home.stack.hi
  {
    if from == to {
      TopInStack(p, StackFrame.Save(p, m, cpu, from.home.field), to.(run := Suspended(cpu)));
    } else {
      TopInStack(p, m, to);
    }
  }

  /** A new wrapper has no saved stack pointer. */
  lemma WrapperStartsNull(p: StackFrame.Platform, s: Concrete.System, k: Kid, t: Tid, home: Home)
    requires k in s.kernels && s.kernels[k].current.None?
    ensures var s' := Wrap(StackFrame.Implementation(p), s, k, t, home);
      s'.mem[home.field] == NULL && forall x | x != home.field :: s'.mem[x] == s.mem[x]
  {
  }

  /** A platform that builds frames never loads a null `stackTop`, although that is what a wrapper starts
      with: whatever cothread a program may switch to, itself included, the stack pointer that `Switch`
      loads points into that cothread's stack. */
  lemma NullNeverLoaded(p: StackFrame.Platform, s: Concrete.System, a: State, k: Kid, to: Tid)
    requires StackFrame.Sound(p)
    requires var c := StackFrame.Representation(p);
      Inv(c.limits, a) && Rel(c, s, a) && InProgram(a, k) && MayTransfer(c.limits, a, k, to)
    ensures k in s.kernels && a.kernels[k].current.value in s.homes && to in s.homes
    ensures var from, home := s.homes[a.kernels[k].current.value], s.homes[to];
      var top := StackFrame.Save(p, s.mem, s.kernels[k].cpu, from.field)[home.field];
      top != NULL && home.stack.lo <= top < home.stack.hi
  {
    var c, from := StackFrame.Representation(p), a.kernels[k].current.value;
    CallerCanSave(c, s, a, k, to);
    assert ThreadOk(c.limits, a.calls, a.threads[to]) && ThreadOk(c.limits, a.calls, a.threads[from]);
    StackFrame.SaveCorrect(p, s.mem, a.kernels[k].cpu, a.threads[from].home);
    assert Represents(c, s.mem, s.active, a.threads[to]);
    if from != to { assert PairOk(a.threads[from], a.threads[to]); }
    TopAfterSave(p, s.mem, a.threads[from], a.threads[to], a.kernels[k].cpu);
  }
}
