/** Every correct platform implementation, run for any number of steps, behaves exactly like the abstract
    coroutine machine. */
module Refinement {
  import opened Common
  import opened Machine
  import opened Coroutine
  import opened Runs
  import opened Backend
  import opened System

  /** The registers agree, up to those that a call into the library's own C++ leaves unspecified. */
  ghost predicate SameCpu(c: Spec, threads: ThreadMap, current: Option<Tid>, cpu: Context, abs: Context) {
    && cpu.pc == abs.pc
    && if cpu.pc == DEREFERENCE_CALL_INFO then
         cpu.sp == abs.sp
           && (current.Some? && current.value in threads ==> c.callEntry(threads[current.value].home, cpu))
       else if cpu.pc == COTHREAD_RETURNED then
         (current.Some? && current.value in threads ==>
            EntersReturned(c, threads[current.value].home, abs.regs, cpu))
       else cpu == abs
  }

  ghost predicate SameKernel(c: Spec, threads: ThreadMap, kern: Kernel, abs: Kernel) {
    && kern.stack == abs.stack && kern.current == abs.current
    && SameCpu(c, threads, kern.current, kern.cpu, abs.cpu)
  }

  /** Memory represents cothread `th`. */
  ghost predicate Represents(c: Spec, mem: Memory, active: map<int, Word>, th: Thread) {
    && (match th.run
        case Running(_) => c.ready(mem, th.home)
        case Suspended(cont) => c.holds(mem, th.home, cont)
        case Fresh => th.life.Pending? && c.primed(mem, th.home, th.life.info))
    && (th.life.Active? ==>
          c.linked(mem, th.home) && th.home.root in active && active[th.home.root] == th.life.info)
  }

  ghost predicate AllRepresented(c: Spec, mem: Memory, active: map<int, Word>, threads: ThreadMap) {
    forall t | t in threads :: Represents(c, mem, active, threads[t])
  }

  ghost predicate SameKernels(c: Spec, threads: ThreadMap, kernels: KernelMap, abs: KernelMap) {
    kernels.Keys == abs.Keys && forall k | k in abs :: SameKernel(c, threads, kernels[k], abs[k])
  }

  ghost function HomesOf(threads: ThreadMap): map<Tid, Home> {
    map t | t in threads :: threads[t].home
  }

  ghost predicate SameMem(mem: Memory, abs: imap<int, Word>) {
    forall x | x in abs :: mem[x] == abs[x]
  }

  ghost predicate Rel(c: Spec, s: System, a: State) {
    && SameMem(s.mem, a.mem)
    && s.homes == HomesOf(a.threads)
    && SameKernels(c, a.threads, s.kernels, a.kernels)
    && AllRepresented(c, s.mem, s.active, a.threads)
    && s == s.(calls := a.calls, handler := a.handler, ended := a.ended, log := a.log)
  }

  // ---------------------------------------------------------------------------------------------
  // What changes of memory leave alone

  /** A change of memory that spares the words of `th` that the library relies on. */
  lemma Spared(c: Spec, m: Memory, m': Memory, active: map<int, Word>, th: Thread)
    requires Local(c) && Represents(c, m, active, th)
    requires m'[th.home.field] == m[th.home.field]
    requires th.run.Suspended? ==> SamePrivate(m, m', th.home, th.run.cont.sp)
    requires th.run.Fresh? ==> SamePrivate(m, m', th.home, th.home.stack.hi)
    requires th.life.Active? && th.home.stack.Has(th.home.root) ==> m'[th.home.root] == m[th.home.root]
    ensures Represents(c, m', active, th)
  {
    assert LinkedLocal(c, m, m', th.home);
    match th.run
    case Running(_) => assert ReadyLocal(c, m, m', th.home);
    case Suspended(cont) => assert HoldsLocal(c, m, m', th.home, cont);
    case Fresh => assert PrimedLocal(c, m, m', th.home, th.life.info);
  }

  /** A library routine that works on behalf of `h` leaves every cothread apart from `h` as it was. */
  lemma OthersKept(c: Spec, m: Memory, m': Memory, active: map<int, Word>, h: Home, sp: int, th: Thread)
    requires Local(c) && OnlyPrivate(m, m', h, sp) && sp <= h.stack.hi
    requires h.Apart(th.home) && th.home.WellFormed() && Represents(c, m, active, th)
    requires th.run.Suspended? ==> SpInStack(th, th.run.cont.sp)
    ensures Represents(c, m', active, th)
  {
    Spared(c, m, m', active, th);
  }

  /** Program steps leave every cothread as it was. */
  lemma WritesKeep(c: Spec, m: Memory, active: map<int, Word>, writes: map<int, Word>, th: Thread)
    requires Local(c) && Represents(c, m, active, th)
    requires forall x | x in writes :: !Guarded(th, x)
    ensures Represents(c, Store(m, writes), active, th)
  {
    Spared(c, m, Store(m, writes), active, th);
  }

  lemma ForgetSame(m: Memory, m': Memory, abs: imap<int, Word>, h: Home, sp: int)
    requires SameMem(m, abs) && OnlyPrivate(m, m', h, sp)
    ensures SameMem(m', Forget(abs, h, sp))
  {
  }

  /** The same for all threads but `t` and `u`. */
  lemma AllOthersKept(lim: Limits, c: Spec, calls: map<Word, Entry>, threads: ThreadMap, m: Memory, m': Memory,
                      active: map<int, Word>, h: Home, sp: int, t: Tid, u: Tid)
    requires Local(c) && OnlyPrivate(m, m', h, sp) && sp <= h.stack.hi
    requires Threads(lim, calls, threads) && AllRepresented(c, m, active, threads)
    requires forall v | v in threads && v != t && v != u :: h.Apart(threads[v].home)
    ensures forall v | v in threads && v != t && v != u :: Represents(c, m', active, threads[v])
  {
    forall v | v in threads && v != t && v != u ensures Represents(c, m', active, threads[v]) {
      assert ThreadOk(lim, calls, threads[v]);
      OthersKept(c, m, m', active, h, sp, threads[v]);
    }
  }

  /** Cothreads stay where they are. */
  ghost predicate SamePlaces(threads: ThreadMap, threads': ThreadMap) {
    threads.Keys == threads'.Keys && forall t | t in threads :: threads'[t].home == threads[t].home
  }

  lemma SameHomes(threads: ThreadMap, threads': ThreadMap)
    requires SamePlaces(threads, threads')
    ensures HomesOf(threads') == HomesOf(threads)
  {
  }

  lemma TwoPlaces(threads: ThreadMap, t: Tid, u: Tid, a: Thread, b: Thread)
    requires t in threads && u in threads && a.home == threads[t].home && b.home == threads[u].home
    ensures SamePlaces(threads, threads[t := a][u := b])
    ensures HomesOf(threads[t := a][u := b]) == HomesOf(threads)
  {
    SameHomes(threads, threads[t := a][u := b]);
  }

  lemma MoreHomes(threads: ThreadMap, t: Tid, th: Thread)
    ensures HomesOf(threads[t := th]) == HomesOf(threads)[t := th.home]
  {
  }

  lemma FewerHomes(threads: ThreadMap, t: Tid)
    ensures HomesOf(threads - {t}) == HomesOf(threads) - {t}
  {
  }

  lemma SetTwo(c: Spec, m: Memory, active: map<int, Word>, threads: ThreadMap, t: Tid, u: Tid, a: Thread, b: Thread)
    requires Represents(c, m, active, a) && Represents(c, m, active, b)
    requires forall v | v in threads && v != t && v != u :: Represents(c, m, active, threads[v])
    ensures AllRepresented(c, m, active, threads[t := a][u := b])
  {
  }

  lemma SetKernel(c: Spec, threads: ThreadMap, threads': ThreadMap, kernels: KernelMap, abs: KernelMap, k: Kid,
                  kern: Kernel, kern': Kernel)
    requires SameKernels(c, threads, kernels, abs) && SamePlaces(threads, threads')
    requires k in abs && SameKernel(c, threads', kern, kern')
    ensures SameKernels(c, threads', kernels[k := kern], abs[k := kern'])
  {
    forall j | j in abs && j != k ensures SameKernel(c, threads', kernels[j], abs[j]) {
      assert SameKernel(c, threads, kernels[j], abs[j]);
    }
  }

  // ---------------------------------------------------------------------------------------------
  // One step

  lemma WrapKernels(c: Spec, threads: ThreadMap, kernels: KernelMap, abs: KernelMap, k: Kid, t: Tid, th: Thread)
    requires SameKernels(c, threads, kernels, abs) && Kernels(threads, abs)
    requires k in abs && abs[k].current.None? && t !in threads
    ensures SameKernels(c, threads[t := th], kernels[k := kernels[k].(current := Some(t))],
                        abs[k := abs[k].(current := Some(t))])
  {
    forall j | j in abs
      ensures SameKernel(c, threads[t := th], kernels[k := kernels[k].(current := Some(t))][j],
                         abs[k := abs[k].(current := Some(t))][j])
    {
      assert SameKernel(c, threads, kernels[j], abs[j]);
      assert KernelOk(threads, j, abs[j]);
    }
  }

  lemma WrapRepresents(b: Backend, c: Spec, s: System, a: State, k: Kid, t: Tid, home: Home)
    requires Correct(b, c) && Threads(c.limits, a.calls, a.threads) && MayWrap(c.limits, a, k, t, home)
    requires t !in a.threads
    requires AllRepresented(c, s.mem, s.active, a.threads)
    ensures var m' := b.wrap(s.mem, home);
      && OnlyPrivate(s.mem, m', home, home.stack.lo)
      && AllRepresented(c, m', s.active, a.threads[t := Thread(home, Running(k), Native)])
  {
    assert WrapOk(b, c, s.mem, home);
    AllOthersKept(c.limits, c, a.calls, a.threads, s.mem, b.wrap(s.mem, home), s.active, home, home.stack.lo, t, t);
  }

  lemma WrapSimulates(b: Backend, c: Spec, s: System, a: State, k: Kid, t: Tid, home: Home)
    requires Correct(b, c) && Inv(c.limits, a) && Rel(c, s, a) && k in a.kernels
    requires a.kernels[k].current.None? ==> MayWrap(c.limits, a, k, t, home)
    ensures Rel(c, Wrap(b, s, k, t, home), EnsureCurrent(a, k, t, home))
  {
    assert SameKernel(c, a.threads, s.kernels[k], a.kernels[k]);
    if a.kernels[k].current.None? {
      WrapRepresents(b, c, s, a, k, t, home);
      ForgetSame(s.mem, b.wrap(s.mem, home), a.mem, home, home.stack.lo);
      WrapKernels(c, a.threads, s.kernels, a.kernels, k, t, Thread(home, Running(k), Native));
      MoreHomes(a.threads, t, Thread(home, Running(k), Native));
    }
  }

  lemma MoreKernels(c: Spec, threads: ThreadMap, kernels: KernelMap, abs: KernelMap, t: Tid, th: Thread)
    requires SameKernels(c, threads, kernels, abs) && Kernels(threads, abs) && t !in threads
    ensures SameKernels(c, threads[t := th], kernels, abs)
  {
    forall j | j in abs ensures SameKernel(c, threads[t := th], kernels[j], abs[j]) {
      assert SameKernel(c, threads, kernels[j], abs[j]);
      assert KernelOk(threads, j, abs[j]);
    }
  }

  /** What a running cothread needs to be able to call `Switch`. */
  lemma CallerCanSave(c: Spec, s: System, a: State, k: Kid, to: Tid)
    requires Inv(c.limits, a) && Rel(c, s, a) && InProgram(a, k) && MayTransfer(c.limits, a, k, to)
    ensures var from := a.kernels[k].current.value;
      && s.kernels[k].cpu == a.kernels[k].cpu && s.kernels[k].current == Some(from)
      && s.kernels[k].stack == a.kernels[k].stack
      && a.threads[from].run.Running? && SpInStack(a.threads[from], a.kernels[k].cpu.sp)
      && CanSave(c, s.mem, a.kernels[k].cpu, a.threads[from].home)
  {
    var from := a.kernels[k].current.value;
    assert SameKernel(c, a.threads, s.kernels[k], a.kernels[k]);
    assert KernelOk(a.threads, k, a.kernels[k]);
    assert ThreadOk(c.limits, a.calls, a.threads[from]);
    assert Represents(c, s.mem, s.active, a.threads[from]);
  }

  /** The cothread that is switched away from has become its saved continuation. */
  lemma CallerSaved(c: Spec, m: Memory, m': Memory, active: map<int, Word>, th: Thread, cpu: Context)
    requires Local(c) && Represents(c, m, active, th) && Saved(c, m, m', cpu, th.home)
    requires th.run.Running? && th.home.WellFormed() && SpInStack(th, cpu.sp)
    requires th.life.Active? ==> !th.home.Wrapper()
    ensures Represents(c, m', active, th.(run := Suspended(cpu)))
  {
    assert LinkedLocal(c, m, m', th.home);
  }

  lemma SetSame<T>(m: map<nat, T>, k: nat)
    requires k in m
    ensures m[k := m[k]] == m
  {
  }

  /** A switch from `t` to itself, in memory. */
  lemma SelfRepresents(b: Backend, c: Spec, m: Memory, active: map<int, Word>, calls: map<Word, Entry>,
                       threads: ThreadMap, t: Tid, cpu: Context)
    requires Correct(b, c) && Threads(c.limits, calls, threads) && Pairs(threads)
    requires AllRepresented(c, m, active, threads)
    requires t in threads && threads[t].run.Running? && CanSave(c, m, cpu, threads[t].home)
    requires SpInStack(threads[t], cpu.sp)
    ensures var out := b.switchTo(m, cpu, threads[t].home, threads[t].home);
      && out.cpu == cpu && OnlyPrivate(m, out.mem, threads[t].home, cpu.sp)
      && AllRepresented(c, out.mem, active, threads)
  {
    var th := threads[t];
    var m' := b.switchTo(m, cpu, th.home, th.home).mem;
    assert ThreadOk(c.limits, calls, th);
    assert SelfSwitchOk(b, c, m, cpu, th.home);
    CallerSaved(c, m, m', active, th, cpu);
    assert forall u | u in threads && u != t :: PairOk(th, threads[u]);
    AllOthersKept(c.limits, c, calls, threads, m, m', active, th.home, cpu.sp, t, t);
  }

  lemma SelfSimulates(b: Backend, c: Spec, s: System, a: State, k: Kid, t: Tid)
    requires Correct(b, c) && Inv(c.limits, a) && Rel(c, s, a)
    requires InProgram(a, k) && MayTransfer(c.limits, a, k, t) && a.kernels[k].current == Some(t)
    ensures Rel(c, Switch(b, s, k, t, t), Transfer(a, k, t, t))
  {
    CallerCanSave(c, s, a, k, t);
    var home, cpu := a.threads[t].home, a.kernels[k].cpu;
    SelfRepresents(b, c, s.mem, s.active, a.calls, a.threads, t, cpu);
    ForgetSame(s.mem, b.switchTo(s.mem, cpu, home, home).mem, a.mem, home, cpu.sp);
    SetSame(s.kernels, k);
  }

  /** A switch from `from` to a suspended `to`, in memory. */
  lemma ResumeRepresents(b: Backend, c: Spec, m: Memory, active: map<int, Word>, calls: map<Word, Entry>,
                         threads: ThreadMap, k: Kid, from: Tid, to: Tid, cpu: Context)
    requires Correct(b, c) && Threads(c.limits, calls, threads) && Pairs(threads)
    requires AllRepresented(c, m, active, threads)
    requires from in threads && to in threads && from != to && threads[to].run.Suspended?
    requires threads[from].run.Running? && CanSave(c, m, cpu, threads[from].home) && SpInStack(threads[from], cpu.sp)
    ensures var out := b.switchTo(m, cpu, threads[from].home, threads[to].home);
      && out.cpu == threads[to].run.cont && OnlyPrivate(m, out.mem, threads[from].home, cpu.sp)
      && AllRepresented(c, out.mem, active,
                        threads[from := threads[from].(run := Suspended(cpu))][to := threads[to].(run := Running(k))])
  {
    var fr, th := threads[from], threads[to];
    var m' := b.switchTo(m, cpu, fr.home, th.home).mem;
    assert ThreadOk(c.limits, calls, fr) && ThreadOk(c.limits, calls, th) && PairOk(fr, th);
    assert Represents(c, m, active, th);
    assert SwitchOk(b, c, m, cpu, fr.home, th.home, th.run.cont);
    CallerSaved(c, m, m', active, fr, cpu);
    assert forall u | u in threads && u != from :: PairOk(fr, threads[u]);
    AllOthersKept(c.limits, c, calls, threads, m, m', active, fr.home, cpu.sp, from, to);
    assert LinkedLocal(c, m, m', th.home);
    SetTwo(c, m', active, threads, from, to, fr.(run := Suspended(cpu)), th.(run := Running(k)));
  }

  lemma ResumeSimulates(b: Backend, c: Spec, s: System, a: State, k: Kid, from: Tid, to: Tid)
    requires Correct(b, c) && Inv(c.limits, a) && Rel(c, s, a)
    requires InProgram(a, k) && MayTransfer(c.limits, a, k, to) && a.kernels[k].current == Some(from) && from != to
    requires a.threads[to].run.Suspended?
    ensures Rel(c, Switch(b, s, k, from, to), Transfer(a, k, from, to))
  {
    CallerCanSave(c, s, a, k, to);
    var cpu := a.kernels[k].cpu;
    var a' := Transfer(a, k, from, to);
    var out := b.switchTo(s.mem, cpu, a.threads[from].home, a.threads[to].home);
    ResumeRepresents(b, c, s.mem, s.active, a.calls, a.threads, k, from, to, cpu);
    ForgetSame(s.mem, out.mem, a.mem, a.threads[from].home, cpu.sp);
    assert ThreadOk(c.limits, a.calls, a.threads[to]);
    TwoPlaces(a.threads, from, to, a.threads[from].(run := Suspended(cpu)), a.threads[to].(run := Running(k)));
    SetKernel(c, a.threads, a'.threads, s.kernels, a.kernels, k, s.kernels[k].(cpu := out.cpu, current := Some(to)),
              a'.kernels[k]);
  }

  lemma ActiveKept(c: Spec, m: Memory, active: map<int, Word>, th: Thread, r: int, info: Word)
    requires Represents(c, m, active, th) && (th.life.Active? ==> th.home.root != r)
    ensures Represents(c, m, active[r := info], th)
  {
  }

  /** A switch from `from` to a cothread `to` that has not run yet, in memory. */
  lemma EnterRepresents(b: Backend, c: Spec, m: Memory, active: map<int, Word>, calls: map<Word, Entry>,
                        threads: ThreadMap, k: Kid, from: Tid, to: Tid, cpu: Context)
    requires Correct(b, c) && Threads(c.limits, calls, threads) && Pairs(threads)
    requires AllRepresented(c, m, active, threads)
    requires from in threads && to in threads && from != to && threads[to].run.Fresh? && threads[to].life.Pending?
    requires threads[from].run.Running? && CanSave(c, m, cpu, threads[from].home) && SpInStack(threads[from], cpu.sp)
    ensures var out := b.switchTo(m, cpu, threads[from].home, threads[to].home);
      var th := threads[to];
      && out.cpu.pc == DEREFERENCE_CALL_INFO && out.cpu.sp == th.home.root && out.arg == th.life.info
      && c.callEntry(th.home, out.cpu) && OnlyPrivate(m, out.mem, threads[from].home, cpu.sp)
      && AllRepresented(c, out.mem, active[th.home.root := th.life.info],
           threads[from := threads[from].(run := Suspended(cpu))]
                  [to := Thread(th.home, Running(k), Active(th.life.info))])
  {
    var fr, th := threads[from], threads[to];
    var m' := b.switchTo(m, cpu, fr.home, th.home).mem;
    var root, info := th.home.root, th.life.info;
    assert ThreadOk(c.limits, calls, fr) && ThreadOk(c.limits, calls, th) && PairOk(fr, th);
    assert Represents(c, m, active, th);
    assert FirstSwitchOk(b, c, m, cpu, fr.home, th.home, info);
    CallerSaved(c, m, m', active, fr, cpu);
    ActiveKept(c, m', active, fr.(run := Suspended(cpu)), root, info);
    assert forall u | u in threads && u != from :: PairOk(fr, threads[u]);
    AllOthersKept(c.limits, c, calls, threads, m, m', active, fr.home, cpu.sp, from, to);
    forall v | v in threads && v != from && v != to ensures Represents(c, m', active[root := info], threads[v]) {
      assert PairOk(th, threads[v]) && ThreadOk(c.limits, calls, threads[v]);
      ActiveKept(c, m', active, threads[v], root, info);
    }
    SetTwo(c, m', active[root := info], threads, from, to, fr.(run := Suspended(cpu)),
           Thread(th.home, Running(k), Active(info)));
  }

  lemma EnterSimulates(b: Backend, c: Spec, s: System, a: State, k: Kid, from: Tid, to: Tid)
    requires Correct(b, c) && Inv(c.limits, a) && Rel(c, s, a)
    requires InProgram(a, k) && MayTransfer(c.limits, a, k, to) && a.kernels[k].current == Some(from) && from != to
    requires a.threads[to].run.Fresh? && a.threads[to].life.Pending?
    ensures Rel(c, Switch(b, s, k, from, to), Transfer(a, k, from, to))
  {
    CallerCanSave(c, s, a, k, to);
    var cpu, th := a.kernels[k].cpu, a.threads[to];
    var a' := Transfer(a, k, from, to);
    var out := b.switchTo(s.mem, cpu, a.threads[from].home, th.home);
    EnterRepresents(b, c, s.mem, s.active, a.calls, a.threads, k, from, to, cpu);
    ForgetSame(s.mem, out.mem, a.mem, a.threads[from].home, cpu.sp);
    TwoPlaces(a.threads, from, to, a.threads[from].(run := Suspended(cpu)),
              Thread(th.home, Running(k), Active(th.life.info)));
    SetKernel(c, a.threads, a'.threads, s.kernels, a.kernels, k, s.kernels[k].(cpu := out.cpu, current := Some(to)),
              a'.kernels[k]);
  }

  lemma TransferSimulates(b: Backend, c: Spec, s: System, a: State, k: Kid, to: Tid)
    requires Correct(b, c) && Inv(c.limits, a) && Rel(c, s, a)
    requires InProgram(a, k) && MayTransfer(c.limits, a, k, to)
    ensures var from := a.kernels[k].current.value;
      && s.kernels[k].current == Some(from) && from in s.homes && to in s.homes
      && Rel(c, Switch(b, s, k, from, to), Transfer(a, k, from, to))
  {
    var from := a.kernels[k].current.value;
    CallerCanSave(c, s, a, k, to);
    assert ThreadOk(c.limits, a.calls, a.threads[to]);
    if from == to {
      SelfSimulates(b, c, s, a, k, to);
    } else if a.threads[to].run.Fresh? {
      EnterSimulates(b, c, s, a, k, from, to);
    } else {
      ResumeSimulates(b, c, s, a, k, from, to);
    }
  }

  lemma CreateSimulates(b: Backend, c: Spec, s: System, a: State, t: Tid, home: Home, entry: Entry, info: Word)
    requires Correct(b, c) && Inv(c.limits, a) && Rel(c, s, a) && MayCreate(c.limits, a, t, home, info)
    ensures Rel(c, Construct(b, s, t, home, entry, info), NewThread(a, t, home, entry, info))
  {
    var th := Thread(home, Fresh, Pending(info));
    var m' := b.prepare(s.mem, home, info);
    assert PrepareOk(b, c, s.mem, home, info);
    ForgetSame(s.mem, m', a.mem, home, home.stack.hi);
    AllOthersKept(c.limits, c, a.calls, a.threads, s.mem, m', s.active, home, home.stack.hi, t, t);
    SetTwo(c, m', s.active, a.threads, t, t, th, th);
    SetSame(a.threads[t := th], t);
    MoreHomes(a.threads, t, th);
    MoreKernels(c, a.threads, s.kernels, a.kernels, t, th);
  }

  lemma ReturnSimulates(b: Backend, c: Spec, s: System, a: State, k: Kid)
    requires Correct(b, c) && Inv(c.limits, a) && Rel(c, s, a) && InProgram(a, k) && MayReturn(a, k)
    ensures var t := a.kernels[k].current.value;
      && s.kernels[k].current == Some(t) && t in s.homes && s.kernels[k].cpu.sp in s.active
      && Rel(c, Return(b, s, k, t), FinishCall(a, k, t))
  {
    var t := a.kernels[k].current.value;
    var th, cpu := a.threads[t], a.kernels[k].cpu;
    assert SameKernel(c, a.threads, s.kernels[k], a.kernels[k]);
    assert KernelOk(a.threads, k, a.kernels[k]) && ThreadOk(c.limits, a.calls, th);
    assert Represents(c, s.mem, s.active, th);
    assert FinishOk(b, c, s.mem, cpu, th.home);
    var out := b.finish(s.mem, cpu, th.home);
    var done := th.(life := Finished);
    ForgetSame(s.mem, out.mem, a.mem, th.home, th.home.root);
    assert forall u | u in a.threads && u != t :: PairOk(th, a.threads[u]);
    AllOthersKept(c.limits, c, a.calls, a.threads, s.mem, out.mem, s.active, th.home, th.home.root, t, t);
    SetTwo(c, out.mem, s.active, a.threads, t, t, done, done);
    SetSame(a.threads[t := done], t);
    TwoPlaces(a.threads, t, t, done, done);
    SetKernel(c, a.threads, a.threads[t := done], s.kernels, a.kernels, k, s.kernels[k].(cpu := out.cpu),
              a.kernels[k].(cpu := cpu.(pc := COTHREAD_RETURNED)));
  }

  lemma UserSimulates(c: Spec, s: System, a: State, k: Kid, cpu: Context, writes: map<int, Word>)
    requires Local(c) && Rel(c, s, a) && MayUse(a, k, cpu, writes)
    ensures k in s.kernels && Rel(c, Program(s, k, cpu, writes), Use(a, k, cpu, writes))
  {
    UserStores(c, s, a, k, cpu, writes);
    UserKernels(c, s, a, k, cpu);
  }

  lemma UserKernels(c: Spec, s: System, a: State, k: Kid, cpu: Context)
    requires Rel(c, s, a) && k in a.kernels && UserCode(cpu.pc)
    ensures k in s.kernels
    ensures SameKernels(c, a.threads, s.kernels[k := s.kernels[k].(cpu := cpu)],
                        a.kernels[k := a.kernels[k].(cpu := cpu)])
  {
    assert SameKernel(c, a.threads, s.kernels[k], a.kernels[k]);
    SetKernel(c, a.threads, a.threads, s.kernels, a.kernels, k, s.kernels[k].(cpu := cpu), a.kernels[k].(cpu := cpu));
  }

  lemma UserStores(c: Spec, s: System, a: State, k: Kid, cpu: Context, writes: map<int, Word>)
    requires Local(c) && Rel(c, s, a) && MayUse(a, k, cpu, writes)
    ensures AllRepresented(c, Store(s.mem, writes), s.active, a.threads)
    ensures SameMem(Store(s.mem, writes), Overlay(a.mem, writes))
  {
    WritesRepresent(c, s.mem, s.active, a, writes);
    WritesSame(s.mem, a.mem, writes);
  }

  lemma WritesRepresent(c: Spec, m: Memory, active: map<int, Word>, a: State, writes: map<int, Word>)
    requires Local(c) && AllRepresented(c, m, active, a.threads) && forall x | x in writes :: Writable(a, x)
    ensures AllRepresented(c, Store(m, writes), active, a.threads)
  {
    forall t | t in a.threads ensures Represents(c, Store(m, writes), active, a.threads[t]) {
      WritesKeep(c, m, active, writes, a.threads[t]);
    }
  }

  lemma WritesSame(m: Memory, abs: imap<int, Word>, writes: map<int, Word>)
    requires SameMem(m, abs)
    ensures SameMem(Store(m, writes), Overlay(abs, writes))
  {
  }

  lemma BootSimulates(b: Backend, c: Spec, s: System, a: State, l: Label)
    requires Rel(c, s, a) && l.Boot? && UserCode(l.cpu.pc)
    ensures Rel(c, Execute(b, s, l), Step(a, l))
  {
    forall j | j in a.kernels && j != l.k ensures SameKernel(c, a.threads, s.kernels[j], a.kernels[j]) {
    }
  }

  lemma DestroySimulates(b: Backend, c: Spec, s: System, a: State, k: Kid, t: Tid)
    requires Rel(c, s, a)
    ensures Rel(c, Execute(b, s, Destroy(k, t)), Step(a, Destroy(k, t)))
  {
    FewerHomes(a.threads, t);
    forall j | j in a.kernels ensures SameKernel(c, a.threads - {t}, s.kernels[j], a.kernels[j]) {
      assert SameKernel(c, a.threads, s.kernels[j], a.kernels[j]);
    }
  }

  lemma HandlerSimulates(b: Backend, c: Spec, s: System, a: State, l: Label)
    requires Rel(c, s, a) && l.SetHandler?
    ensures Rel(c, Execute(b, s, l), Step(a, l))
  {
  }

  lemma UserSteps(b: Backend, c: Spec, s: System, a: State, k: Kid, cpu: Context, writes: map<int, Word>)
    requires Correct(b, c) && Inv(c.limits, a) && Rel(c, s, a) && Legal(c.limits, a, User(k, cpu, writes))
    ensures Defined(s, User(k, cpu, writes))
    ensures Rel(c, Execute(b, s, User(k, cpu, writes)), Step(a, User(k, cpu, writes)))
  {
    UserSimulates(c, s, a, k, cpu, writes);
  }

  lemma SwitchSteps(b: Backend, c: Spec, s: System, a: State, k: Kid, to: Tid, t: Tid, home: Home)
    requires Correct(b, c) && Inv(c.limits, a) && Rel(c, s, a) && Legal(c.limits, a, SwitchTo(k, to, t, home))
    ensures Defined(s, SwitchTo(k, to, t, home))
    ensures Rel(c, Execute(b, s, SwitchTo(k, to, t, home)), Step(a, SwitchTo(k, to, t, home)))
  {
    assert SameKernel(c, a.threads, s.kernels[k], a.kernels[k]);
    EnsureCurrentKeepsInv(c.limits, a, k, t, home);
    WrapSimulates(b, c, s, a, k, t, home);
    TransferSimulates(b, c, Wrap(b, s, k, t, home), EnsureCurrent(a, k, t, home), k, to);
  }

  lemma CurrentSteps(b: Backend, c: Spec, s: System, a: State, k: Kid, t: Tid, home: Home)
    requires Correct(b, c) && Inv(c.limits, a) && Rel(c, s, a) && Legal(c.limits, a, Current(k, t, home))
    ensures Defined(s, Current(k, t, home)) && Rel(c, Execute(b, s, Current(k, t, home)), Step(a, Current(k, t, home)))
  {
    WrapSimulates(b, c, s, a, k, t, home);
  }

  lemma CreateSteps(b: Backend, c: Spec, s: System, a: State, k: Kid, t: Tid, home: Home, entry: Entry, info: Word)
    requires Correct(b, c) && Inv(c.limits, a) && Rel(c, s, a) && Legal(c.limits, a, Create(k, t, home, entry, info))
    ensures Defined(s, Create(k, t, home, entry, info))
    ensures Rel(c, Execute(b, s, Create(k, t, home, entry, info)), Step(a, Create(k, t, home, entry, info)))
  {
    CreateSimulates(b, c, s, a, t, home, entry, info);
  }

  lemma ReturnSteps(b: Backend, c: Spec, s: System, a: State, k: Kid)
    requires Correct(b, c) && Inv(c.limits, a) && Rel(c, s, a) && Legal(c.limits, a, EntryReturns(k))
    ensures Defined(s, EntryReturns(k)) && Rel(c, Execute(b, s, EntryReturns(k)), Step(a, EntryReturns(k)))
  {
    ReturnSimulates(b, c, s, a, k);
  }

  lemma PlainSteps(b: Backend, c: Spec, s: System, a: State, l: Label)
    requires Rel(c, s, a) && (l.Boot? ==> UserCode(l.cpu.pc)) && (l.Boot? || l.Destroy? || l.SetHandler?)
    ensures Defined(s, l) && Rel(c, Execute(b, s, l), Step(a, l))
  {
    match l
    case Boot(k, stack, cpu) => BootSimulates(b, c, s, a, l);
    case Destroy(k, t) => DestroySimulates(b, c, s, a, k, t);
    case SetHandler(k, h) => HandlerSimulates(b, c, s, a, l);
  }

  /** The steps that run on a cothread's behalf. */
  lemma RunningSteps(b: Backend, c: Spec, s: System, a: State, l: Label)
    requires Correct(b, c) && Inv(c.limits, a) && Rel(c, s, a) && Legal(c.limits, a, l)
    requires l.User? || l.SwitchTo? || l.EntryReturns?
    ensures Defined(s, l) && Rel(c, Execute(b, s, l), Step(a, l))
  {
    match l
    case User(k, cpu, writes) => UserSteps(b, c, s, a, k, cpu, writes);
    case SwitchTo(k, to, t, home) => SwitchSteps(b, c, s, a, k, to, t, home);
    case EntryReturns(k) => ReturnSteps(b, c, s, a, k);
  }

  /** The steps that add or remove cothreads, kernel threads or a handler. */
  lemma ManagingSteps(b: Backend, c: Spec, s: System, a: State, l: Label)
    requires Correct(b, c) && Inv(c.limits, a) && Rel(c, s, a) && Legal(c.limits, a, l)
    requires !(l.User? || l.SwitchTo? || l.EntryReturns?)
    ensures Defined(s, l) && Rel(c, Execute(b, s, l), Step(a, l))
  {
    match l
    case Current(k, t, home) => CurrentSteps(b, c, s, a, k, t, home);
    case Create(k, t, home, entry, info) => CreateSteps(b, c, s, a, k, t, home, entry, info);
    case _ => PlainSteps(b, c, s, a, l);
  }

  /** One step: whatever the program does within its contract, the machine does what the abstract
      machine does. */
  lemma StepSimulates(b: Backend, c: Spec, s: System, a: State, l: Label)
    requires Correct(b, c) && Inv(c.limits, a) && Rel(c, s, a) && Legal(c.limits, a, l)
    ensures Defined(s, l) && Rel(c, Execute(b, s, l), Step(a, l))
  {
    if l.User? || l.SwitchTo? || l.EntryReturns? {
      RunningSteps(b, c, s, a, l);
    } else {
      ManagingSteps(b, c, s, a, l);
    }
  }

  // ---------------------------------------------------------------------------------------------
  // Whole runs

  /** For every correct backend, every program that keeps the documented contract and any number of
      steps: the machine never looks up a missing cothread or call, and stays in the state the abstract
      coroutine machine prescribes. */
  lemma {:induction false} RunSimulates(b: Backend, c: Spec, s: System, a: State, ls: seq<Label>)
    requires Correct(b, c) && Inv(c.limits, a) && Rel(c, s, a) && LegalRun(c.limits, a, ls)
    ensures Executes(b, s, ls) && Rel(c, ExecuteAll(b, s, ls), Run(c.limits, a, ls))
    decreases |ls|
  {
    if ls != [] {
      StepSimulates(b, c, s, a, ls[0]);
      StepKeepsInv(c.limits, a, ls[0]);
      RunSimulates(b, c, Execute(b, s, ls[0]), Step(a, ls[0]), ls[1..]);
    }
  }
}
