/** The abstract coroutine machine: every suspended thread owns one saved continuation. There are no
    frames, save areas or saved stack pointers here; memory is only what programs may rely on. */
module Coroutine {
  import opened Common
  import opened Machine

  type Tid = nat
  type Kid = nat
  type Entry = nat

  datatype Activity = Running(k: Kid) | Suspended(cont: Context) | Fresh

  /** The state of a cothread's entry call; `Native` is the wrapper of a kernel thread. */
  datatype Life = Native | Pending(info: Word) | Active(info: Word) | Finished {
    predicate Owing() { Pending? || Active? }
  }

  datatype Thread = Thread(home: Home, run: Activity, life: Life)

  /** A kernel thread: its own stack, its registers and its thread-local `gCurrent`. */
  datatype Kernel = Kernel(stack: Region, cpu: Context, current: Option<Tid>)

  datatype Handler = Default | Custom(id: nat)

  /** What a program can observe of the library. */
  datatype Event =
    | WrapperMade(k: Kid, t: Tid)
    | Prepared(t: Tid, info: Word, entry: Entry)
    | Entered(t: Tid, info: Word, ran: Option<Entry>)
    | Returned(t: Tid, info: Word, handler: Handler)

  /** The parts of the documented contract that depend on the platform: room to save a context,
      acceptable stacks for a new cothread, and acceptable buffers for a kernel thread's wrapper. */
  datatype Limits = Limits(
    room: (Home, Context) -> bool,
    admits: Home -> bool,
    wraps: Home -> bool)

  /** Steps. A `User` step is any amount of program code on kernel thread `k`: it leaves the
      registers in `cpu` and stores `writes`. Allocation results are part of the label. */
  datatype Label =
    | Boot(k: Kid, stack: Region, cpu: Context)
    | User(k: Kid, cpu: Context, writes: map<int, Word>)
    | Current(k: Kid, t: Tid, home: Home)
    | Create(k: Kid, t: Tid, home: Home, entry: Entry, info: Word)
    | Destroy(k: Kid, t: Tid)
    | SwitchTo(k: Kid, to: Tid, t: Tid, home: Home)
    | EntryReturns(k: Kid)
    | SetHandler(k: Kid, h: Handler)

  type ThreadMap = map<Tid, Thread>
  type KernelMap = map<Kid, Kernel>

  datatype State = State(
    mem: imap<int, Word>,
    threads: ThreadMap,
    names: set<Tid>,
    kernels: KernelMap,
    calls: map<Word, Entry>,
    handler: Handler,
    ended: bool,
    log: seq<Event>)

  /** Words the library may have overwritten no longer have a value programs can rely on. */
  ghost function Forget(m: imap<int, Word>, h: Home, sp: int): imap<int, Word> {
    imap x | x in m && !h.Private(sp, x) :: m[x]
  }

  function Lookup(calls: map<Word, Entry>, info: Word): Option<Entry> {
    if info in calls then Some(calls[info]) else None
  }

  // ---------------------------------------------------------------------------------------------
  // Steps

  ghost function EnsureCurrent(s: State, k: Kid, t: Tid, home: Home): State
    requires k in s.kernels
  {
    if s.kernels[k].current.Some? then s else
      s.(threads := s.threads[t := Thread(home, Running(k), Native)],
         names := s.names + {t},
         kernels := s.kernels[k := s.kernels[k].(current := Some(t))],
         mem := Forget(s.mem, home, home.stack.lo),
         log := s.log + [WrapperMade(k, t)])
  }

  /** Kernel thread `k`, which runs cothread `from`, switches to `to`. */
  ghost function Transfer(s: State, k: Kid, from: Tid, to: Tid): State
    requires k in s.kernels && from in s.threads && to in s.threads
  {
    var cpu := s.kernels[k].cpu;
    var mem := Forget(s.mem, s.threads[from].home, cpu.sp);
    if from == to then s.(mem := mem) else
      var left := s.threads[from := s.threads[from].(run := Suspended(cpu))];
      var th := s.threads[to];
      match (th.run, th.life)
      case (Suspended(c), _) =>
        s.(mem := mem,
           threads := left[to := th.(run := Running(k))],
           kernels := s.kernels[k := s.kernels[k].(cpu := c, current := Some(to))])
      case (Fresh, Pending(info)) =>
        s.(mem := mem,
           threads := left[to := Thread(th.home, Running(k), Active(info))],
           kernels := s.kernels[k := s.kernels[k].(cpu := Context(DEREFERENCE_CALL_INFO, th.home.root, []),
                                                   current := Some(to))],
           log := s.log + [Entered(to, info, Lookup(s.calls, info))])
      case _ => s
  }

  /** The entry function of `t` returns on `k`: its call information is released, then the return
      handler is invoked with the current cothread. */
  ghost function FinishCall(s: State, k: Kid, t: Tid): State
    requires k in s.kernels && t in s.threads && s.threads[t].life.Active?
  {
    var th := s.threads[t];
    s.(threads := s.threads[t := th.(life := Finished)],
       mem := Forget(s.mem, th.home, th.home.root),
       kernels := s.kernels[k := s.kernels[k].(cpu := s.kernels[k].cpu.(pc := COTHREAD_RETURNED))],
       calls := s.calls - {th.life.info},
       ended := s.handler.Default?,
       log := s.log + [Returned(t, th.life.info, s.handler)])
  }

  ghost function NewThread(s: State, t: Tid, home: Home, entry: Entry, info: Word): State {
    s.(threads := s.threads[t := Thread(home, Fresh, Pending(info))],
       names := s.names + {t},
       mem := Forget(s.mem, home, home.stack.hi),
       calls := s.calls[info := entry],
       log := s.log + [Prepared(t, info, entry)])
  }

  ghost function Use(s: State, k: Kid, cpu: Context, writes: map<int, Word>): State
    requires k in s.kernels
  {
    s.(kernels := s.kernels[k := s.kernels[k].(cpu := cpu)], mem := Overlay(s.mem, writes))
  }

  ghost predicate Domain(s: State, l: Label) {
    match l
    case Boot(k, stack, cpu) => true
    case User(k, cpu, writes) => k in s.kernels
    case Current(k, t, home) => k in s.kernels
    case SwitchTo(k, to, t, home) =>
      && k in s.kernels && to in s.threads
      && (s.kernels[k].current.Some? ==> s.kernels[k].current.value in s.threads)
    case EntryReturns(k) =>
      && k in s.kernels && s.kernels[k].current.Some?
      && s.kernels[k].current.value in s.threads && s.threads[s.kernels[k].current.value].life.Active?
    case _ => true
  }

  ghost function Step(s: State, l: Label): State
    requires Domain(s, l)
  {
    match l
    case Boot(k, stack, cpu) => s.(kernels := s.kernels[k := Kernel(stack, cpu, None)])
    case User(k, cpu, writes) => Use(s, k, cpu, writes)
    case Current(k, t, home) => EnsureCurrent(s, k, t, home)
    case Create(k, t, home, entry, info) => NewThread(s, t, home, entry, info)
    case Destroy(k, t) => s.(threads := s.threads - {t})
    case SwitchTo(k, to, t, home) =>
      var s' := EnsureCurrent(s, k, t, home);
      Transfer(s', k, s'.kernels[k].current.value, to)
    case EntryReturns(k) => FinishCall(s, k, s.kernels[k].current.value)
    case SetHandler(k, h) => s.(handler := h)
  }

  // ---------------------------------------------------------------------------------------------
  // The contract programs have to keep

  /** Words that the library relies on, and that programs must therefore leave alone. */
  predicate Guarded(th: Thread, x: int) {
    || x == th.home.field
    || (th.home.Wrapper() && th.home.span.Has(x))
    || (th.run.Suspended? && th.home.Private(th.run.cont.sp, x))
    || (th.run.Fresh? && th.home.stack.Has(x))
    || (th.life.Active? && x == th.home.root && th.home.stack.Has(x))
  }

  ghost predicate Writable(s: State, x: int) {
    forall t | t in s.threads :: !Guarded(s.threads[t], x)
  }

  ghost predicate MayUse(s: State, k: Kid, cpu: Context, writes: map<int, Word>) {
    && k in s.kernels && UserCode(cpu.pc) && SpAllowed(s.threads, s.kernels[k], cpu.sp)
    && (forall x | x in writes :: Writable(s, x))
  }

  /** No stack overflow, and no unwinding past the entry function's caller. */
  predicate SpInStack(th: Thread, sp: int) {
    && th.home.stack.lo <= sp <= th.home.stack.hi
    && (th.life.Active? ==> sp <= th.home.root)
  }

  ghost predicate SpAllowed(threads: ThreadMap, kern: Kernel, sp: int) {
    match kern.current
    case Some(t) => t in threads && SpInStack(threads[t], sp)
    case None => kern.stack.lo <= sp <= kern.stack.hi
  }

  /** Storage for a new cothread does not overlap any that is in use. */
  ghost predicate NewHome(s: State, h: Home) {
    && h.WellFormed()
    && (forall t | t in s.threads :: h.Apart(s.threads[t].home))
  }

  ghost predicate MayWrap(lim: Limits, s: State, k: Kid, t: Tid, h: Home) {
    && k in s.kernels && h.stack == s.kernels[k].stack
    && t !in s.names
    && NewHome(s, h) && h.Wrapper() && lim.wraps(h)
    && (forall j | j in s.kernels && j != k :: h.Clear(s.kernels[j].stack))
  }

  /** Kernel thread `k` is executing program code. */
  predicate InProgram(s: State, k: Kid) {
    !s.ended && k in s.kernels && UserCode(s.kernels[k].cpu.pc)
  }

  ghost predicate MayBoot(s: State, k: Kid, stack: Region, cpu: Context) {
    && k !in s.kernels
    && 0 < stack.lo <= cpu.sp <= stack.hi
    && UserCode(cpu.pc)
    && (forall t | t in s.threads :: s.threads[t].home.Clear(stack))
    && (forall j | j in s.kernels :: s.kernels[j].stack.Apart(stack) && stack.Apart(s.kernels[j].stack))
  }

  ghost predicate MayCreate(lim: Limits, s: State, t: Tid, home: Home, info: Word) {
    && t !in s.names && NewHome(s, home) && !home.Wrapper() && lim.admits(home)
    && (forall j | j in s.kernels :: home.Clear(s.kernels[j].stack))
    && info !in s.calls
  }

  /** `to` is not running, or it is the caller itself, and the caller has room to save its context. */
  ghost predicate MayTransfer(lim: Limits, s: State, k: Kid, to: Tid) {
    && k in s.kernels && s.kernels[k].current.Some? && s.kernels[k].current.value in s.threads && to in s.threads
    && (s.threads[to].run.Running? ==> s.kernels[k].current.value == to)
    && lim.room(s.threads[s.kernels[k].current.value].home, s.kernels[k].cpu)
  }

  ghost predicate MayReturn(s: State, k: Kid) {
    && k in s.kernels && s.kernels[k].current.Some? && s.kernels[k].current.value in s.threads
    && var th := s.threads[s.kernels[k].current.value];
       th.life.Active? && s.kernels[k].cpu.sp == th.home.root
  }

  ghost predicate Legal(lim: Limits, s: State, l: Label) {
    && Domain(s, l)
    && match l
    case Boot(k, stack, cpu) => !s.ended && MayBoot(s, k, stack, cpu)
    case User(k, cpu, writes) => !s.ended && MayUse(s, k, cpu, writes)
    case Current(k, t, home) => InProgram(s, k) && (s.kernels[k].current.None? ==> MayWrap(lim, s, k, t, home))
    case Create(k, t, home, entry, info) => InProgram(s, k) && MayCreate(lim, s, t, home, info)
    case Destroy(k, t) => InProgram(s, k) && t in s.threads && !s.threads[t].run.Running?
    case SwitchTo(k, to, t, home) =>
      && InProgram(s, k) && to in s.threads
      && (s.kernels[k].current.None? ==> MayWrap(lim, s, k, t, home))
      && MayTransfer(lim, EnsureCurrent(s, k, t, home), k, to)
    case EntryReturns(k) => InProgram(s, k) && MayReturn(s, k)
    case SetHandler(k, h) => InProgram(s, k)
  }

  // ---------------------------------------------------------------------------------------------
  // The invariant

  /** What holds of one thread by itself. */
  ghost predicate ThreadOk(lim: Limits, calls: map<Word, Entry>, th: Thread) {
    && th.home.WellFormed()
    && (th.home.Wrapper() <==> th.life.Native?)
    && (if th.home.Wrapper() then lim.wraps(th.home) else lim.admits(th.home))
    && (th.run.Fresh? <==> th.life.Pending?)
    && (th.run.Suspended? ==>
          SpInStack(th, th.run.cont.sp) && lim.room(th.home, th.run.cont) && UserCode(th.run.cont.pc))
    && (th.life.Owing() ==> th.life.info in calls)
  }

  /** Two cothreads share neither storage nor call information. */
  ghost predicate PairOk(a: Thread, b: Thread) {
    && a.home.Apart(b.home)
    && (a.life.Owing() && b.life.Owing() ==> a.life.info != b.life.info)
  }

  /** The registers of a kernel thread belong to cothread `th`. */
  predicate OnStack(th: Thread, cpu: Context) {
    && SpInStack(th, cpu.sp)
    && (cpu.pc == DEREFERENCE_CALL_INFO ==> th.life.Active? && cpu.sp == th.home.root)
  }

  /** gCurrent names the cothread whose context is in the registers; without one, the kernel thread
      runs on a stack that belongs to no cothread. */
  ghost predicate KernelOk(threads: ThreadMap, k: Kid, kern: Kernel) {
    && 0 < kern.stack.lo <= kern.stack.hi
    && match kern.current
       case Some(t) => t in threads && threads[t].run == Running(k) && OnStack(threads[t], kern.cpu)
       case None =>
         && UserCode(kern.cpu.pc) && kern.stack.lo <= kern.cpu.sp <= kern.stack.hi
         && forall t | t in threads :: threads[t].home.Clear(kern.stack)
  }

  ghost predicate Threads(lim: Limits, calls: map<Word, Entry>, threads: ThreadMap) {
    forall t | t in threads :: ThreadOk(lim, calls, threads[t])
  }

  ghost predicate Pairs(threads: ThreadMap) {
    forall t, u | t in threads && u in threads && t != u :: PairOk(threads[t], threads[u])
  }

  ghost predicate Kernels(threads: ThreadMap, kernels: KernelMap) {
    && (forall k | k in kernels :: KernelOk(threads, k, kernels[k]))
    && (forall j, k | j in kernels && k in kernels && j != k :: kernels[j].stack.Apart(kernels[k].stack))
  }

  /** A cothread runs on at most one kernel thread, whose gCurrent names it. */
  ghost predicate Runners(threads: ThreadMap, kernels: KernelMap) {
    forall t | t in threads && threads[t].run.Running? ::
      threads[t].run.k in kernels && kernels[threads[t].run.k].current == Some(t)
  }

  ghost predicate Inv(lim: Limits, s: State) {
    && s.threads.Keys <= s.names
    && Threads(lim, s.calls, s.threads)
    && Pairs(s.threads)
    && Kernels(s.threads, s.kernels)
    && Runners(s.threads, s.kernels)
  }

  lemma SetThread(lim: Limits, calls: map<Word, Entry>, threads: ThreadMap, t: Tid, th: Thread)
    requires Threads(lim, calls, threads) && ThreadOk(lim, calls, th)
    ensures Threads(lim, calls, threads[t := th])
  {
  }

  lemma AddPair(threads: ThreadMap, t: Tid, th: Thread)
    requires Pairs(threads)
    requires forall u | u in threads && u != t :: PairOk(th, threads[u]) && PairOk(threads[u], th)
    ensures Pairs(threads[t := th])
  {
  }

  /** Changing a thread without moving it or giving it new call information. */
  lemma KeepPairs(threads: ThreadMap, t: Tid, th: Thread)
    requires Pairs(threads) && t in threads && th.home == threads[t].home
    requires th.life.Owing() ==> threads[t].life.Owing() && th.life.info == threads[t].life.info
    ensures Pairs(threads[t := th])
  {
    forall u | u in threads && u != t ensures PairOk(th, threads[u]) && PairOk(threads[u], th) {
      assert PairOk(threads[t], threads[u]) && PairOk(threads[u], threads[t]);
    }
    AddPair(threads, t, th);
  }

  ghost predicate Placed(threads: ThreadMap, kernels: KernelMap) {
    Kernels(threads, kernels) && Runners(threads, kernels)
  }

  lemma WrapPlaced(threads: ThreadMap, kernels: KernelMap, k: Kid, t: Tid, th: Thread)
    requires Placed(threads, kernels)
    requires k in kernels && kernels[k].current.None? && t !in threads
    requires th.run == Running(k) && th.life.Native? && th.home.stack == kernels[k].stack
    requires forall j | j in kernels && j != k :: th.home.Clear(kernels[j].stack)
    ensures Placed(threads[t := th], kernels[k := kernels[k].(current := Some(t))])
  {
  }

  /** Kernel thread `k` stops running `from` and runs `to` instead. */
  lemma HandoverPlaced(threads: ThreadMap, kernels: KernelMap, k: Kid, from: Tid, to: Tid, a: Thread, b: Thread,
                       cpu: Context)
    requires Placed(threads, kernels)
    requires k in kernels && kernels[k].current == Some(from) && from != to
    requires to in threads && !threads[to].run.Running?
    requires !a.run.Running? && a.home == threads[from].home
    requires b.run == Running(k) && b.home == threads[to].home && OnStack(b, cpu)
    ensures Placed(threads[from := a][to := b], kernels[k := kernels[k].(cpu := cpu, current := Some(to))])
  {
    var threads', kernels' := threads[from := a][to := b], kernels[k := kernels[k].(cpu := cpu, current := Some(to))];
    forall j | j in kernels' ensures KernelOk(threads', j, kernels'[j]) {
      assert KernelOk(threads, j, kernels[j]);
      assert KernelOk(threads, k, kernels[k]);
    }
  }

  lemma AddPlaced(threads: ThreadMap, kernels: KernelMap, t: Tid, th: Thread)
    requires Placed(threads, kernels) && t !in threads && !th.run.Running?
    requires forall j | j in kernels :: th.home.Clear(kernels[j].stack)
    ensures Placed(threads[t := th], kernels)
  {
  }

  lemma EnsureCurrentKeepsInv(lim: Limits, s: State, k: Kid, t: Tid, home: Home)
    requires Inv(lim, s) && InProgram(s, k)
    requires s.kernels[k].current.None? ==> MayWrap(lim, s, k, t, home)
    ensures Inv(lim, EnsureCurrent(s, k, t, home))
  {
    if s.kernels[k].current.None? {
      var th := Thread(home, Running(k), Native);
      SetThread(lim, s.calls, s.threads, t, th);
      AddPair(s.threads, t, th);
      WrapPlaced(s.threads, s.kernels, k, t, th);
    }
  }

  lemma TransferKeepsInv(lim: Limits, s: State, k: Kid, to: Tid)
    requires Inv(lim, s) && InProgram(s, k) && MayTransfer(lim, s, k, to)
    ensures Inv(lim, Transfer(s, k, s.kernels[k].current.value, to))
  {
    var from := s.kernels[k].current.value;
    var s' := Transfer(s, k, from, to);
    if from != to {
      var a, b := s'.threads[from], s'.threads[to];
      assert ThreadOk(lim, s.calls, s.threads[to]);
      SetThread(lim, s.calls, s.threads, from, a);
      SetThread(lim, s.calls, s.threads[from := a], to, b);
      KeepPairs(s.threads, from, a);
      KeepPairs(s.threads[from := a], to, b);
      HandoverPlaced(s.threads, s.kernels, k, from, to, a, b, s'.kernels[k].cpu);
    }
  }

  lemma FinishPlaced(threads: ThreadMap, kernels: KernelMap, k: Kid, t: Tid, cpu: Context)
    requires Placed(threads, kernels) && k in kernels && kernels[k].current == Some(t)
    requires cpu.sp == kernels[k].cpu.sp && cpu.pc == COTHREAD_RETURNED
    ensures t in threads && Placed(threads[t := threads[t].(life := Finished)], kernels[k := kernels[k].(cpu := cpu)])
  {
    var threads' := threads[t := threads[t].(life := Finished)];
    assert KernelOk(threads, k, kernels[k]);
    forall j | j in kernels && j != k ensures KernelOk(threads', j, kernels[j]) {
      assert KernelOk(threads, j, kernels[j]);
    }
  }

  lemma FinishCallKeepsInv(lim: Limits, s: State, k: Kid)
    requires Inv(lim, s) && InProgram(s, k) && MayReturn(s, k)
    ensures Inv(lim, FinishCall(s, k, s.kernels[k].current.value))
  {
    var t := s.kernels[k].current.value;
    var th := s.threads[t];
    KeepPairs(s.threads, t, th.(life := Finished));
    FinishPlaced(s.threads, s.kernels, k, t, s.kernels[k].cpu.(pc := COTHREAD_RETURNED));
    forall u | u in s.threads && u != t ensures ThreadOk(lim, s.calls - {th.life.info}, s.threads[u]) {
      assert ThreadOk(lim, s.calls, s.threads[u]);
      assert PairOk(th, s.threads[u]);
    }
    assert ThreadOk(lim, s.calls, th);
  }

  lemma NewThreadKeepsInv(lim: Limits, s: State, t: Tid, home: Home, entry: Entry, info: Word)
    requires Inv(lim, s) && MayCreate(lim, s, t, home, info)
    ensures Inv(lim, NewThread(s, t, home, entry, info))
  {
    var th := Thread(home, Fresh, Pending(info));
    var calls := s.calls[info := entry];
    forall u | u in s.threads
      ensures ThreadOk(lim, calls, s.threads[u]) && PairOk(th, s.threads[u]) && PairOk(s.threads[u], th)
    {
      assert ThreadOk(lim, s.calls, s.threads[u]);
    }
    SetThread(lim, calls, s.threads, t, th);
    AddPair(s.threads, t, th);
    AddPlaced(s.threads, s.kernels, t, th);
  }

  lemma BootKeepsInv(lim: Limits, s: State, k: Kid, stack: Region, cpu: Context)
    requires Inv(lim, s) && MayBoot(s, k, stack, cpu)
    ensures Inv(lim, Step(s, Boot(k, stack, cpu)))
  {
  }

  lemma UserKeepsInv(lim: Limits, s: State, k: Kid, cpu: Context, writes: map<int, Word>)
    requires Inv(lim, s) && MayUse(s, k, cpu, writes)
    ensures Inv(lim, Use(s, k, cpu, writes))
  {
  }

  lemma RemovePlaced(threads: ThreadMap, kernels: KernelMap, t: Tid)
    requires Placed(threads, kernels) && t in threads && !threads[t].run.Running?
    ensures Placed(threads - {t}, kernels)
  {
    forall k | k in kernels ensures KernelOk(threads - {t}, k, kernels[k]) {
      assert KernelOk(threads, k, kernels[k]);
    }
  }

  lemma DestroyKeepsInv(lim: Limits, s: State, k: Kid, t: Tid)
    requires Inv(lim, s) && t in s.threads && !s.threads[t].run.Running?
    ensures Inv(lim, Step(s, Destroy(k, t)))
  {
    RemovePlaced(s.threads, s.kernels, t);
  }

  lemma StepKeepsInv(lim: Limits, s: State, l: Label)
    requires Inv(lim, s) && Legal(lim, s, l)
    ensures Inv(lim, Step(s, l))
  {
    match l
    case Current(k, t, home) => EnsureCurrentKeepsInv(lim, s, k, t, home);
    case Create(k, t, home, entry, info) => NewThreadKeepsInv(lim, s, t, home, entry, info);
    case SwitchTo(k, to, t, home) =>
      EnsureCurrentKeepsInv(lim, s, k, t, home);
      TransferKeepsInv(lim, EnsureCurrent(s, k, t, home), k, to);
    case EntryReturns(k) => FinishCallKeepsInv(lim, s, k);
    case Boot(k, stack, cpu) => BootKeepsInv(lim, s, k, stack, cpu);
    case User(k, cpu, writes) => UserKeepsInv(lim, s, k, cpu, writes);
    case Destroy(k, t) => DestroyKeepsInv(lim, s, k, t);
    case SetHandler(k, h) =>
  }
}
