/** The library on a machine: one memory, the registers and `gCurrent` of each kernel thread, and the
    cothreads' stacks and saved stack pointers in that memory. */
module System {
  import opened Common
  import opened Machine
  import opened Coroutine
  import opened Backend

  /** `active` holds the argument of each `DereferenceCallInfo` call in progress, by the stack pointer
      it was entered with; `calls` the call information objects on the heap. */
  datatype System = System(
    mem: Memory,
    homes: map<Tid, Home>,
    kernels: KernelMap,
    active: map<int, Word>,
    calls: map<Word, Entry>,
    handler: Handler,
    ended: bool,
    log: seq<Event>)

  ghost predicate Defined(s: System, l: Label) {
    match l
    case Boot(k, stack, cpu) => true
    case User(k, cpu, writes) => k in s.kernels
    case Current(k, t, home) => k in s.kernels
    case SwitchTo(k, to, t, home) =>
      && k in s.kernels && to in s.homes
      && (s.kernels[k].current.Some? ==> s.kernels[k].current.value in s.homes)
    case EntryReturns(k) =>
      && k in s.kernels && s.kernels[k].current.Some? && s.kernels[k].current.value in s.homes
      && s.kernels[k].cpu.sp in s.active
    case _ => true
  }

  ghost function Wrap(b: Backend, s: System, k: Kid, t: Tid, home: Home): System
    requires k in s.kernels
  {
    if s.kernels[k].current.Some? then s else
      s.(homes := s.homes[t := home],
         kernels := s.kernels[k := s.kernels[k].(current := Some(t))],
         mem := b.wrap(s.mem, home),
         log := s.log + [WrapperMade(k, t)])
  }

  /** gCurrent is set, the backend switches, and a first switch lands in `DereferenceCallInfo`. */
  ghost function Switch(b: Backend, s: System, k: Kid, from: Tid, to: Tid): System
    requires k in s.kernels && from in s.homes && to in s.homes
  {
    var out := b.switchTo(s.mem, s.kernels[k].cpu, s.homes[from], s.homes[to]);
    var s' := s.(mem := out.mem, kernels := s.kernels[k := s.kernels[k].(cpu := out.cpu, current := Some(to))]);
    if out.cpu.pc == DEREFERENCE_CALL_INFO then
      s'.(active := s.active[out.cpu.sp := out.arg],
          log := s.log + [Entered(to, out.arg, Lookup(s.calls, out.arg))])
    else s'
  }

  /** `DereferenceCallInfo` deletes its argument, and what follows lands in `CothreadReturned`, which calls
      gReturnHandler with `Current()`. */
  ghost function Return(b: Backend, s: System, k: Kid, t: Tid): System
    requires k in s.kernels && t in s.homes && s.kernels[k].cpu.sp in s.active
  {
    var info := s.active[s.kernels[k].cpu.sp];
    var out := b.finish(s.mem, s.kernels[k].cpu, s.homes[t]);
    var s' := s.(mem := out.mem,
                 kernels := s.kernels[k := s.kernels[k].(cpu := out.cpu)],
                 calls := s.calls - {info});
    if out.cpu.pc == COTHREAD_RETURNED then
      s'.(ended := s.handler.Default?, log := s.log + [Returned(t, info, s.handler)])
    else s'
  }

  ghost function Construct(b: Backend, s: System, t: Tid, home: Home, entry: Entry, info: Word): System {
    s.(homes := s.homes[t := home],
       mem := b.prepare(s.mem, home, info),
       calls := s.calls[info := entry],
       log := s.log + [Prepared(t, info, entry)])
  }

  ghost function Program(s: System, k: Kid, cpu: Context, writes: map<int, Word>): System
    requires k in s.kernels
  {
    s.(kernels := s.kernels[k := s.kernels[k].(cpu := cpu)], mem := Store(s.mem, writes))
  }

  ghost function Execute(b: Backend, s: System, l: Label): System
    requires Defined(s, l)
  {
    match l
    case Boot(k, stack, cpu) => s.(kernels := s.kernels[k := Kernel(stack, cpu, None)])
    case User(k, cpu, writes) => Program(s, k, cpu, writes)
    case Current(k, t, home) => Wrap(b, s, k, t, home)
    case Create(k, t, home, entry, info) => Construct(b, s, t, home, entry, info)
    case Destroy(k, t) => s.(homes := s.homes - {t})
    case SwitchTo(k, to, t, home) =>
      var s' := Wrap(b, s, k, t, home);
      Switch(b, s', k, s'.kernels[k].current.value, to)
    case EntryReturns(k) => Return(b, s, k, s.kernels[k].current.value)
    case SetHandler(k, h) => s.(handler := h)
  }

  ghost predicate Executes(b: Backend, s: System, ls: seq<Label>)
    decreases |ls|
  {
    ls == [] || (Defined(s, ls[0]) && Executes(b, Execute(b, s, ls[0]), ls[1..]))
  }

  ghost function ExecuteAll(b: Backend, s: System, ls: seq<Label>): System
    requires Executes(b, s, ls)
    decreases |ls|
  {
    if ls == [] then s else ExecuteAll(b, Execute(b, s, ls[0]), ls[1..])
  }
}
