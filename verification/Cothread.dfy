/** The platform-independent layer: `Cothread::Current`, `switchTo` and the rest of the public interface,
    on top of any backend. Kernel threads are identified by number, as the thread-local `gCurrent` is. */
module Cothread {
  import opened Common
  import opened Machine
  import opened Coroutine
  import opened Backend
  import opened Sizes
  import opened Concrete = System

  class Library {
    const backend: Backend
    const kStackAlignment: Positive
    var mem: Memory
    var homes: map<Tid, Home>
    var kernels: KernelMap
    var active: map<int, Word>
    var calls: map<Word, Entry>
    var gReturnHandler: Handler
    var ended: bool
    var log: seq<Event>

    ghost function State(): Concrete.System
      reads this
    {
      Concrete.System(mem, homes, kernels, active, calls, gReturnHandler, ended, log)
    }

    constructor (backend: Backend, alignment: Positive, mem: Memory)
      ensures this.backend == backend && kStackAlignment == alignment
      ensures State() == Concrete.System(mem, map[], map[], map[], map[], Default, false, [])
    {
      this.backend, kStackAlignment := backend, alignment;
      this.mem := mem;
      homes, kernels, active, calls := map[], map[], map[], map[];
      gReturnHandler, ended, log := Default, false, [];
    }

    /** `Cothread::Current()`, where `t` and `home` are the cothread and the storage that allocating a
        wrapper would yield. */
    method Current(k: Kid, t: Tid, home: Home) returns (c: Tid)
      requires Defined(State(), Label.Current(k, t, home))
      modifies this`mem, this`homes, this`kernels, this`log
      ensures State() == Execute(backend, old(State()), Label.Current(k, t, home))
      ensures kernels[k].current == Some(c) && kernels[k].cpu == old(kernels)[k].cpu
    {
      if kernels[k].current.None? {
        mem := backend.wrap(mem, home);
        homes := homes[t := home];
        kernels := kernels[k := kernels[k].(current := Some(t))];
        log := log + [WrapperMade(k, t)];
      }
      c := kernels[k].current.value;
    }

    /** `Cothread::switchTo()` on cothread `to`. */
    method SwitchTo(k: Kid, to: Tid, t: Tid, home: Home)
      requires Defined(State(), Label.SwitchTo(k, to, t, home))
      modifies this`mem, this`homes, this`kernels, this`active, this`log
      ensures State() == Execute(backend, old(State()), Label.SwitchTo(k, to, t, home))
    {
      var from := Current(k, t, home);
      ghost var s, ks := State(), kernels;
      kernels := kernels[k := kernels[k].(current := Some(to))];
      SwitchImpl(k, from, to);
      SetTwice(ks, k, ks[k].(current := Some(to)), kernels[k]);
      assert State() == Concrete.Switch(backend, s, k, from, to);
    }

    /** `impl->switchTo(from)`: the backend's `Switch`, and what runs when it lands in the entry call. */
    method SwitchImpl(k: Kid, from: Tid, to: Tid)
      requires k in kernels && from in homes && to in homes
      modifies this`mem, this`kernels, this`active, this`log
      ensures var out := backend.switchTo(old(mem), old(kernels)[k].cpu, homes[from], homes[to]);
        && mem == out.mem && kernels == old(kernels)[k := old(kernels)[k].(cpu := out.cpu)]
        && active == (if out.cpu.pc == DEREFERENCE_CALL_INFO then old(active)[out.cpu.sp := out.arg] else old(active))
        && log == old(log) +
             if out.cpu.pc == DEREFERENCE_CALL_INFO then [Entered(to, out.arg, Lookup(calls, out.arg))] else []
    {
      var out := backend.switchTo(mem, kernels[k].cpu, homes[from], homes[to]);
      mem := out.mem;
      kernels := kernels[k := kernels[k].(cpu := out.cpu)];
      if out.cpu.pc == DEREFERENCE_CALL_INFO {
        active := active[out.cpu.sp := out.arg];
        log := log + [Entered(to, out.arg, Lookup(calls, out.arg))];
      }
    }

    /** `Cothread(entry, stackSize)`, with the stack allocated where `home` says and the call information at
        `info`. */
    method Create(k: Kid, t: Tid, home: Home, entry: Entry, info: Word)
      modifies this`mem, this`homes, this`calls, this`log
      ensures State() == Execute(backend, old(State()), Label.Create(k, t, home, entry, info))
      ensures info in calls && calls[info] == entry && t in homes && homes[t] == home
    {
      homes := homes[t := home];
      calls := calls[info := entry];
      log := log + [Prepared(t, info, entry)];
      mem := backend.prepare(mem, home, info);
    }

    /** `Cothread(entry, stack)`, which throws if the caller's stack is not acceptable. */
    method CreateOn(k: Kid, t: Tid, home: Home, entry: Entry, info: Word) returns (ok: bool)
      requires home.stack.lo <= home.stack.hi
      modifies this`mem, this`homes, this`calls, this`log
      ensures ok <==> exists n :: 0 < n && home.stack.hi - home.stack.lo == Multiple(n, kStackAlignment)
      ensures ok ==> State() == Execute(backend, old(State()), Label.Create(k, t, home, entry, info))
      ensures !ok ==> State() == old(State())
    {
      var size := home.stack.hi - home.stack.lo;
      AcceptedIff(size, kStackAlignment);
      if size == 0 { return false; }
      if size % kStackAlignment != 0 { return false; }
      Create(k, t, home, entry, info);
      ok := true;
    }

    /** `~Cothread()`. */
    method Destroy(k: Kid, t: Tid)
      modifies this`homes
      ensures State() == Execute(backend, old(State()), Label.Destroy(k, t)) && t !in homes
    {
      homes := homes - {t};
    }

    /** `DereferenceCallInfo` after the entry function has returned: the call information is deleted, and
        `CothreadReturned` passes `Current()` to the return handler. */
    method EntryReturns(k: Kid)
      requires Defined(State(), Label.EntryReturns(k))
      modifies this`mem, this`kernels, this`calls, this`ended, this`log
      ensures State() == Execute(backend, old(State()), Label.EntryReturns(k))
    {
      var info := active[kernels[k].cpu.sp];
      calls := calls - {info};
      var t := kernels[k].current.value;
      var out := backend.finish(mem, kernels[k].cpu, homes[t]);
      mem := out.mem;
      kernels := kernels[k := kernels[k].(cpu := out.cpu)];
      if out.cpu.pc == COTHREAD_RETURNED { CallReturnHandler(k, t, info); }
    }

    /** `CothreadReturned`: `gReturnHandler(thread)` is called when nothing is left to do. The default handler
        ends the program. */
    method CallReturnHandler(k: Kid, t: Tid, info: Word)
      requires k in kernels && kernels[k].cpu.pc == COTHREAD_RETURNED && kernels[k].current == Some(t)
      requires info !in calls
      modifies this`ended, this`log
      ensures ended == gReturnHandler.Default? && log == old(log) + [Returned(t, info, gReturnHandler)]
    {
      log := log + [Returned(t, info, gReturnHandler)];
      ended := gReturnHandler.Default?;
    }

    method SetReturnHandler(k: Kid, handler: Handler)
      modifies this`gReturnHandler
      ensures State() == Execute(backend, old(State()), SetHandler(k, handler)) && gReturnHandler == handler
    {
      gReturnHandler := handler;
    }

    method ResetReturnHandler(k: Kid)
      modifies this`gReturnHandler
      ensures State() == Execute(backend, old(State()), SetHandler(k, Default)) && gReturnHandler == Default
    {
      gReturnHandler := Default;
    }
  }
}
