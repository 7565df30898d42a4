/** Two of the library's tests, "context switch between main, cothread, and back" and "test return
    handler", on each platform: the contract that programs have to keep allows them, and they go as the
    tests expect. */
module Examples {
  import opened Common
  import opened Machine
  import opened Coroutine
  import opened Runs
  import Platforms
  import SaveArea
  import StackFrame

  const MAIN_STACK := Region(0x1000, 0x2000)

  /** The wrapper of the main thread. */
  const MAIN := Home(0x10020, MAIN_STACK, Region(0x20000, 0x20200), 0x2000)

  const ENTRY: Entry := 7
  const INFO := 0x40000
  const COUNTER_1 := 0x50000
  const COUNTER_2 := 0x50040

  /** What differs between platforms: the contract, where cothread `t1` lives, and the registers of main at
      its `switchTo`, of `t1` at its own, of `t1` when its entry function returns, and of the handler. */
  datatype Setup = Setup(lim: Limits, t1: Home, main: Context, pause: Context, final: Context, handling: Context)

  ghost predicate Suits(e: Setup) {
    && e.t1.stack == e.t1.span == Region(0x30000, 0x31000) && e.t1.field == 0x11020
    && 0x30800 < e.t1.root <= 0x31000
    && e.main.pc == 100 && e.main.sp == 0x1F00
    && e.pause.pc == 200 && e.pause.sp == 0x30800
    && e.final.pc == 300 && e.final.sp == e.t1.root
    && e.handling.pc == 400 && e.handling.sp == 0x30800
    && e.lim.wraps(MAIN) && e.lim.admits(e.t1)
    && e.lim.room(MAIN, e.main) && e.lim.room(e.t1, e.pause) && e.lim.room(e.t1, e.handling)
  }

  /** The number of saved registers, and the stack pointer that an entry function starts with. */
  function Registers(n: Platforms.Name): nat {
    match n
    case SystemV => 6
    case Windows64 => 28
    case X86 => 4
    case AArch64 => 19
  }

  function Root(n: Platforms.Name): int {
    match n
    case SystemV => 0x31000 - 80 - 8
    case Windows64 => 0x31000 - 256 - 8
    case X86 => 0x31000 - 32 - 4
    case AArch64 => 0x31000
  }

  ghost function On(n: Platforms.Name): Setup {
    var regs := StackFrame.Zeros(Registers(n));
    Setup(n.Representation().limits, Home(0x11020, Region(0x30000, 0x31000), Region(0x30000, 0x31000), Root(n)),
          Context(100, 0x1F00, regs), Context(200, 0x30800, regs), Context(300, Root(n), regs),
          Context(400, 0x30800, regs))
  }

  lemma FrameSuits(p: StackFrame.Platform, h: Home, cpu: Context, half: int)
    requires half == p.w * (p.n + 4) && p.w > 0
    requires |cpu.regs| == p.n && h.stack.lo <= cpu.sp - half && cpu.sp <= h.stack.hi && cpu.sp % p.w == 0
    ensures StackFrame.Room(p, h, cpu)
    ensures h.stack == Region(0x30000, 0x31000) && half <= 0x800 && h.root == 0x31000 - half - p.w
      ==> StackFrame.Admits(p, h)
  {
    StackFrame.BytesTimes(p.w, p.n + 4);
    StackFrame.BytesSum(p.w, p.n + 4, p.n + 4);
    StackFrame.MoreBytes(p.w, p.n);
  }

  lemma Suited(n: Platforms.Name)
    ensures Suits(On(n))
  {
    var e := On(n);
    match n
    case SystemV =>
      FrameSuits(StackFrame.SYSV, MAIN, e.main, 80);
      FrameSuits(StackFrame.SYSV, e.t1, e.pause, 80);
      FrameSuits(StackFrame.SYSV, e.t1, e.handling, 80);
    case Windows64 =>
      FrameSuits(StackFrame.WINDOWS, MAIN, e.main, 256);
      FrameSuits(StackFrame.WINDOWS, e.t1, e.pause, 256);
      FrameSuits(StackFrame.WINDOWS, e.t1, e.handling, 256);
    case X86 =>
      FrameSuits(StackFrame.X86, MAIN, e.main, 32);
      FrameSuits(StackFrame.X86, e.t1, e.pause, 32);
      FrameSuits(StackFrame.X86, e.t1, e.handling, 32);
    case AArch64 =>
  }

  // ---------------------------------------------------------------------------------------------
  // The states that both tests go through

  function Kernel0(cpu: Context, current: Option<Tid>): KernelMap { map[0 := Kernel(MAIN_STACK, cpu, current)] }

  ghost function Booted(e: Setup, m: imap<int, Word>): State {
    State(m, map[], {}, Kernel0(e.main, None), map[], Default, false, [])
  }

  ghost function WithMain(e: Setup, m: imap<int, Word>): State {
    State(m, map[0 := Thread(MAIN, Running(0), Native)], {0}, Kernel0(e.main, Some(0)), map[], Default, false,
          [WrapperMade(0, 0)])
  }

  /** The log until the entry function is entered. */
  const PREPARED: seq<Event> := [WrapperMade(0, 0), Prepared(1, INFO, ENTRY)]
  const ENTERED: seq<Event> := PREPARED + [Entered(1, INFO, Some(ENTRY))]

  ghost function WithT1(e: Setup, m: imap<int, Word>, h: Handler): State {
    State(m, map[0 := Thread(MAIN, Running(0), Native), 1 := Thread(e.t1, Fresh, Pending(INFO))], {0, 1},
          Kernel0(e.main, Some(0)), map[INFO := ENTRY], h, false, PREPARED)
  }

  ghost function InT1(e: Setup, m: imap<int, Word>, h: Handler, cpu: Context): State {
    State(m, map[0 := Thread(MAIN, Suspended(e.main), Native), 1 := Thread(e.t1, Running(0), Active(INFO))], {0, 1},
          Kernel0(cpu, Some(1)), map[INFO := ENTRY], h, false, ENTERED)
  }

  /** In state `s`, step `l` is allowed and leads to `s'`, memory aside. */
  ghost predicate Goes(e: Setup, s: State, l: Label, s': State) {
    Legal(e.lim, s, l) && Step(s, l) == s'.(mem := Step(s, l).mem)
  }

  ghost predicate Holds(m: imap<int, Word>, x: int, v: Word) { x in m && m[x] == v }

  lemma BootGoes(e: Setup, m: Memory)
    requires Suits(e)
    ensures Goes(e, Platforms.Start(m), Boot(0, MAIN_STACK, e.main), Booted(e, m))
  {
  }

  lemma CurrentGoes(e: Setup, m: imap<int, Word>)
    requires Suits(e)
    ensures Goes(e, Booted(e, m), Label.Current(0, 0, MAIN), WithMain(e, m))
  {
  }

  lemma CreateGoes(e: Setup, m: imap<int, Word>)
    requires Suits(e)
    ensures Goes(e, WithMain(e, m), Create(0, 1, e.t1, ENTRY, INFO), WithT1(e, m, Default))
  {
  }

  lemma HandlerGoes(e: Setup, m: imap<int, Word>)
    requires Suits(e)
    ensures Goes(e, WithT1(e, m, Default), SetHandler(0, Custom(1)), WithT1(e, m, Custom(1)))
  {
  }

  lemma ToT1Goes(e: Setup, m: imap<int, Word>, h: Handler)
    requires Suits(e)
    ensures Goes(e, WithT1(e, m, h), SwitchTo(0, 1, 0, MAIN),
                 InT1(e, m, h, Context(DEREFERENCE_CALL_INFO, e.t1.root, [])))
  {
  }

  /** Program code of `t1` stores `v` to a counter. */
  lemma StoreGoes(e: Setup, m: imap<int, Word>, h: Handler, cpu: Context, cpu': Context, x: int, v: Word)
    requires Suits(e) && (x == COUNTER_1 || x == COUNTER_2) && (cpu' == e.pause || cpu' == e.final)
    ensures var l := User(0, cpu', map[x := v]);
      Goes(e, InT1(e, m, h, cpu), l, InT1(e, m, h, cpu')) && Holds(Step(InT1(e, m, h, cpu), l).mem, x, v)
  {
    assert forall y | y in map[x := v] :: Writable(InT1(e, m, h, cpu), y);
  }

  // ---------------------------------------------------------------------------------------------
  // Runs

  /** What a test expects: a state, and the two counters. */
  datatype Outcome = Outcome(state: State, counter1: Word, counter2: Word)

  ghost predicate AsExpected(s: State, o: Outcome) {
    && s == o.state.(mem := s.mem)
    && Holds(s.mem, COUNTER_1, o.counter1) && Holds(s.mem, COUNTER_2, o.counter2)
  }

  /** Some legal run from `s` ends as the test expects. */
  ghost predicate CanEnd(lim: Limits, s: State, o: Outcome) {
    exists ls :: LegalRun(lim, s, ls) && AsExpected(Run(lim, s, ls), o)
  }

  lemma Ends(lim: Limits, s: State, o: Outcome)
    requires AsExpected(s, o)
    ensures CanEnd(lim, s, o)
  {
    assert LegalRun(lim, s, []);
  }

  lemma OneStepBack(lim: Limits, s: State, l: Label, o: Outcome)
    requires Legal(lim, s, l) && CanEnd(lim, Step(s, l), o)
    ensures CanEnd(lim, s, o)
  {
    var ls :| LegalRun(lim, Step(s, l), ls) && AsExpected(Run(lim, Step(s, l), ls), o);
    assert ([l] + ls)[1..] == ls;
    assert LegalRun(lim, s, [l] + ls);
  }

  /** The beginning of both tests. */
  lemma FirstSteps(e: Setup, m: Memory, o: Outcome)
    requires Suits(e) && forall m' :: CanEnd(e.lim, WithT1(e, m', Default), o)
    ensures CanEnd(e.lim, Platforms.Start(m), o)
  {
    BootGoes(e, m);
    var s1 := Step(Platforms.Start(m), Boot(0, MAIN_STACK, e.main));
    CurrentGoes(e, s1.mem);
    var s2 := Step(s1, Label.Current(0, 0, MAIN));
    CreateGoes(e, s2.mem);
    var s3 := Step(s2, Create(0, 1, e.t1, ENTRY, INFO));
    assert CanEnd(e.lim, WithT1(e, s3.mem, Default), o);
    OneStepBack(e.lim, s2, Create(0, 1, e.t1, ENTRY, INFO), o);
    OneStepBack(e.lim, s1, Label.Current(0, 0, MAIN), o);
    OneStepBack(e.lim, Platforms.Start(m), Boot(0, MAIN_STACK, e.main), o);
  }

  // ---------------------------------------------------------------------------------------------
  // Context switch between main, cothread, and back

  ghost function Switched(e: Setup): Outcome {
    Outcome(State(imap[],
                  map[0 := Thread(MAIN, Running(0), Native), 1 := Thread(e.t1, Suspended(e.pause), Active(INFO))],
                  {0, 1}, Kernel0(e.main, Some(0)), map[INFO := ENTRY], Default, false, ENTERED), 1, 0)
  }

  lemma YieldGoes(e: Setup, m: imap<int, Word>)
    requires Suits(e) && Holds(m, COUNTER_1, 1) && Holds(m, COUNTER_2, 0)
    ensures Legal(e.lim, InT1(e, m, Default, e.pause), SwitchTo(0, 0, 0, MAIN))
    ensures AsExpected(Step(InT1(e, m, Default, e.pause), SwitchTo(0, 0, 0, MAIN)), Switched(e))
  {
  }

  lemma CountAndYield(e: Setup, m: imap<int, Word>, cpu: Context)
    requires Suits(e)
    ensures CanEnd(e.lim, InT1(e, m, Default, cpu), Switched(e))
  {
    var l1, l2 := User(0, e.pause, map[COUNTER_2 := 0]), User(0, e.pause, map[COUNTER_1 := 1]);
    StoreGoes(e, m, Default, cpu, e.pause, COUNTER_2, 0);
    var s1 := Step(InT1(e, m, Default, cpu), l1);
    StoreGoes(e, s1.mem, Default, e.pause, e.pause, COUNTER_1, 1);
    var s2 := Step(s1, l2);
    YieldGoes(e, s2.mem);
    Ends(e.lim, Step(s2, SwitchTo(0, 0, 0, MAIN)), Switched(e));
    OneStepBack(e.lim, s2, SwitchTo(0, 0, 0, MAIN), Switched(e));
    OneStepBack(e.lim, s1, l2, Switched(e));
    OneStepBack(e.lim, InT1(e, m, Default, cpu), l1, Switched(e));
  }

  /** The contract allows the test; control gets back to main with the registers it had, and the counter is
      one. */
  lemma BasicTest(n: Platforms.Name, m: Memory)
    ensures CanEnd(On(n).lim, Platforms.Start(m), Switched(On(n)))
  {
    var e := On(n);
    Suited(n);
    forall m' ensures CanEnd(e.lim, WithT1(e, m', Default), Switched(e)) {
      ToT1Goes(e, m', Default);
      CountAndYield(e, Step(WithT1(e, m', Default), SwitchTo(0, 1, 0, MAIN)).mem,
                    Context(DEREFERENCE_CALL_INFO, e.t1.root, []));
      OneStepBack(e.lim, WithT1(e, m', Default), SwitchTo(0, 1, 0, MAIN), Switched(e));
    }
    FirstSteps(e, m, Switched(e));
  }

  // ---------------------------------------------------------------------------------------------
  // Return handler

  /** The entry function has returned, and the return handler runs. */
  ghost function Handling(e: Setup, m: imap<int, Word>, cpu: Context): State {
    State(m, map[0 := Thread(MAIN, Suspended(e.main), Native), 1 := Thread(e.t1, Running(0), Finished)], {0, 1},
          Kernel0(cpu, Some(1)), map[], Custom(1), false, ENTERED + [Returned(1, INFO, Custom(1))])
  }

  ghost function Back(e: Setup, m: imap<int, Word>): State {
    State(m, map[0 := Thread(MAIN, Running(0), Native), 1 := Thread(e.t1, Suspended(e.handling), Finished)], {0, 1},
          Kernel0(e.main, Some(0)), map[], Custom(1), false, ENTERED + [Returned(1, INFO, Custom(1))])
  }

  ghost function Alone(e: Setup, m: imap<int, Word>, h: Handler): State {
    State(m, map[0 := Thread(MAIN, Running(0), Native)], {0, 1},
          Kernel0(e.main, Some(0)), map[], h, false, ENTERED + [Returned(1, INFO, Custom(1))])
  }

  ghost function Handled(e: Setup): Outcome { Outcome(Alone(e, imap[], Default), 69, 420) }

  lemma ReturnGoes(e: Setup, m: imap<int, Word>)
    requires Suits(e) && Holds(m, COUNTER_1, 69)
    ensures var s := InT1(e, m, Custom(1), e.final);
      && Goes(e, s, EntryReturns(0), Handling(e, m, e.final.(pc := COTHREAD_RETURNED)))
      && Holds(Step(s, EntryReturns(0)).mem, COUNTER_1, 69)
  {
  }

  lemma HandleGoes(e: Setup, m: imap<int, Word>, cpu: Context)
    requires Suits(e) && Holds(m, COUNTER_1, 69)
    ensures var s, l := Handling(e, m, cpu), User(0, e.handling, map[COUNTER_2 := 420]);
      && Goes(e, s, l, Handling(e, m, e.handling))
      && Holds(Step(s, l).mem, COUNTER_1, 69) && Holds(Step(s, l).mem, COUNTER_2, 420)
  {
    assert forall y | y in map[COUNTER_2 := 420] :: Writable(Handling(e, m, cpu), y);
  }

  lemma ToMainGoes(e: Setup, m: imap<int, Word>)
    requires Suits(e) && Holds(m, COUNTER_1, 69) && Holds(m, COUNTER_2, 420)
    ensures var s, l := Handling(e, m, e.handling), SwitchTo(0, 0, 0, MAIN);
      && Goes(e, s, l, Back(e, m))
      && Holds(Step(s, l).mem, COUNTER_1, 69) && Holds(Step(s, l).mem, COUNTER_2, 420)
  {
  }

  lemma CleanUpGoes(e: Setup, m: imap<int, Word>)
    requires Suits(e)
    ensures Legal(e.lim, Back(e, m), Destroy(0, 1)) && Step(Back(e, m), Destroy(0, 1)) == Alone(e, m, Custom(1))
    ensures Legal(e.lim, Alone(e, m, Custom(1)), SetHandler(0, Default))
    ensures Step(Alone(e, m, Custom(1)), SetHandler(0, Default)) == Alone(e, m, Default)
  {
  }

  lemma LastSteps(e: Setup, m: imap<int, Word>)
    requires Suits(e) && Holds(m, COUNTER_1, 69) && Holds(m, COUNTER_2, 420)
    ensures CanEnd(e.lim, Back(e, m), Handled(e))
  {
    CleanUpGoes(e, m);
    Ends(e.lim, Alone(e, m, Default), Handled(e));
    OneStepBack(e.lim, Alone(e, m, Custom(1)), SetHandler(0, Default), Handled(e));
    OneStepBack(e.lim, Back(e, m), Destroy(0, 1), Handled(e));
  }

  lemma HandleAndSwitch(e: Setup, m: imap<int, Word>, cpu: Context)
    requires Suits(e) && Holds(m, COUNTER_1, 69)
    ensures CanEnd(e.lim, Handling(e, m, cpu), Handled(e))
  {
    var l := User(0, e.handling, map[COUNTER_2 := 420]);
    HandleGoes(e, m, cpu);
    var s := Step(Handling(e, m, cpu), l);
    ToMainGoes(e, s.mem);
    LastSteps(e, Step(s, SwitchTo(0, 0, 0, MAIN)).mem);
    OneStepBack(e.lim, s, SwitchTo(0, 0, 0, MAIN), Handled(e));
    OneStepBack(e.lim, Handling(e, m, cpu), l, Handled(e));
  }

  lemma CountAndReturn(e: Setup, m: imap<int, Word>, cpu: Context)
    requires Suits(e)
    ensures CanEnd(e.lim, InT1(e, m, Custom(1), cpu), Handled(e))
  {
    var l := User(0, e.final, map[COUNTER_1 := 69]);
    StoreGoes(e, m, Custom(1), cpu, e.final, COUNTER_1, 69);
    var s := Step(InT1(e, m, Custom(1), cpu), l);
    ReturnGoes(e, s.mem);
    HandleAndSwitch(e, Step(s, EntryReturns(0)).mem, e.final.(pc := COTHREAD_RETURNED));
    OneStepBack(e.lim, s, EntryReturns(0), Handled(e));
    OneStepBack(e.lim, InT1(e, m, Custom(1), cpu), l, Handled(e));
  }

  /** The contract allows the test: the entry function returns, the handler that was set switches to main,
      the cothread is destroyed, and both counters are as expected. */
  lemma ReturnHandlerTest(n: Platforms.Name, m: Memory)
    ensures CanEnd(On(n).lim, Platforms.Start(m), Handled(On(n)))
  {
    var e := On(n);
    Suited(n);
    forall m' ensures CanEnd(e.lim, WithT1(e, m', Default), Handled(e)) {
      HandlerGoes(e, m');
      ToT1Goes(e, m', Custom(1));
      CountAndReturn(e, Step(WithT1(e, m', Custom(1)), SwitchTo(0, 1, 0, MAIN)).mem,
                     Context(DEREFERENCE_CALL_INFO, e.t1.root, []));
      OneStepBack(e.lim, WithT1(e, m', Custom(1)), SwitchTo(0, 1, 0, MAIN), Handled(e));
      OneStepBack(e.lim, WithT1(e, m', Default), SetHandler(0, Custom(1)), Handled(e));
    }
    FirstSteps(e, m, Handled(e));
  }
}
