/** The `setjmp` platform: cothreads are prepared by a signal handler, which needs a process-wide signal
    disposition and one global variable. Kernel threads interleave between any two statements. System
    calls succeed, and SIGUSR1 is not raised by anyone else. */
module SetJmp {
  import opened Common

  type Kid = nat
  type Impl = nat
  type Entry = nat
  type Info = nat

  /** What SIGUSR1 does: something that the program chose, or `SignalHandlerSetupThunk`. */
  datatype Action = Chosen(id: nat) | Thunk

  /** A signal stack: one that the program chose, or the stack of a cothread. */
  datatype Stack = Alternate(id: nat) | StackOf(impl: Impl)

  /** `EntryContext`. */
  datatype EntryContext = EntryContext(impl: Impl, entry: Entry)

  /** A jump buffer: zeroed, filled in by the signal handler with the context `info` in a frame on `stack`,
      or filled in by `switchTo`. */
  datatype JumpBuffer = Zeroed | Handler(info: Info, stack: Stack) | Saved(cont: nat)

  /** The statements of `Prepare` and of the handler it raises, in order. */
  datatype Point =
    | Lock | SetStack | SetGlobal | SetAction | Raise
    | ReadGlobal | SetJump
    | RestoreStack | RestoreAction | Unlock
  {
    function Rank(): nat {
      if Lock? then 0 else if SetStack? then 1 else if SetGlobal? then 2 else if SetAction? then 3
      else if Raise? then 4 else if ReadGlobal? then 5 else if SetJump? then 6 else if RestoreStack? then 7
      else if RestoreAction? then 8 else 9
    }
  }

  /** The next statement. */
  function After(at: Point): Point {
    match at
    case Lock => SetStack
    case SetStack => SetGlobal
    case SetGlobal => SetAction
    case SetAction => Raise
    case Raise => ReadGlobal
    case ReadGlobal => SetJump
    case SetJump => RestoreStack
    case RestoreStack => RestoreAction
    case RestoreAction => Unlock
    case Unlock => Unlock
  }

  /** A kernel thread inside `Prepare`, before statement `at`, with its local variables. */
  datatype Task = Task(at: Point, impl: Impl, info: Info, oldStack: Stack, oldAction: Action, ctx: Option<Info>)

  datatype Event =
    | Left(impl: Impl, cont: nat)
    | Resumed(impl: Impl, cont: nat)
    | Entered(impl: Impl, entry: Entry, stack: Stack)

  /** The process. The last four fields only record what happened: what the program chose for SIGUSR1 and
      as signal stacks, which entry each cothread was prepared with, and the switches made. */
  datatype Process = Process(
    owner: Option<Kid>,
    action: Action,
    preparing: Option<Info>,
    stacks: map<Kid, Stack>,
    contexts: map<Info, EntryContext>,
    buffers: map<Impl, JumpBuffer>,
    tasks: map<Kid, Task>,
    current: map<Kid, Impl>,
    choice: Action,
    choices: map<Kid, Stack>,
    recorded: map<Impl, Entry>,
    log: seq<Event>)

  datatype Label =
    | Boot(k: Kid, impl: Impl, stack: Stack)
    | Begin(k: Kid, impl: Impl, entry: Entry, info: Info)
    | Advance(k: Kid)
    | Switch(k: Kid, to: Impl, cont: nat)
    | Destroy(impl: Impl)
    | ChooseStack(k: Kid, stack: Stack)
    | ChooseAction(action: Action)

  // ---------------------------------------------------------------------------------------------
  // Steps

  /** The next statement of `Prepare` on `k`. */
  ghost predicate Ready(p: Process, k: Kid) {
    && k in p.tasks && k in p.stacks
    && (p.tasks[k].at.SetJump? ==> p.tasks[k].ctx.Some? && p.tasks[k].ctx.value in p.contexts)
  }

  ghost function Next(p: Process, k: Kid): Process
    requires Ready(p, k)
  {
    var t := p.tasks[k];
    match t.at
    case Lock => p.(owner := Some(k), tasks := p.tasks[k := t.(at := SetStack)])
    case SetStack => p.(stacks := p.stacks[k := StackOf(t.impl)],
                        tasks := p.tasks[k := t.(at := SetGlobal, oldStack := p.stacks[k])])
    case SetGlobal => p.(preparing := Some(t.info), tasks := p.tasks[k := t.(at := SetAction)])
    case SetAction => p.(action := Thunk, tasks := p.tasks[k := t.(at := Raise, oldAction := p.action)])
    case Raise => p.(tasks := p.tasks[k := t.(at := if p.action.Thunk? then ReadGlobal else RestoreStack)])
    case ReadGlobal => p.(tasks := p.tasks[k := t.(at := SetJump, ctx := p.preparing)])
    case SetJump =>
      p.(buffers := p.buffers[p.contexts[t.ctx.value].impl := Handler(t.ctx.value, p.stacks[k])],
         tasks := p.tasks[k := t.(at := RestoreStack)])
    case RestoreStack => p.(stacks := p.stacks[k := t.oldStack], tasks := p.tasks[k := t.(at := RestoreAction)])
    case RestoreAction => p.(action := t.oldAction, tasks := p.tasks[k := t.(at := Unlock)])
    case Unlock => p.(owner := None, tasks := p.tasks - {k})
  }

  ghost function Enter(p: Process, k: Kid, impl: Impl, entry: Entry, info: Info): Process {
    p.(contexts := p.contexts[info := EntryContext(impl, entry)],
       buffers := p.buffers[impl := Zeroed],
       tasks := p.tasks[k := Task(Lock, impl, info, StackOf(impl), Thunk, None)],
       recorded := p.recorded[impl := entry])
  }

  /** `switchTo`: the caller's buffer is filled in, then control goes where the buffer of `to` says. */
  ghost predicate CanJump(p: Process, k: Kid, to: Impl) {
    k in p.current && to in p.buffers && (p.current[k] == to || Filled(p, p.buffers[to]))
  }

  /** A jump to a zeroed buffer is undefined. */
  ghost predicate Filled(p: Process, b: JumpBuffer) {
    !b.Zeroed? && (b.Handler? ==> b.info in p.contexts)
  }

  ghost function Arrival(p: Process, to: Impl, b: JumpBuffer): Event
    requires Filled(p, b)
  {
    match b
    case Saved(c) => Resumed(to, c)
    case Handler(info, stack) => Entered(to, p.contexts[info].entry, stack)
  }

  ghost function Jump(p: Process, k: Kid, to: Impl, cont: nat): Process
    requires CanJump(p, k, to)
  {
    var from := p.current[k];
    var buffers := p.buffers[from := Saved(cont)];
    p.(buffers := buffers, current := p.current[k := to],
       log := p.log + [Left(from, cont)] + [Arrival(p, to, buffers[to])])
  }

  ghost predicate Domain(p: Process, l: Label) {
    match l
    case Advance(k) => Ready(p, k)
    case Switch(k, to, cont) => CanJump(p, k, to)
    case _ => true
  }

  ghost function Step(p: Process, l: Label): Process
    requires Domain(p, l)
  {
    match l
    case Boot(k, impl, stack) =>
      p.(stacks := p.stacks[k := stack], choices := p.choices[k := stack],
         buffers := p.buffers[impl := Zeroed], current := p.current[k := impl])
    case Begin(k, impl, entry, info) => Enter(p, k, impl, entry, info)
    case Advance(k) => Next(p, k)
    case Switch(k, to, cont) => Jump(p, k, to, cont)
    case Destroy(impl) => p.(buffers := p.buffers - {impl})
    case ChooseStack(k, stack) => p.(stacks := p.stacks[k := stack], choices := p.choices[k := stack])
    case ChooseAction(action) => p.(action := action, choice := action)
  }

  // ---------------------------------------------------------------------------------------------
  // What programs may do

  ghost predicate Running(p: Process, impl: Impl) {
    exists k :: k in p.current && p.current[k] == impl
  }

  ghost predicate BeingPrepared(p: Process, impl: Impl) {
    exists k :: k in p.tasks && p.tasks[k].impl == impl
  }

  ghost predicate Unused(p: Process, impl: Impl) {
    impl !in p.recorded && impl !in p.buffers && !Running(p, impl)
    && forall e | e in p.log :: e.impl != impl
  }

  /** A kernel thread inside `Prepare` waits only for the lock. What the program has to avoid: switching to
      a cothread that runs or is being prepared, and changing SIGUSR1 while a cothread is prepared. */
  ghost predicate Legal(p: Process, l: Label) {
    match l
    case Boot(k, impl, stack) => k !in p.current && k !in p.stacks && k !in p.tasks && Unused(p, impl)
    case Begin(k, impl, entry, info) => k in p.current && k !in p.tasks && Unused(p, impl) && info !in p.contexts
    case Advance(k) => k in p.tasks && (p.tasks[k].at.Lock? ==> p.owner.None?)
    case Switch(k, to, cont) =>
      && k in p.current && k !in p.tasks && to in p.buffers && !BeingPrepared(p, to)
      && (Running(p, to) ==> p.current[k] == to)
    case Destroy(impl) => !Running(p, impl) && !BeingPrepared(p, impl)
    case ChooseStack(k, stack) => k in p.current && k !in p.tasks
    case ChooseAction(action) => p.owner.None?
  }

  // ---------------------------------------------------------------------------------------------
  // The invariant

  /** What does not change while `k` prepares a cothread. */
  ghost predicate Grounded(p: Process, k: Kid, t: Task) {
    && k in p.stacks && k in p.choices && k in p.current
    && t.info in p.contexts && t.impl in p.recorded && p.contexts[t.info] == EntryContext(t.impl, p.recorded[t.impl])
    && !Running(p, t.impl) && (forall e | e in p.log :: e.impl != t.impl)
    && t.impl in p.buffers
  }

  /** How far `t` on `k` has come, in terms of the lock, SIGUSR1, the global, the signal stack and the jump
      buffer. */
  predicate Progress(k: Kid, t: Task, owner: Option<Kid>, action: Action, choice: Action, preparing: Option<Info>,
                     stack: Stack, chosen: Stack, buffer: JumpBuffer) {
    var r := t.at.Rank();
    && (r == 0 || owner == Some(k))
    && stack == (if 2 <= r <= 7 then StackOf(t.impl) else chosen)
    && (2 <= r <= 7 ==> t.oldStack == chosen)
    && (r >= 3 ==> preparing == Some(t.info))
    && (r >= 1 ==> action == if 4 <= r <= 8 then Thunk else choice)
    && (4 <= r <= 8 ==> t.oldAction == choice)
    && (r == 6 ==> t.ctx == Some(t.info))
    && buffer == (if r >= 7 then Handler(t.info, StackOf(t.impl)) else Zeroed)
  }

  ghost predicate TaskOk(p: Process, k: Kid, t: Task) {
    && Grounded(p, k, t)
    && Progress(k, t, p.owner, p.action, p.choice, p.preparing, p.stacks[k], p.choices[k], p.buffers[t.impl])
  }

  ghost predicate TasksOk(p: Process) {
    (forall k | k in p.tasks :: TaskOk(p, k, p.tasks[k])) && Distinct(p)
  }

  ghost predicate Distinct(p: Process) {
    forall j, k | j in p.tasks && k in p.tasks && j != k :: p.tasks[j].impl != p.tasks[k].impl
  }

  /** While the lock is free, SIGUSR1 is what the program chose; so is the signal stack of every kernel
      thread outside `Prepare`, at all times. */
  ghost predicate SignalsOk(p: Process) {
    && (p.owner.None? ==> p.action == p.choice)
    && (p.owner.Some? ==> p.owner.value in p.tasks && !p.tasks[p.owner.value].at.Lock?)
    && p.stacks.Keys == p.choices.Keys && p.current.Keys == p.stacks.Keys
    && (forall k | k in p.stacks && k !in p.tasks :: p.stacks[k] == p.choices[k])
  }

  ghost predicate BufferOk(p: Process, i: Impl, b: JumpBuffer) {
    match b
    case Zeroed => Running(p, i) || BeingPrepared(p, i)
    case Handler(info, stack) =>
      && stack == StackOf(i) && i in p.recorded
      && info in p.contexts && p.contexts[info] == EntryContext(i, p.recorded[i])
      && (Running(p, i) || forall e | e in p.log :: e.impl != i)
    case Saved(c) => Running(p, i) || LastLeft(p.log, i) == Some(c)
  }

  ghost predicate BuffersOk(p: Process) {
    && (forall i | i in p.buffers :: BufferOk(p, i, p.buffers[i]))
    && (forall k | k in p.current :: p.current[k] in p.buffers)
    && (forall j, k | j in p.current && k in p.current && j != k :: p.current[j] != p.current[k])
  }

  ghost predicate LogOk(p: Process) {
    && Faithful(p.log)
    && (forall e | e in p.log && e.Entered? ::
          e.impl in p.recorded && e.entry == p.recorded[e.impl] && e.stack == StackOf(e.impl))
  }

  ghost predicate Inv(p: Process) {
    TasksOk(p) && SignalsOk(p) && BuffersOk(p) && LogOk(p)
  }

  /** Where cothread `i` last switched away. */
  ghost function LastLeft(log: seq<Event>, i: Impl): Option<nat> {
    if log == [] then None
    else
      var e := log[|log| - 1];
      if e.Left? && e.impl == i then Some(e.cont) else LastLeft(log[..|log| - 1], i)
  }

  /** Every cothread resumes where it last switched away, and is entered at most once, before anything else
      happens to it. */
  ghost predicate Faithful(log: seq<Event>) {
    log == [] ||
      var e, before := log[|log| - 1], log[..|log| - 1];
      && Faithful(before)
      && (e.Resumed? ==> LastLeft(before, e.impl) == Some(e.cont))
      && (e.Entered? ==> forall f | f in before :: f.impl != e.impl)
  }

  // ---------------------------------------------------------------------------------------------
  // Every step keeps the invariant

  /** Only the owner of the lock is past it. */
  lemma OthersWait(p: Process, k: Kid, j: Kid)
    requires TasksOk(p) && k in p.tasks && j in p.tasks && j != k && p.tasks[k].at != Lock
    ensures p.tasks[j].at == Lock
  {
    assert TaskOk(p, k, p.tasks[k]) && TaskOk(p, j, p.tasks[j]);
  }

  /** Preparing a cothread changes none of this. */
  ghost predicate Frame(p: Process, p': Process) {
    && p'.contexts == p.contexts && p'.recorded == p.recorded && p'.log == p.log
    && p'.current == p.current && p'.choices == p.choices && p'.choice == p.choice
    && p'.stacks.Keys == p.stacks.Keys && p'.buffers.Keys == p.buffers.Keys
  }

  /** What the `k`-th kernel thread changes of the rest. */
  ghost predicate OnlyBy(p: Process, p': Process, k: Kid, impl: Impl) {
    && (forall j | j in p.stacks && j in p'.stacks && j != k :: p'.stacks[j] == p.stacks[j])
    && (forall i | i in p.buffers && i in p'.buffers && i != impl :: p'.buffers[i] == p.buffers[i])
    && (forall j | j != k :: (j in p'.tasks <==> j in p.tasks) && (j in p.tasks ==> p'.tasks[j] == p.tasks[j]))
  }

  lemma NextFrame(p: Process, k: Kid)
    requires Ready(p, k) && TaskOk(p, k, p.tasks[k])
    ensures Frame(p, Next(p, k)) && OnlyBy(p, Next(p, k), k, p.tasks[k].impl)
    ensures k in Next(p, k).tasks <==> p.tasks[k].at != Unlock
    ensures k in Next(p, k).tasks ==> Next(p, k).tasks[k].impl == p.tasks[k].impl
  {
    var t := p.tasks[k];
    match t.at
    case SetJump => assert t.ctx == Some(t.info);
    case _ =>
  }

  lemma GroundedKept(p: Process, p': Process, k: Kid, t: Task)
    requires Grounded(p, k, t) && Frame(p, p')
    ensures Grounded(p', k, t)
  {
    assert forall i :: Running(p', i) == Running(p, i);
  }

  /** The statement of `k` brings its own task forward. */
  lemma OwnProgress(p: Process, k: Kid)
    requires Ready(p, k) && TaskOk(p, k, p.tasks[k]) && p.tasks[k].at != Unlock
    requires p.tasks[k].at == Lock ==> p.owner.None? && p.action == p.choice
    ensures var p' := Next(p, k);
      && k in p'.tasks && k in p'.stacks && k in p'.choices && p'.tasks[k].impl == p.tasks[k].impl
      && p'.tasks[k].info == p.tasks[k].info
      && p.tasks[k].impl in p'.buffers
      && Progress(k, p'.tasks[k], p'.owner, p'.action, p'.choice, p'.preparing, p'.stacks[k], p'.choices[k],
                  p'.buffers[p.tasks[k].impl])
  {
    match p.tasks[k].at
    case Lock =>
    case SetStack =>
    case SetGlobal =>
    case SetAction =>
    case Raise =>
    case ReadGlobal =>
    case SetJump =>
    case RestoreStack =>
    case RestoreAction =>
  }

  /** Another task is not disturbed, because one of the two waits for the lock. */
  lemma OtherKept(p: Process, p': Process, k: Kid, j: Kid)
    requires TasksOk(p) && k in p.tasks && j in p.tasks && j != k
    requires Frame(p, p') && OnlyBy(p, p', k, p.tasks[k].impl)
    requires p.tasks[k].at == Lock ==> p.owner.None?
    ensures j in p'.tasks && TaskOk(p', j, p'.tasks[j])
  {
    assert TaskOk(p, j, p.tasks[j]);
    if p.tasks[k].at != Lock { OthersWait(p, k, j); }
    GroundedKept(p, p', j, p.tasks[j]);
  }

  /** The handler finds the context that its own kernel thread installed, and fills in the buffer of the
      cothread that this kernel thread prepares, with a frame on that cothread's stack. */
  lemma HandlerReadsOwn(p: Process, k: Kid)
    requires TasksOk(p) && k in p.tasks
    ensures Ready(p, k)
    ensures var t := p.tasks[k];
      && (t.at.ReadGlobal? ==> p.preparing == Some(t.info) && t.info in p.contexts && p.contexts[t.info].impl == t.impl)
      && (t.at.SetJump? ==> Next(p, k).buffers == p.buffers[t.impl := Handler(t.info, StackOf(t.impl))])
  {
    ContextFound(p, k, p.tasks[k]);
  }

  lemma ContextFound(p: Process, k: Kid, t: Task)
    requires TasksOk(p) && k in p.tasks && t == p.tasks[k]
    ensures Grounded(p, k, t)
    ensures t.at.ReadGlobal? ==> p.preparing == Some(t.info)
    ensures t.at.SetJump? ==> t.ctx == Some(t.info) && p.stacks[k] == StackOf(t.impl)
  {
    assert TaskOk(p, k, t);
  }

  lemma NextTasks(p: Process, k: Kid)
    requires TasksOk(p) && SignalsOk(p) && Legal(p, Advance(k)) && Ready(p, k)
    ensures TasksOk(Next(p, k))
  {
    assert TaskOk(p, k, p.tasks[k]);
    NextFrame(p, k);
    if p.tasks[k].at != Unlock { OwnTask(p, k); }
    TasksFrom(p, Next(p, k), k);
  }

  lemma TasksFrom(p: Process, p': Process, k: Kid)
    requires TasksOk(p) && k in p.tasks && Frame(p, p') && OnlyBy(p, p', k, p.tasks[k].impl)
    requires k in p'.tasks ==> TaskOk(p', k, p'.tasks[k]) && p'.tasks[k].impl == p.tasks[k].impl
    requires p.tasks[k].at == Lock ==> p.owner.None?
    ensures TasksOk(p')
  {
    forall j | j in p'.tasks && j != k ensures TaskOk(p', j, p'.tasks[j]) {
      OtherKept(p, p', k, j);
    }
    StillDistinct(p, p', k);
  }

  lemma OwnTask(p: Process, k: Kid)
    requires Ready(p, k) && TaskOk(p, k, p.tasks[k]) && p.tasks[k].at != Unlock
    requires p.tasks[k].at == Lock ==> p.owner.None? && p.action == p.choice
    ensures k in Next(p, k).tasks && TaskOk(Next(p, k), k, Next(p, k).tasks[k])
  {
    OwnProgress(p, k);
    NextFrame(p, k);
    GroundedKept(p, Next(p, k), k, p.tasks[k]);
  }

  lemma StillDistinct(p: Process, p': Process, k: Kid)
    requires Distinct(p) && k in p.tasks && OnlyBy(p, p', k, p.tasks[k].impl)
    requires k in p'.tasks ==> p'.tasks[k].impl == p.tasks[k].impl
    ensures Distinct(p')
  {
  }

  lemma NextSignals(p: Process, k: Kid)
    requires TasksOk(p) && SignalsOk(p) && Legal(p, Advance(k)) && Ready(p, k)
    ensures SignalsOk(Next(p, k))
  {
    assert TaskOk(p, k, p.tasks[k]);
    NextFrame(p, k);
    SignalsFollow(p, k, p.tasks[k]);
  }

  lemma SignalsFollow(p: Process, k: Kid, t: Task)
    requires SignalsOk(p) && Ready(p, k) && t == p.tasks[k] && TaskOk(p, k, t)
    requires t.at == Lock ==> p.owner.None?
    ensures var p' := Next(p, k);
      && (p'.owner.None? ==> p'.action == p'.choice)
      && (p'.owner.Some? ==> p'.owner == Some(k) && k in p'.tasks && !p'.tasks[k].at.Lock?)
      && (k !in p'.tasks ==> p'.stacks[k] == p'.choices[k])
  {
  }

  lemma NextBuffers(p: Process, k: Kid)
    requires TasksOk(p) && BuffersOk(p) && Ready(p, k)
    ensures BuffersOk(Next(p, k))
  {
    var p', t := Next(p, k), p.tasks[k];
    assert TaskOk(p, k, t);
    NextFrame(p, k);
    forall i | i in p'.buffers ensures BufferOk(p', i, p'.buffers[i]) {
      assert BufferOk(p, i, p.buffers[i]);
      if i == t.impl { OwnBuffer(p, k, t); } else { OtherBuffer(p, p', k, i); }
    }
  }

  lemma OwnBuffer(p: Process, k: Kid, t: Task)
    requires Ready(p, k) && t == p.tasks[k] && TaskOk(p, k, t)
    ensures var p' := Next(p, k); t.impl in p'.buffers && BufferOk(p', t.impl, p'.buffers[t.impl])
  {
    NextFrame(p, k);
    if t.at != Unlock && t.at != Lock {
      OwnProgress(p, k);
    }
    assert k in Next(p, k).tasks ==> Next(p, k).tasks[k].impl == t.impl;
  }

  lemma OtherBuffer(p: Process, p': Process, k: Kid, i: Impl)
    requires Frame(p, p') && k in p.tasks && OnlyBy(p, p', k, p.tasks[k].impl) && i != p.tasks[k].impl
    requires i in p.buffers && i in p'.buffers && BufferOk(p, i, p.buffers[i])
    ensures BufferOk(p', i, p'.buffers[i])
  {
    if BeingPrepared(p, i) {
      var j :| j in p.tasks && p.tasks[j].impl == i;
      assert j in p'.tasks && p'.tasks[j].impl == i;
    }
    assert Running(p, i) ==> Running(p', i);
  }

  lemma NextKeepsInv(p: Process, k: Kid)
    requires Inv(p) && Legal(p, Advance(k))
    ensures Ready(p, k) && Inv(Next(p, k))
  {
    HandlerReadsOwn(p, k);
    NextTasks(p, k);
    NextSignals(p, k);
    NextBuffers(p, k);
    assert TaskOk(p, k, p.tasks[k]);
    NextFrame(p, k);
    LogKept(p, Next(p, k));
  }

  lemma LogKept(p: Process, p': Process)
    requires LogOk(p) && p'.log == p.log && p'.recorded == p.recorded
    ensures LogOk(p')
  {
  }

  /** More kernel threads, tasks and contexts. */
  ghost predicate Extends(p: Process, p': Process) {
    && (forall k | k in p.current :: k in p'.current && p'.current[k] == p.current[k])
    && (forall k | k in p.tasks :: k in p'.tasks && p'.tasks[k] == p.tasks[k])
    && (forall c | c in p.contexts :: c in p'.contexts && p'.contexts[c] == p.contexts[c])
    && (forall i | i in p.recorded :: i in p'.recorded && p'.recorded[i] == p.recorded[i])
    && p'.log == p.log
  }

  lemma RunningKept(p: Process, p': Process, i: Impl)
    requires Extends(p, p')
    ensures Running(p, i) ==> Running(p', i)
    ensures BeingPrepared(p, i) ==> BeingPrepared(p', i)
  {
    if Running(p, i) {
      var k :| k in p.current && p.current[k] == i;
      assert k in p'.current && p'.current[k] == i;
    }
    if BeingPrepared(p, i) {
      var k :| k in p.tasks && p.tasks[k].impl == i;
      assert k in p'.tasks && p'.tasks[k].impl == i;
    }
  }

  lemma BufferKept(p: Process, p': Process, i: Impl, b: JumpBuffer)
    requires BufferOk(p, i, b) && Extends(p, p')
    ensures BufferOk(p', i, b)
  {
    RunningKept(p, p', i);
  }

  /** Every buffer but that of `impl`. */
  lemma BuffersKept(p: Process, p': Process, impl: Impl)
    requires BuffersOk(p) && Extends(p, p')
    requires forall i | i in p'.buffers && i != impl :: i in p.buffers && p'.buffers[i] == p.buffers[i]
    ensures forall i | i in p'.buffers && i != impl :: BufferOk(p', i, p'.buffers[i])
  {
    forall i | i in p'.buffers && i != impl ensures BufferOk(p', i, p'.buffers[i]) {
      BufferKept(p, p', i, p.buffers[i]);
    }
  }

  lemma LogKeptBy(p: Process, p': Process)
    requires LogOk(p) && Extends(p, p')
    ensures LogOk(p')
  {
  }

  lemma BootTasks(p: Process, k: Kid, impl: Impl, stack: Stack)
    requires TasksOk(p) && Legal(p, Boot(k, impl, stack))
    ensures TasksOk(Step(p, Boot(k, impl, stack)))
  {
    var p' := Step(p, Boot(k, impl, stack));
    forall j | j in p'.tasks ensures TaskOk(p', j, p'.tasks[j]) {
      assert TaskOk(p, j, p.tasks[j]);
    }
  }

  lemma BootBuffers(p: Process, k: Kid, impl: Impl, stack: Stack)
    requires BuffersOk(p) && Legal(p, Boot(k, impl, stack))
    ensures BuffersOk(Step(p, Boot(k, impl, stack)))
  {
    var p' := Step(p, Boot(k, impl, stack));
    BuffersKept(p, p', impl);
    assert p'.current[k] == impl;
    assert forall j | j in p.current :: Running(p, p.current[j]);
  }

  lemma BootKeepsInv(p: Process, k: Kid, impl: Impl, stack: Stack)
    requires Inv(p) && Legal(p, Boot(k, impl, stack))
    ensures Inv(Step(p, Boot(k, impl, stack)))
  {
    BootTasks(p, k, impl, stack);
    BootSignals(p, k, impl, stack);
    BootBuffers(p, k, impl, stack);
    LogKept(p, Step(p, Boot(k, impl, stack)));
  }

  lemma BootSignals(p: Process, k: Kid, impl: Impl, stack: Stack)
    requires SignalsOk(p) && Legal(p, Boot(k, impl, stack))
    ensures SignalsOk(Step(p, Boot(k, impl, stack)))
  {
  }

  lemma WaitingMore(p: Process, p': Process, j: Kid)
    requires j in p.tasks && TaskOk(p, j, p.tasks[j]) && Extends(p, p') && p'.current == p.current
    requires p'.stacks == p.stacks && p'.choices == p.choices && p'.owner == p.owner && p'.action == p.action
    requires p'.choice == p.choice && p'.preparing == p.preparing
    requires p.tasks[j].impl in p'.buffers && p'.buffers[p.tasks[j].impl] == p.buffers[p.tasks[j].impl]
    ensures TaskOk(p', j, p.tasks[j])
  {
    assert forall i :: Running(p', i) == Running(p, i);
  }

  lemma BeginExtends(p: Process, k: Kid, impl: Impl, entry: Entry, info: Info)
    requires Legal(p, Begin(k, impl, entry, info))
    ensures var p' := Enter(p, k, impl, entry, info);
      Extends(p, p') && p'.current == p.current && p'.stacks == p.stacks && p'.choices == p.choices
  {
  }

  lemma BeginTask(p: Process, k: Kid, impl: Impl, entry: Entry, info: Info)
    requires SignalsOk(p) && Legal(p, Begin(k, impl, entry, info))
    ensures var p' := Enter(p, k, impl, entry, info); TaskOk(p', k, p'.tasks[k])
  {
    assert forall i :: Running(Enter(p, k, impl, entry, info), i) == Running(p, i);
  }

  lemma BeginTasks(p: Process, k: Kid, impl: Impl, entry: Entry, info: Info)
    requires TasksOk(p) && SignalsOk(p) && Legal(p, Begin(k, impl, entry, info))
    ensures TasksOk(Enter(p, k, impl, entry, info))
  {
    var p' := Enter(p, k, impl, entry, info);
    BeginExtends(p, k, impl, entry, info);
    BeginTask(p, k, impl, entry, info);
    forall j | j in p.tasks ensures TaskOk(p', j, p.tasks[j]) && p.tasks[j].impl != impl {
      assert TaskOk(p, j, p.tasks[j]);
      WaitingMore(p, p', j);
    }
  }

  lemma BeginSignals(p: Process, k: Kid, impl: Impl, entry: Entry, info: Info)
    requires SignalsOk(p) && Legal(p, Begin(k, impl, entry, info))
    ensures SignalsOk(Enter(p, k, impl, entry, info))
  {
  }

  lemma BeginBuffers(p: Process, k: Kid, impl: Impl, entry: Entry, info: Info)
    requires BuffersOk(p) && Legal(p, Begin(k, impl, entry, info))
    ensures BuffersOk(Enter(p, k, impl, entry, info))
  {
    var p' := Enter(p, k, impl, entry, info);
    BuffersKept(p, p', impl);
    assert p'.tasks[k].impl == impl;
  }

  lemma BeginKeepsInv(p: Process, k: Kid, impl: Impl, entry: Entry, info: Info)
    requires Inv(p) && Legal(p, Begin(k, impl, entry, info))
    ensures Inv(Enter(p, k, impl, entry, info))
  {
    BeginExtends(p, k, impl, entry, info);
    BeginTasks(p, k, impl, entry, info);
    BeginSignals(p, k, impl, entry, info);
    BeginBuffers(p, k, impl, entry, info);
    LogKeptBy(p, Enter(p, k, impl, entry, info));
  }

  lemma LastLeftMore(log: seq<Event>, e: Event, i: Impl)
    ensures LastLeft(log + [e], i) == if e.Left? && e.impl == i then Some(e.cont) else LastLeft(log, i)
  {
    assert (log + [e])[..|log|] == log;
  }

  lemma FaithfulMore(log: seq<Event>, e: Event)
    requires Faithful(log)
    requires e.Resumed? ==> LastLeft(log, e.impl) == Some(e.cont)
    requires e.Entered? ==> forall f | f in log :: f.impl != e.impl
    ensures Faithful(log + [e])
  {
    assert (log + [e])[..|log|] == log;
  }

  lemma LastLeftBefore(log: seq<Event>, from: Impl, cont: nat, e: Event, i: Impl)
    requires !e.Left?
    ensures LastLeft(log + [Left(from, cont)] + [e], i) == if i == from then Some(cont) else LastLeft(log, i)
  {
    LastLeftMore(log + [Left(from, cont)], e, i);
    LastLeftMore(log, Left(from, cont), i);
  }

  /** What a legal switch finds in the buffer of the cothread that it goes to. */
  lemma BufferFound(p: Process, k: Kid, to: Impl, cont: nat)
    requires BuffersOk(p) && Legal(p, Switch(k, to, cont))
    ensures p.current[k] in p.buffers && CanJump(p, k, to)
    ensures p.current[k] != to ==> !Running(p, to) && BufferOk(p, to, p.buffers[to])
  {
    assert BufferOk(p, to, p.buffers[to]);
  }

  /** The new log is the old one, where the caller leaves, and where the target goes on. */
  lemma Arrives(p: Process, k: Kid, to: Impl, cont: nat, e: Event)
    requires BuffersOk(p) && LogOk(p) && Legal(p, Switch(k, to, cont)) && CanJump(p, k, to)
    requires e == Arrival(p, to, p.buffers[p.current[k] := Saved(cont)][to])
    ensures !e.Left? && (e.Resumed? ==> LastLeft(p.log + [Left(p.current[k], cont)], e.impl) == Some(e.cont))
    ensures e.Entered? ==> e.impl != p.current[k] && forall f | f in p.log :: f.impl != e.impl
    ensures e.Entered? ==> e.impl in p.recorded && e.entry == p.recorded[e.impl] && e.stack == StackOf(e.impl)
  {
    BufferFound(p, k, to, cont);
    LastLeftMore(p.log, Left(p.current[k], cont), to);
  }

  lemma SwitchLog(p: Process, k: Kid, to: Impl, cont: nat)
    requires BuffersOk(p) && LogOk(p) && Legal(p, Switch(k, to, cont)) && CanJump(p, k, to)
    ensures LogOk(Jump(p, k, to, cont))
  {
    var e := Arrival(p, to, p.buffers[p.current[k] := Saved(cont)][to]);
    Arrives(p, k, to, cont, e);
    LogGrows(p.log, p.current[k], cont, e);
    forall f | f in Jump(p, k, to, cont).log && f.Entered? ensures f in p.log || f == e {
    }
  }

  lemma LogGrows(log: seq<Event>, from: Impl, cont: nat, e: Event)
    requires Faithful(log)
    requires e.Resumed? ==> LastLeft(log + [Left(from, cont)], e.impl) == Some(e.cont)
    requires e.Entered? ==> e.impl != from && forall f | f in log :: f.impl != e.impl
    ensures Faithful(log + [Left(from, cont)] + [e])
  {
    FaithfulMore(log, Left(from, cont));
    FaithfulMore(log + [Left(from, cont)], e);
  }

  lemma SwitchTasks(p: Process, k: Kid, to: Impl, cont: nat)
    requires TasksOk(p) && CanJump(p, k, to) && Legal(p, Switch(k, to, cont))
    ensures TasksOk(Jump(p, k, to, cont))
  {
    var p' := Jump(p, k, to, cont);
    forall j | j in p'.tasks ensures TaskOk(p', j, p'.tasks[j]) {
      assert TaskOk(p, j, p.tasks[j]);
    }
  }

  lemma SwitchBuffer(p: Process, k: Kid, to: Impl, cont: nat, i: Impl)
    requires BuffersOk(p) && CanJump(p, k, to) && Legal(p, Switch(k, to, cont)) && i in p.buffers
    ensures var p' := Jump(p, k, to, cont); BufferOk(p', i, p'.buffers[i])
  {
    var p' := Jump(p, k, to, cont);
    var e := Arrival(p, to, p.buffers[p.current[k] := Saved(cont)][to]);
    LastLeftBefore(p.log, p.current[k], cont, e, i);
    assert BufferOk(p, i, p.buffers[i]);
    if i == to {
      assert p'.current[k] == to;
    } else if i != p.current[k] {
      RunningElsewhere(p, p', k, i);
    }
  }

  lemma SwitchBuffers(p: Process, k: Kid, to: Impl, cont: nat)
    requires Inv(p) && CanJump(p, k, to) && Legal(p, Switch(k, to, cont))
    ensures BuffersOk(Jump(p, k, to, cont))
  {
    var p' := Jump(p, k, to, cont);
    forall i | i in p'.buffers ensures BufferOk(p', i, p'.buffers[i]) {
      assert p.current[k] in p.buffers;
      SwitchBuffer(p, k, to, cont, i);
    }
    SwitchCurrent(p, k, to, cont);
  }

  lemma SwitchCurrent(p: Process, k: Kid, to: Impl, cont: nat)
    requires BuffersOk(p) && CanJump(p, k, to) && Legal(p, Switch(k, to, cont))
    ensures var p' := Jump(p, k, to, cont);
      && (forall j | j in p'.current :: p'.current[j] in p'.buffers)
      && (forall i, j | i in p'.current && j in p'.current && i != j :: p'.current[i] != p'.current[j])
  {
    forall j | j in p.current && j != k ensures p.current[j] != to {
      if p.current[k] != to {
        assert !Running(p, to);
      }
    }
  }

  lemma RunningElsewhere(p: Process, p': Process, k: Kid, i: Impl)
    requires k in p.current && p.current[k] != i && p'.tasks == p.tasks
    requires forall j | j in p.current && j != k :: j in p'.current && p'.current[j] == p.current[j]
    ensures Running(p, i) ==> Running(p', i)
    ensures BeingPrepared(p, i) ==> BeingPrepared(p', i)
  {
    if Running(p, i) {
      var j :| j in p.current && p.current[j] == i;
      assert j in p'.current && p'.current[j] == i;
    }
    if BeingPrepared(p, i) {
      var j :| j in p.tasks && p.tasks[j].impl == i;
      assert j in p'.tasks && p'.tasks[j].impl == i;
    }
  }

  lemma SwitchSignals(p: Process, k: Kid, to: Impl, cont: nat)
    requires SignalsOk(p) && CanJump(p, k, to)
    ensures SignalsOk(Jump(p, k, to, cont))
  {
  }

  lemma SwitchKeepsInv(p: Process, k: Kid, to: Impl, cont: nat)
    requires Inv(p) && Legal(p, Switch(k, to, cont))
    ensures CanJump(p, k, to) && Inv(Jump(p, k, to, cont))
  {
    BufferFound(p, k, to, cont);
    SwitchLog(p, k, to, cont);
    SwitchSignals(p, k, to, cont);
    SwitchTasks(p, k, to, cont);
    SwitchBuffers(p, k, to, cont);
  }

  lemma DestroyTasks(p: Process, impl: Impl)
    requires TasksOk(p) && Legal(p, Destroy(impl))
    ensures TasksOk(Step(p, Destroy(impl)))
  {
    var p' := Step(p, Destroy(impl));
    forall j | j in p'.tasks ensures TaskOk(p', j, p'.tasks[j]) {
      assert TaskOk(p, j, p.tasks[j]);
      WaitingMore(p, p', j);
    }
  }

  lemma DestroyBuffers(p: Process, impl: Impl)
    requires BuffersOk(p) && Legal(p, Destroy(impl))
    ensures BuffersOk(Step(p, Destroy(impl)))
  {
    BuffersKept(p, Step(p, Destroy(impl)), impl);
    assert forall k | k in p.current :: Running(p, p.current[k]);
  }

  lemma DestroyKeepsInv(p: Process, impl: Impl)
    requires Inv(p) && Legal(p, Destroy(impl))
    ensures Inv(Step(p, Destroy(impl)))
  {
    DestroyTasks(p, impl);
    DestroyBuffers(p, impl);
    LogKept(p, Step(p, Destroy(impl)));
  }

  lemma ChooseTasks(p: Process, l: Label)
    requires TasksOk(p) && Legal(p, l) && (l.ChooseStack? || l.ChooseAction?)
    ensures TasksOk(Step(p, l))
  {
    var p' := Step(p, l);
    assert forall i :: Running(p', i) == Running(p, i);
    forall j | j in p'.tasks ensures TaskOk(p', j, p'.tasks[j]) {
      assert TaskOk(p, j, p.tasks[j]);
    }
  }

  lemma ChooseSignals(p: Process, l: Label)
    requires SignalsOk(p) && Legal(p, l) && (l.ChooseStack? || l.ChooseAction?)
    ensures SignalsOk(Step(p, l))
  {
  }

  lemma ChooseKeepsInv(p: Process, l: Label)
    requires Inv(p) && Legal(p, l) && (l.ChooseStack? || l.ChooseAction?)
    ensures Inv(Step(p, l))
  {
    ChooseTasks(p, l);
    ChooseSignals(p, l);
    BuffersUnchanged(p, Step(p, l));
    LogKept(p, Step(p, l));
  }

  lemma BuffersUnchanged(p: Process, p': Process)
    requires BuffersOk(p) && Extends(p, p') && p'.buffers == p.buffers && p'.current == p.current
    ensures BuffersOk(p')
  {
    forall i | i in p'.buffers ensures BufferOk(p', i, p'.buffers[i]) {
      BufferKept(p, p', i, p.buffers[i]);
    }
  }

  /** No statement fails to find what it needs, and every one keeps the invariant. */
  lemma StepKeepsInv(p: Process, l: Label)
    requires Inv(p) && Legal(p, l)
    ensures Domain(p, l) && Inv(Step(p, l))
  {
    match l
    case Boot(k, impl, stack) => BootKeepsInv(p, k, impl, stack);
    case Begin(k, impl, entry, info) => BeginKeepsInv(p, k, impl, entry, info);
    case Advance(k) => NextKeepsInv(p, k);
    case Switch(k, to, cont) => SwitchKeepsInv(p, k, to, cont);
    case Destroy(impl) => DestroyKeepsInv(p, impl);
    case _ => ChooseKeepsInv(p, l);
  }

  // ---------------------------------------------------------------------------------------------
  // Whole runs

  const START := Process(None, Chosen(0), None, map[], map[], map[], map[], map[], Chosen(0), map[], map[], [])

  ghost predicate LegalRun(p: Process, ls: seq<Label>)
    decreases |ls|
  {
    ls == [] || (Legal(p, ls[0]) && Domain(p, ls[0]) && LegalRun(Step(p, ls[0]), ls[1..]))
  }

  ghost function Run(p: Process, ls: seq<Label>): Process
    requires LegalRun(p, ls)
    decreases |ls|
  {
    if ls == [] then p else Run(Step(p, ls[0]), ls[1..])
  }

  /** Runs of programs that do what they may, as long as the library's statements are defined. */
  ghost predicate Permitted(p: Process, ls: seq<Label>)
    decreases |ls|
  {
    ls == [] || (Legal(p, ls[0]) && (Domain(p, ls[0]) ==> Permitted(Step(p, ls[0]), ls[1..])))
  }

  /** From the start, however many kernel threads prepare and switch cothreads in whatever order: no
      statement is undefined; while the lock is free, SIGUSR1 is what the program chose, and so is at all
      times the signal stack of every kernel thread outside `Prepare`; every cothread is entered at most
      once, on its own stack and with the entry it was prepared with, and resumes where it last left. */
  lemma {:induction false} RunsKeepPromises(p: Process, ls: seq<Label>)
    requires Inv(p) && Permitted(p, ls)
    ensures LegalRun(p, ls)
    ensures var p' := Run(p, ls);
      && (p'.owner.None? ==> p'.action == p'.choice)
      && (forall k | k in p'.stacks && k !in p'.tasks :: k in p'.choices && p'.stacks[k] == p'.choices[k])
      && Faithful(p'.log)
      && (forall e | e in p'.log && e.Entered? ::
            e.impl in p'.recorded && e.entry == p'.recorded[e.impl] && e.stack == StackOf(e.impl))
    decreases |ls|
  {
    if ls == [] {
      assert SignalsOk(p) && LogOk(p);
    } else {
      StepKeepsInv(p, ls[0]);
      RunsKeepPromises(Step(p, ls[0]), ls[1..]);
    }
  }

  lemma StartOk()
    ensures Inv(START)
  {
  }

  /** Cothread `i` is prepared, with the context `info`, and has not been switched to. */
  ghost predicate Waiting(p: Process, i: Impl, info: Info, entry: Entry) {
    && i in p.buffers && p.buffers[i] == Handler(info, StackOf(i))
    && !Running(p, i) && !BeingPrepared(p, i) && i in p.recorded && p.recorded[i] == entry
  }

  lemma NextKeepsWaiting(p: Process, k: Kid, i: Impl, info: Info, entry: Entry)
    requires Inv(p) && Legal(p, Advance(k)) && Ready(p, k) && Waiting(p, i, info, entry)
    ensures Waiting(Next(p, k), i, info, entry)
  {
    var p' := Next(p, k);
    assert TaskOk(p, k, p.tasks[k]);
    NextFrame(p, k);
    assert p.tasks[k].impl != i;
    forall j | j in p'.tasks ensures p'.tasks[j].impl != i {
      assert j in p.tasks;
    }
    assert Running(p', i) == Running(p, i);
  }

  lemma SwitchKeepsWaiting(p: Process, k: Kid, to: Impl, cont: nat, i: Impl, info: Info, entry: Entry)
    requires CanJump(p, k, to) && to != i && Waiting(p, i, info, entry)
    ensures Waiting(Jump(p, k, to, cont), i, info, entry)
  {
    assert p.current[k] != i;
    var p' := Jump(p, k, to, cont);
    assert BeingPrepared(p', i) == BeingPrepared(p, i);
    forall j | j in p'.current ensures p'.current[j] != i {
      assert j in p.current;
    }
  }

  lemma BeginKeepsWaiting(p: Process, k: Kid, impl: Impl, entry': Entry, info': Info, i: Impl, info: Info, entry: Entry)
    requires Unused(p, impl) && Waiting(p, i, info, entry)
    ensures Waiting(Enter(p, k, impl, entry', info'), i, info, entry)
  {
    var p' := Enter(p, k, impl, entry', info');
    assert Running(p', i) == Running(p, i);
    forall j | j in p'.tasks ensures p'.tasks[j].impl != i {
      assert j == k || j in p.tasks;
    }
  }

  lemma OthersKeepWaiting(p: Process, l: Label, i: Impl, info: Info, entry: Entry)
    requires Legal(p, l) && Waiting(p, i, info, entry) && i in p.buffers
    requires l.Boot? || l.ChooseStack? || l.ChooseAction? || (l.Destroy? && l.impl != i)
    ensures Waiting(Step(p, l), i, info, entry)
  {
    var p' := Step(p, l);
    assert BeingPrepared(p', i) == BeingPrepared(p, i);
    forall j | j in p'.current ensures p'.current[j] != i {
      assert (l.Boot? && j == l.k) || j in p.current;
    }
  }

  lemma StepKeepsWaiting(p: Process, l: Label, i: Impl, info: Info, entry: Entry)
    requires Inv(p) && Legal(p, l) && Domain(p, l) && Waiting(p, i, info, entry)
    requires !(l.Switch? && l.to == i) && !(l.Destroy? && l.impl == i)
    ensures Waiting(Step(p, l), i, info, entry)
  {
    match l
    case Advance(k) => NextKeepsWaiting(p, k, i, info, entry);
    case Switch(k, to, cont) => SwitchKeepsWaiting(p, k, to, cont, i, info, entry);
    case Begin(k, impl, entry', info') => BeginKeepsWaiting(p, k, impl, entry', info', i, info, entry);
    case _ => OthersKeepWaiting(p, l, i, info, entry);
  }

  /** However many cothreads are prepared in between, by whatever kernel threads, the first switch to a
      prepared cothread runs the entry that was recorded when it was prepared. */
  lemma {:induction false} LateBinding(p: Process, ls: seq<Label>, i: Impl, info: Info, entry: Entry, k: Kid, cont: nat)
    requires Inv(p) && Waiting(p, i, info, entry) && LegalRun(p, ls)
    requires forall l | l in ls :: !(l.Switch? && l.to == i) && !(l.Destroy? && l.impl == i)
    requires Legal(Run(p, ls), Switch(k, i, cont))
    ensures var p' := Run(p, ls);
      && CanJump(p', k, i)
      && Jump(p', k, i, cont).log == p'.log + [Left(p'.current[k], cont)] + [Entered(i, entry, StackOf(i))]
    decreases |ls|
  {
    if ls == [] {
      SwitchKeepsInv(p, k, i, cont);
      assert BufferOk(p, i, p.buffers[i]);
      assert p.current[k] != i;
    } else {
      assert ls[0] in ls && forall l | l in ls[1..] :: l in ls;
      StepKeepsInv(p, ls[0]);
      StepKeepsWaiting(p, ls[0], i, info, entry);
      LateBinding(Step(p, ls[0]), ls[1..], i, info, entry, k, cont);
    }
  }

  /** When `Prepare` is done, its cothread waits with the entry that was given. */
  lemma PreparedWaits(p: Process, k: Kid)
    requires Inv(p) && k in p.tasks && p.tasks[k].at == Unlock
    ensures Ready(p, k)
    ensures var t := p.tasks[k];
      t.impl in p.recorded && Waiting(Next(p, k), t.impl, t.info, p.recorded[t.impl])
  {
    var t, p' := p.tasks[k], Next(p, k);
    assert TaskOk(p, k, t);
    forall j | j in p'.tasks ensures p'.tasks[j].impl != t.impl {
    }
    assert Running(p', t.impl) == Running(p, t.impl);
  }

  /** There is no deadlock: whenever cothreads are being prepared, some kernel thread can go on, and each of
      its statements brings it closer to the end. */
  lemma SomeoneAdvances(p: Process, j: Kid)
    requires Inv(p) && j in p.tasks
    ensures exists k :: Advances(p, k)
  {
    var k := if p.owner.None? then j else p.owner.value;
    assert k in p.tasks && Legal(p, Advance(k));
    HandlerReadsOwn(p, k);
    RankGrows(p, k);
    assert Advances(p, k);
  }

  ghost predicate Advances(p: Process, k: Kid) {
    && k in p.tasks && Legal(p, Advance(k)) && Ready(p, k)
    && (k in Next(p, k).tasks ==> Next(p, k).tasks[k].at.Rank() > p.tasks[k].at.Rank())
  }

  lemma NextPoint(p: Process, k: Kid)
    requires Ready(p, k)
    ensures var at := p.tasks[k].at;
      if at == Unlock then k !in Next(p, k).tasks
      else
        && k in Next(p, k).tasks
        && Next(p, k).tasks[k].at == if at == Raise && !p.action.Thunk? then RestoreStack else After(at)
  {
  }

  lemma AfterRank(at: Point)
    requires at != Unlock
    ensures After(at).Rank() == at.Rank() + 1
  {
  }

  lemma RankGrows(p: Process, k: Kid)
    requires Ready(p, k)
    ensures k in Next(p, k).tasks ==> Next(p, k).tasks[k].at.Rank() > p.tasks[k].at.Rank()
  {
    NextPoint(p, k);
    if p.tasks[k].at != Unlock { AfterRank(p.tasks[k].at); }
  }

  // ---------------------------------------------------------------------------------------------
  // The statements themselves

  /** The effect of what is left of a call of `Prepare` that waits for the lock. */
  ghost function Finished(p: Process, k: Kid): Process
    requires k in p.tasks
  {
    var t := p.tasks[k];
    p.(preparing := Some(t.info), buffers := p.buffers[t.impl := Handler(t.info, StackOf(t.impl))],
       tasks := p.tasks - {k})
  }

  /** The task of an uninterrupted call before its statement `at`. */
  ghost function TaskAt(p: Process, k: Kid, at: Point): Task
    requires k in p.stacks && k in p.tasks
  {
    var t, r := p.tasks[k], at.Rank();
    Task(at, t.impl, t.info, if r >= 2 then p.stacks[k] else t.oldStack, if r >= 4 then p.action else t.oldAction,
         if r >= 6 then Some(t.info) else t.ctx)
  }

  ghost function StateAt(p: Process, k: Kid, at: Point): Process
    requires k in p.stacks && k in p.tasks
  {
    var t, r := p.tasks[k], at.Rank();
    p.(owner := if r >= 1 then Some(k) else None,
       action := if 4 <= r <= 8 then Thunk else p.action,
       preparing := if r >= 3 then Some(t.info) else p.preparing,
       stacks := if 2 <= r <= 7 then p.stacks[k := StackOf(t.impl)] else p.stacks,
       buffers := if r >= 7 then p.buffers[t.impl := Handler(t.info, StackOf(t.impl))] else p.buffers,
       tasks := p.tasks[k := TaskAt(p, k, at)])
  }

  /** A call of `Prepare` on `k` waits for the lock. */
  ghost predicate WaitsForLock(p: Process, k: Kid) {
    && k in p.stacks && k in p.tasks && p.tasks[k].at == Lock
    && p.tasks[k].info in p.contexts && p.contexts[p.tasks[k].info].impl == p.tasks[k].impl
  }

  lemma BackAgain<V>(m: map<nat, V>, k: nat, v: V)
    requires k in m
    ensures m[k := v][k := m[k]] == m
  {
  }

  lemma AndGone<V>(m: map<nat, V>, k: nat, v: V)
    ensures m[k := v] - {k} == m - {k}
  {
  }

  /** Once it has the lock, an uninterrupted call goes through these states and has the effect `Finished`. */
  lemma Uninterrupted(p: Process, k: Kid, at: Point)
    requires WaitsForLock(p, k) && p.owner.None?
    ensures StateAt(p, k, Lock) == p
    ensures Ready(StateAt(p, k, at), k)
    ensures Next(StateAt(p, k, at), k) == if at == Unlock then Finished(p, k) else StateAt(p, k, After(at))
  {
    if at.Rank() < 5 { FirstHalf(p, k, at); } else { SecondHalf(p, k, at); }
  }

  lemma FirstHalf(p: Process, k: Kid, at: Point)
    requires WaitsForLock(p, k) && p.owner.None? && at.Rank() < 5
    ensures Ready(StateAt(p, k, at), k) && Next(StateAt(p, k, at), k) == StateAt(p, k, After(at))
  {
    SetTwice(p.tasks, k, TaskAt(p, k, at), TaskAt(p, k, After(at)));
  }

  lemma SecondHalf(p: Process, k: Kid, at: Point)
    requires WaitsForLock(p, k) && p.owner.None? && at.Rank() >= 5
    ensures Ready(StateAt(p, k, at), k)
    ensures Next(StateAt(p, k, at), k) == if at == Unlock then Finished(p, k) else StateAt(p, k, After(at))
  {
    SetTwice(p.tasks, k, TaskAt(p, k, at), TaskAt(p, k, After(at)));
    BackAgain(p.stacks, k, StackOf(p.tasks[k].impl));
    AndGone(p.tasks, k, TaskAt(p, k, at));
  }

  /** The static variables of `SetJmp`, SIGUSR1 and the signal stacks, and the jump buffers. */
  class Library {
    var gSignalLock: Option<Kid>
    var action: Action
    var gCurrentlyPreparing: Option<Info>
    var stacks: map<Kid, Stack>
    var contexts: map<Info, EntryContext>
    var buffers: map<Impl, JumpBuffer>
    var tasks: map<Kid, Task>
    ghost var current: map<Kid, Impl>
    ghost var choice: Action
    ghost var choices: map<Kid, Stack>
    ghost var recorded: map<Impl, Entry>
    ghost var log: seq<Event>

    ghost function State(): Process
      reads this
    {
      Process(gSignalLock, action, gCurrentlyPreparing, stacks, contexts, buffers, tasks, current, choice, choices,
              recorded, log)
    }

    constructor ()
      ensures State() == START
    {
      gSignalLock, action, gCurrentlyPreparing := None, Chosen(0), None;
      stacks, contexts, buffers := map[], map[], map[];
      tasks, current, choice, choices, recorded, log := map[], map[], Chosen(0), map[], map[], [];
    }

    /** Runs on the signal stack of `k`. */
    method SignalHandlerSetupThunk(k: Kid)
      requires k in stacks && gCurrentlyPreparing.Some? && gCurrentlyPreparing.value in contexts
      modifies this`buffers
      ensures var ctx := gCurrentlyPreparing.value;
        buffers == old(buffers)[contexts[ctx].impl := Handler(ctx, stacks[k])]
    {
      var ctx := gCurrentlyPreparing.value;
      buffers := buffers[contexts[ctx].impl := Handler(ctx, stacks[k])];
    }

    /** What `Prepare` does while it holds the lock. */
    method RaiseOn(k: Kid, stack: Stack, info: Info)
      requires k in stacks && info in contexts
      modifies this`stacks, this`gCurrentlyPreparing, this`action, this`buffers
      ensures stacks == old(stacks) && action == old(action) && gCurrentlyPreparing == Some(info)
      ensures buffers == old(buffers)[contexts[info].impl := Handler(info, stack)]
    {
      var oldStack := stacks[k];
      stacks := stacks[k := stack];
      gCurrentlyPreparing := Some(info);
      var oldHandler := action;
      action := Thunk;
      if action.Thunk? { SignalHandlerSetupThunk(k); }
      stacks := stacks[k := oldStack];
      action := oldHandler;
      BackAgain(old(stacks), k, stack);
    }

    /** `Prepare`, up to where another kernel thread's lock stops it, or to the end. */
    method Prepare(k: Kid, impl: Impl, entry: Entry, info: Info) returns (done: bool)
      requires k in stacks
      modifies this
      ensures done == old(gSignalLock).None?
      ensures var p := Enter(old(State()), k, impl, entry, info); State() == if done then Finished(p, k) else p
      ensures info in contexts && contexts[info] == EntryContext(impl, entry)
      ensures impl in buffers && buffers[impl] == if done then Handler(info, StackOf(impl)) else Zeroed
    {
      buffers := buffers[impl := Zeroed];
      contexts := contexts[info := EntryContext(impl, entry)];
      recorded := recorded[impl := entry];
      tasks := tasks[k := Task(Lock, impl, info, StackOf(impl), Thunk, None)];
      assert State() == Enter(old(State()), k, impl, entry, info);
      done := Continue(k);
    }

    /** The rest of a call of `Prepare` that waits for the lock, if the lock is free. */
    method Continue(k: Kid) returns (done: bool)
      requires WaitsForLock(State(), k)
      modifies this
      ensures done == old(gSignalLock).None?
      ensures State() == if done then Finished(old(State()), k) else old(State())
    {
      if gSignalLock.Some? { return false; }
      var t := tasks[k];
      gSignalLock := Some(k);
      RaiseOn(k, StackOf(t.impl), t.info);
      gSignalLock := None;
      tasks := tasks - {k};
      done := true;
    }

    /** `switchTo`: `sigsetjmp` on the buffer of the caller, whose context is `cont`, and `siglongjmp` to
        that of `to`. */
    method SwitchTo(k: Kid, from: Impl, to: Impl, cont: nat) returns (target: JumpBuffer)
      requires CanJump(State(), k, to) && current[k] == from
      modifies this`buffers, this`current, this`log
      ensures State() == Jump(old(State()), k, to, cont) && target == buffers[to]
    {
      buffers := buffers[from := Saved(cont)];
      target := buffers[to];
      log := log + [Left(from, cont)] + [Arrival(old(State()), to, target)];
      current := current[k := to];
    }
  }
}
