/** What a process on the `setjmp` platform owes to the program: everything that happens in a run, in terms
    of the calls that the program has made. */
module SetJmpRuns {
  import opened Common
  import opened SetJmp

  function Front(ls: seq<Label>): seq<Label>
    requires ls != []
  {
    ls[..|ls| - 1]
  }

  function Last(ls: seq<Label>): Label
    requires ls != []
  {
    ls[|ls| - 1]
  }

  /** The program called `Prepare` for `impl`, with `entry`. */
  ghost predicate Given(ls: seq<Label>, impl: Impl, entry: Entry) {
    exists l | l in ls :: l.Begin? && l.impl == impl && l.entry == entry
  }

  /** The last disposition of SIGUSR1 that the program chose. */
  function ChosenAction(ls: seq<Label>): Action {
    if ls == [] then Chosen(0)
    else if Last(ls).ChooseAction? then Last(ls).action
    else ChosenAction(Front(ls))
  }

  /** The signal stack that the program chose last for kernel thread `k`. */
  function ChosenStack(ls: seq<Label>, k: Kid): Option<Stack> {
    if ls == [] then None
    else if (Last(ls).Boot? || Last(ls).ChooseStack?) && Last(ls).k == k then Some(Last(ls).stack)
    else ChosenStack(Front(ls), k)
  }

  /** The cothread that `k` started with or switched to last. */
  function CurrentOf(ls: seq<Label>, k: Kid): Option<Impl> {
    if ls == [] then None
    else if Last(ls).Boot? && Last(ls).k == k then Some(Last(ls).impl)
    else if Last(ls).Switch? && Last(ls).k == k then Some(Last(ls).to)
    else CurrentOf(Front(ls), k)
  }

  /** The cothreads that were made and not destroyed. */
  function Alive(ls: seq<Label>): set<Impl> {
    if ls == [] then {}
    else if Last(ls).Boot? || Last(ls).Begin? then Alive(Front(ls)) + {Last(ls).impl}
    else if Last(ls).Destroy? then Alive(Front(ls)) - {Last(ls).impl}
    else Alive(Front(ls))
  }

  /** A switch: who calls it, with what context, and who goes on. */
  datatype Trip = Trip(from: Option<Impl>, cont: nat, to: Impl)

  function Trips(ls: seq<Label>): seq<Trip> {
    if ls == [] then []
    else
      var l := Last(ls);
      Trips(Front(ls)) + if l.Switch? then [Trip(CurrentOf(Front(ls), l.k), l.cont, l.to)] else []
  }

  ghost predicate EntriesAsked(p: Process, ls: seq<Label>) {
    && (forall i | i in p.recorded :: Given(ls, i, p.recorded[i]))
    && (forall l | l in ls && l.Begin? :: l.impl in p.recorded && p.recorded[l.impl] == l.entry)
  }

  ghost predicate SignalsAsked(p: Process, ls: seq<Label>) {
    && p.choice == ChosenAction(ls)
    && (forall k | k in p.choices :: ChosenStack(ls, k) == Some(p.choices[k]))
  }

  ghost predicate PlacesAsked(p: Process, ls: seq<Label>) {
    && (forall k :: CurrentOf(ls, k) == if k in p.current then Some(p.current[k]) else None)
    && p.buffers.Keys == Alive(ls)
  }

  /** The log says of every switch that the caller leaves with its context, and that the target goes on. */
  ghost predicate Logs(log: seq<Event>, trips: seq<Trip>) {
    && |log| == 2 * |trips|
    && forall j | 0 <= j < |trips| :: Pair(trips[j], log[2 * j], log[2 * j + 1])
  }

  predicate Pair(t: Trip, leaves: Event, arrives: Event) {
    && leaves.Left? && Some(leaves.impl) == t.from && leaves.cont == t.cont
    && !arrives.Left? && arrives.impl == t.to
  }

  ghost predicate AsAsked(p: Process, ls: seq<Label>) {
    EntriesAsked(p, ls) && SignalsAsked(p, ls) && PlacesAsked(p, ls) && Logs(p.log, Trips(ls))
  }

  lemma Unfold(ls: seq<Label>, l: Label)
    ensures Front(ls + [l]) == ls && Last(ls + [l]) == l
  {
  }

  lemma GivenStill(ls: seq<Label>, l: Label, i: Impl, e: Entry)
    requires Given(ls, i, e)
    ensures Given(ls + [l], i, e)
  {
    var b :| b in ls && b.Begin? && b.impl == i && b.entry == e;
    assert b in ls + [l];
  }

  lemma SameEntries(p: Process, p': Process, ls: seq<Label>, l: Label)
    requires EntriesAsked(p, ls) && p'.recorded == p.recorded && !l.Begin?
    ensures EntriesAsked(p', ls + [l])
  {
    forall i | i in p'.recorded ensures Given(ls + [l], i, p'.recorded[i]) { GivenStill(ls, l, i, p.recorded[i]); }
  }

  lemma BeginEntries(p: Process, ls: seq<Label>, k: Kid, impl: Impl, entry: Entry, info: Info)
    requires EntriesAsked(p, ls) && impl !in p.recorded
    ensures EntriesAsked(Enter(p, k, impl, entry, info), ls + [Begin(k, impl, entry, info)])
  {
    var l := Begin(k, impl, entry, info);
    assert l in ls + [l];
    forall i | i in p.recorded ensures Given(ls + [l], i, p.recorded[i]) { GivenStill(ls, l, i, p.recorded[i]); }
  }

  lemma StepRecorded(p: Process, l: Label)
    requires TasksOk(p) && Domain(p, l) && !l.Begin?
    ensures Step(p, l).recorded == p.recorded
  {
    if l.Advance? { AdvanceKeeps(p, l.k); }
  }

  lemma AdvanceKeeps(p: Process, k: Kid)
    requires TasksOk(p) && k in p.tasks && Ready(p, k)
    ensures Frame(p, Next(p, k))
  {
    assert TaskOk(p, k, p.tasks[k]);
    NextFrame(p, k);
  }

  lemma StepEntries(p: Process, ls: seq<Label>, l: Label)
    requires TasksOk(p) && EntriesAsked(p, ls) && Legal(p, l) && Domain(p, l)
    ensures EntriesAsked(Step(p, l), ls + [l])
  {
    if l.Begin? {
      BeginEntries(p, ls, l.k, l.impl, l.entry, l.info);
    } else {
      StepRecorded(p, l);
      SameEntries(p, Step(p, l), ls, l);
    }
  }

  lemma SameSignals(p: Process, p': Process, ls: seq<Label>, l: Label)
    requires SignalsAsked(p, ls) && p'.choice == p.choice && p'.choices == p.choices
    requires !l.Boot? && !l.ChooseStack? && !l.ChooseAction?
    ensures SignalsAsked(p', ls + [l])
  {
    Unfold(ls, l);
  }

  lemma StepChoices(p: Process, l: Label)
    requires TasksOk(p) && Domain(p, l) && !l.Boot? && !l.ChooseStack? && !l.ChooseAction?
    ensures Step(p, l).choice == p.choice && Step(p, l).choices == p.choices
  {
    if l.Advance? { AdvanceKeeps(p, l.k); }
  }

  lemma StepSignals(p: Process, ls: seq<Label>, l: Label)
    requires TasksOk(p) && SignalsAsked(p, ls) && Domain(p, l)
    ensures SignalsAsked(Step(p, l), ls + [l])
  {
    if l.Boot? || l.ChooseStack? || l.ChooseAction? {
      Unfold(ls, l);
    } else {
      StepChoices(p, l);
      SameSignals(p, Step(p, l), ls, l);
    }
  }

  lemma StepPlaces(p: Process, ls: seq<Label>, l: Label)
    requires PlacesAsked(p, ls) && Legal(p, l) && Domain(p, l) && BuffersOk(p) && TasksOk(p)
    ensures PlacesAsked(Step(p, l), ls + [l])
  {
    Unfold(ls, l);
    if l.Advance? {
      assert TaskOk(p, l.k, p.tasks[l.k]);
      NextFrame(p, l.k);
    }
  }

  lemma MoreLogs(log: seq<Event>, trips: seq<Trip>, leaves: Event, arrives: Event, t: Trip)
    requires Logs(log, trips) && Pair(t, leaves, arrives)
    ensures Logs(log + [leaves] + [arrives], trips + [t])
  {
  }

  lemma SwitchLogs(p: Process, ls: seq<Label>, k: Kid, to: Impl, cont: nat)
    requires PlacesAsked(p, ls) && Logs(p.log, Trips(ls)) && CanJump(p, k, to)
    ensures Logs(Jump(p, k, to, cont).log, Trips(ls) + [Trip(CurrentOf(ls, k), cont, to)])
  {
    var e := Arrival(p, to, p.buffers[p.current[k] := Saved(cont)][to]);
    assert CurrentOf(ls, k) == Some(p.current[k]);
    MoreLogs(p.log, Trips(ls), Left(p.current[k], cont), e, Trip(Some(p.current[k]), cont, to));
  }

  lemma OtherLogs(p: Process, l: Label)
    requires TasksOk(p) && Domain(p, l) && !l.Switch?
    ensures Step(p, l).log == p.log
  {
    if l.Advance? { AdvanceKeeps(p, l.k); }
  }

  lemma StepLogs(p: Process, ls: seq<Label>, l: Label)
    requires TasksOk(p) && PlacesAsked(p, ls) && Logs(p.log, Trips(ls)) && Domain(p, l)
    ensures Logs(Step(p, l).log, Trips(ls + [l]))
  {
    Unfold(ls, l);
    if l.Switch? {
      SwitchLogs(p, ls, l.k, l.to, l.cont);
    } else {
      OtherLogs(p, l);
      assert Trips(ls + [l]) == Trips(ls);
    }
  }

  lemma StepAsAsked(p: Process, ls: seq<Label>, l: Label)
    requires BuffersOk(p) && TasksOk(p) && AsAsked(p, ls) && Legal(p, l) && Domain(p, l)
    ensures AsAsked(Step(p, l), ls + [l])
  {
    StepEntries(p, ls, l);
    StepSignals(p, ls, l);
    StepPlaces(p, ls, l);
    StepLogs(p, ls, l);
  }

  lemma Shift(done: seq<Label>, ls: seq<Label>)
    requires ls != []
    ensures (done + [ls[0]]) + ls[1..] == done + ls
  {
  }

  lemma {:induction false} RunAsAsked(p: Process, done: seq<Label>, ls: seq<Label>, all: seq<Label>)
    requires Inv(p) && AsAsked(p, done) && LegalRun(p, ls) && all == done + ls
    ensures AsAsked(Run(p, ls), all)
    decreases |ls|
  {
    if ls == [] {
      assert all == done;
    } else {
      StepKeepsInv(p, ls[0]);
      StepAsAsked(p, done, ls[0]);
      Shift(done, ls);
      RunAsAsked(Step(p, ls[0]), done + [ls[0]], ls[1..], all);
    }
  }

  /** From the start, however many kernel threads prepare and switch cothreads in whatever order: every entry
      that runs was given to `Prepare` for that cothread, and runs on that cothread's stack; while the lock
      is free SIGUSR1 is what the program chose last, and so is the signal stack of every kernel thread
      outside `Prepare`; and the log has exactly the switches that were made, in order, each from the
      cothread that its kernel thread ran. */
  lemma RunsDoAsAsked(ls: seq<Label>)
    requires Permitted(START, ls)
    ensures LegalRun(START, ls)
    ensures var p := Run(START, ls);
      && (forall e | e in p.log && e.Entered? :: Given(ls, e.impl, e.entry) && e.stack == StackOf(e.impl))
      && (p.owner.None? ==> p.action == ChosenAction(ls))
      && (forall k | k in p.stacks && k !in p.tasks :: ChosenStack(ls, k) == Some(p.stacks[k]))
      && (forall k | k in p.current :: CurrentOf(ls, k) == Some(p.current[k]))
      && p.buffers.Keys == Alive(ls)
      && Logs(p.log, Trips(ls)) && Faithful(p.log)
  {
    StartOk();
    RunsKeepPromises(START, ls);
    RunAsAsked(START, [], ls, ls);
  }

  // ---------------------------------------------------------------------------------------------
  // From `Prepare` to the entry

  /** Cothread `i` is prepared or being prepared with `entry`, and nobody has switched to it. */
  ghost predicate Untouched(p: Process, i: Impl, entry: Entry) {
    && i in p.recorded && p.recorded[i] == entry && i in p.buffers && !Running(p, i)
    && forall e | e in p.log :: e.impl != i
  }

  lemma BeginUntouched(p: Process, k: Kid, impl: Impl, entry: Entry, info: Info)
    requires Legal(p, Begin(k, impl, entry, info))
    ensures Untouched(Step(p, Begin(k, impl, entry, info)), impl, entry)
  {
    assert Running(Step(p, Begin(k, impl, entry, info)), impl) == Running(p, impl);
  }

  /** What other cothreads do to `i`. */
  lemma StillUntouched(p: Process, p': Process, i: Impl, entry: Entry)
    requires Untouched(p, i, entry) && i in p'.recorded && p'.recorded[i] == entry && i in p'.buffers
    requires forall k | k in p'.current :: p'.current[k] == i ==> k in p.current && p.current[k] == i
    requires forall e | e in p'.log :: e in p.log || e.impl != i
    ensures Untouched(p', i, entry)
  {
  }

  lemma AdvanceUntouched(p: Process, k: Kid, i: Impl, entry: Entry)
    requires TasksOk(p) && k in p.tasks && Ready(p, k) && Untouched(p, i, entry)
    ensures Untouched(Next(p, k), i, entry)
  {
    assert TaskOk(p, k, p.tasks[k]);
    NextFrame(p, k);
    StillUntouched(p, Next(p, k), i, entry);
  }

  lemma SwitchUntouched(p: Process, k: Kid, to: Impl, cont: nat, i: Impl, entry: Entry)
    requires CanJump(p, k, to) && to != i && Untouched(p, i, entry)
    ensures Untouched(Jump(p, k, to, cont), i, entry)
  {
    assert p.current[k] != i;
    StillUntouched(p, Jump(p, k, to, cont), i, entry);
  }

  lemma OtherUntouched(p: Process, l: Label, i: Impl, entry: Entry)
    requires Legal(p, l) && Untouched(p, i, entry) && !l.Advance? && !l.Switch? && !(l.Destroy? && l.impl == i)
    ensures Untouched(Step(p, l), i, entry)
  {
    StillUntouched(p, Step(p, l), i, entry);
  }

  lemma StepUntouched(p: Process, l: Label, i: Impl, entry: Entry)
    requires Inv(p) && Legal(p, l) && Domain(p, l) && Untouched(p, i, entry)
    requires !(l.Switch? && l.to == i) && !(l.Destroy? && l.impl == i)
    ensures Untouched(Step(p, l), i, entry)
  {
    match l
    case Advance(k) => AdvanceUntouched(p, k, i, entry);
    case Switch(k, to, cont) => SwitchUntouched(p, k, to, cont, i, entry);
    case _ => OtherUntouched(p, l, i, entry);
  }

  lemma {:induction false} RunUntouched(p: Process, ls: seq<Label>, i: Impl, entry: Entry)
    requires Inv(p) && LegalRun(p, ls) && Untouched(p, i, entry)
    requires forall l | l in ls :: !(l.Switch? && l.to == i) && !(l.Destroy? && l.impl == i)
    ensures Inv(Run(p, ls)) && Untouched(Run(p, ls), i, entry)
    decreases |ls|
  {
    if ls != [] {
      assert ls[0] in ls && forall l | l in ls[1..] :: l in ls;
      StepKeepsInv(p, ls[0]);
      StepUntouched(p, ls[0], i, entry);
      RunUntouched(Step(p, ls[0]), ls[1..], i, entry);
    }
  }

  lemma {:induction false} NeverLeft(log: seq<Event>, i: Impl)
    requires forall e | e in log :: e.impl != i
    ensures LastLeft(log, i) == None
  {
    if log != [] {
      assert log[|log| - 1] in log && forall e | e in log[..|log| - 1] :: e in log;
      NeverLeft(log[..|log| - 1], i);
    }
  }

  lemma FirstArrival(p: Process, k: Kid, i: Impl, cont: nat, entry: Entry)
    requires Inv(p) && Untouched(p, i, entry) && Legal(p, Switch(k, i, cont))
    ensures CanJump(p, k, i)
    ensures Jump(p, k, i, cont).log == p.log + [Left(p.current[k], cont)] + [Entered(i, entry, StackOf(i))]
  {
    assert p.current[k] != i;
    BufferFound(p, k, i, cont);
    NeverLeft(p.log, i);
  }

  /** From the call of `Prepare` on, whatever other kernel threads and cothreads do in between: the first
      switch to the cothread runs the entry that was given, on that cothread's stack. */
  lemma BegunThenEntered(p: Process, k: Kid, impl: Impl, entry: Entry, info: Info, ls: seq<Label>, k': Kid, cont: nat)
    requires Inv(p) && Legal(p, Begin(k, impl, entry, info))
    requires LegalRun(Step(p, Begin(k, impl, entry, info)), ls)
    requires forall l | l in ls :: !(l.Switch? && l.to == impl) && !(l.Destroy? && l.impl == impl)
    requires Legal(Run(Step(p, Begin(k, impl, entry, info)), ls), Switch(k', impl, cont))
    ensures var p' := Run(Step(p, Begin(k, impl, entry, info)), ls);
      && CanJump(p', k', impl)
      && Jump(p', k', impl, cont).log == p'.log + [Left(p'.current[k'], cont)] + [Entered(impl, entry, StackOf(impl))]
  {
    StepKeepsInv(p, Begin(k, impl, entry, info));
    BeginUntouched(p, k, impl, entry, info);
    RunUntouched(Step(p, Begin(k, impl, entry, info)), ls, impl, entry);
    FirstArrival(Run(Step(p, Begin(k, impl, entry, info)), ls), k', impl, cont, entry);
  }

  /** A call of `Prepare` that is about to return leaves its cothread waiting with the entry that was given,
      however many statements of others came between. */
  lemma BegunThenWaits(p: Process, k: Kid, impl: Impl, entry: Entry, info: Info, ls: seq<Label>)
    requires Inv(p) && Legal(p, Begin(k, impl, entry, info))
    requires LegalRun(Step(p, Begin(k, impl, entry, info)), ls)
    requires forall l | l in ls :: !(l.Switch? && l.to == impl) && !(l.Destroy? && l.impl == impl)
    requires var p' := Run(Step(p, Begin(k, impl, entry, info)), ls);
      k in p'.tasks && p'.tasks[k].impl == impl && p'.tasks[k].at == Unlock
    ensures var p' := Run(Step(p, Begin(k, impl, entry, info)), ls);
      Ready(p', k) && Waiting(Next(p', k), impl, p'.tasks[k].info, entry)
  {
    StepKeepsInv(p, Begin(k, impl, entry, info));
    BeginUntouched(p, k, impl, entry, info);
    RunUntouched(Step(p, Begin(k, impl, entry, info)), ls, impl, entry);
    PreparedWaits(Run(Step(p, Begin(k, impl, entry, info)), ls), k);
  }
}
