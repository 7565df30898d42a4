/** Whole runs of the abstract coroutine machine. */
module Runs {
  import opened Common
  import opened Machine
  import opened Coroutine

  ghost predicate LegalRun(lim: Limits, s: State, ls: seq<Label>)
    decreases |ls|
  {
    ls == [] || (Legal(lim, s, ls[0]) && LegalRun(lim, Step(s, ls[0]), ls[1..]))
  }

  ghost function Run(lim: Limits, s: State, ls: seq<Label>): State
    requires LegalRun(lim, s, ls)
    decreases |ls|
  {
    if ls == [] then s else Run(lim, Step(s, ls[0]), ls[1..])
  }

  lemma {:induction false} RunKeepsInv(lim: Limits, s: State, ls: seq<Label>)
    requires Inv(lim, s) && LegalRun(lim, s, ls)
    ensures Inv(lim, Run(lim, s, ls))
    decreases |ls|
  {
    if ls != [] {
      StepKeepsInv(lim, s, ls[0]);
      RunKeepsInv(lim, Step(s, ls[0]), ls[1..]);
    }
  }

  // ---------------------------------------------------------------------------------------------
  // Resumption

  /** No kernel thread switches to `a` or destroys it. */
  ghost predicate Undisturbed(ls: seq<Label>, a: Tid) {
    forall l | l in ls :: !(l.SwitchTo? && l.to == a) && !(l.Destroy? && l.t == a)
  }

  ghost predicate Unwritten(ls: seq<Label>, x: int) {
    forall l | l in ls && l.User? :: x !in l.writes
  }

  ghost predicate Asleep(s: State, a: Tid) {
    a in s.threads && s.threads[a].run.Suspended?
  }

  /** A word of a suspended cothread's live stack, with a value its program may rely on. */
  ghost predicate LiveWord(s: State, a: Tid, x: int) {
    Asleep(s, a) && s.threads[a].home.stack.Has(x) && s.threads[a].run.cont.sp <= x && x in s.mem
  }

  /** Cothread `a` is the same in `s'` as in `s`, and so is `x` if it is a word of its live stack. */
  ghost predicate Kept(s: State, s': State, a: Tid, x: int) {
    && a in s.threads && a in s'.threads && s'.threads[a] == s.threads[a]
    && (LiveWord(s, a, x) ==> x in s'.mem && s'.mem[x] == s.mem[x])
  }

  lemma WrapKeeps(lim: Limits, s: State, k: Kid, t: Tid, home: Home, a: Tid, x: int)
    requires Inv(lim, s) && Asleep(s, a) && k in s.kernels
    requires s.kernels[k].current.None? ==> MayWrap(lim, s, k, t, home)
    ensures Kept(s, EnsureCurrent(s, k, t, home), a, x)
  {
  }

  lemma TransferKeeps(lim: Limits, s: State, k: Kid, to: Tid, a: Tid, x: int)
    requires Inv(lim, s) && Asleep(s, a) && MayTransfer(lim, s, k, to) && to != a
    ensures Kept(s, Transfer(s, k, s.kernels[k].current.value, to), a, x)
  {
    var from := s.kernels[k].current.value;
    assert KernelOk(s.threads, k, s.kernels[k]);
    assert PairOk(s.threads[from], s.threads[a]);
  }

  lemma FinishCallKeeps(lim: Limits, s: State, k: Kid, a: Tid, x: int)
    requires Inv(lim, s) && Asleep(s, a) && MayReturn(s, k)
    ensures Kept(s, FinishCall(s, k, s.kernels[k].current.value), a, x)
  {
    var t := s.kernels[k].current.value;
    assert KernelOk(s.threads, k, s.kernels[k]);
    assert PairOk(s.threads[t], s.threads[a]);
    assert ThreadOk(lim, s.calls, s.threads[t]);
  }

  lemma StepKeepsAsleep(lim: Limits, s: State, l: Label, a: Tid, x: int)
    requires Inv(lim, s) && Legal(lim, s, l)
    requires Asleep(s, a) && Undisturbed([l], a) && Unwritten([l], x)
    ensures Kept(s, Step(s, l), a, x)
  {
    assert l in [l];
    match l
    case Current(k, t, home) => WrapKeeps(lim, s, k, t, home, a, x);
    case SwitchTo(k, to, t, home) =>
      EnsureCurrentKeepsInv(lim, s, k, t, home);
      WrapKeeps(lim, s, k, t, home, a, x);
      TransferKeeps(lim, EnsureCurrent(s, k, t, home), k, to, a, x);
    case EntryReturns(k) => FinishCallKeeps(lim, s, k, a, x);
    case _ =>
  }

  lemma {:induction false} RunKeepsAsleep(lim: Limits, s: State, ls: seq<Label>, a: Tid, x: int)
    requires Inv(lim, s) && LegalRun(lim, s, ls)
    requires Asleep(s, a) && Undisturbed(ls, a) && Unwritten(ls, x)
    ensures Kept(s, Run(lim, s, ls), a, x)
    decreases |ls|
  {
    if ls != [] {
      assert ls[0] in ls && (forall l | l in ls[1..] :: l in ls);
      StepKeepsInv(lim, s, ls[0]);
      StepKeepsAsleep(lim, s, ls[0], a, x);
      RunKeepsAsleep(lim, Step(s, ls[0]), ls[1..], a, x);
    }
  }

  /** The cothread on whose behalf the switch `go` is made. */
  ghost function Caller(s: State, go: Label): Tid
    requires go.SwitchTo? && Domain(s, go)
  {
    EnsureCurrent(s, go.k, go.t, go.home).kernels[go.k].current.value
  }

  /** A word at or above `sp` in the stack of `home` has the value in `m'` that it had in `m`. */
  ghost predicate WordKept(home: Home, sp: int, m: imap<int, Word>, m': imap<int, Word>, x: int) {
    home.stack.Has(x) && sp <= x && x in m ==> x in m' && m'[x] == m[x]
  }

  /** `a` runs on `k` with the registers `cpu`. */
  ghost predicate RunsWith(s: State, k: Kid, a: Tid, cpu: Context) {
    k in s.kernels && s.kernels[k].current == Some(a) && s.kernels[k].cpu == cpu
  }

  lemma TransferSleeps(lim: Limits, s: State, k: Kid, to: Tid, a: Tid, x: int)
    requires Inv(lim, s) && MayTransfer(lim, s, k, to) && s.kernels[k].current == Some(a) && a != to
    ensures var s' := Transfer(s, k, a, to); var cpu := s.kernels[k].cpu;
      && Asleep(s', a) && s'.threads[a] == s.threads[a].(run := Suspended(cpu))
      && WordKept(s.threads[a].home, cpu.sp, s.mem, s'.mem, x)
  {
    assert KernelOk(s.threads, k, s.kernels[k]);
    assert ThreadOk(lim, s.calls, s.threads[a]);
    assert ThreadOk(lim, s.calls, s.threads[to]);
  }

  lemma WrapKeepsStack(lim: Limits, s: State, k: Kid, t: Tid, home: Home, a: Tid, x: int)
    requires Inv(lim, s) && k in s.kernels
    requires s.kernels[k].current.None? ==> MayWrap(lim, s, k, t, home)
    requires EnsureCurrent(s, k, t, home).kernels[k].current == Some(a)
    ensures var s' := EnsureCurrent(s, k, t, home);
      && s'.kernels[k].cpu == s.kernels[k].cpu
      && a in s'.threads && WordKept(s'.threads[a].home, s.kernels[k].cpu.sp, s.mem, s'.mem, x)
  {
    assert KernelOk(s.threads, k, s.kernels[k]);
  }

  lemma FallAsleep(lim: Limits, s: State, go: Label, a: Tid, x: int)
    requires Inv(lim, s) && go.SwitchTo? && Legal(lim, s, go) && a == Caller(s, go) && a != go.to
    ensures var s' := Step(s, go); var cpu := s.kernels[go.k].cpu;
      && Asleep(s', a) && s'.threads[a].run.cont == cpu
      && WordKept(s'.threads[a].home, cpu.sp, s.mem, s'.mem, x)
  {
    var s0 := EnsureCurrent(s, go.k, go.t, go.home);
    EnsureCurrentKeepsInv(lim, s, go.k, go.t, go.home);
    WrapKeepsStack(lim, s, go.k, go.t, go.home, a, x);
    TransferSleeps(lim, s0, go.k, go.to, a, x);
  }

  lemma WakeUp(lim: Limits, s: State, back: Label, a: Tid, x: int)
    requires Inv(lim, s) && Asleep(s, a) && back.SwitchTo? && back.to == a && Legal(lim, s, back)
    ensures var s' := Step(s, back); var cpu := s.threads[a].run.cont;
      && RunsWith(s', back.k, a, cpu)
      && WordKept(s.threads[a].home, cpu.sp, s.mem, s'.mem, x)
  {
    var s0 := EnsureCurrent(s, back.k, back.t, back.home);
    var from := s0.kernels[back.k].current.value;
    EnsureCurrentKeepsInv(lim, s, back.k, back.t, back.home);
    WrapKeeps(lim, s, back.k, back.t, back.home, a, x);
    assert KernelOk(s0.threads, back.k, s0.kernels[back.k]);
    assert PairOk(s0.threads[from], s0.threads[a]);
  }

  /** When the `switchTo` that cothread `a` issued returns, on whatever kernel thread and however many
      steps later, the registers are those of the call, `a` is current, and every word of its live
      stack that no program step stored to has kept its value. */
  lemma Resumption(lim: Limits, s: State, go: Label, s1: State, ls: seq<Label>, s2: State, back: Label, a: Tid, x: int)
    requires Inv(lim, s)
    requires go.SwitchTo? && Legal(lim, s, go) && a == Caller(s, go) && a != go.to && s1 == Step(s, go)
    requires LegalRun(lim, s1, ls) && Undisturbed(ls, a) && Unwritten(ls, x) && s2 == Run(lim, s1, ls)
    requires back.SwitchTo? && back.to == a && Legal(lim, s2, back)
    ensures
      && RunsWith(Step(s2, back), back.k, a, s.kernels[go.k].cpu)
      && a in s1.threads
      && WordKept(s1.threads[a].home, s.kernels[go.k].cpu.sp, s.mem, Step(s2, back).mem, x)
  {
    StepKeepsInv(lim, s, go);
    FallAsleep(lim, s, go, a, x);
    RunKeepsInv(lim, s1, ls);
    RunKeepsAsleep(lim, s1, ls, a, x);
    WakeUp(lim, s2, back, a, x);
  }

  /** A cothread may switch to any cothread that does not run elsewhere, wherever that one ran before, and to
      itself, provided that there is room to save its context; and to no other. */
  lemma MaySwitchIff(lim: Limits, s: State, k: Kid, a: Tid, to: Tid, t: Tid, home: Home)
    requires Inv(lim, s) && InProgram(s, k) && s.kernels[k].current == Some(a)
    ensures a in s.threads
    ensures Legal(lim, s, SwitchTo(k, to, t, home)) <==>
      && to in s.threads && (to == a || !s.threads[to].run.Running?)
      && lim.room(s.threads[a].home, s.kernels[k].cpu)
  {
    assert KernelOk(s.threads, k, s.kernels[k]);
  }

  /** Switching to oneself returns at once with the same registers, although the documentation
      excludes it. */
  lemma SelfSwitch(lim: Limits, s: State, k: Kid, a: Tid, t: Tid, home: Home, x: int)
    requires Inv(lim, s) && Legal(lim, s, SwitchTo(k, a, t, home)) && s.kernels[k].current == Some(a)
    ensures var s' := Step(s, SwitchTo(k, a, t, home));
      && s' == s.(mem := s'.mem)
      && (s.threads[a].home.stack.Has(x) && s.kernels[k].cpu.sp <= x && x in s.mem
          ==> x in s'.mem && s'.mem[x] == s.mem[x])
  {
    StepKeepsInv(lim, s, SwitchTo(k, a, t, home));
    assert ThreadOk(lim, s.calls, s.threads[a]);
  }
}
