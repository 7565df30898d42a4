/** What the event log of any run says: each cothread is prepared, entered and returned in that order,
    with one piece of call information, and each kernel thread gets one wrapper. */
module History {
  import opened Common
  import opened Machine
  import opened Coroutine
  import opened Runs

  /** The events that concern cothread `t`. */
  ghost function Of(log: seq<Event>, t: Tid): seq<Event> {
    if log == [] then []
    else
      var last := log[|log| - 1];
      Of(log[..|log| - 1], t) + if last.t == t then [last] else []
  }

  /** The events that kernel thread `k` gets a wrapper. */
  ghost function Wrappers(log: seq<Event>, k: Kid): nat {
    if log == [] then 0
    else
      var last := log[|log| - 1];
      Wrappers(log[..|log| - 1], k) + if last.WrapperMade? && last.k == k then 1 else 0
  }

  /** Preparations minus returns. */
  ghost function Balance(log: seq<Event>): int {
    if log == [] then 0
    else
      var last := log[|log| - 1];
      Balance(log[..|log| - 1]) + if last.Prepared? then 1 else if last.Returned? then -1 else 0
  }

  /** A cothread is prepared once, runs the entry it was prepared with at most once, and is reported to
      the return handler at most once, after that entry was run and with the same call information. */
  ghost predicate Story(p: seq<Event>) {
    || p == []
    || (|p| == 1 && p[0].WrapperMade?)
    || (&& 1 <= |p| <= 3
        && p[0].Prepared?
        && (|p| >= 2 ==> p[1].Entered? && p[1].info == p[0].info && p[1].ran == Some(p[0].entry))
        && (|p| == 3 ==> p[2].Returned? && p[2].info == p[0].info))
  }

  /** The story so far of a cothread in stage `life`. */
  ghost predicate Stage(p: seq<Event>, life: Life, calls: map<Word, Entry>) {
    && Story(p)
    && match life
       case Native => |p| == 1 && p[0].WrapperMade?
       case Pending(info) => |p| == 1 && p[0].Prepared? && p[0].info == info && Lookup(calls, info) == Some(p[0].entry)
       case Active(info) => |p| == 2 && p[0].Prepared? && p[0].info == info
       case Finished => |p| == 3
  }

  ghost predicate Told(s: State) {
    && (forall t :: Story(Of(s.log, t)))
    && (forall t | t !in s.names :: Of(s.log, t) == [])
    && (forall t | t in s.threads :: Stage(Of(s.log, t), s.threads[t].life, s.calls))
  }

  /** `k` has no wrapper yet. */
  ghost predicate Bare(s: State, k: Kid) {
    k !in s.kernels || s.kernels[k].current.None?
  }

  ghost predicate Counted(s: State) {
    && Balance(s.log) == |s.calls|
    && (forall k :: Wrappers(s.log, k) <= 1)
    && (forall k | Bare(s, k) :: Wrappers(s.log, k) == 0)
  }

  lemma Append(log: seq<Event>, e: Event, t: Tid)
    ensures Of(log + [e], t) == Of(log, t) + if e.t == t then [e] else []
  {
    assert (log + [e])[..|log|] == log;
  }

  lemma AppendCounts(log: seq<Event>, e: Event, k: Kid)
    ensures Wrappers(log + [e], k) == Wrappers(log, k) + if e.WrapperMade? && e.k == k then 1 else 0
    ensures Balance(log + [e]) == Balance(log) + if e.Prepared? then 1 else if e.Returned? then -1 else 0
  {
    assert (log + [e])[..|log|] == log;
  }

  /** One more event `e`, after which its cothread is in stage `life`. */
  lemma TellMore(s: State, s': State, e: Event)
    requires Told(s) && s'.log == s.log + [e]
    requires s.names <= s'.names && e.t in s'.names && e.t in s'.threads
    requires Stage(Of(s.log, e.t) + [e], s'.threads[e.t].life, s'.calls)
    requires forall t | t in s'.threads && t != e.t ::
      t in s.threads && (s'.threads[t].life == s.threads[t].life)
    requires forall t | t in s'.threads && t != e.t && s'.threads[t].life.Pending? ::
      Lookup(s'.calls, s'.threads[t].life.info) == Lookup(s.calls, s.threads[t].life.info)
    ensures Told(s')
  {
    forall t
      ensures Story(Of(s'.log, t)) && (t !in s'.names ==> Of(s'.log, t) == [])
      ensures t in s'.threads ==> Stage(Of(s'.log, t), s'.threads[t].life, s'.calls)
    {
      Append(s.log, e, t);
      if t == e.t { assert Of(s'.log, t) == Of(s.log, t) + [e]; } else { assert Of(s'.log, t) == Of(s.log, t); }
    }
  }

  lemma CountMore(s: State, s': State, e: Event)
    requires Counted(s) && s'.log == s.log + [e]
    requires |s'.calls| == |s.calls| + if e.Prepared? then 1 else if e.Returned? then -1 else 0
    requires e.WrapperMade? ==> Bare(s, e.k) && !Bare(s', e.k)
    requires forall k | Bare(s', k) :: Bare(s, k)
    ensures Counted(s')
  {
    forall k ensures Wrappers(s'.log, k) == Wrappers(s.log, k) + if e.WrapperMade? && e.k == k then 1 else 0 {
      AppendCounts(s.log, e, k);
    }
    AppendCounts(s.log, e, 0);
  }

  lemma WrapTold(lim: Limits, s: State, k: Kid, t: Tid, home: Home)
    requires s.threads.Keys <= s.names && Told(s) && MayWrap(lim, s, k, t, home) && s.kernels[k].current.None?
    ensures Told(EnsureCurrent(s, k, t, home))
  {
    TellMore(s, EnsureCurrent(s, k, t, home), WrapperMade(k, t));
  }

  lemma WrapTells(lim: Limits, s: State, k: Kid, t: Tid, home: Home)
    requires Inv(lim, s) && Told(s) && Counted(s) && k in s.kernels
    requires s.kernels[k].current.None? ==> MayWrap(lim, s, k, t, home)
    ensures var s' := EnsureCurrent(s, k, t, home); Told(s') && Counted(s')
  {
    if s.kernels[k].current.None? {
      WrapTold(lim, s, k, t, home);
      CountMore(s, EnsureCurrent(s, k, t, home), WrapperMade(k, t));
    }
  }

  lemma EnterTells(s: State, k: Kid, from: Tid, to: Tid)
    requires s.threads.Keys <= s.names && Told(s) && k in s.kernels && from in s.threads && to in s.threads
    requires from != to
    requires s.threads[to].run.Fresh? && s.threads[to].life.Pending?
    ensures Told(Transfer(s, k, from, to))
  {
    var th := s.threads[to];
    assert Stage(Of(s.log, to), th.life, s.calls);
    TellMore(s, Transfer(s, k, from, to), Entered(to, th.life.info, Lookup(s.calls, th.life.info)));
  }

  lemma ResumeTells(s: State, k: Kid, from: Tid, to: Tid)
    requires Told(s) && k in s.kernels && from in s.threads && to in s.threads
    requires from == to || s.threads[to].run.Suspended?
    ensures Told(Transfer(s, k, from, to))
  {
    var s' := Transfer(s, k, from, to);
    assert s'.log == s.log && s'.names == s.names && s'.calls == s.calls;
    forall t | t in s'.threads ensures Stage(Of(s'.log, t), s'.threads[t].life, s'.calls) {
      assert s'.threads[t].life == s.threads[t].life;
      assert Stage(Of(s.log, t), s.threads[t].life, s.calls);
    }
  }

  lemma TransferCounts(s: State, k: Kid, from: Tid, to: Tid)
    requires Counted(s) && k in s.kernels && s.kernels[k].current.Some? && from in s.threads && to in s.threads
    ensures Counted(Transfer(s, k, from, to))
  {
    var s', th := Transfer(s, k, from, to), s.threads[to];
    forall j | Bare(s', j) ensures Bare(s, j) { TransferBare(s, k, from, to, j); }
    if from != to && th.run.Fresh? && th.life.Pending? {
      CountMore(s, s', Entered(to, th.life.info, Lookup(s.calls, th.life.info)));
    } else {
      assert s'.log == s.log && s'.calls == s.calls;
    }
  }

  lemma TransferBare(s: State, k: Kid, from: Tid, to: Tid, j: Kid)
    requires k in s.kernels && s.kernels[k].current.Some? && from in s.threads && to in s.threads
    requires Bare(Transfer(s, k, from, to), j)
    ensures Bare(s, j)
  {
  }

  lemma TransferTells(lim: Limits, s: State, k: Kid, to: Tid)
    requires Inv(lim, s) && Told(s) && Counted(s) && MayTransfer(lim, s, k, to)
    ensures var s' := Transfer(s, k, s.kernels[k].current.value, to); Told(s') && Counted(s')
  {
    var from := s.kernels[k].current.value;
    assert ThreadOk(lim, s.calls, s.threads[to]);
    TransferCounts(s, k, from, to);
    if from != to && s.threads[to].run.Fresh? {
      EnterTells(s, k, from, to);
    } else {
      ResumeTells(s, k, from, to);
    }
  }

  lemma CreateTells(lim: Limits, s: State, t: Tid, home: Home, entry: Entry, info: Word)
    requires Inv(lim, s) && Told(s) && MayCreate(lim, s, t, home, info)
    ensures Told(NewThread(s, t, home, entry, info))
  {
    var s' := NewThread(s, t, home, entry, info);
    forall u | u in s.threads && s.threads[u].life.Pending?
      ensures Lookup(s'.calls, s.threads[u].life.info) == Lookup(s.calls, s.threads[u].life.info)
    {
      assert ThreadOk(lim, s.calls, s.threads[u]);
    }
    TellMore(s, s', Prepared(t, info, entry));
  }

  lemma CreateCounts(s: State, t: Tid, home: Home, entry: Entry, info: Word)
    requires Counted(s) && info !in s.calls
    ensures Counted(NewThread(s, t, home, entry, info))
  {
    var s' := NewThread(s, t, home, entry, info);
    assert s'.calls.Keys == s.calls.Keys + {info};
    CountMore(s, s', Prepared(t, info, entry));
  }

  lemma ReturnTells(lim: Limits, s: State, k: Kid)
    requires Inv(lim, s) && Told(s) && MayReturn(s, k)
    ensures Told(FinishCall(s, k, s.kernels[k].current.value))
  {
    var t := s.kernels[k].current.value;
    var s' := FinishCall(s, k, t);
    assert Stage(Of(s.log, t), s.threads[t].life, s.calls);
    forall u | u in s.threads && u != t && s.threads[u].life.Pending?
      ensures Lookup(s'.calls, s.threads[u].life.info) == Lookup(s.calls, s.threads[u].life.info)
    {
      assert PairOk(s.threads[t], s.threads[u]);
    }
    TellMore(s, s', Returned(t, s.threads[t].life.info, s.handler));
  }

  lemma ReturnCounts(s: State, k: Kid, t: Tid)
    requires Counted(s) && k in s.kernels && t in s.threads && s.threads[t].life.Active?
    requires s.threads[t].life.info in s.calls
    ensures Counted(FinishCall(s, k, t))
  {
    var s' := FinishCall(s, k, t);
    var info := s.threads[t].life.info;
    assert s.calls.Keys == s'.calls.Keys + {info};
    CountMore(s, s', Returned(t, info, s.handler));
  }

  lemma SwitchTells(lim: Limits, s: State, k: Kid, to: Tid, t: Tid, home: Home)
    requires Inv(lim, s) && Told(s) && Counted(s) && Legal(lim, s, SwitchTo(k, to, t, home))
    ensures var s' := Step(s, SwitchTo(k, to, t, home)); Told(s') && Counted(s')
  {
    EnsureCurrentKeepsInv(lim, s, k, t, home);
    WrapTells(lim, s, k, t, home);
    TransferTells(lim, EnsureCurrent(s, k, t, home), k, to);
  }

  lemma SilentTells(s: State, s': State)
    requires Told(s) && Counted(s)
    requires s'.log == s.log && s'.names == s.names && s'.calls == s.calls
    requires forall t | t in s'.threads :: t in s.threads && s'.threads[t] == s.threads[t]
    requires forall k | Bare(s', k) :: Bare(s, k)
    ensures Told(s') && Counted(s')
  {
  }

  lemma CallTells(lim: Limits, s: State, l: Label)
    requires Inv(lim, s) && Told(s) && Counted(s) && Legal(lim, s, l)
    requires l.Create? || l.EntryReturns?
    ensures Told(Step(s, l)) && Counted(Step(s, l))
  {
    match l
    case Create(k, t, home, entry, info) =>
      CreateTells(lim, s, t, home, entry, info);
      CreateCounts(s, t, home, entry, info);
    case EntryReturns(k) =>
      var t := s.kernels[k].current.value;
      assert ThreadOk(lim, s.calls, s.threads[t]);
      ReturnTells(lim, s, k);
      ReturnCounts(s, k, t);
  }

  lemma QuietTells(lim: Limits, s: State, l: Label)
    requires Told(s) && Counted(s) && Legal(lim, s, l)
    requires l.Boot? || l.User? || l.Destroy? || l.SetHandler?
    ensures Told(Step(s, l)) && Counted(Step(s, l))
  {
    SilentTells(s, Step(s, l));
  }

  lemma StepTells(lim: Limits, s: State, l: Label)
    requires Inv(lim, s) && Told(s) && Counted(s) && Legal(lim, s, l)
    ensures Told(Step(s, l)) && Counted(Step(s, l))
  {
    match l
    case Current(k, t, home) => WrapTells(lim, s, k, t, home);
    case SwitchTo(k, to, t, home) => SwitchTells(lim, s, k, to, t, home);
    case Create(k, t, home, entry, info) => CallTells(lim, s, l);
    case EntryReturns(k) => CallTells(lim, s, l);
    case _ => QuietTells(lim, s, l);
  }

  /** In every run: each cothread's events form a story, each kernel thread's wrapper is made at most
      once, and the live call information objects number the preparations minus the returns. */
  lemma {:induction false} RunTells(lim: Limits, s: State, ls: seq<Label>)
    requires Inv(lim, s) && Told(s) && Counted(s) && LegalRun(lim, s, ls)
    ensures Told(Run(lim, s, ls)) && Counted(Run(lim, s, ls))
    decreases |ls|
  {
    if ls != [] {
      StepKeepsInv(lim, s, ls[0]);
      StepTells(lim, s, ls[0]);
      RunTells(lim, Step(s, ls[0]), ls[1..]);
    }
  }

  // ---------------------------------------------------------------------------------------------
  // What the log owes to the program

  /** The program created cothread `t`, with the call information `info`, to run `entry`. */
  ghost predicate Created(ls: seq<Label>, t: Tid, info: Word, entry: Entry) {
    exists l | l in ls :: l.Create? && l.t == t && l.info == info && l.entry == entry
  }

  /** The return handler that the program set last. */
  function InForce(ls: seq<Label>): Handler {
    if ls == [] then Default
    else
      var last := ls[|ls| - 1];
      if last.SetHandler? then last.h else InForce(ls[..|ls| - 1])
  }

  /** An entry function returned when `handler` was in force. */
  ghost predicate ReturnedUnder(ls: seq<Label>, handler: Handler) {
    exists i | 0 <= i < |ls| :: ls[i].EntryReturns? && handler == InForce(ls[..i])
  }

  ghost predicate Accounted(e: Event, ls: seq<Label>) {
    && (e.Prepared? ==> Created(ls, e.t, e.info, e.entry))
    && (e.Returned? ==> ReturnedUnder(ls, e.handler))
  }

  /** After the steps `ls`, the log and the return handler are what the program asked for. */
  ghost predicate AsAsked(s: State, ls: seq<Label>) {
    s.handler == InForce(ls) && forall e | e in s.log :: Accounted(e, ls)
  }

  lemma StillAccounted(e: Event, ls: seq<Label>, l: Label)
    requires Accounted(e, ls)
    ensures Accounted(e, ls + [l])
  {
    if e.Prepared? {
      var c :| c in ls && c.Create? && c.t == e.t && c.info == e.info && c.entry == e.entry;
      assert c in ls + [l];
    }
    if e.Returned? {
      var i :| 0 <= i < |ls| && ls[i].EntryReturns? && e.handler == InForce(ls[..i]);
      assert (ls + [l])[i] == ls[i] && (ls + [l])[..i] == ls[..i];
    }
  }

  /** What a step adds to the log. */
  lemma NewAccounted(lim: Limits, s: State, l: Label, ls: seq<Label>, e: Event)
    requires Legal(lim, s, l) && AsAsked(s, ls) && e in Step(s, l).log && e !in s.log
    ensures Accounted(e, ls + [l])
  {
    assert l in ls + [l];
    assert (ls + [l])[|ls|] == l && (ls + [l])[..|ls|] == ls;
  }

  lemma StepAsAsked(lim: Limits, s: State, l: Label, ls: seq<Label>)
    requires Legal(lim, s, l) && AsAsked(s, ls)
    ensures AsAsked(Step(s, l), ls + [l])
  {
    assert (ls + [l])[..|ls|] == ls;
    forall e | e in Step(s, l).log ensures Accounted(e, ls + [l]) {
      if e in s.log { StillAccounted(e, ls, l); } else { NewAccounted(lim, s, l, ls, e); }
    }
  }

  lemma {:induction false} RunAsAsked(lim: Limits, s: State, done: seq<Label>, ls: seq<Label>)
    requires AsAsked(s, done) && LegalRun(lim, s, ls)
    ensures AsAsked(Run(lim, s, ls), done + ls)
    decreases |ls|
  {
    if ls == [] {
      assert done + ls == done;
    } else {
      StepAsAsked(lim, s, ls[0], done);
      RunAsAsked(lim, Step(s, ls[0]), done + [ls[0]], ls[1..]);
      assert done + [ls[0]] + ls[1..] == done + ls;
    }
  }

  lemma {:induction false} InStory(log: seq<Event>, t: Tid, e: Event)
    ensures e in Of(log, t) <==> e in log && e.t == t
    decreases |log|
  {
    if log != [] {
      InStory(log[..|log| - 1], t, e);
      assert log == log[..|log| - 1] + [log[|log| - 1]];
    }
  }

  /** Every entry that runs is the one that the program gave when it created the cothread. */
  lemma EntryWasGiven(s: State, ls: seq<Label>, e: Event)
    requires Told(s) && AsAsked(s, ls) && e in s.log && e.Entered?
    ensures e.ran.Some? && Created(ls, e.t, e.info, e.ran.value)
  {
    var p := Of(s.log, e.t);
    InStory(s.log, e.t, e);
    assert Story(p) && e == p[1] && p[0] in p;
    InStory(s.log, e.t, p[0]);
    assert Accounted(p[0], ls);
  }
}
