/** The `ucontext` platform: `makecontext` can only pass an `int` to the entry stub, which looks up what to
    call in a table. Both users of the table hold its lock, so that each is one step here. */
module UContext {

  type Cot = nat

  const INT_MAX := 0x7FFF_FFFF
  const INT_MIN := -0x8000_0000

  /** The number of ids other than zero. */
  const PERIOD := 0xFFFF_FFFF

  /** `++id` on 32 bits. Overflow is undefined in C++; this is what the processors do. */
  function Increment(id: int): int { if id == INT_MAX then INT_MIN else id + 1 }

  /** The id after `id`: zero is skipped. */
  function Succ(id: int): int { if Increment(id) == 0 then 1 else Increment(id) }

  /** The id of the `n`-th cothread to be prepared, counting from one. */
  function Nth(n: nat): int { if n == 0 then 0 else Succ(Nth(n - 1)) }

  /** The same, directly. */
  function Direct(n: nat): int
    requires 0 < n
  {
    var q := (n - 1) % PERIOD + 1;
    if q <= INT_MAX then q else q - 0x1_0000_0000
  }

  lemma DirectSucc(n: nat)
    requires 0 < n
    ensures Direct(n + 1) == Succ(Direct(n))
  {
    var q := (n - 1) % PERIOD + 1;
    assert n % PERIOD == if q == PERIOD then 0 else q;
  }

  lemma {:induction false} NthDirect(n: nat)
    requires 0 < n
    ensures Nth(n) == Direct(n)
  {
    if n == 1 {
      assert Nth(1) == Succ(Nth(0));
    } else {
      NthDirect(n - 1);
      DirectSucc(n - 1);
    }
  }

  lemma DirectInjective(i: nat, j: nat)
    requires 0 < i && 0 < j
    ensures Direct(i) == Direct(j) <==> (i - 1) % PERIOD == (j - 1) % PERIOD
  {
  }

  lemma SameRemainder(i: nat, j: nat)
    requires 0 < i && 0 < j
    ensures (i - 1) % PERIOD == (j - 1) % PERIOD <==> (i - j) % PERIOD == 0
  {
    var a, b := (i - 1) % PERIOD, (j - 1) % PERIOD;
    var k, l := (i - 1) / PERIOD, (j - 1) / PERIOD;
    assert i - j == PERIOD * (k - l) + (a - b);
    Remainder(i - j, k - l, a - b);
  }

  /** Two cothreads have the same id exactly if a multiple of 2^32 - 1 preparations lies between them. */
  lemma SameId(i: nat, j: nat)
    requires 0 < i && 0 < j
    ensures Nth(i) == Nth(j) <==> (i - j) % PERIOD == 0
  {
    NthDirect(i);
    NthDirect(j);
    DirectInjective(i, j);
    SameRemainder(i, j);
  }

  lemma Remainder(x: int, q: int, r: int)
    requires x == PERIOD * q + r && -PERIOD < r < PERIOD
    ensures x % PERIOD == 0 <==> r == 0
  {
    var k := x / PERIOD;
    assert x % PERIOD == 0 <==> x == PERIOD * k;
    if x % PERIOD == 0 {
      assert PERIOD * (k - q) == r;
    }
  }

  // ---------------------------------------------------------------------------------------------
  // Runs

  /** `next` is `gContextNextId` and `info` is `gContextInfo`, where a context is named by the cothread it
      was made for. The other fields record the id that each cothread's `ucontext_t` was made with, which
      preparation it was, and which cothreads have started, each with the context it was given. */
  datatype Table = Table(
    next: int,
    info: map<int, Cot>,
    ids: map<Cot, int>,
    numbers: map<Cot, nat>,
    count: nat,
    started: map<Cot, Cot>)

  const EMPTY := Table(0, map[], map[], map[], 0, map[])

  datatype Label = Prepare(c: Cot) | Start(c: Cot)

  /** `emplace` leaves a context that is already there. */
  ghost function Emplace(info: map<int, Cot>, id: int, c: Cot): map<int, Cot> {
    if id in info then info else info[id := c]
  }

  ghost function Add(s: Table, c: Cot): Table {
    var id := Succ(s.next);
    s.(next := id, info := Emplace(s.info, id, c), ids := s.ids[c := id], numbers := s.numbers[c := s.count + 1],
       count := s.count + 1)
  }

  /** `EntryStub` takes the context out of the table; `at` throws if there is none. */
  ghost function Take(s: Table, c: Cot): Table
    requires c in s.ids && s.ids[c] in s.info
  {
    s.(info := s.info - {s.ids[c]}, started := s.started[c := s.info[s.ids[c]]])
  }

  ghost predicate Domain(s: Table, l: Label) {
    l.Start? ==> l.c in s.ids && s.ids[l.c] in s.info
  }

  ghost function Step(s: Table, l: Label): Table
    requires Domain(s, l)
  {
    match l
    case Prepare(c) => Add(s, c)
    case Start(c) => Take(s, c)
  }

  /** A cothread is prepared once, and switched to for the first time once. */
  ghost predicate Legal(s: Table, l: Label) {
    match l
    case Prepare(c) => c !in s.ids
    case Start(c) => Waiting(s, c)
  }

  ghost predicate Waiting(s: Table, c: Cot) { c in s.ids && c !in s.started }

  /** Ids are handed out in order. */
  ghost predicate Numbered(s: Table) {
    && s.next == Nth(s.count)
    && s.numbers.Keys == s.ids.Keys && s.started.Keys <= s.ids.Keys
    && (forall c | c in s.ids :: 0 < s.numbers[c] <= s.count && s.ids[c] == Nth(s.numbers[c]))
    && (forall c, d | c in s.ids && d in s.ids && c != d :: s.numbers[c] != s.numbers[d])
  }

  /** The table holds exactly the contexts of the cothreads that wait to be started, each under the id that
      its cothread will look up, and those that have started were given theirs. */
  ghost predicate Right(s: Table) {
    && (forall c | Waiting(s, c) :: s.ids[c] in s.info && s.info[s.ids[c]] == c)
    && (forall id | id in s.info :: Waiting(s, s.info[id]) && s.ids[s.info[id]] == id)
    && (forall c | c in s.started :: s.started[c] == c)
  }

  ghost predicate Inv(s: Table) { Numbered(s) && Right(s) }

  /** No waiting cothread was prepared a multiple of 2^32 - 1 preparations before the next one. */
  ghost predicate Clear(s: Table) {
    forall c | Waiting(s, c) && c in s.numbers :: (s.count + 1 - s.numbers[c]) % PERIOD != 0
  }

  lemma TakeRight(s: Table, c: Cot)
    requires Right(s) && Legal(s, Start(c))
    ensures Domain(s, Start(c)) && Right(Take(s, c))
  {
    var s' := Take(s, c);
    forall d | Waiting(s', d) ensures s'.ids[d] in s'.info && s'.info[s'.ids[d]] == d {
      assert Waiting(s, d);
    }
    forall id | id in s'.info ensures Waiting(s', s'.info[id]) && s'.ids[s'.info[id]] == id {
      assert id in s.info;
    }
  }

  lemma StartKeepsInv(s: Table, c: Cot)
    requires Inv(s) && Legal(s, Start(c))
    ensures Domain(s, Start(c)) && Inv(Take(s, c))
  {
    TakeRight(s, c);
  }

  /** The waiting cothread `c` has the next id exactly if it is in the way. */
  lemma InTheWay(s: Table, c: Cot)
    requires Numbered(s) && Waiting(s, c)
    ensures s.ids[c] == Succ(s.next) <==> (s.count + 1 - s.numbers[c]) % PERIOD == 0
  {
    SameId(s.count + 1, s.numbers[c]);
  }

  lemma ClearMeansFree(s: Table)
    requires Inv(s)
    ensures Clear(s) <==> Succ(s.next) !in s.info
  {
    var id := Succ(s.next);
    forall c | Waiting(s, c) ensures s.ids[c] == id <==> (s.count + 1 - s.numbers[c]) % PERIOD == 0 {
      InTheWay(s, c);
    }
    if id in s.info { assert Waiting(s, s.info[id]); }
  }

  lemma AddRight(s: Table, c: Cot)
    requires Right(s) && c !in s.ids && s.started.Keys <= s.ids.Keys && Succ(s.next) !in s.info
    ensures Right(Add(s, c))
  {
    var s' := Add(s, c);
    forall d | Waiting(s', d) ensures s'.ids[d] in s'.info && s'.info[s'.ids[d]] == d {
      if d != c { assert Waiting(s, d); }
    }
    forall id | id in s'.info ensures Waiting(s', s'.info[id]) && s'.ids[s'.info[id]] == id {
      if id != s'.next { assert Waiting(s, s.info[id]); }
    }
  }

  lemma AddNumbered(s: Table, c: Cot)
    requires Numbered(s) && c !in s.ids
    ensures Numbered(Add(s, c))
  {
  }

  /** A preparation keeps the table right if and only if no waiting cothread has the id it gets, that is,
      was prepared a multiple of 2^32 - 1 preparations earlier. If there is one, the new context is lost
      and the new cothread is bound to run the other's entry. */
  lemma PrepareExactly(s: Table, c: Cot)
    requires Inv(s) && c !in s.ids
    ensures Inv(Add(s, c)) <==> Clear(s)
    ensures !Clear(s) ==> var s' := Add(s, c);
      && s'.info == s.info && s'.ids[c] in s'.info && s'.info[s'.ids[c]] != c && Waiting(s, s'.info[s'.ids[c]])
  {
    ClearMeansFree(s);
    var s' := Add(s, c);
    assert Waiting(s', c);
    if Clear(s) {
      AddNumbered(s, c);
      AddRight(s, c);
    } else {
      assert s.info[s'.next] != c;
    }
  }

  ghost predicate LegalRun(s: Table, ls: seq<Label>)
    decreases |ls|
  {
    ls == [] || (Legal(s, ls[0]) && (Domain(s, ls[0]) ==> LegalRun(Step(s, ls[0]), ls[1..])))
  }

  ghost predicate Defined(s: Table, ls: seq<Label>)
    decreases |ls|
  {
    ls == [] || (Domain(s, ls[0]) && Defined(Step(s, ls[0]), ls[1..]))
  }

  ghost function Run(s: Table, ls: seq<Label>): Table
    requires Defined(s, ls)
    decreases |ls|
  {
    if ls == [] then s else Run(Step(s, ls[0]), ls[1..])
  }

  /** Every preparation of the run is made from a clear table. */
  ghost predicate AlwaysClear(s: Table, ls: seq<Label>)
    decreases |ls|
  {
    ls == [] || (&& (ls[0].Prepare? ==> Clear(s))
                 && (Domain(s, ls[0]) ==> AlwaysClear(Step(s, ls[0]), ls[1..])))
  }

  /** Cothread `c` was started with the context of another, or is going to be, or waits without one. */
  ghost predicate Spoilt(s: Table, c: Cot) {
    && c in s.ids
    && if c in s.started then s.started[c] != c else s.ids[c] !in s.info || s.info[s.ids[c]] != c
  }

  /** No later step repairs this. */
  lemma StepSpoilt(s: Table, l: Label, c: Cot)
    requires Spoilt(s, c) && Legal(s, l) && Domain(s, l)
    ensures Spoilt(Step(s, l), c)
  {
  }

  lemma {:induction false} RunSpoilt(s: Table, ls: seq<Label>, c: Cot)
    requires Spoilt(s, c) && LegalRun(s, ls) && Defined(s, ls)
    ensures Spoilt(Run(s, ls), c)
    decreases |ls|
  {
    if ls != [] {
      StepSpoilt(s, ls[0], c);
      RunSpoilt(Step(s, ls[0]), ls[1..], c);
    }
  }

  lemma SpoiltNotRight(s: Table, c: Cot)
    requires Spoilt(s, c)
    ensures !Right(s)
  {
    assert c !in s.started ==> Waiting(s, c);
  }

  /** The preparation of `c` at the head of the run makes or breaks the rest. */
  lemma PreparationDecides(s: Table, c: Cot)
    requires Inv(s) && c !in s.ids
    ensures if Clear(s) then Inv(Add(s, c)) else Spoilt(Add(s, c), c)
  {
    PrepareExactly(s, c);
  }

  /** For every legal run, however long: all look-ups succeed and the table ends up right, so that every
      cothread was started with its own context or still can be, if and only if every preparation of the
      run was made when no waiting cothread had been prepared a multiple of 2^32 - 1 preparations before. */
  lemma {:induction false} RunExactly(s: Table, ls: seq<Label>)
    requires Inv(s) && LegalRun(s, ls)
    ensures Defined(s, ls) && Right(Run(s, ls)) <==> AlwaysClear(s, ls)
    decreases |ls|
  {
    if ls == [] {
    } else if ls[0].Prepare? {
      var s' := Add(s, ls[0].c);
      PreparationDecides(s, ls[0].c);
      if Clear(s) {
        RunExactly(s', ls[1..]);
      } else if Defined(s', ls[1..]) {
        RunSpoilt(s', ls[1..], ls[0].c);
        SpoiltNotRight(Run(s', ls[1..]), ls[0].c);
      }
    } else {
      StartKeepsInv(s, ls[0].c);
      RunExactly(Take(s, ls[0].c), ls[1..]);
    }
  }

  /** The cothreads that a run leaves prepared or started are those that the program prepared or started. */
  lemma {:induction false} RunRecords(s: Table, ls: seq<Label>, c: Cot)
    requires Defined(s, ls)
    ensures c in Run(s, ls).ids <==> c in s.ids || Prepare(c) in ls
    ensures c in Run(s, ls).started <==> c in s.started || Start(c) in ls
    decreases |ls|
  {
    if ls != [] {
      assert ls == [ls[0]] + ls[1..];
      RunRecords(Step(s, ls[0]), ls[1..], c);
    }
  }

  function Preparations(ls: seq<Label>): nat
    decreases |ls|
  {
    if ls == [] then 0 else (if ls[0].Prepare? then 1 else 0) + Preparations(ls[1..])
  }

  lemma FewPreparationsClear(s: Table)
    requires Inv(s) && s.count < PERIOD
    ensures Clear(s)
  {
  }

  lemma StepKeepsInv(s: Table, l: Label)
    requires Inv(s) && Legal(s, l) && s.count < INT_MAX
    ensures Domain(s, l) && Inv(Step(s, l)) && Step(s, l).count == s.count + if l.Prepare? then 1 else 0
  {
    match l
    case Prepare(c) =>
      FewPreparationsClear(s);
      PrepareExactly(s, c);
    case Start(c) => StartKeepsInv(s, c);
  }

  /** What holds of every table that short runs lead to. */
  ghost predicate Promises(s: Table) {
    && s.next == s.count
    && (forall c | c in s.ids :: s.ids[c] != 0)
    && (forall c, d | c in s.ids && d in s.ids && c != d :: s.ids[c] != s.ids[d])
    && (forall id :: id in s.info <==> exists c :: Waiting(s, c) && s.ids[c] == id)
    && (forall c | c in s.started :: s.started[c] == c)
  }

  lemma NthSmall(n: nat)
    requires n <= INT_MAX
    ensures Nth(n) == n
  {
    if n > 0 { NthDirect(n); }
  }

  lemma PromisesKept(s: Table)
    requires Inv(s) && s.count < INT_MAX
    ensures Promises(s)
  {
    NthSmall(s.count);
    forall c | c in s.ids ensures s.ids[c] == s.numbers[c] {
      NthSmall(s.numbers[c]);
    }
    TableKeys(s);
  }

  lemma TableKeys(s: Table)
    requires Right(s)
    ensures forall id :: id in s.info <==> exists c :: Waiting(s, c) && s.ids[c] == id
  {
    forall id ensures id in s.info <==> exists c :: Waiting(s, c) && s.ids[c] == id {
      if id in s.info { assert Waiting(s, s.info[id]) && s.ids[s.info[id]] == id; }
    }
  }

  /** In every run with fewer than 2^31 - 1 preparations: the counter does not overflow, every look-up finds
      its context, the table's ids are those of the cothreads that wait, ids are neither zero nor shared,
      and every cothread that has started was given its own context. */
  lemma {:induction false} RunsKeepPromises(s: Table, ls: seq<Label>)
    requires Inv(s) && LegalRun(s, ls) && s.count + Preparations(ls) < INT_MAX
    ensures Defined(s, ls) && Inv(Run(s, ls)) && Promises(Run(s, ls))
    ensures Run(s, ls).count == s.count + Preparations(ls)
    decreases |ls|
  {
    if ls == [] {
      PromisesKept(s);
    } else {
      StepKeepsInv(s, ls[0]);
      RunsKeepPromises(Step(s, ls[0]), ls[1..]);
    }
  }

  lemma EmptyOk()
    ensures Inv(EMPTY)
  {
  }

  /** After a collision, the new cothread is started with the context of another, and the look-up of that
      other one fails. */
  lemma CollisionLosesContext(s: Table, c: Cot)
    requires Inv(s) && !Clear(s) && c !in s.ids
    ensures var s' := Add(s, c);
      && Legal(s', Start(c)) && Domain(s', Start(c))
      && var d := Take(s', c).started[c];
         d != c && Waiting(s, d) && Legal(Take(s', c), Start(d)) && !Domain(Take(s', c), Start(d))
  {
    PrepareExactly(s, c);
  }

  /** Cothread 0 waits while `n` others come and go. */
  ghost predicate Busy(s: Table, n: nat) {
    && Inv(s) && s.count == n + 1 && 0 in s.ids && s.numbers[0] == 1
    && (forall c | c in s.ids :: c <= n)
    && (forall c :: Waiting(s, c) <==> c == 0)
  }

  /** Prepares cothread 0, and then prepares and starts the others one after the other. */
  function BusyRun(n: nat): seq<Label> {
    if n == 0 then [Prepare(0)] else BusyRun(n - 1) + [Prepare(n), Start(n)]
  }

  lemma OneMorePrepared(s: Table, n: nat)
    requires 0 < n < PERIOD && Busy(s, n - 1)
    ensures Legal(s, Prepare(n)) && Inv(Add(s, n)) && Legal(Add(s, n), Start(n))
    ensures forall c :: Waiting(Add(s, n), c) <==> c == 0 || c == n
  {
    assert n !in s.ids;
    assert Clear(s) by {
      assert s.count + 1 - s.numbers[0] == n;
    }
    PrepareExactly(s, n);
  }

  lemma OneMore(s: Table, n: nat)
    requires 0 < n < PERIOD && Busy(s, n - 1)
    ensures Legal(s, Prepare(n)) && Legal(Add(s, n), Start(n)) && Domain(Add(s, n), Start(n))
    ensures Busy(Take(Add(s, n), n), n)
  {
    OneMorePrepared(s, n);
    StartKeepsInv(Add(s, n), n);
    forall c ensures Waiting(Take(Add(s, n), n), c) <==> c == 0 {
      assert Waiting(Add(s, n), c) <==> c == 0 || c == n;
    }
  }

  lemma BusyStart()
    ensures LegalRun(EMPTY, [Prepare(0)]) && Defined(EMPTY, [Prepare(0)]) && Busy(Run(EMPTY, [Prepare(0)]), 0)
  {
    EmptyOk();
    PrepareExactly(EMPTY, 0);
    assert [Prepare(0)][1..] == [];
    assert forall c :: Waiting(Add(EMPTY, 0), c) <==> c == 0;
  }

  lemma {:induction false} BusyRuns(n: nat)
    requires n < PERIOD
    ensures LegalRun(EMPTY, BusyRun(n)) && Defined(EMPTY, BusyRun(n)) && Busy(Run(EMPTY, BusyRun(n)), n)
  {
    if n == 0 {
      BusyStart();
    } else {
      BusyRuns(n - 1);
      OneMore(Run(EMPTY, BusyRun(n - 1)), n);
      TwoMore(EMPTY, BusyRun(n - 1), Prepare(n), Start(n));
    }
  }

  lemma {:induction false} TwoMore(s: Table, ls: seq<Label>, l: Label, m: Label)
    requires LegalRun(s, ls) && Defined(s, ls) && Legal(Run(s, ls), l) && Domain(Run(s, ls), l)
    requires Legal(Step(Run(s, ls), l), m) && Domain(Step(Run(s, ls), l), m)
    ensures LegalRun(s, ls + [l, m]) && Defined(s, ls + [l, m]) && Run(s, ls + [l, m]) == Step(Step(Run(s, ls), l), m)
    decreases |ls|
  {
    if ls == [] {
      assert (ls + [l, m])[0] == l && (ls + [l, m])[1..] == [m] && [m][1..] == [];
      assert Run(Step(s, l), [m]) == Step(Step(s, l), m);
    } else {
      assert (ls + [l, m])[1..] == ls[1..] + [l, m];
      TwoMore(Step(s, ls[0]), ls[1..], l, m);
    }
  }

  lemma BusyCollides(s: Table, n: nat)
    requires Busy(s, n) && n == PERIOD - 1
    ensures Inv(s) && !Clear(s) && Waiting(s, 0) && n + 1 !in s.ids
  {
    assert s.count + 1 - s.numbers[0] == PERIOD;
    assert Waiting(s, 0);
  }

  /** Runs that long are possible: with 2^32 - 2 other cothreads, the id of cothread 0 comes up again. */
  lemma IdsComeUpAgain(n: nat)
    requires n == PERIOD - 1
    ensures LegalRun(EMPTY, BusyRun(n)) && Defined(EMPTY, BusyRun(n))
    ensures var s := Run(EMPTY, BusyRun(n)); Inv(s) && !Clear(s) && Waiting(s, 0) && n + 1 !in s.ids
  {
    BusyRuns(n);
    BusyCollides(Run(EMPTY, BusyRun(n)), n);
  }

  // ---------------------------------------------------------------------------------------------
  // The code

  class Library {
    var gContextNextId: int
    var gContextInfo: map<int, Cot>

    constructor ()
      ensures gContextNextId == EMPTY.next == 0 && gContextInfo == EMPTY.info == map[]
    {
      gContextNextId, gContextInfo := 0, map[];
    }

    /** The loop that picks an id. */
    method NextId() returns (id: int)
      modifies this`gContextNextId
      ensures id == gContextNextId == Succ(old(gContextNextId))
    {
      gContextNextId := Increment(gContextNextId);
      id := gContextNextId;
      while id == 0
        invariant id == gContextNextId
        invariant id == Increment(old(gContextNextId)) || (Increment(old(gContextNextId)) == 0 && id == 1)
        decreases if id == 0 then 1 else 0
      {
        gContextNextId := Increment(gContextNextId);
        id := gContextNextId;
      }
    }

    /** The part of `Prepare` that uses the table, for a new cothread `c`. */
    method Prepare(c: Cot, ghost s: Table) returns (id: int)
      requires gContextNextId == s.next && gContextInfo == s.info
      modifies this
      ensures var s' := Add(s, c); gContextNextId == s'.next && gContextInfo == s'.info && id == s'.ids[c]
      ensures gContextInfo == if id in old(gContextInfo) then old(gContextInfo) else old(gContextInfo)[id := c]
    {
      id := NextId();
      if id !in gContextInfo {
        gContextInfo := gContextInfo[id := c];
      }
    }

    /** The part of `EntryStub` that uses the table: the context, or nothing if `at` throws. */
    method EntryStub(id: int, c: Cot, ghost s: Table) returns (found: bool, info: Cot)
      requires gContextInfo == s.info && c in s.ids && s.ids[c] == id
      modifies this`gContextInfo
      ensures found == Domain(s, Start(c))
      ensures found ==> gContextInfo == Take(s, c).info && info == Take(s, c).started[c]
      ensures found == (id in old(gContextInfo)) && gContextInfo == old(gContextInfo) - {id}
      ensures found ==> info == old(gContextInfo)[id]
    {
      found := id in gContextInfo;
      info := 0;
      if found {
        info := gContextInfo[id];
        gContextInfo := gContextInfo - {id};
      }
    }
  }
}
