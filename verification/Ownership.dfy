/** Who frees what: the implementation object of a cothread is placed in the cothread itself or on the
    heap, and its stack is obtained by it or supplied by the caller. */
module Ownership {

  type Tid = nat

  /** A `Cothread`: `inBuffer` is `implBufferUsed`, `impl` the address of the implementation object, and
      `stack` and `ownsStack` are fields of that object. */
  datatype Object = Object(inBuffer: bool, impl: int, ownsStack: bool, stack: int)

  /** The cothreads, and the history of the heap on a machine with words of `word` bytes: how often each
      address was allocated and freed, and how each implementation object was created and destroyed. */
  datatype Ledger = Ledger(
    word: nat,
    objects: map<Tid, Object>,
    obtained: multiset<int>,
    released: multiset<int>,
    created: map<Tid, bool>,
    destroyed: map<Tid, bool>)

  function Empty(word: nat): Ledger { Ledger(word, map[], multiset{}, multiset{}, map[], map[]) }

  /** The number of words of the buffer in a cothread. */
  const BUFFER_WORDS := 32

  /** `Allocate` constructs a cothread with a stack of its own, `Borrow` one with a caller's stack, `Wrap`
      the wrapper of a kernel thread. Addresses are what the allocator returns. */
  datatype Label =
    | Allocate(t: Tid, size: nat, align: nat, impl: int, stack: int)
    | Borrow(t: Tid, size: nat, align: nat, impl: int, stack: int, valid: bool)
    | Wrap(t: Tid, impl: int, stack: int)
    | Destroy(t: Tid)

  predicate FitsBuffer(word: nat, size: nat, align: nat) { size <= BUFFER_WORDS * word && align <= word }

  /** The heap addresses that a cothread has to free. */
  function Owned(o: Object): set<int> {
    (if o.inBuffer then {} else {o.impl}) + (if o.ownsStack then {o.stack} else {})
  }

  /** The same, as the heap blocks that are allocated for it and freed with it. */
  function Blocks(o: Object): multiset<int> {
    (if o.ownsStack then multiset{o.stack} else multiset{}) + (if o.inBuffer then multiset{} else multiset{o.impl})
  }

  function Construct(s: Ledger, t: Tid, o: Object): Ledger {
    s.(objects := s.objects[t := o], obtained := s.obtained + Blocks(o), created := s.created[t := o.inBuffer])
  }

  /** A constructor that throws leaves nothing behind: a heap block for the object is freed again. */
  function Fail(s: Ledger, inBuffer: bool, impl: int): Ledger {
    if inBuffer then s else s.(obtained := s.obtained + multiset{impl}, released := s.released + multiset{impl})
  }

  function Step(s: Ledger, l: Label): Ledger {
    match l
    case Allocate(t, size, align, impl, stack) =>
      Construct(s, t, Object(FitsBuffer(s.word, size, align), impl, true, stack))
    case Borrow(t, size, align, impl, stack, valid) =>
      if valid then Construct(s, t, Object(FitsBuffer(s.word, size, align), impl, false, stack))
      else Fail(s, FitsBuffer(s.word, size, align), impl)
    case Wrap(t, impl, stack) => Construct(s, t, Object(false, impl, false, stack))
    case Destroy(t) =>
      if t !in s.objects then s else
        s.(objects := s.objects - {t}, released := s.released + Blocks(s.objects[t]),
           destroyed := s.destroyed[t := s.objects[t].inBuffer])
  }

  /** In use by the library. */
  ghost predicate Live(s: Ledger, a: int) {
    exists t :: t in s.objects && a in Owned(s.objects[t])
  }

  /** The allocator returns an address that is not in use, and not that of a caller's stack in use. */
  ghost predicate Fresh(s: Ledger, a: int) {
    !Live(s, a) && forall t | t in s.objects :: s.objects[t].stack != a
  }

  /** Cothreads are named afresh; a caller's stack is not part of the library's heap. */
  ghost predicate Legal(s: Ledger, l: Label) {
    match l
    case Allocate(t, size, align, impl, stack) =>
      t !in s.created && Fresh(s, stack) && (FitsBuffer(s.word, size, align) || (Fresh(s, impl) && impl != stack))
    case Borrow(t, size, align, impl, stack, valid) =>
      t !in s.created && !Live(s, stack) && (FitsBuffer(s.word, size, align) || (Fresh(s, impl) && impl != stack))
    case Wrap(t, impl, stack) => t !in s.created && !Live(s, stack) && Fresh(s, impl) && impl != stack
    case Destroy(t) => t in s.objects
  }

  predicate TwoBlocks(o: Object) { !o.inBuffer && o.ownsStack ==> o.impl != o.stack }

  lemma BlockCount(o: Object, a: int)
    requires TwoBlocks(o)
    ensures Blocks(o)[a] == if a in Owned(o) then 1 else 0
  {
  }

  /** No two cothreads own the same address, and nobody owns a caller's stack. */
  ghost predicate Separate(s: Ledger) {
    && (forall t | t in s.objects :: TwoBlocks(s.objects[t]))
    && (forall t, u | t in s.objects && u in s.objects && t != u :: Owned(s.objects[t]) !! Owned(s.objects[u]))
    && (forall t, u | t in s.objects && u in s.objects && !s.objects[t].ownsStack ::
          s.objects[t].stack !in Owned(s.objects[u]))
  }

  /** What is allocated and not freed is in use, once. */
  ghost predicate Balanced(s: Ledger) {
    forall a :: s.obtained[a] == s.released[a] + if Live(s, a) then 1 else 0
  }

  /** An implementation object is destroyed in the mode in which it was created. */
  ghost predicate Mirrored(s: Ledger) {
    && s.created.Keys == s.destroyed.Keys + s.objects.Keys && s.destroyed.Keys !! s.objects.Keys
    && (forall t | t in s.destroyed :: s.destroyed[t] == s.created[t])
    && (forall t | t in s.objects :: s.objects[t].inBuffer == s.created[t])
  }

  ghost predicate Inv(s: Ledger) { Separate(s) && Balanced(s) && Mirrored(s) }

  lemma LiveAfterConstruct(s: Ledger, t: Tid, o: Object, a: int)
    requires t !in s.objects
    ensures Live(Construct(s, t, o), a) <==> Live(s, a) || a in Owned(o)
  {
    var s' := Construct(s, t, o);
    if Live(s, a) {
      var u :| u in s.objects && a in Owned(s.objects[u]);
      assert u in s'.objects && a in Owned(s'.objects[u]);
    }
    if a in Owned(o) { assert t in s'.objects && a in Owned(s'.objects[t]); }
  }

  lemma LiveAfterDestroy(s: Ledger, t: Tid, a: int)
    requires Separate(s) && t in s.objects
    ensures Live(Step(s, Destroy(t)), a) <==> Live(s, a) && a !in Owned(s.objects[t])
  {
    var s' := Step(s, Destroy(t));
    if Live(s, a) && a !in Owned(s.objects[t]) {
      var u :| u in s.objects && a in Owned(s.objects[u]);
      assert u in s'.objects && a in Owned(s'.objects[u]);
    }
  }

  lemma ConstructSeparate(s: Ledger, t: Tid, o: Object)
    requires Separate(s) && t !in s.objects && TwoBlocks(o)
    requires forall a | a in Owned(o) :: Fresh(s, a)
    requires !o.ownsStack ==> !Live(s, o.stack) && o.stack !in Owned(o)
    ensures Separate(Construct(s, t, o))
  {
    forall u | u in s.objects ensures Owned(s.objects[u]) !! Owned(o) {
      forall a | a in Owned(s.objects[u]) ensures a !in Owned(o) { assert Live(s, a); }
    }
    assert forall u | u in s.objects :: !o.ownsStack ==> o.stack !in Owned(s.objects[u]);
  }

  lemma ConstructBalanced(s: Ledger, t: Tid, o: Object)
    requires Balanced(s) && t !in s.objects && TwoBlocks(o) && forall a | a in Owned(o) :: Fresh(s, a)
    ensures Balanced(Construct(s, t, o))
  {
    var s' := Construct(s, t, o);
    forall a ensures s'.obtained[a] == s'.released[a] + if Live(s', a) then 1 else 0 {
      LiveAfterConstruct(s, t, o, a);
      BlockCount(o, a);
    }
  }

  lemma ConstructKeepsInv(s: Ledger, t: Tid, o: Object)
    requires Inv(s) && t !in s.created && TwoBlocks(o)
    requires forall a | a in Owned(o) :: Fresh(s, a)
    requires !o.ownsStack ==> !Live(s, o.stack) && o.stack !in Owned(o)
    ensures Inv(Construct(s, t, o))
  {
    ConstructSeparate(s, t, o);
    ConstructBalanced(s, t, o);
    ConstructMirrored(s, t, o);
  }

  lemma ConstructMirrored(s: Ledger, t: Tid, o: Object)
    requires Mirrored(s) && t !in s.created
    ensures Mirrored(Construct(s, t, o))
  {
  }

  lemma DestroyBalanced(s: Ledger, t: Tid)
    requires Separate(s) && Balanced(s) && t in s.objects
    ensures Balanced(Step(s, Destroy(t)))
  {
    var s' := Step(s, Destroy(t));
    forall a ensures s'.obtained[a] == s'.released[a] + if Live(s', a) then 1 else 0 {
      LiveAfterDestroy(s, t, a);
      BlockCount(s.objects[t], a);
      if a in Owned(s.objects[t]) { assert Live(s, a); }
    }
  }

  lemma DestroyKeepsInv(s: Ledger, t: Tid)
    requires Inv(s) && t in s.objects
    ensures Inv(Step(s, Destroy(t)))
  {
    DestroyBalanced(s, t);
  }

  lemma StepKeepsInv(s: Ledger, l: Label)
    requires Inv(s) && Legal(s, l)
    ensures Inv(Step(s, l))
  {
    match l
    case Allocate(t, size, align, impl, stack) =>
      ConstructKeepsInv(s, t, Object(FitsBuffer(s.word, size, align), impl, true, stack));
    case Borrow(t, size, align, impl, stack, valid) =>
      if valid {
        ConstructKeepsInv(s, t, Object(FitsBuffer(s.word, size, align), impl, false, stack));
      } else {
        assert forall a :: Live(Step(s, l), a) == Live(s, a);
      }
    case Wrap(t, impl, stack) => ConstructKeepsInv(s, t, Object(false, impl, false, stack));
    case Destroy(t) => DestroyKeepsInv(s, t);
  }

  // ---------------------------------------------------------------------------------------------
  // Whole runs

  ghost predicate LegalRun(s: Ledger, ls: seq<Label>)
    decreases |ls|
  {
    ls == [] || (Legal(s, ls[0]) && LegalRun(Step(s, ls[0]), ls[1..]))
  }

  function Run(s: Ledger, ls: seq<Label>): Ledger
    decreases |ls|
  {
    if ls == [] then s else Run(Step(s, ls[0]), ls[1..])
  }

  lemma {:induction false} RunKeepsInv(s: Ledger, ls: seq<Label>)
    requires Inv(s) && LegalRun(s, ls)
    ensures Inv(Run(s, ls))
    decreases |ls|
  {
    if ls != [] {
      StepKeepsInv(s, ls[0]);
      RunKeepsInv(Step(s, ls[0]), ls[1..]);
    }
  }

  /** Over any sequence of constructions and destructions: every address is freed as often as it was
      allocated, except for what a cothread that still exists owns, once; every implementation object that
      is gone was destroyed in the mode in which it was created; and a caller's stack is never freed. */
  lemma RunsBalance(word: nat, ls: seq<Label>)
    requires LegalRun(Empty(word), ls)
    ensures var s := Run(Empty(word), ls);
      && (forall a :: s.obtained[a] == s.released[a] + if Live(s, a) then 1 else 0)
      && (forall t | t in s.created && t !in s.objects :: t in s.destroyed && s.destroyed[t] == s.created[t])
      && (s.objects == map[] ==> s.obtained == s.released)
      && (forall t, u | t in s.objects && !s.objects[t].ownsStack && u in s.objects ::
            Step(s, Destroy(u)).released[s.objects[t].stack] == s.released[s.objects[t].stack])
  {
    RunKeepsInv(Empty(word), ls);
    var s := Run(Empty(word), ls);
    if s.objects == map[] {
      assert forall a :: !Live(s, a);
      assert forall a :: s.obtained[a] == s.released[a];
    }
  }

  /** Nothing is freed that is not in use: what a destructor frees was allocated once more than freed. */
  lemma FreesOnlyLive(s: Ledger, t: Tid, a: int)
    requires Inv(s) && t in s.objects && a in Owned(s.objects[t])
    ensures s.obtained[a] == s.released[a] + 1 && Step(s, Destroy(t)).released[a] == s.released[a] + 1
    ensures !Live(Step(s, Destroy(t)), a)
  {
    assert Live(s, a);
    BlockCount(s.objects[t], a);
    LiveAfterDestroy(s, t, a);
  }

  // ---------------------------------------------------------------------------------------------
  // What is booked

  /** A constructor obtains the stack that it allocates, and the implementation object if that does not fit
      into the 32 words of the buffer. */
  lemma AllocateObtains(s: Ledger, t: Tid, size: nat, align: nat, impl: int, stack: int)
    requires Legal(s, Allocate(t, size, align, impl, stack))
    ensures var s', placed := Step(s, Allocate(t, size, align, impl, stack)), size <= 32 * s.word && align <= s.word;
      && s'.obtained[stack] == s.obtained[stack] + 1
      && (!placed ==> s'.obtained[impl] == s.obtained[impl] + 1)
      && (forall a | a != stack && (placed || a != impl) :: s'.obtained[a] == s.obtained[a])
      && s'.released == s.released && t in s'.objects
  {
  }

  /** With a caller's stack only the implementation object is obtained; if the stack is rejected, it is
      released at once and there is no cothread. */
  lemma BorrowObtains(s: Ledger, t: Tid, size: nat, align: nat, impl: int, stack: int, valid: bool)
    requires Legal(s, Borrow(t, size, align, impl, stack, valid))
    ensures var s', n := Step(s, Borrow(t, size, align, impl, stack, valid)),
                         if size <= 32 * s.word && align <= s.word then 0 else 1;
      && s'.obtained[impl] == s.obtained[impl] + n
      && s'.released[impl] == s.released[impl] + (if valid then 0 else n)
      && (forall a | a != impl :: s'.obtained[a] == s.obtained[a] && s'.released[a] == s.released[a])
      && (t in s'.objects <==> valid || t in s.objects)
  {
  }

  /** The wrapper of a kernel thread is always on the heap. */
  lemma WrapObtains(s: Ledger, t: Tid, impl: int, stack: int)
    requires Legal(s, Wrap(t, impl, stack))
    ensures var s' := Step(s, Wrap(t, impl, stack));
      && s'.obtained[impl] == s.obtained[impl] + 1 && (forall a | a != impl :: s'.obtained[a] == s.obtained[a])
      && s'.released == s.released && t in s'.objects
  {
  }

  lemma StepKeepsObject(s: Ledger, l: Label, t: Tid)
    requires Mirrored(s) && Legal(s, l) && t in s.objects && l != Destroy(t)
    ensures t in Step(s, l).objects && Step(s, l).objects[t] == s.objects[t]
  {
    assert t in s.created;
  }

  /** A cothread that is not destroyed stays as it was constructed. */
  lemma {:induction false} RunKeepsObject(s: Ledger, ls: seq<Label>, t: Tid)
    requires Inv(s) && LegalRun(s, ls) && t in s.objects && Destroy(t) !in ls
    ensures t in Run(s, ls).objects && Run(s, ls).objects[t] == s.objects[t]
    decreases |ls|
  {
    if ls != [] {
      assert ls[0] in ls && forall l | l in ls[1..] :: l in ls;
      StepKeepsInv(s, ls[0]);
      StepKeepsObject(s, ls[0], t);
      RunKeepsObject(Step(s, ls[0]), ls[1..], t);
    }
  }

  /** What it owns is not released meanwhile. */
  lemma StepKeepsOwned(s: Ledger, l: Label, t: Tid, a: int)
    requires Inv(s) && Legal(s, l) && t in s.objects && a in Owned(s.objects[t]) && l != Destroy(t)
    ensures Step(s, l).obtained[a] == s.obtained[a] && Step(s, l).released[a] == s.released[a]
  {
    assert Live(s, a);
    match l
    case Destroy(u) => BlockCount(s.objects[u], a);
    case _ =>
  }

  lemma {:induction false} RunKeepsOwned(s: Ledger, ls: seq<Label>, t: Tid, a: int)
    requires Inv(s) && LegalRun(s, ls) && t in s.objects && Destroy(t) !in ls && a in Owned(s.objects[t])
    ensures Run(s, ls).obtained[a] == s.obtained[a] && Run(s, ls).released[a] == s.released[a]
    decreases |ls|
  {
    if ls != [] {
      assert ls[0] in ls && forall l | l in ls[1..] :: l in ls;
      StepKeepsOwned(s, ls[0], t, a);
      StepKeepsObject(s, ls[0], t);
      StepKeepsInv(s, ls[0]);
      RunKeepsOwned(Step(s, ls[0]), ls[1..], t, a);
    }
  }

  /** The stack that a constructor allocates is obtained once, and released once, by the destructor of that
      cothread and not before; likewise the implementation object, if it does not fit into the buffer. */
  lemma AllocatedThenFreed(s: Ledger, t: Tid, size: nat, align: nat, impl: int, stack: int, ls: seq<Label>)
    requires Inv(s) && Legal(s, Allocate(t, size, align, impl, stack))
    requires LegalRun(Step(s, Allocate(t, size, align, impl, stack)), ls) && Destroy(t) !in ls
    ensures var s' := Run(Step(s, Allocate(t, size, align, impl, stack)), ls);
      && Legal(s', Destroy(t))
      && FreedOnce(s, s', Step(s', Destroy(t)), stack)
      && (size > 32 * s.word || align > s.word ==> FreedOnce(s, s', Step(s', Destroy(t)), impl))
  {
    var s1 := Step(s, Allocate(t, size, align, impl, stack));
    StepKeepsInv(s, Allocate(t, size, align, impl, stack));
    AllocateObtains(s, t, size, align, impl, stack);
    RunKeepsInv(s1, ls);
    OwnedThenFreed(s1, ls, t, stack);
    if size > 32 * s.word || align > s.word { OwnedThenFreed(s1, ls, t, impl); }
  }

  /** Address `a` was obtained once and not released between `s` and `s'`, and is released once in the step
      to `s''`. */
  predicate FreedOnce(s: Ledger, s': Ledger, s'': Ledger, a: int) {
    && s'.obtained[a] == s.obtained[a] + 1 && s'.released[a] == s.released[a]
    && s''.obtained[a] == s'.obtained[a] && s''.released[a] == s'.released[a] + 1
  }

  lemma OwnedThenFreed(s: Ledger, ls: seq<Label>, t: Tid, a: int)
    requires Inv(s) && LegalRun(s, ls) && t in s.objects && Destroy(t) !in ls && a in Owned(s.objects[t])
    ensures var s' := Run(s, ls);
      && t in s'.objects && s'.obtained[a] == s.obtained[a] && s'.released[a] == s.released[a]
      && Step(s', Destroy(t)).obtained[a] == s'.obtained[a] && Step(s', Destroy(t)).released[a] == s'.released[a] + 1
  {
    RunKeepsInv(s, ls);
    RunKeepsObject(s, ls, t);
    RunKeepsOwned(s, ls, t, a);
    FreesOnlyLive(Run(s, ls), t, a);
  }

  /** A caller's stack is not released by the destructor, nor is anything but the implementation object. */
  lemma BorrowedNotFreed(s: Ledger, t: Tid, size: nat, align: nat, impl: int, stack: int, ls: seq<Label>, a: int)
    requires Inv(s) && Legal(s, Borrow(t, size, align, impl, stack, true))
    requires LegalRun(Step(s, Borrow(t, size, align, impl, stack, true)), ls) && Destroy(t) !in ls
    ensures var s' := Run(Step(s, Borrow(t, size, align, impl, stack, true)), ls);
      && Legal(s', Destroy(t))
      && Step(s', Destroy(t)).released[a] == s'.released[a] +
           if a == impl && (size > 32 * s.word || align > s.word) then 1 else 0
  {
    var s1 := Step(s, Borrow(t, size, align, impl, stack, true));
    StepKeepsInv(s, Borrow(t, size, align, impl, stack, true));
    RunKeepsObject(s1, ls, t);
  }

  // ---------------------------------------------------------------------------------------------
  // The code

  class Cothreads {
    const word: nat
    var objects: map<Tid, Object>
    var obtained: multiset<int>
    var released: multiset<int>
    ghost var created: map<Tid, bool>
    ghost var destroyed: map<Tid, bool>

    ghost function State(): Ledger
      reads this
    {
      Ledger(word, objects, obtained, released, created, destroyed)
    }

    constructor (word: nat)
      ensures State() == Empty(word)
    {
      this.word := word;
      objects, obtained, released, created, destroyed := map[], multiset{}, multiset{}, map[], map[];
    }

    method New(a: int)
      modifies this`obtained
      ensures obtained == old(obtained) + multiset{a}
    {
      obtained := obtained + multiset{a};
    }

    method Free(a: int)
      modifies this`released
      ensures released == old(released) + multiset{a}
    {
      released := released + multiset{a};
    }

    /** `AllocImplHelper` with the constructor of an implementation that allocates its stack. */
    method Allocate(t: Tid, size: nat, align: nat, impl: int, stack: int) returns (bufferUsed: bool)
      requires Legal(State(), Label.Allocate(t, size, align, impl, stack))
      modifies this
      ensures State() == Step(old(State()), Label.Allocate(t, size, align, impl, stack))
      ensures bufferUsed == (size <= 32 * word && align <= word)
      ensures objects == old(objects)[t := Object(bufferUsed, impl, true, stack)]
      ensures obtained == old(obtained) + (if bufferUsed then multiset{} else multiset{impl}) + multiset{stack}
    {
      bufferUsed := size <= BUFFER_WORDS * word && align <= word;
      var o := Object(bufferUsed, impl, true, stack);
      Obtain(o);
      objects := objects[t := o];
      created := created[t := bufferUsed];
    }

    /** `new` for the implementation object, unless it goes into the buffer, and for the stack. */
    method Obtain(o: Object)
      modifies this`obtained
      ensures obtained == old(obtained) + Blocks(o)
    {
      if !o.inBuffer { New(o.impl); }
      if o.ownsStack { New(o.stack); }
    }

    /** `AllocImplHelper` with the constructor that validates and uses a caller's stack. */
    method Borrow(t: Tid, size: nat, align: nat, impl: int, stack: int, valid: bool) returns (bufferUsed: bool)
      requires Legal(State(), Label.Borrow(t, size, align, impl, stack, valid))
      modifies this
      ensures State() == Step(old(State()), Label.Borrow(t, size, align, impl, stack, valid))
      ensures bufferUsed == (size <= 32 * word && align <= word)
      ensures objects == if valid then old(objects)[t := Object(bufferUsed, impl, false, stack)] else old(objects)
    {
      bufferUsed := size <= BUFFER_WORDS * word && align <= word;
      if !bufferUsed { New(impl); }
      if valid {
        objects := objects[t := Object(bufferUsed, impl, false, stack)];
        created := created[t := bufferUsed];
      } else if !bufferUsed {
        Free(impl);
      }
    }

    /** `AllocKernelThreadWrapper`, and the cothread that `Current` makes for it. */
    method Wrap(t: Tid, impl: int, stack: int)
      requires Legal(State(), Label.Wrap(t, impl, stack))
      modifies this
      ensures State() == Step(old(State()), Label.Wrap(t, impl, stack))
      ensures objects == old(objects)[t := Object(false, impl, false, stack)]
      ensures obtained == old(obtained) + multiset{impl}
    {
      New(impl);
      objects := objects[t := Object(false, impl, false, stack)];
      created := created[t := false];
    }

    /** `~Cothread`, which destroys the implementation object in place or deletes it. */
    method Destroy(t: Tid)
      requires Legal(State(), Label.Destroy(t))
      modifies this
      ensures State() == Step(old(State()), Label.Destroy(t))
    {
      var o := objects[t];
      Release(o);
      destroyed := destroyed[t := o.inBuffer];
      objects := objects - {t};
    }

    method Release(o: Object)
      modifies this`released
      ensures released == old(released) + Blocks(o)
    {
      DestroyImpl(o);
      if !o.inBuffer { Free(o.impl); }
    }

    /** The destructor of the implementation object. */
    method DestroyImpl(o: Object)
      modifies this`released
      ensures released == old(released) + if o.ownsStack then multiset{o.stack} else multiset{}
    {
      if o.ownsStack { Free(o.stack); }
    }
  }
}
