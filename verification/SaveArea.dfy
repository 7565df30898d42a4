/** Context switching by a save area at the low end of the stack buffer: the aarch64 platform. Stores to
    one area and loads from another alternate. */
module SaveArea {
  import opened Machine
  import opened Coroutine
  import opened Backend
  import opened Sizes

  /** The saved words: the stack pointer, the return address, x19 to x29 and d8 to d15. */
  const WORDS := 21

  /** The bytes of a save area that `Switch` uses; 0x100 are set aside. */
  const AREA_BYTES := 0xB0

  /** The offset of saved word `i`. The word at 0x68 is not used. */
  function Offset(i: int): int { if i < 13 then 8 * i else 8 * i + 8 }

  // ---------------------------------------------------------------------------------------------
  // Alternating stores and loads

  /** A store instruction: of one word or of a pair, at an offset in a save area. */
  datatype Group = One(off: int, a: Word) | Two(off: int, a: Word, b: Word) {

    function Words(): seq<Word> { if One? then [a] else [a, b] }

    function End(): int { if One? then off + 8 else off + 16 }

    predicate Inside() { 0 <= off && End() <= AREA_BYTES }
  }

  /** `str` or `stp`. */
  function StoreGroup(m: Memory, area: int, g: Group): Memory {
    if g.One? then Write(m, area + g.off, g.a)
    else Write(Write(m, area + g.off, g.a), area + g.off + 8, g.b)
  }

  /** `ldr` or `ldp` of the same place. */
  function LoadGroup(m: Memory, area: int, g: Group): seq<Word> {
    if g.One? then [Load(m, area + g.off)]
    else [Load(m, area + g.off), Load(m, area + g.off + 8)]
  }

  function Front(gs: seq<Group>): seq<Group>
    requires gs != []
  {
    gs[..|gs| - 1]
  }

  function Last(gs: seq<Group>): Group
    requires gs != []
  {
    gs[|gs| - 1]
  }

  /** Memory after the stores `gs`. */
  function Stored(m: Memory, from: int, gs: seq<Group>): Memory {
    if gs == [] then m else StoreGroup(Stored(m, from, Front(gs)), from, Last(gs))
  }

  /** The words loaded from `to`, when each of the stores `gs` to `from` is followed by a load. */
  function Loaded(m: Memory, from: int, to: int, gs: seq<Group>): (ws: seq<Word>)
    ensures |ws| == |WordsOf(gs)|
  {
    if gs == [] then [] else Loaded(m, from, to, Front(gs)) + LoadGroup(Stored(m, from, gs), to, Last(gs))
  }

  /** The words at the places of `gs`, loaded all from one memory. */
  function LoadAll(m: Memory, area: int, gs: seq<Group>): seq<Word> {
    if gs == [] then [] else LoadAll(m, area, Front(gs)) + LoadGroup(m, area, Last(gs))
  }

  function WordsOf(gs: seq<Group>): seq<Word> {
    if gs == [] then [] else WordsOf(Front(gs)) + Last(gs).Words()
  }

  predicate Ordered(gs: seq<Group>) {
    && (forall g | g in gs :: g.Inside())
    && (forall i, j | 0 <= i < j < |gs| :: gs[i].End() <= gs[j].off)
  }

  /** Two areas that are disjoint, or one and the same. */
  predicate Separate(from: int, to: int) {
    from == to || from + AREA_BYTES <= to || to + AREA_BYTES <= from
  }

  lemma {:induction false} StoredOutside(m: Memory, from: int, gs: seq<Group>, x: int)
    requires (forall g | g in gs :: g.Inside()) && (x < from || from + AREA_BYTES <= x)
    ensures Stored(m, from, gs)[x] == m[x]
  {
    if gs != [] {
      assert Last(gs).Inside();
      StoredOutside(m, from, Front(gs), x);
    }
  }

  lemma LoadOwn(m: Memory, area: int, g: Group)
    ensures LoadGroup(StoreGroup(m, area, g), area, g) == g.Words()
  {
  }

  lemma LoadOther(m: Memory, area: int, g: Group, h: Group)
    requires g.End() <= h.off
    ensures LoadGroup(StoreGroup(m, area, h), area, g) == LoadGroup(m, area, g)
  {
  }

  /** Loading the last group after everything was stored. */
  lemma LoadLast(m: Memory, from: int, to: int, gs: seq<Group>)
    requires Separate(from, to) && Ordered(gs) && gs != []
    ensures LoadGroup(Stored(m, from, gs), to, Last(gs)) ==
      if from == to then Last(gs).Words() else LoadGroup(m, to, Last(gs))
  {
    if from == to {
      LoadOwn(Stored(m, from, Front(gs)), from, Last(gs));
    } else {
      LoadApart(m, from, to, gs, Last(gs));
    }
  }

  lemma LoadSame(m: Memory, m': Memory, area: int, g: Group, x: int)
    requires x == area + g.off && m'[x] == m[x] && (g.Two? ==> m'[x + 8] == m[x + 8])
    ensures LoadGroup(m', area, g) == LoadGroup(m, area, g)
  {
  }

  lemma LoadApart(m: Memory, from: int, to: int, gs: seq<Group>, g: Group)
    requires from + AREA_BYTES <= to || to + AREA_BYTES <= from
    requires (forall h | h in gs :: h.Inside()) && g.Inside()
    ensures LoadGroup(Stored(m, from, gs), to, g) == LoadGroup(m, to, g)
  {
    var x := to + g.off;
    StoredOutside(m, from, gs, x);
    if g.Two? { StoredOutside(m, from, gs, x + 8); }
    LoadSame(m, Stored(m, from, gs), to, g, x);
  }

  /** The words loaded are those that were at `to` to begin with, or those just stored there. */
  lemma {:induction false} LoadedWords(m: Memory, from: int, to: int, gs: seq<Group>)
    requires Separate(from, to) && Ordered(gs)
    ensures Loaded(m, from, to, gs) == if from == to then WordsOf(gs) else LoadAll(m, to, gs)
  {
    if gs != [] {
      LoadedWords(m, from, to, Front(gs));
      LoadLast(m, from, to, gs);
    }
  }

  lemma {:induction false} LoadAllKeeps(m: Memory, area: int, gs: seq<Group>, h: Group)
    requires forall g | g in gs :: g.End() <= h.off
    ensures LoadAll(StoreGroup(m, area, h), area, gs) == LoadAll(m, area, gs)
  {
    if gs != [] {
      LoadAllKeeps(m, area, Front(gs), h);
      LoadOther(m, area, Last(gs), h);
    }
  }

  /** Loading everything after everything was stored. */
  lemma {:induction false} LoadAllStored(m: Memory, area: int, gs: seq<Group>)
    requires Ordered(gs)
    ensures LoadAll(Stored(m, area, gs), area, gs) == WordsOf(gs)
  {
    if gs != [] {
      var m' := Stored(m, area, Front(gs));
      LoadAllStored(m, area, Front(gs));
      LoadAllKeeps(m', area, Front(gs), Last(gs));
      LoadOwn(m', area, Last(gs));
    }
  }

  lemma {:induction false} LoadAllApart(m: Memory, from: int, to: int, gs: seq<Group>, hs: seq<Group>)
    requires from + AREA_BYTES <= to || to + AREA_BYTES <= from
    requires (forall g | g in gs :: g.Inside()) && (forall h | h in hs :: h.Inside())
    ensures LoadAll(Stored(m, from, gs), to, hs) == LoadAll(m, to, hs)
  {
    if hs != [] {
      LoadAllApart(m, from, to, gs, Front(hs));
      LoadApart(m, from, to, gs, Last(hs));
    }
  }

  /** However words are grouped, alternating stores and loads do what storing everything and then loading
      everything does, and within one area they load what they have stored. */
  lemma AlternatingIsSaveThenLoad(m: Memory, from: int, to: int, gs: seq<Group>)
    requires Separate(from, to) && Ordered(gs)
    ensures Loaded(m, from, to, gs) == LoadAll(Stored(m, from, gs), to, gs)
    ensures from == to ==> Loaded(m, from, to, gs) == WordsOf(gs)
  {
    LoadedWords(m, from, to, gs);
    if from == to { LoadAllStored(m, from, gs); } else { LoadAllApart(m, from, to, gs, gs); }
  }

  lemma {:induction false} LoadedDepends(m: Memory, m': Memory, from: int, to: int, gs: seq<Group>)
    requires forall g | g in gs :: g.Inside()
    requires SameArea(m, m', to)
    ensures Loaded(m', from, to, gs) == Loaded(m, from, to, gs)
  {
    if gs != [] {
      LoadedDepends(m, m', from, to, Front(gs));
      StoredSame(m, m', from, to, gs);
      LoadDepends(Stored(m, from, gs), Stored(m', from, gs), to, Last(gs));
    }
  }

  ghost predicate SameArea(m: Memory, m': Memory, area: int) {
    forall y | area <= y < area + AREA_BYTES :: m'[y] == m[y]
  }

  lemma LoadDepends(m: Memory, m': Memory, area: int, g: Group)
    requires g.Inside() && SameArea(m, m', area)
    ensures LoadGroup(m', area, g) == LoadGroup(m, area, g)
  {
  }

  lemma StoredSame(m: Memory, m': Memory, from: int, to: int, gs: seq<Group>)
    requires SameArea(m, m', to)
    ensures SameArea(Stored(m, from, gs), Stored(m', from, gs), to)
  {
    forall y | to <= y < to + AREA_BYTES ensures Stored(m', from, gs)[y] == Stored(m, from, gs)[y] {
      StoredDepends(m, m', from, gs, y);
    }
  }

  lemma {:induction false} StoredDepends(m: Memory, m': Memory, from: int, gs: seq<Group>, x: int)
    requires m'[x] == m[x]
    ensures Stored(m', from, gs)[x] == Stored(m, from, gs)[x]
  {
    if gs != [] { StoredDepends(m, m', from, Front(gs), x); }
  }

  /** Only the first 0xB0 bytes of an area are stored to, and only they matter to what is loaded. */
  lemma AlternatingStaysInside(m: Memory, m': Memory, from: int, to: int, gs: seq<Group>)
    requires forall g | g in gs :: g.Inside()
    ensures forall x | x < from || from + AREA_BYTES <= x :: Stored(m, from, gs)[x] == m[x]
    ensures SameArea(m, m', to) ==> Loaded(m', from, to, gs) == Loaded(m, from, to, gs)
  {
    forall x | x < from || from + AREA_BYTES <= x
      ensures Stored(m, from, gs)[x] == m[x]
    {
      StoredOutside(m, from, gs, x);
    }
    if SameArea(m, m', to) { LoadedDepends(m, m', from, to, gs); }
  }

  // ---------------------------------------------------------------------------------------------
  // The groups of `Switch`

  /** How many words come before the `k`-th group: they are pairs, but for x29. */
  function Turn(k: nat): nat { if k <= 6 then 2 * k else 2 * k - 1 }

  /** The number of groups. */
  const GROUPS: nat := 11

  function GroupOf(ws: seq<Word>, k: nat): Group
    requires Turn(k + 1) <= |ws|
  {
    var i := Turn(k);
    if k == 6 then One(Offset(i), ws[i]) else Two(Offset(i), ws[i], ws[i + 1])
  }

  /** The first `k` groups of `ws`. */
  function Layout(ws: seq<Word>, k: nat): (gs: seq<Group>)
    requires Turn(k) <= |ws|
    ensures |gs| == k && forall i | 0 <= i < k :: gs[i] == GroupOf(ws, i)
  {
    if k == 0 then [] else Layout(ws, k - 1) + [GroupOf(ws, k - 1)]
  }

  /** The words of a save area. */
  function Area(m: Memory, area: int): (ws: seq<Word>)
    ensures |ws| == WORDS && forall i | 0 <= i < WORDS :: ws[i] == m[area + Offset(i)]
  {
    seq(WORDS, (i: nat) => m[area + Offset(i)])
  }

  lemma LayoutOrdered(ws: seq<Word>, k: nat)
    requires Turn(k) <= |ws| <= WORDS
    ensures Ordered(Layout(ws, k))
  {
  }

  lemma FrontLayout(ws: seq<Word>, k: nat)
    requires 0 < k && Turn(k) <= |ws|
    ensures Front(Layout(ws, k)) == Layout(ws, k - 1) && Last(Layout(ws, k)) == GroupOf(ws, k - 1)
  {
  }

  lemma GroupWords(ws: seq<Word>, k: nat)
    requires 0 < k && Turn(k) <= |ws|
    ensures ws[..Turn(k - 1)] + GroupOf(ws, k - 1).Words() == ws[..Turn(k)]
  {
  }

  /** Groups of words, from what comes before the last group and the last group. */
  lemma WordsMore(gs: seq<Group>, a: seq<Word>, b: seq<Word>)
    requires gs != [] && WordsOf(Front(gs)) == a && Last(gs).Words() == b
    ensures WordsOf(gs) == a + b
  {
  }

  lemma NextWords(ws: seq<Word>, k: nat)
    requires 0 < k && Turn(k) <= |ws| && WordsOf(Layout(ws, k - 1)) == ws[..Turn(k - 1)]
    ensures WordsOf(Layout(ws, k)) == ws[..Turn(k)]
  {
    FrontLayout(ws, k);
    WordsMore(Layout(ws, k), ws[..Turn(k - 1)], GroupOf(ws, k - 1).Words());
    GroupWords(ws, k);
  }

  lemma {:induction false} LayoutWords(ws: seq<Word>, k: nat)
    requires Turn(k) <= |ws|
    ensures WordsOf(Layout(ws, k)) == ws[..Turn(k)]
  {
    if k > 0 {
      LayoutWords(ws, k - 1);
      NextWords(ws, k);
    }
  }

  lemma GroupLoads(m: Memory, area: int, ws: seq<Word>, k: nat)
    requires Turn(k + 1) <= |ws| == WORDS
    ensures LoadGroup(m, area, GroupOf(ws, k)) == GroupOf(Area(m, area), k).Words()
  {
    var i := Turn(k);
    assert Area(m, area)[i] == m[area + Offset(i)];
    if k != 6 { assert Area(m, area)[i + 1] == m[area + Offset(i + 1)]; }
  }

  /** Loading group by group loads the words `hs`. */
  lemma {:induction false} LoadAllGroups(m: Memory, area: int, gs: seq<Group>, hs: seq<Group>)
    requires |gs| == |hs| && forall i | 0 <= i < |gs| :: LoadGroup(m, area, gs[i]) == hs[i].Words()
    ensures LoadAll(m, area, gs) == WordsOf(hs)
  {
    if gs != [] { LoadAllGroups(m, area, Front(gs), Front(hs)); }
  }

  /** Every group loads the words of the area at its place. */
  lemma LayoutLoads(m: Memory, area: int, ws: seq<Word>)
    requires |ws| == WORDS
    ensures LoadAll(m, area, Layout(ws, GROUPS)) == WordsOf(Layout(Area(m, area), GROUPS))
  {
    forall k | 0 <= k < GROUPS ensures LoadGroup(m, area, GroupOf(ws, k)) == GroupOf(Area(m, area), k).Words() {
      GroupLoads(m, area, ws, k);
    }
    LoadAllGroups(m, area, Layout(ws, GROUPS), Layout(Area(m, area), GROUPS));
  }

  // ---------------------------------------------------------------------------------------------
  // The routines

  function Saved21(cpu: Context): (ws: seq<Word>)
    ensures |ws| == 2 + |cpu.regs|
  {
    [cpu.sp, cpu.pc] + cpu.regs
  }

  /** The context that 21 words describe, after the entry stub if that is where it continues. */
  function Arrive(m: Memory, ws: seq<Word>): Outcome
    requires |ws| == WORDS
  {
    if ws[1] == AARCH64_ENTRY_STUB then Outcome(m, Context(DEREFERENCE_CALL_INFO, ws[0], ws[2..]), ws[2])
    else Outcome(m, Context(ws[1], ws[0], ws[2..]), NULL)
  }

  function Groups(cpu: Context): (gs: seq<Group>)
    requires |cpu.regs| == 19
    ensures WordsOf(gs) == Saved21(cpu) && Ordered(gs)
  {
    LayoutWords(Saved21(cpu), GROUPS);
    LayoutOrdered(Saved21(cpu), GROUPS);
    Layout(Saved21(cpu), GROUPS)
  }

  function Switch(m: Memory, cpu: Context, from: Home, to: Home): Outcome
    requires |cpu.regs| == 19
  {
    var gs := Groups(cpu);
    Arrive(Stored(m, m[from.field], gs), Loaded(m, m[from.field], m[to.field], gs))
  }

  function Prepare(m: Memory, h: Home, info: Word): Memory {
    var context := h.stack.lo;
    m[context := h.stack.hi][context + 8 := AARCH64_ENTRY_STUB]
     [context + 16 := info][context + 96 := h.stack.hi][h.field := context]
  }

  /** `DereferenceCallInfo`, whose entry call has returned, calls `CothreadReturned` itself. */
  function Finish(m: Memory, cpu: Context): Outcome { Outcome(m, cpu.(pc := COTHREAD_RETURNED), NULL) }

  /** `AllocKernelThreadWrapper`: the save area is the wrapper's static buffer. */
  function Wrap(m: Memory, h: Home): Memory { m[h.field := h.span.lo] }

  // ---------------------------------------------------------------------------------------------
  // The representation of cothreads

  /** The save area of `h` is set aside: in a buffer of its own, or below `sp`. */
  predicate Room(h: Home, sp: int) {
    h.span.lo + AREA_BYTES <= if h.Wrapper() then h.span.hi else sp
  }

  /** A stack that `Prepare` can use. */
  predicate Admits(h: Home) {
    && h.stack.hi % 16 == 0
    && h.stack.lo + AREA_BYTES <= h.stack.hi
    && h.root == h.stack.hi
  }

  predicate Ready(m: Memory, h: Home) { m[h.field] == h.span.lo }

  predicate Holds(m: Memory, h: Home, cpu: Context) {
    && Ready(m, h) && Room(h, cpu.sp) && |cpu.regs| == 19
    && Area(m, h.span.lo) == Saved21(cpu)
  }

  predicate Primed(m: Memory, h: Home, info: Word) {
    && Ready(m, h) && Admits(h)
    && m[h.stack.lo] == h.stack.hi
    && m[h.stack.lo + 8] == AARCH64_ENTRY_STUB
    && m[h.stack.lo + 16] == info
    && m[h.stack.lo + 96] == h.stack.hi
  }

  /** The state in which `DereferenceCallInfo` is entered: the stack is empty and aligned, and x29 holds
      its end. `Prepare` gives the other registers no particular value. */
  predicate CallEntry(h: Home, cpu: Context) {
    && cpu.pc == DEREFERENCE_CALL_INFO && cpu.sp == h.stack.hi && cpu.sp % 16 == 0
    && |cpu.regs| == 19 && cpu.regs[10] == h.stack.hi
  }

  /** The state in which `CothreadReturned` is entered: as the entry function has left it. */
  predicate ReturnEntry(h: Home, regs: seq<Word>, cpu: Context) { cpu.sp == h.root && cpu.regs == regs }

  ghost function Implementation(): Backend {
    Backend((m: Memory, cpu: Context, from, to) =>
              if |cpu.regs| == 19 then Switch(m, cpu, from, to) else Outcome(m, cpu, NULL),
            (m: Memory, h, info) => Prepare(m, h, info),
            (m: Memory, h) => Wrap(m, h),
            (m: Memory, cpu, h) => Finish(m, cpu))
  }

  ghost function Representation(): Spec {
    Spec(Limits((h, cpu: Context) => |cpu.regs| == 19 && Room(h, cpu.sp), h => Admits(h),
                (h: Home) => h.span.lo + AREA_BYTES <= h.span.hi),
         (m: Memory, h) => Ready(m, h),
         (m: Memory, h, cpu) => Holds(m, h, cpu),
         (m: Memory, h, info) => Primed(m, h, info),
         (m: Memory, h) => true,
         (h, cpu) => CallEntry(h, cpu),
         (h, regs, cpu) => ReturnEntry(h, regs, cpu))
  }

  // ---------------------------------------------------------------------------------------------
  // The contract

  /** The save area of a suspended cothread belongs to it. */
  lemma AreaPrivate(h: Home, sp: int, x: int)
    requires Room(h, sp) && h.span.lo <= x < h.span.lo + AREA_BYTES
    ensures h.Private(sp, x)
  {
  }

  lemma HoldsIsLocal(m: Memory, m': Memory, h: Home, cpu: Context)
    requires SamePrivate(m, m', h, cpu.sp) && Holds(m, h, cpu)
    ensures Holds(m', h, cpu)
  {
    forall q | 0 <= q < WORDS ensures m'[h.span.lo + Offset(q)] == m[h.span.lo + Offset(q)] {
      AreaPrivate(h, cpu.sp, h.span.lo + Offset(q));
    }
  }

  /** The two halves of `Switch`. */
  function SaveAll(m: Memory, cpu: Context, area: int): Memory
    requires |cpu.regs| == 19
  {
    Stored(m, area, Groups(cpu))
  }

  /** The groups of `Switch` cover the words of an area. */
  lemma AreaLoaded(m: Memory, area: int, cpu: Context)
    requires |cpu.regs| == 19
    ensures LoadAll(m, area, Groups(cpu)) == Area(m, area)
  {
    LayoutLoads(m, area, Saved21(cpu));
    LayoutWords(Area(m, area), GROUPS);
  }

  lemma SwitchInHalves(m: Memory, cpu: Context, from: Home, to: Home)
    requires |cpu.regs| == 19 && Ready(m, from) && Ready(m, to) && Separate(from.span.lo, to.span.lo)
    ensures var m' := SaveAll(m, cpu, from.span.lo);
      Switch(m, cpu, from, to) == Arrive(m', Area(m', to.span.lo))
  {
    AlternatingIsSaveThenLoad(m, from.span.lo, to.span.lo, Groups(cpu));
    AreaLoaded(SaveAll(m, cpu, from.span.lo), to.span.lo, cpu);
  }

  lemma SavedWords(m: Memory, cpu: Context, area: int)
    requires |cpu.regs| == 19
    ensures Area(SaveAll(m, cpu, area), area) == Saved21(cpu)
  {
    LoadAllStored(m, area, Groups(cpu));
    AreaLoaded(SaveAll(m, cpu, area), area, cpu);
  }

  lemma SavePrivate(m: Memory, cpu: Context, h: Home, x: int)
    requires |cpu.regs| == 19 && Room(h, cpu.sp) && cpu.sp <= h.stack.hi && h.WellFormed()
    requires !h.Private(cpu.sp, x) || x == h.field
    ensures SaveAll(m, cpu, h.span.lo)[x] == m[x]
  {
    if h.span.lo <= x < h.span.lo + AREA_BYTES { AreaPrivate(h, cpu.sp, x); }
    StoredOutside(m, h.span.lo, Groups(cpu), x);
  }

  lemma SaveCorrect(m: Memory, cpu: Context, h: Home)
    requires CanSave(Representation(), m, cpu, h)
    ensures var m' := SaveAll(m, cpu, h.span.lo);
      Holds(m', h, cpu) && OnlyPrivate(m, m', h, cpu.sp)
  {
    forall x | !h.Private(cpu.sp, x) || x == h.field ensures SaveAll(m, cpu, h.span.lo)[x] == m[x] {
      SavePrivate(m, cpu, h, x);
    }
    SavedWords(m, cpu, h.span.lo);
  }

  lemma ApartSeparate(from: Home, sp: int, to: Home, sp': int)
    requires from.Apart(to) && Room(from, sp) && sp <= from.stack.hi && Room(to, sp') && sp' <= to.stack.hi
    ensures Separate(from.span.lo, to.span.lo)
  {
  }

  /** Saving one cothread does not disturb the context of another. */
  lemma ResumeAfterSave(m: Memory, m': Memory, from: Home, sp: int, to: Home, cont: Context)
    requires OnlyPrivate(m, m', from, sp) && sp <= from.stack.hi && from.Apart(to)
    requires Holds(m, to, cont) && UserCode(cont.pc) && cont.sp <= to.stack.hi
    ensures Arrive(m', Area(m', to.span.lo)) == Outcome(m', cont, NULL) && Ready(m', to)
  {
    HoldsIsLocal(m, m', to, cont);
    assert Saved21(cont)[2..] == cont.regs;
  }

  lemma EnterAfterSave(m: Memory, m': Memory, from: Home, sp: int, to: Home, info: Word)
    requires OnlyPrivate(m, m', from, sp) && sp <= from.stack.hi && from.Apart(to)
    requires Primed(m, to, info) && !to.Wrapper()
    ensures var out := Arrive(m', Area(m', to.span.lo));
      out.mem == m' && out.arg == info && CallEntry(to, out.cpu) && Ready(m', to)
  {
    ArriveFirst(m', to, info);
  }

  lemma SwitchCorrect(m: Memory, cpu: Context, from: Home, to: Home, cont: Context)
    ensures SwitchOk(Implementation(), Representation(), m, cpu, from, to, cont)
  {
    if CanSave(Representation(), m, cpu, from) && from.Apart(to) && Holds(m, to, cont) && UserCode(cont.pc)
      && cont.sp <= to.stack.hi {
      ApartSeparate(from, cpu.sp, to, cont.sp);
      SwitchInHalves(m, cpu, from, to);
      SaveCorrect(m, cpu, from);
      ResumeAfterSave(m, SaveAll(m, cpu, from.span.lo), from, cpu.sp, to, cont);
    }
  }

  lemma ArriveBack(m: Memory, h: Home, cpu: Context)
    requires Holds(m, h, cpu) && UserCode(cpu.pc)
    ensures Arrive(m, Area(m, h.span.lo)) == Outcome(m, cpu, NULL)
  {
    assert Saved21(cpu)[2..] == cpu.regs;
  }

  lemma SelfSwitchCorrect(m: Memory, cpu: Context, h: Home)
    ensures SelfSwitchOk(Implementation(), Representation(), m, cpu, h)
  {
    if CanSave(Representation(), m, cpu, h) {
      SwitchInHalves(m, cpu, h, h);
      SaveCorrect(m, cpu, h);
      ArriveBack(SaveAll(m, cpu, h.span.lo), h, cpu);
    }
  }

  lemma ArriveFirst(m: Memory, h: Home, info: Word)
    requires Primed(m, h, info) && !h.Wrapper()
    ensures var out := Arrive(m, Area(m, h.span.lo));
      out.mem == m && out.arg == info && CallEntry(h, out.cpu)
  {
    var ws := Area(m, h.span.lo);
    assert ws[0] == m[h.span.lo + Offset(0)] && ws[1] == m[h.span.lo + Offset(1)];
    assert ws[2] == m[h.span.lo + Offset(2)] && ws[12] == m[h.span.lo + Offset(12)];
  }

  lemma FirstSwitchCorrect(m: Memory, cpu: Context, from: Home, to: Home, info: Word)
    ensures FirstSwitchOk(Implementation(), Representation(), m, cpu, from, to, info)
  {
    if CanSave(Representation(), m, cpu, from) && from.Apart(to) && Primed(m, to, info) && !to.Wrapper() {
      ApartSeparate(from, cpu.sp, to, to.stack.hi);
      SwitchInHalves(m, cpu, from, to);
      SaveCorrect(m, cpu, from);
      EnterAfterSave(m, SaveAll(m, cpu, from.span.lo), from, cpu.sp, to, info);
    }
  }

  lemma RepresentationLocal()
    ensures Local(Representation())
  {
    var c := Representation();
    forall m, m', h, cont ensures HoldsLocal(c, m, m', h, cont) {
      if SamePrivate(m, m', h, cont.sp) && Holds(m, h, cont) { HoldsIsLocal(m, m', h, cont); }
    }
    forall m, m', h, info ensures PrimedLocal(c, m, m', h, info) {
      if SamePrivate(m, m', h, h.stack.hi) && Primed(m, h, info) { PrimedIsLocal(m, m', h, info); }
    }
  }

  lemma PrimedIsLocal(m: Memory, m': Memory, h: Home, info: Word)
    requires SamePrivate(m, m', h, h.stack.hi) && Primed(m, h, info)
    ensures Primed(m', h, info)
  {
  }

  lemma PrepareCorrect(m: Memory, h: Home, info: Word)
    ensures PrepareOk(Implementation(), Representation(), m, h, info)
  {
    if h.WellFormed() && !h.Wrapper() && Admits(h) { PrepareStores(m, h, info); }
  }

  lemma PrepareStores(m: Memory, h: Home, info: Word)
    requires h.WellFormed() && !h.Wrapper() && Admits(h)
    ensures Primed(Prepare(m, h, info), h, info) && OnlyPrivate(m, Prepare(m, h, info), h, h.stack.hi)
  {
  }

  lemma WrapCorrect(m: Memory, h: Home)
    ensures WrapOk(Implementation(), Representation(), m, h)
  {
  }

  lemma FinishCorrect(m: Memory, cpu: Context, h: Home)
    ensures FinishOk(Implementation(), Representation(), m, cpu, h)
  {
  }

  /** The aarch64 platform meets the contract of a backend. */
  lemma ImplementationCorrect()
    ensures Correct(Implementation(), Representation())
  {
    var b, c := Implementation(), Representation();
    RepresentationLocal();
    forall m, cpu, from, to, cont
      ensures SwitchOk(b, c, m, cpu, from, to, cont)
    {
      SwitchCorrect(m, cpu, from, to, cont);
    }
    forall m, cpu, from, to, info
      ensures FirstSwitchOk(b, c, m, cpu, from, to, info)
    {
      FirstSwitchCorrect(m, cpu, from, to, info);
    }
    forall m, cpu, h ensures SelfSwitchOk(b, c, m, cpu, h) { SelfSwitchCorrect(m, cpu, h); }
    forall m, h, info ensures PrepareOk(b, c, m, h, info) { PrepareCorrect(m, h, info); }
    forall m, h ensures WrapOk(b, c, m, h) { WrapCorrect(m, h); }
    forall m, cpu, h ensures FinishOk(b, c, m, cpu, h) { FinishCorrect(m, cpu, h); }
  }

  // ---------------------------------------------------------------------------------------------
  // Which stacks are large enough

  /** Whatever was in memory before, `Prepare` only stores to words of the stack and to `stackTop`. */
  ghost predicate StaysInside(h: Home) {
    forall m, info, x | !h.stack.Has(x) && x != h.field :: Prepare(m, h, info)[x] == m[x]
  }

  lemma SmallStackOverflows(h: Home, any: Memory)
    requires h.stack.hi - h.stack.lo < 104 && h.stack.hi % 8 == 0 && h.stack.lo % 8 == 0
    requires h.field != h.stack.lo + 96
    ensures !StaysInside(h)
  {
    var x := h.stack.lo + 96;
    var m: Memory := any[x := h.stack.hi + 1];
    assert !h.stack.Has(x) && Prepare(m, h, 0)[x] != m[x];
  }

  /** `Prepare` stays inside a stack buffer if and only if it has 104 bytes. */
  lemma StaysInsideIff(h: Home)
    requires h.stack.lo % 8 == 0 && h.stack.hi % 8 == 0 && h.field != h.stack.lo + 96
    ensures StaysInside(h) <==> h.stack.lo + 104 <= h.stack.hi
  {
    if h.stack.lo + 104 > h.stack.hi {
      var any: Memory :| true;
      SmallStackOverflows(h, any);
    }
  }

  /** Whatever was in memory and in the registers before, a `Switch` away from `h` only stores to words of
      its stack buffer. */
  ghost predicate SwitchStaysInside(h: Home) {
    forall m, cpu: Context, to, x | |cpu.regs| == 19 && Ready(m, h) && !h.stack.Has(x) ::
      Switch(m, cpu, h, to).mem[x] == m[x]
  }

  lemma SwitchStores(m: Memory, cpu: Context, h: Home, to: Home)
    requires |cpu.regs| == 19 && Ready(m, h)
    ensures Switch(m, cpu, h, to).mem == SaveAll(m, cpu, h.span.lo)
  {
  }

  lemma LargeStackSuffices(m: Memory, cpu: Context, h: Home, to: Home, x: int)
    requires |cpu.regs| == 19 && Ready(m, h) && !h.Wrapper()
    requires h.stack.lo + AREA_BYTES <= h.stack.hi && !h.stack.Has(x)
    ensures Switch(m, cpu, h, to).mem[x] == m[x]
  {
    SwitchStores(m, cpu, h, to);
    StoredOutside(m, h.span.lo, Groups(cpu), x);
  }

  /** The last word of the area, the saved d15, gets stored. */
  lemma LastWordStored(m: Memory, cpu: Context, h: Home, to: Home)
    requires |cpu.regs| == 19 && Ready(m, h) && !h.Wrapper()
    ensures Switch(m, cpu, h, to).mem[h.stack.lo + 0xA8] == cpu.regs[18]
  {
    SwitchStores(m, cpu, h, to);
    SavedWords(m, cpu, h.span.lo);
    assert Area(SaveAll(m, cpu, h.span.lo), h.span.lo)[20] == SaveAll(m, cpu, h.span.lo)[h.span.lo + Offset(20)];
  }

  lemma SmallAreaOverflows(h: Home, any: Memory)
    requires !h.Wrapper() && !h.stack.Has(h.stack.lo + 0xA8)
    ensures !SwitchStaysInside(h)
  {
    var m: Memory := any[h.field := h.span.lo];
    var cpu := Context(0, 0, seq(19, _ => m[h.stack.lo + 0xA8] + 1));
    LastWordStored(m, cpu, h, h);
  }

  /** `Switch` stays inside a stack buffer if and only if the words of the save area fit. */
  lemma SwitchStaysInsideIff(h: Home)
    requires !h.Wrapper() && h.stack.lo % 8 == 0 && h.stack.hi % 8 == 0
    ensures SwitchStaysInside(h) <==> h.stack.lo + AREA_BYTES <= h.stack.hi
  {
    if h.stack.lo + AREA_BYTES <= h.stack.hi {
      forall m, cpu: Context, to, x | |cpu.regs| == 19 && Ready(m, h) && !h.stack.Has(x)
        ensures Switch(m, cpu, h, to).mem[x] == m[x]
      {
        LargeStackSuffices(m, cpu, h, to, x);
      }
    } else {
      var any: Memory :| true;
      SmallAreaOverflows(h, any);
    }
  }

  lemma WordAligned(lo: int, hi: int)
    requires lo % 64 == 0 && (hi - lo) % 64 == 0
    ensures lo % 8 == 0 && hi % 8 == 0
  {
  }

  lemma SmallSizes(size: int)
    requires size % 64 == 0 && size > 0
    ensures (size < 104 <==> size == 64) && (size < AREA_BYTES <==> size == 64 || size == 128)
    ensures size >= AREA_BYTES <==> 192 <= size
  {
  }

  lemma PrepareTooSmall(h: Home)
    requires h.stack.lo % 64 == 0 && (h.stack.hi - h.stack.lo) % 64 == 0 && h.stack.lo < h.stack.hi
    requires h.field != h.stack.lo + 96
    ensures !StaysInside(h) <==> h.stack.hi - h.stack.lo == 64
  {
    WordAligned(h.stack.lo, h.stack.hi);
    SmallSizes(h.stack.hi - h.stack.lo);
    StaysInsideIff(h);
  }

  lemma SwitchTooSmall(h: Home)
    requires h.stack.lo % 64 == 0 && (h.stack.hi - h.stack.lo) % 64 == 0 && h.stack.lo < h.stack.hi && !h.Wrapper()
    ensures !SwitchStaysInside(h) <==> h.stack.hi - h.stack.lo == 64 || h.stack.hi - h.stack.lo == 128
    ensures SwitchStaysInside(h) <==> 192 <= h.stack.hi - h.stack.lo
  {
    WordAligned(h.stack.lo, h.stack.hi);
    SmallSizes(h.stack.hi - h.stack.lo);
    SwitchStaysInsideIff(h);
  }

  /** Among the sizes that validation accepts, `Prepare` leaves the buffer for 64 alone, and `Switch` for 64
      and 128 alone. */
  lemma AcceptedButTooSmall(h: Home)
    requires !h.Wrapper() && h.stack.lo % 64 == 0 && h.field != h.stack.lo + 96
    requires h.stack.lo <= h.stack.hi
    ensures var size := h.stack.hi - h.stack.lo;
      && (SizeAccepted(size, 64) && !StaysInside(h) <==> size == 64)
      && (SizeAccepted(size, 64) && !SwitchStaysInside(h) <==> size == 64 || size == 128)
  {
    if SizeAccepted(h.stack.hi - h.stack.lo, 64) {
      PrepareTooSmall(h);
      SwitchTooSmall(h);
    }
  }

  /** And every multiple of 64 from 192 is accepted and large enough for both. */
  lemma AcceptedAndLargeEnough(h: Home)
    requires !h.Wrapper() && h.stack.lo % 64 == 0 && h.field != h.stack.lo + 96
    requires h.stack.lo <= h.stack.hi
    ensures var size := h.stack.hi - h.stack.lo;
      SizeAccepted(size, 64) && StaysInside(h) && SwitchStaysInside(h) <==> size % 64 == 0 && 192 <= size
  {
    if h.stack.lo < h.stack.hi && (h.stack.hi - h.stack.lo) % 64 == 0 {
      PrepareTooSmall(h);
      SwitchTooSmall(h);
    }
  }

  /** The contract admits every aligned stack that `Switch` does not leave. */
  lemma AdmitsIff(h: Home)
    requires !h.Wrapper() && h.stack.lo % 8 == 0 && h.stack.hi % 16 == 0 && h.root == h.stack.hi
    ensures Admits(h) <==> SwitchStaysInside(h)
  {
    HalfAligned(h.stack.hi);
    SwitchStaysInsideIff(h);
  }

  lemma HalfAligned(x: int)
    requires x % 16 == 0
    ensures x % 8 == 0
  {
  }
}
