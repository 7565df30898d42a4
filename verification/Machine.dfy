/** The storage a context switch works on: word memory, the callee-saved register context of a
    kernel thread, and the address ranges that belong to a cothread. */
module Machine {

  /** A machine word. Words are moved, never computed with, except for stack pointers. */
  type Word = int

  /** Word memory, indexed by the (word aligned) byte address of each word. */
  type Memory = m: imap<int, Word> | forall a :: a in m
    ghost witness imap a: int | true :: 0

  function Load(m: Memory, a: int): Word { m[a] }

  function Write(m: Memory, a: int, v: Word): Memory { m[a := v] }

  /** Program counter, stack pointer and the callee-saved registers in the order they are saved. */
  datatype Context = Context(pc: int, sp: int, regs: seq<Word>)

  // Addresses of the library's own routines. Only their distinctness matters.
  const NULL := 0
  const JUMP_TO_ENTRY := 1
  const DEREFERENCE_CALL_INFO := 2
  const ENTRY_RETURNED_STUB := 3
  const COTHREAD_RETURNED := 4
  const AARCH64_ENTRY_STUB := 5
  const ENTRY_RETURNED_STUB_END := 6
  const AARCH64_ENTRY_STUB_END := 7

  /** An address in the program rather than in one of the library's routines. */
  predicate UserCode(pc: int) {
    && pc != JUMP_TO_ENTRY
    && pc != DEREFERENCE_CALL_INFO
    && pc != ENTRY_RETURNED_STUB
    && pc != COTHREAD_RETURNED
    && pc != AARCH64_ENTRY_STUB
    && pc != ENTRY_RETURNED_STUB_END
    && pc != AARCH64_ENTRY_STUB_END
  }

  datatype Region = Region(lo: int, hi: int) {
    predicate Has(x: int) { lo <= x < hi }

    predicate Apart(that: Region) { hi <= that.lo || that.hi <= lo }
  }

  /** Where a cothread lives: the address of its `stackTop` field, the stack it runs on, the buffer
      its implementation was constructed with, and the stack pointer its entry function starts with.
      The buffer is the stack itself, except for the wrapper of a kernel thread, which runs on the
      kernel's stack and has a static buffer of its own. */
  datatype Home = Home(field: int, stack: Region, span: Region, root: int) {

    predicate Wrapper() { span != stack }

    /** The addresses the library may use while the cothread is suspended with stack pointer `sp`. */
    predicate Private(sp: int, x: int) {
      x == field || stack.lo <= x < sp || (Wrapper() && span.Has(x))
    }

    predicate WellFormed() {
      && 0 < stack.lo < root <= stack.hi
      && !stack.Has(field)
      && (Wrapper() ==> !span.Has(field) && span.Apart(stack))
    }

    /** No storage in common with region `r`. */
    predicate Clear(r: Region) { !r.Has(field) && stack.Apart(r) && span.Apart(r) }

    predicate Apart(that: Home) {
      && field != that.field
      && Clear(that.stack) && Clear(that.span)
      && !stack.Has(that.field) && !span.Has(that.field)
    }
  }

  /** `m` and `m'` differ only where a cothread with home `h` suspended at `sp` keeps its context. */
  ghost predicate OnlyPrivate(m: Memory, m': Memory, h: Home, sp: int) {
    forall x :: !h.Private(sp, x) ==> m'[x] == m[x]
  }

  ghost predicate SamePrivate(m: Memory, m': Memory, h: Home, sp: int) {
    forall x :: h.Private(sp, x) ==> m'[x] == m[x]
  }

  /** The words a program stores during one of its own steps. */
  ghost function Overlay(m: imap<int, Word>, writes: map<int, Word>): imap<int, Word> {
    imap x | x in m || x in writes :: if x in writes then writes[x] else m[x]
  }

  ghost function Store(m: Memory, writes: map<int, Word>): Memory {
    Overlay(m, writes)
  }
}
