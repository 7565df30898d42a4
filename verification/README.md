# libcommunism: verified context switching

libcommunism runs cothreads: functions with stacks of their own, between which a program switches by hand. This project models how it does that and proves that it works, for every program that keeps the documented contract, any number of cothreads and kernel threads, and runs of any length.

`dafny verify dfyconfig.toml` checks everything.

## How it is built

* `Coroutine` is the specification: an abstract machine in which every suspended thread owns one saved continuation. It has no frames and no saved stack pointers. Its `Legal` predicate is the contract of the public interface (stacks that do not overlap, no stack overflow, no switch to a cothread that runs elsewhere, no destruction of a running one), and its `Inv` is an inductive invariant. A `User` step is arbitrary program code: any registers, any stores outside the words that the library relies on.
* `Runs` and `History` prove whole-run properties of that machine: resumption, and what its log of events tells about each cothread.
* `Backend` states what a platform implementation must do, without saying how. `System` is the library on a machine with one word memory, on top of any backend; `Cothread` is the same as imperative code. `Refinement` proves once that `System` on any correct backend does what `Coroutine` does.
* `StackFrame` (frames pushed onto the stack; parameterised by word size, number of saved words and what follows the entry function) and `SaveArea` (a save area at the low end of the buffer) are correct backends. `SysV`, `Windows`, `X86Fastcall` and `Aapcs` are the routines instruction by instruction, proved equal to them.
* `Platforms` draws the conclusions for the four platforms, from power-on. `Examples` shows for each of them that the contract allows the two scenarios of the library's test, so that the results are not empty. `Machine` is the storage they share, `Common` a few general definitions.
* `SetJmp` is the signal-based preparation protocol with its lock, process-wide signal disposition, global variable and per-thread signal stacks. `SetJmpRuns` states what its runs do in terms of the calls that the program made. `UContext` is the id table. `Sizes` is which stacks are accepted and how large the library makes its own, `StackSize` the arithmetic on `size_t` that sets part of them aside. `Ownership` is who frees what.

Where the code and its documentation differ, the model follows the code:

* A cothread that switches to itself just goes on (`Runs.SelfSwitch`), although the documentation says that this corrupts the stack.
* Validation of a stack size is documented to reject sizes that are too small, but only rejects zero and misaligned ones. `StackFrame.AcceptedButTooSmall` and `SaveArea.AcceptedButTooSmall` list exactly the accepted sizes with which a platform leaves the buffer. The allocating constructors do not validate at all; `StackFrame.RequestTooSmall` gives the exact ranges of requests with which amd64 and x86 leave their own allocation. The contract asks for more than the documentation there (`Admits`).
* A caller's buffer on the setjmp and ucontext platforms is not validated at all; `StackSize.SuppliedStack` says exactly when the context and the stack fit, and exactly when there is a stack at all: a buffer as large as the rounded context fits, with a stack of zero bytes.
* `emplace` keeps an entry that is already in the ucontext table. `UContext.RunExactly` says for exactly which runs no context is lost, and `UContext.IdsComeUpAgain` that a long run is not one of them. Signed overflow of the id counter is undefined in C++ and modelled as wrap-around; `UContext.RunsKeepPromises` is about runs without it.

Conventions that the proofs rely on: the System V AMD64 psABI, sections 3.2.1 (registers a function must preserve) and 3.2.2 (alignment of `%rsp + 8` at function entry); the AAPCS64, sections 6.1.1 and 6.1.2; the Microsoft x64 convention with its 32 bytes of shadow space; the Intel386 psABI, section 2.2.

## Model

| member | source | states |
|---|---|---|
| Refinement.RunSimulates | src/CothreadImpl.h:59-65 | for every backend that meets the contract, every legal program and every run length: nothing the library looks up is missing, and machine and abstract coroutine machine stay in related states |
| Refinement.StepSimulates | src/Cothread.cpp:99-142 | the same for one step of any kind, including lazy creation of a wrapper, the first switch and the return of an entry function |
| Platforms.Refines | src/Cothread.cpp:99-142 | from power-on, on each of the four platforms: refinement, the invariant, live call information equals preparations minus returns, one wrapper per kernel thread, an orderly history of every cothread; every entry that runs was given by the program when it created that cothread, and every return goes to the handler that the program had set last |
| Platforms.AllCorrect | src/CothreadImpl.h:59-65 | the four platforms meet the backend contract |
| Platforms.MachineResumes | src/arch/amd64/SysV.S:36-53 | on the machine: when a `switchTo` returns, however many switches later and on whatever kernel thread, program counter, stack pointer, preserved registers and live stack words are those of the call, and the cothread is current |
| Platforms.FirstEntry | src/arch/amd64/SysV.S:45-69 | the first switch enters `DereferenceCallInfo` as the platform requires, with the call information of that cothread, and the entry that runs is the one it was prepared with |
| Platforms.ReturnPath | src/arch/amd64/Common.cpp:82-94 | when an entry function returns, its call information, which exists, is deleted, and the return handler in force gets the cothread that returned, on the stack of that cothread and with the registers that the platform promises |
| Platforms.HandlerStack | src/arch/aarch64/Common.cpp:115-119 | which stack and registers those are: on x86 and aarch64 exactly those that the entry function left, on amd64 an aligned place below, with every preserved register but the frame pointer unchanged |
| Platforms.NullNeverLoaded | src/arch/amd64/SysV.S:42-45 | the null `stackTop` of a wrapper is never loaded, even by a switch from main to itself: what `Switch` loads points into the stack of the target |
| Platforms.WrapperStartsNull | src/arch/amd64/Common.cpp:104-106 | a new wrapper has a null `stackTop`, and nothing else has changed |
| Coroutine.StepKeepsInv | src/Cothread.cpp:117-142 | every step keeps the invariant: one current cothread per kernel thread, whose registers are its own; every other cothread suspended inside its stack or prepared; no storage shared |
| Runs.Resumption | include/libcommunism/Cothread.h:121-132 | resumption on the abstract machine, over any run that does not switch to or destroy the cothread |
| Runs.RunKeepsAsleep | src/Cothread.cpp:138-142 | a suspended cothread keeps its continuation and the words of its live stack over any run of others |
| Runs.MaySwitchIff | include/libcommunism/Cothread.h:121-132 | which switches the contract allows: to any cothread that does not run elsewhere, from any kernel thread, and to oneself, if there is room to save the context |
| Runs.SelfSwitch | include/libcommunism/Cothread.h:128-130 | switching to oneself changes nothing a program relies on |
| History.RunTells | src/arch/amd64/Common.cpp:91-94 | in every run each cothread is prepared, entered once with its own live entry and returned once with the same call information, in this order; each kernel thread gets at most one wrapper; live call information equals preparations minus returns |
| History.RunAsAsked | src/Cothread.cpp:130-136 | over any run: every prepared cothread was created by the program with that entry and call information, the handler in force is the one set last, and every return went to the one in force then |
| History.EntryWasGiven | src/arch/amd64/Common.cpp:91-94 | every entry that runs is the one that the program gave when it created the cothread |
| Cothread.Library.Current | src/Cothread.cpp:117-128 | returns the kernel thread's current cothread, after making a wrapper if there is none; the new state is that of the corresponding step |
| Cothread.Library.SwitchTo | src/Cothread.cpp:138-142 | the current cothread becomes the target, and the backend switches from the previous one; the new state is that of the corresponding step |
| Cothread.Library.Create | src/Cothread.cpp:99-101 | preparation of a new cothread with a stack of its own; the new state is that of the corresponding step |
| Cothread.Library.CreateOn | src/Cothread.cpp:103-105 | construction on a caller's stack: it succeeds exactly if the size is not zero and a multiple of the platform's alignment, then with the state of the corresponding step; otherwise nothing has changed |
| Cothread.Library.Destroy | include/libcommunism/Cothread.h:112-119 | the cothread is gone and nothing else changes |
| Cothread.Library.EntryReturns | src/arch/amd64/Common.cpp:82-94 | the call information is released and the return handler is called with the current cothread; the new state is that of the corresponding step |
| Cothread.Library.CallReturnHandler | src/Cothread.cpp:84-97 | called in `CothreadReturned`, after the call information was released, it calls the handler in force once; the default one ends the program |
| Cothread.Library.SetReturnHandler | src/Cothread.cpp:130-132 | replaces the handler and nothing else |
| Cothread.Library.ResetReturnHandler | src/Cothread.cpp:134-136 | puts the default handler back |
| StackFrame.ImplementationCorrect | src/arch/amd64/SysV.S:36-69 | frames on the stack meet the backend contract, for any word size and number of saved words with a 16-byte multiple of a frame |
| StackFrame.PlatformsSound | src/arch/amd64/Windows.cpp:20 | System V (8, 6), Windows (8, 28) and x86 (4, 4) are such platforms |
| StackFrame.PopPush | src/arch/amd64/SysV.S:36-51 | popping gives back any number of pushed words |
| StackFrame.SaveHolds | src/arch/amd64/SysV.S:36-42 | saving leaves a frame from which exactly the caller's context can be restored |
| StackFrame.SavePrivate | src/arch/amd64/SysV.S:36-42 | saving changes only words below the caller's stack pointer and its `stackTop` |
| StackFrame.RestoreResumes | src/arch/amd64/SysV.S:45-53 | restoring a saved frame gives back every register, the stack pointer and the return address |
| StackFrame.RestoreEnters | src/arch/amd64/SysV.S:45-69 | restoring a prepared frame reaches `DereferenceCallInfo` with its argument, zeroed registers, an aligned stack and its caller's frame inside the stack |
| StackFrame.PreparePrimes | src/arch/amd64/SysV.cpp:80-111 | `Prepare` leaves such a prepared frame, for every admissible stack |
| StackFrame.PreparePrivate | src/arch/amd64/SysV.cpp:89-110 | `Prepare` stores only inside the stack buffer and to `stackTop` |
| StackFrame.StackTopAfterPrepare | src/arch/amd64/SysV.cpp:89-110 | `stackTop` is the base plus the size rounded down to 16 minus w(8 + 2N), for any buffer |
| StackFrame.StaysInsideIff | src/arch/amd64/SysV.cpp:89-107 | `Prepare` stays inside a buffer if and only if it has at least w(8 + 2N) bytes |
| StackFrame.AcceptedButTooSmall | src/arch/amd64/SysV.cpp:27-30 | exactly which sizes pass validation and make `Prepare` leave the buffer, on each of the three platforms |
| StackFrame.AcceptedAndLargeEnough | src/arch/amd64/SysV.cpp:27-30 | the complement: accepted and without leaving the buffer are exactly the multiples of 64 from 192 on System V and from 512 on Windows, and of 16 from 64 on x86 |
| StackFrame.AdmitsIff | src/arch/amd64/SysV.cpp:89-107 | the contract admits an aligned stack if and only if `Prepare` stays inside |
| StackFrame.RequestTooSmall | src/arch/amd64/Common.cpp:32-46 | exactly which requests make `Prepare` leave the stack that the constructor allocated: 64 to 191 bytes on System V, 64 to 511 on Windows, 16 to 63 on x86 (src/arch/x86/Common.cpp, lines 40 to 54) |
| StackFrame.FinishReturns | src/arch/amd64/SysV.S:82-90 | when the entry call returns, the stub enters `CothreadReturned` aligned as for a function that was called, inside the stack, touching nothing above |
| StackFrame.HoldsIsLocal | src/arch/amd64/SysV.S:36-53 | a saved frame depends only on words that belong to the suspended cothread |
| SysV.Amd64.SwitchTo | src/arch/amd64/SysV.S:36-69 | the instructions of a call of `Switch`, up to the resumed code or the entry call, do what the frame model says |
| SysV.Amd64.SaveContext | src/arch/amd64/SysV.S:36-42 | pushes the six registers in order and stores the stack pointer |
| SysV.Amd64.RestoreContext | src/arch/amd64/SysV.S:45-53 | loads the stack pointer, pops the six registers in reverse order and returns |
| SysV.Amd64.JumpToEntry | src/arch/amd64/SysV.S:67-69 | takes the target and the argument from the stack |
| SysV.Amd64.Prepare | src/arch/amd64/SysV.cpp:80-111 | the pointer arithmetic and the stores of `Prepare` build the frame of the frame model |
| SysV.Amd64.Clear | src/arch/amd64/SysV.cpp:104-107 | the loop zeroes the saved registers and nothing else |
| SysV.Amd64.EntryReturnedStub | src/arch/amd64/SysV.S:82-90 | the stub's stores, its new frame pointer and its call |
| SysV.Amd64.EntryReturns | src/arch/amd64/SysV.S:82-90 | the return from the entry call does what the frame model says |
| Windows.Amd64.SwitchTo | src/arch/amd64/Windows.asm:12-82 | the instructions of a call of `Switch` do what the 28-word frame model says |
| Windows.Amd64.SaveVectors | src/arch/amd64/Windows.asm:22-36 | ten 128-bit stores at negative offsets and one subtraction build the layout that 20 pushes would |
| Windows.Amd64.RestoreVectors | src/arch/amd64/Windows.asm:41-54 | and the loads take the same words from it |
| Windows.PushXmm | src/arch/amd64/Windows.asm:22-33 | a 128-bit store below a run of pushes equals pushing its high and its low word |
| Windows.PopXmm | src/arch/amd64/Windows.asm:44-53 | a 128-bit load above a run of pops equals popping its low and its high word |
| Windows.Amd64.JumpToEntry | src/arch/amd64/Windows.asm:78-82 | takes the target and the argument from the stack |
| Windows.Amd64.Prepare | src/arch/amd64/Windows.cpp:81-112 | builds the first frame of the 28-word frame model |
| Windows.Amd64.EntryReturnedStub | src/arch/amd64/Windows.asm:89-96 | the stub keeps 32 bytes for its callee |
| Windows.Amd64.EntryReturns | src/arch/amd64/Windows.asm:89-96 | the return from the entry call does what the frame model says |
| X86Fastcall.X86.SwitchTo | src/arch/x86/Fastcall.S:26-53 | the instructions of a call of `Switch` do what the four-word frame model says |
| X86Fastcall.X86.Prepare | src/arch/x86/Common.cpp:165-203 | builds the first frame of the four-word frame model |
| X86Fastcall.X86.EntryReturns | src/arch/x86/Common.cpp:149-156 | `DereferenceCallInfo` calls `CothreadReturned` itself |
| SaveArea.ImplementationCorrect | src/arch/aarch64/AAPCS.S:42-93 | save areas meet the backend contract, including first entry with the argument carried in x19 |
| SaveArea.AlternatingIsSaveThenLoad | src/arch/aarch64/AAPCS.S:42-76 | however words are grouped, alternating stores and loads do what storing everything and then loading everything does if the areas are disjoint or the same, and load what was stored if they are the same |
| SaveArea.AlternatingStaysInside | src/arch/aarch64/Common.h:69 | only the first 0xB0 bytes of an area are stored to, and only they matter to what is loaded |
| SaveArea.SwitchInHalves | src/arch/aarch64/AAPCS.S:42-76 | a switch is a save followed by a restore of the 21 words |
| SaveArea.ArriveFirst | src/arch/aarch64/AAPCS.S:84-93 | the first switch reaches `DereferenceCallInfo` with its argument, on an aligned empty stack |
| SaveArea.PrepareStores | src/arch/aarch64/AAPCS.cpp:62-82 | `Prepare` leaves a save area with which that works, and touches nothing else |
| SaveArea.StaysInsideIff | src/arch/aarch64/AAPCS.cpp:62-82 | the stores of `Prepare` stay inside a buffer if and only if it has 104 bytes |
| SaveArea.SwitchStaysInsideIff | src/arch/aarch64/AAPCS.S:42-76 | the stores of `Switch`, from any registers and memory and to any target, stay inside the caller's buffer if and only if it has 0xB0 bytes |
| SaveArea.AcceptedButTooSmall | src/arch/aarch64/Common.cpp:96-99 | exactly which sizes pass validation and make a store of `Prepare` (64) or of `Switch` (64 and 128) leave the buffer |
| SaveArea.AcceptedAndLargeEnough | src/arch/aarch64/Common.cpp:96-99 | the complement: accepted and large enough for both are exactly the multiples of 64 from 192 |
| SaveArea.AdmitsIff | src/arch/aarch64/AAPCS.S:42-76 | the contract admits an aligned stack if and only if `Switch` stays inside |
| Aapcs.Aarch64.SwitchTo | src/arch/aarch64/AAPCS.S:42-93 | the alternating instructions of `Switch`, and the entry stub, do what the save area model says |
| Aapcs.Aarch64.ExchangeAll | src/arch/aarch64/AAPCS.S:46-73 | the eleven groups of stores and loads, in order |
| Aapcs.Aarch64.EntryStub | src/arch/aarch64/AAPCS.S:84-93 | moves x19 to the argument register and calls `DereferenceCallInfo` |
| Aapcs.Aarch64.Prepare | src/arch/aarch64/AAPCS.cpp:62-82 | the five stores of `Prepare` |
| Aapcs.Aarch64.EntryReturns | src/arch/aarch64/Common.cpp:115-119 | `DereferenceCallInfo` calls `CothreadReturned` itself, on the same stack and with the same preserved registers |
| Examples.BasicTest | test/src/basic.cpp:69-92 | on each platform the contract allows this scenario; control returns to main with its registers, and the counter is one |
| Examples.ReturnHandlerTest | test/src/basic.cpp:98-128 | on each platform the contract allows this scenario: the entry function returns, the handler that was set switches back to main, the cothread is destroyed, the handler is reset, and both counters are as the test requires |
| SetJmp.StepKeepsInv | src/arch/setjmp/SetJmp.cpp:137-208 | for any number of kernel threads interleaving single statements, none is undefined (no missing context, no jump to a zeroed buffer) and each keeps the invariant |
| SetJmp.RunsKeepPromises | src/arch/setjmp/SetJmp.cpp:158-186 | over any run: while the lock is free SIGUSR1 is as the program chose it, every kernel thread outside `Prepare` has its own signal stack, every cothread is entered at most once, on its own stack with its own entry, and resumes where it last left |
| SetJmpRuns.RunsDoAsAsked | src/arch/setjmp/SetJmp.cpp:93-208 | over any run from the start, in terms of the calls made: every entry that runs was given to `Prepare` for that cothread and runs on its stack; SIGUSR1 and the signal stacks are what the program chose last; the log has exactly the switches made, in order, each from the cothread that its kernel thread ran |
| SetJmpRuns.BegunThenEntered | src/arch/setjmp/SetJmp.cpp:137-208 | from a call of `Prepare` with an entry, whatever statements of others come between: the first switch to the cothread runs that entry on that cothread's stack |
| SetJmpRuns.BegunThenWaits | src/arch/setjmp/SetJmp.cpp:181-186 | a call of `Prepare` that is about to return leaves its cothread waiting with the entry that it was given |
| SetJmp.HandlerReadsOwn | src/arch/setjmp/SetJmp.cpp:200-208 | each signal handler reads the context that its own kernel thread installed, and fills in that cothread's jump buffer with a frame on that cothread's stack |
| SetJmp.LateBinding | src/arch/setjmp/SetJmp.cpp:93-100 | the first switch to a cothread runs the entry recorded when it was prepared, however many preparations have overwritten the global since |
| SetJmp.PreparedWaits | src/arch/setjmp/SetJmp.cpp:181-186 | a finished preparation leaves its cothread waiting with the entry recorded for it |
| SetJmp.SomeoneAdvances | src/arch/setjmp/SetJmp.cpp:158-186 | no deadlock: while cothreads are being prepared, some kernel thread can go on, and comes closer to the end |
| SetJmp.Uninterrupted | src/arch/setjmp/SetJmp.cpp:137-187 | the statements of one call, not interleaved, lead from each of ten states to the next, from the one that waits for the lock to the effect that the method `Continue` states |
| SetJmp.Library.Prepare | src/arch/setjmp/SetJmp.cpp:137-187 | records the given entry for the cothread; with the lock free, one call restores the disposition and the signal stack, frees the lock and fills in one jump buffer; with the lock held, it zeroes the buffer and waits |
| SetJmp.Library.Continue | src/arch/setjmp/SetJmp.cpp:158-187 | a call that waited has the same effect once the lock is free, and none before |
| SetJmp.Library.RaiseOn | src/arch/setjmp/SetJmp.cpp:161-182 | the critical section: everything it changes but the global and one jump buffer is put back |
| SetJmp.Library.SignalHandlerSetupThunk | src/arch/setjmp/SetJmp.cpp:200-208 | fills in the buffer that the global names, with the signal stack in force |
| SetJmp.Library.SwitchTo | src/arch/setjmp/SetJmp.cpp:93-100 | saves the caller's context and jumps to the buffer of the target |
| UContext.RunsKeepPromises | src/arch/ucontext/UContext.cpp:127-173 | with fewer than 2^31 - 1 preparations: ids are not zero and not shared, the table holds exactly the contexts of cothreads that wait, no look-up fails, every started cothread was given its own context |
| UContext.RunExactly | src/arch/ucontext/UContext.cpp:127-173 | for every legal run of any length: all look-ups succeed and every cothread is started with its own context or still can be, if and only if each preparation of the run was made while no waiting cothread had been prepared a multiple of 2^32 - 1 preparations earlier |
| UContext.RunRecords | src/arch/ucontext/UContext.cpp:127-173 | a run leaves exactly those cothreads prepared or started that the program prepared or started |
| UContext.PrepareExactly | src/arch/ucontext/UContext.cpp:130-135 | one preparation from a table that is right keeps it right if and only if no waiting cothread was prepared a multiple of 2^32 - 1 preparations earlier; otherwise the new context is lost |
| UContext.SameId | src/arch/ucontext/UContext.cpp:131-133 | two preparations get the same id if and only if a multiple of 2^32 - 1 lies between them |
| UContext.CollisionLosesContext | src/arch/ucontext/UContext.cpp:134 | after a collision the new cothread starts with the context of another, whose own look-up then fails |
| UContext.IdsComeUpAgain | src/arch/ucontext/UContext.cpp:131-134 | a legal run leads to a collision |
| UContext.Library.NextId | src/arch/ucontext/UContext.cpp:131-133 | the loop yields the next id and skips zero |
| UContext.Library.Prepare | src/arch/ucontext/UContext.cpp:128-135 | enters a context under the next id, unless there is one |
| UContext.Library.EntryStub | src/arch/ucontext/UContext.cpp:158-165 | takes the context out of the table, or finds none |
| Sizes.AcceptedIff | src/arch/amd64/SysV.cpp:27-30 | accepted are exactly the positive multiples of the alignment |
| Sizes.StackBytes | src/arch/amd64/Common.cpp:35-37 | a request below the alignment gets exactly the default, and any other a multiple of the alignment, at most the request and less than one alignment below it |
| StackSize.OwnedStack | src/arch/setjmp/SetJmp.cpp:39-47 | the stack that `Prepare` places in an allocation has exactly the size that such a request gets; it fits the allocation, and fills it together with the padded context, if and only if the sum does not wrap |
| StackSize.SuppliedStack | src/arch/setjmp/SetJmp.cpp:145-152 | in a caller's buffer context and stack fit if and only if the buffer is as large as the padded context, and the stack is not empty if and only if the buffer is larger |
| StackSize.AllocSize | src/arch/ucontext/UContext.cpp:40-48 | the constructor's arithmetic, with wrap-around: the size that such a request gets, plus the reserve rounded up to the next multiple of 64 |
| StackSize.SaveAreaAllocSize | src/arch/aarch64/Common.cpp:36-44 | the same for aarch64, with 0x100 bytes |
| StackSize.PlaceStack | src/arch/ucontext/UContext.cpp:118-125 | the stack starts at the first multiple of 64 after the context |
| StackSize.SaveAreaStack | src/arch/aarch64/Common.cpp:36-44 | the aarch64 allocation is always a multiple of 64, and has exactly the size that such a request gets after the save area if and only if the sum does not wrap |
| Ownership.RunsBalance | src/Cothread.cpp:99-115 | over any sequence of constructions and destructions: every address is freed as often as allocated, except once less while a live cothread owns it; implementation objects are destroyed in the mode they were created; callers' stacks are never freed |
| Ownership.AllocateObtains | src/arch/amd64/Common.cpp:32-46 | a constructor obtains its stack once, and its object once if that does not fit into 32 words, and nothing else |
| Ownership.AllocatedThenFreed | src/arch/amd64/Common.cpp:64-68 | over any run, that stack and that object are not released before the destructor of this cothread, which releases each exactly once |
| Ownership.BorrowObtains | src/arch/amd64/Common.cpp:56-59 | construction on a caller's stack obtains the object alone; when it throws, the object is released at once and there is no cothread |
| Ownership.BorrowedNotFreed | src/arch/amd64/Common.cpp:64-68 | over any run, the destructor of such a cothread releases its object if that is on the heap, and no stack |
| Ownership.WrapObtains | src/Cothread.cpp:117-128 | a wrapper obtains its object, always on the heap, and no stack |
| Ownership.FreesOnlyLive | src/arch/amd64/Common.cpp:64-68 | what a destructor frees was allocated once more than freed, and is then no longer in use |
| Ownership.StepKeepsInv | src/AllocImpl.h:20-32 | every construction, failed construction and destruction keeps the invariant |
| Ownership.Cothreads.Allocate | src/AllocImpl.h:20-32 | placement in the buffer exactly if size and alignment allow, for any word size, and allocation of the stack |
| Ownership.Cothreads.Borrow | src/arch/amd64/Common.cpp:56-59 | a caller's stack is validated and used; a constructor that throws leaves nothing behind |
| Ownership.Cothreads.Wrap | src/Cothread.cpp:117-128 | the wrapper of a kernel thread has its implementation object on the heap and no stack of its own |
| Ownership.Cothreads.Destroy | src/Cothread.cpp:108-115 | mirrors the placement |
| Ownership.Cothreads.DestroyImpl | src/arch/amd64/Common.cpp:64-68 | frees an owned stack and no other |

## Left out

- Kernel threads interleave between steps, not within them: a whole `switchTo` of one kernel thread is one step of `System`. The single statements of `SetJmp.cpp` do interleave.
- Memory is a map from addresses to words. Words that overlap without being equal, alignment faults and the width of a word are not modelled; addresses do not wrap.
- Addresses of code are symbols that only need to be distinct. Instructions are modelled by what they do to registers and memory, not as encoded bytes; flags, caller-saved registers other than arguments, floating point control registers and signal masks are not modelled.
- The C++ body of `DereferenceCallInfo` is modelled as the moments at which it is entered and at which its entry call has returned; the frame that a compiler gives it is not. So on x86 and aarch64 the stack pointer with which it calls `CothreadReturned` is the one with which it was entered, and nothing is said about the alignment of that call.
- A return handler that returns, stack overflow, destruction of the running cothread and a switch to a cothread that runs on another kernel thread are outside the contract (`Coroutine.Legal`), as the documentation has them.
- Thread-local variables are looked up afresh on every access; a cothread that continues on another kernel thread sees that thread's `gCurrent`. Compilers that cache the address are not modelled.
- Allocation failures, including those between two allocations of one constructor, and the failure paths of `SetJmp::Prepare`.
- The setjmp and ucontext platforms are not instances of `Backend`: `sigsetjmp`, `siglongjmp`, `makecontext` and `swapcontext` are taken to save and restore contexts.
- Other senders of SIGUSR1 and programs that change its disposition while a cothread is being prepared.
- Hardware memory ordering and the atomic fences.
- The alignment of the addresses that the allocators return, on which the amd64 and x86 constructors rely; `src/arch/x86/Fastcall.asm`, the same instructions in another syntax; `getStack`, `getStackSize`, labels and the text of the default handler.
- Cothread.Library.Destroy: says nothing about the storage of the implementation object and its stack, which is the subject of `Ownership`.
