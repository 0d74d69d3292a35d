# pip-mmu-x86-launcher: the root partition's boot sequence in Dafny

The launcher is the root partition of the Pip hypervisor on x86. Its `main`
does the following:

1. stores a pointer to the root's own setup context in VIDT slots 48 and 49;
2. checks the magic number of the boot information (`printBootInfo`) and
   initialises paging over the memory the boot information describes;
3. allocates five pages and creates a child partition with them;
4. maps the child image page by page at `0x700000`;
5. allocates and maps a stack page and a VIDT page for the child;
6. writes the child's first `user_ctx_t`;
7. yields to the child.

Every failure ends in `PANIC()`.

The project models that sequence and proves its properties. The model has
six modules:

- `Launcher` (`launcher.dfy`). The constants of `include/launcher.h`, the
  layout of `pushad_regs_t` and `user_ctx_t` (a datatype, its sixteen words
  and the offset of each field), and `uint32_t` wrap-around.
- `PipApi` (`pip_api.dfy`). The hypervisor as `main` sees it:
  - A `Step` is one action of the root. `Exec` is the trace `main`
    produces from a list of intended steps. The trace ends at the first
    refused step, included: a failed magic test of the root's own, or a call
    the hypervisor refuses, each followed by `PANIC()`. It also ends at a
    yield that hands the processor to the child.
  - A run ends `Halted` (at `PANIC()`) or `Transferred` (the child runs).
    A run of a block of steps that all went through ends `Completed`, and
    the run goes on with what follows the block.
  - `Replay` gives root memory after a trace.
  - The hypervisor's answers come from an oracle `Env`, keyed by call
    count. The k-th `Pip_AllocPage` returns `env.page(k)`. The k-th
    `Pip_MapPageWrapper` succeeds when `env.mapOk(k)`. `Pip_InitPaging` and
    `Pip_CreatePartition` answer `env.pagingOk` and `env.createOk`. The
    yield returns when `env.yieldReturns`.
  - `Machine` is a class holding root memory, the trace, the call counters
    and the run status. It has one method per foreign call, and `Panic`.
- `PlanSteps` (`plan_steps.dfy`). One method per kind of step. Each keeps
  the machine's trace, memory and status equal to `Exec`/`Replay` of a
  prefix of the intended steps.
- `RootPartition` (`root_partition.dfy`):
  - the intended steps of `main`, `Plan`, and the code loop's map calls,
    `CodeMaps`;
  - `main` itself as the imperative method `RootMain`, split into one
    method per phase, and `printBootInfo`'s check as `PrintBootInfo`;
  - `RootMain` is proved to leave the machine exactly as `Exec` and
    `Replay` of `Plan` say.
- `BootProperties` (`boot_properties.dfy`). What the run is for every
  answer of the hypervisor: the closed form `Expected`, with calls and
  allocations counted at each failure point.
- `MemoryProperties` (`memory_properties.dfy`). What root memory is at the
  end. It gives the saved VIDT slots, the child's VIDT entry, and every
  field of the child's context, with `valid` cleared first and set last.

## Details of main.c the model keeps

- The child starts with `eflags` `0x2` (main.c:179).
- `regs.esp` is the context's own address `0xffffefc0` (main.c:180), and
  `regs.ebp` is never written.
- Only slot 0 of the child's VIDT page is written (main.c:175).
- The context is written through `vidtPage[0]` (main.c:175-182). That
  pointer holds `0xffffefc0`, and the root dereferences it in its own
  address space. The model's context stores therefore go to root address
  `0xffffefc0`.
- Results of `Pip_AllocPage` are never checked (main.c:136-140, 162, 172).
- Every failure is `PANIC()` (include/launcher.h:12-17), with no failure
  code. The model shows it as the `Halted` status.
- After the yield, main.c decodes nothing: it holds no yield-result decoding
  and no interrupt handlers.

## Model

| member | source | states |
|---|---|---|
| Launcher.VidtSlot | include/launcher.h:6-10 | the address of VIDT entry `i` is word aligned and lies inside the VIDT page |
| Launcher.FieldIndex | include/launcher.h:19-40 | each field of a `user_ctx_t` is one of its 16 words |
| Launcher.FieldOffset | include/launcher.h:31-40 | each field's offset is word aligned, and the word fits inside `sizeof(user_ctx_t)` |
| Launcher.Words | include/launcher.h:19-40 | a context's memory image has 16 words, and the word at a field's index is that field's value |
| Launcher.FromWords | include/launcher.h:31-40 | decoding 16 words gives a context whose image is those words |
| Launcher.WordsRoundTrip | include/launcher.h:31-40 | decoding a context's image gives the context back |
| Launcher.FieldIndexInjective | include/launcher.h:19-40 | two different fields never share a word |
| Launcher.FieldIndexOnto | include/launcher.h:31-40 | every word of the record belongs to some field |
| Launcher.FieldsDetermine | include/launcher.h:31-40 | two contexts that agree on every field are equal |
| Launcher.AddressLayout | include/launcher.h:4-10 | the stack top, boot information and VIDT addresses are page aligned; the stack-top page and the VIDT page are adjacent; the boot information lies below both; a 256-entry VIDT fits in its page, the last page of the address space; a context is 64 bytes |
| PipApi.Granted | main.c:61-195 | which answer refuses each step: a wrong magic number (main.c:61-65), refused paging (130-134), refused creation (143-147), a refused map call (154-158, 165-169, 185-189), a yield that comes back (192-195); stores and allocations are never refused |
| PipApi.Exec | main.c:102-196 | carries out the steps in order; the first refused step is the last one (`PANIC()`); a granted yield is the last one too (the child runs); the run is never left Running and never longer than the plan |
| PipApi.ExecShape | main.c:130-195 | a run's trace is a prefix of the intended steps; a Completed run performed every step; a Transferred run ends with the yield; a non-empty plan leaves a non-empty trace |
| PipApi.Replay | main.c:116-182 | root memory after a trace: each store in order, the other steps leave memory alone; no address present before disappears |
| PipApi.FirstRefused | main.c:151-159 | the index of the first refused map call: every earlier call is granted, and this one is refused unless it is past the end |
| PipApi.ExecMaps | main.c:151-159 | a block of map calls runs up to and including the first refused call, or runs to its end |
| PipApi.ExecAppend | main.c:130-195 | a run that halts or hands over to the child inside `p` never attempts anything of `q`; a run that completes `p` continues with `q`, its map counter advanced by `p`'s map calls |
| PipApi.ReplayKeeps | main.c:116-182 | a trace with no store to address `a` leaves `a` as it was |
| PipApi.ReadCtx | include/launcher.h:31-40 | the context read at `base` has, in each field, the word at `base` plus that field's offset |
| PipApi.Machine.Write | main.c:116-117 | a 32-bit store by the running root: updates that one word, logs it, changes nothing else |
| PipApi.Machine.CheckBootMagic | main.c:61 | the test `bootinfo->magic == FPINFO_MAGIC`, logged as one step |
| PipApi.Machine.InitPagingCall | main.c:130 | `Pip_InitPaging(membegin, memend)` answers the oracle's verdict and is logged |
| PipApi.Machine.AllocPageCall | main.c:136-140 | the k-th allocation returns `env.page(k)`, advances the allocation counter and is logged |
| PipApi.Machine.CreatePartitionCall | main.c:143 | `Pip_CreatePartition` with the five pages answers the oracle's verdict and is logged |
| PipApi.Machine.MapPageCall | main.c:154 | the k-th `Pip_MapPageWrapper` answers `env.mapOk(k)`, advances the map counter and is logged with its three arguments |
| PipApi.Machine.YieldCall | main.c:192 | `Pip_Yield(pd, 0, 49, 0, 0)` is logged; control passes to the child unless the call comes back |
| PipApi.Machine.Panic | include/launcher.h:12-17 | `PANIC()` stops the root for good and changes neither memory nor the trace |
| PlanSteps.PanicStep | include/launcher.h:12-17 | after a refused call, `PANIC()` leaves the machine finished and Halted, with trace and memory those of the run so far |
| PlanSteps.YieldStep | main.c:191-195 | the final yield finishes the run: Transferred when the yield does not return, otherwise the `PANIC()` after it halts the root |
| RootPartition.SetupContextLayout | main.c:112-117 | the setup context sits at `0xffffdfc0` and ends at the stack top; VIDT slots 48 and 49 are at `0xfffff0c0` and `0xfffff0c4` |
| RootPartition.ChildContextLayout | main.c:175 | the child's context sits at `0xffffefc0`, above the stack top, and ends exactly where the VIDT starts; the load address `0x700000` is page aligned |
| RootPartition.LoopBound | main.c:151 | the loop test `offset < length` holds at `offset == k * PAGE_SIZE` exactly for the first ceil(length / 4096) values of `k` |
| RootPartition.NextOffset | main.c:151 | below the longest image, `offset += PAGE_SIZE` does not wrap |
| RootPartition.CodeMap | main.c:154 | the map call for offset `offset` maps `start + offset` to `0x700000 + offset` into `pd`, both 32-bit; a page-aligned offset gives a page-aligned child address, and a page-aligned source address when the image starts on a page |
| RootPartition.ContextWrites | main.c:176-182 | the seven context stores in main.c's order: each one a word inside the 64-byte record at `0xffffefc0`; the first clears `valid`, the last sets it, and none between touches it |
| RootPartition.Plan | main.c:112-195 | every step `main` takes when nothing is refused, in order: the two VIDT stores, the magic test, paging, five allocations, creation, the code maps, the stack page, the VIDT page with the context stores, the VIDT map, the yield |
| RootPartition.PlanOrder | main.c:112-195 | the plan has 23 steps plus one per code page; it begins with the two VIDT stores, the magic test and the paging call; it ends with `Pip_Yield(pd, 0, 49, 0, 0)`, the only yield in it |
| RootPartition.CodeMaps | main.c:150-159 | the code loop makes one map call per page of the image, ceil(length / 4096) calls in all |
| RootPartition.PrintBootInfo | main.c:55-73 | the magic number is checked once; the root keeps running exactly when it equals `FPINFO_MAGIC`, and halts otherwise; nothing else changes |
| RootPartition.StoreCtxField | main.c:176-182 | `vidtPage[0]->f = value` stores `value` at the address held in `vidtPage[0]` plus `f`'s offset, wrapped to 32 bits |
| RootPartition.SaveSetupContext | main.c:112-117 | the two VIDT writes run as the first two intended steps |
| RootPartition.CheckAndInitPaging | main.c:123-134 | the magic check, then paging initialisation; either refusal finishes the run Halted, and otherwise the run goes on |
| RootPartition.CreateChild | main.c:136-147 | five allocations, then the creation call with those pages; `pd` is the first page; a refusal finishes the run Halted |
| RootPartition.MapChildImage | main.c:149-159 | the loop issues exactly `CodeMaps`' calls in order and stops at the first refusal; otherwise it makes ceil(length / 4096) map calls |
| RootPartition.MapChildStack | main.c:161-169 | the sixth allocation is mapped at `INITIAL_STACK_TOP` in `pd`; a refusal finishes the run Halted |
| RootPartition.BuildChildVidt | main.c:171-182 | the seventh allocation is the VIDT page; it receives the context pointer, then the seven context stores run in the source's order |
| RootPartition.HandOff | main.c:184-195 | the VIDT page is mapped at `VIDT_ADDR`, then the yield; every outcome finishes the run |
| RootPartition.RootMain | main.c:102-196 | `main`'s run and final root memory are exactly `Exec` and `Replay` of the intended steps, whatever the hypervisor answers |
| BootProperties.RunsThroughSave | main.c:112-117 | the VIDT writes always succeed and hand over to what follows |
| BootProperties.RunsThroughValidation | main.c:124-134 | a bad magic number stops the run at the check; refused paging stops it right after; otherwise the run goes on |
| BootProperties.RunsThroughCreation | main.c:136-147 | the five allocations always succeed; a refused creation stops the run there |
| BootProperties.RunsThroughCode | main.c:150-159 | the code loop stops at its first refused map call, or runs through all of them and continues |
| BootProperties.RunsThroughStack | main.c:161-169 | the stack allocation always succeeds; a refused stack map stops the run there |
| BootProperties.RunsThroughHandOff | main.c:171-195 | the VIDT page and context writes always succeed; a refused VIDT map stops the run; otherwise the run ends with the yield |
| BootProperties.RunBadMagic | main.c:61-65 | with a bad magic number the run is the two VIDT writes and the check, then Halted |
| BootProperties.RunPagingRefused | main.c:130-134 | refused paging halts the run right after the paging call |
| BootProperties.RunValidated | main.c:124-134 | once validated, the run continues with the allocation phase |
| BootProperties.RunCreateRefused | main.c:143-147 | a refused creation halts the run right after the creation call |
| BootProperties.RunCreated | main.c:136-147 | once the child is created, the run continues with the code loop |
| BootProperties.RunCodeRefused | main.c:154-158 | a refused code-page map halts the run right after that call |
| BootProperties.RunImaged | main.c:150-159 | once every code page is mapped, the run continues with the stack |
| BootProperties.RunStackRefused | main.c:165-169 | a refused stack map halts the run right after it |
| BootProperties.RunStacked | main.c:161-169 | once the stack is mapped, the run continues with the VIDT |
| BootProperties.RunVidtRefused | main.c:185-189 | a refused VIDT map halts the run right after it |
| BootProperties.RunComplete | main.c:184-195 | when every call is granted the whole plan runs, and it ends Transferred unless the yield comes back |
| BootProperties.Expected | main.c:102-196 | the outcome of `main` case by case, in the fixed order of its checks; it always ends Halted or Transferred, and Transferred only after the whole plan, with a yield that does not come back |
| BootProperties.MainRunsToFirstRefusal | main.c:102-196 | for every hypervisor answer, the run is `Expected`: the steps in `main`'s order up to the first refused step, then Halted; the whole plan, then Transferred, when nothing is refused and the yield does not return |
| BootProperties.BadMagicHaltsBeforeAllocation | main.c:116-136 | a bad magic number halts after the two VIDT writes and the check, with no paging initialisation, allocation or map call |
| BootProperties.ValidationBeforeAllocation | main.c:124-140 | any allocation or map call implies the magic was right, paging succeeded, and the first four steps were the VIDT writes, the check and the paging call |
| BootProperties.CreationRefusedHaltsUnmapped | main.c:136-147 | a refused creation halts with exactly five allocations and no map call, the creation call last |
| BootProperties.CreatedCounts | main.c:136-140 | up to the creation call, exactly five allocations and no map call happen |
| BootProperties.CodeRefusalStopsLoop | main.c:151-159 | a refused code page halts the run with that call last; only the code pages up to it were mapped; there was no further allocation |
| BootProperties.StackRefusalHalts | main.c:161-169 | a refused stack map halts with six allocations; the maps are every code page then the stack page, with the stack map last |
| BootProperties.VidtRefusalHalts | main.c:184-189 | a refused VIDT map halts with everything but the yield done: seven allocations, and the maps of all code pages, the stack and the VIDT, with the VIDT map last |
| BootProperties.CompleteRun | main.c:161-195 | on full success: seven allocations; the maps are the code pages, the stack page at `INITIAL_STACK_TOP` and the VIDT page at `VIDT_ADDR`, all into `pd`; the last step is `Pip_Yield(pd, 0, 49, 0, 0)`; the run transfers exactly when the yield does not return |
| BootProperties.TransferIff | main.c:130-195 | control passes to the child if and only if the magic is right, paging, creation and every map call are granted, and the yield does not return |
| BootProperties.CodePagesCeiling | main.c:150-151 | the pages mapped cover the image, and overshoot it by less than one page: a partial last page is mapped whole |
| BootProperties.ImageBelowStack | main.c:150-159 | for an image of at most `0xff8fe000` bytes (`INITIAL_STACK_TOP - 0x700000`), the k-th code map sends `start + k*4096` (32-bit) to `0x700000 + k*4096` in `pd`; each target is page aligned and below the stack page, and the targets are disjoint and ascending. A longer image that the loop still accepts maps a code page at or above the stack page |
| MemoryProperties.ChildContext | main.c:175-182 | the context `main` builds: `valid` 1, `eip` `0x700000`, `pipflags` 0, `eflags` `0x2`, `esp` its own address, `ebx` `BOOTINFO_ADDR`; every other field, `ebp` included, unchanged |
| MemoryProperties.ContextWritesMemory | main.c:176-182 | the seven context stores leave memory as the explicit image of those writes |
| MemoryProperties.ValidClearedUntilLast | main.c:176-182 | `valid` reads 0 after the first store and after each store up to the sixth, and 1 only after the seventh |
| MemoryProperties.SaveMemory | main.c:113-117 | the first two stores set VIDT slots 48 and 49 to the setup context |
| MemoryProperties.CreatedMemory | main.c:113-147 | up to the creation call, memory changes only by the two VIDT writes |
| MemoryProperties.VidtSetupMemory | main.c:171-182 | the VIDT phase writes the context pointer into the VIDT page, then the seven context stores |
| MemoryProperties.HaltedEarlyMemory | main.c:116-169 | a run that stops before the VIDT phase leaves memory changed only in the two root VIDT slots |
| MemoryProperties.ReachedVidtMemory | main.c:171-195 | a run that reaches the VIDT phase leaves exactly the boot memory image, whatever happens after it |
| MemoryProperties.MainMemory | main.c:102-196 | root memory after `main` is `FinalMemory`: the two VIDT slots only, or those plus the child VIDT entry and the child context |
| MemoryProperties.RootVidtSaved | main.c:113-117 | whatever the hypervisor answers, as long as allocated pages are page aligned, root VIDT slots 48 and 49 both hold `0xffffdfc0` after `main` |
| MemoryProperties.ContextWritesResult | main.c:175-182 | the context read after the stores is `ChildContext` of the context read before them |
| MemoryProperties.ChildVidtEntry | main.c:175 | in the boot memory image, left by runs that reach the VIDT phase, slot 0 of the child's VIDT page holds `0xffffefc0`, for page-aligned allocations |
| MemoryProperties.BootContext | main.c:171-182 | in the boot memory, the context at `0xffffefc0` is `ChildContext` of what was there before |
| MemoryProperties.ChildFieldsWritten | main.c:176-182 | when the run reaches the VIDT phase, root memory at the end of `main` holds `valid` 1, `eip` `0x700000`, `pipflags` 0, `eflags` `0x2`, `esp` `0xffffefc0` and `ebx` `BOOTINFO_ADDR` at their offsets from `0xffffefc0`, whatever memory held before |
| MemoryProperties.ChildContextInitialised | main.c:171-182 | when the run reaches the VIDT phase, slot 0 of the child's VIDT page holds `0xffffefc0`, and the context there has the fields `ChildContext` lists |

## Left out

- The output of `printf`, `printBootInfo`'s printing and `printVIDT`
  (main.c:79-95) are diagnostics only and are not modelled.
- `FPINFO_MAGIC` is defined in pip/fpinfo.h, which is not part of this model.
  Its value is the parameter `env.fpinfoMagic`.
- The hypervisor calls are foreign. Their answers come from an oracle keyed
  by call count, not from a model of the kernel's page tables or allocator.
- `PANIC()`'s endless loop is modelled as the final status `Halted`.
- The linker symbols `_minimal_addr_start` and `_minimal_addr_end` are the
  parameters `start` and `end`. The image length is `end - start` wrapped
  to 32 bits.
- RootPartition.RootMain requires `end - start <= 2^32 - 4096`.
  RootPartition.MapChildImage requires the same. For a longer image,
  `offset += PAGE_SIZE` wraps back to offset 0 and the loop keeps issuing
  map calls until one is refused (then `PANIC()`), forever if none is;
  that behaviour is not modelled.
- RootPartition.RootMain, RootPartition.BuildChildVidt,
  MemoryProperties.RootVidtSaved, MemoryProperties.ChildVidtEntry,
  MemoryProperties.BootContext and MemoryProperties.ChildContextInitialised
  assume that `Pip_AllocPage` returns page-aligned addresses
  (`PagesAligned`). Without it, the store into slot 0 of the VIDT page could
  overwrite a root VIDT slot or a word of the child's context.
- Root memory is a map from addresses to 32-bit words. What the mappings
  make visible to the child, and any aliasing between the child's pages and
  root addresses, is not modelled.
- The hardware and kernel effects of the yield are out of scope: the saving
  of the root's registers and what the child does once it runs.
- MemoryProperties.ChildContextInitialised and MemoryProperties.BootContext
  state the whole child context only when every word of it is present in
  root memory beforehand. `ReadCtx` needs all sixteen words.
